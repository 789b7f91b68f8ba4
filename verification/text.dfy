/** String operations with the meaning Python gives them: `"".join`, `str.count`,
    `str.replace`, iterating a text file line by line, `str.split(c)`,
    `str.strip()`, `str.lower()`, `int(s)` and `str(n)`. */
module Text {
  import opened Wrappers

  /** `"".join(pieces)`. */
  function Concat(pieces: seq<string>): string
  {
    if pieces == [] then "" else pieces[0] + Concat(pieces[1..])
  }

  lemma {:induction false} ConcatAppend(a: seq<string>, b: seq<string>)
    ensures Concat(a + b) == Concat(a) + Concat(b)
  {
    if a == [] {
      assert a + b == b;
    } else {
      assert (a + b)[1..] == a[1..] + b;
      ConcatAppend(a[1..], b);
    }
  }

  // ---------------------------------------------------------------------------
  // Occurrences, `in`, `str.count` and `str.replace`
  // ---------------------------------------------------------------------------

  /** `t` occurs in `s` starting at index `i`. */
  predicate OccursAt(s: string, t: string, i: int)
  {
    0 <= i && i + |t| <= |s| && s[i..i + |t|] == t
  }

  /** Python's `t in s`. */
  predicate Contains(s: string, t: string)
  {
    exists i | 0 <= i <= |s| - |t| :: OccursAt(s, t, i)
  }

  /** Python's `s.count(t)` for a non-empty `t`: non-overlapping occurrences,
      scanning from the left. */
  function Count(s: string, t: string): nat
    requires t != ""
    decreases |s|
  {
    if |s| < |t| then 0
    else if s[..|t|] == t then 1 + Count(s[|t|..], t)
    else Count(s[1..], t)
  }

  /** Python's `s.replace(t, u)` for a non-empty `t`: every non-overlapping
      occurrence, scanning from the left, is replaced. */
  function Replace(s: string, t: string, u: string): string
    requires t != ""
    decreases |s|
  {
    if |s| < |t| then s
    else if s[..|t|] == t then u + Replace(s[|t|..], t, u)
    else [s[0]] + Replace(s[1..], t, u)
  }

  lemma ShiftOccurrence(s: string, t: string, i: int)
    requires |s| > 0 && 1 <= i
    ensures OccursAt(s, t, i) <==> OccursAt(s[1..], t, i - 1)
  {
    if i + |t| <= |s| {
      assert s[1..][i - 1..i - 1 + |t|] == s[i..i + |t|];
    }
  }

  /** The count is positive exactly when the text occurs (both directions). */
  lemma {:induction false} CountPositiveIffContains(s: string, t: string)
    requires t != ""
    ensures Count(s, t) > 0 <==> Contains(s, t)
    decreases |s|
  {
    if |s| < |t| {
    } else if s[..|t|] == t {
      assert OccursAt(s, t, 0);
    } else {
      CountPositiveIffContains(s[1..], t);
      if Contains(s, t) {
        var i :| 0 <= i <= |s| - |t| && OccursAt(s, t, i);
        assert i != 0;
        ShiftOccurrence(s, t, i);
      }
      if Contains(s[1..], t) {
        var j :| 0 <= j <= |s[1..]| - |t| && OccursAt(s[1..], t, j);
        ShiftOccurrence(s, t, j + 1);
      }
    }
  }

  /** With no occurrence, replacing changes nothing. */
  lemma {:induction false} ReplaceWithoutOccurrence(s: string, t: string, u: string)
    requires t != "" && Count(s, t) == 0
    ensures Replace(s, t, u) == s
    decreases |s|
  {
    if |s| >= |t| {
      ReplaceWithoutOccurrence(s[1..], t, u);
      assert [s[0]] + s[1..] == s;
    }
  }

  /** Each replaced occurrence changes the length by `|u| - |t|`. */
  lemma {:induction false} ReplaceLength(s: string, t: string, u: string)
    requires t != ""
    ensures |Replace(s, t, u)| == |s| + Count(s, t) * (|u| - |t|)
    decreases |s|
  {
    if |s| < |t| {
    } else if s[..|t|] == t {
      var rest := s[|t|..];
      ReplaceLength(rest, t, u);
      OneMoreOccurrence(|Replace(rest, t, u)|, |rest|, Count(rest, t), |t|, |u|);
    } else {
      ReplaceLength(s[1..], t, u);
    }
  }

  /** The length bookkeeping of one more replaced occurrence. */
  lemma OneMoreOccurrence(replaced: int, len: int, c: int, tLen: int, uLen: int)
    requires replaced == len + c * (uLen - tLen)
    ensures uLen + replaced == (tLen + len) + (c + 1) * (uLen - tLen)
  {
    assert (c + 1) * (uLen - tLen) == c * (uLen - tLen) + (uLen - tLen);
  }

  // ---------------------------------------------------------------------------
  // Lines, as a text file yields them: each line keeps its terminating '\n'
  // ---------------------------------------------------------------------------

  /** Length of the first line of `s`, its '\n' included when there is one. */
  function LineEnd(s: string): (k: nat)
    ensures k <= |s|
    ensures s != "" ==> 0 < k
    ensures forall j :: 0 <= j < k - 1 ==> s[j] != '\n'
    ensures k < |s| ==> s[k - 1] == '\n'
    decreases |s|
  {
    if s == "" then 0 else if s[0] == '\n' then 1 else 1 + LineEnd(s[1..])
  }

  /** The lines of `s`, in order, terminators kept. */
  function Lines(s: string): seq<string>
    decreases |s|
  {
    if s == "" then [] else var k := LineEnd(s); [s[..k]] + Lines(s[k..])
  }

  /** Joining the lines gives the text back. */
  lemma {:induction false} ConcatLines(s: string)
    ensures Concat(Lines(s)) == s
    decreases |s|
  {
    if s != "" {
      var k := LineEnd(s);
      ConcatLines(s[k..]);
      assert s[..k] + s[k..] == s;
    }
  }

  /** Every line is non-empty, holds a '\n' only as its last character, and
      every line but the last ends with one. */
  lemma {:induction false} LinesShape(s: string, i: nat)
    requires i < |Lines(s)|
    ensures Lines(s)[i] != ""
    ensures forall j :: 0 <= j < |Lines(s)[i]| - 1 ==> Lines(s)[i][j] != '\n'
    ensures i < |Lines(s)| - 1 ==> Lines(s)[i][|Lines(s)[i]| - 1] == '\n'
    decreases |s|
  {
    var k := LineEnd(s);
    if i > 0 {
      LinesShape(s[k..], i - 1);
    } else if i < |Lines(s)| - 1 {
      assert s[k..] != "";
    }
  }

  // ---------------------------------------------------------------------------
  // `sep.join(pieces)` and `s.split(c)`
  // ---------------------------------------------------------------------------

  function Join(pieces: seq<string>, sep: string): string
  {
    if pieces == [] then ""
    else if |pieces| == 1 then pieces[0]
    else pieces[0] + sep + Join(pieces[1..], sep)
  }

  /** Index of the first `c` in `s`, or `|s|` when there is none. */
  function FieldEnd(s: string, c: char): (k: nat)
    ensures k <= |s|
    ensures forall j :: 0 <= j < k ==> s[j] != c
    ensures k < |s| ==> s[k] == c
    decreases |s|
  {
    if s == "" then 0 else if s[0] == c then 0 else 1 + FieldEnd(s[1..], c)
  }

  /** Python's `s.split(c)`: always at least one piece; empty pieces kept. */
  function Split(s: string, c: char): (r: seq<string>)
    ensures |r| >= 1
    decreases |s|
  {
    var k := FieldEnd(s, c);
    if k == |s| then [s] else [s[..k]] + Split(s[k + 1..], c)
  }

  /** Splitting and joining back with the same separator is the identity,
      and no piece contains the separator. */
  lemma JoinSplit(s: string, c: char)
    ensures Join(Split(s, c), [c]) == s
    ensures forall p, j :: p in Split(s, c) && 0 <= j < |p| ==> p[j] != c
  {
    JoinSplitRoundTrip(s, c);
    SplitPiecesFree(s, c);
  }

  /** The round trip of `JoinSplit`, one piece at a time. */
  lemma {:induction false} JoinSplitRoundTrip(s: string, c: char)
    ensures Join(Split(s, c), [c]) == s
    decreases |s|
  {
    var k := FieldEnd(s, c);
    if k < |s| {
      var rest := Split(s[k + 1..], c);
      JoinSplitRoundTrip(s[k + 1..], c);
      assert Split(s, c) == [s[..k]] + rest;
      assert ([s[..k]] + rest)[1..] == rest;
      assert Join([s[..k]] + rest, [c]) == s[..k] + [c] + Join(rest, [c]);
      assert s[..k] + [c] + s[k + 1..] == s;
    }
  }

  /** The pieces of `JoinSplit`: each ends before the next separator. */
  lemma {:induction false} SplitPiecesFree(s: string, c: char)
    ensures forall p, j :: p in Split(s, c) && 0 <= j < |p| ==> p[j] != c
    decreases |s|
  {
    var k := FieldEnd(s, c);
    if k < |s| {
      var rest := Split(s[k + 1..], c);
      SplitPiecesFree(s[k + 1..], c);
      assert Split(s, c) == [s[..k]] + rest;
      forall p | p in Split(s, c)
        ensures forall j :: 0 <= j < |p| ==> p[j] != c
      {
        if p !in rest {
          assert p == s[..k];
        }
      }
    }
  }

  // ---------------------------------------------------------------------------
  // `str.strip()` and `str.lower()` on the ASCII range
  // ---------------------------------------------------------------------------

  /** `str.isspace` on the ASCII range: space, tab, the line breaks and the
      four separators U+001C to U+001F. */
  predicate IsSpace(c: char)
  {
    || c == ' ' || c == '\t' || c == '\n' || c == '\r' || c == '\U{000B}' || c == '\U{000C}'
    || ('\U{001C}' <= c <= '\U{001F}')
  }

  function StripLeft(s: string): string
    decreases |s|
  {
    if s != "" && IsSpace(s[0]) then StripLeft(s[1..]) else s
  }

  function StripRight(s: string): string
    decreases |s|
  {
    if s != "" && IsSpace(s[|s| - 1]) then StripRight(s[..|s| - 1]) else s
  }

  function Strip(s: string): string
  {
    StripRight(StripLeft(s))
  }

  lemma {:induction false} StripLeftShape(s: string)
    ensures StripLeft(s) == "" || !IsSpace(StripLeft(s)[0])
    ensures |StripLeft(s)| <= |s| && StripLeft(s) == s[|s| - |StripLeft(s)|..]
    decreases |s|
  {
    if s != "" && IsSpace(s[0]) {
      StripLeftShape(s[1..]);
      var k := |s| - |StripLeft(s)|;
      assert s[1..][k - 1..] == s[k..];
    } else {
      assert s == s[0..];
    }
  }

  lemma {:induction false} StripRightShape(s: string)
    ensures StripRight(s) == "" || !IsSpace(StripRight(s)[|StripRight(s)| - 1])
    ensures |StripRight(s)| <= |s| && StripRight(s) == s[..|StripRight(s)|]
    ensures s != "" && !IsSpace(s[0]) ==> StripRight(s) != "" && StripRight(s)[0] == s[0]
    decreases |s|
  {
    if s != "" && IsSpace(s[|s| - 1]) {
      StripRightShape(s[..|s| - 1]);
      var j := |StripRight(s)|;
      assert s[..|s| - 1][..j] == s[..j];
    } else {
      assert s == s[..|s|];
    }
  }

  /** `s.strip()` has no surrounding whitespace and is a contiguous part of `s`. */
  lemma StripShape(s: string)
    ensures var r := Strip(s);
      (r == "" || (!IsSpace(r[0]) && !IsSpace(r[|r| - 1]))) &&
      exists i, j :: 0 <= i <= j <= |s| && r == s[i..j]
  {
    StripLeftShape(s);
    var l := StripLeft(s);
    StripRightShape(l);
    var r := StripRight(l);
    assert r == Strip(s);
    var i := |s| - |l|;
    var j := |r|;
    assert r == l[..j] == s[i..][..j] == s[i..i + j];
    assert 0 <= i <= i + j <= |s|;
    StripRightKeepsStart(l);
  }

  /** Stripping on the right keeps a first character that is not a space. */
  lemma StripRightKeepsStart(l: string)
    requires l == "" || !IsSpace(l[0])
    ensures var r := StripRight(l);
      r == "" || (!IsSpace(r[0]) && !IsSpace(r[|r| - 1]))
  {
    StripRightShape(l);
  }

  function LowerChar(c: char): char
  {
    if 'A' <= c <= 'Z' then (c as int + 32) as char else c
  }

  /** `s.lower()` on ASCII letters. */
  function Lower(s: string): string
  {
    seq(|s|, i requires 0 <= i < |s| => LowerChar(s[i]))
  }

  // ---------------------------------------------------------------------------
  // `str(n)` and `int(s)` on decimal integers
  // ---------------------------------------------------------------------------

  predicate IsDigit(c: char)
  {
    '0' <= c <= '9'
  }

  predicate AllDigits(s: string)
  {
    forall i :: 0 <= i < |s| ==> IsDigit(s[i])
  }

  function DigitChar(d: nat): char
    requires d < 10
  {
    ('0' as int + d) as char
  }

  /** `str(n)` for a natural number. */
  function NatToString(n: nat): (r: string)
    ensures r != "" && AllDigits(r)
    decreases n
  {
    if n < 10 then [DigitChar(n)] else NatToString(n / 10) + [DigitChar(n % 10)]
  }

  /** `str(i)` for an integer. */
  function IntToString(i: int): string
  {
    if i < 0 then "-" + NatToString(-i) else NatToString(i)
  }

  function DigitsValue(s: string): nat
    requires AllDigits(s)
    decreases |s|
  {
    if s == "" then 0 else DigitsValue(s[..|s| - 1]) * 10 + (s[|s| - 1] as int - '0' as int)
  }

  /** `int(s)`: surrounding whitespace is ignored, then an optional sign
      followed by one or more decimal digits; anything else is a
      ValueError, modelled as None. */
  function ParseInt(s: string): Option<int>
  {
    ParseNumeral(Strip(s))
  }

  function ParseNumeral(s: string): Option<int>
  {
    if s != "" && (s[0] == '-' || s[0] == '+') then
      if |s| > 1 && AllDigits(s[1..]) then
        Some(if s[0] == '-' then -(DigitsValue(s[1..]) as int) else DigitsValue(s[1..]))
      else None
    else if s != "" && AllDigits(s) then Some(DigitsValue(s))
    else None
  }

  lemma {:induction false} DigitsOfNat(n: nat)
    ensures DigitsValue(NatToString(n)) == n
    decreases n
  {
    if n >= 10 {
      DigitsOfNat(n / 10);
      var p := NatToString(n / 10);
      assert (p + [DigitChar(n % 10)])[..|p|] == p;
    }
  }

  /** Printing an integer and parsing it back gives the integer. */
  lemma ParseIntToString(i: int)
    ensures ParseInt(IntToString(i)) == Some(i)
  {
    var s := IntToString(i);
    var d := if i < 0 then NatToString(-i) else NatToString(i);
    assert s[|s| - 1] == d[|d| - 1];
    assert StripLeft(s) == s && StripRight(s) == s;
    if i < 0 {
      DigitsOfNat(-i);
      assert IntToString(i)[1..] == NatToString(-i);
    } else {
      DigitsOfNat(i);
    }
  }
}
