/** The computer tool's pure parts (computer-use-demo/computer_use_demo/tools/computer.py):
    splitting typed text into groups, checking an action's arguments, and
    mapping coordinates between the real screen and the resolution the
    model sees.

    The shell, xdotool and screenshots are outside the model: a valid
    action ends in the `Command` it would run. */
module Computer {
  import opened Wrappers
  import opened Text

  // ---------------------------------------------------------------------------
  // `chunks`
  // ---------------------------------------------------------------------------

  const TypingGroupSize: nat := 50

  /** `chunks(s, n)`: consecutive pieces of length `n`, the last one shorter
      when `n` does not divide the length. */
  function Chunks(s: string, n: nat): (r: seq<string>)
    requires n > 0
    ensures Concat(r) == s
    ensures r == [] <==> s == ""
    ensures forall i | 0 <= i < |r| :: 0 < |r[i]| <= n
    ensures forall i | 0 <= i < |r| - 1 :: |r[i]| == n
    decreases |s|
  {
    if s == "" then []
    else if |s| <= n then
      assert Concat([s]) == s + Concat([]);
      [s]
    else
      var rest := Chunks(s[n..], n);
      assert ([s[..n]] + rest)[1..] == rest;
      assert s[..n] + s[n..] == s;
      [s[..n]] + rest
  }

  /** The number of chunks is the length divided by `n`, rounded up. */
  lemma {:induction false} ChunksCount(s: string, n: nat)
    requires n > 0
    ensures |Chunks(s, n)| * n >= |s| > (|Chunks(s, n)| - 1) * n
    decreases |s|
  {
    if |s| > n {
      ChunksCount(s[n..], n);
      var k := |Chunks(s[n..], n)|;
      assert |Chunks(s, n)| == k + 1;
      OneMoreChunk(k, n, |s|);
    } else if s == "" {
      assert Chunks(s, n) == [];
    } else {
      assert Chunks(s, n) == [s];
    }
  }

  /** One more full chunk of `n` moves both bounds up by `n`. */
  lemma OneMoreChunk(k: int, n: nat, len: int)
    requires k * n >= len - n > (k - 1) * n
    ensures (k + 1) * n >= len > k * n
  {
    assert (k + 1) * n == k * n + n;
    assert k * n == (k - 1) * n + n;
  }

  // ---------------------------------------------------------------------------
  // `_scale_coordinates`
  // ---------------------------------------------------------------------------

  datatype Resolution = Resolution(width: int, height: int)

  /** `MAX_SCALING_TARGETS`, in its order: XGA, WXGA, FWXGA. */
  const MaxScalingTargets: seq<Resolution> :=
    [Resolution(1024, 768), Resolution(1280, 800), Resolution(1366, 768)]

  /** The module globals `width`, `height` and `_scaling_enabled`. */
  datatype Screen = Screen(width: int, height: int, scalingEnabled: bool)

  /** What loading the module insists on: `assert width and height`. */
  predicate ValidScreen(s: Screen)
  {
    s.width != 0 && s.height != 0
  }

  datatype ScalingSource = Computer | Api

  function Abs(i: int): nat
  {
    if i < 0 then -i else i
  }

  /** `abs(d.width / d.height - width / height) < 0.02`, multiplied out by
      `d.height * |height| * 50` so that no division is left. */
  predicate AspectMatches(d: Resolution, s: Screen)
  {
    Abs(d.width * s.height - d.height * s.width) * 50 < d.height * Abs(s.height)
  }

  /** The position of the first target at or after `i` whose aspect ratio
      matches the screen's: where the search loop breaks. */
  function FirstMatch(s: Screen, i: nat): (k: Option<nat>)
    requires i <= |MaxScalingTargets|
    ensures k.Some? ==> i <= k.value < |MaxScalingTargets| && AspectMatches(MaxScalingTargets[k.value], s)
    ensures forall j | i <= j < |MaxScalingTargets| && (k.None? || j < k.value) ::
      !AspectMatches(MaxScalingTargets[j], s)
    decreases |MaxScalingTargets| - i
  {
    if i == |MaxScalingTargets| then None
    else if AspectMatches(MaxScalingTargets[i], s) then Some(i)
    else FirstMatch(s, i + 1)
  }

  /** The first matching target, kept only when it is narrower than the
      screen; the search never looks past the first match. */
  function TargetFor(s: Screen): (t: Option<Resolution>)
    ensures t.Some? ==> t.value in MaxScalingTargets && AspectMatches(t.value, s) && t.value.width < s.width
    ensures t.Some? <==> FirstMatch(s, 0).Some? && MaxScalingTargets[FirstMatch(s, 0).value].width < s.width
    ensures t.Some? ==> t.value == MaxScalingTargets[FirstMatch(s, 0).value]
  {
    match FirstMatch(s, 0)
    case None => None
    case Some(k) =>
      var d := MaxScalingTargets[k];
      if d.width < s.width then Some(d) else None
  }

  /** A target can only be chosen for a screen of positive size. */
  lemma TargetScreenPositive(s: Screen)
    requires TargetFor(s).Some?
    ensures s.width > 0 && s.height > 0
  {
  }

  /** Python's `round(n / d)`: the nearest integer, ties to the even one. */
  function RoundHalfEven(n: int, d: int): (r: int)
    requires d > 0
    ensures 2 * Abs(n - r * d) <= d
    ensures 2 * Abs(n - r * d) == d ==> r % 2 == 0
  {
    var q := n / d;
    var m := n % d;
    assert n == q * d + m;
    if 2 * m < d then q
    else if 2 * m > d then
      assert n - (q + 1) * d == m - d;
      q + 1
    else if q % 2 == 0 then q
    else
      assert n - (q + 1) * d == m - d;
      q + 1
  }

  /** Multiplying by a positive number keeps the order, both ways. */
  lemma MulLess(a: int, b: int, d: int)
    requires d > 0
    ensures a < b <==> a * d < b * d
  {
    assert b * d - a * d == (b - a) * d;
  }

  /** Rounding keeps a quotient that lies between two integers between them. */
  lemma RoundBetween(n: int, d: int, lo: int, hi: int)
    requires d > 0 && lo * d <= n <= hi * d
    ensures lo <= RoundHalfEven(n, d) <= hi
  {
    var r := RoundHalfEven(n, d);
    assert n - d < r * d < n + d;
    assert (hi + 1) * d == hi * d + d;
    assert (lo - 1) * d == lo * d - d;
    MulLess(r, hi + 1, d);
    MulLess(lo - 1, r, d);
  }

  /** Rounding an exact quotient gives the quotient. */
  lemma RoundExact(q: int, d: int)
    requires d > 0
    ensures RoundHalfEven(q * d, d) == q
  {
    var r := RoundHalfEven(q * d, d);
    RoundBetween(q * d, d, q, q);
  }

  /** The refusal of a point beyond the screen, given the coordinates as
      an f-string prints them. */
  function OutOfBounds(x: string, y: string): string
  {
    "Coordinates " + x + ", " + y + " are out of bounds"
  }

  /** `_scale_coordinates`: the identity unless scaling is on and a target
      was chosen; coordinates from the model are checked against the
      screen and scaled up, coordinates from the screen are scaled down. */
  function ScaleSpec(s: Screen, source: ScalingSource, x: int, y: int): Result<(int, int), string>
  {
    if !s.scalingEnabled then Success((x, y))
    else match TargetFor(s)
      case None => Success((x, y))
      case Some(t) =>
        TargetScreenPositive(s);
        if source == Api then
          if x > s.width || y > s.height then Failure(OutOfBounds(IntToString(x), IntToString(y)))
          else Success((RoundHalfEven(x * s.width, t.width), RoundHalfEven(y * s.height, t.height)))
        else Success((RoundHalfEven(x * t.width, s.width), RoundHalfEven(y * t.height, s.height)))
  }

  /** The search loop of `_scale_coordinates`, which stops at the first
      target whose aspect ratio matches. */
  method ScaleCoordinates(s: Screen, source: ScalingSource, x: int, y: int) returns (r: Result<(int, int), string>)
    requires ValidScreen(s)
    ensures r == ScaleSpec(s, source, x, y)
  {
    if !s.scalingEnabled {
      return Success((x, y));
    }
    var target: Option<Resolution> := None;
    var i := 0;
    while i < |MaxScalingTargets|
      invariant 0 <= i <= |MaxScalingTargets|
      invariant FirstMatch(s, i) == FirstMatch(s, 0)
      invariant target == None
    {
      var d := MaxScalingTargets[i];
      if AspectMatches(d, s) {
        if d.width < s.width {
          target := Some(d);
        }
        break;
      }
      i := i + 1;
    }
    assert target == TargetFor(s);
    if target.None? {
      return Success((x, y));
    }
    var t := target.value;
    TargetScreenPositive(s);
    if source == Api {
      if x > s.width || y > s.height {
        return Failure(OutOfBounds(IntToString(x), IntToString(y)));
      }
      return Success((RoundHalfEven(x * s.width, t.width), RoundHalfEven(y * s.height, t.height)));
    }
    return Success((RoundHalfEven(x * t.width, s.width), RoundHalfEven(y * t.height, s.height)));
  }

  /** With scaling off, or with no target chosen, coordinates pass through. */
  lemma ScaleIdentity(s: Screen, source: ScalingSource, x: int, y: int)
    requires !s.scalingEnabled || TargetFor(s).None?
    ensures ScaleSpec(s, source, x, y) == Success((x, y))
  {
  }

  /** The corners correspond: the screen's far corner scales down to the
      target's, and the target's far corner scales up to the screen's. */
  lemma ScaleCorners(s: Screen)
    requires s.scalingEnabled && TargetFor(s).Some? && TargetFor(s).value.height <= s.height
    ensures var t := TargetFor(s).value;
      && ScaleSpec(s, Computer, s.width, s.height) == Success((t.width, t.height))
      && ScaleSpec(s, Api, t.width, t.height) == Success((s.width, s.height))
  {
    var t := TargetFor(s).value;
    TargetScreenPositive(s);
    RoundExact(t.width, s.width);
    RoundExact(t.height, s.height);
    RoundExact(s.width, t.width);
    RoundExact(s.height, t.height);
    assert s.width * t.width == t.width * s.width;
    assert s.height * t.height == t.height * s.height;
  }

  /** The bounds check compares the model's coordinates with the screen's
      size, not the target's: on a 1367x761 screen, which matches FWXGA
      within the tolerance but is less tall than it, the target's own
      bottom edge is refused. */
  lemma ApiCornerRefused()
    ensures TargetFor(Screen(1367, 761, true)) == Some(Resolution(1366, 768))
    ensures ScaleSpec(Screen(1367, 761, true), Api, 1366, 768) == Failure(OutOfBounds(IntToString(1366), IntToString(768)))
  {
    var s := Screen(1367, 761, true);
    assert !AspectMatches(MaxScalingTargets[0], s) && !AspectMatches(MaxScalingTargets[1], s);
  }

  /** Scaling down keeps a point of the screen within the target. */
  lemma ScaleDownFits(s: Screen, x: int, y: int)
    requires s.scalingEnabled && TargetFor(s).Some?
    requires 0 <= x <= s.width && 0 <= y <= s.height
    ensures var t := TargetFor(s).value;
      var r := ScaleSpec(s, Computer, x, y);
      r.Success? && 0 <= r.value.0 <= t.width && 0 <= r.value.1 <= t.height
  {
    var t := TargetFor(s).value;
    TargetScreenPositive(s);
    assert 0 <= x * t.width <= s.width * t.width;
    assert 0 <= y * t.height <= s.height * t.height;
    assert t.width * s.width == s.width * t.width;
    RoundBetween(x * t.width, s.width, 0, t.width);
    RoundBetween(y * t.height, s.height, 0, t.height);
  }

  /** From the model, a point beyond the screen's size is refused. */
  lemma ApiOutOfBounds(s: Screen, x: int, y: int)
    requires s.scalingEnabled && TargetFor(s).Some?
    ensures ScaleSpec(s, Api, x, y).Failure? <==> x > s.width || y > s.height
  {
  }

  /** A 1920x1080 screen uses FWXGA and a 1920x1200 screen uses WXGA, both
      ways; a 4096x2160 screen has no target; (2000, 1500) is off a
      1920x1080 screen. */
  lemma ScalingExamples()
    ensures ScaleSpec(Screen(1920, 1080, true), Api, 1366, 768) == Success((1920, 1080))
    ensures ScaleSpec(Screen(1920, 1080, true), Computer, 1920, 1080) == Success((1366, 768))
    ensures ScaleSpec(Screen(1920, 1080, false), Api, 1366, 768) == Success((1366, 768))
    ensures ScaleSpec(Screen(1920, 1200, true), Api, 1280, 800) == Success((1920, 1200))
    ensures ScaleSpec(Screen(1920, 1200, true), Computer, 1920, 1200) == Success((1280, 800))
    ensures ScaleSpec(Screen(4096, 2160, true), Api, 4096, 2160) == Success((4096, 2160))
    ensures ScaleSpec(Screen(4096, 2160, true), Computer, 4096, 2160) == Success((4096, 2160))
    ensures ScaleSpec(Screen(1920, 1080, true), Api, 2000, 1500).Failure?
  {
    var hd := Screen(1920, 1080, true);
    assert !AspectMatches(MaxScalingTargets[0], hd) && !AspectMatches(MaxScalingTargets[1], hd);
    assert TargetFor(hd) == Some(Resolution(1366, 768));
    ScaleCorners(hd);
    var wide := Screen(1920, 1200, true);
    assert !AspectMatches(MaxScalingTargets[0], wide);
    assert TargetFor(wide) == Some(Resolution(1280, 800));
    ScaleCorners(wide);
    var big := Screen(4096, 2160, true);
    assert !AspectMatches(MaxScalingTargets[0], big) && !AspectMatches(MaxScalingTargets[1], big);
    assert !AspectMatches(MaxScalingTargets[2], big);
    assert TargetFor(big) == None;
  }

  // ---------------------------------------------------------------------------
  // Argument checks of `computer`
  // ---------------------------------------------------------------------------

  /** A scalar argument value as the model may send it. */
  datatype Atom = AInt(i: int) | ABool(b: bool) | AStr(s: string) | AOther(repr: string)

  /** An argument: a scalar, a tuple or a list of scalars. */
  datatype Arg = Scalar(a: Atom) | TupleArg(items: seq<Atom>) | ListArg(items: seq<Atom>)

  function AtomRepr(a: Atom): string
  {
    match a
    case AInt(i) => IntToString(i)
    case ABool(b) => if b then "True" else "False"
    case AStr(s) => "'" + s + "'"
    case AOther(r) => r
  }

  function ItemsRepr(items: seq<Atom>): string
  {
    if items == [] then ""
    else if |items| == 1 then AtomRepr(items[0])
    else AtomRepr(items[0]) + ", " + ItemsRepr(items[1..])
  }

  /** `str(value)` as an f-string prints it: a string as it is, the items
      of a tuple or a list by their `repr`. */
  function ArgRepr(v: Arg): string
  {
    match v
    case Scalar(a) => if a.AStr? then a.s else AtomRepr(a)
    case TupleArg(items) => "(" + ItemsRepr(items) + (if |items| == 1 then ",)" else ")")
    case ListArg(items) => "[" + ItemsRepr(items) + "]"
  }

  /** `isinstance(i, int) and i >= 0`; a `bool` is an `int` in Python. */
  predicate NonNegativeInt(a: Atom)
  {
    (a.AInt? && a.i >= 0) || a.ABool?
  }

  function IntValue(a: Atom): int
    requires a.AInt? || a.ABool?
  {
    if a.AInt? then a.i else if a.b then 1 else 0
  }

  /** `_scale_coordinates` on the model's two coordinates: the arithmetic
      uses a `bool` as 1 or 0, but the refusal prints the values as they
      came, and a point that is not scaled comes back unchanged, so a
      `bool` reaches the command line as `True` or `False`. */
  function ApiScale(s: Screen, x: Atom, y: Atom): (r: Result<(Atom, Atom), string>)
    requires NonNegativeInt(x) && NonNegativeInt(y)
    ensures r.Failure? <==> ScaleSpec(s, Api, IntValue(x), IntValue(y)).Failure?
    ensures r.Failure? ==> r.error == OutOfBounds(AtomRepr(x), AtomRepr(y))
    ensures r.Success? ==>
      && (r.value.0.AInt? || r.value.0.ABool?) && (r.value.1.AInt? || r.value.1.ABool?)
      && IntValue(r.value.0) == ScaleSpec(s, Api, IntValue(x), IntValue(y)).value.0
      && IntValue(r.value.1) == ScaleSpec(s, Api, IntValue(x), IntValue(y)).value.1
    ensures !s.scalingEnabled || TargetFor(s).None? ==> r == Success((x, y))
    ensures s.scalingEnabled && TargetFor(s).Some? && r.Success? ==> r.value.0.AInt? && r.value.1.AInt?
  {
    if !s.scalingEnabled || TargetFor(s).None? then Success((x, y))
    else match ScaleSpec(s, Api, IntValue(x), IntValue(y))
      case Failure(_) => Failure(OutOfBounds(AtomRepr(x), AtomRepr(y)))
      case Success(p) => Success((AInt(p.0), AInt(p.1)))
  }

  /** What a valid action would run; a pointer command holds its
      coordinates as its command line prints them. */
  datatype Command =
    | MouseMove(x: Atom, y: Atom)
    | LeftClickDrag(x: Atom, y: Atom)
    | Key(keys: string)
    | Type(groups: seq<string>)
    | Click(button: string)
    | Screenshot
    | CursorPosition

  /** How `computer` ends before any I/O: an exception, a returned advice
      string, or the command it goes on to run. */
  datatype Outcome = Raise(message: string) | Advice(message: string) | Run(command: Command)

  /** `Exception(output=...)` itself fails: `Exception` takes no keyword
      arguments. Unlike every other refusal here, which is an `Exception`
      whose message is kept bare, this one is a `TypeError`, so its message
      carries the type's name to keep the two apart. */
  const KeywordArgumentError: string := "TypeError: Exception() takes no keyword arguments"

  predicate IsPointerAction(action: string)
  {
    action == "mouse_move" || action == "left_click_drag"
  }

  predicate IsKeyboardAction(action: string)
  {
    action == "key" || action == "type"
  }

  predicate IsClickAction(action: string)
  {
    || action == "left_click" || action == "right_click" || action == "double_click"
    || action == "middle_click" || action == "screenshot" || action == "cursor_position"
  }

  /** The `xdotool click` argument of each click action. */
  function ClickArg(action: string): string
  {
    if action == "left_click" then "1"
    else if action == "right_click" then "3"
    else if action == "middle_click" then "2"
    else "--repeat 2 --delay 500 1"
  }

  predicate ValidPoint(c: Arg)
  {
    c.TupleArg? && |c.items| == 2 && NonNegativeInt(c.items[0]) && NonNegativeInt(c.items[1])
  }

  const AdviceTail: string := " action does not take coordinates. If you are not at the given coordinates, you need to execute the mouse_move action first to get to those coordinates."

  function AdviceFor(action: string): string
  {
    "The " + action + AdviceTail
  }

  /** The argument checks of `computer` and the command a valid call runs. */
  function PointerAction(s: Screen, action: string, text: Option<Arg>, coordinate: Option<Arg>): (r: Outcome)
    ensures !r.Advice?
    ensures r.Run? ==> coordinate.Some? && text.None? && ValidPoint(coordinate.value)
    ensures r.Run? ==> if action == "mouse_move" then r.command.MouseMove? else r.command.LeftClickDrag?
    ensures r.Run? ==>
      var c := coordinate.value;
      var p := ApiScale(s, c.items[0], c.items[1]);
      && p.Success?
      && r.command == (if action == "mouse_move" then MouseMove(p.value.0, p.value.1)
                       else LeftClickDrag(p.value.0, p.value.1))
  {
    if coordinate.None? then Raise("coordinate is required for " + action)
    else if text.Some? then Raise("text is not accepted for " + action)
    else
      var c := coordinate.value;
      if !c.TupleArg? || |c.items| != 2 then Raise(ArgRepr(c) + " must be a tuple of length 2")
      else if !(NonNegativeInt(c.items[0]) && NonNegativeInt(c.items[1])) then
        Raise(ArgRepr(c) + " must be a tuple of non-negative ints")
      else match ApiScale(s, c.items[0], c.items[1])
        case Failure(e) => Raise(e)
        case Success(p) =>
          if action == "mouse_move" then Run(MouseMove(p.0, p.1)) else Run(LeftClickDrag(p.0, p.1))
  }

  function KeyboardAction(action: string, text: Option<Arg>, coordinate: Option<Arg>): (r: Outcome)
    ensures !r.Advice?
    ensures r.Run? <==> text.Some? && coordinate.None? && text.value.Scalar? && text.value.a.AStr?
    ensures r.Run? && action == "key" ==> r.command == Key(text.value.a.s)
    ensures r.Run? && action != "key" ==> r.command.Type? && Concat(r.command.groups) == text.value.a.s
  {
    if text.None? then Raise("text is required for " + action)
    else if coordinate.Some? then Raise("coordinate is not accepted for " + action)
    else if !(text.value.Scalar? && text.value.a.AStr?) then Raise(KeywordArgumentError)
    else if action == "key" then Run(Key(text.value.a.s))
    else Run(Type(Chunks(text.value.a.s, TypingGroupSize)))
  }

  function ClickAction(action: string, text: Option<Arg>, coordinate: Option<Arg>): (r: Outcome)
    ensures r.Run? <==> text.None? && coordinate.None?
    ensures r.Advice? <==> text.None? && coordinate.Some?
    ensures r.Run? && action == "left_click" ==> r.command == Click("1")
  {
    if text.Some? then Raise("text is not accepted for " + action)
    else if coordinate.Some? then Advice(AdviceFor(action))
    else if action == "screenshot" then Run(Screenshot)
    else if action == "cursor_position" then Run(CursorPosition)
    else Run(Click(ClickArg(action)))
  }

  /** The argument checks of `computer`, in its order, and the command a
      valid call runs. */
  function ComputerAction(s: Screen, action: string, text: Option<Arg>, coordinate: Option<Arg>): (r: Outcome)
    ensures r.Advice? ==> IsClickAction(action) && text.None? && coordinate.Some?
    ensures r.Run? ==> IsPointerAction(action) || IsKeyboardAction(action) || IsClickAction(action)
    ensures r.Run? && text.Some? ==> IsKeyboardAction(action)
  {
    if IsPointerAction(action) then PointerAction(s, action, text, coordinate)
    else if IsKeyboardAction(action) then KeyboardAction(action, text, coordinate)
    else if IsClickAction(action) then ClickAction(action, text, coordinate)
    else Raise("Invalid action: " + action)
  }

  /** Pointer actions need a coordinate, refuse text, and run only with a
      tuple of two non-negative ints that is within bounds. */
  lemma PointerActionChecks(s: Screen, action: string, text: Option<Arg>, coordinate: Option<Arg>)
    requires IsPointerAction(action)
    ensures var r := ComputerAction(s, action, text, coordinate);
      && (coordinate.None? ==> r == Raise("coordinate is required for " + action))
      && (coordinate.Some? && text.Some? ==> r == Raise("text is not accepted for " + action))
      && (r.Run? <==> coordinate.Some? && text.None? && ValidPoint(coordinate.value) &&
                      ScaleSpec(s, Api, IntValue(coordinate.value.items[0]), IntValue(coordinate.value.items[1])).Success?)
      && (coordinate.Some? && text.None? && ValidPoint(coordinate.value) &&
          ScaleSpec(s, Api, IntValue(coordinate.value.items[0]), IntValue(coordinate.value.items[1])).Failure? ==>
            r == Raise(OutOfBounds(AtomRepr(coordinate.value.items[0]), AtomRepr(coordinate.value.items[1]))))
      && (r.Run? ==>
            var p := ApiScale(s, coordinate.value.items[0], coordinate.value.items[1]).value;
            && IntValue(p.0) == ScaleSpec(s, Api, IntValue(coordinate.value.items[0]), IntValue(coordinate.value.items[1])).value.0
            && IntValue(p.1) == ScaleSpec(s, Api, IntValue(coordinate.value.items[0]), IntValue(coordinate.value.items[1])).value.1
            && r.command == (if action == "mouse_move" then MouseMove(p.0, p.1) else LeftClickDrag(p.0, p.1)))
  {
  }

  /** A `bool` coordinate is checked as 1 or 0 but printed as `True` or
      `False`: off a 1920x1080 screen with scaling on, `(True, 5000)` is
      refused by its printed values, and with scaling off it is passed on
      unchanged. */
  lemma BoolCoordinate()
    ensures ComputerAction(Screen(1920, 1080, true), "mouse_move", None, Some(TupleArg([ABool(true), AInt(5000)])))
      == Raise(OutOfBounds("True", "5000"))
    ensures ComputerAction(Screen(1920, 1080, false), "mouse_move", None, Some(TupleArg([ABool(true), AInt(5)])))
      == Run(MouseMove(ABool(true), AInt(5)))
  {
    BoolRefused();
    assert PointerAction(Screen(1920, 1080, false), "mouse_move", None, Some(TupleArg([ABool(true), AInt(5)])))
      == Run(MouseMove(ABool(true), AInt(5)));
  }

  lemma BoolRefused()
    ensures PointerAction(Screen(1920, 1080, true), "mouse_move", None, Some(TupleArg([ABool(true), AInt(5000)])))
      == Raise(OutOfBounds("True", "5000"))
  {
    var hd := Screen(1920, 1080, true);
    HdTarget();
    assert ScaleSpec(hd, Api, 1, 5000).Failure?;
    FiveThousand();
    assert AtomRepr(ABool(true)) == "True";
  }

  lemma HdTarget()
    ensures TargetFor(Screen(1920, 1080, true)) == Some(Resolution(1366, 768))
  {
    var hd := Screen(1920, 1080, true);
    assert !AspectMatches(MaxScalingTargets[0], hd) && !AspectMatches(MaxScalingTargets[1], hd);
  }

  lemma FiveThousand()
    ensures AtomRepr(AInt(5000)) == "5000"
  {
    assert NatToString(5) == "5";
    assert NatToString(50) == NatToString(5) + "0";
    assert NatToString(500) == NatToString(50) + "0";
    assert NatToString(5000) == NatToString(500) + "0";
  }

  /** Keyboard actions need text, refuse a coordinate, and run only with a
      string; typing sends the text in groups of 50 characters. */
  lemma KeyboardActionChecks(s: Screen, action: string, text: Option<Arg>, coordinate: Option<Arg>)
    requires IsKeyboardAction(action)
    ensures var r := ComputerAction(s, action, text, coordinate);
      && (text.None? ==> r == Raise("text is required for " + action))
      && (text.Some? && coordinate.Some? ==> r == Raise("coordinate is not accepted for " + action))
      && (r.Run? <==> text.Some? && coordinate.None? && text.value.Scalar? && text.value.a.AStr?)
      && (r.Run? && action == "type" ==>
            r.command.Type? && Concat(r.command.groups) == text.value.a.s &&
            forall i | 0 <= i < |r.command.groups| :: |r.command.groups[i]| <= TypingGroupSize)
  {
  }

  /** Click, screenshot and cursor actions refuse text, answer a coordinate
      with advice, and otherwise run. */
  lemma ClickActionChecks(s: Screen, action: string, text: Option<Arg>, coordinate: Option<Arg>)
    requires IsClickAction(action)
    ensures var r := ComputerAction(s, action, text, coordinate);
      && (text.Some? ==> r == Raise("text is not accepted for " + action))
      && (text.None? && coordinate.Some? ==> r == Advice(AdviceFor(action)))
      && (r.Run? <==> text.None? && coordinate.None?)
  {
    ClickIsNotOther(action);
    assert ComputerAction(s, action, text, coordinate) == ClickAction(action, text, coordinate);
  }

  /** The action names of the three groups are distinct. */
  lemma ClickIsNotOther(action: string)
    requires IsClickAction(action)
    ensures !IsPointerAction(action) && !IsKeyboardAction(action)
  {
    if |action| == 10 {
      assert action[0] != 'm';
    } else if |action| == 15 {
      assert action[0] != 'l';
    }
  }

  /** The refusal quotes the coordinate as an f-string prints it: a string
      sent as the coordinate appears as it is, a string inside the tuple
      with its quotes. */
  lemma CoordinateInMessage(s: Screen, action: string, w: string)
    requires IsPointerAction(action)
    ensures ComputerAction(s, action, None, Some(Scalar(AStr(w)))) == Raise(w + " must be a tuple of length 2")
    ensures ComputerAction(s, action, None, Some(TupleArg([AStr(w), AInt(7)])))
      == Raise("('" + w + "', 7)" + " must be a tuple of non-negative ints")
  {
    ScalarCoordinate(s, action, w);
    TupleCoordinate(s, action, w);
  }

  lemma ScalarCoordinate(s: Screen, action: string, w: string)
    requires IsPointerAction(action)
    ensures PointerAction(s, action, None, Some(Scalar(AStr(w)))) == Raise(w + " must be a tuple of length 2")
  {
  }

  lemma TupleCoordinate(s: Screen, action: string, w: string)
    requires IsPointerAction(action)
    ensures PointerAction(s, action, None, Some(TupleArg([AStr(w), AInt(7)])))
      == Raise("('" + w + "', 7)" + " must be a tuple of non-negative ints")
  {
    TupleRepr(w);
  }

  lemma TupleRepr(w: string)
    ensures ArgRepr(TupleArg([AStr(w), AInt(7)])) == "('" + w + "', 7)"
  {
    var items := [AStr(w), AInt(7)];
    assert items[1..] == [AInt(7)];
    SevenRepr();
    assert ItemsRepr(items) == "'" + w + "'" + ", " + "7";
    Regroup("(", "'", w, "'", ", ", "7", ")");
    assert "(" + "'" == "('";
    assert "'" + ", " + "7" + ")" == "', 7)";
  }

  lemma SevenRepr()
    ensures AtomRepr(AInt(7)) == "7"
  {
    assert IntToString(7) == "7";
  }

  /** Moving the brackets of a concatenation. */
  lemma Regroup<T>(open: seq<T>, q: seq<T>, w: seq<T>, r1: seq<T>, r2: seq<T>, r3: seq<T>, close: seq<T>)
    ensures open + (q + w + r1 + r2 + r3) + close == (open + q) + w + (r1 + r2 + r3 + close)
  {
  }

  /** Any other action is refused, whatever the arguments. */
  lemma InvalidAction(s: Screen, action: string, text: Option<Arg>, coordinate: Option<Arg>)
    requires !IsPointerAction(action) && !IsKeyboardAction(action) && !IsClickAction(action)
    ensures ComputerAction(s, action, text, coordinate) == Raise("Invalid action: " + action)
  {
  }
}
