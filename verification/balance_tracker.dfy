/** Balance tracking (computer-use-demo/computer_use_demo/balance_tracker/balance_tracker_v3.py).

    Amounts are whole cents. The history file is modelled by what reading
    it yields (no file, a list of records each of which does or does not
    fit a `BalanceEntry`, or text that is not JSON); whether a write
    succeeds, the clock's timestamp, the console scrape and the cipher are
    parameters. */
module BalanceTracker {
  import opened Wrappers

  datatype BalanceEntry = BalanceEntry(timestamp: string, amount: int, source: string, note: Option<string>)

  /** One record of the history file. */
  datatype Record = Fits(entry: BalanceEntry) | Misfit

  /** The history file as reading it finds it. */
  datatype StoredFile = NoFile | Records(records: seq<Record>) | Unreadable

  /** What `_save_entries` writes. */
  function Dump(entries: seq<BalanceEntry>): (f: StoredFile)
    ensures f.Records? && |f.records| == |entries|
  {
    Records(seq(|entries|, i requires 0 <= i < |entries| => Fits(entries[i])))
  }

  predicate AllFit(records: seq<Record>)
  {
    forall i | 0 <= i < |records| :: records[i].Fits?
  }

  /** `_load_entries`: no file, an unreadable file or a record that does
      not fit all give an empty history. */
  function LoadEntries(f: StoredFile): (entries: seq<BalanceEntry>)
    ensures f.NoFile? || f.Unreadable? ==> entries == []
    ensures f.Records? && !AllFit(f.records) ==> entries == []
    ensures f.Records? && AllFit(f.records) ==>
      |entries| == |f.records| && forall i | 0 <= i < |entries| :: f.records[i] == Fits(entries[i])
  {
    if f.Records? && AllFit(f.records) then
      seq(|f.records|, i requires 0 <= i < |f.records| && AllFit(f.records) => f.records[i].entry)
    else []
  }

  /** What is saved is what is loaded back. */
  lemma LoadDump(entries: seq<BalanceEntry>)
    ensures LoadEntries(Dump(entries)) == entries
  {
    var f := Dump(entries);
    assert AllFit(f.records);
  }

  // ---------------------------------------------------------------------------
  // Credentials
  // ---------------------------------------------------------------------------

  datatype ConsoleCredentials = ConsoleCredentials(email: string, password: string)

  /** The credentials file: absent, or encrypted bytes. */
  datatype CredsFile = NoCredsFile | Encrypted(bytes: seq<bv8>)

  /** `save_credentials`: the JSON object with both fields, encrypted. */
  function SaveCredentials(creds: ConsoleCredentials, encrypt: map<string, string> -> seq<bv8>): (f: CredsFile)
    ensures f.Encrypted?
  {
    Encrypted(encrypt(map["email" := creds.email, "password" := creds.password]))
  }

  /** `load_credentials`: no file, bytes that do not decrypt to a JSON
      object, or an object without both fields all give None. */
  function LoadCredentials(f: CredsFile, decrypt: seq<bv8> -> Option<map<string, string>>): (r: Option<ConsoleCredentials>)
    ensures f.NoCredsFile? ==> r.None?
    ensures f.Encrypted? && decrypt(f.bytes).None? ==> r.None?
    ensures r.Some? ==>
      && f.Encrypted? && decrypt(f.bytes).Some?
      && "email" in decrypt(f.bytes).value && "password" in decrypt(f.bytes).value
      && r.value == ConsoleCredentials(decrypt(f.bytes).value["email"], decrypt(f.bytes).value["password"])
  {
    if f.NoCredsFile? then None
    else
      match decrypt(f.bytes)
      case None => None
      case Some(data) =>
        if "email" in data && "password" in data then Some(ConsoleCredentials(data["email"], data["password"]))
        else None
  }

  /** Saved credentials load back when the cipher round-trips. */
  lemma CredentialsRoundTrip(creds: ConsoleCredentials, encrypt: map<string, string> -> seq<bv8>,
                             decrypt: seq<bv8> -> Option<map<string, string>>)
    requires forall m :: decrypt(encrypt(m)) == Some(m)
    ensures LoadCredentials(SaveCredentials(creds, encrypt), decrypt) == Some(creds)
  {
    var m := map["email" := creds.email, "password" := creds.password];
    assert decrypt(encrypt(m)) == Some(m);
  }

  // ---------------------------------------------------------------------------
  // The tracker
  // ---------------------------------------------------------------------------

  const AutoSource: string := "auto"
  const AutoNote: string := "Console auto-update"
  const RecentCount: nat := 5

  /** The tracker's state: its entries and what its history file holds. */
  datatype TrackerState = TrackerState(entries: seq<BalanceEntry>, file: StoredFile)

  /** `add_entry` followed by `_save_entries`, whose failure is swallowed. */
  function AddSpec(s: TrackerState, e: BalanceEntry, writeOk: bool): (r: TrackerState)
    ensures r.entries == s.entries + [e]
    ensures writeOk ==> LoadEntries(r.file) == r.entries
    ensures !writeOk ==> r.file == s.file
  {
    LoadDump(s.entries + [e]);
    TrackerState(s.entries + [e], if writeOk then Dump(s.entries + [e]) else s.file)
  }

  /** One hourly poll of the background check: are credentials stored, what
      the console scrape returned, the time, and whether saving works. */
  datatype Poll = Poll(hasCreds: bool, fetched: Option<int>, timestamp: string, writeOk: bool)

  /** Whether a poll adds an entry: credentials are present, the balance is
      truthy (present and non-zero), and it differs from the last entry or
      there is none. */
  predicate Adds(entries: seq<BalanceEntry>, p: Poll)
  {
    && p.hasCreds
    && p.fetched.Some? && p.fetched.value != 0
    && (entries == [] || p.fetched.value != entries[|entries| - 1].amount)
  }

  function PollSpec(s: TrackerState, p: Poll): TrackerState
  {
    if Adds(s.entries, p) then AddSpec(s, BalanceEntry(p.timestamp, p.fetched.value, AutoSource, Some(AutoNote)), p.writeOk)
    else s
  }

  function PollsSpec(s: TrackerState, polls: seq<Poll>): TrackerState
    decreases |polls|
  {
    if polls == [] then s else PollSpec(PollsSpec(s, polls[..|polls| - 1]), polls[|polls| - 1])
  }

  /** No two neighbouring entries from `from` on have the same amount. */
  predicate NoRepeatsFrom(entries: seq<BalanceEntry>, from: nat)
  {
    forall i | from < i < |entries| :: entries[i].amount != entries[i - 1].amount
  }

  /** The background check only appends, only "auto" entries with the
      fixed note and a non-zero amount, and never appends an amount equal to
      the entry before it. */
  lemma {:induction false} PollsAppendChanges(s: TrackerState, polls: seq<Poll>)
    ensures var r := PollsSpec(s, polls).entries;
      && |s.entries| <= |r| && r[..|s.entries|] == s.entries
      && (forall i | |s.entries| <= i < |r| :: r[i].source == AutoSource && r[i].note == Some(AutoNote) && r[i].amount != 0)
      && NoRepeatsFrom(r, if |s.entries| == 0 then 0 else |s.entries| - 1)
    decreases |polls|
  {
    if polls != [] {
      PollsAppendChanges(s, polls[..|polls| - 1]);
      var mid := PollsSpec(s, polls[..|polls| - 1]);
      assert mid.entries[..|s.entries|] == s.entries;
      if Adds(mid.entries, polls[|polls| - 1]) {
        var r := PollsSpec(s, polls).entries;
        assert r == mid.entries + [r[|r| - 1]];
        assert r[..|mid.entries|] == mid.entries;
        assert r[..|s.entries|] == mid.entries[..|s.entries|];
      }
    }
  }

  /** Polls without stored credentials add nothing. */
  lemma {:induction false} NoCredsNoChange(s: TrackerState, polls: seq<Poll>)
    requires forall i | 0 <= i < |polls| :: !polls[i].hasCreds
    ensures PollsSpec(s, polls) == s
    decreases |polls|
  {
    if polls != [] {
      NoCredsNoChange(s, polls[..|polls| - 1]);
    }
  }

  /** Four polls fetching `a`, `b`, `b` and `c` (say 100, 95, 95 and 90
      dollars) into an empty history leave three entries: `a`, `b` and
      `c`. */
  lemma RepeatedFetchSkipped(f: StoredFile, polls: seq<Poll>, a: int, b: int, c: int)
    requires a != 0 && b != 0 && c != 0 && a != b && b != c
    requires |polls| == 4 && polls[0] == Poll(true, Some(a), "t1", true) && polls[1] == Poll(true, Some(b), "t2", true)
    requires polls[2] == Poll(true, Some(b), "t3", true) && polls[3] == Poll(true, Some(c), "t4", true)
    ensures var r := PollsSpec(TrackerState([], f), polls).entries;
      |r| == 3 && r[0].amount == a && r[1].amount == b && r[2].amount == c
  {
    var s0 := TrackerState([], f);
    assert [] + [polls[0]] == polls[..1];
    assert polls[..1] + [polls[1]] == polls[..2];
    assert polls[..2] + [polls[2]] == polls[..3];
    assert polls[..3] + [polls[3]] == polls;
    PollsSnoc(s0, [], polls[0]);
    var e1 := PollsSpec(s0, polls[..1]).entries;
    assert e1 == [BalanceEntry("t1", a, AutoSource, Some(AutoNote))];
    PollsSnoc(s0, polls[..1], polls[1]);
    var e2 := PollsSpec(s0, polls[..2]).entries;
    assert e2 == e1 + [BalanceEntry("t2", b, AutoSource, Some(AutoNote))];
    PollsSnoc(s0, polls[..2], polls[2]);
    assert PollsSpec(s0, polls[..3]).entries == e2;
    PollsSnoc(s0, polls[..3], polls[3]);
  }

  /** The entries after one more poll: those before it, and the poll's
      entry when it adds one. */
  lemma PollsSnoc(s: TrackerState, polls: seq<Poll>, p: Poll)
    ensures var mid := PollsSpec(s, polls).entries;
      PollsSpec(s, polls + [p]).entries ==
        if Adds(mid, p) then mid + [BalanceEntry(p.timestamp, p.fetched.value, AutoSource, Some(AutoNote))] else mid
  {
    assert (polls + [p])[..|polls|] == polls;
  }

  /** The "Recent History" panel: the last five entries, newest first. */
  function RecentHistory(entries: seq<BalanceEntry>): (r: seq<BalanceEntry>)
    ensures |r| == if |entries| < RecentCount then |entries| else RecentCount
    ensures forall i | 0 <= i < |r| :: r[i] == entries[|entries| - 1 - i]
  {
    var tail := if |entries| < RecentCount then entries else entries[|entries| - RecentCount..];
    seq(|tail|, i requires 0 <= i < |tail| => tail[|tail| - 1 - i])
  }

  /** The icon the panel shows for an entry. */
  function Icon(e: BalanceEntry): (icon: string)
    ensures icon == "\U{1F916}" <==> e.source == AutoSource
  {
    if e.source == AutoSource then "\U{1F916}" else "\U{270E}"
  }

  class Tracker {
    var entries: seq<BalanceEntry>
    var file: StoredFile

    function State(): TrackerState
      reads this
    {
      TrackerState(entries, file)
    }

    /** `BalanceTracker.__init__`: the entries are whatever loading the
        file yields. */
    constructor (stored: StoredFile)
      ensures entries == LoadEntries(stored) && file == stored
    {
      entries := LoadEntries(stored);
      file := stored;
    }

    /** `_save_entries`: a failed write leaves the file as it was. */
    method SaveEntries(writeOk: bool)
      modifies this
      ensures entries == old(entries)
      ensures file == if writeOk then Dump(entries) else old(file)
    {
      if writeOk {
        file := Dump(entries);
      }
    }

    /** `add_entry`: the entry is appended even when saving fails. */
    method AddEntry(amount: int, source: string, note: Option<string>, timestamp: string, writeOk: bool)
      modifies this
      ensures State() == AddSpec(old(State()), BalanceEntry(timestamp, amount, source, note), writeOk)
    {
      entries := entries + [BalanceEntry(timestamp, amount, source, note)];
      SaveEntries(writeOk);
    }

    /** `background_balance_check`, for as many hourly polls as are given. */
    method BackgroundBalanceCheck(polls: seq<Poll>)
      modifies this
      ensures State() == PollsSpec(old(State()), polls)
    {
      var i := 0;
      while i < |polls|
        invariant 0 <= i <= |polls|
        invariant State() == PollsSpec(old(State()), polls[..i])
      {
        var p := polls[i];
        if p.hasCreds && p.fetched.Some? && p.fetched.value != 0 {
          if entries == [] || p.fetched.value != entries[|entries| - 1].amount {
            AddEntry(p.fetched.value, AutoSource, Some(AutoNote), p.timestamp, p.writeOk);
          }
        }
        assert polls[..i + 1][..i] == polls[..i];
        i := i + 1;
      }
      assert polls[..|polls|] == polls;
    }
  }
}
