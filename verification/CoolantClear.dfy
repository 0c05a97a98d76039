/** Clearing trouble codes raised by a wrong coolant threshold: a paged scan with conditional writes
    between its pages, while others clear and add rows at any moment. */
module CoolantClear {
  import opened Prelude

  const ACTIVE := "ACTIVE"
  const CLEARED := "CLEARED"
  const OVERHEAT := "P0217"
  const FIRE := "B0001_FIRE"
  const SCRIPT := "clear_false_coolant_dtcs.py"

  datatype Key = Key(vehicleId: string, timestamp: int)

  /** `reading` is what the description's trailing "(actual: …)" parses to; an unset string is "". */
  datatype Row = Row(code: string, status: string, clearedDate: string, trigger: string, reading: Option<real>,
                     activeCode: Option<string>, clearedBy: string, clearedReason: string)

  type Table = map<Key, Row>

  datatype Kind = False | Residue

  function UpperChar(c: char): char { if 'a' <= c <= 'z' then (c as int - 32) as char else c }

  function Upper(s: string): (r: string)
    ensures |r| == |s| && forall i :: 0 <= i < |s| ==> r[i] == UpperChar(s[i])
  {
    if s == "" then "" else [UpperChar(s[0])] + Upper(s[1..])
  }

  function RuleEvent(code: string): string {
    if code == OVERHEAT then "maintenance.coolant_critical_overheat" else "maintenance.thermal_runaway"
  }

  function Threshold(code: string): real { if code == OVERHEAT then 257.0 else 280.0 }

  function Classify(row: Row): Option<Kind> {
    if Upper(row.status) != ACTIVE || row.clearedDate != "" then None
    else if row.code != OVERHEAT && row.code != FIRE then None
    else if row.reading.Some? then
      if row.trigger == RuleEvent(row.code) && row.reading.value <= Threshold(row.code) then Some(False) else None
    else if row.code == OVERHEAT && (row.trigger == "" || row.trigger == RuleEvent(row.code)) then Some(Residue)
    else None
  }

  predicate Selected(row: Row, includeResidue: bool) {
    Classify(row) == Some(False) || (Classify(row) == Some(Residue) && includeResidue)
  }

  /** The scan's own filter compares the status exactly. */
  predicate Candidate(row: Row) { (row.code == OVERHEAT || row.code == FIRE) && row.status == ACTIVE }

  function Reason(kind: Kind): string {
    if kind == False then "coolant-unit-fix" else "coolant-unit-fix-seed-residue"
  }

  function Clear(row: Row, date: string, who: string, reason: string): Row {
    row.(status := CLEARED, clearedDate := date, clearedBy := who, clearedReason := reason, activeCode := None)
  }

  // ---------------------------------------------------------------------------
  // The table and the others who write to it
  // ---------------------------------------------------------------------------

  /** Others mark active rows cleared, record new rows, and on a repeated report write the new
      reading and trigger into the active row. */
  datatype Deed =
    | OtherClears(key: Key, date: string, who: string)
    | OtherAdds(key: Key, row: Row)
    | OtherReports(key: Key, trigger: string, reading: Option<real>)

  datatype Turn = Turn(deeds: seq<Deed>, fails: bool)

  /** A write: the row as its page showed it, as it was just before, and what others had done
      since the page was fetched. */
  datatype Event = Event(key: Key, fetched: Row, before: Row, since: seq<Deed>)

  /** `trace` is all that others have done so far, `fetches` how much of it each page came after,
      and `log` the writes. */
  datatype State = State(table: Table, turns: seq<Turn>, trace: seq<Deed>, fetches: seq<nat>, log: seq<Event>)

  function Start(t: Table, turns: seq<Turn>): State { State(t, turns, [], [], []) }

  function Reported(row: Row, trigger: string, reading: Option<real>): Row { row.(trigger := trigger, reading := reading) }

  function Do(t: Table, d: Deed): Table {
    match d
    case OtherClears(k, date, who) => if k in t && t[k].status == ACTIVE then t[k := Clear(t[k], date, who, "")] else t
    case OtherAdds(k, row) => if k in t then t else t[k := row]
    case OtherReports(k, trigger, reading) => if k in t && t[k].status == ACTIVE then t[k := Reported(t[k], trigger, reading)] else t
  }

  function DoAll(t: Table, ds: seq<Deed>): Table
    decreases |ds|
  {
    if ds == [] then t else DoAll(Do(t, ds[0]), ds[1..])
  }

  function Arrive(s: State): State {
    if s.turns == [] then s
    else s.(table := DoAll(s.table, s.turns[0].deeds), turns := s.turns[1..], trace := s.trace + s.turns[0].deeds)
  }

  predicate Fails(s: State) { s.turns != [] && s.turns[0].fails }

  /** What others have done since the current page was fetched. */
  function Since(s: State): seq<Deed> {
    var n := if s.fetches == [] then 0 else s.fetches[|s.fetches| - 1];
    if n <= |s.trace| then s.trace[n..] else []
  }

  /** A page's rows, as they are when the page is fetched. */
  function Rows(t: Table, page: seq<Key>): (r: seq<(Key, Row)>)
    ensures forall i :: 0 <= i < |r| ==> r[i].0 in page && r[i].0 in t && r[i].1 == t[r[i].0] && Candidate(r[i].1)
    decreases |page|
  {
    if page == [] then []
    else (if page[0] in t && Candidate(t[page[0]]) then [(page[0], t[page[0]])] else []) + Rows(t, page[1..])
  }

  function Write(s: State, k: Key, fetched: Row, date: string, reason: string): (State, Reply<bool>) {
    var t := Arrive(s);
    if Fails(s) then (t, Raise)
    else if k !in t.table || t.table[k].status != ACTIVE then (t, Ok(false))
    else
      (t.(table := t.table[k := Clear(t.table[k], date, SCRIPT, reason)],
          log := t.log + [Event(k, fetched, t.table[k], Since(t))]), Ok(true))
  }

  // ---------------------------------------------------------------------------
  // The run
  // ---------------------------------------------------------------------------

  datatype Counts = Counts(falses: nat, residues: nat, kept: nat, cleared: nat, skipped: nat)

  const NONE := Counts(0, 0, 0, 0, 0)

  datatype Options = Options(apply: bool, includeResidue: bool, now: string)

  function Counted(c: Counts, row: Row): Counts {
    match Classify(row)
    case Some(False) => c.(falses := c.falses + 1)
    case Some(Residue) => c.(residues := c.residues + 1)
    case None => c.(kept := c.kept + 1)
  }

  predicate Picks(o: Options, row: Row) { o.apply && Selected(row, o.includeResidue) }

  function Handle(s: State, o: Options, item: (Key, Row), c: Counts): (State, Reply<Counts>) {
    var c1 := Counted(c, item.1);
    if !Picks(o, item.1) then (s, Ok(c1))
    else
      var (t, written) := Write(s, item.0, item.1, o.now, Reason(Classify(item.1).value));
      (t, match written
          case Raise => Raise
          case Ok(true) => Ok(c1.(cleared := c1.cleared + 1))
          case Ok(false) => Ok(c1.(skipped := c1.skipped + 1)))
  }

  function HandleAll(s: State, o: Options, items: seq<(Key, Row)>, c: Counts): (State, Reply<Counts>)
    decreases |items|
  {
    if items == [] then (s, Ok(c))
    else
      var (t, c1) := Handle(s, o, items[0], c);
      if c1.Raise? then (t, Raise) else HandleAll(t, o, items[1..], c1.value)
  }

  function Fetch(s: State): State { var t := Arrive(s); t.(fetches := t.fetches + [|t.trace|]) }

  /** `pages` are the stretches of the key space the scan walks through, one fetch each. */
  function RunFrom(s: State, o: Options, pages: seq<seq<Key>>, c: Counts): (State, Reply<Counts>)
    decreases |pages|
  {
    if pages == [] then (s, Ok(c))
    else if Fails(s) then (Arrive(s), Raise)
    else
      var t := Fetch(s);
      var (t1, c1) := HandleAll(t, o, Rows(t.table, pages[0]), c);
      if c1.Raise? then (t1, Raise) else RunFrom(t1, o, pages[1..], c1.value)
  }

  function Run(s: State, o: Options, pages: seq<seq<Key>>): (State, Reply<Counts>) { RunFrom(s, o, pages, NONE) }

  // ---------------------------------------------------------------------------
  // What the others' deeds make of a row
  // ---------------------------------------------------------------------------

  /** An active row after these deeds, as far as it is still active. */
  function After(row: Row, k: Key, ds: seq<Deed>): Row
    decreases |ds|
  {
    if ds == [] then row
    else After(if ds[0].OtherReports? && ds[0].key == k then Reported(row, ds[0].trigger, ds[0].reading) else row, k, ds[1..])
  }

  predicate Clears(ds: seq<Deed>, k: Key) { exists i :: 0 <= i < |ds| && ds[i].OtherClears? && ds[i].key == k }

  predicate Reports(ds: seq<Deed>, k: Key) { exists i :: 0 <= i < |ds| && ds[i].OtherReports? && ds[i].key == k }

  lemma {:induction false} DeedsOnRow(t: Table, ds: seq<Deed>, k: Key)
    requires k in t
    ensures var u := DoAll(t, ds);
            && k in u
            && (u[k].status == ACTIVE ==> t[k].status == ACTIVE && u[k] == After(t[k], k, ds))
            && (t[k].status == ACTIVE && !Clears(ds, k) ==> u[k].status == ACTIVE)
    decreases |ds|
  {
    if ds != [] {
      DeedsOnRow(Do(t, ds[0]), ds[1..], k);
      assert forall i :: 0 <= i < |ds[1..]| ==> ds[1..][i] == ds[i + 1];
      if t[k].status == ACTIVE && !Clears(ds, k) {
        assert !(ds[0].OtherClears? && ds[0].key == k);
        forall i | 0 <= i < |ds[1..]| ensures !(ds[1..][i].OtherClears? && ds[1..][i].key == k) { assert ds[1..][i] == ds[i + 1]; }
      }
    }
  }

  lemma {:induction false} AfterJoin(row: Row, k: Key, a: seq<Deed>, b: seq<Deed>)
    ensures After(row, k, a + b) == After(After(row, k, a), k, b)
    decreases |a|
  {
    if a == [] {
      assert a + b == b;
    } else {
      assert (a + b)[1..] == a[1..] + b;
      AfterJoin(if a[0].OtherReports? && a[0].key == k then Reported(row, a[0].trigger, a[0].reading) else row, k, a[1..], b);
    }
  }

  /** Only the last report of the row counts. */
  lemma {:induction false} LastReportDecides(row: Row, k: Key, ds: seq<Deed>, last: nat)
    requires last < |ds| && ds[last].OtherReports? && ds[last].key == k && !Reports(ds[last + 1..], k)
    ensures After(row, k, ds) == Reported(row, ds[last].trigger, ds[last].reading)
  {
    var before, after := ds[..last], ds[last + 1..];
    assert ds == before + ([ds[last]] + after);
    AfterJoin(row, k, before, [ds[last]] + after);
    AfterJoin(After(row, k, before), k, [ds[last]], after);
    assert [ds[last]][1..] == [];
    NothingReported(Reported(After(row, k, before), ds[last].trigger, ds[last].reading), k, after);
    SameButReport(row, k, before);
  }

  lemma {:induction false} NothingReported(row: Row, k: Key, ds: seq<Deed>)
    requires !Reports(ds, k)
    ensures After(row, k, ds) == row
    decreases |ds|
  {
    if ds != [] {
      assert !(ds[0].OtherReports? && ds[0].key == k);
      forall i | 0 <= i < |ds[1..]| ensures !(ds[1..][i].OtherReports? && ds[1..][i].key == k) { assert ds[1..][i] == ds[i + 1]; }
      NothingReported(row, k, ds[1..]);
    }
  }

  lemma {:induction false} SameButReport(row: Row, k: Key, ds: seq<Deed>)
    ensures After(row, k, ds) == row.(trigger := After(row, k, ds).trigger, reading := After(row, k, ds).reading)
    decreases |ds|
  {
    if ds != [] {
      SameButReport(if ds[0].OtherReports? && ds[0].key == k then Reported(row, ds[0].trigger, ds[0].reading) else row, k, ds[1..]);
    }
  }

  // ---------------------------------------------------------------------------
  // Steps
  // ---------------------------------------------------------------------------

  /** No row goes, none is made active again, and an active row is the row it was but for what
      others reported. */
  ghost predicate Onward(t: Table, ds: seq<Deed>, t1: Table) {
    forall k :: k in t ==> k in t1 && (t1[k].status == ACTIVE ==> t[k].status == ACTIVE && t1[k] == After(t[k], k, ds))
  }

  ghost predicate Later(s: State, t: State) {
    && |s.trace| <= |t.trace| && t.trace[..|s.trace|] == s.trace
    && Onward(s.table, t.trace[|s.trace|..], t.table)
  }

  lemma LaterStill(a: State, b: State, c: State)
    requires Later(a, b) && Later(b, c)
    ensures Later(a, c)
  {
    var x, y := b.trace[|a.trace|..], c.trace[|b.trace|..];
    assert c.trace[|a.trace|..] == x + y;
    assert c.trace[..|a.trace|] == c.trace[..|b.trace|][..|a.trace|];
    forall k | k in a.table && c.table[k].status == ACTIVE ensures c.table[k] == After(a.table[k], k, x + y) {
      AfterJoin(a.table[k], k, x, y);
    }
  }

  lemma ArriveIsLater(s: State)
    ensures Later(s, Arrive(s)) && Arrive(s).log == s.log && Arrive(s).fetches == s.fetches
    ensures s.turns == [] ==> Arrive(s) == s
  {
    var t := Arrive(s);
    if s.turns == [] {
      assert t.trace[|s.trace|..] == [];
    } else {
      assert t.trace[|s.trace|..] == s.turns[0].deeds;
      forall k | k in s.table ensures k in t.table && (t.table[k].status == ACTIVE ==> s.table[k].status == ACTIVE && t.table[k] == After(s.table[k], k, s.turns[0].deeds)) {
        DeedsOnRow(s.table, s.turns[0].deeds, k);
      }
    }
  }

  /** Each write cleared an active row: one it had seen selected, as others' reports since had
      left it. */
  ghost predicate Explained(log: seq<Event>, includeResidue: bool) {
    forall i :: 0 <= i < |log| ==> ExplainedBy(log[i], includeResidue)
  }

  ghost predicate ExplainedBy(e: Event, includeResidue: bool) {
    && e.fetched.status == ACTIVE && Selected(e.fetched, includeResidue)
    && e.before.status == ACTIVE && e.before == After(e.fetched, e.key, e.since)
  }

  /** The page in hand: each of its rows is as fetched but for reports since, or active no more. */
  ghost predicate InHand(items: seq<(Key, Row)>, s: State) {
    && |s.fetches| > 0 && s.fetches[|s.fetches| - 1] <= |s.trace|
    && forall i :: 0 <= i < |items| ==>
         && items[i].0 in s.table && items[i].1.status == ACTIVE
         && (s.table[items[i].0].status == ACTIVE ==> s.table[items[i].0] == After(items[i].1, items[i].0, Since(s)))
  }

  lemma StaysInHand(items: seq<(Key, Row)>, s: State, t: State)
    requires InHand(items, s) && Later(s, t) && t.fetches == s.fetches
    ensures InHand(items, t)
  {
    var n := s.fetches[|s.fetches| - 1];
    var added := t.trace[|s.trace|..];
    assert t.trace[n..] == s.trace[n..] + added by { assert t.trace == s.trace + added; }
    forall i | 0 <= i < |items| && t.table[items[i].0].status == ACTIVE
      ensures t.table[items[i].0] == After(items[i].1, items[i].0, Since(t))
    {
      AfterJoin(items[i].1, items[i].0, s.trace[n..], added);
    }
  }

  lemma ClearedIsLater(s: State, k: Key, date: string, reason: string, log: seq<Event>)
    requires k in s.table && s.table[k].status == ACTIVE
    ensures Later(s, s.(table := s.table[k := Clear(s.table[k], date, SCRIPT, reason)], log := log))
  {
    assert s.trace[|s.trace|..] == [];
  }

  lemma WriteIsExplained(s: State, k: Key, row: Row, date: string, reason: string, includeResidue: bool)
    requires Explained(s.log, includeResidue) && InHand([(k, row)], s) && Selected(row, includeResidue)
    ensures var (t, r) := Write(s, k, row, date, reason);
            && Later(s, t) && t.fetches == s.fetches && Explained(t.log, includeResidue)
            && (r.Ok? ==> k in t.table && t.table[k].status != ACTIVE && |t.log| == |s.log| + if r.value then 1 else 0)
            && (s.turns == [] ==> r.Ok? && t.turns == [] && t.trace == s.trace)
  {
    ArriveIsLater(s);
    var t := Arrive(s);
    StaysInHand([(k, row)], s, t);
    HandedRow(t, k, row);
    if !Fails(s) && t.table[k].status == ACTIVE {
      ClearedIsLater(t, k, date, reason, t.log + [Event(k, row, t.table[k], Since(t))]);
      LaterStill(s, t, Write(s, k, row, date, reason).0);
    }
  }

  lemma HandedRow(t: State, k: Key, row: Row)
    requires InHand([(k, row)], t)
    ensures k in t.table && row.status == ACTIVE && (t.table[k].status == ACTIVE ==> t.table[k] == After(row, k, Since(t)))
  {
    assert [(k, row)][0] == (k, row);
  }

  ghost predicate Settled(items: seq<(Key, Row)>, o: Options, t: Table) {
    forall i :: 0 <= i < |items| && Picks(o, items[i].1) ==> items[i].0 in t && t[items[i].0].status != ACTIVE
  }

  /** What handling rows does to a state, in full, in part or not at all. */
  ghost predicate Handled(s: State, o: Options, t: State) {
    && Later(s, t) && t.fetches == s.fetches && Explained(t.log, o.includeResidue)
    && (!o.apply ==> t == s) && (s.turns == [] ==> t.turns == [] && t.trace == s.trace)
  }

  lemma HandleIsExplained(s: State, o: Options, item: (Key, Row), c: Counts)
    requires Explained(s.log, o.includeResidue) && InHand([item], s)
    ensures var (t, r) := Handle(s, o, item, c);
            && Handled(s, o, t)
            && (r.Ok? && Picks(o, item.1) ==> item.0 in t.table && t.table[item.0].status != ACTIVE)
            && (r.Ok? ==> |t.log| + c.cleared == |s.log| + r.value.cleared)
            && (s.turns == [] ==> r.Ok?)
  {
    if Picks(o, item.1) {
      assert item == (item.0, item.1);
      WriteIsExplained(s, item.0, item.1, o.now, Reason(Classify(item.1).value), o.includeResidue);
    } else {
      NothingDone(s);
    }
  }

  lemma NothingDone(s: State)
    ensures Later(s, s)
  {
    assert s.trace[|s.trace|..] == [];
  }

  lemma HandledOn(a: State, o: Options, b: State, c: State)
    requires Handled(a, o, b) && Handled(b, o, c)
    ensures Handled(a, o, c)
  {
    LaterStill(a, b, c);
  }

  lemma {:induction false} HandleAllIsExplained(s: State, o: Options, items: seq<(Key, Row)>, c: Counts)
    requires Explained(s.log, o.includeResidue) && InHand(items, s)
    ensures var (t, r) := HandleAll(s, o, items, c);
            && Handled(s, o, t)
            && (r.Ok? ==> Settled(items, o, t.table) && |t.log| + c.cleared == |s.log| + r.value.cleared)
            && (s.turns == [] ==> r.Ok?)
    decreases |items|
  {
    if items == [] {
      NothingDone(s);
    } else {
      HandleIsExplained(s, o, items[0], c);
      var (t, c1) := Handle(s, o, items[0], c);
      if c1.Ok? {
        StaysInHand(items, s, t);
        HandleAllIsExplained(t, o, items[1..], c1.value);
        var t1 := HandleAll(t, o, items[1..], c1.value).0;
        HandledOn(s, o, t, t1);
        SettledOn(items, o, t, t1);
      }
    }
  }

  lemma SettledOn(items: seq<(Key, Row)>, o: Options, t: State, t1: State)
    requires items != [] && Later(t, t1)
    requires Picks(o, items[0].1) ==> items[0].0 in t.table && t.table[items[0].0].status != ACTIVE
    ensures Settled(items[1..], o, t1.table) ==> Settled(items, o, t1.table)
  {
    forall i | 0 < i < |items| ensures items[i] == items[1..][i - 1] {}
  }

  // ---------------------------------------------------------------------------
  // Pages
  // ---------------------------------------------------------------------------

  lemma {:induction false} RowsHasAll(t: Table, page: seq<Key>, k: Key)
    requires k in page && k in t && Candidate(t[k])
    ensures (k, t[k]) in Rows(t, page)
    decreases |page|
  {
    if page[0] != k { RowsHasAll(t, page[1..], k); }
  }

  lemma SettledRow(t: Table, page: seq<Key>, o: Options, u: Table, k: Key)
    requires Settled(Rows(t, page), o, u) && k in page && k in t && Candidate(t[k]) && Picks(o, t[k])
    ensures k in u && u[k].status != ACTIVE
  {
    RowsHasAll(t, page, k);
    var items := Rows(t, page);
    var i :| 0 <= i < |items| && items[i] == (k, t[k]);
  }

  lemma FetchIsLater(s: State)
    ensures Later(s, Fetch(s)) && Fetch(s).log == s.log && Since(Fetch(s)) == []
    ensures Fetch(s).fetches == s.fetches + [|Fetch(s).trace|]
    ensures s.turns == [] ==> Fetch(s).turns == [] && Fetch(s).table == s.table && Fetch(s).trace == s.trace
  {
    ArriveIsLater(s);
    assert Fetch(s).trace[|Fetch(s).trace|..] == [];
  }

  lemma PageIsExplained(s: State, o: Options, page: seq<Key>, c: Counts)
    requires Explained(s.log, o.includeResidue)
    ensures var t := Fetch(s); var items := Rows(t.table, page); var (t1, r) := HandleAll(t, o, items, c);
            && Later(s, t) && Later(t, t1) && t1.fetches == s.fetches + [|t.trace|] && Explained(t1.log, o.includeResidue)
            && (!o.apply ==> t1 == t)
            && (r.Ok? ==> Settled(items, o, t1.table) && |t1.log| + c.cleared == |s.log| + r.value.cleared)
            && (s.turns == [] ==> r.Ok? && t1.turns == [] && t1.trace == s.trace)
  {
    FetchIsLater(s);
    var t := Fetch(s);
    HandleAllIsExplained(t, o, Rows(t.table, page), c);
  }

  /** What others did from `s` to the point where the trace was `n` long. */
  function Seen(s: State, t: State, n: nat): seq<Deed> {
    if |s.trace| <= n <= |t.trace| then t.trace[|s.trace|..n] else []
  }

  /** The trace lengths at which the pages were fetched. */
  ghost predicate FetchedInOrder(s: State, t: State, n: nat) {
    && |t.fetches| == |s.fetches| + n && t.fetches[..|s.fetches|] == s.fetches
    && (forall i :: |s.fetches| <= i < |t.fetches| ==> |s.trace| <= t.fetches[i] <= |t.trace|)
  }

  /** If it is still active in `t`, the row was not one to pick after `n` of the others' deeds. */
  ghost predicate SweptAt(s: State, t: State, o: Options, n: nat, k: Key) {
    k in s.table && k in t.table && t.table[k].status == ACTIVE ==> !Picks(o, After(s.table[k], k, Seen(s, t, n)))
  }

  ghost predicate PageSwept(s: State, t: State, o: Options, page: seq<Key>, n: nat) {
    forall k :: k in page ==> SweptAt(s, t, o, n, k)
  }

  /** Rows selected when a page of theirs was fetched are active no more at the end; the pages were
      fetched at the trace lengths from `first` on. */
  ghost predicate Swept(s: State, t: State, o: Options, pages: seq<seq<Key>>, first: nat)
    decreases |pages|
  {
    pages == [] || (first < |t.fetches| && PageSwept(s, t, o, pages[0], t.fetches[first]) && Swept(s, t, o, pages[1..], first + 1))
  }

  lemma {:induction false} SweptPage(s: State, t: State, o: Options, pages: seq<seq<Key>>, first: nat, i: nat)
    requires Swept(s, t, o, pages, first) && i < |pages|
    ensures first + i < |t.fetches| && PageSwept(s, t, o, pages[i], t.fetches[first + i])
    decreases |pages|
  {
    if i > 0 { SweptPage(s, t, o, pages[1..], first + 1, i - 1); }
  }

  /** Everything a run, finished or not, keeps. */
  ghost predicate Kept(s: State, o: Options, t: State) {
    && Later(s, t) && Explained(t.log, o.includeResidue)
    && (!o.apply ==> t.log == s.log) && (s.turns == [] ==> t.turns == [] && t.trace == s.trace)
  }

  lemma {:induction false} RunIsExplained(s: State, o: Options, pages: seq<seq<Key>>, c: Counts)
    requires Explained(s.log, o.includeResidue)
    ensures var (t, r) := RunFrom(s, o, pages, c);
            && Kept(s, o, t)
            && (r.Ok? ==> FetchedInOrder(s, t, |pages|) && Swept(s, t, o, pages, |s.fetches|) && |t.log| + c.cleared == |s.log| + r.value.cleared)
            && (s.turns == [] ==> r.Ok?)
    decreases |pages|
  {
    if pages == [] {
      NothingDone(s);
    } else if Fails(s) {
      ArriveIsLater(s);
    } else {
      PageIsExplained(s, o, pages[0], c);
      var t := Fetch(s);
      var (t1, c1) := HandleAll(t, o, Rows(t.table, pages[0]), c);
      LaterStill(s, t, t1);
      if c1.Ok? {
        RunIsExplained(t1, o, pages[1..], c1.value);
        var (t2, r) := RunFrom(t1, o, pages[1..], c1.value);
        LaterStill(s, t1, t2);
        if r.Ok? { PagesSwept(s, t, t1, t2, o, pages); }
      }
    }
  }

  /** The first page fetched in `b` and handled by `c`; the rest swept by `d`. */
  lemma PagesSwept(a: State, b: State, c: State, d: State, o: Options, pages: seq<seq<Key>>)
    requires pages != [] && Later(a, b) && Later(b, c) && Later(c, d) && Later(a, c)
    requires c.fetches == a.fetches + [|b.trace|]
    requires Settled(Rows(b.table, pages[0]), o, c.table)
    requires FetchedInOrder(c, d, |pages| - 1) && Swept(c, d, o, pages[1..], |c.fetches|)
    ensures FetchedInOrder(a, d, |pages|) && Swept(a, d, o, pages, |a.fetches|)
  {
    FetchesJoin(a, b, c, d);
    assert Seen(a, d, |b.trace|) == d.trace[|a.trace|..|b.trace|];
    forall k | k in pages[0] ensures SweptAt(a, d, o, |b.trace|, k) {
      if k in a.table && k in d.table && d.table[k].status == ACTIVE { FirstPageSwept(a, b, c, d, o, pages[0], k); }
    }
    SweptEarlier(a, c, d, o, pages[1..], |c.fetches|);
  }

  lemma {:induction false} SweptEarlier(a: State, c: State, d: State, o: Options, pages: seq<seq<Key>>, first: nat)
    requires Later(a, c) && Later(c, d) && Swept(c, d, o, pages, first)
    requires forall i :: first <= i < |d.fetches| ==> |c.trace| <= d.fetches[i] <= |d.trace|
    ensures Swept(a, d, o, pages, first)
    decreases |pages|
  {
    if pages != [] {
      forall k | k in pages[0] ensures SweptAt(a, d, o, d.fetches[first], k) { SweptAtEarlier(a, c, d, o, d.fetches[first], k); }
      SweptEarlier(a, c, d, o, pages[1..], first + 1);
    }
  }

  lemma SweptAtEarlier(a: State, c: State, d: State, o: Options, n: nat, k: Key)
    requires Later(a, c) && Later(c, d) && |c.trace| <= n <= |d.trace| && SweptAt(c, d, o, n, k)
    ensures SweptAt(a, d, o, n, k)
  {
    if k in a.table && k in d.table && d.table[k].status == ACTIVE {
      assert k in c.table && c.table[k].status == ACTIVE;
      SeenJoin(a, c, d, n, k);
    }
  }

  lemma FetchesJoin(a: State, b: State, c: State, d: State)
    requires Later(a, b) && Later(b, c) && Later(c, d) && c.fetches == a.fetches + [|b.trace|]
    requires |d.fetches| >= |c.fetches| && d.fetches[..|c.fetches|] == c.fetches
    requires forall i :: |c.fetches| <= i < |d.fetches| ==> |c.trace| <= d.fetches[i] <= |d.trace|
    ensures d.fetches[..|a.fetches|] == a.fetches && d.fetches[|a.fetches|] == |b.trace|
    ensures forall i :: |a.fetches| <= i < |d.fetches| ==> |a.trace| <= d.fetches[i] <= |d.trace|
    ensures d.trace[..|b.trace|] == b.trace
  {
    assert d.fetches[..|a.fetches|] == d.fetches[..|c.fetches|][..|a.fetches|];
    assert d.fetches[|a.fetches|] == c.fetches[|a.fetches|];
    assert d.trace[..|b.trace|] == d.trace[..|c.trace|][..|b.trace|];
  }

  lemma SeenJoin(a: State, c: State, d: State, n: nat, k: Key)
    requires Later(a, c) && Later(c, d) && |c.trace| <= n <= |d.trace| && k in a.table && k in c.table
    requires c.table[k].status == ACTIVE
    ensures After(a.table[k], k, Seen(a, d, n)) == After(c.table[k], k, Seen(c, d, n))
  {
    assert d.trace[..|c.trace|] == c.trace;
    assert d.trace[|a.trace|..n] == c.trace[|a.trace|..] + d.trace[|c.trace|..n];
    AfterJoin(a.table[k], k, c.trace[|a.trace|..], d.trace[|c.trace|..n]);
  }

  lemma FirstPageSwept(a: State, b: State, c: State, d: State, o: Options, page: seq<Key>, k: Key)
    requires Later(a, b) && Later(b, c) && Later(c, d) && Settled(Rows(b.table, page), o, c.table)
    requires k in page && k in a.table && k in d.table && d.table[k].status == ACTIVE && |b.trace| <= |d.trace|
    requires d.trace[..|b.trace|] == b.trace
    ensures !Picks(o, After(a.table[k], k, d.trace[|a.trace|..|b.trace|]))
  {
    assert k in b.table && k in c.table && c.table[k].status == ACTIVE && b.table[k].status == ACTIVE;
    assert d.trace[|a.trace|..|b.trace|] == b.trace[|a.trace|..];
    if Picks(o, b.table[k]) { SettledRow(b.table, page, o, c.table, k); }
  }

  // ---------------------------------------------------------------------------
  // Rows a run spares
  // ---------------------------------------------------------------------------

  /** The row stays active but for others clearing it. */
  ghost predicate Spared(s: State, t: State, k: Key) {
    && k in s.table && k in t.table && |s.trace| <= |t.trace|
    && (s.table[k].status == ACTIVE && !Clears(t.trace[|s.trace|..], k) ==> t.table[k].status == ACTIVE)
  }

  lemma SparedOn(a: State, b: State, c: State, k: Key)
    requires Spared(a, b, k) && Spared(b, c, k) && Later(a, b) && Later(b, c)
    ensures Spared(a, c, k)
  {
    var x, y, z := b.trace[|a.trace|..], c.trace[|b.trace|..], c.trace[|a.trace|..];
    assert z == x + y by { assert c.trace[..|b.trace|] == b.trace; }
    if !Clears(z, k) {
      forall i | 0 <= i < |x| ensures !(x[i].OtherClears? && x[i].key == k) { assert z[i] == x[i]; }
      forall i | 0 <= i < |y| ensures !(y[i].OtherClears? && y[i].key == k) { assert z[|x| + i] == y[i]; }
    }
  }

  lemma ArriveSpares(s: State, k: Key)
    requires k in s.table
    ensures Spared(s, Arrive(s), k) && Spared(s, Fetch(s), k)
  {
    if s.turns != [] {
      DeedsOnRow(s.table, s.turns[0].deeds, k);
      assert Arrive(s).trace[|s.trace|..] == s.turns[0].deeds;
    }
  }

  lemma WriteIsLater(s: State, k: Key, row: Row, date: string, reason: string)
    ensures var t := Write(s, k, row, date, reason).0; Later(s, t) && t.fetches == s.fetches
    ensures forall other :: other in s.table && other != k ==> Spared(s, Write(s, k, row, date, reason).0, other)
  {
    ArriveIsLater(s);
    var t, t1 := Arrive(s), Write(s, k, row, date, reason).0;
    if !Fails(s) && k in t.table && t.table[k].status == ACTIVE {
      ClearedIsLater(t, k, date, reason, t1.log);
      LaterStill(s, t, t1);
    }
    forall other | other in s.table && other != k ensures Spared(s, t1, other) { ArriveSpares(s, other); }
  }

  lemma {:induction false} HandleAllSpares(s: State, o: Options, items: seq<(Key, Row)>, c: Counts, k: Key)
    requires k in s.table && forall i :: 0 <= i < |items| && items[i].0 == k ==> !Picks(o, items[i].1)
    ensures var t := HandleAll(s, o, items, c).0; Later(s, t) && t.fetches == s.fetches && Spared(s, t, k)
    decreases |items|
  {
    NothingDone(s);
    if items != [] {
      var (t, c1) := Handle(s, o, items[0], c);
      if Picks(o, items[0].1) {
        WriteIsLater(s, items[0].0, items[0].1, o.now, Reason(Classify(items[0].1).value));
      }
      if c1.Ok? {
        HandleAllSpares(t, o, items[1..], c1.value, k);
        var t1 := HandleAll(t, o, items[1..], c1.value).0;
        LaterStill(s, t, t1);
        SparedOn(s, t, t1, k);
      }
    }
  }

  /** No page showed the row as one to pick. */
  ghost predicate NeverPicked(s: State, t: State, o: Options, pages: seq<seq<Key>>, k: Key)
    requires k in s.table
  {
    forall i :: 0 <= i < |pages| && |s.fetches| + i < |t.fetches| && k in pages[i] ==>
      !Picks(o, After(s.table[k], k, Seen(s, t, t.fetches[|s.fetches| + i])))
  }

  lemma SlicesUncleared(a: State, b: State, d: State, k: Key)
    requires Later(a, b) && Later(b, d) && !Clears(d.trace[|a.trace|..], k)
    ensures |b.trace| <= |d.trace| && d.trace[..|b.trace|] == b.trace
    ensures !Clears(b.trace[|a.trace|..], k) && !Clears(d.trace[|b.trace|..], k)
  {
    var x, y, z := b.trace[|a.trace|..], d.trace[|b.trace|..], d.trace[|a.trace|..];
    assert z == x + y by { assert d.trace[..|b.trace|] == b.trace; }
    forall i | 0 <= i < |x| ensures !(x[i].OtherClears? && x[i].key == k) { assert z[i] == x[i]; }
    forall i | 0 <= i < |y| ensures !(y[i].OtherClears? && y[i].key == k) { assert z[|x| + i] == y[i]; }
  }

  lemma {:induction false} RunSpares(s: State, o: Options, pages: seq<seq<Key>>, c: Counts, k: Key)
    requires Explained(s.log, o.includeResidue) && RunFrom(s, o, pages, c).1.Ok?
    requires k in s.table && s.table[k].status == ACTIVE
    requires var d := RunFrom(s, o, pages, c).0;
             NeverPicked(s, d, o, pages, k) && |s.trace| <= |d.trace| && !Clears(d.trace[|s.trace|..], k)
    ensures k in RunFrom(s, o, pages, c).0.table && RunFrom(s, o, pages, c).0.table[k].status == ACTIVE
    decreases |pages|
  {
    if pages != [] {
      var b, d := Fetch(s), RunFrom(s, o, pages, c).0;
      var (t, c1) := HandleAll(b, o, Rows(b.table, pages[0]), c);
      RunIsExplained(s, o, pages, c);
      PageIsExplained(s, o, pages[0], c);
      RunIsExplained(t, o, pages[1..], c1.value);
      LaterStill(s, b, t);
      LaterStill(b, t, d);
      FetchesJoin(s, b, t, d);
      SlicesUncleared(s, b, d, k);
      SlicesUncleared(b, t, d, k);
      ArriveSpares(s, k);
      FirstPageSpares(s, b, d, o, pages, k);
      HandleAllSpares(b, o, Rows(b.table, pages[0]), c, k);
      StillNeverPicked(s, t, d, o, pages, k);
      RunSpares(t, o, pages[1..], c1.value, k);
    }
  }

  lemma StillNeverPicked(s: State, t: State, d: State, o: Options, pages: seq<seq<Key>>, k: Key)
    requires pages != [] && k in s.table && k in t.table && t.table[k].status == ACTIVE && Later(s, t) && Later(t, d)
    requires |t.fetches| == |s.fetches| + 1 && FetchedInOrder(t, d, |pages| - 1) && NeverPicked(s, d, o, pages, k)
    ensures NeverPicked(t, d, o, pages[1..], k)
  {
    forall i | 0 <= i < |pages[1..]| && |t.fetches| + i < |d.fetches| && k in pages[1..][i]
      ensures !Picks(o, After(t.table[k], k, Seen(t, d, d.fetches[|t.fetches| + i])))
    {
      var n := d.fetches[|s.fetches| + (i + 1)];
      assert k in pages[i + 1] && n == d.fetches[|t.fetches| + i];
      assert !Picks(o, After(s.table[k], k, Seen(s, d, n)));
      SeenJoin(s, t, d, n, k);
    }
  }

  lemma FirstPageSpares(s: State, b: State, d: State, o: Options, pages: seq<seq<Key>>, k: Key)
    requires pages != [] && Later(s, b) && k in s.table && NeverPicked(s, d, o, pages, k)
    requires |s.fetches| < |d.fetches| && d.fetches[|s.fetches|] == |b.trace| <= |d.trace| && d.trace[..|b.trace|] == b.trace
    requires k in b.table && b.table[k].status == ACTIVE
    ensures var items := Rows(b.table, pages[0]); forall i :: 0 <= i < |items| && items[i].0 == k ==> !Picks(o, items[i].1)
  {
    assert Seen(s, d, |b.trace|) == b.trace[|s.trace|..];
    if k in pages[0] { assert !Picks(o, After(s.table[k], k, Seen(s, d, d.fetches[|s.fetches| + 0]))); }
  }

  // ---------------------------------------------------------------------------
  // Main results
  // ---------------------------------------------------------------------------

  /** The last report of the row since its page was fetched makes it one not to select. */
  ghost predicate Unselected(e: Event, includeResidue: bool) {
    exists last :: 0 <= last < |e.since| && UnselectedAt(e, includeResidue, last)
  }

  ghost predicate UnselectedAt(e: Event, includeResidue: bool, last: nat)
    requires last < |e.since|
  {
    && e.since[last].OtherReports? && e.since[last].key == e.key && !Reports(e.since[last + 1..], e.key)
    && !Selected(Reported(e.fetched, e.since[last].trigger, e.since[last].reading), includeResidue)
  }

  lemma {:induction false} LastReport(ds: seq<Deed>, k: Key) returns (last: nat)
    requires Reports(ds, k)
    ensures last < |ds| && ds[last].OtherReports? && ds[last].key == k && !Reports(ds[last + 1..], k)
    decreases |ds|
  {
    var i :| 0 <= i < |ds| && ds[i].OtherReports? && ds[i].key == k;
    assert i > 0 ==> ds[1..][i - 1] == ds[i];
    if Reports(ds[1..], k) {
      var rest := LastReport(ds[1..], k);
      assert ds[1..][rest + 1..] == ds[rest + 2..];
      last := rest + 1;
    } else {
      last := 0;
    }
  }

  /** With others clearing, adding and reporting all the while: every write of a run, finished or
      not, cleared an active row that its page had shown as selected, and that was still selected
      exactly when no report of the row since had made it one not to select. */
  lemma WritesHitSelectedExactly(t: Table, turns: seq<Turn>, o: Options, pages: seq<seq<Key>>, i: nat)
    requires i < |Run(Start(t, turns), o, pages).0.log|
    ensures var e := Run(Start(t, turns), o, pages).0.log[i];
            && ExplainedBy(e, o.includeResidue)
            && (Selected(e.before, o.includeResidue) <==> !Unselected(e, o.includeResidue))
            && (!Reports(e.since, e.key) ==> e.before == e.fetched)
    ensures Run(Start(t, turns), o, pages).1.Ok? ==>
              Run(Start(t, turns), o, pages).1.value.cleared == |Run(Start(t, turns), o, pages).0.log|
  {
    RunIsExplained(Start(t, turns), o, pages, NONE);
    var e := Run(Start(t, turns), o, pages).0.log[i];
    assert ExplainedBy(e, o.includeResidue);
    StillSelectedExactly(e, o.includeResidue);
  }

  lemma StillSelectedExactly(e: Event, includeResidue: bool)
    requires ExplainedBy(e, includeResidue)
    ensures Selected(e.before, includeResidue) <==> !Unselected(e, includeResidue)
    ensures !Reports(e.since, e.key) ==> e.before == e.fetched
  {
    if Reports(e.since, e.key) {
      var last := LastReport(e.since, e.key);
      LastReportDecides(e.fetched, e.key, e.since, last);
      if Unselected(e, includeResidue) {
        var other :| 0 <= other < |e.since| && UnselectedAt(e, includeResidue, other);
        LastReportDecides(e.fetched, e.key, e.since, other);
      } else {
        assert !UnselectedAt(e, includeResidue, last);
      }
    } else {
      NothingReported(e.fetched, e.key, e.since);
    }
  }

  /** A row that was active when a finished run began and that nobody else cleared is active still
      exactly when no page showed it as one to pick, as others' reports had left it by then. */
  lemma LeftActiveExactly(t: Table, turns: seq<Turn>, o: Options, pages: seq<seq<Key>>, k: Key)
    requires k in t && t[k].status == ACTIVE && Run(Start(t, turns), o, pages).1.Ok?
    requires !Clears(Run(Start(t, turns), o, pages).0.trace, k)
    ensures var d := Run(Start(t, turns), o, pages).0;
            && k in d.table && |d.fetches| == |pages|
            && (d.table[k].status == ACTIVE <==> NeverPicked(Start(t, turns), d, o, pages, k))
  {
    var s, d := Start(t, turns), Run(Start(t, turns), o, pages).0;
    RunIsExplained(s, o, pages, NONE);
    assert d.trace[|s.trace|..] == d.trace;
    if d.table[k].status == ACTIVE {
      ActiveWasNeverPicked(s, d, o, pages, k);
    } else if NeverPicked(s, d, o, pages, k) {
      RunSpares(s, o, pages, NONE, k);
    }
  }

  lemma ActiveWasNeverPicked(s: State, d: State, o: Options, pages: seq<seq<Key>>, k: Key)
    requires k in s.table && k in d.table && d.table[k].status == ACTIVE && Swept(s, d, o, pages, |s.fetches|)
    ensures NeverPicked(s, d, o, pages, k)
  {
    forall i | 0 <= i < |pages| && |s.fetches| + i < |d.fetches| && k in pages[i]
      ensures !Picks(o, After(s.table[k], k, Seen(s, d, d.fetches[|s.fetches| + i])))
    {
      SweptRow(s, d, o, pages, i, k);
    }
  }

  predicate CoversAll(t: Table, pages: seq<seq<Key>>) { forall k :: k in t ==> exists i :: 0 <= i < |pages| && k in pages[i] }

  /** So where no report comes in, a finished run over pages covering the table leaves no row
      active that was there and selected when it began, whoever cleared it. */
  lemma UnreportedRowsAreSwept(t: Table, turns: seq<Turn>, o: Options, pages: seq<seq<Key>>, k: Key)
    requires CoversAll(t, pages) && o.apply && Run(Start(t, turns), o, pages).1.Ok?
    requires k in t && t[k].status == ACTIVE && Selected(t[k], o.includeResidue)
    requires !Reports(Run(Start(t, turns), o, pages).0.trace, k)
    ensures var d := Run(Start(t, turns), o, pages).0; k in d.table && d.table[k].status != ACTIVE
  {
    var s, d := Start(t, turns), Run(Start(t, turns), o, pages).0;
    RunIsExplained(s, o, pages, NONE);
    var i :| 0 <= i < |pages| && k in pages[i];
    UnreportedIsSwept(s, d, o, pages, i, k);
  }

  lemma SweptRow(s: State, d: State, o: Options, pages: seq<seq<Key>>, i: nat, k: Key)
    requires Swept(s, d, o, pages, |s.fetches|) && i < |pages| && k in pages[i]
    ensures |s.fetches| + i < |d.fetches| && SweptAt(s, d, o, d.fetches[|s.fetches| + i], k)
  {
    SweptPage(s, d, o, pages, |s.fetches|, i);
  }

  lemma UnreportedIsSwept(s: State, d: State, o: Options, pages: seq<seq<Key>>, i: nat, k: Key)
    requires Later(s, d) && Swept(s, d, o, pages, |s.fetches|) && !Reports(d.trace, k)
    requires i < |pages| && k in pages[i] && k in s.table && Picks(o, s.table[k])
    ensures k in d.table && d.table[k].status != ACTIVE
  {
    SweptRow(s, d, o, pages, i, k);
    UnreportedAt(s, d, o, d.fetches[|s.fetches| + i], k);
  }

  lemma UnreportedAt(s: State, d: State, o: Options, n: nat, k: Key)
    requires Later(s, d) && SweptAt(s, d, o, n, k) && !Reports(d.trace, k) && k in s.table && Picks(o, s.table[k])
    ensures k in d.table && d.table[k].status != ACTIVE
  {
    UnreportedView(s, d, n, k, s.table[k]);
  }

  lemma UnreportedView(s: State, d: State, n: nat, k: Key, row: Row)
    requires !Reports(d.trace, k)
    ensures After(row, k, Seen(s, d, n)) == row
  {
    var seen := Seen(s, d, n);
    forall j | 0 <= j < |seen| ensures !(seen[j].OtherReports? && seen[j].key == k) { assert d.trace[|s.trace| + j] == seen[j]; }
    NothingReported(row, k, seen);
  }

  /** What a write may clear, unless a report since the row's fetch had made it one not to select:
      never an alarm whose recorded reading is above the corrected threshold or that another rule
      raised; without --include-residue, none without a reading. */
  lemma GenuineAlarmsAreNeverCleared(t: Table, turns: seq<Turn>, o: Options, pages: seq<seq<Key>>, i: nat)
    requires i < |Run(Start(t, turns), o, pages).0.log|
    requires !Unselected(Run(Start(t, turns), o, pages).0.log[i], o.includeResidue)
    ensures var row := Run(Start(t, turns), o, pages).0.log[i].before;
            && row.status == ACTIVE && row.clearedDate == "" && (row.code == OVERHEAT || row.code == FIRE)
            && (row.reading.Some? ==> row.reading.value <= Threshold(row.code) && row.trigger == RuleEvent(row.code))
            && (row.trigger == "" || row.trigger == RuleEvent(row.code))
            && (row.reading.None? ==> o.includeResidue && row.code == OVERHEAT)
  {
    WritesHitSelectedExactly(t, turns, o, pages, i);
  }

  /** The write's condition is the status alone: a false alarm that a real overheat report reaches
      between the scan and the write is cleared with the real reading in it. */
  lemma RealAlarmIsCleared(k: Key, now: string)
    ensures var row := Row(OVERHEAT, ACTIVE, "", RuleEvent(OVERHEAT), Some(200.0), None, "", "");
            var turns := [Turn([], false), Turn([OtherReports(k, RuleEvent(OVERHEAT), Some(300.0))], false)];
            var (s, r) := Run(Start(map[k := row], turns), Options(true, false, now), [[k]]);
            && r.Ok? && |s.log| == 1 && s.log[0].before == row.(reading := Some(300.0))
            && !Selected(s.log[0].before, true) && k in s.table && s.table[k].status == CLEARED
  {
    var row := Row(OVERHEAT, ACTIVE, "", RuleEvent(OVERHEAT), Some(200.0), None, "", "");
    assert Upper(ACTIVE) == ACTIVE;
    ReportBetweenIsCleared(map[k := row], k, OtherReports(k, RuleEvent(OVERHEAT), Some(300.0)), Options(true, false, now));
  }

  /** One row, one page, one report between its fetch and its write. */
  lemma ReportBetweenIsCleared(t: Table, k: Key, report: Deed, o: Options)
    requires k in t && Candidate(t[k]) && Picks(o, t[k]) && report.OtherReports? && report.key == k
    ensures var (s, r) := Run(Start(t, [Turn([], false), Turn([report], false)]), o, [[k]]);
            && r.Ok? && |s.log| == 1 && s.log[0].before == Reported(t[k], report.trigger, report.reading)
            && k in s.table && s.table[k].status == CLEARED
  {
    var turns := [Turn([], false), Turn([report], false)];
    var s1 := Fetch(Start(t, turns));
    assert s1.turns == [Turn([report], false)] && s1.table == t && s1.log == [];
    assert [k][1..] == [] && Rows(t, [k]) == [(k, t[k])] + Rows(t, []) == [(k, t[k])];
    ReportThenWrite(s1, k, report, t[k], o);
    var items := [(k, t[k])];
    assert items[1..] == [] && [[k]][1..] == [];
    var (s2, c2) := Handle(s1, o, items[0], NONE);
    assert HandleAll(s1, o, items, NONE) == (s2, c2);
    assert Run(Start(t, turns), o, [[k]]) == RunFrom(s2, o, [], c2.value);
  }

  lemma ReportThenWrite(s: State, k: Key, report: Deed, row: Row, o: Options)
    requires s.turns == [Turn([report], false)] && k in s.table && s.table[k] == row && row.status == ACTIVE && s.log == []
    requires report.OtherReports? && report.key == k && Picks(o, row)
    ensures var (t, r) := Handle(s, o, (k, row), NONE);
            && r.Ok? && |t.log| == 1 && t.log[0].before == Reported(row, report.trigger, report.reading)
            && k in t.table && t.table[k].status == CLEARED
  {
    ReportArrives(s, k, report, row);
  }

  lemma ReportArrives(s: State, k: Key, report: Deed, row: Row)
    requires s.turns == [Turn([report], false)] && k in s.table && s.table[k] == row && row.status == ACTIVE
    requires report.OtherReports? && report.key == k
    ensures var t := Arrive(s); k in t.table && t.table[k] == Reported(row, report.trigger, report.reading) && t.log == s.log && !Fails(s)
  {
    assert [report][1..] == [] && DoAll(s.table, [report]) == Do(s.table, report);
  }

  /** Left alone, a run with --include-residue leaves no active row false or residue, whatever the
      paging, and the next one clears nothing. */
  lemma SecondRunClearsNothing(t: Table, now: string, later: string, pages: seq<seq<Key>>, again: seq<seq<Key>>)
    requires CoversAll(t, pages)
    ensures var (s1, _) := Run(Start(t, []), Options(true, true, now), pages);
            var (s2, r2) := Run(Start(s1.table, []), Options(true, true, later), again);
            && (forall k :: k in s1.table && s1.table[k].status == ACTIVE ==> Classify(s1.table[k]).None?)
            && s2.table == s1.table && r2.Ok? && r2.value.cleared == 0 && r2.value.skipped == 0
  {
    var o := Options(true, true, now);
    RunIsExplained(Start(t, []), o, pages, NONE);
    var s1 := Run(Start(t, []), o, pages).0;
    AloneAddsNothing(Start(t, []), o, pages, NONE);
    forall k | k in s1.table && s1.table[k].status == ACTIVE ensures !Selected(s1.table[k], true) {
      assert k in t && s1.trace[0..] == [] && s1.table[k] == After(t[k], k, []);
      if Selected(t[k], true) { UnreportedRowsAreSwept(t, [], o, pages, k); }
    }
    NothingSelectedNothingDone(Start(s1.table, []), Options(true, true, later), again, NONE);
  }

  lemma {:induction false} AloneAddsNothing(s: State, o: Options, pages: seq<seq<Key>>, c: Counts)
    requires s.turns == []
    ensures RunFrom(s, o, pages, c).0.table.Keys == s.table.Keys
    decreases |pages|
  {
    if pages != [] {
      var items := Rows(s.table, pages[0]);
      AloneHandlesOnly(Fetch(s), o, items, c);
      var (t, c1) := HandleAll(Fetch(s), o, items, c);
      if c1.Ok? { AloneAddsNothing(t, o, pages[1..], c1.value); }
    }
  }

  lemma {:induction false} AloneHandlesOnly(s: State, o: Options, items: seq<(Key, Row)>, c: Counts)
    requires s.turns == []
    ensures var (t, _) := HandleAll(s, o, items, c); t.turns == [] && t.table.Keys == s.table.Keys
    decreases |items|
  {
    if items != [] {
      var (t, c1) := Handle(s, o, items[0], c);
      if c1.Ok? { AloneHandlesOnly(t, o, items[1..], c1.value); }
    }
  }

  lemma {:induction false} NothingSelectedNothingDone(s: State, o: Options, pages: seq<seq<Key>>, c: Counts)
    requires s.turns == [] && forall k :: k in s.table && s.table[k].status == ACTIVE ==> !Selected(s.table[k], o.includeResidue)
    ensures var (t, r) := RunFrom(s, o, pages, c);
            t.table == s.table && r.Ok? && r.value.cleared == c.cleared && r.value.skipped == c.skipped
    decreases |pages|
  {
    if pages != [] {
      var t := Fetch(s);
      NothingHandled(t, o, Rows(t.table, pages[0]), c);
      NothingSelectedNothingDone(t, o, pages[1..], HandleAll(t, o, Rows(t.table, pages[0]), c).1.value);
    }
  }

  lemma {:induction false} NothingHandled(s: State, o: Options, items: seq<(Key, Row)>, c: Counts)
    requires forall i :: 0 <= i < |items| ==> !Selected(items[i].1, o.includeResidue)
    ensures var (t, r) := HandleAll(s, o, items, c);
            t == s && r.Ok? && r.value.cleared == c.cleared && r.value.skipped == c.skipped
    decreases |items|
  {
    if items != [] { NothingHandled(s, o, items[1..], Counted(c, items[0].1)); }
  }

  // ---------------------------------------------------------------------------
  // The run left alone, in the rows' own terms
  // ---------------------------------------------------------------------------

  /** Raised by the wrong thresholds: the recorded reading is not above the right one. */
  predicate FalseAlarm(row: Row) {
    && row.clearedDate == "" && row.reading.Some?
    && ((row.code == "P0217" && row.trigger == "maintenance.coolant_critical_overheat" && row.reading.value <= 257.0)
        || (row.code == "B0001_FIRE" && row.trigger == "maintenance.thermal_runaway" && row.reading.value <= 280.0))
  }

  /** An overheat row no reading was recorded with. */
  predicate SeedResidue(row: Row) {
    && row.clearedDate == "" && row.reading.None? && row.code == "P0217"
    && (row.trigger == "" || row.trigger == "maintenance.coolant_critical_overheat")
  }

  predicate ToClear(o: Options, row: Row) {
    o.apply && row.status == "ACTIVE" && (FalseAlarm(row) || (o.includeResidue && SeedResidue(row)))
  }

  function Cleared(o: Options, row: Row): Row {
    row.(status := "CLEARED", clearedDate := o.now, clearedBy := "clear_false_coolant_dtcs.py",
         clearedReason := if FalseAlarm(row) then "coolant-unit-fix" else "coolant-unit-fix-seed-residue", activeCode := None)
  }

  lemma KindExactly(row: Row)
    requires row.status == ACTIVE
    ensures Classify(row) == Some(False) <==> FalseAlarm(row)
    ensures Classify(row) == Some(Residue) <==> SeedResidue(row)
    ensures FalseAlarm(row) || SeedResidue(row) ==> Candidate(row)
  {
    assert Upper(ACTIVE) == ACTIVE;
    assert OVERHEAT != FIRE by { assert OVERHEAT[0] != FIRE[0]; }
  }

  /** A row counts as active whatever the case of its status. */
  lemma {:induction false} StatusCaseIsIgnored(row: Row, status: string)
    requires |row.status| == |status|
    requires forall i :: 0 <= i < |status| ==>
               row.status[i] == status[i] || ('a' <= status[i] <= 'z' && row.status[i] as int == status[i] as int - 32)
    ensures Classify(row.(status := status)) == Classify(row)
  {
    assert Upper(row.status) == Upper(status);
  }

  lemma ClearedIsLeftAlone(row: Row)
    requires row.status == CLEARED || row.clearedDate != ""
    ensures Classify(row).None?
  {
    assert |Upper(CLEARED)| == 7 && |ACTIVE| == 6;
  }

  /** A page shows the active rows of the two codes in its stretch, as they are in the table. */
  lemma {:induction false} RowsExactly(t: Table, page: seq<Key>, item: (Key, Row))
    ensures item in Rows(t, page) <==>
              item.0 in page && item.0 in t && item.1 == t[item.0] && item.1.status == "ACTIVE" && item.1.code in {"P0217", "B0001_FIRE"}
    decreases |page|
  {
    if page != [] { RowsExactly(t, page[1..], item); }
  }

  /** The calls made on the way are those of the turns used up; `ok` when none of them was refused. */
  ghost predicate Answered(before: seq<Turn>, after: seq<Turn>, ok: bool) {
    && |after| <= |before| && after == before[|before| - |after|..]
    && (ok <==> forall i :: 0 <= i < |before| - |after| ==> !before[i].fails)
  }

  lemma AnsweredCompose(a: seq<Turn>, b: seq<Turn>, c: seq<Turn>, ok: bool)
    requires Answered(a, b, true) && Answered(b, c, ok)
    ensures Answered(a, c, ok)
  {
    var n := |a| - |b|;
    assert forall i :: 0 <= i < |b| ==> b[i] == a[n + i];
    if i :| 0 <= i < |b| - |c| && b[i].fails { assert a[n + i].fails; }
    if i :| 0 <= i < |a| - |c| && a[i].fails { assert b[i - n].fails; }
  }

  lemma {:induction false} ItemsAnswered(s: State, o: Options, items: seq<(Key, Row)>, c: Counts)
    ensures var (t, r) := HandleAll(s, o, items, c); Answered(s.turns, t.turns, r.Ok?)
    decreases |items|
  {
    if items != [] {
      var (t, c1) := Handle(s, o, items[0], c);
      assert Answered(s.turns, t.turns, c1.Ok?);
      if c1.Ok? {
        ItemsAnswered(t, o, items[1..], c1.value);
        var (u, r) := HandleAll(t, o, items[1..], c1.value);
        AnsweredCompose(s.turns, t.turns, u.turns, r.Ok?);
      }
    }
  }

  lemma FetchAnswered(s: State)
    requires !Fails(s)
    ensures Answered(s.turns, Fetch(s).turns, true)
  {}

  lemma PageAnswered(s: State, o: Options, items: seq<(Key, Row)>, c: Counts)
    requires !Fails(s)
    ensures Answered(s.turns, HandleAll(Fetch(s), o, items, c).0.turns, HandleAll(Fetch(s), o, items, c).1.Ok?)
  {
    FetchAnswered(s);
    var f := Fetch(s);
    ItemsAnswered(f, o, items, c);
    AnsweredCompose(s.turns, f.turns, HandleAll(f, o, items, c).0.turns, HandleAll(f, o, items, c).1.Ok?);
  }

  /** A run finishes exactly when no call it makes is refused. */
  lemma {:induction false} FinishesExactly(s: State, o: Options, pages: seq<seq<Key>>, c: Counts)
    ensures var (t, r) := RunFrom(s, o, pages, c); Answered(s.turns, t.turns, r.Ok?)
    decreases |pages|
  {
    if pages == [] {
    } else if Fails(s) {
      assert s.turns[0].fails;
    } else {
      PageAnswered(s, o, Rows(Fetch(s).table, pages[0]), c);
      var (t, c1) := HandleAll(Fetch(s), o, Rows(Fetch(s).table, pages[0]), c);
      if c1.Ok? {
        FinishesExactly(t, o, pages[1..], c1.value);
        var (u, r) := RunFrom(t, o, pages[1..], c1.value);
        AnsweredCompose(s.turns, t.turns, u.turns, r.Ok?);
        assert RunFrom(s, o, pages, c) == (u, r);
      } else {
        assert RunFrom(s, o, pages, c) == (t, Raise);
      }
    }
  }

  ghost predicate ClearedAmong(t: Table, u: Table, o: Options, ks: set<Key>) {
    u.Keys == t.Keys && forall k :: k in t ==> u[k] == if k in ks && ToClear(o, t[k]) then Cleared(o, t[k]) else t[k]
  }

  lemma PicksExactly(o: Options, row: Row)
    requires Candidate(row)
    ensures Picks(o, row) <==> ToClear(o, row)
    ensures Picks(o, row) ==> Clear(row, o.now, SCRIPT, Reason(Classify(row).value)) == Cleared(o, row)
    ensures Cleared(o, row).status != ACTIVE
  {
    KindExactly(row);
    assert CLEARED[0] != ACTIVE[0];
  }

  lemma OneCleared(s: State, o: Options, k: Key, c: Counts, t: Table, ks: set<Key>)
    requires s.turns == [] && ClearedAmong(t, s.table, o, ks) && k in t && Candidate(t[k])
    ensures var (u, r) := Handle(s, o, (k, t[k]), c); u.turns == [] && r.Ok? && ClearedAmong(t, u.table, o, ks + {k})
  {
    HandleAlone(s, o, k, t[k], c);
    ActiveOrCleared(t, s.table, o, ks, k);
  }

  lemma HandleAlone(s: State, o: Options, k: Key, row: Row, c: Counts)
    requires s.turns == [] && Candidate(row)
    ensures var (u, r) := Handle(s, o, (k, row), c);
            && u.turns == [] && r.Ok?
            && u.table == if Picks(o, row) && k in s.table && s.table[k].status == ACTIVE
                          then s.table[k := Clear(s.table[k], o.now, SCRIPT, Reason(Classify(row).value))] else s.table
  {}

  lemma ActiveOrCleared(t: Table, u: Table, o: Options, ks: set<Key>, k: Key)
    requires ClearedAmong(t, u, o, ks) && k in t && Candidate(t[k])
    ensures k in u && (u[k].status == ACTIVE <==> !(k in ks && ToClear(o, t[k]))) && (u[k].status == ACTIVE ==> u[k] == t[k])
    ensures Picks(o, t[k]) <==> ToClear(o, t[k])
    ensures Picks(o, t[k]) ==> Clear(t[k], o.now, SCRIPT, Reason(Classify(t[k]).value)) == Cleared(o, t[k])
  {
    PicksExactly(o, t[k]);
  }

  function KeysOf(items: seq<(Key, Row)>): set<Key> { if items == [] then {} else {items[0].0} + KeysOf(items[1..]) }

  lemma {:induction false} HasKey(items: seq<(Key, Row)>, i: nat)
    requires i < |items|
    ensures items[i].0 in KeysOf(items)
  {
    if i > 0 { HasKey(items[1..], i - 1); }
  }

  lemma {:induction false} KeysFrom(items: seq<(Key, Row)>, page: seq<Key>)
    requires forall i :: 0 <= i < |items| ==> items[i].0 in page
    ensures forall k :: k in KeysOf(items) ==> k in page
  {
    if items != [] {
      assert forall i :: 0 <= i < |items[1..]| ==> items[1..][i] == items[i + 1];
      KeysFrom(items[1..], page);
    }
  }

  lemma {:induction false} ItemsCleared(s: State, o: Options, items: seq<(Key, Row)>, c: Counts, t: Table, ks: set<Key>)
    requires s.turns == [] && ClearedAmong(t, s.table, o, ks)
    requires forall i :: 0 <= i < |items| ==> items[i].0 in t && items[i].1 == t[items[i].0] && Candidate(items[i].1)
    ensures var (u, r) := HandleAll(s, o, items, c); u.turns == [] && r.Ok? && ClearedAmong(t, u.table, o, ks + KeysOf(items))
    decreases |items|
  {
    if items != [] {
      assert items[0] == (items[0].0, t[items[0].0]);
      OneCleared(s, o, items[0].0, c, t, ks);
      var (u, r) := Handle(s, o, items[0], c);
      assert forall i :: 0 <= i < |items[1..]| ==> items[1..][i] == items[i + 1];
      ItemsCleared(u, o, items[1..], r.value, t, ks + {items[0].0});
      assert ks + {items[0].0} + KeysOf(items[1..]) == ks + KeysOf(items);
    }
  }

  lemma PageCleared(s: State, o: Options, page: seq<Key>, c: Counts, t: Table, ks: set<Key>)
    requires s.turns == [] && ClearedAmong(t, s.table, o, ks)
    ensures var (u, r) := HandleAll(Fetch(s), o, Rows(s.table, page), c);
            u.turns == [] && r.Ok? && ClearedAmong(t, u.table, o, ks + set k | k in page)
  {
    var items := Rows(s.table, page);
    ActiveIsAsBefore(t, s.table, o, ks, items);
    ItemsCleared(Fetch(s), o, items, c, t, ks);
    KeysFrom(items, page);
    forall k | k in t && k in page && ToClear(o, t[k]) && k !in ks ensures k in KeysOf(items) { PageHasKey(s.table, o, page, t, ks, k); }
  }

  lemma PageHasKey(u: Table, o: Options, page: seq<Key>, t: Table, ks: set<Key>, k: Key)
    requires ClearedAmong(t, u, o, ks) && k in t && k in page && ToClear(o, t[k]) && k !in ks
    ensures k in KeysOf(Rows(u, page))
  {
    KindExactly(t[k]);
    RowsHasAll(u, page, k);
    var items := Rows(u, page);
    var i :| 0 <= i < |items| && items[i] == (k, t[k]);
    HasKey(items, i);
  }

  lemma ActiveIsAsBefore(t: Table, u: Table, o: Options, ks: set<Key>, items: seq<(Key, Row)>)
    requires ClearedAmong(t, u, o, ks)
    requires forall i :: 0 <= i < |items| ==> items[i].0 in u && items[i].1 == u[items[i].0] && Candidate(items[i].1)
    ensures forall i :: 0 <= i < |items| ==> items[i].0 in t && items[i].1 == t[items[i].0]
  {
    assert CLEARED[0] != ACTIVE[0];
  }

  lemma {:induction false} PagesCleared(s: State, o: Options, pages: seq<seq<Key>>, c: Counts, t: Table, ks: set<Key>)
    requires s.turns == [] && ClearedAmong(t, s.table, o, ks)
    ensures var (u, r) := RunFrom(s, o, pages, c);
            r.Ok? && ClearedAmong(t, u.table, o, ks + set i, k | 0 <= i < |pages| && k in pages[i] :: k)
    decreases |pages|
  {
    var all := set i, k | 0 <= i < |pages| && k in pages[i] :: k;
    if pages == [] {
      assert ks + all == ks;
    } else {
      PageCleared(s, o, pages[0], c, t, ks);
      var (u, r) := HandleAll(Fetch(s), o, Rows(s.table, pages[0]), c);
      var first := set k | k in pages[0];
      PagesCleared(u, o, pages[1..], r.value, t, ks + first);
      var rest := set i, k | 0 <= i < |pages[1..]| && k in pages[1..][i] :: k;
      forall i, k | 0 < i < |pages| && k in pages[i] ensures k in rest { assert pages[1..][i - 1] == pages[i]; }
      forall i, k | 0 <= i < |pages[1..]| && k in pages[1..][i] ensures k in all { assert pages[1..][i] == pages[i + 1]; }
      assert ks + first + rest == ks + all;
    }
  }

  /** Left alone, over any pages that cover the table: under --apply exactly the false alarms, and
      with --include-residue the overheat rows without a reading, are cleared with the script's
      name, the time and the reason of their kind; every other row, and in a dry run every row, is
      as it was. */
  lemma CalmRunExactly(t: Table, o: Options, pages: seq<seq<Key>>)
    requires CoversAll(t, pages)
    ensures var (s, r) := Run(Start(t, []), o, pages);
            && r.Ok? && s.table.Keys == t.Keys
            && forall k :: k in t ==> s.table[k] == if ToClear(o, t[k]) then Cleared(o, t[k]) else t[k]
  {
    PagesCleared(Start(t, []), o, pages, NONE, t, {});
  }

  // ---------------------------------------------------------------------------
  // Counts
  // ---------------------------------------------------------------------------

  /** Of the rows yielded: false alarms, residue, the rest, and those picked. */
  datatype Kinds = Kinds(falses: nat, residues: nat, kept: nat, picked: nat)

  function Plus(a: Kinds, b: Kinds): Kinds {
    Kinds(a.falses + b.falses, a.residues + b.residues, a.kept + b.kept, a.picked + b.picked)
  }

  function KindsOf(items: seq<(Key, Row)>, o: Options): Kinds {
    if items == [] then Kinds(0, 0, 0, 0) else Plus(KindOf(items[0].1, o), KindsOf(items[1..], o))
  }

  function KindOf(row: Row, o: Options): Kinds {
    Kinds(if FalseAlarm(row) then 1 else 0, if SeedResidue(row) then 1 else 0,
          if FalseAlarm(row) || SeedResidue(row) then 0 else 1, if ToClear(o, row) then 1 else 0)
  }

  lemma OneAddsUp(s: State, o: Options, item: (Key, Row), c: Counts)
    requires Candidate(item.1) && Handle(s, o, item, c).1.Ok?
    ensures var (n, r) := (KindOf(item.1, o), Handle(s, o, item, c).1.value);
            && r.falses == c.falses + n.falses && r.residues == c.residues + n.residues && r.kept == c.kept + n.kept
            && r.cleared + r.skipped == c.cleared + c.skipped + n.picked
  {
    PicksExactly(o, item.1);
    CountedByKind(o, item.1, c);
    HandledOnce(s, o, item, c);
  }

  lemma CountedByKind(o: Options, row: Row, c: Counts)
    requires Candidate(row)
    ensures var (n, c1) := (KindOf(row, o), Counted(c, row));
            c1 == Counts(c.falses + n.falses, c.residues + n.residues, c.kept + n.kept, c.cleared, c.skipped)
  {
    KindExactly(row);
  }

  lemma HandledOnce(s: State, o: Options, item: (Key, Row), c: Counts)
    requires Handle(s, o, item, c).1.Ok?
    ensures var (c1, r) := (Counted(c, item.1), Handle(s, o, item, c).1.value);
            && r.falses == c1.falses && r.residues == c1.residues && r.kept == c1.kept
            && r.cleared + r.skipped == c1.cleared + c1.skipped + if Picks(o, item.1) then 1 else 0
  {}

  function Yielded(s: State, o: Options, pages: seq<seq<Key>>, c: Counts): Kinds
    decreases |pages|
  {
    if pages == [] || Fails(s) then Kinds(0, 0, 0, 0)
    else
      var t := Fetch(s);
      var items := Rows(t.table, pages[0]);
      var (t1, c1) := HandleAll(t, o, items, c);
      if c1.Raise? then Kinds(0, 0, 0, 0) else Plus(KindsOf(items, o), Yielded(t1, o, pages[1..], c1.value))
  }

  /** A finished run's counts are those of the rows its pages yielded, and every row picked was
      either cleared or found active no more. */
  lemma {:induction false} CountsAddUp(s: State, o: Options, pages: seq<seq<Key>>, c: Counts)
    requires RunFrom(s, o, pages, c).1.Ok?
    ensures var (n, r) := (Yielded(s, o, pages, c), RunFrom(s, o, pages, c).1.value);
            && r.falses == c.falses + n.falses && r.residues == c.residues + n.residues && r.kept == c.kept + n.kept
            && r.cleared + r.skipped == c.cleared + c.skipped + n.picked
    decreases |pages|
  {
    if pages != [] {
      var t := Fetch(s);
      var items := Rows(t.table, pages[0]);
      PageAddsUp(t, o, items, c);
      var (t1, c1) := HandleAll(t, o, items, c);
      CountsAddUp(t1, o, pages[1..], c1.value);
    }
  }

  lemma {:induction false} PageAddsUp(s: State, o: Options, items: seq<(Key, Row)>, c: Counts)
    requires HandleAll(s, o, items, c).1.Ok? && forall i :: 0 <= i < |items| ==> Candidate(items[i].1)
    ensures var (n, r) := (KindsOf(items, o), HandleAll(s, o, items, c).1.value);
            && r.falses == c.falses + n.falses && r.residues == c.residues + n.residues && r.kept == c.kept + n.kept
            && r.cleared + r.skipped == c.cleared + c.skipped + n.picked
    decreases |items|
  {
    if items != [] {
      OneAddsUp(s, o, items[0], c);
      var (t, c1) := Handle(s, o, items[0], c);
      PageAddsUp(t, o, items[1..], c1.value);
    }
  }

  // ---------------------------------------------------------------------------
  // The run as it works on the table
  // ---------------------------------------------------------------------------

  class HistoryTable {
    var table: Table
    var turns: seq<Turn>
    var trace: seq<Deed>
    var fetches: seq<nat>
    var log: seq<Event>

    constructor (table: Table, turns: seq<Turn>)
      ensures Abs() == Start(table, turns)
    {
      this.table, this.turns, trace, fetches, log := table, turns, [], [], [];
    }

    function Abs(): State reads this { State(table, turns, trace, fetches, log) }

    method Meet() returns (fails: bool)
      modifies this
      ensures fails == Fails(old(Abs())) && Abs() == Arrive(old(Abs()))
    {
      fails := false;
      if turns != [] {
        table, fails, trace := DoAll(table, turns[0].deeds), turns[0].fails, trace + turns[0].deeds;
        turns := turns[1..];
      }
    }

    /** Beside what others did, only this row may change, and only from active to cleared with
        nothing else lost but its active code: true says that it did, false that the row was
        active no more or never there. */
    method ClearRow(k: Key, fetched: Row, now: string, reason: string) returns (r: Reply<bool>)
      modifies this
      ensures (Abs(), r) == Write(old(Abs()), k, fetched, now, reason)
      ensures var others := Arrive(old(Abs())).table;
              && table.Keys == others.Keys && (forall other :: other in table && other != k ==> table[other] == others[other])
              && (r == Ok(true) <==> k in table && table[k] != others[k])
              && (r == Ok(true) ==>
                    others[k].status == ACTIVE
                    && table[k] == others[k].(status := CLEARED, clearedDate := now, clearedBy := SCRIPT,
                                              clearedReason := reason, activeCode := None))
              && (r.Ok? && k in table ==> table[k].status != ACTIVE)
    {
      var fails := Meet();
      if fails { return Raise; }
      if k !in table || table[k].status != ACTIVE { return Ok(false); }
      log := log + [Event(k, fetched, table[k], Since(Abs()))];
      table := table[k := Clear(table[k], now, SCRIPT, reason)];
      return Ok(true);
    }

    method HandlePage(o: Options, items: seq<(Key, Row)>, counts: Counts) returns (r: Reply<Counts>)
      modifies this
      ensures (Abs(), r) == HandleAll(old(Abs()), o, items, counts)
    {
      var c := counts;
      ghost var start := Abs();
      for i := 0 to |items|
        invariant HandleAll(start, o, items, counts) == HandleAll(Abs(), o, items[i..], c)
      {
        var (k, row) := items[i];
        assert items[i..][0] == items[i] && items[i..][1..] == items[i + 1..];
        var kind := Classify(row);
        c := Counted(c, row);
        if Selected(row, o.includeResidue) && o.apply {
          var written := ClearRow(k, row, o.now, Reason(kind.value));
          if written.Raise? { return Raise; }
          if written.value { c := c.(cleared := c.cleared + 1); } else { c := c.(skipped := c.skipped + 1); }
        }
      }
      return Ok(c);
    }

    /** Each write is explained by what its page showed and what others reported since. */
    method ClearAll(o: Options, pages: seq<seq<Key>>) returns (r: Reply<Counts>)
      modifies this
      ensures (Abs(), r) == Run(old(Abs()), o, pages)
      ensures Explained(old(log), o.includeResidue) ==> Explained(log, o.includeResidue) && Later(old(Abs()), Abs())
    {
      var c := NONE;
      ghost var start := Abs();
      if Explained(log, o.includeResidue) { RunIsExplained(start, o, pages, NONE); }
      var i := 0;
      while i < |pages|
        invariant 0 <= i <= |pages| && Run(start, o, pages) == RunFrom(Abs(), o, pages[i..], c)
      {
        assert pages[i..][0] == pages[i] && pages[i..][1..] == pages[i + 1..];
        var fails := Meet();
        if fails { return Raise; }
        fetches := fetches + [|trace|];
        var page := HandlePage(o, Rows(table, pages[i]), c);
        if page.Raise? { return Raise; }
        c := page.value;
        i := i + 1;
      }
      return Ok(c);
    }
  }
}
