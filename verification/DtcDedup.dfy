/** Collapsing duplicate ACTIVE trouble-code rows to one row per vehicle, code and source, with
    every update and delete free to fail on its own. */
module DtcDedup {
  import opened Prelude

  const ACTIVE := "ACTIVE"

  /** The table's key: one vehicle's rows come back from a scan in timestamp order. */
  datatype Key = Key(vehicleId: string, timestamp: int)

  datatype Seen = Missing | Null | At(value: int)

  datatype Row = Row(code: Option<string>, source: Option<string>, status: Option<string>, firstSeenAt: Seen,
                     lastSeenAt: Option<int>, occurrenceCount: Option<nat>, activeCode: Option<Option<string>>)

  type Table = map<Key, Row>

  // ---------------------------------------------------------------------------
  // Grouping
  // ---------------------------------------------------------------------------

  datatype GroupId = GroupId(vehicleId: string, code: Option<string>, source: Option<string>)

  predicate Eligible(t: Table, filter: set<string>, k: Key) {
    k in t && t[k].source.Some? && t[k].source.value in filter && t[k].status == Some(ACTIVE)
  }

  function IdOf(t: Table, k: Key): GroupId
    requires k in t
  {
    GroupId(k.vehicleId, t[k].code, t[k].source)
  }

  predicate In(t: Table, filter: set<string>, k: Key, id: GroupId) { Eligible(t, filter, k) && IdOf(t, k) == id }

  ghost predicate Appears(t: Table, filter: set<string>, order: seq<Key>, id: GroupId) {
    exists i :: 0 <= i < |order| && In(t, filter, order[i], id)
  }

  /** Group ids in the order their first rows are scanned. */
  function Ids(t: Table, filter: set<string>, order: seq<Key>): (r: seq<GroupId>)
    ensures forall i, j :: 0 <= i < j < |r| ==> r[i] != r[j]
  {
    if order == [] then []
    else
      var k, init := order[|order| - 1], Ids(t, filter, order[..|order| - 1]);
      if Eligible(t, filter, k) && IdOf(t, k) !in init then init + [IdOf(t, k)] else init
  }

  lemma {:induction false} IdsAppear(t: Table, filter: set<string>, order: seq<Key>, id: GroupId)
    ensures id in Ids(t, filter, order) <==> Appears(t, filter, order, id)
  {
    if order != [] {
      var init, k := order[..|order| - 1], order[|order| - 1];
      IdsAppear(t, filter, init, id);
      assert forall i :: 0 <= i < |init| ==> init[i] == order[i];
      if Appears(t, filter, order, id) && !In(t, filter, k, id) {
        var i :| 0 <= i < |order| && In(t, filter, order[i], id);
        assert In(t, filter, init[i], id);
      }
      if In(t, filter, k, id) { assert Appears(t, filter, order, id); }
      if Appears(t, filter, init, id) {
        var i :| 0 <= i < |init| && In(t, filter, init[i], id);
        assert In(t, filter, order[i], id);
      }
    }
  }

  function Members(t: Table, filter: set<string>, order: seq<Key>, id: GroupId): (r: seq<Key>)
    ensures forall k :: k in r <==> k in order && In(t, filter, k, id)
  {
    if order == [] then []
    else
      var k, init := order[|order| - 1], Members(t, filter, order[..|order| - 1], id);
      assert order == order[..|order| - 1] + [k];
      if In(t, filter, k, id) then init + [k] else init
  }

  // ---------------------------------------------------------------------------
  // Winner and plan
  // ---------------------------------------------------------------------------

  /** A missing firstSeenAt reads as 0; only an explicit null falls back to the timestamp. */
  function SortKey(t: Table, k: Key): int
    requires k in t
  {
    match t[k].firstSeenAt
    case Missing => 0
    case Null => k.timestamp
    case At(v) => v
  }

  function Insert(t: Table, k: Key, s: seq<Key>): (r: seq<Key>)
    requires k in t && forall x :: x in s ==> x in t
    ensures multiset(r) == multiset(s) + multiset{k}
    ensures |r| == |s| + 1 && forall x :: x in r <==> x in s || x == k
  {
    if s == [] then [k]
    else if SortKey(t, k) <= SortKey(t, s[0]) then [k] + s
    else
      assert s == [s[0]] + s[1..];
      [s[0]] + Insert(t, k, s[1..])
  }

  /** Rows of equal key keep their scan order. */
  function StableSort(t: Table, s: seq<Key>): (r: seq<Key>)
    requires forall x :: x in s ==> x in t
    ensures multiset(r) == multiset(s) && |r| == |s| && forall x :: x in r <==> x in s
  {
    if s == [] then []
    else
      assert s == [s[0]] + s[1..];
      Insert(t, s[0], StableSort(t, s[1..]))
  }

  function Latest(s: seq<Key>): (m: int)
    requires s != []
    ensures (exists k :: k in s && k.timestamp == m) && forall k :: k in s ==> k.timestamp <= m
  {
    if |s| == 1 then s[0].timestamp
    else
      var rest := Latest(s[1..]);
      if s[0].timestamp > rest then s[0].timestamp else rest
  }

  datatype Item = Item(winner: Key, losers: seq<Key>, lastSeen: int, count: nat, code: Option<string>)

  function Collapse(t: Table, members: seq<Key>, code: Option<string>): Item
    requires members != [] && forall x :: x in members ==> x in t
  {
    var sorted := StableSort(t, members);
    Item(sorted[0], sorted[1..], Latest(members), |members|, code)
  }

  function Plan(t: Table, filter: set<string>, order: seq<Key>, ids: seq<GroupId>): seq<Item> {
    if ids == [] then []
    else
      var members := Members(t, filter, order, ids[0]);
      (if |members| > 1 then [Collapse(t, members, ids[0].code)] else []) + Plan(t, filter, order, ids[1..])
  }

  function Duplicates(t: Table, filter: set<string>, order: seq<Key>, ids: seq<GroupId>): nat {
    if ids == [] then 0
    else
      var n := |Members(t, filter, order, ids[0])|;
      (if n > 1 then n else 0) + Duplicates(t, filter, order, ids[1..])
  }

  // ---------------------------------------------------------------------------
  // Applying
  // ---------------------------------------------------------------------------

  datatype Fault = Fine | ClientError | Crash

  datatype State = State(table: Table, faults: seq<Fault>)

  datatype Tally = Tally(updated: nat, deleted: nat, errors: nat)

  datatype Stats = Stats(groups: nat, duplicates: nat, tally: Tally)

  function FaultOf(s: State): Fault { if s.faults == [] then Fine else s.faults[0] }

  function Arrive(s: State): State { if s.faults == [] then s else s.(faults := s.faults[1..]) }

  const BLANK := Row(None, None, None, Missing, None, None, None)

  function Mark(row: Row, item: Item): Row {
    row.(lastSeenAt := Some(item.lastSeen), occurrenceCount := Some(item.count), activeCode := Some(item.code))
  }

  /** An update of an absent key would create the row. */
  function Update(s: State, item: Item): (State, Fault) {
    var t := Arrive(s);
    (if FaultOf(s) != Fine then t
     else t.(table := t.table[item.winner := Mark(if item.winner in t.table then t.table[item.winner] else BLANK, item)]),
     FaultOf(s))
  }

  function Delete(s: State, k: Key): (State, Fault) {
    var t := Arrive(s);
    (if FaultOf(s) != Fine then t else t.(table := t.table - {k}), FaultOf(s))
  }

  function DeleteAll(s: State, losers: seq<Key>): (State, Reply<Tally>)
    decreases |losers|
  {
    if losers == [] then (s, Ok(Tally(0, 0, 0)))
    else
      var (s1, fault) := Delete(s, losers[0]);
      if fault == Crash then (s1, Raise)
      else
        var (s2, rest) := DeleteAll(s1, losers[1..]);
        (s2, if rest.Raise? then Raise else Ok(Counted(rest.value, Tally(0, 1, 0), fault)))
  }

  function Counted(rest: Tally, done: Tally, fault: Fault): Tally {
    if fault == Fine then Tally(done.updated + rest.updated, done.deleted + rest.deleted, rest.errors)
    else rest.(errors := rest.errors + 1)
  }

  function ApplyItem(s: State, item: Item): (State, Reply<Tally>) {
    var (s1, fault) := Update(s, item);
    match fault
    case Crash => (s1, Raise)
    case ClientError => (s1, Ok(Tally(0, 0, 1)))
    case Fine =>
      var (s2, rest) := DeleteAll(s1, item.losers);
      (s2, if rest.Raise? then Raise else Ok(Counted(rest.value, Tally(1, 0, 0), Fine)))
  }

  function ApplyAll(s: State, plan: seq<Item>): (State, Reply<Tally>)
    decreases |plan|
  {
    if plan == [] then (s, Ok(Tally(0, 0, 0)))
    else
      var (s1, first) := ApplyItem(s, plan[0]);
      if first.Raise? then (s1, Raise)
      else
        var (s2, rest) := ApplyAll(s1, plan[1..]);
        (s2, if rest.Raise? then Raise
             else Ok(Tally(first.value.updated + rest.value.updated, first.value.deleted + rest.value.deleted,
                           first.value.errors + rest.value.errors)))
  }

  /** `order` is what the scan listed; the scan itself is one read. */
  function Run(s: State, filter: set<string>, order: seq<Key>, apply: bool): (State, Reply<Stats>) {
    var ids := Ids(s.table, filter, order);
    var plan, dups := Plan(s.table, filter, order, ids), Duplicates(s.table, filter, order, ids);
    if !apply then (s, Ok(Stats(|ids|, dups, Tally(0, 0, 0))))
    else
      var (s1, tally) := ApplyAll(s, plan);
      (s1, if tally.Raise? then Raise else Ok(Stats(|ids|, dups, tally.value)))
  }

  // ---------------------------------------------------------------------------
  // What a plan does to the table, whatever fails
  // ---------------------------------------------------------------------------

  predicate Covers(item: Item, k: Key) { k == item.winner || k in item.losers }

  ghost predicate Separate(plan: seq<Item>) {
    forall i, j, k :: 0 <= i < j < |plan| && Covers(plan[i], k) ==> !Covers(plan[j], k)
  }

  ghost predicate Proper(item: Item, t: Table) {
    && (forall k :: Covers(item, k) ==> k in t)
    && item.winner !in item.losers
    && (forall i, j :: 0 <= i < j < |item.losers| ==> item.losers[i] != item.losers[j])
  }

  /** The winner stays, at most marked; a loser stays as it was, or is gone and the winner marked. */
  ghost predicate Settled(item: Item, t: Table, t1: Table) {
    && item.winner in t && item.winner in t1
    && (t1[item.winner] == t[item.winner] || t1[item.winner] == Mark(t[item.winner], item))
    && (forall k :: k in item.losers ==>
          k in t && (k in t1 ==> t1[k] == t[k]) && (k !in t1 ==> t1[item.winner] == Mark(t[item.winner], item)))
  }

  ghost predicate Finished(item: Item, t: Table, t1: Table) {
    && item.winner in t && item.winner in t1 && t1[item.winner] == Mark(t[item.winner], item)
    && (forall k :: k in item.losers ==> k !in t1)
  }

  lemma {:induction false} DeleteAllOnlyDeletes(s: State, losers: seq<Key>)
    requires forall i, j :: 0 <= i < j < |losers| ==> losers[i] != losers[j]
    requires forall k :: k in losers ==> k in s.table
    ensures var (t, r) := DeleteAll(s, losers);
            && t.table.Keys <= s.table.Keys
            && (forall k :: k in t.table ==> t.table[k] == s.table[k])
            && (forall k :: k in s.table && k !in losers ==> k in t.table)
            && (r.Ok? ==> r.value.updated == 0 && |t.table| + r.value.deleted == |s.table|)
            && (r.Ok? && r.value.errors == 0 ==> r.value.deleted == |losers| && forall k :: k in losers ==> k !in t.table)
            && (Crash !in s.faults ==> r.Ok? && Crash !in t.faults) && (s.faults == [] ==> t.faults == [] && r.Ok? && r.value.errors == 0)
    decreases |losers|
  {
    if losers != [] {
      var (s1, fault) := Delete(s, losers[0]);
      assert losers == [losers[0]] + losers[1..];
      assert forall i :: 0 <= i < |losers[1..]| ==> losers[1..][i] == losers[i + 1];
      if fault == Fine {
        assert s1.table.Keys == s.table.Keys - {losers[0]};
        assert |s1.table.Keys| == |s1.table| && |s.table.Keys| == |s.table|;
      }
      if fault != Crash { DeleteAllOnlyDeletes(s1, losers[1..]); }
    }
  }

  lemma ApplyItemSettles(s: State, item: Item)
    requires Proper(item, s.table)
    ensures var (t, r) := ApplyItem(s, item);
            && Settled(item, s.table, t.table) && t.table.Keys <= s.table.Keys
            && (forall k :: k in s.table && !Covers(item, k) ==> k in t.table && t.table[k] == s.table[k])
            && (r.Ok? ==> |t.table| + r.value.deleted == |s.table|)
            && (r.Ok? && r.value.errors == 0 ==>
                  Finished(item, s.table, t.table) && r.value.updated == 1 && r.value.deleted == |item.losers|)
            && (Crash !in s.faults ==> r.Ok? && Crash !in t.faults) && (s.faults == [] ==> t.faults == [] && r.Ok? && r.value.errors == 0)
  {
    var (s1, fault) := Update(s, item);
    if fault == Fine {
      assert s1.table.Keys == s.table.Keys;
      assert |s1.table.Keys| == |s1.table| && |s.table.Keys| == |s.table|;
      DeleteAllOnlyDeletes(s1, item.losers);
    }
  }

  function Gone(plan: seq<Item>): nat { if plan == [] then 0 else |plan[0].losers| + Gone(plan[1..]) }

  ghost predicate AllProper(plan: seq<Item>, t: Table) {
    Separate(plan) && forall i :: 0 <= i < |plan| ==> Proper(plan[i], t)
  }

  /** What every partial or complete application of a plan leaves. */
  ghost predicate AllSettled(plan: seq<Item>, t: Table, t1: Table) {
    && t1.Keys <= t.Keys
    && (forall i :: 0 <= i < |plan| ==> Settled(plan[i], t, t1))
    && (forall k :: k in t && (forall i :: 0 <= i < |plan| ==> !Covers(plan[i], k)) ==> k in t1 && t1[k] == t[k])
  }

  ghost predicate AllFinished(plan: seq<Item>, t: Table, t1: Table) {
    forall i :: 0 <= i < |plan| ==> Finished(plan[i], t, t1)
  }

  lemma {:induction false} ApplyAllSettles(s: State, plan: seq<Item>)
    requires AllProper(plan, s.table)
    ensures var (t, r) := ApplyAll(s, plan);
            && AllSettled(plan, s.table, t.table)
            && (r.Ok? ==> |t.table| + r.value.deleted == |s.table|)
            && (r.Ok? && r.value.errors == 0 ==>
                  AllFinished(plan, s.table, t.table) && r.value.updated == |plan| && r.value.deleted == Gone(plan))
            && (Crash !in s.faults ==> r.Ok?) && (s.faults == [] ==> t.faults == [] && r.Ok? && r.value.errors == 0)
    decreases |plan|
  {
    if plan != [] {
      var rest := plan[1..];
      assert forall i :: 0 <= i < |rest| ==> rest[i] == plan[i + 1];
      ApplyItemSettles(s, plan[0]);
      var (s1, first) := ApplyItem(s, plan[0]);
      if first.Raise? {
        Stopped(plan, s.table, s1.table);
      } else {
        RestProper(plan, s.table, s1.table);
        ApplyAllSettles(s1, rest);
        Joined(plan, s.table, s1.table, ApplyAll(s1, rest).0.table);
      }
    }
  }

  /** The effect of the first item alone. */
  ghost predicate FirstSettled(plan: seq<Item>, t: Table, t1: Table)
    requires plan != []
  {
    && Settled(plan[0], t, t1) && t1.Keys <= t.Keys
    && (forall k :: k in t && !Covers(plan[0], k) ==> k in t1 && t1[k] == t[k])
  }

  lemma RestProper(plan: seq<Item>, t: Table, t1: Table)
    requires plan != [] && AllProper(plan, t) && FirstSettled(plan, t, t1)
    ensures AllProper(plan[1..], t1)
  {
    forall i | 0 <= i < |plan[1..]| ensures Proper(plan[1..][i], t1) {
      assert plan[1..][i] == plan[i + 1] && Proper(plan[i + 1], t);
      forall k | Covers(plan[i + 1], k) ensures k in t1 {
        assert !Covers(plan[0], k);
      }
    }
  }

  lemma Stopped(plan: seq<Item>, t: Table, t1: Table)
    requires plan != [] && AllProper(plan, t) && FirstSettled(plan, t, t1)
    ensures AllSettled(plan, t, t1)
  {
    forall i | 0 <= i < |plan| ensures Settled(plan[i], t, t1) {
      if i > 0 {
        assert Proper(plan[i], t);
        assert Covers(plan[i], plan[i].winner);
        forall k | Covers(plan[i], k) ensures k in t && k in t1 && t1[k] == t[k] { assert !Covers(plan[0], k); }
      }
    }
  }

  lemma Joined(plan: seq<Item>, t: Table, t1: Table, t2: Table)
    requires plan != [] && AllProper(plan, t) && FirstSettled(plan, t, t1) && AllSettled(plan[1..], t1, t2)
    ensures AllSettled(plan, t, t2)
    ensures Finished(plan[0], t, t1) && AllFinished(plan[1..], t1, t2) ==> AllFinished(plan, t, t2)
  {
    var rest := plan[1..];
    assert forall i :: 0 <= i < |rest| ==> rest[i] == plan[i + 1];
    forall k | Covers(plan[0], k) ensures forall i :: 0 <= i < |rest| ==> !Covers(rest[i], k) {}
    forall i | 0 <= i < |plan| ensures Settled(plan[i], t, t2) && (i > 0 && Finished(plan[i], t1, t2) ==> Finished(plan[i], t, t2)) {
      assert Covers(plan[i], plan[i].winner);
      if i == 0 {
        forall k | Covers(plan[0], k) ensures k in t1 ==> k in t2 && t2[k] == t1[k] {}
      } else {
        assert Settled(rest[i - 1], t1, t2) && Proper(plan[i], t);
        forall k | Covers(plan[i], k) ensures k in t && k in t1 && t1[k] == t[k] { assert !Covers(plan[0], k); }
      }
    }
    if AllFinished(rest, t1, t2) {
      forall i | 0 < i < |plan| ensures Finished(plan[i], t1, t2) { assert plan[i] == rest[i - 1]; }
    }
  }
}
