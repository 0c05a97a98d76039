/** What collapsing means for the groups of the table: who wins, what is left, what a re-run does. */
module DtcCollapse {
  import opened Prelude
  import opened DtcDedup

  /** A scan lists each row once, one vehicle's rows in timestamp order. */
  ghost predicate ScanOf(t: Table, order: seq<Key>) {
    && (forall k :: k in order <==> k in t)
    && (forall i, j :: 0 <= i < j < |order| && order[i].vehicleId == order[j].vehicleId ==> order[i].timestamp < order[j].timestamp)
  }

  predicate Together(t: Table, filter: set<string>, a: Key, b: Key) {
    Eligible(t, filter, a) && Eligible(t, filter, b) && IdOf(t, a) == IdOf(t, b)
  }

  function GroupOf(t: Table, filter: set<string>, k: Key): set<Key> { set x | x in t && Together(t, filter, k, x) }

  predicate Ahead(t: Table, a: Key, b: Key)
    requires a in t && b in t
  {
    SortKey(t, a) < SortKey(t, b) || (SortKey(t, a) == SortKey(t, b) && a.timestamp < b.timestamp)
  }

  /** The row a group keeps: earliest by sort key, then by timestamp. */
  ghost predicate Winner(t: Table, filter: set<string>, k: Key) {
    Eligible(t, filter, k) && forall x :: x in GroupOf(t, filter, k) && x != k ==> Ahead(t, k, x)
  }

  ghost predicate Stays(t: Table, filter: set<string>, k: Key) { !Eligible(t, filter, k) || Winner(t, filter, k) }

  ghost predicate IsLatest(v: int, group: set<Key>) {
    (exists x :: x in group && x.timestamp == v) && forall x :: x in group ==> x.timestamp <= v
  }

  /** The row carries its whole group's latest timestamp, size and code, and nothing else is new. */
  ghost predicate Marked(t: Table, filter: set<string>, k: Key, row: Row)
    requires k in t
  {
    && row.lastSeenAt.Some? && IsLatest(row.lastSeenAt.value, GroupOf(t, filter, k))
    && row == t[k].(lastSeenAt := row.lastSeenAt, occurrenceCount := Some(|GroupOf(t, filter, k)|), activeCode := Some(t[k].code))
  }

  // ---------------------------------------------------------------------------
  // The plan names the groups
  // ---------------------------------------------------------------------------

  ghost predicate Rising(s: seq<Key>) { forall i, j :: 0 <= i < j < |s| ==> s[i].timestamp < s[j].timestamp }

  ghost predicate InOrder(t: Table, s: seq<Key>) {
    (forall k :: k in s ==> k in t) && forall i, j :: 0 <= i < j < |s| ==> Ahead(t, s[i], s[j])
  }

  lemma {:induction false} MembersRise(t: Table, filter: set<string>, order: seq<Key>, id: GroupId)
    requires forall i, j :: 0 <= i < j < |order| && order[i].vehicleId == order[j].vehicleId ==> order[i].timestamp < order[j].timestamp
    ensures Rising(Members(t, filter, order, id))
  {
    if order != [] {
      var init := order[..|order| - 1];
      MembersRise(t, filter, init, id);
      var m := Members(t, filter, init, id);
      forall i | 0 <= i < |m| ensures m[i].vehicleId == id.vehicleId && exists j :: 0 <= j < |init| && order[j] == m[i] {
        assert m[i] in init;
        var j :| 0 <= j < |init| && init[j] == m[i];
        assert order[j] == m[i];
      }
    }
  }

  lemma PrependKeepsOrder(t: Table, k: Key, s: seq<Key>)
    requires k in t && InOrder(t, s) && forall i :: 0 <= i < |s| ==> Ahead(t, k, s[i])
    ensures InOrder(t, [k] + s)
  {}

  lemma {:induction false} InsertKeepsOrder(t: Table, k: Key, s: seq<Key>)
    requires k in t && InOrder(t, s) && forall x :: x in s ==> k.timestamp < x.timestamp
    ensures InOrder(t, Insert(t, k, s))
  {
    if s == [] || SortKey(t, k) <= SortKey(t, s[0]) {
      forall i | 0 <= i < |s| ensures Ahead(t, k, s[i]) { assert s[i] in s; }
      PrependKeepsOrder(t, k, s);
    } else {
      var rest := s[1..];
      assert forall i :: 0 <= i < |rest| ==> rest[i] == s[i + 1];
      InsertKeepsOrder(t, k, rest);
      var r := Insert(t, k, rest);
      forall i | 0 <= i < |r| ensures Ahead(t, s[0], r[i]) {
        assert r[i] in r;
        if r[i] != k { var j :| 0 <= j < |rest| && rest[j] == r[i]; }
      }
      PrependKeepsOrder(t, s[0], r);
    }
  }

  lemma {:induction false} SortOrders(t: Table, s: seq<Key>)
    requires Rising(s) && forall k :: k in s ==> k in t
    ensures InOrder(t, StableSort(t, s))
  {
    if s != [] {
      assert forall i :: 0 <= i < |s[1..]| ==> s[1..][i] == s[i + 1];
      SortOrders(t, s[1..]);
      InsertKeepsOrder(t, s[0], StableSort(t, s[1..]));
    }
  }

  lemma {:induction false} SizeOfDistinct(s: seq<Key>)
    requires forall i, j :: 0 <= i < j < |s| ==> s[i] != s[j]
    ensures |set k | k in s| == |s|
  {
    if s != [] {
      var init, last := s[..|s| - 1], s[|s| - 1];
      SizeOfDistinct(init);
      assert s == init + [last];
      assert (set k | k in s) == (set k | k in init) + {last};
    }
  }

  /** What one group's plan item says: every row of the group, its winner, its latest, its size. */
  ghost predicate Names(t: Table, filter: set<string>, item: Item) {
    && Winner(t, filter, item.winner) && |GroupOf(t, filter, item.winner)| > 1
    && (forall k :: Covers(item, k) <==> k in GroupOf(t, filter, item.winner))
    && item.count == |GroupOf(t, filter, item.winner)| && item.code == t[item.winner].code
    && IsLatest(item.lastSeen, GroupOf(t, filter, item.winner))
    && Proper(item, t) && |item.losers| + 1 == item.count
  }

  lemma GroupIsMembers(t: Table, filter: set<string>, order: seq<Key>, id: GroupId, k: Key)
    requires ScanOf(t, order) && k in Members(t, filter, order, id)
    ensures GroupOf(t, filter, k) == set x | x in Members(t, filter, order, id)
    ensures |GroupOf(t, filter, k)| == |Members(t, filter, order, id)|
  {
    MembersRise(t, filter, order, id);
    SizeOfDistinct(Members(t, filter, order, id));
  }

  lemma HeadWins(t: Table, filter: set<string>, order: seq<Key>, id: GroupId)
    requires ScanOf(t, order) && Members(t, filter, order, id) != []
    ensures var sorted := StableSort(t, Members(t, filter, order, id));
            Winner(t, filter, sorted[0]) && InOrder(t, sorted)
  {
    var m := Members(t, filter, order, id);
    MembersRise(t, filter, order, id);
    SortOrders(t, m);
    var sorted := StableSort(t, m);
    assert sorted[0] in sorted;
    GroupIsMembers(t, filter, order, id, sorted[0]);
    forall x | x in GroupOf(t, filter, sorted[0]) && x != sorted[0] ensures Ahead(t, sorted[0], x) {
      assert x in sorted;
      var i :| 0 <= i < |sorted| && sorted[i] == x;
    }
  }

  lemma OrderedIsProper(t: Table, sorted: seq<Key>, item: Item)
    requires InOrder(t, sorted) && sorted == [item.winner] + item.losers
    ensures Proper(item, t) && forall k :: Covers(item, k) <==> k in sorted
  {
    forall i, j | 0 <= i < j < |item.losers| ensures item.losers[i] != item.losers[j] {
      assert item.losers[i] == sorted[i + 1] && item.losers[j] == sorted[j + 1];
    }
    forall i | 0 <= i < |item.losers| ensures item.losers[i] != item.winner {
      assert item.losers[i] == sorted[i + 1] && item.winner == sorted[0];
    }
  }

  lemma CollapseNames(t: Table, filter: set<string>, order: seq<Key>, id: GroupId)
    requires ScanOf(t, order) && |Members(t, filter, order, id)| > 1
    ensures Names(t, filter, Collapse(t, Members(t, filter, order, id), id.code))
    ensures forall k :: Covers(Collapse(t, Members(t, filter, order, id), id.code), k) <==> In(t, filter, k, id)
  {
    var m := Members(t, filter, order, id);
    var sorted, item := StableSort(t, m), Collapse(t, m, id.code);
    HeadWins(t, filter, order, id);
    OrderedIsProper(t, sorted, item);
    assert item.winner in sorted;
    GroupIsMembers(t, filter, order, id, item.winner);
  }

  /** The plan holds one item for each of these groups that has more than one row. */
  ghost predicate Complete(t: Table, filter: set<string>, order: seq<Key>, ids: seq<GroupId>, plan: seq<Item>) {
    && AllProper(plan, t)
    && (forall i :: 0 <= i < |plan| ==> Names(t, filter, plan[i]) && IdOf(t, plan[i].winner) in ids)
    && (forall j :: 0 <= j < |ids| && |Members(t, filter, order, ids[j])| > 1 ==> HasItem(t, plan, ids[j]))
  }

  ghost predicate HasItem(t: Table, plan: seq<Item>, id: GroupId) {
    exists i :: 0 <= i < |plan| && plan[i].winner in t && IdOf(t, plan[i].winner) == id
  }

  lemma {:induction false} PlanNames(t: Table, filter: set<string>, order: seq<Key>, ids: seq<GroupId>)
    requires ScanOf(t, order) && forall i, j :: 0 <= i < j < |ids| ==> ids[i] != ids[j]
    ensures Complete(t, filter, order, ids, Plan(t, filter, order, ids))
    ensures Duplicates(t, filter, order, ids) == Gone(Plan(t, filter, order, ids)) + |Plan(t, filter, order, ids)|
    decreases |ids|
  {
    if ids != [] {
      var rest, m := ids[1..], Members(t, filter, order, ids[0]);
      assert forall i :: 0 <= i < |rest| ==> rest[i] == ids[i + 1];
      PlanNames(t, filter, order, rest);
      var later := Plan(t, filter, order, rest);
      if |m| > 1 {
        CollapseNames(t, filter, order, ids[0]);
        AddItem(t, filter, order, ids, Collapse(t, m, ids[0].code), later);
        assert Plan(t, filter, order, ids) == [Collapse(t, m, ids[0].code)] + later;
      } else {
        assert Plan(t, filter, order, ids) == later;
        forall j | 0 <= j < |ids| && |Members(t, filter, order, ids[j])| > 1 ensures HasItem(t, later, ids[j]) {
          assert ids[j] == rest[j - 1];
        }
      }
    }
  }

  lemma AddItem(t: Table, filter: set<string>, order: seq<Key>, ids: seq<GroupId>, item: Item, later: seq<Item>)
    requires ids != [] && ids[0] !in ids[1..] && Complete(t, filter, order, ids[1..], later)
    requires Names(t, filter, item) && forall k :: Covers(item, k) <==> In(t, filter, k, ids[0])
    ensures Complete(t, filter, order, ids, [item] + later)
  {
    var plan := [item] + later;
    assert Covers(item, item.winner);
    KeepApart(t, filter, item, later, ids[0]);
    forall j | 0 <= j < |ids| && |Members(t, filter, order, ids[j])| > 1 ensures HasItem(t, plan, ids[j]) {
      if j == 0 { HasHead(t, item, later); } else { HasLater(t, item, later, ids[1..][j - 1]); }
    }
    forall i | 0 <= i < |plan| ensures Names(t, filter, plan[i]) && IdOf(t, plan[i].winner) in ids {
      if i > 0 { assert plan[i] == later[i - 1]; }
    }
  }

  lemma HasHead(t: Table, item: Item, later: seq<Item>)
    requires item.winner in t
    ensures HasItem(t, [item] + later, IdOf(t, item.winner))
  {
    assert ([item] + later)[0] == item;
  }

  lemma HasLater(t: Table, item: Item, later: seq<Item>, id: GroupId)
    requires HasItem(t, later, id)
    ensures HasItem(t, [item] + later, id)
  {
    var i :| 0 <= i < |later| && later[i].winner in t && IdOf(t, later[i].winner) == id;
    assert ([item] + later)[i + 1] == later[i];
  }

  lemma KeepApart(t: Table, filter: set<string>, item: Item, later: seq<Item>, id: GroupId)
    requires AllProper(later, t) && Names(t, filter, item) && forall k :: Covers(item, k) <==> In(t, filter, k, id)
    requires forall i :: 0 <= i < |later| ==> Names(t, filter, later[i]) && IdOf(t, later[i].winner) != id
    ensures AllProper([item] + later, t)
  {
    forall i, k | 0 <= i < |later| && Covers(item, k) ensures !Covers(later[i], k) {
      assert Covers(later[i], k) ==> k in GroupOf(t, filter, later[i].winner);
    }
  }

  // ---------------------------------------------------------------------------
  // One run
  // ---------------------------------------------------------------------------

  ghost predicate Duplicated(t: Table, filter: set<string>, k: Key) {
    Eligible(t, filter, k) && |GroupOf(t, filter, k)| > 1
  }

  /** What any run, however it fails, leaves: a loser is gone only when its winner is marked. */
  ghost predicate Weakened(t: Table, filter: set<string>, t1: Table) {
    && t1.Keys <= t.Keys
    && (forall k :: k in t && Stays(t, filter, k) ==> k in t1)
    && (forall k :: k in t1 && t1[k] != t[k] ==> Winner(t, filter, k) && Duplicated(t, filter, k) && Marked(t, filter, k, t1[k]))
    && (forall k, w :: k in t && k !in t1 && w in GroupOf(t, filter, k) && Winner(t, filter, w) ==>
          w in t1 && Marked(t, filter, w, t1[w]))
  }

  /** What an undisturbed run leaves. */
  ghost predicate Collapsed(t: Table, filter: set<string>, t1: Table) {
    && (forall k :: k in t1 <==> k in t && Stays(t, filter, k))
    && (forall k :: k in t1 ==> if Duplicated(t, filter, k) then Marked(t, filter, k, t1[k]) else t1[k] == t[k])
  }

  lemma SameGroup(t: Table, filter: set<string>, a: Key, b: Key)
    requires b in GroupOf(t, filter, a)
    ensures GroupOf(t, filter, b) == GroupOf(t, filter, a)
  {}

  lemma OneWinner(t: Table, filter: set<string>, a: Key, b: Key)
    requires Winner(t, filter, a) && Winner(t, filter, b) && b in GroupOf(t, filter, a)
    ensures a == b
  {
    SameGroup(t, filter, a, b);
    assert a in GroupOf(t, filter, a);
  }

  ghost function FullPlan(t: Table, filter: set<string>, order: seq<Key>): seq<Item> {
    Plan(t, filter, order, Ids(t, filter, order))
  }

  lemma DuplicatedIsPlanned(t: Table, filter: set<string>, order: seq<Key>, k: Key)
    requires ScanOf(t, order) && Duplicated(t, filter, k)
    requires Complete(t, filter, order, Ids(t, filter, order), FullPlan(t, filter, order))
    ensures HasItem(t, FullPlan(t, filter, order), IdOf(t, k))
  {
    var id, ids := IdOf(t, k), Ids(t, filter, order);
    assert k in order;
    IdsAppear(t, filter, order, id);
    GroupIsMembers(t, filter, order, id, k);
    var j :| 0 <= j < |ids| && ids[j] == id;
  }

  lemma ItemCoversGroup(t: Table, filter: set<string>, item: Item, k: Key)
    requires Names(t, filter, item) && Eligible(t, filter, k) && IdOf(t, item.winner) == IdOf(t, k)
    ensures Covers(item, k)
  {
    assert k in GroupOf(t, filter, item.winner);
  }

  lemma DuplicatedIsCovered(t: Table, filter: set<string>, order: seq<Key>, k: Key)
    requires ScanOf(t, order) && Duplicated(t, filter, k)
    requires Complete(t, filter, order, Ids(t, filter, order), FullPlan(t, filter, order))
    ensures var plan := FullPlan(t, filter, order); exists i :: 0 <= i < |plan| && Covers(plan[i], k)
  {
    DuplicatedIsPlanned(t, filter, order, k);
    var plan := FullPlan(t, filter, order);
    var i :| 0 <= i < |plan| && plan[i].winner in t && IdOf(t, plan[i].winner) == IdOf(t, k);
    ItemCoversGroup(t, filter, plan[i], k);
  }

  lemma CoveredIsDuplicated(t: Table, filter: set<string>, item: Item, k: Key)
    requires Names(t, filter, item) && Covers(item, k)
    ensures Duplicated(t, filter, k)
  {
    SameGroup(t, filter, item.winner, k);
  }

  /** Every row of a duplicated group is covered by an item, and only those rows are. */
  lemma WhoIsCovered(t: Table, filter: set<string>, order: seq<Key>)
    requires ScanOf(t, order)
    ensures var plan := FullPlan(t, filter, order);
            && Complete(t, filter, order, Ids(t, filter, order), plan)
            && (forall k :: k in t ==> (Duplicated(t, filter, k) <==> exists i :: 0 <= i < |plan| && Covers(plan[i], k)))
  {
    var plan := FullPlan(t, filter, order);
    PlanNames(t, filter, order, Ids(t, filter, order));
    forall k | k in t && Duplicated(t, filter, k) ensures exists i :: 0 <= i < |plan| && Covers(plan[i], k) {
      DuplicatedIsCovered(t, filter, order, k);
    }
    forall i, k | 0 <= i < |plan| && Covers(plan[i], k) ensures Duplicated(t, filter, k) { CoveredIsDuplicated(t, filter, plan[i], k); }
  }

  lemma ItemSettledIsWeak(t: Table, filter: set<string>, item: Item, t1: Table, k: Key)
    requires Names(t, filter, item) && Settled(item, t, t1) && Covers(item, k)
    ensures k in t && Duplicated(t, filter, k) && (Winner(t, filter, k) ==> k == item.winner)
    ensures k == item.winner ==> k in t1 && Winner(t, filter, k)
    ensures k in t1 && t1[k] != t[k] ==> k == item.winner && Marked(t, filter, k, t1[k])
    ensures k !in t1 ==> item.winner in t1 && Marked(t, filter, item.winner, t1[item.winner])
    ensures Finished(item, t, t1) ==> (k in t1 <==> k == item.winner) && Marked(t, filter, item.winner, t1[item.winner])
  {
    assert k in GroupOf(t, filter, item.winner);
    SameGroup(t, filter, item.winner, k);
    if Winner(t, filter, k) { OneWinner(t, filter, item.winner, k); }
  }

  function GroupIds(t: Table, filter: set<string>): set<GroupId> { set k | k in t && Eligible(t, filter, k) :: IdOf(t, k) }

  /** The rows that share their group with another. */
  ghost function DuplicateRows(t: Table, filter: set<string>): set<Key> { set k | k in t && Duplicated(t, filter, k) }

  /** What any run reports of the table it scanned: its groups, and the rows in groups of several. */
  ghost predicate Surveyed(t: Table, filter: set<string>, stats: Stats) {
    stats.groups == |GroupIds(t, filter)| && stats.duplicates == |DuplicateRows(t, filter)|
  }

  lemma RunWeakens(s: State, filter: set<string>, order: seq<Key>, apply: bool)
    requires ScanOf(s.table, order)
    ensures var (t, r) := Run(s, filter, order, apply);
            && Weakened(s.table, filter, t.table)
            && (!apply ==> t == s && r.Ok? && r.value.tally == Tally(0, 0, 0))
            && (r.Ok? ==> Surveyed(s.table, filter, r.value))
            && (r.Ok? ==> |t.table| + r.value.tally.deleted == |s.table|)
            && (apply && r.Ok? && r.value.tally.errors == 0 ==>
                  && Collapsed(s.table, filter, t.table)
                  && r.value.duplicates == r.value.tally.updated + r.value.tally.deleted)
            && (Crash !in s.faults ==> r.Ok?) && (s.faults == [] ==> t.faults == [] && r.Ok? && r.value.tally.errors == 0)
  {
    var t, plan := s.table, FullPlan(s.table, filter, order);
    WhoIsCovered(t, filter, order);
    PlanNames(t, filter, order, Ids(t, filter, order));
    GroupsCounted(t, filter, order);
    DuplicatesCounted(t, filter, order);
    if apply {
      ApplyAllSettles(s, plan);
      SettledIsWeakened(t, filter, order, ApplyAll(s, plan).0.table);
    }
  }

  lemma GroupsCounted(t: Table, filter: set<string>, order: seq<Key>)
    requires ScanOf(t, order)
    ensures |Ids(t, filter, order)| == |GroupIds(t, filter)|
  {
    var ids := Ids(t, filter, order);
    DistinctCount(ids);
    forall id ensures id in ids <==> id in GroupIds(t, filter) {
      IdsAppear(t, filter, order, id);
      if id in GroupIds(t, filter) {
        var k :| k in t && Eligible(t, filter, k) && IdOf(t, k) == id;
        assert k in order;
        var i :| 0 <= i < |order| && order[i] == k;
      }
    }
    assert (set id | id in ids) == GroupIds(t, filter);
  }

  lemma {:induction false} DistinctCount(s: seq<GroupId>)
    requires forall i, j :: 0 <= i < j < |s| ==> s[i] != s[j]
    ensures |set x | x in s| == |s|
  {
    if s != [] {
      var init, last := s[..|s| - 1], s[|s| - 1];
      DistinctCount(init);
      assert s == init + [last];
      assert (set x | x in s) == (set x | x in init) + {last};
    }
  }

  ghost function RowsIn(t: Table, filter: set<string>, ids: seq<GroupId>): set<Key> {
    set k | k in t && Duplicated(t, filter, k) && IdOf(t, k) in ids
  }

  lemma DuplicatesCounted(t: Table, filter: set<string>, order: seq<Key>)
    requires ScanOf(t, order)
    ensures Duplicates(t, filter, order, Ids(t, filter, order)) == |DuplicateRows(t, filter)|
  {
    var ids := Ids(t, filter, order);
    DuplicatesIn(t, filter, order, ids);
    forall k | k in t && Duplicated(t, filter, k) ensures IdOf(t, k) in ids {
      assert k in order;
      IdsAppear(t, filter, order, IdOf(t, k));
      var i :| 0 <= i < |order| && order[i] == k;
    }
    assert RowsIn(t, filter, ids) == DuplicateRows(t, filter);
  }

  ghost function RowsOf(t: Table, filter: set<string>, id: GroupId): set<Key> {
    set k | k in t && Duplicated(t, filter, k) && IdOf(t, k) == id
  }

  lemma RowsOfFirst(t: Table, filter: set<string>, ids: seq<GroupId>)
    requires ids != [] && ids[0] !in ids[1..]
    ensures RowsIn(t, filter, ids) == RowsOf(t, filter, ids[0]) + RowsIn(t, filter, ids[1..])
    ensures RowsOf(t, filter, ids[0]) !! RowsIn(t, filter, ids[1..])
  {
    assert ids == [ids[0]] + ids[1..];
  }

  lemma {:induction false} DuplicatesIn(t: Table, filter: set<string>, order: seq<Key>, ids: seq<GroupId>)
    requires ScanOf(t, order) && forall i, j :: 0 <= i < j < |ids| ==> ids[i] != ids[j]
    ensures Duplicates(t, filter, order, ids) == |RowsIn(t, filter, ids)|
    decreases |ids|
  {
    if ids != [] {
      assert forall i :: 0 <= i < |ids[1..]| ==> ids[1..][i] == ids[i + 1];
      DuplicatesIn(t, filter, order, ids[1..]);
      RowsOfFirst(t, filter, ids);
      RowsOfOne(t, filter, order, ids[0]);
    } else {
      assert RowsIn(t, filter, ids) == {};
    }
  }

  lemma DuplicatedMember(t: Table, filter: set<string>, order: seq<Key>, id: GroupId, k: Key)
    requires ScanOf(t, order)
    ensures k in RowsOf(t, filter, id) <==> k in Members(t, filter, order, id) && |Members(t, filter, order, id)| > 1
  {
    if k in Members(t, filter, order, id) {
      GroupIsMembers(t, filter, order, id, k);
    } else if k in t {
      assert k in order;
    }
  }

  lemma RowsOfOne(t: Table, filter: set<string>, order: seq<Key>, id: GroupId)
    requires ScanOf(t, order)
    ensures var n := |Members(t, filter, order, id)|; |RowsOf(t, filter, id)| == if n > 1 then n else 0
  {
    var m := Members(t, filter, order, id);
    MembersRise(t, filter, order, id);
    SizeOfDistinct(m);
    forall k ensures k in RowsOf(t, filter, id) <==> k in m && |m| > 1 { DuplicatedMember(t, filter, order, id, k); }
    assert RowsOf(t, filter, id) == if |m| > 1 then set k | k in m else {};
  }

  lemma SettledIsWeakened(t: Table, filter: set<string>, order: seq<Key>, t1: Table)
    requires ScanOf(t, order) && AllSettled(FullPlan(t, filter, order), t, t1)
    ensures Weakened(t, filter, t1)
    ensures AllFinished(FullPlan(t, filter, order), t, t1) ==> Collapsed(t, filter, t1)
  {
    var plan := FullPlan(t, filter, order);
    WhoIsCovered(t, filter, order);
    forall k | k in t
      ensures Stays(t, filter, k) ==> k in t1
      ensures k in t1 && t1[k] != t[k] ==> Winner(t, filter, k) && Duplicated(t, filter, k) && Marked(t, filter, k, t1[k])
      ensures forall w :: k !in t1 && w in GroupOf(t, filter, k) && Winner(t, filter, w) ==> w in t1 && Marked(t, filter, w, t1[w])
      ensures AllFinished(plan, t, t1) ==>
                (k in t1 <==> Stays(t, filter, k)) && (k in t1 && Duplicated(t, filter, k) ==> Marked(t, filter, k, t1[k]))
    {
      if Duplicated(t, filter, k) {
        var i :| 0 <= i < |plan| && Covers(plan[i], k);
        ItemSettledIsWeak(t, filter, plan[i], t1, k);
        forall w | w in GroupOf(t, filter, k) && Winner(t, filter, w) ensures w == plan[i].winner {
          SameGroup(t, filter, plan[i].winner, k);
          OneWinner(t, filter, plan[i].winner, w);
        }
      } else {
        assert forall i :: 0 <= i < |plan| ==> !Covers(plan[i], k);
        if Eligible(t, filter, k) { AloneWins(t, filter, k); }
      }
    }
  }

  lemma AloneWins(t: Table, filter: set<string>, k: Key)
    requires Eligible(t, filter, k) && !Duplicated(t, filter, k)
    ensures Winner(t, filter, k) && GroupOf(t, filter, k) == {k}
  {
    var g := GroupOf(t, filter, k);
    assert k in g;
    assert |g - {k}| == 0;
    assert g == {k};
  }

  // ---------------------------------------------------------------------------
  // Main results
  // ---------------------------------------------------------------------------

  /** Of the rows the clean-up is about: active, and from one of the sources. */
  predicate Concerned(filter: set<string>, row: Row) {
    row.status == Some("ACTIVE") && row.source.Some? && row.source.value in filter
  }

  /** Two such rows that say the same of one vehicle: the same code from the same source. */
  predicate Repeats(t: Table, filter: set<string>, a: Key, b: Key) {
    && a in t && b in t && a != b && Concerned(filter, t[a]) && Concerned(filter, t[b])
    && a.vehicleId == b.vehicleId && t[a].code == t[b].code && t[a].source == t[b].source
  }

  /** In the table's own terms, of any run: a row of no concern is kept as it is; a row goes only when
      another that repeats it stays, marked with the code; and under apply without errors no two
      rows that repeat each other are left. */
  lemma OnlyRepeatsGo(s: State, filter: set<string>, order: seq<Key>, apply: bool)
    requires ScanOf(s.table, order)
    ensures var (t, r) := Run(s, filter, order, apply);
            && (forall k :: k in s.table && !Concerned(filter, s.table[k]) ==> k in t.table && t.table[k] == s.table[k])
            && (forall k :: k in s.table && k !in t.table ==>
                  exists w :: Repeats(s.table, filter, k, w) && w in t.table && t.table[w].activeCode == Some(s.table[k].code))
            && (apply && r.Ok? && r.value.tally.errors == 0 ==> forall a, b :: !Repeats(t.table, filter, a, b))
  {
    RunWeakens(s, filter, order, apply);
    var (t, r) := Run(s, filter, order, apply);
    forall k | k in s.table && k !in t.table
      ensures exists w :: Repeats(s.table, filter, k, w) && w in t.table && t.table[w].activeCode == Some(s.table[k].code)
    {
      GoneIsRepeated(s.table, filter, order, t.table, k);
    }
    if apply && r.Ok? && r.value.tally.errors == 0 {
      forall a, b ensures !Repeats(t.table, filter, a, b) { NoneRepeatLeft(s.table, filter, t.table, a, b); }
    }
  }

  lemma GoneIsRepeated(t: Table, filter: set<string>, order: seq<Key>, t1: Table, k: Key)
    requires ScanOf(t, order) && Weakened(t, filter, t1) && k in t && k !in t1
    ensures exists w :: Repeats(t, filter, k, w) && w in t1 && t1[w].activeCode == Some(t[k].code)
  {
    assert Eligible(t, filter, k);
    var w := WinnerOf(t, filter, order, k);
    assert Marked(t, filter, w, t1[w]);
    assert Repeats(t, filter, k, w);
  }

  lemma NoneRepeatLeft(t: Table, filter: set<string>, t1: Table, a: Key, b: Key)
    requires Collapsed(t, filter, t1)
    ensures !Repeats(t1, filter, a, b)
  {
    if Repeats(t1, filter, a, b) {
      assert b in GroupOf(t1, filter, a);
      AfterCollapse(t, filter, t1, a);
    }
  }

  /** An undisturbed run leaves one row per group, and a further run plans nothing. */
  lemma OneRowPerGroup(t: Table, filter: set<string>, order: seq<Key>, again: seq<Key>)
    requires ScanOf(t, order)
    requires var t1 := Run(State(t, []), filter, order, true).0.table; ScanOf(t1, again)
    ensures var t1 := Run(State(t, []), filter, order, true).0.table;
            && Collapsed(t, filter, t1)
            && (forall k :: Eligible(t1, filter, k) ==> GroupOf(t1, filter, k) == {k})
            && (forall k :: Eligible(t, filter, k) ==> exists w :: w in t1 && w in GroupOf(t, filter, k) && Winner(t, filter, w))
            && FullPlan(t1, filter, again) == []
  {
    RunWeakens(State(t, []), filter, order, true);
    var t1 := Run(State(t, []), filter, order, true).0.table;
    forall k | Eligible(t1, filter, k) ensures GroupOf(t1, filter, k) == {k} { AfterCollapse(t, filter, t1, k); }
    forall k | Eligible(t, filter, k) ensures exists w :: w in t1 && w in GroupOf(t, filter, k) && Winner(t, filter, w) {
      var w := WinnerOf(t, filter, order, k);
    }
    NothingLeftToPlan(t1, filter, again);
  }

  lemma PlannedIsDuplicated(t: Table, filter: set<string>, order: seq<Key>)
    requires ScanOf(t, order) && FullPlan(t, filter, order) != []
    ensures Duplicated(t, filter, FullPlan(t, filter, order)[0].winner)
  {
    WhoIsCovered(t, filter, order);
  }

  lemma NothingLeftToPlan(t: Table, filter: set<string>, order: seq<Key>)
    requires ScanOf(t, order) && forall k :: Eligible(t, filter, k) ==> GroupOf(t, filter, k) == {k}
    ensures FullPlan(t, filter, order) == []
  {
    if FullPlan(t, filter, order) != [] { PlannedIsDuplicated(t, filter, order); }
  }

  lemma AfterCollapse(t: Table, filter: set<string>, t1: Table, k: Key)
    requires Collapsed(t, filter, t1) && Eligible(t1, filter, k)
    ensures GroupOf(t1, filter, k) == {k} && Winner(t, filter, k)
  {
    forall x | x in GroupOf(t1, filter, k) ensures x == k {
      assert x in GroupOf(t, filter, k);
      OneWinner(t, filter, k, x);
    }
  }

  lemma WinnerOf(t: Table, filter: set<string>, order: seq<Key>, k: Key) returns (w: Key)
    requires ScanOf(t, order) && Eligible(t, filter, k)
    ensures w in GroupOf(t, filter, k) && Winner(t, filter, w)
  {
    var id := IdOf(t, k);
    assert k in order && k in Members(t, filter, order, id);
    HeadWins(t, filter, order, id);
    w := StableSort(t, Members(t, filter, order, id))[0];
    assert w in StableSort(t, Members(t, filter, order, id));
    GroupIsMembers(t, filter, order, id, k);
  }

  /** Everything but the three attributes a winner is marked with. */
  function Core(row: Row): Row { row.(lastSeenAt := None, occurrenceCount := None, activeCode := None) }

  /** What a whole history of runs keeps of the table it began with. */
  ghost predicate Descends(t0: Table, filter: set<string>, t: Table) {
    && t.Keys <= t0.Keys
    && (forall k :: k in t0 && Stays(t0, filter, k) ==> k in t)
    && (forall k :: k in t ==> Core(t[k]) == Core(t0[k]))
    && (forall k :: k in t && t[k] != t0[k] ==> Winner(t0, filter, k) && Duplicated(t0, filter, k))
    && (forall k, w :: k in t0 && k !in t && w in GroupOf(t0, filter, k) && Winner(t0, filter, w) ==>
          t[w].activeCode == Some(t0[w].code) && t[w].lastSeenAt.Some? && t[w].occurrenceCount.Some?)
  }

  lemma SameRows(t0: Table, filter: set<string>, t: Table, k: Key)
    requires Descends(t0, filter, t) && k in t
    ensures Eligible(t, filter, k) <==> Eligible(t0, filter, k)
    ensures IdOf(t, k) == IdOf(t0, k) && SortKey(t, k) == SortKey(t0, k)
  {
    assert Core(t[k]) == Core(t0[k]);
  }

  lemma WinnerSurvives(t0: Table, filter: set<string>, t: Table, k: Key)
    requires Descends(t0, filter, t) && k in t
    ensures GroupOf(t, filter, k) <= GroupOf(t0, filter, k)
    ensures Winner(t0, filter, k) ==> Winner(t, filter, k)
  {
    SameRows(t0, filter, t, k);
    forall x | x in GroupOf(t, filter, k) ensures x in GroupOf(t0, filter, k) { SameRows(t0, filter, t, x); }
    if Winner(t0, filter, k) {
      forall x | x in GroupOf(t, filter, k) && x != k ensures Ahead(t, k, x) {
        SameRows(t0, filter, t, x);
        assert Ahead(t0, k, x);
      }
    }
  }

  lemma SameWinners(t0: Table, filter: set<string>, t: Table, order0: seq<Key>, k: Key)
    requires ScanOf(t0, order0) && Descends(t0, filter, t) && k in t
    ensures Eligible(t, filter, k) <==> Eligible(t0, filter, k)
    ensures Winner(t, filter, k) <==> Winner(t0, filter, k)
    ensures GroupOf(t, filter, k) <= GroupOf(t0, filter, k)
  {
    SameRows(t0, filter, t, k);
    WinnerSurvives(t0, filter, t, k);
    if Winner(t, filter, k) {
      var w := WinnerOf(t0, filter, order0, k);
      WinnerSurvives(t0, filter, t, w);
      SameRows(t0, filter, t, w);
      assert w in GroupOf(t, filter, k);
      OneWinner(t, filter, k, w);
    }
  }

  lemma WeakenedDescends(t0: Table, filter: set<string>, t: Table, t1: Table, order0: seq<Key>)
    requires ScanOf(t0, order0) && Descends(t0, filter, t) && Weakened(t, filter, t1)
    ensures Descends(t0, filter, t1)
  {
    forall k | k in t0 && Stays(t0, filter, k) ensures k in t1 { SameWinners(t0, filter, t, order0, k); }
    forall k | k in t1
      ensures Core(t1[k]) == Core(t0[k])
      ensures t1[k] != t0[k] ==> Winner(t0, filter, k) && Duplicated(t0, filter, k)
    {
      RowDescends(t0, filter, t, t1, order0, k);
    }
    forall k, w | k in t0 && k !in t1 && w in GroupOf(t0, filter, k) && Winner(t0, filter, w)
      ensures t1[w].activeCode == Some(t0[w].code) && t1[w].lastSeenAt.Some? && t1[w].occurrenceCount.Some?
    {
      WinnerIsMarked(t0, filter, t, t1, order0, k, w);
    }
  }

  lemma RowDescends(t0: Table, filter: set<string>, t: Table, t1: Table, order0: seq<Key>, k: Key)
    requires ScanOf(t0, order0) && Descends(t0, filter, t) && Weakened(t, filter, t1) && k in t1
    ensures Core(t1[k]) == Core(t0[k])
    ensures t1[k] != t0[k] ==> Winner(t0, filter, k) && Duplicated(t0, filter, k)
  {
    SameWinners(t0, filter, t, order0, k);
    assert Core(t[k]) == Core(t0[k]);
    if t1[k] != t[k] { SubsetSize(GroupOf(t, filter, k), GroupOf(t0, filter, k)); }
  }

  lemma WinnerIsMarked(t0: Table, filter: set<string>, t: Table, t1: Table, order0: seq<Key>, k: Key, w: Key)
    requires ScanOf(t0, order0) && Descends(t0, filter, t) && Weakened(t, filter, t1)
    requires k in t0 && k !in t1 && w in GroupOf(t0, filter, k) && Winner(t0, filter, w)
    ensures w in t1 && t1[w].activeCode == Some(t0[w].code) && t1[w].lastSeenAt.Some? && t1[w].occurrenceCount.Some?
  {
    SameWinners(t0, filter, t, order0, w);
    assert Core(t[w]) == Core(t0[w]);
    if k in t {
      assert Core(t[k]) == Core(t0[k]);
      assert w in GroupOf(t, filter, k);
    } else if t1[w] != t[w] {
      assert Marked(t, filter, w, t1[w]);
    }
  }

  /** One run after another, each with its own scan and its own failures. */
  datatype Attempt = Attempt(order: seq<Key>, apply: bool, faults: seq<Fault>)

  function After(t: Table, filter: set<string>, runs: seq<Attempt>): Table
    decreases |runs|
  {
    if runs == [] then t
    else After(Run(State(t, runs[0].faults), filter, runs[0].order, runs[0].apply).0.table, filter, runs[1..])
  }

  ghost predicate Scanned(t: Table, filter: set<string>, runs: seq<Attempt>)
    decreases |runs|
  {
    runs != [] ==>
      && ScanOf(t, runs[0].order)
      && Scanned(Run(State(t, runs[0].faults), filter, runs[0].order, runs[0].apply).0.table, filter, runs[1..])
  }

  /** No winner is ever lost, and no loser before its winner is marked, whatever fails in any run. */
  lemma {:induction false} HistoriesDescend(t0: Table, filter: set<string>, order0: seq<Key>, t: Table, runs: seq<Attempt>)
    requires ScanOf(t0, order0) && Descends(t0, filter, t) && Scanned(t, filter, runs)
    ensures Descends(t0, filter, After(t, filter, runs))
    decreases |runs|
  {
    if runs != [] {
      var t1 := Run(State(t, runs[0].faults), filter, runs[0].order, runs[0].apply).0.table;
      RunWeakens(State(t, runs[0].faults), filter, runs[0].order, runs[0].apply);
      WeakenedDescends(t0, filter, t, t1, order0);
      HistoriesDescend(t0, filter, order0, t1, runs[1..]);
    }
  }

  /** After any history, one undisturbed run leaves exactly the rows the first table's winners
      are, with everything but the three marks as it was. */
  lemma HistoriesEndAtTheSameWinners(t0: Table, filter: set<string>, order0: seq<Key>, runs: seq<Attempt>, last: seq<Key>)
    requires ScanOf(t0, order0) && Scanned(t0, filter, runs) && ScanOf(After(t0, filter, runs), last)
    ensures var t := Run(State(After(t0, filter, runs), []), filter, last, true).0.table;
            && (forall k :: k in t <==> k in t0 && Stays(t0, filter, k))
            && (forall k :: k in t ==> Core(t[k]) == Core(t0[k]))
            && (forall k :: k in t && !Duplicated(t0, filter, k) ==> t[k] == t0[k])
  {
    HistoriesDescend(t0, filter, order0, t0, runs);
    var t1 := After(t0, filter, runs);
    RunWeakens(State(t1, []), filter, last, true);
    var t := Run(State(t1, []), filter, last, true).0.table;
    WeakenedDescends(t0, filter, t1, t, order0);
    forall k | k in t ensures Stays(t0, filter, k) { SameWinners(t0, filter, t1, order0, k); }
  }

  // ---------------------------------------------------------------------------
  // Where re-runs and missing attributes fall short
  // ---------------------------------------------------------------------------

  /** A re-run after a partly failed run sees only what is left.  The winner ends with its whole
      group's size exactly when the failed run had deleted none of the group's losers, or all; and
      with its whole group's latest time exactly when a row of that time was left, or no loser. */
  lemma CountsSurviveARerun(t: Table, filter: set<string>, order: seq<Key>, faults: seq<Fault>, again: seq<Key>, w: Key)
    requires ScanOf(t, order) && Winner(t, filter, w) && Duplicated(t, filter, w)
    requires ScanOf(Run(State(t, faults), filter, order, true).0.table, again)
    ensures var t1 := Run(State(t, faults), filter, order, true).0.table;
            var t2 := Run(State(t1, []), filter, again, true).0.table;
            && w in t1 && w in t2
            && (t2[w].occurrenceCount == Some(|GroupOf(t, filter, w)|) <==>
                  GroupOf(t1, filter, w) == GroupOf(t, filter, w) || GroupOf(t1, filter, w) == {w})
            && t2[w].occurrenceCount.Some? && t2[w].occurrenceCount.value <= |GroupOf(t, filter, w)|
            && t2[w].lastSeenAt.Some?
            && (IsLatest(t2[w].lastSeenAt.value, GroupOf(t, filter, w)) <==>
                  (exists k :: k in GroupOf(t1, filter, w) && IsLatest(k.timestamp, GroupOf(t, filter, w)))
                  || GroupOf(t1, filter, w) == {w})
            && (forall v :: IsLatest(v, GroupOf(t, filter, w)) ==> t2[w].lastSeenAt.value <= v)
  {
    var t1 := Run(State(t, faults), filter, order, true).0.table;
    var t2 := Run(State(t1, []), filter, again, true).0.table;
    RunWeakens(State(t, faults), filter, order, true);
    RunWeakens(State(t1, []), filter, again, true);
    StillWins(t, filter, order, t1, w);
    CountAfter(t, filter, t1, t2, w);
    LatestAfter(t, filter, t1, t2, w);
  }

  lemma StillWins(t: Table, filter: set<string>, order: seq<Key>, t1: Table, w: Key)
    requires ScanOf(t, order) && Winner(t, filter, w) && Weakened(t, filter, t1)
    ensures w in t1 && Winner(t1, filter, w) && GroupOf(t1, filter, w) <= GroupOf(t, filter, w)
  {
    WeakenedDescends(t, filter, t, t1, order);
    SameWinners(t, filter, t1, order, w);
  }

  lemma LatestAfter(t: Table, filter: set<string>, t1: Table, t2: Table, w: Key)
    requires Winner(t, filter, w) && Duplicated(t, filter, w) && Weakened(t, filter, t1)
    requires Winner(t1, filter, w) && GroupOf(t1, filter, w) <= GroupOf(t, filter, w) && Collapsed(t1, filter, t2)
    ensures w in t2 && t2[w].lastSeenAt.Some?
    ensures IsLatest(t2[w].lastSeenAt.value, GroupOf(t, filter, w)) <==>
              (exists k :: k in GroupOf(t1, filter, w) && IsLatest(k.timestamp, GroupOf(t, filter, w))) || GroupOf(t1, filter, w) == {w}
    ensures forall v :: IsLatest(v, GroupOf(t, filter, w)) ==> t2[w].lastSeenAt.value <= v
  {
    if Duplicated(t1, filter, w) {
      assert Marked(t1, filter, w, t2[w]);
      assert GroupOf(t1, filter, w) != {w} by { assert |{w}| == 1; }
      LatestOfPart(GroupOf(t1, filter, w), GroupOf(t, filter, w), t2[w].lastSeenAt.value);
    } else {
      AloneWins(t1, filter, w);
      MarkedWhenAlone(t, filter, t1, w);
    }
  }

  lemma LatestOfPart(part: set<Key>, group: set<Key>, v: int)
    requires part <= group && IsLatest(v, part)
    ensures IsLatest(v, group) <==> exists k :: k in part && IsLatest(k.timestamp, group)
    ensures forall u :: IsLatest(u, group) ==> v <= u
  {
    var x :| x in part && x.timestamp == v;
    if k :| k in part && IsLatest(k.timestamp, group) { assert k.timestamp <= v; }
  }

  lemma CountAfter(t: Table, filter: set<string>, t1: Table, t2: Table, w: Key)
    requires Winner(t, filter, w) && Duplicated(t, filter, w) && Weakened(t, filter, t1)
    requires Winner(t1, filter, w) && GroupOf(t1, filter, w) <= GroupOf(t, filter, w) && Collapsed(t1, filter, t2)
    ensures w in t2 && t2[w].occurrenceCount.Some? && t2[w].occurrenceCount.value <= |GroupOf(t, filter, w)|
    ensures t2[w].occurrenceCount == Some(|GroupOf(t, filter, w)|) <==>
              GroupOf(t1, filter, w) == GroupOf(t, filter, w) || GroupOf(t1, filter, w) == {w}
  {
    var g, g1 := GroupOf(t, filter, w), GroupOf(t1, filter, w);
    assert w in g1;
    SubsetSize(g1, g);
    if Duplicated(t1, filter, w) {
      assert t2[w].occurrenceCount == Some(|g1|);
      assert g1 == {w} ==> |g1| == 1;
    } else {
      AloneWins(t1, filter, w);
      MarkedWhenAlone(t, filter, t1, w);
    }
  }

  lemma MarkedWhenAlone(t: Table, filter: set<string>, t1: Table, w: Key)
    requires Winner(t, filter, w) && Duplicated(t, filter, w) && Weakened(t, filter, t1)
    requires w in t1 && GroupOf(t1, filter, w) == {w}
    ensures Marked(t, filter, w, t1[w])
  {
    var g := GroupOf(t, filter, w);
    assert |g - {w}| == |g| - 1;
    assert g - {w} != {};
    var k :| k in g - {w};
    LosersGo(t, filter, t1, w, k);
  }

  lemma SubsetSize(a: set<Key>, b: set<Key>)
    requires a <= b
    ensures |a| <= |b| && (|a| == |b| <==> a == b)
  {
    assert b == a + (b - a);
  }

  lemma LosersGo(t: Table, filter: set<string>, t1: Table, w: Key, k: Key)
    requires Weakened(t, filter, t1) && Winner(t, filter, w) && k in GroupOf(t, filter, w) && k != w
    requires w in t1 && GroupOf(t1, filter, w) == {w}
    ensures Marked(t, filter, w, t1[w])
  {
    SameGroup(t, filter, w, k);
    assert k in t1 && t1[k] == t[k] ==> k in GroupOf(t1, filter, w);
    if k in t1 && t1[k] != t[k] { OneWinner(t, filter, w, k); }
  }

  /** The documented key: without a firstSeenAt, the timestamp. */
  function DocumentedKey(t: Table, k: Key): int
    requires k in t
  {
    if t[k].firstSeenAt.Missing? then k.timestamp else SortKey(t, k)
  }

  predicate DocumentedAhead(t: Table, a: Key, b: Key)
    requires a in t && b in t
  {
    DocumentedKey(t, a) < DocumentedKey(t, b) || (DocumentedKey(t, a) == DocumentedKey(t, b) && a.timestamp < b.timestamp)
  }

  ghost predicate DocumentedWinner(t: Table, filter: set<string>, k: Key) {
    Eligible(t, filter, k) && forall x :: x in GroupOf(t, filter, k) && x != k ==> DocumentedAhead(t, k, x)
  }

  /** The group's earliest row that lacks a firstSeenAt. */
  ghost predicate EarliestMissing(t: Table, filter: set<string>, k: Key, m: Key) {
    && m in GroupOf(t, filter, k) && t[m].firstSeenAt.Missing?
    && forall x :: x in GroupOf(t, filter, k) && t[x].firstSeenAt.Missing? && x != m ==> m.timestamp < x.timestamp
  }

  /** It was written before every row of the group that has a firstSeenAt was first seen. */
  ghost predicate BeforeTheSeen(t: Table, filter: set<string>, m: Key)
    requires m in t
  {
    forall x :: x in GroupOf(t, filter, m) && !t[x].firstSeenAt.Missing? ==>
      m.timestamp < DocumentedKey(t, x) || (m.timestamp == DocumentedKey(t, x) && m.timestamp < x.timestamp)
  }

  /** Positive times: a group with rows that lack a firstSeenAt keeps the earliest of them, whatever
      the others say; so the row kept is the documented one exactly when there are none, or the
      earliest of them was written before all the others were first seen. */
  lemma MissingFirstSeenWins(t: Table, filter: set<string>, w: Key)
    requires Winner(t, filter, w)
    requires forall k :: k in GroupOf(t, filter, w) ==> k.timestamp > 0 && (t[k].firstSeenAt.At? ==> t[k].firstSeenAt.value > 0)
    ensures forall m :: EarliestMissing(t, filter, w, m) ==> w == m
    ensures DocumentedWinner(t, filter, w) <==> forall m :: EarliestMissing(t, filter, w, m) ==> BeforeTheSeen(t, filter, m)
  {
    forall k | k in GroupOf(t, filter, w) && k != w
      ensures t[k].firstSeenAt.Missing? ==> t[w].firstSeenAt.Missing? && w.timestamp < k.timestamp
      ensures !t[w].firstSeenAt.Missing? ==> DocumentedAhead(t, w, k)
    {
      assert Ahead(t, w, k);
    }
    if t[w].firstSeenAt.Missing? { assert EarliestMissing(t, filter, w, w); }
  }

  lemma LateRowOutlivesTheFirst()
    ensures var a, b := Key("V1", 100), Key("V1", 200);
            var row := Row(Some("P0217"), Some("fwe-uds-dtc"), Some(ACTIVE), At(100), None, None, None);
            var t: Table := map[a := row, b := row.(firstSeenAt := Missing)];
            Winner(t, {"fwe-uds-dtc"}, b) && DocumentedWinner(t, {"fwe-uds-dtc"}, a)
  {
    var a, b := Key("V1", 100), Key("V1", 200);
    assert a != b;
  }

  const FIRST := Key("V1", 100)
  const SECOND := Key("V1", 200)
  const THIRD := Key("V1", 300)
  const SEEN := Row(Some("P0217"), Some("fwe-uds-dtc"), Some(ACTIVE), At(100), None, None, None)

  ghost predicate ThreeOf(t: Table, filter: set<string>, a: Key, b: Key, c: Key, id: GroupId) {
    && In(t, filter, a, id) && In(t, filter, b, id) && In(t, filter, c, id)
    && SortKey(t, a) == SortKey(t, b) == SortKey(t, c) && a.timestamp < b.timestamp < c.timestamp
  }

  lemma {:induction false} IdsOfThree(t: Table, filter: set<string>, a: Key, b: Key, c: Key, id: GroupId)
    requires ThreeOf(t, filter, a, b, c, id)
    ensures Ids(t, filter, [a, b, c]) == [id]
  {
    assert [a][..0] == [] && [a, b][..1] == [a] && [a, b, c][..2] == [a, b];
    assert Ids(t, filter, [a]) == [id];
    assert Ids(t, filter, [a, b]) == [id];
  }

  lemma {:induction false} MembersOfThree(t: Table, filter: set<string>, a: Key, b: Key, c: Key, id: GroupId)
    requires ThreeOf(t, filter, a, b, c, id)
    ensures Members(t, filter, [a, b, c], id) == [a, b, c]
  {
    assert [a][..0] == [] && [a, b][..1] == [a] && [a, b, c][..2] == [a, b];
    assert Members(t, filter, [a], id) == [a];
    assert Members(t, filter, [a, b], id) == [a, b];
  }

  ghost predicate KeysRise(t: Table, s: seq<Key>) {
    s != [] ==> s[0] in t && KeysRise(t, s[1..]) && (|s| > 1 ==> SortKey(t, s[0]) <= SortKey(t, s[1]))
  }

  lemma {:induction false} SortedAlready(t: Table, s: seq<Key>)
    requires KeysRise(t, s) && forall x :: x in s ==> x in t
    ensures StableSort(t, s) == s
  {
    if s != [] {
      var rest := s[1..];
      SortedAlready(t, rest);
      assert rest != [] ==> rest[0] == s[1];
      assert [s[0]] + rest == s;
    }
  }

  lemma {:induction false} ThreeRise(t: Table, filter: set<string>, a: Key, b: Key, c: Key, id: GroupId)
    requires ThreeOf(t, filter, a, b, c, id)
    ensures KeysRise(t, [a, b, c])
  {
    assert [c][1..] == [] && KeysRise(t, [c]);
    assert [b, c][1..] == [c] && KeysRise(t, [b, c]);
    assert [a, b, c][1..] == [b, c];
  }

  lemma {:induction false} LatestOfThree(a: Key, b: Key, c: Key)
    requires a.timestamp < b.timestamp < c.timestamp
    ensures Latest([a, b, c]) == c.timestamp
  {
    assert [a, b, c][2] == c && c in [a, b, c];
  }

  lemma {:induction false} PlanOfOne(t: Table, filter: set<string>, order: seq<Key>, id: GroupId)
    requires |Members(t, filter, order, id)| > 1
    ensures Plan(t, filter, order, [id]) == [Collapse(t, Members(t, filter, order, id), id.code)]
  {
    assert [id][1..] == [] && Plan(t, filter, order, []) == [];
  }

  lemma {:induction false} CollapseOfThree(t: Table, filter: set<string>, a: Key, b: Key, c: Key, id: GroupId)
    requires ThreeOf(t, filter, a, b, c, id)
    ensures Collapse(t, [a, b, c], id.code) == Item(a, [b, c], c.timestamp, 3, id.code)
  {
    ThreeRise(t, filter, a, b, c, id);
    SortedAlready(t, [a, b, c]);
    LatestOfThree(a, b, c);
    assert [a, b, c][1..] == [b, c];
  }

  lemma {:induction false} PlanOfThree(t: Table, filter: set<string>, a: Key, b: Key, c: Key, id: GroupId)
    requires ThreeOf(t, filter, a, b, c, id)
    ensures FullPlan(t, filter, [a, b, c]) == [Item(a, [b, c], c.timestamp, 3, id.code)]
  {
    IdsOfThree(t, filter, a, b, c, id);
    MembersOfThree(t, filter, a, b, c, id);
    PlanOfOne(t, filter, [a, b, c], id);
    CollapseOfThree(t, filter, a, b, c, id);
  }

  /** A run that updates the winner, is refused the second row and deletes the third. */
  lemma {:induction false} RefusedThenDeleted(s: State, a: Key, b: Key, c: Key)
    requires s.faults == [ClientError, Fine]
    ensures DeleteAll(s, [b, c]) == (State(s.table - {c}, []), Ok(Tally(0, 1, 1)))
  {
    assert [b, c][1..] == [c] && [c][1..] == [] && s.faults[1..] == [Fine] && s.faults[1..][1..] == [];
    assert DeleteAll(State(s.table, [Fine]), [c]) == (State(s.table - {c}, []), Ok(Tally(0, 1, 0)));
  }

  lemma {:induction false} OnlyItem(s: State, item: Item)
    ensures ApplyAll(s, [item]).0 == ApplyItem(s, item).0
  {
    assert [item][1..] == [];
    var (s1, first) := ApplyItem(s, item);
    assert ApplyAll(s1, []).0 == s1;
  }

  lemma {:induction false} PartlyDeleted(t: Table, filter: set<string>, a: Key, b: Key, c: Key, id: GroupId)
    requires ThreeOf(t, filter, a, b, c, id)
    ensures Run(State(t, [Fine, ClientError, Fine]), filter, [a, b, c], true).0.table
            == t[a := Mark(t[a], Item(a, [b, c], c.timestamp, 3, id.code))] - {c}
  {
    var item := Item(a, [b, c], c.timestamp, 3, id.code);
    PlanOfThree(t, filter, a, b, c, id);
    var s := State(t, [Fine, ClientError, Fine]);
    assert s.faults[1..] == [ClientError, Fine];
    RefusedThenDeleted(Update(s, item).0, a, b, c);
    OnlyItem(s, item);
  }

  lemma ThreeSeen(t: Table, filter: set<string>)
    requires t == map[FIRST := SEEN, SECOND := SEEN, THIRD := SEEN] && filter == {"fwe-uds-dtc"}
    ensures ThreeOf(t, filter, FIRST, SECOND, THIRD, GroupId("V1", Some("P0217"), Some("fwe-uds-dtc")))
  {}

  /** Three rows of one code, of which a first run deletes the last and fails to delete the second:
      the winner it marked with 3 occurrences, last seen at 300, says 2 and 200 after the next. */
  lemma {:induction false} RerunLowersTheMarks(t: Table)
    requires t == map[FIRST := SEEN, SECOND := SEEN, THIRD := SEEN]
    ensures var filter := {"fwe-uds-dtc"};
            var t1 := Run(State(t, [Fine, ClientError, Fine]), filter, [FIRST, SECOND, THIRD], true).0.table;
            var t2 := Run(State(t1, []), filter, [FIRST, SECOND], true).0.table;
            && FIRST in t1 && t1[FIRST].occurrenceCount == Some(3) && t1[FIRST].lastSeenAt == Some(300)
            && FIRST in t2 && t2[FIRST].occurrenceCount == Some(2) && t2[FIRST].lastSeenAt == Some(200)
  {
    var filter := {"fwe-uds-dtc"};
    ThreeSeen(t, filter);
    PartlyDeleted(t, filter, FIRST, SECOND, THIRD, GroupId("V1", Some("P0217"), Some("fwe-uds-dtc")));
    var marked := SEEN.(lastSeenAt := Some(300), occurrenceCount := Some(3), activeCode := Some(Some("P0217")));
    var t1 := map[FIRST := marked, SECOND := SEEN];
    assert t[FIRST := marked] - {THIRD} == t1;
    TwoRowsLeft(t1, filter, marked);
  }

  lemma {:induction false} TwoRowsLeft(t: Table, filter: set<string>, marked: Row)
    requires t == map[FIRST := marked, SECOND := SEEN] && filter == {"fwe-uds-dtc"}
    requires marked == SEEN.(lastSeenAt := Some(300), occurrenceCount := Some(3), activeCode := Some(Some("P0217")))
    ensures var t1 := Run(State(t, []), filter, [FIRST, SECOND], true).0.table;
            FIRST in t1 && t1[FIRST].occurrenceCount == Some(2) && t1[FIRST].lastSeenAt == Some(200)
  {
    CollapseOfTwo(t, filter, FIRST, SECOND);
  }

  lemma {:induction false} CollapseOfTwo(t: Table, filter: set<string>, a: Key, b: Key)
    requires t.Keys == {a, b} && Together(t, filter, a, b) && SortKey(t, a) <= SortKey(t, b) && a.timestamp < b.timestamp
    ensures var t1 := Run(State(t, []), filter, [a, b], true).0.table;
            a in t1 && t1[a].occurrenceCount == Some(2) && t1[a].lastSeenAt == Some(b.timestamp)
  {
    assert GroupOf(t, filter, a) == {a, b} && |{a, b}| == 2;
    assert Winner(t, filter, a);
    RunWeakens(State(t, []), filter, [a, b], true);
    assert Marked(t, filter, a, Run(State(t, []), filter, [a, b], true).0.table[a]);
  }
}
