/** The clean-up itself, over a table it updates and deletes from row by row. */
module DtcTable {
  import opened Prelude
  import opened DtcDedup
  import C = DtcCollapse

  /** The filled-in dictionary: each id seen so far, with its rows in scan order. */
  ghost predicate Grouped(t: Table, filter: set<string>, order: seq<Key>, ids: seq<GroupId>, groups: map<GroupId, seq<Key>>) {
    && ids == Ids(t, filter, order)
    && groups.Keys == (set id | id in ids)
    && (forall id :: id in groups ==> groups[id] == Members(t, filter, order, id))
  }

  class HistoryTable {
    var rows: Table
    var faults: seq<Fault>

    constructor (rows: Table, faults: seq<Fault>)
      ensures Abs() == State(rows, faults)
    {
      this.rows, this.faults := rows, faults;
    }

    function Abs(): State reads this { State(rows, faults) }

    method Meet() returns (fault: Fault)
      modifies this
      ensures fault == FaultOf(old(Abs())) && Abs() == Arrive(old(Abs()))
    {
      fault := Fine;
      if faults != [] {
        fault := faults[0];
        faults := faults[1..];
      }
    }

    method UpdateItem(item: Item) returns (fault: Fault)
      modifies this
      ensures (Abs(), fault) == Update(old(Abs()), item)
    {
      fault := Meet();
      if fault == Fine {
        var row := if item.winner in rows then rows[item.winner] else BLANK;
        rows := rows[item.winner := Mark(row, item)];
      }
    }

    method DeleteItem(k: Key) returns (fault: Fault)
      modifies this
      ensures (Abs(), fault) == Delete(old(Abs()), k)
    {
      fault := Meet();
      if fault == Fine { rows := rows - {k}; }
    }

    method Group(filter: set<string>, order: seq<Key>) returns (ids: seq<GroupId>, groups: map<GroupId, seq<Key>>)
      ensures Grouped(rows, filter, order, ids, groups)
    {
      ids, groups := [], map[];
      for i := 0 to |order|
        invariant Grouped(rows, filter, order[..i], ids, groups)
      {
        var k := order[i];
        assert order[..i + 1][..i] == order[..i] && order[..i + 1][i] == k;
        if Eligible(rows, filter, k) {
          var id := IdOf(rows, k);
          if id in groups {
            groups := groups[id := groups[id] + [k]];
          } else {
            if Members(rows, filter, order[..i], id) != [] { SeenIsListed(rows, filter, order[..i], id); }
            ids, groups := ids + [id], groups[id := [k]];
          }
        }
      }
      assert order[..|order|] == order;
    }

    method MakePlan(filter: set<string>, order: seq<Key>, ids: seq<GroupId>, groups: map<GroupId, seq<Key>>)
      returns (plan: seq<Item>, dups: nat)
      requires Grouped(rows, filter, order, ids, groups)
      ensures plan == Plan(rows, filter, order, ids) && dups == Duplicates(rows, filter, order, ids)
    {
      plan, dups := [], 0;
      PlanStarts(rows, filter, order, ids);
      for i := 0 to |ids|
        invariant PlannedTo(rows, filter, order, ids, i, plan, dups)
      {
        var members := groups[ids[i]];
        PlanStep(rows, filter, order, ids, i, plan, dups);
        if |members| > 1 {
          plan, dups := plan + [Collapse(rows, members, ids[i].code)], dups + |members|;
        }
      }
      PlanEnds(rows, filter, order, ids, plan, dups);
    }

    method DeleteLosers(losers: seq<Key>) returns (r: Reply<Tally>)
      modifies this
      ensures (Abs(), r) == DeleteAll(old(Abs()), losers)
    {
      var deleted: nat, errors: nat := 0, 0;
      ghost var start := Abs();
      for i := 0 to |losers|
        invariant var (t, rest) := DeleteAll(Abs(), losers[i..]);
                  DeleteAll(start, losers) ==
                  (t, if rest.Raise? then Raise
                      else Ok(Tally(rest.value.updated, deleted + rest.value.deleted, errors + rest.value.errors)))
      {
        assert losers[i..][0] == losers[i] && losers[i..][1..] == losers[i + 1..];
        var fault := DeleteItem(losers[i]);
        if fault == Crash { return Raise; }
        if fault == Fine { deleted := deleted + 1; } else { errors := errors + 1; }
      }
      return Ok(Tally(0, deleted, errors));
    }

    method ApplyOne(item: Item) returns (r: Reply<Tally>)
      modifies this
      ensures (Abs(), r) == ApplyItem(old(Abs()), item)
    {
      var fault := UpdateItem(item);
      if fault == Crash { return Raise; }
      if fault == ClientError { return Ok(Tally(0, 0, 1)); }
      var gone := DeleteLosers(item.losers);
      return if gone.Raise? then Raise else Ok(Counted(gone.value, Tally(1, 0, 0), Fine));
    }

    method ApplyPlan(plan: seq<Item>) returns (r: Reply<Tally>)
      modifies this
      ensures (Abs(), r) == ApplyAll(old(Abs()), plan)
    {
      var tally := Tally(0, 0, 0);
      ghost var start := Abs();
      assert plan[0..] == plan;
      for i := 0 to |plan|
        invariant ApplyAll(start, plan) == Onward(tally, ApplyAll(Abs(), plan[i..]))
      {
        OneItem(Abs(), plan, i, tally);
        var applied := ApplyOne(plan[i]);
        if applied.Raise? { return Raise; }
        tally := Sum(tally, applied.value);
      }
      return Ok(tally);
    }

    static function Sum(a: Tally, b: Tally): Tally { Tally(a.updated + b.updated, a.deleted + b.deleted, a.errors + b.errors) }

    /** The answer of the whole loop, given the tally so far and the answer of the rest. */
    ghost static function Onward(tally: Tally, rest: (State, Reply<Tally>)): (State, Reply<Tally>) {
      (rest.0, if rest.1.Raise? then Raise else Ok(Sum(tally, rest.1.value)))
    }

    static lemma OneItem(s: State, plan: seq<Item>, i: nat, tally: Tally)
      requires i < |plan|
      ensures var (t, first) := ApplyItem(s, plan[i]);
              Onward(tally, ApplyAll(s, plan[i..]))
              == if first.Raise? then (t, Raise) else Onward(Sum(tally, first.value), ApplyAll(t, plan[i + 1..]))
    {
      assert plan[i..][0] == plan[i] && plan[i..][1..] == plan[i + 1..];
    }

    method Dedup(filter: set<string>, order: seq<Key>, apply: bool) returns (r: Reply<Stats>)
      modifies this
      ensures (Abs(), r) == Run(old(Abs()), filter, order, apply)
      ensures !apply ==> rows == old(rows) && r.Ok?
      ensures C.ScanOf(old(rows), order) ==>
                C.Weakened(old(rows), filter, rows) && (r.Ok? ==> C.Surveyed(old(rows), filter, r.value))
      ensures C.ScanOf(old(rows), order) && apply && r.Ok? && r.value.tally.errors == 0 ==> C.Collapsed(old(rows), filter, rows)
    {
      if C.ScanOf(rows, order) { C.RunWeakens(Abs(), filter, order, apply); }
      var ids, groups := Group(filter, order);
      var plan, dups := MakePlan(filter, order, ids, groups);
      if !apply { return Ok(Stats(|ids|, dups, Tally(0, 0, 0))); }
      var tally := ApplyPlan(plan);
      if tally.Raise? { return Raise; }
      return Ok(Stats(|ids|, dups, tally.value));
    }
  }

  /** What the plan and the count of duplicates still lack is what the ids from `i` on add. */
  ghost predicate PlannedTo(t: Table, filter: set<string>, order: seq<Key>, ids: seq<GroupId>, i: nat, plan: seq<Item>, dups: nat) {
    && i <= |ids|
    && plan + Plan(t, filter, order, ids[i..]) == Plan(t, filter, order, ids)
    && dups + Duplicates(t, filter, order, ids[i..]) == Duplicates(t, filter, order, ids)
  }

  lemma PlanStarts(t: Table, filter: set<string>, order: seq<Key>, ids: seq<GroupId>)
    ensures PlannedTo(t, filter, order, ids, 0, [], 0)
  {
    assert ids[0..] == ids && [] + Plan(t, filter, order, ids) == Plan(t, filter, order, ids);
  }

  lemma PlanEnds(t: Table, filter: set<string>, order: seq<Key>, ids: seq<GroupId>, plan: seq<Item>, dups: nat)
    requires PlannedTo(t, filter, order, ids, |ids|, plan, dups)
    ensures plan == Plan(t, filter, order, ids) && dups == Duplicates(t, filter, order, ids)
  {
    assert ids[|ids|..] == [] && plan + [] == plan;
  }

  lemma FromHere(t: Table, filter: set<string>, order: seq<Key>, ids: seq<GroupId>, i: nat)
    requires i < |ids|
    ensures var members := Members(t, filter, order, ids[i]);
            && Plan(t, filter, order, ids[i..])
               == (if |members| > 1 then [Collapse(t, members, ids[i].code)] else []) + Plan(t, filter, order, ids[i + 1..])
            && Duplicates(t, filter, order, ids[i..]) == (if |members| > 1 then |members| else 0) + Duplicates(t, filter, order, ids[i + 1..])
  {
    assert ids[i..][0] == ids[i] && ids[i..][1..] == ids[i + 1..];
  }

  lemma PlanStep(t: Table, filter: set<string>, order: seq<Key>, ids: seq<GroupId>, i: nat, plan: seq<Item>, dups: nat)
    requires i < |ids| && PlannedTo(t, filter, order, ids, i, plan, dups)
    ensures var members := Members(t, filter, order, ids[i]);
            if |members| > 1
            then PlannedTo(t, filter, order, ids, i + 1, plan + [Collapse(t, members, ids[i].code)], dups + |members|)
            else PlannedTo(t, filter, order, ids, i + 1, plan, dups)
  {
    FromHere(t, filter, order, ids, i);
    var members, rest := Members(t, filter, order, ids[i]), Plan(t, filter, order, ids[i + 1..]);
    if |members| > 1 {
      var item := Collapse(t, members, ids[i].code);
      assert plan + ([item] + rest) == (plan + [item]) + rest;
    } else {
      assert [] + rest == rest;
    }
  }

  lemma SeenIsListed(t: Table, filter: set<string>, order: seq<Key>, id: GroupId)
    requires Members(t, filter, order, id) != []
    ensures id in Ids(t, filter, order)
  {
    var k := Members(t, filter, order, id)[0];
    assert k in Members(t, filter, order, id) && k in order;
    var i :| 0 <= i < |order| && order[i] == k;
    IdsAppear(t, filter, order, id);
  }
}
