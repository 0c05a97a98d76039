/** Bringing event-catalog items to their desired signals: the patch computed for an item as a
    projection, and the run that writes the changed items back. */
module CatalogAlignment {
  import opened Prelude

  type Fields = seq<string>

  /** `rest` stands for every attribute the alignment does not name. */
  datatype Condition = Condition(jsonFields: Option<Fields>, rest: string)

  datatype Composite = Composite(conditions: Option<seq<Condition>>, rest: string)

  datatype Item = Item(eventId: string, conditionType: string, category: string, jsonFields: Option<Fields>,
                       composite: Option<Composite>, operator: Option<string>, threshold: Option<int>, rest: string)

  datatype Patch = Patch(idx: int, jsonFields: Fields)

  datatype Spec = Spec(simple: Option<Fields>, composite: Option<seq<Patch>>, op: Option<string>, val: Option<int>)

  // ---------------------------------------------------------------------------
  // The desired item
  // ---------------------------------------------------------------------------

  /** An index past the end is skipped; a negative one counts from the end, and raises past it. */
  function PatchOne(cs: seq<Condition>, p: Patch): (r: Reply<seq<Condition>>)
    ensures r.Ok? ==> |r.value| == |cs|
  {
    if p.idx >= |cs| then Ok(cs)
    else if p.idx < -|cs| then Raise
    else
      var i := if p.idx < 0 then |cs| + p.idx else p.idx;
      Ok(cs[i := cs[i].(jsonFields := Some(p.jsonFields))])
  }

  function PatchAll(cs: seq<Condition>, ps: seq<Patch>): (r: Reply<seq<Condition>>)
    ensures r.Ok? ==> |r.value| == |cs|
    decreases |ps|
  {
    if ps == [] then Ok(cs)
    else
      var first := PatchOne(cs, ps[0]);
      if first.Raise? then Raise else PatchAll(first.value, ps[1..])
  }

  method PatchInPlace(conditions: array<Condition>, ps: seq<Patch>) returns (ok: bool)
    modifies conditions
    ensures ok <==> PatchAll(old(conditions[..]), ps).Ok?
    ensures ok ==> conditions[..] == PatchAll(old(conditions[..]), ps).value
  {
    ghost var start := conditions[..];
    for i := 0 to |ps|
      invariant PatchAll(conditions[..], ps[i..]) == PatchAll(start, ps)
    {
      assert ps[i..][0] == ps[i] && ps[i..][1..] == ps[i + 1..];
      var n, idx := conditions.Length, ps[i].idx;
      if idx < n {
        if idx < -n { return false; }
        var at := if idx < 0 then n + idx else idx;
        conditions[at] := conditions[at].(jsonFields := Some(ps[i].jsonFields));
      }
    }
    return true;
  }

  const NO_COMPOSITE := Composite(None, "")

  function WithComposite(item: Item, ps: seq<Patch>): Reply<Item> {
    var cc := if item.composite.Some? then item.composite.value else NO_COMPOSITE;
    var patched := PatchAll(if cc.conditions.Some? then cc.conditions.value else [], ps);
    if patched.Raise? then Raise else Ok(item.(composite := Some(cc.(conditions := Some(patched.value)))))
  }

  function Filled(item: Item, spec: Spec): Item {
    var it := if spec.op.Some? && item.operator.None? then item.(operator := spec.op) else item;
    if spec.val.Some? && item.threshold.None? then it.(threshold := spec.val) else it
  }

  function ComputeDesired(item: Item, spec: Spec): Reply<Item> {
    var simple := if spec.simple.Some? then item.(jsonFields := spec.simple) else item;
    if spec.composite.Some? && item.conditionType == "composite" then
      var r := WithComposite(simple, spec.composite.value);
      if r.Raise? then Raise else Ok(Filled(r.value, spec))
    else Ok(Filled(simple, spec))
  }

  /** The names of the attributes that differ, among the four compared. */
  function Diff(before: Item, after: Item): set<string> {
    (if before.jsonFields != after.jsonFields then {"json_fields"} else {})
    + (if before.composite != after.composite then {"composite_condition"} else {})
    + (if before.operator != after.operator then {"threshold_operator"} else {})
    + (if before.threshold != after.threshold then {"threshold_value"} else {})
  }

  // ---------------------------------------------------------------------------
  // A projection
  // ---------------------------------------------------------------------------

  function Slot(idx: int, n: nat): Option<nat> {
    if idx >= n || n + idx < 0 then None else Some(if idx < 0 then n + idx else idx)
  }

  /** The last patch that reaches a slot decides it; an unreached slot is as it was. */
  function LastFor(ps: seq<Patch>, n: nat, i: nat): Option<Fields> {
    if ps == [] then None
    else if Slot(ps[|ps| - 1].idx, n) == Some(i) then Some(ps[|ps| - 1].jsonFields)
    else LastFor(ps[..|ps| - 1], n, i)
  }

  lemma {:induction false} LastForHead(ps: seq<Patch>, n: nat, i: nat)
    requires ps != []
    ensures LastFor(ps, n, i) ==
            if LastFor(ps[1..], n, i).Some? then LastFor(ps[1..], n, i)
            else if Slot(ps[0].idx, n) == Some(i) then Some(ps[0].jsonFields) else None
    decreases |ps|
  {
    if |ps| > 1 {
      var init := ps[..|ps| - 1];
      LastForHead(init, n, i);
      assert ps[1..][..|ps[1..]| - 1] == init[1..];
    } else {
      assert ps[..0] == [];
    }
  }

  predicate InReach(ps: seq<Patch>, n: nat) { forall k :: 0 <= k < |ps| ==> n + ps[k].idx >= 0 }

  /** Slot by slot: the last word on each, whatever the order, repeats and stray indices. */
  lemma {:induction false} PatchedSlots(cs: seq<Condition>, ps: seq<Patch>)
    ensures PatchAll(cs, ps).Ok? <==> InReach(ps, |cs|)
    ensures PatchAll(cs, ps).Ok? ==>
              forall i :: 0 <= i < |cs| ==>
                PatchAll(cs, ps).value[i] ==
                if LastFor(ps, |cs|, i).Some? then cs[i].(jsonFields := LastFor(ps, |cs|, i)) else cs[i]
    decreases |ps|
  {
    if ps != [] {
      assert forall k :: 0 < k < |ps| ==> ps[k] == ps[1..][k - 1];
      assert forall k :: 0 <= k < |ps[1..]| ==> ps[1..][k] == ps[k + 1];
      var first := PatchOne(cs, ps[0]);
      if first.Ok? {
        PatchedSlots(first.value, ps[1..]);
        forall i | 0 <= i < |cs|
          ensures first.value[i] == if Slot(ps[0].idx, |cs|) == Some(i) then cs[i].(jsonFields := Some(ps[0].jsonFields)) else cs[i]
        {
          LastForHead(ps, |cs|, i);
        }
        forall i | 0 <= i < |cs| && PatchAll(cs, ps).Ok?
          ensures PatchAll(cs, ps).value[i] ==
                  if LastFor(ps, |cs|, i).Some? then cs[i].(jsonFields := LastFor(ps, |cs|, i)) else cs[i]
        {
          LastForHead(ps, |cs|, i);
        }
      }
    }
  }

  lemma PatchingIsIdempotent(cs: seq<Condition>, ps: seq<Patch>)
    requires PatchAll(cs, ps).Ok?
    ensures PatchAll(PatchAll(cs, ps).value, ps) == PatchAll(cs, ps)
  {
    PatchedSlots(cs, ps);
    var once := PatchAll(cs, ps).value;
    PatchedSlots(once, ps);
    assert PatchAll(once, ps).value == once;
  }

  lemma DesiredIsFixed(item: Item, spec: Spec)
    requires ComputeDesired(item, spec).Ok?
    ensures ComputeDesired(ComputeDesired(item, spec).value, spec) == ComputeDesired(item, spec)
  {
    if spec.composite.Some? && item.conditionType == "composite" {
      var cc := if item.composite.Some? then item.composite.value else NO_COMPOSITE;
      PatchingIsIdempotent(if cc.conditions.Some? then cc.conditions.value else [], spec.composite.value);
    }
  }

  /** The desired item is a fixed point, and differs from the item in the four attributes only,
      in the conditions' fields only where a patch reaches. */
  lemma DesiredIsAProjection(item: Item, spec: Spec)
    requires ComputeDesired(item, spec).Ok?
    ensures var desired := ComputeDesired(item, spec).value;
            && ComputeDesired(desired, spec) == Ok(desired)
            && (Diff(item, desired) == {} <==> desired == item)
            && desired == item.(jsonFields := desired.jsonFields, composite := desired.composite,
                                operator := desired.operator, threshold := desired.threshold)
            && (item.operator.Some? ==> desired.operator == item.operator)
            && (item.threshold.Some? ==> desired.threshold == item.threshold)
  {
    DesiredIsFixed(item, spec);
    DesiredShape(item, spec);
    DiffNamesEach(item, ComputeDesired(item, spec).value);
  }

  lemma DesiredShape(item: Item, spec: Spec)
    requires ComputeDesired(item, spec).Ok?
    ensures var desired := ComputeDesired(item, spec).value;
            && desired == item.(jsonFields := desired.jsonFields, composite := desired.composite,
                                operator := desired.operator, threshold := desired.threshold)
            && (item.operator.Some? ==> desired.operator == item.operator)
            && (item.threshold.Some? ==> desired.threshold == item.threshold)
  {}

  function ConditionsOf(composite: Option<Composite>): seq<Condition> {
    if composite.Some? && composite.value.conditions.Some? then composite.value.conditions.value else []
  }

  /** Each condition has the fields of the last patch that reaches it, and its own where none does. */
  ghost predicate ConditionsMeet(before: Option<Composite>, ps: seq<Patch>, after: Option<Composite>) {
    var cs := ConditionsOf(before);
    && after.Some? && after.value.conditions.Some? && |after.value.conditions.value| == |cs|
    && after.value.rest == (if before.Some? then before.value.rest else "")
    && forall i :: 0 <= i < |cs| ==>
         after.value.conditions.value[i] == if LastFor(ps, |cs|, i).Some? then cs[i].(jsonFields := LastFor(ps, |cs|, i)) else cs[i]
  }

  /** `d` is the item as the spec asks for it, attribute by attribute. */
  ghost predicate Meets(item: Item, spec: Spec, d: Item) {
    && d.jsonFields == (if spec.simple.Some? then spec.simple else item.jsonFields)
    && d.operator == (if item.operator.Some? then item.operator else spec.op)
    && d.threshold == (if item.threshold.Some? then item.threshold else spec.val)
    && (if item.conditionType == "composite" && spec.composite.Some?
        then ConditionsMeet(item.composite, spec.composite.value, d.composite)
        else d.composite == item.composite)
    && d.eventId == item.eventId && d.conditionType == item.conditionType && d.category == item.category && d.rest == item.rest
  }

  /** The desired item is the one the spec asks for, and there is none exactly when a composite
      item's spec counts back past its first condition. */
  lemma DesiredMeetsTheSpec(item: Item, spec: Spec)
    ensures var r := ComputeDesired(item, spec);
            && (r.Raise? <==> item.conditionType == "composite" && spec.composite.Some?
                              && !InReach(spec.composite.value, |ConditionsOf(item.composite)|))
            && (r.Ok? ==> Meets(item, spec, r.value))
  {
    if spec.composite.Some? { CompositeMeets(item, spec.composite.value); }
  }

  lemma CompositeMeets(item: Item, ps: seq<Patch>)
    ensures var r := WithComposite(item, ps);
            && (r.Ok? <==> InReach(ps, |ConditionsOf(item.composite)|))
            && (r.Ok? ==> r.value == item.(composite := r.value.composite) && ConditionsMeet(item.composite, ps, r.value.composite))
  {
    PatchedSlots(ConditionsOf(item.composite), ps);
  }

  lemma DiffNamesEach(a: Item, b: Item)
    ensures Diff(a, b) == {} <==> a.jsonFields == b.jsonFields && a.composite == b.composite && a.operator == b.operator && a.threshold == b.threshold
  {
    if a.jsonFields != b.jsonFields { assert "json_fields" in Diff(a, b); }
    if a.composite != b.composite { assert "composite_condition" in Diff(a, b); }
    if a.operator != b.operator { assert "threshold_operator" in Diff(a, b); }
    if a.threshold != b.threshold { assert "threshold_value" in Diff(a, b); }
  }

  /** Composite items keep their condition count, and each condition no patch reaches. */
  lemma ConditionsAreKept(item: Item, spec: Spec)
    requires ComputeDesired(item, spec).Ok? && item.composite.Some? && item.composite.value.conditions.Some?
    ensures var before, desired := item.composite.value.conditions.value, ComputeDesired(item, spec).value;
            && desired.composite.Some? && desired.composite.value.conditions.Some?
            && |desired.composite.value.conditions.value| == |before|
            && forall i :: 0 <= i < |before| ==>
                 && desired.composite.value.conditions.value[i].rest == before[i].rest
                 && (spec.composite.None? || LastFor(spec.composite.value, |before|, i).None? ==>
                       desired.composite.value.conditions.value[i] == before[i])
  {
    if spec.composite.Some? { PatchedSlots(item.composite.value.conditions.value, spec.composite.value); }
  }

  // ---------------------------------------------------------------------------
  // The run
  // ---------------------------------------------------------------------------

  type Catalog = map<string, Item>

  datatype Fault = Fine | ClientError | Crash

  datatype State = State(catalog: Catalog, faults: seq<Fault>)

  predicate InScope(item: Item, category: string, wanted: map<string, Spec>) {
    item.conditionType != "canonical" && (category == "all" || item.category == category) && item.eventId in wanted
  }

  /** Items to write, in scan order; raises where a patch's index does. */
  function Changes(scan: seq<Item>, category: string, wanted: map<string, Spec>): Reply<seq<Item>> {
    if scan == [] then Ok([])
    else if !InScope(scan[0], category, wanted) then Changes(scan[1..], category, wanted)
    else
      var desired := ComputeDesired(scan[0], wanted[scan[0].eventId]);
      if desired.Raise? then Raise
      else
        var rest := Changes(scan[1..], category, wanted);
        if rest.Raise? then Raise
        else Ok((if Diff(scan[0], desired.value) != {} then [desired.value] else []) + rest.value)
  }

  function Put(s: State, item: Item): (State, Fault) {
    var fault := if s.faults == [] then Fine else s.faults[0];
    var t := if s.faults == [] then s else s.(faults := s.faults[1..]);
    (if fault == Fine then t.(catalog := t.catalog[item.eventId := item]) else t, fault)
  }

  function PutAll(s: State, items: seq<Item>): (State, Reply<nat>)
    decreases |items|
  {
    if items == [] then (s, Ok(0))
    else
      var (t, fault) := Put(s, items[0]);
      if fault == Crash then (t, Raise)
      else
        var (u, rest) := PutAll(t, items[1..]);
        (u, if rest.Raise? then Raise else Ok(rest.value + if fault == Fine then 0 else 1))
  }

  /** Exit code 0 or 1. */
  function Run(s: State, scan: seq<Item>, category: string, wanted: map<string, Spec>, apply: bool): (State, Reply<nat>) {
    var changes := Changes(scan, category, wanted);
    if changes.Raise? then (s, Raise)
    else if changes.value == [] || !apply then (s, Ok(0))
    else
      var (t, errors) := PutAll(s, changes.value);
      (t, if errors.Raise? then Raise else Ok(if errors.value > 0 then 1 else 0))
  }

  /** A scan lists each item once, under its own id. */
  ghost predicate ScanOf(c: Catalog, scan: seq<Item>) {
    && (forall id :: id in c ==> c[id].eventId == id && c[id] in scan)
    && (forall i :: 0 <= i < |scan| ==> scan[i].eventId in c && c[scan[i].eventId] == scan[i])
    && (forall i, j :: 0 <= i < j < |scan| ==> scan[i].eventId != scan[j].eventId)
  }

  function Aligned(item: Item, category: string, wanted: map<string, Spec>): Item {
    if InScope(item, category, wanted) && ComputeDesired(item, wanted[item.eventId]).Ok?
    then ComputeDesired(item, wanted[item.eventId]).value else item
  }

  lemma AlignedTwice(item: Item, category: string, wanted: map<string, Spec>)
    ensures Aligned(Aligned(item, category, wanted), category, wanted) == Aligned(item, category, wanted)
    ensures Aligned(item, category, wanted).eventId == item.eventId
    ensures InScope(Aligned(item, category, wanted), category, wanted) <==> InScope(item, category, wanted)
  {
    if InScope(item, category, wanted) && ComputeDesired(item, wanted[item.eventId]).Ok? {
      DesiredIsAProjection(item, wanted[item.eventId]);
    }
  }

  /** The changes are the aligned forms of the scanned items that differ from theirs. */
  lemma {:induction false} ChangesAreAligned(scan: seq<Item>, category: string, wanted: map<string, Spec>)
    ensures var r := Changes(scan, category, wanted);
            && (r.Ok? <==> forall i :: 0 <= i < |scan| && InScope(scan[i], category, wanted) ==>
                  ComputeDesired(scan[i], wanted[scan[i].eventId]).Ok?)
            && (r.Ok? ==> forall x :: x in r.value <==>
                  exists i :: 0 <= i < |scan| && Aligned(scan[i], category, wanted) != scan[i] && x == Aligned(scan[i], category, wanted))
  {
    if scan != [] {
      ChangesAreAligned(scan[1..], category, wanted);
      assert forall i :: 0 < i < |scan| ==> scan[i] == scan[1..][i - 1];
      assert forall i :: 0 <= i < |scan[1..]| ==> scan[1..][i] == scan[i + 1];
      if InScope(scan[0], category, wanted) && ComputeDesired(scan[0], wanted[scan[0].eventId]).Ok? {
        DesiredIsAProjection(scan[0], wanted[scan[0].eventId]);
      }
    }
  }

  /** Puts change only their own items, each to the item put. */
  lemma {:induction false} PutsAreOwn(s: State, items: seq<Item>)
    ensures var (t, r) := PutAll(s, items);
            && (forall id :: id in s.catalog ==>
                  id in t.catalog && (t.catalog[id] == s.catalog[id] || (t.catalog[id] in items && t.catalog[id].eventId == id)))
            && (forall id :: id in t.catalog && id !in s.catalog ==> exists x :: x in items && x.eventId == id)
    decreases |items|
  {
    if items != [] {
      var (t, fault) := Put(s, items[0]);
      assert items == [items[0]] + items[1..];
      if fault != Crash { PutsAreOwn(t, items[1..]); }
    }
  }

  /** An answer of no errors means every item is put; undisturbed, that is the answer. */
  lemma {:induction false} PutsAll(s: State, items: seq<Item>)
    requires forall i, j :: 0 <= i < |items| && 0 <= j < |items| && items[i].eventId == items[j].eventId ==> items[i] == items[j]
    ensures var (t, r) := PutAll(s, items);
            && (s.faults == [] ==> r == Ok(0) && t.faults == [])
            && (r == Ok(0) ==> forall x :: x in items ==> x.eventId in t.catalog && t.catalog[x.eventId] == x)
            && (forall id :: id in s.catalog && (forall x :: x in items ==> x.eventId != id) ==> id in t.catalog && t.catalog[id] == s.catalog[id])
    decreases |items|
  {
    if items != [] {
      var t := Put(s, items[0]).0;
      assert items == [items[0]] + items[1..];
      assert forall i :: 0 <= i < |items[1..]| ==> items[1..][i] == items[i + 1];
      PutsAll(t, items[1..]);
      forall x | x in items[1..] && x.eventId == items[0].eventId ensures x == items[0] {
        var i :| 0 <= i < |items[1..]| && items[1..][i] == x;
        assert items[i + 1] == x;
      }
    }
  }

  // ---------------------------------------------------------------------------
  // Main results
  // ---------------------------------------------------------------------------

  /** Every item as it was, or aligned. */
  ghost predicate PartlyAligned(c: Catalog, c1: Catalog, category: string, wanted: map<string, Spec>) {
    c1.Keys == c.Keys && forall id :: id in c ==> c1[id] == c[id] || c1[id] == Aligned(c[id], category, wanted)
  }

  lemma ChangedIds(c: Catalog, scan: seq<Item>, category: string, wanted: map<string, Spec>, x: Item)
    requires ScanOf(c, scan) && Changes(scan, category, wanted).Ok? && x in Changes(scan, category, wanted).value
    ensures x.eventId in c && x == Aligned(c[x.eventId], category, wanted) && x != c[x.eventId]
  {
    ChangesAreAligned(scan, category, wanted);
    var i :| 0 <= i < |scan| && Aligned(scan[i], category, wanted) != scan[i] && x == Aligned(scan[i], category, wanted);
    AlignedTwice(scan[i], category, wanted);
  }

  /** A run that fails anywhere leaves each item as it was or as desired; one that answers 0 under
      apply, as an undisturbed one of patches in reach does, leaves every item as desired. */
  lemma {:induction false} RunAligns(s: State, scan: seq<Item>, category: string, wanted: map<string, Spec>, apply: bool)
    requires ScanOf(s.catalog, scan)
    ensures var (t, r) := Run(s, scan, category, wanted, apply);
            && PartlyAligned(s.catalog, t.catalog, category, wanted)
            && (!apply ==> t == s)
            && (r.Raise? <== Changes(scan, category, wanted).Raise?)
            && (s.faults == [] && Changes(scan, category, wanted).Ok? ==> r == Ok(0) && t.faults == [])
            && (apply && r == Ok(0) ==> forall id :: id in s.catalog ==> t.catalog[id] == Aligned(s.catalog[id], category, wanted))
  {
    if Changes(scan, category, wanted).Raise? || !apply {
      NothingAligns(s.catalog, category, wanted);
    } else {
      PutsAlign(s, scan, category, wanted);
      AllAligned(s, scan, category, wanted);
      assert Changes(scan, category, wanted).value == [] ==> PutAll(s, Changes(scan, category, wanted).value) == (s, Ok(0));
    }
  }

  lemma NothingAligns(c: Catalog, category: string, wanted: map<string, Spec>)
    ensures PartlyAligned(c, c, category, wanted)
  {}

  lemma PutsAlign(s: State, scan: seq<Item>, category: string, wanted: map<string, Spec>)
    requires ScanOf(s.catalog, scan) && Changes(scan, category, wanted).Ok?
    ensures PartlyAligned(s.catalog, PutAll(s, Changes(scan, category, wanted).value).0.catalog, category, wanted)
  {
    var items := Changes(scan, category, wanted).value;
    forall x | x in items ensures x.eventId in s.catalog && x == Aligned(s.catalog[x.eventId], category, wanted) {
      ChangedIds(s.catalog, scan, category, wanted, x);
    }
    PutsAreOwn(s, items);
  }

  lemma DifferencesArePlanned(c: Catalog, scan: seq<Item>, category: string, wanted: map<string, Spec>)
    requires ScanOf(c, scan) && Changes(scan, category, wanted).Ok?
    ensures forall id :: id in c ==> Aligned(c[id], category, wanted).eventId == id
    ensures forall id :: id in c && Aligned(c[id], category, wanted) != c[id] ==>
              Aligned(c[id], category, wanted) in Changes(scan, category, wanted).value
  {
    forall id | id in c ensures Aligned(c[id], category, wanted).eventId == id { AlignedTwice(c[id], category, wanted); }
    forall id | id in c && Aligned(c[id], category, wanted) != c[id]
      ensures Aligned(c[id], category, wanted) in Changes(scan, category, wanted).value
    {
      ChangesAreAligned(scan, category, wanted);
      assert c[id] in scan;
      var i :| 0 <= i < |scan| && scan[i] == c[id];
    }
  }

  lemma AllAligned(s: State, scan: seq<Item>, category: string, wanted: map<string, Spec>)
    requires ScanOf(s.catalog, scan) && Changes(scan, category, wanted).Ok?
    ensures var (t, r) := PutAll(s, Changes(scan, category, wanted).value);
            && (s.faults == [] ==> r == Ok(0) && t.faults == [])
            && (r == Ok(0) ==> forall id :: id in s.catalog ==> id in t.catalog && t.catalog[id] == Aligned(s.catalog[id], category, wanted))
  {
    DifferencesArePlanned(s.catalog, scan, category, wanted);
    var items := Changes(scan, category, wanted).value;
    forall i, j | 0 <= i < |items| && 0 <= j < |items| && items[i].eventId == items[j].eventId ensures items[i] == items[j] {
      ChangedIds(s.catalog, scan, category, wanted, items[i]);
      ChangedIds(s.catalog, scan, category, wanted, items[j]);
    }
    PutsAll(s, items);
    forall id | id in s.catalog && Aligned(s.catalog[id], category, wanted) == s.catalog[id]
      ensures forall x :: x in items ==> x.eventId != id
    {
      forall x | x in items ensures x.eventId != id { ChangedIds(s.catalog, scan, category, wanted, x); }
    }
  }

  /** In the table's own terms: an undisturbed run under apply raises, writing nothing, exactly when
      some wanted composite item's spec counts back too far; a run that answers 0 under apply leaves
      each item that is wanted, of the category and not canonical as its spec asks, and every other
      item as it was. */
  lemma RunMeetsTheSpecs(s: State, scan: seq<Item>, category: string, wanted: map<string, Spec>, apply: bool)
    requires ScanOf(s.catalog, scan)
    ensures var (t, r) := Run(s, scan, category, wanted, apply);
            && t.catalog.Keys == s.catalog.Keys
            && (apply && r == Ok(0) ==> forall id :: id in s.catalog ==> LeftRight(s.catalog[id], category, wanted, t.catalog[id]))
            && (s.faults == [] ==> (r.Raise? <==> exists id :: id in s.catalog && TooFarBack(s.catalog[id], category, wanted)))
            && (s.faults == [] && r.Raise? ==> t == s) && (s.faults == [] && r.Ok? ==> r == Ok(0))
  {
    RunAligns(s, scan, category, wanted, apply);
    ChangesAreAligned(scan, category, wanted);
    forall id | id in s.catalog
      ensures LeftRight(s.catalog[id], category, wanted, Aligned(s.catalog[id], category, wanted)) || TooFarBack(s.catalog[id], category, wanted)
      ensures InScope(s.catalog[id], category, wanted) && ComputeDesired(s.catalog[id], wanted[id]).Raise? <==> TooFarBack(s.catalog[id], category, wanted)
    {
      if InScope(s.catalog[id], category, wanted) { DesiredMeetsTheSpec(s.catalog[id], wanted[id]); }
    }
    if Changes(scan, category, wanted).Ok? {
      forall id | id in s.catalog ensures !TooFarBack(s.catalog[id], category, wanted) {
        var i :| 0 <= i < |scan| && scan[i] == s.catalog[id];
      }
    }
  }

  predicate Wanted(item: Item, category: string, wanted: map<string, Spec>) {
    item.conditionType != "canonical" && (category == "all" || item.category == category) && item.eventId in wanted
  }

  ghost predicate LeftRight(item: Item, category: string, wanted: map<string, Spec>, d: Item) {
    if Wanted(item, category, wanted) then Meets(item, wanted[item.eventId], d) else d == item
  }

  predicate TooFarBack(item: Item, category: string, wanted: map<string, Spec>) {
    && Wanted(item, category, wanted) && item.conditionType == "composite" && wanted[item.eventId].composite.Some?
    && !InReach(wanted[item.eventId].composite.value, |ConditionsOf(item.composite)|)
  }

  /** After an undisturbed run, the next one, over any scan of the table, plans no write. */
  lemma NextRunPlansNothing(c: Catalog, scan: seq<Item>, again: seq<Item>, category: string, wanted: map<string, Spec>)
    requires ScanOf(c, scan) && Changes(scan, category, wanted).Ok?
    requires ScanOf(Run(State(c, []), scan, category, wanted, true).0.catalog, again)
    ensures Changes(again, category, wanted) == Ok([])
  {
    RunAligns(State(c, []), scan, category, wanted, true);
    var c1 := Run(State(c, []), scan, category, wanted, true).0.catalog;
    ChangesAreAligned(scan, category, wanted);
    forall i | 0 <= i < |again|
      ensures Aligned(again[i], category, wanted) == again[i]
      ensures InScope(again[i], category, wanted) ==> ComputeDesired(again[i], wanted[again[i].eventId]).Ok?
    {
      var item := c[again[i].eventId];
      assert again[i] == Aligned(item, category, wanted);
      AlignedTwice(item, category, wanted);
      assert item in scan;
      var j :| 0 <= j < |scan| && scan[j] == item;
      if InScope(item, category, wanted) { DesiredIsAProjection(item, wanted[item.eventId]); }
    }
    NothingChanges(again, category, wanted);
  }

  lemma {:induction false} NothingChanges(scan: seq<Item>, category: string, wanted: map<string, Spec>)
    requires forall i :: 0 <= i < |scan| ==>
               && Aligned(scan[i], category, wanted) == scan[i]
               && (InScope(scan[i], category, wanted) ==> ComputeDesired(scan[i], wanted[scan[i].eventId]).Ok?)
    ensures Changes(scan, category, wanted) == Ok([])
  {
    if scan != [] {
      assert forall i :: 0 <= i < |scan[1..]| ==> scan[1..][i] == scan[i + 1];
      NothingChanges(scan[1..], category, wanted);
      if InScope(scan[0], category, wanted) {
        assert Aligned(scan[0], category, wanted) == scan[0];
        assert ComputeDesired(scan[0], wanted[scan[0].eventId]) == Ok(scan[0]);
        DiffNamesEach(scan[0], scan[0]);
        assert [] + Changes(scan[1..], category, wanted).value == [];
      }
    }
  }

  class CatalogTable {
    var catalog: Catalog
    var faults: seq<Fault>

    constructor (catalog: Catalog, faults: seq<Fault>)
      ensures Abs() == State(catalog, faults)
    {
      this.catalog, this.faults := catalog, faults;
    }

    function Abs(): State reads this { State(catalog, faults) }

    method PutItem(item: Item) returns (fault: Fault)
      modifies this
      ensures (Abs(), fault) == Put(old(Abs()), item)
    {
      fault := Fine;
      if faults != [] {
        fault := faults[0];
        faults := faults[1..];
      }
      if fault == Fine { catalog := catalog[item.eventId := item]; }
    }

    method PlanChanges(scan: seq<Item>, category: string, wanted: map<string, Spec>) returns (r: Reply<seq<Item>>)
      ensures r == Changes(scan, category, wanted)
    {
      var changes: seq<Item> := [];
      assert scan[0..] == scan;
      ghost var all := Changes(scan, category, wanted);
      assert all.Ok? ==> changes + all.value == all.value;
      for i := 0 to |scan|
        invariant all == (var rest := Changes(scan[i..], category, wanted);
                          if rest.Raise? then Raise else Ok(changes + rest.value))
      {
        assert scan[i..][0] == scan[i] && scan[i..][1..] == scan[i + 1..];
        if InScope(scan[i], category, wanted) {
          var desired := ComputeDesired(scan[i], wanted[scan[i].eventId]);
          if desired.Raise? { return Raise; }
          if Diff(scan[i], desired.value) != {} {
            ghost var rest := Changes(scan[i + 1..], category, wanted);
            if rest.Ok? { assert changes + ([desired.value] + rest.value) == (changes + [desired.value]) + rest.value; }
            changes := changes + [desired.value];
          } else {
            ghost var rest := Changes(scan[i + 1..], category, wanted);
            if rest.Ok? { assert [] + rest.value == rest.value; }
          }
        }
      }
      assert changes + [] == changes;
      return Ok(changes);
    }

    method Align(scan: seq<Item>, category: string, wanted: map<string, Spec>, apply: bool) returns (r: Reply<nat>)
      modifies this
      ensures (Abs(), r) == Run(old(Abs()), scan, category, wanted, apply)
      ensures !apply ==> catalog == old(catalog)
      ensures ScanOf(old(catalog), scan) ==> PartlyAligned(old(catalog), catalog, category, wanted)
      ensures ScanOf(old(catalog), scan) && apply && r == Ok(0) ==>
                forall id :: id in catalog ==> LeftRight(old(catalog)[id], category, wanted, catalog[id])
    {
      if ScanOf(catalog, scan) {
        RunAligns(Abs(), scan, category, wanted, apply);
        RunMeetsTheSpecs(Abs(), scan, category, wanted, apply);
      }
      var changes := PlanChanges(scan, category, wanted);
      if changes.Raise? { return Raise; }
      if changes.value == [] || !apply { return Ok(0); }
      var errors := 0;
      ghost var start := Abs();
      for i := 0 to |changes.value|
        invariant var (t, rest) := PutAll(Abs(), changes.value[i..]);
                  PutAll(start, changes.value) == (t, if rest.Raise? then Raise else Ok(errors + rest.value))
      {
        assert changes.value[i..][0] == changes.value[i] && changes.value[i..][1..] == changes.value[i + 1..];
        var fault := PutItem(changes.value[i]);
        if fault == Crash { return Raise; }
        if fault != Fine { errors := errors + 1; }
      }
      return Ok(if errors > 0 then 1 else 0);
    }
  }
}
