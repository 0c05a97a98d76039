/** Backfilling campaign owners: the recursive classification, and why any history of partial
    runs ends in the one assignment the first snapshot determines. */
module CampaignOwner {
  import opened Prelude

  const TELEMETRY_TEMPLATE := "cms-fleet-gps-10s"

  /** `owner` is None when the attribute is absent, and "" when it is there but not a string. */
  datatype Row = Row(target: string, name: string, source: string, owner: Option<string>)

  type Table = map<string, Row>

  /** `Deep` is a recursion that does not come back. */
  datatype Verdict = Deep | Keep | Propose(owner: string)

  /** Rule 3 applies: the row's owner is its source campaign's. */
  predicate Inherits(t: Table, row: Row) {
    && row.owner.None? && row.target != "template" && row.name != TELEMETRY_TEMPLATE
    && row.source != "" && row.source in t
  }

  function InheritedOwner(parent: Row, verdict: Verdict): Verdict {
    match verdict
    case Deep => Deep
    case Propose(o) => Propose(o)
    case Keep => Propose(if parent.owner.Some? && parent.owner.value != "" then parent.owner.value else "oem")
  }

  /** The classification, cut off after `fuel` steps to a source campaign. */
  function ClassifyWithin(t: Table, row: Row, fuel: nat): Verdict
    decreases fuel
  {
    if row.owner.Some? then Keep
    else if row.target == "template" then Propose("oem")
    else if row.name == TELEMETRY_TEMPLATE then Propose("platform")
    else if row.source != "" && row.source in t then
      if fuel == 0 then Deep else InheritedOwner(t[row.source], ClassifyWithin(t, t[row.source], fuel - 1))
    else Propose("oem")
  }

  /** The recursion comes back. */
  ghost predicate Halts(t: Table, row: Row) { exists fuel: nat :: ClassifyWithin(t, row, fuel) != Deep }

  function Classify(t: Table, row: Row): Verdict { ClassifyWithin(t, row, |t|) }

  // ---------------------------------------------------------------------------
  // The recursion comes back exactly when it does within as many steps as there are rows
  // ---------------------------------------------------------------------------

  /** The source campaigns visited. */
  function Trail(t: Table, row: Row, fuel: nat): seq<string>
    requires ClassifyWithin(t, row, fuel) != Deep
    decreases fuel
  {
    if Inherits(t, row) then [row.source] + Trail(t, t[row.source], fuel - 1) else []
  }

  lemma {:induction false} FuelDoesNotMatter(t: Table, row: Row, f: nat, g: nat)
    requires ClassifyWithin(t, row, f) != Deep && ClassifyWithin(t, row, g) != Deep
    ensures ClassifyWithin(t, row, f) == ClassifyWithin(t, row, g) && Trail(t, row, f) == Trail(t, row, g)
    decreases f
  {
    if Inherits(t, row) { FuelDoesNotMatter(t, t[row.source], f - 1, g - 1); }
  }

  lemma {:induction false} TrailIsEnough(t: Table, row: Row, f: nat, g: nat)
    requires ClassifyWithin(t, row, f) != Deep && |Trail(t, row, f)| <= g
    ensures ClassifyWithin(t, row, g) != Deep
    decreases f
  {
    if Inherits(t, row) { TrailIsEnough(t, t[row.source], f - 1, g - 1); }
  }

  lemma {:induction false} TrailContinues(t: Table, row: Row, f: nat, i: nat)
    requires ClassifyWithin(t, row, f) != Deep && i < |Trail(t, row, f)|
    ensures var id := Trail(t, row, f)[i];
            && id in t && i < f && ClassifyWithin(t, t[id], f - 1 - i) != Deep
            && |Trail(t, t[id], f - 1 - i)| == |Trail(t, row, f)| - 1 - i
    decreases f
  {
    if i > 0 { TrailContinues(t, t[row.source], f - 1, i - 1); }
  }

  /** No campaign is visited twice: the way on from it has one length. */
  lemma TrailIsDistinct(t: Table, row: Row, f: nat, i: nat, j: nat)
    requires ClassifyWithin(t, row, f) != Deep && i < j < |Trail(t, row, f)|
    ensures Trail(t, row, f)[i] != Trail(t, row, f)[j]
  {
    TrailContinues(t, row, f, i);
    TrailContinues(t, row, f, j);
    var id := Trail(t, row, f)[i];
    if id == Trail(t, row, f)[j] { FuelDoesNotMatter(t, t[id], f - 1 - i, f - 1 - j); }
  }

  lemma {:induction false} DistinctFits(ids: seq<string>, pool: set<string>)
    requires forall i :: 0 <= i < |ids| ==> ids[i] in pool
    requires forall i, j :: 0 <= i < j < |ids| ==> ids[i] != ids[j]
    ensures |ids| <= |pool|
    decreases |ids|
  {
    if ids != [] {
      var last := ids[|ids| - 1];
      DistinctFits(ids[..|ids| - 1], pool - {last});
    }
  }

  /** The campaign at the end of the source links: the first that does not inherit. */
  function Origin(t: Table, row: Row, fuel: nat): Row
    requires ClassifyWithin(t, row, fuel) != Deep
    decreases fuel
  {
    if Inherits(t, row) then Origin(t, t[row.source], fuel - 1) else row
  }

  /** Whose campaign it is by itself: its recorded owner, else the platform's if it was made from
      the telemetry template and is no template. */
  function OwnOwner(row: Row): string {
    if row.owner.Some? && row.owner.value != "" then row.owner.value
    else if row.owner.None? && row.target != "template" && row.name == TELEMETRY_TEMPLATE then "platform"
    else "oem"
  }

  /** However long the chain, a campaign is given the owner of the one it goes back to. */
  lemma {:induction false} OwnerIsTheOrigins(t: Table, row: Row, fuel: nat)
    requires ClassifyWithin(t, row, fuel) != Deep && row.owner.None?
    ensures ClassifyWithin(t, row, fuel) == Propose(OwnOwner(Origin(t, row, fuel)))
    ensures !Inherits(t, Origin(t, row, fuel))
    decreases fuel
  {
    if Inherits(t, row) {
      var parent := t[row.source];
      if parent.owner.None? { OwnerIsTheOrigins(t, parent, fuel - 1); }
    }
  }

  /** Termination is decidable from the snapshot: the recursion comes back if and only if it
      does within as many steps as there are rows. */
  lemma HaltsWithinTable(t: Table, row: Row)
    ensures Halts(t, row) <==> Classify(t, row) != Deep
  {
    if fuel: nat :| ClassifyWithin(t, row, fuel) != Deep {
      var trail := Trail(t, row, fuel);
      forall i | 0 <= i < |trail| ensures trail[i] in t.Keys { TrailContinues(t, row, fuel, i); }
      forall i, j | 0 <= i < j < |trail| ensures trail[i] != trail[j] { TrailIsDistinct(t, row, fuel, i, j); }
      DistinctFits(trail, t.Keys);
      TrailIsEnough(t, row, fuel, |t|);
    }
  }

  // ---------------------------------------------------------------------------
  // What in the source links makes it come back
  // ---------------------------------------------------------------------------

  /** Campaigns that all inherit, each from one of them: no way out along the links. */
  ghost predicate Trap(t: Table, ids: set<string>) {
    ids != {} && forall id :: id in ids ==> id in t && Inherits(t, t[id]) && t[id].source in ids
  }

  ghost predicate WellFounded(t: Table) { forall ids: set<string> :: !Trap(t, ids) }

  lemma {:induction false} TrappedIsDeep(t: Table, ids: set<string>, row: Row, fuel: nat)
    requires Trap(t, ids) && Inherits(t, row) && row.source in ids
    ensures ClassifyWithin(t, row, fuel) == Deep
    decreases fuel
  {
    if fuel > 0 { TrappedIsDeep(t, ids, t[row.source], fuel - 1); }
  }

  /** The campaigns whose own classification does not come back. */
  ghost function Endless(t: Table): set<string> { set id | id in t && Classify(t, t[id]) == Deep }

  lemma DeepInheritsFromDeep(t: Table, row: Row)
    requires Classify(t, row) == Deep
    ensures Inherits(t, row) && row.source in Endless(t)
  {
    if Classify(t, t[row.source]) != Deep {
      assert ClassifyWithin(t, row, |t| + 1) != Deep;
      HaltsWithinTable(t, row);
    }
  }

  /** A campaign's classification comes back exactly when its links do not lead into a trap. */
  lemma HaltsExactly(t: Table, row: Row)
    ensures Halts(t, row) <==> !(Inherits(t, row) && exists ids :: Trap(t, ids) && row.source in ids)
  {
    HaltsWithinTable(t, row);
    if Classify(t, row) == Deep {
      DeepInheritsFromDeep(t, row);
      EndlessIsATrap(t);
    }
    if Inherits(t, row) && exists ids :: Trap(t, ids) && row.source in ids {
      var ids :| Trap(t, ids) && row.source in ids;
      TrappedIsDeep(t, ids, row, |t|);
    }
  }

  lemma EndlessIsATrap(t: Table)
    ensures Endless(t) != {} ==> Trap(t, Endless(t))
  {
    forall id | id in Endless(t) ensures Inherits(t, t[id]) && t[id].source in Endless(t) { DeepInheritsFromDeep(t, t[id]); }
  }

  ghost predicate AllHalt(t: Table) { forall id :: id in t ==> Classify(t, t[id]) != Deep }

  /** Every campaign classifies exactly when the source links are well-founded. */
  lemma AllHaltExactly(t: Table)
    ensures AllHalt(t) <==> WellFounded(t)
  {
    EndlessIsATrap(t);
    if WellFounded(t) {
      forall id | id in t ensures Classify(t, t[id]) != Deep { assert id in Endless(t) <==> Classify(t, t[id]) == Deep; }
    } else {
      var ids :| Trap(t, ids);
      var id :| id in ids;
      TrappedIsDeep(t, ids, t[id], |t|);
    }
  }

  /** A source cycle of any length, one included, in which no campaign has an owner or is decided
      by its target or name: none of its campaigns is ever classified. */
  lemma SourceCycleNeverHalts(t: Table, cycle: seq<string>, i: nat)
    requires i < |cycle|
    requires forall k :: 0 <= k < |cycle| ==>
               cycle[k] in t && Inherits(t, t[cycle[k]]) && t[cycle[k]].source == cycle[if k + 1 < |cycle| then k + 1 else 0]
    ensures !Halts(t, t[cycle[i]]) && !WellFounded(t)
  {
    var ids := set k | 0 <= k < |cycle| :: cycle[k];
    assert cycle[i] in ids;
    forall id | id in ids ensures id in t && Inherits(t, t[id]) && t[id].source in ids {
      var k :| 0 <= k < |cycle| && cycle[k] == id;
      var next := if k + 1 < |cycle| then k + 1 else 0;
      assert t[id].source == cycle[next];
    }
    assert Trap(t, ids);
    forall fuel: nat ensures ClassifyWithin(t, t[cycle[i]], fuel) == Deep { TrappedIsDeep(t, ids, t[cycle[i]], fuel); }
  }

  // ---------------------------------------------------------------------------
  // The documented rule for inherited owners
  // ---------------------------------------------------------------------------

  /** What target and name alone make of a campaign: rules 1, 2 and 4. */
  function RuleOwner(row: Row): string {
    if row.target != "template" && row.name == TELEMETRY_TEMPLATE then "platform" else "oem"
  }

  /** Rule 3 as documented: the source campaign's owner by its target and name. */
  function DocumentedOwner(t: Table, row: Row): string {
    if Inherits(t, row) then RuleOwner(t[row.source]) else RuleOwner(row)
  }

  /** Code and documentation agree on an ownerless campaign exactly when it does not inherit, or
      the source's recorded owner, or else that of the source's origin, is the one the source's
      own target and name give. */
  lemma AgreesWithDocumentationExactly(t: Table, row: Row, fuel: nat)
    requires ClassifyWithin(t, row, fuel) != Deep && row.owner.None?
    ensures ClassifyWithin(t, row, fuel) == Propose(DocumentedOwner(t, row)) <==>
              (Inherits(t, row) ==> OwnOwner(Origin(t, t[row.source], fuel - 1)) == RuleOwner(t[row.source]))
  {
    OwnerIsTheOrigins(t, row, fuel);
  }

  /** A campaign sourced from one another fleet owns is given that owner, not the documented one. */
  lemma RecordedOwnerIsInherited()
    ensures var t := map["p" := Row("all", "promo", "", Some("fleet-7")), "c" := Row("all", "promo", "p", None)];
            Classify(t, t["c"]) == Propose("fleet-7") && DocumentedOwner(t, t["c"]) == "oem"
  {
    var t := map["p" := Row("all", "promo", "", Some("fleet-7")), "c" := Row("all", "promo", "p", None)];
    assert "promo" != TELEMETRY_TEMPLATE && "all" != "template" && "p" != "c" by {
      assert "promo"[0] != TELEMETRY_TEMPLATE[0] && "all"[0] != "template"[0] && "p"[0] != "c"[0];
    }
    assert |t.Keys| > 0;
    assert ClassifyWithin(t, t["c"], 1) == Propose("fleet-7");
    OwnerIsTheOrigins(t, t["c"], 1);
    HaltsWithinTable(t, t["c"]);
    FuelDoesNotMatter(t, t["c"], 1, |t|);
  }

  lemma {:induction false} ProposalsAreNotEmpty(t: Table, row: Row, fuel: nat)
    ensures var v := ClassifyWithin(t, row, fuel); v.Propose? ==> v.owner != ""
    decreases fuel
  {
    if Inherits(t, row) && fuel > 0 { ProposalsAreNotEmpty(t, t[row.source], fuel - 1); }
  }

  // ---------------------------------------------------------------------------
  // Confluence
  // ---------------------------------------------------------------------------

  ghost predicate Avoids(trail: seq<string>, claimed: set<string>) { forall i :: 0 <= i < |trail| ==> trail[i] !in claimed }

  /** A campaign no one else claims, nor any campaign its owner may come from. */
  ghost predicate Clear(t: Table, claimed: set<string>, id: string) {
    && id in t && id !in claimed && Classify(t, t[id]) != Deep && Avoids(Trail(t, t[id], |t|), claimed)
  }

  /** Only owners are new: a clear campaign's is what `t` proposes for it, a claimed one's is
      anybody's, and none that was there is lost or, unless claimed, changed. */
  ghost predicate Filled(t: Table, claimed: set<string>, u: Table) {
    && u.Keys == t.Keys
    && (forall id :: id in t ==> u[id] == t[id].(owner := u[id].owner))
    && (forall id :: id in t && t[id].owner.Some? ==> u[id].owner.Some? && (id !in claimed ==> u[id] == t[id]))
    && (forall id :: Clear(t, claimed, id) ==>
          || u[id] == t[id]
          || (Classify(t, t[id]).Propose? && u[id] == t[id].(owner := Some(Classify(t, t[id]).owner))))
  }

  lemma TrailTail(t: Table, claimed: set<string>, row: Row, fuel: nat)
    requires ClassifyWithin(t, row, fuel) != Deep && Inherits(t, row)
    requires Avoids(Trail(t, row, fuel), claimed)
    ensures Clear(t, claimed, row.source) && Classify(t, t[row.source]) == ClassifyWithin(t, t[row.source], fuel - 1)
    ensures Trail(t, t[row.source], |t|) == Trail(t, t[row.source], fuel - 1)
  {
    var parent := t[row.source];
    HaltsWithinTable(t, parent);
    FuelDoesNotMatter(t, parent, fuel - 1, |t|);
    var rest := Trail(t, parent, fuel - 1);
    assert Trail(t, row, fuel)[0] == row.source;
    forall i | 0 <= i < |rest| ensures rest[i] !in claimed { assert Trail(t, row, fuel)[i + 1] == rest[i]; }
  }

  /** Written owners, and claims elsewhere, do not change what a remaining campaign gets. */
  lemma {:induction false} ClassificationSurvivesWrites(t: Table, claimed: set<string>, u: Table, row: Row, fuel: nat)
    requires Filled(t, claimed, u) && ClassifyWithin(t, row, fuel) != Deep
    requires Avoids(Trail(t, row, fuel), claimed)
    ensures ClassifyWithin(u, row, fuel) == ClassifyWithin(t, row, fuel)
    decreases fuel
  {
    if Inherits(t, row) {
      var parent := t[row.source];
      TrailTail(t, claimed, row, fuel);
      ClassificationSurvivesWrites(t, claimed, u, parent, fuel - 1);
      if u[row.source] != parent { ProposalsAreNotEmpty(t, parent, |t|); }
    }
  }

  /** What another writer's claim of one campaign does: those that look to it for their owner get
      the claimed one, all others what they would have got. */
  lemma {:induction false} ClaimReachesItsHeirs(t: Table, row: Row, fuel: nat, id: string, owner: string)
    requires ClassifyWithin(t, row, fuel) != Deep && row.owner.None? && id in t
    ensures ClassifyWithin(Claim(t, map[id := owner]), row, fuel) ==
            if id in Trail(t, row, fuel) then Propose(if owner != "" then owner else "oem") else ClassifyWithin(t, row, fuel)
    decreases fuel
  {
    if Inherits(t, row) {
      var parent := t[row.source];
      if row.source != id && parent.owner.None? { ClaimReachesItsHeirs(t, parent, fuel - 1, id, owner); }
    }
  }

  /** The assignment the snapshot determines. */
  function Target(t: Table): Table {
    map id | id in t :: if Classify(t, t[id]).Propose? then t[id].(owner := Some(Classify(t, t[id]).owner)) else t[id]
  }

  lemma SameSize(t: Table, u: Table)
    requires u.Keys == t.Keys
    ensures |u| == |t|
  {
    assert |t.Keys| == |t| && |u.Keys| == |u|;
  }

  lemma SameClassification(t: Table, claimed: set<string>, u: Table)
    requires Filled(t, claimed, u)
    ensures forall id :: Clear(t, claimed, id) && u[id] == t[id] ==> Classify(u, u[id]) == Classify(t, t[id])
  {
    SameSize(t, u);
    forall id | Clear(t, claimed, id) && u[id] == t[id] ensures Classify(u, u[id]) == Classify(t, t[id]) {
      ClassificationSurvivesWrites(t, claimed, u, t[id], |t|);
    }
  }

  /** A partly filled table still has well-founded links, and gives every clear campaign without
      an owner what the first snapshot gave it; unclaimed, it has the same assignment. */
  lemma SameTarget(t: Table, claimed: set<string>, u: Table)
    requires Filled(t, claimed, u)
    ensures WellFounded(t) ==> WellFounded(u)
    ensures forall id :: Clear(t, claimed, id) && u[id] == t[id] ==> Classify(u, u[id]) == Classify(t, t[id])
    ensures WellFounded(t) && claimed == {} ==> Target(u) == Target(t)
  {
    SameLinks(t, claimed, u);
    SameClassification(t, claimed, u);
    if WellFounded(t) && claimed == {} {
      AllHaltExactly(t);
      forall id | id in t ensures Target(u)[id] == Target(t)[id] { assert Clear(t, claimed, id); }
    }
  }

  lemma SameLinks(t: Table, claimed: set<string>, u: Table)
    requires Filled(t, claimed, u)
    ensures WellFounded(t) ==> WellFounded(u)
  {
    forall ids | Trap(u, ids) ensures Trap(t, ids) { SameTrap(t, claimed, u, ids); }
  }

  lemma SameTrap(t: Table, claimed: set<string>, u: Table, ids: set<string>)
    requires Filled(t, claimed, u) && Trap(u, ids)
    ensures Trap(t, ids)
  {
    forall id | id in ids ensures id in t && Inherits(t, t[id]) && t[id].source in ids {
      assert u[id] == t[id].(owner := u[id].owner);
    }
  }

  // ---------------------------------------------------------------------------
  // Runs
  // ---------------------------------------------------------------------------

  datatype Fault = Fine | ClientError | Crash

  /** Before a write, other writers may claim rows; the write itself may fail or never happen. */
  datatype Turn = Turn(claims: map<string, string>, fault: Fault)

  datatype State = State(table: Table, turns: seq<Turn>)

  datatype Stats = Stats(written: nat, alreadySet: nat, failed: nat)

  datatype Proposal = Proposal(id: string, owner: string)

  function Claim(t: Table, claims: map<string, string>): Table {
    map id | id in t :: if id in claims then t[id].(owner := Some(claims[id])) else t[id]
  }

  function Arrive(s: State): State {
    if s.turns == [] then s else State(Claim(s.table, s.turns[0].claims), s.turns[1..])
  }

  function FaultOf(s: State): Fault { if s.turns == [] then Fine else s.turns[0].fault }

  /** The update guarded by `attribute_not_exists(owner)`. */
  function ApplyUpdate(s: State, p: Proposal, stats: Stats): (State, Reply<Stats>) {
    var t := Arrive(s);
    match FaultOf(s)
    case Crash => (t, Raise)
    case ClientError => (t, Ok(stats.(failed := stats.failed + 1)))
    case Fine =>
      if p.id in t.table && t.table[p.id].owner.Some? then (t, Ok(stats.(alreadySet := stats.alreadySet + 1)))
      else if p.id in t.table then
        (t.(table := t.table[p.id := t.table[p.id].(owner := Some(p.owner))]), Ok(stats.(written := stats.written + 1)))
      else (t, Ok(stats.(written := stats.written + 1)))
  }

  function ApplyAll(s: State, proposals: seq<Proposal>, stats: Stats): (State, Reply<Stats>)
    decreases |proposals|
  {
    if proposals == [] then (s, Ok(stats))
    else
      var (s1, r) := ApplyUpdate(s, proposals[0], stats);
      if r.Raise? then (s1, Raise) else ApplyAll(s1, proposals[1..], r.value)
  }

  /** What the snapshot proposes for the rows in this order; raises on a recursion that does
      not come back. */
  function Proposals(t: Table, order: seq<string>): Reply<seq<Proposal>>
    decreases |order|
  {
    if order == [] then Ok([])
    else if order[0] !in t then Proposals(t, order[1..])
    else
      var verdict := Classify(t, t[order[0]]);
      var rest := Proposals(t, order[1..]);
      if verdict.Deep? || rest.Raise? then Raise
      else Ok((if verdict.Propose? then [Proposal(order[0], verdict.owner)] else []) + rest.value)
  }

  /** `order` lists the table's campaigns, each once. */
  ghost predicate Lists(order: seq<string>, t: Table) {
    && (forall id :: id in order <==> id in t)
    && (forall i, j :: 0 <= i < j < |order| ==> order[i] != order[j])
  }

  /** Exit code 0, or 1 when an update failed; a dry run only proposes. */
  function Run(s: State, order: seq<string>, dryRun: bool): (State, Reply<nat>)
  {
    var proposals := Proposals(s.table, order);
    if proposals.Raise? then (s, Raise)
    else if dryRun || proposals.value == [] then (s, Ok(0))
    else
      var (s1, stats) := ApplyAll(s, proposals.value, Stats(0, 0, 0));
      (s1, if stats.Raise? then Raise else Ok(if stats.value.failed > 0 then 1 else 0))
  }

  lemma {:induction false} ProposalsAreExact(t: Table, order: seq<string>)
    ensures Proposals(t, order).Raise? <==> exists id :: id in order && id in t && Classify(t, t[id]) == Deep
    ensures Proposals(t, order).Ok? ==>
              && (forall p :: p in Proposals(t, order).value ==> p.id in order && p.id in t && Classify(t, t[p.id]) == Propose(p.owner))
              && (forall id :: id in order && id in t && Classify(t, t[id]).Propose? ==>
                    Proposal(id, Classify(t, t[id]).owner) in Proposals(t, order).value)
    decreases |order|
  {
    if order != [] {
      assert order[0] in order;
      ProposalsAreExact(t, order[1..]);
    }
  }

  /** Every claim still to come is of one of these. */
  ghost predicate ClaimsAmong(turns: seq<Turn>, claimed: set<string>) {
    forall i :: 0 <= i < |turns| ==> turns[i].claims.Keys <= claimed
  }

  lemma ArriveFills(t: Table, claimed: set<string>, s: State)
    requires Filled(t, claimed, s.table) && ClaimsAmong(s.turns, claimed)
    ensures Filled(t, claimed, Arrive(s).table) && ClaimsAmong(Arrive(s).turns, claimed)
    ensures OwnersStay(s.table, Arrive(s).table)
  {
    if s.turns != [] {
      forall i | 0 <= i < |s.turns[1..]| ensures s.turns[1..][i].claims.Keys <= claimed { assert s.turns[1..][i] == s.turns[i + 1]; }
      forall id | id in t && id !in claimed ensures Arrive(s).table[id] == s.table[id] {
        assert id !in s.turns[0].claims.Keys;
      }
    }
  }

  predicate Owned(t: Table, id: string) { id in t && t[id].owner.Some? }

  /** Owners are not lost. */
  ghost predicate OwnersStay(t: Table, u: Table) { forall id :: Owned(t, id) ==> Owned(u, id) }

  /** What is proposed is what the first snapshot proposes, where that is clear. */
  ghost predicate Faithful(t: Table, claimed: set<string>, p: Proposal) {
    p.id in t && (Clear(t, claimed, p.id) ==> Classify(t, t[p.id]) == Propose(p.owner))
  }

  lemma UpdateFills(t: Table, claimed: set<string>, s: State, p: Proposal, stats: Stats)
    requires Filled(t, claimed, s.table) && ClaimsAmong(s.turns, claimed) && Faithful(t, claimed, p)
    ensures var (s1, r) := ApplyUpdate(s, p, stats);
            && Filled(t, claimed, s1.table) && ClaimsAmong(s1.turns, claimed)
            && OwnersStay(s.table, s1.table)
            && (r.Ok? ==> r.value.failed >= stats.failed)
            && (r.Ok? && r.value.failed == stats.failed ==> Owned(s1.table, p.id))
  {
    ArriveFills(t, claimed, s);
    var u, s1 := Arrive(s).table, ApplyUpdate(s, p, stats).0;
    if s1.table != u { OwnerFills(t, claimed, u, p); }
  }

  lemma OwnerFills(t: Table, claimed: set<string>, u: Table, p: Proposal)
    requires Filled(t, claimed, u) && Faithful(t, claimed, p) && u[p.id].owner.None?
    ensures Filled(t, claimed, u[p.id := u[p.id].(owner := Some(p.owner))])
  {
    assert t[p.id].owner.None?;
  }

  /** Writing what is proposed onto a table it is being filled in. */
  lemma {:induction false} ApplyFills(t: Table, claimed: set<string>, s: State, proposals: seq<Proposal>, stats: Stats)
    requires Filled(t, claimed, s.table) && ClaimsAmong(s.turns, claimed)
    requires forall i :: 0 <= i < |proposals| ==> Faithful(t, claimed, proposals[i])
    ensures var (s1, r) := ApplyAll(s, proposals, stats);
            && Filled(t, claimed, s1.table)
            && OwnersStay(s.table, s1.table)
            && (r.Ok? ==> r.value.failed >= stats.failed)
            && (r.Ok? && r.value.failed == stats.failed ==> forall i :: 0 <= i < |proposals| ==> Owned(s1.table, proposals[i].id))
    decreases |proposals|
  {
    if proposals != [] {
      UpdateFills(t, claimed, s, proposals[0], stats);
      var (s1, r) := ApplyUpdate(s, proposals[0], stats);
      if r.Ok? {
        ApplyFills(t, claimed, s1, proposals[1..], r.value);
        forall i | 1 <= i < |proposals| ensures proposals[i] == proposals[1..][i - 1] {}
      }
    }
  }

  /** The proposals of a partly filled table are the first snapshot's, where those are clear. */
  lemma ProposalsStayFaithful(t: Table, claimed: set<string>, u: Table, order: seq<string>)
    requires Filled(t, claimed, u) && Proposals(u, order).Ok?
    ensures var ps := Proposals(u, order).value; forall i :: 0 <= i < |ps| ==> Faithful(t, claimed, ps[i])
  {
    ProposalsAreExact(u, order);
    SameTarget(t, claimed, u);
    var ps := Proposals(u, order).value;
    forall i | 0 <= i < |ps| ensures Faithful(t, claimed, ps[i]) {
      assert ps[i] in ps && u[ps[i].id].owner.None?;
    }
  }

  /** They leave out only campaigns that have an owner. */
  lemma AllUnownedProposed(u: Table, order: seq<string>, id: string)
    requires Lists(order, u) && Proposals(u, order).Ok? && id in u && u[id].owner.None?
    ensures exists i :: 0 <= i < |Proposals(u, order).value| && Proposals(u, order).value[i].id == id
  {
    ProposalsAreExact(u, order);
    var ps := Proposals(u, order).value;
    assert id in order && Classify(u, u[id]).Propose?;
    assert Proposal(id, Classify(u, u[id]).owner) in ps;
    var i :| 0 <= i < |ps| && ps[i] == Proposal(id, Classify(u, u[id]).owner);
  }

  ghost predicate AllOwned(t: Table) { forall id :: id in t ==> Owned(t, id) }

  lemma NoneLeftUnowned(u: Table, order: seq<string>, v: Table)
    requires Lists(order, u) && Proposals(u, order).Ok? && v.Keys == u.Keys && OwnersStay(u, v)
    requires var ps := Proposals(u, order).value; forall i :: 0 <= i < |ps| ==> Owned(v, ps[i].id)
    ensures AllOwned(v)
  {
    forall id | id in v ensures Owned(v, id) {
      if u[id].owner.None? {
        AllUnownedProposed(u, order, id);
        var i :| 0 <= i < |Proposals(u, order).value| && Proposals(u, order).value[i].id == id;
      } else {
        assert Owned(u, id);
      }
    }
  }

  /** A run over a table that is on its way stays on the way, whatever fails and whoever else
      claims campaigns; one that answers 0 leaves none without an owner. */
  lemma RunStaysOnTheWay(t: Table, claimed: set<string>, s: State, order: seq<string>, dryRun: bool)
    requires Filled(t, claimed, s.table) && ClaimsAmong(s.turns, claimed) && Lists(order, s.table)
    ensures var (s1, r) := Run(s, order, dryRun);
            Filled(t, claimed, s1.table) && (r == Ok(0) && !dryRun ==> AllOwned(s1.table))
  {
    var proposals := Proposals(s.table, order);
    if proposals.Ok? && !dryRun {
      ProposalsStayFaithful(t, claimed, s.table, order);
      ApplyFills(t, claimed, s, proposals.value, Stats(0, 0, 0));
      var (s1, r) := ApplyAll(s, proposals.value, Stats(0, 0, 0));
      if r.Ok? && r.value.failed == 0 { NoneLeftUnowned(s.table, order, s1.table); }
    }
  }

  lemma ItselfFilled(t: Table, claimed: set<string>)
    ensures Filled(t, claimed, t)
  {}

  /** Every run, failed or cut off anywhere, with others claiming any campaigns meanwhile, gives
      a clear campaign only what its snapshot proposes; one that answers 0 gives all of them
      that, and leaves no campaign without an owner. */
  lemma RunFills(s: State, order: seq<string>, dryRun: bool, claimed: set<string>)
    requires ClaimsAmong(s.turns, claimed) && Lists(order, s.table)
    ensures var (s1, r) := Run(s, order, dryRun);
            && Filled(s.table, claimed, s1.table)
            && (r == Ok(0) && !dryRun ==>
                  AllOwned(s1.table) && forall id :: Clear(s.table, claimed, id) ==> s1.table[id] == Target(s.table)[id])
  {
    ItselfFilled(s.table, claimed);
    RunStaysOnTheWay(s.table, claimed, s, order, dryRun);
  }

  ghost predicate NoCrash(turns: seq<Turn>) { forall i :: 0 <= i < |turns| ==> turns[i].fault != Crash }

  lemma {:induction false} RefusalsDoNotStop(s: State, proposals: seq<Proposal>, stats: Stats)
    requires NoCrash(s.turns)
    ensures ApplyAll(s, proposals, stats).1.Ok?
    decreases |proposals|
  {
    if proposals != [] {
      var (s1, r) := ApplyUpdate(s, proposals[0], stats);
      RefusalsDoNotStop(s1, proposals[1..], r.value);
    }
  }

  /** A refused update ends neither the run nor the updates after it: over well-founded links and
      without a crash a run goes through, and answers 0 or 1. */
  lemma RunGoesThrough(s: State, order: seq<string>, dryRun: bool)
    requires AllHalt(s.table) && NoCrash(s.turns)
    ensures Run(s, order, dryRun).1 in {Ok(0), Ok(1)}
  {
    ProposalsAreExact(s.table, order);
    RefusalsDoNotStop(s, Proposals(s.table, order).value, Stats(0, 0, 0));
  }

  /** A dry run makes no call, and fails only where a classification does not come back. */
  lemma DryRunWritesNothing(s: State, order: seq<string>)
    requires Lists(order, s.table)
    ensures Run(s, order, true).0 == s
    ensures Run(s, order, true).1 == if AllHalt(s.table) then Ok(0) else Raise
  {
    ProposalsAreExact(s.table, order);
  }

  /** A row whose classification does not come back ends the run before its first write. */
  lemma EndlessRecursionWritesNothing(s: State, order: seq<string>, dryRun: bool, id: string)
    requires Lists(order, s.table) && id in s.table && !Halts(s.table, s.table[id])
    ensures Run(s, order, dryRun) == (s, Raise)
  {
    HaltsWithinTable(s.table, s.table[id]);
    ProposalsAreExact(s.table, order);
    assert id in order;
  }

  /** A history: runs over the same table, each with its own faults and listing order. */
  datatype Attempt = Attempt(turns: seq<Turn>, order: seq<string>, dryRun: bool)

  ghost predicate Attempts(t: Table, claimed: set<string>, history: seq<Attempt>) {
    forall i :: 0 <= i < |history| ==> Lists(history[i].order, t) && ClaimsAmong(history[i].turns, claimed)
  }

  function Replay(t: Table, history: seq<Attempt>): Table
    decreases |history|
  {
    if history == [] then t
    else Replay(Run(State(t, history[0].turns), history[0].order, history[0].dryRun).0.table, history[1..])
  }

  /** Every history of crashes, failures, claims and reruns stays on the way to one assignment. */
  lemma {:induction false} HistoriesFill(t: Table, claimed: set<string>, u: Table, history: seq<Attempt>)
    requires Filled(t, claimed, u) && Attempts(t, claimed, history)
    ensures Filled(t, claimed, Replay(u, history))
    decreases |history|
  {
    if history != [] {
      var s := State(u, history[0].turns);
      RunStaysOnTheWay(t, claimed, s, history[0].order, history[0].dryRun);
      HistoriesFill(t, claimed, Run(s, history[0].order, history[0].dryRun).0.table, history[1..]);
    }
  }

  lemma {:induction false} OwnedProposesNothing(t: Table, order: seq<string>)
    requires AllOwned(t)
    ensures Proposals(t, order) == Ok([])
    decreases |order|
  {
    if order != [] {
      OwnedProposesNothing(t, order[1..]);
      var none: seq<Proposal> := [];
      assert none + none == none;
    }
  }

  /** After any such history over well-founded links, a run either fails or completes the
      assignment: every campaign that is clear of claims has what the very first snapshot gave
      it, so with no claims it is the first snapshot's assignment whole; none is without an
      owner, and a further run, in any order, proposes nothing. */
  lemma HistoriesAreConfluent(t: Table, claimed: set<string>, history: seq<Attempt>, last: Attempt, order: seq<string>)
    requires WellFounded(t) && Attempts(t, claimed, history) && Lists(last.order, t) && ClaimsAmong(last.turns, claimed)
    ensures var (s, r) := Run(State(Replay(t, history), last.turns), last.order, false);
            r == Ok(0) ==>
              && (forall id :: Clear(t, claimed, id) ==> id in s.table && s.table[id] == Target(t)[id])
              && (claimed == {} ==> s.table == Target(t))
              && AllOwned(s.table) && Proposals(s.table, order) == Ok([])
    ensures last.turns == [] ==> Run(State(Replay(t, history), last.turns), last.order, false).1 == Ok(0)
  {
    ItselfFilled(t, claimed);
    HistoriesFill(t, claimed, t, history);
    var u := Replay(t, history);
    RunStaysOnTheWay(t, claimed, State(u, last.turns), last.order, false);
    var (s, r) := Run(State(u, last.turns), last.order, false);
    if r == Ok(0) {
      OwnedProposesNothing(s.table, order);
      if claimed == {} { UnclaimedIsTarget(t, s.table); }
    }
    if last.turns == [] { CalmRunSucceeds(t, claimed, u, last.order); }
  }

  lemma UnclaimedIsTarget(t: Table, u: Table)
    requires WellFounded(t) && Filled(t, {}, u) && AllOwned(u)
    ensures u == Target(t)
  {
    AllHaltExactly(t);
    forall id | id in t ensures u[id] == Target(t)[id] { assert Clear(t, {}, id); }
  }

  lemma CalmRunSucceeds(t: Table, claimed: set<string>, u: Table, order: seq<string>)
    requires WellFounded(t) && Filled(t, claimed, u)
    ensures Run(State(u, []), order, false).1 == Ok(0)
  {
    SameTarget(t, claimed, u);
    AllHaltExactly(u);
    ProposalsAreExact(u, order);
    CalmApply(State(u, []), Proposals(u, order).value, Stats(0, 0, 0));
  }

  lemma {:induction false} CalmApply(s: State, proposals: seq<Proposal>, stats: Stats)
    requires s.turns == []
    ensures var r := ApplyAll(s, proposals, stats).1; r.Ok? && r.value.failed == stats.failed
    decreases |proposals|
  {
    if proposals != [] {
      var (s1, r) := ApplyUpdate(s, proposals[0], stats);
      CalmApply(s1, proposals[1..], r.value);
    }
  }

  /** Owners other writers set are left alone too: through any claims and faults, a row that has
      an owner keeps it unless another writer changes it. */
  lemma {:induction false} OwnersSurvive(s: State, proposals: seq<Proposal>, stats: Stats, id: string)
    requires id in s.table && s.table[id].owner.Some?
    requires forall t :: t in s.turns ==> id !in t.claims
    ensures var s1 := ApplyAll(s, proposals, stats).0; id in s1.table && s1.table[id] == s.table[id]
    decreases |proposals|
  {
    if proposals != [] {
      if s.turns != [] { assert s.turns[0] in s.turns; }
      var (s1, r) := ApplyUpdate(s, proposals[0], stats);
      if r.Ok? { OwnersSurvive(s1, proposals[1..], r.value, id); }
    }
  }

  // ---------------------------------------------------------------------------
  // The script
  // ---------------------------------------------------------------------------

  class CampaignTable {
    var rows: Table
    var turns: seq<Turn>

    ghost function Abs(): State reads this { State(rows, turns) }

    constructor (s: State)
      ensures Abs() == s
    {
      rows, turns := s.table, s.turns;
    }

    /** After the others' claims, only this campaign's row may change, and only from no owner to
        the proposed one; the count says whether it did, whether an owner was there already, or
        whether the call was refused. */
    method Update(p: Proposal, stats: Stats) returns (r: Reply<Stats>)
      modifies this
      ensures (Abs(), r) == ApplyUpdate(old(Abs()), p, stats)
      ensures var others := Arrive(old(Abs())).table;
              && rows.Keys == others.Keys && (forall id :: id in rows && id != p.id ==> rows[id] == others[id])
              && (p.id in rows && rows[p.id] != others[p.id] ==>
                    others[p.id].owner.None? && rows[p.id] == others[p.id].(owner := Some(p.owner)))
              && (r.Ok? && r.value.failed == stats.failed && p.id in rows ==> rows[p.id].owner.Some?)
              && (r.Ok? && r.value.written == stats.written ==> rows == others)
              && (r.Raise? ==> rows == others)
              && (r.Ok? ==> r.value.written + r.value.alreadySet + r.value.failed
                            == stats.written + stats.alreadySet + stats.failed + 1)
    {
      var fault := Fine;
      if turns != [] {
        fault, rows, turns := turns[0].fault, Claim(rows, turns[0].claims), turns[1..];
      }
      match fault
      case Crash => return Raise;
      case ClientError => return Ok(stats.(failed := stats.failed + 1));
      case Fine =>
        if p.id in rows && rows[p.id].owner.Some? { return Ok(stats.(alreadySet := stats.alreadySet + 1)); }
        if p.id in rows { rows := rows[p.id := rows[p.id].(owner := Some(p.owner))]; }
        return Ok(stats.(written := stats.written + 1));
    }

    /** The classify loop over the snapshot. */
    method ClassifyRows(order: seq<string>) returns (r: Reply<seq<Proposal>>)
      ensures r == Proposals(rows, order)
    {
      var proposed: seq<Proposal> := [];
      var i := 0;
      assert order[0..] == order;
      Prepended([], [], Proposals(rows, order));
      while i < |order|
        invariant 0 <= i <= |order|
        invariant Proposals(rows, order) == Prepend(proposed, Proposals(rows, order[i..]))
      {
        assert order[i..][0] == order[i] && order[i..][1..] == order[i + 1..];
        if order[i] in rows {
          var verdict := Classify(rows, rows[order[i]]);
          if verdict.Deep? { return Raise; }
          ghost var added := if verdict.Propose? then [Proposal(order[i], verdict.owner)] else [];
          Prepended(proposed, added, Proposals(rows, order[i + 1..]));
          if verdict.Propose? { proposed := proposed + [Proposal(order[i], verdict.owner)]; }
        }
        i := i + 1;
      }
      assert proposed + [] == proposed;
      return Ok(proposed);
    }

    ghost static function Prepend(ps: seq<Proposal>, rest: Reply<seq<Proposal>>): Reply<seq<Proposal>> {
      if rest.Raise? then Raise else Ok(ps + rest.value)
    }

    static lemma Prepended(ps: seq<Proposal>, added: seq<Proposal>, rest: Reply<seq<Proposal>>)
      ensures Prepend(ps, Prepend(added, rest)) == Prepend(ps + added, rest)
      ensures added == [] ==> Prepend(added, rest) == rest && ps + added == ps
    {
      if rest.Ok? {
        assert ps + (added + rest.value) == ps + added + rest.value;
        assert [] + rest.value == rest.value;
      }
    }

    method WriteOwners(ps: seq<Proposal>) returns (r: Reply<Stats>)
      modifies this
      ensures (Abs(), r) == ApplyAll(old(Abs()), ps, Stats(0, 0, 0))
    {
      var stats := Stats(0, 0, 0);
      ghost var start := Abs();
      var i := 0;
      while i < |ps|
        invariant 0 <= i <= |ps|
        invariant ApplyAll(Abs(), ps[i..], stats) == ApplyAll(start, ps, Stats(0, 0, 0))
      {
        assert ps[i..][0] == ps[i] && ps[i..][1..] == ps[i + 1..];
        var outcome := Update(ps[i], stats);
        if outcome.Raise? { return Raise; }
        stats := outcome.value;
        i := i + 1;
      }
      return Ok(stats);
    }

    /** Owners only appear where there were none, unless another writer claims the campaign, and
        exit code 0 leaves none without one. */
    method Backfill(order: seq<string>, dryRun: bool, ghost claimed: set<string>) returns (r: Reply<nat>)
      modifies this
      ensures (Abs(), r) == Run(old(Abs()), order, dryRun)
      ensures ClaimsAmong(old(turns), claimed) && Lists(order, old(rows)) ==>
                Filled(old(rows), claimed, rows) && (r == Ok(0) && !dryRun ==> AllOwned(rows))
      ensures dryRun ==> Abs() == old(Abs())
    {
      if ClaimsAmong(turns, claimed) && Lists(order, rows) { RunFills(Abs(), order, dryRun, claimed); }
      var proposals := ClassifyRows(order);
      if proposals.Raise? { return Raise; }
      if dryRun || proposals.value == [] { return Ok(0); }
      var stats := WriteOwners(proposals.value);
      if stats.Raise? { return Raise; }
      return Ok(if stats.value.failed > 0 then 1 else 0);
    }
  }
}
