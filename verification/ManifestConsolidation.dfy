/** Retiring the old default manifest: move its vehicles page by page, then delete its record,
    while other writers are at work and any call may fail. */
module ManifestConsolidation {
  import opened Prelude

  const OLD := "CMS-Fleet-Default"
  const NEW := "CMS-FLEET-MODEL"

  const EXIT_OK := 0
  const EXIT_ARGS := 2
  const EXIT_LIVE_STILL_HAS_REFERENTS := 3
  const EXIT_NEW_MANIFEST_MISSING := 4
  const EXIT_AWS_ERROR := 5

  /** A slot of the vehicles table, in the table's scan order. */
  datatype Slot = Vacant | Vehicle(manifest: Option<string>)

  /** `oldRecord` is the `modelManifestName` the old manifest record carries, if it exists. */
  datatype World = World(slots: seq<Slot>, oldRecord: Option<string>, newRecord: bool)

  /** What other writers may do between two calls: anything to a vehicle but write the old name,
      anything to the old record but create it or drop it while it is in use, create the new one. */
  datatype Write =
    | Rewrite(at: nat, slot: Slot)
    | TouchOldRecord(name: string)
    | DropUnusedOldRecord
    | SeedNewRecord

  datatype Fault = Fine | ClientError | Crash

  /** `boundary` is where a scan page taken in this turn ends. */
  datatype Turn = Turn(writes: seq<Write>, fault: Fault, boundary: nat)

  datatype State = State(world: World, turns: seq<Turn>)

  predicate NamesOld(slot: Slot) { slot == Vehicle(Some(OLD)) }

  predicate Unused(w: World) { forall i :: 0 <= i < |w.slots| ==> !NamesOld(w.slots[i]) }

  predicate UnusedFrom(w: World, from: nat) { forall i :: from <= i < |w.slots| ==> !NamesOld(w.slots[i]) }

  function Perform(w: World, op: Write): World {
    match op
    case Rewrite(at, slot) => if at < |w.slots| && !NamesOld(slot) then w.(slots := w.slots[at := slot]) else w
    case TouchOldRecord(name) => if w.oldRecord.Some? then w.(oldRecord := Some(name)) else w
    case DropUnusedOldRecord => if Unused(w) then w.(oldRecord := None) else w
    case SeedNewRecord => w.(newRecord := true)
  }

  function PerformAll(w: World, ops: seq<Write>): World
    decreases |ops|
  {
    if ops == [] then w else PerformAll(Perform(w, ops[0]), ops[1..])
  }

  function FaultOf(s: State): Fault { if s.turns == [] then Fine else s.turns[0].fault }

  function Arrive(s: State): State {
    if s.turns == [] then s else State(PerformAll(s.world, s.turns[0].writes), s.turns[1..])
  }

  // ---------------------------------------------------------------------------
  // The calls
  // ---------------------------------------------------------------------------

  /** Both record reads answer "absent" when the read itself is refused. */
  function NewManifestExists(s: State): (State, Reply<bool>) {
    var t := Arrive(s);
    (t, match FaultOf(s) case Crash => Raise case ClientError => Ok(false) case Fine => Ok(t.world.newRecord))
  }

  function OldManifestExists(s: State): (State, Reply<bool>) {
    var t := Arrive(s);
    (t, match FaultOf(s) case Crash => Raise case ClientError => Ok(false) case Fine => Ok(t.world.oldRecord.Some?))
  }

  /** The slots of [from, to) that name the old manifest. */
  function Referents(w: World, from: nat, to: nat): seq<nat>
    requires from <= to <= |w.slots|
    decreases |w.slots| - from
  {
    if from == to then [] else (if NamesOld(w.slots[from]) then [from] else []) + Referents(w, from + 1, to)
  }

  /** Where the page that starts at `from` ends. */
  function PageEnd(s: State, from: nat): (to: nat)
    requires from <= |s.world.slots|
    ensures from <= to <= |s.world.slots| && (to < |s.world.slots| ==> from < to)
  {
    if s.turns == [] || !(from < s.turns[0].boundary < |s.world.slots|) then |s.world.slots| else s.turns[0].boundary
  }

  lemma {:induction false} SlotsStay(w: World, ops: seq<Write>)
    ensures |PerformAll(w, ops).slots| == |w.slots|
    decreases |ops|
  {
    if ops != [] { SlotsStay(Perform(w, ops[0]), ops[1..]); }
  }

  /** One page: its items, and the position the next page starts at, if there is one. */
  function ScanPage(s: State, from: nat): (State, Reply<(seq<nat>, Option<nat>)>)
    requires from <= |s.world.slots|
  {
    var t := Arrive(s);
    var to := PageEnd(s, from);
    assert |t.world.slots| == |s.world.slots| by { if s.turns != [] { SlotsStay(s.world, s.turns[0].writes); } }
    (t, if FaultOf(s) != Fine then Raise
        else Ok((Referents(t.world, from, to), if to < |s.world.slots| then Some(to) else None)))
  }

  function ScanFrom(s: State, from: nat): (r: (State, Reply<seq<nat>>))
    requires from <= |s.world.slots|
    ensures |r.0.world.slots| == |s.world.slots|
    decreases |s.world.slots| - from
  {
    assert |Arrive(s).world.slots| == |s.world.slots| by { if s.turns != [] { SlotsStay(s.world, s.turns[0].writes); } }
    var (s1, page) := ScanPage(s, from);
    if page.Raise? then (s1, Raise)
    else if page.value.1.None? then (s1, Ok(page.value.0))
    else
      var (s2, rest) := ScanFrom(s1, page.value.1.value);
      (s2, if rest.Raise? then Raise else Ok(page.value.0 + rest.value))
  }

  datatype Move = Moved | WouldMove | AlreadyMigrated

  /** The conditional update: only a row that still names the old manifest is rewritten. */
  function MoveOne(s: State, id: nat, apply: bool): (State, Reply<Move>) {
    if !apply then (s, Ok(WouldMove))
    else
      var t := Arrive(s);
      if FaultOf(s) != Fine then (t, Raise)
      else if id < |t.world.slots| && NamesOld(t.world.slots[id]) then
        (t.(world := t.world.(slots := t.world.slots[id := Vehicle(Some(NEW))])), Ok(Moved))
      else (t, Ok(AlreadyMigrated))
  }

  function MoveAll(s: State, ids: seq<nat>, apply: bool): (State, Reply<()>)
    decreases |ids|
  {
    if ids == [] then (s, Ok(()))
    else
      var (s1, outcome) := MoveOne(s, ids[0], apply);
      if outcome.Raise? then (s1, Raise) else MoveAll(s1, ids[1..], apply)
  }

  datatype Deletion = Deleted | Skipped | Refused

  function DeleteOldRecord(s: State): (State, Reply<Deletion>) {
    var t := Arrive(s);
    match FaultOf(s)
    case Crash => (t, Raise)
    case ClientError => (t, Ok(Refused))
    case Fine => if t.world.oldRecord == Some(OLD) then (t.(world := t.world.(oldRecord := None)), Ok(Deleted)) else (t, Ok(Skipped))
  }

  // ---------------------------------------------------------------------------
  // The migration
  // ---------------------------------------------------------------------------

  function FinalVerify(s: State, apply: bool): (State, Reply<nat>) {
    var (s1, rows) := ScanFrom(s, 0);
    if rows.Raise? then (s1, Raise)
    else
      var (s2, exists_) := OldManifestExists(s1);
      if exists_.Raise? then (s2, Raise)
      else if apply && (rows.value != [] || exists_.value) then (s2, Ok(EXIT_LIVE_STILL_HAS_REFERENTS))
      else (s2, Ok(EXIT_OK))
  }

  /** Phase 2, entered once the verifying scan allows it (or in a dry run). */
  function Retire(s: State, apply: bool): (State, Reply<nat>) {
    var (s1, exists_) := OldManifestExists(s);
    if exists_.Raise? then (s1, Raise)
    else if !exists_.value || !apply then FinalVerify(s1, apply)
    else
      var (s2, deletion) := DeleteOldRecord(s1);
      if deletion.Raise? then (s2, Raise)
      else if deletion.value.Refused? then (s2, Ok(EXIT_AWS_ERROR))
      else FinalVerify(s2, apply)
  }

  /** Move the listed vehicles, look again, and retire the old record if none is left. */
  function Migrate(s: State, ids: seq<nat>, apply: bool): (State, Reply<nat>) {
    var (s1, moved) := MoveAll(s, ids, apply);
    if moved.Raise? then (s1, Raise)
    else
      var (s2, left) := ScanFrom(s1, 0);
      if left.Raise? then (s2, Raise)
      else if apply && left.value != [] then (s2, Ok(EXIT_LIVE_STILL_HAS_REFERENTS))
      else Retire(s2, apply)
  }

  function Consolidate(s: State, prod: bool, apply: bool, confirmed: bool): (State, Reply<nat>) {
    if prod && apply && !confirmed then (s, Ok(EXIT_ARGS))
    else
      var (s1, target) := NewManifestExists(s);
      if target.Raise? then (s1, Raise)
      else if !target.value then (s1, Ok(EXIT_NEW_MANIFEST_MISSING))
      else
        var (s2, rows) := ScanFrom(s1, 0);
        if rows.Raise? then (s2, Raise) else Migrate(s2, rows.value, apply)
  }

  // ---------------------------------------------------------------------------
  // Under interference
  // ---------------------------------------------------------------------------

  /** What every step, ours or another writer's, keeps: no row comes to name the old manifest,
      the new record stays, the old one does not come back, and goes only when unused. */
  ghost predicate Onward(w: World, w1: World) {
    && |w1.slots| == |w.slots|
    && (forall i :: 0 <= i < |w.slots| && NamesOld(w1.slots[i]) ==> NamesOld(w.slots[i]))
    && (w.newRecord ==> w1.newRecord)
    && (w.oldRecord.None? ==> w1.oldRecord.None?)
    && (w.oldRecord.Some? && w1.oldRecord.None? ==> Unused(w1))
  }

  /** The old record is there as long as a vehicle names it. */
  ghost predicate Safe(w: World) { w.oldRecord.None? ==> Unused(w) }

  lemma {:induction false} WritesGoOnward(w: World, ops: seq<Write>)
    ensures Onward(w, PerformAll(w, ops))
    decreases |ops|
  {
    if ops != [] {
      var w1 := Perform(w, ops[0]);
      assert Onward(w, w1);
      WritesGoOnward(w1, ops[1..]);
      OnwardTransitive(w, w1, PerformAll(w, ops));
    }
  }

  lemma OnwardTransitive(a: World, b: World, c: World)
    requires Onward(a, b) && Onward(b, c)
    ensures Onward(a, c)
  {
  }

  lemma ArriveOnward(s: State)
    ensures Onward(s.world, Arrive(s).world)
  {
    if s.turns != [] { WritesGoOnward(s.world, s.turns[0].writes); }
  }

  lemma {:induction false} ReferentsAreAll(w: World, from: nat, to: nat, i: nat)
    requires from <= to <= |w.slots|
    ensures i in Referents(w, from, to) <==> from <= i < to && NamesOld(w.slots[i])
    decreases |w.slots| - from
  {
    if from < to { ReferentsAreAll(w, from + 1, to, i); }
  }

  /** However the pages fall and whatever is written between them, a finished scan has every
      row that names the old manifest when it ends. */
  lemma {:induction false} ScanSeesAll(s: State, from: nat)
    requires from <= |s.world.slots|
    ensures var (t, rows) := ScanFrom(s, from);
            && Onward(s.world, t.world)
            && (rows.Ok? ==> forall i :: from <= i < |t.world.slots| && NamesOld(t.world.slots[i]) ==> i in rows.value)
    decreases |s.world.slots| - from
  {
    ArriveOnward(s);
    var (s1, page) := ScanPage(s, from);
    var to := PageEnd(s, from);
    forall i | 0 <= i < |s1.world.slots| { ReferentsAreAll(s1.world, from, to, i); }
    if page.Ok? && page.value.1.Some? {
      ScanSeesAll(s1, to);
      OnwardTransitive(s.world, s1.world, ScanFrom(s, from).0.world);
    }
  }

  lemma {:induction false} MovesGoOnward(s: State, ids: seq<nat>, apply: bool)
    ensures Onward(s.world, MoveAll(s, ids, apply).0.world)
    decreases |ids|
  {
    if ids != [] {
      ArriveOnward(s);
      var (s1, outcome) := MoveOne(s, ids[0], apply);
      if outcome.Ok? {
        MovesGoOnward(s1, ids[1..], apply);
        OnwardTransitive(s.world, s1.world, MoveAll(s1, ids[1..], apply).0.world);
      }
    }
  }

  lemma FinalVerifyOnward(s: State, apply: bool)
    ensures var (t, r) := FinalVerify(s, apply);
            Onward(s.world, t.world) && (r == Ok(EXIT_OK) && apply ==> Unused(t.world))
  {
    ScanSeesAll(s, 0);
    ArriveOnward(ScanFrom(s, 0).0);
  }

  lemma RetireOnward(s: State, apply: bool)
    requires apply ==> Unused(s.world)
    ensures var (t, r) := Retire(s, apply);
            Onward(s.world, t.world) && (r == Ok(EXIT_OK) && apply ==> Unused(t.world))
  {
    ArriveOnward(s);
    var (s1, exists_) := OldManifestExists(s);
    if exists_.Ok? && exists_.value && apply {
      ArriveOnward(s1);
      var (s2, deletion) := DeleteOldRecord(s1);
      assert Onward(s1.world, s2.world);
      FinalVerifyOnward(s2, apply);
      OnwardTransitive(s1.world, s2.world, FinalVerify(s2, apply).0.world);
    } else {
      FinalVerifyOnward(s1, apply);
    }
  }

  /** Through every interleaving, and up to any call the run dies at, it only goes onward. */
  lemma ConsolidateOnward(s: State, prod: bool, apply: bool, confirmed: bool)
    ensures var (t, r) := Consolidate(s, prod, apply, confirmed);
            Onward(s.world, t.world) && (r == Ok(EXIT_OK) && apply ==> Unused(t.world) && t.world.newRecord)
  {
    ArriveOnward(s);
    var (s1, target) := NewManifestExists(s);
    if target.Ok? && target.value {
      ScanSeesAll(s1, 0);
      var (s2, rows) := ScanFrom(s1, 0);
      if rows.Ok? { MigrateOnward(s2, rows.value, apply); }
    }
  }

  lemma MigrateOnward(s: State, ids: seq<nat>, apply: bool)
    requires s.world.newRecord
    ensures var (t, r) := Migrate(s, ids, apply);
            Onward(s.world, t.world) && (r == Ok(EXIT_OK) && apply ==> Unused(t.world) && t.world.newRecord)
  {
    MovesGoOnward(s, ids, apply);
    var (s1, moved) := MoveAll(s, ids, apply);
    if moved.Ok? {
      ScanSeesAll(s1, 0);
      var (s2, left) := ScanFrom(s1, 0);
      if left.Ok? && !(apply && left.value != []) { RetireOnward(s2, apply); }
    }
  }

  /** The old record is never absent while a vehicle names it: not at the end of a run, nor at
      any point where it may have been cut off, nor after whatever other writers do next. */
  lemma NeverOrphansAVehicle(s: State, prod: bool, apply: bool, confirmed: bool, later: seq<Write>)
    requires Safe(s.world)
    ensures Safe(PerformAll(Consolidate(s, prod, apply, confirmed).0.world, later))
  {
    ConsolidateOnward(s, prod, apply, confirmed);
    WritesGoOnward(Consolidate(s, prod, apply, confirmed).0.world, later);
  }

  // ---------------------------------------------------------------------------
  // What exit code 0 means
  // ---------------------------------------------------------------------------

  predicate NoDrop(turns: seq<Turn>) { forall i :: 0 <= i < |turns| ==> DropUnusedOldRecord !in turns[i].writes }

  /** The turns gone by between two states. */
  function Between(s: State, t: State): seq<Turn>
    requires |t.turns| <= |s.turns|
  {
    s.turns[..|s.turns| - |t.turns|]
  }

  /** Once no vehicle names the old manifest, none does later, and its record goes exactly when
      another writer drops it. */
  ghost predicate Waits(s: State, t: State) {
    && |t.turns| <= |s.turns| && t.turns == s.turns[|s.turns| - |t.turns|..]
    && Unused(t.world) && (t.world.oldRecord.Some? <==> s.world.oldRecord.Some? && NoDrop(Between(s, t)))
  }

  lemma WaitsOn(a: State, b: State, c: State)
    requires Waits(a, b) && Waits(b, c)
    ensures Waits(a, c)
  {
    var n, m := |a.turns| - |b.turns|, |b.turns| - |c.turns|;
    assert a.turns[..n + m] == a.turns[..n] + b.turns[..m];
    forall i | 0 <= i < n ensures a.turns[..n + m][i] == a.turns[..n][i] {}
    forall i | 0 <= i < m ensures a.turns[..n + m][n + i] == b.turns[..m][i] {}
    assert c.turns == a.turns[n + m..];
  }

  lemma {:induction false} RecordGoesWhenDropped(w: World, ops: seq<Write>)
    requires Unused(w)
    ensures Unused(PerformAll(w, ops))
    ensures PerformAll(w, ops).oldRecord.Some? <==> w.oldRecord.Some? && DropUnusedOldRecord !in ops
    decreases |ops|
  {
    if ops != [] {
      assert ops == [ops[0]] + ops[1..];
      RecordGoesWhenDropped(Perform(w, ops[0]), ops[1..]);
    }
  }

  lemma OneTurnWaits(s: State, t: State)
    requires s.turns != [] && t.turns == s.turns[1..] && Unused(t.world)
    requires t.world.oldRecord.Some? <==> s.world.oldRecord.Some? && DropUnusedOldRecord !in s.turns[0].writes
    ensures Waits(s, t)
  {
    assert |Between(s, t)| == 1 && Between(s, t)[0] == s.turns[0];
  }

  lemma StandingWaits(s: State)
    requires Unused(s.world)
    ensures Waits(s, s)
  {}

  lemma TurnTaken(s: State)
    requires Unused(s.world) && s.turns != []
    ensures var t := Arrive(s);
            && t.turns == s.turns[1..] && Unused(t.world)
            && (t.world.oldRecord.Some? <==> s.world.oldRecord.Some? && DropUnusedOldRecord !in s.turns[0].writes)
  {
    RecordGoesWhenDropped(s.world, s.turns[0].writes);
  }

  lemma ArriveWaits(s: State)
    requires Unused(s.world)
    ensures Waits(s, Arrive(s))
  {
    if s.turns == [] {
      StandingWaits(s);
    } else {
      TurnTaken(s);
      OneTurnWaits(s, Arrive(s));
    }
  }

  lemma {:induction false} ScanWaits(s: State, from: nat)
    requires from <= |s.world.slots| && Unused(s.world)
    ensures Waits(s, ScanFrom(s, from).0)
    decreases |s.world.slots| - from
  {
    ArriveWaits(s);
    ArriveOnward(s);
    var (s1, page) := ScanPage(s, from);
    if page.Ok? && page.value.1.Some? {
      ScanWaits(s1, PageEnd(s, from));
      WaitsOn(s, s1, ScanFrom(s, from).0);
    }
  }

  /** Phase 2 as its calls meet it: whether the record's first read is refused, what the deletion
      finds, and the state in which the record is read for the last time. */
  predicate FirstReadRefused(p: State) { FaultOf(p) == ClientError }

  predicate SkipsDeletion(p: State) { FirstReadRefused(p) || Arrive(p).world.oldRecord.None? }

  /** The deletion meets a record under another name, so its condition fails. */
  predicate AlteredAtDeletion(p: State) {
    !SkipsDeletion(p) && Arrive(Arrive(p)).world.oldRecord.Some? && Arrive(Arrive(p)).world.oldRecord != Some(OLD)
  }

  function LastReadState(p: State): State {
    ScanFrom(if SkipsDeletion(p) then Arrive(p) else DeleteOldRecord(Arrive(p)).0, 0).0
  }

  predicate LastReadRefused(p: State) { FaultOf(LastReadState(p)) == ClientError }

  /** Phase 2 that answers 0 leaves the record exactly when it was there at the start, nobody
      dropped it, its first read was refused or it was altered before the deletion, and its last
      read was refused. */
  lemma RetireLeavesTheRecordExactly(p: State)
    requires Unused(p.world) && Retire(p, true).1 == Ok(EXIT_OK)
    ensures var t := Retire(p, true).0;
            && Unused(t.world) && |t.turns| <= |p.turns|
            && (t.world.oldRecord.Some? <==>
                  && p.world.oldRecord.Some? && NoDrop(Between(p, t))
                  && (FirstReadRefused(p) || AlteredAtDeletion(p)) && LastReadRefused(p))
  {
    ArriveWaits(p);
    var p1 := Arrive(p);
    if SkipsDeletion(p) {
      VerifyHonestly(p1);
      WaitsOn(p, p1, FinalVerify(p1, true).0);
    } else {
      ArriveWaits(p1);
      var (p2, deletion) := DeleteOldRecord(p1);
      VerifyHonestly(p2);
      if deletion == Ok(Skipped) {
        WaitsOn(p, p1, p2);
        WaitsOn(p, p2, FinalVerify(p2, true).0);
      }
    }
  }

  /** The last look leaves the record exactly when that very read is refused and nobody drops it. */
  lemma VerifyHonestly(s: State)
    requires Unused(s.world) && FinalVerify(s, true).1 == Ok(EXIT_OK)
    ensures var t := FinalVerify(s, true).0;
            Waits(s, t) && (t.world.oldRecord.Some? ==> FaultOf(ScanFrom(s, 0).0) == ClientError)
  {
    ScanWaits(s, 0);
    var s1 := ScanFrom(s, 0).0;
    ArriveWaits(s1);
    WaitsOn(s, s1, Arrive(s1));
  }

  /** The state phase 2 of a run begins in. */
  function PhaseTwo(s: State): State {
    var s2 := ScanFrom(NewManifestExists(s).0, 0);
    if s2.1.Raise? then s2.0 else ScanFrom(MoveAll(s2.0, s2.1.value, true).0, 0).0
  }

  /** Exit code 0 under `--apply`, whatever other writers did and whatever was refused: no vehicle
      names the old manifest and the new record is there; the old record is gone, unless its last
      read was refused, and, of a record there when phase 2 began that nobody dropped, its first
      read was too, or it was altered before its deletion. */
  lemma ExitOkMeansRetired(s: State, prod: bool, confirmed: bool)
    requires Consolidate(s, prod, true, confirmed).1 == Ok(EXIT_OK)
    ensures var t, p := Consolidate(s, prod, true, confirmed).0, PhaseTwo(s);
            && Unused(t.world) && t.world.newRecord && |t.turns| <= |p.turns|
            && (t.world.oldRecord.Some? <==>
                  && p.world.oldRecord.Some? && NoDrop(Between(p, t))
                  && (FirstReadRefused(p) || AlteredAtDeletion(p)) && LastReadRefused(p))
  {
    ConsolidateOnward(s, prod, true, confirmed);
    var (s1, _) := NewManifestExists(s);
    var (s2, rows) := ScanFrom(s1, 0);
    var s3 := MoveAll(s2, rows.value, true).0;
    ScanSeesAll(s3, 0);
    NoneListedNoneLeft(ScanFrom(s3, 0).0, ScanFrom(s3, 0).1);
    RetireLeavesTheRecordExactly(PhaseTwo(s));
  }

  lemma NoneListedNoneLeft(s: State, rows: Reply<seq<nat>>)
    requires rows == Ok([])
    requires forall i :: 0 <= i < |s.world.slots| && NamesOld(s.world.slots[i]) ==> i in rows.value
    ensures Unused(s.world)
  {}

  const FINE := Turn([], Fine, 0)
  const REFUSED := Turn([], ClientError, 0)

  lemma {:induction false} NothingToList(w: World, from: nat, to: nat)
    requires from <= to <= |w.slots| && Unused(w)
    ensures Referents(w, from, to) == []
    decreases |w.slots| - from
  {
    if from < to { NothingToList(w, from + 1, to); }
  }

  lemma UnusedScan(w: World, turns: seq<Turn>)
    requires Unused(w) && turns != [] && turns[0] == FINE
    ensures ScanFrom(State(w, turns), 0) == (State(w, turns[1..]), Ok([]))
  {
    NothingToList(w, 0, |w.slots|);
    assert PerformAll(w, []) == w;
  }

  /** A run over a migrated table comes to phase 2 after three calls. */
  lemma MigratedComesToPhaseTwo(w: World, rest: seq<Turn>)
    requires Unused(w) && w.newRecord
    ensures Consolidate(State(w, [FINE, FINE, FINE] + rest), false, true, false) == Retire(State(w, rest), true)
  {
    var all := [FINE, FINE, FINE] + rest;
    assert PerformAll(w, []) == w;
    assert all[1..] == [FINE, FINE] + rest && all[1..][1..] == [FINE] + rest && all[1..][1..][1..] == rest;
    UnusedScan(w, all[1..]);
    UnusedScan(w, all[1..][1..]);
  }

  /** A refused read counts as "absent": two refused reads make the run answer exit code 0 with
      the record in place, and one does if the record was altered. */
  lemma RefusedReadsHideTheRecord(w: World)
    requires Unused(w) && w.newRecord && w.oldRecord.Some?
    ensures Consolidate(State(w, [FINE, FINE, FINE] + [REFUSED, FINE, REFUSED]), false, true, false) == (State(w, []), Ok(EXIT_OK))
    ensures w.oldRecord != Some(OLD) ==>
              Consolidate(State(w, [FINE, FINE, FINE] + [FINE, FINE, FINE, REFUSED]), false, true, false) == (State(w, []), Ok(EXIT_OK))
  {
    assert PerformAll(w, []) == w;
    var two, one := [REFUSED, FINE, REFUSED], [FINE, FINE, FINE, REFUSED];
    MigratedComesToPhaseTwo(w, two);
    MigratedComesToPhaseTwo(w, one);
    assert two[1..] == [FINE, REFUSED] && two[1..][1..] == [REFUSED] && two[1..][1..][1..] == [];
    UnusedScan(w, two[1..]);
    assert one[1..][1..] == [FINE, REFUSED] && one[1..][1..][1..] == [REFUSED];
    UnusedScan(w, one[1..][1..]);
  }

  /** A refused read of the new manifest reads as its absence, and ends the run with 4; a refused
      deletion ends it with 5, the record in place. */
  lemma RefusedCallsAreReported(w: World, rest: seq<Turn>, prod: bool)
    ensures Consolidate(State(w, [REFUSED] + rest), prod, true, true) == (State(w, rest), Ok(4))
    ensures Unused(w) && w.newRecord && w.oldRecord.Some? ==>
              Consolidate(State(w, [FINE, FINE, FINE] + ([FINE, REFUSED] + rest)), false, true, false) == (State(w, rest), Ok(5))
  {
    assert PerformAll(w, []) == w;
    assert ([REFUSED] + rest)[1..] == rest;
    var last := [FINE, REFUSED] + rest;
    assert last[1..] == [REFUSED] + rest && last[1..][1..] == rest;
    if Unused(w) && w.newRecord { MigratedComesToPhaseTwo(w, last); }
  }

  // ---------------------------------------------------------------------------
  // Restarting
  // ---------------------------------------------------------------------------

  function SettledSlot(slot: Slot): Slot { if NamesOld(slot) then Vehicle(Some(NEW)) else slot }

  /** The migrated table. */
  function Settle(w: World): World {
    World(seq(|w.slots|, i requires 0 <= i < |w.slots| => SettledSlot(w.slots[i])), None, w.newRecord)
  }

  /** The record is the one to retire, or is gone. */
  predicate Retirable(w: World) { w.oldRecord == None || w.oldRecord == Some(OLD) }

  ghost predicate Alone(s: State) { forall t :: t in s.turns ==> t.writes == [] }

  ghost predicate Calm(s: State) { forall t :: t in s.turns ==> t.writes == [] && t.fault == Fine }

  lemma AloneArrives(s: State)
    requires Alone(s)
    ensures Arrive(s).world == s.world && Alone(Arrive(s)) && (Calm(s) ==> Calm(Arrive(s)) && FaultOf(s) == Fine)
  {
    if s.turns != [] { assert s.turns[0] in s.turns; }
  }

  ghost predicate SameSettlement(s: State, t: State) {
    && Alone(t) && (Calm(s) ==> Calm(t)) && Settle(t.world) == Settle(s.world)
    && (Retirable(s.world) ==> Retirable(t.world))
  }

  lemma {:induction false} AloneScan(s: State, from: nat)
    requires Alone(s) && from <= |s.world.slots|
    ensures var (t, rows) := ScanFrom(s, from);
            && t.world == s.world && Alone(t)
            && (Calm(s) ==> Calm(t) && rows == Ok(Referents(s.world, from, |s.world.slots|)))
    decreases |s.world.slots| - from
  {
    AloneArrives(s);
    var to := PageEnd(s, from);
    var (s1, page) := ScanPage(s, from);
    if page.Ok? && to < |s.world.slots| {
      AloneScan(s1, to);
      ReferentsSplit(s.world, from, to, |s.world.slots|);
    }
  }

  lemma {:induction false} ReferentsSplit(w: World, a: nat, b: nat, c: nat)
    requires a <= b <= c <= |w.slots|
    ensures Referents(w, a, c) == Referents(w, a, b) + Referents(w, b, c)
    decreases |w.slots| - a
  {
    if a < b { ReferentsSplit(w, a + 1, b, c); }
  }

  lemma MoveKeepsSettlement(s: State, id: nat, apply: bool)
    requires Alone(s)
    ensures SameSettlement(s, MoveOne(s, id, apply).0)
  {
    AloneArrives(s);
    var t := MoveOne(s, id, apply).0;
    assert Settle(t.world).slots == Settle(s.world).slots;
  }

  lemma {:induction false} MovesKeepSettlement(s: State, ids: seq<nat>, apply: bool)
    requires Alone(s)
    ensures SameSettlement(s, MoveAll(s, ids, apply).0)
    decreases |ids|
  {
    if ids != [] {
      MoveKeepsSettlement(s, ids[0], apply);
      var (s1, outcome) := MoveOne(s, ids[0], apply);
      if outcome.Ok? { MovesKeepSettlement(s1, ids[1..], apply); }
    }
  }

  lemma AloneFinalVerify(s: State, apply: bool)
    requires Alone(s)
    ensures var (t, r) := FinalVerify(s, apply);
            && t.world == s.world && Alone(t) && (Calm(s) ==> Calm(t))
            && (Calm(s) && apply && Unused(s.world) ==>
                  r == Ok(if s.world.oldRecord.Some? then EXIT_LIVE_STILL_HAS_REFERENTS else EXIT_OK))
  {
    AloneScan(s, 0);
    AloneArrives(ScanFrom(s, 0).0);
    if Unused(s.world) { NothingToList(s.world, 0, |s.world.slots|); }
  }

  lemma RecordDoesNotMatter(w: World, w1: World)
    requires w1.slots == w.slots && w1.newRecord == w.newRecord
    ensures Settle(w1) == Settle(w)
  {
    assert Settle(w1).slots == Settle(w).slots;
  }

  lemma RetireKeepsSettlement(s: State, apply: bool)
    requires Alone(s)
    ensures SameSettlement(s, Retire(s, apply).0)
  {
    AloneArrives(s);
    var (s1, exists_) := OldManifestExists(s);
    if exists_.Ok? && exists_.value && apply {
      AloneArrives(s1);
      var (s2, deletion) := DeleteOldRecord(s1);
      RecordDoesNotMatter(s.world, s2.world);
      AloneFinalVerify(s2, apply);
    } else {
      AloneFinalVerify(s1, apply);
    }
  }

  /** A run without other writers, failed or cut off anywhere, is on the way to the same end. */
  lemma PartialRunKeepsSettlement(s: State, prod: bool, apply: bool, confirmed: bool)
    requires Alone(s)
    ensures SameSettlement(s, Consolidate(s, prod, apply, confirmed).0)
  {
    AloneArrives(s);
    var (s1, _) := NewManifestExists(s);
    AloneScan(s1, 0);
    var (s2, rows) := ScanFrom(s1, 0);
    if rows.Ok? { RestKeepsSettlement(s2, rows.value, apply); }
  }

  lemma RestKeepsSettlement(s: State, ids: seq<nat>, apply: bool)
    requires Alone(s)
    ensures SameSettlement(s, Migrate(s, ids, apply).0)
  {
    MovesKeepSettlement(s, ids, apply);
    var s1 := MoveAll(s, ids, apply).0;
    AloneScan(s1, 0);
    RetireKeepsSettlement(ScanFrom(s1, 0).0, apply);
  }

  /** Moving the listed rows, undisturbed: they name the new manifest, the others are as before. */
  lemma {:induction false} CalmMoves(s: State, ids: seq<nat>)
    requires Calm(s)
    ensures var (t, r) := MoveAll(s, ids, true);
            && r.Ok? && Calm(t) && t.world.oldRecord == s.world.oldRecord && t.world.newRecord == s.world.newRecord
            && |t.world.slots| == |s.world.slots|
            && forall i :: 0 <= i < |s.world.slots| ==>
                 t.world.slots[i] == (if i in ids then SettledSlot(s.world.slots[i]) else s.world.slots[i])
    decreases |ids|
  {
    if ids != [] {
      AloneArrives(s);
      var (s1, _) := MoveOne(s, ids[0], true);
      CalmMoves(s1, ids[1..]);
    }
  }

  /** The run nothing disturbs: it migrates the table and answers 0, unless the old record was
      altered; then it moves the vehicles, keeps the record and answers 3. */
  lemma CalmConsolidate(s: State, prod: bool, confirmed: bool)
    requires Calm(s) && s.world.newRecord && (prod ==> confirmed)
    ensures var (t, r) := Consolidate(s, prod, true, confirmed);
            && t.world == Settle(s.world).(oldRecord := if Retirable(s.world) then None else s.world.oldRecord)
            && r == Ok(if Retirable(s.world) then EXIT_OK else EXIT_LIVE_STILL_HAS_REFERENTS)
  {
    AloneArrives(s);
    var (s1, target) := NewManifestExists(s);
    AloneScan(s1, 0);
    var (s2, rows) := ScanFrom(s1, 0);
    var n := |s.world.slots|;
    CalmMoves(s2, rows.value);
    var (s3, moved) := MoveAll(s2, rows.value, true);
    forall i | 0 <= i < n { ReferentsAreAll(s.world, 0, n, i); }
    assert s3.world.slots == Settle(s.world).slots;
    NothingToList(s3.world, 0, n);
    AloneScan(s3, 0);
    CalmRetire(ScanFrom(s3, 0).0);
  }

  lemma CalmRetire(s: State)
    requires Calm(s) && Unused(s.world)
    ensures var (t, r) := Retire(s, true);
            && t.world == s.world.(oldRecord := if Retirable(s.world) then None else s.world.oldRecord)
            && r == Ok(if Retirable(s.world) then EXIT_OK else EXIT_LIVE_STILL_HAS_REFERENTS)
  {
    AloneArrives(s);
    var (s1, exists_) := OldManifestExists(s);
    AloneArrives(s1);
    AloneFinalVerify(if exists_.value then DeleteOldRecord(s1).0 else s1, true);
  }

  /** Rerunning after a failure anywhere ends in the state an uninterrupted run ends in. */
  lemma RestartReachesTheSameEnd(s: State, prod: bool, confirmed: bool, again: seq<Turn>)
    requires Alone(s) && s.world.newRecord && Retirable(s.world) && (prod ==> confirmed)
    requires Calm(State(s.world, again))
    ensures var cut := Consolidate(s, prod, true, confirmed).0.world;
            var (t, r) := Consolidate(State(cut, again), prod, true, confirmed);
            && r == Ok(EXIT_OK)
            && t.world == Settle(s.world)
            && t.world == Consolidate(State(s.world, again), prod, true, confirmed).0.world
  {
    PartialRunKeepsSettlement(s, prod, true, confirmed);
    var cut := Consolidate(s, prod, true, confirmed).0.world;
    assert Settle(cut).newRecord == Settle(s.world).newRecord;
    CalmConsolidate(State(cut, again), prod, confirmed);
    CalmConsolidate(State(s.world, again), prod, confirmed);
  }

  /** Without `--apply`, or refused by the production gate, nothing is written. */
  lemma {:induction false} DryRunWritesNothing(s: State, prod: bool, apply: bool, confirmed: bool)
    requires Alone(s) && (!apply || (prod && !confirmed))
    ensures Consolidate(s, prod, apply, confirmed).0.world == s.world
  {
    if !apply {
      AloneArrives(s);
      var (s1, _) := NewManifestExists(s);
      AloneScan(s1, 0);
      var (s2, rows) := ScanFrom(s1, 0);
      if rows.Ok? {
        DryMoves(s2, rows.value);
        AloneScan(s2, 0);
        var s4 := ScanFrom(s2, 0).0;
        AloneArrives(s4);
        AloneFinalVerify(OldManifestExists(s4).0, apply);
      }
    }
  }

  /** The exit codes of a run nothing disturbs and that moves nothing: 2 unconfirmed in production,
      4 without the new manifest, and 0 for a dry run, referents and old record or not. */
  lemma CalmExitCodes(s: State, prod: bool, apply: bool, confirmed: bool)
    requires Calm(s)
    ensures prod && apply && !confirmed ==> Consolidate(s, prod, apply, confirmed) == (s, Ok(2))
    ensures !(prod && apply && !confirmed) && !s.world.newRecord ==>
              Consolidate(s, prod, apply, confirmed).0.world == s.world && Consolidate(s, prod, apply, confirmed).1 == Ok(4)
    ensures !apply && s.world.newRecord ==>
              Consolidate(s, prod, apply, confirmed).0.world == s.world && Consolidate(s, prod, apply, confirmed).1 == Ok(0)
  {
    AloneArrives(s);
    if !apply && s.world.newRecord {
      DryRunWritesNothing(s, prod, apply, confirmed);
      var (s1, _) := NewManifestExists(s);
      AloneScan(s1, 0);
      var (s2, rows) := ScanFrom(s1, 0);
      DryMoves(s2, rows.value);
      AloneScan(s2, 0);
      var s4 := ScanFrom(s2, 0).0;
      AloneArrives(s4);
      AloneScan(Arrive(s4), 0);
      AloneArrives(ScanFrom(Arrive(s4), 0).0);
    }
  }

  lemma {:induction false} DryMoves(s: State, ids: seq<nat>)
    ensures MoveAll(s, ids, false) == (s, Ok(()))
    decreases |ids|
  {
    if ids != [] { DryMoves(s, ids[1..]); }
  }
}
