/** The two back-fills of the vehicle table, classification and then model assignment, with store
    calls that fail or crash at any point, and what a history of such runs comes to. */
module VehiclePipeline {
  import opened Prelude
  import opened VehicleModels

  type Table = map<string, Row>

  datatype Class = Onboard | Offboard

  predicate CloudSource(ds: string) { ds == "cloud-telemetry" || ds == "cloud-oem1" }

  predicate ValidSource(ds: string) { CloudSource(ds) || ds == "vehicle-telemetry" || ds == "onboard-fwe" }

  /** None where the source raises: no recognised dataSource and no legacy marker. */
  function Classify(row: Row): Option<Class> {
    if row.dataSource.Text? && ValidSource(row.dataSource.text) then
      Some(if CloudSource(row.dataSource.text) then Offboard else Onboard)
    else if row.oemSource == "oem1" then Some(Offboard)
    else None
  }

  function SeedSource(make: string): Option<string> {
    if make == "" then None else Some(if make == "Ford" then "cloud-telemetry" else "vehicle-telemetry")
  }

  predicate Truthy(a: Attr) { a.Text? && a.text != "" }

  // ---------------------------------------------------------------------------
  // The store
  // ---------------------------------------------------------------------------

  datatype Fault = Fine | ClientError | Crash

  datatype State = State(table: Table, faults: seq<Fault>)

  function FaultOf(s: State): Fault { if s.faults == [] then Fine else s.faults[0] }

  function Arrive(s: State): State { if s.faults == [] then s else s.(faults := s.faults[1..]) }

  /** What a write that takes effect makes of a row; both are conditional on an absent attribute. */
  datatype Change = SetSource(ds: string) | SetCertificate(cert: string) | SetModel(manifest: string, brand: Option<string>)

  predicate Applies(row: Row, c: Change) {
    match c
    case SetSource(_) => row.dataSource.Absent?
    case SetCertificate(_) => row.certificateId.Absent?
    case SetModel(_, _) => true
  }

  function Changed(row: Row, c: Change): Row {
    match c
    case SetSource(ds) => row.(dataSource := Text(ds))
    case SetCertificate(cert) => row.(certificateId := Text(cert))
    case SetModel(m, brand) =>
      var named := row.(modelManifestName := Some(m));
      if brand.Some? then named.(make := "Meridian", model := brand.value) else named
  }

  datatype Written = Took | Condition | Failed | Died

  function Write(s: State, id: string, c: Change): (State, Written) {
    var t := Arrive(s);
    match FaultOf(s)
    case Crash => (t, Died)
    case ClientError => (t, Failed)
    case Fine =>
      if id !in s.table || !Applies(s.table[id], c) then (t, Condition)
      else (t.(table := t.table[id := Changed(t.table[id], c)]), Took)
  }

  // ---------------------------------------------------------------------------
  // Classification
  // ---------------------------------------------------------------------------

  datatype Tally = Tally(written: seq<string>, already: nat, noMake: nat, errors: nat)

  const EMPTY := Tally([], 0, 0, 0)

  function BackfillOne(s: State, id: string, make: string, tally: Tally): (State, Reply<Tally>) {
    match SeedSource(make)
    case None => (s, Ok(tally.(noMake := tally.noMake + 1)))
    case Some(ds) =>
      var (t, w) := Write(s, id, SetSource(ds));
      (t, match w
          case Took => Ok(tally.(written := tally.written + [id]))
          case Condition => Ok(tally.(already := tally.already + 1))
          case Failed => Ok(tally.(errors := tally.errors + 1))
          case Died => Raise)
  }

  /** `scan` is the table as listed; rows that already read as having a source were left out. */
  function BackfillAll(s: State, scan: Table, ids: seq<string>, tally: Tally): (State, Reply<Tally>)
    decreases |ids|
  {
    if ids == [] then (s, Ok(tally))
    else if ids[0] !in scan || Truthy(scan[ids[0]].dataSource) then BackfillAll(s, scan, ids[1..], tally)
    else
      var (t, r) := BackfillOne(s, ids[0], scan[ids[0]].make, tally);
      if r.Raise? then (t, Raise) else BackfillAll(t, scan, ids[1..], r.value)
  }

  /** Any refused read ends the run. */
  function VerifyAll(s: State, ids: seq<string>): (State, Reply<nat>)
    decreases |ids|
  {
    if ids == [] then (s, Ok(0))
    else if FaultOf(s) != Fine then (Arrive(s), Raise)
    else
      var (t, rest) := VerifyAll(Arrive(s), ids[1..]);
      var good := ids[0] in s.table && Truthy(s.table[ids[0]].dataSource) && Classify(s.table[ids[0]]).Some?;
      (t, if rest.Raise? then Raise else Ok(rest.value + if good then 0 else 1))
  }

  /** `certs` maps a vehicle to the certificate id of its row in the certificate table. */
  function ReconcileOne(s: State, certs: map<string, string>, id: string): (State, Reply<bool>) {
    var t := Arrive(s);
    if FaultOf(s) != Fine then (t, Raise)
    else if id !in s.table || Classify(s.table[id]) != Some(Onboard) || Truthy(s.table[id].certificateId) then (t, Ok(true))
    else
      var u := Arrive(t);
      match FaultOf(t)
      case Crash => (u, Raise)
      case ClientError => (u, Ok(true))
      case Fine =>
        if id !in certs || certs[id] == "" then (u, Ok(true))
        else
          var (v, w) := Write(u, id, SetCertificate(certs[id]));
          (v, if w == Died then Raise else Ok(w != Failed))
  }

  function ReconcileAll(s: State, certs: map<string, string>, ids: seq<string>): (State, Reply<nat>)
    decreases |ids|
  {
    if ids == [] then (s, Ok(0))
    else
      var (t, r) := ReconcileOne(s, certs, ids[0]);
      if r.Raise? then (t, Raise)
      else
        var (u, rest) := ReconcileAll(t, certs, ids[1..]);
        (u, if rest.Raise? then Raise else Ok(rest.value + if r.value then 0 else 1))
  }

  function OnboardOnly(t: Table, order: seq<string>): (r: seq<string>)
    ensures forall id :: id in r <==> id in order && id in t && Classify(t[id]) == Some(Onboard)
  {
    if order == [] then []
    else (if order[0] in t && Classify(t[order[0]]) == Some(Onboard) then [order[0]] else []) + OnboardOnly(t, order[1..])
  }

  function Finish(s: State, tally: Tally, certs: map<string, string>, order: seq<string>, reconcile: bool): (State, Reply<nat>) {
    var (t, bad) := VerifyAll(s, tally.written);
    var code := if tally.errors > 0 then 1 else 0;
    if bad.Raise? then (t, Raise)
    else if bad.value > 0 then (t, Ok(1))
    else if !reconcile then (t, Ok(code))
    else if FaultOf(t) != Fine then (Arrive(t), Raise)
    else
      var (u, failed) := ReconcileAll(Arrive(t), certs, OnboardOnly(t.table, order));
      (u, if failed.Raise? then Raise else Ok(code))
  }

  /** `order` is how a scan lists the table.  Exit code 0 or 1. */
  function ClassifyRun(s: State, certs: map<string, string>, order: seq<string>, reconcile: bool): (State, Reply<nat>) {
    if FaultOf(s) != Fine then (Arrive(s), Raise)
    else
      var (s1, tally) := BackfillAll(Arrive(s), s.table, order, EMPTY);
      if tally.Raise? then (s1, Raise) else Finish(s1, tally.value, certs, order, reconcile)
  }

  // ---------------------------------------------------------------------------
  // Model assignment
  // ---------------------------------------------------------------------------

  const OK := 0
  const PRECONDITION_FAILED := 2
  const AWS_ERROR := 5

  predicate Preflight(t: Table, order: seq<string>) {
    forall i :: 0 <= i < |order| && order[i] in t ==> Classify(t[order[i]]).Some?
  }

  function ModelChange(id: string, row: Row): Option<Change> {
    if Classify(row) != Some(Onboard) || AssignModelLine(id, row).None? then None
    else Some(SetModel(AssignModelLine(id, row).value, BrandConversion(id)))
  }

  function AssignAll(s: State, scan: Table, ids: seq<string>): (State, Reply<nat>)
    decreases |ids|
  {
    if ids == [] then (s, Ok(OK))
    else if ids[0] !in scan || ModelChange(ids[0], scan[ids[0]]).None? then AssignAll(s, scan, ids[1..])
    else
      var (t, w) := Write(s, ids[0], ModelChange(ids[0], scan[ids[0]]).value);
      match w
      case Died => (t, Raise)
      case Failed => (t, Ok(AWS_ERROR))
      case _ => AssignAll(t, scan, ids[1..])
  }

  function ModelRun(s: State, order: seq<string>, apply: bool): (State, Reply<nat>) {
    var t := Arrive(s);
    match FaultOf(s)
    case Crash => (t, Raise)
    case ClientError => (t, Ok(AWS_ERROR))
    case Fine =>
      if !Preflight(s.table, order) then (t, Ok(PRECONDITION_FAILED))
      else if !apply then (t, Ok(OK))
      else AssignAll(t, s.table, order)
  }

  // ---------------------------------------------------------------------------
  // One row through the pipeline
  // ---------------------------------------------------------------------------

  function Sourced(row: Row): Row {
    if row.dataSource.Absent? && SeedSource(row.make).Some? then row.(dataSource := Text(SeedSource(row.make).value)) else row
  }

  function Linked(certs: map<string, string>, id: string, row: Row): Row {
    if Classify(row) == Some(Onboard) && row.certificateId.Absent? && id in certs && certs[id] != ""
    then row.(certificateId := Text(certs[id])) else row
  }

  function Modelled(id: string, row: Row): Row {
    if ModelChange(id, row).Some? then Changed(row, ModelChange(id, row).value) else row
  }

  function Through(certs: map<string, string>, id: string, row: Row): Row {
    Modelled(id, Linked(certs, id, Sourced(row)))
  }

  /** Assigning keeps the line assigned, brand conversion or not. */
  lemma ModelIsStable(id: string, row: Row)
    ensures Modelled(id, Modelled(id, row)) == Modelled(id, row) && Classify(Modelled(id, row)) == Classify(row)
  {
    ExplicitTablesAgree(id);
  }

  /** Each stage, done early, changes nothing in how the row ends. */
  lemma StagesAreAbsorbed(certs: map<string, string>, id: string, row: Row)
    ensures Through(certs, id, Sourced(row)) == Through(certs, id, row)
    ensures Through(certs, id, Linked(certs, id, row)) == Through(certs, id, row)
    ensures Through(certs, id, Modelled(id, row)) == Through(certs, id, row)
  {
    SourcedIsAbsorbed(row);
    LinkedIsAbsorbed(certs, id, row);
    ModelledIsAbsorbed(certs, id, row);
  }

  lemma SourcedIsAbsorbed(row: Row)
    ensures Sourced(Sourced(row)) == Sourced(row)
  {}

  lemma LinkedIsAbsorbed(certs: map<string, string>, id: string, row: Row)
    ensures Linked(certs, id, Sourced(Linked(certs, id, row))) == Linked(certs, id, Sourced(row))
  {}

  lemma ModelledIsAbsorbed(certs: map<string, string>, id: string, row: Row)
    ensures Through(certs, id, Modelled(id, row)) == Through(certs, id, row)
  {
    if ModelChange(id, row).Some? {
      assert Sourced(row) == row && Sourced(Modelled(id, row)) == Modelled(id, row);
      assert Linked(certs, id, Modelled(id, row)) == Modelled(id, Linked(certs, id, row)) by {
        assert AssignModelLine(id, Linked(certs, id, row)) == AssignModelLine(id, row);
      }
      ModelIsStable(id, Linked(certs, id, row));
    }
  }

  // ---------------------------------------------------------------------------
  // What any run may do to a row
  // ---------------------------------------------------------------------------

  /** The rows a classification run leaves classifiable. */
  predicate Ready(row: Row) {
    || (row.dataSource.Text? && ValidSource(row.dataSource.text))
    || row.oemSource == "oem1"
    || (row.dataSource.Absent? && row.make != "")
  }

  lemma ReadyExactly(row: Row)
    ensures Ready(row) <==> Classify(Sourced(row)).Some?
  {}

  /** Nothing set is overwritten, a vehicle with a cloud source is left alone, and the row is still
      on its way to the same end. */
  ghost predicate Step(certs: map<string, string>, id: string, row: Row, row1: Row) {
    && Through(certs, id, row1) == Through(certs, id, row)
    && (Ready(row1) <==> Ready(row))
    && (!row.dataSource.Absent? ==> row1.dataSource == row.dataSource)
    && (!row.certificateId.Absent? ==> row1.certificateId == row.certificateId)
    && (row.dataSource.Text? && CloudSource(row.dataSource.text) ==> row1 == row)
  }

  lemma StagesAreSteps(certs: map<string, string>, id: string, row: Row)
    ensures Step(certs, id, row, Sourced(row)) && Step(certs, id, row, Linked(certs, id, row)) && Step(certs, id, row, Modelled(id, row))
  {
    StagesAreAbsorbed(certs, id, row);
  }

  lemma StepsCompose(certs: map<string, string>, id: string, a: Row, b: Row, c: Row)
    requires Step(certs, id, a, b) && Step(certs, id, b, c)
    ensures Step(certs, id, a, c)
  {}

  ghost predicate Toward(certs: map<string, string>, t: Table, t1: Table) {
    t1.Keys == t.Keys && forall id :: id in t ==> Step(certs, id, t[id], t1[id])
  }

  lemma TowardCompose(certs: map<string, string>, a: Table, b: Table, c: Table)
    requires Toward(certs, a, b) && Toward(certs, b, c)
    ensures Toward(certs, a, c)
  {
    forall id | id in a ensures Step(certs, id, a[id], c[id]) { StepsCompose(certs, id, a[id], b[id], c[id]); }
  }

  /** Each row as scanned, or with its source filled in. */
  ghost predicate PartlySourced(scan: Table, t: Table) {
    t.Keys == scan.Keys && forall id :: id in scan ==> t[id] == scan[id] || t[id] == Sourced(scan[id])
  }

  lemma {:induction false} BackfillSources(s: State, scan: Table, ids: seq<string>, tally: Tally)
    requires PartlySourced(scan, s.table)
    ensures var (t, r) := BackfillAll(s, scan, ids, tally);
            && PartlySourced(scan, t.table)
            && (forall id :: id in scan && s.table[id] == Sourced(scan[id]) ==> t.table[id] == Sourced(scan[id]))
            && (r.Ok? ==> r.value.errors >= tally.errors)
            && (r.Ok? && r.value.errors == tally.errors ==> forall id :: id in ids && id in scan ==> t.table[id] == Sourced(scan[id]))
            && (s.faults == [] ==>
                  && t.faults == [] && r.Ok? && r.value.errors == tally.errors
                  && (forall id :: id in r.value.written ==>
                        id in tally.written || (id in t.table && Truthy(t.table[id].dataSource) && Classify(t.table[id]).Some?)))
    decreases |ids|
  {
    if ids != [] {
      if ids[0] !in scan || Truthy(scan[ids[0]].dataSource) {
        BackfillSources(s, scan, ids[1..], tally);
      } else {
        var (t, r) := BackfillOne(s, ids[0], scan[ids[0]].make, tally);
        BackfillOneSources(s, scan, ids[0], tally);
        if r.Ok? { BackfillSources(t, scan, ids[1..], r.value); }
      }
    }
  }

  lemma BackfillOneSources(s: State, scan: Table, id: string, tally: Tally)
    requires PartlySourced(scan, s.table) && id in scan && !Truthy(scan[id].dataSource)
    ensures var (t, r) := BackfillOne(s, id, scan[id].make, tally);
            && PartlySourced(scan, t.table)
            && (forall k :: k in scan && s.table[k] == Sourced(scan[k]) ==> t.table[k] == Sourced(scan[k]))
            && (r.Ok? ==> r.value.errors == tally.errors || r.value.errors == tally.errors + 1)
            && (r.Ok? && r.value.errors == tally.errors ==> t.table[id] == Sourced(scan[id]))
            && (s.faults == [] ==>
                  && t.faults == [] && r.Ok? && r.value.errors == tally.errors
                  && (r.value.written == tally.written
                      || (r.value.written == tally.written + [id] && Truthy(t.table[id].dataSource) && Classify(t.table[id]).Some?)))
  {
    if SeedSource(scan[id].make).Some? {
      WriteSource(s, id, SeedSource(scan[id].make).value, scan[id]);
      if scan[id].dataSource.Absent? { SeededIsClassifiable(scan[id]); }
    }
  }

  lemma SeededIsClassifiable(row: Row)
    requires row.dataSource.Absent? && SeedSource(row.make).Some?
    ensures Truthy(Sourced(row).dataSource) && Classify(Sourced(row)).Some?
  {}

  lemma WriteSource(s: State, id: string, ds: string, row: Row)
    requires SeedSource(row.make) == Some(ds) && id in s.table && (s.table[id] == row || s.table[id] == Sourced(row))
    ensures var (t, w) := Write(s, id, SetSource(ds));
            && t.table.Keys == s.table.Keys
            && (forall k :: k in s.table && k != id ==> t.table[k] == s.table[k])
            && (t.table[id] == s.table[id] || t.table[id] == Sourced(row))
            && (w == Took ==> row.dataSource.Absent?) && (w == Took || w == Condition ==> t.table[id] == Sourced(row))
            && (s.faults == [] ==> t.faults == [] && (w == Took || w == Condition))
  {}

  lemma {:induction false} VerifyOnlyReads(s: State, ids: seq<string>)
    ensures var (t, r) := VerifyAll(s, ids);
            && t.table == s.table
            && (s.faults == [] && (forall id :: id in ids ==> id in s.table && Truthy(s.table[id].dataSource) && Classify(s.table[id]).Some?)
                ==> t.faults == [] && r == Ok(0))
    decreases |ids|
  {
    if ids != [] { VerifyOnlyReads(Arrive(s), ids[1..]); }
  }

  /** Each row as it was, or with its certificate linked. */
  ghost predicate PartlyLinked(certs: map<string, string>, t: Table, t1: Table) {
    t1.Keys == t.Keys && forall id :: id in t ==> t1[id] == t[id] || t1[id] == Linked(certs, id, t[id])
  }

  lemma ReconcileOneLinks(s: State, certs: map<string, string>, id: string)
    ensures var (t, r) := ReconcileOne(s, certs, id);
            && t.table.Keys == s.table.Keys
            && (forall k :: k in s.table && k != id ==> t.table[k] == s.table[k])
            && (id in s.table ==> t.table[id] == s.table[id] || t.table[id] == Linked(certs, id, s.table[id]))
            && (s.faults == [] ==> t.faults == [] && r.Ok? && (id in s.table ==> t.table[id] == Linked(certs, id, s.table[id])))
  {}

  lemma {:induction false} ReconcileLinks(s: State, certs: map<string, string>, base: Table, ids: seq<string>)
    requires PartlyLinked(certs, base, s.table)
    ensures var (t, r) := ReconcileAll(s, certs, ids);
            && PartlyLinked(certs, base, t.table)
            && (forall id :: id in base && s.table[id] == Linked(certs, id, base[id]) ==> t.table[id] == Linked(certs, id, base[id]))
            && (s.faults == [] ==>
                  t.faults == [] && r.Ok? && forall id :: id in ids && id in base ==> t.table[id] == Linked(certs, id, base[id]))
    decreases |ids|
  {
    if ids != [] {
      ReconcileOneLinks(s, certs, ids[0]);
      var (t, r) := ReconcileOne(s, certs, ids[0]);
      if r.Ok? { ReconcileLinks(t, certs, base, ids[1..]); }
    }
  }

  ghost predicate PartlyModelled(scan: Table, t: Table) {
    t.Keys == scan.Keys && forall id :: id in scan ==> t[id] == scan[id] || t[id] == Modelled(id, scan[id])
  }

  lemma {:induction false} AssignModels(s: State, scan: Table, ids: seq<string>)
    requires PartlyModelled(scan, s.table)
    ensures var (t, r) := AssignAll(s, scan, ids);
            && PartlyModelled(scan, t.table)
            && (forall id :: id in scan && s.table[id] == Modelled(id, scan[id]) ==> t.table[id] == Modelled(id, scan[id]))
            && (r == Ok(OK) ==> forall id :: id in ids && id in scan ==> t.table[id] == Modelled(id, scan[id]))
            && (r.Ok? ==> r.value in {OK, AWS_ERROR}) && (s.faults == [] ==> t.faults == [] && r == Ok(OK))
    decreases |ids|
  {
    if ids != [] {
      if ids[0] !in scan || ModelChange(ids[0], scan[ids[0]]).None? {
        AssignModels(s, scan, ids[1..]);
      } else {
        AssignOne(s, scan, ids[0]);
        var (t, w) := Write(s, ids[0], ModelChange(ids[0], scan[ids[0]]).value);
        if w == Took || w == Condition { AssignModels(t, scan, ids[1..]); }
      }
    }
  }

  lemma AssignOne(s: State, scan: Table, id: string)
    requires PartlyModelled(scan, s.table) && id in scan && ModelChange(id, scan[id]).Some?
    ensures var (t, w) := Write(s, id, ModelChange(id, scan[id]).value);
            && PartlyModelled(scan, t.table)
            && (forall k :: k in scan && s.table[k] == Modelled(k, scan[k]) ==> t.table[k] == Modelled(k, scan[k]))
            && (w == Took || w == Condition ==> t.table[id] == Modelled(id, scan[id]))
            && (s.faults == [] ==> t.faults == [] && w == Took)
  {
    var c := ModelChange(id, scan[id]).value;
    assert Modelled(id, scan[id]) == Changed(scan[id], c);
    WriteModel(s, id, c, scan[id]);
  }

  lemma WriteModel(s: State, id: string, c: Change, row: Row)
    requires c.SetModel? && id in s.table && (s.table[id] == row || s.table[id] == Changed(row, c))
    ensures var (t, w) := Write(s, id, c);
            && t.table.Keys == s.table.Keys
            && (forall k :: k in s.table && k != id ==> t.table[k] == s.table[k])
            && (t.table[id] == s.table[id] || t.table[id] == Changed(row, c))
            && w != Condition && (w == Took ==> t.table[id] == Changed(row, c)) && (s.faults == [] ==> t.faults == [] && w == Took)
  {}

  // ---------------------------------------------------------------------------
  // Runs
  // ---------------------------------------------------------------------------

  lemma SourcedIsToward(certs: map<string, string>, t: Table, t1: Table)
    requires PartlySourced(t, t1)
    ensures Toward(certs, t, t1)
  {
    forall id | id in t ensures Step(certs, id, t[id], t1[id]) { StagesAreSteps(certs, id, t[id]); }
  }

  lemma LinkedIsToward(certs: map<string, string>, t: Table, t1: Table)
    requires PartlyLinked(certs, t, t1)
    ensures Toward(certs, t, t1)
  {
    forall id | id in t ensures Step(certs, id, t[id], t1[id]) { StagesAreSteps(certs, id, t[id]); }
  }

  lemma ModelledIsToward(certs: map<string, string>, t: Table, t1: Table)
    requires PartlyModelled(t, t1)
    ensures Toward(certs, t, t1)
  {
    forall id | id in t ensures Step(certs, id, t[id], t1[id]) { StagesAreSteps(certs, id, t[id]); }
  }

  predicate Covers(t: Table, order: seq<string>) { forall id :: id in t ==> id in order }

  /** Nothing after the back-fill touches a source, and a refused write of one is not forgotten. */
  lemma SourcesStay(s: State, tally: Tally, certs: map<string, string>, order: seq<string>, reconcile: bool)
    ensures var (t, r) := Finish(s, tally, certs, order, reconcile);
            && t.table.Keys == s.table.Keys && (forall id :: id in s.table ==> t.table[id].dataSource == s.table[id].dataSource)
            && (r == Ok(0) ==> tally.errors == 0) && (r.Ok? ==> r.value in {0, 1})
  {
    VerifyOnlyReads(s, tally.written);
    var (t, bad) := VerifyAll(s, tally.written);
    if bad.Ok? && bad.value == 0 && reconcile && FaultOf(t) == Fine {
      ReconcileLinks(Arrive(t), certs, t.table, OnboardOnly(t.table, order));
    }
  }

  /** A classification run, however it fails, only moves rows toward their end, and answers 0 only
      with every listed row seeded; undisturbed and over the whole table it does, with every
      certificate linked if asked to. */
  lemma ClassifyRunMoves(s: State, certs: map<string, string>, order: seq<string>, reconcile: bool)
    ensures var (t, r) := ClassifyRun(s, certs, order, reconcile);
            && Toward(certs, s.table, t.table)
            && (r == Ok(0) ==> forall id :: id in s.table && id in order ==> t.table[id].dataSource == Sourced(s.table[id]).dataSource)
            && (r.Ok? ==> r.value in {0, 1})
            && (s.faults == [] && Covers(s.table, order) ==>
                  && t.faults == [] && r == Ok(0)
                  && (forall id :: id in s.table ==>
                        t.table[id] == if reconcile then Linked(certs, id, Sourced(s.table[id])) else Sourced(s.table[id])))
  {
    StillToward(certs, s.table);
    if FaultOf(s) == Fine {
      BackfillSources(Arrive(s), s.table, order, EMPTY);
      var (s1, tally) := BackfillAll(Arrive(s), s.table, order, EMPTY);
      SourcedIsToward(certs, s.table, s1.table);
      if tally.Ok? {
        SourcesStay(s1, tally.value, certs, order, reconcile);
        FinishMoves(s1, tally.value, certs, order, reconcile);
        TowardCompose(certs, s.table, s1.table, Finish(s1, tally.value, certs, order, reconcile).0.table);
      }
    }
  }

  lemma FinishMoves(s: State, tally: Tally, certs: map<string, string>, order: seq<string>, reconcile: bool)
    ensures var (t, r) := Finish(s, tally, certs, order, reconcile);
            && Toward(certs, s.table, t.table)
            && (s.faults == [] && Covers(s.table, order) && tally.errors == 0
                && (forall id :: id in tally.written ==>
                      id in s.table && Truthy(s.table[id].dataSource) && Classify(s.table[id]).Some?) ==>
                  && t.faults == [] && r == Ok(0)
                  && (forall id :: id in s.table ==>
                        t.table[id] == if reconcile then Linked(certs, id, s.table[id]) else s.table[id]))
  {
    StillToward(certs, s.table);
    VerifyOnlyReads(s, tally.written);
    var (t, bad) := VerifyAll(s, tally.written);
    if bad.Ok? && bad.value == 0 && reconcile && FaultOf(t) == Fine {
      var ids := OnboardOnly(t.table, order);
      ReconcileLinks(Arrive(t), certs, t.table, ids);
      LinkedIsToward(certs, t.table, ReconcileAll(Arrive(t), certs, ids).0.table);
    }
  }

  lemma StillToward(certs: map<string, string>, t: Table)
    ensures Toward(certs, t, t)
  {}

  lemma ModelRunMoves(s: State, certs: map<string, string>, order: seq<string>, apply: bool)
    ensures var (t, r) := ModelRun(s, order, apply);
            && Toward(certs, s.table, t.table)
            && (forall id :: id in s.table && Classify(s.table[id]) != Some(Onboard) ==> t.table[id] == s.table[id])
            && (!apply || !Preflight(s.table, order) ==> t.table == s.table)
            && (r == Ok(PRECONDITION_FAILED) <==> FaultOf(s) == Fine && !Preflight(s.table, order))
            && (apply && r == Ok(OK) ==> forall id :: id in s.table && id in order ==> t.table[id] == Modelled(id, s.table[id]))
            && (s.faults == [] ==> t.faults == [] && (Preflight(s.table, order) ==> r == Ok(OK)))
  {
    StillToward(certs, s.table);
    if FaultOf(s) == Fine && Preflight(s.table, order) && apply {
      AssignModels(Arrive(s), s.table, order);
      ModelledIsToward(certs, s.table, AssignAll(Arrive(s), s.table, order).0.table);
    }
  }

  /** A row given its line, and with it the new brand and model of a vehicle converted by id. */
  function Given(row: Row, line: Option<string>, brand: Option<string>): Row {
    row.(modelManifestName := line,
         make := if brand.Some? then "Meridian" else row.make, model := if brand.Some? then brand.value else row.model)
  }

  lemma ModelledExactly(id: string, row: Row)
    requires Classify(row) == Some(Onboard)
    ensures Modelled(id, row) == if AssignModelLine(id, row).None? then row else Given(row, AssignModelLine(id, row), BrandConversion(id))
  {}

  /** What a model run that answers 0 has made of each onboard row; one without a line stays. */
  lemma AssignedExactly(s: State, order: seq<string>, id: string)
    requires id in s.table && id in order && Classify(s.table[id]) == Some(Onboard)
    requires ModelRun(s, order, true).1 == Ok(OK)
    ensures var row := s.table[id]; var t := ModelRun(s, order, true).0.table; var line := AssignModelLine(id, row);
            id in t && t[id] == if line.None? then row else Given(row, line, BrandConversion(id))
  {
    ModelRunMoves(s, map[], order, true);
    ModelledExactly(id, s.table[id]);
  }

  /** An onboard Meridian of a named line, not in the explicit table, comes out of a model run that
      answers 0 with that line and nothing else changed, whatever its fuel and body. */
  lemma OwnLineIsAssigned(s: State, order: seq<string>, id: string)
    requires id in s.table && id in order && Classify(s.table[id]) == Some(Onboard) && ExplicitManifest(id).None?
    requires Normalise(s.table[id].make) == "meridian" && Normalise(s.table[id].model) in LINES
    requires ModelRun(s, order, true).1 == Ok(OK)
    ensures var t := ModelRun(s, order, true).0.table;
            id in t && t[id] == s.table[id].(modelManifestName := LineManifest(Normalise(s.table[id].model)))
  {
    AssignedExactly(s, order, id);
    OwnLineComesFirst(id, s.table[id]);
    ExplicitTablesAgree(id);
  }

  /** The classes by what the row says. */
  lemma ClassExactly(row: Row)
    ensures Classify(row) == Some(Onboard) <==> row.dataSource.Text? && row.dataSource.text in {"vehicle-telemetry", "onboard-fwe"}
    ensures Classify(row) == Some(Offboard) <==>
              || (row.dataSource.Text? && row.dataSource.text in {"cloud-telemetry", "cloud-oem1"})
              || (row.oemSource == "oem1" && Classify(row) != Some(Onboard))
    ensures row.dataSource.Absent? ==>
              Sourced(row) == if row.make == "" then row
                              else row.(dataSource := Text(if row.make == "Ford" then "cloud-telemetry" else "vehicle-telemetry"))
    ensures !row.dataSource.Absent? ==> Sourced(row) == row
  {}

  // ---------------------------------------------------------------------------
  // Faults met and rows counted
  // ---------------------------------------------------------------------------

  function Refused(faults: seq<Fault>): nat {
    if faults == [] then 0 else (if faults[0] == ClientError then 1 else 0) + Refused(faults[1..])
  }

  lemma {:induction false} RefusedAdds(a: seq<Fault>, b: seq<Fault>)
    ensures Refused(a + b) == Refused(a) + Refused(b)
  {
    if a == [] {
      assert a + b == b;
    } else {
      assert (a + b)[1..] == a[1..] + b;
      RefusedAdds(a[1..], b);
    }
  }

  /** The faults met between two points: `ok` when none was a crash, and then so many refusals. */
  ghost predicate Met(before: seq<Fault>, after: seq<Fault>, ok: bool, refusals: int) {
    && |after| <= |before| && after == before[|before| - |after|..]
    && (ok <==> Crash !in before[..|before| - |after|])
    && (ok ==> Refused(before[..|before| - |after|]) == refusals)
  }

  lemma MetCompose(a: seq<Fault>, b: seq<Fault>, c: seq<Fault>, m: int, ok: bool, n: int)
    requires Met(a, b, true, m) && Met(b, c, ok, n)
    ensures Met(a, c, ok, m + n)
  {
    assert a[..|a| - |c|] == a[..|a| - |b|] + b[..|b| - |c|];
    RefusedAdds(a[..|a| - |b|], b[..|b| - |c|]);
  }

  lemma OneMet(s: State)
    ensures Met(s.faults, Arrive(s).faults, FaultOf(s) != Crash, if FaultOf(s) == ClientError then 1 else 0)
  {
    if s.faults != [] {
      assert s.faults[..1] == [s.faults[0]] && [s.faults[0]][1..] == [];
    } else {
      assert Refused([]) == 0;
    }
  }

  predicate Unset(row: Row) { !row.dataSource.Text? || row.dataSource.text == "" }

  /** How many of the listed rows have no source, by whether they have a make. */
  function ToSeed(scan: Table, ids: seq<string>, made: bool): nat
    decreases |ids|
  {
    if ids == [] then 0
    else (if ids[0] in scan && Unset(scan[ids[0]]) && (scan[ids[0]].make != "") == made then 1 else 0) + ToSeed(scan, ids[1..], made)
  }

  /** Every listed row without a source is counted: as one without a make, or under what became
      of it. */
  lemma {:induction false} BackfillCounts(s: State, scan: Table, ids: seq<string>, tally: Tally)
    requires BackfillAll(s, scan, ids, tally).1.Ok?
    ensures var r := BackfillAll(s, scan, ids, tally).1.value;
            && r.noMake == tally.noMake + ToSeed(scan, ids, false)
            && Handled(r) == Handled(tally) + ToSeed(scan, ids, true)
    decreases |ids|
  {
    if ids != [] {
      if ids[0] !in scan || Truthy(scan[ids[0]].dataSource) {
        BackfillCounts(s, scan, ids[1..], tally);
      } else {
        var (t, r) := BackfillOne(s, ids[0], scan[ids[0]].make, tally);
        OneCounts(s, ids[0], scan[ids[0]].make, tally);
        BackfillCounts(t, scan, ids[1..], r.value);
      }
    }
  }

  /** By how much the errors went up. */
  function Raised(r: Reply<Tally>, tally: Tally): int { if r.Ok? then r.value.errors - tally.errors else 0 }

  /** The back-fill ends early exactly at a crash, and its errors are the refused writes. */
  lemma {:induction false} BackfillErrors(s: State, scan: Table, ids: seq<string>, tally: Tally)
    ensures var (t, r) := BackfillAll(s, scan, ids, tally);
            Met(s.faults, t.faults, r.Ok?, Raised(r, tally))
    decreases |ids|
  {
    if ids == [] {
      NothingMet(s.faults);
    } else if ids[0] !in scan || Truthy(scan[ids[0]].dataSource) {
      BackfillErrors(s, scan, ids[1..], tally);
    } else {
      var (t, r) := BackfillOne(s, ids[0], scan[ids[0]].make, tally);
      OneErrs(s, ids[0], scan[ids[0]].make, tally);
      if r.Ok? {
        BackfillErrors(t, scan, ids[1..], r.value);
        var (u, r1) := BackfillAll(t, scan, ids[1..], r.value);
        MetCompose(s.faults, t.faults, u.faults, Raised(r, tally), r1.Ok?, Raised(r1, r.value));
      }
    }
  }

  function Handled(tally: Tally): nat { |tally.written| + tally.already + tally.errors }

  lemma OneCounts(s: State, id: string, make: string, tally: Tally)
    requires BackfillOne(s, id, make, tally).1.Ok?
    ensures var r := BackfillOne(s, id, make, tally).1.value;
            && r.noMake == tally.noMake + (if make == "" then 1 else 0)
            && Handled(r) == Handled(tally) + if make == "" then 0 else 1
  {}

  lemma WriteMeets(s: State, id: string, c: Change)
    ensures var (t, w) := Write(s, id, c); Met(s.faults, t.faults, w != Died, if w == Failed then 1 else 0)
  {
    OneMet(s);
  }

  lemma OneErrs(s: State, id: string, make: string, tally: Tally)
    ensures var (t, r) := BackfillOne(s, id, make, tally);
            Met(s.faults, t.faults, r.Ok?, Raised(r, tally))
  {
    if SeedSource(make).Some? {
      WriteMeets(s, id, SetSource(SeedSource(make).value));
    } else {
      NothingMet(s.faults);
    }
  }

  lemma NothingMet(faults: seq<Fault>)
    ensures Met(faults, faults, true, 0)
  {
    assert faults[..0] == [] && Refused([]) == 0;
  }

  /** How many of these rows do not read back with a source that classifies. */
  function NotClassified(t: Table, ids: seq<string>): nat {
    if ids == [] then 0
    else (if ids[0] in t && !Unset(t[ids[0]]) && Classify(t[ids[0]]).Some? then 0 else 1) + NotClassified(t, ids[1..])
  }

  /** The read-back counts the rows that do not classify, and ends the run at a refused read. */
  lemma {:induction false} VerifiedExactly(s: State, ids: seq<string>)
    ensures var (t, r) := VerifyAll(s, ids);
            && t.table == s.table && (r.Ok? ==> r.value == NotClassified(s.table, ids))
            && (r.Ok? <==> forall i :: 0 <= i < |ids| && i < |s.faults| ==> s.faults[i] == Fine)
    decreases |ids|
  {
    if ids != [] && FaultOf(s) == Fine {
      var t := Arrive(s);
      VerifiedExactly(t, ids[1..]);
      assert forall i :: 0 <= i < |t.faults| ==> t.faults[i] == s.faults[i + 1];
      assert forall i :: 0 < i < |s.faults| ==> s.faults[i] == t.faults[i - 1];
    }
  }

  /** How an assignment loop ends: OK with nothing but calls that went through, else by the last. */
  predicate EndsAs(before: seq<Fault>, after: seq<Fault>, r: Reply<nat>) {
    var n := |before| - |after|;
    && n >= 0 && after == before[n..]
    && (forall i :: 0 <= i < n - 1 ==> before[i] == Fine)
    && (r == Ok(0) ==> n == 0 || before[n - 1] == Fine)
    && (r != Ok(0) ==> n > 0 && before[n - 1] == if r.Raise? then Crash else ClientError)
    && (r.Ok? ==> r.value in {0, 5})
  }

  lemma {:induction false} AssignmentEnds(s: State, scan: Table, ids: seq<string>)
    ensures EndsAs(s.faults, AssignAll(s, scan, ids).0.faults, AssignAll(s, scan, ids).1)
    decreases |ids|
  {
    if ids != [] {
      if ids[0] !in scan || ModelChange(ids[0], scan[ids[0]]).None? {
        AssignmentEnds(s, scan, ids[1..]);
      } else {
        var t := Write(s, ids[0], ModelChange(ids[0], scan[ids[0]]).value).0;
        if FaultOf(s) == Fine {
          AssignmentEnds(t, scan, ids[1..]);
          var (u, r) := AssignAll(t, scan, ids[1..]);
          assert AssignAll(s, scan, ids) == (u, r);
          EndsOneLater(s.faults, t.faults, u.faults, r);
        } else {
          EndsAtOnce(s);
        }
      }
    }
  }

  lemma EndsAtOnce(s: State)
    requires FaultOf(s) != Fine
    ensures EndsAs(s.faults, Arrive(s).faults, if FaultOf(s) == Crash then Raise else Ok(AWS_ERROR))
  {}

  lemma EndsOneLater(a: seq<Fault>, b: seq<Fault>, c: seq<Fault>, r: Reply<nat>)
    requires EndsAs(b, c, r) && b == (if a == [] then [] else a[1..]) && (a == [] || a[0] == Fine)
    ensures EndsAs(a, c, r)
  {
    if a != [] {
      var n := |a| - |c|;
      assert forall i :: 0 < i < |a| ==> a[i] == b[i - 1];
      assert a[n..] == b[n - 1..];
    }
  }

  /** A model run answers 2 exactly when its read went through and a row does not classify; else
      0 when every call went through, 5 at the first refused one, and nothing at a crash. */
  lemma ModelRunEnds(s: State, order: seq<string>, apply: bool)
    ensures var (t, r) := ModelRun(s, order, apply);
            if FaultOf(s) == Fine && exists i :: 0 <= i < |order| && order[i] in s.table && Classify(s.table[order[i]]).None?
            then r == Ok(2) && t.table == s.table else EndsAs(s.faults, t.faults, r)
  {
    if FaultOf(s) != Fine {
      EndsAtOnce(s);
    } else if Preflight(s.table, order) && apply {
      var t := Arrive(s);
      AssignmentEnds(t, s.table, order);
      EndsOneLater(s.faults, t.faults, AssignAll(t, s.table, order).0.faults, AssignAll(t, s.table, order).1);
    }
  }

  /** The calls between two points were made and none was a crash. */
  predicate Survived(before: seq<Fault>, after: seq<Fault>) {
    |after| <= |before| && after == before[|before| - |after|..] && Crash !in before[..|before| - |after|]
  }

  lemma SurvivedCompose(a: seq<Fault>, b: seq<Fault>, c: seq<Fault>)
    requires Survived(a, b) && Survived(b, c)
    ensures Survived(a, c)
  {
    assert a[..|a| - |c|] == a[..|a| - |b|] + b[..|b| - |c|];
  }

  lemma OneSurvived(s: State)
    requires FaultOf(s) != Crash
    ensures Survived(s.faults, Arrive(s).faults)
  {}

  lemma {:induction false} VerifySurvives(s: State, ids: seq<string>)
    requires VerifyAll(s, ids).1.Ok?
    ensures Survived(s.faults, VerifyAll(s, ids).0.faults)
    decreases |ids|
  {
    if ids != [] {
      OneSurvived(s);
      VerifySurvives(Arrive(s), ids[1..]);
      SurvivedCompose(s.faults, Arrive(s).faults, VerifyAll(Arrive(s), ids[1..]).0.faults);
    }
  }

  /** A link ends the run exactly at a refused read of the vehicle or a crash in one of its calls. */
  lemma LinkRaisesExactly(s: State, certs: map<string, string>, id: string)
    ensures var t := Arrive(s);
            ReconcileOne(s, certs, id).1.Raise? <==>
              || FaultOf(s) != Fine
              || (&& id in s.table && Classify(s.table[id]) == Some(Onboard)
                  && (s.table[id].certificateId.Text? ==> s.table[id].certificateId.text == "")
                  && (FaultOf(t) == Crash || (FaultOf(t) == Fine && id in certs && certs[id] != "" && FaultOf(Arrive(t)) == Crash)))
  {}

  lemma LinkSurvives(s: State, certs: map<string, string>, id: string)
    requires ReconcileOne(s, certs, id).1.Ok?
    ensures Survived(s.faults, ReconcileOne(s, certs, id).0.faults)
  {
    LinkRaisesExactly(s, certs, id);
    var after := ReconcileOne(s, certs, id).0;
    OneSurvived(s);
    if after != Arrive(s) {
      TwoSurvived(s);
      if after.faults != Arrive(Arrive(s)).faults { ThreeSurvived(s); }
    }
  }

  lemma TwoSurvived(s: State)
    requires FaultOf(s) != Crash && FaultOf(Arrive(s)) != Crash
    ensures Survived(s.faults, Arrive(Arrive(s)).faults)
  {}

  lemma ThreeSurvived(s: State)
    requires FaultOf(s) != Crash && FaultOf(Arrive(s)) != Crash && FaultOf(Arrive(Arrive(s))) != Crash
    ensures Survived(s.faults, Arrive(Arrive(Arrive(s))).faults)
  {
    TwoSurvived(s);
    OneSurvived(Arrive(Arrive(s)));
    SurvivedCompose(s.faults, Arrive(Arrive(s)).faults, Arrive(Arrive(Arrive(s))).faults);
  }

  lemma {:induction false} LinksSurvive(s: State, certs: map<string, string>, ids: seq<string>)
    requires ReconcileAll(s, certs, ids).1.Ok?
    ensures Survived(s.faults, ReconcileAll(s, certs, ids).0.faults)
    decreases |ids|
  {
    if ids != [] {
      LinkSurvives(s, certs, ids[0]);
      var t := ReconcileOne(s, certs, ids[0]).0;
      LinksSurvive(t, certs, ids[1..]);
      SurvivedCompose(s.faults, t.faults, ReconcileAll(t, certs, ids[1..]).0.faults);
    }
  }

  lemma FinishSurvives(s: State, tally: Tally, certs: map<string, string>, order: seq<string>, reconcile: bool)
    requires Finish(s, tally, certs, order, reconcile).1.Ok?
    ensures Survived(s.faults, Finish(s, tally, certs, order, reconcile).0.faults)
  {
    var (t, bad) := VerifyAll(s, tally.written);
    VerifySurvives(s, tally.written);
    if bad.value == 0 && reconcile {
      var ids := OnboardOnly(t.table, order);
      OneSurvived(t);
      LinksSurvive(Arrive(t), certs, ids);
      SurvivedCompose(s.faults, t.faults, Arrive(t).faults);
      SurvivedCompose(s.faults, Arrive(t).faults, ReconcileAll(Arrive(t), certs, ids).0.faults);
    }
  }

  lemma BackfillSurvives(s: State, scan: Table, ids: seq<string>, tally: Tally)
    requires BackfillAll(s, scan, ids, tally).1.Ok?
    ensures Survived(s.faults, BackfillAll(s, scan, ids, tally).0.faults)
  {
    BackfillErrors(s, scan, ids, tally);
  }

  /** A classification run that answers at all has met no crash. */
  lemma CrashesEndTheRun(s: State, certs: map<string, string>, order: seq<string>, reconcile: bool)
    requires ClassifyRun(s, certs, order, reconcile).1.Ok?
    ensures Survived(s.faults, ClassifyRun(s, certs, order, reconcile).0.faults)
  {
    var t := Arrive(s);
    var (s1, tally) := BackfillAll(t, s.table, order, EMPTY);
    OneSurvived(s);
    BackfillSurvives(t, s.table, order, EMPTY);
    SurvivedCompose(s.faults, t.faults, s1.faults);
    FinishSurvives(s1, tally.value, certs, order, reconcile);
    SurvivedCompose(s.faults, s1.faults, Finish(s1, tally.value, certs, order, reconcile).0.faults);
  }

  // ---------------------------------------------------------------------------
  // Histories
  // ---------------------------------------------------------------------------

  datatype Attempt =
    | Classification(order: seq<string>, reconcile: bool, faults: seq<Fault>)
    | Models(order: seq<string>, apply: bool, faults: seq<Fault>)

  function Attempted(t: Table, certs: map<string, string>, a: Attempt): Table {
    match a
    case Classification(order, reconcile, faults) => ClassifyRun(State(t, faults), certs, order, reconcile).0.table
    case Models(order, apply, faults) => ModelRun(State(t, faults), order, apply).0.table
  }

  function After(t: Table, certs: map<string, string>, runs: seq<Attempt>): Table
    decreases |runs|
  {
    if runs == [] then t else After(Attempted(t, certs, runs[0]), certs, runs[1..])
  }

  /** Whatever fails in whatever order, nothing set is overwritten and every row is on its way. */
  lemma {:induction false} HistoriesMoveToward(t: Table, certs: map<string, string>, runs: seq<Attempt>)
    ensures Toward(certs, t, After(t, certs, runs))
    decreases |runs|
  {
    if runs == [] {
      StillToward(certs, t);
    } else {
      var t1 := Attempted(t, certs, runs[0]);
      match runs[0] {
        case Classification(order, reconcile, faults) => ClassifyRunMoves(State(t, faults), certs, order, reconcile);
        case Models(order, apply, faults) => ModelRunMoves(State(t, faults), certs, order, apply);
      }
      HistoriesMoveToward(t1, certs, runs[1..]);
      TowardCompose(certs, t, t1, After(t1, certs, runs[1..]));
    }
  }

  lemma PreflightExactly(t: Table, order: seq<string>)
    requires Covers(t, order)
    ensures Preflight(t, order) <==> forall id :: id in t ==> Classify(t[id]).Some?
  {
    if Preflight(t, order) {
      forall id | id in t ensures Classify(t[id]).Some? {
        assert id in order;
        var i :| 0 <= i < |order| && order[i] == id;
      }
    }
  }

  /** After any history, one undisturbed classification run exits 0 and the model run's preflight
      passes exactly when every row was ready at the start; then the two runs end every row where
      the undisturbed pipeline would have ended it from the start. */
  lemma HistoriesAreConfluent(t: Table, certs: map<string, string>, runs: seq<Attempt>, order: seq<string>)
    requires Covers(t, order)
    ensures var (s1, r1) := ClassifyRun(State(After(t, certs, runs), []), certs, order, true);
            var (s2, r2) := ModelRun(State(s1.table, []), order, true);
            && r1 == Ok(0)
            && (r2 == Ok(OK) <==> forall id :: id in t ==> Ready(t[id]))
            && (r2 == Ok(OK) ==> s2.table.Keys == t.Keys && forall id :: id in t ==> s2.table[id] == Through(certs, id, t[id]))
            && (r2 != Ok(OK) ==> r2 == Ok(PRECONDITION_FAILED) && s2.table == s1.table)
  {
    var left := After(t, certs, runs);
    HistoriesMoveToward(t, certs, runs);
    ClassifyRunMoves(State(left, []), certs, order, true);
    var t1 := ClassifyRun(State(left, []), certs, order, true).0.table;
    ModelRunMoves(State(t1, []), certs, order, true);
    forall id | id in t ensures Classify(t1[id]).Some? <==> Ready(t[id]) { RowEnds(certs, id, t[id], left[id]); }
    PreflightExactly(t1, order);
    forall id | id in t ensures Modelled(id, t1[id]) == Through(certs, id, t[id]) { RowEnds(certs, id, t[id], left[id]); }
  }

  lemma RowEnds(certs: map<string, string>, id: string, row0: Row, row: Row)
    requires Step(certs, id, row0, row)
    ensures Modelled(id, Linked(certs, id, Sourced(row))) == Through(certs, id, row0)
    ensures Classify(Linked(certs, id, Sourced(row))).Some? <==> Ready(row0)
  {
    ReadyExactly(row);
  }

  /** And doing it all again changes nothing. */
  lemma PipelineIsIdempotent(certs: map<string, string>, id: string, row: Row)
    ensures Through(certs, id, Through(certs, id, row)) == Through(certs, id, row)
  {
    var sourced := Sourced(row);
    var linked := Linked(certs, id, sourced);
    StagesAreAbsorbed(certs, id, row);
    StagesAreAbsorbed(certs, id, sourced);
    StagesAreAbsorbed(certs, id, linked);
  }

  /** A row that is not offboard or onboard yet stops the model run before its first write. */
  lemma OneUnclassifiableRowStopsAll(s: State, certs: map<string, string>, order: seq<string>, apply: bool, id: string)
    requires id in s.table && id in order && Classify(s.table[id]).None?
    ensures ModelRun(s, order, apply).0.table == s.table && ModelRun(s, order, apply).1 != Ok(OK)
  {
    var i :| 0 <= i < |order| && order[i] == id;
    ModelRunMoves(s, certs, order, apply);
  }

  /** Back-filling keeps a row's class, except of a legacy cloud row of another make than Ford: the
      seeded source turns it onboard. */
  lemma BackfillKeepsClassExactly(row: Row)
    requires Classify(row).Some?
    ensures Classify(Sourced(row)) == Classify(row) <==> !(row.dataSource.Absent? && row.make != "" && row.make != "Ford")
  {
    assert "vehicle-telemetry" != "cloud-telemetry" && "vehicle-telemetry" != "cloud-oem1" by {
      assert "vehicle-telemetry"[0] == 'v' && "cloud-telemetry"[0] == 'c' && "cloud-oem1"[0] == 'c';
    }
  }

  /** A Toyota known only as a legacy cloud vehicle is offboard, and onboard once seeded. */
  lemma LegacyToyotaTurnsOnboard()
    ensures var row := Row("Toyota", "", "", "", Absent, "oem1", Absent, None);
            Classify(row) == Some(Offboard) && Classify(Sourced(row)) == Some(Onboard)
  {
    var row := Row("Toyota", "", "", "", Absent, "oem1", Absent, None);
    assert "Toyota" != "Ford" by { assert "Toyota"[0] != "Ford"[0]; }
    BackfillKeepsClassExactly(row);
  }

  // ---------------------------------------------------------------------------
  // The scripts, as they work on the table
  // ---------------------------------------------------------------------------

  class VehicleTable {
    var table: Table
    var faults: seq<Fault>

    constructor (table: Table, faults: seq<Fault>)
      ensures Abs() == State(table, faults)
    {
      this.table, this.faults := table, faults;
    }

    function Abs(): State reads this { State(table, faults) }

    method Meet() returns (fault: Fault)
      modifies this
      ensures fault == FaultOf(old(Abs())) && Abs() == Arrive(old(Abs()))
    {
      fault := Fine;
      if faults != [] {
        fault := faults[0];
        faults := faults[1..];
      }
    }

    method UpdateItem(id: string, c: Change) returns (w: Written)
      modifies this
      ensures (Abs(), w) == Write(old(Abs()), id, c)
    {
      var fault := Meet();
      if fault == Crash { return Died; }
      if fault == ClientError { return Failed; }
      if id !in table || !Applies(table[id], c) { return Condition; }
      table := table[id := Changed(table[id], c)];
      return Took;
    }

    method Backfill(scan: Table, ids: seq<string>) returns (r: Reply<Tally>)
      modifies this
      ensures (Abs(), r) == BackfillAll(old(Abs()), scan, ids, EMPTY)
    {
      var tally := EMPTY;
      ghost var start := Abs();
      for i := 0 to |ids|
        invariant BackfillAll(start, scan, ids, EMPTY) == BackfillAll(Abs(), scan, ids[i..], tally)
      {
        var id := ids[i];
        assert ids[i..][0] == id && ids[i..][1..] == ids[i + 1..];
        if id !in scan || Truthy(scan[id].dataSource) { continue; }
        var ds := SeedSource(scan[id].make);
        if ds.None? {
          tally := tally.(noMake := tally.noMake + 1);
          continue;
        }
        var w := UpdateItem(id, SetSource(ds.value));
        match w {
          case Took => tally := tally.(written := tally.written + [id]);
          case Condition => tally := tally.(already := tally.already + 1);
          case Failed => tally := tally.(errors := tally.errors + 1);
          case Died => return Raise;
        }
      }
      return Ok(tally);
    }

    method Verify(ids: seq<string>) returns (r: Reply<nat>)
      modifies this
      ensures (Abs(), r) == VerifyAll(old(Abs()), ids)
    {
      var bad := 0;
      ghost var start := Abs();
      for i := 0 to |ids|
        invariant var (t, rest) := VerifyAll(Abs(), ids[i..]);
                  VerifyAll(start, ids) == (t, if rest.Raise? then Raise else Ok(bad + rest.value))
      {
        assert ids[i..][0] == ids[i] && ids[i..][1..] == ids[i + 1..];
        var fault := Meet();
        if fault != Fine { return Raise; }
        if !(ids[i] in table && Truthy(table[ids[i]].dataSource) && Classify(table[ids[i]]).Some?) { bad := bad + 1; }
      }
      return Ok(bad);
    }

    /** At most this row changes, and only by gaining the certificate it lacks.  False means that
        the write of one was refused; true, that the row has it or is not to have it, unless the
        read of the certificate was refused. */
    method LinkCertificate(certs: map<string, string>, id: string) returns (r: Reply<bool>)
      modifies this
      ensures (Abs(), r) == ReconcileOne(old(Abs()), certs, id)
      ensures table.Keys == old(table.Keys) && table - {id} == old(table) - {id}
      ensures id in table ==> table[id] == old(table)[id] || (r == Ok(true) && table[id] == Linked(certs, id, old(table)[id]))
      ensures r == Ok(false) <==>
                && id in old(table) && Classify(old(table)[id]) == Some(Onboard) && !Truthy(old(table)[id].certificateId)
                && id in certs && certs[id] != "" && FaultOf(old(Abs())) == Fine
                && FaultOf(Arrive(old(Abs()))) == Fine && FaultOf(Arrive(Arrive(old(Abs())))) == ClientError
      ensures r == Ok(true) && id in table && FaultOf(Arrive(old(Abs()))) == Fine ==> table[id] == Linked(certs, id, old(table)[id])
    {
      var fault := Meet();
      if fault != Fine { return Raise; }
      if id !in table || Classify(table[id]) != Some(Onboard) || Truthy(table[id].certificateId) { return Ok(true); }
      fault := Meet();
      if fault == Crash { return Raise; }
      if fault == ClientError || id !in certs || certs[id] == "" { return Ok(true); }
      var w := UpdateItem(id, SetCertificate(certs[id]));
      if w == Died { return Raise; }
      return Ok(w != Failed);
    }

    method LinkAll(certs: map<string, string>, ids: seq<string>) returns (r: Reply<nat>)
      modifies this
      ensures (Abs(), r) == ReconcileAll(old(Abs()), certs, ids)
    {
      var failed := 0;
      ghost var start := Abs();
      assert ids[0..] == ids;
      for i := 0 to |ids|
        invariant ReconcileAll(start, certs, ids) == Onward(failed, ReconcileAll(Abs(), certs, ids[i..]))
      {
        OneLink(Abs(), certs, ids, i, failed);
        var linked := LinkCertificate(certs, ids[i]);
        if linked.Raise? { return Raise; }
        if !linked.value { failed := failed + 1; }
      }
      return Ok(failed);
    }

    /** The answer of the whole loop, given the failures so far and the answer of the rest. */
    ghost static function Onward(failed: nat, rest: (State, Reply<nat>)): (State, Reply<nat>) {
      (rest.0, if rest.1.Raise? then Raise else Ok(failed + rest.1.value))
    }

    static lemma OneLink(s: State, certs: map<string, string>, ids: seq<string>, i: nat, failed: nat)
      requires i < |ids|
      ensures var (t, linked) := ReconcileOne(s, certs, ids[i]);
              Onward(failed, ReconcileAll(s, certs, ids[i..]))
              == if linked.Raise? then (t, Raise)
                 else Onward(if linked.value then failed else failed + 1, ReconcileAll(t, certs, ids[i + 1..]))
    {
      assert ids[i..][0] == ids[i] && ids[i..][1..] == ids[i + 1..];
    }

    method RunClassification(certs: map<string, string>, order: seq<string>, reconcile: bool) returns (r: Reply<nat>)
      modifies this
      ensures (Abs(), r) == ClassifyRun(old(Abs()), certs, order, reconcile)
      ensures Toward(certs, old(table), table)
      ensures r == Ok(0) ==> forall id :: id in table && id in order ==> table[id].dataSource == Sourced(old(table)[id]).dataSource
    {
      ClassifyRunMoves(Abs(), certs, order, reconcile);
      var fault := Meet();
      if fault != Fine { return Raise; }
      var tally := Backfill(table, order);
      if tally.Raise? { return Raise; }
      r := Conclude(tally.value, certs, order, reconcile);
    }

    method Conclude(tally: Tally, certs: map<string, string>, order: seq<string>, reconcile: bool) returns (r: Reply<nat>)
      modifies this
      ensures (Abs(), r) == Finish(old(Abs()), tally, certs, order, reconcile)
    {
      var code := if tally.errors > 0 then 1 else 0;
      var bad := Verify(tally.written);
      if bad.Raise? { return Raise; }
      if bad.value > 0 { return Ok(1); }
      if !reconcile { return Ok(code); }
      var fault := Meet();
      if fault != Fine { return Raise; }
      var failed := LinkAll(certs, OnboardOnly(table, order));
      return if failed.Raise? then Raise else Ok(code);
    }

    method AssignModelLines(scan: Table, ids: seq<string>) returns (r: Reply<nat>)
      modifies this
      ensures (Abs(), r) == AssignAll(old(Abs()), scan, ids)
    {
      ghost var start := Abs();
      for i := 0 to |ids|
        invariant AssignAll(start, scan, ids) == AssignAll(Abs(), scan, ids[i..])
      {
        var id := ids[i];
        assert ids[i..][0] == id && ids[i..][1..] == ids[i + 1..];
        if id !in scan || ModelChange(id, scan[id]).None? { continue; }
        var w := UpdateItem(id, ModelChange(id, scan[id]).value);
        if w == Died { return Raise; }
        if w == Failed { return Ok(AWS_ERROR); }
      }
      return Ok(OK);
    }

    method CountUnclassifiable(order: seq<string>) returns (n: nat)
      ensures n == 0 <==> Preflight(table, order)
    {
      n := 0;
      for i := 0 to |order|
        invariant n == 0 <==> Preflight(table, order[..i])
      {
        assert forall j :: 0 <= j < i ==> order[..i + 1][j] == order[..i][j];
        assert order[..i + 1][i] == order[i];
        if order[i] in table && Classify(table[order[i]]).None? { n := n + 1; }
      }
      assert order[..|order|] == order;
    }

    method RunModels(order: seq<string>, apply: bool) returns (r: Reply<nat>)
      modifies this
      ensures (Abs(), r) == ModelRun(old(Abs()), order, apply)
      ensures Toward(map[], old(table), table) && (!apply || !Preflight(old(table), order) ==> table == old(table))
      ensures forall id :: id in table && Classify(old(table)[id]) != Some(Onboard) ==> table[id] == old(table)[id]
      ensures apply && r == Ok(OK) ==> forall id :: id in table && id in order ==> table[id] == Modelled(id, old(table)[id])
    {
      ModelRunMoves(Abs(), map[], order, apply);
      var fault := Meet();
      if fault == Crash { return Raise; }
      if fault == ClientError { return Ok(AWS_ERROR); }
      var unclassifiable := CountUnclassifiable(order);
      if unclassifiable > 0 { return Ok(PRECONDITION_FAILED); }
      if !apply { return Ok(OK); }
      r := AssignModelLines(table, order);
    }
  }
}
