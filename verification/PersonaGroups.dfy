/** Moving the demo personas to their target groups: ordered removes, scope and adds against a
    user pool whose every call may fail. */
module PersonaGroups {
  import opened Prelude

  const PLATFORM_ADMIN := "platform-admin"
  const FLEET_MANAGER := "FleetManager@example.com"
  const OPERATOR_GROUPS := {PLATFORM_ADMIN, "fleet-operator", "fleet-viewer"}

  datatype Persona = Persona(email: string, add: seq<string>, remove: seq<string>, stages: set<string>, fleetIds: seq<string>)

  /** `fleetIds` is the comma-joined scope attribute, "" when unset. */
  datatype User = User(groups: set<string>, fleetIds: string)

  datatype Action = RemoveFrom(group: string) | SetScope(value: string) | AddTo(group: string)

  /** A write that took effect, with the account as it was before it. */
  datatype Event = Event(email: string, action: Action, before: User)

  datatype Fault = Fine | ClientError | Crash

  datatype State = State(pool: map<string, User>, faults: seq<Fault>, log: seq<Event>)

  function Join(ids: seq<string>): string {
    if ids == [] then "" else if |ids| == 1 then ids[0] else ids[0] + "," + Join(ids[1..])
  }

  /** The attribute read back as a list. */
  function Split(value: string): (r: seq<string>)
    ensures r != []
  {
    if value == "" then [""]
    else if value[0] == ',' then [""] + Split(value[1..])
    else
      var rest := Split(value[1..]);
      [[value[0]] + rest[0]] + rest[1..]
  }

  lemma {:induction false} SplitFirst(id: string, more: string)
    requires ',' !in id
    ensures Split(id) == [id] && Split(id + "," + more) == [id] + Split(more)
  {
    var all := id + "," + more;
    if id == "" {
      assert all == "," + more && all[1..] == more;
    } else {
      SplitFirst(id[1..], more);
      assert all[1..] == id[1..] + "," + more;
      assert [id[0]] + id[1..] == id;
      assert Split(id) == [id];
      assert Split(all) == [[id[0]] + ([id[1..]] + Split(more))[0]] + ([id[1..]] + Split(more))[1..];
    }
  }

  /** A scope written for ids without commas reads back as those ids. */
  lemma {:induction false} ScopeReadsBack(ids: seq<string>)
    requires ids != [] && forall i :: 0 <= i < |ids| ==> ',' !in ids[i]
    ensures Split(Join(ids)) == ids
  {
    if |ids| == 1 {
      SplitFirst(ids[0], "");
    } else {
      assert forall i :: 0 <= i < |ids[1..]| ==> ids[1..][i] == ids[i + 1];
      ScopeReadsBack(ids[1..]);
      SplitFirst(ids[0], Join(ids[1..]));
    }
  }

  function FaultOf(s: State): Fault { if s.faults == [] then Fine else s.faults[0] }

  function Arrive(s: State): State { if s.faults == [] then s else s.(faults := s.faults[1..]) }

  /** Any refusal ends the script: an unknown user exits, another error propagates. */
  function GetGroups(s: State, email: string): (State, Reply<set<string>>) {
    (Arrive(s), if FaultOf(s) != Fine || email !in s.pool then Raise else Ok(s.pool[email].groups))
  }

  /** A refused read answers "", as if the attribute were unset. */
  function GetFleetIds(s: State, email: string): (State, Reply<string>) {
    (Arrive(s), match FaultOf(s)
                case Crash => Raise
                case ClientError => Ok("")
                case Fine => Ok(if email in s.pool then s.pool[email].fleetIds else ""))
  }

  function Perform(u: User, a: Action): User {
    match a
    case RemoveFrom(g) => u.(groups := u.groups - {g})
    case SetScope(v) => u.(fleetIds := v)
    case AddTo(g) => u.(groups := u.groups + {g})
  }

  datatype Sent = Took | Refused | Died

  function Send(s: State, email: string, a: Action): (State, Sent) {
    var t := Arrive(s);
    match FaultOf(s)
    case Crash => (t, Died)
    case ClientError => (t, Refused)
    case Fine =>
      if email !in s.pool then (t, Refused)
      else (State(s.pool[email := Perform(s.pool[email], a)], t.faults, s.log + [Event(email, a, s.pool[email])]), Took)
  }

  // ---------------------------------------------------------------------------
  // The diff
  // ---------------------------------------------------------------------------

  datatype Diff = Diff(persona: Persona, toAdd: seq<string>, toRemove: seq<string>, setScope: bool)

  function Keeping(gs: seq<string>, groups: set<string>, present: bool): (r: seq<string>)
    ensures forall g :: g in r <==> g in gs && (g in groups <==> present)
  {
    if gs == [] then []
    else (if gs[0] in groups <==> present then [gs[0]] else []) + Keeping(gs[1..], groups, present)
  }

  predicate InScope(p: Persona, stage: string, only: Option<string>) {
    stage in p.stages && (only.None? || only.value == p.email)
  }

  function ReadDiff(s: State, p: Persona): (State, Reply<Diff>) {
    var (s1, groups) := GetGroups(s, p.email);
    if groups.Raise? then (s1, Raise)
    else
      var toAdd, toRemove := Keeping(p.add, groups.value, false), Keeping(p.remove, groups.value, true);
      if p.fleetIds == [] then (s1, Ok(Diff(p, toAdd, toRemove, false)))
      else
        var (s2, scope) := GetFleetIds(s1, p.email);
        (s2, if scope.Raise? then Raise else Ok(Diff(p, toAdd, toRemove, scope.value != Join(p.fleetIds))))
  }

  function ComputeDiff(s: State, targets: seq<Persona>, stage: string, only: Option<string>): (State, Reply<seq<Diff>>)
    decreases |targets|
  {
    if targets == [] then (s, Ok([]))
    else if !InScope(targets[0], stage, only) then ComputeDiff(s, targets[1..], stage, only)
    else
      var (s1, first) := ReadDiff(s, targets[0]);
      if first.Raise? then (s1, Raise)
      else
        var (s2, rest) := ComputeDiff(s1, targets[1..], stage, only);
        (s2, if rest.Raise? then Raise else Ok([first.value] + rest.value))
  }

  // ---------------------------------------------------------------------------
  // Applying and verifying
  // ---------------------------------------------------------------------------

  function Removes(gs: seq<string>): seq<Action> { seq(|gs|, i requires 0 <= i < |gs| => RemoveFrom(gs[i])) }

  function Adds(gs: seq<string>): seq<Action> { seq(|gs|, i requires 0 <= i < |gs| => AddTo(gs[i])) }

  function Scoping(d: Diff): seq<Action> { if d.setScope then [SetScope(Join(d.persona.fleetIds))] else [] }

  /** Removes first, then the scope, then the adds. */
  function Plan(d: Diff): seq<Action> { Removes(d.toRemove) + Scoping(d) + Adds(d.toAdd) }

  /** The first refusal abandons the rest of this persona's plan. */
  function SendAll(s: State, email: string, plan: seq<Action>): (State, Sent)
    decreases |plan|
  {
    if plan == [] then (s, Took)
    else
      var (s1, sent) := Send(s, email, plan[0]);
      if sent.Took? then SendAll(s1, email, plan[1..]) else (s1, sent)
  }

  datatype Report = Report(changed: seq<Persona>, errors: nat)

  function ApplyAll(s: State, diffs: seq<Diff>): (State, Reply<Report>)
    decreases |diffs|
  {
    if diffs == [] then (s, Ok(Report([], 0)))
    else if Plan(diffs[0]) == [] then ApplyAll(s, diffs[1..])
    else
      var (s1, sent) := SendAll(s, diffs[0].persona.email, Plan(diffs[0]));
      if sent.Died? then (s1, Raise)
      else
        var (s2, rest) := ApplyAll(s1, diffs[1..]);
        (s2, if rest.Raise? then Raise
             else if sent.Took? then Ok(rest.value.(changed := [diffs[0].persona] + rest.value.changed))
             else Ok(rest.value.(errors := rest.value.errors + 1)))
  }

  /** True when the account reads back as targeted. */
  function VerifyOne(s: State, p: Persona): (State, Reply<bool>) {
    var (s1, groups) := GetGroups(s, p.email);
    if groups.Raise? then (s1, Raise)
    else
      var good := (forall g :: g in p.add ==> g in groups.value) && (forall g :: g in p.remove ==> g !in groups.value);
      if p.fleetIds == [] then (s1, Ok(good))
      else
        var (s2, scope) := GetFleetIds(s1, p.email);
        if scope.Raise? then (s2, Raise)
        else if !(good && scope.value == Join(p.fleetIds)) then (s2, Ok(false))
        else
          var (s3, shown) := GetFleetIds(s2, p.email);
          (s3, if shown.Raise? then Raise else Ok(true))
  }

  function VerifyAll(s: State, changed: seq<Persona>): (State, Reply<nat>)
    decreases |changed|
  {
    if changed == [] then (s, Ok(0))
    else
      var (s1, good) := VerifyOne(s, changed[0]);
      if good.Raise? then (s1, Raise)
      else
        var (s2, rest) := VerifyAll(s1, changed[1..]);
        (s2, if rest.Raise? then Raise else Ok((if good.value then 0 else 1) + rest.value))
  }

  predicate ValidTargets(targets: seq<Persona>) {
    forall i, g :: 0 <= i < |targets| && g in targets[i].add ==>
      g != PLATFORM_ADMIN && (g in OPERATOR_GROUPS ==> targets[i].email == FLEET_MANAGER)
  }

  datatype Request = Request(targets: seq<Persona>, stage: string, only: Option<string>, apply: bool,
                             confirmed: bool, countMatches: bool)

  function CarryOut(s: State, diffs: seq<Diff>): (State, Reply<nat>) {
    var (s1, report) := ApplyAll(s, diffs);
    if report.Raise? then (s1, Raise)
    else
      var (s2, bad) := VerifyAll(s1, report.value.changed);
      (s2, if bad.Raise? then Raise else Ok(if report.value.errors + bad.value > 0 then 1 else 0))
  }

  function Proceed(s: State, q: Request): (State, Reply<nat>) {
    var (s1, diffs) := ComputeDiff(s, q.targets, q.stage, q.only);
    if diffs.Raise? then (s1, Raise)
    else if !q.apply then (s1, Ok(0))
    else CarryOut(s1, diffs.value)
  }

  /** A single persona was asked for that this stage does not have. */
  predicate OutOfStage(q: Request) {
    q.only.Some? && exists i :: 0 <= i < |q.targets| && q.targets[i].email == q.only.value && q.stage !in q.targets[i].stages
  }

  /** Exit code 0 or 1; raising stands for every other way to end. */
  function Deprivilege(s: State, q: Request): (State, Reply<nat>) {
    if !ValidTargets(q.targets) then (s, Raise)
    else if q.stage == "prod" && q.apply && !q.confirmed then (s, Ok(1))
    else if OutOfStage(q) then (s, Ok(0))
    else if q.stage == "prod" && q.apply && !q.countMatches then (s, Raise)
    else Proceed(s, q)
  }

  // ---------------------------------------------------------------------------
  // Stepwise safety
  // ---------------------------------------------------------------------------

  function GroupSet(gs: seq<string>): set<string> { set g | g in gs }

  /** What a target table must be beyond the start-up validation: one entry per account, no
      group both added and removed, no scope that reads like an unset one. */
  ghost predicate Sensible(targets: seq<Persona>) {
    && (forall i, j :: 0 <= i < j < |targets| ==> targets[i].email != targets[j].email)
    && (forall i :: 0 <= i < |targets| ==>
          && Apart(targets[i])
          && (targets[i].fleetIds != [] ==> Join(targets[i].fleetIds) != ""))
  }

  /** An account on its way from `u0`: nothing gone but removals, nothing new but additions. */
  ghost predicate Toward(p: Persona, u0: User, u: User) {
    && u0.groups - GroupSet(p.remove) <= u.groups <= u0.groups + GroupSet(p.add)
    && (u.fleetIds == u0.fleetIds || (p.fleetIds != [] && u.fleetIds == Join(p.fleetIds)))
  }

  /** Where `p`'s account ends. */
  function Goal(p: Persona, u: User): User {
    User(u.groups - GroupSet(p.remove) + GroupSet(p.add), if p.fleetIds == [] then u.fleetIds else Join(p.fleetIds))
  }

  lemma TowardKeepsGoal(p: Persona, u0: User, u: User)
    requires Toward(p, u0, u)
    ensures Goal(p, u) == Goal(p, u0)
  {
    assert u.groups - GroupSet(p.remove) + GroupSet(p.add) == u0.groups - GroupSet(p.remove) + GroupSet(p.add);
  }

  /** A write is safe when the persona's entry has it and, if it is a grant, no group to be removed
      is still held and the scope the persona requires is in place. */
  predicate SafeGrant(p: Persona, e: Event) {
    && Meant(p, e.action)
    && (e.action.AddTo? ==>
          e.before.groups !! GroupSet(p.remove) && (p.fleetIds != [] ==> e.before.fleetIds == Join(p.fleetIds)))
  }

  /** What is left of a persona's plan is exactly what the account still lacks, adds last. */
  ghost predicate Ready(p: Persona, u: User, plan: seq<Action>) {
    && (forall i :: 0 <= i < |plan| ==> Meant(p, plan[i]))
    && (forall i, j :: 0 <= i < j < |plan| && plan[i].AddTo? ==> plan[j].AddTo?)
    && (forall g :: g in u.groups && g in p.remove ==> RemoveFrom(g) in plan)
    && (p.fleetIds != [] && u.fleetIds != Join(p.fleetIds) ==> SetScope(Join(p.fleetIds)) in plan)
    && (forall g :: g in p.add && g !in u.groups ==> AddTo(g) in plan)
  }

  predicate Meant(p: Persona, a: Action) {
    match a
    case RemoveFrom(g) => g in p.remove
    case SetScope(v) => p.fleetIds != [] && v == Join(p.fleetIds)
    case AddTo(g) => g in p.add
  }

  ghost predicate Apart(p: Persona) { forall g :: g in p.add ==> g !in p.remove }

  lemma StepIsSafe(p: Persona, u0: User, u: User, plan: seq<Action>)
    requires plan != [] && Ready(p, u, plan) && Toward(p, u0, u) && Apart(p)
    ensures Ready(p, Perform(u, plan[0]), plan[1..]) && Toward(p, u0, Perform(u, plan[0]))
    ensures SafeGrant(p, Event(p.email, plan[0], u))
  {
    var rest, u1 := plan[1..], Perform(u, plan[0]);
    assert forall a :: a in plan && a != plan[0] ==> a in rest;
    assert Meant(p, plan[0]);
    assert plan[0].AddTo? ==> forall i :: 0 <= i < |plan| ==> plan[i].AddTo?;
    forall i | 0 <= i < |rest| ensures Meant(p, rest[i]) { assert rest[i] == plan[i + 1]; }
  }

  lemma FinishedIsGoal(p: Persona, u0: User, u: User)
    requires Ready(p, u, []) && Toward(p, u0, u)
    ensures u == Goal(p, u0)
  {
    TowardKeepsGoal(p, u0, u);
    assert u.groups - GroupSet(p.remove) + GroupSet(p.add) == u.groups;
  }

  /** Of this persona's account alone, on its way, with every grant of it safe. */
  ghost predicate Sends(s: State, t: State, p: Persona, u0: User) {
    && t.pool.Keys == s.pool.Keys && p.email in t.pool && Toward(p, u0, t.pool[p.email])
    && (forall e :: e in s.pool && e != p.email ==> t.pool[e] == s.pool[e])
    && |s.log| <= |t.log| && t.log[..|s.log|] == s.log
    && (forall i :: |s.log| <= i < |t.log| ==> t.log[i].email == p.email && SafeGrant(p, t.log[i]))
  }

  lemma SendsOn(a: State, b: State, c: State, p: Persona, u0: User)
    requires Sends(a, b, p, u0) && Sends(b, c, p, u0)
    ensures Sends(a, c, p, u0)
  {
    assert c.log[..|a.log|] == c.log[..|b.log|][..|a.log|];
    forall i | |a.log| <= i < |b.log| ensures c.log[i] == b.log[i] { assert c.log[..|b.log|][i] == b.log[i]; }
  }

  lemma SendIsSafe(s: State, p: Persona, plan: seq<Action>, u0: User)
    requires p.email in s.pool && Toward(p, u0, s.pool[p.email]) && Ready(p, s.pool[p.email], plan) && Apart(p) && plan != []
    ensures var (t, sent) := Send(s, p.email, plan[0]);
            && Sends(s, t, p, u0) && (sent.Took? ==> Ready(p, t.pool[p.email], plan[1..]))
            && (s.faults == [] ==> sent.Took? && t.faults == [])
  {
    StepIsSafe(p, u0, s.pool[p.email], plan);
  }

  lemma {:induction false} SendAllIsSafe(s: State, p: Persona, plan: seq<Action>, u0: User)
    requires p.email in s.pool && Toward(p, u0, s.pool[p.email]) && Ready(p, s.pool[p.email], plan) && Apart(p)
    ensures var (t, sent) := SendAll(s, p.email, plan);
            && Sends(s, t, p, u0)
            && (sent.Took? ==> t.pool[p.email] == Goal(p, u0))
            && (s.faults == [] ==> sent.Took? && t.faults == [])
    decreases |plan|
  {
    if plan == [] {
      FinishedIsGoal(p, u0, s.pool[p.email]);
    } else {
      SendIsSafe(s, p, plan, u0);
      var (s1, sent) := Send(s, p.email, plan[0]);
      if sent.Took? {
        SendAllIsSafe(s1, p, plan[1..], u0);
        SendsOn(s, s1, SendAll(s1, p.email, plan[1..]).0, p, u0);
      }
    }
  }

  // ---------------------------------------------------------------------------
  // Whole runs
  // ---------------------------------------------------------------------------

  /** A diff taken from an account as it is: what its plan leaves undone is done already. */
  ghost predicate Current(d: Diff, pool: map<string, User>) {
    && d.persona.email in pool
    && var u := pool[d.persona.email];
    && d.toAdd == Keeping(d.persona.add, u.groups, false)
    && d.toRemove == Keeping(d.persona.remove, u.groups, true)
    && (d.setScope ==> d.persona.fleetIds != [])
    && (!d.setScope && d.persona.fleetIds != [] ==> u.fleetIds == Join(d.persona.fleetIds))
  }

  lemma PlanIsMeant(d: Diff, pool: map<string, User>)
    requires Current(d, pool)
    ensures forall i :: 0 <= i < |Plan(d)| ==> Meant(d.persona, Plan(d)[i])
  {
    var p, plan := d.persona, Plan(d);
    forall i | 0 <= i < |plan| ensures Meant(p, plan[i]) {
      if i < |d.toRemove| {
        assert d.toRemove[i] in d.toRemove;
      } else if i >= |plan| - |d.toAdd| {
        assert d.toAdd[i - (|plan| - |d.toAdd|)] in d.toAdd;
      }
    }
  }

  lemma PlanIsReady(d: Diff, pool: map<string, User>)
    requires Current(d, pool)
    ensures Ready(d.persona, pool[d.persona.email], Plan(d))
  {
    var p, u, plan := d.persona, pool[d.persona.email], Plan(d);
    forall g | g in u.groups && g in p.remove ensures RemoveFrom(g) in plan {
      assert g in d.toRemove;
      var i :| 0 <= i < |d.toRemove| && d.toRemove[i] == g;
      assert plan[i] == RemoveFrom(g);
    }
    if d.setScope { assert plan[|d.toRemove|] == SetScope(Join(p.fleetIds)); }
    forall g | g in p.add && g !in u.groups ensures AddTo(g) in plan {
      assert g in d.toAdd;
      var i :| 0 <= i < |d.toAdd| && d.toAdd[i] == g;
      assert plan[|plan| - |d.toAdd| + i] == AddTo(g);
    }
    PlanIsMeant(d, pool);
  }

  ghost predicate AllCurrent(diffs: seq<Diff>, pool: map<string, User>) {
    && (forall i :: 0 <= i < |diffs| ==> Current(diffs[i], pool))
    && (forall i, j :: 0 <= i < j < |diffs| ==> diffs[i].persona.email != diffs[j].persona.email)
    && (forall i :: 0 <= i < |diffs| ==> Apart(diffs[i].persona))
  }

  function Personas(diffs: seq<Diff>): seq<Persona> { seq(|diffs|, i requires 0 <= i < |diffs| => diffs[i].persona) }

  /** These personas' accounts are on their way, every other account untouched. */
  ghost predicate Moved(ps: seq<Persona>, pool: map<string, User>, pool1: map<string, User>) {
    && pool1.Keys == pool.Keys
    && (forall i :: 0 <= i < |ps| ==> ps[i].email in pool && Toward(ps[i], pool[ps[i].email], pool1[ps[i].email]))
    && (forall e :: e in pool && (forall i :: 0 <= i < |ps| ==> ps[i].email != e) ==> pool1[e] == pool[e])
  }

  /** Every one of these personas' accounts is where its target puts it. */
  ghost predicate Arrived(ps: seq<Persona>, pool: map<string, User>, pool1: map<string, User>) {
    forall i :: 0 <= i < |ps| ==>
      ps[i].email in pool && ps[i].email in pool1 && pool1[ps[i].email] == Goal(ps[i], pool[ps[i].email])
  }

  /** Each write of the log belongs to one of these personas, and is safe if it is a grant. */
  ghost predicate SafeLog(ps: seq<Persona>, log: seq<Event>) {
    forall k :: 0 <= k < |log| ==> SafeEvent(ps, log[k])
  }

  ghost predicate SafeEvent(ps: seq<Persona>, e: Event) {
    exists i :: 0 <= i < |ps| && ps[i].email == e.email && SafeGrant(ps[i], e)
  }

  ghost predicate Distinct(ps: seq<Persona>) {
    forall i, j :: 0 <= i < j < |ps| ==> ps[i].email != ps[j].email
  }

  lemma {:induction false} ApplyAllIsSafe(s: State, diffs: seq<Diff>)
    requires AllCurrent(diffs, s.pool)
    ensures var (t, r) := ApplyAll(s, diffs);
            && Moved(Personas(diffs), s.pool, t.pool)
            && |s.log| <= |t.log| && t.log[..|s.log|] == s.log && SafeLog(Personas(diffs), t.log[|s.log|..])
            && (r.Ok? && r.value.errors == 0 ==> Arrived(Personas(diffs), s.pool, t.pool))
            && (s.faults == [] ==> t.faults == [] && r.Ok? && r.value.errors == 0)
    decreases |diffs|
  {
    if diffs != [] {
      var (s1, sent) := SendAll(s, diffs[0].persona.email, Plan(diffs[0]));
      FirstIsSafe(s, diffs);
      if sent.Died? {
        LogAndPoolGrow(s, s1, s1, diffs);
      } else {
        ApplyAllIsSafe(s1, diffs[1..]);
        LogAndPoolGrow(s, s1, ApplyAll(s1, diffs[1..]).0, diffs);
      }
    }
  }

  /** What the first persona's plan does, whatever interrupts it. */
  ghost predicate FirstDone(s: State, s1: State, diffs: seq<Diff>)
    requires diffs != []
  {
    var p := diffs[0].persona;
    && p.email in s.pool && s1.pool.Keys == s.pool.Keys && Toward(p, s.pool[p.email], s1.pool[p.email])
    && (forall e :: e in s.pool && e != p.email ==> s1.pool[e] == s.pool[e])
    && |s.log| <= |s1.log| && s1.log[..|s.log|] == s.log
    && (forall i :: |s.log| <= i < |s1.log| ==> s1.log[i].email == p.email && SafeGrant(p, s1.log[i]))
  }

  lemma FirstIsSafe(s: State, diffs: seq<Diff>)
    requires diffs != [] && AllCurrent(diffs, s.pool)
    ensures var p := diffs[0].persona;
            var (s1, sent) := SendAll(s, p.email, Plan(diffs[0]));
            && FirstDone(s, s1, diffs)
            && AllCurrent(diffs[1..], s1.pool)
            && (sent.Took? ==> s1.pool[p.email] == Goal(p, s.pool[p.email]))
            && (s.faults == [] ==> sent.Took? && s1.faults == [])
  {
    var p := diffs[0].persona;
    PlanIsReady(diffs[0], s.pool);
    SendAllIsSafe(s, p, Plan(diffs[0]), s.pool[p.email]);
    var s1 := SendAll(s, p.email, Plan(diffs[0])).0;
    forall i | 0 <= i < |diffs[1..]| ensures Current(diffs[1..][i], s1.pool) {
      assert diffs[1..][i] == diffs[i + 1] && Current(diffs[i + 1], s.pool) && diffs[i + 1].persona.email != p.email;
    }
  }

  /** The rest may not have run at all, when the first persona's plan ended in a crash. */
  lemma LogAndPoolGrow(s: State, s1: State, t: State, diffs: seq<Diff>)
    requires diffs != [] && AllCurrent(diffs, s.pool) && FirstDone(s, s1, diffs)
    requires t == s1 || Moved(Personas(diffs[1..]), s1.pool, t.pool)
    requires |s1.log| <= |t.log| && t.log[..|s1.log|] == s1.log && SafeLog(Personas(diffs[1..]), t.log[|s1.log|..])
    ensures Moved(Personas(diffs), s.pool, t.pool)
    ensures |s.log| <= |t.log| && t.log[..|s.log|] == s.log && SafeLog(Personas(diffs), t.log[|s.log|..])
    ensures s1.pool[diffs[0].persona.email] == Goal(diffs[0].persona, s.pool[diffs[0].persona.email])
            && Arrived(Personas(diffs[1..]), s1.pool, t.pool) && Moved(Personas(diffs[1..]), s1.pool, t.pool)
            ==> Arrived(Personas(diffs), s.pool, t.pool)
  {
    var ps := Personas(diffs);
    assert ps[1..] == Personas(diffs[1..]);
    assert t.log[..|s.log|] == t.log[..|s1.log|][..|s.log|];
    ExtendPool(s.pool, s1.pool, t.pool, ps);
    ExtendLog(s, s1, t, ps);
  }

  /** The first persona's own change, then those of the rest. */
  lemma ExtendPool(a: map<string, User>, b: map<string, User>, c: map<string, User>, ps: seq<Persona>)
    requires ps != [] && Distinct(ps) && ps[0].email in a && b.Keys == a.Keys
    requires Toward(ps[0], a[ps[0].email], b[ps[0].email])
    requires forall e :: e in a && e != ps[0].email ==> b[e] == a[e]
    requires Moved(ps[1..], b, c) || (c == b && forall i :: 0 <= i < |ps| ==> ps[i].email in a)
    ensures Moved(ps, a, c)
    ensures b[ps[0].email] == Goal(ps[0], a[ps[0].email]) && Arrived(ps[1..], b, c) && Moved(ps[1..], b, c) ==> Arrived(ps, a, c)
  {
    var rest := ps[1..];
    forall i | 0 < i < |ps| ensures ps[i] == rest[i - 1] && ps[i].email != ps[0].email {}
    forall i | 0 <= i < |rest| ensures rest[i] == ps[i + 1] && rest[i].email != ps[0].email {}
    assert c[ps[0].email] == b[ps[0].email];
  }

  lemma ExtendLog(s: State, s1: State, t: State, ps: seq<Persona>)
    requires ps != [] && |s.log| <= |s1.log| <= |t.log| && t.log[..|s1.log|] == s1.log
    requires forall k :: |s.log| <= k < |s1.log| ==> s1.log[k].email == ps[0].email && SafeGrant(ps[0], s1.log[k])
    requires SafeLog(ps[1..], t.log[|s1.log|..])
    ensures SafeLog(ps, t.log[|s.log|..])
  {
    var later := t.log[|s.log|..];
    forall k | 0 <= k < |later| ensures SafeEvent(ps, later[k]) {
      var at := |s.log| + k;
      if at < |s1.log| {
        assert later[k] == s1.log[at];
        assert ps[0].email == later[k].email;
      } else {
        assert later[k] == t.log[|s1.log|..][at - |s1.log|];
        var i :| 0 <= i < |ps[1..]| && ps[1..][i].email == later[k].email && SafeGrant(ps[1..][i], later[k]);
        assert ps[i + 1] == ps[1..][i];
      }
    }
  }

  // ---------------------------------------------------------------------------
  // The diff is current, and the reads that follow the writes change nothing
  // ---------------------------------------------------------------------------

  function Scoped(targets: seq<Persona>, stage: string, only: Option<string>): (r: seq<Persona>)
    ensures forall p :: p in r <==> p in targets && InScope(p, stage, only)
  {
    if targets == [] then []
    else (if InScope(targets[0], stage, only) then [targets[0]] else []) + Scoped(targets[1..], stage, only)
  }

  lemma ReadDiffIsCurrent(s: State, p: Persona)
    requires p.fleetIds != [] ==> Join(p.fleetIds) != ""
    ensures var (t, d) := ReadDiff(s, p);
            && t.pool == s.pool && t.log == s.log
            && (d.Ok? ==> d.value.persona == p && Current(d.value, s.pool))
            && (s.faults == [] ==> t.faults == [] && (d.Ok? <==> p.email in s.pool))
  {}

  lemma {:induction false} ComputeDiffIsCurrent(s: State, targets: seq<Persona>, stage: string, only: Option<string>)
    requires Sensible(targets)
    ensures var (t, d) := ComputeDiff(s, targets, stage, only);
            && t.pool == s.pool && t.log == s.log
            && (d.Ok? ==> Personas(d.value) == Scoped(targets, stage, only) && AllCurrent(d.value, s.pool))
            && (s.faults == [] ==>
                  t.faults == [] && (d.Ok? <==> forall p :: p in Scoped(targets, stage, only) ==> p.email in s.pool))
    decreases |targets|
  {
    if targets != [] {
      var rest := targets[1..];
      assert forall i :: 0 <= i < |rest| ==> rest[i] == targets[i + 1];
      if !InScope(targets[0], stage, only) {
        ComputeDiffIsCurrent(s, rest, stage, only);
      } else {
        ReadDiffIsCurrent(s, targets[0]);
        var (s1, first) := ReadDiff(s, targets[0]);
        ComputeDiffIsCurrent(s1, rest, stage, only);
        var (s2, more) := ComputeDiff(s1, rest, stage, only);
        if first.Ok? && more.Ok? { Prepend(first.value, more.value, targets, stage, only, s.pool); }
      }
    }
  }

  lemma LaterDiffers(targets: seq<Persona>, p: Persona)
    requires Sensible(targets) && targets != [] && p in targets[1..]
    ensures p.email != targets[0].email
  {
    var j :| 0 <= j < |targets[1..]| && targets[1..][j] == p;
    assert targets[j + 1] == p;
  }

  lemma Prepend(first: Diff, more: seq<Diff>, targets: seq<Persona>, stage: string, only: Option<string>, pool: map<string, User>)
    requires Sensible(targets) && targets != [] && InScope(targets[0], stage, only)
    requires first.persona == targets[0] && Current(first, pool)
    requires Personas(more) == Scoped(targets[1..], stage, only) && AllCurrent(more, pool)
    ensures Personas([first] + more) == Scoped(targets, stage, only) && AllCurrent([first] + more, pool)
  {
    forall i | 0 <= i < |more| ensures more[i].persona.email != first.persona.email {
      assert Personas(more)[i] in targets[1..];
      LaterDiffers(targets, more[i].persona);
    }
    JoinPersonas(first, more);
    JoinCurrent(first, more, pool);
  }

  lemma JoinPersonas(first: Diff, more: seq<Diff>)
    ensures Personas([first] + more) == [first.persona] + Personas(more)
  {}

  lemma JoinCurrent(first: Diff, more: seq<Diff>, pool: map<string, User>)
    requires Current(first, pool) && Apart(first.persona) && AllCurrent(more, pool)
    requires forall i :: 0 <= i < |more| ==> more[i].persona.email != first.persona.email
    ensures AllCurrent([first] + more, pool)
  {
    var all := [first] + more;
    assert forall i :: 0 < i < |all| ==> all[i] == more[i - 1];
  }

  lemma {:induction false} VerifyAllOnlyReads(s: State, ps: seq<Persona>)
    ensures var (t, bad) := VerifyAll(s, ps);
            && t.pool == s.pool && t.log == s.log
            && (s.faults == [] && (forall i :: 0 <= i < |ps| ==> ps[i].email in s.pool && AtTarget(ps[i], s.pool[ps[i].email]))
                ==> bad == Ok(0))
            && (bad == Ok(0) ==> forall i :: 0 <= i < |ps| ==> Join(ps[i].fleetIds) != "" || ps[i].fleetIds == [] ==>
                  ps[i].email in s.pool && AtTarget(ps[i], s.pool[ps[i].email]))
    decreases |ps|
  {
    if ps != [] {
      var (s1, good) := VerifyOne(s, ps[0]);
      assert s1.pool == s.pool && s1.log == s.log;
      VerifyAllOnlyReads(s1, ps[1..]);
      assert forall i :: 0 < i < |ps| ==> ps[i] == ps[1..][i - 1];
    }
  }

  ghost predicate AtTarget(p: Persona, u: User) {
    && (forall g :: g in p.add ==> g in u.groups) && (forall g :: g in p.remove ==> g !in u.groups)
    && (p.fleetIds != [] ==> u.fleetIds == Join(p.fleetIds))
  }

  /** The personas with anything to do. */
  function Pending(diffs: seq<Diff>): nat { if diffs == [] then 0 else (if Plan(diffs[0]) == [] then 0 else 1) + Pending(diffs[1..]) }

  /** Each persona with anything to do is counted as changed, and verified later, or as an error. */
  lemma {:induction false} ChangedAreScoped(s: State, diffs: seq<Diff>)
    ensures var (t, r) := ApplyAll(s, diffs);
            r.Ok? ==>
              && (forall i :: 0 <= i < |r.value.changed| ==> r.value.changed[i] in Personas(diffs))
              && |r.value.changed| + r.value.errors == Pending(diffs)
    decreases |diffs|
  {
    if diffs != [] {
      var rest := diffs[1..];
      forall p | p in Personas(rest) ensures p in Personas(diffs) {
        var i :| 0 <= i < |rest| && Personas(rest)[i] == p;
        assert Personas(diffs)[i + 1] == p;
      }
      assert Personas(diffs)[0] == diffs[0].persona;
      if Plan(diffs[0]) == [] {
        ChangedAreScoped(s, rest);
      } else {
        var (s1, sent) := SendAll(s, diffs[0].persona.email, Plan(diffs[0]));
        ChangedAreScoped(s1, rest);
        var r, more := ApplyAll(s, diffs).1, ApplyAll(s1, rest).1;
        if r.Ok? { assert r.value.changed == if sent.Took? then [diffs[0].persona] + more.value.changed else more.value.changed; }
      }
    }
  }

  lemma {:induction false} RefusalEndsOnePlan(s: State, email: string, plan: seq<Action>)
    requires Crash !in s.faults
    ensures var (t, sent) := SendAll(s, email, plan); !sent.Died? && Crash !in t.faults
    decreases |plan|
  {
    if plan != [] { RefusalEndsOnePlan(Send(s, email, plan[0]).0, email, plan[1..]); }
  }

  /** A refused write ends its persona's turn and no other's: without a crash all are gone through. */
  lemma {:induction false} RefusalsDoNotStop(s: State, diffs: seq<Diff>)
    requires Crash !in s.faults
    ensures ApplyAll(s, diffs).1.Ok?
    decreases |diffs|
  {
    if diffs != [] {
      RefusalEndsOnePlan(s, diffs[0].persona.email, Plan(diffs[0]));
      RefusalsDoNotStop(s, diffs[1..]);
      RefusalsDoNotStop(SendAll(s, diffs[0].persona.email, Plan(diffs[0])).0, diffs[1..]);
    }
  }

  // ---------------------------------------------------------------------------
  // Main results
  // ---------------------------------------------------------------------------

  /** Each write so far belongs to an in-scope persona, and each grant among them was safe. */
  ghost predicate SafeRun(s: State, q: Request, t: State) {
    var ps := Scoped(q.targets, q.stage, q.only);
    && (Moved(ps, s.pool, t.pool) || t.pool == s.pool)
    && |s.log| <= |t.log| && t.log[..|s.log|] == s.log && SafeLog(ps, t.log[|s.log|..])
    && (!q.apply ==> t.pool == s.pool && t.log == s.log)
  }

  /** Whatever fails wherever, a run is safe so far; a run without --apply writes nothing; exit 0
      after --apply means every in-scope account is at its target. */
  lemma RunIsSafe(s: State, q: Request)
    requires Sensible(q.targets)
    ensures SafeRun(s, q, Deprivilege(s, q).0)
    ensures q.apply && Deprivilege(s, q).1 == Ok(0) ==>
              Arrived(Scoped(q.targets, q.stage, q.only), s.pool, Deprivilege(s, q).0.pool)
  {
    NothingDoneIsSafe(s, s, q);
    if OutOfStage(q) { NothingInScope(q); }
    ProceedIsSafe(s, q);
  }

  lemma NothingDoneIsSafe(s: State, t: State, q: Request)
    requires t.pool == s.pool && t.log == s.log
    ensures SafeRun(s, q, t)
  {
    assert t.log[|s.log|..] == [];
  }

  lemma ProceedIsSafe(s: State, q: Request)
    requires Sensible(q.targets)
    ensures SafeRun(s, q, Proceed(s, q).0)
    ensures q.apply && Proceed(s, q).1 == Ok(0) ==>
              Arrived(Scoped(q.targets, q.stage, q.only), s.pool, Proceed(s, q).0.pool)
  {
    ComputeDiffIsCurrent(s, q.targets, q.stage, q.only);
    var (s1, diffs) := ComputeDiff(s, q.targets, q.stage, q.only);
    NothingDoneIsSafe(s, s1, q);
    if diffs.Ok? { CarryOutIsSafe(s1, diffs.value); }
  }

  lemma CarryOutIsSafe(s: State, diffs: seq<Diff>)
    requires AllCurrent(diffs, s.pool)
    ensures var (t, r) := CarryOut(s, diffs);
            && Moved(Personas(diffs), s.pool, t.pool)
            && |s.log| <= |t.log| && t.log[..|s.log|] == s.log && SafeLog(Personas(diffs), t.log[|s.log|..])
            && (r == Ok(0) ==> Arrived(Personas(diffs), s.pool, t.pool))
  {
    ApplyAllIsSafe(s, diffs);
    var (s1, report) := ApplyAll(s, diffs);
    if report.Ok? { VerifyAllOnlyReads(s1, report.value.changed); }
  }

  lemma NothingInScope(q: Request)
    requires Sensible(q.targets) && OutOfStage(q)
    ensures Scoped(q.targets, q.stage, q.only) == []
  {
    var i :| 0 <= i < |q.targets| && q.targets[i].email == q.only.value && q.stage !in q.targets[i].stages;
    forall p | p in q.targets && p.email == q.only.value ensures p == q.targets[i] {
      if p != q.targets[i] { SameEntry(q.targets, p, q.targets[i]); }
    }
    NoneInScope(q.targets, q.stage, q.only);
  }

  lemma {:induction false} NoneInScope(targets: seq<Persona>, stage: string, only: Option<string>)
    requires forall p :: p in targets ==> !InScope(p, stage, only)
    ensures Scoped(targets, stage, only) == []
  {
    if targets != [] { NoneInScope(targets[1..], stage, only); }
  }

  lemma {:induction false} ComputeDiffOnlyReads(s: State, targets: seq<Persona>, stage: string, only: Option<string>)
    ensures var t := ComputeDiff(s, targets, stage, only).0; t.pool == s.pool && t.log == s.log
    decreases |targets|
  {
    if targets != [] {
      var rest := targets[1..];
      ComputeDiffOnlyReads(s, rest, stage, only);
      ComputeDiffOnlyReads(ReadDiff(s, targets[0]).0, rest, stage, only);
    }
  }

  /** Without --apply nothing is written, whatever the target table. */
  lemma DryRunWritesNothing(s: State, q: Request)
    requires !q.apply
    ensures Deprivilege(s, q).0.pool == s.pool && Deprivilege(s, q).0.log == s.log && Deprivilege(s, q).1 in {Raise, Ok(0)}
    ensures s.faults == [] && Sensible(q.targets) && ValidTargets(q.targets) && (forall p :: p in q.targets ==> p.email in s.pool) ==>
              Deprivilege(s, q).1 == Ok(0)
  {
    ComputeDiffOnlyReads(s, q.targets, q.stage, q.only);
    if Sensible(q.targets) { ComputeDiffIsCurrent(s, q.targets, q.stage, q.only); }
  }

  /** A refused read of the scope reads as an unset one, so the scope is written once more. */
  lemma RefusedScopeReadRewrites(s: State, p: Persona)
    requires |s.faults| >= 2 && s.faults[0] == Fine && s.faults[1] == ClientError
    requires p.email in s.pool && p.fleetIds != [] && Join(p.fleetIds) != ""
    ensures ReadDiff(s, p).1.Ok? && SetScope(Join(p.fleetIds)) in Plan(ReadDiff(s, p).1.value)
  {
    var d := ReadDiff(s, p).1.value;
    assert Plan(d)[|d.toRemove|] == SetScope(Join(p.fleetIds));
  }

  /** Production is written to only by a run that is confirmed and whose membership count matches:
      any other makes no call at all, and answers 0 only where there is nothing to do, the one
      persona asked for not being there. */
  lemma ProductionIsGated(s: State, q: Request)
    requires q.stage == "prod" && q.apply && (!q.confirmed || !q.countMatches)
    ensures Deprivilege(s, q).0 == s
    ensures Deprivilege(s, q).1 == Ok(0) ==>
              q.confirmed && q.only.Some? && exists p :: p in q.targets && p.email == q.only.value && "prod" !in p.stages
    ensures !q.confirmed && ValidTargets(q.targets) ==> Deprivilege(s, q).1 == Ok(1)
  {}

  /** A target table that would grant platform-admin, or an operator group to anyone but the fleet
      manager, ends the run before its first call. */
  lemma BadTargetsAreRefused(s: State, q: Request, p: Persona, g: string)
    requires p in q.targets && g in p.add
    requires g == "platform-admin" || (g in {"fleet-operator", "fleet-viewer"} && p.email != "FleetManager@example.com")
    ensures Deprivilege(s, q) == (s, Raise)
  {
    var i :| 0 <= i < |q.targets| && q.targets[i] == p;
  }

  /** Where a write of a run may go, and what it may be. */
  ghost predicate Permitted(q: Request, e: Event) {
    && q.apply
    && (exists p :: p in q.targets && p.email == e.email && q.stage in p.stages && (q.only.None? || q.only.value == p.email)
                    && match e.action
                       case RemoveFrom(g) => g in p.remove
                       case SetScope(v) => p.fleetIds != [] && v == Join(p.fleetIds)
                       case AddTo(g) => g in p.add && (forall h :: h in p.remove ==> h !in e.before.groups)
                                        && (p.fleetIds != [] ==> e.before.fleetIds == Join(p.fleetIds)))
    && (e.action.AddTo? ==> e.action.group != "platform-admin")
    && (e.action.AddTo? && e.action.group in {"fleet-operator", "fleet-viewer"} ==> e.email == "FleetManager@example.com")
  }

  /** Every write of every run, failed or not, is one its target table has for that account in that
      stage; no grant comes before the account's removals and scope, none is of platform-admin, and
      none of an operator group to anyone but the fleet manager. */
  lemma WritesArePermitted(s: State, q: Request, k: nat)
    requires Sensible(q.targets) && |s.log| <= k < |Deprivilege(s, q).0.log|
    ensures Permitted(q, Deprivilege(s, q).0.log[k])
  {
    RunIsSafe(s, q);
    var t, ps := Deprivilege(s, q).0, Scoped(q.targets, q.stage, q.only);
    assert t.log[|s.log|..][k - |s.log|] == t.log[k];
    assert SafeEvent(ps, t.log[k]);
    var i :| 0 <= i < |ps| && ps[i].email == t.log[k].email && SafeGrant(ps[i], t.log[k]);
    assert ps[i] in q.targets;
    var j :| 0 <= j < |q.targets| && q.targets[j] == ps[i];
    assert forall h :: h in ps[i].remove ==> h in GroupSet(ps[i].remove);
  }

  lemma PlatformAdminIsNeverGranted(s: State, q: Request, k: nat)
    requires Sensible(q.targets) && |s.log| <= k < |Deprivilege(s, q).0.log|
    ensures Deprivilege(s, q).0.log[k].action != AddTo(PLATFORM_ADMIN)
  {
    WritesArePermitted(s, q, k);
  }

  /** What exit code 0 under apply means, account by account, of the table's entries for the stage. */
  lemma EveryoneHasArrived(s: State, q: Request, p: Persona)
    requires Sensible(q.targets) && q.apply && Deprivilege(s, q).1 == Ok(0)
    requires p in q.targets && q.stage in p.stages && (q.only.None? || q.only.value == p.email)
    ensures p.email in s.pool && p.email in Deprivilege(s, q).0.pool
    ensures var u, u1 := s.pool[p.email], Deprivilege(s, q).0.pool[p.email];
            && (forall g :: g in u1.groups <==> g in p.add || (g in u.groups && g !in p.remove))
            && u1.fleetIds == if p.fleetIds == [] then u.fleetIds else Join(p.fleetIds)
  {
    RunIsSafe(s, q);
    var ps := Scoped(q.targets, q.stage, q.only);
    assert p in ps;
    var i :| 0 <= i < |ps| && ps[i] == p;
  }

  /** One run after another, over the same table and stage, each with its own failures. */
  datatype Attempt = Attempt(only: Option<string>, apply: bool, confirmed: bool, countMatches: bool, faults: seq<Fault>)

  function AsRequest(targets: seq<Persona>, stage: string, a: Attempt): Request {
    Request(targets, stage, a.only, a.apply, a.confirmed, a.countMatches)
  }

  function Attempts(pool: map<string, User>, targets: seq<Persona>, stage: string, runs: seq<Attempt>): map<string, User>
    decreases |runs|
  {
    if runs == [] then pool
    else Attempts(Deprivilege(State(pool, runs[0].faults, []), AsRequest(targets, stage, runs[0])).0.pool, targets, stage, runs[1..])
  }

  lemma {:induction false} AttemptsMoveToward(pool: map<string, User>, targets: seq<Persona>, stage: string, runs: seq<Attempt>, p: Persona)
    requires Sensible(targets) && p in targets && p.email in pool
    ensures var pool1 := Attempts(pool, targets, stage, runs); p.email in pool1 && Toward(p, pool[p.email], pool1[p.email])
    decreases |runs|
  {
    if runs != [] {
      var s, q := State(pool, runs[0].faults, []), AsRequest(targets, stage, runs[0]);
      RunIsSafe(s, q);
      var pool1, ps := Deprivilege(s, q).0.pool, Scoped(targets, stage, q.only);
      if pool1 != pool {
        if p in ps {
          var i :| 0 <= i < |ps| && ps[i] == p;
        } else {
          forall i | 0 <= i < |ps| ensures ps[i].email != p.email {
            assert ps[i] in targets;
            SameEntry(targets, ps[i], p);
          }
        }
      }
      AttemptsMoveToward(pool1, targets, stage, runs[1..], p);
    }
  }

  lemma SameEntry(targets: seq<Persona>, a: Persona, b: Persona)
    requires Sensible(targets) && a in targets && b in targets && a != b
    ensures a.email != b.email
  {
    var i :| 0 <= i < |targets| && targets[i] == a;
    var j :| 0 <= j < |targets| && targets[j] == b;
    assert i < j || j < i;
  }

  /** From wherever failed and crashed runs left the pool, one fault-free run exits 0 with every
      in-scope account where the table puts the account the first run found. */
  lemma CalmRunConverges(pool: map<string, User>, targets: seq<Persona>, stage: string, runs: seq<Attempt>, last: Attempt)
    requires Sensible(targets) && ValidTargets(targets)
    requires forall p :: p in targets && stage in p.stages ==> p.email in pool
    requires last.apply && last.faults == [] && (stage == "prod" ==> last.confirmed && last.countMatches)
    ensures var left := Attempts(pool, targets, stage, runs);
            var (t, r) := Deprivilege(State(left, [], []), AsRequest(targets, stage, last));
            r == Ok(0) && Arrived(Scoped(targets, stage, last.only), pool, t.pool)
  {
    var left, q := Attempts(pool, targets, stage, runs), AsRequest(targets, stage, last);
    var s, ps := State(left, [], []), Scoped(targets, stage, last.only);
    forall p | p in ps ensures p.email in left && Goal(p, left[p.email]) == Goal(p, pool[p.email]) {
      AttemptsMoveToward(pool, targets, stage, runs, p);
      TowardKeepsGoal(p, pool[p.email], left[p.email]);
    }
    CalmRunArrives(s, q);
    forall i | 0 <= i < |ps| ensures ps[i].email in pool { assert ps[i] in ps; }
  }

  lemma CalmRunArrives(s: State, q: Request)
    requires Sensible(q.targets) && ValidTargets(q.targets) && s.faults == [] && q.apply
    requires q.stage == "prod" ==> q.confirmed && q.countMatches
    requires forall p :: p in Scoped(q.targets, q.stage, q.only) ==> p.email in s.pool
    ensures var (t, r) := Deprivilege(s, q); r == Ok(0) && Arrived(Scoped(q.targets, q.stage, q.only), s.pool, t.pool)
  {
    RunIsSafe(s, q);
    if !OutOfStage(q) {
      var ps := Scoped(q.targets, q.stage, q.only);
      ComputeDiffIsCurrent(s, q.targets, q.stage, q.only);
      var (s1, diffs) := ComputeDiff(s, q.targets, q.stage, q.only);
      CalmCarryOut(s1, diffs.value);
    }
  }

  lemma CalmCarryOut(s: State, diffs: seq<Diff>)
    requires AllCurrent(diffs, s.pool) && s.faults == []
    ensures CarryOut(s, diffs).1 == Ok(0)
  {
    ApplyAllIsSafe(s, diffs);
    ChangedAreScoped(s, diffs);
    var (s1, report) := ApplyAll(s, diffs);
    var changed := report.value.changed;
    forall i | 0 <= i < |changed| ensures changed[i].email in s1.pool && AtTarget(changed[i], s1.pool[changed[i].email]) {
      CalmChangeHits(s, diffs, changed[i]);
    }
    VerifyAllOnlyReads(s1, changed);
  }

  lemma CalmChangeHits(s: State, diffs: seq<Diff>, p: Persona)
    requires AllCurrent(diffs, s.pool) && s.faults == [] && p in Personas(diffs)
    ensures var pool := ApplyAll(s, diffs).0.pool; p.email in pool && AtTarget(p, pool[p.email])
  {
    ApplyAllIsSafe(s, diffs);
    var j :| 0 <= j < |diffs| && Personas(diffs)[j] == p;
    GoalIsTarget(p, s.pool[p.email]);
  }

  lemma GoalIsTarget(p: Persona, u: User)
    requires Apart(p)
    ensures AtTarget(p, Goal(p, u))
  {
    assert forall g :: g in p.add ==> g in GroupSet(p.add);
    assert forall g :: g in p.remove ==> g in GroupSet(p.remove);
  }
}
