/** The user pool as an object that the run reads and updates call by call. */
module PersonaPool {
  import opened Prelude
  import opened M = PersonaGroups

  lemma {:induction false} SendAllAppend(s: State, email: string, a: seq<Action>, b: seq<Action>)
    ensures var (t, sent) := SendAll(s, email, a);
            SendAll(s, email, a + b) == if sent.Took? then SendAll(t, email, b) else (t, sent)
    decreases |a|
  {
    if a == [] {
      assert a + b == b;
    } else {
      assert (a + b)[1..] == a[1..] + b;
      SendAllAppend(Send(s, email, a[0]).0, email, a[1..], b);
    }
  }

  /** The answer of the whole loop, given the errors so far and the answer of the rest. */
  ghost function Onward(bad: nat, rest: (State, Reply<nat>)): (State, Reply<nat>) {
    (rest.0, if rest.1.Raise? then Raise else Ok(bad + rest.1.value))
  }

  lemma OneVerified(s: State, changed: seq<Persona>, i: nat, bad: nat)
    requires i < |changed|
    ensures var (t, good) := VerifyOne(s, changed[i]);
            Onward(bad, VerifyAll(s, changed[i..]))
            == if good.Raise? then (t, Raise)
               else Onward(if good.value then bad else bad + 1, VerifyAll(t, changed[i + 1..]))
  {
    assert changed[i..][0] == changed[i] && changed[i..][1..] == changed[i + 1..];
  }

  ghost function Reported(changed: seq<Persona>, errors: nat, rest: (State, Reply<Report>)): (State, Reply<Report>) {
    (rest.0, if rest.1.Raise? then Raise else Ok(Report(changed + rest.1.value.changed, errors + rest.1.value.errors)))
  }

  lemma OneApplied(s: State, diffs: seq<Diff>, i: nat, changed: seq<Persona>, errors: nat)
    requires i < |diffs| && Plan(diffs[i]) != []
    ensures var (t, sent) := SendAll(s, diffs[i].persona.email, Plan(diffs[i]));
            Reported(changed, errors, ApplyAll(s, diffs[i..]))
            == match sent
               case Died => (t, Raise)
               case Took => Reported(changed + [diffs[i].persona], errors, ApplyAll(t, diffs[i + 1..]))
               case Refused => Reported(changed, errors + 1, ApplyAll(t, diffs[i + 1..]))
  {
    var d := diffs[i];
    assert diffs[i..][0] == d && diffs[i..][1..] == diffs[i + 1..];
    var (t, sent) := SendAll(s, d.persona.email, Plan(d));
    if sent.Took? {
      var rest := ApplyAll(t, diffs[i + 1..]).1;
      if rest.Ok? { assert changed + ([d.persona] + rest.value.changed) == (changed + [d.persona]) + rest.value.changed; }
    }
  }

  lemma PlanIsEmpty(d: Diff)
    ensures Plan(d) == [] <==> d.toAdd == [] && d.toRemove == [] && !d.setScope
  {
    assert |Plan(d)| == 0 <==> Plan(d) == [];
  }

  class UserPool {
    var pool: map<string, User>
    var faults: seq<Fault>
    var log: seq<Event>

    constructor (pool: map<string, User>, faults: seq<Fault>)
      ensures Abs() == State(pool, faults, [])
    {
      this.pool, this.faults, this.log := pool, faults, [];
    }

    function Abs(): State reads this { State(pool, faults, log) }

    method Meet() returns (fault: Fault)
      modifies this
      ensures fault == FaultOf(old(Abs())) && Abs() == Arrive(old(Abs()))
    {
      fault := Fine;
      if faults != [] {
        fault := faults[0];
        faults := faults[1..];
      }
    }

    method UserGroups(email: string) returns (r: Reply<set<string>>)
      modifies this
      ensures (Abs(), r) == GetGroups(old(Abs()), email)
    {
      var fault := Meet();
      if fault != Fine || email !in pool { return Raise; }
      return Ok(pool[email].groups);
    }

    method UserFleetIds(email: string) returns (r: Reply<string>)
      modifies this
      ensures (Abs(), r) == GetFleetIds(old(Abs()), email)
    {
      var fault := Meet();
      if fault == Crash { return Raise; }
      if fault == ClientError || email !in pool { return Ok(""); }
      return Ok(pool[email].fleetIds);
    }

    method Write(email: string, a: Action) returns (sent: Sent)
      modifies this
      ensures (Abs(), sent) == Send(old(Abs()), email, a)
    {
      var fault := Meet();
      if fault == Crash { return Died; }
      if fault == ClientError || email !in pool { return Refused; }
      log := log + [Event(email, a, pool[email])];
      pool := pool[email := Perform(pool[email], a)];
      return Took;
    }

    method DiffOne(p: Persona) returns (r: Reply<Diff>)
      modifies this
      ensures (Abs(), r) == ReadDiff(old(Abs()), p)
    {
      var groups := UserGroups(p.email);
      if groups.Raise? { return Raise; }
      var toAdd, toRemove := Keeping(p.add, groups.value, false), Keeping(p.remove, groups.value, true);
      if p.fleetIds == [] { return Ok(Diff(p, toAdd, toRemove, false)); }
      var scope := UserFleetIds(p.email);
      if scope.Raise? { return Raise; }
      return Ok(Diff(p, toAdd, toRemove, scope.value != Join(p.fleetIds)));
    }

    method DiffAll(targets: seq<Persona>, stage: string, only: Option<string>) returns (r: Reply<seq<Diff>>)
      modifies this
      ensures (Abs(), r) == ComputeDiff(old(Abs()), targets, stage, only)
    {
      var diffs: seq<Diff> := [];
      ghost var start := Abs();
      ghost var all := ComputeDiff(start, targets, stage, only).1;
      assert targets[0..] == targets && (all.Ok? ==> diffs + all.value == all.value);
      for i := 0 to |targets|
        invariant var (t, rest) := ComputeDiff(Abs(), targets[i..], stage, only);
                  ComputeDiff(start, targets, stage, only) == (t, if rest.Raise? then Raise else Ok(diffs + rest.value))
      {
        assert targets[i..][0] == targets[i] && targets[i..][1..] == targets[i + 1..];
        if InScope(targets[i], stage, only) {
          var d := DiffOne(targets[i]);
          if d.Raise? { return Raise; }
          ghost var rest := ComputeDiff(Abs(), targets[i + 1..], stage, only).1;
          if rest.Ok? { assert diffs + ([d.value] + rest.value) == (diffs + [d.value]) + rest.value; }
          diffs := diffs + [d.value];
        }
      }
      assert diffs + [] == diffs;
      return Ok(diffs);
    }

    method RemoveAll(email: string, gs: seq<string>) returns (sent: Sent)
      modifies this
      ensures (Abs(), sent) == SendAll(old(Abs()), email, Removes(gs))
    {
      ghost var start := Abs();
      for i := 0 to |gs|
        invariant SendAll(start, email, Removes(gs)) == SendAll(Abs(), email, Removes(gs[i..]))
      {
        assert Removes(gs[i..])[0] == RemoveFrom(gs[i]) && Removes(gs[i..])[1..] == Removes(gs[i + 1..]);
        sent := Write(email, RemoveFrom(gs[i]));
        if !sent.Took? { return; }
      }
      return Took;
    }

    method AddAll(email: string, gs: seq<string>) returns (sent: Sent)
      modifies this
      ensures (Abs(), sent) == SendAll(old(Abs()), email, Adds(gs))
    {
      ghost var start := Abs();
      for i := 0 to |gs|
        invariant SendAll(start, email, Adds(gs)) == SendAll(Abs(), email, Adds(gs[i..]))
      {
        assert Adds(gs[i..])[0] == AddTo(gs[i]) && Adds(gs[i..])[1..] == Adds(gs[i + 1..]);
        sent := Write(email, AddTo(gs[i]));
        if !sent.Took? { return; }
      }
      return Took;
    }

    /** Removes, then the scope, then the adds; the first refusal ends the persona's turn. */
    method ApplyOne(d: Diff) returns (sent: Sent)
      modifies this
      ensures (Abs(), sent) == SendAll(old(Abs()), d.persona.email, Plan(d))
    {
      var email := d.persona.email;
      SendAllAppend(Abs(), email, Removes(d.toRemove) + Scoping(d), Adds(d.toAdd));
      SendAllAppend(Abs(), email, Removes(d.toRemove), Scoping(d));
      sent := RemoveAll(email, d.toRemove);
      if !sent.Took? { return; }
      if d.setScope {
        sent := Write(email, SetScope(Join(d.persona.fleetIds)));
        if !sent.Took? { return; }
      }
      sent := AddAll(email, d.toAdd);
    }

    method ApplyDiffs(diffs: seq<Diff>) returns (r: Reply<Report>)
      modifies this
      ensures (Abs(), r) == ApplyAll(old(Abs()), diffs)
    {
      var changed: seq<Persona>, errors := [], 0;
      ghost var start := Abs();
      assert diffs[0..] == diffs && (ApplyAll(start, diffs).1.Ok? ==> changed + ApplyAll(start, diffs).1.value.changed == ApplyAll(start, diffs).1.value.changed);
      for i := 0 to |diffs|
        invariant ApplyAll(start, diffs) == Reported(changed, errors, ApplyAll(Abs(), diffs[i..]))
      {
        var d := diffs[i];
        PlanIsEmpty(d);
        if d.toAdd != [] || d.toRemove != [] || d.setScope {
          OneApplied(Abs(), diffs, i, changed, errors);
          var sent := ApplyOne(d);
          if sent.Died? { return Raise; }
          if sent.Took? { changed := changed + [d.persona]; } else { errors := errors + 1; }
        } else {
          assert diffs[i..][0] == d && diffs[i..][1..] == diffs[i + 1..];
        }
      }
      assert changed + [] == changed;
      return Ok(Report(changed, errors));
    }

    method VerifyPersona(p: Persona) returns (r: Reply<bool>)
      modifies this
      ensures (Abs(), r) == VerifyOne(old(Abs()), p)
    {
      var groups := UserGroups(p.email);
      if groups.Raise? { return Raise; }
      var missing, stillPresent := Keeping(p.add, groups.value, false), Keeping(p.remove, groups.value, true);
      var good := missing == [] && stillPresent == [];
      assert (forall g :: g in p.add ==> g in groups.value) <==> missing == [] by {
        if missing != [] { assert missing[0] in missing; }
      }
      assert (forall g :: g in p.remove ==> g !in groups.value) <==> stillPresent == [] by {
        if stillPresent != [] { assert stillPresent[0] in stillPresent; }
      }
      if p.fleetIds == [] { return Ok(good); }
      var scope := UserFleetIds(p.email);
      if scope.Raise? { return Raise; }
      if !(good && scope.value == Join(p.fleetIds)) { return Ok(false); }
      var shown := UserFleetIds(p.email);
      if shown.Raise? { return Raise; }
      return Ok(true);
    }

    method VerifyChanged(changed: seq<Persona>) returns (r: Reply<nat>)
      modifies this
      ensures (Abs(), r) == VerifyAll(old(Abs()), changed)
    {
      var bad := 0;
      ghost var start := Abs();
      for i := 0 to |changed|
        invariant VerifyAll(start, changed) == Onward(bad, VerifyAll(Abs(), changed[i..]))
      {
        OneVerified(Abs(), changed, i, bad);
        var good := VerifyPersona(changed[i]);
        if good.Raise? { return Raise; }
        if !good.value { bad := bad + 1; }
      }
      return Ok(bad);
    }

    method Run(q: Request) returns (r: Reply<nat>)
      modifies this
      ensures (Abs(), r) == Deprivilege(old(Abs()), q)
      ensures Sensible(q.targets) && q.apply && r == Ok(0) ==>
                Arrived(Scoped(q.targets, q.stage, q.only), old(pool), pool)
      ensures q.stage == "prod" && q.apply && (!q.confirmed || !q.countMatches) ==>
                Abs() == old(Abs()) && (r == Ok(0) ==> q.confirmed && OutOfStage(q))
      ensures !q.apply ==> pool == old(pool)
      ensures Sensible(q.targets) ==>
                |log| >= |old(log)| && forall k :: |old(log)| <= k < |log| ==> Permitted(q, log[k])
    {
      if !q.apply { DryRunWritesNothing(Abs(), q); }
      if Sensible(q.targets) {
        RunIsSafe(Abs(), q);
        forall k | |log| <= k < |Deprivilege(Abs(), q).0.log| ensures Permitted(q, Deprivilege(Abs(), q).0.log[k]) {
          WritesArePermitted(Abs(), q, k);
        }
      }
      if !ValidTargets(q.targets) { return Raise; }
      if q.stage == "prod" && q.apply && !q.confirmed { return Ok(1); }
      if OutOfStage(q) { return Ok(0); }
      if q.stage == "prod" && q.apply && !q.countMatches { return Raise; }
      var diffs := DiffAll(q.targets, q.stage, q.only);
      if diffs.Raise? { return Raise; }
      if !q.apply { return Ok(0); }
      var report := ApplyDiffs(diffs.value);
      if report.Raise? { return Raise; }
      var bad := VerifyChanged(report.value.changed);
      if bad.Raise? { return Raise; }
      return Ok(if report.value.errors + bad.value > 0 then 1 else 0);
    }
  }
}
