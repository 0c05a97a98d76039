/** What the extracted keys and the reported gaps mean for every run of the producer. */
module ExtractionSoundness {
  import opened Prelude
  import opened PythonAst
  import opened ProducerSemantics
  import opened TransformParity

  // ---------------------------------------------------------------------------
  // Every spelled-out key is extracted
  // ---------------------------------------------------------------------------

  /** Keys spelled out for a name are among those the walk finds for that name. */
  ghost predicate Listed(k: Key, nodes: seq<Node>) {
    && (k.origin.Spelled? ==> k.text in KeysIn(nodes, k.origin.name))
    && (k.origin.InReturn? ==> k.text in DirectKeys(nodes))
  }

  ghost predicate AllListed(keys: set<Key>, nodes: seq<Node>) { forall k :: k in keys ==> Listed(k, nodes) }

  ghost predicate HeapListed(env: Env, nodes: seq<Node>) { forall r :: r in env.heap ==> AllListed(env.heap[r], nodes) }

  ghost predicate FlowListed(flow: Flow, nodes: seq<Node>) {
    match flow
    case Raised => true
    case Returned(keys) => keys.Some? ==> AllListed(keys.value, nodes)
    case _ => HeapListed(flow.env, nodes)
  }

  ghost predicate Visited(ns: seq<Node>, nodes: seq<Node>) {
    forall i, m :: 0 <= i < |ns| && Within(m, ns[i]) ==> m in nodes
  }

  lemma ChildrenVisited(n: Node, nodes: seq<Node>)
    requires forall m :: Within(m, n) ==> m in nodes
    ensures Visited(Children(n), nodes)
  {
    var cs := Children(n);
    forall i, m | 0 <= i < |cs| && Within(m, cs[i]) ensures m in nodes {
      assert cs[i] in cs;
      assert Within(m, n);
    }
  }

  lemma DisturbLists(env: Env, exposed: set<string>, f: Foreign, nodes: seq<Node>)
    requires HeapListed(env, nodes)
    ensures HeapListed(Disturb(env, exposed, f), nodes)
  {}

  lemma EvalLists(env: Env, e: Node, f: Foreign, forms: set<Origin>, nodes: seq<Node>)
    requires HeapListed(env, nodes)
    requires e.Dict? ==> forall o, t :: o in forms && t in LiteralKeys(e) ==> Listed(Key(t, o), nodes)
    ensures HeapListed(Eval(env, e, f, forms).0, nodes)
  {}

  lemma {:induction false} SubscriptKeysHas(targets: seq<Node>, x: string, i: nat)
    requires i < |targets|
    ensures SubscriptKey(targets[i], x) <= SubscriptKeys(targets, x)
  {
    if i < |targets| - 1 { SubscriptKeysHas(targets[..|targets| - 1], x, i); }
  }

  lemma {:induction false} BindAllLists(env: Env, targets: seq<Node>, r: nat, f: Foreign, nodes: seq<Node>)
    requires HeapListed(env, nodes)
    requires forall i :: 0 <= i < |targets| && targets[i].Subscript? && targets[i].value.Name? && targets[i].slice.Str? ==>
               targets[i].slice.text in KeysIn(nodes, targets[i].value.id)
    ensures HeapListed(BindAll(env, targets, r, f), nodes)
    decreases |targets|
  {
    if targets != [] { BindAllLists(Bind(env, targets[0], r, f, true), targets[1..], r, f, nodes); }
  }

  lemma AssignLists(n: Node, env: Env, f: Foreign, nodes: seq<Node>)
    requires n.Assign? && n in nodes && HeapListed(env, nodes)
    ensures HeapListed(RunAssign(n.targets, n.value, env, f), nodes)
  {
    if n.value.Dict? {
      forall o, t | o in Forms(n.targets) && t in LiteralKeys(n.value) ensures Listed(Key(t, o), nodes) {
        VisitedNodesCount(nodes, n, o.name);
        assert Name(o.name) in n.targets;
      }
    }
    EvalLists(env, n.value, f, Forms(n.targets), nodes);
    forall i | 0 <= i < |n.targets| && n.targets[i].Subscript? && n.targets[i].value.Name? && n.targets[i].slice.Str?
      ensures n.targets[i].slice.text in KeysIn(nodes, n.targets[i].value.id)
    {
      var x := n.targets[i].value.id;
      VisitedNodesCount(nodes, n, x);
      SubscriptKeysHas(n.targets, x, i);
      assert n.targets[i].slice.text in SubscriptKey(n.targets[i], x);
    }
    var (env1, r) := Eval(env, n.value, f, Forms(n.targets));
    BindAllLists(env1, n.targets, r, f, nodes);
  }

  lemma {:induction false} LiteralArgumentKeysHas(args: seq<Node>, i: nat)
    requires i < |args| && args[i].Dict?
    ensures LiteralKeys(args[i]) <= LiteralArgumentKeys(args)
  {
    if i < |args| - 1 { LiteralArgumentKeysHas(args[..|args| - 1], i); }
  }

  lemma {:induction false} UpdateKeysListed(env: Env, x: string, args: seq<Node>, f: Foreign, nodes: seq<Node>)
    requires forall i :: 0 <= i < |args| && args[i].Dict? ==> LiteralKeys(args[i]) <= KeysIn(nodes, x)
    ensures AllListed(UpdateKeys(env, x, args, f), nodes)
    decreases |args|
  {
    if args != [] {
      assert forall i :: 0 <= i < |args[1..]| ==> args[1..][i] == args[i + 1];
      UpdateKeysListed(env, x, args[1..], f, nodes);
    }
  }

  lemma UpdateLists(call: Node, env: Env, f: Foreign, nodes: seq<Node>)
    requires IsUpdate(call) && call in nodes && HeapListed(env, nodes)
    ensures HeapListed(RunUpdate(call, env, f), nodes)
  {
    var x := call.func.value.id;
    VisitedNodesCount(nodes, call, x);
    forall i | 0 <= i < |call.args| && call.args[i].Dict? ensures LiteralKeys(call.args[i]) <= KeysIn(nodes, x) {
      LiteralArgumentKeysHas(call.args, i);
    }
    UpdateKeysListed(env, x, call.args, f, nodes);
  }

  lemma ReturnLists(value: Node, env: Env, f: Foreign, nodes: seq<Node>)
    requires HeapListed(env, nodes) && (value.Dict? ==> LiteralKeys(value) <= DirectKeys(nodes))
    ensures FlowListed(RunReturn(value, env, f), nodes)
  {
    EvalLists(env, value, f, {InReturn}, nodes);
  }

  lemma AnnAssignLists(n: Node, env: Env, f: Foreign, nodes: seq<Node>)
    requires n.AnnAssign? && HeapListed(env, nodes)
    ensures HeapListed(RunAnnAssign(n.target, n.value, env, f), nodes)
  {
    EvalLists(env, n.value, f, {Annotated}, nodes);
  }

  lemma {:induction false} RunOneLists(n: Node, script: Script, env: Env, nodes: seq<Node>)
    requires HeapListed(env, nodes) && forall m :: Within(m, n) ==> m in nodes
    ensures FlowListed(RunOne(n, script, env), nodes)
    decreases script
  {
    assert Within(n, n);
    ChildrenVisited(n, nodes);
    match n
    case Assign(_, _) =>
      if script.Plain? {
        DisturbLists(env, Exposed(n), script.foreign, nodes);
        AssignLists(n, Disturb(env, Exposed(n), script.foreign), script.foreign, nodes);
      }
    case AnnAssign(_, _) =>
      if script.Plain? {
        DisturbLists(env, Exposed(n), script.foreign, nodes);
        AnnAssignLists(n, Disturb(env, Exposed(n), script.foreign), script.foreign, nodes);
      }
    case ExprStmt(e) =>
      if script.Plain? {
        DisturbLists(env, Exposed(n), script.foreign, nodes);
        assert Within(e, e) && Children(n)[0] == e;
        if IsUpdate(e) { UpdateLists(e, Disturb(env, Exposed(n), script.foreign), script.foreign, nodes); }
      }
    case Return(value) =>
      if script.Plain? {
        DisturbLists(env, Exposed(n), script.foreign, nodes);
        VisitedNodesCount(nodes, n, "");
        ReturnLists(value, Disturb(env, Exposed(n), script.foreign), script.foreign, nodes);
      }
    case If(_, _, _) => if script.Branch? { IfLists(n, script, env, nodes); }
    case Loop(_, _, _) => if script.Rounds? { LoopLists(n, script, env, nodes); }
    case Break =>
    case Continue =>
    case ReturnNothing =>
    case _ => if script.Plain? || script.Leaves? { OtherLists(n, script.foreign, env, nodes); }
  }

  lemma OtherLists(n: Node, f: Foreign, env: Env, nodes: seq<Node>)
    requires HeapListed(env, nodes)
    ensures HeapListed(Disturb(env, Exposed(n), f), nodes)
    ensures forall exit :: FlowListed(RunOther(n, exit, Disturb(env, Exposed(n), f), f), nodes)
  {
    DisturbLists(env, Exposed(n), f, nodes);
    ReturnLists(Other([]), Disturb(env, Exposed(n), f), f, nodes);
  }

  lemma {:induction false} IfLists(n: Node, script: Script, env: Env, nodes: seq<Node>)
    requires n.If? && script.Branch? && HeapListed(env, nodes) && Visited(Children(n), nodes)
    ensures FlowListed(RunOne(n, script, env), nodes)
    decreases script, 0
  {
    forall i | 0 <= i < |n.body| ensures n.body[i] == Children(n)[1 + i] {}
    forall i | 0 <= i < |n.orelse| ensures n.orelse[i] == Children(n)[1 + |n.body| + i] {}
    DisturbLists(env, Exposed(n), script.foreign, nodes);
    RunAllLists(if script.taken then n.body else n.orelse, script.inner, Disturb(env, Exposed(n), script.foreign), nodes);
  }

  lemma {:induction false} LoopLists(n: Node, script: Script, env: Env, nodes: seq<Node>)
    requires n.Loop? && script.Rounds? && HeapListed(env, nodes) && Visited(Children(n), nodes)
    ensures FlowListed(RunOne(n, script, env), nodes)
    decreases script, 0
  {
    forall i | 0 <= i < |n.body| ensures n.body[i] == Children(n)[1 + i] {}
    forall i | 0 <= i < |n.orelse| ensures n.orelse[i] == Children(n)[1 + |n.body| + i] {}
    RunRoundsLists(Exposed(n), n.body, script.rounds, env, nodes);
    var flow := RunRounds(Exposed(n), n.body, script.rounds, env);
    if flow.Next? {
      DisturbLists(flow.env, Exposed(n), script.foreign, nodes);
      RunAllLists(n.orelse, script.orelse, Disturb(flow.env, Exposed(n), script.foreign), nodes);
    }
  }

  lemma {:induction false} RunAllLists(ns: seq<Node>, scripts: seq<Script>, env: Env, nodes: seq<Node>)
    requires HeapListed(env, nodes) && Visited(ns, nodes)
    ensures FlowListed(RunAll(ns, scripts, env), nodes)
    decreases scripts
  {
    if ns != [] && scripts != [] {
      RunOneLists(ns[0], scripts[0], env, nodes);
      var flow := RunOne(ns[0], scripts[0], env);
      if flow.Next? {
        assert forall i :: 0 <= i < |ns[1..]| ==> ns[1..][i] == ns[i + 1];
        RunAllLists(ns[1..], scripts[1..], flow.env, nodes);
      }
    }
  }

  lemma {:induction false} RunRoundsLists(exposed: set<string>, body: seq<Node>, rounds: seq<Script>, env: Env, nodes: seq<Node>)
    requires HeapListed(env, nodes) && Visited(body, nodes)
    ensures FlowListed(RunRounds(exposed, body, rounds, env), nodes)
    decreases rounds
  {
    if rounds != [] && rounds[0].Block? {
      DisturbLists(env, exposed, rounds[0].foreign, nodes);
      var env1 := Disturb(env, exposed, rounds[0].foreign);
      RunAllLists(body, rounds[0].inner, env1, nodes);
      var flow := RunAll(body, rounds[0].inner, env1);
      if flow.Next? || flow.Continued? { RunRoundsLists(exposed, body, rounds[1..], flow.env, nodes); }
    }
  }

  /** The environment a call starts in: the parameters are bound, to anything unseen code made and
      may still hold. */
  ghost predicate CallOf(func: Node, env: Env)
    requires func.FunctionDef?
  {
    && (forall y :: y in env.names <==> y in func.params)
    && (forall y :: y in env.names ==> env.names[y] < env.next)
    && (forall r :: r in env.heap || r in env.leaked ==> r < env.next)
    && (forall r, k :: r in env.heap && k in env.heap[r] ==> k.origin == Unseen)
    && env.captured == {}
    && (forall i, y :: 0 <= i < |func.body| && Assigns(func.body[i], y) ==> y in env.locals)
  }

  function Texts(keys: set<Key>): set<string> { set k | k in keys :: k.text }

  /** The keys of `keys` that were put there in a form the extractor does not read for `x`: through
      a computed subscript, a spread, a keyword, a merged mapping, an annotated assignment, unseen
      code, or another name. */
  function Contributed(keys: set<Key>, x: Option<string>): set<string> {
    set k | k in keys && k.origin != InReturn && (x.None? || k.origin != Spelled(x.value)) :: k.text
  }

  lemma RunIsListed(func: Node, env: Env, scripts: seq<Script>)
    requires func.FunctionDef? && CallOf(func, env)
    ensures FlowListed(RunAll(func.body, scripts, env), Walk([func]))
  {
    var nodes := Walk([func]);
    forall m | Within(m, func) ensures m in nodes { WalkVisitsTree(func, m); }
    ChildrenVisited(func, nodes);
    forall i | 0 <= i < |func.body| ensures func.body[i] == Children(func)[|func.around| + i] {}
    RunAllLists(func.body, scripts, env, nodes);
  }

  /** For every producer there is, and every run of it: what is returned has the extracted keys and
      those the run put there in forms the extractor does not read. */
  lemma ExtractionIsSound(func: Node, env: Env, scripts: seq<Script>)
    requires func.FunctionDef? && CallOf(func, env) && Extract(func).Extracted?
    ensures var flow := RunAll(func.body, scripts, env);
            flow.Returned? && flow.keys.Some? ==>
              Texts(flow.keys.value) <= Extract(func).keys + Contributed(flow.keys.value, PayloadName(Walk([func])))
  {
    var nodes, x := Walk([func]), PayloadName(Walk([func]));
    RunIsListed(func, env, scripts);
    var flow := RunAll(func.body, scripts, env);
    if flow.Returned? && flow.keys.Some? {
      forall k | k in flow.keys.value && k.text !in Extract(func).keys ensures k.text in Contributed(flow.keys.value, x) {
        assert Listed(k, nodes);
      }
    }
  }

  // ---------------------------------------------------------------------------
  // Producers that keep the payload to themselves
  // ---------------------------------------------------------------------------

  /** The payload `x` is written and returned in forms the extractor reads, computed subscripts
      aside if they are `allowed`, and is never aliased or handed to code that is not seen. */
  predicate Tidy(n: Node, x: string, allowed: bool)
    decreases n
  {
    && x !in Exposed(n)
    && match n
       case Assign(targets, value) =>
         && value != Name(x)
         && (Name(x) in targets ==>
               value.Dict? && AllLiteral(value) && forall i :: 0 <= i < |targets| && targets[i].Name? ==> targets[i].id == x)
         && (forall i :: 0 <= i < |targets| && targets[i].Subscript? && targets[i].value == Name(x) ==> targets[i].slice.Str? || allowed)
       case AnnAssign(target, value) => value != Name(x) && target != Name(x) && !(target.Subscript? && target.value == Name(x))
       case ExprStmt(e) =>
         UpdatesName(e, x) ==> e.keywords == [] && forall i :: 0 <= i < |e.args| ==> e.args[i].Dict? && AllLiteral(e.args[i])
       case Return(value) => value == Name(x) || (value.Dict? && AllLiteral(value))
       case If(_, body, orelse) =>
         && (forall i :: 0 <= i < |body| ==> Tidy(body[i], x, allowed)) && (forall i :: 0 <= i < |orelse| ==> Tidy(orelse[i], x, allowed))
       case Loop(_, body, orelse) =>
         && (forall i :: 0 <= i < |body| ==> Tidy(body[i], x, allowed)) && (forall i :: 0 <= i < |orelse| ==> Tidy(orelse[i], x, allowed))
       case Other(_) => !HoldsReturn(n)
       case _ => true
  }

  ghost predicate AllTidy(ns: seq<Node>, x: string, allowed: bool) { forall i :: 0 <= i < |ns| ==> Tidy(ns[i], x, allowed) }

  predicate Own(k: Key, x: string, allowed: bool) { k.origin == Spelled(x) || (allowed && k.origin == Computed) }

  /** `x`'s object is reached by no other name and no unseen code, and holds only keys put there
      through `x`. */
  ghost predicate Held(env: Env, x: string, allowed: bool) {
    && (forall y :: y in env.names ==> env.names[y] < env.next)
    && (forall r :: r in env.heap || r in env.leaked ==> r < env.next)
    && x !in env.captured && x in env.locals
    && (x in env.names ==>
          && env.names[x] in env.heap && env.names[x] !in env.leaked
          && (forall k :: k in env.heap[env.names[x]] ==> Own(k, x, allowed))
          && forall y :: y in env.names && y != x ==> env.names[y] != env.names[x])
  }

  ghost predicate FlowHeld(flow: Flow, x: string, allowed: bool) {
    match flow
    case Raised => true
    case Returned(keys) => keys.Some? ==> forall k :: k in keys.value ==> Own(k, x, allowed) || k.origin == InReturn
    case _ => Held(flow.env, x, allowed)
  }

  lemma DisturbHolds(env: Env, exposed: set<string>, f: Foreign, x: string, allowed: bool)
    requires Held(env, x, allowed) && x !in exposed
    ensures Held(Disturb(env, exposed, f), x, allowed)
    ensures x in Disturb(env, exposed, f).names <==> x in env.names
  {
    if x in env.names { assert env.names[x] !in Reached(env, env.captured + exposed); }
  }

  /** An object for other names: not `x`'s. */
  lemma {:induction false} EvalHolds(env: Env, e: Node, f: Foreign, forms: set<Origin>, x: string, allowed: bool)
    requires Held(env, x, allowed) && e != Name(x)
    ensures var (env1, r) := Eval(env, e, f, forms);
            && Held(env1, x, allowed) && env1.names == env.names && r < env1.next
            && (x in env.names ==> r != env.names[x])
            && (e.Dict? ==> r in env1.heap && r !in env1.leaked && (forall y :: y in env1.names ==> env1.names[y] != r))
            && (e.Dict? && AllLiteral(e) ==> forall k :: k in env1.heap[r] ==> k.origin in forms)
  {}

  lemma {:induction false} BindAllHolds(env: Env, targets: seq<Node>, r: nat, f: Foreign, x: string, allowed: bool)
    requires Held(env, x, allowed) && r < env.next
    requires forall i :: 0 <= i < |targets| && targets[i].Subscript? && targets[i].value == Name(x) ==> targets[i].slice.Str? || allowed
    requires || ((forall i :: 0 <= i < |targets| && targets[i].Name? ==> targets[i].id == x)
                 && r in env.heap && r !in env.leaked && (forall k :: k in env.heap[r] ==> Own(k, x, allowed))
                 && (forall y :: y in env.names && y != x ==> env.names[y] != r))
             || ((forall i :: 0 <= i < |targets| && targets[i].Name? ==> targets[i].id != x)
                 && (x in env.names ==> env.names[x] != r))
    ensures Held(BindAll(env, targets, r, f), x, allowed)
    decreases |targets|
  {
    if targets != [] {
      var env1 := Bind(env, targets[0], r, f, true);
      assert forall i :: 0 <= i < |targets[1..]| ==> targets[1..][i] == targets[i + 1];
      BindHolds(env, targets[0], r, f, x, allowed);
      BindAllHolds(env1, targets[1..], r, f, x, allowed);
    }
  }

  lemma {:induction false} BindHolds(env: Env, t: Node, r: nat, f: Foreign, x: string, allowed: bool)
    requires Held(env, x, allowed) && r < env.next
    requires t.Subscript? && t.value == Name(x) ==> t.slice.Str? || allowed
    requires t.Name? && t.id == x ==>
               && r in env.heap && r !in env.leaked && (forall k :: k in env.heap[r] ==> Own(k, x, allowed))
               && (forall y :: y in env.names && y != x ==> env.names[y] != r)
    requires t.Name? && t.id != x && x in env.names ==> env.names[x] != r
    ensures var env1 := Bind(env, t, r, f, true);
            && Held(env1, x, allowed) && env1.next == env.next && env1.leaked == env.leaked && env1.heap.Keys == env.heap.Keys
            && (forall y :: y in env1.names ==> (y in env.names && env1.names[y] == env.names[y]) || (t == Name(y) && env1.names[y] == r))
            && (!t.Subscript? ==> env1.heap == env.heap)
            && (forall q :: q in env.heap && (x !in env.names || q != env.names[x]) && !(t.Subscript? && t.value.Name? && t.value.id in env.names && q == env.names[t.value.id])
                  ==> env1.heap[q] == env.heap[q])
  {}

  lemma AssignHolds(n: Node, env: Env, f: Foreign, x: string, allowed: bool)
    requires n.Assign? && Tidy(n, x, allowed) && Held(env, x, allowed)
    ensures Held(RunAssign(n.targets, n.value, env, f), x, allowed)
  {
    var (env1, r) := Eval(env, n.value, f, Forms(n.targets));
    EvalHolds(env, n.value, f, Forms(n.targets), x, allowed);
    if Name(x) !in n.targets {
      forall i | 0 <= i < |n.targets| && n.targets[i].Name? ensures n.targets[i].id != x { assert n.targets[i] in n.targets; }
    } else {
      forall o | o in Forms(n.targets) ensures o == Spelled(x) {
        var t :| t in n.targets && t.Name? && o == Spelled(t.id);
        var i :| 0 <= i < |n.targets| && n.targets[i] == t;
      }
    }
    BindAllHolds(env1, n.targets, r, f, x, allowed);
  }

  lemma {:induction false} AnnAssignHolds(n: Node, env: Env, f: Foreign, x: string, allowed: bool)
    requires n.AnnAssign? && Tidy(n, x, allowed) && Held(env, x, allowed)
    ensures Held(RunAnnAssign(n.target, n.value, env, f), x, allowed)
  {
    EvalHolds(env, n.value, f, {Annotated}, x, allowed);
    var (env1, r) := Eval(env, n.value, f, {Annotated});
    AnnotatedBindHolds(env1, n.target, r, f, x, allowed);
  }

  lemma {:induction false} AnnotatedBindHolds(env: Env, t: Node, r: nat, f: Foreign, x: string, allowed: bool)
    requires Held(env, x, allowed) && r < env.next && (x in env.names ==> env.names[x] != r)
    requires t != Name(x) && !(t.Subscript? && t.value == Name(x))
    ensures Held(Bind(env, t, r, f, false), x, allowed)
  {}

  lemma {:induction false} LiteralUpdateIsOwn(env: Env, x: string, args: seq<Node>, f: Foreign, allowed: bool)
    requires forall i :: 0 <= i < |args| ==> args[i].Dict? && AllLiteral(args[i])
    ensures forall k :: k in UpdateKeys(env, x, args, f) ==> Own(k, x, allowed)
    decreases |args|
  {
    if args != [] {
      assert forall i :: 0 <= i < |args[1..]| ==> args[1..][i] == args[i + 1];
      LiteralUpdateIsOwn(env, x, args[1..], f, allowed);
    }
  }

  lemma UpdateHolds(n: Node, env: Env, f: Foreign, x: string, allowed: bool)
    requires n.ExprStmt? && IsUpdate(n.value) && Tidy(n, x, allowed) && Held(env, x, allowed)
    ensures Held(RunUpdate(n.value, env, f), x, allowed)
  {
    if UpdatesName(n.value, x) { LiteralUpdateIsOwn(env, x, n.value.args, f, allowed); }
  }

  lemma ReturnHolds(n: Node, env: Env, f: Foreign, x: string, allowed: bool)
    requires n.Return? && Tidy(n, x, allowed) && Held(env, x, allowed)
    ensures FlowHeld(RunReturn(n.value, env, f), x, allowed)
  {
    if n.value != Name(x) { EvalHolds(env, n.value, f, {InReturn}, x, allowed); }
  }

  /** One statement of those that hold no others. */
  lemma SimpleHolds(n: Node, f: Foreign, env: Env, x: string, allowed: bool)
    requires Held(env, x, allowed) && Tidy(n, x, allowed) && !n.If? && !n.Loop?
    ensures FlowHeld(RunOne(n, Plain(f), env), x, allowed)
  {
    var env1 := Disturb(env, Exposed(n), f);
    DisturbHolds(env, Exposed(n), f, x, allowed);
    if n.Assign? {
      AssignHolds(n, env1, f, x, allowed);
    } else if n.AnnAssign? {
      AnnAssignHolds(n, env1, f, x, allowed);
    } else if n.ExprStmt? && IsUpdate(n.value) {
      UpdateHolds(n, env1, f, x, allowed);
    } else if n.Return? {
      ReturnHolds(n, env1, f, x, allowed);
    }
  }

  lemma LeaveHolds(n: Node, script: Script, env: Env, x: string, allowed: bool)
    requires Held(env, x, allowed) && Tidy(n, x, allowed) && n.Other? && script.Leaves?
    ensures FlowHeld(RunOne(n, script, env), x, allowed)
  {
    DisturbHolds(env, Exposed(n), script.foreign, x, allowed);
  }

  lemma {:induction false} RunOneHolds(n: Node, script: Script, env: Env, x: string, allowed: bool)
    requires Held(env, x, allowed) && Tidy(n, x, allowed)
    ensures FlowHeld(RunOne(n, script, env), x, allowed)
    decreases script, 1
  {
    if n.If? {
      if script.Branch? {
        DisturbHolds(env, Exposed(n), script.foreign, x, allowed);
        RunAllHolds(if script.taken then n.body else n.orelse, script.inner, Disturb(env, Exposed(n), script.foreign), x, allowed);
      }
    } else if n.Loop? {
      if script.Rounds? { LoopHolds(n, script, env, x, allowed); }
    } else if script.Plain? {
      SimpleHolds(n, script.foreign, env, x, allowed);
    } else if n.Other? && script.Leaves? {
      LeaveHolds(n, script, env, x, allowed);
    }
  }

  lemma {:induction false} LoopHolds(n: Node, script: Script, env: Env, x: string, allowed: bool)
    requires n.Loop? && script.Rounds? && Held(env, x, allowed) && Tidy(n, x, allowed)
    ensures FlowHeld(RunOne(n, script, env), x, allowed)
    decreases script, 0
  {
    RunRoundsHolds(Exposed(n), n.body, script.rounds, env, x, allowed);
    var flow := RunRounds(Exposed(n), n.body, script.rounds, env);
    if flow.Next? {
      DisturbHolds(flow.env, Exposed(n), script.foreign, x, allowed);
      RunAllHolds(n.orelse, script.orelse, Disturb(flow.env, Exposed(n), script.foreign), x, allowed);
    }
  }

  lemma {:induction false} RunAllHolds(ns: seq<Node>, scripts: seq<Script>, env: Env, x: string, allowed: bool)
    requires Held(env, x, allowed) && AllTidy(ns, x, allowed)
    ensures FlowHeld(RunAll(ns, scripts, env), x, allowed)
    decreases scripts, 1
  {
    if ns != [] && scripts != [] {
      RunOneHolds(ns[0], scripts[0], env, x, allowed);
      var flow := RunOne(ns[0], scripts[0], env);
      if flow.Next? {
        assert forall i :: 0 <= i < |ns[1..]| ==> ns[1..][i] == ns[i + 1];
        RunAllHolds(ns[1..], scripts[1..], flow.env, x, allowed);
      }
    }
  }

  lemma {:induction false} RunRoundsHolds(exposed: set<string>, body: seq<Node>, rounds: seq<Script>, env: Env, x: string, allowed: bool)
    requires Held(env, x, allowed) && AllTidy(body, x, allowed) && x !in exposed
    ensures FlowHeld(RunRounds(exposed, body, rounds, env), x, allowed)
    decreases rounds, 1
  {
    if rounds != [] && rounds[0].Block? {
      DisturbHolds(env, exposed, rounds[0].foreign, x, allowed);
      var env1 := Disturb(env, exposed, rounds[0].foreign);
      RunAllHolds(body, rounds[0].inner, env1, x, allowed);
      var flow := RunAll(body, rounds[0].inner, env1);
      if flow.Next? || flow.Continued? { RunRoundsHolds(exposed, body, rounds[1..], flow.env, x, allowed); }
    }
  }

  /** A tidy producer's returned dict holds keys put there through its payload name alone. */
  lemma TidyKeepsItsOwn(func: Node, x: string, allowed: bool, env: Env, scripts: seq<Script>)
    requires func.FunctionDef? && CallOf(func, env) && x !in func.params && AllTidy(func.body, x, allowed)
    requires exists i :: 0 <= i < |func.body| && Assigns(func.body[i], x)
    ensures FlowHeld(RunAll(func.body, scripts, env), x, allowed)
  {
    RunAllHolds(func.body, scripts, env, x, allowed);
  }

  /** With computed subscripts as the only unreadable form, as in the one producer the guard reads:
      a returned key that was not extracted was put there by a computed subscript. */
  lemma OnlyComputedKeysAreMissed(func: Node, x: string, env: Env, scripts: seq<Script>)
    requires func.FunctionDef? && CallOf(func, env) && x !in func.params && AllTidy(func.body, x, true)
    requires exists i :: 0 <= i < |func.body| && Assigns(func.body[i], x)
    requires Extract(func).Extracted? && PayloadName(Walk([func])) == Some(x)
    ensures var flow := RunAll(func.body, scripts, env);
            flow.Returned? && flow.keys.Some? ==>
              forall k :: k in flow.keys.value && k.text !in Extract(func).keys ==> k.origin == Computed
  {
    TidyKeepsItsOwn(func, x, true, env, scripts);
    var flow := RunAll(func.body, scripts, env);
    if flow.Returned? && flow.keys.Some? {
      forall k | k in flow.keys.value && k.text !in Extract(func).keys ensures k.origin == Computed {
        if k.origin != Computed { SpelledIsExtracted(func, x, env, scripts, k); }
      }
    }
  }

  lemma SpelledIsExtracted(func: Node, x: string, env: Env, scripts: seq<Script>, k: Key)
    requires func.FunctionDef? && CallOf(func, env) && Extract(func).Extracted? && PayloadName(Walk([func])) == Some(x)
    requires var flow := RunAll(func.body, scripts, env); flow.Returned? && flow.keys.Some? && k in flow.keys.value
    requires k.origin == Spelled(x) || k.origin == InReturn
    ensures k.text in Extract(func).keys
  {
    RunIsListed(func, env, scripts);
    assert Listed(k, Walk([func]));
  }

  /** With none: every returned key was extracted. */
  lemma TidyProducersAreCovered(func: Node, x: string, env: Env, scripts: seq<Script>)
    requires func.FunctionDef? && CallOf(func, env) && x !in func.params && AllTidy(func.body, x, false)
    requires exists i :: 0 <= i < |func.body| && Assigns(func.body[i], x)
    requires Extract(func).Extracted? && PayloadName(Walk([func])) == Some(x)
    ensures var flow := RunAll(func.body, scripts, env);
            flow.Returned? && flow.keys.Some? ==> Texts(flow.keys.value) <= Extract(func).keys
  {
    TidyKeepsItsOwn(func, x, false, env, scripts);
    var flow := RunAll(func.body, scripts, env);
    if flow.Returned? && flow.keys.Some? {
      forall k | k in flow.keys.value ensures k.text in Extract(func).keys { SpelledIsExtracted(func, x, env, scripts, k); }
    }
  }

  // ---------------------------------------------------------------------------
  // Gaps
  // ---------------------------------------------------------------------------

  /** What a reported gap means, for every producer and run: its head is no key the run returns,
      unless the run put it there in a form the extractor does not read. */
  lemma GapsAreEmittedOnlyUnread(func: Node, env: Env, scripts: seq<Script>, path: string)
    requires func.FunctionDef? && CallOf(func, env) && Extract(func).Extracted? && Head(path) !in Extract(func).keys
    ensures var flow := RunAll(func.body, scripts, env);
            flow.Returned? && flow.keys.Some? && Head(path) in Texts(flow.keys.value) ==>
              Head(path) in Contributed(flow.keys.value, PayloadName(Walk([func])))
  {
    ExtractionIsSound(func, env, scripts);
  }

  /** And of a tidy producer it is no key any run returns. */
  lemma GapsAreNeverEmitted(func: Node, x: string, env: Env, scripts: seq<Script>, path: string)
    requires func.FunctionDef? && CallOf(func, env) && x !in func.params && AllTidy(func.body, x, false)
    requires exists i :: 0 <= i < |func.body| && Assigns(func.body[i], x)
    requires Extract(func).Extracted? && PayloadName(Walk([func])) == Some(x) && Head(path) !in Extract(func).keys
    ensures var flow := RunAll(func.body, scripts, env);
            flow.Returned? && flow.keys.Some? ==> Head(path) !in Texts(flow.keys.value)
  {
    TidyProducersAreCovered(func, x, env, scripts);
  }

  // ---------------------------------------------------------------------------
  // A key the extractor neither lists nor counts
  // ---------------------------------------------------------------------------

  function Strings(texts: seq<string>): seq<Node> { seq(|texts|, i requires 0 <= i < |texts| => Str(texts[i])) }

  function Display(texts: seq<string>): Node { Dict(Strings(texts), seq(|texts|, _ => Other([]))) }

  /** `x = {"a": ..., "b": ..., ...}; x[field] = ...; return x` */
  function ComputedProducer(x: string, texts: seq<string>): Node {
    FunctionDef("producer", [], [],
                [Assign([Name(x)], Display(texts)), Assign([Subscript(Name(x), Name("field"))], Other([])), Return(Name(x))])
  }

  predicate Statement(n: Node) { n.Assign? || n.Call? || n.Return? }

  lemma {:induction false} ChildAbove(n: Node, top: Node) returns (c: Node)
    requires Within(n, top) && n != top
    ensures c in Children(top) && Within(n, c)
  {
    c :| c in Children(top) && Within(n, c);
  }

  lemma {:induction false} OfDisplay(n: Node, texts: seq<string>)
    requires Within(n, Display(texts))
    ensures !Statement(n)
  {
    if n != Display(texts) {
      var c := ChildAbove(n, Display(texts));
      LeafOfDisplay(c, texts);
      if n != c { var d := ChildAbove(n, c); }
    }
  }

  lemma {:induction false} LeafOfDisplay(c: Node, texts: seq<string>)
    requires c in Children(Display(texts))
    ensures (c.Str? || c == Other([])) && Children(c) == []
  {
    var i :| 0 <= i < |Children(Display(texts))| && Children(Display(texts))[i] == c;
  }

  lemma {:induction false} OfTarget(n: Node, x: string)
    requires Within(n, Subscript(Name(x), Name("field")))
    ensures !Statement(n)
  {
    var t := Subscript(Name(x), Name("field"));
    if n != t {
      var c := ChildAbove(n, t);
      assert c.Name? && Children(c) == [];
      if n != c { var d := ChildAbove(n, c); }
    }
  }

  lemma {:induction false} OfDisplayAssign(n: Node, x: string, texts: seq<string>)
    requires var a := Assign([Name(x)], Display(texts)); Within(n, a) && n != a
    ensures !Statement(n)
  {
    var c := ChildAbove(n, Assign([Name(x)], Display(texts)));
    if c == Display(texts) { OfDisplay(n, texts); } else { OfLeaf(n, c); }
  }

  lemma {:induction false} OfSubscriptAssign(n: Node, x: string)
    requires var a := Assign([Subscript(Name(x), Name("field"))], Other([])); Within(n, a) && n != a
    ensures !Statement(n)
  {
    var c := ChildAbove(n, Assign([Subscript(Name(x), Name("field"))], Other([])));
    if c == Subscript(Name(x), Name("field")) { OfTarget(n, x); } else { OfLeaf(n, c); }
  }

  lemma {:induction false} OfReturn(n: Node, x: string)
    requires Within(n, Return(Name(x))) && n != Return(Name(x))
    ensures !Statement(n)
  {
    var c := ChildAbove(n, Return(Name(x)));
    OfLeaf(n, c);
  }

  lemma {:induction false} OfLeaf(n: Node, c: Node)
    requires Within(n, c) && (c.Name? || c == Other([]))
    ensures !Statement(n)
  {
    assert Children(c) == [];
    if n != c { var d := ChildAbove(n, c); }
  }

  /** The producer's only statements are its three. */
  lemma {:induction false} StatementsOf(n: Node, x: string, texts: seq<string>)
    requires Within(n, ComputedProducer(x, texts)) && Statement(n)
    ensures n in ComputedProducer(x, texts).body
  {
    var func := ComputedProducer(x, texts);
    var c := ChildAbove(n, func);
    assert Children(func) == func.body;
    if n !in func.body {
      if c == func.body[0] { OfDisplayAssign(n, x, texts); }
      else if c == func.body[1] { OfSubscriptAssign(n, x); }
      else { OfReturn(n, x); }
    }
  }

  lemma {:induction false} KeysInFrom(nodes: seq<Node>, x: string, keys: set<string>)
    requires forall n :: n in nodes ==> KeysOf(n, x) <= keys && Unresolved(n, x) == 0 && !ReturnsDict(n)
    ensures KeysIn(nodes, x) <= keys && UnresolvedIn(nodes, x) == 0 && DirectKeys(nodes) == {}
  {
    if nodes != [] {
      assert nodes[|nodes| - 1] in nodes;
      KeysInFrom(nodes[..|nodes| - 1], x, keys);
    }
  }

  lemma {:induction false} PayloadFrom(nodes: seq<Node>, x: string)
    requires Return(Name(x)) in nodes && forall n :: n in nodes && ReturnsName(n) ==> n.value.id == x
    ensures PayloadName(nodes) == Some(x)
  {
    var last := nodes[|nodes| - 1];
    assert last in nodes;
    if !ReturnsName(last) {
      assert nodes == nodes[..|nodes| - 1] + [last];
      PayloadFrom(nodes[..|nodes| - 1], x);
    }
  }

  lemma {:induction false} DisplayKeys(texts: seq<string>)
    ensures LiteralKeys(Display(texts)) == (set t | t in texts) && AllLiteral(Display(texts))
  {
    var d := Display(texts);
    forall t | t in texts ensures t in LiteralKeys(d) {
      var i :| 0 <= i < |texts| && texts[i] == t;
      assert d.keys[i] == Str(t);
    }
  }

  lemma {:induction false} StatementKeys(x: string, texts: seq<string>)
    ensures var body, keys := ComputedProducer(x, texts).body, set t | t in texts;
            KeysOf(body[0], x) == keys && KeysOf(body[1], x) == {} && KeysOf(body[2], x) == {}
  {
    DisplayKeys(texts);
    var body := ComputedProducer(x, texts).body;
    assert SubscriptKeys([Name(x)], x) == {} by { assert [Name(x)][..0] == []; }
    assert SubscriptKeys(body[1].targets, x) == {} by { assert body[1].targets[..0] == []; }
  }

  lemma {:induction false} VisitedStatement(n: Node, x: string, texts: seq<string>)
    requires n in Walk([ComputedProducer(x, texts)])
    ensures KeysOf(n, x) <= (set t | t in texts) && Unresolved(n, x) == 0 && !ReturnsDict(n) && (ReturnsName(n) ==> n.value.id == x)
  {
    WalkVisitsTree(ComputedProducer(x, texts), n);
    if Statement(n) {
      StatementsOf(n, x, texts);
      StatementKeys(x, texts);
    }
  }

  lemma {:induction false} BodyIsVisited(func: Node, n: Node)
    requires func.FunctionDef? && n in func.body
    ensures n in Walk([func])
  {
    assert n in Children(func) && Within(n, n);
    WalkVisitsTree(func, n);
  }

  lemma {:induction false} ExtractFrom(func: Node, x: string, keys: set<string>)
    requires var nodes := Walk([func]);
             && PayloadName(nodes) == Some(x) && Return(Name(x)) in nodes
             && DirectKeys(nodes) == {} && KeysIn(nodes, x) == keys && UnresolvedIn(nodes, x) == 0
    ensures Extract(func) == Extracted(keys, 0)
  {}

  lemma {:induction false} ComputedKeysIn(x: string, texts: seq<string>)
    ensures var nodes := Walk([ComputedProducer(x, texts)]);
            KeysIn(nodes, x) == (set t | t in texts) && UnresolvedIn(nodes, x) == 0 && DirectKeys(nodes) == {}
  {
    var func, keys := ComputedProducer(x, texts), set t | t in texts;
    forall n | n in Walk([func]) ensures KeysOf(n, x) <= keys && Unresolved(n, x) == 0 && !ReturnsDict(n) {
      VisitedStatement(n, x, texts);
    }
    KeysInFrom(Walk([func]), x, keys);
    BodyIsVisited(func, func.body[0]);
    StatementKeys(x, texts);
    VisitedNodesCount(Walk([func]), func.body[0], x);
  }

  lemma {:induction false} ComputedExtraction(x: string, texts: seq<string>)
    ensures Extract(ComputedProducer(x, texts)) == Extracted(set t | t in texts, 0)
    ensures PayloadName(Walk([ComputedProducer(x, texts)])) == Some(x)
  {
    var func := ComputedProducer(x, texts);
    forall n | n in Walk([func]) && ReturnsName(n) ensures n.value.id == x { VisitedStatement(n, x, texts); }
    BodyIsVisited(func, func.body[2]);
    PayloadFrom(Walk([func]), x);
    ComputedKeysIn(x, texts);
    ExtractFrom(func, x, set t | t in texts);
  }

  const NOTHING := Foreign({}, map[], {}, None)

  function Start(x: string): Env { Env(map[], map[], 0, {}, {}, {x}) }

  lemma {:induction false} NoneMentioned(texts: seq<string>)
    ensures ExposedByValue(Display(texts)) == {} && Mentioned(Other([])) == {} && Occurring(Other([])) == {}
  {
    var d := Display(texts);
    assert d.keys + d.values == Children(d);
    forall i | 0 <= i < |Children(d)| ensures Mentioned(Children(d)[i]) == {} {
      var c := Children(d)[i];
      assert c.Str? || c == Other([]);
      assert Children(c) == [];
    }
  }

  /** A producer may have any number of extracted keys, enough for the guard's floor, nothing
      counted unresolvable, and yet return a key that was not extracted: any key its computed
      subscript comes to.  A manifest path with that head is reported as a gap all the same. */
  lemma {:induction false} ComputedKeyIsMissed(x: string, texts: seq<string>, key: string)
    requires key !in texts && x != "field"
    ensures var func := ComputedProducer(x, texts);
            && Extract(func) == Extracted(set t | t in texts, 0) && key !in Extract(func).keys
            && CallOf(func, Start(x)) && AllTidy(func.body, x, true)
            && var flow := RunAll(func.body, [Plain(NOTHING), Plain(NOTHING.(keys := {key})), Plain(NOTHING)], Start(x));
               flow.Returned? && flow.keys.Some? && key in Texts(flow.keys.value)
  {
    ComputedExtraction(x, texts);
    ComputedIsTidy(x, texts);
    ComputedRun(x, texts, key);
  }

  lemma {:induction false} DisplayIsTidy(x: string, texts: seq<string>)
    ensures Tidy(Assign([Name(x)], Display(texts)), x, true)
  {
    DisplayKeys(texts);
    NoneMentioned(texts);
    assert Exposed(Assign([Name(x)], Display(texts))) == {};
  }

  lemma {:induction false} SubscriptIsTidy(x: string)
    requires x != "field"
    ensures Tidy(Assign([Subscript(Name(x), Name("field"))], Other([])), x, true)
  {
    var t := Subscript(Name(x), Name("field"));
    NoneMentioned([]);
    assert Mentioned(Name("field")) == {"field"};
    assert ExposedByTarget(t) == {"field"};
    forall u | u in [t] ensures u == t {}
    assert x !in Exposed(Assign([t], Other([])));
  }

  lemma {:induction false} StartsIt(x: string, texts: seq<string>)
    ensures CallOf(ComputedProducer(x, texts), Start(x))
  {
    var body := ComputedProducer(x, texts).body;
    forall i, y | 0 <= i < |body| && Assigns(body[i], y) ensures y == x { assert i == 0 && Name(y) in [Name(x)]; }
  }

  lemma {:induction false} ComputedIsTidy(x: string, texts: seq<string>)
    requires x != "field"
    ensures var func := ComputedProducer(x, texts); CallOf(func, Start(x)) && AllTidy(func.body, x, true)
  {
    var func := ComputedProducer(x, texts);
    StartsIt(x, texts);
    DisplayIsTidy(x, texts);
    SubscriptIsTidy(x);
    assert Tidy(Return(Name(x)), x, true);
  }

  /** `x` is bound to an object with these keys at least, and new objects do not replace it. */
  ghost predicate Has(env: Env, x: string, keys: set<Key>) {
    x in env.names && env.names[x] in env.heap && env.names[x] < env.next && keys <= env.heap[env.names[x]]
  }

  lemma {:induction false} DisturbKeepsKeys(env: Env, exposed: set<string>, f: Foreign, x: string, keys: set<Key>)
    requires Has(env, x, keys) && f.rebinds == {}
    ensures Has(Disturb(env, exposed, f), x, keys)
  {}

  lemma {:induction false} EvalKeepsKeys(env: Env, e: Node, f: Foreign, forms: set<Origin>, x: string, keys: set<Key>)
    requires Has(env, x, keys)
    ensures Has(Eval(env, e, f, forms).0, x, keys)
  {}

  lemma {:induction false} DisplayGives(x: string, texts: seq<string>)
    ensures var flow := RunOne(Assign([Name(x)], Display(texts)), Plain(NOTHING), Start(x)); flow.Next? && Has(flow.env, x, {})
  {
    var n := Assign([Name(x)], Display(texts));
    var env := Disturb(Start(x), Exposed(n), NOTHING);
    var (env1, r) := Eval(env, n.value, NOTHING, Forms(n.targets));
    assert r in env1.heap && r < env1.next;
    assert [Name(x)][1..] == [];
    assert BindAll(env1, [Name(x)], r, NOTHING) == Bind(env1, Name(x), r, NOTHING, true);
  }

  lemma {:induction false} SubscriptGives(x: string, env: Env, f: Foreign)
    requires Has(env, x, {}) && f.rebinds == {}
    ensures var flow := RunOne(Assign([Subscript(Name(x), Name("field"))], Other([])), Plain(f), env);
            flow.Next? && Has(flow.env, x, Tagged(f.keys, Computed))
  {
    var t := Subscript(Name(x), Name("field"));
    var n := Assign([t], Other([]));
    DisturbKeepsKeys(env, Exposed(n), f, x, {});
    var env1 := Disturb(env, Exposed(n), f);
    EvalKeepsKeys(env1, n.value, f, Forms(n.targets), x, {});
    var (env2, r) := Eval(env1, n.value, f, Forms(n.targets));
    assert [t][1..] == [];
    assert BindAll(env2, [t], r, f) == Bind(env2, t, r, f, true) == Grow(env2, x, Tagged(f.keys, Computed));
  }

  lemma {:induction false} ReturnGives(x: string, env: Env, keys: set<Key>)
    requires Has(env, x, keys)
    ensures var flow := RunOne(Return(Name(x)), Plain(NOTHING), env); flow.Returned? && flow.keys.Some? && keys <= flow.keys.value
  {
    DisturbKeepsKeys(env, {}, NOTHING, x, keys);
    assert Exposed(Return(Name(x))) == {};
  }

  lemma {:induction false} ThreeSteps(a: Node, b: Node, c: Node, p: Script, q: Script, r: Script, env: Env)
    requires RunOne(a, p, env).Next? && RunOne(b, q, RunOne(a, p, env).env).Next?
    requires RunOne(c, r, RunOne(b, q, RunOne(a, p, env).env).env).Returned?
    ensures RunAll([a, b, c], [p, q, r], env) == RunOne(c, r, RunOne(b, q, RunOne(a, p, env).env).env)
  {
    var env2 := RunOne(b, q, RunOne(a, p, env).env).env;
    assert [a, b, c][1..] == [b, c] && [b, c][1..] == [c] && [p, q, r][1..] == [q, r] && [q, r][1..] == [r];
    assert RunAll([c], [r], env2) == RunOne(c, r, env2);
    assert RunAll([b, c], [q, r], RunOne(a, p, env).env) == RunAll([c], [r], env2);
  }

  lemma {:induction false} ComputedRun(x: string, texts: seq<string>, key: string)
    ensures var flow := RunAll(ComputedProducer(x, texts).body, [Plain(NOTHING), Plain(NOTHING.(keys := {key})), Plain(NOTHING)], Start(x));
            flow.Returned? && flow.keys.Some? && key in Texts(flow.keys.value)
  {
    var body, f := ComputedProducer(x, texts).body, NOTHING.(keys := {key});
    DisplayGives(x, texts);
    var env1 := RunOne(body[0], Plain(NOTHING), Start(x)).env;
    SubscriptGives(x, env1, f);
    var env2 := RunOne(body[1], Plain(f), env1).env;
    ReturnGives(x, env2, Tagged({key}, Computed));
    var flow := RunOne(body[2], Plain(NOTHING), env2);
    assert key in {key} && Key(key, Computed) in flow.keys.value;
    ThreeSteps(body[0], body[1], body[2], Plain(NOTHING), Plain(f), Plain(NOTHING), Start(x));
  }
}
