/** A semantics of the producer functions the parity guard reads: which keys the dict a run returns
    can have, and in what form each was put there.  Dicts are heap objects with the top-level keys
    they were ever given; names may share them, and unseen code may hold on to them.  A script
    resolves what the syntax leaves open. */
module ProducerSemantics {
  import opened Prelude
  import opened PythonAst

  /** `Spelled(y)`: by a dict literal assigned to `y`, a literal subscript of `y`, or a dict literal
      in `y.update`.  `InReturn`: by a dict literal returned on the spot.  The others are a computed
      subscript, a `**` spread, a keyword of `update`, another mapping merged by `update`, an
      annotated assignment, and code that is not seen. */
  datatype Origin = Spelled(name: string) | InReturn | Computed | Spread | Keyword | Merged | Annotated | Unseen

  datatype Key = Key(text: string, origin: Origin)

  /** `leaked` are the objects unseen code may change, `captured` the names it may also rebind;
      reading one of the function's `locals` before it is bound raises. */
  datatype Env = Env(names: map<string, nat>, heap: map<nat, set<Key>>, next: nat, leaked: set<nat>, captured: set<string>,
                     locals: set<string>)

  /** What unseen code does at one statement: the keys it comes up with there, those it puts into
      leaked objects, the captured names it rebinds, and the leaked object, if any, it hands back. */
  datatype Foreign = Foreign(keys: set<string>, into: map<nat, set<string>>, rebinds: set<string>, known: Option<nat>)

  datatype Exit = BreakOut | ContinueOn | ReturnOut

  datatype Script =
    | Plain(foreign: Foreign)
    | Leaves(foreign: Foreign, exit: Exit)
    | Branch(foreign: Foreign, taken: bool, inner: seq<Script>)
    | Block(foreign: Foreign, inner: seq<Script>)
    | Rounds(rounds: seq<Script>, foreign: Foreign, orelse: seq<Script>)

  /** `Raised` also stands for a run whose script ends early. */
  datatype Flow = Next(env: Env) | Broke(env: Env) | Continued(env: Env) | Raised | Returned(keys: Option<set<Key>>)

  function LiteralKeys(d: Node): set<string>
    requires d.Dict?
  {
    set i | 0 <= i < |d.keys| && d.keys[i].Str? :: d.keys[i].text
  }

  predicate AllLiteral(d: Node)
    requires d.Dict?
  {
    forall i :: 0 <= i < |d.keys| ==> d.keys[i].Str?
  }

  /** `x.update(...)` as a call node. */
  predicate IsUpdate(n: Node) {
    n.Call? && n.func.Attribute? && n.func.attr == "update" && n.func.value.Name?
  }

  /** `x.get(...)` and `x.pop(...)`, which give a dict made here no key and hand it to nobody. */
  predicate ReadsName(n: Node) {
    n.Call? && n.func.Attribute? && n.func.attr in ["get", "pop"] && n.func.value.Name?
  }

  // ---------------------------------------------------------------------------
  // The names a statement lets unseen code at
  // ---------------------------------------------------------------------------

  function Occurring(n: Node): set<string>
    decreases n
  {
    (if n.Name? then {n.id} else {}) + set c, y | c in Children(n) && y in Occurring(c) :: y
  }

  /** The names an expression hands to unseen code: all but those it only subscripts, compares or
      reads. */
  function Mentioned(e: Node): set<string>
    decreases e
  {
    match e
    case Name(id) => {id}
    case Subscript(base, slice) => (if base.Name? then {} else Mentioned(base)) + Mentioned(slice)
    case Compare(parts) => set c, y | c in parts && !c.Name? && y in Mentioned(c) :: y
    case Dict(keys, values) => set c, y | c in Children(e) && y in Mentioned(c) :: y
    case Call(func, args, keywords, _) =>
      (if ReadsName(e) then {} else Mentioned(func)) + set c, y | c in args + keywords && y in Mentioned(c) :: y
    case Attribute(value, _) => Mentioned(value)
    case Other(parts) => set c, y | c in parts && y in Mentioned(c) :: y
    case _ => Occurring(e)
  }

  function MentionedIn(es: seq<Node>): set<string> { set c, y | c in es && y in Mentioned(c) :: y }

  function ExposedByValue(e: Node): set<string> {
    match e
    case Name(_) => {}
    case Dict(keys, values) => MentionedIn(keys + values)
    case _ => Mentioned(e)
  }

  function ExposedByTarget(t: Node): set<string> {
    match t
    case Name(_) => {}
    case Subscript(base, slice) => (if base.Name? then {} else Mentioned(base)) + Mentioned(slice)
    case _ => Occurring(t)
  }

  /** A name stored into anything but a name is exposed as well. */
  function ExposedByAssignment(targets: seq<Node>, value: Node): set<string> {
    ExposedByValue(value) + (set t, y | t in targets && y in ExposedByTarget(t) :: y)
    + (if value.Name? && exists t :: t in targets && !t.Name? then {value.id} else {})
  }

  function Exposed(n: Node): set<string> {
    match n
    case Assign(targets, value) => ExposedByAssignment(targets, value)
    case AnnAssign(target, value) => ExposedByAssignment([target], value)
    case ExprStmt(e) =>
      if IsUpdate(e) then (set a, y | a in e.args && y in ExposedByValue(a) :: y) + MentionedIn(e.keywords) else Mentioned(e)
    case If(test, _, _) => Mentioned(test)
    case Loop(test, _, _) => Occurring(test)
    case Return(value) => ExposedByValue(value)
    case FunctionDef(name, _, _, _) => {name} + Occurring(n)
    case _ => Occurring(n)
  }

  // ---------------------------------------------------------------------------
  // Steps
  // ---------------------------------------------------------------------------

  function Tagged(texts: set<string>, origin: Origin): set<Key> { set t | t in texts :: Key(t, origin) }

  function Reached(env: Env, captured: set<string>): set<nat> {
    env.leaked + set y | y in captured && y in env.names :: env.names[y]
  }

  /** Unseen code at work, with these names handed to it. */
  function Disturb(env: Env, exposed: set<string>, f: Foreign): Env {
    var captured := env.captured + exposed;
    var leaked := Reached(env, captured);
    var heap := map r | r in env.heap :: env.heap[r] + (if r in leaked && r in f.into then Tagged(f.into[r], Unseen) else {});
    var given := if f.known.Some? && f.known.value in leaked then f.known.value else env.next;
    Env(env.names + map y | y in f.rebinds && y in captured :: given,
        heap[env.next := Tagged(f.keys, Unseen)], env.next + 1, leaked + {env.next}, captured, env.locals)
  }

  /** The object an expression evaluates to.  The keys a display spells out are put there in the
      given forms; what unseen code hands back is a leaked object or one it made. */
  function Eval(env: Env, e: Node, f: Foreign, forms: set<Origin>): (Env, nat) {
    if e.Dict? then
      var keys := (set o, t | o in forms && t in LiteralKeys(e) :: Key(t, o)) + (if AllLiteral(e) then {} else Tagged(f.keys, Spread));
      (env.(heap := env.heap[env.next := keys], next := env.next + 1), env.next)
    else if e.Name? && e.id in env.names then (env, env.names[e.id])
    else if f.known.Some? && f.known.value in env.leaked then (env, f.known.value)
    else (env.(heap := env.heap[env.next := Tagged(f.keys, Unseen)], next := env.next + 1, leaked := env.leaked + {env.next}), env.next)
  }

  function Grow(env: Env, x: string, keys: set<Key>): Env {
    if x in env.names && env.names[x] in env.heap
    then env.(heap := env.heap[env.names[x] := env.heap[env.names[x]] + keys]) else env
  }

  function Bind(env: Env, t: Node, r: nat, f: Foreign, plain: bool): Env {
    match t
    case Name(x) => env.(names := env.names[x := r])
    case Subscript(base, slice) =>
      if !base.Name? then env
      else if !slice.Str? then Grow(env, base.id, Tagged(f.keys, Computed))
      else Grow(env, base.id, {Key(slice.text, if plain then Spelled(base.id) else Annotated)})
    case _ => env
  }

  function BindAll(env: Env, targets: seq<Node>, r: nat, f: Foreign): Env
    decreases |targets|
  {
    if targets == [] then env else BindAll(Bind(env, targets[0], r, f, true), targets[1..], r, f)
  }

  /** A display assigned to names is spelled out for each of them. */
  function Forms(targets: seq<Node>): set<Origin> { set t | t in targets && t.Name? :: Spelled(t.id) }

  function ArgumentKeys(env: Env, x: string, arg: Node, f: Foreign): set<Key> {
    if arg.Dict? then Tagged(LiteralKeys(arg), Spelled(x)) + (if AllLiteral(arg) then {} else Tagged(f.keys, Spread))
    else if arg.Name? && arg.id in env.names && env.names[arg.id] in env.heap then
      set k | k in env.heap[env.names[arg.id]] :: Key(k.text, Merged)
    else Tagged(f.keys, Merged)
  }

  function UpdateKeys(env: Env, x: string, args: seq<Node>, f: Foreign): set<Key>
    decreases |args|
  {
    if args == [] then {} else ArgumentKeys(env, x, args[0], f) + UpdateKeys(env, x, args[1..], f)
  }

  function RunAssign(targets: seq<Node>, value: Node, env: Env, f: Foreign): Env {
    var (env1, r) := Eval(env, value, f, Forms(targets));
    BindAll(env1, targets, r, f)
  }

  function RunAnnAssign(target: Node, value: Node, env: Env, f: Foreign): Env {
    var (env1, r) := Eval(env, value, f, {Annotated});
    Bind(env1, target, r, f, false)
  }

  function RunUpdate(call: Node, env: Env, f: Foreign): Env
    requires IsUpdate(call)
  {
    var x := call.func.value.id;
    Grow(env, x, UpdateKeys(env, x, call.args, f) + (if call.keywords == [] then {} else Tagged(f.keys, Keyword)))
  }

  function RunReturn(value: Node, env: Env, f: Foreign): Flow {
    if value.Name? && value.id !in env.names && value.id in env.locals then Raised
    else
      var (env1, r) := Eval(env, value, f, {InReturn});
      Returned(if r in env1.heap then Some(env1.heap[r]) else None)
  }

  /** The function's own statements assign the name, which makes it local. */
  predicate Assigns(n: Node, x: string)
    decreases n
  {
    match n
    case Assign(targets, _) => Name(x) in targets
    case If(_, body, orelse) => (exists i :: 0 <= i < |body| && Assigns(body[i], x)) || (exists i :: 0 <= i < |orelse| && Assigns(orelse[i], x))
    case Loop(_, body, orelse) => (exists i :: 0 <= i < |body| && Assigns(body[i], x)) || (exists i :: 0 <= i < |orelse| && Assigns(orelse[i], x))
    case _ => false
  }

  /** A construct the semantics does not look into, such as `try` or `with`, may leave its block. */
  function RunOther(n: Node, exit: Exit, env: Env, f: Foreign): Flow {
    match exit
    case BreakOut => Broke(env)
    case ContinueOn => Continued(env)
    case ReturnOut => if HoldsReturn(n) then RunReturn(Other([]), env, f) else Raised
  }

  predicate HoldsReturn(n: Node) { exists m :: m in Walk([n]) && (m.Return? || m.ReturnNothing?) }

  function RunOne(n: Node, script: Script, env: Env): Flow
    decreases script
  {
    match n
    case Assign(targets, value) =>
      if script.Plain? then Next(RunAssign(targets, value, Disturb(env, Exposed(n), script.foreign), script.foreign)) else Raised
    case AnnAssign(target, value) =>
      if script.Plain? then Next(RunAnnAssign(target, value, Disturb(env, Exposed(n), script.foreign), script.foreign)) else Raised
    case ExprStmt(e) =>
      if !script.Plain? then Raised
      else
        var env1 := Disturb(env, Exposed(n), script.foreign);
        Next(if IsUpdate(e) then RunUpdate(e, env1, script.foreign) else env1)
    case If(_, body, orelse) =>
      if !script.Branch? then Raised
      else RunAll(if script.taken then body else orelse, script.inner, Disturb(env, Exposed(n), script.foreign))
    case Loop(_, body, orelse) =>
      if !script.Rounds? then Raised
      else
        var flow := RunRounds(Exposed(n), body, script.rounds, env);
        if flow.Next? then RunAll(orelse, script.orelse, Disturb(flow.env, Exposed(n), script.foreign))
        else if flow.Broke? then Next(flow.env) else flow
    case Break => Broke(env)
    case Continue => Continued(env)
    case Return(value) =>
      if script.Plain? then RunReturn(value, Disturb(env, Exposed(n), script.foreign), script.foreign) else Raised
    case ReturnNothing => Returned(None)
    case _ =>
      if script.Plain? then Next(Disturb(env, Exposed(n), script.foreign))
      else if script.Leaves? && n.Other? then RunOther(n, script.exit, Disturb(env, Exposed(n), script.foreign), script.foreign)
      else Raised
  }

  function RunAll(ns: seq<Node>, scripts: seq<Script>, env: Env): Flow
    decreases scripts
  {
    if ns == [] then Next(env)
    else if scripts == [] then Raised
    else
      var flow := RunOne(ns[0], scripts[0], env);
      if flow.Next? then RunAll(ns[1..], scripts[1..], flow.env) else flow
  }

  /** The rounds of a loop: `Next` when its condition ends it, `Broke` when a `break` does. */
  function RunRounds(exposed: set<string>, body: seq<Node>, rounds: seq<Script>, env: Env): Flow
    decreases rounds
  {
    if rounds == [] then Next(env)
    else if !rounds[0].Block? then Raised
    else
      var flow := RunAll(body, rounds[0].inner, Disturb(env, exposed, rounds[0].foreign));
      match flow
      case Next(env1) => RunRounds(exposed, body, rounds[1..], env1)
      case Continued(env1) => RunRounds(exposed, body, rounds[1..], env1)
      case _ => flow
  }
}
