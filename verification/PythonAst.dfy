/** The part of Python's syntax trees the static guards look at, and the walk they look with. */
module PythonAst {
  import opened Prelude

  /** `around` holds a function's decorators, defaults and annotations.  `NoKey` stands where a
      dict display spreads another mapping (`**m`).  `Loop` is `while` and `for`, with a `for`'s
      target and iterable in `test`; `Compare` is comparison and membership, which only read;
      `Other` is every construct the guards have no case for. */
  datatype Node =
    | FunctionDef(name: string, params: seq<string>, around: seq<Node>, body: seq<Node>)
    | Assign(targets: seq<Node>, value: Node)
    | AnnAssign(target: Node, value: Node)
    | ExprStmt(value: Node)
    | If(test: Node, body: seq<Node>, orelse: seq<Node>)
    | Loop(test: Node, body: seq<Node>, orelse: seq<Node>)
    | Break
    | Continue
    | Return(value: Node)
    | ReturnNothing
    | Dict(keys: seq<Node>, values: seq<Node>)
    | Call(func: Node, args: seq<Node>, keywords: seq<Node>, line: nat)
    | Attribute(value: Node, attr: string)
    | Subscript(value: Node, slice: Node)
    | Name(id: string)
    | Str(text: string)
    | NoKey
    | Compare(parts: seq<Node>)
    | Other(parts: seq<Node>)

  function Children(n: Node): (cs: seq<Node>)
    ensures forall i :: 0 <= i < |cs| ==> cs[i] < n
  {
    match n
    case FunctionDef(_, _, around, body) => around + body
    case Assign(targets, value) => targets + [value]
    case AnnAssign(target, value) => [target, value]
    case ExprStmt(value) => [value]
    case If(test, body, orelse) => [test] + body + orelse
    case Loop(test, body, orelse) => [test] + body + orelse
    case Return(value) => [value]
    case Dict(keys, values) => keys + values
    case Call(func, args, keywords, _) => [func] + args + keywords
    case Attribute(value, _) => [value]
    case Subscript(value, slice) => [value, slice]
    case Compare(parts) => parts
    case Other(parts) => parts
    case _ => []
  }

  function Size(n: Node): nat { 1 + SizeBelow(n, Children(n)) }

  function SizeBelow(parent: Node, ns: seq<Node>): nat
    requires forall i :: 0 <= i < |ns| ==> ns[i] < parent
    decreases parent, |ns|
  {
    if ns == [] then 0 else Size(ns[0]) + SizeBelow(parent, ns[1..])
  }

  function Total(ns: seq<Node>): nat
    decreases |ns|
  {
    if ns == [] then 0 else Size(ns[0]) + Total(ns[1..])
  }

  lemma TotalAppend(a: seq<Node>, b: seq<Node>)
    ensures Total(a + b) == Total(a) + Total(b)
    decreases |a|
  {
    if a == [] {
      assert a + b == b;
    } else {
      TotalAppend(a[1..], b);
      assert (a + b)[1..] == a[1..] + b;
    }
  }

  lemma SizeIsTotal(parent: Node, ns: seq<Node>)
    requires forall i :: 0 <= i < |ns| ==> ns[i] < parent
    ensures SizeBelow(parent, ns) == Total(ns)
    decreases |ns|
  {
    if ns != [] { SizeIsTotal(parent, ns[1..]); }
  }

  /** Breadth first, from a queue, as `ast.walk` does. */
  function Walk(queue: seq<Node>): seq<Node>
    decreases Total(queue)
  {
    if queue == [] then []
    else
      assert Total(queue[1..] + Children(queue[0])) < Total(queue) by {
        TotalAppend(queue[1..], Children(queue[0]));
        SizeIsTotal(queue[0], Children(queue[0]));
      }
      [queue[0]] + Walk(queue[1..] + Children(queue[0]))
  }

  /** `m` is `n` or lies somewhere below it. */
  predicate Within(m: Node, n: Node)
    decreases n
  {
    m == n || exists c :: c in Children(n) && Within(m, c)
  }

  /** The walk visits exactly the nodes at and below its roots. */
  lemma {:induction false} WalkVisitsSubtrees(queue: seq<Node>, m: Node)
    ensures m in Walk(queue) <==> exists r :: r in queue && Within(m, r)
    decreases Total(queue)
  {
    if queue != [] {
      TotalAppend(queue[1..], Children(queue[0]));
      SizeIsTotal(queue[0], Children(queue[0]));
      var rest := queue[1..] + Children(queue[0]);
      WalkVisitsSubtrees(rest, m);
      if m in Walk(queue) && m != queue[0] {
        var r :| r in rest && Within(m, r);
        if r in Children(queue[0]) { assert Within(m, queue[0]); }
      }
      if r :| r in queue && Within(m, r) {
        if r == queue[0] && m != r {
          var c :| c in Children(r) && Within(m, c);
          assert c in rest;
        } else if r != queue[0] {
          assert r in rest;
        }
      }
    }
  }

  lemma WalkVisitsTree(root: Node, m: Node)
    ensures m in Walk([root]) <==> Within(m, root)
  {
    WalkVisitsSubtrees([root], m);
    assert root in [root];
  }

  lemma {:induction false} WithinTransitive(a: Node, b: Node, c: Node)
    requires Within(a, b) && Within(b, c)
    ensures Within(a, c)
    decreases c
  {
    if b != c {
      var d :| d in Children(c) && Within(b, d);
      WithinTransitive(a, b, d);
    }
  }
}
