/** The manifest/producer parity guard: the key extractor and the gap computation. */
module TransformParity {
  import opened Prelude
  import opened PythonAst
  import opened ProducerSemantics

  // ---------------------------------------------------------------------------
  // The extractor
  // ---------------------------------------------------------------------------

  datatype Extraction = NoFunction | NoReturn | NoShape | Extracted(keys: set<string>, unresolvable: nat)

  predicate Names(t: Node, x: string) { t == Name(x) }

  predicate ReturnsName(n: Node) { n.Return? && n.value.Name? }

  predicate ReturnsDict(n: Node) { n.Return? && n.value.Dict? }

  function SubscriptKey(t: Node, x: string): set<string> {
    if t.Subscript? && Names(t.value, x) && t.slice.Str? then {t.slice.text} else {}
  }

  function SubscriptKeys(targets: seq<Node>, x: string): set<string> {
    if targets == [] then {} else SubscriptKeys(targets[..|targets| - 1], x) + SubscriptKey(targets[|targets| - 1], x)
  }

  predicate UpdatesName(n: Node, x: string) { IsUpdate(n) && n.func.value.id == x }

  function LiteralArgumentKeys(args: seq<Node>): set<string> {
    if args == [] then {}
    else
      var last := args[|args| - 1];
      LiteralArgumentKeys(args[..|args| - 1]) + (if last.Dict? then LiteralKeys(last) else {})
  }

  function OpaqueArguments(args: seq<Node>): nat {
    if args == [] then 0
    else OpaqueArguments(args[..|args| - 1]) + (if args[|args| - 1].Dict? then 0 else 1)
  }

  /** What one visited node adds to the key set of `x`. */
  function KeysOf(n: Node, x: string): set<string> {
    if n.Assign? then
      (if n.value.Dict? && Name(x) in n.targets then LiteralKeys(n.value) else {}) + SubscriptKeys(n.targets, x)
    else if UpdatesName(n, x) then LiteralArgumentKeys(n.args) else {}
  }

  function Unresolved(n: Node, x: string): nat {
    if UpdatesName(n, x) then OpaqueArguments(n.args) else 0
  }

  function KeysIn(nodes: seq<Node>, x: string): set<string> {
    if nodes == [] then {} else KeysIn(nodes[..|nodes| - 1], x) + KeysOf(nodes[|nodes| - 1], x)
  }

  function UnresolvedIn(nodes: seq<Node>, x: string): nat {
    if nodes == [] then 0 else UnresolvedIn(nodes[..|nodes| - 1], x) + Unresolved(nodes[|nodes| - 1], x)
  }

  function DirectKeys(nodes: seq<Node>): set<string> {
    if nodes == [] then {}
    else
      var last := nodes[|nodes| - 1];
      DirectKeys(nodes[..|nodes| - 1]) + (if ReturnsDict(last) then LiteralKeys(last.value) else {})
  }

  /** The name returned last in walk order. */
  function PayloadName(nodes: seq<Node>): Option<string> {
    if nodes == [] then None
    else if ReturnsName(nodes[|nodes| - 1]) then Some(nodes[|nodes| - 1].value.id)
    else PayloadName(nodes[..|nodes| - 1])
  }

  function Extract(func: Node): Extraction {
    var nodes := Walk([func]);
    if forall n :: n in nodes ==> !n.Return? then NoReturn
    else
      match PayloadName(nodes)
      case None => if DirectKeys(nodes) != {} then Extracted(DirectKeys(nodes), 0) else NoShape
      case Some(x) => Extracted(DirectKeys(nodes) + KeysIn(nodes, x), UnresolvedIn(nodes, x))
  }

  predicate Defines(n: Node, name: string) { n.FunctionDef? && n.name == name }

  /** The first definition of that name the walk meets. */
  ghost predicate FirstDefined(tree: Node, name: string, func: Node) {
    exists i :: 0 <= i < |Walk([tree])| && Walk([tree])[i] == func && func.FunctionDef? && func.name == name
                && forall j :: 0 <= j < i ==> !(Walk([tree])[j].FunctionDef? && Walk([tree])[j].name == name)
  }

  method FindFunction(tree: Node, name: string) returns (r: Option<Node>)
    ensures r.Some? ==> FirstDefined(tree, name, r.value) && Within(r.value, tree)
    ensures r.None? ==> forall n :: Within(n, tree) ==> !(n.FunctionDef? && n.name == name)
  {
    var nodes := Walk([tree]);
    var i := 0;
    while i < |nodes|
      invariant 0 <= i <= |nodes|
      invariant forall j :: 0 <= j < i ==> !Defines(nodes[j], name)
    {
      if Defines(nodes[i], name) {
        WalkVisitsTree(tree, nodes[i]);
        return Some(nodes[i]);
      }
      i := i + 1;
    }
    forall n | Within(n, tree) ensures !Defines(n, name) {
      WalkVisitsTree(tree, n);
    }
    return None;
  }

  /** The first function of that name decides: its payload is the name it returns last, a key is
      extracted exactly when one of its nodes puts it there, and what is counted unresolvable are
      the arguments of the payload's `update` that are no display. */
  method EmittedKeys(tree: Node, name: string) returns (r: Extraction)
    ensures r.NoFunction? <==> forall n :: Within(n, tree) ==> !(n.FunctionDef? && n.name == name)
    ensures !r.NoFunction? ==> exists func :: FirstDefined(tree, name, func) && r == Extract(func) && Described(func, r)
  {
    var found := FindFunction(tree, name);
    if found.None? { return NoFunction; }
    r := KeysOfFunction(found.value);
    ExtractionIsDescribed(found.value);
  }

  lemma NextNode(nodes: seq<Node>, i: nat, x: string)
    requires i < |nodes|
    ensures KeysIn(nodes[..i + 1], x) == KeysIn(nodes[..i], x) + KeysOf(nodes[i], x)
    ensures UnresolvedIn(nodes[..i + 1], x) == UnresolvedIn(nodes[..i], x) + Unresolved(nodes[i], x)
  {
    assert nodes[..i + 1][..i] == nodes[..i];
  }

  method KeysOfFunction(func: Node) returns (r: Extraction)
    ensures r == Extract(func)
  {
    var nodes := Walk([func]);
    var any, direct, payload := ScanReturns(nodes);
    if !any { return NoReturn; }
    if payload.None? { return if direct != {} then Extracted(direct, 0) else NoShape; }
    var keys, unresolvable := direct, 0;
    var i := 0;
    while i < |nodes|
      invariant 0 <= i <= |nodes|
      invariant keys == direct + KeysIn(nodes[..i], payload.value)
      invariant unresolvable == UnresolvedIn(nodes[..i], payload.value)
    {
      NextNode(nodes, i, payload.value);
      var added, opaque_ := ScanNode(nodes[i], payload.value);
      keys, unresolvable := keys + added, unresolvable + opaque_;
      i := i + 1;
    }
    assert nodes[..|nodes|] == nodes;
    return Extracted(keys, unresolvable);
  }

  lemma NextReturn(nodes: seq<Node>, i: nat)
    requires i < |nodes|
    ensures DirectKeys(nodes[..i + 1]) == DirectKeys(nodes[..i]) + if ReturnsDict(nodes[i]) then LiteralKeys(nodes[i].value) else {}
    ensures PayloadName(nodes[..i + 1]) == if ReturnsName(nodes[i]) then Some(nodes[i].value.id) else PayloadName(nodes[..i])
  {
    assert nodes[..i + 1][..i] == nodes[..i];
  }

  method ScanReturns(nodes: seq<Node>) returns (any: bool, direct: set<string>, payload: Option<string>)
    ensures any <==> exists n :: n in nodes && n.Return?
    ensures direct == DirectKeys(nodes) && payload == PayloadName(nodes)
  {
    any, direct, payload := false, {}, None;
    var i := 0;
    while i < |nodes|
      invariant 0 <= i <= |nodes|
      invariant any <==> exists j :: 0 <= j < i && nodes[j].Return?
      invariant direct == DirectKeys(nodes[..i]) && payload == PayloadName(nodes[..i])
    {
      NextReturn(nodes, i);
      if nodes[i].Return? {
        any := true;
        if nodes[i].value.Dict? { direct := direct + LiteralKeys(nodes[i].value); }
        else if nodes[i].value.Name? { payload := Some(nodes[i].value.id); }
      }
      i := i + 1;
    }
    assert nodes[..|nodes|] == nodes;
  }

  method ScanNode(node: Node, x: string) returns (keys: set<string>, unresolvable: nat)
    ensures keys == KeysOf(node, x) && unresolvable == Unresolved(node, x)
  {
    keys, unresolvable := {}, 0;
    if node.Assign? {
      if node.value.Dict? && Name(x) in node.targets { keys := LiteralKeys(node.value); }
      var written := SubscriptWrites(node.targets, x);
      keys := keys + written;
    }
    if UpdatesName(node, x) {
      var i := 0;
      while i < |node.args|
        invariant 0 <= i <= |node.args|
        invariant keys == LiteralArgumentKeys(node.args[..i])
        invariant unresolvable == OpaqueArguments(node.args[..i])
      {
        assert node.args[..i + 1][..i] == node.args[..i];
        if node.args[i].Dict? { keys := keys + LiteralKeys(node.args[i]); } else { unresolvable := unresolvable + 1; }
        i := i + 1;
      }
      assert node.args[..|node.args|] == node.args;
    }
  }

  method SubscriptWrites(targets: seq<Node>, x: string) returns (keys: set<string>)
    ensures keys == SubscriptKeys(targets, x)
  {
    keys := {};
    var i := 0;
    while i < |targets|
      invariant 0 <= i <= |targets| && keys == SubscriptKeys(targets[..i], x)
    {
      assert targets[..i + 1][..i] == targets[..i];
      var t := targets[i];
      if t.Subscript? && Names(t.value, x) && t.slice.Str? { keys := keys + {t.slice.text}; }
      i := i + 1;
    }
    assert targets[..|targets|] == targets;
  }

  lemma {:induction false} VisitedNodesCount(nodes: seq<Node>, n: Node, x: string)
    requires n in nodes
    ensures KeysOf(n, x) <= KeysIn(nodes, x) && Unresolved(n, x) <= UnresolvedIn(nodes, x)
    ensures ReturnsDict(n) ==> LiteralKeys(n.value) <= DirectKeys(nodes)
  {
    if n != nodes[|nodes| - 1] { VisitedNodesCount(nodes[..|nodes| - 1], n, x); }
  }

  // ---------------------------------------------------------------------------
  // The extraction by the shapes of the function's nodes
  // ---------------------------------------------------------------------------

  predicate Spells(d: Node, key: string) { d.Dict? && Str(key) in d.keys }

  /** The forms a key is read from: a display returned, one assigned to the payload `x` itself, a
      literal subscript of `x`, and a display passed to `x.update`. */
  predicate Puts(n: Node, x: Option<string>, key: string) {
    || (n.Return? && Spells(n.value, key))
    || (x.Some? && n.Assign? && Name(x.value) in n.targets && Spells(n.value, key))
    || (x.Some? && n.Assign? && Subscript(Name(x.value), Str(key)) in n.targets)
    || (x.Some? && n.Call? && n.func == Attribute(Name(x.value), "update") && exists a :: a in n.args && Spells(a, key))
  }

  /** The name returned last, if any is. */
  ghost predicate LastReturned(nodes: seq<Node>, x: Option<string>) {
    if x.None? then forall i :: 0 <= i < |nodes| ==> !(nodes[i].Return? && nodes[i].value.Name?)
    else exists i :: 0 <= i < |nodes| && nodes[i] == Return(Name(x.value))
                     && forall j :: i < j < |nodes| ==> !(nodes[j].Return? && nodes[j].value.Name?)
  }

  /** The arguments of `x.update` that are no display, by node and position. */
  function OpaquePlaces(nodes: seq<Node>, x: string): set<(nat, nat)> {
    set i: nat, j: nat | i < |nodes| && nodes[i].Call? && nodes[i].func == Attribute(Name(x), "update")
                         && j < |nodes[i].args| && !nodes[i].args[j].Dict? :: (i, j)
  }

  /** What an extraction of `func` says about its nodes. */
  ghost predicate Described(func: Node, r: Extraction) {
    && (r.NoReturn? <==> forall n :: Within(n, func) ==> !n.Return?)
    && (r.NoShape? ==> forall n :: Within(n, func) && n.Return? ==> !n.value.Name? && forall key :: !Spells(n.value, key))
    && (r.Extracted? && LastReturned(Walk([func]), None) ==> r.keys != {})
    && (r.Extracted? ==>
          forall x :: LastReturned(Walk([func]), x) ==>
            && (forall key :: key in r.keys <==> exists n :: Within(n, func) && Puts(n, x, key))
            && r.unresolvable == if x.None? then 0 else |OpaquePlaces(Walk([func]), x.value)|)
  }

  lemma {:induction false} SubscriptKeysExactly(targets: seq<Node>, x: string, key: string)
    ensures key in SubscriptKeys(targets, x) <==> Subscript(Name(x), Str(key)) in targets
  {
    if targets != [] {
      assert targets == targets[..|targets| - 1] + [targets[|targets| - 1]];
      SubscriptKeysExactly(targets[..|targets| - 1], x, key);
    }
  }

  lemma SpellsExactly(d: Node, key: string)
    ensures Spells(d, key) <==> d.Dict? && key in LiteralKeys(d)
  {}

  lemma {:induction false} ArgumentKeysExactly(args: seq<Node>, key: string)
    ensures key in LiteralArgumentKeys(args) <==> exists a :: a in args && Spells(a, key)
  {
    if args != [] {
      var last := args[|args| - 1];
      assert args == args[..|args| - 1] + [last];
      ArgumentKeysExactly(args[..|args| - 1], key);
      SpellsExactly(last, key);
      assert Spells(last, key) ==> last in args && key in LiteralArgumentKeys(args);
    }
  }

  lemma KeysOfExactly(n: Node, x: string, key: string)
    ensures key in KeysOf(n, x) <==> !n.Return? && Puts(n, Some(x), key)
  {
    if n.Assign? { SubscriptKeysExactly(n.targets, x, key); }
    if n.Call? { ArgumentKeysExactly(n.args, key); }
  }

  lemma {:induction false} KeysInExactly(nodes: seq<Node>, x: string, key: string)
    ensures key in KeysIn(nodes, x) <==> exists n :: n in nodes && !n.Return? && Puts(n, Some(x), key)
  {
    if nodes != [] {
      var n, init := nodes[|nodes| - 1], nodes[..|nodes| - 1];
      assert nodes == init + [n];
      KeysInExactly(init, x, key);
      KeysOfExactly(n, x, key);
    }
  }

  lemma {:induction false} DirectKeysExactly(nodes: seq<Node>, key: string)
    ensures key in DirectKeys(nodes) <==> exists n :: n in nodes && n.Return? && Spells(n.value, key)
  {
    if nodes != [] {
      assert nodes == nodes[..|nodes| - 1] + [nodes[|nodes| - 1]];
      DirectKeysExactly(nodes[..|nodes| - 1], key);
    }
  }

  lemma OneMoreReturned(init: seq<Node>, n: Node, x: Option<string>)
    ensures LastReturned(init + [n], x) <==> if n.Return? && n.value.Name? then x == Some(n.value.id) else LastReturned(init, x)
  {
    var nodes := init + [n];
    assert nodes[|init|] == n && forall i :: 0 <= i < |init| ==> nodes[i] == init[i];
    if x.Some? && LastReturned(init, x) && !ReturnsName(n) {
      var i :| 0 <= i < |init| && init[i] == Return(Name(x.value)) && forall j :: i < j < |init| ==> !(init[j].Return? && init[j].value.Name?);
      assert nodes[i] == Return(Name(x.value));
    }
  }

  lemma {:induction false} PayloadIsLastReturned(nodes: seq<Node>, x: Option<string>)
    ensures PayloadName(nodes) == x <==> LastReturned(nodes, x)
  {
    if nodes != [] {
      var n, init := nodes[|nodes| - 1], nodes[..|nodes| - 1];
      assert nodes == init + [n];
      PayloadIsLastReturned(init, x);
      OneMoreReturned(init, n, x);
    }
  }

  function OpaqueAt(args: seq<Node>, i: nat): set<(nat, nat)> { set j: nat | j < |args| && !args[j].Dict? :: (i, j) }

  lemma {:induction false} OpaqueArgumentsCount(args: seq<Node>, i: nat)
    ensures |OpaqueAt(args, i)| == OpaqueArguments(args)
  {
    if args != [] {
      var last, init := |args| - 1, args[..|args| - 1];
      OpaqueArgumentsCount(init, i);
      if args[last].Dict? {
        assert OpaqueAt(args, i) == OpaqueAt(init, i);
      } else {
        assert OpaqueAt(args, i) == OpaqueAt(init, i) + {(i, last)};
      }
    }
  }

  lemma PlacesOfLast(nodes: seq<Node>, x: string)
    requires nodes != []
    ensures var last, n := |nodes| - 1, nodes[|nodes| - 1];
            var more := if n.Call? && n.func == Attribute(Name(x), "update") then OpaqueAt(n.args, last) else {};
            OpaquePlaces(nodes, x) == OpaquePlaces(nodes[..last], x) + more && OpaquePlaces(nodes[..last], x) !! more
  {
    var init := nodes[..|nodes| - 1];
    assert forall i :: 0 <= i < |init| ==> init[i] == nodes[i];
  }

  lemma UnresolvedOfOne(n: Node, x: string, i: nat)
    ensures Unresolved(n, x) == if n.Call? && n.func == Attribute(Name(x), "update") then |OpaqueAt(n.args, i)| else 0
  {
    if n.Call? { OpaqueArgumentsCount(n.args, i); }
  }

  lemma {:induction false} UnresolvedCounts(nodes: seq<Node>, x: string)
    ensures UnresolvedIn(nodes, x) == |OpaquePlaces(nodes, x)|
  {
    if nodes != [] {
      var last, n := |nodes| - 1, nodes[|nodes| - 1];
      UnresolvedCounts(nodes[..last], x);
      PlacesOfLast(nodes, x);
      UnresolvedOfOne(n, x, last);
    }
  }

  lemma ExtractionIsDescribed(func: Node)
    ensures Described(func, Extract(func))
  {
    var nodes, r := Walk([func]), Extract(func);
    forall n ensures n in nodes <==> Within(n, func) { WalkVisitsTree(func, n); }
    PayloadIsLastReturned(nodes, PayloadName(nodes));
    if r.NoShape? {
      forall n, key | n in nodes && n.Return? ensures !n.value.Name? && !Spells(n.value, key) { DirectKeysExactly(nodes, key); }
    }
    if r.Extracted? {
      forall x | LastReturned(nodes, x)
        ensures forall key :: key in r.keys <==> exists n :: Within(n, func) && Puts(n, x, key)
        ensures r.unresolvable == if x.None? then 0 else |OpaquePlaces(nodes, x.value)|
      {
        PayloadIsLastReturned(nodes, x);
        forall key ensures key in r.keys <==> exists n :: Within(n, func) && Puts(n, x, key) { ExtractedExactly(func, x, key); }
        if x.Some? { UnresolvedCounts(nodes, x.value); }
      }
    }
  }

  lemma FoundExactly(nodes: seq<Node>, x: Option<string>, key: string)
    ensures key in DirectKeys(nodes) || (x.Some? && key in KeysIn(nodes, x.value)) <==> exists n :: n in nodes && Puts(n, x, key)
  {
    DirectKeysExactly(nodes, key);
    if x.Some? { KeysInExactly(nodes, x.value, key); }
  }

  /** A key is extracted exactly when some node of the function puts it there. */
  lemma ExtractedExactly(func: Node, x: Option<string>, key: string)
    requires Extract(func).Extracted? && LastReturned(Walk([func]), x)
    ensures key in Extract(func).keys <==> exists n :: Within(n, func) && Puts(n, x, key)
  {
    var nodes := Walk([func]);
    PayloadIsLastReturned(nodes, x);
    FoundExactly(nodes, x, key);
    if n :| n in nodes && Puts(n, x, key) { WalkVisitsTree(func, n); }
    if n :| Within(n, func) && Puts(n, x, key) { WalkVisitsTree(func, n); }
  }

  // ---------------------------------------------------------------------------
  // Gaps
  // ---------------------------------------------------------------------------

  /** The part of a source path before its first dot. */
  function Head(path: string): string {
    if path == [] || path[0] == '.' then [] else [path[0]] + Head(path[1..])
  }

  lemma {:induction false} UndottedHead(path: string)
    requires '.' !in path
    ensures Head(path) == path
  {
    if path != [] { UndottedHead(path[1..]); }
  }

  method FirstDot(path: string) returns (head: string, dotted: bool)
    ensures dotted <==> '.' in path
    ensures head == Head(path)
    ensures '.' !in head && head <= path && (if dotted then |head| < |path| && path[|head|] == '.' else head == path)
  {
    var i := 0;
    while i < |path| && path[i] != '.'
      invariant 0 <= i <= |path| && '.' !in path[..i]
      invariant Head(path) == path[..i] + Head(path[i..])
    {
      assert path[..i + 1] == path[..i] + [path[i]];
      assert path[i..][1..] == path[i + 1..];
      i := i + 1;
    }
    head, dotted := path[..i], i < |path|;
    if !dotted { assert path[..i] == path; }
  }

  /** The two passes of the guard: dotted paths by their head, flat paths by set difference. */
  method Gaps(paths: seq<string>, emitted: set<string>) returns (gaps: set<string>, nested: seq<string>)
    ensures gaps == set p | p in paths && Head(p) !in emitted
    ensures forall p :: p in nested <==> p in paths && '.' in p && Head(p) in emitted
  {
    var flat: set<string> := {};
    var missing: set<string> := {};
    nested := [];
    var i := 0;
    while i < |paths|
      invariant 0 <= i <= |paths|
      invariant flat == set p | p in paths[..i] && '.' !in p
      invariant missing == set p | p in paths[..i] && '.' in p && Head(p) !in emitted
      invariant forall p :: p in nested <==> p in paths[..i] && '.' in p && Head(p) in emitted
    {
      assert paths[..i + 1] == paths[..i] + [paths[i]];
      var head, dotted := FirstDot(paths[i]);
      if !dotted { flat := flat + {paths[i]}; }
      else if head in emitted { nested := nested + [paths[i]]; }
      else { missing := missing + {paths[i]}; }
      i := i + 1;
    }
    assert paths[..|paths|] == paths;
    forall p | p in flat ensures Head(p) == p { UndottedHead(p); }
    gaps := flat - emitted + missing;
  }
}
