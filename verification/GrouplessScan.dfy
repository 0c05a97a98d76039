/** The scan for account creation without group assignment: what no violation means for every
    call site of a tree, and which comments suppress one. */
module GrouplessScan {
  import opened Prelude
  import opened PythonAst

  const CREATE := {"admin_create_user", "AdminCreateUser"}
  const GROUP := {"admin_add_user_to_group", "AdminAddUserToGroup"}

  // ---------------------------------------------------------------------------
  // Suppression
  // ---------------------------------------------------------------------------

  predicate Blank(c: char) { c in " \t\r\n" || c == 11 as char || c == 12 as char }

  /** The line's first non-blank character is a hash. */
  predicate IsComment(line: string) {
    line != "" && (line[0] == '#' || (Blank(line[0]) && IsComment(line[1..])))
  }

  /** `marker` stands for the suppression pattern, rationale included. */
  predicate MarkedAt(lines: seq<string>, marker: string -> bool, i: int) { 0 <= i < |lines| && marker(lines[i]) }

  predicate CommentAt(lines: seq<string>, i: int) { 0 <= i < |lines| && IsComment(lines[i]) }

  /** On the call's own line, or in the unbroken comment block right above it. */
  ghost predicate Suppressed(lines: seq<string>, marker: string -> bool, lineno: nat) {
    || MarkedAt(lines, marker, lineno - 1)
    || exists j :: 0 <= j < lineno - 1 && MarkedAt(lines, marker, j) && forall i :: j <= i < lineno - 1 ==> CommentAt(lines, i)
  }

  method IsSuppressed(lines: seq<string>, marker: string -> bool, lineno: nat) returns (suppressed: bool)
    ensures suppressed <==> Suppressed(lines, marker, lineno)
  {
    if MarkedAt(lines, marker, lineno - 1) { return true; }
    var idx := lineno - 2;
    while idx >= 0
      invariant idx <= lineno - 2
      invariant forall i :: idx < i < lineno - 1 ==> CommentAt(lines, i) && !MarkedAt(lines, marker, i)
    {
      if !CommentAt(lines, idx) {
        return false;
      }
      if MarkedAt(lines, marker, idx) { return true; }
      idx := idx - 1;
    }
    return false;
  }

  /** In the lines' own terms: some line carries the marker, and it is the call's own or above it with
      nothing but comment lines from there to the call. */
  lemma SuppressedExactly(lines: seq<string>, marker: string -> bool, lineno: nat)
    requires lineno <= |lines|
    ensures Suppressed(lines, marker, lineno) <==>
              exists j :: 0 <= j < lineno && marker(lines[j]) && forall i :: j <= i < lineno - 1 ==> IsComment(lines[i])
  {
    if j :| 0 <= j < lineno && marker(lines[j]) && forall i :: j <= i < lineno - 1 ==> IsComment(lines[i]) {
      assert MarkedAt(lines, marker, j);
      assert forall i :: j <= i < lineno - 1 ==> CommentAt(lines, i);
    }
    if MarkedAt(lines, marker, lineno - 1) { assert marker(lines[lineno - 1]); }
    else if j :| 0 <= j < lineno - 1 && MarkedAt(lines, marker, j) && forall i :: j <= i < lineno - 1 ==> CommentAt(lines, i) {
      assert marker(lines[j]);
      assert forall i :: j <= i < lineno - 1 ==> IsComment(lines[i]) by {
        forall i | j <= i < lineno - 1 ensures IsComment(lines[i]) { assert CommentAt(lines, i); }
      }
    }
  }

  /** A comment line: blanks, however many, and a hash. */
  lemma {:induction false} CommentsMayBeIndented(line: string)
    ensures IsComment(line) <==>
              exists i :: 0 <= i < |line| && line[i] == '#' && forall j :: 0 <= j < i ==> line[j] in " \t\r\n" || line[j] as int in {11, 12}
  {
    if line != "" && line[0] != '#' {
      var rest := line[1..];
      CommentsMayBeIndented(rest);
      if i :| 0 <= i < |rest| && rest[i] == '#' && forall j :: 0 <= j < i ==> rest[j] in " \t\r\n" || rest[j] as int in {11, 12} {
        if Blank(line[0]) { assert line[i + 1] == '#' && forall j :: 0 < j < i + 1 ==> line[j] == rest[j - 1]; }
      }
      if i :| 0 <= i < |line| && line[i] == '#' && forall j :: 0 <= j < i ==> line[j] in " \t\r\n" || line[j] as int in {11, 12} {
        assert line[0] in " \t\r\n" || line[0] as int in {11, 12};
        assert rest[i - 1] == '#' && forall j :: 0 <= j < i - 1 ==> rest[j] == line[j + 1];
      }
    }
  }

  /** A blank or code line between the marker and the call ends its reach. */
  lemma NothingLeaksPastABreak(lines: seq<string>, marker: string -> bool, lineno: nat, gap: nat)
    requires gap < lineno - 1 && !CommentAt(lines, gap)
    requires forall i :: gap < i < lineno ==> !MarkedAt(lines, marker, i)
    ensures !Suppressed(lines, marker, lineno)
  {}

  // ---------------------------------------------------------------------------
  // The scan
  // ---------------------------------------------------------------------------

  function AstName(func: Node): Option<string> {
    match func
    case Name(id) => Some(id)
    case Attribute(_, attr) => Some(attr)
    case _ => None
  }

  predicate CallTo(n: Node, names: set<string>) { n.Call? && AstName(n.func).Some? && AstName(n.func).value in names }

  function FindCalls(walked: seq<Node>, names: set<string>): (r: seq<Node>)
    ensures forall c :: c in r <==> c in walked && CallTo(c, names)
  {
    if walked == [] then []
    else
      var n, init := walked[|walked| - 1], FindCalls(walked[..|walked| - 1], names);
      assert walked == walked[..|walked| - 1] + [n];
      if CallTo(n, names) then init + [n] else init
  }

  datatype Violation = Violation(line: nat, name: string)

  ghost function Unsuppressed(calls: seq<Node>, lines: seq<string>, marker: string -> bool, name: string): (r: seq<Violation>)
    requires forall i :: 0 <= i < |calls| ==> calls[i].Call?
    ensures r == [] <==> forall i :: 0 <= i < |calls| ==> Suppressed(lines, marker, calls[i].line)
  {
    if calls == [] then []
    else
      var c, init := calls[|calls| - 1], Unsuppressed(calls[..|calls| - 1], lines, marker, name);
      assert calls == calls[..|calls| - 1] + [c];
      if Suppressed(lines, marker, c.line) then init else init + [Violation(c.line, name)]
  }

  function CallsIn(n: Node, names: set<string>): (r: seq<Node>)
    ensures forall i :: 0 <= i < |r| ==> r[i].Call?
  {
    var r := FindCalls(Walk([n]), names);
    assert forall i :: 0 <= i < |r| ==> r[i] in r;
    r
  }

  ghost function OfFunction(f: Node, lines: seq<string>, marker: string -> bool): seq<Violation>
    requires f.FunctionDef?
  {
    if CallsIn(f, GROUP) != [] then [] else Unsuppressed(CallsIn(f, CREATE), lines, marker, f.name)
  }

  ghost function OfAll(walked: seq<Node>, lines: seq<string>, marker: string -> bool): seq<Violation> {
    if walked == [] then []
    else
      var n, init := walked[|walked| - 1], OfAll(walked[..|walked| - 1], lines, marker);
      if n.FunctionDef? then init + OfFunction(n, lines, marker) else init
  }

  lemma {:induction false} SilentOnAll(walked: seq<Node>, lines: seq<string>, marker: string -> bool)
    ensures OfAll(walked, lines, marker) == [] <==>
              forall i :: 0 <= i < |walked| && walked[i].FunctionDef? ==> OfFunction(walked[i], lines, marker) == []
  {
    if walked != [] {
      var init := walked[..|walked| - 1];
      SilentOnAll(init, lines, marker);
      assert forall i :: 0 <= i < |init| ==> init[i] == walked[i];
    }
  }

  /** A file that does not parse is itself a violation. */
  ghost function Violations(tree: Option<Node>, lines: seq<string>, marker: string -> bool): seq<Violation> {
    if tree.None? then [Violation(0, "")] else OfAll(Walk([tree.value]), lines, marker)
  }

  method Find(n: Node, names: set<string>) returns (result: seq<Node>)
    ensures result == CallsIn(n, names)
  {
    result := [];
    var walked := Walk([n]);
    for i := 0 to |walked|
      invariant result == FindCalls(walked[..i], names)
    {
      assert walked[..i + 1][..i] == walked[..i] && walked[..i + 1][i] == walked[i];
      if CallTo(walked[i], names) { result := result + [walked[i]]; }
    }
    assert walked[..|walked|] == walked;
  }

  method Report(creates: seq<Node>, hasGroup: bool, lines: seq<string>, marker: string -> bool, name: string)
    returns (found: seq<Violation>)
    requires forall i :: 0 <= i < |creates| ==> creates[i].Call?
    ensures found == if hasGroup then [] else Unsuppressed(creates, lines, marker, name)
  {
    found := [];
    for i := 0 to |creates|
      invariant found == if hasGroup then [] else Unsuppressed(creates[..i], lines, marker, name)
    {
      assert creates[..i + 1][..i] == creates[..i] && creates[..i + 1][i] == creates[i];
      var suppressed := IsSuppressed(lines, marker, creates[i].line);
      if suppressed { continue; }
      if hasGroup { continue; }
      found := found + [Violation(creates[i].line, name)];
    }
    assert creates[..|creates|] == creates;
  }

  method ScanFunction(f: Node, lines: seq<string>, marker: string -> bool) returns (found: seq<Violation>)
    requires f.FunctionDef?
    ensures found == OfFunction(f, lines, marker)
  {
    var creates := Find(f, CREATE);
    if creates == [] { return []; }
    var groups := Find(f, GROUP);
    found := Report(creates, groups != [], lines, marker, f.name);
  }

  method ScanNodes(walked: seq<Node>, lines: seq<string>, marker: string -> bool) returns (violations: seq<Violation>)
    ensures violations == OfAll(walked, lines, marker)
  {
    violations := [];
    for i := 0 to |walked|
      invariant violations == OfAll(walked[..i], lines, marker)
    {
      assert walked[..i + 1][..i] == walked[..i] && walked[..i + 1][i] == walked[i];
      if walked[i].FunctionDef? {
        var found := ScanFunction(walked[i], lines, marker);
        violations := violations + found;
      }
    }
    assert walked[..|walked|] == walked;
  }

  method ScanPython(tree: Option<Node>, lines: seq<string>, marker: string -> bool) returns (violations: seq<Violation>)
    ensures violations == Violations(tree, lines, marker)
    ensures tree.None? ==> violations != []
    ensures tree.Some? ==> forall v :: v in violations <==> exists f, c :: Within(f, tree.value) && Reported(f, c, lines, marker, v)
  {
    if tree.Some? {
      forall v ensures v in Violations(tree, lines, marker) <==> exists f, c :: Within(f, tree.value) && Reported(f, c, lines, marker, v) {
        ReportedExactly(tree.value, lines, marker, v);
      }
    }
    if tree.None? { return [Violation(0, "")]; }
    violations := ScanNodes(Walk([tree.value]), lines, marker);
  }

  // ---------------------------------------------------------------------------
  // Call sites, by their place in the tree
  // ---------------------------------------------------------------------------

  function At(n: Node, path: seq<nat>): Option<Node>
    decreases |path|
  {
    if path == [] then Some(n)
    else if path[0] < |Children(n)| then At(Children(n)[path[0]], path[1..]) else None
  }

  /** The function nearest above a place, `outer` when none is met on the way from `n`. */
  function Innermost(n: Node, path: seq<nat>, outer: Option<Node>): Option<Node>
    requires At(n, path).Some?
    decreases |path|
  {
    var here := if n.FunctionDef? then Some(n) else outer;
    if path == [] then here else Innermost(Children(n)[path[0]], path[1..], here)
  }

  lemma {:induction false} PlaceIsWithin(n: Node, path: seq<nat>)
    requires At(n, path).Some?
    ensures Within(At(n, path).value, n)
    decreases |path|
  {
    if path != [] {
      PlaceIsWithin(Children(n)[path[0]], path[1..]);
      assert Children(n)[path[0]] in Children(n);
    }
  }

  lemma {:induction false} WithinHasPlace(m: Node, n: Node) returns (path: seq<nat>)
    requires Within(m, n)
    ensures At(n, path) == Some(m)
    decreases n
  {
    if m == n {
      path := [];
    } else {
      var c :| c in Children(n) && Within(m, c);
      var i :| 0 <= i < |Children(n)| && Children(n)[i] == c;
      var rest := WithinHasPlace(m, c);
      path := [i] + rest;
    }
  }

  /** The nearest function lies within the tree, and the place within it. */
  lemma {:induction false} InnermostEncloses(root: Node, n: Node, path: seq<nat>, outer: Option<Node>)
    requires At(n, path).Some? && Within(n, root)
    requires outer.Some? ==> outer.value.FunctionDef? && Within(outer.value, root) && Within(n, outer.value)
    ensures var f := Innermost(n, path, outer);
            f.Some? ==> f.value.FunctionDef? && Within(f.value, root) && Within(At(n, path).value, f.value)
    decreases |path|
  {
    var here := if n.FunctionDef? then Some(n) else outer;
    if path != [] {
      var c := Children(n)[path[0]];
      assert c in Children(n) && Within(c, n);
      WithinTransitive(c, n, root);
      if here.Some? { WithinTransitive(c, n, here.value); }
      InnermostEncloses(root, c, path[1..], here);
    }
  }

  /** From inside a function, the nearest function is that one or one within it. */
  lemma {:induction false} InnermostIsInside(f: Node, n: Node, path: seq<nat>, outer: Option<Node>)
    requires At(n, path).Some? && Within(n, f) && (n == f || (outer.Some? && Within(outer.value, f))) && f.FunctionDef?
    ensures var g := Innermost(n, path, outer); g.Some? && Within(g.value, f)
    decreases |path|
  {
    var here := if n.FunctionDef? then Some(n) else outer;
    if path != [] {
      var c := Children(n)[path[0]];
      assert c in Children(n) && Within(c, n);
      WithinTransitive(c, n, f);
      InnermostIsInside(f, c, path[1..], here);
    }
  }

  lemma {:induction false} JoinedPlace(n: Node, p: seq<nat>, q: seq<nat>)
    requires At(n, p).Some?
    ensures At(n, p + q) == At(At(n, p).value, q)
    decreases |p|
  {
    if p == [] {
      assert p + q == q;
    } else {
      assert (p + q)[1..] == p[1..] + q;
      JoinedPlace(Children(n)[p[0]], p[1..], q);
    }
  }

  lemma {:induction false} InnermostOfJoin(n: Node, p: seq<nat>, q: seq<nat>, outer: Option<Node>)
    requires At(n, p).Some? && At(n, p).value.FunctionDef? && At(At(n, p).value, q).Some?
    ensures At(n, p + q).Some?
    ensures var g := Innermost(n, p + q, outer); g.Some? && Within(g.value, At(n, p).value)
    decreases |p|
  {
    JoinedPlace(n, p, q);
    if p == [] {
      assert p + q == q;
      InnermostIsInside(n, n, q, outer);
    } else {
      assert (p + q)[1..] == p[1..] + q;
      InnermostOfJoin(Children(n)[p[0]], p[1..], q, if n.FunctionDef? then Some(n) else outer);
    }
  }

  lemma HasCall(n: Node, names: set<string>)
    ensures CallsIn(n, names) != [] <==> exists c :: Within(c, n) && CallTo(c, names)
  {
    var r := CallsIn(n, names);
    if r != [] {
      assert r[0] in r;
      WalkVisitsTree(n, r[0]);
    }
    if c :| Within(c, n) && CallTo(c, names) {
      WalkVisitsTree(n, c);
      assert c in r;
    }
  }

  /** A call site passes when it is suppressed or its nearest function holds a group call. */
  ghost predicate Passes(tree: Node, path: seq<nat>, lines: seq<string>, marker: string -> bool)
    requires At(tree, path).Some? && At(tree, path).value.Call? && Innermost(tree, path, None).Some?
  {
    || Suppressed(lines, marker, At(tree, path).value.line)
    || CallsIn(Innermost(tree, path, None).value, GROUP) != []
  }

  ghost predicate AllSitesPass(tree: Node, lines: seq<string>, marker: string -> bool) {
    forall path :: At(tree, path).Some? && CallTo(At(tree, path).value, CREATE) && Innermost(tree, path, None).Some? ==>
      Passes(tree, path, lines, marker)
  }

  /** The verdict, though taken over every enclosing function of a call, is the one the nearest
      function gives: no violation exactly when every create call inside a function passes. */
  lemma NoViolationExactly(tree: Node, lines: seq<string>, marker: string -> bool)
    ensures Violations(Some(tree), lines, marker) == [] <==> AllSitesPass(tree, lines, marker)
  {
    SilentOnAll(Walk([tree]), lines, marker);
    if Violations(Some(tree), lines, marker) == [] {
      forall path | At(tree, path).Some? && CallTo(At(tree, path).value, CREATE) && Innermost(tree, path, None).Some?
        ensures Passes(tree, path, lines, marker)
      {
        SilentSitePasses(tree, path, lines, marker);
      }
    }
    if AllSitesPass(tree, lines, marker) {
      var walked := Walk([tree]);
      forall i | 0 <= i < |walked| && walked[i].FunctionDef? ensures OfFunction(walked[i], lines, marker) == [] {
        assert walked[i] in walked;
        WalkVisitsTree(tree, walked[i]);
        PassingSitesKeepFunctionSilent(tree, walked[i], lines, marker);
      }
    }
  }

  lemma SilentSitePasses(tree: Node, path: seq<nat>, lines: seq<string>, marker: string -> bool)
    requires Violations(Some(tree), lines, marker) == []
    requires At(tree, path).Some? && CallTo(At(tree, path).value, CREATE) && Innermost(tree, path, None).Some?
    ensures Passes(tree, path, lines, marker)
  {
    var c, f := At(tree, path).value, Innermost(tree, path, None).value;
    SilentOnAll(Walk([tree]), lines, marker);
    InnermostEncloses(tree, tree, path, None);
    WalkVisitsTree(tree, f);
    var walked := Walk([tree]);
    var i :| 0 <= i < |walked| && walked[i] == f;
    assert OfFunction(walked[i], lines, marker) == [];
    WalkVisitsTree(f, c);
    var creates := CallsIn(f, CREATE);
    assert c in creates;
    var j :| 0 <= j < |creates| && creates[j] == c;
  }

  lemma PassingSitesKeepFunctionSilent(tree: Node, f: Node, lines: seq<string>, marker: string -> bool)
    requires AllSitesPass(tree, lines, marker) && Within(f, tree) && f.FunctionDef?
    ensures OfFunction(f, lines, marker) == []
  {
    var creates := CallsIn(f, CREATE);
    if CallsIn(f, GROUP) == [] {
      var p := WithinHasPlace(f, tree);
      forall i | 0 <= i < |creates| ensures Suppressed(lines, marker, creates[i].line) {
        assert creates[i] in creates;
        WalkVisitsTree(f, creates[i]);
        var q := WithinHasPlace(creates[i], f);
        JoinedPlace(tree, p, q);
        InnermostOfJoin(tree, p, q, None);
        assert Passes(tree, p + q, lines, marker);
        var g := Innermost(tree, p + q, None).value;
        NoGroupBelow(g, f);
      }
    }
  }

  lemma NoGroupBelow(g: Node, f: Node)
    requires Within(g, f) && CallsIn(f, GROUP) == []
    ensures CallsIn(g, GROUP) == []
  {
    HasCall(g, GROUP);
    HasCall(f, GROUP);
    if CallsIn(g, GROUP) != [] {
      var c :| Within(c, g) && CallTo(c, GROUP);
      WithinTransitive(c, g, f);
    }
  }

  /** A call of one of these names, bare or as a method of anything. */
  lemma CallShapes(n: Node, names: set<string>)
    ensures CallTo(n, names) <==> n.Call? && ((n.func.Name? && n.func.id in names) || (n.func.Attribute? && n.func.attr in names))
  {}

  lemma {:induction false} UnsuppressedHas(calls: seq<Node>, lines: seq<string>, marker: string -> bool, name: string, v: Violation)
    requires forall i :: 0 <= i < |calls| ==> calls[i].Call?
    ensures v in Unsuppressed(calls, lines, marker, name) <==>
              exists c :: c in calls && c.Call? && !Suppressed(lines, marker, c.line) && v == Violation(c.line, name)
  {
    if calls != [] {
      var c, init := calls[|calls| - 1], calls[..|calls| - 1];
      assert calls == init + [c];
      UnsuppressedHas(init, lines, marker, name, v);
    }
  }

  lemma {:induction false} OfAllHas(walked: seq<Node>, lines: seq<string>, marker: string -> bool, v: Violation)
    ensures v in OfAll(walked, lines, marker) <==> exists f :: f in walked && f.FunctionDef? && v in OfFunction(f, lines, marker)
  {
    if walked != [] {
      var f, init := walked[|walked| - 1], walked[..|walked| - 1];
      assert walked == init + [f];
      OfAllHas(init, lines, marker, v);
    }
  }

  /** Reported of `f`: one of its create calls is not suppressed, and it holds no group call. */
  ghost predicate Reported(f: Node, c: Node, lines: seq<string>, marker: string -> bool, v: Violation) {
    && f.FunctionDef? && Within(c, f) && CallTo(c, {"admin_create_user", "AdminCreateUser"})
    && !Suppressed(lines, marker, c.line) && v == Violation(c.line, f.name)
    && forall g :: Within(g, f) ==> !CallTo(g, {"admin_add_user_to_group", "AdminAddUserToGroup"})
  }

  /** Exactly these lines and functions are reported. */
  lemma ReportedExactly(tree: Node, lines: seq<string>, marker: string -> bool, v: Violation)
    ensures v in Violations(Some(tree), lines, marker) <==> exists f, c :: Within(f, tree) && Reported(f, c, lines, marker, v)
  {
    OfAllHas(Walk([tree]), lines, marker, v);
    forall f: Node | f.FunctionDef? ensures v in OfFunction(f, lines, marker) <==> exists c :: Reported(f, c, lines, marker, v) {
      ReportedOf(f, lines, marker, v);
    }
    forall f ensures f in Walk([tree]) <==> Within(f, tree) { WalkVisitsTree(tree, f); }
    if f, c :| Within(f, tree) && Reported(f, c, lines, marker, v) { assert v in OfFunction(f, lines, marker); }
  }

  lemma ReportedOf(f: Node, lines: seq<string>, marker: string -> bool, v: Violation)
    requires f.FunctionDef?
    ensures v in OfFunction(f, lines, marker) <==> exists c :: Reported(f, c, lines, marker, v)
  {
    HasCall(f, GROUP);
    UnsuppressedHas(CallsIn(f, CREATE), lines, marker, f.name, v);
    forall c ensures c in CallsIn(f, CREATE) <==> Within(c, f) && CallTo(c, CREATE) { WalkVisitsTree(f, c); }
    if c :| c in CallsIn(f, CREATE) && c.Call? && !Suppressed(lines, marker, c.line) && v == Violation(c.line, f.name) {
      assert CallsIn(f, GROUP) == [] ==> Reported(f, c, lines, marker, v);
    }
  }

  /** Against "no implicit exemption of any kind": a file whose one statement is a create call
      passes, marker or not. */
  lemma ModuleLevelCallsAreExempt(lines: seq<string>, marker: string -> bool)
    ensures var call := Call(Attribute(Name("client"), "admin_create_user"), [], [], 1);
            CallTo(call, CREATE) && Violations(Some(Other([ExprStmt(call)])), lines, marker) == []
  {
    var call := Call(Attribute(Name("client"), "admin_create_user"), [], [], 1);
    var statement := ExprStmt(call);
    var walked := Walk([Other([statement])]);
    assert call.func.attr in CREATE;
    SilentOnAll(walked, lines, marker);
    forall i | 0 <= i < |walked| ensures !walked[i].FunctionDef? {
      var n := walked[i];
      assert n in walked;
      WalkVisitsTree(Other([statement]), n);
      OnlyChild(n, Other([statement]), statement);
      if n != Other([statement]) { BelowStatement(n, call); }
    }
  }

  lemma OnlyChild(m: Node, n: Node, c: Node)
    requires Children(n) == [c] && Within(m, n)
    ensures m == n || Within(m, c)
  {}

  lemma BelowStatement(n: Node, call: Node)
    requires call.Call? && call.args == [] && call.keywords == [] && call.func.Attribute? && call.func.value.Name?
    requires Within(n, ExprStmt(call))
    ensures !n.FunctionDef?
  {
    OnlyChild(n, ExprStmt(call), call);
    if n != ExprStmt(call) {
      assert Children(call) == [call.func];
      OnlyChild(n, call, call.func);
      if n != call { OnlyChild(n, call.func, call.func.value); }
    }
  }
}
