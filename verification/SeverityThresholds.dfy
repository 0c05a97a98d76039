/** The guard on the severity thresholds of a mirrored component: a comparison of texts that must
    mean both components label every number alike. */
module SeverityThresholds {
  import opened Prelude

  datatype Op = AtLeast | Exactly | AtMost

  /** `if (asNum OP threshold) return LABEL` */
  datatype Binding = Binding(op: Op, threshold: nat, text: string)

  datatype Key = Key(op: Op, threshold: nat)

  function KeyOf(b: Binding): Key { Key(b.op, b.threshold) }

  const CANONICAL := [Binding(AtLeast, 4, "CRITICAL"), Binding(Exactly, 3, "HIGH"), Binding(Exactly, 2, "MEDIUM"), Binding(AtMost, 1, "LOW")]

  function CanonicalFor(k: Key): Option<string> {
    if k == Key(AtLeast, 4) then Some("CRITICAL")
    else if k == Key(Exactly, 3) then Some("HIGH")
    else if k == Key(Exactly, 2) then Some("MEDIUM")
    else if k == Key(AtMost, 1) then Some("LOW")
    else None
  }

  datatype Failure = WrongLabel(key: Key, found: string) | Unrecognised(key: Key) | MissingBinding(key: Key)

  function MappingFailures(bindings: seq<Binding>): seq<Failure> {
    if bindings == [] then []
    else
      var b, init := bindings[|bindings| - 1], MappingFailures(bindings[..|bindings| - 1]);
      match CanonicalFor(KeyOf(b))
      case None => init + [Unrecognised(KeyOf(b))]
      case Some(text) => if b.text != text then init + [WrongLabel(KeyOf(b), b.text)] else init
  }

  function FoundKeys(bindings: seq<Binding>): set<Key> { set i | 0 <= i < |bindings| :: KeyOf(bindings[i]) }

  /** Missing bindings are reported from the highest threshold down. */
  function MissingFrom(found: set<Key>, expected: seq<Key>): seq<Failure> {
    if expected == [] then []
    else (if expected[0] in found then [] else [MissingBinding(expected[0])]) + MissingFrom(found, expected[1..])
  }

  const DESCENDING := [Key(AtLeast, 4), Key(Exactly, 3), Key(Exactly, 2), Key(AtMost, 1)]

  function Failures(bindings: seq<Binding>): seq<Failure> {
    MappingFailures(bindings) + MissingFrom(FoundKeys(bindings), DESCENDING)
  }

  method CheckMapping(bindings: seq<Binding>) returns (failures: seq<Failure>, found: set<Key>)
    ensures failures == MappingFailures(bindings) && found == FoundKeys(bindings)
  {
    failures, found := [], {};
    for i := 0 to |bindings|
      invariant failures == MappingFailures(bindings[..i]) && found == FoundKeys(bindings[..i])
    {
      var b := bindings[i];
      assert bindings[..i + 1] == bindings[..i] + [b] && bindings[..i + 1][..i] == bindings[..i];
      OneMoreKey(bindings[..i], b);
      found := found + {KeyOf(b)};
      var expected := CanonicalFor(KeyOf(b));
      if expected.None? {
        failures := failures + [Unrecognised(KeyOf(b))];
      } else if b.text != expected.value {
        failures := failures + [WrongLabel(KeyOf(b), b.text)];
      }
    }
    assert bindings[..|bindings|] == bindings;
  }

  lemma OneMoreKey(bindings: seq<Binding>, b: Binding)
    ensures FoundKeys(bindings + [b]) == FoundKeys(bindings) + {KeyOf(b)}
  {
    var more := bindings + [b];
    assert more[|bindings|] == b;
    forall k | k in FoundKeys(bindings) ensures k in FoundKeys(more) {
      var j :| 0 <= j < |bindings| && KeyOf(bindings[j]) == k;
      assert more[j] == bindings[j];
    }
  }

  lemma OneKey(found: set<Key>, expected: seq<Key>, i: nat, missing: seq<Failure>)
    requires i < |expected|
    ensures missing + MissingFrom(found, expected[i..])
            == (if expected[i] in found then missing else missing + [MissingBinding(expected[i])]) + MissingFrom(found, expected[i + 1..])
  {
    assert expected[i..][0] == expected[i] && expected[i..][1..] == expected[i + 1..];
    var rest := MissingFrom(found, expected[i + 1..]);
    assert missing + ([MissingBinding(expected[i])] + rest) == (missing + [MissingBinding(expected[i])]) + rest;
    assert [] + rest == rest;
  }

  method CheckPresence(found: set<Key>, expected: seq<Key>) returns (missing: seq<Failure>)
    ensures missing == MissingFrom(found, expected)
  {
    missing := [];
    for i := 0 to |expected|
      invariant missing + MissingFrom(found, expected[i..]) == MissingFrom(found, expected)
    {
      OneKey(found, expected, i, missing);
      if expected[i] !in found { missing := missing + [MissingBinding(expected[i])]; }
    }
  }

  method CheckBindings(bindings: seq<Binding>) returns (failures: seq<Failure>)
    ensures failures == Failures(bindings)
  {
    var mapping, found := CheckMapping(bindings);
    var missing := CheckPresence(found, DESCENDING);
    failures := mapping + missing;
  }

  // ---------------------------------------------------------------------------
  // What the bindings compute
  // ---------------------------------------------------------------------------

  predicate Matches(b: Binding, x: real) {
    match b.op
    case AtLeast => x >= b.threshold as real
    case Exactly => x == b.threshold as real
    case AtMost => x <= b.threshold as real
  }

  /** The first binding that matches decides; None falls through to what follows the bindings. */
  function Evaluate(bindings: seq<Binding>, x: real): Option<string> {
    if bindings == [] then None
    else if Matches(bindings[0], x) then Some(bindings[0].text)
    else Evaluate(bindings[1..], x)
  }

  /** Each binding as in the canonical table, and each canonical binding among them. */
  ghost predicate SameTable(bindings: seq<Binding>) {
    && (forall i :: 0 <= i < |bindings| ==> bindings[i] in CANONICAL)
    && (forall b :: b in CANONICAL ==> b in bindings)
  }

  lemma {:induction false} NoMappingFailure(bindings: seq<Binding>)
    ensures MappingFailures(bindings) == [] <==> forall i :: 0 <= i < |bindings| ==> bindings[i] in CANONICAL
  {
    if bindings != [] {
      var n := |bindings| - 1;
      NoMappingFailure(bindings[..n]);
      assert forall i :: 0 <= i < n ==> bindings[..n][i] == bindings[i];
      assert bindings[n] in CANONICAL <==> CanonicalFor(KeyOf(bindings[n])) == Some(bindings[n].text);
    }
  }

  lemma {:induction false} NothingMissing(found: set<Key>, expected: seq<Key>)
    ensures MissingFrom(found, expected) == [] <==> forall i :: 0 <= i < |expected| ==> expected[i] in found
  {
    if expected != [] {
      NothingMissing(found, expected[1..]);
      assert forall i :: 0 < i < |expected| ==> expected[i] == expected[1..][i - 1];
    }
  }

  lemma KeysOfCanonical()
    ensures |CANONICAL| == |DESCENDING| == 4 && forall i :: 0 <= i < 4 ==> KeyOf(CANONICAL[i]) == DESCENDING[i]
  {}

  lemma SameTableIsSilent(bindings: seq<Binding>)
    requires SameTable(bindings)
    ensures Failures(bindings) == []
  {
    KeysOfCanonical();
    NoMappingFailure(bindings);
    NothingMissing(FoundKeys(bindings), DESCENDING);
    forall i | 0 <= i < |DESCENDING| ensures DESCENDING[i] in FoundKeys(bindings) {
      assert CANONICAL[i] in CANONICAL && CANONICAL[i] in bindings;
      var j :| 0 <= j < |bindings| && bindings[j] == CANONICAL[i];
    }
  }

  lemma SilentIsSameTable(bindings: seq<Binding>)
    requires Failures(bindings) == []
    ensures SameTable(bindings)
  {
    KeysOfCanonical();
    NoMappingFailure(bindings);
    NothingMissing(FoundKeys(bindings), DESCENDING);
    forall b | b in CANONICAL ensures b in bindings {
      assert KeyOf(b) in FoundKeys(bindings);
      var i :| 0 <= i < |bindings| && KeyOf(bindings[i]) == KeyOf(b);
      assert bindings[i] in CANONICAL;
      assert bindings[i] == b;
    }
  }

  /** The check is silent exactly when the two tables hold the same bindings, order and repeats aside. */
  lemma SilentExactly(bindings: seq<Binding>)
    ensures Failures(bindings) == [] <==> SameTable(bindings)
  {
    if SameTable(bindings) { SameTableIsSilent(bindings); }
    if Failures(bindings) == [] { SilentIsSameTable(bindings); }
  }

  /** Bindings of the canonical table never both match with different labels. */
  lemma {:induction false} MatchIsCanonical(bindings: seq<Binding>, x: real)
    requires forall i :: 0 <= i < |bindings| ==> bindings[i] in CANONICAL
    ensures Evaluate(bindings, x).Some? <==> exists b :: b in bindings && Matches(b, x)
    ensures forall b :: b in bindings && Matches(b, x) ==> Evaluate(bindings, x) == Some(b.text)
  {
    if bindings != [] {
      assert bindings == [bindings[0]] + bindings[1..];
      MatchIsCanonical(bindings[1..], x);
      assert bindings[0] in CANONICAL;
      if Matches(bindings[0], x) {
        forall b | b in bindings && Matches(b, x) ensures b.text == bindings[0].text { assert b in CANONICAL; }
      }
    }
  }

  /** Text check to meaning: when nothing is reported, the mirrored bindings give every number,
      whole or not, the label the canonical ones give it, and fall through where those do. */
  lemma SilentMeansEqual(bindings: seq<Binding>, x: real)
    requires Failures(bindings) == []
    ensures Evaluate(bindings, x) == Evaluate(CANONICAL, x)
  {
    SilentExactly(bindings);
    MatchIsCanonical(bindings, x);
    MatchIsCanonical(CANONICAL, x);
    if b :| b in CANONICAL && Matches(b, x) { assert b in bindings; }
  }

  /** On whole numbers nothing falls through. */
  lemma EveryIntegerIsLabelled(bindings: seq<Binding>, n: int)
    requires Failures(bindings) == []
    ensures Evaluate(bindings, n as real) ==
            Some(if n >= 4 then "CRITICAL" else if n == 3 then "HIGH" else if n == 2 then "MEDIUM" else "LOW")
  {
    SilentMeansEqual(bindings, n as real);
    MatchIsCanonical(CANONICAL, n as real);
    var b := CANONICAL[if n >= 4 then 0 else if n == 3 then 1 else if n == 2 then 2 else 3];
    assert b in CANONICAL && Matches(b, n as real);
  }

  /** The converse fails: a needless extra binding changes no label, and is reported. */
  lemma HarmlessExtraIsReported(x: real)
    ensures var extra := CANONICAL + [Binding(Exactly, 7, "CRITICAL")];
            Failures(extra) != [] && Evaluate(extra, x) == Evaluate(CANONICAL, x)
  {
    var more := Binding(Exactly, 7, "CRITICAL");
    var extra := CANONICAL + [more];
    assert extra[4] == more && more !in CANONICAL;
    NoMappingFailure(extra);
    AppendedLast(CANONICAL, more, x);
    if Matches(more, x) {
      assert CANONICAL[0] in CANONICAL && Matches(CANONICAL[0], x);
      MatchIsCanonical(CANONICAL, x);
    }
  }

  lemma {:induction false} AppendedLast(bindings: seq<Binding>, b: Binding, x: real)
    ensures Evaluate(bindings + [b], x) ==
            if Evaluate(bindings, x).Some? then Evaluate(bindings, x) else if Matches(b, x) then Some(b.text) else None
  {
    if bindings != [] {
      assert (bindings + [b])[1..] == bindings[1..] + [b];
      AppendedLast(bindings[1..], b, x);
    }
  }
}
