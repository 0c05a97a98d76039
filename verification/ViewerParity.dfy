/** Two copies of a component may differ in one import path only: line-by-line comparison up to one
    documented replacement, and what a pass says about the two texts. */
module ViewerParity {
  import opened Prelude

  const CMS_PATH := "from '../../../utils/simulation-config'"
  const CS_PATH := "from '../../../api/simulationClient'"

  // ---------------------------------------------------------------------------
  // Replacing every occurrence
  // ---------------------------------------------------------------------------

  predicate OccursAt(s: string, a: string, i: int) { 0 <= i <= |s| && a <= s[i..] }

  predicate Contains(s: string, a: string) { exists i :: 0 <= i <= |s| && OccursAt(s, a, i) }

  /** Left to right, without looking again at what was put in. */
  function ReplaceAll(s: string, a: string, b: string): string
    requires a != ""
    decreases |s|
  {
    if s == "" then ""
    else if a <= s then b + ReplaceAll(s[|a|..], a, b)
    else [s[0]] + ReplaceAll(s[1..], a, b)
  }

  /** No way for an occurrence of `a` to overlap a copy of `b`. */
  ghost predicate NoStraddle(a: string, b: string) {
    && (forall i :: 0 <= i < |b| ==> !(b[i..] <= a))
    && (forall i :: 0 <= i < |a| ==> !(a[i..] <= b))
    && !Contains(a, b) && !Contains(b, a)
  }

  lemma {:induction false} AbsentIsUntouched(s: string, a: string, b: string)
    requires a != "" && !Contains(s, a)
    ensures ReplaceAll(s, a, b) == s
    decreases |s|
  {
    if s != "" {
      assert !OccursAt(s, a, 0) && s[0..] == s;
      forall i | 0 <= i <= |s[1..]| ensures !OccursAt(s[1..], a, i) {
        assert s[1..][i..] == s[i + 1..] && !OccursAt(s, a, i + 1);
      }
      AbsentIsUntouched(s[1..], a, b);
    }
  }

  lemma PrefixOfJoin(u: string, b: string, rest: string)
    requires u <= b + rest
    ensures u <= b || b <= u
  {
    if |u| <= |b| {
      assert u == (b + rest)[..|u|] == b[..|u|];
    } else {
      assert u[..|b|] == (b + rest)[..|u|][..|b|] == b;
    }
  }

  /** No part of `a` to its end can begin where a copy of `b` does, nor `a` inside one. */
  lemma NothingStartsAtACopy(a: string, b: string, j: nat, rest: string)
    requires NoStraddle(a, b)
    ensures j < |a| ==> !(a[j..] <= b + rest)
    ensures j < |b| ==> !(a <= b[j..] + rest)
  {
    if j < |a| {
      assert !OccursAt(a, b, j);
      if a[j..] <= b + rest { PrefixOfJoin(a[j..], b, rest); }
    }
    if j < |b| {
      assert !OccursAt(b, a, j);
      if a <= b[j..] + rest { PrefixOfJoin(a, b[j..], rest); }
    }
  }

  /** What is left of `a` cannot begin in the replaced text unless it began in the original. */
  lemma {:induction false} TailWasThere(t: string, a: string, b: string, j: nat)
    requires a != "" && NoStraddle(a, b) && j <= |a| && a[j..] <= ReplaceAll(t, a, b)
    ensures a[j..] <= t
    decreases |t|
  {
    var u, r := a[j..], ReplaceAll(t, a, b);
    if u != "" {
      assert t != "";
      if a <= t {
        NothingStartsAtACopy(a, b, j, ReplaceAll(t[|a|..], a, b));
      } else {
        assert u[1..] == a[j + 1..];
        assert u == r[..|u|];
        assert r[1..] == ReplaceAll(t[1..], a, b);
        assert u[1..] == r[1..][..|u| - 1];
        TailWasThere(t[1..], a, b, j + 1);
        assert u[0] == t[0];
      }
    }
  }

  lemma {:induction false} NothingIsLeft(s: string, a: string, b: string)
    requires a != "" && NoStraddle(a, b)
    ensures !Contains(ReplaceAll(s, a, b), a)
    decreases |s|
  {
    if s != "" {
      var r := ReplaceAll(s, a, b);
      if a <= s {
        var rest := ReplaceAll(s[|a|..], a, b);
        NothingIsLeft(s[|a|..], a, b);
        forall i | 0 <= i <= |r| ensures !OccursAt(r, a, i) { NotAcrossTheCopy(rest, a, b, i); }
      } else {
        var rest := ReplaceAll(s[1..], a, b);
        NothingIsLeft(s[1..], a, b);
        forall i | 0 <= i <= |r| ensures !OccursAt(r, a, i) {
          if i == 0 {
            assert r[0..] == r && a[0..] == a;
            if a <= r { TailWasThere(s, a, b, 0); }
          } else {
            assert r[i..] == rest[i - 1..] && !OccursAt(rest, a, i - 1);
          }
        }
      }
    }
  }

  lemma NotAcrossTheCopy(rest: string, a: string, b: string, i: nat)
    requires a != "" && NoStraddle(a, b) && !Contains(rest, a) && i <= |b + rest|
    ensures !OccursAt(b + rest, a, i)
  {
    if i >= |b| {
      assert (b + rest)[i..] == rest[i - |b|..] && !OccursAt(rest, a, i - |b|);
    } else {
      assert (b + rest)[i..] == b[i..] + rest;
      NothingStartsAtACopy(a, b, i, rest);
    }
  }

  function Normalise(s: string): string { ReplaceAll(s, CMS_PATH, CS_PATH) }

  /** Where the two paths' letters keep them apart: one shared start, one stray first letter. */
  lemma LettersKeepApart(a: string, b: string)
    requires |a| == 39 && |b| == 36
    requires forall i :: 0 < i < 36 ==> b[i] != a[0]
    requires forall i :: 0 < i < 39 && i != 35 ==> a[i] != b[0]
    requires a[15] != b[15] && a[36] != b[1]
    ensures NoStraddle(a, b)
  {
    forall i | 0 <= i < |b| ensures !(b[i..] <= a) {
      assert b[i..][0] == b[i];
      if i == 0 { assert b[0..][15] == b[15]; }
    }
    forall i | 0 <= i < |a| ensures !(a[i..] <= b) {
      assert a[i..][0] == a[i];
      if i == 35 { assert a[35..][1] == a[36]; }
    }
    forall i | 0 <= i <= |a| ensures !OccursAt(a, b, i) {
      if i == 0 { assert a[0..][15] == a[15]; } else if i <= 3 { assert a[i..][0] == a[i]; }
    }
    forall i | 0 <= i <= |b| ensures !OccursAt(b, a, i) {}
  }

  lemma CmsPathLetters()
    ensures |CMS_PATH| == 39 && CMS_PATH[0] == 'f' && CMS_PATH[15] == 'u' && CMS_PATH[36] == 'i'
    ensures forall i :: 0 < i < 39 && i != 35 ==> CMS_PATH[i] != 'f'
  {}

  lemma CsPathLetters()
    ensures |CS_PATH| == 36 && CS_PATH[0] == 'f' && CS_PATH[15] == 'a' && CS_PATH[1] == 'r'
    ensures forall i :: 0 < i < 36 ==> CS_PATH[i] != 'f'
  {}

  lemma PathsDoNotStraddle()
    ensures NoStraddle(CMS_PATH, CS_PATH)
  {
    CmsPathLetters();
    CsPathLetters();
    LettersKeepApart(CMS_PATH, CS_PATH);
  }

  /** Normalising again changes nothing, whatever the text. */
  lemma NormaliseIsIdempotent(s: string)
    ensures Normalise(Normalise(s)) == Normalise(s) && !Contains(Normalise(s), CMS_PATH)
  {
    PathsDoNotStraddle();
    NothingIsLeft(s, CMS_PATH, CS_PATH);
    AbsentIsUntouched(Normalise(s), CMS_PATH, CS_PATH);
  }

  // ---------------------------------------------------------------------------
  // Whole files
  // ---------------------------------------------------------------------------

  function Text(lines: seq<string>): string {
    if lines == [] then "" else lines[0] + Text(lines[1..])
  }

  /** Lines as they are read: each but the last ends its own line. */
  ghost predicate AsRead(lines: seq<string>) {
    forall i :: 0 <= i < |lines| - 1 ==> lines[i] != "" && lines[i][|lines[i]| - 1] == '\n'
  }

  lemma NewlineIsOutside(s: string, a: string)
    requires '\n' !in a && s != "" && s[|s| - 1] == '\n'
    ensures !(s <= a) && (a <= s ==> |a| < |s|)
  {
    assert |s| <= |a| ==> a[|s| - 1] != s[|s| - 1];
    assert a <= s && |a| == |s| ==> a == s;
  }

  lemma {:induction false} LineEndsSeparate(s: string, t: string, a: string, b: string)
    requires a != "" && '\n' !in a && s != "" && s[|s| - 1] == '\n'
    ensures ReplaceAll(s + t, a, b) == ReplaceAll(s, a, b) + ReplaceAll(t, a, b)
    decreases |s|
  {
    NewlineIsOutside(s, a);
    assert a <= s + t ==> a <= s by {
      if a <= s + t { PrefixOfJoin(a, s, t); }
    }
    assert a <= s ==> a == (s + t)[..|a|];
    var n := if a <= s then |a| else 1;
    assert (s + t)[n..] == s[n..] + t;
    if s[n..] == "" {
      assert n == |s|;
    } else {
      LineEndsSeparate(s[n..], t, a, b);
      var head := if a <= s then b else [s[0]];
      assert head + (ReplaceAll(s[n..], a, b) + ReplaceAll(t, a, b)) == (head + ReplaceAll(s[n..], a, b)) + ReplaceAll(t, a, b);
    }
  }

  lemma {:induction false} NormalFormsAddUp(cms: seq<string>, cs: seq<string>)
    requires |cms| == |cs| && AsRead(cms) && AsRead(cs)
    requires forall i :: 0 <= i < |cms| ==> Normalise(cms[i]) == Normalise(cs[i])
    ensures Normalise(Text(cms)) == Normalise(Text(cs))
  {
    if |cms| == 1 {
      assert Text(cms) == cms[0] + "" == cms[0] && Text(cs) == cs[0] + "" == cs[0];
    } else if |cms| > 1 {
      assert '\n' !in CMS_PATH;
      LineEndsSeparate(cms[0], Text(cms[1..]), CMS_PATH, CS_PATH);
      LineEndsSeparate(cs[0], Text(cs[1..]), CMS_PATH, CS_PATH);
      NormalFormsAddUp(cms[1..], cs[1..]);
    }
  }

  predicate Allowlisted(cms: string, cs: string) { Contains(cms, CMS_PATH) && Normalise(cms) == cs }

  function Drift(cms: seq<string>, cs: seq<string>): (r: seq<nat>)
    requires |cms| == |cs|
    ensures r == [] <==> forall i :: 0 <= i < |cms| ==> cms[i] == cs[i] || Allowlisted(cms[i], cs[i])
    ensures forall n :: n in r <==> 1 <= n <= |cms| && !(cms[n - 1] == cs[n - 1] || Allowlisted(cms[n - 1], cs[n - 1]))
  {
    if cms == [] then []
    else
      var n := |cms| - 1;
      var earlier := Drift(cms[..n], cs[..n]);
      if cms[n] == cs[n] || Allowlisted(cms[n], cs[n]) then earlier else earlier + [|cms|]
  }

  /** A line pair passes exactly when the mirror's line is the other, or its normal form. */
  lemma PassingLine(cms: string, cs: string)
    ensures cms == cs || Allowlisted(cms, cs) <==> cs == cms || cs == Normalise(cms)
    ensures cms == cs || Allowlisted(cms, cs) ==> Normalise(cs) == Normalise(cms)
    ensures (cms == cs || Allowlisted(cms, cs)) && !Contains(cms, CMS_PATH) ==> cs == cms
  {
    NormaliseIsIdempotent(cms);
    if !Contains(cms, CMS_PATH) { AbsentIsUntouched(cms, CMS_PATH, CS_PATH); }
  }

  // ---------------------------------------------------------------------------
  // The verdict
  // ---------------------------------------------------------------------------

  /** One side: the component's lines and the stylesheet beside it, when they exist. */
  datatype Side = Side(component: Option<seq<string>>, stylesheet: Option<string>)

  function StyleCode(cms: Side, cs: Side, cssImport: string, declares: string -> bool): nat
    requires cms.component.Some? && cs.component.Some?
  {
    if cms.stylesheet.None? || cs.stylesheet.None? then 2
    else if cms.stylesheet.value != cs.stylesheet.value then 1
    else if !declares(cms.stylesheet.value) then 1
    else if !AnyContains(cms.component.value, cssImport) || !AnyContains(cs.component.value, cssImport) then 1
    else 0
  }

  predicate AnyContains(lines: seq<string>, sub: string) {
    exists i :: 0 <= i < |lines| && Contains(lines[i], sub)
  }

  function ExitCode(cms: Side, cs: Side, cssImport: string, declares: string -> bool): nat {
    if cms.component.None? || cs.component.None? then 2
    else if !AnyContains(cms.component.value, CMS_PATH) || !AnyContains(cs.component.value, CS_PATH) then 1
    else if |cms.component.value| != |cs.component.value| then 1
    else if Drift(cms.component.value, cs.component.value) != [] then 1
    else StyleCode(cms, cs, cssImport, declares)
  }

  /** A pass: equal line counts, byte identity wherever the documented path is absent, the same
      normal form line by line and as whole texts, and the same stylesheet, declared and imported. */
  lemma PassMeansParity(cms: Side, cs: Side, cssImport: string, declares: string -> bool)
    requires ExitCode(cms, cs, cssImport, declares) == 0
    requires AsRead(cms.component.value) && AsRead(cs.component.value)
    ensures var a, b := cms.component.value, cs.component.value;
            && |a| == |b|
            && (forall i :: 0 <= i < |a| && !Contains(a[i], CMS_PATH) ==> a[i] == b[i])
            && (forall i :: 0 <= i < |a| ==> Normalise(a[i]) == Normalise(b[i]))
            && Normalise(Text(a)) == Normalise(Text(b))
            && AnyContains(a, CMS_PATH) && AnyContains(b, CS_PATH)
            && cms.stylesheet == cs.stylesheet && cms.stylesheet.Some? && declares(cms.stylesheet.value)
            && AnyContains(a, cssImport) && AnyContains(b, cssImport)
  {
    var a, b := cms.component.value, cs.component.value;
    forall i | 0 <= i < |a|
      ensures Normalise(a[i]) == Normalise(b[i]) && (!Contains(a[i], CMS_PATH) ==> a[i] == b[i])
    {
      PassingLine(a[i], b[i]);
    }
    NormalFormsAddUp(a, b);
  }

  /** The verdict read backwards: these conditions are all a pass takes. */
  lemma PassExactly(cms: Side, cs: Side, cssImport: string, declares: string -> bool)
    requires cms.component.Some? && cs.component.Some?
    ensures var a, b := cms.component.value, cs.component.value;
            ExitCode(cms, cs, cssImport, declares) == 0 <==>
              && AnyContains(a, CMS_PATH) && AnyContains(b, CS_PATH) && |a| == |b|
              && (forall i :: 0 <= i < |a| ==> b[i] == a[i] || b[i] == Normalise(a[i]))
              && cms.stylesheet.Some? && cs.stylesheet == cms.stylesheet && declares(cms.stylesheet.value)
              && AnyContains(a, cssImport) && AnyContains(b, cssImport)
  {
    var a, b := cms.component.value, cs.component.value;
    if |a| == |b| {
      forall i | 0 <= i < |a| ensures (a[i] == b[i] || Allowlisted(a[i], b[i])) <==> (b[i] == a[i] || b[i] == Normalise(a[i])) {
        PassingLine(a[i], b[i]);
      }
    }
  }

  /** The verdict is 2 when a file is missing, a stylesheet only where all else is in order before
      it is looked for, and 1 for everything else that is not a pass. */
  lemma MissingFilesExactly(cms: Side, cs: Side, cssImport: string, declares: string -> bool)
    ensures ExitCode(cms, cs, cssImport, declares) in {0, 1, 2}
    ensures ExitCode(cms, cs, cssImport, declares) == 2 <==>
              || cms.component.None? || cs.component.None?
              || (&& (cms.stylesheet.None? || cs.stylesheet.None?)
                  && var a, b := cms.component.value, cs.component.value;
                     && AnyContains(a, CMS_PATH) && AnyContains(b, CS_PATH) && |a| == |b|
                     && forall i :: 0 <= i < |a| ==> b[i] == a[i] || b[i] == Normalise(a[i]))
  {
    if cms.component.Some? && cs.component.Some? && |cms.component.value| == |cs.component.value| {
      var a, b := cms.component.value, cs.component.value;
      forall i | 0 <= i < |a| ensures (a[i] == b[i] || Allowlisted(a[i], b[i])) <==> (b[i] == a[i] || b[i] == Normalise(a[i])) {
        PassingLine(a[i], b[i]);
      }
    }
  }

  lemma {:induction false} CopyIsKept(a: string, b: string, i: nat, t: string)
    requires a != "" && NoStraddle(a, b) && i <= |b|
    ensures ReplaceAll(b[i..] + t, a, b) == b[i..] + ReplaceAll(t, a, b)
    decreases |b| - i
  {
    if i == |b| {
      assert b[i..] + t == t;
    } else {
      var s := b[i..] + t;
      NothingStartsAtACopy(a, b, i, t);
      assert s[1..] == b[i + 1..] + t && s[0] == b[i];
      CopyIsKept(a, b, i + 1, t);
      assert [b[i]] + (b[i + 1..] + ReplaceAll(t, a, b)) == b[i..] + ReplaceAll(t, a, b);
    }
  }

  /** Two imports on one line, only the first replaced: the normal forms agree, the line is drift. */
  lemma HalfReplacedLineIsDrift()
    ensures var cms, cs := CMS_PATH + CMS_PATH, CS_PATH + CMS_PATH;
            Normalise(cms) == Normalise(cs) && cs != cms && !Allowlisted(cms, cs)
  {
    CmsPathLetters();
    CsPathLetters();
    PathsDoNotStraddle();
    HalfReplaced(CMS_PATH, CS_PATH);
  }

  lemma HalfReplaced(a: string, b: string)
    requires a != "" && NoStraddle(a, b) && |a| != |b|
    ensures ReplaceAll(a + a, a, b) == ReplaceAll(b + a, a, b) != b + a && b + a != a + a
  {
    assert (a + a)[|a|..] == a && a <= a + a;
    assert b[0..] == b;
    CopyIsKept(a, b, 0, a);
    NothingIsLeft(b + a, a, b);
    assert (b + a)[|b|..] == a;
    assert OccursAt(b + a, a, |b|);
    assert |b + a| != |a + a|;
  }

  // ---------------------------------------------------------------------------
  // The check itself
  // ---------------------------------------------------------------------------

  lemma OneMoreLine(lines: seq<string>, line: string, sub: string)
    ensures AnyContains(lines + [line], sub) <==> AnyContains(lines, sub) || Contains(line, sub)
  {
    if Contains(line, sub) {
      assert (lines + [line])[|lines|] == line;
    } else if AnyContains(lines, sub) {
      var i :| 0 <= i < |lines| && Contains(lines[i], sub);
      assert (lines + [line])[i] == lines[i];
    }
  }

  method FindLine(lines: seq<string>, sub: string) returns (found: bool)
    ensures found <==> AnyContains(lines, sub)
  {
    found := false;
    for i := 0 to |lines|
      invariant found <==> AnyContains(lines[..i], sub)
    {
      assert lines[..i + 1] == lines[..i] + [lines[i]];
      OneMoreLine(lines[..i], lines[i], sub);
      if Contains(lines[i], sub) { found := true; }
    }
    assert lines[..|lines|] == lines;
  }

  /** 1-based numbers of the drifted lines. */
  method CompareLines(cms: seq<string>, cs: seq<string>) returns (drift: seq<nat>)
    requires |cms| == |cs|
    ensures drift == Drift(cms, cs)
  {
    drift := [];
    for i := 0 to |cms|
      invariant drift == Drift(cms[..i], cs[..i])
    {
      assert cms[..i + 1][..i] == cms[..i] && cs[..i + 1][..i] == cs[..i];
      assert cms[..i + 1][i] == cms[i] && cs[..i + 1][i] == cs[i];
      if cms[i] == cs[i] { continue; }
      if Allowlisted(cms[i], cs[i]) { continue; }
      drift := drift + [i + 1];
    }
    assert cms[..|cms|] == cms && cs[..|cs|] == cs;
  }

  method Verify(cms: Side, cs: Side, cssImport: string, declares: string -> bool) returns (code: nat)
    ensures code == ExitCode(cms, cs, cssImport, declares)
  {
    if cms.component.None? || cs.component.None? { return 2; }
    var a, b := cms.component.value, cs.component.value;
    var live := FindLine(a, CMS_PATH);
    if !live { return 1; }
    live := FindLine(b, CS_PATH);
    if !live { return 1; }
    if |a| != |b| { return 1; }
    var drift := CompareLines(a, b);
    if drift != [] { return 1; }
    if cms.stylesheet.None? || cs.stylesheet.None? { return 2; }
    if cms.stylesheet.value != cs.stylesheet.value || !declares(cms.stylesheet.value) { return 1; }
    live := FindLine(a, cssImport);
    if !live { return 1; }
    live := FindLine(b, cssImport);
    return if live then 0 else 1;
  }
}
