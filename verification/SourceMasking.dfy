/** Blanking string and comment tokens out of a source file before searching it: the in-place loop
    against the set of cells the tokens cover. */
module SourceMasking {
  import opened Prelude

  datatype Kind = StringToken | CommentToken | OtherToken

  /** Rows count from 1, columns from 0; the end column is outside. */
  datatype Token = Token(kind: Kind, startRow: nat, startCol: nat, endRow: nat, endCol: nat)

  predicate Hidden(tok: Token) { tok.kind != OtherToken }

  function Spaces(n: nat): (r: string)
    ensures |r| == n && forall i :: 0 <= i < n ==> r[i] == ' '
  {
    seq(n, i => ' ')
  }

  function Min(a: nat, b: nat): nat { if a < b then a else b }

  /** Slices stop at the line's end, whatever the columns. */
  function BlankSlice(line: string, lo: nat, hi: nat): string {
    line[..Min(lo, |line|)] + Spaces(if hi > lo then hi - lo else 0) + line[Min(hi, |line|)..]
  }

  function Low(tok: Token, row: nat): nat { if row == tok.startRow then tok.startCol else 0 }

  function High(tok: Token, row: nat, line: string): nat { if row == tok.endRow then tok.endCol else |line| }

  function BlankRow(lines: seq<string>, tok: Token, row: nat): (r: seq<string>)
    requires row >= 1
    ensures |r| == |lines|
  {
    if row - 1 >= |lines| then lines
    else
      var line := lines[row - 1];
      lines[row - 1 := BlankSlice(line, Low(tok, row), High(tok, row, line))]
  }

  function BlankRows(lines: seq<string>, tok: Token, row: nat): (r: seq<string>)
    requires row >= 1
    ensures |r| == |lines|
    decreases tok.endRow + 1 - row
  {
    if row > tok.endRow then lines else BlankRows(BlankRow(lines, tok, row), tok, row + 1)
  }

  function Scrub(lines: seq<string>, toks: seq<Token>): (r: seq<string>)
    requires forall i :: 0 <= i < |toks| ==> toks[i].startRow >= 1
    ensures |r| == |lines|
    decreases |toks|
  {
    if toks == [] then lines
    else Scrub(if Hidden(toks[0]) then BlankRows(lines, toks[0], toks[0].startRow) else lines, toks[1..])
  }

  // ---------------------------------------------------------------------------
  // The cells the tokens cover
  // ---------------------------------------------------------------------------

  /** Row and column of a cell, both from 0. */
  predicate CoversCell(tok: Token, r: nat, c: nat) {
    && (tok.kind == StringToken || tok.kind == CommentToken) && tok.startRow <= r + 1 <= tok.endRow
    && (r + 1 == tok.startRow ==> tok.startCol <= c)
    && (r + 1 == tok.endRow ==> c < tok.endCol)
  }

  ghost predicate Covered(toks: seq<Token>, r: nat, c: nat) {
    exists i :: 0 <= i < |toks| && CoversCell(toks[i], r, c)
  }

  /** A token inside the lines it spans. */
  predicate InBounds(lines: seq<string>, tok: Token) {
    && 1 <= tok.startRow <= tok.endRow <= |lines|
    && tok.startCol <= |lines[tok.startRow - 1]| && tok.endCol <= |lines[tok.endRow - 1]|
    && (tok.startRow == tok.endRow ==> tok.startCol <= tok.endCol)
  }

  /** Tokens that hide nothing, like the end marker past the last line, may lie anywhere. */
  ghost predicate AllInBounds(lines: seq<string>, toks: seq<Token>) {
    forall i :: 0 <= i < |toks| ==> toks[i].startRow >= 1 && (toks[i].kind == OtherToken || InBounds(lines, toks[i]))
  }

  ghost predicate SameShape(a: seq<string>, b: seq<string>) {
    |a| == |b| && forall r :: 0 <= r < |a| ==> |a[r]| == |b[r]|
  }

  /** `b` is `a` with exactly these tokens' cells blanked. */
  ghost predicate BlankedBy(a: seq<string>, b: seq<string>, toks: seq<Token>) {
    && SameShape(a, b)
    && forall r, c :: 0 <= r < |a| && 0 <= c < |a[r]| ==> b[r][c] == if Covered(toks, r, c) then ' ' else a[r][c]
  }

  /** A slice keeps the line's length exactly when it lies in the line, or ends past it going backwards. */
  lemma SliceKeepsLength(line: string, lo: nat, hi: nat)
    ensures |BlankSlice(line, lo, hi)| == |line| <==> lo <= hi <= |line| || |line| <= hi <= lo
  {}

  /** One token from one row on: that row's part, then the rest. */
  lemma {:induction false} RowsBlank(lines: seq<string>, tok: Token, row: nat)
    requires Hidden(tok) && InBounds(lines, tok) && tok.startRow <= row
    ensures var out := BlankRows(lines, tok, row);
            && SameShape(lines, out)
            && forall r, c :: 0 <= r < |lines| && 0 <= c < |lines[r]| ==>
                 out[r][c] == if CoversCell(tok, r, c) && row <= r + 1 then ' ' else lines[r][c]
    decreases tok.endRow + 1 - row
  {
    if row <= tok.endRow {
      var next := BlankRow(lines, tok, row);
      var line := lines[row - 1];
      assert SameShape(lines, next);
      RowsBlank(next, tok, row + 1);
    }
  }

  lemma {:induction false} ScrubIsExact(lines: seq<string>, toks: seq<Token>)
    requires AllInBounds(lines, toks)
    ensures BlankedBy(lines, Scrub(lines, toks), toks)
    decreases |toks|
  {
    if toks != [] {
      var next := if Hidden(toks[0]) then BlankRows(lines, toks[0], toks[0].startRow) else lines;
      if Hidden(toks[0]) { RowsBlank(lines, toks[0], toks[0].startRow); }
      forall i | 0 <= i < |toks[1..]| ensures toks[1..][i] == toks[i + 1] {}
      ScrubIsExact(next, toks[1..]);
      forall r: nat, c: nat ensures Covered(toks, r, c) <==> CoversCell(toks[0], r, c) || Covered(toks[1..], r, c) {
        if Covered(toks, r, c) {
          var i :| 0 <= i < |toks| && CoversCell(toks[i], r, c);
          if i > 0 { assert toks[1..][i - 1] == toks[i]; }
        }
      }
    }
  }

  lemma BlankedOnce(a: seq<string>, b: seq<string>, c: seq<string>, toks: seq<Token>)
    requires BlankedBy(a, b, toks) && BlankedBy(a, c, toks)
    ensures b == c
  {
    forall r | 0 <= r < |a| ensures b[r] == c[r] {}
  }

  /** The order of the tokens, overlapping or not, makes no difference. */
  lemma OrderDoesNotMatter(lines: seq<string>, toks: seq<Token>, others: seq<Token>)
    requires AllInBounds(lines, toks) && multiset(toks) == multiset(others)
    ensures (forall i :: 0 <= i < |others| ==> others[i].startRow >= 1) && Scrub(lines, others) == Scrub(lines, toks)
  {
    forall i | 0 <= i < |others| ensures others[i] in toks {
      assert others[i] in multiset(others);
    }
    forall i | 0 <= i < |toks| ensures toks[i] in others {
      assert toks[i] in multiset(toks);
    }
    ScrubIsExact(lines, toks);
    ScrubIsExact(lines, others);
    forall r: nat, c: nat ensures Covered(toks, r, c) <==> Covered(others, r, c) {}
    BlankedOnce(lines, Scrub(lines, toks), Scrub(lines, others), toks);
  }

  // ---------------------------------------------------------------------------
  // The loop and the guard
  // ---------------------------------------------------------------------------

  method ScrubInPlace(lines: array<string>, toks: seq<Token>)
    requires forall i :: 0 <= i < |toks| ==> toks[i].startRow >= 1
    modifies lines
    ensures lines[..] == Scrub(old(lines[..]), toks)
    ensures AllInBounds(old(lines[..]), toks) ==> BlankedBy(old(lines[..]), lines[..], toks)
  {
    ghost var start := lines[..];
    if AllInBounds(start, toks) { ScrubIsExact(start, toks); }
    for i := 0 to |toks|
      invariant Scrub(lines[..], toks[i..]) == Scrub(start, toks)
    {
      var tok := toks[i];
      assert toks[i..][0] == tok && toks[i..][1..] == toks[i + 1..];
      if !Hidden(tok) { continue; }
      BlankToken(lines, tok);
    }
  }

  method BlankToken(lines: array<string>, tok: Token)
    requires tok.startRow >= 1
    modifies lines
    ensures lines[..] == BlankRows(old(lines[..]), tok, tok.startRow)
  {
    var row := tok.startRow;
    ghost var start := lines[..];
    while row <= tok.endRow
      invariant row >= 1 && BlankRows(lines[..], tok, row) == BlankRows(start, tok, tok.startRow)
      decreases tok.endRow + 1 - row
    {
      ghost var before := lines[..];
      if row - 1 < lines.Length {
        var line := lines[row - 1];
        lines[row - 1] := BlankSlice(line, Low(tok, row), High(tok, row, line));
      }
      assert lines[..] == BlankRow(before, tok, row);
      row := row + 1;
    }
  }

  /** A missing file and a file that does not tokenize both read as not patched. */
  method FailOpenPatched(source: Option<seq<string>>, tokens: Option<seq<Token>>, patterns: seq<string -> bool>)
    returns (patched: bool)
    requires tokens.Some? ==> forall i :: 0 <= i < |tokens.value| ==> tokens.value[i].startRow >= 1
    ensures patched <==> source.Some? && tokens.Some? && NoMatch(Scrub(source.value, tokens.value), patterns)
  {
    if source.None? || tokens.None? { return false; }
    var text := source.value;
    var lines := new string[|text|](i requires 0 <= i < |text| => text[i]);
    assert lines[..] == text;
    ScrubInPlace(lines, tokens.value);
    ghost var scrubbed := lines[..];
    for i := 0 to lines.Length
      invariant lines[..] == scrubbed && NoMatch(scrubbed[..i], patterns)
    {
      for j := 0 to |patterns|
        invariant forall k :: 0 <= k < j ==> !patterns[k](lines[i])
      {
        if patterns[j](lines[i]) {
          assert !NoMatch(scrubbed, patterns) by { assert patterns[j](scrubbed[i]); }
          return false;
        }
      }
    }
    assert scrubbed[..lines.Length] == scrubbed;
    return true;
  }

  ghost predicate NoMatch(lines: seq<string>, patterns: seq<string -> bool>) {
    forall i, j :: 0 <= i < |lines| && 0 <= j < |patterns| ==> !patterns[j](lines[i])
  }

  /** For tokens in bounds the verdict is about the code alone: whatever stands in strings and
      comments, two sources that agree outside them get the same answer. */
  lemma StringsAndCommentsDoNotCount(a: seq<string>, b: seq<string>, toks: seq<Token>, patterns: seq<string -> bool>)
    requires AllInBounds(a, toks) && SameShape(a, b)
    requires forall r, c :: 0 <= r < |a| && 0 <= c < |a[r]| && !Covered(toks, r, c) ==> a[r][c] == b[r][c]
    ensures NoMatch(Scrub(a, toks), patterns) <==> NoMatch(Scrub(b, toks), patterns)
  {
    ScrubIsExact(a, toks);
    ScrubIsExact(b, toks);
    forall r | 0 <= r < |a| ensures Scrub(a, toks)[r] == Scrub(b, toks)[r] {}
    assert Scrub(a, toks) == Scrub(b, toks);
  }
}
