/// Worked cases of the sub-scanners and of the line driver's steps, on the
/// inputs that show their edge cases.
module ScanExamples {
  import opened Chars
  import opened Tokens
  import opened Numbers
  import opened Comments
  import opened Strings
  import opened Operators
  import opened Words
  import opened Driver
  import opened Wrappers

  /** A `_` is absorbed only before a digit or at the end of the line. */
  lemma SeparatorCases()
    ensures NumberScan(Ascii("1_x"), 0, Hex) == Scanned(1, Integer)
    ensures NumberScan(Ascii("1_000"), 0, Hex) == Scanned(5, Integer)
    ensures NumberScan(Ascii("1_"), 0, Hex) == Scanned(2, Integer)
  {
  }

  /** A binary literal stops at the first digit that is not binary. */
  lemma BinaryStopsAtTwo()
    ensures NumberScan(Ascii("0b102"), 0, Integer) == Scanned(4, Binary)
  {
  }

  /** `0x` needs a hexadecimal digit right after it, and a `_` is none:
      the literal is the integer `0`. */
  lemma HexNeedsADigit()
    ensures NumberScan(Ascii("0x_1"), 0, Hex) == Scanned(1, Integer)
  {
  }

  /** An exponent mark followed by nothing but a sign is left out of the
      literal, and so is one that ends the line. */
  lemma ExponentNeedsADigit()
    ensures NumberScan(Ascii("1.5e+"), 0, Integer) == Scanned(3, Decimal)
  {
  }

  lemma ExponentAtEndOfLine()
    ensures NumberScan(Ascii("1.5e"), 0, Integer) == Scanned(3, Decimal)
  {
  }

  /** A `_` that ends the line is absorbed by the digit run, so it stands in
      for the exponent's digits, after the mark or after its sign. */
  lemma ExponentOfLoneSeparator()
    ensures NumberScan(Ascii("1.5e_"), 0, Integer) == Scanned(5, Decimal)
    ensures NumberScan(Ascii("1.5e+_"), 0, Integer) == Scanned(6, Decimal)
  {
  }

  lemma SignedExponent()
    ensures NumberScan(Ascii("1.5e-2"), 0, Integer) == Scanned(6, Decimal)
  {
  }

  /** Without a `.` there is no exponent. */
  lemma NoFractionNoExponent()
    ensures NumberScan(Ascii("1e5"), 0, Hex) == Scanned(1, Integer)
  {
  }

  /** The search for the end mark starts after the opening one, so the
      star of the opening mark does not close it. */
  lemma OpeningMarkDoesNotClose()
    ensures CommentScan(Ascii("/*/"), 0, CaseNone) == Scanned(3, Multiline)
    ensures CommentScan(Ascii("/**/x"), 0, CaseNone) == Scanned(4, CaseNone)
  {
  }

  /** The empty string closes at its second quote; an escaped quote does
      not close; an open string on a line ending in `\` continues. */
  lemma QuoteCases()
    ensures QuotedScan(Ascii("\"\"x"), 0, Double, false) == Scanned(2, false)
    ensures QuotedScan(Ascii("\"a\\\"b\""), 0, Double, false) == Scanned(6, false)
    ensures QuotedScan(Ascii("'ab\\"), 0, Single, false) == Scanned(4, true)
  {
  }

  /** On a continuation line the fragment stops before the closing quote,
      and a quote in the first column does not close. */
  lemma EndQuoteExcludesTheQuote()
    ensures EndQuoteScan(Ascii("ab\"c"), Double) == Scanned(2, false)
    ensures EndQuoteScan(Ascii("\"c"), Double) == Scanned(2, false)
  {
  }

  /** The walk over the hierarchy enters the root whose symbol opens the text. */
  lemma EnterRoot(s: Text, j: nat, kind: OperatorType)
    requires 0 < |s| && j < |BuildOperatorHierarchy()| && BuildOperatorHierarchy()[j].symbol == s[0]
    ensures var root := BuildOperatorHierarchy()[j];
      OperatorScan(s, 0, BuildOperatorHierarchy(), kind) ==
        if |root.ops| > 0 && 1 < |s| then OperatorScan(s, 1, root.ops, root.kind) else Scanned(1, root.kind)
  {
    HierarchySiblingsDistinct();
    FirstWithSymbolIsUnique(BuildOperatorHierarchy(), j);
  }

  /** The root `>` of the hierarchy, with its children. */
  const GreaterRoot := Operator(Greater, '>' as SChar, [
    Operator(GreaterEqual, '=' as SChar, []),
    Operator(RightShift, '>' as SChar, [Operator(RightShiftEqual, '=' as SChar, [])])])

  /** The longest path of the hierarchy wins. */
  lemma LongestPath()
    ensures OperatorScan(Ascii(">>="), 0, BuildOperatorHierarchy(), Accessor) == Scanned(3, RightShiftEqual)
  {
    var s := Ascii(">>=");
    assert BuildOperatorHierarchy()[13] == GreaterRoot;
    EnterRoot(s, 13, Accessor);
    assert OperatorScan(s, 1, GreaterRoot.ops, Greater) == OperatorScan(s, 2, GreaterRoot.ops[1].ops, RightShift);
  }

  /** No child matches: the walk reports the node it stopped at. */
  lemma NoChildMatches()
    ensures OperatorScan(Ascii(">>x"), 0, BuildOperatorHierarchy(), Accessor) == Scanned(2, RightShift)
  {
    var s := Ascii(">>x");
    assert BuildOperatorHierarchy()[13] == GreaterRoot;
    EnterRoot(s, 13, Accessor);
    assert OperatorScan(s, 1, GreaterRoot.ops, Greater) == OperatorScan(s, 2, GreaterRoot.ops[1].ops, RightShift);
  }

  /** The line ends: the walk reports the root. */
  lemma LineEnds()
    ensures OperatorScan(Ascii(">"), 0, BuildOperatorHierarchy(), Accessor) == Scanned(1, Greater)
  {
    assert BuildOperatorHierarchy()[13] == GreaterRoot;
    EnterRoot(Ascii(">"), 13, Accessor);
  }

  lemma ThreeWayComparison()
    ensures OperatorScan(Ascii("<=>"), 0, BuildOperatorHierarchy(), Accessor) == Scanned(3, ThreeWayComp)
  {
    assert BuildOperatorHierarchy()[14] == Operator(Less, '<' as SChar, [
      Operator(LessEqual, '=' as SChar, [Operator(ThreeWayComp, '>' as SChar, [])]),
      Operator(LeftShift, '<' as SChar, [Operator(LeftShiftEqual, '=' as SChar, [])])]);
    EnterRoot(Ascii("<=>"), 14, Accessor);
  }

  /** Only one entry of the keyword table has the type FN, and it is two
      characters long. */
  lemma OnlyFnIsFn()
    ensures forall kw :: kw in KeywordList() && kw.kind == Fn ==> |kw.text| == 2
  {
    var ks := KeywordList();
    assert forall j :: 0 <= j < |ks| && ks[j].kind == Fn ==> |ks[j].text| == 2;
    forall kw | kw in ks && kw.kind == Fn
      ensures |kw.text| == 2
    {
      var j :| 0 <= j < |ks| && ks[j] == kw;
    }
  }

  /** A word that merely starts with a keyword is not that keyword. */
  lemma LongerWordIsNotFn(step: HashStep)
    ensures ClassifyWord(step, BuildKeywords(step), Ascii("fnx"), Lexeme(0, 3)) != KeywordTok(Fn)
  {
    var s := Ascii("fnx");
    assert LexemeText(s, Lexeme(0, 3)) == s;
    KeywordIsSpelledOut(step, s, Lexeme(0, 3));
    OnlyFnIsFn();
  }

  /** The end-of-line test compares the pending token's lexeme number with
      the current line's lexeme count, whatever line the token came from: a
      `\` pending from an earlier line at lexeme 0 is dropped at the end of
      a line of one lexeme, and that line closes no statement. */
  lemma BackslashFromEarlierLineDropped(code: seq<Text>, S: State)
    requires Valid(code, S) && S.mode == EndOfLine && 0 < S.i
    requires S.toks == [Token(S.i - 1, 0, OperatorTok(BackSlash))]
    requires |S.lines[S.i].lexemes| == 1
    ensures StepEndOfLine(code, S) == S.(mode := LineStart, i := S.i + 1, toks := [])
  {
  }

  /** A trailing `\` that is the last lexeme of its line is dropped and no
      EOL is emitted, so the next line continues the statement. */
  lemma TrailingBackslashSplices(code: seq<Text>, S: State)
    requires Valid(code, S) && S.mode == EndOfLine
    requires |S.lines[S.i].lexemes| > 0
    requires |S.toks| > 0 && S.toks[|S.toks| - 1] == Token(S.i, |S.lines[S.i].lexemes| - 1, OperatorTok(BackSlash))
    ensures var R := StepEndOfLine(code, S);
      R.tokens == S.tokens && R.toks == S.toks[..|S.toks| - 1] && R.mode == LineStart && R.i == S.i + 1
  {
  }

  /** A `\` followed by a whitespace lexeme is an ordinary operator: the
      statement is closed by an EOL of this line. */
  lemma BackslashBeforeSpaceCloses(code: seq<Text>, S: State)
    requires Valid(code, S) && S.mode == EndOfLine
    requires |S.lines[S.i].lexemes| > 1
    requires |S.toks| > 0 && S.toks[|S.toks| - 1] == Token(S.i, |S.lines[S.i].lexemes| - 2, OperatorTok(BackSlash))
    ensures var R := StepEndOfLine(code, S);
      R.tokens == S.tokens + [S.toks + [Token(S.i, 0, EolTok)]] && R.toks == []
  {
  }

  /** The lines of a block comment: `middle` becomes one whole-line lexeme,
      the closing line the lexeme `[0, 6)` up to the end mark, and scanning
      resumes at `x`,
      with no token and no EOL in between. */
  lemma BlockCommentOverThreeLines(S: State)
    requires S.mode == InBlockComment && S.i == 1 && |S.lines| == 3
    ensures var code := [Ascii("/* start"), Ascii("middle"), Ascii("end */x")];
      var R := StepBlockComment(code, StepBlockComment(code, S));
      && R.mode == Normal && R.i == 2 && R.index == 6
      && R.lines[1] == Line(code[1], S.lines[1].lexemes + [Lexeme(0, 6)])
      && R.lines[2] == Line(code[2], S.lines[2].lexemes + [Lexeme(0, 6)])
      && R.tokens == S.tokens && R.toks == S.toks
  {
    var code := [Ascii("/* start"), Ascii("middle"), Ascii("end */x")];
    assert FindClose(code[1], 0) == None;
    assert IsCloseAt(code[2], 4);
    assert FindClose(code[2], 0) == Some(4);
  }

  /** A continued string's next line `cd"e` gives a STRING fragment for
      lexeme 0 spanning `cd`, and scanning resumes on the closing quote. */
  lemma ContinuedStringResumesOnQuote(S: State)
    requires S.mode == InString(Double) && S.i == 1 && |S.lines| == 2
    ensures var code := [Ascii("x = \"ab\\"), Ascii("cd\"e")];
      var R := StepString(code, S, Double);
      && R.mode == Normal && R.i == 1 && R.index == 2 && code[1][R.index] == DoubleQuote
      && R.lines[1] == Line(code[1], S.lines[1].lexemes + [Lexeme(0, 2)])
      && R.toks == S.toks + [Token(1, 0, StringTok(Double))]
  {
    var code := [Ascii("x = \"ab\\"), Ascii("cd\"e")];
    assert IsClosingQuote(code[1], DoubleQuote, 2);
    assert ClosingQuote(code[1], DoubleQuote, 1) == 2;
  }
}
