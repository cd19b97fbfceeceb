/// The imperative `scan` (src/Scanner.cpp, lines 14-250), written with the
/// loops of the C++: the loop over lines, the loop over one line's
/// characters, and the three loops that carry a block comment, a `//`
/// comment or a string over the following lines.  One pass of the loop
/// over a line's characters is split along the C++'s own blocks.  Every
/// method takes the machine of `Driver` some number of steps from its
/// start state and keeps, as its loop invariant, that the machine is then
/// at the state its variables hold; so `Scan` returns what the machine
/// returns, and the properties proved about the machine hold of it.
module Scanner {
  import opened Chars
  import opened Wrappers
  import opened Tokens
  import opened Whitespace
  import opened Numbers
  import opened Comments
  import opened Strings
  import opened Operators
  import opened Words
  import opened Driver
  import opened ScanProperties

  /** The machine after `n` steps from `S`: a failure stops it, and it
      stays where it is once at the final flush. */
  function Steps(code: seq<Text>, step: HashStep, tb: Tables, S: State, n: nat): (r: Result<State, ScanError>)
    requires Valid(code, S)
    ensures r.Success? ==> Valid(code, r.value)
    decreases n
  {
    if n == 0 || S.mode == Flush then Success(S)
    else
      match Step(code, step, tb, S)
      case Failure(e) => Failure(e)
      case Success(T) => Steps(code, step, tb, T, n - 1)
  }

  /** One step more is one step of the state reached. */
  lemma {:induction false} StepsThen(code: seq<Text>, step: HashStep, tb: Tables, S: State, n: nat, T: State)
    requires Valid(code, S) && Steps(code, step, tb, S, n) == Success(T) && T.mode != Flush
    ensures Steps(code, step, tb, S, n + 1) == Step(code, step, tb, T)
    decreases n
  {
    if n > 0 {
      var S' := Step(code, step, tb, S).value;
      StepsThen(code, step, tb, S', n - 1, T);
    }
  }

  /** Taking steps does not change where the machine ends. */
  lemma {:induction false} RunAfter(code: seq<Text>, step: HashStep, tb: Tables, S: State, n: nat)
    requires Valid(code, S)
    ensures Run(code, step, tb, S) == match Steps(code, step, tb, S, n)
      case Failure(e) => Failure(e)
      case Success(T) => Run(code, step, tb, T)
    decreases n
  {
    if n > 0 && S.mode != Flush {
      match Step(code, step, tb, S)
      case Failure(e) =>
      case Success(S') => RunAfter(code, step, tb, S', n - 1);
    }
  }

  /** The steps of the modes other than `Normal`, one lemma each. */
  lemma LineStartAfter(code: seq<Text>, step: HashStep, tb: Tables, S0: State, n: nat, S: State)
    requires Valid(code, S0) && Steps(code, step, tb, S0, n) == Success(S) && S.mode == LineStart
    ensures Steps(code, step, tb, S0, n + 1) == Success(StepLineStart(code, S))
  {
    StepsThen(code, step, tb, S0, n, S);
  }

  lemma BlockCommentAfter(code: seq<Text>, step: HashStep, tb: Tables, S0: State, n: nat, S: State)
    requires Valid(code, S0) && Steps(code, step, tb, S0, n) == Success(S) && S.mode == InBlockComment
    ensures Steps(code, step, tb, S0, n + 1) == Success(StepBlockComment(code, S))
  {
    StepsThen(code, step, tb, S0, n, S);
  }

  lemma LineCommentAfter(code: seq<Text>, step: HashStep, tb: Tables, S0: State, n: nat, S: State)
    requires Valid(code, S0) && Steps(code, step, tb, S0, n) == Success(S) && S.mode == InLineComment
    ensures Steps(code, step, tb, S0, n + 1) == Success(StepLineComment(code, S))
  {
    StepsThen(code, step, tb, S0, n, S);
  }

  lemma StringAfter(code: seq<Text>, step: HashStep, tb: Tables, S0: State, n: nat, S: State, q: StringType)
    requires Valid(code, S0) && Steps(code, step, tb, S0, n) == Success(S) && S.mode == InString(q)
    ensures Steps(code, step, tb, S0, n + 1) == Success(StepString(code, S, q))
  {
    StepsThen(code, step, tb, S0, n, S);
  }

  lemma EndOfLineAfter(code: seq<Text>, step: HashStep, tb: Tables, S0: State, n: nat, S: State)
    requires Valid(code, S0) && Steps(code, step, tb, S0, n) == Success(S) && S.mode == EndOfLine
    ensures Steps(code, step, tb, S0, n + 1) == Success(StepEndOfLine(code, S))
  {
    StepsThen(code, step, tb, S0, n, S);
  }

  /** Lines 88-101: the lines after a block comment left open, up to the
      one that closes it; `i == |code|` on return when no line closes it.
      The machine, `n0` steps from `S0` at the first of these lines, is at
      the state of the return `n` steps from `S0`. */
  method ScanBlockComment(code: seq<Text>, ghost step: HashStep, ghost tb: Tables, ghost S0: State, ghost n0: nat,
                          i0: nat, index0: nat, lines0: seq<Line>, ghost tokens: seq<seq<Token>>, ghost toks: seq<Token>)
    returns (i: nat, index: nat, lines: seq<Line>, ghost n: nat)
    requires Valid(code, S0)
    requires Steps(code, step, tb, S0, n0) == Success(State(InBlockComment, i0, index0, lines0, tokens, toks))
    ensures i0 <= i <= |code| && |lines| == |code|
    ensures i < |code| ==> index <= |code[i]|
    ensures Steps(code, step, tb, S0, n) == Success(State(if i == |code| then Flush else Normal, i, index, lines, tokens, toks))
  {
    i, index, lines, n := i0, index0, lines0, n0;
    while i < |code|
      invariant i0 <= i <= |code| && |lines| == |code|
      invariant Steps(code, step, tb, S0, n) == Success(State(InBlockComment, i, index, lines, tokens, toks))
      decreases |code| - i
    {
      BlockCommentAfter(code, step, tb, S0, n, State(InBlockComment, i, index, lines, tokens, toks));
      n := n + 1;
      if |code[i]| == 0 {
        i := i + 1;
        continue;
      }
      lines := SetText(lines, i, code[i]);
      var pos := FindClose(code[i], 0);
      if pos.None? {
        lines := AddLexeme(lines, i, Lexeme(0, |code[i]|));
        i := i + 1;
      } else {
        index := pos.value + 2;
        lines := AddLexeme(lines, i, Lexeme(0, index));
        return;
      }
    }
    BlockCommentAfter(code, step, tb, S0, n, State(InBlockComment, i, index, lines, tokens, toks));
    n := n + 1;
  }

  /** Lines 107-112: the lines after a `//` comment that ends in `\`, each
      one lexeme, up to the first that does not end in `\`; `i == |code|`
      on return when every line does. */
  method ScanLineComment(code: seq<Text>, ghost step: HashStep, ghost tb: Tables, ghost S0: State, ghost n0: nat,
                         i0: nat, ghost index: nat, lines0: seq<Line>, ghost tokens: seq<seq<Token>>, ghost toks: seq<Token>)
    returns (i: nat, lines: seq<Line>, ghost n: nat)
    requires Valid(code, S0)
    requires Steps(code, step, tb, S0, n0) == Success(State(InLineComment, i0, index, lines0, tokens, toks))
    ensures i0 <= i <= |code| && |lines| == |code|
    ensures Steps(code, step, tb, S0, n) == Success(State(if i == |code| then Flush else EndOfLine, i, index, lines, tokens, toks))
  {
    i, lines, n := i0, lines0, n0;
    while i < |code|
      invariant i0 <= i <= |code| && |lines| == |code|
      invariant Steps(code, step, tb, S0, n) == Success(State(InLineComment, i, index, lines, tokens, toks))
      decreases |code| - i
    {
      LineCommentAfter(code, step, tb, S0, n, State(InLineComment, i, index, lines, tokens, toks));
      n := n + 1;
      if |code[i]| == 0 {
        i := i + 1;
        continue;
      }
      lines := SetText(lines, i, code[i]);
      lines := AddLexeme(lines, i, Lexeme(0, |code[i]|));
      if code[i][|code[i]| - 1] != Backslash {
        return;
      }
      i := i + 1;
    }
    LineCommentAfter(code, step, tb, S0, n, State(InLineComment, i, index, lines, tokens, toks));
    n := n + 1;
  }

  /** Lines 132-145 and 163-176: the lines after a string of kind `q` that
      ends in `\`, each up to its closing quote one more string token, until
      a line that closes the string or an empty line; `i == |code|` on
      return when neither comes. */
  method ScanStringLines(code: seq<Text>, ghost step: HashStep, ghost tb: Tables, ghost S0: State, ghost n0: nat,
                         q: StringType, i0: nat, index0: nat, lines0: seq<Line>, ghost tokens: seq<seq<Token>>, toks0: seq<Token>)
    returns (i: nat, index: nat, lines: seq<Line>, toks: seq<Token>, ghost n: nat)
    requires Valid(code, S0)
    requires Steps(code, step, tb, S0, n0) == Success(State(InString(q), i0, index0, lines0, tokens, toks0))
    ensures i0 <= i <= |code| && |lines| == |code|
    ensures i < |code| ==> index <= |code[i]|
    ensures Steps(code, step, tb, S0, n) == Success(State(if i == |code| then Flush else Normal, i, index, lines, tokens, toks))
  {
    i, index, lines, toks, n := i0, index0, lines0, toks0, n0;
    while i < |code|
      invariant i0 <= i <= |code| && |lines| == |code|
      invariant Steps(code, step, tb, S0, n) == Success(State(InString(q), i, index, lines, tokens, toks))
      decreases |code| - i
    {
      StringAfter(code, step, tb, S0, n, State(InString(q), i, index, lines, tokens, toks), q);
      n := n + 1;
      if |code[i]| == 0 {
        index := 0;
        return;
      }
      lines := SetText(lines, i, code[i]);
      var nextLine;
      index, nextLine := ScanEndQuote(code[i], q);
      toks := toks + [Token(i, 0, StringTok(q))];
      lines := AddLexeme(lines, i, Lexeme(0, index));
      if !nextLine {
        return;
      }
      i := i + 1;
    }
    StringAfter(code, step, tb, S0, n, State(InString(q), i, index, lines, tokens, toks), q);
    n := n + 1;
  }

  /** After `n` steps from `S0` the C++ is at `S`, inside the loop over
      the characters of a line, before its end. */
  predicate InLineAfter(code: seq<Text>, step: HashStep, tb: Tables, S0: State, n: nat, S: State) {
    && Valid(code, S0) && Steps(code, step, tb, S0, n) == Success(S)
    && Valid(code, S) && S.mode == Normal && S.index < |code[S.i]|
  }

  /** Lines 32-36: whitespace is one lexeme. */
  lemma WhitespaceStep(code: seq<Text>, step: HashStep, tb: Tables, S0: State, n: nat, S: State)
    requires InLineAfter(code, step, tb, S0, n, S)
    requires WhitespaceEnd(code[S.i], S.index) != S.index
    ensures Steps(code, step, tb, S0, n + 1) == Success(Lex(S, WhitespaceEnd(code[S.i], S.index)))
  {
    StepsThen(code, step, tb, S0, n, S);
  }

  /** Lines 39-48: a number is one token. */
  lemma NumberStep(code: seq<Text>, step: HashStep, tb: Tables, S0: State, n: nat, S: State)
    requires InLineAfter(code, step, tb, S0, n, S)
    requires WhitespaceEnd(code[S.i], S.index) == S.index
    requires NumberScan(code[S.i], S.index, Integer).end != S.index
    ensures var num := NumberScan(code[S.i], S.index, Integer);
      Steps(code, step, tb, S0, n + 1) == Success(Emit(S, num.end, NumberTok(num.out)))
  {
    StepsThen(code, step, tb, S0, n, S);
  }

  /** Lines 51-116: a comment, or a slash that starts none, is what
      `CommentStep` makes of it. */
  lemma CommentStepAfter(code: seq<Text>, step: HashStep, tb: Tables, S0: State, n: nat, S: State)
    requires InLineAfter(code, step, tb, S0, n, S)
    requires WhitespaceEnd(code[S.i], S.index) == S.index
    requires NumberScan(code[S.i], S.index, Integer).end == S.index
    requires CommentScan(code[S.i], S.index, CaseNone).end != S.index
    ensures Steps(code, step, tb, S0, n + 1) == Success(CommentStep(S, CommentScan(code[S.i], S.index, CaseNone)))
  {
    StepsThen(code, step, tb, S0, n, S);
  }

  /** Lines 119-148: a double-quoted string is what `OpenString` makes of it. */
  lemma DoubleQuoteStep(code: seq<Text>, step: HashStep, tb: Tables, S0: State, n: nat, S: State)
    requires InLineAfter(code, step, tb, S0, n, S)
    requires WhitespaceEnd(code[S.i], S.index) == S.index
    requires NumberScan(code[S.i], S.index, Integer).end == S.index
    requires CommentScan(code[S.i], S.index, CaseNone).end == S.index
    requires QuotedScan(code[S.i], S.index, Double, false).end != S.index
    ensures Steps(code, step, tb, S0, n + 1) == Success(OpenString(S, Double, QuotedScan(code[S.i], S.index, Double, false)))
  {
    StepsThen(code, step, tb, S0, n, S);
  }

  /** Lines 151-179: a single-quoted string is what `OpenString` makes of it. */
  lemma SingleQuoteStep(code: seq<Text>, step: HashStep, tb: Tables, S0: State, n: nat, S: State)
    requires InLineAfter(code, step, tb, S0, n, S)
    requires WhitespaceEnd(code[S.i], S.index) == S.index
    requires NumberScan(code[S.i], S.index, Integer).end == S.index
    requires CommentScan(code[S.i], S.index, CaseNone).end == S.index
    requires QuotedScan(code[S.i], S.index, Double, false).end == S.index
    requires QuotedScan(code[S.i], S.index, Single, false).end != S.index
    ensures Steps(code, step, tb, S0, n + 1) == Success(OpenString(S, Single, QuotedScan(code[S.i], S.index, Single, false)))
  {
    StepsThen(code, step, tb, S0, n, S);
  }

  /** None of the sub-scanners of lines 32-179 advances at `S`. */
  predicate NoneBeforeOperator(code: seq<Text>, S: State)
    requires S.i < |code| && S.index <= |code[S.i]|
  {
    && WhitespaceEnd(code[S.i], S.index) == S.index
    && NumberScan(code[S.i], S.index, Integer).end == S.index
    && CommentScan(code[S.i], S.index, CaseNone).end == S.index
    && QuotedScan(code[S.i], S.index, Double, false).end == S.index
    && QuotedScan(code[S.i], S.index, Single, false).end == S.index
  }

  /** Lines 182-192: an operator is one token. */
  lemma OperatorStep(code: seq<Text>, step: HashStep, tb: Tables, S0: State, n: nat, S: State)
    requires InLineAfter(code, step, tb, S0, n, S) && NoneBeforeOperator(code, S)
    requires OperatorScan(code[S.i], S.index, tb.operators, Accessor).end != S.index
    ensures var op := OperatorScan(code[S.i], S.index, tb.operators, Accessor);
      Steps(code, step, tb, S0, n + 1) == Success(Emit(S, op.end, OperatorTok(op.out)))
  {
    StepsThen(code, step, tb, S0, n, S);
  }

  /** Lines 195-218: a word is one token, classified by `ClassifyWord`. */
  lemma WordStep(code: seq<Text>, step: HashStep, tb: Tables, S0: State, n: nat, S: State)
    requires InLineAfter(code, step, tb, S0, n, S) && NoneBeforeOperator(code, S)
    requires OperatorScan(code[S.i], S.index, tb.operators, Accessor).end == S.index
    requires WordEnd(code[S.i], S.index) != S.index
    ensures var l := Lexeme(S.index, WordEnd(code[S.i], S.index));
      Steps(code, step, tb, S0, n + 1) == Success(Emit(S, l.end, ClassifyWord(step, tb.keywords, code[S.i], l)))
  {
    StepsThen(code, step, tb, S0, n, S);
  }

  /** Line 221: when no sub-scanner advances, the scanner fails there. */
  lemma NoMatchStep(code: seq<Text>, step: HashStep, tb: Tables, S0: State, n: nat, S: State)
    requires InLineAfter(code, step, tb, S0, n, S) && NoneBeforeOperator(code, S)
    requires OperatorScan(code[S.i], S.index, tb.operators, Accessor).end == S.index
    requires WordEnd(code[S.i], S.index) == S.index
    ensures Steps(code, step, tb, S0, n + 1) == Failure(ScanError(S.i, S.index))
  {
    StepsThen(code, step, tb, S0, n, S);
  }

  /** Line 30: at the end of the line the loop over its characters ends. */
  lemma LineEndStep(code: seq<Text>, step: HashStep, tb: Tables, S0: State, n: nat, S: State)
    requires Valid(code, S0) && Steps(code, step, tb, S0, n) == Success(S)
    requires S.mode == Normal && S.i < |code| && S.index >= |code[S.i]|
    ensures Steps(code, step, tb, S0, n + 1) == Success(S.(mode := EndOfLine))
  {
    StepsThen(code, step, tb, S0, n, S);
  }

  /** Where the machine is when one pass of the loop over a line's
      characters is over: past the last line, at the head of that loop
      again (`more`), or at the end-of-line handling of line `i`. */
  function Resume(code: seq<Text>, i: nat, more: bool): Mode {
    if i == |code| then Flush else if more then Normal else EndOfLine
  }

  /** Lines 52-116 once scan_comment has advanced to `cm.end`: a comment
      is one lexeme, a slash that starts none an operator token, and a
      comment left open or continued takes the following lines with it.
      The machine has taken the step of `CommentStep`. */
  method ScanCommentCase(code: seq<Text>, ghost step: HashStep, ghost tb: Tables, ghost S0: State, ghost n0: nat,
                         i0: nat, index0: nat, cm: Scanned<CommentCase>,
                         lines0: seq<Line>, ghost tokens: seq<seq<Token>>, toks0: seq<Token>)
    returns (i: nat, index: nat, lines: seq<Line>, toks: seq<Token>, more: bool, ghost n: nat)
    requires Valid(code, S0) && i0 < |code| && |lines0| == |code| && index0 < cm.end <= |code[i0]|
    requires Steps(code, step, tb, S0, n0) == Success(CommentStep(State(Normal, i0, index0, lines0, tokens, toks0), cm))
    ensures i0 <= i <= |code| && |lines| == |code|
    ensures Steps(code, step, tb, S0, n) == Success(State(Resume(code, i, more), i, index, lines, tokens, toks))
    ensures i < |code| && more ==> index <= |code[i]| && (i0 < i || index0 < index)
  {
    i, index, toks, more, n := i0, cm.end, toks0, true, n0;
    lines := AddLexeme(lines0, i, Lexeme(index0, cm.end));
    if cm.out == Division {
      toks := toks + [Token(i, |lines0[i].lexemes|, OperatorTok(Divide))];
    } else if cm.out == DivisionEquals {
      toks := toks + [Token(i, |lines0[i].lexemes|, OperatorTok(DivideEquals))];
    } else if cm.out == Multiline {
      i, index, lines, n := ScanBlockComment(code, step, tb, S0, n0, i + 1, index0, lines, tokens, toks);
    } else if cm.out == SingleLineContinuation {
      i, lines, n := ScanLineComment(code, step, tb, S0, n0, i + 1, index0, lines, tokens, toks);
      index, more := index0, false;
    }
  }

  /** Lines 120-148 (and 152-179) once the scanner of the quote `q` has
      advanced to `e`: the string is one token, and when it ends in `\` it
      takes the following lines with it.  The machine has taken the step of
      `OpenString`. */
  method ScanStringCase(code: seq<Text>, ghost step: HashStep, ghost tb: Tables, ghost S0: State, ghost n0: nat,
                        q: StringType, i0: nat, index0: nat, e: nat, nextLine: bool,
                        lines0: seq<Line>, ghost tokens: seq<seq<Token>>, toks0: seq<Token>)
    returns (i: nat, index: nat, lines: seq<Line>, toks: seq<Token>, ghost n: nat)
    requires Valid(code, S0) && i0 < |code| && |lines0| == |code| && index0 < e <= |code[i0]|
    requires Steps(code, step, tb, S0, n0) == Success(OpenString(State(Normal, i0, index0, lines0, tokens, toks0), q, Scanned(e, nextLine)))
    ensures i0 <= i <= |code| && |lines| == |code|
    ensures Steps(code, step, tb, S0, n) == Success(State(Resume(code, i, true), i, index, lines, tokens, toks))
    ensures i < |code| ==> index <= |code[i]| && (i0 < i || index0 < index)
  {
    i, n := i0, n0;
    toks := toks0 + [Token(i, |lines0[i].lexemes|, StringTok(q))];
    lines := AddLexeme(lines0, i, Lexeme(index0, e));
    index := e;
    if nextLine {
      i, index, lines, toks, n := ScanStringLines(code, step, tb, S0, n0, q, i + 1, index, lines, tokens, toks);
    }
  }

  /** Lines 118-221: the string scanners, then the operator scanner, then
      the word scanner, and the error when none of them advances. */
  method ScanOther(code: seq<Text>, step: HashStep, operators: seq<Operator>, keywords: map<U32, Keyword>,
                   ghost S0: State, ghost n0: nat,
                   i0: nat, index0: nat, lines0: seq<Line>, ghost tokens: seq<seq<Token>>, toks0: seq<Token>)
    returns (i: nat, index: nat, lines: seq<Line>, toks: seq<Token>, err: Option<ScanError>, ghost n: nat)
    requires InLineAfter(code, step, Tables(operators, keywords), S0, n0, State(Normal, i0, index0, lines0, tokens, toks0))
    requires WhitespaceEnd(code[i0], index0) == index0
    requires NumberScan(code[i0], index0, Integer).end == index0
    requires CommentScan(code[i0], index0, CaseNone).end == index0
    ensures i0 <= i <= |code| && |lines| == |code|
    ensures err.Some? ==> Steps(code, step, Tables(operators, keywords), S0, n) == Failure(err.value)
    ensures err.None? ==> Steps(code, step, Tables(operators, keywords), S0, n) == Success(State(Resume(code, i, true), i, index, lines, tokens, toks))
    ensures err.None? && i < |code| ==> index <= |code[i]| && (i0 < i || index0 < index)
  {
    ghost var tb := Tables(operators, keywords);
    ghost var S := State(Normal, i0, index0, lines0, tokens, toks0);
    var s := code[i0];
    i, index, lines, toks, err, n := i0, index0, lines0, toks0, None, n0 + 1;
    // Double quote string literal
    var nextLine := false;
    var newIndex;
    newIndex, nextLine := ScanQuoted(s, index, Double, nextLine);
    if newIndex != index {
      DoubleQuoteStep(code, step, tb, S0, n0, S);
      i, index, lines, toks, n := ScanStringCase(code, step, tb, S0, n, Double, i, index, newIndex, nextLine, lines, tokens, toks);
      return;
    }
    // Single quote string literal
    newIndex, nextLine := ScanQuoted(s, index, Single, nextLine);
    if newIndex != index {
      SingleQuoteStep(code, step, tb, S0, n0, S);
      i, index, lines, toks, n := ScanStringCase(code, step, tb, S0, n, Single, i, index, newIndex, nextLine, lines, tokens, toks);
      return;
    }
    // Operators
    var op;
    newIndex, op := ScanOperator(s, index, operators, Accessor);
    if newIndex != index {
      OperatorStep(code, step, tb, S0, n0, S);
      toks := toks + [Token(i, |lines[i].lexemes|, OperatorTok(op))];
      lines := AddLexeme(lines, i, Lexeme(index, newIndex));
      index := newIndex;
      return;
    }
    // Words
    newIndex := ScanWord(s, index);
    if newIndex != index {
      WordStep(code, step, tb, S0, n0, S);
      var lex := Lexeme(index, newIndex);
      var hash := HashText(step, s, lex);
      var kind := WordTok(hash);
      if hash in keywords {
        if MatchText(s, lex, keywords[hash].text) {
          kind := KeywordTok(keywords[hash].kind);
        }
      }
      toks := toks + [Token(i, |lines[i].lexemes|, kind)];
      lines := AddLexeme(lines, i, lex);
      index := newIndex;
      return;
    }
    // The throw of line 221
    NoMatchStep(code, step, tb, S0, n0, S);
    err := Some(ScanError(i, index));
  }

  /** One pass of the loop over a line's characters (lines 31-222): the
      whitespace and number scanners, then the comment scanner, then the
      others. */
  method ScanToken(code: seq<Text>, step: HashStep, operators: seq<Operator>, keywords: map<U32, Keyword>,
                   ghost S0: State, ghost n0: nat,
                   i0: nat, index0: nat, lines0: seq<Line>, ghost tokens: seq<seq<Token>>, toks0: seq<Token>)
    returns (i: nat, index: nat, lines: seq<Line>, toks: seq<Token>, err: Option<ScanError>, more: bool, ghost n: nat)
    requires InLineAfter(code, step, Tables(operators, keywords), S0, n0, State(Normal, i0, index0, lines0, tokens, toks0))
    ensures i0 <= i <= |code| && |lines| == |code|
    ensures err.Some? ==> Steps(code, step, Tables(operators, keywords), S0, n) == Failure(err.value)
    ensures err.None? ==> Steps(code, step, Tables(operators, keywords), S0, n) == Success(State(Resume(code, i, more), i, index, lines, tokens, toks))
    ensures err.None? && i < |code| && more ==> index <= |code[i]| && (i0 < i || index0 < index)
  {
    ghost var tb := Tables(operators, keywords);
    ghost var S := State(Normal, i0, index0, lines0, tokens, toks0);
    var s := code[i0];
    i, index, lines, toks, err, more, n := i0, index0, lines0, toks0, None, true, n0 + 1;
    // Whitespace
    var newIndex := ScanWhitespace(s, index);
    if newIndex != index {
      WhitespaceStep(code, step, tb, S0, n0, S);
      lines := AddLexeme(lines, i, Lexeme(index, newIndex));
      index := newIndex;
      return;
    }
    // Numbers
    var num;
    newIndex, num := ScanNumber(s, index, Integer);
    if newIndex != index {
      NumberStep(code, step, tb, S0, n0, S);
      toks := toks + [Token(i, |lines[i].lexemes|, NumberTok(num))];
      lines := AddLexeme(lines, i, Lexeme(index, newIndex));
      index := newIndex;
      return;
    }
    // Comments
    var cm := CommentScan(s, index, CaseNone);
    if cm.end != index {
      CommentStepAfter(code, step, tb, S0, n0, S);
      i, index, lines, toks, more, n := ScanCommentCase(code, step, tb, S0, n, i, index, cm, lines, tokens, toks);
      return;
    }
    i, index, lines, toks, err, n := ScanOther(code, step, operators, keywords, S0, n0, i, index, lines, tokens, toks);
  }

  /** Lines 26-223: line `i0` from its start, through the loop over its
      characters, which a comment or a string may carry on to later lines.
      On return the machine is at the end-of-line handling of line `i`, or
      past the last line when `i == |code|`, or `err` is the error of line
      221; the machine, `n0` steps from `S0` at the start of line `i0`, is
      there `n` steps from `S0`. */
  method ScanLine(code: seq<Text>, step: HashStep, operators: seq<Operator>, keywords: map<U32, Keyword>,
                  ghost S0: State, ghost n0: nat,
                  i0: nat, ghost index0: nat, lines0: seq<Line>, ghost tokens: seq<seq<Token>>, toks0: seq<Token>)
    returns (i: nat, index: nat, lines: seq<Line>, toks: seq<Token>, err: Option<ScanError>, ghost n: nat)
    requires i0 < |code| && Valid(code, S0)
    requires Steps(code, step, Tables(operators, keywords), S0, n0) == Success(State(LineStart, i0, index0, lines0, tokens, toks0))
    ensures i0 <= i <= |code| && |lines| == |code|
    ensures Steps(code, step, Tables(operators, keywords), S0, n)
         == if err.Some? then Failure(err.value)
            else Success(State(if i == |code| then Flush else EndOfLine, i, index, lines, tokens, toks))
  {
    ghost var tb := Tables(operators, keywords);
    LineStartAfter(code, step, tb, S0, n0, State(LineStart, i0, index0, lines0, tokens, toks0));
    n := n0 + 1;
    i, toks, err := i0, toks0, None;
    lines := SetText(lines0, i, code[i]);
    index := 0;
    while index < |code[i]|
      invariant i0 <= i < |code| && |lines| == |code| && index <= |code[i]| && err.None?
      invariant Steps(code, step, tb, S0, n) == Success(State(Normal, i, index, lines, tokens, toks))
      decreases |code| - i, |code[i]| - index
    {
      var more;
      i, index, lines, toks, err, more, n := ScanToken(code, step, operators, keywords, S0, n, i, index, lines, tokens, toks);
      if err.Some? || i == |code| || !more {
        return;
      }
    }
    LineEndStep(code, step, tb, S0, n, State(Normal, i, index, lines, tokens, toks));
    n := n + 1;
  }

  /** Lines 21-249, with the operator hierarchy and the keyword table that
      lines 19-20 build. */
  method ScanWith(code: seq<Text>, step: HashStep, operators: seq<Operator>, keywords: map<U32, Keyword>)
    returns (r: Result<ScannerResults, ScanError>)
    ensures r == Run(code, step, Tables(operators, keywords), Init(code))
  {
    ghost var tb := Tables(operators, keywords);
    ghost var S0 := Init(code);
    var lines := seq(|code|, _ => Line([], []));
    var tokens: seq<seq<Token>> := [];
    var toks: seq<Token> := [];
    assert lines == S0.lines;
    ghost var index := 0;
    ghost var n := 0;
    var i := 0;
    while i < |code|
      invariant i <= |code| && |lines| == |code|
      invariant Steps(code, step, tb, S0, n) == Success(State(LineStart, i, index, lines, tokens, toks))
      decreases |code| - i
    {
      var err;
      i, index, lines, toks, err, n := ScanLine(code, step, operators, keywords, S0, n, i, index, lines, tokens, toks);
      if err.Some? {
        r := Failure(err.value);
        RunAfter(code, step, tb, S0, n);
        return;
      }
      if i == |code| {
        // A comment or a string ran past the last line.
        break;
      }
      // Mark end of line
      EndOfLineAfter(code, step, tb, S0, n, State(EndOfLine, i, index, lines, tokens, toks));
      n := n + 1;
      if |toks| != 0 {
        var last := toks[|toks| - 1];
        if last.kind == OperatorTok(BackSlash) && last.lexeme + 1 == |lines[i].lexemes| {
          toks := toks[..|toks| - 1];
        } else if last.kind != EolTok {
          toks := toks + [Token(i, 0, EolTok)];
          tokens := tokens + [toks];
          toks := [];
        }
      }
      i := i + 1;
    }
    ghost var last := Steps(code, step, tb, S0, n).value;
    RunAfter(code, step, tb, S0, n);
    assert Run(code, step, tb, last) == Success(FlushResults(last));
    // Check for unpushed line
    if |toks| != 0 {
      toks := toks + [Token(|lines|, 0, EolTok)];
      tokens := tokens + [toks];
      toks := [];
    }
    r := Success(ScannerResults(lines, tokens));
  }

  /** scan (lines 14-250): what it returns is what the machine computes,
      and so it has the properties proved of the machine. */
  method Scan(code: seq<Text>, step: HashStep) returns (r: Result<ScannerResults, ScanError>)
    ensures r == ScanSpec(code, step)
    ensures r.Success? ==> ResultsOk(code, step, BuildTables(step), r.value)
    ensures r.Failure? ==> ErrorOk(code, r.error)
  {
    var operators := BuildOperatorHierarchy();
    var keywords := BuildKeywords(step);
    r := ScanWith(code, step, operators, keywords);
    ScanIsSound(code, step);
  }
}
