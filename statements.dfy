/// How lexemes, tokens and statements correspond in what `scan` returns
/// (src/Scanner.cpp, lines 30-248): which lexemes carry a token, where each
/// statement's EOL is numbered, and that no lexeme carries two tokens.
module StatementProperties {
  import opened Chars
  import opened Wrappers
  import opened Tokens
  import opened Whitespace
  import opened Comments
  import opened Words
  import opened Driver
  import opened ScanProperties

  /** A lexeme that the loop over a line's characters records without a
      token: a run of whitespace, or a comment opened by `//` or by a slash
      and a star. */
  predicate Silent(s: Text, l: Lexeme)
    requires l.begin < l.end <= |s|
  {
    || (forall k :: l.begin <= k < l.end ==> IsWhitespace(s[k]))
    || (l.begin + 1 < |s| && s[l.begin] == Slash && (s[l.begin + 1] == Slash || s[l.begin + 1] == Star))
  }

  /** One pass of the loop over a line's characters that consumes text
      records exactly one lexeme, `[index, e)` for some `e > index`, and
      closes no statement. */
  lemma NormalStepLexemes(code: seq<Text>, step: HashStep, tb: Tables, S: State)
    requires Valid(code, S) && S.mode == Normal && S.index < |code[S.i]|
    ensures StepNormal(code, step, tb, S).Success? ==>
      var R := StepNormal(code, step, tb, S).value;
      var n := |S.lines[S.i].lexemes|;
      && R.tokens == S.tokens
      && |R.lines| == |S.lines|
      && |R.lines[S.i].lexemes| == n + 1
      && R.lines[S.i].lexemes[..n] == S.lines[S.i].lexemes
      && R.lines[S.i].lexemes[n].begin == S.index < R.lines[S.i].lexemes[n].end <= |code[S.i]|
  {
    var s := code[S.i];
    var index := S.index;
    var ws := WhitespaceEnd(s, index);
    if ws == index {
      var cm := CommentScan(s, index, CaseNone);
      if cm.end != index {
        assert CommentStep(S, cm).lines[S.i].lexemes
            == S.lines[S.i].lexemes + [Lexeme(index, cm.end)];
      }
    } else {
      assert Lex(S, ws).lines[S.i].lexemes == S.lines[S.i].lexemes + [Lexeme(index, ws)];
    }
  }

  /** The lexeme that pass records carries a token exactly when it is
      neither whitespace nor a comment; the token is appended to the
      pending statement and names that lexeme of the current line. */
  lemma NormalStepTokens(code: seq<Text>, step: HashStep, tb: Tables, S: State)
    requires Valid(code, S) && S.mode == Normal && S.index < |code[S.i]|
    ensures StepNormal(code, step, tb, S).Success? ==>
      var R := StepNormal(code, step, tb, S).value;
      var n := |S.lines[S.i].lexemes|;
      && n < |R.lines[S.i].lexemes|
      && S.index < R.lines[S.i].lexemes[n].end <= |code[S.i]|
      && (R.toks == S.toks <==> Silent(code[S.i], Lexeme(S.index, R.lines[S.i].lexemes[n].end)))
      && (R.toks != S.toks ==>
            && |R.toks| == |S.toks| + 1 && R.toks[..|S.toks|] == S.toks
            && R.toks[|S.toks|].lineNumber == S.i && R.toks[|S.toks|].lexeme == n)
  {
    NormalStepLexemes(code, step, tb, S);
    var s := code[S.i];
    var index := S.index;
    var ws := WhitespaceEnd(s, index);
    if ws == index {
      assert !IsWhitespace(s[index]);
      var cm := CommentScan(s, index, CaseNone);
      if cm.end == index {
        assert s[index] != Slash;
      }
    }
  }

  /** The EOL of `st` is numbered below `n`. */
  predicate EndsBefore(st: seq<Token>, n: nat) {
    |st| > 0 && st[|st| - 1].kind == EolTok && st[|st| - 1].lineNumber < n
  }

  /** One step closes at most one statement: only the end-of-line handling
      of a line with tokens pending does, with the EOL of that line; a line
      with nothing pending emits nothing. */
  lemma StepStatements(code: seq<Text>, step: HashStep, tb: Tables, S: State)
    requires Valid(code, S) && S.mode != Flush
    ensures Step(code, step, tb, S).Success? ==>
      var R := Step(code, step, tb, S).value;
      || R.tokens == S.tokens
      || (&& S.mode == EndOfLine && |S.toks| > 0 && R.toks == []
          && R.tokens == S.tokens + [S.toks + [Token(S.i, 0, EolTok)]])
    ensures S.mode == EndOfLine && |S.toks| == 0 ==> Step(code, step, tb, S).value.tokens == S.tokens
  {
    match S.mode
    case LineStart =>
    case Normal =>
      if S.index < |code[S.i]| {
        NormalStepLexemes(code, step, tb, S);
      }
    case InBlockComment =>
    case InLineComment =>
    case InString(q) =>
    case EndOfLine =>
  }

  /** From any valid state, the statements the machine goes on to close
      are appended to those already closed; each one's EOL is numbered by a
      line of the input, except the EOL of the final flush, which closes the
      last statement and is numbered `|code|`. */
  lemma {:induction false} RunStatements(code: seq<Text>, step: HashStep, tb: Tables, S: State)
    requires Valid(code, S)
    ensures Run(code, step, tb, S).Success? ==>
      var res := Run(code, step, tb, S).value;
      && |S.tokens| <= |res.tokens|
      && res.tokens[..|S.tokens|] == S.tokens
      && forall j :: |S.tokens| <= j < |res.tokens| ==>
           || EndsBefore(res.tokens[j], |code|)
           || (j == |res.tokens| - 1 && |res.tokens[j]| > 0 && res.tokens[j][|res.tokens[j]| - 1] == Token(|code|, 0, EolTok))
    decreases LinesLeft(code, S), Rank(S.mode), CharsLeft(code, S)
  {
    if S.mode != Flush {
      StepStatements(code, step, tb, S);
      match Step(code, step, tb, S)
      case Failure(_) =>
      case Success(S') =>
        RunStatements(code, step, tb, S');
        if S'.tokens != S.tokens && Run(code, step, tb, S').Success? {
          var res := Run(code, step, tb, S').value;
          assert res.tokens[|S.tokens|] == S'.tokens[|S.tokens|];
          assert EndsBefore(S'.tokens[|S.tokens|], |code|);
        }
    }
  }

  /** The statements of a scan: each EOL is numbered by the line at whose
      end it was pushed, except that the last statement may be closed by
      the flush's EOL numbered `|code|`, one past the last line. */
  lemma ScanStatementLines(code: seq<Text>, step: HashStep)
    ensures ScanSpec(code, step).Success? ==>
      var res := ScanSpec(code, step).value;
      forall j :: 0 <= j < |res.tokens| ==>
        || EndsBefore(res.tokens[j], |code|)
        || (j == |res.tokens| - 1 && |res.tokens[j]| > 0 && res.tokens[j][|res.tokens[j]| - 1] == Token(|code|, 0, EolTok))
  {
    var S0 := Init(code);
    assert Valid(code, S0);
    RunStatements(code, step, BuildTables(step), S0);
  }

  /** Read in order, a successful scan's tokens name each lexeme at most
      once, and no two EOLs share a line: every line's end closes at most
      one statement. */
  lemma ScanTokensDistinct(code: seq<Text>, step: HashStep)
    ensures ScanSpec(code, step).Success? ==>
      var ts := Flatten(ScanSpec(code, step).value.tokens);
      && (forall a, b :: 0 <= a < b < |ts| && !ts[a].kind.EolTok? && !ts[b].kind.EolTok? ==>
            (ts[a].lineNumber, ts[a].lexeme) != (ts[b].lineNumber, ts[b].lexeme))
      && (forall a, b :: 0 <= a < b < |ts| && ts[a].kind.EolTok? && ts[b].kind.EolTok? ==>
            ts[a].lineNumber < ts[b].lineNumber)
  {
    ScanIsSound(code, step);
    if ScanSpec(code, step).Success? {
      InOrderSorted(Flatten(ScanSpec(code, step).value.tokens));
    }
  }
}
