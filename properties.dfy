/// What `scan` guarantees about its results, proved over the state machine
/// of module Driver: every line is cut into lexemes that cover it exactly,
/// every token names one of those lexemes and its type agrees with the
/// text the lexeme spans, the statements each end in exactly one EOL, the
/// tokens come out in source order, and the only character the scanner
/// rejects is `$`.
module ScanProperties {
  import opened Chars
  import opened Wrappers
  import opened Tokens
  import opened Whitespace
  import opened Numbers
  import opened Comments
  import opened Strings
  import opened Operators
  import opened Words
  import opened Driver

  /** `ls` are non-empty spans, each starting where the previous one ends,
      that together cover `[0, end)`: the last one ends at `end`, and the
      others cover the text before it. */
  predicate Tiles(ls: seq<Lexeme>, end: nat)
    decreases |ls|
  {
    if |ls| == 0 then end == 0
    else
      var last := ls[|ls| - 1];
      last.begin < last.end == end && Tiles(ls[..|ls| - 1], last.begin)
  }

  lemma TilesSnoc(ls: seq<Lexeme>, b: nat, e: nat)
    requires Tiles(ls, b) && b < e
    ensures Tiles(ls + [Lexeme(b, e)], e)
  {
    assert (ls + [Lexeme(b, e)])[..|ls|] == ls;
  }

  /** The tiling stated span by span: the first lexeme starts the line,
      every one is non-empty and lies within it, and each one starts where
      the one before it ends. */
  lemma {:induction false} TilesSpans(ls: seq<Lexeme>, end: nat)
    requires Tiles(ls, end)
    ensures |ls| == 0 <==> end == 0
    ensures |ls| > 0 ==> ls[0].begin == 0 && ls[|ls| - 1].end == end
    ensures forall k :: 0 <= k < |ls| ==> ls[k].begin < ls[k].end <= end
    ensures forall k :: 0 < k < |ls| ==> ls[k - 1].end == ls[k].begin
    decreases |ls|
  {
    if |ls| > 0 {
      var init := ls[..|ls| - 1];
      TilesSpans(init, ls[|ls| - 1].begin);
      assert forall k :: 0 <= k < |init| ==> init[k] == ls[k];
    }
  }

  /** The text of a word lexeme: a maximal run of word characters that does
      not start with a digit, classified by the keyword table. */
  predicate WordFits(step: HashStep, tb: Tables, s: Text, l: Lexeme, kind: TokenKind)
    requires l.begin < l.end <= |s|
  {
    !IsDecimalDigit(s[l.begin]) && l.end == WordEnd(s, l.begin)
    && kind == ClassifyWord(step, tb.keywords, s, l)
  }

  /** The token type `kind` agrees with the text that `l` spans on line `s`. */
  predicate KindFits(step: HashStep, tb: Tables, s: Text, l: Lexeme, kind: TokenKind)
    requires l.begin < l.end <= |s|
  {
    match kind
    case EolTok => false
    // a number literal of type `n`, all of it
    case NumberTok(n) => IsDecimalDigit(s[l.begin]) && NumberScan(s, l.begin, Integer) == Scanned(l.end, n)
    // the operator's spelling
    case OperatorTok(op) => SpellsOperator(op, LexemeText(s, l))
    // a quoted string from its opening quote, or the part of a continued
    // string that precedes its closing quote
    case StringTok(q) =>
      || (s[l.begin] == QuoteChar(q) && QuotedScan(s, l.begin, q, false).end == l.end)
      || (l.begin == 0 && EndQuoteScan(s, q).end == l.end)
    case KeywordTok(_) => WordFits(step, tb, s, l, kind)
    case WordTok(_) => WordFits(step, tb, s, l, kind)
  }

  /** `t` classifies an existing lexeme of its line. */
  predicate TokenOk(code: seq<Text>, step: HashStep, tb: Tables, lines: seq<Line>, t: Token) {
    && t.lineNumber < |code|
    && t.lineNumber < |lines|
    && t.lexeme < |lines[t.lineNumber].lexemes|
    && var l := lines[t.lineNumber].lexemes[t.lexeme];
       l.begin < l.end <= |code[t.lineNumber]| && KindFits(step, tb, code[t.lineNumber], l, t.kind)
  }

  /** A statement: at least one classified token, then one EOL. */
  predicate StatementOk(code: seq<Text>, step: HashStep, tb: Tables, lines: seq<Line>, st: seq<Token>) {
    && |st| >= 2
    && st[|st| - 1].kind == EolTok
    && st[|st| - 1].lexeme == 0
    && st[|st| - 1].lineNumber <= |code|
    && forall k :: 0 <= k < |st| - 1 ==> TokenOk(code, step, tb, lines, st[k])
  }

  /** Source order: by line, then by lexeme, an EOL after every token of its line. */
  predicate Precedes(a: Token, b: Token) {
    || a.lineNumber < b.lineNumber
    || (a.lineNumber == b.lineNumber && !a.kind.EolTok? && (b.kind.EolTok? || a.lexeme < b.lexeme))
  }

  /** Each token precedes the next. */
  predicate InOrder(ts: seq<Token>)
    decreases |ts|
  {
    |ts| <= 1 || (Precedes(ts[|ts| - 2], ts[|ts| - 1]) && InOrder(ts[..|ts| - 1]))
  }

  lemma PrecedesTransitive(a: Token, b: Token, c: Token)
    requires Precedes(a, b) && Precedes(b, c)
    ensures Precedes(a, c)
  {
  }

  /** Tokens in order are sorted: every token precedes every later one. */
  lemma {:induction false} InOrderSorted(ts: seq<Token>)
    requires InOrder(ts)
    ensures forall i, j :: 0 <= i < j < |ts| ==> Precedes(ts[i], ts[j])
    decreases |ts|
  {
    if |ts| > 1 {
      var init := ts[..|ts| - 1];
      InOrderSorted(init);
      forall i, j | 0 <= i < j < |ts|
        ensures Precedes(ts[i], ts[j])
      {
        if j < |ts| - 1 {
          assert init[i] == ts[i] && init[j] == ts[j];
        } else if i < |ts| - 2 {
          assert init[i] == ts[i] && init[|ts| - 2] == ts[|ts| - 2];
          PrecedesTransitive(ts[i], ts[|ts| - 2], ts[j]);
        }
      }
    }
  }

  /** The statements read one after the other. */
  function Flatten(tss: seq<seq<Token>>): seq<Token>
    decreases |tss|
  {
    if tss == [] then [] else Flatten(tss[..|tss| - 1]) + tss[|tss| - 1]
  }

  lemma FlattenSnoc(tss: seq<seq<Token>>, st: seq<Token>)
    ensures Flatten(tss + [st]) == Flatten(tss) + st
  {
    assert (tss + [st])[..|tss|] == tss;
  }

  /** Every line keeps its text and is cut into lexemes that cover it. */
  predicate LinesCut(code: seq<Text>, lines: seq<Line>) {
    && |lines| == |code|
    && forall k :: 0 <= k < |code| ==> lines[k].text == code[k] && Tiles(lines[k].lexemes, |code[k]|)
  }

  /** Statements of classified tokens, each closed by one EOL, in source order. */
  predicate StatementsOk(code: seq<Text>, step: HashStep, tb: Tables, res: ScannerResults) {
    && (forall j :: 0 <= j < |res.tokens| ==> StatementOk(code, step, tb, res.lines, res.tokens[j]))
    && InOrder(Flatten(res.tokens))
  }

  /** What a successful scan returns. */
  predicate ResultsOk(code: seq<Text>, step: HashStep, tb: Tables, res: ScannerResults) {
    LinesCut(code, res.lines) && StatementsOk(code, step, tb, res)
  }

  /** The scanner gives up only at a `$`. */
  predicate ErrorOk(code: seq<Text>, e: ScanError) {
    e.line < |code| && e.offset < |code[e.line]| && code[e.line][e.offset] == Dollar
  }

  // ---------------------------------------------------------------------
  // The invariant of the state machine

  /** The lines whose text has been copied. */
  function Front(S: State): nat {
    if S.mode == Normal || S.mode == EndOfLine then S.i + 1 else S.i
  }

  /** How far line `k` has been cut into lexemes. */
  function Covered(code: seq<Text>, S: State, k: nat): nat
    requires Valid(code, S) && k < |code|
  {
    if k < S.i then |code[k]|
    else if k == S.i && S.mode == Normal then S.index
    else if k == S.i && S.mode == EndOfLine then |code[k]|
    else 0
  }

  predicate LinesOk(code: seq<Text>, S: State)
    requires Valid(code, S)
  {
    forall k :: 0 <= k < |code| ==>
      && S.lines[k].text == (if k < Front(S) then code[k] else [])
      && Tiles(S.lines[k].lexemes, Covered(code, S, k))
  }

  /** Every token of `ts` classifies an existing lexeme (stated one token
      at a time, from the last, so that a proof unfolds only the tokens it
      looks at; `TokensOkAt` reads off any one of them). */
  predicate TokensOk(code: seq<Text>, step: HashStep, tb: Tables, lines: seq<Line>, ts: seq<Token>)
    decreases |ts|
  {
    |ts| == 0 || (TokensOk(code, step, tb, lines, ts[..|ts| - 1]) && TokenOk(code, step, tb, lines, ts[|ts| - 1]))
  }

  /** `st` is a statement: classified tokens, then one EOL. */
  predicate Closed(code: seq<Text>, step: HashStep, tb: Tables, lines: seq<Line>, st: seq<Token>) {
    && |st| >= 2
    && st[|st| - 1].kind == EolTok
    && st[|st| - 1].lexeme == 0
    && st[|st| - 1].lineNumber <= |code|
    && TokensOk(code, step, tb, lines, st[..|st| - 1])
  }

  /** Each of `tss` is a statement. */
  predicate AllClosed(code: seq<Text>, step: HashStep, tb: Tables, lines: seq<Line>, tss: seq<seq<Token>>)
    decreases |tss|
  {
    |tss| == 0 || (AllClosed(code, step, tb, lines, tss[..|tss| - 1]) && Closed(code, step, tb, lines, tss[|tss| - 1]))
  }

  predicate Classified(code: seq<Text>, step: HashStep, tb: Tables, lines: seq<Line>, tokens: seq<seq<Token>>, toks: seq<Token>) {
    AllClosed(code, step, tb, lines, tokens) && TokensOk(code, step, tb, lines, toks)
  }

  /** Every token so far, in the order emitted. */
  function Emitted(S: State): seq<Token> {
    Flatten(S.tokens) + S.toks
  }

  /** `t` lies before the point the scanner has reached. */
  predicate PendingBefore(S: State, t: Token) {
    || t.lineNumber < S.i
    || (t.lineNumber == S.i && S.i < |S.lines| && !t.kind.EolTok? && t.lexeme < |S.lines[S.i].lexemes|)
  }

  predicate Ordered(S: State) {
    && InOrder(Emitted(S))
    && (|Emitted(S)| > 0 ==> PendingBefore(S, Emitted(S)[|Emitted(S)| - 1]))
  }

  predicate Inv(code: seq<Text>, step: HashStep, tb: Tables, S: State) {
    && Valid(code, S)
    && (S.mode == Flush ==> S.i == |code|)
    && LinesOk(code, S)
    && Classified(code, step, tb, S.lines, S.tokens, S.toks)
    && Ordered(S)
  }

  // ---------------------------------------------------------------------
  // Growing lines keep tokens valid

  /** Every line keeps its lexemes and may gain more. */
  predicate Extends(lines: seq<Line>, lines': seq<Line>) {
    |lines| == |lines'| && forall k :: 0 <= k < |lines| ==> lines[k].lexemes <= lines'[k].lexemes
  }

  lemma TokenOkExtends(code: seq<Text>, step: HashStep, tb: Tables, lines: seq<Line>, lines': seq<Line>, t: Token)
    requires TokenOk(code, step, tb, lines, t) && Extends(lines, lines')
    ensures TokenOk(code, step, tb, lines', t)
  {
    assert lines'[t.lineNumber].lexemes[t.lexeme] == lines[t.lineNumber].lexemes[t.lexeme];
  }

  lemma {:induction false} TokensOkExtends(code: seq<Text>, step: HashStep, tb: Tables, lines: seq<Line>, lines': seq<Line>, ts: seq<Token>)
    requires TokensOk(code, step, tb, lines, ts) && Extends(lines, lines')
    ensures TokensOk(code, step, tb, lines', ts)
    decreases |ts|
  {
    if |ts| > 0 {
      TokensOkExtends(code, step, tb, lines, lines', ts[..|ts| - 1]);
      TokenOkExtends(code, step, tb, lines, lines', ts[|ts| - 1]);
    }
  }

  lemma {:induction false} AllClosedExtends(code: seq<Text>, step: HashStep, tb: Tables, lines: seq<Line>, lines': seq<Line>, tss: seq<seq<Token>>)
    requires AllClosed(code, step, tb, lines, tss) && Extends(lines, lines')
    ensures AllClosed(code, step, tb, lines', tss)
    decreases |tss|
  {
    if |tss| > 0 {
      var st := tss[|tss| - 1];
      AllClosedExtends(code, step, tb, lines, lines', tss[..|tss| - 1]);
      TokensOkExtends(code, step, tb, lines, lines', st[..|st| - 1]);
    }
  }

  lemma ClassifiedExtends(code: seq<Text>, step: HashStep, tb: Tables, lines: seq<Line>, lines': seq<Line>,
                          tokens: seq<seq<Token>>, toks: seq<Token>)
    requires Classified(code, step, tb, lines, tokens, toks) && Extends(lines, lines')
    ensures Classified(code, step, tb, lines', tokens, toks)
  {
    AllClosedExtends(code, step, tb, lines, lines', tokens);
    TokensOkExtends(code, step, tb, lines, lines', toks);
  }

  lemma TokensOkSnoc(code: seq<Text>, step: HashStep, tb: Tables, lines: seq<Line>, ts: seq<Token>, t: Token)
    requires TokensOk(code, step, tb, lines, ts) && TokenOk(code, step, tb, lines, t)
    ensures TokensOk(code, step, tb, lines, ts + [t])
  {
    assert (ts + [t])[..|ts|] == ts;
  }

  /** Token `k` of `ts` classifies an existing lexeme. */
  lemma {:induction false} TokensOkAt(code: seq<Text>, step: HashStep, tb: Tables, lines: seq<Line>, ts: seq<Token>, k: nat)
    requires TokensOk(code, step, tb, lines, ts) && k < |ts|
    ensures TokenOk(code, step, tb, lines, ts[k])
    decreases |ts|
  {
    if k < |ts| - 1 {
      TokensOkAt(code, step, tb, lines, ts[..|ts| - 1], k);
      assert ts[..|ts| - 1][k] == ts[k];
    }
  }

  lemma ClosedIsStatement(code: seq<Text>, step: HashStep, tb: Tables, lines: seq<Line>, st: seq<Token>)
    requires Closed(code, step, tb, lines, st)
    ensures StatementOk(code, step, tb, lines, st)
  {
    var body := st[..|st| - 1];
    forall k | 0 <= k < |st| - 1
      ensures TokenOk(code, step, tb, lines, st[k])
    {
      TokensOkAt(code, step, tb, lines, body, k);
      assert body[k] == st[k];
    }
  }

  /** Statement `j` of `tss` is closed. */
  lemma {:induction false} AllClosedAt(code: seq<Text>, step: HashStep, tb: Tables, lines: seq<Line>, tss: seq<seq<Token>>, j: nat)
    requires AllClosed(code, step, tb, lines, tss) && j < |tss|
    ensures Closed(code, step, tb, lines, tss[j])
    decreases |tss|
  {
    if j < |tss| - 1 {
      AllClosedAt(code, step, tb, lines, tss[..|tss| - 1], j);
      assert tss[..|tss| - 1][j] == tss[j];
    }
  }

  /** The quantified form: every one of `tss` is a statement. */
  lemma AllClosedEach(code: seq<Text>, step: HashStep, tb: Tables, lines: seq<Line>, tss: seq<seq<Token>>)
    requires AllClosed(code, step, tb, lines, tss)
    ensures forall j :: 0 <= j < |tss| ==> StatementOk(code, step, tb, lines, tss[j])
  {
    forall j | 0 <= j < |tss|
      ensures StatementOk(code, step, tb, lines, tss[j])
    {
      AllClosedAt(code, step, tb, lines, tss, j);
      ClosedIsStatement(code, step, tb, lines, tss[j]);
    }
  }

  lemma AddLexemeExtends(lines: seq<Line>, k: nat, l: Lexeme)
    requires k < |lines|
    ensures Extends(lines, AddLexeme(lines, k, l))
  {
  }

  /** A line that receives its text and one first lexeme. */
  lemma FirstLexemeExtends(lines: seq<Line>, k: nat, t: Text, l: Lexeme)
    requires k < |lines|
    ensures Extends(lines, AddLexeme(SetText(lines, k, t), k, l))
  {
  }

  /** No pending token is an EOL. */
  lemma LastPendingNotEol(code: seq<Text>, step: HashStep, tb: Tables, lines: seq<Line>, toks: seq<Token>)
    requires TokensOk(code, step, tb, lines, toks) && |toks| > 0
    ensures !toks[|toks| - 1].kind.EolTok?
  {
  }

  // ---------------------------------------------------------------------
  // The order of the tokens

  lemma InOrderSnoc(ts: seq<Token>, t: Token)
    requires InOrder(ts) && (|ts| > 0 ==> Precedes(ts[|ts| - 1], t))
    ensures InOrder(ts + [t])
  {
    assert (ts + [t])[..|ts|] == ts;
  }

  /** The tokens stay, and the point the scanner has reached does not move back. */
  lemma OrderKept(S: State, S': State)
    requires Ordered(S) && S'.tokens == S.tokens && S'.toks == S.toks
    requires S.i <= S'.i && |S'.lines| == |S.lines|
    requires S'.i == S.i && S.i < |S.lines| ==> |S.lines[S.i].lexemes| <= |S'.lines[S.i].lexemes|
    ensures Ordered(S')
  {
    assert Emitted(S') == Emitted(S);
  }

  /** A token for the lexeme just added to line `S.i`. */
  lemma EmitOrdered(S: State, e: nat, kind: TokenKind)
    requires S.i < |S.lines| && Ordered(S) && !kind.EolTok?
    ensures Ordered(Emit(S, e, kind))
  {
    var S' := Emit(S, e, kind);
    var t := Token(S.i, |S.lines[S.i].lexemes|, kind);
    var E := Emitted(S);
    assert Emitted(S') == E + [t];
    assert |S'.lines[S.i].lexemes| == t.lexeme + 1;
    assert Emitted(S')[|Emitted(S')| - 1] == t;
    assert PendingBefore(S', t);
    InOrderSnoc(E, t);
  }

  /** The first lexeme of a line that no token has reached yet. */
  lemma FirstTokenOrdered(S: State, S': State, q: StringType)
    requires Ordered(S) && S.i < |S.lines|
    requires |Emitted(S)| > 0 ==> Emitted(S)[|Emitted(S)| - 1].lineNumber < S.i
    requires S'.i >= S.i && |S'.lines| == |S.lines| && S'.tokens == S.tokens
    requires S'.toks == S.toks + [Token(S.i, 0, StringTok(q))]
    requires S'.i == S.i ==> |S'.lines[S.i].lexemes| == 1
    ensures Ordered(S')
  {
    var t := Token(S.i, 0, StringTok(q));
    var E := Emitted(S);
    assert Emitted(S') == E + [t];
    InOrderSnoc(E, t);
    assert Emitted(S')[|Emitted(S')| - 1] == t;
  }

  /** Dropping the last pending token. */
  lemma PopOrdered(S: State, S': State)
    requires Ordered(S) && |S.toks| > 0
    requires S'.i == S.i + 1 && |S'.lines| == |S.lines|
    requires S'.tokens == S.tokens && S'.toks == S.toks[..|S.toks| - 1]
    ensures Ordered(S')
  {
    var E := Emitted(S);
    assert E[|E| - 1] == S.toks[|S.toks| - 1];
    assert Emitted(S') == E[..|E| - 1];
    if |E| > 1 {
      assert Precedes(E[|E| - 2], E[|E| - 1]);
      assert Emitted(S')[|Emitted(S')| - 1] == E[|E| - 2];
    }
  }

  /** Closing the pending tokens with an EOL of line `S.i`. */
  lemma CloseOrdered(S: State, S': State)
    requires Ordered(S) && |S.toks| > 0 && S.i < |S.lines|
    requires S'.i == S.i + 1 && |S'.lines| == |S.lines| && S'.toks == []
    requires S'.tokens == S.tokens + [S.toks + [Token(S.i, 0, EolTok)]]
    ensures Ordered(S')
  {
    var eol := Token(S.i, 0, EolTok);
    var E := Emitted(S);
    assert E[|E| - 1] == S.toks[|S.toks| - 1];
    FlattenSnoc(S.tokens, S.toks + [eol]);
    assert Emitted(S') == E + [eol];
    InOrderSnoc(E, eol);
    assert Emitted(S')[|Emitted(S')| - 1] == eol;
  }

  // ---------------------------------------------------------------------
  // The statements

  /** Pending tokens and an EOL make a statement. */
  lemma CloseStatement(code: seq<Text>, step: HashStep, tb: Tables, lines: seq<Line>, toks: seq<Token>, eol: Token)
    requires |toks| > 0 && TokensOk(code, step, tb, lines, toks)
    requires eol.kind == EolTok && eol.lexeme == 0 && eol.lineNumber <= |code|
    ensures Closed(code, step, tb, lines, toks + [eol])
  {
    assert (toks + [eol])[..|toks|] == toks;
  }

  lemma CloseClassified(code: seq<Text>, step: HashStep, tb: Tables, lines: seq<Line>, tokens: seq<seq<Token>>, toks: seq<Token>, i: nat)
    requires Classified(code, step, tb, lines, tokens, toks) && |toks| > 0 && i <= |code|
    ensures Classified(code, step, tb, lines, tokens + [toks + [Token(i, 0, EolTok)]], [])
  {
    var st := toks + [Token(i, 0, EolTok)];
    CloseStatement(code, step, tb, lines, toks, Token(i, 0, EolTok));
    assert (tokens + [st])[..|tokens|] == tokens;
  }

  lemma PopClassified(code: seq<Text>, step: HashStep, tb: Tables, lines: seq<Line>, tokens: seq<seq<Token>>, toks: seq<Token>)
    requires Classified(code, step, tb, lines, tokens, toks) && |toks| > 0
    ensures Classified(code, step, tb, lines, tokens, toks[..|toks| - 1])
  {
  }

  /** A token for the lexeme just added to line `S.i`. */
  lemma EmitClassified(code: seq<Text>, step: HashStep, tb: Tables, S: State, e: nat, kind: TokenKind)
    requires Classified(code, step, tb, S.lines, S.tokens, S.toks) && S.i < |code| == |S.lines|
    requires S.index < e <= |code[S.i]|
    requires KindFits(step, tb, code[S.i], Lexeme(S.index, e), kind)
    ensures Classified(code, step, tb, Emit(S, e, kind).lines, S.tokens, Emit(S, e, kind).toks)
  {
    var lines' := Emit(S, e, kind).lines;
    var t := Token(S.i, |S.lines[S.i].lexemes|, kind);
    AddLexemeExtends(S.lines, S.i, Lexeme(S.index, e));
    ClassifiedExtends(code, step, tb, S.lines, lines', S.tokens, S.toks);
    assert lines'[S.i].lexemes[t.lexeme] == Lexeme(S.index, e);
    TokensOkSnoc(code, step, tb, lines', S.toks, t);
  }

  /** The part of a continued string up to its closing quote, as lexeme 0
      of its line. */
  lemma StringPieceClassified(code: seq<Text>, step: HashStep, tb: Tables, S: State, q: StringType, lines': seq<Line>)
    requires Classified(code, step, tb, S.lines, S.tokens, S.toks) && S.i < |code| == |S.lines| && |code[S.i]| > 0
    requires S.lines[S.i].lexemes == []
    requires lines' == AddLexeme(SetText(S.lines, S.i, code[S.i]), S.i, Lexeme(0, EndQuoteScan(code[S.i], q).end))
    ensures Classified(code, step, tb, lines', S.tokens, S.toks + [Token(S.i, 0, StringTok(q))])
  {
    var t := Token(S.i, 0, StringTok(q));
    FirstLexemeExtends(S.lines, S.i, code[S.i], Lexeme(0, EndQuoteScan(code[S.i], q).end));
    ClassifiedExtends(code, step, tb, S.lines, lines', S.tokens, S.toks);
    assert lines'[S.i].lexemes == [Lexeme(0, EndQuoteScan(code[S.i], q).end)];
    TokensOkSnoc(code, step, tb, lines', S.toks, t);
  }

  // ---------------------------------------------------------------------
  // The lines

  /** Line `S.i` gains the lexeme `[S.index, e)` and scanning resumes at `e`. */
  lemma LexLines(code: seq<Text>, S: State, e: nat, S': State)
    requires Valid(code, S) && LinesOk(code, S) && S.mode == Normal && S.index < e <= |code[S.i]|
    requires S'.mode == Normal && S'.i == S.i && S'.index == e
    requires S'.lines == AddLexeme(S.lines, S.i, Lexeme(S.index, e))
    ensures Valid(code, S') && LinesOk(code, S')
  {
    TilesSnoc(S.lines[S.i].lexemes, S.index, e);
    forall k | 0 <= k < |code|
      ensures S'.lines[k].text == (if k < Front(S') then code[k] else [])
      ensures Tiles(S'.lines[k].lexemes, Covered(code, S', k))
    {
      if k != S.i {
        assert S'.lines[k] == S.lines[k];
        assert Covered(code, S', k) == Covered(code, S, k);
      }
    }
  }

  /** Leaving a line cut up to its end for one of the loops over the
      following lines. */
  lemma NextLines(code: seq<Text>, T: State, S': State)
    requires Valid(code, T) && LinesOk(code, T) && T.mode == Normal && T.index == |code[T.i]|
    requires S'.mode.InBlockComment? || S'.mode.InLineComment? || S'.mode.InString?
    requires S'.i == T.i + 1 && S'.lines == T.lines
    ensures Valid(code, S') && LinesOk(code, S')
  {
    forall k | 0 <= k < |code|
      ensures S'.lines[k].text == (if k < Front(S') then code[k] else [])
      ensures Tiles(S'.lines[k].lexemes, Covered(code, S', k))
    {
      assert Covered(code, S', k) == Covered(code, T, k);
    }
  }

  /** The mode changes, the lines and the line number stay. */
  lemma SameLines(code: seq<Text>, S: State, S': State)
    requires Valid(code, S) && LinesOk(code, S) && Valid(code, S')
    requires S'.lines == S.lines && S'.i == S.i
    requires S.mode == Normal && S'.mode == EndOfLine && S.index == |code[S.i]|
    ensures LinesOk(code, S')
  {
    forall k | 0 <= k < |code|
      ensures Covered(code, S', k) == Covered(code, S, k)
    {
    }
  }

  /** Leaving line `S.i`, cut to its end, for the next one. */
  lemma LeaveLine(code: seq<Text>, S: State, S': State)
    requires Valid(code, S) && LinesOk(code, S) && Valid(code, S')
    requires S'.lines == S.lines && S'.i == S.i + 1
    requires S.mode == EndOfLine && S'.mode == LineStart
    ensures LinesOk(code, S')
  {
    forall k | 0 <= k < |code|
      ensures Covered(code, S', k) == Covered(code, S, k)
    {
    }
  }

  /** On a line that no step has reached yet nothing has been recorded, and
      every token lies on an earlier line. */
  lemma FreshLine(code: seq<Text>, S: State)
    requires Valid(code, S) && LinesOk(code, S) && Ordered(S)
    requires S.i < |code| && S.mode != Normal && S.mode != EndOfLine
    ensures S.lines[S.i].lexemes == [] && S.lines[S.i].text == []
    ensures |Emitted(S)| > 0 ==> Emitted(S)[|Emitted(S)| - 1].lineNumber < S.i
  {
    assert Covered(code, S, S.i) == 0;
    assert Tiles(S.lines[S.i].lexemes, Covered(code, S, S.i));
  }

  /** Only line `S.i` changes, and it is copied, and the copied lines now
      reach past it. */
  lemma LinesOkAt(code: seq<Text>, S: State, S': State)
    requires Valid(code, S) && Valid(code, S') && LinesOk(code, S) && S.i < |code|
    requires Front(S) == S.i && Front(S') == S.i + 1 && S.i <= S'.i <= S.i + 1
    requires forall k :: 0 <= k < |code| && k != S.i ==> S'.lines[k] == S.lines[k]
    requires S'.lines[S.i].text == code[S.i]
    requires Tiles(S'.lines[S.i].lexemes, Covered(code, S', S.i))
    ensures LinesOk(code, S')
  {
    forall k | 0 <= k < |code| && k != S.i
      ensures Covered(code, S', k) == Covered(code, S, k)
    {
    }
  }

  /** Running past the last line. */
  lemma FlushLines(code: seq<Text>, S: State)
    requires Valid(code, S) && LinesOk(code, S) && S.i == |code|
    ensures LinesOk(code, S.(mode := Flush))
  {
    forall k | 0 <= k < |code|
      ensures Covered(code, S.(mode := Flush), k) == Covered(code, S, k)
    {
    }
  }

  lemma TilesOne(e: nat)
    requires e > 0
    ensures Tiles([Lexeme(0, e)], e)
  {
  }

  // ---------------------------------------------------------------------
  // One step keeps the invariant
  //
  // Each case lemma below is handed the state `R` the step produces,
  // together with what that state is, and shows Inv(R).

  /** One step from `S` keeps the invariant, or stops at a `$` that the
      error points to. */
  predicate StepKeeps(code: seq<Text>, step: HashStep, tb: Tables, S: State)
    requires Valid(code, S) && S.mode != Flush
  {
    match Step(code, step, tb, S)
    case Success(S') => Inv(code, step, tb, S')
    case Failure(e) => ErrorOk(code, e)
  }

  /** A lexeme without a token (whitespace, a comment). */
  lemma LexOk(code: seq<Text>, step: HashStep, tb: Tables, S: State, e: nat, R: State)
    requires Inv(code, step, tb, S) && S.mode == Normal && S.index < e <= |code[S.i]|
    requires R == Lex(S, e)
    ensures Inv(code, step, tb, R)
  {
    LexLines(code, S, e, R);
    AddLexemeExtends(S.lines, S.i, Lexeme(S.index, e));
    ClassifiedExtends(code, step, tb, S.lines, R.lines, S.tokens, S.toks);
    OrderKept(S, R);
  }

  /** A lexeme and the token that classifies it. */
  lemma EmitOk(code: seq<Text>, step: HashStep, tb: Tables, S: State, e: nat, kind: TokenKind, R: State)
    requires Inv(code, step, tb, S) && S.mode == Normal && S.index < e <= |code[S.i]|
    requires KindFits(step, tb, code[S.i], Lexeme(S.index, e), kind)
    requires R == Emit(S, e, kind)
    ensures Inv(code, step, tb, R)
  {
    LexLines(code, S, e, R);
    EmitClassified(code, step, tb, S, e, kind);
    EmitOrdered(S, e, kind);
  }

  /** A comment that runs on to the next line: the rest of the line is one
      lexeme and one of the loops over the following lines takes over. */
  lemma CommentContinueOk(code: seq<Text>, step: HashStep, tb: Tables, S: State, e: nat, m: Mode, R: State)
    requires Inv(code, step, tb, S) && S.mode == Normal && S.index < e == |code[S.i]|
    requires m == InBlockComment || m == InLineComment
    requires R == S.(mode := m, i := S.i + 1, lines := AddLexeme(S.lines, S.i, Lexeme(S.index, e)))
    ensures Inv(code, step, tb, R)
  {
    var T := Lex(S, e);
    LexLines(code, S, e, T);
    NextLines(code, T, R);
    AddLexemeExtends(S.lines, S.i, Lexeme(S.index, e));
    ClassifiedExtends(code, step, tb, S.lines, R.lines, S.tokens, S.toks);
    OrderKept(S, R);
  }

  /** A string literal that runs on to the next line: the rest of the line
      is its first piece and the loop over the following lines takes over. */
  lemma StringContinueOk(code: seq<Text>, step: HashStep, tb: Tables, S: State, e: nat, q: StringType, R: State)
    requires Inv(code, step, tb, S) && S.mode == Normal && S.index < e == |code[S.i]|
    requires KindFits(step, tb, code[S.i], Lexeme(S.index, e), StringTok(q))
    requires R == Emit(S, e, StringTok(q)).(mode := InString(q), i := S.i + 1)
    ensures Inv(code, step, tb, R)
  {
    var T := Emit(S, e, StringTok(q));
    LexLines(code, S, e, T);
    NextLines(code, T, R);
    EmitClassified(code, step, tb, S, e, StringTok(q));
    EmitOrdered(S, e, StringTok(q));
    OrderKept(T, R);
  }

  lemma OpenStringOk(code: seq<Text>, step: HashStep, tb: Tables, S: State, q: StringType, sc: Scanned<bool>, R: State)
    requires Inv(code, step, tb, S) && S.mode == Normal && S.index < |code[S.i]|
    requires sc == QuotedScan(code[S.i], S.index, q, false) && sc.end != S.index
    requires R == OpenString(S, q, sc)
    ensures Inv(code, step, tb, R)
  {
    QuotedCases(code[S.i], S.index, q);
    if sc.out {
      StringContinueOk(code, step, tb, S, sc.end, q, R);
    } else {
      EmitOk(code, step, tb, S, sc.end, StringTok(q), R);
    }
  }

  /** A string scanner that advances started at its quote, and asks for
      the next line only after consuming the whole line. */
  lemma QuotedCases(s: Text, index: nat, q: StringType)
    requires index < |s|
    ensures var sc := QuotedScan(s, index, q, false);
      && (sc.end != index ==> s[index] == QuoteChar(q) && index < sc.end <= |s|)
      && (sc.out ==> sc.end == |s|)
  {
  }

  /** Only `$` is neither whitespace, nor a digit, nor the start of a
      comment, a string, an operator or a word. */
  lemma OnlyDollarUnscannable(c: SChar)
    requires !IsWhitespace(c) && !IsDecimalDigit(c) && !IsWordChar(c)
    requires c != Slash && c != DoubleQuote && c != SingleQuote
    requires FirstWithSymbol(BuildOperatorHierarchy(), c) == |BuildOperatorHierarchy()|
    ensures c == Dollar
  {
    RootSymbols();
    assert RootPosition(c) >= |BuildOperatorHierarchy()|;
  }

  lemma RootSymbols()
    ensures forall c :: RootPosition(c) < |BuildOperatorHierarchy()| ==>
      BuildOperatorHierarchy()[RootPosition(c)].symbol == c
  {
  }

  /** What scan_comment reports after a slash, by case, when it starts from
      CaseNone. */
  lemma CommentCases(s: Text, index: nat)
    requires index < |s|
    ensures var cm := CommentScan(s, index, CaseNone);
      && (cm.end != index ==> s[index] == Slash)
      && (cm.end != index && cm.out == Division ==> cm.end == index + 1)
      && (cm.end != index && cm.out == DivisionEquals ==> cm.end == index + 2 && s[index + 1] == '=' as SChar)
      && (cm.end != index && (cm.out == Multiline || cm.out == SingleLineContinuation) ==> cm.end == |s|)
  {
  }

  lemma CommentOk(code: seq<Text>, step: HashStep, tb: Tables, S: State, cm: Scanned<CommentCase>, R: State)
    requires Inv(code, step, tb, S) && S.mode == Normal && S.index < |code[S.i]|
    requires cm == CommentScan(code[S.i], S.index, CaseNone) && cm.end != S.index
    requires R == CommentStep(S, cm)
    ensures Inv(code, step, tb, R)
  {
    CommentCases(code[S.i], S.index);
    match cm.out
    case CaseNone =>
      LexOk(code, step, tb, S, cm.end, R);
    case Division =>
      SlashSpelled(code[S.i], S.index);
      OperatorEmitOk(code, step, tb, S, cm.end, SlashOperator(cm.out), R);
    case DivisionEquals =>
      SlashSpelled(code[S.i], S.index);
      OperatorEmitOk(code, step, tb, S, cm.end, SlashOperator(cm.out), R);
    case Multiline =>
      CommentContinueOk(code, step, tb, S, cm.end, InBlockComment, R);
    case SingleLineContinuation =>
      CommentContinueOk(code, step, tb, S, cm.end, InLineComment, R);
  }

  /** An operator token whose lexeme spells it. */
  lemma OperatorEmitOk(code: seq<Text>, step: HashStep, tb: Tables, S: State, e: nat, op: OperatorType, R: State)
    requires Inv(code, step, tb, S) && S.mode == Normal && S.index < e <= |code[S.i]|
    requires SpellsOperator(op, LexemeText(code[S.i], Lexeme(S.index, e)))
    requires R == Emit(S, e, OperatorTok(op))
    ensures Inv(code, step, tb, R)
  {
    LexLines(code, S, e, R);
    EmitClassified(code, step, tb, S, e, OperatorTok(op));
    EmitOrdered(S, e, OperatorTok(op));
  }

  /** A slash that starts no comment spells the operator it becomes: `/`,
      or with an equals sign after it `/=`. */
  lemma SlashSpelled(s: Text, index: nat)
    requires index < |s|
    ensures var cm := CommentScan(s, index, CaseNone);
      cm.end != index && (cm.out == Division || cm.out == DivisionEquals) ==>
        index < cm.end <= |s| && SpellsOperator(SlashOperator(cm.out), LexemeText(s, Lexeme(index, cm.end)))
  {
    var cm := CommentScan(s, index, CaseNone);
    if cm.end != index && cm.out == Division {
      assert LexemeText(s, Lexeme(index, cm.end)) == OperatorSpelling(Divide);
    } else if cm.end != index && cm.out == DivisionEquals {
      assert LexemeText(s, Lexeme(index, cm.end)) == OperatorSpelling(DivideEquals);
    }
  }

  /** A number literal, an operator or a word fits its token type. */
  lemma NumberFits(step: HashStep, tb: Tables, s: Text, index: nat)
    requires index < |s| && NumberScan(s, index, Integer).end != index
    ensures var num := NumberScan(s, index, Integer);
      index < num.end <= |s| && KindFits(step, tb, s, Lexeme(index, num.end), NumberTok(num.out))
  {
  }

  lemma OperatorFits(step: HashStep, tb: Tables, s: Text, index: nat)
    requires tb.operators == BuildOperatorHierarchy()
    requires index < |s| && OperatorScan(s, index, tb.operators, Accessor).end != index
    ensures var op := OperatorScan(s, index, tb.operators, Accessor);
      index < op.end <= |s| && KindFits(step, tb, s, Lexeme(index, op.end), OperatorTok(op.out))
  {
    HierarchyScan(s, index, Accessor);
  }

  lemma WordFitsAt(step: HashStep, tb: Tables, s: Text, index: nat)
    requires index < |s| && !IsDecimalDigit(s[index]) && WordEnd(s, index) != index
    ensures var w := WordEnd(s, index);
      index < w <= |s| && KindFits(step, tb, s, Lexeme(index, w), ClassifyWord(step, tb.keywords, s, Lexeme(index, w)))
  {
  }

  /** The end of the line is reached. */
  lemma EndLineOk(code: seq<Text>, step: HashStep, tb: Tables, S: State, R: State)
    requires Inv(code, step, tb, S) && S.mode == Normal && S.index >= |code[S.i]|
    requires R == S.(mode := EndOfLine)
    ensures Inv(code, step, tb, R)
  {
    SameLines(code, S, R);
    OrderKept(S, R);
  }

  lemma StepNormalOk(code: seq<Text>, step: HashStep, tb: Tables, S: State)
    requires Inv(code, step, tb, S) && S.mode == Normal && tb.operators == BuildOperatorHierarchy()
    ensures StepKeeps(code, step, tb, S)
  {
    var r := Step(code, step, tb, S);
    assert r == StepNormal(code, step, tb, S);
    var s := code[S.i];
    var index := S.index;
    if index >= |s| {
      EndLineOk(code, step, tb, S, r.value);
    } else {
      var ws := WhitespaceEnd(s, index);
      var num := NumberScan(s, index, Integer);
      var cm := CommentScan(s, index, CaseNone);
      var dq := QuotedScan(s, index, Double, false);
      var sq := QuotedScan(s, index, Single, false);
      var op := OperatorScan(s, index, tb.operators, Accessor);
      var w := WordEnd(s, index);
      if ws != index {
        LexOk(code, step, tb, S, ws, r.value);
      } else if num.end != index {
        NumberFits(step, tb, s, index);
        EmitOk(code, step, tb, S, num.end, NumberTok(num.out), r.value);
      } else if cm.end != index {
        CommentOk(code, step, tb, S, cm, r.value);
      } else if dq.end != index {
        OpenStringOk(code, step, tb, S, Double, dq, r.value);
      } else if sq.end != index {
        OpenStringOk(code, step, tb, S, Single, sq, r.value);
      } else if op.end != index {
        OperatorFits(step, tb, s, index);
        EmitOk(code, step, tb, S, op.end, OperatorTok(op.out), r.value);
      } else if w != index {
        WordFitsAt(step, tb, s, index);
        EmitOk(code, step, tb, S, w, ClassifyWord(step, tb.keywords, s, Lexeme(index, w)), r.value);
      } else {
        assert r == Failure(ScanError(S.i, index));
        OnlyDollarUnscannable(s[index]);
      }
    }
  }

  /** Running past the last line. */
  lemma FlushInvOk(code: seq<Text>, step: HashStep, tb: Tables, S: State, R: State)
    requires Inv(code, step, tb, S) && S.i == |code|
    requires R == S.(mode := Flush)
    ensures Inv(code, step, tb, R)
  {
    FlushLines(code, S);
    OrderKept(S, R);
  }

  /** A line is copied into the results and scanning starts at its first
      character. */
  lemma OpenLineOk(code: seq<Text>, step: HashStep, tb: Tables, S: State, R: State)
    requires Inv(code, step, tb, S) && S.mode == LineStart && S.i < |code|
    requires R == S.(mode := Normal, index := 0, lines := SetText(S.lines, S.i, code[S.i]))
    ensures Inv(code, step, tb, R)
  {
    FreshLine(code, S);
    LinesOkAt(code, S, R);
    assert Extends(S.lines, R.lines);
    ClassifiedExtends(code, step, tb, S.lines, R.lines, S.tokens, S.toks);
    OrderKept(S, R);
  }

  lemma LineStartOk(code: seq<Text>, step: HashStep, tb: Tables, S: State)
    requires Inv(code, step, tb, S) && S.mode == LineStart
    ensures StepKeeps(code, step, tb, S)
  {
    var R := Step(code, step, tb, S).value;
    if S.i < |code| {
      OpenLineOk(code, step, tb, S, R);
    } else {
      FlushInvOk(code, step, tb, S, R);
    }
  }

  /** An empty line inside a comment that spans lines is passed over. */
  lemma SkipEmptyLineOk(code: seq<Text>, step: HashStep, tb: Tables, S: State, R: State)
    requires Inv(code, step, tb, S) && S.i < |code| && |code[S.i]| == 0
    requires S.mode == InBlockComment || S.mode == InLineComment
    requires R == S.(i := S.i + 1)
    ensures Inv(code, step, tb, R)
  {
    FreshLine(code, S);
    LinesOkAt(code, S, R);
    OrderKept(S, R);
  }

  /** A whole line inside a comment that spans lines is one lexeme. */
  lemma WholeLineOk(code: seq<Text>, step: HashStep, tb: Tables, S: State, R: State)
    requires Inv(code, step, tb, S) && S.i < |code| && |code[S.i]| > 0
    requires S.mode == InBlockComment || S.mode == InLineComment
    requires R.lines == AddLexeme(SetText(S.lines, S.i, code[S.i]), S.i, Lexeme(0, |code[S.i]|))
    requires R == S.(i := S.i + 1, lines := R.lines) || R == S.(mode := EndOfLine, lines := R.lines)
    ensures Inv(code, step, tb, R)
  {
    FreshLine(code, S);
    TilesOne(|code[S.i]|);
    LinesOkAt(code, S, R);
    FirstLexemeExtends(S.lines, S.i, code[S.i], Lexeme(0, |code[S.i]|));
    ClassifiedExtends(code, step, tb, S.lines, R.lines, S.tokens, S.toks);
    OrderKept(S, R);
  }

  /** The line that closes a block comment resumes just past the mark. */
  lemma CloseCommentOk(code: seq<Text>, step: HashStep, tb: Tables, S: State, e: nat, R: State)
    requires Inv(code, step, tb, S) && S.i < |code| && S.mode == InBlockComment && 0 < e <= |code[S.i]|
    requires R == S.(mode := Normal, index := e, lines := AddLexeme(SetText(S.lines, S.i, code[S.i]), S.i, Lexeme(0, e)))
    ensures Inv(code, step, tb, R)
  {
    FreshLine(code, S);
    TilesOne(e);
    LinesOkAt(code, S, R);
    FirstLexemeExtends(S.lines, S.i, code[S.i], Lexeme(0, e));
    ClassifiedExtends(code, step, tb, S.lines, R.lines, S.tokens, S.toks);
    OrderKept(S, R);
  }

  lemma BlockCommentOk(code: seq<Text>, step: HashStep, tb: Tables, S: State)
    requires Inv(code, step, tb, S) && S.mode == InBlockComment
    ensures StepKeeps(code, step, tb, S)
  {
    var R := Step(code, step, tb, S).value;
    assert R == StepBlockComment(code, S);
    if S.i >= |code| {
      FlushInvOk(code, step, tb, S, R);
    } else if |code[S.i]| == 0 {
      SkipEmptyLineOk(code, step, tb, S, R);
    } else {
      match FindClose(code[S.i], 0)
      case None => WholeLineOk(code, step, tb, S, R);
      case Some(pos) => CloseCommentOk(code, step, tb, S, pos + 2, R);
    }
  }

  lemma LineCommentOk(code: seq<Text>, step: HashStep, tb: Tables, S: State)
    requires Inv(code, step, tb, S) && S.mode == InLineComment
    ensures StepKeeps(code, step, tb, S)
  {
    var R := Step(code, step, tb, S).value;
    assert R == StepLineComment(code, S);
    if S.i >= |code| {
      FlushInvOk(code, step, tb, S, R);
    } else if |code[S.i]| == 0 {
      SkipEmptyLineOk(code, step, tb, S, R);
    } else {
      WholeLineOk(code, step, tb, S, R);
    }
  }

  /** An empty line inside a string that spans lines ends the string. */
  lemma StringEmptyLineOk(code: seq<Text>, step: HashStep, tb: Tables, S: State, q: StringType, R: State)
    requires Inv(code, step, tb, S) && S.mode == InString(q) && S.i < |code| && |code[S.i]| == 0
    requires R == S.(mode := Normal, index := 0)
    ensures Inv(code, step, tb, R)
  {
    FreshLine(code, S);
    LinesOkAt(code, S, R);
    OrderKept(S, R);
  }

  /** The part of a continued string up to its closing quote. */
  lemma StringPieceOk(code: seq<Text>, step: HashStep, tb: Tables, S: State, q: StringType, R: State)
    requires Inv(code, step, tb, S) && S.mode == InString(q) && S.i < |code| && |code[S.i]| > 0
    requires var eq := EndQuoteScan(code[S.i], q);
      var S1 := S.(index := eq.end,
                   lines := AddLexeme(SetText(S.lines, S.i, code[S.i]), S.i, Lexeme(0, eq.end)),
                   toks := S.toks + [Token(S.i, 0, StringTok(q))]);
      R == (if eq.out then S1.(i := S.i + 1) else S1.(mode := Normal))
    ensures Inv(code, step, tb, R)
  {
    FreshLine(code, S);
    TilesOne(EndQuoteScan(code[S.i], q).end);
    LinesOkAt(code, S, R);
    StringPieceClassified(code, step, tb, S, q, R.lines);
    FirstTokenOrdered(S, R, q);
  }

  lemma StringOk(code: seq<Text>, step: HashStep, tb: Tables, S: State, q: StringType)
    requires Inv(code, step, tb, S) && S.mode == InString(q)
    ensures StepKeeps(code, step, tb, S)
  {
    var R := Step(code, step, tb, S).value;
    assert R == StepString(code, S, q);
    if S.i >= |code| {
      FlushInvOk(code, step, tb, S, R);
    } else if |code[S.i]| == 0 {
      StringEmptyLineOk(code, step, tb, S, q, R);
    } else {
      StringPieceOk(code, step, tb, S, q, R);
    }
  }

  /** The end of a line with nothing pending. */
  lemma KeepStatementOk(code: seq<Text>, step: HashStep, tb: Tables, S: State, R: State)
    requires Inv(code, step, tb, S) && S.mode == EndOfLine && |S.toks| == 0
    requires R == S.(mode := LineStart, i := S.i + 1)
    ensures Inv(code, step, tb, R)
  {
    LeaveLine(code, S, R);
    OrderKept(S, R);
  }

  /** The end of a line whose last lexeme is a pending `\`. */
  lemma PopBackslashOk(code: seq<Text>, step: HashStep, tb: Tables, S: State, R: State)
    requires Inv(code, step, tb, S) && S.mode == EndOfLine && |S.toks| > 0
    requires R == S.(mode := LineStart, i := S.i + 1, toks := S.toks[..|S.toks| - 1])
    ensures Inv(code, step, tb, R)
  {
    LeaveLine(code, S, R);
    PopClassified(code, step, tb, S.lines, S.tokens, S.toks);
    PopOrdered(S, R);
  }

  /** The end of a line that closes the pending statement. */
  lemma CloseStatementOk(code: seq<Text>, step: HashStep, tb: Tables, S: State, R: State)
    requires Inv(code, step, tb, S) && S.mode == EndOfLine && |S.toks| > 0
    requires R == S.(mode := LineStart, i := S.i + 1, tokens := S.tokens + [S.toks + [Token(S.i, 0, EolTok)]], toks := [])
    ensures Inv(code, step, tb, R)
  {
    LeaveLine(code, S, R);
    CloseClassified(code, step, tb, S.lines, S.tokens, S.toks, S.i);
    CloseOrdered(S, R);
  }

  lemma EndOfLineOk(code: seq<Text>, step: HashStep, tb: Tables, S: State)
    requires Inv(code, step, tb, S) && S.mode == EndOfLine
    ensures StepKeeps(code, step, tb, S)
  {
    var R := Step(code, step, tb, S).value;
    assert R == StepEndOfLine(code, S);
    if |S.toks| == 0 {
      KeepStatementOk(code, step, tb, S, R);
    } else {
      var last := S.toks[|S.toks| - 1];
      if last.kind == OperatorTok(BackSlash) && last.lexeme + 1 == |S.lines[S.i].lexemes| {
        PopBackslashOk(code, step, tb, S, R);
      } else {
        LastPendingNotEol(code, step, tb, S.lines, S.toks);
        CloseStatementOk(code, step, tb, S, R);
      }
    }
  }

  lemma StepOk(code: seq<Text>, step: HashStep, tb: Tables, S: State)
    requires Inv(code, step, tb, S) && S.mode != Flush && tb.operators == BuildOperatorHierarchy()
    ensures StepKeeps(code, step, tb, S)
  {
    match S.mode
    case LineStart => LineStartOk(code, step, tb, S);
    case Normal => StepNormalOk(code, step, tb, S);
    case InBlockComment => BlockCommentOk(code, step, tb, S);
    case InLineComment => LineCommentOk(code, step, tb, S);
    case InString(q) => StringOk(code, step, tb, S, q);
    case EndOfLine => EndOfLineOk(code, step, tb, S);
  }

  // ---------------------------------------------------------------------
  // The results

  lemma FlushOk(code: seq<Text>, step: HashStep, tb: Tables, S: State)
    requires Inv(code, step, tb, S) && S.mode == Flush
    ensures ResultsOk(code, step, tb, FlushResults(S))
  {
    FlushLinesOk(code, S);
    FlushTokensOk(code, step, tb, S);
  }

  lemma FlushLinesOk(code: seq<Text>, S: State)
    requires Valid(code, S) && LinesOk(code, S) && S.mode == Flush && S.i == |code|
    ensures LinesCut(code, FlushResults(S).lines)
  {
    forall k | 0 <= k < |code|
      ensures Covered(code, S, k) == |code[k]|
    {
    }
  }

  lemma FlushTokensOk(code: seq<Text>, step: HashStep, tb: Tables, S: State)
    requires Classified(code, step, tb, S.lines, S.tokens, S.toks) && Ordered(S)
    requires S.i == |S.lines| == |code|
    ensures StatementsOk(code, step, tb, FlushResults(S))
  {
    var res := FlushResults(S);
    if |S.toks| != 0 {
      CloseClassified(code, step, tb, S.lines, S.tokens, S.toks, |S.lines|);
      FlushOrdered(S);
    } else {
      assert Flatten(S.tokens) == Emitted(S);
    }
    AllClosedEach(code, step, tb, res.lines, res.tokens);
  }

  lemma FlushOrdered(S: State)
    requires Ordered(S) && S.i == |S.lines| && |S.toks| != 0
    ensures InOrder(Flatten(S.tokens + [S.toks + [Token(|S.lines|, 0, EolTok)]]))
  {
    var eol := Token(|S.lines|, 0, EolTok);
    var E := Emitted(S);
    FlattenSnoc(S.tokens, S.toks + [eol]);
    assert Flatten(S.tokens + [S.toks + [eol]]) == E + [eol];
    InOrderSnoc(E, eol);
  }

  lemma {:induction false} RunOk(code: seq<Text>, step: HashStep, tb: Tables, S: State)
    requires Inv(code, step, tb, S) && tb.operators == BuildOperatorHierarchy()
    ensures match Run(code, step, tb, S)
      case Success(res) => ResultsOk(code, step, tb, res)
      case Failure(e) => ErrorOk(code, e)
    decreases LinesLeft(code, S), Rank(S.mode), CharsLeft(code, S)
  {
    if S.mode == Flush {
      FlushOk(code, step, tb, S);
    } else {
      StepOk(code, step, tb, S);
      match Step(code, step, tb, S)
      case Failure(_) =>
      case Success(S') => RunOk(code, step, tb, S');
    }
  }

  lemma InitOk(code: seq<Text>, step: HashStep, tb: Tables)
    ensures Inv(code, step, tb, Init(code))
  {
    var S := Init(code);
    assert Emitted(S) == [];
    assert forall k :: 0 <= k < |code| ==> S.lines[k] == Line([], []);
  }

  /** The scanner's guarantees: a scan that succeeds cuts every line into
      lexemes that cover it, classifies lexemes only by what they spell
      (words by the keyword table of build_keywords) and reports statements
      in source order, each ending in one EOL; a scan that fails stopped at
      a `$`. */
  lemma ScanIsSound(code: seq<Text>, step: HashStep)
    ensures match ScanSpec(code, step)
      case Success(res) => ResultsOk(code, step, BuildTables(step), res)
      case Failure(e) => ErrorOk(code, e)
  {
    InitOk(code, step, BuildTables(step));
    RunOk(code, step, BuildTables(step), Init(code));
  }
}
