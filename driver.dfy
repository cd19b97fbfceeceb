/// The line driver `scan` (src/Scanner.cpp, lines 14-250) as a state machine.
///
/// Each mode is one control point of the C++ function: the head of the loop
/// over lines, the head of the loop over one line's characters, the three
/// inner loops that carry a block comment, a `//` comment or a string over
/// the following lines, the end-of-line handling, and the final flush.  A
/// step moves from one control point to the next exactly as the C++ does,
/// and `Run` follows the steps to the end.
///
/// Where the block-comment or continued-string loop runs past the last
/// line the C++ goes on to read `code[code.size()]`, which is undefined;
/// the machine stops there and flushes.  The `//` loop instead leaves the
/// loop over characters, and the C++ closes the pending tokens with an EOL
/// numbered `code.size()`, which is what the flush produces too (see
/// README).
module Driver {
  import opened Chars
  import opened Wrappers
  import opened Tokens
  import opened Whitespace
  import opened Numbers
  import opened Comments
  import opened Strings
  import opened Operators
  import opened Words

  /** The `std::runtime_error` of line 221, with the place it was raised. */
  datatype ScanError = ScanError(line: nat, offset: nat)

  datatype Mode =
    | LineStart                 // head of the loop over lines (line 23)
    | Normal                    // head of the loop over a line's characters (line 30)
    | InBlockComment            // the loop after an open `/*` (lines 88-101)
    | InLineComment             // the loop after `//` ending in `\` (lines 107-112)
    | InString(q: StringType)   // the loop after a string ending in `\` (lines 132-145, 163-176)
    | EndOfLine                 // the end-of-line handling (lines 226-241)
    | Flush                     // after the loop over lines (lines 245-249)

  /** The variables of `scan`: the line `i`, the offset `index`, the two
      halves of the results and the pending statement `toks`. */
  datatype State = State(mode: Mode, i: nat, index: nat, lines: seq<Line>, tokens: seq<seq<Token>>, toks: seq<Token>)

  /** The operator hierarchy and the keyword table, which `scan` builds
      once before the loop over lines (lines 19-20). */
  datatype Tables = Tables(operators: seq<Operator>, keywords: map<U32, Keyword>)

  function BuildTables(step: HashStep): Tables {
    Tables(BuildOperatorHierarchy(), BuildKeywords(step))
  }

  predicate Valid(code: seq<Text>, S: State) {
    && |S.lines| == |code|
    && S.i <= |code|
    && (S.mode == Normal || S.mode == EndOfLine ==> S.i < |code|)
    && (S.mode == Normal ==> S.index <= |code[S.i]|)
  }

  function SetText(lines: seq<Line>, k: nat, t: Text): seq<Line>
    requires k < |lines|
  {
    lines[k := lines[k].(text := t)]
  }

  function AddLexeme(lines: seq<Line>, k: nat, l: Lexeme): seq<Line>
    requires k < |lines|
  {
    lines[k := lines[k].(lexemes := lines[k].lexemes + [l])]
  }

  /** Record the lexeme `[index, e)` of the current line and move to `e`. */
  function Lex(S: State, e: nat): State
    requires S.i < |S.lines|
  {
    S.(index := e, lines := AddLexeme(S.lines, S.i, Lexeme(S.index, e)))
  }

  /** As `Lex`, also appending a token of the given kind for that lexeme. */
  function Emit(S: State, e: nat, kind: TokenKind): State
    requires S.i < |S.lines|
  {
    Lex(S, e).(toks := S.toks + [Token(S.i, |S.lines[S.i].lexemes|, kind)])
  }

  // The termination measure: lines still to come, then the control point,
  // then the characters left on the line.

  function Rank(m: Mode): nat {
    match m
    case LineStart => 5
    case InBlockComment => 4
    case InString(_) => 4
    case Normal => 3
    case InLineComment => 2
    case EndOfLine => 1
    case Flush => 0
  }

  function LinesLeft(code: seq<Text>, S: State): nat
    requires S.i <= |code|
  {
    if S.mode == Flush then 0 else |code| + 2 - S.i
  }

  function CharsLeft(code: seq<Text>, S: State): nat
    requires Valid(code, S)
  {
    if S.mode == Normal then |code[S.i]| - S.index else 0
  }

  predicate Smaller(code: seq<Text>, S': State, S: State)
    requires Valid(code, S') && Valid(code, S)
  {
    || LinesLeft(code, S') < LinesLeft(code, S)
    || (LinesLeft(code, S') == LinesLeft(code, S) &&
        (|| Rank(S'.mode) < Rank(S.mode)
         || (Rank(S'.mode) == Rank(S.mode) && CharsLeft(code, S') < CharsLeft(code, S))))
  }

  /** Lines 23-29: start line `i`, or leave the loop. */
  function StepLineStart(code: seq<Text>, S: State): (r: State)
    requires Valid(code, S) && S.mode == LineStart
    ensures Valid(code, r) && Smaller(code, r, S)
  {
    if S.i < |code| then S.(mode := Normal, index := 0, lines := SetText(S.lines, S.i, code[S.i]))
    else S.(mode := Flush)
  }

  /** The operator token a slash that starts no comment becomes (lines 62-82). */
  function SlashOperator(c: CommentCase): OperatorType {
    if c == Division then Divide else DivideEquals
  }

  /** Lines 51-116 once scan_comment has advanced, by the case it reports. */
  function CommentStep(S: State, cm: Scanned<CommentCase>): State
    requires S.i < |S.lines|
  {
    match cm.out
    case CaseNone => Lex(S, cm.end)
    case Division => Emit(S, cm.end, OperatorTok(SlashOperator(cm.out)))
    case DivisionEquals => Emit(S, cm.end, OperatorTok(SlashOperator(cm.out)))
    case Multiline =>
      S.(mode := InBlockComment, i := S.i + 1, lines := AddLexeme(S.lines, S.i, Lexeme(S.index, cm.end)))
    case SingleLineContinuation =>
      S.(mode := InLineComment, i := S.i + 1, lines := AddLexeme(S.lines, S.i, Lexeme(S.index, cm.end)))
  }

  /** Lines 120-130 (and 152-161): a string token, continued on the next
      line when the scanner asks for it. */
  function OpenString(S: State, q: StringType, sc: Scanned<bool>): State
    requires S.i < |S.lines|
  {
    var S1 := Emit(S, sc.end, StringTok(q));
    if sc.out then S1.(mode := InString(q), i := S.i + 1) else S1
  }

  /** One pass of the loop over a line's characters (lines 30-222): the
      first sub-scanner that advances decides; when none does, the scanner
      fails.  The incoming value of the number and operator out-parameters
      is `tok.subtype`: 0 (the union's default `hash = 0`) for the line's
      first token, otherwise the subtype of the line's previous token.  Any
      value will do, since both scanners overwrite it whenever they advance
      and on a miss it reaches no token. */
  function StepNormal(code: seq<Text>, step: HashStep, tb: Tables, S: State): (r: Result<State, ScanError>)
    requires Valid(code, S) && S.mode == Normal
    ensures r.Success? ==> Valid(code, r.value) && Smaller(code, r.value, S)
  {
    var s := code[S.i];
    var index := S.index;
    if index >= |s| then Success(S.(mode := EndOfLine))
    else
      var ws := WhitespaceEnd(s, index);
      if ws != index then Success(Lex(S, ws))
      else
        var num := NumberScan(s, index, Integer);
        if num.end != index then Success(Emit(S, num.end, NumberTok(num.out)))
        else
          var cm := CommentScan(s, index, CaseNone);
          if cm.end != index then Success(CommentStep(S, cm))
          else
            var dq := QuotedScan(s, index, Double, false);
            if dq.end != index then Success(OpenString(S, Double, dq))
            else
              var sq := QuotedScan(s, index, Single, false);
              if sq.end != index then Success(OpenString(S, Single, sq))
              else
                var op := OperatorScan(s, index, tb.operators, Accessor);
                if op.end != index then Success(Emit(S, op.end, OperatorTok(op.out)))
                else
                  var w := WordEnd(s, index);
                  if w != index then
                    Success(Emit(S, w, ClassifyWord(step, tb.keywords, s, Lexeme(index, w))))
                  else
                    Failure(ScanError(S.i, index))
  }

  /** One pass of the loop after an open block comment (lines 88-101): empty
      lines are skipped, a line without the closing star-slash becomes one lexeme, and the line
      with it resumes scanning just past it. */
  function StepBlockComment(code: seq<Text>, S: State): (r: State)
    requires Valid(code, S) && S.mode == InBlockComment
    ensures Valid(code, r) && Smaller(code, r, S)
  {
    if S.i >= |code| then S.(mode := Flush)
    else
      var s := code[S.i];
      if |s| == 0 then S.(i := S.i + 1)
      else
        var lines := SetText(S.lines, S.i, s);
        match FindClose(s, 0)
        case None => S.(i := S.i + 1, lines := AddLexeme(lines, S.i, Lexeme(0, |s|)))
        case Some(pos) => S.(mode := Normal, index := pos + 2, lines := AddLexeme(lines, S.i, Lexeme(0, pos + 2)))
  }

  /** One pass of the loop after a `//` comment that ends in `\` (lines
      107-112): each further line is one lexeme, until one that does not
      end in `\`; the C++ then leaves the loop over characters. */
  function StepLineComment(code: seq<Text>, S: State): (r: State)
    requires Valid(code, S) && S.mode == InLineComment
    ensures Valid(code, r) && Smaller(code, r, S)
  {
    if S.i >= |code| then S.(mode := Flush)
    else
      var s := code[S.i];
      if |s| == 0 then S.(i := S.i + 1)
      else
        var lines := AddLexeme(SetText(S.lines, S.i, s), S.i, Lexeme(0, |s|));
        if s[|s| - 1] != Backslash then S.(mode := EndOfLine, lines := lines)
        else S.(i := S.i + 1, lines := lines)
  }

  /** One pass of the loop after a string that ends in `\` (lines 132-145):
      an empty line ends the string; otherwise the line up to the closing
      quote is one more string token, and scanning resumes at that quote. */
  function StepString(code: seq<Text>, S: State, q: StringType): (r: State)
    requires Valid(code, S) && S.mode == InString(q)
    ensures Valid(code, r) && Smaller(code, r, S)
  {
    if S.i >= |code| then S.(mode := Flush)
    else
      var s := code[S.i];
      if |s| == 0 then S.(mode := Normal, index := 0)
      else
        var eq := EndQuoteScan(s, q);
        var S1 := S.(index := eq.end,
                     lines := AddLexeme(SetText(S.lines, S.i, s), S.i, Lexeme(0, eq.end)),
                     toks := S.toks + [Token(S.i, 0, StringTok(q))]);
        if eq.out then S1.(i := S.i + 1) else S1.(mode := Normal)
  }

  /** Lines 226-241: drop a pending BACK_SLASH whose lexeme number is the
      last of this line, or else close the pending statement with an EOL. */
  function StepEndOfLine(code: seq<Text>, S: State): (r: State)
    requires Valid(code, S) && S.mode == EndOfLine
    ensures Valid(code, r) && Smaller(code, r, S)
  {
    var S1 :=
      if |S.toks| == 0 then S
      else
        var last := S.toks[|S.toks| - 1];
        if last.kind == OperatorTok(BackSlash) && last.lexeme + 1 == |S.lines[S.i].lexemes| then
          S.(toks := S.toks[..|S.toks| - 1])
        else if last.kind != EolTok then
          S.(tokens := S.tokens + [S.toks + [Token(S.i, 0, EolTok)]], toks := [])
        else
          S;
    S1.(mode := LineStart, i := S.i + 1)
  }

  function Step(code: seq<Text>, step: HashStep, tb: Tables, S: State): (r: Result<State, ScanError>)
    requires Valid(code, S) && S.mode != Flush
    ensures r.Success? ==> Valid(code, r.value) && Smaller(code, r.value, S)
  {
    match S.mode
    case LineStart => Success(StepLineStart(code, S))
    case Normal => StepNormal(code, step, tb, S)
    case InBlockComment => Success(StepBlockComment(code, S))
    case InLineComment => Success(StepLineComment(code, S))
    case InString(q) => Success(StepString(code, S, q))
    case EndOfLine => Success(StepEndOfLine(code, S))
  }

  /** Lines 245-249: close a pending statement with an EOL numbered past
      the last line. */
  function FlushResults(S: State): ScannerResults {
    if |S.toks| != 0 then ScannerResults(S.lines, S.tokens + [S.toks + [Token(|S.lines|, 0, EolTok)]])
    else ScannerResults(S.lines, S.tokens)
  }

  /** Follow the steps from `S` to the end. */
  function Run(code: seq<Text>, step: HashStep, tb: Tables, S: State): Result<ScannerResults, ScanError>
    requires Valid(code, S)
    decreases LinesLeft(code, S), Rank(S.mode), CharsLeft(code, S)
  {
    if S.mode == Flush then Success(FlushResults(S))
    else
      match Step(code, step, tb, S)
      case Failure(e) => Failure(e)
      case Success(S') => Run(code, step, tb, S')
  }

  /** Lines 15-20: one empty line record per line of code, no statements. */
  function Init(code: seq<Text>): State {
    State(LineStart, 0, 0, seq(|code|, k => Line([], [])), [], [])
  }

  /** What `scan` returns, or the error it throws. */
  function ScanSpec(code: seq<Text>, step: HashStep): Result<ScannerResults, ScanError> {
    Run(code, step, BuildTables(step), Init(code))
  }
}
