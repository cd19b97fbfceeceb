/// Option and Result, for the "not found" and error outcomes of the source.
module Wrappers {
  datatype Option<T> = None | Some(value: T)

  datatype Result<T, E> = Success(value: T) | Failure(error: E)
}

/// The scanner's data model (src/Scanner.h, lines 16-169, and the
/// Comment_Case enumeration of src/Scanner_Support.h, lines 61-68).
module Tokens {
  import opened Chars
  import opened Wrappers

  /** A half-open span `[begin, end)` of one line's text. */
  datatype Lexeme = Lexeme(begin: nat, end: nat)

  datatype KeywordType =
    | I8 | I16 | I32 | I64 | U8 | U16 | U32 | U64 | F16 | F32 | F64
    | Class | Let | Self | Struct | Var
    | Cref | Fn | Move | Ref | Return
    | Namespace

  datatype NumberType = Binary | Decimal | Hex | Integer

  datatype StringType = Double | Single

  datatype OperatorType =
    | Accessor | Arrow | Asterisk | BackSlash
    | BitwiseAnd | BitwiseAndEqual | BitwiseNot | BitwiseOr | BitwiseOrEqual
    | BitwiseXor | BitwiseXorEqual
    | ClosedAttribute | ClosedCurly | ClosedParen | ClosedSquare
    | Colon | Comma | Decrement | Divide | DivideEquals
    | Equals | EqualsTo | Greater | GreaterEqual | Increment
    | LeftShift | LeftShiftEqual | Less | LessEqual
    | LogicalAnd | LogicalNot | LogicalOr | LogicalXor
    | Macro | MatchCase | Minus | MinusEqual | Modulo | ModuloEqual
    | MultiplyEqual | NotEqual
    | OpenAttribute | OpenCurly | OpenParen | OpenSquare
    | Plus | PlusEqual | RightShift | RightShiftEqual | Scope
    | Semicolon | Ternary | ThreeWayComp
    | UnsupportedOperator

  /** The token's `type` together with the member of its `subtype` union that
      the type selects.  A WORD keeps the hash of its text. */
  datatype TokenKind =
    | EolTok
    | KeywordTok(key: KeywordType)
    | NumberTok(num: NumberType)
    | OperatorTok(op: OperatorType)
    | StringTok(str: StringType)
    | WordTok(hash: U32)

  /** A classified occurrence of the lexeme `lexeme` of line `lineNumber`. */
  datatype Token = Token(lineNumber: nat, lexeme: nat, kind: TokenKind)

  datatype Line = Line(text: Text, lexemes: seq<Lexeme>)

  /** Per-line lexemes, and the statements: runs of tokens that each end in an
      EOL token. */
  datatype ScannerResults = ScannerResults(lines: seq<Line>, tokens: seq<seq<Token>>)

  /** What scan_comment found after a `/`; `CaseNone` is the initial value and
      also means "a comment that ends on this line". */
  datatype CommentCase = CaseNone | Division | DivisionEquals | Multiline | SingleLineContinuation

  /** The result of a sub-scanner: the end index, and the final value of the
      out-parameter it may write. */
  datatype Scanned<T> = Scanned(end: nat, out: T)

  /** The quote character that opens and closes a string of the given kind. */
  function QuoteChar(q: StringType): SChar {
    match q
    case Double => DoubleQuote
    case Single => SingleQuote
  }

  /** The text a lexeme spans, when it lies within the line. */
  function LexemeText(s: Text, l: Lexeme): Text
    requires l.begin <= l.end <= |s|
  {
    s[l.begin..l.end]
  }
}
