# Scanner of the Compiler front end, in Dafny

This project models the lexical scanner of mroever4/Compiler. The scanner
takes the source as a vector of lines. It returns a record per line (the
line's text and the lexemes that cut it) and a list of statements. Each
statement is a run of classified tokens: keywords, numbers, operators,
strings and words, closed by one EOL token.

The scanner has two parts, and the model keeps both shapes.

- **Sub-scanners** (`src/Scanner_Support.cpp`). Each one takes a line and an
  offset and returns the offset where its kind of lexeme ends, or the same
  offset for "no match". Some also report a classification through an
  out-parameter. Each one with a loop is a Dafny `method` with the C++ loop,
  proved equal to a specification function. The function carries the
  characterisation: bounds, maximal run, no-match conditions and the case
  analysis. `scan_comment` has no loop of its own, so it is modelled as the
  function `Comments.CommentScan` only, with `std::string::find` as
  `Comments.FindClose`; `match_text` is likewise the function
  `Words.MatchText`.
  - The sub-scanners are: whitespace, numbers (binary, hexadecimal, integer
    and decimal with exponent, all with `_` separators), comment/division,
    the two opening-quote scanners, the end-quote scanner, the operator walk
    over the prefix tree of `build_operator_hierarchy`, and words.
  - A word is hashed and looked up in the keyword table of `build_keywords`.
  - An out-parameter the C++ leaves unwritten is passed in and returned
    unchanged.
- **The line driver** `scan` (`src/Scanner.cpp`), modelled twice.
  - Module `Driver` is a state machine with one mode per control point of the
    C++ function: the head of the loop over lines, the loop over one line's
    characters, the three inner loops that carry a block comment, a
    continued `//` comment or a continued string over the following lines,
    the end-of-line handling, and the final flush.
  - Module `Scanner` is the imperative `scan` with its nested loops. The
    series of blocks in a pass of the inner loop becomes methods along the
    C++ blocks. Each method proves that it advances the machine from its
    start state to the state its variables hold, so `Scanner.Scan` returns
    exactly `Driver.ScanSpec`.
- Module `ScanProperties` proves, by an invariant that every step keeps,
  what `scan` guarantees:
  - every line keeps its text and is cut into lexemes that tile it
    exactly;
  - every token names a lexeme of its line, and its type agrees with the text
    that lexeme spans (a complete number literal, the operator's spelling,
    a quoted string or continued fragment, a maximal word classified by the
    keyword table);
  - every statement is one or more tokens followed by exactly one EOL;
  - all tokens come out in source order;
  - a scan fails only at a `$`.
- Module `StatementProperties` relates lexemes, tokens and statements:
  which lexemes of a pass over a line carry a token, which line each
  statement's EOL is numbered by, and that no lexeme carries two tokens.

Characters are C++ `char` on a signed-char platform (`SChar`, -128..127), so
bytes of 128 or more are whitespace to `is_whitespace` and illegal in a word.
The CRC-32C instruction `_mm_crc32_u8` behind `hash_text` is a parameter
`step` of the model; every statement holds for any step function.

Where the documented behaviour and the code differ, the model follows the
code:
- A `_` that is the last character of a line is consumed by the
  digit-run loops: `1_` is an INTEGER of length 2
  (`ScanExamples.SeparatorCases`).
- The characters that stop a word are exactly those of the C++ test:
  everything outside `[0-9A-Z_a-z]` and DEL. That is everything below `0`
  (including `$`), `:;<=>?@`, `[\]^`, the backtick, `{|}~`, and all bytes
  of 128 or more. DEL (127) is a word character (`Chars.WordCharsExactly`).
- An unterminated block comment or continued string at the end of input is
  undefined behaviour in the C++: it reads `code[code.size()]`. The model
  stops there and flushes, as described under "Left out". A `//` comment
  continued past the last line is defined, and the model matches it.

Behaviour kept as written, and shown by lemmas:
- A continued string resumes scanning on its closing quote, so that quote
  then opens a new string literal (`Driver.StepString`).
- The end-of-line test compares the last pending token's lexeme number with
  the lexeme count of the *current* line, whatever line the token came from.
  So a `\` pending from an earlier line at lexeme 0 is dropped at the end of
  a following line of one lexeme (`ScanExamples.BackslashFromEarlierLineDropped`).
- The quote scanners look one character behind: a quote after an escaped
  backslash (`\\"`) does not close a string (`Strings.IsClosingQuote`).
- An exponent may begin with a `_`, since the digit-run loop absorbs a `_`
  that is followed by a digit (`Numbers.DecimalEnd`).
- An exponent needs no digit at all when a `_` ends the line after the mark
  or its sign: the digit-run loop absorbs that `_`, so `1.5e_` is one DECIMAL
  of length 5 and `1.5e+_` one of length 6
  (`ScanExamples.ExponentOfLoneSeparator`).

## Model

| member | source | states |
|---|---|---|
| Chars.ToByte | src/Scanner_Support.cpp:422 | the `(uint8_t)` cast agrees with the signed character modulo 256 |
| Chars.WordCharsExactly | src/Scanner_Support.cpp:409-410 | the characters scan_word accepts are exactly `[0-9A-Z_a-z]` and DEL |
| Chars.DigitClassesNest | src/Scanner_Support.cpp:17-31 | binary digits are decimal, decimal digits are hexadecimal, word characters and not whitespace |
| Whitespace.WhitespaceEnd | src/Scanner_Support.cpp:36-43 | the end of the maximal run of characters of code at most 32 from `index`, within the line |
| Whitespace.ScanWhitespace | src/Scanner_Support.cpp:36-43 | the C++ loop returns `WhitespaceEnd` |
| Numbers.RunEnd | src/Scanner_Support.cpp:113-136 | the shared digit-run loop ends between its start and the end of the line |
| Numbers.RunEndFirstStop | src/Scanner_Support.cpp:113-136 | the run holds only digits of the radix and absorbed `_`; each absorbed `_` precedes a digit or ends the line; it stops at the first non-digit that is not such a `_` |
| Numbers.ScanRun | src/Scanner_Support.cpp:113-136 | scan_integer's loop, with its in-body skip over a separator, returns `RunEnd` |
| Numbers.RadixRunEnd | src/Scanner_Support.cpp:47-76 | no match exactly when the first character is not a digit of the radix; otherwise the run that digit starts |
| Numbers.ScanRadixRun | src/Scanner_Support.cpp:47-109 | scan_binary and scan_hex return `RadixRunEnd` |
| Numbers.DecimalEnd | src/Scanner_Support.cpp:140-170 | the fraction run, extended by an exponent only when a mark, an optional sign and then at least one digit, or a `_` that ends the line, follow |
| Numbers.ScanDecimal | src/Scanner_Support.cpp:140-170 | scan_decimal returns `DecimalEnd` |
| Numbers.NumberScan | src/Scanner_Support.cpp:174-212 | no match exactly when the first character is not a decimal digit; BINARY/HEX exactly for a lower-case `0b`/`0x` with a digit after it; DECIMAL exactly when the integer run is followed by `.`; the end of each kind |
| Numbers.ScanNumber | src/Scanner_Support.cpp:174-212 | scan_number returns `NumberScan`, its type untouched on no match |
| Comments.FindClose | src/Scanner_Support.cpp:234 | `find("*/", from)`: the first end mark at or after `from`, or none |
| Comments.CommentScan | src/Scanner_Support.cpp:216-253 | the five outcomes: not a slash (case untouched), `//` to the end (continuation iff the line ends in `\`), a block comment to just past the first end mark after the opening one or MULTILINE, `/=`, and `/` |
| Strings.ClosingQuote | src/Scanner_Support.cpp:259-265 | the first quote not preceded by `\` at or after `from`, or the end of the line |
| Strings.QuotedScan | src/Scanner_Support.cpp:257-287 | no match unless at the quote; otherwise just past the first unescaped closing quote, or the end of the line with `nextLine` iff the line ends in `\` |
| Strings.ScanQuoted | src/Scanner_Support.cpp:257-287 | both opening-quote scanners return `QuotedScan` |
| Strings.EndQuoteScan | src/Scanner_Support.cpp:291-304 | the first unescaped quote at position 1 or later, excluded, with `nextLine` false; else the end of the line with `nextLine` iff it ends in `\` |
| Strings.ScanEndQuote | src/Scanner_Support.cpp:291-304 | scan_string_end_quote returns `EndQuoteScan` |
| Operators.FirstWithSymbol | src/Scanner_Support.cpp:390-391 | the first operator of a level whose symbol is the character, or none |
| Operators.OperatorScan | src/Scanner_Support.cpp:389-403 | within the line; no match, type untouched, exactly when no operator of the level has the symbol |
| Operators.ScanOperator | src/Scanner_Support.cpp:389-403 | the recursive scan_operator returns `OperatorScan` |
| Operators.OperatorScanIsLongestMatch | src/Scanner_Support.cpp:389-403 | longest match: the consumed text is a path of the tree ending at the reported type, and no longer prefix of the rest of the line is a path |
| Operators.FirstWithSymbolIsUnique | src/Scanner_Support.cpp:390-400 | with distinct siblings the matching sibling is the only one |
| Operators.HierarchySiblingsDistinct | src/Scanner_Support.cpp:310-385 | sibling symbols differ at every level of the hierarchy |
| Operators.HierarchyDepth | src/Scanner_Support.cpp:310-385 | no path of the hierarchy is longer than three |
| Operators.NodeAtWithinDepth | src/Scanner_Support.cpp:310-385 | a path of a tree is no longer than its depth |
| Operators.HierarchySpellsItself | src/Scanner_Support.cpp:310-385 | every node of the hierarchy is labelled by the printed spelling of its type |
| Operators.HierarchyPathsSpellTheirType | src/Scanner_Support.cpp:310-385 | every path of the hierarchy spells the type at its end |
| Operators.HierarchyScan | src/Scanner_Support.cpp:389-403 | over the hierarchy, the walk consumes nothing or one to three characters that spell the type it reports |
| Words.WordEnd | src/Scanner_Support.cpp:407-415 | the end of the maximal run of word characters from `index` |
| Words.ScanWord | src/Scanner_Support.cpp:407-415 | scan_word returns `WordEnd` |
| Words.HashOfSnoc | src/Scanner_Support.cpp:421-423 | the hash of a text extended by one character is one more step |
| Words.HashText | src/Scanner_Support.cpp:419-425 | hash_text over a lexeme folds the step over the lexeme's bytes |
| Words.CStringLength | src/Scanner_Support.cpp:432 | the length up to the first NUL |
| Words.HashCString | src/Scanner_Support.cpp:429-436 | hash_text over a C string folds the step over the bytes before its NUL |
| Words.KeywordsHashAsCStrings | src/Scanner_Support.cpp:456-486 | no keyword spelling holds a NUL, so the C-string hash_text that build_keywords applies to each spelling gives exactly the key the table files it under |
| Words.MatchText | src/Scanner_Support.cpp:440-449 | true exactly when the lexeme's text is the word |
| Words.BuildTable | src/Scanner_Support.cpp:454-486 | every entry kept is one of the list under its own hash, and every hash of the list is a key |
| Words.BuildTableKeepsFirst | src/Scanner_Support.cpp:454-486 | an entry with no earlier colliding entry is the one kept under its hash (C++ leaves open which of several entries with equal keys an initializer list keeps; the model keeps the first, as common implementations do) |
| Words.ClassifyWord | src/Scanner.cpp:195-213 | KEYWORD exactly when the table has an entry under the word's hash spelled as the word, with that entry's type; otherwise WORD with the hash |
| Words.KeywordIsSpelledOut | src/Scanner.cpp:201-206 | a KEYWORD token's text is the spelling of a keyword of that type |
| Words.KeywordsAreRecognised | src/Scanner.cpp:200-206 | when the 22 hashes are distinct, every keyword spelling is recognised as its keyword |
| Driver.StepLineStart | src/Scanner.cpp:23-29 | starting a line or leaving the loop keeps the state valid and moves towards the end |
| Driver.StepNormal | src/Scanner.cpp:30-222 | one pass of the loop over a line's characters keeps the state valid and moves towards the end |
| Driver.StepBlockComment | src/Scanner.cpp:88-101 | one pass of the loop after an open block comment keeps the state valid and moves towards the end |
| Driver.StepLineComment | src/Scanner.cpp:107-113 | one pass of the loop after a continued `//` comment keeps the state valid and moves towards the end |
| Driver.StepString | src/Scanner.cpp:132-145 | one pass of the loop after a continued string keeps the state valid and moves towards the end |
| Driver.StepEndOfLine | src/Scanner.cpp:226-241 | the end-of-line handling keeps the state valid and moves towards the end |
| Driver.Step | src/Scanner.cpp:23-242 | every step keeps the state valid and moves towards the end, so the machine terminates |
| ScanProperties.TilesSpans | src/Scanner.cpp:34-46 | lexemes that tile a line start at 0, are non-empty, lie in the line and each starts where the previous ends |
| ScanProperties.InOrderSorted | src/Scanner.cpp:42-45 | tokens in order are sorted: each precedes every later one |
| ScanProperties.QuotedCases | src/Scanner_Support.cpp:257-287 | an opening-quote scanner that advances started at its quote, and asks for the next line only at the end of the line |
| ScanProperties.CommentCases | src/Scanner_Support.cpp:216-253 | after a slash: `/` is one character, `/=` two, and comments left open run to the end of the line |
| ScanProperties.OnlyDollarUnscannable | src/Scanner.cpp:32-221 | the only character no sub-scanner accepts is `$` |
| ScanProperties.SlashSpelled | src/Scanner.cpp:62-82 | a slash that starts no comment spells the DIVIDE or DIVIDE_EQUALS token it becomes |
| ScanProperties.NumberFits | src/Scanner.cpp:40-48 | a number lexeme is a whole literal of the reported type |
| ScanProperties.OperatorFits | src/Scanner.cpp:182-191 | an operator lexeme spells its operator |
| ScanProperties.WordFitsAt | src/Scanner.cpp:195-217 | a word lexeme is a maximal word classified by the keyword table |
| ScanProperties.CommentOk | src/Scanner.cpp:54-116 | every outcome of the comment scanner keeps the scanner invariant |
| ScanProperties.OpenStringOk | src/Scanner.cpp:119-148 | an opening quote keeps the scanner invariant, continued or not |
| ScanProperties.EndLineOk | src/Scanner.cpp:30 | reaching the end of a line keeps the scanner invariant |
| ScanProperties.StepNormalOk | src/Scanner.cpp:30-222 | every pass of the loop over a line's characters keeps the invariant, and a failure is at a `$` |
| ScanProperties.OpenLineOk | src/Scanner.cpp:24-27 | copying a line's text and starting at offset 0 keeps the invariant |
| ScanProperties.LineStartOk | src/Scanner.cpp:23-29 | the head of the loop over lines keeps the invariant |
| ScanProperties.SkipEmptyLineOk | src/Scanner.cpp:90 | an empty line inside a spanning comment is skipped without a lexeme |
| ScanProperties.WholeLineOk | src/Scanner.cpp:93-95 | a line inside a spanning comment is one whole-line lexeme |
| ScanProperties.CloseCommentOk | src/Scanner.cpp:96-99 | the closing line of a block comment gets `[0, pos+2)` and scanning resumes there |
| ScanProperties.BlockCommentOk | src/Scanner.cpp:88-101 | the loop after an open block comment keeps the invariant |
| ScanProperties.LineCommentOk | src/Scanner.cpp:107-113 | the loop after a continued `//` comment keeps the invariant |
| ScanProperties.StringEmptyLineOk | src/Scanner.cpp:134-137 | an empty line ends a continued string with offset 0 |
| ScanProperties.StringPieceOk | src/Scanner.cpp:138-144 | a continued string's fragment is a STRING token for lexeme 0 of its line |
| ScanProperties.StringOk | src/Scanner.cpp:132-145 | the loop after a continued string keeps the invariant |
| ScanProperties.KeepStatementOk | src/Scanner.cpp:226 | a line end with nothing pending emits nothing |
| ScanProperties.PopBackslashOk | src/Scanner.cpp:231-235 | dropping the pending `\` keeps the invariant |
| ScanProperties.CloseStatementOk | src/Scanner.cpp:237-240 | closing the pending tokens with an EOL makes a statement |
| ScanProperties.EndOfLineOk | src/Scanner.cpp:226-241 | the end-of-line handling keeps the invariant |
| ScanProperties.StepOk | src/Scanner.cpp:23-242 | every step of the machine keeps the invariant, and a failure is at a `$` |
| ScanProperties.FlushOk | src/Scanner.cpp:245-249 | the final flush yields results with every line tiled and every statement closed and in order |
| ScanProperties.FlushOrdered | src/Scanner.cpp:245-247 | the EOL numbered past the last line keeps source order |
| ScanProperties.RunOk | src/Scanner.cpp:23-249 | from a state satisfying the invariant, the machine ends in good results or fails at a `$` |
| ScanProperties.InitOk | src/Scanner.cpp:15-18 | one empty record per line and no tokens satisfy the invariant |
| ScanProperties.ScanIsSound | src/Scanner.cpp:14-250 | a scan that succeeds tiles every line, classifies by the spelled text and closes statements in source order; one that fails stopped at a `$` |
| StatementProperties.NormalStepLexemes | src/Scanner.cpp:30-217 | one pass of the loop over a line's characters that consumes text records exactly one more lexeme of the line, starting at `index`, and closes no statement |
| StatementProperties.NormalStepTokens | src/Scanner.cpp:30-217 | the lexeme that pass records carries a token exactly when it is neither whitespace nor a comment; that token is appended to the pending statement and names that lexeme of the current line |
| StatementProperties.StepStatements | src/Scanner.cpp:226-241 | a step closes at most one statement: only the end-of-line handling with tokens pending, with an EOL numbered by the current line; a line with nothing pending emits nothing |
| StatementProperties.RunStatements | src/Scanner.cpp:23-249 | statements already closed stay as they are; each one closed later ends in an EOL numbered by a line of the input, except the last, which may end in the flush's EOL numbered `code.size()` |
| StatementProperties.ScanStatementLines | src/Scanner.cpp:226-249 | every statement of a scan ends in an EOL numbered by a line of the input, or is the last one and ends in the EOL numbered `code.size()` |
| StatementProperties.ScanTokensDistinct | src/Scanner.cpp:30-241 | in a scan's tokens, read in order, no two tokens name the same lexeme of the same line, and the EOLs' line numbers strictly increase |
| Scanner.ScanBlockComment | src/Scanner.cpp:88-101 | the loop over the lines of an open block comment takes the machine to the closing line's offset, or to the end of input |
| Scanner.ScanLineComment | src/Scanner.cpp:107-113 | the loop over the lines of a continued `//` comment takes the machine to the end-of-line handling, or to the end of input |
| Scanner.ScanStringLines | src/Scanner.cpp:132-145 | the loop over the lines of a continued string takes the machine to where scanning resumes, or to the end of input |
| Scanner.ScanCommentCase | src/Scanner.cpp:54-116 | the handling of each comment case takes the machine its steps and makes progress |
| Scanner.ScanStringCase | src/Scanner.cpp:119-148 | a string literal and its continuation take the machine its steps and make progress |
| Scanner.ScanOther | src/Scanner.cpp:118-221 | strings, operators, words or the error, in that order, take the machine its steps |
| Scanner.ScanToken | src/Scanner.cpp:31-222 | one pass of the loop over a line's characters takes the machine its steps, or fails as it does |
| Scanner.ScanLine | src/Scanner.cpp:24-223 | the loop over one line's characters takes the machine to the line's end-of-line handling, or fails as it does |
| Scanner.ScanWith | src/Scanner.cpp:15-249 | the nested loops compute what the machine computes from the initial state |
| Scanner.Scan | src/Scanner.cpp:14-250 | scan returns what the machine computes, and so its results are sound or it fails at a `$` |
| ScanExamples.SeparatorCases | src/Scanner_Support.cpp:113-136 | `1_x` ends at 1, `1_000` at 5 and `1_` at 2 |
| ScanExamples.BinaryStopsAtTwo | src/Scanner_Support.cpp:182-188 | `0b102` is the BINARY literal `0b10` |
| ScanExamples.HexNeedsADigit | src/Scanner_Support.cpp:189-196 | `0x_1` is the INTEGER `0` |
| ScanExamples.ExponentNeedsADigit | src/Scanner_Support.cpp:152-160 | `1.5e+` ends before the `e` |
| ScanExamples.ExponentAtEndOfLine | src/Scanner_Support.cpp:143-144 | `1.5e` at the end of the line ends before the `e` |
| ScanExamples.ExponentOfLoneSeparator | src/Scanner_Support.cpp:120-159 | `1.5e_` is one DECIMAL of length 5 and `1.5e+_` one of length 6: a `_` ending the line stands in for the exponent's digits |
| ScanExamples.SignedExponent | src/Scanner_Support.cpp:146-152 | `1.5e-2` is one DECIMAL literal |
| ScanExamples.NoFractionNoExponent | src/Scanner_Support.cpp:203-211 | `1e5` is the INTEGER `1` |
| ScanExamples.OpeningMarkDoesNotClose | src/Scanner_Support.cpp:233-241 | `/*/` is left open, and `/**/` closes at 4 |
| ScanExamples.QuoteCases | src/Scanner_Support.cpp:257-287 | `""` closes at its second quote, an escaped quote does not close, and an open string on a line ending in `\` continues |
| ScanExamples.EndQuoteExcludesTheQuote | src/Scanner_Support.cpp:291-304 | the fragment stops before the closing quote, and a quote in the first column does not close |
| ScanExamples.EnterRoot | src/Scanner_Support.cpp:390-399 | the walk over the hierarchy enters the root whose symbol opens the text |
| ScanExamples.LongestPath | src/Scanner_Support.cpp:389-403 | `>>=` is one RIGHT_SHIFT_EQUAL |
| ScanExamples.NoChildMatches | src/Scanner_Support.cpp:389-403 | `>>x` gives RIGHT_SHIFT for two characters |
| ScanExamples.LineEnds | src/Scanner_Support.cpp:394-398 | `>` at the end of the line gives GREATER |
| ScanExamples.ThreeWayComparison | src/Scanner_Support.cpp:389-403 | `<=>` is one THREE_WAY_COMP |
| ScanExamples.OnlyFnIsFn | src/Scanner_Support.cpp:454-486 | the only keyword of type FN is two characters long |
| ScanExamples.LongerWordIsNotFn | src/Scanner.cpp:201-213 | `fnx` is never the keyword FN |
| ScanExamples.BackslashFromEarlierLineDropped | src/Scanner.cpp:231-235 | a `\` pending from an earlier line at lexeme 0 is dropped at the end of a line of one lexeme, closing no statement |
| ScanExamples.TrailingBackslashSplices | src/Scanner.cpp:231-235 | a pending `\` that is its line's last lexeme is dropped and no EOL is emitted, so the next line joins the statement |
| ScanExamples.BackslashBeforeSpaceCloses | src/Scanner.cpp:236-240 | a `\` followed by a whitespace lexeme stays, and the statement is closed by an EOL of that line |
| ScanExamples.BlockCommentOverThreeLines | src/Scanner.cpp:88-102 | after `/* start`, the line `middle` is one whole-line lexeme and `end */x` gets `[0, 6)` with scanning resuming at `x`, with no token or EOL between |
| ScanExamples.ContinuedStringResumesOnQuote | src/Scanner.cpp:132-145 | the line after an open string ending in `\` gives a STRING fragment for its lexeme 0 up to the closing quote, and scanning resumes on that quote |

## Left out

- Reading the source file, timing, printing and the command line (src/Source_Code.cpp, src/IO_Functions.cpp, src/Main.cpp and src/Timer.cpp) are not part of this model. The model starts from the lines as a sequence of texts. The printed operator names of src/IO_Functions.cpp, lines 97-156, are used only as the spellings that `Operators.SpellsOperator` checks the hierarchy against.
- `_mm_crc32_u8` is a hardware CRC-32C instruction. It is the parameter `step` of type `Words.HashStep`, so nothing depends on the CRC's bits. That every keyword is recognised is therefore proved only under the hypothesis that the 22 keyword hashes are distinct (`Words.KeywordsAreRecognised`).
- Undefined behaviour past the last line: when a block comment or a continued string runs past the last line, the C++ reads `code[code.size()]`. The machine instead goes straight to the final flush. Every line is still tiled, and the pending tokens are closed by the EOL numbered past the last line.
- A `//` comment continued past the last line leaves the loop over characters with `break` (src/Scanner.cpp:114). The C++ then runs the end-of-line handling with `i == code.size()` and pushes an EOL numbered `code.size()`, which is exactly what the model's flush produces. The one undefined read on that path is `results.lines[code.size()]` at src/Scanner.cpp:233, reached only when the last pending token is a `\` operator; the model flushes that case too, keeping the `\` token.
- ScanProperties.ScanIsSound: states that what a successful scan emits is sound, not that nothing is dropped. That every lexeme that is neither whitespace nor a comment carries exactly one token is stated per pass of the loop over a line's characters (`StatementProperties.NormalStepTokens`); for the continued-comment and continued-string loops it is only in their step functions; it is not stated over a whole scan. Its condition on a STRING token's text is local to that text, so it also admits a whole-line lexeme of a line without quotes.
- `s.back()` on an empty line cannot happen in the modelled code paths: the scanners that call it run only on non-empty lines, and `Strings.EndQuoteScan` requires a non-empty line, as the driver guarantees.
- Offsets, lexeme numbers and line numbers are unbounded naturals: the `uint32_t` casts are exact only for lines and inputs shorter than 2^32, which the model assumes.
- `std::move(toks)` leaves the pending vector empty in the model (the moved-from vector is unspecified in C++).
- The `Token tok` that the C++ reuses across iterations is not modelled as a variable. Each token is built from the type and subtype that its branch sets. The incoming subtype that scan_number and scan_operator receive is `tok.subtype`: 0 for the first token of a line (the union's default member `hash = 0`, src/Scanner.h:148-149, with `tok` declared afresh for each line at src/Scanner.cpp:29), and afterwards the subtype of the line's previous token. The model passes INTEGER and ACCESSOR instead; both scanners overwrite the value whenever they advance, and on a miss it reaches no token.
- The `system("pause")` after the `throw` on line 221 is unreachable and left out. The `std::runtime_error` is the `Failure` outcome `Driver.ScanError`, with the line and offset where it was raised.
- `results.tokens.reserve` has no observable effect and is left out.
- Scanner.ScanStringCase, Scanner.ScanCommentCase, Scanner.ScanOther, Scanner.ScanToken: the C++ loop body is one block with `continue` and `break`. The model splits it into these methods along the C++ blocks. A method's `more` or `Resume` result stands for the `continue`/`break` that ends its block.
