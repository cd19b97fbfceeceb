/// The string-literal scanners (src/Scanner_Support.cpp, lines 256-304).
module Strings {
  import opened Chars
  import opened Tokens

  /** Position `p` holds the quote `q` and the character before it is not a
      backslash.  This is a one-character look-behind: the quote after `\\`
      does not close a string either. */
  predicate IsClosingQuote(s: Text, q: SChar, p: nat) {
    1 <= p < |s| && s[p] == q && s[p - 1] != Backslash
  }

  /** The first closing quote at or after `from`, or `|s|` when there is none. */
  function ClosingQuote(s: Text, q: SChar, from: nat): (p: nat)
    requires 1 <= from <= |s|
    ensures from <= p <= |s|
    ensures p < |s| ==> IsClosingQuote(s, q, p)
    ensures forall k :: from <= k < p ==> !IsClosingQuote(s, q, k)
    decreases |s| - from
  {
    if from == |s| then |s|
    else if IsClosingQuote(s, q, from) then from
    else ClosingQuote(s, q, from + 1)
  }

  /** scan_string_double_quote / scan_string_single_quote at `index` for a string of kind
      `q`; `nextLine` is the incoming value of the out-parameter. */
  function QuotedScan(s: Text, index: nat, q: StringType, nextLine: bool): (r: Scanned<bool>)
    requires index <= |s|
    // Not the quote: no match, and `nextLine` is not written.
    ensures CharAt(s, index) != QuoteChar(q) ==> r == Scanned(index, nextLine)
    ensures CharAt(s, index) == QuoteChar(q) ==> index < r.end <= |s|
    // Closed on this line: just past the first unescaped quote after the opening one.
    ensures CharAt(s, index) == QuoteChar(q) && (exists k :: index < k && IsClosingQuote(s, QuoteChar(q), k)) ==>
      IsClosingQuote(s, QuoteChar(q), r.end - 1) && r.out == nextLine
      && forall k :: index < k < r.end - 1 ==> !IsClosingQuote(s, QuoteChar(q), k)
    // Open at the end of the line: a continuation exactly when the line ends in `\`.
    ensures CharAt(s, index) == QuoteChar(q) && (forall k :: index < k ==> !IsClosingQuote(s, QuoteChar(q), k)) ==>
      r == Scanned(|s|, EndsWithBackslash(s))
  {
    if CharAt(s, index) != QuoteChar(q) then
      Scanned(index, nextLine)
    else
      var p := ClosingQuote(s, QuoteChar(q), index + 1);
      if p < |s| then Scanned(p + 1, nextLine) else Scanned(|s|, EndsWithBackslash(s))
  }

  /** scan_string_double_quote (lines 257-270) with `q == Double`,
      and scan_string_single_quote (lines 274-287) with `q == Single`. */
  method ScanQuoted(s: Text, index: nat, q: StringType, nextLine: bool) returns (e: nat, nextLine': bool)
    requires index <= |s|
    ensures Scanned(e, nextLine') == QuotedScan(s, index, q, nextLine)
  {
    if CharAt(s, index) == QuoteChar(q) {
      for i := index + 1 to |s|
        invariant ClosingQuote(s, QuoteChar(q), index + 1) == ClosingQuote(s, QuoteChar(q), i)
      {
        if s[i] == QuoteChar(q) {
          if s[i - 1] != Backslash {
            return i + 1, nextLine;
          }
        }
      }
      return |s|, EndsWithBackslash(s);
    }
    return index, nextLine;
  }

  /** scan_string_end_quote: on a line that continues a string, the position
      of the first unescaped quote of kind `q`, which is left out of the fragment.  A
      quote at position 0 never terminates. */
  function EndQuoteScan(s: Text, q: StringType): (r: Scanned<bool>)
    requires |s| > 0
    ensures 1 <= r.end <= |s|
    ensures forall k: nat :: k < r.end ==> !IsClosingQuote(s, QuoteChar(q), k)
    ensures r.end < |s| ==> IsClosingQuote(s, QuoteChar(q), r.end) && !r.out
    ensures r.end == |s| ==> r.out == EndsWithBackslash(s)
  {
    var p := ClosingQuote(s, QuoteChar(q), 1);
    if p < |s| then Scanned(p, false) else Scanned(|s|, EndsWithBackslash(s))
  }

  /** scan_string_end_quote (lines 291-304). */
  method ScanEndQuote(s: Text, q: StringType) returns (e: nat, nextLine: bool)
    requires |s| > 0
    ensures Scanned(e, nextLine) == EndQuoteScan(s, q)
  {
    for i := 0 to |s|
      invariant i <= 1 || ClosingQuote(s, QuoteChar(q), 1) == ClosingQuote(s, QuoteChar(q), i)
    {
      if s[i] == QuoteChar(q) {
        if i != 0 {
          if s[i - 1] != Backslash {
            return i, false;
          }
        }
      }
    }
    return |s|, EndsWithBackslash(s);
  }
}
