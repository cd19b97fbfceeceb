/// The whitespace scanner (src/Scanner_Support.cpp, lines 10-13 and 34-43).
module Whitespace {
  import opened Chars

  /** scan_whitespace at `index`: the end of the run of whitespace that
      starts there. */
  function WhitespaceEnd(s: Text, index: nat): (e: nat)
    requires index <= |s|
    ensures index <= e <= |s|
    ensures forall k :: index <= k < e ==> IsWhitespace(s[k])
    ensures e < |s| ==> !IsWhitespace(s[e])
    decreases |s| - index
  {
    if index == |s| || !IsWhitespace(s[index]) then index else WhitespaceEnd(s, index + 1)
  }

  /** scan_whitespace (lines 36-43). */
  method ScanWhitespace(s: Text, index: nat) returns (e: nat)
    requires index <= |s|
    ensures e == WhitespaceEnd(s, index)
  {
    for i := index to |s|
      invariant WhitespaceEnd(s, i) == WhitespaceEnd(s, index)
    {
      if !IsWhitespace(s[i]) {
        return i;
      }
    }
    return |s|;
  }
}
