/// The comment / division disambiguator (src/Scanner_Support.cpp, lines
/// 215-253).
module Comments {
  import opened Chars
  import opened Tokens
  import opened Wrappers

  // The two characters `*` `/` (the end of a block comment) start at position `k`.
  predicate IsCloseAt(s: Text, k: nat) {
    k + 1 < |s| && s[k] == Star && s[k + 1] == Slash
  }

  // `s.find("*/", from)`: the first end-of-comment mark that starts at or
  // after `from`, or `None` for `npos`.
  function FindClose(s: Text, from: nat): (p: Option<nat>)
    requires from <= |s|
    ensures p.Some? ==> from <= p.value && IsCloseAt(s, p.value)
    ensures p.Some? ==> forall k :: from <= k < p.value ==> !IsCloseAt(s, k)
    ensures p.None? ==> forall k :: from <= k ==> !IsCloseAt(s, k)
    decreases |s| - from
  {
    if from + 1 >= |s| then None
    else if IsCloseAt(s, from) then Some(from)
    else FindClose(s, from + 1)
  }

  /** scan_comment at `index`, with `cc` the incoming value of its
      out-parameter. */
  function CommentScan(s: Text, index: nat, cc: CommentCase): (r: Scanned<CommentCase>)
    requires index <= |s|
    // Not a slash: no match, and the case is left as it was.
    ensures CharAt(s, index) != Slash ==> r == Scanned(index, cc)
    // Every slash is consumed.
    ensures CharAt(s, index) == Slash ==> index < r.end <= |s|
    // `//`: the rest of the line; a continuation exactly when the line ends in `\`.
    ensures CharAt(s, index) == Slash && index + 1 < |s| && s[index + 1] == Slash ==>
      r.end == |s| && (EndsWithBackslash(s) ==> r.out == SingleLineContinuation)
      && (!EndsWithBackslash(s) ==> r.out == cc)
    // `/*`: just past the first end-of-comment mark that starts at or after
    // index + 2, or the rest of the line and MULTILINE when there is none.
    ensures CharAt(s, index) == Slash && index + 1 < |s| && s[index + 1] == Star ==>
      if exists k :: index + 2 <= k && IsCloseAt(s, k) then
        index + 4 <= r.end && IsCloseAt(s, r.end - 2) && r.out == cc
        && forall k :: index + 2 <= k < r.end - 2 ==> !IsCloseAt(s, k)
      else
        r == Scanned(|s|, Multiline)
    // `/=` and the bare `/`.
    ensures CharAt(s, index) == Slash && index + 1 < |s| && s[index + 1] == '=' as SChar ==>
      r == Scanned(index + 2, DivisionEquals)
    ensures CharAt(s, index) == Slash && (index + 1 == |s| || s[index + 1] !in {Slash, Star, '=' as SChar}) ==>
      r == Scanned(index + 1, Division)
  {
    if CharAt(s, index) != Slash then
      Scanned(index, cc)
    else if index + 1 < |s| && s[index + 1] == Slash then
      Scanned(|s|, if EndsWithBackslash(s) then SingleLineContinuation else cc)
    else if index + 1 < |s| && s[index + 1] == Star then
      match FindClose(s, index + 2)
      case None => Scanned(|s|, Multiline)
      case Some(p) => Scanned(p + 2, cc)
    else if index + 1 < |s| && s[index + 1] == '=' as SChar then
      Scanned(index + 2, DivisionEquals)
    else
      Scanned(index + 1, Division)
  }
}
