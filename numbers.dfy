/// The numeric scanner: binary, hexadecimal, integer and decimal literals with
/// `_` separators (src/Scanner_Support.cpp, lines 46-212).
module Numbers {
  import opened Chars
  import opened Tokens

  /** The digit class a separated run is made of. */
  datatype Radix = Base2 | Base10 | Base16

  predicate IsDigitOf(r: Radix, c: SChar) {
    match r
    case Base2 => IsBinaryDigit(c)
    case Base10 => IsDecimalDigit(c)
    case Base16 => IsHexDigit(c)
  }

  /** Position `p` ends a separated digit run: it is the end of the line, or a
      character that is neither a digit nor a `_` the run may absorb.  A `_`
      is absorbed when a digit follows it, and also when it is the last
      character of the line. */
  predicate RunStops(s: Text, r: Radix, p: nat)
    requires p <= |s|
  {
    p == |s| ||
    (!IsDigitOf(r, s[p]) && !(s[p] == Underscore && (p + 1 == |s| || IsDigitOf(r, s[p + 1]))))
  }

  /** Where the loop shared by scan_integer, scan_binary and scan_hex stops
      when it starts at `i`: the first stopping position at or after `i`. */
  function RunEnd(s: Text, r: Radix, i: nat): (e: nat)
    requires i <= |s|
    ensures i <= e <= |s|
    decreases |s| - i
  {
    if RunStops(s, r, i) then i else RunEnd(s, r, i + 1)
  }

  /** The run is made of digits and absorbed separators, and it ends at the
      first stopping position: a character that is not a digit, and not a
      `_` followed by a digit or by the end of the line. */
  lemma {:induction false} RunEndFirstStop(s: Text, r: Radix, i: nat)
    requires i <= |s|
    ensures var e := RunEnd(s, r, i);
      && RunStops(s, r, e)
      && (forall k :: i <= k < e ==> !RunStops(s, r, k))
      && (forall k :: i <= k < e ==> IsDigitOf(r, s[k]) || s[k] == Underscore)
      && (forall k :: i <= k < e && s[k] == Underscore && k + 1 < |s| ==> IsDigitOf(r, s[k + 1]))
      && (e < |s| ==> !IsDigitOf(r, s[e]))
      && (e < |s| && s[e] == Underscore ==> e + 1 < |s| && !IsDigitOf(r, s[e + 1]))
    decreases |s| - i
  {
    if !RunStops(s, r, i) {
      RunEndFirstStop(s, r, i + 1);
    }
  }

  /** scan_integer (lines 113-136); the same loop is the body of scan_binary
      and scan_hex after their first digit. */
  method ScanRun(s: Text, index: nat, r: Radix) returns (e: nat)
    requires index <= |s|
    ensures e == RunEnd(s, r, index)
  {
    var i := index;
    while i < |s|
      invariant index <= i <= |s| + 1
      invariant i <= |s| ==> RunEnd(s, r, i) == RunEnd(s, r, index)
      invariant i == |s| + 1 ==> RunEnd(s, r, index) == |s|
      decreases |s| + 1 - i
    {
      if IsDigitOf(r, s[i]) {
      } else if s[i] == Underscore {
        i := i + 1;
        if i < |s| {
          if !IsDigitOf(r, s[i]) {
            return i - 1;
          }
          assert RunEnd(s, r, i - 1) == RunEnd(s, r, i);
        }
      } else {
        return i;
      }
      i := i + 1;
    }
    return |s|;
  }

  /** scan_binary / scan_hex: no match unless the first character is a digit
      of the radix; otherwise the separated run that this digit starts. */
  function RadixRunEnd(s: Text, r: Radix, i: nat): (e: nat)
    requires i <= |s|
    ensures i <= e <= |s|
    ensures e == i <==> !IsDigitOf(r, CharAt(s, i))
    ensures e != i ==> e == RunEnd(s, r, i)
  {
    if !IsDigitOf(r, CharAt(s, i)) then i else RunEnd(s, r, i + 1)
  }

  /** scan_binary (lines 47-76) with `Base2`, scan_hex (lines 80-109) with `Base16`. */
  method ScanRadixRun(s: Text, index: nat, r: Radix) returns (e: nat)
    requires index <= |s|
    ensures e == RadixRunEnd(s, r, index)
  {
    if !IsDigitOf(r, CharAt(s, index)) {
      return index;
    }
    e := ScanRun(s, index + 1, r);
  }

  predicate IsExponentMark(c: SChar) {
    c == 'e' as SChar || c == 'E' as SChar
  }

  predicate IsSign(c: SChar) {
    c == '+' as SChar || c == '-' as SChar
  }

  /** Where the digits of an exponent begin when `s[n]` is its mark: after
      the sign, if there is one. */
  function ExponentDigits(s: Text, n: nat): nat
    requires n + 1 < |s|
  {
    if IsSign(s[n + 1]) then n + 2 else n + 1
  }

  /** An exponent follows the fraction run that ends at `n`: a mark that is
      not the last character of the line, then an optional sign, then a
      non-empty separated run: at least one decimal digit, or a `_` that
      ends the line. */
  predicate HasExponent(s: Text, n: nat)
    requires n <= |s|
  {
    n + 1 < |s| && IsExponentMark(s[n]) && RunEnd(s, Base10, ExponentDigits(s, n)) != ExponentDigits(s, n)
  }

  /** scan_decimal: the fraction after the `.` starts at `index`. */
  function DecimalEnd(s: Text, index: nat): (e: nat)
    requires index <= |s|
    ensures RunEnd(s, Base10, index) <= e <= |s|
    ensures HasExponent(s, RunEnd(s, Base10, index)) ==>
              e == RunEnd(s, Base10, ExponentDigits(s, RunEnd(s, Base10, index)))
    ensures !HasExponent(s, RunEnd(s, Base10, index)) ==> e == RunEnd(s, Base10, index)
  {
    var n := RunEnd(s, Base10, index);
    if n + 1 != |s| && IsExponentMark(CharAt(s, n)) then
      if IsSign(s[n + 1]) then
        var x := RunEnd(s, Base10, n + 2);
        if n + 2 != x then x else n
      else
        var x := RunEnd(s, Base10, n + 1);
        if n + 1 != x then x else n
    else
      n
  }

  /** scan_decimal (lines 140-170). */
  method ScanDecimal(s: Text, index: nat) returns (e: nat)
    requires index <= |s|
    ensures e == DecimalEnd(s, index)
  {
    var newIndex := ScanRun(s, index, Base10);
    if newIndex + 1 != |s| {
      if CharAt(s, newIndex) == 'e' as SChar || CharAt(s, newIndex) == 'E' as SChar {
        if s[newIndex + 1] == '+' as SChar || s[newIndex + 1] == '-' as SChar {
          var nextIndex := ScanRun(s, newIndex + 2, Base10);
          if newIndex + 2 != nextIndex {
            return nextIndex;
          } else {
            return newIndex;
          }
        } else {
          var nextIndex := ScanRun(s, newIndex + 1, Base10);
          if newIndex + 1 != nextIndex {
            return nextIndex;
          } else {
            return newIndex;
          }
        }
      }
    }
    return newIndex;
  }

  /** A `0` followed by the lower-case `marker`, with at least one character
      after the marker, and at least one digit of the radix right there. */
  predicate PrefixedLiteral(s: Text, index: nat, marker: SChar, r: Radix)
    requires index < |s|
  {
    s[index] == '0' as SChar && index + 2 < |s| && s[index + 1] == marker
    && RadixRunEnd(s, r, index + 2) != index + 2
  }

  /** scan_number: the end of the numeric literal at `index` and its kind.
      `kind` is the incoming value of the out-parameter; it is returned
      unchanged when there is no number. */
  function NumberScan(s: Text, index: nat, kind: NumberType): (r: Scanned<NumberType>)
    requires index <= |s|
    ensures index <= r.end <= |s|
    ensures r.end == index <==> !IsDecimalDigit(CharAt(s, index))
    ensures r.end == index ==> r.out == kind
    ensures r.end != index ==>
      (r.out == Binary <==> PrefixedLiteral(s, index, 'b' as SChar, Base2)) &&
      (r.out == Hex <==> PrefixedLiteral(s, index, 'x' as SChar, Base16))
    ensures r.end != index && r.out == Binary ==> r.end == RunEnd(s, Base2, index + 2)
    ensures r.end != index && r.out == Hex ==> r.end == RunEnd(s, Base16, index + 2)
    ensures r.end != index && r.out != Binary && r.out != Hex ==>
      var n := RunEnd(s, Base10, index + 1);
      (r.out == Decimal <==> n < |s| && s[n] == '.' as SChar) &&
      (r.out == Decimal ==> r.end == DecimalEnd(s, n + 1)) &&
      (r.out == Integer ==> r.end == n)
  {
    if !IsDecimalDigit(CharAt(s, index)) then
      Scanned(index, kind)
    else if PrefixedLiteral(s, index, 'b' as SChar, Base2) then
      Scanned(RadixRunEnd(s, Base2, index + 2), Binary)
    else if PrefixedLiteral(s, index, 'x' as SChar, Base16) then
      Scanned(RadixRunEnd(s, Base16, index + 2), Hex)
    else
      var n := RunEnd(s, Base10, index + 1);
      if n < |s| && s[n] == '.' as SChar then Scanned(DecimalEnd(s, n + 1), Decimal)
      else Scanned(n, Integer)
  }

  /** scan_number (lines 174-212). */
  method ScanNumber(s: Text, index: nat, kind: NumberType) returns (e: nat, kind': NumberType)
    requires index <= |s|
    ensures Scanned(e, kind') == NumberScan(s, index, kind)
  {
    kind' := kind;
    if !IsDecimalDigit(CharAt(s, index)) {
      return index, kind';
    }
    if s[index] == '0' as SChar {
      if index + 2 < |s| {
        if s[index + 1] == 'b' as SChar {
          var newIndex := ScanRadixRun(s, index + 2, Base2);
          if newIndex != index + 2 {
            return newIndex, Binary;
          }
        } else if s[index + 1] == 'x' as SChar {
          var newIndex := ScanRadixRun(s, index + 2, Base16);
          if newIndex != index + 2 {
            return newIndex, Hex;
          }
        }
      }
    }
    var newIndex := ScanRun(s, index + 1, Base10);
    if newIndex < |s| {
      if s[newIndex] == '.' as SChar {
        e := ScanDecimal(s, newIndex + 1);
        return e, Decimal;
      }
    }
    return newIndex, Integer;
  }
}
