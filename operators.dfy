/// The operator matcher: a fixed prefix tree of operator symbols and the
/// longest-match walk over it (src/Scanner_Support.cpp, lines 307-403, and the
/// Operator record of src/Scanner_Support.h, lines 87-97).
module Operators {
  import opened Chars
  import opened Tokens
  import opened Wrappers

  /** A node of the tree: the type it reports, the character it matches, and
      the operators that extend it by one more character. */
  datatype Operator = Operator(kind: OperatorType, symbol: SChar, ops: seq<Operator>)

  /** build_operator_hierarchy (lines 310-385). */
  function BuildOperatorHierarchy(): seq<Operator> {
    [
      Operator(Accessor, '.' as SChar, []),
      Operator(Asterisk, '*' as SChar, [
        Operator(MultiplyEqual, '=' as SChar, [])
      ]),
      Operator(BackSlash, '\\' as SChar, []),
      Operator(BitwiseAnd, '&' as SChar, [
        Operator(BitwiseAndEqual, '=' as SChar, []),
        Operator(LogicalAnd, '&' as SChar, [])
      ]),
      Operator(BitwiseNot, '~' as SChar, []),
      Operator(BitwiseOr, '|' as SChar, [
        Operator(BitwiseOrEqual, '=' as SChar, []),
        Operator(LogicalOr, '|' as SChar, [])
      ]),
      Operator(BitwiseXor, '^' as SChar, [
        Operator(BitwiseXorEqual, '=' as SChar, []),
        Operator(LogicalXor, '^' as SChar, [])
      ]),
      Operator(ClosedCurly, '}' as SChar, []),
      Operator(ClosedParen, ')' as SChar, []),
      Operator(ClosedSquare, ']' as SChar, [
        Operator(ClosedAttribute, ']' as SChar, [])
      ]),
      Operator(Colon, ':' as SChar, [
        Operator(Scope, ':' as SChar, [])
      ]),
      Operator(Comma, ',' as SChar, []),
      Operator(Equals, '=' as SChar, [
        Operator(EqualsTo, '=' as SChar, []),
        Operator(MatchCase, '>' as SChar, [])
      ]),
      Operator(Greater, '>' as SChar, [
        Operator(GreaterEqual, '=' as SChar, []),
        Operator(RightShift, '>' as SChar, [
          Operator(RightShiftEqual, '=' as SChar, [])
        ])
      ]),
      Operator(Less, '<' as SChar, [
        Operator(LessEqual, '=' as SChar, [
          Operator(ThreeWayComp, '>' as SChar, [])
        ]),
        Operator(LeftShift, '<' as SChar, [
          Operator(LeftShiftEqual, '=' as SChar, [])
        ])
      ]),
      Operator(LogicalNot, '!' as SChar, [
        Operator(NotEqual, '=' as SChar, [])
      ]),
      Operator(Macro, '#' as SChar, []),
      Operator(Minus, '-' as SChar, [
        Operator(Arrow, '>' as SChar, []),
        Operator(Decrement, '-' as SChar, []),
        Operator(MinusEqual, '=' as SChar, [])
      ]),
      Operator(Modulo, '%' as SChar, [
        Operator(ModuloEqual, '=' as SChar, [])
      ]),
      Operator(OpenCurly, '{' as SChar, []),
      Operator(OpenParen, '(' as SChar, []),
      Operator(OpenSquare, '[' as SChar, [
        Operator(OpenAttribute, '[' as SChar, [])
      ]),
      Operator(Plus, '+' as SChar, [
        Operator(Increment, '+' as SChar, []),
        Operator(PlusEqual, '=' as SChar, [])
      ]),
      Operator(Semicolon, ';' as SChar, []),
      Operator(Ternary, '?' as SChar, []),
      // Operators that are not yet supported
      Operator(UnsupportedOperator, '`' as SChar, []),
      Operator(UnsupportedOperator, '@' as SChar, [])
    ]
  }

  /** The position of the first operator of `ops` whose symbol is `c`, or
      `|ops|` when there is none: what the `for (const auto& op : ops)` loop
      of scan_operator settles on. */
  function FirstWithSymbol(ops: seq<Operator>, c: SChar): (j: nat)
    ensures j <= |ops|
    ensures j < |ops| ==> ops[j].symbol == c
    ensures forall m :: 0 <= m < j ==> ops[m].symbol != c
  {
    if ops == [] then 0
    else if ops[0].symbol == c then 0
    else 1 + FirstWithSymbol(ops[1..], c)
  }

  /** scan_operator at `index` with `kind` the incoming value of its
      out-parameter: follow the matching child while input remains and the
      node has children, and report the type of the last node matched. */
  function OperatorScan(s: Text, index: nat, ops: seq<Operator>, kind: OperatorType): (r: Scanned<OperatorType>)
    requires index < |s|
    ensures index <= r.end <= |s|
    ensures r.end == index <==> FirstWithSymbol(ops, s[index]) == |ops|
    ensures r.end == index ==> r.out == kind
    decreases |s| - index
  {
    var j := FirstWithSymbol(ops, s[index]);
    if j == |ops| then Scanned(index, kind)
    else if |ops[j].ops| > 0 && index + 1 < |s| then OperatorScan(s, index + 1, ops[j].ops, ops[j].kind)
    else Scanned(index + 1, ops[j].kind)
  }

  /** scan_operator (lines 389-403). */
  method ScanOperator(s: Text, index: nat, ops: seq<Operator>, kind: OperatorType) returns (e: nat, kind': OperatorType)
    requires index < |s|
    ensures Scanned(e, kind') == OperatorScan(s, index, ops, kind)
    decreases |s| - index
  {
    for j := 0 to |ops|
      invariant forall m :: 0 <= m < j ==> ops[m].symbol != s[index]
    {
      var op := ops[j];
      if op.symbol == s[index] {
        kind' := op.kind;
        var newIndex := index + 1;
        if |op.ops| > 0 && newIndex < |s| {
          e, kind' := ScanOperator(s, newIndex, op.ops, kind');
          return;
        } else {
          return newIndex, kind';
        }
      }
    }
    return index, kind;
  }

  /** The node that spells `w` from the level `ops` down, choosing the first
      matching sibling at every level. */
  function NodeAt(ops: seq<Operator>, w: Text): Option<Operator>
    decreases |w|
  {
    if |w| == 0 then None
    else
      var j := FirstWithSymbol(ops, w[0]);
      if j == |ops| then None
      else if |w| == 1 then Some(ops[j])
      else NodeAt(ops[j].ops, w[1..])
  }

  /** Longest match: scan_operator consumes nothing exactly when the first
      character is no symbol at this level; otherwise it consumes a
      non-empty path of the tree, reports the type of the node at its end,
      and no longer prefix of the rest of the line is a path of the tree. */
  lemma {:induction false} OperatorScanIsLongestMatch(s: Text, index: nat, ops: seq<Operator>, kind: OperatorType)
    requires index < |s|
    ensures var r := OperatorScan(s, index, ops, kind);
      && (r.end == index <==> NodeAt(ops, s[index..index + 1]).None?)
      && (r.end > index ==> NodeAt(ops, s[index..r.end]).Some? && NodeAt(ops, s[index..r.end]).value.kind == r.out)
      && (forall m :: r.end < m <= |s| ==> NodeAt(ops, s[index..m]).None?)
    decreases |s| - index
  {
    var r := OperatorScan(s, index, ops, kind);
    var j := FirstWithSymbol(ops, s[index]);
    assert s[index..index + 1][0] == s[index];
    forall m | index + 2 <= m <= |s|
      ensures j < |ops| ==> NodeAt(ops, s[index..m]) == NodeAt(ops[j].ops, s[index + 1..m])
      ensures j == |ops| ==> NodeAt(ops, s[index..m]).None?
    {
      assert s[index..m][0] == s[index] && s[index..m][1..] == s[index + 1..m];
    }
    if j < |ops| && |ops[j].ops| > 0 && index + 1 < |s| {
      OperatorScanIsLongestMatch(s, index + 1, ops[j].ops, ops[j].kind);
      var r' := OperatorScan(s, index + 1, ops[j].ops, ops[j].kind);
      assert r' == r;
      if r.end == index + 1 {
        assert s[index..r.end] == s[index..index + 1];
      }
    } else if j < |ops| {
      forall m | index + 2 <= m <= |s|
        ensures NodeAt(ops, s[index..m]).None?
      {
        assert s[index + 1..m][0] == s[index + 1];
      }
    }
  }

  /** No two operators of `ops` share a symbol. */
  predicate SymbolsDistinct(ops: seq<Operator>) {
    forall a, b :: 0 <= a < b < |ops| ==> ops[a].symbol != ops[b].symbol
  }

  /** Sibling symbols differ at every level of the tree. */
  predicate DistinctSiblings(ops: seq<Operator>)
    decreases ops
  {
    SymbolsDistinct(ops) && forall j :: 0 <= j < |ops| ==> DistinctSiblings(ops[j].ops)
  }

  /** With distinct siblings the first matching sibling is the only one, so
      the walk does not depend on the order of the children. */
  lemma FirstWithSymbolIsUnique(ops: seq<Operator>, j: nat)
    requires DistinctSiblings(ops)
    requires j < |ops|
    ensures FirstWithSymbol(ops, ops[j].symbol) == j
  {
  }

  /** No path below `ops` is longer than `d`. */
  predicate DepthAtMost(ops: seq<Operator>, d: nat)
    decreases d
  {
    forall j :: 0 <= j < |ops| ==> d > 0 && DepthAtMost(ops[j].ops, d - 1)
  }

  lemma HierarchyDepth()
    ensures DepthAtMost(BuildOperatorHierarchy(), 3)
  {
    var h := BuildOperatorHierarchy();
    forall j | 0 <= j < |h|
      ensures DepthAtMost(h[j].ops, 2)
    {
      forall k | 0 <= k < |h[j].ops|
        ensures DepthAtMost(h[j].ops[k].ops, 1)
      {
        forall m | 0 <= m < |h[j].ops[k].ops|
          ensures DepthAtMost(h[j].ops[k].ops[m].ops, 0)
        {
          assert h[j].ops[k].ops[m].ops == [];
        }
      }
    }
  }

  /** No path of the tree is longer than its depth. */
  lemma {:induction false} NodeAtWithinDepth(ops: seq<Operator>, d: nat, w: Text)
    requires DepthAtMost(ops, d)
    requires NodeAt(ops, w).Some?
    ensures |w| <= d
    decreases |w|
  {
    var j := FirstWithSymbol(ops, w[0]);
    if |w| > 1 {
      NodeAtWithinDepth(ops[j].ops, d - 1, w[1..]);
    }
  }

  // The position in the hierarchy of the root whose symbol is `c`; it shows
  // the root symbols distinct without comparing every pair.
  function RootPosition(c: SChar): nat {
    if c == '.' as SChar then 0
    else if c == '*' as SChar then 1
    else if c == '\\' as SChar then 2
    else if c == '&' as SChar then 3
    else if c == '~' as SChar then 4
    else if c == '|' as SChar then 5
    else if c == '^' as SChar then 6
    else if c == '}' as SChar then 7
    else if c == ')' as SChar then 8
    else if c == ']' as SChar then 9
    else if c == ':' as SChar then 10
    else if c == ',' as SChar then 11
    else if c == '=' as SChar then 12
    else if c == '>' as SChar then 13
    else if c == '<' as SChar then 14
    else if c == '!' as SChar then 15
    else if c == '#' as SChar then 16
    else if c == '-' as SChar then 17
    else if c == '%' as SChar then 18
    else if c == '{' as SChar then 19
    else if c == '(' as SChar then 20
    else if c == '[' as SChar then 21
    else if c == '+' as SChar then 22
    else if c == ';' as SChar then 23
    else if c == '?' as SChar then 24
    else if c == '`' as SChar then 25
    else if c == '@' as SChar then 26
    else 27
  }

  // The facts below about the concrete hierarchy are each checked by
  // evaluating the literal tree.  They are split into chunks of a few roots
  // (RootPositionsN covers roots N and on; RootsSpellN, ChildrenSpellN and
  // GrandchildrenSpellN the nodes under root N) so that no single proof has
  // to unfold the whole tree at once; RootPositions and HierarchySpellsItself
  // put the chunks together.
  lemma RootPositions0()
    ensures forall j :: 0 <= j < 5 ==> RootPosition(BuildOperatorHierarchy()[j].symbol) == j
  {
  }

  lemma RootPositions5()
    ensures forall j :: 5 <= j < 10 ==> RootPosition(BuildOperatorHierarchy()[j].symbol) == j
  {
  }

  lemma RootPositions10()
    ensures forall j :: 10 <= j < 15 ==> RootPosition(BuildOperatorHierarchy()[j].symbol) == j
  {
  }

  lemma RootPositions15()
    ensures forall j :: 15 <= j < 20 ==> RootPosition(BuildOperatorHierarchy()[j].symbol) == j
  {
  }

  lemma RootPositions20()
    ensures forall j :: 20 <= j < 27 ==> RootPosition(BuildOperatorHierarchy()[j].symbol) == j
  {
  }

  lemma RootPositions()
    ensures forall j :: 0 <= j < |BuildOperatorHierarchy()| ==> RootPosition(BuildOperatorHierarchy()[j].symbol) == j
  {
    RootPositions0(); RootPositions5(); RootPositions10(); RootPositions15(); RootPositions20();
  }

  lemma ChildrenDistinct()
    ensures forall j :: 0 <= j < |BuildOperatorHierarchy()| ==> SymbolsDistinct(BuildOperatorHierarchy()[j].ops)
  {
  }

  lemma HierarchySiblingsDistinct()
    ensures DistinctSiblings(BuildOperatorHierarchy())
  {
    var h := BuildOperatorHierarchy();
    RootPositions();
    ChildrenDistinct();
    HierarchyDepth();
    forall j | 0 <= j < |h|
      ensures DistinctSiblings(h[j].ops)
    {
      forall k | 0 <= k < |h[j].ops|
        ensures DistinctSiblings(h[j].ops[k].ops)
      {
        var g := h[j].ops[k].ops;
        assert |g| <= 1;
        forall m | 0 <= m < |g|
          ensures DistinctSiblings(g[m].ops)
        {
          assert g[m].ops == [];
        }
      }
    }
  }

  /** The text that src/IO_Functions.cpp, lines 97-156, prints for each
      operator type; UNSUPPORTED_OPERATOR prints its name. */
  function OperatorSpelling(op: OperatorType): Text {
    match op
    case Accessor => ['.' as SChar]
    case Arrow => ['-' as SChar, '>' as SChar]
    case Asterisk => ['*' as SChar]
    case BackSlash => ['\\' as SChar]
    case BitwiseAnd => ['&' as SChar]
    case BitwiseAndEqual => ['&' as SChar, '=' as SChar]
    case BitwiseNot => ['~' as SChar]
    case BitwiseOr => ['|' as SChar]
    case BitwiseOrEqual => ['|' as SChar, '=' as SChar]
    case BitwiseXor => ['^' as SChar]
    case BitwiseXorEqual => ['^' as SChar, '=' as SChar]
    case ClosedAttribute => [']' as SChar, ']' as SChar]
    case ClosedCurly => ['}' as SChar]
    case ClosedParen => [')' as SChar]
    case ClosedSquare => [']' as SChar]
    case Colon => [':' as SChar]
    case Comma => [',' as SChar]
    case Decrement => ['-' as SChar, '-' as SChar]
    case Divide => ['/' as SChar]
    case DivideEquals => ['/' as SChar, '=' as SChar]
    case Equals => ['=' as SChar]
    case EqualsTo => ['=' as SChar, '=' as SChar]
    case Greater => ['>' as SChar]
    case GreaterEqual => ['>' as SChar, '=' as SChar]
    case Increment => ['+' as SChar, '+' as SChar]
    case LeftShift => ['<' as SChar, '<' as SChar]
    case LeftShiftEqual => ['<' as SChar, '<' as SChar, '=' as SChar]
    case Less => ['<' as SChar]
    case LessEqual => ['<' as SChar, '=' as SChar]
    case LogicalAnd => ['&' as SChar, '&' as SChar]
    case LogicalNot => ['!' as SChar]
    case LogicalOr => ['|' as SChar, '|' as SChar]
    case LogicalXor => ['^' as SChar, '^' as SChar]
    case Macro => ['#' as SChar]
    case MatchCase => ['=' as SChar, '>' as SChar]
    case Minus => ['-' as SChar]
    case MinusEqual => ['-' as SChar, '=' as SChar]
    case Modulo => ['%' as SChar]
    case ModuloEqual => ['%' as SChar, '=' as SChar]
    case MultiplyEqual => ['*' as SChar, '=' as SChar]
    case NotEqual => ['!' as SChar, '=' as SChar]
    case OpenAttribute => ['[' as SChar, '[' as SChar]
    case OpenCurly => ['{' as SChar]
    case OpenParen => ['(' as SChar]
    case OpenSquare => ['[' as SChar]
    case Plus => ['+' as SChar]
    case PlusEqual => ['+' as SChar, '=' as SChar]
    case RightShift => ['>' as SChar, '>' as SChar]
    case RightShiftEqual => ['>' as SChar, '>' as SChar, '=' as SChar]
    case Scope => [':' as SChar, ':' as SChar]
    case Semicolon => [';' as SChar]
    case Ternary => ['?' as SChar]
    case ThreeWayComp => ['<' as SChar, '=' as SChar, '>' as SChar]
    case UnsupportedOperator => ['U' as SChar, 'N' as SChar, 'S' as SChar, 'U' as SChar, 'P' as SChar, 'P' as SChar, 'O' as SChar, 'R' as SChar, 'T' as SChar, 'E' as SChar, 'D' as SChar, '_' as SChar, 'O' as SChar, 'P' as SChar, 'E' as SChar, 'R' as SChar, 'A' as SChar, 'T' as SChar, 'O' as SChar, 'R' as SChar]
  }

  /** `t` is a source spelling of `op`: its printed text, or for the
      unsupported operator one of the two symbols the tree maps to it. */
  predicate SpellsOperator(op: OperatorType, t: Text) {
    if op == UnsupportedOperator then t == ['`' as SChar] || t == ['@' as SChar]
    else t == OperatorSpelling(op)
  }

  /** Every node below `prefix` satisfies `ok` for its type and the path
      that leads to it. */
  predicate TreeLabels(ops: seq<Operator>, prefix: Text, ok: (OperatorType, Text) -> bool)
    decreases ops
  {
    forall j :: 0 <= j < |ops| ==>
      ok(ops[j].kind, prefix + [ops[j].symbol]) && TreeLabels(ops[j].ops, prefix + [ops[j].symbol], ok)
  }

  lemma {:induction false} NodeAtLabel(ops: seq<Operator>, prefix: Text, ok: (OperatorType, Text) -> bool, w: Text)
    requires TreeLabels(ops, prefix, ok)
    requires NodeAt(ops, w).Some?
    ensures ok(NodeAt(ops, w).value.kind, prefix + w)
    decreases |w|
  {
    var j := FirstWithSymbol(ops, w[0]);
    if |w| == 1 {
      assert prefix + w == prefix + [ops[j].symbol];
    } else {
      NodeAtLabel(ops[j].ops, prefix + [ops[j].symbol], ok, w[1..]);
      assert prefix + [ops[j].symbol] + w[1..] == prefix + w;
    }
  }

  lemma RootsSpell0()
    ensures forall j :: 0 <= j < 5 ==> SpellsOperator(BuildOperatorHierarchy()[j].kind, [BuildOperatorHierarchy()[j].symbol])
  {
  }

  lemma RootsSpell5()
    ensures forall j :: 5 <= j < 10 ==> SpellsOperator(BuildOperatorHierarchy()[j].kind, [BuildOperatorHierarchy()[j].symbol])
  {
  }

  lemma RootsSpell10()
    ensures forall j :: 10 <= j < 15 ==> SpellsOperator(BuildOperatorHierarchy()[j].kind, [BuildOperatorHierarchy()[j].symbol])
  {
  }

  lemma RootsSpell15()
    ensures forall j :: 15 <= j < 20 ==> SpellsOperator(BuildOperatorHierarchy()[j].kind, [BuildOperatorHierarchy()[j].symbol])
  {
  }

  lemma RootsSpell20()
    ensures forall j :: 20 <= j < 27 ==> SpellsOperator(BuildOperatorHierarchy()[j].kind, [BuildOperatorHierarchy()[j].symbol])
  {
  }

  lemma ChildrenSpell0()
    ensures forall j, k :: 0 <= j < 4 && 0 <= k < |BuildOperatorHierarchy()[j].ops| ==>
      SpellsOperator(BuildOperatorHierarchy()[j].ops[k].kind, [BuildOperatorHierarchy()[j].symbol, BuildOperatorHierarchy()[j].ops[k].symbol])
  {
  }

  lemma ChildrenSpell4()
    ensures forall j, k :: 4 <= j < 6 && 0 <= k < |BuildOperatorHierarchy()[j].ops| ==>
      SpellsOperator(BuildOperatorHierarchy()[j].ops[k].kind, [BuildOperatorHierarchy()[j].symbol, BuildOperatorHierarchy()[j].ops[k].symbol])
  {
  }

  lemma ChildrenSpell6()
    ensures forall j, k :: 6 <= j < 10 && 0 <= k < |BuildOperatorHierarchy()[j].ops| ==>
      SpellsOperator(BuildOperatorHierarchy()[j].ops[k].kind, [BuildOperatorHierarchy()[j].symbol, BuildOperatorHierarchy()[j].ops[k].symbol])
  {
  }

  lemma ChildrenSpell10()
    ensures forall j, k :: 10 <= j < 13 && 0 <= k < |BuildOperatorHierarchy()[j].ops| ==>
      SpellsOperator(BuildOperatorHierarchy()[j].ops[k].kind, [BuildOperatorHierarchy()[j].symbol, BuildOperatorHierarchy()[j].ops[k].symbol])
  {
  }

  lemma ChildrenSpell13()
    ensures forall j, k :: 13 <= j < 14 && 0 <= k < |BuildOperatorHierarchy()[j].ops| ==>
      SpellsOperator(BuildOperatorHierarchy()[j].ops[k].kind, [BuildOperatorHierarchy()[j].symbol, BuildOperatorHierarchy()[j].ops[k].symbol])
  {
  }

  lemma ChildrenSpell14()
    ensures forall j, k :: 14 <= j < 15 && 0 <= k < |BuildOperatorHierarchy()[j].ops| ==>
      SpellsOperator(BuildOperatorHierarchy()[j].ops[k].kind, [BuildOperatorHierarchy()[j].symbol, BuildOperatorHierarchy()[j].ops[k].symbol])
  {
  }

  lemma ChildrenSpell15()
    ensures forall j, k :: 15 <= j < 18 && 0 <= k < |BuildOperatorHierarchy()[j].ops| ==>
      SpellsOperator(BuildOperatorHierarchy()[j].ops[k].kind, [BuildOperatorHierarchy()[j].symbol, BuildOperatorHierarchy()[j].ops[k].symbol])
  {
  }

  lemma ChildrenSpell18()
    ensures forall j, k :: 18 <= j < 22 && 0 <= k < |BuildOperatorHierarchy()[j].ops| ==>
      SpellsOperator(BuildOperatorHierarchy()[j].ops[k].kind, [BuildOperatorHierarchy()[j].symbol, BuildOperatorHierarchy()[j].ops[k].symbol])
  {
  }

  lemma ChildrenSpell22()
    ensures forall j, k :: 22 <= j < 27 && 0 <= k < |BuildOperatorHierarchy()[j].ops| ==>
      SpellsOperator(BuildOperatorHierarchy()[j].ops[k].kind, [BuildOperatorHierarchy()[j].symbol, BuildOperatorHierarchy()[j].ops[k].symbol])
  {
  }

  lemma GrandchildrenSpell0()
    ensures forall j, k, m ::
      (0 <= j < 13 && 0 <= k < |BuildOperatorHierarchy()[j].ops| && 0 <= m < |BuildOperatorHierarchy()[j].ops[k].ops|) ==>
      SpellsOperator(BuildOperatorHierarchy()[j].ops[k].ops[m].kind,
        [BuildOperatorHierarchy()[j].symbol, BuildOperatorHierarchy()[j].ops[k].symbol, BuildOperatorHierarchy()[j].ops[k].ops[m].symbol])
  {
  }

  lemma GrandchildrenSpell13()
    ensures forall j, k, m ::
      (13 <= j < 14 && 0 <= k < |BuildOperatorHierarchy()[j].ops| && 0 <= m < |BuildOperatorHierarchy()[j].ops[k].ops|) ==>
      SpellsOperator(BuildOperatorHierarchy()[j].ops[k].ops[m].kind,
        [BuildOperatorHierarchy()[j].symbol, BuildOperatorHierarchy()[j].ops[k].symbol, BuildOperatorHierarchy()[j].ops[k].ops[m].symbol])
  {
  }

  lemma GrandchildrenSpell14()
    ensures forall j, k, m ::
      (14 <= j < 15 && 0 <= k < |BuildOperatorHierarchy()[j].ops| && 0 <= m < |BuildOperatorHierarchy()[j].ops[k].ops|) ==>
      SpellsOperator(BuildOperatorHierarchy()[j].ops[k].ops[m].kind,
        [BuildOperatorHierarchy()[j].symbol, BuildOperatorHierarchy()[j].ops[k].symbol, BuildOperatorHierarchy()[j].ops[k].ops[m].symbol])
  {
  }

  lemma GrandchildrenSpell15()
    ensures forall j, k, m ::
      (15 <= j < 27 && 0 <= k < |BuildOperatorHierarchy()[j].ops| && 0 <= m < |BuildOperatorHierarchy()[j].ops[k].ops|) ==>
      SpellsOperator(BuildOperatorHierarchy()[j].ops[k].ops[m].kind,
        [BuildOperatorHierarchy()[j].symbol, BuildOperatorHierarchy()[j].ops[k].symbol, BuildOperatorHierarchy()[j].ops[k].ops[m].symbol])
  {
  }

  /** A tree of depth three is labelled when each of its three levels is. */
  lemma LevelsLabelTree(ops: seq<Operator>, ok: (OperatorType, Text) -> bool)
    requires DepthAtMost(ops, 3)
    requires forall j :: 0 <= j < |ops| ==> ok(ops[j].kind, [ops[j].symbol])
    requires forall j, k :: 0 <= j < |ops| && 0 <= k < |ops[j].ops| ==>
      ok(ops[j].ops[k].kind, [ops[j].symbol, ops[j].ops[k].symbol])
    requires forall j, k, m ::
      (0 <= j < |ops| && 0 <= k < |ops[j].ops| && 0 <= m < |ops[j].ops[k].ops|) ==>
      ok(ops[j].ops[k].ops[m].kind, [ops[j].symbol, ops[j].ops[k].symbol, ops[j].ops[k].ops[m].symbol])
    ensures TreeLabels(ops, [], ok)
  {
    forall j | 0 <= j < |ops|
      ensures ok(ops[j].kind, [] + [ops[j].symbol]) && TreeLabels(ops[j].ops, [] + [ops[j].symbol], ok)
    {
      var p := [ops[j].symbol];
      assert [] + [ops[j].symbol] == p;
      assert DepthAtMost(ops[j].ops, 2);
      forall k | 0 <= k < |ops[j].ops|
        ensures ok(ops[j].ops[k].kind, p + [ops[j].ops[k].symbol])
        ensures TreeLabels(ops[j].ops[k].ops, p + [ops[j].ops[k].symbol], ok)
      {
        var p2 := p + [ops[j].ops[k].symbol];
        assert p2 == [ops[j].symbol, ops[j].ops[k].symbol];
        assert DepthAtMost(ops[j].ops[k].ops, 1);
        forall m | 0 <= m < |ops[j].ops[k].ops|
          ensures ok(ops[j].ops[k].ops[m].kind, p2 + [ops[j].ops[k].ops[m].symbol])
          ensures TreeLabels(ops[j].ops[k].ops[m].ops, p2 + [ops[j].ops[k].ops[m].symbol], ok)
        {
          assert p2 + [ops[j].ops[k].ops[m].symbol] == [ops[j].symbol, ops[j].ops[k].symbol, ops[j].ops[k].ops[m].symbol];
          assert DepthAtMost(ops[j].ops[k].ops[m].ops, 0);
        }
      }
    }
  }

  lemma HierarchySpellsItself()
    ensures TreeLabels(BuildOperatorHierarchy(), [], SpellsOperator)
  {
    RootsSpell0(); RootsSpell5(); RootsSpell10(); RootsSpell15(); RootsSpell20();
    ChildrenSpell0(); ChildrenSpell4(); ChildrenSpell6(); ChildrenSpell10(); ChildrenSpell13(); ChildrenSpell14(); ChildrenSpell15(); ChildrenSpell18(); ChildrenSpell22();
    GrandchildrenSpell0(); GrandchildrenSpell13(); GrandchildrenSpell14(); GrandchildrenSpell15();
    HierarchyDepth();
    LevelsLabelTree(BuildOperatorHierarchy(), SpellsOperator);
  }

  /** The tree agrees with the printed names: every path of the hierarchy
      spells the type at its end. */
  lemma HierarchyPathsSpellTheirType(w: Text)
    requires NodeAt(BuildOperatorHierarchy(), w).Some?
    ensures SpellsOperator(NodeAt(BuildOperatorHierarchy(), w).value.kind, w)
  {
    HierarchySpellsItself();
    NodeAtLabel(BuildOperatorHierarchy(), [], SpellsOperator, w);
    assert [] + w == w;
  }

  /** scan_operator over the hierarchy consumes nothing when the character is
      no root symbol, and otherwise one to three characters that spell the
      type it reports. */
  lemma HierarchyScan(s: Text, index: nat, kind: OperatorType)
    requires index < |s|
    ensures var r := OperatorScan(s, index, BuildOperatorHierarchy(), kind);
      && (r.end == index ==> r.out == kind)
      && (r.end != index ==> index + 1 <= r.end <= index + 3 && SpellsOperator(r.out, s[index..r.end]))
  {
    var r := OperatorScan(s, index, BuildOperatorHierarchy(), kind);
    OperatorScanIsLongestMatch(s, index, BuildOperatorHierarchy(), kind);
    if r.end != index {
      HierarchyPathsSpellTheirType(s[index..r.end]);
      HierarchyDepth();
      NodeAtWithinDepth(BuildOperatorHierarchy(), 3, s[index..r.end]);
    }
  }
}
