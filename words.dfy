/// Words and keywords: scan_word, the two hash_text overloads, match_text and
/// the keyword table (src/Scanner_Support.cpp, lines 406-486), and the
/// classification of a scanned word (src/Scanner.cpp, lines 195-218).
module Words {
  import opened Chars
  import opened Tokens

  /** scan_word at `index`: the end of the run of word characters that starts there. */
  function WordEnd(s: Text, index: nat): (e: nat)
    requires index <= |s|
    ensures index <= e <= |s|
    ensures forall k :: index <= k < e ==> IsWordChar(s[k])
    ensures e < |s| ==> !IsWordChar(s[e])
    decreases |s| - index
  {
    if index == |s| || !IsWordChar(s[index]) then index else WordEnd(s, index + 1)
  }

  /** scan_word (lines 407-415). */
  method ScanWord(s: Text, index: nat) returns (e: nat)
    requires index <= |s|
    ensures e == WordEnd(s, index)
  {
    for i := index to |s|
      invariant WordEnd(s, i) == WordEnd(s, index)
    {
      if !IsWordChar(s[i]) {
        return i;
      }
    }
    return |s|;
  }

  /** One step of the CRC instruction `_mm_crc32_u8`: the running value and
      the next byte give the new running value.  The instruction itself is
      not modelled; every statement below holds for any step function. */
  type HashStep = (U32, Byte) -> U32

  /** The hash of a text: the step applied to its bytes in order, from 0. */
  function HashOf(step: HashStep, t: Text): U32
    decreases |t|
  {
    if |t| == 0 then 0 else step(HashOf(step, t[..|t| - 1]), ToByte(t[|t| - 1]))
  }

  /** The hash extends one byte at a time: what lets either overload stop
      anywhere and resume. */
  lemma HashOfSnoc(step: HashStep, t: Text, c: SChar)
    ensures HashOf(step, t + [c]) == step(HashOf(step, t), ToByte(c))
  {
    assert (t + [c])[..|t|] == t;
  }

  /** hash_text over a lexeme (lines 419-425). */
  method HashText(step: HashStep, s: Text, l: Lexeme) returns (crc: U32)
    requires l.begin <= l.end <= |s|
    ensures crc == HashOf(step, LexemeText(s, l))
  {
    crc := 0;
    for i := l.begin to l.end
      invariant crc == HashOf(step, s[l.begin..i])
    {
      HashOfSnoc(step, s[l.begin..i], s[i]);
      assert s[l.begin..i + 1] == s[l.begin..i] + [s[i]];
      crc := step(crc, ToByte(s[i]));
    }
  }

  /** The length of a C string held in `s`: up to its first NUL, or all of `s`. */
  function CStringLength(s: Text): (n: nat)
    ensures n <= |s|
    ensures forall k :: 0 <= k < n ==> s[k] != 0
    ensures n < |s| ==> s[n] == 0
    decreases |s|
  {
    if |s| == 0 || s[0] == 0 then 0 else 1 + CStringLength(s[1..])
  }

  /** hash_text over a NUL-terminated string (lines 429-436). */
  method HashCString(step: HashStep, s: Text) returns (crc: U32)
    ensures crc == HashOf(step, s[..CStringLength(s)])
  {
    crc := 0;
    var i := 0;
    while i < |s| && s[i] != 0
      invariant 0 <= i <= CStringLength(s)
      invariant crc == HashOf(step, s[..i])
      decreases |s| - i
    {
      HashOfSnoc(step, s[..i], s[i]);
      assert s[..i + 1] == s[..i] + [s[i]];
      crc := step(crc, ToByte(s[i]));
      i := i + 1;
    }
  }

  /** match_text (lines 440-449): the lengths agree and the bytes agree. */
  function MatchText(txt: Text, l: Lexeme, word: Text): (r: bool)
    requires l.begin <= l.end <= |txt|
    ensures r <==> LexemeText(txt, l) == word
  {
    if l.end - l.begin != |word| then false
    else
      assert forall k :: 0 <= k < |word| ==> LexemeText(txt, l)[k] == txt[l.begin + k];
      forall k :: 0 <= k < |word| ==> txt[l.begin + k] == word[k]
  }

  /** A keyword: its spelling and its type (src/Scanner_Support.h, lines 127-130). */
  datatype Keyword = Keyword(text: Text, kind: KeywordType)

  /** The entries of build_keywords (lines 454-486), in source order. */
  function KeywordList(): seq<Keyword> {
    [
      // Types
      Keyword(Ascii("i8"), I8),
      Keyword(Ascii("i16"), I16),
      Keyword(Ascii("i32"), I32),
      Keyword(Ascii("i64"), I64),
      Keyword(Ascii("u8"), U8),
      Keyword(Ascii("u16"), U16),
      Keyword(Ascii("u32"), U32),
      Keyword(Ascii("u64"), U64),
      Keyword(Ascii("f16"), F16),
      Keyword(Ascii("f32"), F32),
      Keyword(Ascii("f64"), F64),
      // Data
      Keyword(Ascii("class"), Class),
      Keyword(Ascii("let"), Let),
      Keyword(Ascii("self"), Self),
      Keyword(Ascii("struct"), Struct),
      Keyword(Ascii("var"), Var),
      // Functional
      Keyword(Ascii("cref"), Cref),
      Keyword(Ascii("fn"), Fn),
      Keyword(Ascii("move"), Move),
      Keyword(Ascii("ref"), Ref),
      Keyword(Ascii("return"), Return),
      // Other
      Keyword(Ascii("namespace"), Namespace)
    ]
  }

  /** No earlier entry of `ks` than `a` has the hash of entry `a`. */
  predicate FirstWithItsHash(step: HashStep, ks: seq<Keyword>, a: nat)
    requires a < |ks|
  {
    forall b :: 0 <= b < a ==> HashOf(step, ks[b].text) != HashOf(step, ks[a].text)
  }

  /** The `std::map` that the initializer list `ks` builds, keyed by the hash
      of each spelling: of entries with equal keys the first one is kept.
      C++ leaves open which one the initializer list keeps; the model picks
      the first, as common implementations do.  It matters only when two
      keyword hashes collide. */
  function BuildTable(step: HashStep, ks: seq<Keyword>): (m: map<U32, Keyword>)
    ensures forall h :: h in m ==> m[h] in ks && HashOf(step, m[h].text) == h
    ensures forall j :: 0 <= j < |ks| ==> HashOf(step, ks[j].text) in m
    decreases |ks|
  {
    if ks == [] then map[]
    else
      var m := BuildTable(step, ks[..|ks| - 1]);
      var last := ks[|ks| - 1];
      var h := HashOf(step, last.text);
      assert forall j :: 0 <= j < |ks| - 1 ==> ks[..|ks| - 1][j] == ks[j];
      if h in m then m else m[h := last]
  }

  /** First insertion wins: an entry no earlier entry collides with is the
      one the table keeps under its hash. */
  lemma {:induction false} BuildTableKeepsFirst(step: HashStep, ks: seq<Keyword>, a: nat)
    requires a < |ks|
    requires FirstWithItsHash(step, ks, a)
    ensures BuildTable(step, ks)[HashOf(step, ks[a].text)] == ks[a]
    decreases |ks|
  {
    var init := ks[..|ks| - 1];
    var m := BuildTable(step, init);
    var last := ks[|ks| - 1];
    var h := HashOf(step, ks[a].text);
    if a < |ks| - 1 {
      assert FirstWithItsHash(step, init, a) by {
        forall b | 0 <= b < a
          ensures HashOf(step, init[b].text) != HashOf(step, init[a].text)
        {
          assert init[b] == ks[b] && init[a] == ks[a];
        }
      }
      BuildTableKeepsFirst(step, init, a);
      assert init[a] == ks[a];
    } else {
      assert h !in m by {
        forall h' | h' in m
          ensures h' != h
        {
          var j :| 0 <= j < |init| && init[j] == m[h'];
          assert ks[j] == init[j];
        }
      }
    }
  }

  /** build_keywords (lines 454-486). */
  function BuildKeywords(step: HashStep): map<U32, Keyword> {
    BuildTable(step, KeywordList())
  }

  /** The type of the token that the word spanning `l` becomes (src/Scanner.cpp,
      lines 195-218): a KEYWORD when the table holds an entry under the word's
      hash whose spelling is the word, otherwise a WORD with that hash. */
  function ClassifyWord(step: HashStep, keywords: map<U32, Keyword>, s: Text, l: Lexeme): (k: TokenKind)
    requires l.begin <= l.end <= |s|
    ensures k.WordTok? || k.KeywordTok?
    ensures var h := HashOf(step, LexemeText(s, l));
      && (k.KeywordTok? <==> h in keywords && keywords[h].text == LexemeText(s, l))
      && (k.KeywordTok? ==> keywords[h].kind == k.key)
      && (k.WordTok? ==> k.hash == h)
  {
    var h := HashOf(step, LexemeText(s, l));
    if h in keywords && MatchText(s, l, keywords[h].text) then KeywordTok(keywords[h].kind)
    else WordTok(h)
  }

  /** A KEYWORD token is always spelled exactly as its keyword, whatever the
      hash: a word whose hash collides with a keyword's stays a WORD. */
  lemma KeywordIsSpelledOut(step: HashStep, s: Text, l: Lexeme)
    requires l.begin <= l.end <= |s|
    ensures var k := ClassifyWord(step, BuildKeywords(step), s, l);
      k.KeywordTok? ==> Keyword(LexemeText(s, l), k.key) in KeywordList()
  {
  }

  /** No spelling in the keyword table holds a NUL, so the NUL-terminated
      overload of hash_text (lines 429-436) hashes each spelling to exactly
      the key the table files it under. */
  lemma KeywordsHashAsCStrings(step: HashStep)
    ensures forall j :: 0 <= j < |KeywordList()| ==>
      && CStringLength(KeywordList()[j].text) == |KeywordList()[j].text|
      && HashOf(step, KeywordList()[j].text[..CStringLength(KeywordList()[j].text)]) in BuildKeywords(step)
  {
    var ks := KeywordList();
    forall j | 0 <= j < |ks|
      ensures CStringLength(ks[j].text) == |ks[j].text|
      ensures HashOf(step, ks[j].text[..CStringLength(ks[j].text)]) in BuildKeywords(step)
    {
      assert forall k :: 0 <= k < |ks[j].text| ==> ks[j].text[k] != 0;
      assert ks[j].text[..|ks[j].text|] == ks[j].text;
    }
  }

  /** The keywords' hashes are pairwise distinct under `step`. */
  predicate HashesDistinct(step: HashStep) {
    forall a, b :: 0 <= a < b < |KeywordList()| ==>
      HashOf(step, KeywordList()[a].text) != HashOf(step, KeywordList()[b].text)
  }

  /** When the hashes do not collide, every keyword spelled out is recognised. */
  lemma KeywordsAreRecognised(step: HashStep, s: Text, l: Lexeme, j: nat)
    requires HashesDistinct(step)
    requires l.begin <= l.end <= |s|
    requires j < |KeywordList()|
    requires LexemeText(s, l) == KeywordList()[j].text
    ensures ClassifyWord(step, BuildKeywords(step), s, l) == KeywordTok(KeywordList()[j].kind)
  {
    assert FirstWithItsHash(step, KeywordList(), j);
    BuildTableKeepsFirst(step, KeywordList(), j);
  }
}
