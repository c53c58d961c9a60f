/** Character-level string transforms of index.php: PHP's `strtr` with two
    strings, `str_replace` of single characters by the empty string, ASCII
    `strtolower`, and the sanitisers built from them (stripAccents,
    stripQuotes, stripSpaces, strClean). Strings are sequences of characters;
    the byte-wise behaviour of PHP on multibyte UTF-8 input is not modelled. */
module Text {

  function Min(a: int, b: int): int { if a <= b then a else b }

  // ---------------------------------------------------------------------------
  // strtr($s, $from, $to)

  /** The translation PHP's `strtr` applies to one character: position i of
      `from` maps to position i of `to` for i < min(|from|, |to|); the extra
      characters of the longer string are ignored. PHP fills its translation
      table from left to right, so when a character occurs twice in `from`
      the later position wins; the recursion therefore looks from the end. */
  function MapChar(c: char, from: string, to: string): char
    decreases |from|
  {
    var n := Min(|from|, |to|);
    if n == 0 then c
    else if from[n - 1] == c then to[n - 1]
    else MapChar(c, from[..n - 1], to[..n - 1])
  }

  /** `strtr($s, $from, $to)`: every character translated once, in one pass. */
  function Strtr(s: string, from: string, to: string): (r: string)
    ensures |r| == |s|
    ensures forall i :: 0 <= i < |s| ==> r[i] == MapChar(s[i], from, to)
  {
    seq(|s|, i requires 0 <= i < |s| => MapChar(s[i], from, to))
  }

  /** A character outside the used part of `from` is left alone. */
  lemma {:induction false} MapCharOutside(c: char, from: string, to: string)
    requires c !in from[..Min(|from|, |to|)]
    ensures MapChar(c, from, to) == c
    decreases |from|
  {
    var n := Min(|from|, |to|);
    if n > 0 {
      assert from[n - 1] in from[..n];
      assert from[..n - 1][..Min(n - 1, n - 1)] == from[..n - 1];
      assert forall k :: 0 <= k < n - 1 ==> from[..n - 1][k] == from[..n][k];
      MapCharOutside(c, from[..n - 1], to[..n - 1]);
    }
  }

  /** A character inside the used part of `from` becomes some character of
      the used part of `to`. */
  lemma {:induction false} MapCharInside(c: char, from: string, to: string)
    requires c in from[..Min(|from|, |to|)]
    ensures MapChar(c, from, to) in to[..Min(|from|, |to|)]
    decreases |from|
  {
    var n := Min(|from|, |to|);
    if from[n - 1] != c {
      assert from[..n] == from[..n - 1] + [from[n - 1]];
      assert from[..n - 1][..Min(n - 1, n - 1)] == from[..n - 1];
      MapCharInside(c, from[..n - 1], to[..n - 1]);
      assert to[..n - 1][..Min(n - 1, n - 1)] == to[..n - 1];
      assert to[..n] == to[..n - 1] + [to[n - 1]];
    } else {
      assert to[..n][n - 1] == to[n - 1];
    }
  }

  /** Over two equal-length tables laid end to end, a character of the second
      table follows the second one (the later position wins), any other
      character follows the first. */
  lemma {:induction false} MapCharAppend(c: char, f1: string, t1: string, f2: string, t2: string)
    requires |f1| == |t1| && |f2| == |t2|
    ensures MapChar(c, f1 + f2, t1 + t2)
         == if c in f2 then MapChar(c, f2, t2) else MapChar(c, f1, t1)
    decreases |f2|
  {
    var n := |f2|;
    var f, t := f1 + f2, t1 + t2;
    if n == 0 {
      assert f == f1 && t == t1;
    } else {
      assert f[|f| - 1] == f2[n - 1] && t[|t| - 1] == t2[n - 1];
      assert f[..|f| - 1] == f1 + f2[..n - 1];
      assert t[..|t| - 1] == t1 + t2[..n - 1];
      assert f2 == f2[..n - 1] + [f2[n - 1]];
      if f2[n - 1] != c {
        MapCharAppend(c, f1, t1, f2[..n - 1], t2[..n - 1]);
        assert MapChar(c, f2, t2) == MapChar(c, f2[..n - 1], t2[..n - 1]);
      }
    }
  }

  /** A table whose `to` side repeats one letter sends every character of its
      `from` side to that letter. */
  lemma {:induction false} MapCharUniform(c: char, from: string, to: string, x: char)
    requires |from| == |to|
    requires forall k :: 0 <= k < |to| ==> to[k] == x
    ensures MapChar(c, from, to) == if c in from then x else c
    decreases |from|
  {
    var n := |from|;
    if n > 0 {
      assert from == from[..n - 1] + [from[n - 1]];
      MapCharUniform(c, from[..n - 1], to[..n - 1], x);
    }
  }

  /** When the used part of `from` has no repeated character, position k of
      `from` maps to position k of `to`. */
  lemma {:induction false} MapCharDistinct(from: string, to: string, k: nat)
    requires k < Min(|from|, |to|)
    requires forall i, j :: 0 <= i < j < Min(|from|, |to|) ==> from[i] != from[j]
    ensures MapChar(from[k], from, to) == to[k]
    decreases |from|
  {
    var n := Min(|from|, |to|);
    if k < n - 1 {
      var f, t := from[..n - 1], to[..n - 1];
      assert Min(|f|, |t|) == n - 1;
      MapCharDistinct(f, t, k);
    }
  }

  // ---------------------------------------------------------------------------
  // stripAccents

  /** The two tables of `stripAccents` (index.php:129), written group by group:
      each group of accented letters folds to one ASCII letter. */
  const ACCENTED_LOWER: string := "àáâãä" + "ç" + "èéêë" + "ìíîï" + "ñ" + "òóôõö" + "ùúûü" + "ýÿ"
  const ACCENTED_UPPER: string := "ÀÁÂÃÄ" + "Ç" + "ÈÉÊË" + "ÌÍÎÏ" + "Ñ" + "ÒÓÔÕÖ" + "ÙÚÛÜ" + "Ý"
  const PLAIN_LOWER: string := "aaaaa" + "c" + "eeee" + "iiii" + "n" + "ooooo" + "uuuu" + "yy"
  const PLAIN_UPPER: string := "AAAAA" + "C" + "EEEE" + "IIII" + "N" + "OOOOO" + "UUUU" + "Y"
  const ACCENTED: string := ACCENTED_LOWER + ACCENTED_UPPER
  const PLAIN: string := PLAIN_LOWER + PLAIN_UPPER

  /** Reference definition of the accent folding, one letter group at a time:
      first the lower-case letters, then the upper-case ones. */
  function FoldAccent(c: char): char {
    var l := FoldLowerAccent(c);
    if l != c then l else FoldUpperAccent(c)
  }

  function FoldLowerAccent(c: char): char {
    if c in "àáâãä" then 'a' else if c == 'ç' then 'c'
    else if c in "èéêë" then 'e' else if c in "ìíîï" then 'i'
    else if c == 'ñ' then 'n' else if c in "òóôõö" then 'o'
    else if c in "ùúûü" then 'u' else if c in "ýÿ" then 'y'
    else c
  }

  function FoldUpperAccent(c: char): char {
    if c in "ÀÁÂÃÄ" then 'A' else if c == 'Ç' then 'C'
    else if c in "ÈÉÊË" then 'E' else if c in "ÌÍÎÏ" then 'I'
    else if c == 'Ñ' then 'N' else if c in "ÒÓÔÕÖ" then 'O'
    else if c in "ÙÚÛÜ" then 'U' else if c == 'Ý' then 'Y'
    else c
  }

  /** The two tables have 51 letters each. */
  lemma AccentTableSizes()
    ensures |ACCENTED| == 51 && |PLAIN| == 51
  {
  }

  /** The folding changes exactly the 51 listed letters. */
  lemma FoldChangesExactlyAccented(c: char)
    ensures c in ACCENTED <==> FoldAccent(c) != c
  {
  }

  /** Folded letters are plain ASCII letters, never listed accented letters. */
  lemma FoldLeavesNoAccent(c: char)
    ensures FoldAccent(c) !in ACCENTED
  {
    FoldChangesExactlyAccented(c);
    AccentedAreLatin1Letters();
  }

  /** Every listed accented letter lies in the Latin-1 letter block from
      U+00C0 on, above every ASCII character. */
  lemma AccentedAreLatin1Letters()
    ensures forall d :: d in ACCENTED ==> d >= 'À'
  {
  }

  /** `strtr` over the tables f and t sends c to v if c is in f, and leaves
      it alone otherwise. */
  predicate FoldsTo(c: char, f: string, t: string, v: char) {
    |f| == |t| && MapChar(c, f, t) == if c in f then v else c
  }

  /** One more letter group, all of whose letters fold to x, appended to
      tables that send c to v. */
  lemma FoldGroup(c: char, f: string, t: string, g: string, h: string, x: char, v: char)
    requires FoldsTo(c, f, t, v) && |g| == |h|
    requires forall k :: 0 <= k < |h| ==> h[k] == x
    requires c in g ==> v == x
    ensures FoldsTo(c, f + g, t + h, v)
  {
    MapCharAppend(c, f, t, g, h);
    MapCharUniform(c, g, h, x);
  }

  /** The first four lower-case groups of the tables. */
  lemma FoldLowerHead(c: char)
    ensures FoldsTo(c, "àáâãä" + "ç" + "èéêë" + "ìíîï", "aaaaa" + "c" + "eeee" + "iiii", FoldLowerAccent(c))
  {
    var f, t, v := "àáâãä", "aaaaa", FoldLowerAccent(c);
    MapCharUniform(c, f, t, 'a');
    FoldGroup(c, f, t, "ç", "c", 'c', v);
    f, t := f + "ç", t + "c";
    FoldGroup(c, f, t, "èéêë", "eeee", 'e', v);
    f, t := f + "èéêë", t + "eeee";
    FoldGroup(c, f, t, "ìíîï", "iiii", 'i', v);
    f, t := f + "ìíîï", t + "iiii";
  }

  /** The last four lower-case groups, after any agreeing prefix. */
  lemma FoldLowerTail(c: char, f0: string, t0: string)
    requires FoldsTo(c, f0, t0, FoldLowerAccent(c))
    ensures FoldsTo(c, f0 + "ñ" + "òóôõö" + "ùúûü" + "ýÿ", t0 + "n" + "ooooo" + "uuuu" + "yy", FoldLowerAccent(c))
  {
    var f, t, v := f0, t0, FoldLowerAccent(c);
    FoldGroup(c, f, t, "ñ", "n", 'n', v);
    f, t := f + "ñ", t + "n";
    FoldGroup(c, f, t, "òóôõö", "ooooo", 'o', v);
    f, t := f + "òóôõö", t + "ooooo";
    FoldGroup(c, f, t, "ùúûü", "uuuu", 'u', v);
    f, t := f + "ùúûü", t + "uuuu";
    FoldGroup(c, f, t, "ýÿ", "yy", 'y', v);
    f, t := f + "ýÿ", t + "yy";
  }

  /** The first four upper-case groups of the tables. */
  lemma FoldUpperHead(c: char)
    ensures FoldsTo(c, "ÀÁÂÃÄ" + "Ç" + "ÈÉÊË" + "ÌÍÎÏ", "AAAAA" + "C" + "EEEE" + "IIII", FoldUpperAccent(c))
  {
    var f, t, v := "ÀÁÂÃÄ", "AAAAA", FoldUpperAccent(c);
    MapCharUniform(c, f, t, 'A');
    FoldGroup(c, f, t, "Ç", "C", 'C', v);
    f, t := f + "Ç", t + "C";
    FoldGroup(c, f, t, "ÈÉÊË", "EEEE", 'E', v);
    f, t := f + "ÈÉÊË", t + "EEEE";
    FoldGroup(c, f, t, "ÌÍÎÏ", "IIII", 'I', v);
    f, t := f + "ÌÍÎÏ", t + "IIII";
  }

  /** The last four upper-case groups, after any agreeing prefix. */
  lemma FoldUpperTail(c: char, f0: string, t0: string)
    requires FoldsTo(c, f0, t0, FoldUpperAccent(c))
    ensures FoldsTo(c, f0 + "Ñ" + "ÒÓÔÕÖ" + "ÙÚÛÜ" + "Ý", t0 + "N" + "OOOOO" + "UUUU" + "Y", FoldUpperAccent(c))
  {
    var f, t, v := f0, t0, FoldUpperAccent(c);
    FoldGroup(c, f, t, "Ñ", "N", 'N', v);
    f, t := f + "Ñ", t + "N";
    FoldGroup(c, f, t, "ÒÓÔÕÖ", "OOOOO", 'O', v);
    f, t := f + "ÒÓÔÕÖ", t + "OOOOO";
    FoldGroup(c, f, t, "ÙÚÛÜ", "UUUU", 'U', v);
    f, t := f + "ÙÚÛÜ", t + "UUUU";
    FoldGroup(c, f, t, "Ý", "Y", 'Y', v);
    f, t := f + "Ý", t + "Y";
  }

  /** `strtr` over each half of the tables is that half of the reference folding. */
  lemma StrtrHalvesAreFold(c: char)
    ensures FoldsTo(c, ACCENTED_LOWER, PLAIN_LOWER, FoldLowerAccent(c))
    ensures FoldsTo(c, ACCENTED_UPPER, PLAIN_UPPER, FoldUpperAccent(c))
  {
    FoldLowerHead(c);
    FoldLowerTail(c, "àáâãä" + "ç" + "èéêë" + "ìíîï", "aaaaa" + "c" + "eeee" + "iiii");
    FoldUpperHead(c);
    FoldUpperTail(c, "ÀÁÂÃÄ" + "Ç" + "ÈÉÊË" + "ÌÍÎÏ", "AAAAA" + "C" + "EEEE" + "IIII");
  }

  /** `strtr` over the two tables is exactly the reference folding. */
  lemma StrtrAccentsIsFold(c: char)
    ensures MapChar(c, ACCENTED, PLAIN) == FoldAccent(c)
  {
    StrtrHalvesAreFold(c);
    MapCharAppend(c, ACCENTED_LOWER, PLAIN_LOWER, ACCENTED_UPPER, PLAIN_UPPER);
    if c in ACCENTED_UPPER {
      HalvesApart();
      assert FoldLowerAccent(c) == c;
    } else if c !in ACCENTED_LOWER {
      FoldChangesExactlyAccented(c);
    }
  }

  /** The upper-case letters of the table lie in U+00C0..U+00DD, the
      lower-case ones from U+00E0 on. */
  lemma HalvesApart()
    ensures forall d :: d in ACCENTED_UPPER ==> 'À' <= d <= 'Ý'
    ensures forall d :: d in ACCENTED_LOWER ==> 'à' <= d
  {
  }

  /** Position by position, the lower-case half of the tables (in two runs). */
  lemma LowerTablePositions()
    ensures |ACCENTED_LOWER| == |PLAIN_LOWER| == 26
    ensures forall k :: 0 <= k < 26 ==> FoldLowerAccent(ACCENTED_LOWER[k]) == PLAIN_LOWER[k]
  {
    assert forall k :: 0 <= k < 13 ==> FoldLowerAccent(ACCENTED_LOWER[k]) == PLAIN_LOWER[k];
    assert forall k :: 13 <= k < 26 ==> FoldLowerAccent(ACCENTED_LOWER[k]) == PLAIN_LOWER[k];
  }

  /** Position by position, the upper-case half of the tables (in two runs). */
  lemma UpperTablePositions()
    ensures |ACCENTED_UPPER| == |PLAIN_UPPER| == 25
    ensures forall k :: 0 <= k < 25 ==> FoldUpperAccent(ACCENTED_UPPER[k]) == PLAIN_UPPER[k]
  {
    assert forall k :: 0 <= k < 13 ==> FoldUpperAccent(ACCENTED_UPPER[k]) == PLAIN_UPPER[k];
    assert forall k :: 13 <= k < 25 ==> FoldUpperAccent(ACCENTED_UPPER[k]) == PLAIN_UPPER[k];
  }

  lemma LowerPositional(k: nat)
    requires k < 26
    ensures |ACCENTED_LOWER| == |PLAIN_LOWER| == 26
    ensures FoldAccent(ACCENTED_LOWER[k]) == PLAIN_LOWER[k]
  {
    LowerTablePositions();
    HalvesApart();
    assert ACCENTED_LOWER[k] in ACCENTED_LOWER;
  }

  lemma UpperPositional(k: nat)
    requires k < 25
    ensures |ACCENTED_UPPER| == |PLAIN_UPPER| == 25
    ensures FoldAccent(ACCENTED_UPPER[k]) == PLAIN_UPPER[k]
  {
    UpperTablePositions();
    HalvesApart();
    assert ACCENTED_UPPER[k] in ACCENTED_UPPER;
    LowerFoldBelow(ACCENTED_UPPER[k]);
  }

  /** No lower-case accented letter lies below U+00E0. */
  lemma LowerFoldBelow(c: char)
    requires c < 'à'
    ensures FoldLowerAccent(c) == c
  {
  }

  /** The k-th listed accented letter becomes the k-th plain letter, for each
      of the 51 positions of the two tables. */
  lemma StripAccentsPositional(k: nat)
    requires k < 51
    ensures |ACCENTED| == |PLAIN| == 51
    ensures StripAccents([ACCENTED[k]]) == [PLAIN[k]]
  {
    if k < 26 {
      LowerPositional(k);
      assert ACCENTED[k] == ACCENTED_LOWER[k] && PLAIN[k] == PLAIN_LOWER[k];
    } else {
      UpperPositional(k - 26);
      assert ACCENTED[k] == ACCENTED_UPPER[k - 26] && PLAIN[k] == PLAIN_UPPER[k - 26];
    }
  }

  /** `stripAccents($str)` (index.php:128-130). */
  function StripAccents(s: string): (r: string)
    ensures |r| == |s|
    ensures forall i :: 0 <= i < |s| ==> r[i] == FoldAccent(s[i])
    ensures forall c :: c in r ==> c !in ACCENTED
  {
    var r := Strtr(s, ACCENTED, PLAIN);
    assert forall i :: 0 <= i < |s| ==> r[i] == FoldAccent(s[i]) by {
      forall i | 0 <= i < |s| ensures r[i] == FoldAccent(s[i]) { StrtrAccentsIsFold(s[i]); }
    }
    assert forall i :: 0 <= i < |s| ==> r[i] !in ACCENTED by {
      forall i | 0 <= i < |s| ensures r[i] !in ACCENTED { FoldLeavesNoAccent(s[i]); }
    }
    r
  }

  // ---------------------------------------------------------------------------
  // str_replace of one character by '', stripQuotes, stripSpaces

  /** `str_replace($c, '', $s)` for a one-character search string: every
      occurrence of c is dropped and the rest keep their order. */
  function RemoveChar(s: string, c: char): (r: string)
    ensures forall d :: d in r <==> d in s && d != c
    ensures multiset(r) == multiset(s)[c := 0]
    ensures c !in s ==> r == s
  {
    if s == [] then []
    else
      assert s == [s[0]] + s[1..];
      (if s[0] == c then [] else [s[0]]) + RemoveChar(s[1..], c)
  }

  /** `stripQuotes` (index.php:136-138): `str_replace(array('\'', '"'), '', $s)`
      replaces the array elements in turn. */
  function StripQuotes(s: string): (r: string)
    ensures forall d :: d in r <==> d in s && d != '\'' && d != '"'
    ensures multiset(r) == multiset(s)['\'' := 0]['"' := 0]
  {
    RemoveChar(RemoveChar(s, '\''), '"')
  }

  /** `stripSpaces` (index.php:144-146). */
  function StripSpaces(s: string): (r: string)
    ensures forall d :: d in r <==> d in s && d != ' '
    ensures multiset(r) == multiset(s)[' ' := 0]
  {
    RemoveChar(s, ' ')
  }

  /** Removal works piece by piece: what survives of a concatenation is what
      survives of each part, in the same order. */
  lemma {:induction false} RemoveCharConcat(a: string, b: string, c: char)
    ensures RemoveChar(a + b, c) == RemoveChar(a, c) + RemoveChar(b, c)
    decreases |a|
  {
    if a == [] {
      assert a + b == b;
    } else {
      assert (a + b)[0] == a[0];
      assert (a + b)[1..] == a[1..] + b;
      RemoveCharConcat(a[1..], b, c);
    }
  }

  /** On one character, removal drops it exactly when it is the one searched. */
  lemma RemoveCharSingle(d: char, c: char)
    ensures RemoveChar([d], c) == if d == c then [] else [d]
  {
  }

  // ---------------------------------------------------------------------------
  // strtolower, strClean

  predicate IsUpper(c: char) { 'A' <= c <= 'Z' }

  function LowerChar(c: char): (d: char)
    ensures !IsUpper(d)
    ensures IsUpper(c) == (d != c)
  {
    if IsUpper(c) then (c as int - 'A' as int + 'a' as int) as char else c
  }

  /** `strtolower`, taken as ASCII-only (the C-locale behaviour). */
  function ToLower(s: string): (r: string)
    ensures |r| == |s|
    ensures forall i :: 0 <= i < |s| ==> r[i] == LowerChar(s[i])
    ensures forall c :: c in r ==> !IsUpper(c)
  {
    seq(|s|, i requires 0 <= i < |s| => LowerChar(s[i]))
  }

  /** A string the sanitiser has nothing left to remove from: no accented
      letter, no quote, no space. */
  predicate IsClean(s: string) {
    forall c :: c in s ==> c !in ACCENTED && c != ' ' && c != '\'' && c != '"'
  }

  /** `strClean($str, $toLower)` (index.php:153-157): accents folded, then
      quotes removed, then spaces removed, then lower-cased on request. */
  function StrClean(s: string, toLower: bool): (r: string)
    ensures IsClean(r)
    ensures toLower ==> forall c :: c in r ==> !IsUpper(c)
  {
    var t := StripSpaces(StripQuotes(StripAccents(s)));
    if toLower then ToLowerKeepsClean(t); ToLower(t) else t
  }

  /** What strClean keeps: the accent-folded input's characters less every
      quote and space, and with `$toLower` the same string lower-cased. */
  lemma StrCleanContents(s: string)
    ensures multiset(StrClean(s, false)) == multiset(StripAccents(s))['\'' := 0]['"' := 0][' ' := 0]
    ensures StrClean(s, true) == ToLower(StrClean(s, false))
  {
  }

  /** stripAccents and strtolower work character by character, so they
      distribute over concatenation. */
  lemma StripAccentsConcat(a: string, b: string)
    ensures StripAccents(a + b) == StripAccents(a) + StripAccents(b)
  {
    var l, r := StripAccents(a + b), StripAccents(a) + StripAccents(b);
    assert forall i :: 0 <= i < |l| ==> l[i] == r[i] by {
      forall i | 0 <= i < |l| ensures l[i] == r[i] {
        if i < |a| { assert (a + b)[i] == a[i]; } else { assert (a + b)[i] == b[i - |a|]; }
      }
    }
  }

  lemma ToLowerConcat(a: string, b: string)
    ensures ToLower(a + b) == ToLower(a) + ToLower(b)
  {
    var l, r := ToLower(a + b), ToLower(a) + ToLower(b);
    assert forall i :: 0 <= i < |l| ==> l[i] == r[i] by {
      forall i | 0 <= i < |l| ensures l[i] == r[i] {
        if i < |a| { assert (a + b)[i] == a[i]; } else { assert (a + b)[i] == b[i - |a|]; }
      }
    }
  }

  /** strClean of a concatenation is the concatenation of the cleaned parts:
      the characters it keeps stay in their order. */
  lemma {:induction false} StrCleanConcat(a: string, b: string, toLower: bool)
    ensures StrClean(a + b, toLower) == StrClean(a, toLower) + StrClean(b, toLower)
  {
    var fa, fb := StripAccents(a), StripAccents(b);
    StripAccentsConcat(a, b);
    RemoveCharConcat(fa, fb, '\'');
    var qa, qb := RemoveChar(fa, '\''), RemoveChar(fb, '\'');
    RemoveCharConcat(qa, qb, '"');
    var ra, rb := RemoveChar(qa, '"'), RemoveChar(qb, '"');
    RemoveCharConcat(ra, rb, ' ');
    var ta, tb := RemoveChar(ra, ' '), RemoveChar(rb, ' ');
    assert StrClean(a + b, false) == ta + tb;
    if toLower {
      ToLowerConcat(ta, tb);
    }
  }

  /** strClean of one character: a quote or a space disappears, anything else
      comes out accent-folded. With StrCleanConcat this fixes the result of
      strClean on every string, order included. */
  lemma StrCleanSingle(d: char)
    ensures StrClean([d], false) == if d == ' ' || d == '\'' || d == '"' then [] else [FoldAccent(d)]
  {
    var f := FoldAccent(d);
    StripAccentsSingle(d);
    FoldKeepsSeparators(d);
    assert StrClean([d], false) == StripSpaces(StripQuotes([f]));
    RemoveCharSingle(f, '\'');
    RemoveCharSingle(f, '"');
    RemoveCharSingle(f, ' ');
  }

  lemma StripAccentsSingle(d: char)
    ensures StripAccents([d]) == [FoldAccent(d)]
  {
  }

  /** A character folds to a quote or a space only if it is one. */
  lemma FoldKeepsSeparators(d: char)
    ensures (d == ' ' || d == '\'' || d == '"') <==> (FoldAccent(d) == ' ' || FoldAccent(d) == '\'' || FoldAccent(d) == '"')
  {
    FoldIsLetterOrSame(d);
  }

  /** The folding leaves a character alone or gives an ASCII letter. */
  lemma FoldIsLetterOrSame(d: char)
    ensures FoldAccent(d) == d || 'A' <= FoldAccent(d) <= 'Z' || 'a' <= FoldAccent(d) <= 'z'
  {
  }

  /** Lower-casing never brings back anything the sanitiser removes. */
  lemma ToLowerKeepsClean(s: string)
    requires IsClean(s)
    ensures IsClean(ToLower(s))
  {
    forall c | c in ToLower(s) ensures c !in ACCENTED && c != ' ' && c != '\'' && c != '"' {
      var i :| 0 <= i < |s| && ToLower(s)[i] == c;
      assert s[i] in s;
      FoldChangesExactlyAccented(c);
    }
  }

  /** On a string with nothing to remove, strClean changes nothing, or only
      lower-cases when asked to: the case is touched only by `$toLower`. */
  lemma {:induction false} StrCleanOnClean(s: string, toLower: bool)
    requires IsClean(s)
    ensures StrClean(s, toLower) == if toLower then ToLower(s) else s
  {
    var a := StripAccents(s);
    forall i | 0 <= i < |s| ensures a[i] == s[i] {
      assert s[i] in s;
      FoldChangesExactlyAccented(s[i]);
    }
    assert a == s;
  }

  /** Lower-casing a string without upper-case letters changes nothing. */
  lemma ToLowerOnLower(s: string)
    requires forall c :: c in s ==> !IsUpper(c)
    ensures ToLower(s) == s
  {
    assert forall k :: 0 <= k < |s| ==> s[k] in s;
  }

  /** strClean is idempotent: cleaning a cleaned string changes nothing. */
  lemma {:induction false} StrCleanIdempotent(s: string, toLower: bool)
    ensures StrClean(StrClean(s, toLower), toLower) == StrClean(s, toLower)
  {
    var r := StrClean(s, toLower);
    StrCleanOnClean(r, toLower);
    if toLower {
      ToLowerOnLower(r);
    }
  }

  /** strClean keeps the characters that are special in an LDAP search
      filter: a string made only of asterisks, parentheses and backslashes,
      such as `*)(`, comes out unchanged, even with `$toLower`. */
  lemma {:induction false} FilterMetacharactersKept(s: string, toLower: bool)
    requires forall c :: c in s ==> c == '*' || c == '(' || c == ')' || c == '\\'
    ensures StrClean(s, toLower) == s
  {
    AccentedAreLatin1Letters();
    assert IsClean(s);
    StrCleanOnClean(s, toLower);
    ToLowerOnLower(s);
  }
}
