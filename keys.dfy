/** `keyGen` of index.php (lines 207-213): a key cut from a hexadecimal
    digest and cleared of characters that are easy to misread. The digest,
    `md5(uniqid(rand()))` in the source, is a parameter here. */
module Keys {
  import opened Text

  /** `KEY_DEFAULT_LENGHT` (index.php:36). */
  const KEY_DEFAULT_LENGTH: nat := 15

  /** The two tables of the `strtr` call at index.php:211. The second one is
      two characters longer; `strtr` ignores its last two, 'W' and 'X'. */
  const AMBIGUOUS: string := "o0OQCiIl15Ss7"
  const REPLACEMENTS: string := "BEFHJKMNPRTUVWX"

  /** The lower-case hexadecimal digits an MD5 digest is written in. */
  const HEX_DIGITS: string := "0123456789abcdef"

  /** A digest as `md5` returns it: 32 lower-case hexadecimal digits. */
  predicate IsHexDigest(d: string) {
    |d| == 32 && forall c :: c in d ==> c in HEX_DIGITS
  }

  /** PHP `substr($s, $start, $length)` for a non-negative start and length:
      an empty string when the start lies at or past the end. */
  function Substr(s: string, start: nat, length: nat): (r: string)
    ensures |r| == if start >= |s| then 0 else Min(length, |s| - start)
    ensures forall i :: 0 <= i < |r| ==> r[i] == s[start + i]
  {
    if start >= |s| then "" else s[start..Min(start + length, |s|)]
  }

  /** Reference definition of the replacement, character by character. */
  function Disambiguate(c: char): char {
    match c
    case 'o' => 'B' case '0' => 'E' case 'O' => 'F' case 'Q' => 'H'
    case 'C' => 'J' case 'i' => 'K' case 'I' => 'M' case 'l' => 'N'
    case '1' => 'P' case '5' => 'R' case 'S' => 'T' case 's' => 'U'
    case '7' => 'V' case _ => c
  }

  /** The 13 used positions of the tables, and no repeated ambiguous character. */
  lemma KeyTables()
    ensures |AMBIGUOUS| == 13 && |REPLACEMENTS| == 15 && Min(13, 15) == 13
    ensures forall i, j :: 0 <= i < j < 13 ==> AMBIGUOUS[i] != AMBIGUOUS[j]
    ensures forall k :: 0 <= k < 13 ==> Disambiguate(AMBIGUOUS[k]) == REPLACEMENTS[k]
    ensures AMBIGUOUS[..13] == AMBIGUOUS
  {
  }

  /** The `strtr` call at index.php:211 is exactly the reference replacement. */
  lemma StrtrIsDisambiguate(c: char)
    ensures MapChar(c, AMBIGUOUS, REPLACEMENTS) == Disambiguate(c)
  {
    KeyTables();
    if c in AMBIGUOUS {
      var k :| 0 <= k < 13 && AMBIGUOUS[k] == c;
      MapCharDistinct(AMBIGUOUS, REPLACEMENTS, k);
    } else {
      MapCharOutside(c, AMBIGUOUS, REPLACEMENTS);
    }
  }

  /** `keyGen($length)` on a given digest. */
  function KeyGen(digest: string, length: nat): (r: string)
    ensures |r| == if |digest| <= 2 then 0 else Min(length, |digest| - 2)
    ensures forall i :: 0 <= i < |r| ==> r[i] == Disambiguate(LowerChar(digest[2 + i]))
  {
    var cut := Substr(ToLower(digest), 2, length);
    var r := Strtr(cut, AMBIGUOUS, REPLACEMENTS);
    assert forall i :: 0 <= i < |r| ==> r[i] == Disambiguate(cut[i]) by {
      forall i | 0 <= i < |r| ensures r[i] == Disambiguate(cut[i]) { StrtrIsDisambiguate(cut[i]); }
    }
    r
  }

  /** A key never holds an ambiguous character, whatever the digest, and the
      only replacement letters it can hold are the first 13: 'W' and 'X' are
      never introduced. */
  lemma KeyGenUnambiguous(digest: string, length: nat)
    ensures forall c :: c in KeyGen(digest, length) ==> c !in AMBIGUOUS
    ensures forall c :: c in KeyGen(digest, length) ==> c !in "WX"
    ensures forall i :: 0 <= i < |KeyGen(digest, length)| ==>
      KeyGen(digest, length)[i] == LowerChar(digest[2 + i]) || KeyGen(digest, length)[i] in REPLACEMENTS[..13]
  {
    var r := KeyGen(digest, length);
    KeyTables();
    forall c | c in r ensures c !in AMBIGUOUS && c !in "WX" {
      var i :| 0 <= i < |r| && r[i] == c;
      var l := LowerChar(digest[2 + i]);
      if l in AMBIGUOUS {
        var k :| 0 <= k < 13 && AMBIGUOUS[k] == l;
        assert c == REPLACEMENTS[k];
      }
    }
    forall i | 0 <= i < |r|
      ensures r[i] == LowerChar(digest[2 + i]) || r[i] in REPLACEMENTS[..13]
    {
      var l := LowerChar(digest[2 + i]);
      if l in AMBIGUOUS {
        var k :| 0 <= k < 13 && AMBIGUOUS[k] == l;
        assert REPLACEMENTS[..13][k] == REPLACEMENTS[k];
      }
    }
  }

  /** On a 32-digit digest a key has min(length, 30) characters: substr starts
      at offset 2. */
  lemma KeyGenLength(digest: string, length: nat)
    requires IsHexDigest(digest)
    ensures |KeyGen(digest, length)| == Min(length, 30)
  {
  }

  /** The characters a key cut from an MD5 digest can hold: the hexadecimal
      digits left alone by the replacement, and the letters that '0', '1',
      '5' and '7' become. */
  const TOKEN_CHARS: string := "234689abcdef" + "EPRV"

  /** On a hexadecimal digest, every key character is in TOKEN_CHARS. */
  lemma KeyGenOnHex(digest: string, length: nat)
    requires IsHexDigest(digest)
    ensures forall c :: c in KeyGen(digest, length) ==> c in TOKEN_CHARS
  {
    var r := KeyGen(digest, length);
    forall c | c in r ensures c in TOKEN_CHARS {
      var i :| 0 <= i < |r| && r[i] == c;
      assert digest[2 + i] in digest;
    }
  }

  /** The token round trip: a key cut from an MD5 digest is left unchanged by
      `strClean($hash)` without lower-casing, so the exact token stored at
      index.php:316 survives the cleaning at index.php:373. */
  lemma {:induction false} TokenSurvivesClean(digest: string, length: nat)
    requires IsHexDigest(digest)
    ensures StrClean(KeyGen(digest, length), false) == KeyGen(digest, length)
  {
    var r := KeyGen(digest, length);
    KeyGenOnHex(digest, length);
    AccentedAreLatin1Letters();
    assert IsClean(r);
    StrCleanOnClean(r, false);
  }

  /** Why index.php:373 must not lower-case: any upper-case letter of a key
      (one of the replacement letters E, P, R and V) would come out as its
      lower-case form, so the cleaned key would no longer be the key. */
  lemma {:induction false} LowercasingBreaksToken(digest: string, length: nat, i: nat)
    requires IsHexDigest(digest) && i < |KeyGen(digest, length)| && IsUpper(KeyGen(digest, length)[i])
    ensures StrClean(KeyGen(digest, length), true) != KeyGen(digest, length)
  {
    var r := KeyGen(digest, length);
    TokenSurvivesClean(digest, length);
    StrCleanContents(r);
    assert StrClean(r, true)[i] == LowerChar(r[i]);
  }

  /** Such keys exist: a digest with '0' at offset 2 gives a key starting
      with 'E'. */
  lemma KeyStartsUpper(digest: string, length: nat)
    requires IsHexDigest(digest) && digest[2] == '0' && length > 0
    ensures 0 < |KeyGen(digest, length)| && KeyGen(digest, length)[0] == 'E'
  {
    KeyGenLength(digest, length);
  }
}
