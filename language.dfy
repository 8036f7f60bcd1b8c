/**
 * Language policy: which language IDs each generation's games can carry,
 * the fallback ("safe") language for a preference, the two-letter code of
 * a language, and the remap between the GameCube games' language numbering
 * and the main series' numbering.
 */
module Language {
  import opened Bytes
  import opened GameIds

  /** Every language a game can carry, in the games' order. */
  const Languages: seq<byte> := [Japanese, English, French, German, Spanish, Italian, Korean, ChineseS, ChineseT]
  /** The first seven: up to and including Korean (Game Boy era and generations 4-6). */
  const LanguagesGB: seq<byte> := Languages[..7]
  /** The first six: before Korean (generations 1 and 3). */
  const Languages3: seq<byte> := Languages[..6]
  /** The fallback when a preference is not permitted. */
  const SafeLanguage: byte := English

  /** The two shorter tables, written out. */
  lemma TablesSpelledOut()
    ensures LanguagesGB == [Japanese, English, French, German, Spanish, Italian, Korean]
    ensures Languages3 == [Japanese, English, French, German, Spanish, Italian]
  {
  }

  /** The permitted languages of a generation. */
  function GetAvailableGameLanguages(generation: int): (r: seq<byte>)
    ensures |r| <= |Languages| && r == Languages[..|r|]
    ensures |r| == (if generation == 1 || generation == 3 then 6 else if 2 <= generation <= 6 then 7 else 9)
    ensures Japanese in r && English in r
    ensures Korean in r <==> generation != 1 && generation != 3
    ensures ChineseS in r <==> !(1 <= generation <= 6)
    ensures ChineseT in r <==> !(1 <= generation <= 6)
  {
    TablesSpelledOut();
    if generation == 1 then Languages3
    else if generation == 2 then LanguagesGB
    else if generation == 3 then Languages3
    else if generation == 4 || generation == 5 || generation == 6 then LanguagesGB
    else Languages
  }

  /** Position of x in a, or -1 when absent (Array.IndexOf). */
  function IndexOf(a: seq<byte>, x: byte): (i: int)
    ensures -1 <= i < |a|
    ensures i == -1 <==> x !in a
    ensures 0 <= i ==> a[i] == x && x !in a[..i]
  {
    if a == [] then -1
    else if a[0] == x then 0
    else
      var j := IndexOf(a[1..], x);
      assert a[1..][..j + 1] == a[1..j + 2] by { }
      if j == -1 then -1 else j + 1
  }

  function HasLanguage(permitted: seq<byte>, language: byte): (r: bool)
    ensures r <==> language in permitted
  {
    IndexOf(permitted, language) != -1
  }

  /** The unchecked (byte) cast of a LanguageID value: its low eight bits. */
  function ToByte(v: int): (b: byte)
    ensures (v - b) % 256 == 0
  {
    v % 256
  }

  /**
   * The language to use for a preference in a generation, as the source
   * computes it. The membership test looks at the preference cast to a
   * byte, while the preference itself is returned.
   */
  function GetSafeLanguage(generation: int, prefer: int, game: int): (r: int)
    ensures generation == 1 && game == BU ==> r == Japanese
    ensures generation == 2 && prefer == Korean ==> r == (if game == C then Korean else English)
    ensures !(generation == 1 && game == BU) && !(generation == 2 && prefer == Korean) ==>
      r == (if ToByte(prefer) in GetAvailableGameLanguages(generation) then prefer else SafeLanguage)
  {
    TablesSpelledOut();
    if generation == 1 && game == BU then Japanese
    else if generation == 1 then (if HasLanguage(Languages3, ToByte(prefer)) then prefer else SafeLanguage)
    else if generation == 2 then
      (if HasLanguage(LanguagesGB, ToByte(prefer)) && (prefer != Korean || game == C) then prefer else SafeLanguage)
    else if generation == 3 then (if HasLanguage(Languages3, ToByte(prefer)) then prefer else SafeLanguage)
    else if generation == 4 || generation == 5 || generation == 6 then
      (if HasLanguage(LanguagesGB, ToByte(prefer)) then prefer else SafeLanguage)
    else (if HasLanguage(Languages, ToByte(prefer)) then prefer else SafeLanguage)
  }

  /** For a preference that is a byte, the safe language is permitted in the generation. */
  lemma SafeLanguageIsAvailable(generation: int, prefer: int, game: int)
    requires 0 <= prefer < 256
    ensures GetSafeLanguage(generation, prefer, game) in GetAvailableGameLanguages(generation)
  {
    var r := GetSafeLanguage(generation, prefer, game);
    var table := GetAvailableGameLanguages(generation);
    assert Japanese in table && English in table;
    if !(generation == 1 && game == BU) && !(generation == 2 && prefer == Korean) {
      assert ToByte(prefer) == prefer;
    }
  }

  /** Asking again with the answer gives the same answer. */
  lemma SafeLanguageIdempotent(generation: int, prefer: int, game: int)
    ensures var r := GetSafeLanguage(generation, prefer, game);
      GetSafeLanguage(generation, r, game) == r
  {
  }

  /**
   * A preference outside the byte range escapes the check: 0x101 reads as
   * Japanese after the cast, so generation 7 returns 0x101 itself, which is
   * no permitted language.
   */
  lemma SafeLanguageTruncationEscapes()
    ensures GetSafeLanguage(7, 0x101, Any) == 0x101
    ensures 0x101 !in GetAvailableGameLanguages(7)
  {
    assert ToByte(0x101) == Japanese;
  }

  /**
   * The safe language with the membership test applied to the preference
   * itself: out-of-range preferences fall back like any other.
   */
  function GetSafeLanguageChecked(generation: int, prefer: int, game: int): (r: byte)
    ensures r in GetAvailableGameLanguages(generation)
    ensures 0 <= prefer < 256 ==> r == GetSafeLanguage(generation, prefer, game)
    ensures !(generation == 1 && game == BU) && prefer !in GetAvailableGameLanguages(generation) ==> r == SafeLanguage
  {
    if 0 <= prefer < 256 then
      SafeLanguageIsAvailable(generation, prefer, game);
      GetSafeLanguage(generation, prefer, game)
    else if generation == 1 && game == BU then Japanese
    else SafeLanguage
  }

  /** The languages that have a two-letter code of their own. */
  const CodedLanguages: set<int> := {Japanese, French, Italian, German, Spanish, Korean, ChineseS, ChineseT}

  /** Two-letter code of a language; English and unknown IDs get the default code. */
  function GetLanguage2CharName(language: int, defaultCode: string): (r: string)
    ensures language == Japanese ==> r == "ja"
    ensures language == French ==> r == "fr"
    ensures language == Italian ==> r == "it"
    ensures language == German ==> r == "de"
    ensures language == Spanish ==> r == "es"
    ensures language == Korean ==> r == "ko"
    ensures language == ChineseS || language == ChineseT ==> r == "zh"
    ensures language in CodedLanguages ==> |r| == 2
    ensures language !in CodedLanguages ==> r == defaultCode
  {
    if language == Japanese then "ja"
    else if language == French then "fr"
    else if language == Italian then "it"
    else if language == German then "de"
    else if language == Spanish then "es"
    else if language == Korean then "ko"
    else if language == ChineseS || language == ChineseT then "zh"
    else defaultCode
  }

  /** Distinct coded languages get distinct codes, except the two Chinese scripts. */
  lemma TwoCharNamesDistinct(a: int, b: int, defaultCode: string)
    requires a in CodedLanguages && b in CodedLanguages && a != b
    requires !(a in {ChineseS, ChineseT} && b in {ChineseS, ChineseT})
    ensures GetLanguage2CharName(a, defaultCode) != GetLanguage2CharName(b, defaultCode)
  {
  }

  /** The GameCube IDs that are renumbered, and the main-series IDs they become. */
  const GCRemapped: set<byte> := {GCGerman, GCFrench, GCItalian, GCSpanish, GCUnused6}
  const MainRemapped: set<byte> := {German, French, Italian, Spanish, Unused6}

  /** Main-series language ID from a GameCube language ID. */
  function GetMainLangIDfromGC(value: byte): (r: byte)
    ensures value in GCRemapped <==> r in MainRemapped
    ensures value !in GCRemapped ==> r == value
  {
    if value == GCGerman then German
    else if value == GCFrench then French
    else if value == GCItalian then Italian
    else if value == GCSpanish then Spanish
    else if value == GCUnused6 then Unused6
    else value
  }

  /** GameCube language ID from a main-series language ID. */
  function GetGCLangIDfromMain(value: byte): (r: byte)
    ensures value in MainRemapped <==> r in GCRemapped
    ensures value !in MainRemapped ==> r == value
  {
    if value == French then GCFrench
    else if value == Italian then GCItalian
    else if value == German then GCGerman
    else if value == Unused6 then GCUnused6
    else if value == Spanish then GCSpanish
    else value
  }

  /** Each remapped language goes to its namesake. */
  lemma RemapsNamesakes()
    ensures GetMainLangIDfromGC(GCGerman) == German && GetGCLangIDfromMain(German) == GCGerman
    ensures GetMainLangIDfromGC(GCFrench) == French && GetGCLangIDfromMain(French) == GCFrench
    ensures GetMainLangIDfromGC(GCItalian) == Italian && GetGCLangIDfromMain(Italian) == GCItalian
    ensures GetMainLangIDfromGC(GCSpanish) == Spanish && GetGCLangIDfromMain(Spanish) == GCSpanish
    ensures GetMainLangIDfromGC(GCUnused6) == Unused6 && GetGCLangIDfromMain(Unused6) == GCUnused6
  {
  }

  /**
   * The two remaps undo each other on every byte: both renumber the same
   * five values among themselves and pass everything else through.
   */
  lemma RemapsInverse(x: byte)
    ensures GetGCLangIDfromMain(GetMainLangIDfromGC(x)) == x
    ensures GetMainLangIDfromGC(GetGCLangIDfromMain(x)) == x
  {
  }
}
