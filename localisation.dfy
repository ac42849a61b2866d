/** The translation catalog: language names mapped to codes, and one key-to-text table per code. */
module Localisation {
  import opened Wrappers
  import opened JsonFiles

  const LanguageCodesPath := "locales/language_codes.json"
  const FallbackCode := "en"
  /** The one language the layout is mirrored for: Hebrew, written in Hebrew. */
  const RightToLeftLanguage := "\U{05E2}\U{05D1}\U{05E8}\U{05D9}\U{05EA}"

  /** The read-only locale files shipped beside the program, by relative path. */
  datatype Locales = Locales(files: map<string, JsonDocument>)

  /** The file holding the table for one language code. */
  function LocalePath(code: string): (path: string)
    ensures |path| == |code| + 13
    ensures path[..8] == "locales/" && path[8..8 + |code|] == code && path[8 + |code|..] == ".json"
  {
    "locales/" + code + ".json"
  }

  /** Distinct codes name distinct files, so each language reads its own table. */
  lemma LocalePathInjective(c1: string, c2: string)
    requires LocalePath(c1) == LocalePath(c2)
    ensures c1 == c2
  {
  }

  /** load_language_codes: fails loudly when the codes file is missing or does not decode. */
  function LoadLanguageCodes(locales: Locales): (r: Result<map<string, string>, ReadError>)
    ensures r.Success? <==> LanguageCodesPath in locales.files && locales.files[LanguageCodesPath].Object?
    ensures r.Success? ==> r.value == locales.files[LanguageCodesPath].entries
  {
    ReadObject(locales.files, LanguageCodesPath)
  }

  /** load_language_names: the languages offered for selection are exactly the names in the codes file. */
  function LoadLanguageNames(locales: Locales): (r: Result<set<string>, ReadError>)
    ensures r.Success? <==> LoadLanguageCodes(locales).Success?
    ensures r.Success? ==> forall name :: name in r.value <==> name in LoadLanguageCodes(locales).value
  {
    match LoadLanguageCodes(locales)
    case Success(codes) => Success(codes.Keys)
    case Failure(e) => Failure(e)
  }

  /** The code the table is looked up under: the listed one, or "en" for an unlisted name. */
  function CodeFor(codes: map<string, string>, name: string): (code: string)
    ensures name in codes ==> code == codes[name]
    ensures name !in codes ==> code == FallbackCode
  {
    if name in codes then codes[name] else FallbackCode
  }

  /** load_translations: the table in locales/<code>.json for the language's code. */
  function LoadTranslations(locales: Locales, name: string): (r: Result<map<string, string>, ReadError>)
    ensures LoadLanguageCodes(locales).Failure? ==> r == Failure(LoadLanguageCodes(locales).error)
    ensures LoadLanguageCodes(locales).Success? ==>
              var path := LocalePath(CodeFor(LoadLanguageCodes(locales).value, name));
              (r.Success? <==> path in locales.files && locales.files[path].Object?) &&
              (r.Success? ==> r.value == locales.files[path].entries) &&
              (r.Failure? ==> r.error.path == path)
  {
    match LoadLanguageCodes(locales)
    case Failure(e) => Failure(e)
    case Success(codes) => ReadObject(locales.files, LocalePath(CodeFor(codes, name)))
  }

  /** A name missing from the codes file reads locales/en.json, whether or not any listed language has code "en". */
  lemma UnlistedLanguageReadsEnglish(locales: Locales, name: string)
    requires LoadLanguageCodes(locales).Success?
    requires name !in LoadLanguageCodes(locales).value
    ensures LoadTranslations(locales, name) == ReadObject(locales.files, "locales/en.json")
  {
    assert LocalePath(FallbackCode) == "locales/en.json";
  }

  /** A name missing from the codes file gets the same table as any language listed with code "en". */
  lemma UnlistedLanguageFallsBack(locales: Locales, name: string, english: string)
    requires LoadLanguageCodes(locales).Success?
    requires name !in LoadLanguageCodes(locales).value
    requires english in LoadLanguageCodes(locales).value
    requires LoadLanguageCodes(locales).value[english] == FallbackCode
    ensures LoadTranslations(locales, name) == LoadTranslations(locales, english)
  {
  }

  /** Two listed languages read the same table exactly when they share a code. */
  lemma SameTableFileIffSameCode(codes: map<string, string>, n1: string, n2: string)
    requires n1 in codes && n2 in codes
    ensures LocalePath(CodeFor(codes, n1)) == LocalePath(CodeFor(codes, n2)) <==> codes[n1] == codes[n2]
  {
    if LocalePath(CodeFor(codes, n1)) == LocalePath(CodeFor(codes, n2)) {
      LocalePathInjective(codes[n1], codes[n2]);
    }
  }

  /** translate_key: the table's text for a listed key, the key itself otherwise; never anything else. */
  function Translate(table: map<string, string>, key: string): (text: string)
    ensures key in table ==> text == table[key]
    ensures key !in table ==> text == key
    ensures text in table.Values || text == key
  {
    if key in table then table[key] else key
  }

  /** A key translates to itself exactly when it is unlisted or listed as itself. */
  lemma TranslateIdentityIff(table: map<string, string>, key: string)
    ensures Translate(table, key) == key <==> key !in table || table[key] == key
  {
  }
}
