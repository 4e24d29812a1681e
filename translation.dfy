/** Site translation: the supported languages, the translation tables, the lookup with its
    two fallbacks (to the English table, then to the key itself), and the choice of the
    initial language from the saved preference or the browser's language. */
module Translation {
  import opened Wrappers
  import opened Text
  import opened Storage

  datatype Language = Language(code: string, name: string, nativeName: string, flag: string, region: string)

  const Languages: seq<Language> := [
    Language("en", "English", "English", "🇬🇧", "UK"),
    Language("es", "Spanish", "Español", "🇪🇸", "ES"),
    Language("fr", "French", "Français", "🇫🇷", "FR"),
    Language("de", "German", "Deutsch", "🇩🇪", "DE"),
    Language("it", "Italian", "Italiano", "🇮🇹", "IT"),
    Language("pt", "Portuguese", "Português", "🇵🇹", "PT")
  ]

  /** `languages.find(l => l.code === code)` from position `i` on. */
  function FindLanguage(code: string, i: nat := 0): (r: Option<Language>)
    requires i <= |Languages|
    ensures r.Some? ==> r.value in Languages[i..] && r.value.code == code
    ensures r.None? <==> forall j :: i <= j < |Languages| ==> Languages[j].code != code
    decreases |Languages| - i
  {
    if i == |Languages| then None
    else if Languages[i].code == code then Some(Languages[i])
    else FindLanguage(code, i + 1)
  }

  predicate IsSupported(code: string) {
    FindLanguage(code).Some?
  }

  /** The six supported codes, and nothing else. */
  lemma SupportedCodes(code: string)
    ensures IsSupported(code) <==> code in {"en", "es", "fr", "de", "it", "pt"}
  {
  }

  /** Sample entries of the three tables; 'fr' has no portfolio entries. */
  const EnglishTable: map<string, string> :=
    map["nav.about" := "About", "portfolio.title" := "Portfolio", "common.download" := "Download",
        "common.subscribe" := "Subscribe"]
  const SpanishTable: map<string, string> :=
    map["nav.about" := "Acerca de", "portfolio.title" := "Portafolio", "common.download" := "Descargar",
        "common.subscribe" := "Suscribirse"]
  const FrenchTable: map<string, string> :=
    map["nav.about" := "À propos", "common.download" := "Télécharger", "common.subscribe" := "S'abonner"]

  const Translations: map<string, map<string, string>> :=
    map["en" := EnglishTable, "es" := SpanishTable, "fr" := FrenchTable]

  /** `translations[lang] || translations.en`. */
  function TableFor(lang: string): (r: map<string, string>)
    ensures lang in Translations ==> r == Translations[lang]
    ensures lang !in Translations ==> r == EnglishTable
  {
    if lang in Translations then Translations[lang] else Translations["en"]
  }

  /** `t(key)`: the entry of the language's table, or the key itself when the entry is
      missing or empty. There is no second look in the English table. */
  function T(lang: string, key: string): (r: string)
    ensures key in TableFor(lang) && TableFor(lang)[key] != "" ==> r == TableFor(lang)[key]
    ensures key !in TableFor(lang) ==> r == key
    ensures key in TableFor(lang) && TableFor(lang)[key] == "" ==> r == key
    ensures r == "" ==> key == ""
  {
    var table := TableFor(lang);
    if key in table && table[key] != "" then table[key] else key
  }

  /** A code without a table, supported ('de', 'it', 'pt') or not, reads the English table. */
  lemma UntranslatedLanguageUsesEnglish(lang: string, key: string)
    requires lang !in {"en", "es", "fr"}
    ensures T(lang, key) == T("en", key)
  {
  }

  /** A key missing from the French table comes back as the key itself, although English
      has it. */
  lemma FrenchPortfolioTitle()
    ensures T("fr", "portfolio.title") == "portfolio.title"
    ensures T("en", "portfolio.title") == "Portfolio"
    ensures T("de", "portfolio.title") == "Portfolio"
  {
    assert "portfolio.title" !in FrenchTable by {
      assert "portfolio.title"[0] != "nav.about"[0] && "portfolio.title"[0] != "common.download"[0];
      assert |"portfolio.title"| != |"common.subscribe"|;
    }
  }

  /** `languages.find(...) || languages[0]`: the entry shown in the switcher. */
  function CurrentLang(code: string): (r: Language)
    ensures r in Languages
    ensures r.code == code <==> IsSupported(code)
    ensures !IsSupported(code) ==> r == Languages[0]
  {
    FindLanguage(code).GetOr(Languages[0])
  }

  /** The text `TranslatedText` shows: `t(key) || fallback || key`. */
  function TranslatedText(lang: string, key: string, fallback: Option<string>): string {
    OrElse(OrElse(T(lang, key), fallback.GetOr("")), key)
  }

  /** Because `t` already falls back to the key, the component's own fallback is shown only
      for the empty key; for any other key the text is exactly `t(key)`. */
  lemma FallbackOnlyForEmptyKey(lang: string, key: string, fallback: Option<string>)
    ensures key != "" ==> TranslatedText(lang, key, fallback) == T(lang, key)
    ensures TranslatedText(lang, key, fallback) != T(lang, key) ==>
              key == "" && fallback.Some? && fallback.value != ""
  {
  }

  /** The part of the browser's language before the first '-'. */
  function BrowserPrefix(browserLanguage: string): string {
    FirstField(browserLanguage, '-')
  }

  /** The mount effect's choice: a supported saved preference, otherwise a supported
      browser prefix, otherwise the current language unchanged. */
  function InitialLanguage(current: string, saved: Option<string>, browserLanguage: string): (r: string)
    ensures saved.Some? && saved.value != "" && IsSupported(saved.value) ==> r == saved.value
    ensures !(saved.Some? && saved.value != "" && IsSupported(saved.value)) ==>
              r == if IsSupported(BrowserPrefix(browserLanguage)) then BrowserPrefix(browserLanguage) else current
  {
    if saved.Some? && saved.value != "" && IsSupported(saved.value) then saved.value
    else if IsSupported(BrowserPrefix(browserLanguage)) then BrowserPrefix(browserLanguage)
    else current
  }

  /** Starting from a supported language, the initial choice is always a supported one. */
  lemma InitialLanguageSupported(current: string, saved: Option<string>, browserLanguage: string)
    requires IsSupported(current)
    ensures IsSupported(InitialLanguage(current, saved, browserLanguage))
  {
  }

  /** A visitor who saved nothing and whose browser says French for any region ('fr-CA',
      'fr-BE', ...) gets French, whatever the current language was. */
  lemma BrowserLanguageExample(current: string, region: string)
    ensures InitialLanguage(current, None, "fr-" + region) == "fr"
  {
    var browser := "fr-" + region;
    assert BrowserPrefix(browser) == "fr" by {
      assert browser[2] == '-' && browser[0] != '-' && browser[1] != '-';
      assert FieldEnd(browser, '-', 0) == 2;
      assert browser[..2] == "fr";
    }
    SupportedCodes("fr");
  }

  /** A visitor who saved 'de' gets German whatever the browser says; one who saved an
      unsupported code and whose browser says 'ja-JP' keeps English. */
  lemma PreferenceExamples()
    ensures InitialLanguage("en", Some("de"), "fr-CA") == "de"
    ensures InitialLanguage("en", Some("xx"), "ja-JP") == "en"
  {
    var ja := "ja-JP";
    assert BrowserPrefix(ja) == "ja" by {
      assert ja[2] == '-' && ja[0] != '-' && ja[1] != '-';
      assert FieldEnd(ja, '-', 0) == 2;
      assert ja[..2] == "ja";
    }
    SupportedCodes("de");
    SupportedCodes("xx");
    SupportedCodes("ja");
  }

  /** The language state of a page, persisted under 'preferred-language'. */
  class Translator {
    var currentLanguage: string

    constructor ()
      ensures currentLanguage == "en"
    {
      currentLanguage := "en";
    }

    /** The mount effect. */
    method Mount(store: Store, browserLanguage: string)
      modifies this
      ensures currentLanguage == InitialLanguage(old(currentLanguage), store.GetItem(PreferredLanguageKey), browserLanguage)
    {
      var savedLang := store.GetItem(PreferredLanguageKey);
      var browserLang := FirstField(browserLanguage, '-');
      if savedLang.Some? && savedLang.value != "" && FindLanguage(savedLang.value).Some? {
        currentLanguage := savedLang.value;
      } else if FindLanguage(browserLang).Some? {
        currentLanguage := browserLang;
      }
    }

    /** `setLanguage`: the code is taken and persisted as given, without checking it. */
    method SetLanguage(store: Store, lang: string)
      modifies this, store
      ensures currentLanguage == lang
      ensures store.items == old(store.items)[PreferredLanguageKey := lang]
    {
      currentLanguage := lang;
      store.SetItem(PreferredLanguageKey, lang);
    }

    /** `t` bound to the current language. */
    function Translate(key: string): (r: string)
      reads this
      ensures r == T(currentLanguage, key)
      ensures key !in TableFor(currentLanguage) ==> r == key
    {
      T(currentLanguage, key)
    }
  }

  /** A supported language chosen with `setLanguage` is the one the next mount picks,
      whatever the browser says; an unsupported one is persisted but ignored by the next
      mount. */
  lemma PreferenceSurvivesReload(items: map<string, string>, lang: string, current: string, browserLanguage: string)
    ensures IsSupported(lang) ==>
              InitialLanguage(current, Some(items[PreferredLanguageKey := lang][PreferredLanguageKey]), browserLanguage) == lang
    ensures !IsSupported(lang) ==>
              InitialLanguage(current, Some(items[PreferredLanguageKey := lang][PreferredLanguageKey]), browserLanguage)
              == InitialLanguage(current, None, browserLanguage)
  {
  }
}
