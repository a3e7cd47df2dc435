/** Locale selection (lib/i18n-context.tsx): the provider starts in "en",
    adopts a saved locale as it is, or else the browser language's primary
    subtag when it is one of the five supported locales; choosing a locale
    sets it and persists it under the "locale" key. The translation table
    (lib/i18n) is not part of this model. */
module I18n {
  import opened SeqUtil
  import opened Storage

  const DefaultLocale := "en"
  const SupportedLocales: seq<string> := ["en", "tr", "es", "fr", "de"]

  /** `lang.split("-")[0]`: the text before the first '-', or all of it. */
  function PrimarySubtag(lang: string): (r: string)
    ensures '-' !in r
    ensures |r| <= |lang| && lang[..|r|] == r
    ensures |r| < |lang| ==> lang[|r|] == '-'
  {
    if lang == [] || lang[0] == '-' then [] else [lang[0]] + PrimarySubtag(lang[1..])
  }

  /** The locale the provider settles on at mount, given the saved value and
      the browser's language. */
  function InitialLocale(saved: Option<string>, browserLanguage: string): (r: string)
    ensures saved.Some? && saved.value != "" ==> r == saved.value
    ensures !(saved.Some? && saved.value != "") ==> r in SupportedLocales
    ensures !(saved.Some? && saved.value != "") && PrimarySubtag(browserLanguage) in SupportedLocales ==>
              r == PrimarySubtag(browserLanguage)
    ensures !(saved.Some? && saved.value != "") && PrimarySubtag(browserLanguage) !in SupportedLocales ==>
              r == DefaultLocale
  {
    if saved.Some? && saved.value != "" then saved.value
    else if PrimarySubtag(browserLanguage) in SupportedLocales then PrimarySubtag(browserLanguage)
    else DefaultLocale
  }

  class Provider {
    var locale: string

    constructor ()
      ensures locale == DefaultLocale
    {
      locale := DefaultLocale;
    }

    /** The mount effect: a non-empty saved locale is adopted without being
        checked; otherwise a supported primary subtag of the browser language
        is adopted; otherwise the locale stays as it is. */
    method LoadEffect(store: Store, browserLanguage: string)
      requires store.Valid()
      modifies this
      ensures var saved := if LocaleKey in store.entries then Some(store.entries[LocaleKey].locale) else None;
        if saved.Some? && saved.value != "" then locale == saved.value
        else if PrimarySubtag(browserLanguage) in SupportedLocales then locale == PrimarySubtag(browserLanguage)
        else locale == old(locale)
    {
      var saved := store.GetLocaleItem();
      if saved.Some? && saved.value != "" {
        locale := saved.value;
      } else {
        var lang := PrimarySubtag(browserLanguage);
        if lang in SupportedLocales {
          locale := lang;
        }
      }
    }

    /** `setLocale`: the state and the "locale" key both take the new value;
        nothing else in the store changes. */
    method SetLocale(store: Store, l: string)
      requires store.Valid()
      modifies this, store
      ensures store.Valid()
      ensures locale == l
      ensures store.entries == old(store.entries)[LocaleKey := LocaleEntry(l)]
    {
      locale := l;
      store.SetLocaleItem(l);
    }
  }

  /** Mounting the provider yields the initial locale. */
  method Mount(store: Store, browserLanguage: string) returns (p: Provider)
    requires store.Valid()
    ensures p.locale == InitialLocale(
      if LocaleKey in store.entries then Some(store.entries[LocaleKey].locale) else None, browserLanguage)
  {
    p := new Provider();
    p.LoadEffect(store, browserLanguage);
  }

  /** A locale chosen with `setLocale` is the one the next mount adopts. */
  method ChoiceSurvivesReload(store: Store, l: string, browserLanguage: string)
    requires store.Valid() && l != ""
    modifies store
  {
    var p := new Provider();
    p.SetLocale(store, l);
    var q := Mount(store, browserLanguage);
    assert q.locale == l;
  }

  /** The browser language's region is ignored: "tr-TR" gives "tr", while
      "pt-BR" is unsupported and leaves "en". */
  lemma BrowserLanguageExamples()
    ensures InitialLocale(None, "tr-TR") == "tr"
    ensures InitialLocale(None, "pt-BR") == "en"
    ensures InitialLocale(Some(""), "de") == "de"
    ensures InitialLocale(Some("xx"), "de") == "xx"
  {
    assert PrimarySubtag("tr-TR") == "tr" by {
      assert "tr-TR"[1..] == "r-TR" && "r-TR"[1..] == "-TR";
    }
    assert PrimarySubtag("pt-BR") == "pt" by {
      assert "pt-BR"[1..] == "t-BR" && "t-BR"[1..] == "-BR";
    }
    assert PrimarySubtag("de") == "de" by {
      assert "de"[1..] == "e" && "e"[1..] == "";
    }
  }

  datatype Result<T> = Success(value: T) | Failure(error: string)

  const OutsideProvider := "useI18n must be used within I18nProvider"

  /** `useI18n`: the context of the enclosing provider, or the error it
      throws when there is none. */
  function UseI18n(context: Option<Provider>): (r: Result<Provider>)
    ensures r.Success? <==> context.Some?
    ensures r.Success? ==> r.value == context.value
    ensures r.Failure? ==> r.error == OutsideProvider
  {
    match context
    case Some(p) => Success(p)
    case None => Failure(OutsideProvider)
  }
}
