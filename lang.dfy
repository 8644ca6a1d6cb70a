/** The language provider: the translation lookup `t` with its fallbacks,
    the English/Spanish toggle and the language taken from the user's
    profile. The dictionary itself is static data and is a parameter; the
    language preference request is reduced to what it sends. */
module Lang {
  import opened Common

  /** The translation tables by language code; the English one always
      exists. */
  type Dictionary = d: map<string, map<string, string>> | "en" in d witness map["en" := map[]]

  /** A table's entry for `key`, as an optional string (`table[key]`). */
  function Entry(table: map<string, string>, key: string): Option<string> {
    if key in table then Some(table[key]) else None
  }

  /** `dict[lang]?.[key] || dict.en[key] || key`. */
  function T(dict: Dictionary, lang: string, key: string): (r: string)
    ensures lang in dict && Truthy(Entry(dict[lang], key)) ==> r == dict[lang][key]
    ensures !(lang in dict && Truthy(Entry(dict[lang], key))) && Truthy(Entry(dict["en"], key)) ==>
              r == dict["en"][key]
    ensures !(lang in dict && Truthy(Entry(dict[lang], key))) && !Truthy(Entry(dict["en"], key)) ==>
              r == key
  {
    var own := if lang in dict then Entry(dict[lang], key) else None;
    if Truthy(own) then own.value
    else if Truthy(Entry(dict["en"], key)) then dict["en"][key]
    else key
  }

  /** `t` always yields text: a non-empty key never comes back empty, and
      the result is an entry of the chosen or the English table, or the
      key itself. */
  lemma TNeverEmpty(dict: Dictionary, lang: string, key: string)
    ensures key != "" ==> T(dict, lang, key) != ""
    ensures || T(dict, lang, key) == key
            || (lang in dict && key in dict[lang] && T(dict, lang, key) == dict[lang][key])
            || (key in dict["en"] && T(dict, lang, key) == dict["en"][key])
  {
  }

  /** A language without a table reads exactly like English. */
  lemma UnknownLanguageIsEnglish(dict: Dictionary, lang: string, key: string)
    requires lang !in dict
    ensures T(dict, lang, key) == T(dict, "en", key)
  {
  }

  /** `lang === 'en' ? 'es' : 'en'`. */
  function Toggle(lang: string): (r: string)
    ensures r == "es" <==> lang == "en"
    ensures r == "en" || r == "es"
  {
    if lang == "en" then "es" else "en"
  }

  /** Toggling twice restores English or Spanish; any other code ends up
      Spanish. */
  lemma ToggleTwice(lang: string)
    ensures lang == "en" || lang == "es" ==> Toggle(Toggle(lang)) == lang
    ensures lang != "en" ==> Toggle(Toggle(lang)) == "es"
  {
  }

  class LangProvider {
    const dict: Dictionary
    var lang: string

    constructor (dict: Dictionary)
      ensures this.dict == dict && lang == "en"
    {
      this.dict := dict;
      lang := "en";
    }

    /** `t(key)` in the current language. */
    function Translate(key: string): (r: string)
      reads this
      ensures key != "" ==> r != ""
    {
      TNeverEmpty(dict, lang, key);
      T(dict, lang, key)
    }

    /** The profile effect: a truthy `user.language` replaces the language;
        otherwise it is kept. */
    method SyncFromUser(language: Option<string>)
      modifies this`lang
      ensures Truthy(language) ==> lang == language.value
      ensures !Truthy(language) ==> lang == old(lang)
    {
      if Truthy(language) {
        lang := language.value;
      }
    }

    /** `toggleLang()`: the language flips first; with a token the new one
        is sent to the server. The request's outcome is ignored (a failure
        is caught and leaves the flip in place), so it is not a parameter. */
    method ToggleLang(hasToken: bool) returns (sent: Option<string>)
      modifies this`lang
      ensures lang == Toggle(old(lang))
      ensures sent == if hasToken then Some(lang) else None
    {
      var newLang := Toggle(lang);
      lang := newLang;
      sent := None;
      if hasToken {
        sent := Some(newLang);
      }
    }

    /** `setLang(l)`, used by the language buttons. */
    method SetLang(l: string)
      modifies this`lang
      ensures lang == l
    {
      lang := l;
    }
  }
}
