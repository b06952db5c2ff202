/**
 * The i18n store (script.js:1-62): the `translations` table, the current
 * language and the persisted `userLangPreference`, with `init`,
 * `loadTranslations`, `applyTranslations` and `switchLanguage`.
 *
 * Fetching and parsing `i18n/<lang>.json` is not modelled: each load is given
 * the outcome of its fetch as a parameter.  The page is the array of the
 * elements the store writes text into.
 */
module Store {
  import opened Wrappers

  /** A translation entry: a string, or a list of strings such as `noTexts`. */
  datatype Value = Str(s: string) | List(items: seq<string>)

  /** JavaScript truthiness of an entry: `""` is falsy, every array (even `[]`) is truthy. */
  predicate Truthy(v: Value) {
    match v
    case Str(s) => s != ""
    case List(_) => true
  }

  /** `items.join(",")`, which is what assigning an array to `textContent` stores. */
  function Join(items: seq<string>): (r: string)
    ensures |items| == 1 ==> r == items[0]
    ensures items == [] ==> r == ""
  {
    if items == [] then ""
    else if |items| == 1 then items[0]
    else items[0] + "," + Join(items[1..])
  }

  /**
   * `Join` agrees with `Array.prototype.join` read left to right: appending
   * an entry to a non-empty list appends `,` and that entry.
   */
  lemma {:induction false} JoinSnoc(items: seq<string>, x: string)
    requires items != []
    ensures Join(items + [x]) == Join(items) + "," + x
  {
    if |items| == 1 {
      assert items + [x] == [items[0], x];
      assert (items + [x])[1..] == [x];
    } else {
      assert (items + [x])[0] == items[0];
      assert (items + [x])[1..] == items[1..] + [x];
      JoinSnoc(items[1..], x);
      assert items[0] + "," + (Join(items[1..]) + "," + x) == (items[0] + "," + Join(items[1..])) + "," + x;
    }
  }

  /** The text an element shows after `element.textContent = value`. */
  function TextOf(v: Value): string {
    match v
    case Str(s) => s
    case List(items) => Join(items)
  }

  /** The outcome of `fetch` plus `response.json()` for one language file. */
  datatype Fetch = Fetched(table: map<string, Value>) | FetchFailed

  /** The error `loadTranslations` throws; its message names the language whose load failed. */
  datatype LoadError = LoadError(lang: string)

  /** One page element: its `data-i18n` attribute, if any, and its text. */
  datatype Element = Element(key: Option<string>, text: string)

  /** Whether `applyTranslations` writes into `e`: it is marked and its entry is truthy. */
  predicate Applies(e: Element, t: map<string, Value>) {
    e.key.Some? && e.key.value in t && Truthy(t[e.key.value])
  }

  /** One step of `applyTranslations`'s `forEach`. */
  function Translated(e: Element, t: map<string, Value>): (r: Element)
    ensures r.key == e.key
    ensures r.text != e.text ==> Applies(e, t)
    ensures Applies(e, t) ==> r.text == TextOf(t[e.key.value])
  {
    if Applies(e, t) then e.(text := TextOf(t[e.key.value])) else e
  }

  /** The whole page after `applyTranslations`. */
  function Applied(page: seq<Element>, t: map<string, Value>): (r: seq<Element>)
    ensures |r| == |page|
    ensures forall i :: 0 <= i < |page| ==> r[i] == Translated(page[i], t)
  {
    if page == [] then [] else [Translated(page[0], t)] + Applied(page[1..], t)
  }

  /** Applying the same table twice leaves the page as applying it once. */
  lemma AppliedIdempotent(page: seq<Element>, t: map<string, Value>)
    ensures Applied(Applied(page, t), t) == Applied(page, t)
  {
    var once := Applied(page, t);
    forall i | 0 <= i < |page|
      ensures Applied(once, t)[i] == once[i]
    {
      assert once[i].key == page[i].key;
    }
  }

  /** `navigator.language || 'en'`: the runtime's language, or `en` when it reports none. */
  function BrowserLanguage(navigatorLanguage: Option<string>): (lang: string)
    ensures lang != ""
    ensures navigatorLanguage.Some? && navigatorLanguage.value != "" ==> lang == navigatorLanguage.value
    ensures !(navigatorLanguage.Some? && navigatorLanguage.value != "") ==> lang == "en"
  {
    match navigatorLanguage
    case Some(l) => if l != "" then l else "en"
    case None => "en"
  }

  /**
   * `browserLang || userPref`, the language `init` starts with.  A missing
   * preference (`null`) is written as the empty string.
   */
  function StartLanguage(navigatorLanguage: Option<string>, preference: Option<string>): string {
    var browserLang := BrowserLanguage(navigatorLanguage);
    if browserLang != "" then browserLang else preference.GetOr("")
  }

  /** The stored preference never decides the start language. */
  lemma PreferenceNeverChosen(navigatorLanguage: Option<string>, preference: Option<string>)
    ensures StartLanguage(navigatorLanguage, preference) == BrowserLanguage(navigatorLanguage)
    ensures StartLanguage(navigatorLanguage, preference) == StartLanguage(navigatorLanguage, None)
  {
  }

  /** The `i18n` object. */
  class I18n {
    var translations: map<string, Value>
    var currentLang: string
    /** `localStorage['userLangPreference']`. */
    var preference: Option<string>

    /** The object literal, with whatever preference the browser has stored. */
    constructor (stored: Option<string>)
      ensures translations == map[] && currentLang == "" && preference == stored
    {
      translations := map[];
      currentLang := "";
      preference := stored;
    }

    /**
     * `loadTranslations(lang)`: on success the table is replaced wholesale;
     * on failure it is left as it was and the error names `lang`.
     */
    method LoadTranslations(lang: string, fetched: Fetch) returns (r: Option<LoadError>)
      modifies this`translations
      ensures fetched.Fetched? ==> r == None && translations == fetched.table
      ensures fetched.FetchFailed? ==> r == Some(LoadError(lang)) && translations == old(translations)
    {
      match fetched
      case Fetched(table) =>
        translations := table;
        r := None;
      case FetchFailed =>
        r := Some(LoadError(lang));
    }

    /** `applyTranslations()`: every element is rewritten by `Translated`. */
    method ApplyTranslations(page: array<Element>)
      modifies page
      ensures page[..] == Applied(old(page[..]), translations)
    {
      var i := 0;
      while i < page.Length
        invariant 0 <= i <= page.Length
        invariant forall k :: 0 <= k < i ==> page[k] == Translated(old(page[k]), translations)
        invariant forall k :: i <= k < page.Length ==> page[k] == old(page[k])
      {
        page[i] := Translated(page[i], translations);
        i := i + 1;
      }
    }

    /**
     * `init()`: the start language is the runtime's (the preference never
     * wins); if its file fails, `en` is loaded while `currentLang` keeps the
     * first candidate; if `en` fails too the error leaves `init` and the page
     * is not touched.  On success the table is applied and returned.
     * `first` and `fallback` are the outcomes of the two loads, in order.
     */
    method Init(navigatorLanguage: Option<string>, first: Fetch, fallback: Fetch, page: array<Element>)
      returns (r: Result<map<string, Value>, LoadError>)
      modifies this, page
      ensures currentLang == StartLanguage(navigatorLanguage, old(preference))
      ensures currentLang == BrowserLanguage(navigatorLanguage)
      ensures preference == old(preference)
      ensures first.Fetched? ==> translations == first.table && r == Ok(first.table)
      ensures first.FetchFailed? && fallback.Fetched? ==> translations == fallback.table && r == Ok(fallback.table)
      ensures first.FetchFailed? && fallback.FetchFailed? ==>
                translations == old(translations) && r == Err(LoadError("en"))
      ensures r.Ok? ==> page[..] == Applied(old(page[..]), translations)
      ensures r.Err? ==> page[..] == old(page[..])
    {
      var userPref := preference;
      PreferenceNeverChosen(navigatorLanguage, userPref);
      currentLang := StartLanguage(navigatorLanguage, userPref);
      var err := LoadTranslations(currentLang, first);
      if err.Some? {
        var fallbackErr := LoadTranslations("en", fallback);
        if fallbackErr.Some? {
          return Err(fallbackErr.value);
        }
      }
      ApplyTranslations(page);
      r := Ok(translations);
    }

    /**
     * `switchLanguage(lang)`: `currentLang` and the stored preference become
     * `lang` before the load; a failed load propagates, keeps the old table
     * and does not touch the page.
     */
    method SwitchLanguage(lang: string, fetched: Fetch, page: array<Element>) returns (r: Option<LoadError>)
      modifies this, page
      ensures currentLang == lang && preference == Some(lang)
      ensures fetched.Fetched? ==> r == None && translations == fetched.table
      ensures fetched.Fetched? ==> page[..] == Applied(old(page[..]), fetched.table)
      ensures fetched.FetchFailed? ==> r == Some(LoadError(lang)) && translations == old(translations)
      ensures fetched.FetchFailed? ==> page[..] == old(page[..])
    {
      currentLang := lang;
      preference := Some(lang);
      r := LoadTranslations(lang, fetched);
      if r.None? {
        ApplyTranslations(page);
      }
    }
  }
}
