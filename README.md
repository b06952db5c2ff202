# tang-love page script, modelled in Dafny

A model of the page script `script.js` of a small "will you be mine?" page:
the `i18n` object that loads a translation table per language, applies it to
the page and substitutes `{placeholders}` in template strings, and the click
handler of the No button that counts clicks and derives offsets, a label and
an image from the count.

Files:

- `wrappers.dfy` (module `Wrappers`): `Option` and `Result`.
- `template.dfy` (module `TemplateEngine`): `i18n.template` as a recursive
  function over the string, the regular-expression match `\{(\w+)\}` at one
  position (`MatchAt`), and an independent view of a template as a sequence of
  literal characters and holes (`Scan`, `Unparse`, `Render`).
- `store.dfy` (module `Store`): the translation values, the page elements, and
  the `i18n` object as class `I18n` with `LoadTranslations`,
  `ApplyTranslations`, `Init` and `SwitchLanguage`.
- `page.dfy` (module `Page`): the 20-character username cut, the greeting
  templates, and the No button as class `NoButton`.

Modelling choices:

- `\w` is the ASCII class `[A-Za-z0-9_]` (the pattern has no `u` flag).
- The template data is a `map<string, string>`; a value is truthy when its key
  is present and the string is non-empty.
- A translation entry is a string or a list of strings. An empty string is
  falsy; every list is truthy, even an empty one. An element given a list
  shows the list joined with `,`, as JavaScript does when an array is
  assigned to `textContent`.
- Each load takes the outcome of its fetch-and-parse as a parameter
  (`Fetched(table)` or `FetchFailed`). `Init` takes two outcomes: one for the
  first candidate and one for the `en` fallback.
- `navigator.language` is an `Option<string>`. A missing or empty value
  becomes `en`.
- The page is an `array<Element>`. Each element has an optional `data-i18n`
  key and a text.

Behaviours worth noting, as the code has them:

- The stored preference never wins at start-up. `navigator.language || 'en'`
  is never empty, so `browserLang || userPref` is always the browser
  language (`PreferenceNeverChosen`).
- A failed `en` load propagates out of `init`, and the page is not
  translated (`I18n.Init`, third case).
- `currentLang` and the table can disagree:
  - After the `en` fallback, `currentLang` still names the first candidate.
  - A failed `switchLanguage` has already set `currentLang` and the
    preference, but keeps the old table.

## Model

| member | source | states |
|---|---|---|
| `TemplateEngine.Template` | script.js:64-71 | `i18n.template` itself; it has no contract of its own, and `TemplateToken`, `TemplateLiteralStep` and `TemplateRendersScan` describe it: each `{word}` match becomes its value, every other character is copied, in one left-to-right pass |
| `TemplateEngine.WordRun` | script.js:66 | the greedy `\w+` run: every character before it is a word character and the one after it is not |
| `TemplateEngine.MatchAt` | script.js:66 | a reported match is a non-empty word `w` with `{w}` a prefix of the string |
| `TemplateEngine.MatchAtWord` | script.js:66 | conversely, every `{w}` prefix with `w` a word is matched with key `w` |
| `TemplateEngine.Lookup` | script.js:67 | the value used for a key is non-empty exactly when the key is present with a non-empty value, and is then that value |
| `TemplateEngine.TemplateToken` | script.js:66-69 | a `{w}` token becomes `data[w]` (or `""`), and scanning resumes right after the `}` |
| `TemplateEngine.TemplateLiteralStep` | script.js:66 | where no match starts, the first character is copied and scanning moves on by one |
| `TemplateEngine.TemplateLiteralPrefix` | script.js:66 | text without `{` is copied through unchanged, whatever follows |
| `TemplateEngine.TemplateNoBrace` | script.js:66 | a string without `{` is returned unchanged |
| `TemplateEngine.Scan` | script.js:66 | every hole the scanner reports carries a `\w+` key |
| `TemplateEngine.ScanStep` | script.js:66 | the first piece is the match starting there when there is one, else the first character; it covers a non-empty prefix, and `Template` renders it before going on |
| `TemplateEngine.ScanToken` | script.js:66 | a leading `{word}` is always scanned as one hole, and scanning resumes after its `}` |
| `TemplateEngine.ScanRoundTrip` | script.js:66 | the literal characters and `{key}` holes spell the original string, so nothing outside a match is lost |
| `TemplateEngine.TemplateRendersScan` | script.js:64-71 | the result is the scanned pieces with literals copied and each hole replaced by its value, in one pass |
| `TemplateEngine.TemplateSlot` | script.js:64-71 | in a template with one `{key}` slot between brace-free text, only the slot changes, to the key's value |
| `TemplateEngine.HelloExamples` | script.js:64-71 | `"Hello {username}!"` gives `"Hello " + name + "!"` for any name, and `"Hello !"` when the key is missing |
| `TemplateEngine.EmptyBracesStayLiteral` | script.js:66 | `{}` is not a match, and both braces stay |
| `TemplateEngine.BrokenTokenStaysLiteral` | script.js:66 | `{` plus a word followed by a character that is neither a word character nor `}` (as in `{a-b}`) is not a match, and stays as it is |
| `TemplateEngine.ValuesAreNotRescanned` | script.js:66-69 | for any word key and any non-empty value, token-shaped ones included, the value is inserted verbatim and scanning resumes after the `}`, not inside the value |
| `TemplateEngine.SinglePassNotIdempotent` | script.js:66 | when `a` has no value, `{b{a}}` becomes `{b}`, a new token that only a second application expands to `data[b]` |
| `Store.Truthy` | script.js:47 | the `if (translation)` test, described by `Translated`: an empty string is falsy, any other string and every list is truthy |
| `Store.TextOf` | script.js:48 | the text `textContent` holds after the assignment, described by `Translated`: a string as it is, a list through `Join` |
| `Store.Join` | script.js:48 | a one-element list shows its only string; an empty list shows `""` |
| `Store.JoinSnoc` | script.js:48 | appending an entry to a non-empty list appends `,` and that entry, as `Array.prototype.join` does |
| `Store.Applies` | script.js:44-47 | whether an element is rewritten, described by `Translated`: it carries `data-i18n`, its key is in the table, and the entry is truthy |
| `Store.Translated` | script.js:44-50 | an element keeps its key; its text changes only when it is marked and its entry is truthy, and then becomes that entry's text |
| `Store.Applied` | script.js:43-51 | the page keeps its length, and each element is rewritten independently by `Translated` |
| `Store.AppliedIdempotent` | script.js:41-52 | applying the same table twice gives the same page as applying it once |
| `Store.BrowserLanguage` | script.js:9 | the browser language is `navigator.language` when that is non-empty, and `en` otherwise |
| `Store.StartLanguage` | script.js:11 | the browser language when it is non-empty, else the stored preference; `PreferenceNeverChosen` describes it |
| `Store.PreferenceNeverChosen` | script.js:8-11 | the start language is the browser language, whatever preference is stored |
| `Store.I18n.constructor` | script.js:1-3 | the object starts with an empty table, an empty language, and whatever preference storage holds |
| `Store.I18n.LoadTranslations` | script.js:27-38 | on success the table is replaced wholesale; on failure it is unchanged and the error names the language |
| `Store.I18n.ApplyTranslations` | script.js:41-52 | the page becomes `Applied` of its old contents under the current table |
| `Store.I18n.Init` | script.js:6-24 | `currentLang` is the browser language, and the preference is untouched. The table is the first load's, else `en`'s. When both loads fail, the error for `en` propagates, and table and page are unchanged. On success the page is translated and the table returned |
| `Store.I18n.SwitchLanguage` | script.js:55-62 | `currentLang` and the preference become `lang` even if the load fails. On failure the old table and page remain and the error propagates. On success the new table is applied |
| `Page.Truncate` | script.js:128 | the name is cut to a prefix of at most 20 characters, and names of 20 or fewer are kept whole |
| `Page.Greeting` | script.js:128-131 | the Yes screen's message, `template` with the truncated name as `username`, described by `GreetingInsertsName` |
| `Page.GreetingInsertsName` | script.js:128-131 | a template with one `{username}` slot between brace-free text shows exactly the truncated name there |
| `Page.ImageFor` | script.js:166-178 | no image at count 0; shocked, think and angry at counts 1 to 3; the crying image from count 4 on |
| `Page.NoLabel` | script.js:161-164 | a new label exists exactly when `noTexts` is truthy and the count is within its length; for a list it is entry `count - 1`, for a string the one-character string at index `count - 1` |
| `Page.LabelAfter` | script.js:160-164 | the label after n clicks under a fixed table, described by `LabelSticksAtLast` |
| `Page.LabelSticksAtLast` | script.js:160-164 | after n clicks the label is entry `n - 1` of a non-empty `noTexts` list, and its last entry once n exceeds the length |
| `Page.NoButton.constructor` | script.js:142 | the count starts at 0 with no offsets |
| `Page.NoButton.Click` | script.js:144-178 | the count grows by exactly 1. The offsets are 50 and 25 times the count. The label changes only by `NoLabel`. The image is the count's image, crying from 4 on |

## Left out

- Fetching and parsing `i18n/<lang>.json` and `languages.json`
  (script.js:31-32, 78-79) are network and JSON-parser calls. Each load
  receives its outcome as a parameter instead.
- Translation values other than strings and lists of strings (numbers,
  objects, booleans, `null`) are left out. So are JavaScript prototype keys
  such as `constructor`.
- `console` logging is left out, since it has no effect on behaviour.
- The DOM wiring is left out: event listeners, `getElementById`,
  `style.display`, CSS classes and animations, and the `document.body`
  replacement on Yes (script.js:101-140, 183-203). The text the Yes screen
  shows is `Greeting`.
- The language selector's option list (script.js:75-98) is left out. Its
  selected option is the one whose code equals the same
  `navigator.language || 'en'` value, so the preference never selects it
  there either.
- The Yes-button scale `1 + clickCount * 1.2` (script.js:148) is left out,
  since it is floating point.
- Overlapping asynchronous `switchLanguage` calls are left out. Each call is
  modelled as running to completion before the next one starts.
- `Page.Truncate` cuts by Dafny characters. JavaScript's `substring` counts
  UTF-16 code units, so the two differ for characters outside the Basic
  Multilingual Plane.
- Page.NoLabel: `Size` and the string index count Dafny characters, while
  JavaScript's `.length` and `[i]` count UTF-16 code units, so a string
  `noTexts` holding characters outside the Basic Multilingual Plane gives
  different labels (JavaScript would yield half a surrogate pair).
- A missing `questionTemplate` or `loveMessage` entry, which makes the source
  throw inside `template`, is not modelled: the template is always a string.
- A click count of 0 is never given to `NoLabel`. The handler increments the
  count before it reads `noTexts`, so `noTexts[-1]` is never read.
