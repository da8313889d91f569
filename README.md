# Link record of silverstripe-linkable, modelled in Dafny

silverstripe-linkable adds one data object, `Link`, to a SilverStripe site. A
link's `Type` says what it points to:

- `URL`: an external address stored in the record.
- `Email`: an address stored in the record.
- A reference type: the record's `File`, its `SiteTree` page, or a custom data
  object registered in the `$types` configuration.

The record resolves its target (`getLinkURL`) and renders itself as an anchor
tag (`forTemplate`, with `getTargetAttr` and `getClassAttr`). It names its type
(`getLinkType`), validates itself before every save (`validate`), and gives
itself a title the first time it is saved without one (`onAfterWrite`).

The model has these modules:

- `Linkable` (link.dfy) holds the record, as class `Link`, with its persisted
  fields, the transient `cssClass` and a `writes` counter.
  - The read-only operations are functions that read only the fields they use.
  - `Validate` is a method that changes nothing.
  - `SetCSSClass`, `Write` and `OnAfterWrite` are methods that change exactly
    the fields their `modifies` clauses name.
  - Everything the record takes from the framework is one `Host` value:
    - the components `getComponent` finds, one per relation name;
    - the `types` configuration;
    - PHP's `FILTER_VALIDATE_URL` / `FILTER_VALIDATE_EMAIL` filters;
    - `Convert::raw2att`;
    - the failures that `validate` extensions report.
- `Php` (php.dfy) holds PHP's string truthiness (`""` and `"0"` are false) and
  PHP's integer-to-string conversion, with its inverse.
- `Markup` (markup.dfy) holds the anchor string and a reader for its `href`
  attribute. The reader shows that the rendered tag carries the resolved URL
  when it has no apostrophe; the escaped variant carries every URL (see
  "## Findings").
- `Scenarios` (scenarios.dfy) holds worked cases: a URL link saved without a
  title, validation of URLs, emails and references, a page link, a deleted
  page, and a file without `Link()`.
- `Options` (options.dfy) holds the optional-value datatype.

`getLinkURL` returns one of three things: a string, `null` or `false`. The
model returns `Str(s)`, `Null` or `False`. `forTemplate` either returns a
string or falls through to `null`; the model returns `Some(html)` or `None`.

Some behaviour of the code that is easy to misread:

- `getLinkURL` returns `null` for every type when `ID` is 0, `URL` and `Email`
  included.
- The `Email` case tests PHP truthiness, so an email of `"0"` resolves to
  `null`.
- The attributes use single quotes: `target='_blank'` and `class='…'`.
- `getClassAttr` is empty when `cssClass` or its escaped form is falsy, not
  only when it is unset.
- The docblock of `onAfterWrite` says an empty title is set to `getLinkURL()`,
  but the code takes it from the `URL` or `Email` field, the page's
  `MenuTitle` or the component's `Title`, and then falls back to `Link-<ID>`.
  For example, an `Email` link gets the bare address as its title, not the
  `mailto:` URL. `BackfillTitle` follows the code.
- `validate` skips the reference rule when `Type` is falsy (`""` or `"0"`).
  The reference ID it checks is the generic `<Type>ID` field, kept in
  `refIds`.

## Model

| member | source | states |
|---|---|---|
| `Linkable.Link.constructor` | code/dataobjects/Link.php:20-35 | a new record is unsaved (`ID` 0), with every field empty and no write yet |
| `Linkable.Link.LinkURL` | code/dataobjects/Link.php:181-200 | unsaved gives `Null` for every type; `URL` is returned verbatim; `Email` gives `"mailto:"+Email` when truthy and `Null` otherwise; for other types, `Null` exactly when no component is found, `False` exactly when it does not exist, else its link with `Anchor` appended raw or the missing-`Link()` placeholder |
| `Linkable.Link.ComponentOf` | code/dataobjects/Link.php:188 | some component exactly when `Type` is truthy and the host finds a component under that name, and then that component (the same test is used at line 125) |
| `Linkable.MissingLinkDiagnostic` | code/dataobjects/Link.php:196 | the placeholder starts with the fixed "Please implement a Link() method" prefix and ends with a double quote |
| `Linkable.DiagnosticNamesType` | code/dataobjects/Link.php:196 | the placeholder has the fixed prefix and ends with the type name and a closing quote, so the type name can be read back out of it |
| `Linkable.Link.TargetAttr` | code/dataobjects/Link.php:207-209 | non-empty exactly when `OpenInNewWindow`, and then `target='_blank'` |
| `Linkable.Link.ClassAttr` | code/dataobjects/Link.php:155-158 | empty exactly when `cssClass` or its escaped form is falsy, else `class='<escaped>'` |
| `Linkable.Link.SetCSSClass` | code/dataobjects/Link.php:144-147 | sets `cssClass` and changes no other field; returns the record itself |
| `Linkable.Link.ForTemplate` | code/dataobjects/Link.php:166-173 | emits a tag exactly when `LinkURL` is a truthy string; the tag is `<a href='url' target class>title</a>`, with the title being `Title` if truthy, else the URL |
| `Markup.AnchorTag` | code/dataobjects/Link.php:171 | the interpolated tag starts with `<a href='` followed by the URL, ends with the title followed by `</a>`, and is 8 characters longer than its five parts |
| `Markup.BareAnchorTag` | code/dataobjects/Link.php:171 | with no target and no class the tag has two adjacent spaces before `>` |
| `Markup.HrefOfAnchorTag` | code/dataobjects/Link.php:171 | reading the `href` attribute back from a rendered tag gives the URL that went in (URL without apostrophes) |
| `Linkable.RenderedHrefIsLinkURL` | code/dataobjects/Link.php:166-172 | the `href` of whatever `forTemplate` renders is the record's resolved URL, when that URL has no apostrophe |
| `Linkable.NothingRenderedWithoutUrl` | code/dataobjects/Link.php:167 | a `null` or `false` URL renders nothing |
| `Linkable.RenderingIsStable` | code/dataobjects/Link.php:166-172 | rendering an unchanged record twice gives the same result |
| `Linkable.Link.LinkType` | code/dataobjects/Link.php:216-219 | the label exists exactly when `Type` is a registry key, and then it is that key's label |
| `Linkable.DefaultLinkTypes` | code/dataobjects/Link.php:52-57 | the shipped registry labels exactly `URL`, `Email`, `File` and `SiteTree`, as "URL", "Email address", "File on this website" and "Page on this website" |
| `Linkable.Link.RefIdEmpty` | code/dataobjects/Link.php:251 | no contract besides its body: `<Type>ID` is empty when it is unset or 0 |
| `Linkable.MessageText` | code/dataobjects/Link.php:232-253 | the English default messages; the contract states only that the reference message names the type at a fixed position, and the other texts are its body |
| `Linkable.Link.Violation` | code/dataobjects/Link.php:229-256 | one rule per `Type`, rules mutually exclusive. `URL`: empty-URL exactly when `URL == ""`; valid-URL exactly when the first character is not `#` or `/` and the URL filter rejects it. `Email`: empty-email exactly when `Email == ""`; valid-email exactly when the email filter rejects it. Other types: a failure naming the type exactly when `Type` is truthy and `<Type>ID` is empty |
| `Linkable.Link.Validate` | code/dataobjects/Link.php:226-260 | valid exactly when no built-in rule fails and no extension reports a failure; the built-in message, if any, comes first, followed by the extensions' messages |
| `Linkable.AddErrors` | code/dataobjects/Link.php:257-258 | extensions reporting through `error()` only append messages and can only turn a valid result invalid |
| `Linkable.SiteTreeMenuTitle` | code/dataobjects/Link.php:123 | the `MenuTitle` of the `SiteTree` component, or empty when there is none |
| `Linkable.Link.TitleSource` | code/dataobjects/Link.php:120-127 | the back-fill's source by `Type`: `URL`, `Email`, the page's menu title for `SiteTree`, else the found component's `Title`, else empty |
| `Linkable.Link.BackfillTitle` | code/dataobjects/Link.php:119-132 | always truthy. It is the type-specific source when that is truthy: the `URL`/`Email` field, `SiteTree`'s `MenuTitle`, or another component's `Title`. Otherwise it is `"Link-"+ID` |
| `Linkable.FallbackTitle` | code/dataobjects/Link.php:130-132 | `"Link-"+ID` is always truthy |
| `Linkable.FallbackTitleInjective` | code/dataobjects/Link.php:130-132 | distinct IDs give distinct fallback titles |
| `Php.NatToString` | code/dataobjects/Link.php:131 | the decimal text of an integer is non-empty, all digits, with no leading zero |
| `Php.DecimalRoundTrip` | code/dataobjects/Link.php:131 | reading the decimal text back gives the integer |
| `Php.NatToStringInjective` | code/dataobjects/Link.php:131 | distinct integers print differently |
| `Linkable.Link.OnAfterWrite` | code/dataobjects/Link.php:117-136 | requires a saved record (`ID` not 0), since the hook runs only after the insert has assigned an ID. A truthy title means no change and no write; otherwise the title becomes `BackfillTitle` and exactly one more write happens; afterwards the title is truthy. Termination follows from the title being truthy before the nested write |
| `Linkable.Link.Write` | code/dataobjects/Link.php:134 | on a saved record, a write counts once, and once more when it triggers the back-fill; it leaves a truthy title |
| `Linkable.BackfillKeepsUrlAndVerdict` | code/dataobjects/Link.php:117-136 | changing only the title (and the write count) changes neither the resolved URL nor the validation verdict |
| `Markup.ApostropheEndsHrefEarly` | code/dataobjects/Link.php:171 | as written, the URL `/it's` renders a tag whose `href` reads back as `/it` |
| `Markup.EscapeQuotes` | code/dataobjects/Link.php:171 | the escaped URL contains no apostrophe |
| `Markup.UnescapeEscape` | code/dataobjects/Link.php:171 | unescaping undoes the escaping for every string |
| `Markup.EscapedHrefOfAnchorTag` | code/dataobjects/Link.php:171 | with the URL escaped, the `href` read back unescapes to the URL for every URL |
| `Linkable.Link.EscapedForTemplate` | code/dataobjects/Link.php:166-173 | emits exactly when `forTemplate` does, with the same tag except that the URL is escaped |
| `Linkable.EscapedHrefIsLinkURL` | code/dataobjects/Link.php:166-172 | for every record, the escaped rendering's `href` unescapes to the resolved URL |
| `Scenarios.UrlLinkBackfillAndRender` | code/dataobjects/Link.php:117-172 | a URL link saved without a title takes the URL as title after two writes and renders as `<a href='http://example.com'  >http://example.com</a>` |
| `Scenarios.ExampleComTag` | code/dataobjects/Link.php:171 | the tag for that link, spelled out character for character |
| `Scenarios.UrlValidation` | code/dataobjects/Link.php:229-239 | a well-formed URL validates and resolves unchanged; `"not a url"` fails with the valid-URL message only |
| `Scenarios.InternalPathValidation` | code/dataobjects/Link.php:234-235 | a URL beginning with `/` validates whatever the URL filter says |
| `Scenarios.EmailValidation` | code/dataobjects/Link.php:240-249 | `a@b.com` validates and resolves to `mailto:a@b.com`; `not-an-email` fails with the valid-email message only |
| `Scenarios.ReferenceValidation` | code/dataobjects/Link.php:250-255 | a `File` link fails naming `File` until `FileID` is set, then validates |
| `Scenarios.PageLink` | code/dataobjects/Link.php:122-123 | a page link resolves to the page's link and back-fills the page's menu title |
| `Scenarios.DeletedPageLink` | code/dataobjects/Link.php:189-191 | a deleted page gives `False` and renders nothing |
| `Scenarios.FileWithoutLinkMethod` | code/dataobjects/Link.php:193-197 | a file without `Link()` gives the placeholder naming `"File"` |
| `Scenarios.UnsavedUrlLink` | code/dataobjects/Link.php:182 | an unsaved URL link resolves to `Null` and renders nothing |

## Findings

| source | as written | input that shows it | evidently intended | confidence | as-written member | corrected member |
|---|---|---|---|---|---|---|
| code/dataobjects/Link.php:171 | `$url` is put unescaped into the single-quoted `href` attribute | a `URL` link whose URL is `/it's`, which `validate` accepts because it begins with `/`, renders `href='/it'` followed by stray text | the URL escaped for the attribute, so that the `href` carries the whole URL | medium, not executed | `Markup.ApostropheEndsHrefEarly` | `Linkable.EscapedHrefIsLinkURL` (over `Linkable.Link.EscapedForTemplate`) |

`ForTemplate` stays as written because it models the code. `EscapedForTemplate` is the corrected
rendering, and `RenderedHrefIsLinkURL` covers the as-written one only for URLs without an apostrophe.

## Left out

- `getCMSFields` (code/dataobjects/Link.php:62-109) and its `updateCMSFields` hook. This is admin-form scaffolding, display logic and tree pickers in the framework's UI.
- The `_t(...)` translations. Validation messages are tags of `Message`; `MessageText` gives their English defaults.
- The grammars of PHP's `FILTER_VALIDATE_URL` and `FILTER_VALIDATE_EMAIL`, and the escaping of `Convert::raw2att`. These belong to PHP and the framework, so they are arbitrary functions in `Host`.
- The persistence layer. `write()` is modelled only as the `writes` counter plus the call back into `onAfterWrite`.
  - Storing the row, assigning `ID` on the first insert, running `validate` before saving and `parent::onAfterWrite()` are the framework's.
  - The model takes `ID` as already assigned: `Write` and `OnAfterWrite` require `ID != 0`.
  - Because `Write` cannot fail here, a failure of the second write reaching the first write's caller is not modelled.
- `getComponent`. Components are looked up by type name in `Host.components`. A name with no entry is treated as "no component found", matching the source's `$this->Type && $component = …` test; the framework may instead raise an error for an unknown relation.
  - The components are independent of `refIds`: the model does not derive a component from its reference ID.
  - `SiteTree()` is the `"SiteTree"` entry, and an empty menu title stands for a missing one.
- The `validate` extension hook. It is a fixed list of messages in `Host` that is appended through `error()`. An extension that inspects the record is not modelled.
- PHP's loose `==`. Every comparison in the core is against a non-numeric literal or `''`, where loose comparison agrees with string equality, so the model uses equality.
- `$summary_fields` and the `has_one` declarations. These are framework metadata with no behaviour in the core.
