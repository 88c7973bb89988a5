# Parishop `Document`: a verified model

`Parishop\Document` is the page-head builder of the Parishop shop front. A page
handler calls it to collect the page title, `<meta>` tags (by name, by Open
Graph property and by HTTP header), `<link>` tags and `<script>` tags. The
template engine then asks it for the title and for the three lists of rendered
HTML fragments. Every key, and most values, go through the builder's `clear`
sanitiser before they are stored or rendered.

The model is written in Dafny and has these modules:

- `PhpValues` (`php_values.dfy`): `Option` for PHP's `null`, and PHP
  truthiness of a string (`""` and `"0"` are falsy).
- `PhpArrays` (`php_arrays.dfy`): an insertion-ordered, string-keyed PHP array
  as a sequence of key/value pairs. `Put` is `$a[k] = v`: an existing key keeps
  its place and takes the new value, a new key goes last.
- `Sanitizer` (`sanitizer.dfy`): `clear` as its four stages.
  - `StripTags` replaces each `<[^>]+>` match, scanning left to right, by one space.
  - `CollapseSpaces` replaces each run of `\s` (space, tab, LF, VT, FF, CR) by one space.
  - `EscapeQuotes` replaces `"` by `&quot;`.
  - `Trim` is PHP `trim`.

  The module also defines the predicate `Clean`, which describes exactly the
  strings `clear` returns.
- `Markup` (`markup.dfy`): the HTML templates of the three renderers and of
  `parse`, and a count of `"` characters. Those lemmas show that no stored text
  can close an attribute early.
- `Parishop` (`document.dfy`): the builder.
  - The pure value `PageHead` holds the collected state. Each mutator has a
    pure counterpart `WithTitle`, `WithMetaName`, … from the old head to the new one.
  - The class `Document` has the same six fields. Its mutator methods change
    them in place and are proved to produce exactly the counterpart's result.
  - The renderers are loops, proved against the templates.
  - The class invariant `Valid` is `WellFormed(Head())`.
  - `Document.Name` and `Document.Aliases` are the registration name
    `"document"` and the empty alias list.
- `Routing` (`routing.dfy`): the own logic of the `path()` and `url()` helpers.
  It covers which route resolver they name when the caller gives none, and the
  attributes they pass to the route translator.
- `ParishopScenarios` (`scenarios.dfy`): the repository's usage examples,
  replayed on the model with their file names generalised to any plain
  argument.

Where the code and its documentation or its test disagree, the model follows the code:

- `clear` does not remove every `<`. An empty pair `<>`, or a `<` with no
  later `>`, matches no tag and survives (`ClearKeepsEmptyBrackets`,
  `ClearKeepsUnclosedBracket`).
- The truthiness guards test the raw argument, before cleaning. So a cleaned
  key can be empty: `addMetaName("<b>", "x")` stores the key `""`
  (`ClearOfTagIsEmpty`). No non-emptiness of keys is claimed.
- `setMetaProperty` stores its value raw, and `getMeta` cleans it only when
  rendering.
- `tests/Parishop/Tests/DocumentTest.php:13` builds a `Document` without the
  builder argument that the constructor takes
  (`src/Parishop/Document.php:63`). The model's constructor takes no argument
  because the builder is left out.
- The same test, at lines 54-63, expects a four-entry `methods()` table, but
  the code returns eight entries (`src/Parishop/Document.php:206-218`).
  `methods()` is left out.

## Model

| member | source | states |
|---|---|---|
| PhpValues.Truthy | src/Parishop/Document.php:99 | PHP truthiness of a string, the guard of lines 99, 111, 122, 264 and 321: false exactly for `""` and `"0"` |
| PhpArrays.Put | src/Parishop/Document.php:100 | `$a[k] = v`, used by every mutator (lines 100, 112, 123, 265, 322): the entry of `k` takes `v` where it stands, or `(k, v)` is appended |
| PhpArrays.PutPlacement | src/Parishop/Document.php:112 | `$a[k] = v` on an array with distinct keys: an existing key keeps its position and takes the new value; an absent key is appended last |
| PhpArrays.GetPut | src/Parishop/Document.php:100 | after `$a[k] = v`, looking up `k` gives `v` and every other key gives what it gave before |
| PhpArrays.PutDistinct | src/Parishop/Document.php:123 | assignment keeps the keys of an array distinct |
| PhpArrays.PutSameValue | src/Parishop/Document.php:123 | assigning a key the value it already holds leaves the array unchanged |
| Sanitizer.StripTags | src/Parishop/Document.php:387 | stage 1: each leftmost `<[^>]+>` match, scanning left to right, becomes one space |
| Sanitizer.CollapseSpaces | src/Parishop/Document.php:388 | stage 2: each run of `\s` bytes becomes one space |
| Sanitizer.EscapeQuotes | src/Parishop/Document.php:390 | stage 3: each `"` becomes `&quot;` |
| Sanitizer.Trim | src/Parishop/Document.php:390 | stage 4: PHP `trim`, dropping space, tab, LF, CR, NUL and VT at both ends |
| Sanitizer.Clear | src/Parishop/Document.php:385-391 | `clear`: the four stages in the order of the source |
| Sanitizer.FirstClose | src/Parishop/Document.php:387 | the end of a tag match is the first `>` after its `<`, since `[^>]+` cannot pass a `>` |
| Sanitizer.StripTagsTagFree | src/Parishop/Document.php:387 | after stage 1, no position starts a match of `<[^>]+>` |
| Sanitizer.CollapseSpacesSingle | src/Parishop/Document.php:388 | after stage 2, the only whitespace is single plain spaces |
| Sanitizer.CollapseSpacesTagFree | src/Parishop/Document.php:388 | stage 2 cannot create a tag match |
| Sanitizer.EscapeQuotesNoQuote | src/Parishop/Document.php:390 | after stage 3, no `"` is left |
| Sanitizer.EscapeQuotesSingle | src/Parishop/Document.php:390 | stage 3 keeps single spacing |
| Sanitizer.EscapeQuotesTagFree | src/Parishop/Document.php:390 | stage 3 cannot create a tag match |
| Sanitizer.TrimSlice | src/Parishop/Document.php:390 | `trim` returns a contiguous slice of its input with no trimmable byte at either end |
| Sanitizer.ClearIsClean | src/Parishop/Document.php:385-391 | every output of `clear` is tag free, single spaced, quote free and trimmed |
| Sanitizer.ClearOutput | src/Parishop/Document.php:385-391 | the output of `clear` holds no `"`, no CR, LF, tab, VT or FF, no two adjacent spaces, and no space at either end |
| Sanitizer.ClearFixed | src/Parishop/Document.php:385-391 | `clear` returns a clean string unchanged |
| Sanitizer.CleanIffFixed | src/Parishop/Document.php:385-391 | a string is clean exactly when `clear` leaves it unchanged (both directions) |
| Sanitizer.ClearIdempotent | src/Parishop/Document.php:385-391 | `clear(clear(s)) == clear(s)` for every `s` |
| Sanitizer.ClearPlain | src/Parishop/Document.php:385-391 | text without `<` or `"`, single spaced and not padded, passes through `clear` unchanged |
| Sanitizer.ClearKeepsEmptyBrackets | src/Parishop/Document.php:387 | `<>` matches no tag, so `clear("<>")` is `<>` |
| Sanitizer.ClearKeepsUnclosedBracket | src/Parishop/Document.php:387 | a `<` without a later `>` survives: `clear("a<b")` is `a<b` |
| Sanitizer.ClearOfTagIsEmpty | src/Parishop/Document.php:387-390 | a bare tag cleans to the empty string: `clear("<b>")` is `""` |
| Markup.AttributePair | src/Parishop/Document.php:402 | one rendered attribute: the cleaned name, `="`, the cleaned value, `"` |
| Markup.Attributes | src/Parishop/Document.php:398-406 | what `parse` returns: the pairs of the attributes, in order, joined by single spaces |
| Markup.Implode | src/Parishop/Document.php:405 | PHP `implode`: the parts joined by the glue, the empty string for no parts |
| Markup.AttributesAppend | src/Parishop/Document.php:400-405 | each further attribute adds its cleaned `k="v"` pair to the rendered list, after a single space unless it is the first |
| Markup.MetaTag | src/Parishop/Document.php:176 | the meta template: `<meta KIND="KEY" content="VALUE" />` with the content cleaned (lines 176, 179, 182) |
| Markup.LinkTag | src/Parishop/Document.php:162 | the link template: `<link href="HREF" ATTRIBUTES/>` |
| Markup.ScriptTag | src/Parishop/Document.php:196 | the script template: `<script type="text/javascript" src="SRC"></script>` |
| Markup.AttributesQuotes | src/Parishop/Document.php:398-406 | the rendered attribute list has exactly two `"` per attribute, whatever the names and values |
| Markup.MetaGroup | src/Parishop/Document.php:175-183 | one tag per entry of a meta group |
| Markup.MetaGroupAt | src/Parishop/Document.php:175-183 | the i-th tag of a group renders the group's i-th entry, with its content cleaned |
| Markup.MetaTagQuotes | src/Parishop/Document.php:176 | a meta tag over a quote-free kind and key has the same number of `"` whatever it holds |
| Markup.MetaGroupQuotes | src/Parishop/Document.php:175-183 | every tag of a group over quote-free keys has the quote count of any such meta tag |
| Markup.LinkTagQuotes | src/Parishop/Document.php:162 | a link tag over a quote-free href has two `"` per attribute more than an attribute-less one |
| Markup.ScriptTagQuotes | src/Parishop/Document.php:196 | a script tag over a quote-free source has the same number of `"` whatever it names |
| Parishop.WithTitle | src/Parishop/Document.php:331-338 | `title($title)` on the head: a non-null title is stored cleaned, `null` keeps the head |
| Parishop.WithMetaName | src/Parishop/Document.php:109-114 | `addMetaName` on the head: with truthy name and value, the cleaned value under the cleaned name |
| Parishop.WithMetaProperty | src/Parishop/Document.php:319-325 | `setMetaProperty` on the head: the raw value under the cleaned name |
| Parishop.WithMetaHttp | src/Parishop/Document.php:97-102 | `addMetaHttp` on the head: the cleaned value under the cleaned header |
| Parishop.WithLink | src/Parishop/Document.php:262-268 | `setLink` on the head: with a truthy href and a non-empty array, the array under the cleaned href |
| Parishop.LinkAttributes | src/Parishop/Document.php:85-89 | the array `addLink` builds: the cleaned `rel`, then the cleaned `type` only when one is given |
| Parishop.WithAddedLink | src/Parishop/Document.php:83-90 | `addLink` on the head: `setLink` of the cleaned href and that array |
| Parishop.WithScript | src/Parishop/Document.php:120-125 | `addScript` on the head: the cleaned href under itself |
| Parishop.EmptyHeadWellFormed | src/Parishop/Document.php:21-57 | the initial state (no title, five empty arrays) satisfies the invariant |
| Parishop.WithTitleWellFormed | src/Parishop/Document.php:331-338 | setting the title keeps the head well formed: the stored title is clean |
| Parishop.WithMetaNameWellFormed | src/Parishop/Document.php:109-114 | `addMetaName` keeps keys distinct and clean, and values clean |
| Parishop.WithMetaPropertyWellFormed | src/Parishop/Document.php:319-325 | `setMetaProperty` keeps keys distinct and clean |
| Parishop.WithMetaHttpWellFormed | src/Parishop/Document.php:97-102 | `addMetaHttp` keeps keys distinct and clean, and values clean |
| Parishop.WithLinkWellFormed | src/Parishop/Document.php:262-268 | `setLink` keeps hrefs distinct and clean |
| Parishop.WithScriptWellFormed | src/Parishop/Document.php:120-125 | `addScript` keeps hrefs distinct and clean, each mapped to itself |
| Parishop.MetaNameWrite | src/Parishop/Document.php:109-114 | a truthy `addMetaName` replaces an existing cleaned name in place or appends a new one, and leaves the rest of the head as it was |
| Parishop.MetaPropertyWrite | src/Parishop/Document.php:319-325 | the same for `setMetaProperty`, with the value stored raw |
| Parishop.MetaHttpWrite | src/Parishop/Document.php:97-102 | the same for `addMetaHttp` |
| Parishop.LinkWrite | src/Parishop/Document.php:262-268 | the same for `setLink`, with the attribute array stored as given |
| Parishop.ScriptWrite | src/Parishop/Document.php:120-125 | a new cleaned href is appended mapped to itself; the rest of the head is unchanged |
| Parishop.ClearFalsy | src/Parishop/Document.php:385-391 | `clear` maps each falsy string (`""`, `"0"`) to itself |
| Parishop.FalsyArgumentsChangeNothing | src/Parishop/Document.php:97-125 | a falsy name, value or href, or an empty attribute array, leaves the whole head unchanged; this holds for every mutator, including `setLink`, `setMetaProperty` and `addLink` (lines 262-268, 319-325, 83-90) |
| Parishop.AddedLinkStoredOnce | src/Parishop/Document.php:83-90 | cleaning the href in `addLink` and again in `setLink` is the same as cleaning it once |
| Parishop.ScriptReAddedUnchanged | src/Parishop/Document.php:120-125 | adding a script whose cleaned href is already present changes nothing |
| Parishop.TitleLastWriteWins | src/Parishop/Document.php:331-338 | `title(null)` changes nothing; of two writes the second wins; `title("")` stores `""` |
| Parishop.LinkAttributesRendered | src/Parishop/Document.php:85-89 | the attribute list `addLink` builds renders as `rel="…"` followed, only when a type is given, by `type="…"`, each value cleaned once |
| Parishop.RenderedMeta | src/Parishop/Document.php:172-186 | `getMeta` yields one tag per stored entry, in all three groups |
| Parishop.RenderedMetaAt | src/Parishop/Document.php:172-186 | the name group comes first, then the property group, then the http-equiv group, each in insertion order, with each content cleaned |
| Parishop.RenderedMetaQuotes | src/Parishop/Document.php:172-186 | in a well-formed head, every rendered meta tag has only its template's `"` characters |
| Parishop.StoredLinkQuotes | src/Parishop/Document.php:158-166 | in a well-formed head, every rendered link has only its template's `"` characters and two per attribute |
| Parishop.StoredScriptQuotes | src/Parishop/Document.php:192-200 | in a well-formed head, every rendered script tag has only its template's `"` characters |
| Parishop.Document.Name | src/Parishop/Document.php:224-227 | `name()`: the builder is registered as `document` |
| Parishop.Document.Aliases | src/Parishop/Document.php:140-143 | `aliases()`: the builder has no aliases |
| Parishop.Document.constructor | src/Parishop/Document.php:63-66 | a new builder has no title and five empty arrays |
| Parishop.Document.AddLess | src/Parishop/Document.php:72-75 | `addLink(href, "stylesheet/less", "text/css")` |
| Parishop.Document.AddStylesheet | src/Parishop/Document.php:131-134 | `addLink(href, "stylesheet", "text/css")` |
| Parishop.Document.AddLink | src/Parishop/Document.php:83-90 | stores, under the cleaned href, `rel` first and `type` only when given, both cleaned, through `setLink` |
| Parishop.Document.SetLink | src/Parishop/Document.php:262-268 | a truthy href with a non-empty attribute array is stored under the cleaned href; otherwise nothing changes |
| Parishop.Document.AddMetaName | src/Parishop/Document.php:109-114 | with truthy name and value, stores the cleaned value under the cleaned name; otherwise nothing changes |
| Parishop.Document.AddMetaHttp | src/Parishop/Document.php:97-102 | the same for the http-equiv group |
| Parishop.Document.SetMetaProperty | src/Parishop/Document.php:319-325 | the same for the property group, with the value stored raw |
| Parishop.Document.SetMetaDescription | src/Parishop/Document.php:273-276 | `addMetaName("description", value)` |
| Parishop.Document.SetMetaKeywords | src/Parishop/Document.php:282-285 | `addMetaName("keywords", value)` |
| Parishop.Document.SetMetaOgTitle | src/Parishop/Document.php:309-312 | `setMetaProperty("og:title", value)` |
| Parishop.Document.SetMetaOgDescription | src/Parishop/Document.php:291-294 | `setMetaProperty("og:description", value)` |
| Parishop.Document.SetMetaOgImage | src/Parishop/Document.php:300-303 | `setMetaProperty("og:image", value)` |
| Parishop.Document.AddScript | src/Parishop/Document.php:120-125 | a truthy href is stored cleaned, mapped to itself; otherwise nothing changes |
| Parishop.Document.Title | src/Parishop/Document.php:331-338 | a given title, even `""`, is stored cleaned; the current title is returned |
| Parishop.Document.GetMeta | src/Parishop/Document.php:172-186 | the three loops return exactly `RenderedMeta` of the current state |
| Parishop.Document.GetLinks | src/Parishop/Document.php:158-166 | one `<link href="H" ATTRIBUTES/>` per stored link, in insertion order |
| Parishop.Document.GetScripts | src/Parishop/Document.php:192-200 | one script tag per stored script, in insertion order, naming the cleaned stored value, which in a valid builder is the entry's own key |
| Parishop.Document.Parse | src/Parishop/Document.php:398-406 | the loop returns the cleaned `k="v"` pairs joined by single spaces |
| Routing.PathResolver | src/Parishop/Document.php:240-248 | the resolver `path()` names: the given one, else `.processor`, `.action` or `.id` after the bundle name |
| Routing.UrlResolver | src/Parishop/Document.php:351-363 | the resolver `url()` names: as `path()`, but `.default` when the processor is falsy |
| Routing.RouteAttributes | src/Parishop/Document.php:250-252 | the caller's attributes with `processor`, `action` and `id` assigned in that order (also lines 365-367) |
| Routing.PathResolverChoice | src/Parishop/Document.php:240-248 | `path()` without a resolver names `.id` exactly when both action and id are given, `.action` exactly when only the action is, and `.processor` exactly when no action is |
| Routing.UrlResolverAgreesWithPath | src/Parishop/Document.php:351-363 | `url()` names `path()`'s resolver when the processor is truthy, and `.default` when it is missing or falsy; a given resolver is used as is |
| Routing.RouteAttributesLookup | src/Parishop/Document.php:250-252 | the route attributes hold the given processor, action and id, a null as an explicit null entry, and keep every other attribute of the caller |
| ParishopScenarios.ScriptsScenario | tests/Parishop/Tests/DocumentTest.php:70-75 | one plain script added to a new builder renders as exactly one `<script type="text/javascript" src="…"></script>` |
| ParishopScenarios.LessRelClean | src/Parishop/Document.php:74 | `clear("stylesheet/less")` is `stylesheet/less` |
| ParishopScenarios.StylesheetRelClean | src/Parishop/Document.php:133 | `clear("stylesheet")` is `stylesheet` |
| ParishopScenarios.CssTypeClean | src/Parishop/Document.php:86-87 | `clear("text/css")` is `text/css` |
| ParishopScenarios.CleanLinkStored | src/Parishop/Document.php:83-90 | `addLink` with an href, a `rel` and a `type` that `clear` leaves alone stores them as given, rendering as `rel="REL" type="TYPE"` |
| ParishopScenarios.LessLinkStored | src/Parishop/Document.php:72-75 | `addLess` of a plain href stores `rel = stylesheet/less, type = text/css` under the href itself, rendered `rel="stylesheet/less" type="text/css"` |
| ParishopScenarios.StylesheetLinkStored | src/Parishop/Document.php:131-134 | `addStylesheet` of a plain href stores `rel = stylesheet, type = text/css` under the href itself, rendered `rel="stylesheet" type="text/css"` |
| ParishopScenarios.LessLinkTag | tests/Parishop/Tests/DocumentTest.php:26 | the link `addLess` stores renders as `<link href="HREF" rel="stylesheet/less" type="text/css"/>` |
| ParishopScenarios.StylesheetLinkTag | tests/Parishop/Tests/DocumentTest.php:27 | the link `addStylesheet` stores renders as `<link href="HREF" rel="stylesheet" type="text/css"/>` |
| ParishopScenarios.TwoLinksStored | src/Parishop/Document.php:262-268 | two different clean hrefs added to a fresh builder are stored in the order they were added |
| ParishopScenarios.LinksStored | tests/Parishop/Tests/DocumentTest.php:23-24 | `addLess` then `addStylesheet` on different plain hrefs store the two links in that order |
| ParishopScenarios.LinksRendered | src/Parishop/Document.php:158-166 | those two stored links render as the two tags of the links example |
| ParishopScenarios.LinksScenario | tests/Parishop/Tests/DocumentTest.php:21-30 | `addLess(a)` then `addStylesheet(b)` on a fresh builder make `getLinks()` return exactly the two tags the links example expects, for any two different plain hrefs |
| ParishopScenarios.SingleEntriesRendered | src/Parishop/Document.php:172-186 | one entry per group renders as name tag, property tag, header tag |
| ParishopScenarios.MetaGroupsScenario | tests/Parishop/Tests/DocumentTest.php:32-52 | a header, a property and a name added in that order render name first, then property, then header, each with its plain content |

## Left out

- The constructor's `$builder` and everything reached through it:
  - `customer()` and `user()` (lines 149-152 and 375-378) read the
    authentication context.
  - `path()` and `url()` read the bundle name from the HTTP request, which
    becomes the parameter `bundle` of `Routing`'s functions. They end by
    calling the route translator's `generatePath`/`generateUri`, which is not
    part of this model.
- The `Extension` interface and `methods()` (lines 9 and 206-218) are the
  template engine's dispatch table, with a constant result.
- The unused `$description` field (line 27).
- PHP turns numeric-string keys into integer keys. This is not modelled,
  because it does not change the rendered fragments.
- `setLink` also accepts non-string attribute values. Attribute values are
  modelled as strings only.
- PHP strings are bytes and the regular expressions run in byte mode. The
  model's strings are sequences of characters, one per byte, with the fixed
  whitespace and trim sets above; there is no multibyte or Unicode handling.
- Parishop.Document.SetLink: the attribute array is any sequence of pairs and
  need not have distinct keys, which a PHP array always has.
- Markup.MetaTagQuotes, Markup.LinkTagQuotes, Markup.ScriptTagQuotes: the
  quote count is stated relative to the same template with other quote-free
  contents, not as a number.
- ParishopScenarios.MetaGroupsScenario: the meta example of
  `tests/Parishop/Tests/DocumentTest.php:32-52` is replayed with one entry per
  group and arbitrary plain arguments, not with its eight literal calls and
  seven literal fragments; `RenderedMetaAt` covers longer groups.
- ParishopScenarios.LinksScenario, ParishopScenarios.ScriptsScenario: the
  examples' file names (`default.less`, `default.css`, `default.js`) are
  generalised to any plain argument rather than stated as those literals.
