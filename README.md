# Cluster search page: search-bar decisions and result grouping

This project models the logic inside two screens of a cluster-resource
search UI. The screens are the search page and the result view below it.
Users type queries such as `kind:Pod namespace=default nginx` into a search bar.
The page fetches property names or values as suggestions and lets users save a
query under a name. It shows the matched resources grouped by kind.

The model covers the decisions made beneath the React wiring:

- `search_page.dfy` (module `SearchPage`), the search page:
  - which suggestion fetch runs for the text typed so far (property names or values);
  - the query sent with a value completion;
  - when the Save button is enabled, and its tooltip;
  - how a fetch error is shown;
  - the saved-search dropdown, and what selecting an entry does;
  - what the page shows below the bar;
  - the page state that the search bar's callbacks update (class `SearchPageState`).
- `search_results.dfy` (module `SearchResults`), the result view:
  - grouping the fetched items by kind, in one pass over a dictionary;
  - sorting the kinds in place;
  - card titles, the truncation notice and which cards start expanded;
  - which view is shown: loading, error, no results, or tables;
  - the related-resources section and the fire/refetch choice (class `SearchResultsState`).
- `strings.dfy` (module `Strings`): `endsWith`, `includes`, ASCII capitalisation
  and the decimal text of a count, with a parse-back round trip.
- `string_order.dfy` (module `StringOrder`): the default string order of
  `Array.prototype.sort`, its total-order laws, and an in-place insertion sort.
- `search_query.dfy` (module `SearchQuery`): the parsed `Query` and its filters,
  saved searches, `Option`, and `FindFirst` (`Array.prototype.find`).

Several helpers live in files this model does not include: the query parser
(`convertStringToQuery`), the completion-property extractor
(`getSearchCompleteString`), the suggestion formatter and the URL codec. Their
results are parameters of the modelled operations. For example,
`CompletionQuery` takes the parsed query and the property being completed. A
call to `updateBrowserUrl` becomes an entry appended to a `navigations` log.

Some behaviour of the code worth stating plainly:

- The completion query is computed for every text, not only while a value is
  being typed. It removes every filter on the completed property, not only the
  one being typed. The query only leaves the page when the value fetch runs.
- This page has no duplicate check of its own at save time. The Save button is
  disabled instead (`SaveDisabled`), and a click on a disabled button does
  nothing (`SaveClicked`). The save dialog is not modelled; it receives the
  saved searches (SearchPage.tsx:150).
- The result view's fetch effect depends on `called` (SearchResults.tsx:127).
  Once the first request fires and sets `called`, the effect runs again and
  refetches the same query, so the first query is sent twice. The model
  records each run of the effect (`RequestResults`) but not when React reruns it.
- The Save button treats a text ending in `:` as incomplete, but not a text
  ending in an operator such as `=`. The model keeps this asymmetry.

## Model

| member | source | states |
|---|---|---|
| `SearchPage.CompleteSkip` | frontend/src/routes/Home/Search/SearchPage.tsx:101-122 | the value fetch's skip flag is the exact negation of the schema fetch's, so exactly one of the two fetches runs for any text |
| `SearchPage.EndsWithAny` | frontend/src/routes/Home/Search/SearchPage.tsx:102 | `operators.some(op => text.endsWith(op))` holds iff the text ends with some element of the list |
| `SearchPage.SchemaSkip` | frontend/src/routes/Home/Search/SearchPage.tsx:102 | the schema fetch is skipped iff the text ends with `:` or with one of the operators |
| `SearchPage.SchemaSkipByLastChar` | frontend/src/routes/Home/Search/SearchPage.tsx:36 | the text ends with `:` or one of the seven operators iff its last character is one of `: = < > !`, so the two-character operators add no case |
| `SearchPage.SuggestionModeOf` | frontend/src/routes/Home/Search/SearchPage.tsx:159-173 | value mode iff the text is non-empty and ends with `:` or an operator; the empty text is always filter mode; the mode agrees with the fetch that is enabled |
| `SearchPage.SuggestionRequestFor` | frontend/src/routes/Home/Search/SearchPage.tsx:163-172 | filter mode formats the schema's properties with nothing to de-duplicate against; value mode formats the completion values against the current text |
| `SearchPage.CompletionQuery` | frontend/src/routes/Home/Search/SearchPage.tsx:106-113 | keywords are unchanged; the filters are the parsed ones minus those on the completed property, in order; a filter is kept iff it was parsed and its property differs |
| `SearchPage.WithoutPropertyAppend` | frontend/src/routes/Home/Search/SearchPage.tsx:109-111 | dropping a property's filters commutes with concatenation, so kept filters keep their relative order |
| `SearchPage.WithoutPropertyCount` | frontend/src/routes/Home/Search/SearchPage.tsx:109-111 | every filter on the property is removed; every other filter is kept with its multiplicity |
| `SearchPage.WithoutPropertyUnaffected` | frontend/src/routes/Home/Search/SearchPage.tsx:109-111 | with no filter on the completed property the filters are unchanged |
| `SearchQuery.FindFirst` | frontend/src/routes/Home/Search/SearchPage.tsx:134 | `find` returns nothing iff no element matches, otherwise the first matching element |
| `SearchPage.IsAlreadySaved` | frontend/src/routes/Home/Search/SearchPage.tsx:199-201 | the `find` over the saved searches (also at line 134) succeeds iff some saved search has exactly the current text |
| `SearchPage.SaveDisabled` | frontend/src/routes/Home/Search/SearchPage.tsx:196-202 | the Save button is disabled iff the text is empty, ends with `:`, or equals some saved search's `searchText` |
| `SearchPage.SaveTooltipFor` | frontend/src/routes/Home/Search/SearchPage.tsx:132-141 | the tooltip is absent exactly when the Save button is enabled; it is the duplicate message iff some saved search has the text, which wins over the invalid-criteria message |
| `SearchPage.MentionsNotEnabled` | frontend/src/routes/Home/Search/SearchPage.tsx:62 | `error?.message.includes('not enabled')` holds iff there is an error and "not enabled" occurs in its message |
| `SearchPage.ErrorBanner` | frontend/src/routes/Home/Search/SearchPage.tsx:53-78 | no banner iff both errors are absent; info iff either message contains "not enabled", danger otherwise; title matches variant; subtitle is the schema message, else the completion message |
| `SearchPage.PageBodyFor` | frontend/src/routes/Home/Search/SearchPage.tsx:344-356 | nothing iff a suggestion fetch failed; results iff no failure and the URL's query is non-empty with a keyword or filter; saved searches otherwise; the results panel is handed the URL's query and its preselected related kinds (line 348) |
| `SearchPage.DropdownList` | frontend/src/routes/Home/Search/SearchPage.tsx:239-245 | n+1 entries: the "Saved searches" sentinel, then `{id, name}` of every saved search in order |
| `SearchPage.BuildDropdownItems` | frontend/src/routes/Home/Search/SearchPage.tsx:239-245 | mapping every saved search to an entry and then prepending the sentinel yields exactly `DropdownList` |
| `SearchPage.SelectionFor` | frontend/src/routes/Home/Search/SearchPage.tsx:224-236 | the sentinel navigates to the empty query with label "Saved searches"; another id navigates to the first saved search with that id and shows its name |
| `SearchPage.SelectingASavedSearch` | frontend/src/routes/Home/Search/SearchPage.tsx:230-232 | selecting the first saved search carrying an id navigates to its text and shows its name, the text of its dropdown entry |
| `SearchPage.SelectingTheFirstEntry` | frontend/src/routes/Home/Search/SearchPage.tsx:226-228 | selecting the dropdown's first entry shows its own text and clears the query |
| `SearchPage.SearchPageState.constructor` | frontend/src/routes/Home/Search/SearchPage.tsx:92-94 | the bar starts with the URL's query and no draft; the label "Saved searches" and no error come from lines 293-294 |
| `SearchPage.SearchPageState.PresetChanged` | frontend/src/routes/Home/Search/SearchPage.tsx:97-99 | a new URL query becomes the bar's text; an empty one resets the dropdown label (lines 306-310) |
| `SearchPage.SearchPageState.FetchesSettled` | frontend/src/routes/Home/Search/SearchPage.tsx:124-130 | the error flag becomes exactly "either suggestion fetch failed"; nothing else changes |
| `SearchPage.SearchPageState.QueryTextChanged` | frontend/src/routes/Home/Search/SearchPage.tsx:174-182 | the new text becomes current; an empty text appends a navigation to the empty query; a changed text resets the label |
| `SearchPage.SearchPageState.SaveClicked` | frontend/src/routes/Home/Search/SearchPage.tsx:186-202 | an enabled Save button opens a draft with empty id, name and description and the current text; a disabled one changes nothing |
| `SearchPage.SearchPageState.SelectSavedSearch` | frontend/src/routes/Home/Search/SearchPage.tsx:224-236 | appends the selection's navigation target and sets the label it names |
| `SearchResults.GroupByKind` | frontend/src/routes/Home/Search/SearchResults/SearchResults.tsx:54-63 | the dictionary's keys are exactly the kinds that occur; each maps to the items of that kind in input order; the key list is duplicate-free and names exactly the keys |
| `SearchResults.GroupsExtend` | frontend/src/routes/Home/Search/SearchResults/SearchResults.tsx:56-61 | creating a one-item group for a new kind, or pushing onto a known kind's group, keeps the dictionary equal to the grouping of the items seen so far |
| `SearchResults.OfKindAppend` | frontend/src/routes/Home/Search/SearchResults/SearchResults.tsx:55-61 | grouping commutes with concatenation: items keep their relative input order within a group |
| `SearchResults.OfKindCount` | frontend/src/routes/Home/Search/SearchResults/SearchResults.tsx:55-61 | every item is in the group of its kind, as often as it occurs, and in no other group |
| `SearchResults.OfKindNonEmpty` | frontend/src/routes/Home/Search/SearchResults/SearchResults.tsx:57-58 | a kind's group is non-empty iff the kind occurs |
| `SearchResults.GroupsPartition` | frontend/src/routes/Home/Search/SearchResults/SearchResults.tsx:54-63 | over a duplicate-free list of kinds covering every item, the group sizes sum to `data.length` |
| `StringOrder.LessEq` | frontend/src/routes/Home/Search/SearchResults/SearchResults.tsx:81 | the order of `sort()`: a prefix sorts no later than its extensions, and a non-empty string only before one whose first character is no smaller |
| `StringOrder.LessEqCharacterized` | frontend/src/routes/Home/Search/SearchResults/SearchResults.tsx:81 | the order is exactly lexicographic: `a` is a prefix of `b`, or `a` is smaller at the first position where they differ |
| `StringOrder.SortInPlace` | frontend/src/routes/Home/Search/SearchResults/SearchResults.tsx:81 | `kinds.sort()` leaves the array ascending and a permutation of its old contents |
| `StringOrder.LessEqTransitive` | frontend/src/routes/Home/Search/SearchResults/SearchResults.tsx:81 | the sort order is transitive (with reflexivity, antisymmetry and totality, a total order) |
| `StringOrder.LessEqTotal` | frontend/src/routes/Home/Search/SearchResults/SearchResults.tsx:81 | any two strings are comparable |
| `StringOrder.LessEqAntisymmetric` | frontend/src/routes/Home/Search/SearchResults/SearchResults.tsx:81 | two strings each at most the other are equal |
| `SearchResults.DistinctPermutation` | frontend/src/routes/Home/Search/SearchResults/SearchResults.tsx:63 | sorting the duplicate-free key list keeps it duplicate-free with the same kinds |
| `SearchResults.ResultTables` | frontend/src/routes/Home/Search/SearchResults/SearchResults.tsx:54-95 | truncation notice iff at least 1000 items; one card per occurring kind, strictly ascending; each card holds its kind's items, titled and expanded iff it is the only card; card sizes sum to the item count |
| `SearchResults.TitleRoundTrip` | frontend/src/routes/Home/Search/SearchResults/SearchResults.tsx:86 | the item count can be read back from every card title, whatever the kind |
| `SearchResults.Title` | frontend/src/routes/Home/Search/SearchResults/SearchResults.tsx:86 | a title starts with the kind, its first character upper-cased and the rest unchanged, and ends with `)` |
| `Strings.Capitalize` | frontend/src/routes/Home/Search/SearchResults/SearchResults.tsx:86 | same length as the kind; the first character upper-cased, the rest unchanged |
| `Strings.NatToDecimal` | frontend/src/routes/Home/Search/SearchResults/SearchResults.tsx:86 | a count renders as at least one digit with no leading zero |
| `Strings.DecimalRoundTrip` | frontend/src/routes/Home/Search/SearchResults/SearchResults.tsx:86 | reading a rendered count back gives the count |
| `Strings.DecimalInjective` | frontend/src/routes/Home/Search/SearchResults/SearchResults.tsx:86 | distinct counts render to distinct texts |
| `Strings.IncludesIff` | frontend/src/routes/Home/Search/SearchPage.tsx:62 | the left-to-right `includes` scan succeeds iff the text occurs at some position |
| `SearchResults.FetchedItems` | frontend/src/routes/Home/Search/SearchResults/SearchResults.tsx:129 | when the response has a first result set with items, exactly those items; otherwise (no response, no result set, no items) the empty list |
| `SearchResults.ResultsViewFor` | frontend/src/routes/Home/Search/SearchResults/SearchResults.tsx:131-164 | loading wins, then a fetch error with its message, then "no results" iff no items, then tables of the non-empty fetched items |
| `SearchResults.TablesHaveAKind` | frontend/src/routes/Home/Search/SearchResults/SearchResults.tsx:153-166 | when tables are shown at least one kind occurs, so at least one card is rendered |
| `SearchResults.ShowsRelatedSection` | frontend/src/routes/Home/Search/SearchResults/SearchResults.tsx:166-176 | the related-resources section is rendered iff the tables view is shown and the parsed query has no keywords (lines 107-110) |
| `SearchResults.RelatedSectionNeedsResults` | frontend/src/routes/Home/Search/SearchResults/SearchResults.tsx:131-176 | the section is rendered iff the fetch is not loading, has no error, returned at least one item, and the query has no keywords |
| `SearchResults.SearchResultsState.constructor` | frontend/src/routes/Home/Search/SearchResults/SearchResults.tsx:101-106 | the selected kinds are the preselected ones; the section starts expanded iff there is one; no request made yet |
| `SearchResults.SearchResultsState.ToggleRelatedResources` | frontend/src/routes/Home/Search/SearchResults/SearchResults.tsx:178 | toggling flips the expansion flag and changes nothing else |
| `SearchResults.SearchResultsState.RequestResults` | frontend/src/routes/Home/Search/SearchResults/SearchResults.tsx:116-127 | the first request fires the lazy query and every later one refetches; exactly one `Fire` heads the request log |

## Left out

- Query parsing, completion-property extraction, suggestion formatting and the URL codec (`search-helper`, `urlQuery`): these files are not part of this model. Their results are parameters, and a URL update is a log entry.
- Network and asynchronous I/O: the Apollo hooks, the messages query (SearchPage.tsx:313-320) and the user-preference promise (SearchPage.tsx:298-304). The fetch outcomes (`loading`, `error`, `data`, whether a fetch failed) are parameters.
- `loadingSuggestions` (SearchPage.tsx:157) is only passed through to a component, so it is not modelled.
- Presentation: JSX, styles, modals, i18n `t(...)`, the column lookup in `searchDefinitions`, row actions, and the related-resources child components. Alert titles are tags (`InfoTitle`, `ErrorsTitle`) rather than translated text.
- `window.location` and `history`: the URL's query is passed in explicitly.
- `SearchPage.SearchPageState`: one class holds both the search bar's state (`currentSearch`, the save draft) and the page's state (`selectedSearch`, `queryErrors`). The label updates made by the save dialog and by the saved-search cards (`SavedSearchQueries` receives `setSelectedSearch`, SearchPage.tsx:351-355) are not modelled.
- `SearchResults.SearchResultsState.RequestResults`: always records a refetch after the first request. The source guards it with `refetch &&`; the model takes the lazy-query hook to supply `refetch` once the query has fired.
- `SearchResults.SearchResultsState`: changes to `selectedKinds` made by the related-resources tiles are not modelled.
- `SearchResults.GroupByKind`: the key list is only stated to be duplicate-free and to name every key. Its exact `Object.keys` order is not stated, because the list is sorted straight afterwards.
- `SearchResults.GroupByKind`: uses a Dafny `map`. A JavaScript object with a prototype key as kind (`constructor`, `__proto__`) behaves differently, and that is not modelled.
- `Strings.Capitalize`: upper-cases ASCII `a`-`z` only. Full Unicode `toUpperCase` can change length, for example `ß`, and that is not modelled.
- `StringOrder.LessEq`: compares Dafny characters (Unicode scalar values). JavaScript's default sort compares UTF-16 code units, so the two differ for characters outside the Basic Multilingual Plane.
- `SearchPage.SelectionFor`: requires the id to be the sentinel or to belong to some saved search. The source indexes `selectedQuery[0]` unchecked and would throw for an unknown id.
- `SearchPage.SelectionFor`: `searchText || ''` and `name || ''` are the identity, because strings are never `undefined` here.
- `SearchQuery.Filter`: keeps only `property` and `values`. The operator and any other parser fields are not visible in these files.
