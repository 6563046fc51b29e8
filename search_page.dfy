/** The decision logic of the search page (frontend/src/routes/Home/Search/SearchPage.tsx):
    which completion fetch runs for the text in the search bar, the query sent
    with a value completion, when a search may be saved, how a fetch error is
    shown, the saved-search dropdown and the page's state transitions.

    The query parser (`convertStringToQuery`), the completion-property
    extractor (`getSearchCompleteString`), the suggestion formatter and the
    URL codec are not part of this model: their results are parameters, and a
    call to `updateBrowserUrl` is recorded as an entry of a navigation log. */
module SearchPage {
  import opened Strings
  import opened SearchQuery

  /** The comparison operators of the query language, in the source's order. */
  const Operators: seq<string> := ["=", "<", ">", "<=", ">=", "!=", "!"]

  /** Label of the dropdown's first entry, and of the dropdown when no saved search is chosen. */
  const SavedSearchesLabel: string := "Saved searches"

  /** Id of the dropdown's first entry. */
  const SavedSearchesId: string := "savedSearchesID"

  /** The text whose presence in an error message marks a disabled feature. */
  const NotEnabled: string := "not enabled"

  // ---------------------------------------------------------------------------
  // Completion mode and the two suggestion fetches

  /** `ops.some(op => text.endsWith(op))`: a left-to-right scan of `ops` that
      succeeds exactly when the text ends with one of them. */
  function EndsWithAny(text: string, ops: seq<string>): (found: bool)
    ensures found <==> exists i :: 0 <= i < |ops| && EndsWith(text, ops[i])
  {
    if |ops| == 0 then false
    else
      var rest := EndsWithAny(text, ops[1..]);
      assert forall i :: 0 <= i < |ops[1..]| ==> ops[1..][i] == ops[i + 1];
      EndsWith(text, ops[0]) || rest
  }

  /** Skip flag of the schema (property-name) fetch: skipped while the text
      ends with `:` or with an operator, i.e. while a value is being typed. */
  function SchemaSkip(text: string): (skip: bool)
    ensures skip <==> EndsWith(text, ":") || exists i :: 0 <= i < |Operators| && EndsWith(text, Operators[i])
  {
    EndsWith(text, ":") || EndsWithAny(text, Operators)
  }

  /** Skip flag of the value-completion fetch; it is the exact negation of the
      schema fetch's, so for every text exactly one of the two fetches runs. */
  function CompleteSkip(text: string): (skip: bool)
    ensures skip == !SchemaSkip(text)
  {
    !EndsWith(text, ":") && !EndsWithAny(text, Operators)
  }

  /** Every operator ends in `=`, `<`, `>` or `!`, so whether the text is in
      value position is decided by its last character alone. */
  lemma SchemaSkipByLastChar(text: string)
    ensures SchemaSkip(text) <==> |text| > 0 && text[|text| - 1] in ":=<>!"
  {
    forall i | 0 <= i < |Operators| && EndsWith(text, Operators[i])
      ensures |text| > 0 && text[|text| - 1] in "=<>!"
    {
      var op := Operators[i];
      assert text[|text| - 1] == text[|text| - |op|..][|op| - 1] == op[|op| - 1];
    }
    if |text| > 0 {
      var c := text[|text| - 1];
      assert text[|text| - 1..] == [c];
      if c == '=' {
        assert EndsWith(text, Operators[0]);
      } else if c == '<' {
        assert EndsWith(text, Operators[1]);
      } else if c == '>' {
        assert EndsWith(text, Operators[2]);
      } else if c == '!' {
        assert EndsWith(text, Operators[6]);
      }
    }
  }

  /** Which kind of suggestion the search bar shows. */
  datatype SuggestionMode = FilterMode | ValueMode

  /** The mode passed to the suggestion formatter: value mode once the text ends
      with `:` or an operator, filter mode otherwise and always for the empty
      text; it agrees with the fetch that is enabled. */
  function SuggestionModeOf(text: string): (mode: SuggestionMode)
    ensures mode == ValueMode <==> |text| > 0 && text[|text| - 1] in ":=<>!"
    ensures mode == ValueMode <==> !CompleteSkip(text)
    ensures text == "" ==> mode == FilterMode
  {
    SchemaSkipByLastChar(text);
    if text == "" || (!EndsWith(text, ":") && !EndsWithAny(text, Operators)) then FilterMode
    else ValueMode
  }

  /** The arguments the search bar hands to the suggestion formatter. */
  datatype SuggestionRequest = SuggestionRequest(candidates: seq<string>, mode: SuggestionMode, dedupeAgainst: string)

  /** In filter mode the schema's property names are formatted with nothing to
      de-duplicate against; in value mode the completion values are formatted
      against the current text. The candidates always come from the fetch that
      is enabled. */
  function SuggestionRequestFor(text: string, schemaProperties: seq<string>, completeValues: seq<string>): (r: SuggestionRequest)
    ensures r.mode == SuggestionModeOf(text)
    ensures !SchemaSkip(text) ==> r == SuggestionRequest(schemaProperties, FilterMode, "")
    ensures !CompleteSkip(text) ==> r == SuggestionRequest(completeValues, ValueMode, text)
  {
    if SuggestionModeOf(text) == FilterMode then SuggestionRequest(schemaProperties, FilterMode, "")
    else SuggestionRequest(completeValues, ValueMode, text)
  }

  // ---------------------------------------------------------------------------
  // The query sent with a value completion

  /** The filters of `fs` whose property is not `property`, in their order. */
  function WithoutProperty(fs: seq<Filter>, property: string): seq<Filter>
  {
    if fs == [] then []
    else
      var last := fs[|fs| - 1];
      WithoutProperty(fs[..|fs| - 1], property) + (if last.property == property then [] else [last])
  }

  /** Dropping a property commutes with concatenation, so the kept filters
      stay in their original relative order. */
  lemma {:induction false} WithoutPropertyAppend(a: seq<Filter>, b: seq<Filter>, property: string)
    ensures WithoutProperty(a + b, property) == WithoutProperty(a, property) + WithoutProperty(b, property)
    decreases |b|
  {
    if b != [] {
      assert (a + b)[..|a + b| - 1] == a + b[..|b| - 1];
      WithoutPropertyAppend(a, b[..|b| - 1], property);
    } else {
      assert a + b == a;
    }
  }

  /** Every filter on `property` is dropped and every other filter is kept as
      often as it occurs. */
  lemma {:induction false} WithoutPropertyCount(fs: seq<Filter>, property: string, f: Filter)
    ensures multiset(WithoutProperty(fs, property))[f] == if f.property == property then 0 else multiset(fs)[f]
  {
    if fs != [] {
      WithoutPropertyCount(fs[..|fs| - 1], property, f);
      assert fs == fs[..|fs| - 1] + [fs[|fs| - 1]];
    }
  }

  /** With no filter on `property` the filters are unchanged. */
  lemma {:induction false} WithoutPropertyUnaffected(fs: seq<Filter>, property: string)
    requires forall i :: 0 <= i < |fs| ==> fs[i].property != property
    ensures WithoutProperty(fs, property) == fs
  {
    if fs != [] {
      WithoutPropertyUnaffected(fs[..|fs| - 1], property);
      assert fs == fs[..|fs| - 1] + [fs[|fs| - 1]];
    }
  }

  /** The query sent with the value-completion fetch: the parsed current text
      with every filter on the property being completed removed, keywords
      untouched. `parsed` is `convertStringToQuery(currentSearch)` and
      `completeValue` is `getSearchCompleteString(currentSearch)`. */
  method CompletionQuery(parsed: Query, completeValue: string) returns (query: Query)
    ensures query.keywords == parsed.keywords
    ensures query.filters == WithoutProperty(parsed.filters, completeValue)
    ensures forall f :: f in query.filters <==> f in parsed.filters && f.property != completeValue
  {
    query := parsed;
    var kept: seq<Filter> := [];
    var i := 0;
    while i < |parsed.filters|
      invariant 0 <= i <= |parsed.filters|
      invariant kept == WithoutProperty(parsed.filters[..i], completeValue)
    {
      assert parsed.filters[..i + 1][..i] == parsed.filters[..i];
      var filter := parsed.filters[i];
      if filter.property != completeValue {
        kept := kept + [filter];
      }
      i := i + 1;
    }
    assert parsed.filters[..i] == parsed.filters;
    query := query.(filters := kept);
    forall f
      ensures f in query.filters <==> f in parsed.filters && f.property != completeValue
    {
      WithoutPropertyCount(parsed.filters, completeValue, f);
    }
  }

  // ---------------------------------------------------------------------------
  // Saving the current search

  /** `savedSearchQueries.find(q => q.searchText === text) !== undefined`:
      some saved search has exactly this text. */
  function IsAlreadySaved(saved: seq<SavedSearch>, text: string): (found: bool)
    ensures found <==> exists i :: 0 <= i < |saved| && saved[i].searchText == text
  {
    FindFirst(saved, (s: SavedSearch) => s.searchText == text).Some?
  }

  /** The Save button is disabled for the empty text, for a text ending with
      `:` and for a text some saved search already has. */
  function SaveDisabled(text: string, saved: seq<SavedSearch>): (disabled: bool)
    ensures disabled <==> text == "" || EndsWith(text, ":") ||
                          exists i :: 0 <= i < |saved| && saved[i].searchText == text
  {
    text == "" || EndsWith(text, ":") || IsAlreadySaved(saved, text)
  }

  /** The two explanations the Save button's tooltip can give. */
  datatype SaveTooltip = AlreadySaved | InvalidCriteria

  /** The Save button's tooltip: present exactly when the button is disabled,
      and the duplicate explanation wins over the invalid-criteria one. */
  function SaveTooltipFor(text: string, saved: seq<SavedSearch>): (tip: Option<SaveTooltip>)
    ensures tip.None? <==> !SaveDisabled(text, saved)
    ensures tip == Some(AlreadySaved) <==> exists i :: 0 <= i < |saved| && saved[i].searchText == text
  {
    if IsAlreadySaved(saved, text) then Some(AlreadySaved)
    else if text == "" || EndsWith(text, ":") then Some(InvalidCriteria)
    else None
  }

  // ---------------------------------------------------------------------------
  // The error banner

  datatype Variant = Info | Danger
  datatype BannerTitle = InfoTitle | ErrorsTitle

  /** The inline alert shown above the search bar. */
  datatype Banner = Banner(variant: Variant, title: BannerTitle, subtitle: Option<string>)

  /** `error?.message.includes('not enabled')`, an error being its message:
      there is an error and "not enabled" occurs somewhere in its message. */
  function MentionsNotEnabled(error: Option<string>): (mentions: bool)
    ensures mentions <==> error.Some? && HasSubstring(error.value, NotEnabled)
  {
    if error.None? then false
    else
      IncludesIff(error.value, NotEnabled);
      Includes(error.value, NotEnabled)
  }

  /** No banner without an error; otherwise an informational banner when either
      message mentions a feature that is not enabled and a danger banner when
      neither does. The subtitle is the schema message, or the completion one
      when the schema fetch has no error or an empty message (`a || b`). */
  function ErrorBanner(schemaError: Option<string>, completeError: Option<string>): (banner: Option<Banner>)
    ensures banner.None? <==> schemaError.None? && completeError.None?
    ensures banner.Some? ==>
              (banner.value.variant == Info <==>
                 (schemaError.Some? && HasSubstring(schemaError.value, NotEnabled)) ||
                 (completeError.Some? && HasSubstring(completeError.value, NotEnabled)))
    ensures banner.Some? ==> (banner.value.title == InfoTitle <==> banner.value.variant == Info)
    ensures banner.Some? && schemaError.Some? && schemaError.value != "" ==> banner.value.subtitle == schemaError
    ensures banner.Some? && (schemaError.None? || schemaError.value == "") ==> banner.value.subtitle == completeError
  {
    if schemaError.None? && completeError.None? then None
    else
      var info := MentionsNotEnabled(schemaError) || MentionsNotEnabled(completeError);
      var subtitle := if schemaError.Some? && schemaError.value != "" then schemaError else completeError;
      Some(Banner(if info then Info else Danger, if info then InfoTitle else ErrorsTitle, subtitle))
  }

  // ---------------------------------------------------------------------------
  // What the page shows below the search bar

  /** The result view is handed the URL's query and the related kinds the URL
      preselects. */
  datatype PageBody = NoBody | ResultsPanel(currentQuery: string, preSelectedRelatedResources: seq<string>) | SavedSearchesPanel

  /** Nothing while a fetch has failed; the results for the URL's query when it
      is non-empty and parses to at least one keyword or filter; the saved
      searches otherwise. `parsed` is `convertStringToQuery(presetSearchQuery)`. */
  function PageBodyFor(queryErrors: bool, presetSearchQuery: string, preSelectedRelatedResources: seq<string>, parsed: Query): (body: PageBody)
    ensures body == NoBody <==> queryErrors
    ensures body.ResultsPanel? <==>
              !queryErrors && presetSearchQuery != "" && (parsed.keywords != [] || parsed.filters != [])
    ensures body.ResultsPanel? ==>
              body.currentQuery == presetSearchQuery && body.preSelectedRelatedResources == preSelectedRelatedResources
  {
    if queryErrors then NoBody
    else if presetSearchQuery != "" && (|parsed.keywords| > 0 || |parsed.filters| > 0) then
      ResultsPanel(presetSearchQuery, preSelectedRelatedResources)
    else SavedSearchesPanel
  }

  // ---------------------------------------------------------------------------
  // The saved-search dropdown

  datatype DropdownItem = DropdownItem(id: string, text: string)

  /** The dropdown's entries: the "Saved searches" entry, then one entry per
      saved search, in the stored order. */
  function DropdownList(saved: seq<SavedSearch>): (items: seq<DropdownItem>)
    ensures |items| == |saved| + 1
    ensures items[0] == DropdownItem(SavedSearchesId, SavedSearchesLabel)
    ensures forall i :: 0 <= i < |saved| ==> items[i + 1] == DropdownItem(saved[i].id, saved[i].name)
  {
    if saved == [] then [DropdownItem(SavedSearchesId, SavedSearchesLabel)]
    else
      var last := saved[|saved| - 1];
      DropdownList(saved[..|saved| - 1]) + [DropdownItem(last.id, last.name)]
  }

  /** Builds the dropdown's entries as the source does: map every saved search
      to an entry, then `unshift` the "Saved searches" entry. */
  method BuildDropdownItems(saved: seq<SavedSearch>) returns (items: seq<DropdownItem>)
    ensures items == DropdownList(saved)
  {
    items := [];
    var i := 0;
    while i < |saved|
      invariant 0 <= i <= |saved|
      invariant |items| == i
      invariant forall k :: 0 <= k < i ==> items[k] == DropdownItem(saved[k].id, saved[k].name)
    {
      items := items + [DropdownItem(saved[i].id, saved[i].name)];
      i := i + 1;
    }
    items := [DropdownItem(SavedSearchesId, SavedSearchesLabel)] + items;
  }

  /** Where selecting a dropdown entry navigates and the label it leaves. */
  datatype Selection = Selection(target: string, selectedLabel: string)

  /** Selecting "Saved searches" clears the URL's query and shows that label;
      selecting a saved search's id navigates to the first saved search with
      that id and shows its name. The source indexes the first match without a
      check, so the id must belong to some saved search. */
  function SelectionFor(saved: seq<SavedSearch>, id: string): (sel: Selection)
    requires id == SavedSearchesId || exists i :: 0 <= i < |saved| && saved[i].id == id
    ensures id == SavedSearchesId ==> sel == Selection("", SavedSearchesLabel)
    ensures id != SavedSearchesId ==>
              exists i :: 0 <= i < |saved| && saved[i].id == id &&
                          (forall j :: 0 <= j < i ==> saved[j].id != id) &&
                          sel == Selection(saved[i].searchText, saved[i].name)
  {
    if id == SavedSearchesId then Selection("", SavedSearchesLabel)
    else
      var found := FindFirst(saved, (s: SavedSearch) => s.id == id);
      Selection(found.value.searchText, found.value.name)
  }

  /** Selecting the dropdown entry of the first saved search with a given id
      (one that is not the "Saved searches" id) navigates to that saved
      search's text and shows its name, which is that entry's text in
      `DropdownList`. */
  lemma SelectingASavedSearch(saved: seq<SavedSearch>, i: nat)
    requires i < |saved| && saved[i].id != SavedSearchesId
    requires forall j :: 0 <= j < i ==> saved[j].id != saved[i].id
    ensures SelectionFor(saved, saved[i].id) == Selection(saved[i].searchText, saved[i].name)
  {
  }

  /** Selecting the "Saved searches" entry shows its text and clears the query. */
  lemma SelectingTheFirstEntry(saved: seq<SavedSearch>)
    ensures SelectionFor(saved, DropdownList(saved)[0].id) == Selection("", DropdownList(saved)[0].text)
  {
  }

  // ---------------------------------------------------------------------------
  // Page state

  /** The state the page keeps across renders: the search bar's text, the
      dropdown's label, whether a suggestion fetch failed, a pending draft of a
      search to save, and the log of URL updates made through
      `updateBrowserUrl`. */
  class SearchPageState {
    var currentSearch: string
    var selectedSearch: string
    var queryErrors: bool
    var saveDraft: Option<SavedSearch>
    var navigations: seq<string>

    /** First render for the query string carried in the URL. */
    constructor (presetSearchQuery: string)
      ensures currentSearch == presetSearchQuery && selectedSearch == SavedSearchesLabel
      ensures !queryErrors && saveDraft == None && navigations == []
    {
      currentSearch := presetSearchQuery;
      selectedSearch := SavedSearchesLabel;
      queryErrors := false;
      saveDraft := None;
      navigations := [];
    }

    /** The URL's query changed: the search bar takes it over, and an empty one
        resets the dropdown label. */
    method PresetChanged(presetSearchQuery: string)
      modifies this
      ensures currentSearch == presetSearchQuery
      ensures selectedSearch == if presetSearchQuery == "" then SavedSearchesLabel else old(selectedSearch)
      ensures queryErrors == old(queryErrors) && saveDraft == old(saveDraft) && navigations == old(navigations)
    {
      currentSearch := presetSearchQuery;
      if presetSearchQuery == "" {
        selectedSearch := SavedSearchesLabel;
      }
    }

    /** The suggestion fetches returned: the error flag records whether either
        of them failed. */
    method FetchesSettled(schemaFailed: bool, completeFailed: bool)
      modifies this
      ensures queryErrors == (schemaFailed || completeFailed)
      ensures currentSearch == old(currentSearch) && selectedSearch == old(selectedSearch)
      ensures saveDraft == old(saveDraft) && navigations == old(navigations)
    {
      if schemaFailed || completeFailed {
        queryErrors := true;
      } else if queryErrors {
        queryErrors := false;
      }
    }

    /** The search bar reports new text: it becomes the current text, clearing
        the text also clears the URL's query, and any change of text resets the
        dropdown label. */
    method QueryTextChanged(newQuery: string)
      modifies this
      ensures currentSearch == newQuery
      ensures navigations == old(navigations) + (if newQuery == "" then [""] else [])
      ensures selectedSearch == if newQuery != old(currentSearch) then SavedSearchesLabel else old(selectedSearch)
      ensures queryErrors == old(queryErrors) && saveDraft == old(saveDraft)
    {
      var previous := currentSearch;
      currentSearch := newQuery;
      if newQuery == "" {
        navigations := navigations + [newQuery];
      }
      if newQuery != previous {
        selectedSearch := SavedSearchesLabel;
      }
    }

    /** A click on the Save button opens the save dialog with a draft holding
        only the current text; a disabled button ignores the click. */
    method SaveClicked(saved: seq<SavedSearch>)
      modifies this
      ensures saveDraft == if SaveDisabled(currentSearch, saved) then old(saveDraft)
                           else Some(SavedSearch("", "", "", currentSearch))
      ensures currentSearch == old(currentSearch) && selectedSearch == old(selectedSearch)
      ensures queryErrors == old(queryErrors) && navigations == old(navigations)
    {
      if !SaveDisabled(currentSearch, saved) {
        saveDraft := Some(SavedSearch("", "", "", currentSearch));
      }
    }

    /** A dropdown entry was selected: navigate to its query and show its label. */
    method SelectSavedSearch(saved: seq<SavedSearch>, id: string)
      requires id == SavedSearchesId || exists i :: 0 <= i < |saved| && saved[i].id == id
      modifies this
      ensures navigations == old(navigations) + [SelectionFor(saved, id).target]
      ensures selectedSearch == SelectionFor(saved, id).selectedLabel
      ensures currentSearch == old(currentSearch) && queryErrors == old(queryErrors) && saveDraft == old(saveDraft)
    {
      var sel := SelectionFor(saved, id);
      navigations := navigations + [sel.target];
      selectedSearch := sel.selectedLabel;
    }
  }
}
