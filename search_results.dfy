/** The result view of the search page (frontend/src/routes/Home/Search/SearchResults/SearchResults.tsx):
    which of loading, error, "no results" and the result tables is shown, the
    grouping of the matched resources by kind into one titled card per kind
    in sorted order, the truncation notice, and the related-resources section.

    The search fetch itself is not part of this model: its outcome is a
    parameter and the requests it makes are recorded in a log. */
module SearchResults {
  import opened Strings
  import opened StringOrder
  import opened SearchQuery

  /** A matched resource, as far as this view looks at it. */
  datatype SearchResultItem = SearchResultItem(kind: string, uid: string)

  /** The number of items at which the search service truncates its answer. */
  const TruncationThreshold: nat := 1000

  // ---------------------------------------------------------------------------
  // Grouping by kind

  /** The items of `items` whose kind is `kind`, in their order. */
  function OfKind(items: seq<SearchResultItem>, kind: string): seq<SearchResultItem>
  {
    if items == [] then []
    else
      var last := items[|items| - 1];
      OfKind(items[..|items| - 1], kind) + (if last.kind == kind then [last] else [])
  }

  /** The kinds that occur among `items`. */
  function KindsOf(items: seq<SearchResultItem>): set<string>
  {
    set x | x in items :: x.kind
  }

  /** Grouping keeps the relative order of the items: it commutes with
      concatenation. */
  lemma {:induction false} OfKindAppend(a: seq<SearchResultItem>, b: seq<SearchResultItem>, kind: string)
    ensures OfKind(a + b, kind) == OfKind(a, kind) + OfKind(b, kind)
    decreases |b|
  {
    if b != [] {
      assert (a + b)[..|a + b| - 1] == a + b[..|b| - 1];
      OfKindAppend(a, b[..|b| - 1], kind);
    } else {
      assert a + b == a;
    }
  }

  /** Every item lands in the group of its own kind, as often as it occurs,
      and in no other group. */
  lemma {:induction false} OfKindCount(items: seq<SearchResultItem>, kind: string, x: SearchResultItem)
    ensures multiset(OfKind(items, kind))[x] == if x.kind == kind then multiset(items)[x] else 0
  {
    if items != [] {
      OfKindCount(items[..|items| - 1], kind, x);
      assert items == items[..|items| - 1] + [items[|items| - 1]];
    }
  }

  /** A group is non-empty exactly for the kinds that occur. */
  lemma {:induction false} OfKindNonEmpty(items: seq<SearchResultItem>, kind: string)
    ensures OfKind(items, kind) != [] <==> kind in KindsOf(items)
  {
    if items != [] {
      var init := items[..|items| - 1];
      OfKindNonEmpty(init, kind);
      assert items == init + [items[|items| - 1]];
      assert KindsOf(items) == KindsOf(init) + {items[|items| - 1].kind};
    }
  }

  /** No string occurs twice in `s`. */
  predicate Distinct(s: seq<string>)
  {
    forall i, j :: 0 <= i < j < |s| ==> s[i] != s[j]
  }

  /** The total size of the groups of the kinds `kinds`. */
  function GroupSizes(items: seq<SearchResultItem>, kinds: seq<string>): nat
  {
    if kinds == [] then 0 else |OfKind(items, kinds[0])| + GroupSizes(items, kinds[1..])
  }

  /** How many entries of `kinds` equal `kind`. */
  function Occurrences(kinds: seq<string>, kind: string): nat
  {
    if kinds == [] then 0 else (if kinds[0] == kind then 1 else 0) + Occurrences(kinds[1..], kind)
  }

  lemma {:induction false} OccurrencesDistinct(kinds: seq<string>, kind: string)
    requires Distinct(kinds)
    ensures Occurrences(kinds, kind) == if kind in kinds then 1 else 0
  {
    if kinds != [] {
      OccurrencesDistinct(kinds[1..], kind);
      assert kinds[0] == kind ==> kind !in kinds[1..];
    }
  }

  /** Appending one item grows the total by the number of listed groups it joins. */
  lemma {:induction false} GroupSizesSnoc(items: seq<SearchResultItem>, x: SearchResultItem, kinds: seq<string>)
    ensures GroupSizes(items + [x], kinds) == GroupSizes(items, kinds) + Occurrences(kinds, x.kind)
  {
    if kinds != [] {
      GroupSizesSnoc(items, x, kinds[1..]);
      assert (items + [x])[..|items + [x]| - 1] == items;
    }
  }

  /** The groups of a duplicate-free list of kinds covering every item
      partition the items: their sizes add up to the number of items. */
  lemma {:induction false} GroupsPartition(items: seq<SearchResultItem>, kinds: seq<string>)
    requires Distinct(kinds)
    requires forall i :: 0 <= i < |items| ==> items[i].kind in kinds
    ensures GroupSizes(items, kinds) == |items|
  {
    if items == [] {
      EmptyGroups(kinds);
    } else {
      var init, last := items[..|items| - 1], items[|items| - 1];
      GroupsPartition(init, kinds);
      assert init + [last] == items;
      GroupSizesSnoc(init, last, kinds);
      OccurrencesDistinct(kinds, last.kind);
    }
  }

  lemma {:induction false} EmptyGroups(kinds: seq<string>)
    ensures GroupSizes([], kinds) == 0
  {
    if kinds != [] {
      EmptyGroups(kinds[1..]);
    }
  }

  /** The grouping loop: a dictionary from kind to the items of that kind,
      filled in one left-to-right pass that creates a group on a kind's first
      item and pushes onto it afterwards, plus the dictionary's keys in the
      order they were created (`Object.keys`). */
  method GroupByKind(data: seq<SearchResultItem>) returns (groups: map<string, seq<SearchResultItem>>, kinds: seq<string>)
    ensures groups.Keys == KindsOf(data)
    ensures forall kind :: kind in groups ==> groups[kind] == OfKind(data, kind)
    ensures Distinct(kinds)
    ensures forall kind :: kind in kinds <==> kind in groups
  {
    groups := map[];
    kinds := [];
    var i := 0;
    while i < |data|
      invariant 0 <= i <= |data|
      invariant GroupsOf(groups, data[..i])
      invariant Distinct(kinds)
      invariant forall kind :: kind in kinds <==> kind in groups
    {
      var item := data[i];
      assert data[..i + 1] == data[..i] + [item];
      GroupsExtend(groups, data[..i], item);
      if item.kind !in groups {
        groups := groups[item.kind := [item]];
        kinds := kinds + [item.kind];
      } else {
        groups := groups[item.kind := groups[item.kind] + [item]];
      }
      i := i + 1;
    }
    assert data[..i] == data;
  }

  /** `groups` maps each kind occurring in `items` to the items of that kind. */
  ghost predicate GroupsOf(groups: map<string, seq<SearchResultItem>>, items: seq<SearchResultItem>)
  {
    && groups.Keys == KindsOf(items)
    && forall kind :: kind in groups ==> groups[kind] == OfKind(items, kind)
  }

  /** One step of the grouping loop: a new kind gets a one-item group, a known
      kind's group gets the item pushed onto its end. */
  lemma GroupsExtend(groups: map<string, seq<SearchResultItem>>, items: seq<SearchResultItem>, item: SearchResultItem)
    requires GroupsOf(groups, items)
    ensures item.kind !in groups ==> GroupsOf(groups[item.kind := [item]], items + [item])
    ensures item.kind in groups ==> GroupsOf(groups[item.kind := groups[item.kind] + [item]], items + [item])
  {
    var next := items + [item];
    assert next[..|next| - 1] == items;
    assert KindsOf(next) == KindsOf(items) + {item.kind};
    if item.kind !in groups {
      OfKindNonEmpty(items, item.kind);
    }
  }

  // ---------------------------------------------------------------------------
  // Card titles

  /** A card's title: the kind with its first character upper-cased, then the
      number of items in parentheses. */
  function Title(kind: string, count: nat): (title: string)
    ensures StartsWith(title, Capitalize(kind)) && EndsWith(title, ")")
    ensures |kind| > 0 ==> title[0] == UpperAscii(kind[0]) && title[1..|kind|] == kind[1..]
  {
    Capitalize(kind) + " (" + NatToDecimal(count) + ")"
  }

  /** The maximal run of digits at the end of `s`. */
  function TrailingDigits(s: string): (d: string)
    ensures AllDigits(d) && |d| <= |s| && s[|s| - |d|..] == d
  {
    if s != [] && IsDigit(s[|s| - 1]) then TrailingDigits(s[..|s| - 1]) + [s[|s| - 1]] else []
  }

  /** Reads the count back from a card title: the digits between the last
      ` (` and the closing `)`. */
  function TitleCount(title: string): Option<nat>
  {
    if title == [] || title[|title| - 1] != ')' then None
    else
      var body := title[..|title| - 1];
      var digits := TrailingDigits(body);
      if digits != [] && EndsWith(body[..|body| - |digits|], " (") then Some(DecimalValue(digits)) else None
  }

  lemma {:induction false} TrailingDigitsOfSuffix(p: string, d: string)
    requires AllDigits(d)
    requires p == [] || !IsDigit(p[|p| - 1])
    ensures TrailingDigits(p + d) == d
    decreases |d|
  {
    if d == [] {
      assert p + d == p;
    } else {
      var init := d[..|d| - 1];
      assert (p + d)[..|p + d| - 1] == p + init;
      TrailingDigitsOfSuffix(p, init);
    }
  }

  /** The count can be read back from every title, whatever the kind. */
  lemma TitleRoundTrip(kind: string, count: nat)
    ensures TitleCount(Title(kind, count)) == Some(count)
  {
    var head := Capitalize(kind) + " (";
    var digits := NatToDecimal(count);
    var title := Title(kind, count);
    assert title == head + digits + ")";
    ReadCount(head, digits);
    DecimalRoundTrip(count);
  }

  lemma ReadCount(head: string, digits: string)
    requires AllDigits(digits) && digits != [] && EndsWith(head, " (")
    ensures TitleCount(head + digits + ")") == Some(DecimalValue(digits))
  {
    var title := head + digits + ")";
    var body := title[..|title| - 1];
    assert title[|title| - 1] == ')';
    assert body == head + digits;
    assert head[|head| - 1] == head[|head| - 2..][1] == '(';
    TrailingDigitsOfSuffix(head, digits);
    assert body[..|body| - |digits|] == head;
  }

  // ---------------------------------------------------------------------------
  // The result tables

  /** One expandable card: a kind, its title, its items and whether it starts expanded. */
  datatype Card = Card(kind: string, title: string, items: seq<SearchResultItem>, defaultExpanded: bool)

  /** What the tables part of the view shows: the truncation notice and the cards. */
  datatype Tables = Tables(truncated: bool, cards: seq<Card>)

  function CardKinds(cards: seq<Card>): (kinds: seq<string>)
    ensures |kinds| == |cards| && forall i :: 0 <= i < |cards| ==> kinds[i] == cards[i].kind
  {
    seq(|cards|, i requires 0 <= i < |cards| => cards[i].kind)
  }

  function CardSizes(cards: seq<Card>): nat
  {
    if cards == [] then 0 else |cards[0].items| + CardSizes(cards[1..])
  }

  /** The card of one kind. */
  function CardFor(kind: string, items: seq<SearchResultItem>, expanded: bool): Card
  {
    Card(kind, Title(kind, |items|), items, expanded)
  }

  /** The tables for the fetched items: the truncation notice from 1000 items
      on; one card per distinct kind, in ascending order of kind; each card
      holds exactly the items of its kind in their fetched order, is titled
      with the capitalised kind and that count, and starts expanded only when
      it is the only card. The cards together hold every item once. */
  method ResultTables(data: seq<SearchResultItem>) returns (tables: Tables)
    ensures tables.truncated <==> |data| >= TruncationThreshold
    ensures Sorted(CardKinds(tables.cards)) && Distinct(CardKinds(tables.cards))
    ensures forall kind :: kind in CardKinds(tables.cards) <==> kind in KindsOf(data)
    ensures forall i :: 0 <= i < |tables.cards| ==>
              tables.cards[i] == CardFor(tables.cards[i].kind, OfKind(data, tables.cards[i].kind), |tables.cards| == 1)
    ensures CardSizes(tables.cards) == |data|
  {
    var groups, kinds := GroupByKind(data);
    var sorted := new string[|kinds|](k requires 0 <= k < |kinds| => kinds[k]);
    assert sorted[..] == kinds;
    SortInPlace(sorted);
    var order := sorted[..];
    DistinctPermutation(kinds, order);
    var expanded := |order| == 1;
    var cards := seq(|order|, j requires 0 <= j < |order| => CardFor(order[j], groups[order[j]], expanded));
    assert CardKinds(cards) == order;
    tables := Tables(|data| >= TruncationThreshold, cards);
    CardSizesAreGroupSizes(cards, data);
    forall i | 0 <= i < |data|
      ensures data[i].kind in order
    {
      assert data[i].kind in KindsOf(data);
    }
    GroupsPartition(data, order);
  }

  lemma {:induction false} CardSizesAreGroupSizes(cards: seq<Card>, data: seq<SearchResultItem>)
    requires forall j :: 0 <= j < |cards| ==> cards[j].items == OfKind(data, cards[j].kind)
    ensures CardSizes(cards) == GroupSizes(data, CardKinds(cards))
    decreases |cards|
  {
    if cards != [] {
      CardSizesAreGroupSizes(cards[1..], data);
      assert CardKinds(cards)[1..] == CardKinds(cards[1..]);
    }
  }

  /** A permutation of a duplicate-free list is duplicate-free and has the same elements. */
  lemma DistinctPermutation(a: seq<string>, b: seq<string>)
    requires Distinct(a) && multiset(a) == multiset(b)
    ensures Distinct(b)
    ensures forall x :: x in a <==> x in b
  {
    forall x
      ensures x in a <==> x in b
    {
      assert x in a <==> x in multiset(a);
      assert x in b <==> x in multiset(b);
    }
    forall i, j | 0 <= i < j < |b|
      ensures b[i] != b[j]
    {
      if b[i] == b[j] {
        assert multiset(b)[b[i]] >= 2 by {
          assert b == b[..i] + [b[i]] + b[i + 1..j] + [b[j]] + b[j + 1..];
        }
        DistinctCount(a, b[i]);
      }
    }
  }

  lemma {:induction false} DistinctCount(a: seq<string>, x: string)
    requires Distinct(a)
    ensures multiset(a)[x] <= 1
  {
    if a != [] {
      DistinctCount(a[1..], x);
      assert a == [a[0]] + a[1..];
      assert a[0] == x ==> x !in a[1..];
    }
  }

  // ---------------------------------------------------------------------------
  // Which view the results area shows

  /** One entry of the fetch's `searchResult` list. */
  datatype ResultSet = ResultSet(items: Option<seq<SearchResultItem>>)

  /** `data?.searchResult?.[0]?.items || []`: the first result set's items
      when there are any, the empty list when there is no response, no result
      set or no items. */
  function FetchedItems(data: Option<seq<ResultSet>>): (items: seq<SearchResultItem>)
    ensures data.Some? && |data.value| > 0 && data.value[0].items.Some? ==> items == data.value[0].items.value
    ensures data.None? || |data.value| == 0 || data.value[0].items.None? ==> items == []
  {
    if data.Some? && |data.value| > 0 && data.value[0].items.Some? then data.value[0].items.value else []
  }

  datatype ResultsView = Loading | QueryFailed(message: string) | NoResults | ResultsTables(items: seq<SearchResultItem>)

  /** The view chosen in priority order: loading, then a failed fetch, then an
      empty answer, then the tables of the fetched items. */
  function ResultsViewFor(loading: bool, error: Option<string>, data: Option<seq<ResultSet>>): (view: ResultsView)
    ensures loading <==> view == Loading
    ensures view.QueryFailed? <==> !loading && error.Some?
    ensures view.QueryFailed? ==> view.message == error.value
    ensures view == NoResults <==> !loading && error.None? && FetchedItems(data) == []
    ensures view.ResultsTables? ==> view.items == FetchedItems(data) && view.items != []
  {
    if loading then Loading
    else if error.Some? then QueryFailed(error.value)
    else
      var items := FetchedItems(data);
      if |items| == 0 then NoResults else ResultsTables(items)
  }

  /** When tables are shown there is at least one kind, hence at least one card. */
  lemma TablesHaveAKind(loading: bool, error: Option<string>, data: Option<seq<ResultSet>>)
    requires ResultsViewFor(loading, error, data).ResultsTables?
    ensures KindsOf(FetchedItems(data)) != {}
  {
    var items := FetchedItems(data);
    assert items[0].kind in KindsOf(items);
  }

  // ---------------------------------------------------------------------------
  // The related-resources section and the search fetch

  /** The related-resources section sits inside the tables view and is
      offered there only for a query without keywords. `parsed` is
      `convertStringToQuery(currentQuery)`. */
  function ShowsRelatedSection(view: ResultsView, parsed: Query): (shown: bool)
    ensures shown <==> view.ResultsTables? && parsed.keywords == []
  {
    match view
    case ResultsTables(_) => !(|parsed.keywords| > 0)
    case _ => false
  }

  /** The section is rendered only once the fetch has settled without error
      and with at least one item, and only for a query without keywords. */
  lemma RelatedSectionNeedsResults(loading: bool, error: Option<string>, data: Option<seq<ResultSet>>, parsed: Query)
    ensures ShowsRelatedSection(ResultsViewFor(loading, error, data), parsed) <==>
              !loading && error.None? && FetchedItems(data) != [] && parsed.keywords == []
  {
  }

  /** The search request made for the current query: the first one fires the
      lazy query, later ones refetch it. */
  datatype SearchRequest = Fire(query: Query) | Refetch(query: Query)

  /** The state the result view keeps across renders. */
  class SearchResultsState {
    var selectedKinds: seq<string>
    var showRelatedResources: bool
    var called: bool
    var requests: seq<SearchRequest>

    /** Exactly the first request fires; `called` records that it was made. */
    ghost predicate Valid()
      reads this
    {
      && (called <==> requests != [])
      && (requests != [] ==> requests[0].Fire?)
      && (forall i :: 0 < i < |requests| ==> requests[i].Refetch?)
    }

    /** The related kinds preselected in the URL are selected, and the section
        starts expanded exactly when there is one. */
    constructor (preSelectedRelatedResources: seq<string>)
      ensures Valid()
      ensures selectedKinds == preSelectedRelatedResources
      ensures showRelatedResources <==> |preSelectedRelatedResources| > 0
      ensures !called && requests == []
    {
      selectedKinds := preSelectedRelatedResources;
      showRelatedResources := |preSelectedRelatedResources| > 0;
      called := false;
      requests := [];
    }

    /** Toggling the section flips whether it is expanded. */
    method ToggleRelatedResources()
      requires Valid()
      modifies this
      ensures Valid()
      ensures showRelatedResources == !old(showRelatedResources)
      ensures selectedKinds == old(selectedKinds) && called == old(called) && requests == old(requests)
    {
      showRelatedResources := !showRelatedResources;
    }

    /** The fetch effect for the current query: fire when nothing was sent yet,
        refetch otherwise. The lazy-query hook is taken to supply `refetch`
        once the query has been fired, so the `refetch &&` guard always passes. */
    method RequestResults(parsed: Query)
      requires Valid()
      modifies this
      ensures Valid()
      ensures called
      ensures requests == old(requests) + [if old(called) then Refetch(parsed) else Fire(parsed)]
      ensures selectedKinds == old(selectedKinds) && showRelatedResources == old(showRelatedResources)
    {
      if !called {
        requests := requests + [Fire(parsed)];
        called := true;
      } else {
        requests := requests + [Refetch(parsed)];
      }
    }
  }
}
