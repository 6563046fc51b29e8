/** Values shared by the search page and the result view: the parsed query
    (produced by the query parser, which is not part of this model) and the
    saved searches held in the user-preference store. */
module SearchQuery {

  datatype Option<T> = None | Some(value: T)

  /** One `property<op>value,...` constraint of a parsed query; the parser's
      other fields (the operator) are not visible to this core. */
  datatype Filter = Filter(property: string, values: seq<string>)

  /** The result of `convertStringToQuery`: free-text keywords and filters,
      each in the order they were typed. */
  datatype Query = Query(keywords: seq<string>, filters: seq<Filter>)

  /** An entry of `userPreference.spec.savedSearches`. */
  datatype SavedSearch = SavedSearch(id: string, name: string, description: string, searchText: string)

  /** The first element of `s` that satisfies `p` (`Array.prototype.find`). */
  function FindFirst<T>(s: seq<T>, p: T -> bool): (r: Option<T>)
    ensures r.None? <==> forall i :: 0 <= i < |s| ==> !p(s[i])
    ensures r.Some? ==> exists i :: 0 <= i < |s| && s[i] == r.value && p(s[i]) &&
                                    forall j :: 0 <= j < i ==> !p(s[j])
  {
    if s == [] then None
    else if p(s[0]) then Some(s[0])
    else
      var r := FindFirst(s[1..], p);
      assert forall i :: 0 <= i < |s[1..]| ==> s[1..][i] == s[i + 1];
      r
  }
}
