/** `QueryDefinition` (Realm.Search/SearchDefinitions/QueryDefinition.cs): one or
    several search terms, fixed when the definition is made by one of two implicit
    conversions. */
module SearchQueryDefinition {
  import opened Wrappers
  import opened Bson

  datatype QueryDefinition = QueryDefinition(value: BsonValue)

  /** The conversion from a single query string. */
  function FromString(query: string): (r: QueryDefinition)
    ensures r.value == Str(query)
  {
    QueryDefinition(Str(query))
  }

  /** The conversion from an array of query terms: an array holding each term, in
      order; an empty array gives an empty array. */
  function FromStrings(queryTerms: seq<string>): (r: QueryDefinition)
    ensures r.value.Arr? && |r.value.items| == |queryTerms|
    ensures forall i :: 0 <= i < |queryTerms| ==> r.value.items[i] == Str(queryTerms[i])
    ensures ReadStrings(r.value.items) == Some(queryTerms)
  {
    ReadStringArray(queryTerms);
    QueryDefinition(StringArray(queryTerms))
  }
}
