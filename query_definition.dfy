/** The second revision of `QueryDefinition` (Realm.Search/QueryDefinition.cs). It
    declares the same class in the same namespace as
    Realm.Search/SearchDefinitions/QueryDefinition.cs, so the two files cannot both be
    compiled into one assembly; the model keeps both and proves that they agree. */
module QueryDefinition {
  import opened Wrappers
  import opened Bson
  import SearchQueryDefinition

  datatype QueryDefinition = QueryDefinition(value: BsonValue)

  function FromString(query: string): (r: QueryDefinition)
    ensures r.value == Str(query)
  {
    QueryDefinition(Str(query))
  }

  function FromStrings(queryTerms: seq<string>): (r: QueryDefinition)
    ensures r.value.Arr? && |r.value.items| == |queryTerms|
    ensures forall i :: 0 <= i < |queryTerms| ==> r.value.items[i] == Str(queryTerms[i])
    ensures ReadStrings(r.value.items) == Some(queryTerms)
  {
    ReadStringArray(queryTerms);
    QueryDefinition(StringArray(queryTerms))
  }

  /** Both revisions convert every input to the same value. */
  lemma RevisionsAgree(query: string, queryTerms: seq<string>)
    ensures FromString(query).value == SearchQueryDefinition.FromString(query).value
    ensures FromStrings(queryTerms).value == SearchQueryDefinition.FromStrings(queryTerms).value
  {
  }
}
