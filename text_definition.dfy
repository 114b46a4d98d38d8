/** `TextDefinition` (Realm.Search/SearchDefinitions/TextDefinition.cs): the `text`
    operator, a fuzzy search definition that may name a synonym mapping instead of fuzzy
    options. The keys its base class `FuzzySearchDefinitionBase` writes are not part of
    this model: the base population is a parameter, applied first. */
module TextDefinition {
  import opened Wrappers
  import opened Bson
  import SearchQueryDefinition
  import PathDefinition
  import FuzzyOptions
  import ScoreOptions

  /** `OperatorName` */
  const OperatorName := "text"

  datatype TextDefinition = TextDefinition(
    query: SearchQueryDefinition.QueryDefinition,
    path: PathDefinition.PathDefinition,
    fuzzy: Option<FuzzyOptions.FuzzyOptions>,
    score: Option<ScoreOptions.ScoreOptions>,
    synonyms: Option<string>)

  /** `TextDefinition(query, path, fuzzy = null, score = null)`: no synonyms. */
  function WithFuzzy(
    query: SearchQueryDefinition.QueryDefinition, path: PathDefinition.PathDefinition,
    fuzzy: Option<FuzzyOptions.FuzzyOptions> := None, score: Option<ScoreOptions.ScoreOptions> := None): (r: TextDefinition)
    ensures r.synonyms.None?
    ensures r.query == query && r.path == path && r.fuzzy == fuzzy && r.score == score
  {
    TextDefinition(query, path, fuzzy, score, None)
  }

  /** `TextDefinition(query, path, synonyms, score = null)`: the base gets `fuzzy: null`. */
  function WithSynonyms(
    query: SearchQueryDefinition.QueryDefinition, path: PathDefinition.PathDefinition,
    synonyms: string, score: Option<ScoreOptions.ScoreOptions> := None): (r: TextDefinition)
    ensures r.fuzzy.None? && r.synonyms == Some(synonyms)
    ensures r.query == query && r.path == path && r.score == score
  {
    TextDefinition(query, path, None, score, Some(synonyms))
  }

  /** Whatever constructor made a definition, it never has both fuzzy options and
      synonyms. */
  lemma NeverFuzzyAndSynonyms(
    query: SearchQueryDefinition.QueryDefinition, path: PathDefinition.PathDefinition,
    fuzzy: Option<FuzzyOptions.FuzzyOptions>, synonyms: string, score: Option<ScoreOptions.ScoreOptions>)
    ensures !(WithFuzzy(query, path, fuzzy, score).fuzzy.Some? && WithFuzzy(query, path, fuzzy, score).synonyms.Some?)
    ensures !(WithSynonyms(query, path, synonyms, score).fuzzy.Some? && WithSynonyms(query, path, synonyms, score).synonyms.Some?)
  {
  }

  /** The document after `PopulateDefinition`, given what the base population made of it:
      `synonyms` is set when there are synonyms, after the base keys, and no other name
      changes. */
  function Populated(populated: Elements, synonyms: Option<string>): (r: Elements)
    ensures synonyms.None? ==> r == populated
    ensures Lookup(r, "synonyms") == if synonyms.Some? then Some(Str(synonyms.value)) else Lookup(populated, "synonyms")
    ensures forall k :: k != "synonyms" ==> Lookup(r, k) == Lookup(populated, k)
    ensures "synonyms" !in Keys(populated) ==>
              Keys(r) == Keys(populated) + (if synonyms.Some? then ["synonyms"] else [])
  {
    if synonyms.Some? then Assign(populated, "synonyms", Str(synonyms.value)) else populated
  }

  /** `PopulateDefinition`: the base population, then `baseDefinition["synonyms"]` when
      there are synonyms. */
  method PopulateDefinition(t: TextDefinition, baseDefinition: BsonDocument, basePopulate: Elements -> Elements)
    modifies baseDefinition
    ensures baseDefinition.elements == Populated(basePopulate(old(baseDefinition.elements)), t.synonyms)
  {
    baseDefinition.elements := basePopulate(baseDefinition.elements);
    if t.synonyms.Some? {
      baseDefinition.Set("synonyms", Str(t.synonyms.value));
    }
  }
}
