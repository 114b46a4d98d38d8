/** `PhraseDefinition` (Realm.Search/SearchDefinitions/PhraseDefinition.cs): the
    `phrase` operator, with the allowed distance between the phrase's words. The keys its
    base class `QuerySearchDefinitionBase` writes are not part of this model: the base
    population is a parameter, applied first. */
module PhraseDefinition {
  import opened Wrappers
  import opened Bson
  import SearchQueryDefinition
  import PathDefinition
  import ScoreOptions

  /** `OperatorName` */
  const OperatorName := "phrase"

  const DefaultSlop := 0

  datatype PhraseDefinition = PhraseDefinition(
    query: SearchQueryDefinition.QueryDefinition,
    path: PathDefinition.PathDefinition,
    score: Option<ScoreOptions.ScoreOptions>,
    slop: int)

  /** `PhraseDefinition(query, path, score = null, slop = 0)` */
  function NewPhrase(
    query: SearchQueryDefinition.QueryDefinition, path: PathDefinition.PathDefinition,
    score: Option<ScoreOptions.ScoreOptions> := None, slop: int := DefaultSlop): (r: PhraseDefinition)
    ensures r.query == query && r.path == path && r.score == score && r.slop == slop
  {
    PhraseDefinition(query, path, score, slop)
  }

  /** Without an explicit slop, the slop is 0 and nothing is added to the base document. */
  lemma DefaultSlopAddsNothing(query: SearchQueryDefinition.QueryDefinition, path: PathDefinition.PathDefinition, populated: Elements)
    ensures NewPhrase(query, path).slop == 0
    ensures Populated(populated, NewPhrase(query, path).slop) == populated
  {
  }

  /** The document after `PopulateDefinition`, given what the base population made of it:
      `slop` is set when it is not zero (negative values included), after the base keys,
      and no other name changes. */
  function Populated(populated: Elements, slop: int): (r: Elements)
    ensures slop == 0 ==> r == populated
    ensures Lookup(r, "slop") == if slop != 0 then Some(Int(slop)) else Lookup(populated, "slop")
    ensures forall k :: k != "slop" ==> Lookup(r, k) == Lookup(populated, k)
    ensures "slop" !in Keys(populated) ==>
              Keys(r) == Keys(populated) + (if slop != 0 then ["slop"] else [])
  {
    if slop != 0 then Assign(populated, "slop", Int(slop)) else populated
  }

  /** `PopulateDefinition`: the base population, then `baseDefinition["slop"]` when the
      slop is not zero. */
  method PopulateDefinition(p: PhraseDefinition, baseDefinition: BsonDocument, basePopulate: Elements -> Elements)
    modifies baseDefinition
    ensures baseDefinition.elements == Populated(basePopulate(old(baseDefinition.elements)), p.slop)
  {
    baseDefinition.elements := basePopulate(baseDefinition.elements);
    if p.slop != 0 {
      baseDefinition.Set("slop", Int(p.slop));
    }
  }
}
