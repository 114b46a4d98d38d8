/** `AutocompleteDefinition` (Realm.Search/SearchDefinitions/AutocompleteDefinition.cs):
    a query, an autocomplete-indexed path, a token order and optional fuzzy and score
    options, fixed at construction and rendered as `{"autocomplete": {...}}`. The fuzzy
    options are a mutable object that the definition only refers to, so what they render
    to is read when the definition is rendered. */
module AutocompleteDefinition {
  import opened Wrappers
  import opened Bson
  import SearchQueryDefinition
  import FuzzyOptions
  import ScoreOptions

  datatype TokenOrder = Any | Sequential

  /** `TokenOrder.ToString()`: the member's name as declared. */
  function TokenOrderMember(t: TokenOrder): string
  {
    match t
    case Any => "Any"
    case Sequential => "Sequential"
  }

  /** `TokenOrder.ToString().ToLowerInvariant()` */
  function TokenOrderName(t: TokenOrder): (r: string)
    ensures r == LowerInvariant(TokenOrderMember(t))
  {
    match t
    case Any => "any"
    case Sequential => "sequential"
  }

  datatype AutocompleteDefinition = AutocompleteDefinition(
    query: SearchQueryDefinition.QueryDefinition,
    path: string,
    tokenOrder: TokenOrder,
    fuzzy: Option<FuzzyOptions.FuzzyOptions>,
    score: Option<ScoreOptions.AutocompleteScoreOptions>)

  /** The constructor `AutocompleteDefinition(query, path, tokenOrder = Any, fuzzy = null,
      score = null)`, which stores its arguments as given. */
  function NewAutocomplete(
    query: SearchQueryDefinition.QueryDefinition, path: string, tokenOrder: TokenOrder := Any,
    fuzzy: Option<FuzzyOptions.FuzzyOptions> := None,
    score: Option<ScoreOptions.AutocompleteScoreOptions> := None): (r: AutocompleteDefinition)
    ensures r.query == query && r.path == path && r.tokenOrder == tokenOrder
    ensures r.fuzzy == fuzzy && r.score == score
  {
    AutocompleteDefinition(query, path, tokenOrder, fuzzy, score)
  }

  /** A rendered sub-document as a value (only used where it is present). */
  function Rendered(d: Option<Elements>): BsonValue
  {
    if d.Some? then Doc(d.value) else Doc([])
  }

  /** What the fuzzy options currently render to, if there are any. */
  function FuzzyRendering(fuzzy: Option<FuzzyOptions.FuzzyOptions>): Option<Elements>
    reads if fuzzy.Some? then {fuzzy.value} else {}
  {
    if fuzzy.Some? then Some(fuzzy.value.Document()) else None
  }

  /** What the score options render to, if there are any; their failure is the
      definition's. */
  function ScoreRendering(score: Option<ScoreOptions.AutocompleteScoreOptions>): (r: Result<Option<Elements>>)
  {
    if score.None? then Success(None)
    else
      var s :- ScoreOptions.AutocompleteScoreDocument(score.value);
      Success(Some(s))
  }

  /** The `autocomplete` document, given the rendered fuzzy and score options: what it
      holds is stated by `AutocompleteKeys` and `AutocompleteLookups`. */
  function AutocompleteInner(
    query: BsonValue, path: string, tokenOrder: TokenOrder, fuzzy: Option<Elements>, score: Option<Elements>): Elements
  {
    Entry(true, "query", query)
    + Entry(true, "path", Str(path))
    + Entry(tokenOrder != Any, "tokenOrder", Str(TokenOrderName(tokenOrder)))
    + Entry(fuzzy.Some?, "fuzzy", Rendered(fuzzy))
    + Entry(score.Some?, "score", Rendered(score))
  }

  /** What `Render` produces when the fuzzy options render to `fuzzy`. */
  function AutocompleteDocument(d: AutocompleteDefinition, fuzzy: Option<Elements>): Result<Elements>
  {
    var score :- ScoreRendering(d.score);
    Success([("autocomplete", Doc(AutocompleteInner(d.query.value, d.path, d.tokenOrder, fuzzy, score)))])
  }

  /** The names of the `autocomplete` document: `query` and `path` first, then
      `tokenOrder` exactly when the order is not `Any`, `fuzzy` exactly when there are
      fuzzy options and `score` exactly when there are score options, in that order. */
  lemma AutocompleteKeys(query: BsonValue, path: string, tokenOrder: TokenOrder, fuzzy: Option<Elements>, score: Option<Elements>)
    ensures Keys(AutocompleteInner(query, path, tokenOrder, fuzzy, score))
            == ["query", "path"]
               + (if tokenOrder == Sequential then ["tokenOrder"] else [])
               + (if fuzzy.Some? then ["fuzzy"] else [])
               + (if score.Some? then ["score"] else [])
  {
    var e1 := Entry(true, "query", query);
    var e2 := Entry(true, "path", Str(path));
    var e3 := Entry(tokenOrder != Any, "tokenOrder", Str(TokenOrderName(tokenOrder)));
    var e4 := Entry(fuzzy.Some?, "fuzzy", Rendered(fuzzy));
    var e5 := Entry(score.Some?, "score", Rendered(score));
    KeysAppend(e1, e2);
    KeysAppend(e1 + e2, e3);
    KeysAppend(e1 + e2 + e3, e4);
    KeysAppend(e1 + e2 + e3 + e4, e5);
  }

  /** What each name of the `autocomplete` document holds: the query value, the path,
      `"sequential"` for the sequential token order, and the rendered fuzzy and score
      options when there are any; nothing for an absent name. */
  lemma AutocompleteLookups(query: BsonValue, path: string, tokenOrder: TokenOrder, fuzzy: Option<Elements>, score: Option<Elements>)
    ensures var r := AutocompleteInner(query, path, tokenOrder, fuzzy, score);
      && Lookup(r, "query") == Some(query)
      && Lookup(r, "path") == Some(Str(path))
      && Lookup(r, "tokenOrder") == (if tokenOrder == Sequential then Some(Str("sequential")) else None)
      && Lookup(r, "fuzzy") == (if fuzzy.Some? then Some(Doc(fuzzy.value)) else None)
      && Lookup(r, "score") == (if score.Some? then Some(Doc(score.value)) else None)
  {
    var e1 := Entry(true, "query", query);
    var e2 := Entry(true, "path", Str(path));
    var e3 := Entry(tokenOrder != Any, "tokenOrder", Str(TokenOrderName(tokenOrder)));
    var e4 := Entry(fuzzy.Some?, "fuzzy", Rendered(fuzzy));
    var e5 := Entry(score.Some?, "score", Rendered(score));
    FiveParts(e1, e2, e3, e4, e5, "query", "path", "tokenOrder", "fuzzy", "score");
    LookupEntry(true, "query", query);
    LookupEntry(true, "path", Str(path));
    LookupEntry(tokenOrder != Any, "tokenOrder", Str(TokenOrderName(tokenOrder)));
    LookupEntry(fuzzy.Some?, "fuzzy", Rendered(fuzzy));
    LookupEntry(score.Some?, "score", Rendered(score));
  }

  /** Rendering fails exactly when the score options fail to render, with their error;
      otherwise it is the single name `autocomplete`. */
  lemma AutocompleteOutcome(d: AutocompleteDefinition, fuzzy: Option<Elements>)
    ensures AutocompleteDocument(d, fuzzy).Failure?
            <==> d.score.Some? && ScoreOptions.AutocompleteScoreDocument(d.score.value).Failure?
    ensures AutocompleteDocument(d, fuzzy).Failure? ==>
              AutocompleteDocument(d, fuzzy).error == ScoreOptions.AutocompleteScoreDocument(d.score.value).error
    ensures AutocompleteDocument(d, fuzzy).Success? ==> Keys(AutocompleteDocument(d, fuzzy).value) == ["autocomplete"]
  {
  }

  /** A definition made from a query and a path alone renders
      `{"autocomplete": {"query": q, "path": p}}`. */
  lemma QueryAndPathOnly(query: SearchQueryDefinition.QueryDefinition, path: string)
    ensures FuzzyRendering(NewAutocomplete(query, path).fuzzy) == None
    ensures AutocompleteDocument(NewAutocomplete(query, path), None)
            == Success([("autocomplete", Doc([("query", query.value), ("path", Str(path))]))])
  {
    assert ScoreRendering(None) == Success(None);
    assert AutocompleteInner(query.value, path, Any, None, None) == [("query", query.value), ("path", Str(path))];
  }

  /** The names `Render` sets are not yet present when it sets them. */
  lemma {:induction false} FreshNames(query: BsonValue, path: string, tokenOrder: TokenOrder, fuzzy: Option<Elements>)
    ensures "path" !in Keys(Entry(true, "query", query))
    ensures "tokenOrder" !in Keys(Entry(true, "query", query) + Entry(true, "path", Str(path)))
    ensures "fuzzy" !in Keys(Entry(true, "query", query) + Entry(true, "path", Str(path))
                             + Entry(tokenOrder != Any, "tokenOrder", Str(TokenOrderName(tokenOrder))))
    ensures "score" !in Keys(Entry(true, "query", query) + Entry(true, "path", Str(path))
                             + Entry(tokenOrder != Any, "tokenOrder", Str(TokenOrderName(tokenOrder)))
                             + Entry(fuzzy.Some?, "fuzzy", Rendered(fuzzy)))
  {
    var e1 := Entry(true, "query", query);
    var e2 := Entry(true, "path", Str(path));
    var e3 := Entry(tokenOrder != Any, "tokenOrder", Str(TokenOrderName(tokenOrder)));
    var e4 := Entry(fuzzy.Some?, "fuzzy", Rendered(fuzzy));
    KeysAppend(e1, e2);
    KeysAppend(e1 + e2, e3);
    KeysAppend(e1 + e2 + e3, e4);
  }

  /** `Fuzzy?.Render()` */
  method RenderFuzzy(fuzzy: Option<FuzzyOptions.FuzzyOptions>) returns (r: Option<Elements>)
    ensures r == FuzzyRendering(fuzzy)
  {
    r := None;
    if fuzzy.Some? {
      var f := fuzzy.value.Render();
      r := Some(f);
    }
  }

  /** `Score?.Render()`, which fails when the score options hold no variant. */
  method RenderScore(score: Option<ScoreOptions.AutocompleteScoreOptions>) returns (r: Result<Option<Elements>>)
    ensures r == ScoreRendering(score)
  {
    if score.None? {
      return Success(None);
    }
    var s :- ScoreOptions.RenderAutocompleteScore(score.value);
    return Success(Some(s));
  }

  /** The document `Render` builds from the query, the path, the token order and the
      rendered options, one indexer assignment at a time. */
  method RenderInner(query: BsonValue, path: string, tokenOrder: TokenOrder, fuzzy: Option<Elements>, score: Option<Elements>)
    returns (r: Elements)
    ensures r == AutocompleteInner(query, path, tokenOrder, fuzzy, score)
  {
    FreshNames(query, path, tokenOrder, fuzzy);
    var document := new BsonDocument();
    document.SetIf(true, "query", query);
    assert document.elements == Entry(true, "query", query);
    document.SetIf(true, "path", Str(path));
    document.SetIf(tokenOrder != Any, "tokenOrder", Str(TokenOrderName(tokenOrder)));
    document.SetIf(fuzzy.Some?, "fuzzy", Rendered(fuzzy));
    document.SetIf(score.Some?, "score", Rendered(score));
    r := document.elements;
  }

  /** `ISearchDefinition.Render`: the definition's document, with the fuzzy options as
      they are now; it fails only when the score options do. */
  method Render(d: AutocompleteDefinition) returns (r: Result<Elements>)
    ensures r == AutocompleteDocument(d, FuzzyRendering(d.fuzzy))
  {
    var fuzzy := RenderFuzzy(d.fuzzy);
    var score :- RenderScore(d.score);
    var inner := RenderInner(d.query.value, d.path, d.tokenOrder, fuzzy, score);
    r := Success([("autocomplete", Doc(inner))]);
  }
}
