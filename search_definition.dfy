/** Realm.Search/SearchDefinitions/SearchDefinition.cs: the `ISearchDefinition` interface
    (anything that renders to a `$search` operator document) and a second revision of
    `CompoundDefinition`, declared in the namespace `Realm.Search` beside the one in
    `Realms.Search`. Its `Render` is proved to produce exactly what the other revision's
    does. */
module SearchDefinition {
  import opened Wrappers
  import opened Bson
  import Compound = CompoundDefinition
  import Autocomplete = AutocompleteDefinition

  /** The second revision: the same four lists, again made empty by the constructor, and
      the same minimum. */
  class CompoundDefinition {
    var mustClauses: Option<seq<Elements>>
    var shouldClauses: Option<seq<Elements>>
    var mustNotClauses: Option<seq<Elements>>
    var filterClauses: Option<seq<Elements>>
    var minimumShouldMatch: int

    constructor ()
      ensures mustClauses == Some([]) && shouldClauses == Some([])
      ensures mustNotClauses == Some([]) && filterClauses == Some([])
      ensures minimumShouldMatch == 0
    {
      mustClauses, shouldClauses, mustNotClauses, filterClauses := Some([]), Some([]), Some([]), Some([]);
      minimumShouldMatch := 0;
    }

    /** `ISearchDefinition.Render`: `{"compound": inner}` with the same inner document,
        key for key and in the same order, as the first revision's `Render` produces for
        the same lists and minimum. */
    method Render() returns (r: Elements)
      ensures r == [("compound", Doc(Compound.CompoundInner(mustClauses, mustNotClauses, shouldClauses, filterClauses, minimumShouldMatch)))]
    {
      Compound.FreshNames(mustClauses, mustNotClauses, shouldClauses, filterClauses);
      var document := new BsonDocument();
      document.AddIf(Compound.HasClauses(mustClauses), "must", Compound.Clauses(mustClauses));
      assert document.elements == Entry(Compound.HasClauses(mustClauses), "must", Compound.Clauses(mustClauses));
      document.AddIf(Compound.HasClauses(mustNotClauses), "mustNot", Compound.Clauses(mustNotClauses));
      document.AddIf(Compound.HasClauses(shouldClauses), "should", Compound.Clauses(shouldClauses));
      document.AddIf(Compound.HasClauses(filterClauses), "filter", Compound.Clauses(filterClauses));
      document.AddIf(minimumShouldMatch > 0, "minimumShouldMatch", Int(minimumShouldMatch));
      r := [("compound", Doc(document.elements))];
    }
  }

  /** `ISearchDefinition`, by the classes that implement it. */
  datatype SearchDefinition =
    | AutocompleteSearch(autocomplete: Autocomplete.AutocompleteDefinition)
    | CompoundSearch(compound: Compound.CompoundDefinition)
    | RevisedCompoundSearch(revised: CompoundDefinition)

  /** The objects a definition's rendering depends on. */
  function Objects(d: SearchDefinition): set<object>
  {
    match d
    case AutocompleteSearch(a) => if a.fuzzy.Some? then {a.fuzzy.value} else {}
    case CompoundSearch(c) => {c}
    case RevisedCompoundSearch(c) => {c}
  }

  /** What `ISearchDefinition.Render` produces: a one-element document naming the
      operator; only an autocomplete definition, through its score options, can fail. */
  function Rendering(d: SearchDefinition): (r: Result<Elements>)
    reads Objects(d)
    ensures r.Success? ==> |r.value| == 1
    ensures r.Success? ==> Keys(r.value) == if d.AutocompleteSearch? then ["autocomplete"] else ["compound"]
    ensures !d.AutocompleteSearch? ==> r.Success?
  {
    match d
    case AutocompleteSearch(a) => Autocomplete.AutocompleteDocument(a, Autocomplete.FuzzyRendering(a.fuzzy))
    case CompoundSearch(c) => Success([("compound", Doc(c.Inner()))])
    case RevisedCompoundSearch(c) =>
      Success([("compound", Doc(Compound.CompoundInner(c.mustClauses, c.mustNotClauses, c.shouldClauses, c.filterClauses, c.minimumShouldMatch)))])
  }

  /** The two revisions of `CompoundDefinition` render alike whenever they hold the same
      lists and minimum. */
  lemma RevisionsRenderAlike(first: Compound.CompoundDefinition, second: CompoundDefinition)
    requires first.mustClauses == second.mustClauses && first.mustNotClauses == second.mustNotClauses
    requires first.shouldClauses == second.shouldClauses && first.filterClauses == second.filterClauses
    requires first.minimumShouldMatch == second.minimumShouldMatch
    ensures Rendering(CompoundSearch(first)) == Rendering(RevisedCompoundSearch(second))
  {
  }

  /** `searchDefinition.Render()`, dispatched to the implementing class. */
  method RenderDefinition(d: SearchDefinition) returns (r: Result<Elements>)
    ensures r == Rendering(d)
  {
    match d
    case AutocompleteSearch(a) =>
      r := Autocomplete.Render(a);
    case CompoundSearch(c) =>
      var e := c.Render();
      r := Success(e);
    case RevisedCompoundSearch(c) =>
      var e := c.Render();
      r := Success(e);
  }
}
