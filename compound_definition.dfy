/** `CompoundDefinition` (Realm.Search/SearchDefinitions/CompoundDefinition.cs): four
    settable clause lists (each of which may be set to null) and a minimum number of
    should clauses, rendered as `{"compound": {...}}`. */
module CompoundDefinition {
  import opened Wrappers
  import opened Bson

  /** `new BsonArray(clauses)`: the clause documents, in list order. */
  function ClauseArray(clauses: seq<Elements>): (r: BsonValue)
    ensures r.Arr? && |r.items| == |clauses|
    ensures forall i :: 0 <= i < |clauses| ==> r.items[i] == Doc(clauses[i])
  {
    Arr(seq(|clauses|, i requires 0 <= i < |clauses| => Doc(clauses[i])))
  }

  /** `list?.Any() == true`: the list is set and not empty. */
  predicate HasClauses(clauses: Option<seq<Elements>>)
  {
    clauses.Some? && |clauses.value| > 0
  }

  /** The array a set clause list renders to (an empty array for a null list, which is
      never rendered). */
  function Clauses(clauses: Option<seq<Elements>>): BsonValue
  {
    if clauses.Some? then ClauseArray(clauses.value) else Arr([])
  }

  /** The `compound` document: one entry per clause kind, in the order the source adds
      them. What this means is stated by `CompoundKeys` and `CompoundLookups`. */
  function CompoundInner(
    must: Option<seq<Elements>>, mustNot: Option<seq<Elements>>, should: Option<seq<Elements>>,
    filter: Option<seq<Elements>>, minimumShouldMatch: int): Elements
  {
    Entry(HasClauses(must), "must", Clauses(must))
    + Entry(HasClauses(mustNot), "mustNot", Clauses(mustNot))
    + Entry(HasClauses(should), "should", Clauses(should))
    + Entry(HasClauses(filter), "filter", Clauses(filter))
    + Entry(minimumShouldMatch > 0, "minimumShouldMatch", Int(minimumShouldMatch))
  }

  /** The names in the `compound` document: `must`, `mustNot`, `should` and `filter`, in
      that order, each exactly when its list is set and non-empty; then
      `minimumShouldMatch` exactly when it is positive. */
  lemma CompoundKeys(
    must: Option<seq<Elements>>, mustNot: Option<seq<Elements>>, should: Option<seq<Elements>>,
    filter: Option<seq<Elements>>, minimumShouldMatch: int)
    ensures Keys(CompoundInner(must, mustNot, should, filter, minimumShouldMatch))
            == (if HasClauses(must) then ["must"] else [])
               + (if HasClauses(mustNot) then ["mustNot"] else [])
               + (if HasClauses(should) then ["should"] else [])
               + (if HasClauses(filter) then ["filter"] else [])
               + (if minimumShouldMatch > 0 then ["minimumShouldMatch"] else [])
  {
    var e1 := Entry(HasClauses(must), "must", Clauses(must));
    var e2 := Entry(HasClauses(mustNot), "mustNot", Clauses(mustNot));
    var e3 := Entry(HasClauses(should), "should", Clauses(should));
    var e4 := Entry(HasClauses(filter), "filter", Clauses(filter));
    var e5 := Entry(minimumShouldMatch > 0, "minimumShouldMatch", Int(minimumShouldMatch));
    KeysAppend(e1, e2);
    KeysAppend(e1 + e2, e3);
    KeysAppend(e1 + e2 + e3, e4);
    KeysAppend(e1 + e2 + e3 + e4, e5);
  }

  /** What each name of the `compound` document holds: the clause list, when it is set
      and non-empty, and the minimum, when it is positive; nothing otherwise. */
  lemma CompoundLookups(
    must: Option<seq<Elements>>, mustNot: Option<seq<Elements>>, should: Option<seq<Elements>>,
    filter: Option<seq<Elements>>, minimumShouldMatch: int)
    ensures var r := CompoundInner(must, mustNot, should, filter, minimumShouldMatch);
      && Lookup(r, "must") == (if HasClauses(must) then Some(ClauseArray(must.value)) else None)
      && Lookup(r, "mustNot") == (if HasClauses(mustNot) then Some(ClauseArray(mustNot.value)) else None)
      && Lookup(r, "should") == (if HasClauses(should) then Some(ClauseArray(should.value)) else None)
      && Lookup(r, "filter") == (if HasClauses(filter) then Some(ClauseArray(filter.value)) else None)
      && Lookup(r, "minimumShouldMatch") == (if minimumShouldMatch > 0 then Some(Int(minimumShouldMatch)) else None)
  {
    var e1 := Entry(HasClauses(must), "must", Clauses(must));
    var e2 := Entry(HasClauses(mustNot), "mustNot", Clauses(mustNot));
    var e3 := Entry(HasClauses(should), "should", Clauses(should));
    var e4 := Entry(HasClauses(filter), "filter", Clauses(filter));
    var e5 := Entry(minimumShouldMatch > 0, "minimumShouldMatch", Int(minimumShouldMatch));
    FiveParts(e1, e2, e3, e4, e5, "must", "mustNot", "should", "filter", "minimumShouldMatch");
    LookupEntry(HasClauses(must), "must", Clauses(must));
    LookupEntry(HasClauses(mustNot), "mustNot", Clauses(mustNot));
    LookupEntry(HasClauses(should), "should", Clauses(should));
    LookupEntry(HasClauses(filter), "filter", Clauses(filter));
    LookupEntry(minimumShouldMatch > 0, "minimumShouldMatch", Int(minimumShouldMatch));
  }

  /** The names `Render` adds are not yet present when it adds them. */
  lemma {:induction false} FreshNames(
    must: Option<seq<Elements>>, mustNot: Option<seq<Elements>>, should: Option<seq<Elements>>,
    filter: Option<seq<Elements>>)
    ensures "mustNot" !in Keys(Entry(HasClauses(must), "must", Clauses(must)))
    ensures "should" !in Keys(Entry(HasClauses(must), "must", Clauses(must))
                              + Entry(HasClauses(mustNot), "mustNot", Clauses(mustNot)))
    ensures "filter" !in Keys(Entry(HasClauses(must), "must", Clauses(must))
                              + Entry(HasClauses(mustNot), "mustNot", Clauses(mustNot))
                              + Entry(HasClauses(should), "should", Clauses(should)))
    ensures "minimumShouldMatch" !in Keys(Entry(HasClauses(must), "must", Clauses(must))
                              + Entry(HasClauses(mustNot), "mustNot", Clauses(mustNot))
                              + Entry(HasClauses(should), "should", Clauses(should))
                              + Entry(HasClauses(filter), "filter", Clauses(filter)))
  {
    var e1 := Entry(HasClauses(must), "must", Clauses(must));
    var e2 := Entry(HasClauses(mustNot), "mustNot", Clauses(mustNot));
    var e3 := Entry(HasClauses(should), "should", Clauses(should));
    var e4 := Entry(HasClauses(filter), "filter", Clauses(filter));
    KeysAppend(e1, e2);
    KeysAppend(e1 + e2, e3);
    KeysAppend(e1 + e2 + e3, e4);
  }

  /** A compound with no clauses and no minimum renders an empty `compound` document. */
  lemma EmptyCompoundIsEmpty()
    ensures CompoundInner(Some([]), Some([]), Some([]), Some([]), 0) == []
    ensures CompoundInner(None, None, None, None, 0) == []
  {
  }

  /** One must clause, one should clause and a minimum of one render as
      `{"must": [a], "should": [b], "minimumShouldMatch": 1}`. */
  lemma MustShouldExample(a: Elements, b: Elements)
    ensures CompoundInner(Some([a]), Some([]), Some([b]), Some([]), 1)
            == [("must", Arr([Doc(a)])), ("should", Arr([Doc(b)])), ("minimumShouldMatch", Int(1))]
  {
    assert ClauseArray([a]).items == [Doc(a)];
    assert ClauseArray([b]).items == [Doc(b)];
  }

  class CompoundDefinition {
    var mustClauses: Option<seq<Elements>>
    var shouldClauses: Option<seq<Elements>>
    var mustNotClauses: Option<seq<Elements>>
    var filterClauses: Option<seq<Elements>>
    var minimumShouldMatch: int

    /** `new CompoundDefinition()`: four empty lists and a minimum of 0. */
    constructor ()
      ensures mustClauses == Some([]) && shouldClauses == Some([])
      ensures mustNotClauses == Some([]) && filterClauses == Some([])
      ensures minimumShouldMatch == 0
    {
      mustClauses, shouldClauses, mustNotClauses, filterClauses := Some([]), Some([]), Some([]), Some([]);
      minimumShouldMatch := 0;
    }

    function Inner(): Elements
      reads this
    {
      CompoundInner(mustClauses, mustNotClauses, shouldClauses, filterClauses, minimumShouldMatch)
    }

    /** `Render`: exactly `{"compound": inner}`. It changes nothing, the clause lists
        included. */
    method Render() returns (r: Elements)
      ensures r == [("compound", Doc(CompoundInner(mustClauses, mustNotClauses, shouldClauses, filterClauses, minimumShouldMatch)))]
    {
      FreshNames(mustClauses, mustNotClauses, shouldClauses, filterClauses);
      var document := new BsonDocument();
      document.AddIf(HasClauses(mustClauses), "must", Clauses(mustClauses));
      assert document.elements == Entry(HasClauses(mustClauses), "must", Clauses(mustClauses));
      document.AddIf(HasClauses(mustNotClauses), "mustNot", Clauses(mustNotClauses));
      document.AddIf(HasClauses(shouldClauses), "should", Clauses(shouldClauses));
      document.AddIf(HasClauses(filterClauses), "filter", Clauses(filterClauses));
      document.AddIf(minimumShouldMatch > 0, "minimumShouldMatch", Int(minimumShouldMatch));
      r := [("compound", Doc(document.elements))];
    }
  }
}
