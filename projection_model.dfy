/** `ProjectionModel` (Realm.Search/ISearchModel.cs): the base class of the projections
    a search returns. Its `Render` starts from the model's own serialisation, drops the
    discriminator `_t`, overlays the extra expressions one by one and then asks the
    server for highlights and scores through `$meta` fields. The serialisation itself is
    driven by the MongoDB driver's attributes and is not modelled: it is a field of the
    class. */
module ProjectionModel {
  import opened Wrappers
  import opened Bson

  /** `new BsonDocument("$meta", name)` */
  function Meta(name: string): BsonValue
  {
    Doc([("$meta", Str(name))])
  }

  /** The extra expressions assigned in order, each with `result[name] = value`. */
  function Overlay(d: Elements, extras: Elements): (r: Elements)
    decreases |extras|
  {
    if extras == [] then d
    else Assign(Overlay(d, extras[..|extras| - 1]), extras[|extras| - 1].0, extras[|extras| - 1].1)
  }

  /** The value of the last element named `k`: what `k` holds once every element has been
      assigned in order. */
  function LastLookup(extras: Elements, k: string): (r: Option<BsonValue>)
    ensures r.Some? <==> k in Keys(extras)
    decreases |extras|
  {
    if extras == [] then None
    else
      var init, last := extras[..|extras| - 1], extras[|extras| - 1];
      assert Keys(extras) == Keys(init) + [last.0] by {
        KeysAppend(init, [last]);
        assert init + [last] == extras;
      }
      if last.0 == k then Some(last.1) else LastLookup(init, k)
  }

  /** `result[flag] = {"$meta": flag}` when the flag is set. */
  function MetaIf(d: Elements, on: bool, name: string): Elements
  {
    if on then Assign(d, name, Meta(name)) else d
  }

  /** What `Render` produces from the serialised model, the extra expressions and the
      three flags. What it holds is stated by the lemmas below. */
  function Projection(
    serialized: Elements, extras: Option<Elements>, searchHighlights: bool, textScore: bool, searchScore: bool): Elements
  {
    var overlaid := Overlay(Without(serialized, "_t"), if extras.Some? then extras.value else []);
    MetaIf(MetaIf(MetaIf(overlaid, searchHighlights, "searchHighlights"), textScore, "textScore"), searchScore, "searchScore")
  }

  /** After the overlay, a name holds the last extra expression of that name, if there is
      one, and its value before the overlay otherwise. */
  lemma {:induction false} OverlayLookup(d: Elements, extras: Elements, k: string)
    ensures Lookup(Overlay(d, extras), k) == if k in Keys(extras) then LastLookup(extras, k) else Lookup(d, k)
    decreases |extras|
  {
    if extras != [] {
      var init := extras[..|extras| - 1];
      OverlayLookup(d, init, k);
      KeysAppend(init, [extras[|extras| - 1]]);
      assert init + [extras[|extras| - 1]] == extras;
    }
  }

  /** The overlay keeps every name where it was and appends only names of extra
      expressions. */
  lemma {:induction false} OverlayKeys(d: Elements, extras: Elements)
    ensures Keys(d) <= Keys(Overlay(d, extras))
    ensures forall k :: k in Keys(Overlay(d, extras)) ==> k in Keys(d) || k in Keys(extras)
    decreases |extras|
  {
    if extras != [] {
      var init := extras[..|extras| - 1];
      OverlayKeys(d, init);
      KeysAppend(init, [extras[|extras| - 1]]);
      assert init + [extras[|extras| - 1]] == extras;
    }
  }

  /** When the extra expressions have distinct names (as the elements of a document
      do), the last element of a name is its only one. */
  lemma {:induction false} LastLookupDistinct(extras: Elements, k: string)
    requires forall i, j :: 0 <= i < j < |extras| ==> extras[i].0 != extras[j].0
    ensures LastLookup(extras, k) == Lookup(extras, k)
    decreases |extras|
  {
    if extras != [] && extras[|extras| - 1].0 != k {
      var init := extras[..|extras| - 1];
      LastLookupDistinct(init, k);
      LookupAppend(init, [extras[|extras| - 1]], k);
      assert init + [extras[|extras| - 1]] == extras;
    } else if extras != [] {
      var init := extras[..|extras| - 1];
      LookupAppend(init, [extras[|extras| - 1]], k);
      assert init + [extras[|extras| - 1]] == extras;
      NameNotEarlier(init, extras[|extras| - 1].0, extras);
    }
  }

  /** A name that occurs at the end of distinctly named elements does not occur before. */
  lemma {:induction false} NameNotEarlier(init: Elements, k: string, extras: Elements)
    requires |extras| > 0 && init == extras[..|extras| - 1] && extras[|extras| - 1].0 == k
    requires forall i, j :: 0 <= i < j < |extras| ==> extras[i].0 != extras[j].0
    ensures k !in Keys(init)
  {
    forall i | 0 <= i < |init|
      ensures init[i].0 != k
    {
      assert init[i] == extras[i];
    }
    AbsentName(init, k);
  }

  /** A set flag always wins: its name holds the `$meta` request afterwards, whatever an
      extra expression put there. */
  lemma FlagsWin(serialized: Elements, extras: Option<Elements>, searchHighlights: bool, textScore: bool, searchScore: bool)
    ensures var r := Projection(serialized, extras, searchHighlights, textScore, searchScore);
      && (searchHighlights ==> Lookup(r, "searchHighlights") == Some(Meta("searchHighlights")))
      && (textScore ==> Lookup(r, "textScore") == Some(Meta("textScore")))
      && (searchScore ==> Lookup(r, "searchScore") == Some(Meta("searchScore")))
  {
  }

  /** A name other than `_t` that no extra expression and no set flag names keeps its
      serialised value. */
  lemma Untouched(serialized: Elements, extras: Option<Elements>, searchHighlights: bool, textScore: bool, searchScore: bool, k: string)
    requires k != "_t"
    requires extras.Some? ==> k !in Keys(extras.value)
    requires searchHighlights ==> k != "searchHighlights"
    requires textScore ==> k != "textScore"
    requires searchScore ==> k != "searchScore"
    ensures Lookup(Projection(serialized, extras, searchHighlights, textScore, searchScore), k) == Lookup(serialized, k)
  {
    OverlayLookup(Without(serialized, "_t"), if extras.Some? then extras.value else [], k);
  }

  /** Every extra expression ends up in the result with the value last given to its name,
      unless a set flag names it. */
  lemma ExtrasApplied(serialized: Elements, extras: Elements, searchHighlights: bool, textScore: bool, searchScore: bool, k: string)
    requires k in Keys(extras)
    requires searchHighlights ==> k != "searchHighlights"
    requires textScore ==> k != "textScore"
    requires searchScore ==> k != "searchScore"
    ensures Lookup(Projection(serialized, Some(extras), searchHighlights, textScore, searchScore), k) == LastLookup(extras, k)
  {
    OverlayLookup(Without(serialized, "_t"), extras, k);
  }

  /** `_t` is gone from the result unless an extra expression puts it back. */
  lemma DiscriminatorRemoved(serialized: Elements, extras: Option<Elements>, searchHighlights: bool, textScore: bool, searchScore: bool)
    requires extras.Some? ==> "_t" !in Keys(extras.value)
    ensures "_t" !in Keys(Projection(serialized, extras, searchHighlights, textScore, searchScore))
  {
    OverlayLookup(Without(serialized, "_t"), if extras.Some? then extras.value else [], "_t");
  }

  /** The serialised names other than `_t` keep their positions: they form a prefix of the
      result's names. */
  lemma PositionsKept(serialized: Elements, extras: Option<Elements>, searchHighlights: bool, textScore: bool, searchScore: bool)
    ensures Keys(Without(serialized, "_t")) <= Keys(Projection(serialized, extras, searchHighlights, textScore, searchScore))
  {
    var d0 := Without(serialized, "_t");
    var d1 := Overlay(d0, if extras.Some? then extras.value else []);
    var d2 := MetaIf(d1, searchHighlights, "searchHighlights");
    var d3 := MetaIf(d2, textScore, "textScore");
    OverlayKeys(d0, if extras.Some? then extras.value else []);
    PrefixKept(d1, searchHighlights, "searchHighlights");
    PrefixKept(d2, textScore, "textScore");
    PrefixKept(d3, searchScore, "searchScore");
    PrefixTransitive(Keys(d0), Keys(d1), Keys(d2));
    PrefixTransitive(Keys(d0), Keys(d2), Keys(d3));
    PrefixTransitive(Keys(d0), Keys(d3), Keys(MetaIf(d3, searchScore, "searchScore")));
  }

  /** Setting a flag's name keeps every name where it was. */
  lemma PrefixKept(d: Elements, on: bool, name: string)
    ensures Keys(d) <= Keys(MetaIf(d, on, name))
  {
  }

  lemma PrefixTransitive(a: seq<string>, b: seq<string>, c: seq<string>)
    requires a <= b && b <= c
    ensures a <= c
  {
    assert c[..|a|] == b[..|a|];
  }

  /** With no flag and no extra expressions, the result is the serialisation without
      `_t`. */
  lemma PlainProjection(serialized: Elements)
    ensures Projection(serialized, None, false, false, false) == Without(serialized, "_t")
  {
  }

  class ProjectionModel {
    /** `this.ToBsonDocument()`: the model's serialised properties. */
    var serialized: Elements
    var searchHighlights: bool
    var textScore: bool
    var searchScore: bool
    var extraExpressions: Option<Elements>

    /** A projection whose subclass serialises to `serialized`, with no flag set and no
        extra expressions. */
    constructor (serialized: Elements)
      ensures this.serialized == serialized && extraExpressions.None?
      ensures !searchHighlights && !textScore && !searchScore
    {
      this.serialized := serialized;
      searchHighlights, textScore, searchScore := false, false, false;
      extraExpressions := None;
    }

    function Document(): Elements
      reads this
    {
      Projection(serialized, extraExpressions, searchHighlights, textScore, searchScore)
    }

    /** `Render` */
    method Render() returns (r: Elements)
      ensures r == Projection(serialized, extraExpressions, searchHighlights, textScore, searchScore)
    {
      var result := new BsonDocument.FromElements(serialized);
      result.Remove("_t");
      if extraExpressions.Some? {
        var extras := extraExpressions.value;
        var i := 0;
        while i < |extras|
          invariant 0 <= i <= |extras|
          invariant result.elements == Overlay(Without(serialized, "_t"), extras[..i])
        {
          assert extras[..i + 1][..i] == extras[..i];
          result.Set(extras[i].0, extras[i].1);
          i := i + 1;
        }
        assert extras[..|extras|] == extras;
      }
      if searchHighlights {
        result.Set("searchHighlights", Meta("searchHighlights"));
      }
      if textScore {
        result.Set("textScore", Meta("textScore"));
      }
      if searchScore {
        result.Set("searchScore", Meta("searchScore"));
      }
      r := result.elements;
    }
  }
}
