/** `FuzzyOptions` (Realm.Search/Options/FuzzyOptions.cs): three settable integers with
    defaults; only the values that differ from their defaults are rendered. The values
    are not range-checked. */
module FuzzyOptions {
  import opened Wrappers
  import opened Bson

  const DefaultMaxEdits := 2
  const DefaultPrefixLength := 0
  const DefaultMaxExpansions := 50

  /** What `Render` produces for the given settings: `maxEdits`, `prefixLength` and
      `maxExpansions`, in that order, each present exactly when it differs from its
      default. */
  function FuzzyDocument(maxEdits: int, prefixLength: int, maxExpansions: int): (r: Elements)
    ensures Lookup(r, "maxEdits") == if maxEdits != DefaultMaxEdits then Some(Int(maxEdits)) else None
    ensures Lookup(r, "prefixLength") == if prefixLength != DefaultPrefixLength then Some(Int(prefixLength)) else None
    ensures Lookup(r, "maxExpansions") == if maxExpansions != DefaultMaxExpansions then Some(Int(maxExpansions)) else None
    ensures Keys(r) == (if maxEdits != DefaultMaxEdits then ["maxEdits"] else [])
                       + (if prefixLength != DefaultPrefixLength then ["prefixLength"] else [])
                       + (if maxExpansions != DefaultMaxExpansions then ["maxExpansions"] else [])
  {
    (if maxEdits != DefaultMaxEdits then [("maxEdits", Int(maxEdits))] else [])
    + (if prefixLength != DefaultPrefixLength then [("prefixLength", Int(prefixLength))] else [])
    + (if maxExpansions != DefaultMaxExpansions then [("maxExpansions", Int(maxExpansions))] else [])
  }

  /** An instance with every setting at its default renders an empty document. */
  lemma DefaultsRenderEmpty()
    ensures FuzzyDocument(DefaultMaxEdits, DefaultPrefixLength, DefaultMaxExpansions) == []
  {
  }

  class FuzzyOptions {
    var maxEdits: int
    var prefixLength: int
    var maxExpansions: int

    /** `new FuzzyOptions()`, before any property is set. */
    constructor ()
      ensures maxEdits == DefaultMaxEdits && prefixLength == DefaultPrefixLength
      ensures maxExpansions == DefaultMaxExpansions
    {
      maxEdits := DefaultMaxEdits;
      prefixLength := DefaultPrefixLength;
      maxExpansions := DefaultMaxExpansions;
    }

    function Document(): Elements
      reads this
    {
      FuzzyDocument(maxEdits, prefixLength, maxExpansions)
    }

    /** `Render`: fills a fresh document from the current settings. */
    method Render() returns (r: Elements)
      ensures r == FuzzyDocument(maxEdits, prefixLength, maxExpansions)
    {
      var result := new BsonDocument();
      if maxEdits != DefaultMaxEdits {
        result.Set("maxEdits", Int(maxEdits));
      }
      assert Keys(result.elements) == if maxEdits != DefaultMaxEdits then ["maxEdits"] else [];
      if prefixLength != DefaultPrefixLength {
        result.Set("prefixLength", Int(prefixLength));
      }
      ghost var afterTwo := Keys(result.elements);
      assert afterTwo == (if maxEdits != DefaultMaxEdits then ["maxEdits"] else [])
                         + (if prefixLength != DefaultPrefixLength then ["prefixLength"] else []);
      assert "maxExpansions" !in afterTwo;
      if maxExpansions != DefaultMaxExpansions {
        result.Set("maxExpansions", Int(maxExpansions));
      }
      r := result.elements;
    }
  }
}
