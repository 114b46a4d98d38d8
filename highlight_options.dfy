/** `HighlightOptions` (Realm.Search/Options/HighlightOptions.cs): the field to
    highlight and two optional limits. A limit is rendered exactly when it was
    supplied; no default value is compared against. */
module HighlightOptions {
  import opened Wrappers
  import opened Bson

  datatype HighlightOptions = HighlightOptions(
    path: string,
    maxCharactersToExamine: Option<int>,
    maxNumPassages: Option<int>)

  /** The constructor `HighlightOptions(path, maxCharactersToExamine = null, maxNumPassages = null)`. */
  function NewHighlightOptions(path: string, maxCharactersToExamine: Option<int> := None, maxNumPassages: Option<int> := None): (r: HighlightOptions)
    ensures r.path == path && r.maxCharactersToExamine == maxCharactersToExamine
    ensures r.maxNumPassages == maxNumPassages
  {
    HighlightOptions(path, maxCharactersToExamine, maxNumPassages)
  }

  /** What `Render` produces: `path` first, then each supplied limit. */
  function HighlightDocument(h: HighlightOptions): (r: Elements)
    ensures |r| > 0 && r[0] == ("path", Str(h.path))
    ensures Lookup(r, "maxCharactersToExamine") ==
              if h.maxCharactersToExamine.Some? then Some(Int(h.maxCharactersToExamine.value)) else None
    ensures Lookup(r, "maxNumPassages") ==
              if h.maxNumPassages.Some? then Some(Int(h.maxNumPassages.value)) else None
    ensures Keys(r) == ["path"] + (if h.maxCharactersToExamine.Some? then ["maxCharactersToExamine"] else [])
                                + (if h.maxNumPassages.Some? then ["maxNumPassages"] else [])
  {
    [("path", Str(h.path))]
    + (if h.maxCharactersToExamine.Some? then [("maxCharactersToExamine", Int(h.maxCharactersToExamine.value))] else [])
    + (if h.maxNumPassages.Some? then [("maxNumPassages", Int(h.maxNumPassages.value))] else [])
  }

  /** `Render` */
  method Render(h: HighlightOptions) returns (r: Elements)
    ensures r == HighlightDocument(h)
  {
    var result := new BsonDocument.Of("path", Str(h.path));
    if h.maxCharactersToExamine.Some? {
      result.Set("maxCharactersToExamine", Int(h.maxCharactersToExamine.value));
    }
    ghost var afterTwo := Keys(result.elements);
    assert afterTwo == ["path"] + (if h.maxCharactersToExamine.Some? then ["maxCharactersToExamine"] else []);
    assert "maxNumPassages" !in afterTwo;
    if h.maxNumPassages.Some? {
      result.Set("maxNumPassages", Int(h.maxNumPassages.value));
    }
    r := result.elements;
  }

  /** Options made from a path alone render exactly `{"path": path}`. */
  lemma PathOnlyRendersPath(path: string)
    ensures HighlightDocument(NewHighlightOptions(path)) == [("path", Str(path))]
  {
  }
}
