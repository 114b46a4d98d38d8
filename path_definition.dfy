/** `PathDefinition` (Realm.Search/SearchDefinitions/PathDefinition.cs): one field path
    or several, any of which may match; fixed when the definition is made. */
module PathDefinition {
  import opened Wrappers
  import opened Bson

  datatype PathDefinition = PathDefinition(value: BsonValue)

  /** The conversion from a single path. */
  function FromString(path: string): (r: PathDefinition)
    ensures r.value == Str(path)
  {
    PathDefinition(Str(path))
  }

  /** The conversion from an array of paths: an array holding each path, in order. No
      check is made, so an empty array gives an empty array. */
  function FromStrings(paths: seq<string>): (r: PathDefinition)
    ensures r.value.Arr? && |r.value.items| == |paths|
    ensures forall i :: 0 <= i < |paths| ==> r.value.items[i] == Str(paths[i])
    ensures ReadStrings(r.value.items) == Some(paths)
  {
    ReadStringArray(paths);
    PathDefinition(StringArray(paths))
  }
}
