# Realm.Search query builder, modelled in Dafny

Realm.Search is a C# library that builds MongoDB Atlas Search queries for Realm apps. A search
is described by small definition objects: autocomplete, compound, text, phrase and geoWithin
operators, plus options for score, fuzzy matching and highlighting, and GeoJSON shapes. Each
object renders itself into an ordered BSON document. `SearchClient` combines the rendering of
a definition, a highlight request, the index name, a result limit and a projection into the
aggregation pipeline `$search`, `$limit`, `$project`. `ProjectionHelper` picks the projection:
an explicit one, or the model type's default projection, which it looks up once per type and
remembers. `ProjectionModel.Render` builds the projection document. The source generator
contributes two text helpers, `Indent` and `IsAutomaticProperty`.

The model keeps the library's own structure:

- **BSON documents.** A BSON document is an ordered sequence of `(name, value)` pairs
  (`Bson.Elements`). Numbers that are only carried are the opaque type `Bson.Double`.
- **Mutated documents.** A document that the code changes in place is a `Bson.BsonDocument`
  object. Its `Set`, `Add` and `Remove` are pinned to the pure functions `Assign`, an append
  and `Without`.
- **Classes.** A C# class with settable properties is a Dafny class: `FuzzyOptions`, both
  revisions of `CompoundDefinition`, `ProjectionModel`, `ProjectionHelper` and `SearchClient`.
  A class whose properties are fixed at construction is a datatype.
- **Specifications.** Each `Render` method is proved equal to a declarative function. The
  names, order and values of that function's result are stated in its own contract or in
  lemmas beside it: which keys appear, in what order, and with what values.
- **Failures.** Exceptions become `Failure` values of `Wrappers.Result`. The constants
  `OperatorName` hold the operator names of the definitions.
- **Operator definitions.** `ISearchDefinition` is the datatype
  `SearchDefinition.SearchDefinition` over the classes that `SearchClient` can receive.

## Model

| member | source | states |
|---|---|---|
| SearchQueryDefinition.FromString | Realm.Search/SearchDefinitions/QueryDefinition.cs:24-25 | a query string becomes a BSON string with the same text |
| SearchQueryDefinition.FromStrings | Realm.Search/SearchDefinitions/QueryDefinition.cs:34-35 | query terms become a BSON array of strings, one per term, in order (an empty array included), and that array reads back as the terms |
| QueryDefinition.FromString | Realm.Search/QueryDefinition.cs:17-18 | the duplicate conversion from a string: a BSON string with the same text |
| QueryDefinition.FromStrings | Realm.Search/QueryDefinition.cs:20-21 | the duplicate conversion from terms: one BSON string per term, in order, and it reads back as the terms |
| QueryDefinition.RevisionsAgree | Realm.Search/QueryDefinition.cs:10-21 | both `QueryDefinition` declarations convert every string and every term array to the same value |
| PathDefinition.FromString | Realm.Search/SearchDefinitions/PathDefinition.cs:23-24 | a path becomes a BSON string |
| PathDefinition.FromStrings | Realm.Search/SearchDefinitions/PathDefinition.cs:33-34 | paths become a BSON array of the same length and order, with no validation of an empty array, and it reads back as the paths |
| ScoreOptions.BoostByValue | Realm.Search/Options/ScoreOptions.cs:168-171 | the value form of `BoostOptions` holds the value and no path |
| ScoreOptions.BoostByPath | Realm.Search/Options/ScoreOptions.cs:173-177 | the path form fails with ArgumentNull("path") exactly when the path is null, and otherwise holds the path and `undefined` |
| ScoreOptions.BoostDocument | Realm.Search/Options/ScoreOptions.cs:179-200 | `{value}` for the value form; `{path}` then `undefined` exactly when one was supplied for the path form; an invalid-state failure exactly when neither form is set |
| ScoreOptions.RenderBoost | Realm.Search/Options/ScoreOptions.cs:179-200 | `BoostOptions.Render` fills a fresh document to exactly `BoostDocument` |
| ScoreOptions.RenderConstant | Realm.Search/Options/ScoreOptions.cs:212 | `ConstantOptions.Render` is exactly `{"value": v}` |
| ScoreOptions.AutocompleteScoreDocument | Realm.Search/Options/ScoreOptions.cs:28-45 | a single key, `boost` when that variant is set, else `constant`; the fixed failure message when neither is set |
| ScoreOptions.RenderAutocompleteScore | Realm.Search/Options/ScoreOptions.cs:28-45 | the if/else-if chain produces exactly `AutocompleteScoreDocument` |
| ScoreOptions.AutocompleteBoost | Realm.Search/Options/ScoreOptions.cs:13-14 | the factory's options render to `{"boost": {"value": v}}`, so they never fail |
| ScoreOptions.AutocompleteBoostByPath | Realm.Search/Options/ScoreOptions.cs:16-17 | fails with ArgumentNull("path") exactly for a null path; otherwise renders exactly `{"boost": {"path": p}}`, with `"undefined": u` after the path when a default score was supplied |
| ScoreOptions.AutocompleteConstant | Realm.Search/Options/ScoreOptions.cs:19-20 | the factory's options render to `{"constant": {"value": v}}` |
| ScoreOptions.ScoreDocument | Realm.Search/Options/ScoreOptions.cs:75-96 | a single key, in the priority boost, constant, function; the function expression is emitted verbatim; the fixed failure message when no variant is set |
| ScoreOptions.RenderScore | Realm.Search/Options/ScoreOptions.cs:75-96 | the chain produces exactly `ScoreDocument` |
| ScoreOptions.ScoreBoost | Realm.Search/Options/ScoreOptions.cs:56-57 | renders to `{"boost": {"value": v}}` |
| ScoreOptions.ScoreBoostByPath | Realm.Search/Options/ScoreOptions.cs:59-60 | fails with ArgumentNull("path") exactly for a null path; otherwise renders exactly `{"boost": {"path": p}}`, with `"undefined": u` after the path when a default score was supplied |
| ScoreOptions.ScoreConstant | Realm.Search/Options/ScoreOptions.cs:62-63 | renders to `{"constant": {"value": v}}` |
| ScoreOptions.ScoreFunction | Realm.Search/Options/ScoreOptions.cs:65-66 | fails with ArgumentNull("function") exactly for null; otherwise renders to `{"function": expression}` |
| ScoreOptions.AggregateName | Realm.Search/Options/ScoreOptions.cs:232 | the strategy's declared member name (ScoreOptions.cs:244-250) with its capitals made small |
| ScoreOptions.EmbeddedDocument | Realm.Search/Options/ScoreOptions.cs:227-241 | `aggregate` (as the lower-case name) exactly when it is not Sum, then `outerScope` exactly when set; fails exactly when the outer scope fails; Sum with no outer scope gives `{}` |
| ScoreOptions.RenderEmbedded | Realm.Search/Options/ScoreOptions.cs:227-241 | `EmbeddedOptions.Render` produces exactly `EmbeddedDocument` |
| ScoreOptions.EmbeddedScoreDocument | Realm.Search/Options/ScoreOptions.cs:132-157 | a single key, in the priority boost, constant, function, embedded; the message naming AutocompleteScoreOptions when none is set |
| ScoreOptions.RenderEmbeddedScore | Realm.Search/Options/ScoreOptions.cs:132-157 | the chain produces exactly `EmbeddedScoreDocument` |
| ScoreOptions.EmbeddedBoost | Realm.Search/Options/ScoreOptions.cs:109-110 | renders to `{"boost": {"value": v}}` |
| ScoreOptions.EmbeddedBoostByPath | Realm.Search/Options/ScoreOptions.cs:112-113 | fails with ArgumentNull("path") exactly for a null path; otherwise renders exactly `{"boost": {"path": p}}`, with `"undefined": u` after the path when a default score was supplied |
| ScoreOptions.EmbeddedConstant | Realm.Search/Options/ScoreOptions.cs:115-116 | renders to `{"constant": {"value": v}}` |
| ScoreOptions.EmbeddedFunction | Realm.Search/Options/ScoreOptions.cs:118-119 | fails exactly for null; otherwise renders to `{"function": expression}` |
| ScoreOptions.Embedded | Realm.Search/Options/ScoreOptions.cs:121-122 | renders `{"embedded": e}`, where `e` is what the embedded options made of the given aggregate and outer scope render to, exactly when its outer scope renders (else that failure); with the defaults it renders `{"embedded": {}}` |
| ScoreOptions.EmbeddedOfFactoryScoreRenders | Realm.Search/Options/ScoreOptions.cs:56-122 | an outer scope made by any `ScoreOptions` factory never makes the embedded options fail |
| FuzzyOptions.FuzzyDocument | Realm.Search/Options/FuzzyOptions.cs:15-34 | `maxEdits` exactly when it is not 2, `prefixLength` exactly when it is not 0, `maxExpansions` exactly when it is not 50, each with its value, in that order, with no range check |
| FuzzyOptions.DefaultsRenderEmpty | Realm.Search/Options/FuzzyOptions.cs:9-34 | options with every setting at its default render an empty document |
| FuzzyOptions.FuzzyOptions.constructor | Realm.Search/Options/FuzzyOptions.cs:9-13 | the defaults are 2, 0 and 50 |
| FuzzyOptions.FuzzyOptions.Render | Realm.Search/Options/FuzzyOptions.cs:15-34 | the step-by-step fill of a fresh document gives exactly `FuzzyDocument` of the current settings |
| HighlightOptions.NewHighlightOptions | Realm.Search/Options/HighlightOptions.cs:13-18 | the constructor stores the path and both limits, which default to null |
| HighlightOptions.HighlightDocument | Realm.Search/Options/HighlightOptions.cs:20-35 | `path` always, and first; `maxCharactersToExamine` and then `maxNumPassages` exactly when supplied, with their values |
| HighlightOptions.Render | Realm.Search/Options/HighlightOptions.cs:20-35 | the in-place fill gives exactly `HighlightDocument` |
| HighlightOptions.PathOnlyRendersPath | Realm.Search/Options/HighlightOptions.cs:13-35 | `new HighlightOptions(p)` renders exactly `{"path": p}` |
| GeoPoint.RenderCoordinates | Realm.Search/GeoModels/Point.cs:29 | the coordinates are `[longitude, latitude]`, the position order of section 3.1.1 of RFC 7946 |
| GeoPoint.ReadRenderedPosition | Realm.Search/GeoModels/Point.cs:22-29 | reading the coordinates back gives the point: nothing is lost or swapped |
| GeoPoint.Equals | Realm.Search/GeoModels/Point.cs:32-41 | true exactly for another point with equal latitude and longitude; false for any other object |
| GeoPoint.EqualsSymmetric | Realm.Search/GeoModels/Point.cs:32-41 | `Equals` between points is symmetric |
| GeoLineString.RenderCoordinates | Realm.Search/GeoModels/LineString.cs:30 | one position per point, in point order, each the point's `[lon, lat]` |
| GeoLineString.ReadRenderedLineString | Realm.Search/GeoModels/LineString.cs:24-30 | the coordinates read back as exactly the points given to the unvalidated constructor |
| GeoPolygon.RingFailure | Realm.Search/GeoModels/Polygon.cs:42-46 | the ring loop fails exactly when some ring has at most three points or differing first and last points, with one of the two fixed messages |
| GeoPolygon.FirstBadRingReported | Realm.Search/GeoModels/Polygon.cs:42-46 | the failure is that of the first ring that is not closed: the size message when it has at most three points, the closing message otherwise |
| GeoPolygon.PolygonFrom | Realm.Search/GeoModels/Polygon.cs:38-49 | the constructor succeeds exactly for at least one ring, each with more than three points and closed; it then keeps the rings as given; no rings gives the first message |
| GeoPolygon.NewPolygon | Realm.Search/GeoModels/Polygon.cs:38-49 | the validating loop over the rings gives exactly `PolygonFrom` |
| GeoPolygon.RenderCoordinates | Realm.Search/GeoModels/Polygon.cs:52 | the coordinates of each ring, in ring order |
| GeoPolygon.ConstructedRingsAreLinearRings | Realm.Search/GeoModels/Polygon.cs:38-52 | every ring of a constructed polygon renders as a linear ring of section 3.1.6 of RFC 7946: four or more positions, the first equal to the last |
| GeoPolygon.ReadRenderedPolygon | Realm.Search/GeoModels/Polygon.cs:52 | the coordinates read back as exactly the rings |
| GeoMultiPolygon.NewMultiPolygon | Realm.Search/GeoModels/MultiPolygon.cs:24-29 | succeeds exactly for one or more polygons, keeping them as given; otherwise fails with the fixed message |
| GeoMultiPolygon.Type | Realm.Search/GeoModels/MultiPolygon.cs:18 | always fails with NotImplemented |
| GeoMultiPolygon.RenderCoordinates | Realm.Search/GeoModels/MultiPolygon.cs:32 | the coordinates of each polygon, in polygon order |
| GeoJson.Type | Realm.Search/GeoModels/GeoJson.cs:14 | the subclasses' `Type`: "Point", "LineString" and "Polygon" for the three shapes; a failure exactly for a multipolygon |
| GeoJson.Render | Realm.Search/GeoModels/GeoJson.cs:33-37 | exactly `type` then `coordinates`, holding the shape's type and coordinates; fails exactly when `Type` fails, with its error |
| GeoJson.RenderPoint | Realm.Search/GeoModels/GeoJson.cs:33-37 | a point always renders |
| GeoJson.RenderPolygon | Realm.Search/GeoModels/GeoJson.cs:33-37 | a polygon always renders |
| GeoJson.ReadRenderedPoint | Realm.Search/GeoModels/GeoJson.cs:33-37 | a rendered point reads back as the point |
| GeoJson.ReadRenderedPolygonObject | Realm.Search/GeoModels/GeoJson.cs:33-37 | a rendered polygon reads back as the polygon |
| GeoCircle.Render | Realm.Search/GeoModels/Circle.cs:33-40 | exactly `center` then `radius`: the centre as a GeoJSON point and the radius unchanged (negative too) |
| GeoCircle.ReadRenderedCircle | Realm.Search/GeoModels/Circle.cs:27-40 | a rendered circle reads back as the circle |
| GeoBox.Render | Realm.Search/GeoModels/Box.cs:33-37 | exactly `bottomLeft` then the misspelt `topRigth`, each a GeoJSON point rendering |
| GeoBox.ReadRenderedBox | Realm.Search/GeoModels/Box.cs:27-37 | a rendered box reads back as its corners, stored as given and unordered |
| CompoundDefinition.ClauseArray | Realm.Search/SearchDefinitions/CompoundDefinition.cs:58 | `new BsonArray(clauses)` holds each clause document, in list order |
| CompoundDefinition.CompoundKeys | Realm.Search/SearchDefinitions/CompoundDefinition.cs:56-77 | the names are `must`, `mustNot`, `should`, `filter`, each exactly when its list is set and not empty, then `minimumShouldMatch` exactly when it is positive, in that order |
| CompoundDefinition.CompoundLookups | Realm.Search/SearchDefinitions/CompoundDefinition.cs:56-77 | each clause name holds the array of its list, in order; `minimumShouldMatch` holds the minimum; an absent name looks up nothing |
| CompoundDefinition.EmptyCompoundIsEmpty | Realm.Search/SearchDefinitions/CompoundDefinition.cs:21-55 | a fresh compound, and one with null lists, renders an empty inner document |
| CompoundDefinition.MustShouldExample | Realm.Search/SearchDefinitions/CompoundDefinition.cs:56-77 | one must clause, one should clause and a minimum of 1 render as `{must: [a], should: [b], minimumShouldMatch: 1}` |
| CompoundDefinition.CompoundDefinition.constructor | Realm.Search/SearchDefinitions/CompoundDefinition.cs:21-51 | four empty lists and a minimum of 0 |
| CompoundDefinition.CompoundDefinition.Render | Realm.Search/SearchDefinitions/CompoundDefinition.cs:53-80 | the `Add` steps produce exactly `{"compound": CompoundInner(...)}` of the current lists and change no field |
| SearchDefinition.CompoundDefinition.constructor | Realm.Search/SearchDefinitions/SearchDefinition.cs:17-25 | the second revision starts with four empty lists and a minimum of 0 |
| SearchDefinition.CompoundDefinition.Render | Realm.Search/SearchDefinitions/SearchDefinition.cs:27-55 | the second revision's `Add` steps produce the same `{"compound": CompoundInner(...)}` as the first revision |
| SearchDefinition.Rendering | Realm.Search/SearchDefinitions/SearchDefinition.cs:10-13 | an `ISearchDefinition` renders to a one-element document named `autocomplete` or `compound`; only an autocomplete definition can fail |
| SearchDefinition.RevisionsRenderAlike | Realm.Search/SearchDefinitions/SearchDefinition.cs:27-55 | the two revisions of `CompoundDefinition` render alike whenever they hold the same lists and minimum |
| SearchDefinition.RenderDefinition | Realm.Search/SearchDefinitions/SearchDefinition.cs:10-13 | `searchDefinition.Render()` dispatches to the implementing class and gives exactly `Rendering` |
| AutocompleteDefinition.AutocompleteKeys | Realm.Search/SearchDefinitions/AutocompleteDefinition.cs:63-82 | the names are `query`, `path`, then `tokenOrder` exactly for Sequential, `fuzzy` exactly when set and `score` exactly when set, in that order |
| AutocompleteDefinition.AutocompleteLookups | Realm.Search/SearchDefinitions/AutocompleteDefinition.cs:63-82 | `query` holds the query value, `path` the path, `tokenOrder` "sequential", `fuzzy` and `score` their renderings, and absent names nothing |
| AutocompleteDefinition.AutocompleteOutcome | Realm.Search/SearchDefinitions/AutocompleteDefinition.cs:61-85 | rendering fails exactly when the score options fail, with their error; otherwise the result is the single name `autocomplete` |
| AutocompleteDefinition.NewAutocomplete | Realm.Search/SearchDefinitions/AutocompleteDefinition.cs:52-59 | the constructor stores the query, the path, the token order (Any by default) and the optional fuzzy and score options as given |
| AutocompleteDefinition.TokenOrderName | Realm.Search/SearchDefinitions/AutocompleteDefinition.cs:71 | the token order's declared member name (AutocompleteDefinition.cs:91-105) with its capitals made small |
| AutocompleteDefinition.QueryAndPathOnly | Realm.Search/SearchDefinitions/AutocompleteDefinition.cs:52-85 | a definition built from a query and a path alone renders exactly `{"autocomplete": {"query": q, "path": p}}` |
| AutocompleteDefinition.RenderFuzzy | Realm.Search/SearchDefinitions/AutocompleteDefinition.cs:74-77 | `Fuzzy?.Render()` is the fuzzy options' current document, or nothing |
| AutocompleteDefinition.RenderScore | Realm.Search/SearchDefinitions/AutocompleteDefinition.cs:79-82 | `Score?.Render()` is the score document, its failure, or nothing |
| AutocompleteDefinition.RenderInner | Realm.Search/SearchDefinitions/AutocompleteDefinition.cs:63-82 | the in-place steps build exactly `AutocompleteInner` |
| AutocompleteDefinition.Render | Realm.Search/SearchDefinitions/AutocompleteDefinition.cs:61-85 | `Render` gives exactly `AutocompleteDocument` with the fuzzy options' current rendering |
| TextDefinition.WithFuzzy | Realm.Search/SearchDefinitions/TextDefinition.cs:30-33 | the fuzzy constructor keeps its arguments and leaves the synonyms null |
| TextDefinition.WithSynonyms | Realm.Search/SearchDefinitions/TextDefinition.cs:42-46 | the synonyms constructor sets the synonyms and gives the base no fuzzy options |
| TextDefinition.NeverFuzzyAndSynonyms | Realm.Search/SearchDefinitions/TextDefinition.cs:30-46 | no text definition has both fuzzy options and synonyms |
| TextDefinition.Populated | Realm.Search/SearchDefinitions/TextDefinition.cs:49-57 | `synonyms` holds the synonyms exactly when they are set; every other name keeps its base value; a new name is appended after the base names |
| TextDefinition.PopulateDefinition | Realm.Search/SearchDefinitions/TextDefinition.cs:49-57 | the base population, then the synonyms assignment, leave the document as `Populated` |
| PhraseDefinition.NewPhrase | Realm.Search/SearchDefinitions/PhraseDefinition.cs:33-37 | the constructor keeps its arguments |
| PhraseDefinition.DefaultSlopAddsNothing | Realm.Search/SearchDefinitions/PhraseDefinition.cs:33-47 | without an explicit slop, the slop is 0 and the base document is left unchanged |
| PhraseDefinition.Populated | Realm.Search/SearchDefinitions/PhraseDefinition.cs:40-48 | `slop` holds the slop exactly when it is not 0 (negatives included); every other name keeps its base value; a new name is appended |
| PhraseDefinition.PopulateDefinition | Realm.Search/SearchDefinitions/PhraseDefinition.cs:40-48 | the base population, then the slop assignment, leave the document as `Populated` |
| GeoWithinDefinition.FromCircle | Realm.Search/SearchDefinitions/GeoWithinDefinition.cs:27-28 | the definition stores the key `circle` and the circle's rendering, made once at construction, which reads back as the circle; path and score as given |
| GeoWithinDefinition.FromBox | Realm.Search/SearchDefinitions/GeoWithinDefinition.cs:36-37 | the definition stores the key `box` and the box's rendering, made once at construction, which reads back as the box; path and score as given |
| GeoWithinDefinition.FromPolygon | Realm.Search/SearchDefinitions/GeoWithinDefinition.cs:45-46 | the polygon goes under `geometry` as its GeoJSON rendering, which reads back as the polygon |
| GeoWithinDefinition.FromMultiPolygon | Realm.Search/SearchDefinitions/GeoWithinDefinition.cs:54-55 | construction from a multipolygon always fails with NotImplemented, because the eager rendering asks for its `Type` |
| GeoWithinDefinition.Populated | Realm.Search/SearchDefinitions/GeoWithinDefinition.cs:65-68 | the shape's key holds the geometry; every other name keeps its value; the names grow by exactly that key when it was absent |
| GeoWithinDefinition.PopulateDefinition | Realm.Search/SearchDefinitions/GeoWithinDefinition.cs:65-68 | the single assignment, with no base population, leaves the document as `Populated` |
| ProjectionModel.OverlayLookup | Realm.Search/ISearchModel.cs:38-44 | after the overlay a name holds the last extra expression of that name, if any, and its earlier value otherwise |
| ProjectionModel.OverlayKeys | Realm.Search/ISearchModel.cs:38-44 | the overlay keeps every name in place and adds only names of extra expressions |
| ProjectionModel.LastLookupDistinct | Realm.Search/ISearchModel.cs:40-43 | for the distinct names of a BSON document, the last expression of a name is its only one |
| ProjectionModel.FlagsWin | Realm.Search/ISearchModel.cs:46-59 | a set flag's name holds `{"$meta": name}`, whatever an extra expression put there |
| ProjectionModel.Untouched | Realm.Search/ISearchModel.cs:35-59 | a name other than `_t` that no extra expression and no set flag names keeps its serialised value |
| ProjectionModel.ExtrasApplied | Realm.Search/ISearchModel.cs:38-44 | every extra expression's name holds its last value unless a set flag names it |
| ProjectionModel.DiscriminatorRemoved | Realm.Search/ISearchModel.cs:35-36 | `_t` is gone unless an extra expression puts it back |
| ProjectionModel.PositionsKept | Realm.Search/ISearchModel.cs:35-59 | the serialised names other than `_t` keep their positions: they are a prefix of the result's names |
| ProjectionModel.PlainProjection | Realm.Search/ISearchModel.cs:33-61 | with no flag and no extra expressions, the result is the serialisation without `_t` |
| ProjectionModel.ProjectionModel.constructor | Realm.Search/ISearchModel.cs:21-31 | a projection starts with no flag set and no extra expressions |
| ProjectionModel.ProjectionModel.Render | Realm.Search/ISearchModel.cs:33-62 | the removal, the overlay loop and the flag assignments give exactly `Projection` of the current state |
| ProjectionHelper.CacheAfter | Realm.Search/Helpers/ProjectionHelper.cs:16-22 | an explicit projection leaves the cache alone; otherwise the type has an entry afterwards, no entry is replaced, no other type is added, and a new entry is the factory's value |
| ProjectionHelper.SecondLookupKeepsCache | Realm.Search/Helpers/ProjectionHelper.cs:22 | a second lookup of the same type changes nothing, whatever factory it passes: the factory's value is used once per type |
| ProjectionHelper.Chosen | Realm.Search/Helpers/ProjectionHelper.cs:16-23 | the explicit projection when there is one, otherwise the type's cached entry |
| ProjectionHelper.ProjectionHelper.constructor | Realm.Search/Helpers/ProjectionHelper.cs:11 | the dictionary starts empty |
| ProjectionHelper.ProjectionHelper.GetProjection | Realm.Search/Helpers/ProjectionHelper.cs:13-24 | the cache becomes `CacheAfter`; the result is a fresh rendering of the chosen model, or null when the type has no default projection |
| SearchClient.ProjectStage | Realm.Search/SearchClient.cs:71-81 | with highlighting and a projection, the projection holds `searchHighlights`: kept if present, otherwise `{"$meta": "searchHighlights"}` appended; without highlighting it passes unchanged |
| SearchClient.Stages | Realm.Search/SearchClient.cs:88-101 | `$search` first, `$limit` right after it exactly when there is a limit, `$project` last exactly when there is a projection; length 1 + [limit] + [projection] |
| SearchClient.Highlighted | Realm.Search/SearchClient.cs:71-75 | `highlight` holds the highlight document exactly when options are given; every other name keeps its value; a new name is appended |
| SearchClient.Indexed | Realm.Search/SearchClient.cs:83-86 | `index` holds the client's index exactly when there is one; every other name keeps its value; a new name is appended |
| SearchClient.SearchStageContents | Realm.Search/SearchClient.cs:69-86 | in the `$search` document, `highlight` holds the highlight document exactly when requested and `index` the index exactly when there is one; other names keep the rendering's values |
| SearchClient.SearchStageKeys | Realm.Search/SearchClient.cs:69-86 | for a rendering that names neither, `highlight` comes before `index`, both after the rendering's own names |
| SearchClient.DefinitionSearchStage | Realm.Search/SearchClient.cs:69-86 | the `$search` document's names are the operator, then `highlight`, then `index`, as far as present |
| SearchClient.BuildSearchStage | Realm.Search/SearchClient.cs:69-86 | the in-place assignments to the rendering give exactly `SearchStage` |
| SearchClient.BuildProjectStage | Realm.Search/SearchClient.cs:71-81 | the in-place completion of the projection gives exactly `ProjectStage` |
| SearchClient.AssembleStages | Realm.Search/SearchClient.cs:88-101 | the stage list built by appends is exactly `Stages` |
| SearchClient.BuildPipeline | Realm.Search/SearchClient.cs:69-101 | the rendering of the definition, then its stages, or the rendering's failure: exactly `Pipeline` |
| SearchClient.PipelineFrom | Realm.Search/SearchClient.cs:88-101 | the stages of a successful rendering, or its failure |
| SearchClient.EntryPointsLimit | Realm.Search/SearchClient.cs:38-63 | with the default limit the pipeline holds `{"$limit": 20}` right after `$search` |
| SearchClient.SearchClient.constructor | Realm.Search/SearchClient.cs:23-27 | keeps the index |
| SearchClient.SearchClient.SearchCore | Realm.Search/SearchClient.cs:65-104 | the projection cache becomes `CacheAfter`, and the result is the pipeline of the definition's rendering with the chosen projection |
| SearchClient.SearchClient.Autocomplete | Realm.Search/SearchClient.cs:38-45 | `SearchCore` of the autocomplete definition with the given limit, 20 unless given |
| SearchClient.SearchClient.Compound | Realm.Search/SearchClient.cs:56-63 | `SearchCore` of the compound definition with the given limit, 20 unless given |
| SourceGeneratorUtils.Wrap32 | Realm.Search.SourceGenerator/Utils.cs:49 | `indents * 4` in unchecked 32-bit arithmetic: a value in range, the exact product when it fits, and congruent to it modulo 2^32 |
| SourceGeneratorUtils.JoinSplit | Realm.Search.SourceGenerator/Utils.cs:52 | joining the pieces of `Split` with the separator gives back the text: splitting loses nothing |
| SourceGeneratorUtils.TrimEnd | Realm.Search.SourceGenerator/Utils.cs:66-69 | `TrimEnd` gives a prefix that does not end in white space, and only white space was removed |
| SourceGeneratorUtils.AppendIndented | Realm.Search.SourceGenerator/Utils.cs:53-61 | the loop appends each line, behind the indentation when it is not empty, and a line break |
| SourceGeneratorUtils.Indent | Realm.Search.SourceGenerator/Utils.cs:47-72 | `Indent` gives exactly `IndentResult`: a negative width fails as `new string` does; otherwise the indented lines joined again, trimmed when asked |
| SourceGeneratorUtils.SplitJoin | Realm.Search.SourceGenerator/Utils.cs:52 | pieces free of the line break, joined by it, split back into exactly those pieces |
| SourceGeneratorUtils.IndentLines | Realm.Search.SourceGenerator/Utils.cs:49-63 | for a line break of `"\n"` or `"\r\n"` and a width that fits in an `int`, the result splits at its line breaks into exactly the input's lines, each non-empty one behind `4 * indents` spaces and each empty one still empty: the number of lines is kept and no line break is added at the end |
| SourceGeneratorUtils.IndentZero | Realm.Search.SourceGenerator/Utils.cs:47-65 | with `indents = 0` and no trimming the result is the input |
| SourceGeneratorUtils.IndentTrimmed | Realm.Search.SourceGenerator/Utils.cs:66-69 | with `trimNewLines` the result does not end in white space |
| SourceGeneratorUtils.IndentWrapsAround | Realm.Search.SourceGenerator/Utils.cs:49 | the unchecked product: -1 and 2^29 are refused, and 2^30 indents by nothing |
| SourceGeneratorUtils.IsAutomaticProperty | Realm.Search.SourceGenerator/Utils.cs:33-45 | true exactly when there is an accessor list and no accessor has a block or expression body |

## Left out

- `AggregateAsync` (Realm.Search/SearchClient.cs:103) is a remote, asynchronous call. `SearchCore` returns the stage list instead of the decoded results.
- `this.ToBsonDocument()` (Realm.Search/ISearchModel.cs:35) is attribute-driven serialisation by the MongoDB driver. The serialised document is the field `serialized` of `ProjectionModel`.
- The `ConcurrentDictionary` and the reflection lookup of `DefaultProjection` (Realm.Search/Helpers/ProjectionHelper.cs:11,22) are modelled sequentially. The dictionary is a map that one call at a time updates. The static property lookup is the pure function parameter `defaultProjection`, so "the factory is not invoked" becomes "its value is not used". Races in which `GetOrAdd` runs the factory twice are not modelled.
- The process-wide dictionary is an ordinary object, `ProjectionHelper.ProjectionHelper`, passed to `SearchCore`. Model types are the opaque type `ModelType`.
- `SearchDefinitionBase`, `QuerySearchDefinitionBase` and `FuzzySearchDefinitionBase` are not part of this model. The document that their `PopulateDefinition` produces is the function parameter `basePopulate` (text, phrase) or the incoming document (geoWithin), and only the subclass keys are stated. Because of this, text, phrase and geoWithin definitions are not cases of `SearchDefinition.SearchDefinition`. `SearchClient` only receives autocomplete and compound definitions anyway.
- The fluent clause builders used by the demo application are not part of the shown `CompoundDefinition`. Only its public lists are modelled.
- `Argument.NotNull` (Realm.Search/Helpers/Argument.cs) becomes the failure `ArgumentNull(name)`. `Argument.Ensure` is not defined in Argument.cs; it is taken to throw when its condition is false, which the model writes as the failure `InvalidArgument(message)`.
- C# `null` for an argument that the code does not check (a null path or query string, a null definition) is not modelled.
- GeoPoint.Equals: compares coordinates with the equality of the opaque `Double` type, which is reflexive. A NaN coordinate, which never equals itself in C#, is not modelled. `Point.GetHashCode` is left out: it does floating-point hashing.
- Float and double values are only carried, never computed, so they are the opaque type `Bson.Double`.
- `Int` values (`maxEdits`, `slop`, `minimumShouldMatch`, `limit`, the highlight limits) are unbounded. They are only compared with constants and carried, so 32-bit wrap-around is never observable; the one product, `indents * 4`, is wrapped explicitly.
- SourceGeneratorUtils.Indent: takes `Environment.NewLine` as the parameter `newLine` and requires it to be `"\n"` or `"\r\n"`, the two values it has on .NET's platforms. The other lemmas about `IndentResult` hold for any non-empty separator. Strings are sequences of Unicode scalar values rather than UTF-16 code units.
- The Roslyn syntax tree of `IsAutomaticProperty` is reduced to an optional list of accessors, each saying whether it has a block body and whether it has an expression body.
- `GetIdentifierLocation`, `GetNamespaceInfo`, `HasAttribute` and the rest of the source generator (parser, emitter, diagnostics) work through Roslyn queries that are not part of this model.
- Realm.Search/Highlight.cs is a deserialisation record with no logic. Realm.Search/SearchExtensions.cs is a one-line constructor wrapper. The demo application is user interface and I/O.
- The two `QueryDefinition` files declare the same class in the same namespace, which C# would not compile together. They are the two modules `SearchQueryDefinition` and `QueryDefinition`, proved to agree.
- `BsonDocument.Add` throws on a duplicate name. `Bson.BsonDocument.Add` requires the name to be absent, and every `Render` that adds proves this with a lemma.

## Where the code and its documentation differ

The model follows the code:

- Highlight limits are emitted whenever they are supplied, even at the documented default values of 500000 and 5.
- A boost's `undefined` is emitted whenever it is supplied, even when it is 0.
- The autocomplete document lists `query` before `path`. The documented order starts with `path`.
- Fuzzy `maxEdits` is not range-checked; the documentation allows only 1 or 2.
- A polygon ring needs more than three points. The doc comment of the constructor says "3 or more".
- The box's second corner is written under the misspelt name `topRigth`.
