/** `SearchClient<TModel>` (Realm.Search/SearchClient.cs): assembles the aggregation
    pipeline of an Atlas Search query, `$search`, then `$limit`, then `$project`. The
    pipeline is sent with `AggregateAsync`, a remote call that is not modelled: here the
    result is the list of stages. */
module SearchClient {
  import opened Wrappers
  import opened Bson
  import HighlightOptions
  import ProjectionModel
  import ProjectionHelper
  import SearchDefinition
  import AutocompleteDefinition
  import CompoundDefinition

  /** The `limit` of `Autocomplete` and `Compound` when none is given. */
  const DefaultLimit := 20

  /** The `$search` stage's document: the definition's rendering, then `highlight` set
      when there are highlight options, then `index` set when the client has an index. */
  function SearchStage(rendered: Elements, highlight: Option<HighlightOptions.HighlightOptions>, index: Option<string>): Elements
  {
    Indexed(Highlighted(rendered, highlight), index)
  }

  /** The `$project` stage's document: with highlight options, a projection that does not
      ask for `searchHighlights` yet is made to; otherwise it is left as it is. */
  function ProjectStage(project: Option<Elements>, highlight: Option<HighlightOptions.HighlightOptions>): (r: Option<Elements>)
    ensures r.Some? <==> project.Some?
    ensures highlight.None? ==> r == project
    ensures highlight.Some? && project.Some? ==> "searchHighlights" in Keys(r.value)
    ensures project.Some? && "searchHighlights" in Keys(project.value) ==> r == project
    ensures highlight.Some? && project.Some? && "searchHighlights" !in Keys(project.value) ==>
              r.value == project.value + [("searchHighlights", ProjectionModel.Meta("searchHighlights"))]
  {
    if highlight.Some? && project.Some? && "searchHighlights" !in Keys(project.value)
    then Some(Assign(project.value, "searchHighlights", ProjectionModel.Meta("searchHighlights")))
    else project
  }

  /** The pipeline: `$search` first, `$limit` right after it exactly when there is a
      limit, and `$project` last exactly when there is a projection. */
  function Stages(
    rendered: Elements, project: Option<Elements>, highlight: Option<HighlightOptions.HighlightOptions>,
    index: Option<string>, limit: Option<int>): (r: seq<Elements>)
    ensures |r| == 1 + (if limit.Some? then 1 else 0) + (if project.Some? then 1 else 0)
    ensures r[0] == [("$search", Doc(SearchStage(rendered, highlight, index)))]
    ensures limit.Some? ==> r[1] == [("$limit", Int(limit.value))]
    ensures project.Some? ==> r[|r| - 1] == [("$project", Doc(ProjectStage(project, highlight).value))]
  {
    var projectStage := ProjectStage(project, highlight);
    [[("$search", Doc(SearchStage(rendered, highlight, index)))]]
    + (if limit.Some? then [[("$limit", Int(limit.value))]] else [])
    + (if projectStage.Some? then [[("$project", Doc(projectStage.value))]] else [])
  }

  /** The `$search` document after the `highlight` assignment. */
  function Highlighted(rendered: Elements, highlight: Option<HighlightOptions.HighlightOptions>): (r: Elements)
    ensures highlight.Some? ==> Lookup(r, "highlight") == Some(Doc(HighlightOptions.HighlightDocument(highlight.value)))
    ensures highlight.None? ==> r == rendered
    ensures forall k :: k != "highlight" ==> Lookup(r, k) == Lookup(rendered, k)
    ensures "highlight" !in Keys(rendered) ==> Keys(r) == Keys(rendered) + (if highlight.Some? then ["highlight"] else [])
  {
    if highlight.Some? then Assign(rendered, "highlight", Doc(HighlightOptions.HighlightDocument(highlight.value)))
    else rendered
  }

  /** The `$search` document after the `index` assignment. */
  function Indexed(d: Elements, index: Option<string>): (r: Elements)
    ensures index.Some? ==> Lookup(r, "index") == Some(Str(index.value))
    ensures index.None? ==> r == d
    ensures forall k :: k != "index" ==> Lookup(r, k) == Lookup(d, k)
    ensures "index" !in Keys(d) ==> Keys(r) == Keys(d) + (if index.Some? then ["index"] else [])
  {
    if index.Some? then Assign(d, "index", Str(index.value)) else d
  }

  /** What the `$search` document holds: the highlight document when there are highlight
      options, the index when there is one, the rendering's other names unchanged. */
  lemma SearchStageContents(rendered: Elements, highlight: Option<HighlightOptions.HighlightOptions>, index: Option<string>)
    ensures var s := SearchStage(rendered, highlight, index);
      && (highlight.Some? ==> Lookup(s, "highlight") == Some(Doc(HighlightOptions.HighlightDocument(highlight.value))))
      && (highlight.None? ==> Lookup(s, "highlight") == Lookup(rendered, "highlight"))
      && (index.Some? ==> Lookup(s, "index") == Some(Str(index.value)))
      && (index.None? ==> Lookup(s, "index") == Lookup(rendered, "index"))
      && (forall k :: k != "highlight" && k != "index" ==> Lookup(s, k) == Lookup(rendered, k))
  {
  }

  /** For a rendering that names neither, `highlight` is set before `index`, both after
      the rendering's own names. */
  lemma SearchStageKeys(rendered: Elements, highlight: Option<HighlightOptions.HighlightOptions>, index: Option<string>)
    requires "highlight" !in Keys(rendered) && "index" !in Keys(rendered)
    ensures Keys(SearchStage(rendered, highlight, index))
            == Keys(rendered) + (if highlight.Some? then ["highlight"] else []) + (if index.Some? then ["index"] else [])
  {
    var highlighted := Highlighted(rendered, highlight);
    assert "index" !in Keys(highlighted);
  }

  /** A rendered definition names only its operator, so the `$search` document is the
      operator, then `highlight`, then `index`, as far as they are present. */
  lemma DefinitionSearchStage(d: SearchDefinition.SearchDefinition, highlight: Option<HighlightOptions.HighlightOptions>, index: Option<string>)
    requires SearchDefinition.Rendering(d).Success?
    ensures Keys(SearchStage(SearchDefinition.Rendering(d).value, highlight, index))
            == [if d.AutocompleteSearch? then "autocomplete" else "compound"]
               + (if highlight.Some? then ["highlight"] else []) + (if index.Some? then ["index"] else [])
  {
    SearchStageKeys(SearchDefinition.Rendering(d).value, highlight, index);
  }

  /** The whole of `SearchCore` but the projection lookup: a failed rendering of the
      definition fails the search, a successful one is made into the pipeline. */
  function Pipeline(
    rendering: Result<Elements>, project: Option<Elements>, highlight: Option<HighlightOptions.HighlightOptions>,
    index: Option<string>, limit: Option<int>): Result<seq<Elements>>
  {
    var rendered :- rendering;
    Success(Stages(rendered, project, highlight, index, limit))
  }

  /** The search stage of `SearchCore`: the rendering, changed in place by the highlight
      and index assignments. */
  method BuildSearchStage(rendered: Elements, highlight: Option<HighlightOptions.HighlightOptions>, index: Option<string>)
    returns (r: Elements)
    ensures r == SearchStage(rendered, highlight, index)
  {
    var searchStage := new BsonDocument.FromElements(rendered);
    if highlight.Some? {
      var highlightDocument := HighlightOptions.Render(highlight.value);
      searchStage.Set("highlight", Doc(highlightDocument));
    }
    if index.Some? {
      searchStage.Set("index", Str(index.value));
    }
    r := searchStage.elements;
  }

  /** The project stage of `SearchCore`: the projection document, completed in place
      with `searchHighlights` when highlighting is asked for. */
  method BuildProjectStage(project: Option<Elements>, highlight: Option<HighlightOptions.HighlightOptions>)
    returns (r: Option<Elements>)
    ensures r == ProjectStage(project, highlight)
  {
    if project.None? {
      return None;
    }
    var projectStage := new BsonDocument.FromElements(project.value);
    if highlight.Some? && !projectStage.Contains("searchHighlights") {
      projectStage.Set("searchHighlights", ProjectionModel.Meta("searchHighlights"));
    }
    r := Some(projectStage.elements);
  }

  /** The stages `SearchCore` builds from a rendered definition and a projection
      document. */
  method AssembleStages(
    rendered: Elements, project: Option<Elements>, highlight: Option<HighlightOptions.HighlightOptions>,
    index: Option<string>, limit: Option<int>) returns (stages: seq<Elements>)
    ensures stages == Stages(rendered, project, highlight, index, limit)
  {
    var searchStage := BuildSearchStage(rendered, highlight, index);
    var projectStage := BuildProjectStage(project, highlight);
    stages := [[("$search", Doc(searchStage))]];
    if limit.Some? {
      stages := stages + [[("$limit", Int(limit.value))]];
    }
    if projectStage.Some? {
      stages := stages + [[("$project", Doc(projectStage.value))]];
    }
  }

  /** `SearchCore` once the projection document is known: render the definition, then
      build the stages from it. */
  method BuildPipeline(
    d: SearchDefinition.SearchDefinition, project: Option<Elements>, highlight: Option<HighlightOptions.HighlightOptions>,
    index: Option<string>, limit: Option<int>) returns (r: Result<seq<Elements>>)
    ensures r == Pipeline(SearchDefinition.Rendering(d), project, highlight, index, limit)
  {
    var rendering := SearchDefinition.RenderDefinition(d);
    r := PipelineFrom(rendering, project, highlight, index, limit);
    assert rendering == SearchDefinition.Rendering(d);
  }

  /** The stages built from a rendering, or its failure. */
  method PipelineFrom(
    rendering: Result<Elements>, project: Option<Elements>, highlight: Option<HighlightOptions.HighlightOptions>,
    index: Option<string>, limit: Option<int>) returns (r: Result<seq<Elements>>)
    ensures r == Pipeline(rendering, project, highlight, index, limit)
  {
    var rendered :- rendering;
    var stages := AssembleStages(rendered, project, highlight, index, limit);
    r := Success(stages);
  }

  /** The public entry points pass their `limit`, 20 unless given, so their pipelines
      always hold `{"$limit": limit}` right after `$search`. */
  lemma EntryPointsLimit(rendered: Elements, project: Option<Elements>, highlight: Option<HighlightOptions.HighlightOptions>, index: Option<string>)
    ensures |Stages(rendered, project, highlight, index, Some(DefaultLimit))| >= 2
    ensures Stages(rendered, project, highlight, index, Some(DefaultLimit))[1] == [("$limit", Int(20))]
  {
  }

  class SearchClient {
    /** `_index` */
    const index: Option<string>

    /** `SearchClient(collection, index)`; the collection only serves `AggregateAsync`. */
    constructor (index: Option<string>)
      ensures this.index == index
    {
      this.index := index;
    }

    /** `SearchCore`: looks up the projection (which may remember a default projection in
        `helper`), renders the definition and builds the stages. */
    method SearchCore(
      d: SearchDefinition.SearchDefinition, projection: Option<ProjectionModel.ProjectionModel>,
      highlight: Option<HighlightOptions.HighlightOptions>, limit: Option<int>,
      helper: ProjectionHelper.ProjectionHelper, modelType: ProjectionHelper.ModelType,
      defaultProjection: ProjectionHelper.ModelType -> Option<ProjectionModel.ProjectionModel>)
      returns (r: Result<seq<Elements>>)
      modifies helper
      ensures helper.defaultProjections
              == ProjectionHelper.CacheAfter(old(helper.defaultProjections), projection, modelType, defaultProjection)
      ensures r == Pipeline(SearchDefinition.Rendering(d), ProjectionHelper.Rendering(ProjectionHelper.Chosen(
                     old(helper.defaultProjections), projection, modelType, defaultProjection)), highlight, index, limit)
    {
      var project := helper.GetProjection(projection, modelType, defaultProjection);
      r := BuildPipeline(d, project, highlight, index, limit);
    }

    /** `Autocomplete(autocomplete, projection = null, highlightOptions = null, limit = 20)` */
    method Autocomplete(
      autocomplete: AutocompleteDefinition.AutocompleteDefinition,
      helper: ProjectionHelper.ProjectionHelper, modelType: ProjectionHelper.ModelType,
      defaultProjection: ProjectionHelper.ModelType -> Option<ProjectionModel.ProjectionModel>,
      projection: Option<ProjectionModel.ProjectionModel> := None,
      highlight: Option<HighlightOptions.HighlightOptions> := None, limit: int := DefaultLimit)
      returns (r: Result<seq<Elements>>)
      modifies helper
      ensures helper.defaultProjections
              == ProjectionHelper.CacheAfter(old(helper.defaultProjections), projection, modelType, defaultProjection)
      ensures r == Pipeline(SearchDefinition.Rendering(SearchDefinition.AutocompleteSearch(autocomplete)), ProjectionHelper.Rendering(ProjectionHelper.Chosen(
                     old(helper.defaultProjections), projection, modelType, defaultProjection)), highlight, index, Some(limit))
    {
      r := SearchCore(SearchDefinition.AutocompleteSearch(autocomplete), projection, highlight, Some(limit),
                      helper, modelType, defaultProjection);
    }

    /** `Compound(compound, projection = null, highlightOptions = null, limit = 20)` */
    method Compound(
      compound: CompoundDefinition.CompoundDefinition,
      helper: ProjectionHelper.ProjectionHelper, modelType: ProjectionHelper.ModelType,
      defaultProjection: ProjectionHelper.ModelType -> Option<ProjectionModel.ProjectionModel>,
      projection: Option<ProjectionModel.ProjectionModel> := None,
      highlight: Option<HighlightOptions.HighlightOptions> := None, limit: int := DefaultLimit)
      returns (r: Result<seq<Elements>>)
      modifies helper
      ensures helper.defaultProjections
              == ProjectionHelper.CacheAfter(old(helper.defaultProjections), projection, modelType, defaultProjection)
      ensures r == Pipeline(SearchDefinition.Rendering(SearchDefinition.CompoundSearch(compound)), ProjectionHelper.Rendering(ProjectionHelper.Chosen(
                     old(helper.defaultProjections), projection, modelType, defaultProjection)), highlight, index, Some(limit))
    {
      r := SearchCore(SearchDefinition.CompoundSearch(compound), projection, highlight, Some(limit),
                      helper, modelType, defaultProjection);
    }
  }
}
