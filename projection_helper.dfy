/** `ProjectionHelper` (Realm.Search/Helpers/ProjectionHelper.cs): chooses the `$project`
    document of a search. An explicit projection wins; otherwise the model type's default
    projection is looked up once per type and remembered in a process-wide dictionary.
    The type is a value of `ModelType`, the reflection that finds a type's static
    `DefaultProjection` property is the parameter `defaultProjection`, and the
    dictionary is a map that one call at a time updates. */
module ProjectionHelper {
  import opened Wrappers
  import opened Bson
  import ProjectionModel

  /** `typeof(TModel)` */
  type ModelType(==, !new)

  type Cache = map<ModelType, Option<ProjectionModel.ProjectionModel>>

  /** The dictionary after `GetOrAdd`, or unchanged when an explicit projection is given:
      an entry is added for a type not yet present, and no entry is ever replaced. */
  function CacheAfter(
    cache: Cache, projection: Option<ProjectionModel.ProjectionModel>, modelType: ModelType,
    defaultProjection: ModelType -> Option<ProjectionModel.ProjectionModel>): (r: Cache)
    ensures projection.Some? ==> r == cache
    ensures projection.None? ==> modelType in r
    ensures forall t :: t in cache ==> t in r && r[t] == cache[t]
    ensures forall t :: t in r && t != modelType ==> t in cache
    ensures modelType !in cache && projection.None? ==> r[modelType] == defaultProjection(modelType)
  {
    if projection.Some? || modelType in cache then cache
    else cache[modelType := defaultProjection(modelType)]
  }

  /** A second lookup of the same type finds the entry the first one made, so the value
      factory's result is only ever used once per type. */
  lemma SecondLookupKeepsCache(
    cache: Cache, modelType: ModelType, defaultProjection: ModelType -> Option<ProjectionModel.ProjectionModel>,
    otherFactory: ModelType -> Option<ProjectionModel.ProjectionModel>)
    ensures var once := CacheAfter(cache, None, modelType, defaultProjection);
      CacheAfter(once, None, modelType, otherFactory) == once
  {
  }

  /** The projection model `GetProjection` renders, if any. */
  function Chosen(cache: Cache, projection: Option<ProjectionModel.ProjectionModel>, modelType: ModelType,
                  defaultProjection: ModelType -> Option<ProjectionModel.ProjectionModel>): (r: Option<ProjectionModel.ProjectionModel>)
    ensures projection.Some? ==> r == projection
    ensures projection.None? ==> r == CacheAfter(cache, projection, modelType, defaultProjection)[modelType]
  {
    if projection.Some? then projection else CacheAfter(cache, projection, modelType, defaultProjection)[modelType]
  }

  /** What the chosen model renders to, or nothing. */
  function Rendering(model: Option<ProjectionModel.ProjectionModel>): Option<Elements>
    reads if model.Some? then {model.value} else {}
  {
    if model.Some? then Some(model.value.Document()) else None
  }

  class ProjectionHelper {
    /** `_defaultProjections` */
    var defaultProjections: Cache

    constructor ()
      ensures defaultProjections == map[]
    {
      defaultProjections := map[];
    }

    /** `GetProjection<TModel>(projection)`: the explicit projection rendered, or the
        type's default projection (found once and remembered) rendered, or nothing when
        the type has none. */
    method GetProjection(
      projection: Option<ProjectionModel.ProjectionModel>, modelType: ModelType,
      defaultProjection: ModelType -> Option<ProjectionModel.ProjectionModel>) returns (r: Option<Elements>)
      modifies this
      ensures defaultProjections == CacheAfter(old(defaultProjections), projection, modelType, defaultProjection)
      ensures r == Rendering(Chosen(old(defaultProjections), projection, modelType, defaultProjection))
    {
      if projection.Some? {
        var rendered := projection.value.Render();
        return Some(rendered);
      }
      if modelType !in defaultProjections {
        defaultProjections := defaultProjections[modelType := defaultProjection(modelType)];
      }
      var value := defaultProjections[modelType];
      if value.Some? {
        var rendered := value.value.Render();
        return Some(rendered);
      }
      return None;
    }
  }
}
