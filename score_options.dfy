/** The scoring options (Realm.Search/Options/ScoreOptions.cs). Each options class holds
    one nullable field per variant and is made through static factories, each of which
    sets exactly one variant; `Render` picks the first variant set, in declaration
    order, and fails if none is. */
module ScoreOptions {
  import opened Wrappers
  import opened Bson

  const NoAutocompleteScoreMessage := "Unexpected AutocompleteScoreOptions value - no options have been set."
  const NoScoreMessage := "Unexpected ScoreOptions value - no options have been set."
  const NoBoostMessage := "Unexpected BoostOptions - no options have been set."

  // ---------------------------------------------------------------- BoostOptions

  datatype BoostOptions = BoostOptions(value: Option<Double>, path: Option<string>, undefined: Option<Double>)

  /** `new BoostOptions(value)` */
  function BoostByValue(value: Double): (r: BoostOptions)
    ensures r.value == Some(value) && r.path.None?
  {
    BoostOptions(Some(value), None, None)
  }

  /** `new BoostOptions(path, undefined)`, which refuses a null path. */
  function BoostByPath(path: Option<string>, undefined: Option<Double>): (r: Result<BoostOptions>)
    ensures r.Failure? <==> path.None?
    ensures r.Failure? ==> r.error == ArgumentNull("path")
    ensures r.Success? ==> r.value == BoostOptions(None, path, undefined)
  {
    if path.None? then Failure(ArgumentNull("path")) else Success(BoostOptions(None, path, undefined))
  }

  /** The path form's rendering: `{"path": path}`, then `undefined` when one was supplied. */
  function PathBoost(path: string, undefined: Option<Double>): Elements
  {
    [("path", Str(path))] + (if undefined.Some? then [("undefined", Num(undefined.value))] else [])
  }

  /** What `BoostOptions.Render` produces: `{value}` for the value form; `{path}`, then
      `undefined` when one was supplied, for the path form. */
  function BoostDocument(b: BoostOptions): (r: Result<Elements>)
    ensures r.Failure? <==> b.value.None? && b.path.None?
    ensures r.Failure? ==> r.error == InvalidState(NoBoostMessage)
    ensures b.value.Some? ==> r.Success? && Keys(r.value) == ["value"]
                              && Lookup(r.value, "value") == Some(Num(b.value.value))
    ensures b.value.None? && b.path.Some? ==>
              && r.Success?
              && Keys(r.value) == ["path"] + (if b.undefined.Some? then ["undefined"] else [])
              && Lookup(r.value, "path") == Some(Str(b.path.value))
              && (b.undefined.Some? ==> Lookup(r.value, "undefined") == Some(Num(b.undefined.value)))
  {
    if b.value.Some? then Success([("value", Num(b.value.value))])
    else if b.path.Some? then Success(PathBoost(b.path.value, b.undefined))
    else Failure(InvalidState(NoBoostMessage))
  }

  /** `BoostOptions.Render` */
  method RenderBoost(b: BoostOptions) returns (r: Result<Elements>)
    ensures r == BoostDocument(b)
  {
    var result := new BsonDocument();
    if b.value.Some? {
      result.Set("value", Num(b.value.value));
    } else if b.path.Some? {
      result.Set("path", Str(b.path.value));
      assert Keys(result.elements) == ["path"];
      assert result.elements + [] == result.elements;
      if b.undefined.Some? {
        result.Set("undefined", Num(b.undefined.value));
      }
    } else {
      return Failure(InvalidState(NoBoostMessage));
    }
    return Success(result.elements);
  }

  // ------------------------------------------------------------- ConstantOptions

  datatype ConstantOptions = ConstantOptions(value: Double)

  /** `ConstantOptions.Render`: exactly `{value}`. */
  function RenderConstant(c: ConstantOptions): (r: Elements)
    ensures Keys(r) == ["value"] && Lookup(r, "value") == Some(Num(c.value))
  {
    [("value", Num(c.value))]
  }

  // ---------------------------------------------------- AutocompleteScoreOptions

  datatype AutocompleteScoreOptions =
    AutocompleteScoreOptions(boostOptions: Option<BoostOptions>, constantOptions: Option<ConstantOptions>)

  /** What `AutocompleteScoreOptions.Render` produces: a single key, `boost` if the
      boost variant is set, else `constant`; a failure if neither is. */
  function AutocompleteScoreDocument(s: AutocompleteScoreOptions): (r: Result<Elements>)
    ensures s.boostOptions.Some? ==> r == (var b :- BoostDocument(s.boostOptions.value); Success([("boost", Doc(b))]))
    ensures s.boostOptions.None? && s.constantOptions.Some? ==>
              r == Success([("constant", Doc(RenderConstant(s.constantOptions.value)))])
    ensures s.boostOptions.None? && s.constantOptions.None? ==> r == Failure(InvalidState(NoAutocompleteScoreMessage))
    ensures r.Success? ==> |r.value| == 1 && r.value[0].0 in {"boost", "constant"}
  {
    if s.boostOptions.Some? then
      var b :- BoostDocument(s.boostOptions.value);
      Success([("boost", Doc(b))])
    else if s.constantOptions.Some? then Success([("constant", Doc(RenderConstant(s.constantOptions.value)))])
    else Failure(InvalidState(NoAutocompleteScoreMessage))
  }

  /** `AutocompleteScoreOptions.Render` */
  method RenderAutocompleteScore(s: AutocompleteScoreOptions) returns (r: Result<Elements>)
    ensures r == AutocompleteScoreDocument(s)
  {
    var result := new BsonDocument();
    if s.boostOptions.Some? {
      var b :- RenderBoost(s.boostOptions.value);
      result.Set("boost", Doc(b));
    } else if s.constantOptions.Some? {
      result.Set("constant", Doc(RenderConstant(s.constantOptions.value)));
    } else {
      return Failure(InvalidState(NoAutocompleteScoreMessage));
    }
    return Success(result.elements);
  }

  /** `AutocompleteScoreOptions.Boost(float value)` */
  function AutocompleteBoost(value: Double): (r: AutocompleteScoreOptions)
    ensures AutocompleteScoreDocument(r) == Success([("boost", Doc([("value", Num(value))]))])
  {
    AutocompleteScoreOptions(Some(BoostByValue(value)), None)
  }

  /** `AutocompleteScoreOptions.Boost(string path, float? undefined)` */
  function AutocompleteBoostByPath(path: Option<string>, undefined: Option<Double>): (r: Result<AutocompleteScoreOptions>)
    ensures r.Failure? <==> path.None?
    ensures r.Failure? ==> r.error == ArgumentNull("path")
    ensures r.Success? ==> AutocompleteScoreDocument(r.value) == Success([("boost", Doc(PathBoost(path.value, undefined)))])
  {
    var b :- BoostByPath(path, undefined);
    Success(AutocompleteScoreOptions(Some(b), None))
  }

  /** `AutocompleteScoreOptions.Constant(float value)` */
  function AutocompleteConstant(value: Double): (r: AutocompleteScoreOptions)
    ensures AutocompleteScoreDocument(r) == Success([("constant", Doc([("value", Num(value))]))])
  {
    AutocompleteScoreOptions(None, Some(ConstantOptions(value)))
  }

  // ---------------------------------------------------------------- ScoreOptions

  datatype ScoreOptions = ScoreOptions(
    boostOptions: Option<BoostOptions>,
    constantOptions: Option<ConstantOptions>,
    functionOptions: Option<Elements>)

  /** What `ScoreOptions.Render` produces: a single key, chosen with priority boost,
      then constant, then function; the function expression is emitted verbatim. */
  function ScoreDocument(s: ScoreOptions): (r: Result<Elements>)
    ensures s.boostOptions.Some? ==> r == (var b :- BoostDocument(s.boostOptions.value); Success([("boost", Doc(b))]))
    ensures s.boostOptions.None? && s.constantOptions.Some? ==>
              r == Success([("constant", Doc(RenderConstant(s.constantOptions.value)))])
    ensures s.boostOptions.None? && s.constantOptions.None? && s.functionOptions.Some? ==>
              r == Success([("function", Doc(s.functionOptions.value))])
    ensures s.boostOptions.None? && s.constantOptions.None? && s.functionOptions.None? ==>
              r == Failure(InvalidState(NoScoreMessage))
    ensures r.Success? ==> |r.value| == 1 && r.value[0].0 in {"boost", "constant", "function"}
  {
    if s.boostOptions.Some? then
      var b :- BoostDocument(s.boostOptions.value);
      Success([("boost", Doc(b))])
    else if s.constantOptions.Some? then Success([("constant", Doc(RenderConstant(s.constantOptions.value)))])
    else if s.functionOptions.Some? then Success([("function", Doc(s.functionOptions.value))])
    else Failure(InvalidState(NoScoreMessage))
  }

  /** `ScoreOptions.Render` */
  method RenderScore(s: ScoreOptions) returns (r: Result<Elements>)
    ensures r == ScoreDocument(s)
  {
    var result := new BsonDocument();
    if s.boostOptions.Some? {
      var b :- RenderBoost(s.boostOptions.value);
      result.Set("boost", Doc(b));
    } else if s.constantOptions.Some? {
      result.Set("constant", Doc(RenderConstant(s.constantOptions.value)));
    } else if s.functionOptions.Some? {
      result.Set("function", Doc(s.functionOptions.value));
    } else {
      return Failure(InvalidState(NoScoreMessage));
    }
    return Success(result.elements);
  }

  /** `ScoreOptions.Boost(float value)` */
  function ScoreBoost(value: Double): (r: ScoreOptions)
    ensures ScoreDocument(r) == Success([("boost", Doc([("value", Num(value))]))])
  {
    ScoreOptions(Some(BoostByValue(value)), None, None)
  }

  /** `ScoreOptions.Boost(string path, float? undefined)` */
  function ScoreBoostByPath(path: Option<string>, undefined: Option<Double>): (r: Result<ScoreOptions>)
    ensures r.Failure? <==> path.None?
    ensures r.Failure? ==> r.error == ArgumentNull("path")
    ensures r.Success? ==> ScoreDocument(r.value) == Success([("boost", Doc(PathBoost(path.value, undefined)))])
  {
    var b :- BoostByPath(path, undefined);
    Success(ScoreOptions(Some(b), None, None))
  }

  /** `ScoreOptions.Constant(float value)` */
  function ScoreConstant(value: Double): (r: ScoreOptions)
    ensures ScoreDocument(r) == Success([("constant", Doc([("value", Num(value))]))])
  {
    ScoreOptions(None, Some(ConstantOptions(value)), None)
  }

  /** `ScoreOptions.Function(BsonDocument function)`, which refuses null. */
  function ScoreFunction(expression: Option<Elements>): (r: Result<ScoreOptions>)
    ensures r.Failure? <==> expression.None?
    ensures r.Failure? ==> r.error == ArgumentNull("function")
    ensures r.Success? ==> ScoreDocument(r.value) == Success([("function", Doc(expression.value))])
  {
    if expression.None? then Failure(ArgumentNull("function"))
    else Success(ScoreOptions(None, None, expression))
  }

  // ------------------------------------------------------------- EmbeddedOptions

  datatype EmbeddedAggregateStrategy = Sum | Maximum | Minimum | Mean

  /** `Aggregate.ToString()`: the member's name as declared. */
  function AggregateMember(a: EmbeddedAggregateStrategy): string
  {
    match a
    case Sum => "Sum"
    case Maximum => "Maximum"
    case Minimum => "Minimum"
    case Mean => "Mean"
  }

  /** `Aggregate.ToString().ToLowerInvariant()` */
  function AggregateName(a: EmbeddedAggregateStrategy): (r: string)
    ensures r == LowerInvariant(AggregateMember(a))
  {
    match a
    case Sum => "sum"
    case Maximum => "maximum"
    case Minimum => "minimum"
    case Mean => "mean"
  }

  datatype EmbeddedOptions = EmbeddedOptions(aggregate: EmbeddedAggregateStrategy, outerScope: Option<ScoreOptions>)

  /** What `EmbeddedOptions.Render` produces: `aggregate` unless it is Sum (as
      "maximum", "minimum" or "mean"), then `outerScope` when one is set. */
  function EmbeddedDocument(e: EmbeddedOptions): (r: Result<Elements>)
    ensures r.Failure? <==> e.outerScope.Some? && ScoreDocument(e.outerScope.value).Failure?
    ensures r.Success? ==>
              && Keys(r.value) == (if e.aggregate != Sum then ["aggregate"] else [])
                                  + (if e.outerScope.Some? then ["outerScope"] else [])
              && (e.aggregate != Sum ==> Lookup(r.value, "aggregate") == Some(Str(AggregateName(e.aggregate))))
              && (e.outerScope.Some? ==> Lookup(r.value, "outerScope") == Some(Doc(ScoreDocument(e.outerScope.value).value)))
    ensures e.aggregate == Sum && e.outerScope.None? ==> r == Success([])
  {
    var aggregate := if e.aggregate != Sum then [("aggregate", Str(AggregateName(e.aggregate)))] else [];
    if e.outerScope.Some? then
      var outer :- ScoreDocument(e.outerScope.value);
      Success(aggregate + [("outerScope", Doc(outer))])
    else Success(aggregate)
  }

  /** `EmbeddedOptions.Render` */
  method RenderEmbedded(e: EmbeddedOptions) returns (r: Result<Elements>)
    ensures r == EmbeddedDocument(e)
  {
    var result := new BsonDocument();
    if e.aggregate != Sum {
      result.Set("aggregate", Str(AggregateName(e.aggregate)));
    }
    if e.outerScope.Some? {
      var outer :- RenderScore(e.outerScope.value);
      result.Set("outerScope", Doc(outer));
    }
    return Success(result.elements);
  }

  // -------------------------------------------------------- EmbeddedScoreOptions

  datatype EmbeddedScoreOptions = EmbeddedScoreOptions(
    boostOptions: Option<BoostOptions>,
    constantOptions: Option<ConstantOptions>,
    functionOptions: Option<Elements>,
    embeddedOptions: Option<EmbeddedOptions>)

  const NoEmbeddedScoreMessage := NoAutocompleteScoreMessage

  /** What `EmbeddedScoreOptions.Render` produces: a single key, chosen with priority
      boost, constant, function, embedded. (Its failure message names
      AutocompleteScoreOptions, as in the source.) */
  function EmbeddedScoreDocument(s: EmbeddedScoreOptions): (r: Result<Elements>)
    ensures s.boostOptions.Some? ==> r == (var b :- BoostDocument(s.boostOptions.value); Success([("boost", Doc(b))]))
    ensures s.boostOptions.None? && s.constantOptions.Some? ==>
              r == Success([("constant", Doc(RenderConstant(s.constantOptions.value)))])
    ensures s.boostOptions.None? && s.constantOptions.None? && s.functionOptions.Some? ==>
              r == Success([("function", Doc(s.functionOptions.value))])
    ensures s.boostOptions.None? && s.constantOptions.None? && s.functionOptions.None? && s.embeddedOptions.Some? ==>
              r == (var e :- EmbeddedDocument(s.embeddedOptions.value); Success([("embedded", Doc(e))]))
    ensures s.boostOptions.None? && s.constantOptions.None? && s.functionOptions.None? && s.embeddedOptions.None? ==>
              r == Failure(InvalidState(NoEmbeddedScoreMessage))
    ensures r.Success? ==> |r.value| == 1 && r.value[0].0 in {"boost", "constant", "function", "embedded"}
  {
    if s.boostOptions.Some? then
      var b :- BoostDocument(s.boostOptions.value);
      Success([("boost", Doc(b))])
    else if s.constantOptions.Some? then Success([("constant", Doc(RenderConstant(s.constantOptions.value)))])
    else if s.functionOptions.Some? then Success([("function", Doc(s.functionOptions.value))])
    else if s.embeddedOptions.Some? then
      var e :- EmbeddedDocument(s.embeddedOptions.value);
      Success([("embedded", Doc(e))])
    else Failure(InvalidState(NoEmbeddedScoreMessage))
  }

  /** `EmbeddedScoreOptions.Render` */
  method RenderEmbeddedScore(s: EmbeddedScoreOptions) returns (r: Result<Elements>)
    ensures r == EmbeddedScoreDocument(s)
  {
    var result := new BsonDocument();
    if s.boostOptions.Some? {
      var b :- RenderBoost(s.boostOptions.value);
      result.Set("boost", Doc(b));
    } else if s.constantOptions.Some? {
      result.Set("constant", Doc(RenderConstant(s.constantOptions.value)));
    } else if s.functionOptions.Some? {
      result.Set("function", Doc(s.functionOptions.value));
    } else if s.embeddedOptions.Some? {
      var e :- RenderEmbedded(s.embeddedOptions.value);
      result.Set("embedded", Doc(e));
    } else {
      return Failure(InvalidState(NoEmbeddedScoreMessage));
    }
    return Success(result.elements);
  }

  /** `EmbeddedScoreOptions.Boost(float value)` */
  function EmbeddedBoost(value: Double): (r: EmbeddedScoreOptions)
    ensures EmbeddedScoreDocument(r) == Success([("boost", Doc([("value", Num(value))]))])
  {
    EmbeddedScoreOptions(Some(BoostByValue(value)), None, None, None)
  }

  /** `EmbeddedScoreOptions.Boost(string path, float? undefined)` */
  function EmbeddedBoostByPath(path: Option<string>, undefined: Option<Double>): (r: Result<EmbeddedScoreOptions>)
    ensures r.Failure? <==> path.None?
    ensures r.Failure? ==> r.error == ArgumentNull("path")
    ensures r.Success? ==> EmbeddedScoreDocument(r.value) == Success([("boost", Doc(PathBoost(path.value, undefined)))])
  {
    var b :- BoostByPath(path, undefined);
    Success(EmbeddedScoreOptions(Some(b), None, None, None))
  }

  /** `EmbeddedScoreOptions.Constant(float value)` */
  function EmbeddedConstant(value: Double): (r: EmbeddedScoreOptions)
    ensures EmbeddedScoreDocument(r) == Success([("constant", Doc([("value", Num(value))]))])
  {
    EmbeddedScoreOptions(None, Some(ConstantOptions(value)), None, None)
  }

  /** `EmbeddedScoreOptions.Function(BsonDocument function)`, which refuses null. */
  function EmbeddedFunction(expression: Option<Elements>): (r: Result<EmbeddedScoreOptions>)
    ensures r.Failure? <==> expression.None?
    ensures r.Failure? ==> r.error == ArgumentNull("function")
    ensures r.Success? ==> EmbeddedScoreDocument(r.value) == Success([("function", Doc(expression.value))])
  {
    if expression.None? then Failure(ArgumentNull("function"))
    else Success(EmbeddedScoreOptions(None, None, expression, None))
  }

  /** `EmbeddedScoreOptions.Embedded(aggregate = Sum, outerScope = null)`: with the
      defaults it renders `{"embedded": {}}`. */
  function Embedded(aggregate: EmbeddedAggregateStrategy := Sum, outerScope: Option<ScoreOptions> := None): (r: EmbeddedScoreOptions)
    ensures EmbeddedScoreDocument(r).Success? <==> outerScope.None? || ScoreDocument(outerScope.value).Success?
    ensures EmbeddedScoreDocument(r).Success? ==> Keys(EmbeddedScoreDocument(r).value) == ["embedded"]
    ensures aggregate == Sum && outerScope.None? ==> EmbeddedScoreDocument(r) == Success([("embedded", Doc([]))])
    ensures EmbeddedScoreDocument(r)
            == (var e :- EmbeddedDocument(EmbeddedOptions(aggregate, outerScope)); Success([("embedded", Doc(e))]))
  {
    EmbeddedScoreOptions(None, None, None, Some(EmbeddedOptions(aggregate, outerScope)))
  }

  /** An outer scope made by a factory never makes the embedded options fail. */
  lemma EmbeddedOfFactoryScoreRenders(aggregate: EmbeddedAggregateStrategy, value: Double, path: string, undefined: Option<Double>, expression: Elements)
    ensures EmbeddedScoreDocument(Embedded(aggregate, Some(ScoreBoost(value)))).Success?
    ensures EmbeddedScoreDocument(Embedded(aggregate, Some(ScoreBoostByPath(Some(path), undefined).value))).Success?
    ensures EmbeddedScoreDocument(Embedded(aggregate, Some(ScoreConstant(value)))).Success?
    ensures EmbeddedScoreDocument(Embedded(aggregate, Some(ScoreFunction(Some(expression)).value))).Success?
  {
  }
}
