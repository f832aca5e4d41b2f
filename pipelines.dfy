/**
 * The entry points of the basic plotting API, `create_scatter_plot` and
 * `create_line_plot`: validate the keyword arguments, look the builder up in
 * the registry, build the figure, and only when a file path is given look the
 * saver up and save. The steps are recorded in the order they happen.
 */
module Pipelines {
  import opened Values
  import opened Figures
  import opened Registry
  import opened Exports
  import opened PlotArguments
  import Schemas
  import ScatterConfig
  import LineConfig
  import Theming
  import ScatterBuilder
  import ScatterSignature
  import LineBuilder
  import BarBuilder
  import BoxBuilder
  import PlotlySaver

  /** One step of an entry point, in the order the steps ran. */
  datatype Step =
    | Validated
    | BuilderLookup(plotType: string, engine: string)
    | Built(builder: Builder)
    | SaverLookup(engine: string)
    | SavedWith(saver: Saver, path: string)

  /** What an entry point raises. */
  datatype PlotError =
    | Invalid(validation: Schemas.ValidationError)
    | NotFound(lookup: LookupError)
    | BuildFailed(build: ScatterBuilder.BuildError)
    | SaveFailed(save: PlotlySaver.SaveError)

  /** The Plotly Express function behind each builder. */
  function KindOf(b: Builder): Express {
    match b
    case ScatterBuild => Express.Scatter
    case LineBuild => Express.Line
    case BarBuild => Express.Bar
    case BoxBuild => Express.Box
  }

  /**
   * Only the scatter builder can fail: `px.scatter` refuses unknown keywords
   * and its theme reads `x_title` and `y_title`.
   */
  predicate BuildSucceeds(b: Builder, c: Config) {
    b.ScatterBuild? ==> c.fields.Keys !! c.extras.Keys && ScatterBuilder.BuildSucceeds(c)
  }

  /**
   * The figure each builder returns: the Plotly Express call on the data
   * with that builder's arguments, and the styling its theme applies.
   */
  ghost predicate BuiltBy(b: Builder, data: Frame, c: Config, density: Value, fig: Figure)
    reads fig
  {
    && c.fields.Keys !! c.extras.Keys
    && match b
       case ScatterBuild =>
         && Theming.ThemeReady(c) && Theming.ThemedLayout(map[], c).Ok?
         && fig.origin.kind == Express.Scatter && fig.origin.data == data
         && ScatterBuilder.ScatterArgs(c, density, fig.origin.args)
         && fig.tracePatches == [TracePatch(Theming.MarkerPatch(c), Theming.MarkersOnly)]
         && fig.layout == Theming.ThemedLayout(map[], c).value && fig.themes == []
       case LineBuild =>
         && fig.origin == ExpressCall(Express.Line, data, PlotArgs(c.Dump(), LineBuilder.ThemingParams))
         && fig.tracePatches == [] && fig.layout == map[] && fig.themes == [LineTheme]
       case BarBuild =>
         && fig.origin == ExpressCall(Express.Bar, data, PlotArgs(c.Dump(), BarBuilder.ThemingParams))
         && fig.tracePatches == [] && fig.layout == map[] && fig.themes == [BarTheme]
       case BoxBuild =>
         && fig.origin == ExpressCall(Express.Box, data, PlotArgs(c.Dump(), BoxBuilder.ThemingParams))
         && fig.tracePatches == [] && fig.layout == map[] && fig.themes == [BoxTheme]
  }

  /** Calls the registered builder. `density` stands for the density values of the two columns. */
  method RunBuilder(b: Builder, data: Frame, c: Config, density: Value)
    returns (r: Result<Figure, ScatterBuilder.BuildError>)
    requires Theming.ThemeReady(c) && c.fields.Keys !! c.extras.Keys
    ensures r.Ok? <==> BuildSucceeds(b, c)
    ensures r.Ok? ==> fresh(r.value) && r.value.origin.kind == KindOf(b) && BuiltBy(b, data, c, density, r.value)
    ensures r.Err? ==> b.ScatterBuild? && r.error == ScatterBuilder.Failure(c)
  {
    match b
    case ScatterBuild =>
      r := ScatterBuilder.Build(data, c, density);
    case LineBuild =>
      var fig := LineBuilder.Build(data, c);
      r := Ok(fig);
    case BarBuild =>
      var fig := BarBuilder.Build(data, c);
      r := Ok(fig);
    case BoxBuild =>
      var fig := BoxBuilder.Build(data, c);
      r := Ok(fig);
  }

  /** Calls the registered saver. */
  method RunSaver(s: Saver, path: string, oracle: seq<Outcome>) returns (r: Result<(), PlotlySaver.SaveError>)
    ensures r.Ok? <==> PlotlySaver.Succeeds(path, oracle)
    ensures r.Err? ==> r.error.message == PlotlySaver.FailureMessage(path)
  {
    var calls;
    r, calls := PlotlySaver.Save(path, oracle);
  }

  /**
   * The steps an entry point takes: validation always; the builder lookup
   * only after a successful validation; the build only when a builder was
   * found; the saver lookup only after a successful build and only when the
   * path is truthy; the save only when a saver was found.
   */
  function Trace(plotType: string, engine: string, valid: bool, builder: Result<Builder, LookupError>,
                 built: bool, path: Value, saver: Result<Saver, LookupError>): seq<Step>
    requires path.None? || path.Str?
  {
    [Validated] +
    if !valid then [] else
      [BuilderLookup(plotType, engine)] +
      if builder.Err? then [] else
        [Built(builder.value)] +
        if !built then [] else SaveSteps(engine, path, saver)
  }

  /** The saving steps: none without a truthy path; the save only when a saver was found. */
  function SaveSteps(engine: string, path: Value, saver: Result<Saver, LookupError>): seq<Step>
    requires path.None? || path.Str?
  {
    if !Truthy(path) then [] else
      [SaverLookup(engine)] + if saver.Err? then [] else [SavedWith(saver.value, path.s)]
  }

  /** The steps up to the build: validation, then the lookup, then the build. */
  function BuildSteps(plotType: string, engine: string, valid: bool, builder: Result<Builder, LookupError>): seq<Step> {
    [Validated] +
    if !valid then [] else
      [BuilderLookup(plotType, engine)] + if builder.Err? then [] else [Built(builder.value)]
  }

  /** The whole trace is the build steps followed, after a successful build, by the saving steps. */
  lemma TraceSplits(plotType: string, engine: string, valid: bool, builder: Result<Builder, LookupError>,
                    built: bool, path: Value, saver: Result<Saver, LookupError>)
    requires path.None? || path.Str?
    requires built ==> valid && builder.Ok?
    ensures Trace(plotType, engine, valid, builder, built, path, saver) ==
            BuildSteps(plotType, engine, valid, builder) + if built then SaveSteps(engine, path, saver) else []
  {
  }

  /** Validation comes first; when it fails nothing else runs. */
  lemma ValidationFirst(plotType: string, engine: string, valid: bool, builder: Result<Builder, LookupError>,
                        built: bool, path: Value, saver: Result<Saver, LookupError>)
    requires path.None? || path.Str?
    ensures Trace(plotType, engine, valid, builder, built, path, saver)[0] == Validated
    ensures !valid ==> Trace(plotType, engine, valid, builder, built, path, saver) == [Validated]
    ensures valid ==> Trace(plotType, engine, valid, builder, built, path, saver)[1] == BuilderLookup(plotType, engine)
  {
  }

  /** Without a truthy path (None or "") there is no saver lookup and no save. */
  lemma NoPathNoSave(plotType: string, engine: string, valid: bool, builder: Result<Builder, LookupError>,
                     built: bool, path: Value, saver: Result<Saver, LookupError>)
    requires path.None? || path.Str?
    requires !Truthy(path)
    ensures forall i :: 0 <= i < |Trace(plotType, engine, valid, builder, built, path, saver)| ==>
              var step := Trace(plotType, engine, valid, builder, built, path, saver)[i];
              !step.SaverLookup? && !step.SavedWith?
  {
  }

  /** The saver is looked up only after the figure was built, which is the step just before. */
  lemma SaverLookedUpAfterBuild(plotType: string, engine: string, valid: bool, builder: Result<Builder, LookupError>,
                                built: bool, path: Value, saver: Result<Saver, LookupError>, i: nat)
    requires path.None? || path.Str?
    requires i < |Trace(plotType, engine, valid, builder, built, path, saver)|
    requires Trace(plotType, engine, valid, builder, built, path, saver)[i].SaverLookup?
    ensures i == 3 && built && Truthy(path) && builder.Ok?
    ensures Trace(plotType, engine, valid, builder, built, path, saver)[2] == Built(builder.value)
  {
    var t := Trace(plotType, engine, valid, builder, built, path, saver);
    assert valid && builder.Ok? && built && Truthy(path);
  }

  /** Step 4 of an entry point: the optional save of the built figure, which is returned. */
  method SaveStage(saver: Result<Saver, LookupError>, engine: string, fig: Figure, filePath: Value, oracle: seq<Outcome>)
    returns (r: Result<Figure, PlotError>, steps: seq<Step>)
    requires filePath.None? || filePath.Str?
    ensures steps == SaveSteps(engine, filePath, saver)
    ensures r.Ok? <==> (Truthy(filePath) ==> saver.Ok? && PlotlySaver.Succeeds(filePath.s, oracle))
    ensures r.Ok? ==> r.value == fig
    ensures Truthy(filePath) && saver.Err? ==> r == Err(NotFound(saver.error))
    ensures r.Err? && !(Truthy(filePath) && saver.Err?) ==>
              r.error.SaveFailed? && r.error.save.message == PlotlySaver.FailureMessage(filePath.s)
  {
    if !Truthy(filePath) {
      return Ok(fig), [];
    }
    if saver.Err? {
      return Err(NotFound(saver.error)), [SaverLookup(engine)];
    }
    steps := [SaverLookup(engine), SavedWith(saver.value, filePath.s)];
    var saved := RunSaver(saver.value, filePath.s, oracle);
    r := if saved.Ok? then Ok(fig) else Err(SaveFailed(saved.error));
  }

  /**
   * Steps 1 to 3 of an entry point: the validation result, the builder
   * lookup and the build. Nothing is looked up after a failed step.
   */
  method BuildStage(reg: Registry, plotType: string, v: Result<Config, Schemas.ValidationError>, data: Frame,
                    engine: string, density: Value)
    returns (r: Result<Figure, PlotError>, steps: seq<Step>)
    requires v.Ok? ==> Theming.ThemeReady(v.value) && v.value.fields.Keys !! v.value.extras.Keys
    ensures steps == BuildSteps(plotType, engine, v.Ok?, reg.GetBuilder(plotType, engine))
    ensures v.Err? ==> r == Err(Invalid(v.error))
    ensures v.Ok? && reg.GetBuilder(plotType, engine).Err? ==> r == Err(NotFound(reg.GetBuilder(plotType, engine).error))
    ensures v.Ok? && reg.GetBuilder(plotType, engine).Ok? && !BuildSucceeds(reg.GetBuilder(plotType, engine).value, v.value) ==>
              r == Err(BuildFailed(ScatterBuilder.Failure(v.value)))
    ensures r.Ok? <==> v.Ok? && reg.GetBuilder(plotType, engine).Ok? && BuildSucceeds(reg.GetBuilder(plotType, engine).value, v.value)
    ensures r.Ok? ==> fresh(r.value) && BuiltBy(reg.GetBuilder(plotType, engine).value, data, v.value, density, r.value)
  {
    if v.Err? {
      return Err(Invalid(v.error)), [Validated];
    }
    var builder := reg.GetBuilder(plotType, engine);
    if builder.Err? {
      return Err(NotFound(builder.error)), [Validated, BuilderLookup(plotType, engine)];
    }
    steps := [Validated, BuilderLookup(plotType, engine), Built(builder.value)];
    var figure := RunBuilder(builder.value, data, v.value, density);
    r := if figure.Ok? then Ok(figure.value) else Err(BuildFailed(figure.error));
  }

  /**
   * What `create_<plot>_plot` returns: the first failing step's error, and
   * otherwise the figure the registered builder made.
   */
  ghost predicate Delivers(reg: Registry, plotType: string, v: Result<Config, Schemas.ValidationError>, data: Frame,
                           engine: string, filePath: Value, density: Value, oracle: seq<Outcome>,
                           r: Result<Figure, PlotError>)
    requires filePath.None? || filePath.Str?
    requires v.Ok? ==> Theming.ThemeReady(v.value) && v.value.fields.Keys !! v.value.extras.Keys
    reads reg, if r.Ok? then {r.value} else {}
  {
    var b := reg.GetBuilder(plotType, engine);
    var built := v.Ok? && b.Ok? && BuildSucceeds(b.value, v.value);
    && (v.Err? ==> r == Err(Invalid(v.error)))
    && (v.Ok? && b.Err? ==> r == Err(NotFound(b.error)))
    && (v.Ok? && b.Ok? && !BuildSucceeds(b.value, v.value) ==> r == Err(BuildFailed(ScatterBuilder.Failure(v.value))))
    && (built && Truthy(filePath) && reg.GetSaver(engine).Err? ==> r == Err(NotFound(reg.GetSaver(engine).error)))
    && (built && r.Err? && Truthy(filePath) && reg.GetSaver(engine).Ok? ==>
          r.error.SaveFailed? && r.error.save.message == PlotlySaver.FailureMessage(filePath.s))
    && (r.Ok? <==> built && (Truthy(filePath) ==> reg.GetSaver(engine).Ok? && PlotlySaver.Succeeds(filePath.s, oracle)))
    && (r.Ok? ==> BuiltBy(b.value, data, v.value, density, r.value))
  }

  /**
   * `create_<plot>_plot` once the keyword arguments were validated into `v`:
   * the builder registered for `plotType` under `engine`, and the engine's
   * saver when `filePath` is truthy. `oracle` answers the saver's export calls.
   */
  method Create(reg: Registry, plotType: string, v: Result<Config, Schemas.ValidationError>, data: Frame,
                engine: string, filePath: Value, density: Value, oracle: seq<Outcome>)
    returns (r: Result<Figure, PlotError>, steps: seq<Step>)
    requires filePath.None? || filePath.Str?
    requires v.Ok? ==> Theming.ThemeReady(v.value) && v.value.fields.Keys !! v.value.extras.Keys
    ensures var b := reg.GetBuilder(plotType, engine);
            var built := v.Ok? && b.Ok? && BuildSucceeds(b.value, v.value);
            steps == Trace(plotType, engine, v.Ok?, b, built, filePath, reg.GetSaver(engine))
    ensures Delivers(reg, plotType, v, data, engine, filePath, density, oracle, r)
    ensures r.Ok? ==> fresh(r.value)
  {
    var built;
    built, steps := BuildStage(reg, plotType, v, data, engine, density);
    ghost var ok := built.Ok?;
    TraceSplits(plotType, engine, v.Ok?, reg.GetBuilder(plotType, engine), ok, filePath, reg.GetSaver(engine));
    if built.Err? {
      return built, steps;
    }
    var tail;
    r, tail := SaveStage(reg.GetSaver(engine), engine, built.value, filePath, oracle);
    steps := steps + tail;
  }

  /** A validated line configuration is one the scatter theme could read too. */
  lemma LineValidatedIsThemeReady(k: Args, c: Config)
    requires LineConfig.Validate(k) == Ok(c)
    ensures Theming.ThemeReady(c)
  {
    LineConfig.ValidateKeepsModel(k);
    LineConfig.DeclaresX();
    LineConfig.DeclaresY();
    LineConfig.DeclaresLabels();
    Schemas.FieldHolds(LineConfig.Model, k, "x");
    Schemas.FieldHolds(LineConfig.Model, k, "y");
    Schemas.FieldHolds(LineConfig.Model, k, "labels");
  }

  /**
   * A validated line configuration never gets through the scatter builder:
   * without a `color_by_density` extra the builder's first read fails, and
   * with one `px.scatter` refuses the `markers` field.
   */
  lemma LineConfigRefusedByScatter(k: Args, c: Config)
    requires LineConfig.Validate(k) == Ok(c)
    ensures Theming.ThemeReady(c) && c.fields.Keys !! c.extras.Keys
    ensures !BuildSucceeds(ScatterBuild, c)
    ensures "color_by_density" !in k ==>
              ScatterBuilder.Failure(c) == ScatterBuilder.ReadFailed(AttributeError("color_by_density"))
    ensures "color_by_density" in k ==>
              ScatterBuilder.Failure(c).TypeError? && "markers" in ScatterBuilder.Failure(c).unexpected
  {
    assert && Theming.ThemeReady(c) && c.fields.Keys !! c.extras.Keys
           && "markers" in ScatterBuilder.Unexpected(c)
           && (Attr(c, "color_by_density").Ok? <==> "color_by_density" in k) && Attr(c, "color").Ok? by {
      LineValidatedIsThemeReady(k, c);
      LineMarkersRefused(k, c);
      LineColourReads(k, c);
    }
    ScatterBuilder.RefusedKeywordFails(c);
  }

  /** `markers` is a line field with a boolean value, forwarded by the scatter filter and refused by `px.scatter`. */
  lemma LineMarkersRefused(k: Args, c: Config)
    requires LineConfig.Validate(k) == Ok(c)
    ensures c.fields.Keys !! c.extras.Keys
    ensures "markers" in ScatterBuilder.Unexpected(c)
  {
    LineConfig.ValidateKeepsModel(k);
    LineConfig.DeclaresMarkers();
    Schemas.FieldHolds(LineConfig.Model, k, "markers");
    assert c.fields["markers"].Bool?;
    assert "markers" !in ScatterBuilder.ThemingParams;
    ScatterSignature.MarkersNotKeyword();
    PlotArguments.FieldPassed(c, ScatterBuilder.ThemingParams, "markers");
  }

  /** `color` is a line field; `color_by_density` is an attribute only when passed as an extra. */
  lemma LineColourReads(k: Args, c: Config)
    requires LineConfig.Validate(k) == Ok(c)
    ensures Attr(c, "color_by_density").Ok? <==> "color_by_density" in k
    ensures Attr(c, "color").Ok?
  {
    LineConfig.ValidateKeepsModel(k);
    LineConfig.KeepsExtras(k, c);
    assert "color" in LineConfig.Model.fields;
    assert "color_by_density" !in LineConfig.Model.fields;
  }

  /** `create_scatter_plot(data, engine, file_path, **kwargs)`. */
  method CreateScatterPlot(reg: Registry, data: Frame, engine: string, filePath: Value, k: Args,
                           density: Value, oracle: seq<Outcome>)
    returns (r: Result<Figure, PlotError>, steps: seq<Step>)
    requires filePath.None? || filePath.Str?
    ensures var v := ScatterConfig.Validate(k);
            var b := reg.GetBuilder(ScatterType, engine);
            steps == Trace(ScatterType, engine, v.Ok?, b, v.Ok? && b.Ok? && BuildSucceeds(b.value, v.value), filePath, reg.GetSaver(engine))
    ensures ScatterConfig.Validate(k).Ok? ==>
              var c := ScatterConfig.Validate(k).value; Theming.ThemeReady(c) && c.fields.Keys !! c.extras.Keys
    ensures Delivers(reg, ScatterType, ScatterConfig.Validate(k), data, engine, filePath, density, oracle, r)
    ensures r.Ok? ==> fresh(r.value)
  {
    var v := ScatterConfig.Validate(k);
    if v.Ok? {
      Theming.ValidatedIsThemeReady(k, v.value);
    }
    r, steps := Create(reg, ScatterType, v, data, engine, filePath, density, oracle);
  }

  /** `create_line_plot(data, engine, file_path, **kwargs)`. */
  method CreateLinePlot(reg: Registry, data: Frame, engine: string, filePath: Value, k: Args, oracle: seq<Outcome>)
    returns (r: Result<Figure, PlotError>, steps: seq<Step>)
    requires filePath.None? || filePath.Str?
    ensures var v := LineConfig.Validate(k);
            var b := reg.GetBuilder(LineType, engine);
            steps == Trace(LineType, engine, v.Ok?, b, v.Ok? && b.Ok? && BuildSucceeds(b.value, v.value), filePath, reg.GetSaver(engine))
    ensures LineConfig.Validate(k).Ok? ==>
              var c := LineConfig.Validate(k).value; Theming.ThemeReady(c) && c.fields.Keys !! c.extras.Keys
    ensures Delivers(reg, LineType, LineConfig.Validate(k), data, engine, filePath, None, oracle, r)
    ensures r.Ok? ==> fresh(r.value)
  {
    var v := LineConfig.Validate(k);
    if v.Ok? {
      LineValidatedIsThemeReady(k, v.value);
    }
    r, steps := Create(reg, LineType, v, data, engine, filePath, None, oracle);
  }

  /**
   * With the registry as the package import leaves it, a valid line plot
   * request fails at the builder lookup: no line builder is registered.
   */
  method LinePlotAfterImport(data: Frame, filePath: Value, k: Args, oracle: seq<Outcome>)
    returns (r: Result<Figure, PlotError>)
    requires filePath.None? || filePath.Str?
    requires LineConfig.Validate(k).Ok?
    ensures r == Err(NotFound(ValueError(BuilderMissing(LineType, Plotly))))
  {
    var reg := ImportEngines();
    ImportedLookups(reg);
    var steps;
    r, steps := CreateLinePlot(reg, data, Plotly, filePath, k, oracle);
  }
}
