/**
 * The argument preparation every Plotly builder shares: the dumped
 * configuration (fields and extras) without the keys the theme handles and
 * without None values.
 */
module PlotArguments {
  import opened Values

  /** `{k: v for k, v in params.items() if k not in theming and v is not None}`. */
  function PlotArgs(params: map<string, Value>, theming: seq<string>): (a: map<string, Value>)
    ensures forall k :: k in a ==> k in params && a[k] == params[k]
    ensures forall k :: k in theming ==> k !in a
    ensures forall k :: k in a ==> a[k] != None
    ensures forall k :: k in params && k !in theming && params[k] != None ==> k in a
  {
    map k | k in params && k !in theming && params[k] != None :: params[k]
  }

  /** Filtering an already filtered dictionary again changes nothing. */
  lemma PlotArgsIdempotent(params: map<string, Value>, theming: seq<string>)
    ensures PlotArgs(PlotArgs(params, theming), theming) == PlotArgs(params, theming)
  {
    var a := PlotArgs(params, theming);
    assert PlotArgs(a, theming).Keys == a.Keys;
  }

  /** What the builder passes on for a declared field of a configuration. */
  lemma FieldPassed(c: Config, theming: seq<string>, n: string)
    requires c.fields.Keys !! c.extras.Keys && n in c.fields
    ensures n in PlotArgs(c.Dump(), theming) <==> n !in theming && c.fields[n] != None
    ensures n in PlotArgs(c.Dump(), theming) ==> PlotArgs(c.Dump(), theming)[n] == c.fields[n]
  {
  }
}

/** The signature of `plotly.express.scatter`, as far as the builder depends on it. */
module ScatterSignature {
  /**
   * The keyword parameters of `px.scatter`, after `data_frame`, which the
   * builder passes positionally (a `data_frame` keyword would then be given
   * twice). The function takes no `**kwargs`: any other keyword raises
   * TypeError before a figure exists.
   */
  const Keywords: set<string> := Columns + Arrangement + Colours + Styling

  /** The columns mapped to the marks. */
  const Columns: set<string> := {
    "x", "y", "color", "symbol", "size", "hover_name", "hover_data", "custom_data", "text"
  }

  /** Facets, error bars, animation and ordering. */
  const Arrangement: set<string> := {
    "facet_row", "facet_col", "facet_col_wrap", "facet_row_spacing", "facet_col_spacing",
    "error_x", "error_x_minus", "error_y", "error_y_minus", "animation_frame", "animation_group",
    "category_orders", "labels", "orientation"
  }

  /** Colour and symbol scales. */
  const Colours: set<string> := {
    "color_discrete_sequence", "color_discrete_map", "color_continuous_scale", "range_color",
    "color_continuous_midpoint", "symbol_sequence", "symbol_map", "opacity", "size_max"
  }

  /** Marginals, trendlines, axes and the figure itself. */
  const Styling: set<string> := {
    "marginal_x", "marginal_y", "trendline", "trendline_options", "trendline_color_override",
    "trendline_scope", "log_x", "log_y", "range_x", "range_y", "render_mode", "title",
    "subtitle", "template", "width", "height"
  }

  /** Neither title is a keyword of `px.scatter`. */
  lemma TitlesNotKeywords()
    ensures "x_title" !in Keywords && "y_title" !in Keywords
  {
    TitlesNotColumns();
    TitlesNotArrangement();
    TitlesNotColours();
    TitlesNotStyling();
  }

  /** Neither title, nor `markers`, is one of the columns keywords. */
  lemma TitlesNotColumns()
    ensures "x_title" !in Columns && "y_title" !in Columns && "markers" !in Columns
  {
  }

  /** Neither title, nor `markers`, is one of the arrangement keywords. */
  lemma TitlesNotArrangement()
    ensures "x_title" !in Arrangement && "y_title" !in Arrangement && "markers" !in Arrangement
  {
  }

  /** Neither title, nor `markers`, is one of the colours keywords. */
  lemma TitlesNotColours()
    ensures "x_title" !in Colours && "y_title" !in Colours && "markers" !in Colours
  {
  }

  /** Neither title, nor `markers`, is one of the styling keywords. */
  lemma TitlesNotStyling()
    ensures "x_title" !in Styling && "y_title" !in Styling && "markers" !in Styling
  {
  }

  /** `px.scatter` has no `markers` keyword (`px.line` has). */
  lemma MarkersNotKeyword()
    ensures "markers" !in Keywords
  {
    TitlesNotColumns();
    TitlesNotArrangement();
    TitlesNotColours();
    TitlesNotStyling();
  }

  /** The two keywords the builder always or sometimes sets itself. */
  lemma ColorKeywords()
    ensures "color" in Keywords && "color_discrete_map" in Keywords
  {
  }
}

/** `build` of the Plotly scatter engine. */
module ScatterBuilder {
  import opened Values
  import opened Figures
  import opened PlotArguments
  import Theming
  import Schemas
  import ScatterConfig
  import ScatterSignature

  /** The parameters the scatter theme handles, kept out of `px.scatter`. */
  const ThemingParams := [
    "opacity", "size_max", "log_x", "log_y", "range_x", "range_y", "title", "subtitle",
    "template", "width", "height", "marker_line_width", "marker_line_color", "color_by_density"
  ]

  /** Keys of the arguments that the theme does not handle. */
  lemma NotThemingParams()
    ensures "color" !in ThemingParams && "color_discrete_map" !in ThemingParams
    ensures "hover_data" !in ThemingParams
  {
  }

  /** Density mode: `config.color_by_density` can be read and is truthy. */
  predicate ByDensity(c: Config) {
    Attr(c, "color_by_density").Ok? && Truthy(Attr(c, "color_by_density").value)
  }

  /**
   * The value the builder gives "color": `config.color_by_density` is read
   * first, then either the density values or `config.color`. Either read
   * raises AttributeError on a configuration that lacks the attribute.
   */
  function ColorArgument(c: Config, density: Value): (r: Result<Value, AttributeError>)
    ensures r.Ok? <==> Attr(c, "color_by_density").Ok? && (ByDensity(c) || Attr(c, "color").Ok?)
    ensures r.Ok? && ByDensity(c) ==> r.value == density
    ensures r.Ok? && !ByDensity(c) ==> r == Attr(c, "color")
    ensures r.Err? ==> r.error == AttributeError(if Attr(c, "color_by_density").Err? then "color_by_density" else "color")
  {
    var byDensity :- Attr(c, "color_by_density");
    if Truthy(byDensity) then Ok(density) else Attr(c, "color")
  }

  /** Whether the colour reads fail, and how, does not depend on the density values. */
  lemma ColorReadsIgnoreDensity(c: Config, density: Value)
    ensures ColorArgument(c, density).Ok? == ColorArgument(c, None).Ok?
    ensures ColorArgument(c, density).Err? ==> ColorArgument(c, density).error == ColorArgument(c, None).error
  {
  }

  /**
   * The arguments of `px.scatter`: "color" is always set, to the density
   * values in density mode and to the configured colour (possibly None)
   * otherwise; density mode drops "color_discrete_map"; every other key is
   * exactly as the shared filter leaves it.
   */
  ghost predicate ScatterArgs(c: Config, density: Value, a: map<string, Value>)
    requires c.fields.Keys !! c.extras.Keys
  {
    var byDensity := ByDensity(c);
    var filtered := PlotArgs(c.Dump(), ThemingParams);
    && ColorArgument(c, density).Ok?
    && "color" in a
    && a["color"] == ColorArgument(c, density).value
    && (byDensity ==> "color_discrete_map" !in a)
    && forall k :: k != "color" && !(byDensity && k == "color_discrete_map") ==>
         (k in a <==> k in filtered) && (k in a ==> a[k] == filtered[k])
  }

  /**
   * The argument dictionary, built as the source does: filter, then assign
   * "color" and, in density mode, delete "color_discrete_map". `density`
   * stands for `get_density(...)` of the two plotted columns.
   */
  method PlotArgsFor(c: Config, density: Value) returns (r: Result<map<string, Value>, AttributeError>)
    requires c.fields.Keys !! c.extras.Keys
    ensures r.Ok? <==> ColorArgument(c, density).Ok?
    ensures r.Err? ==> r.error == ColorArgument(c, density).error
    ensures r.Ok? ==> ScatterArgs(c, density, r.value)
    ensures r.Ok? ==> forall k :: k in ThemingParams ==> k !in r.value
  {
    NotThemingParams();
    var a := PlotArgs(c.Dump(), ThemingParams);
    var byDensity := Attr(c, "color_by_density");
    if byDensity.Err? {
      return Err(byDensity.error);
    }
    if Truthy(byDensity.value) {
      assert ByDensity(c) && ColorArgument(c, density) == Ok(density);
      a := a["color" := density];
      if "color_discrete_map" in a {
        a := map k | k in a && k != "color_discrete_map" :: a[k];
      }
    } else {
      var color := Attr(c, "color");
      assert !ByDensity(c) && ColorArgument(c, density) == color;
      if color.Err? {
        return Err(color.error);
      }
      a := a["color" := color.value];
    }
    r := Ok(a);
  }

  /** The filtered keywords `px.scatter` does not accept. */
  function Unexpected(c: Config): set<string>
    requires c.fields.Keys !! c.extras.Keys
  {
    set k | k in PlotArgs(c.Dump(), ThemingParams) && k !in ScatterSignature.Keywords
  }

  /**
   * Why `build` fails: the AttributeError of its own colour reads,
   * `px.scatter`'s TypeError, or the theme's error.
   */
  datatype BuildError =
    | ReadFailed(attribute: AttributeError)
    | TypeError(unexpected: set<string>)
    | ThemeFailed(theme: Theming.ThemeError)

  /**
   * The `mode` of the traces `px.scatter` draws from the builder's
   * arguments: with text when `text` is forwarded with a truthy value.
   */
  function ScatterMode(c: Config): Value
    requires c.fields.Keys !! c.extras.Keys
  {
    Str(if Given(PlotArgs(c.Dump(), ThemingParams), "text") then "markers+text" else "markers")
  }

  /** The figure drawn from the prepared arguments has the traces' mode of the filtered ones. */
  lemma ModeOfArgs(c: Config, density: Value, data: Frame, a: map<string, Value>)
    requires c.fields.Keys !! c.extras.Keys && ScatterArgs(c, density, a)
    ensures TraceMode(ExpressCall(Express.Scatter, data, a)) == ScatterMode(c)
  {
    assert ("text" in a <==> "text" in PlotArgs(c.Dump(), ThemingParams));
  }

  /**
   * When `build` returns a figure: the colour attributes can be read, every
   * forwarded keyword is accepted, the traces carry text (so the theme's
   * selector passes them over) and both titles can be read.
   */
  predicate BuildSucceeds(c: Config)
    requires c.fields.Keys !! c.extras.Keys
  {
    && ColorArgument(c, None).Ok?
    && Unexpected(c) == {} && Theming.ThemeReady(c)
    && ScatterMode(c) != Str("markers") && Theming.ThemedLayout(map[], c).Ok?
  }

  /**
   * The error of a `build` that fails: the colour read's first, then the
   * TypeError, then Plotly's refusal of `size_max` on marker traces, else the
   * title the theme cannot read.
   */
  function Failure(c: Config): BuildError
    requires c.fields.Keys !! c.extras.Keys && Theming.ThemeReady(c) && !BuildSucceeds(c)
  {
    if ColorArgument(c, None).Err? then ReadFailed(ColorArgument(c, None).error)
    else if Unexpected(c) != {} then TypeError(Unexpected(c))
    else if ScatterMode(c) == Str("markers") then ThemeFailed(Theming.PropertyRefused(Theming.SizeMaxRefused))
    else ThemeFailed(Theming.TitleUnreadable(Theming.ThemedLayout(map[], c).error))
  }

  /** A refused keyword makes `build` fail, after the colour reads and before the theme. */
  lemma RefusedKeywordFails(c: Config)
    requires c.fields.Keys !! c.extras.Keys && Theming.ThemeReady(c) && Unexpected(c) != {}
    ensures !BuildSucceeds(c)
    ensures ColorArgument(c, None).Err? ==> Failure(c) == ReadFailed(ColorArgument(c, None).error)
    ensures ColorArgument(c, None).Ok? ==> Failure(c) == TypeError(Unexpected(c))
  {
  }

  /**
   * `build(data, config)`: the colour reads, then `px.scatter` on the
   * prepared arguments, which raises TypeError for a keyword it does not
   * take, then the scatter theme once, whose error propagates.
   */
  method Build(data: Frame, c: Config, density: Value) returns (r: Result<Figure, BuildError>)
    requires Theming.ThemeReady(c) && c.fields.Keys !! c.extras.Keys
    ensures r.Ok? <==> BuildSucceeds(c)
    ensures r.Ok? ==> fresh(r.value)
    ensures r.Ok? ==> r.value.origin.kind == Express.Scatter && r.value.origin.data == data
    ensures r.Ok? ==> ScatterArgs(c, density, r.value.origin.args)
    ensures r.Ok? ==> r.value.tracePatches == [TracePatch(Theming.MarkerPatch(c), Theming.MarkersOnly)]
    ensures r.Ok? ==> r.value.layout == Theming.ThemedLayout(map[], c).value && r.value.themes == []
    ensures r.Err? ==> r.error == Failure(c)
  {
    var prepared := PlotArgsFor(c, density);
    ColorReadsIgnoreDensity(c, density);
    if prepared.Err? {
      return Err(ReadFailed(prepared.error));
    }
    var args := prepared.value;
    var unexpected := set k | k in args && k !in ScatterSignature.Keywords;
    SameUnexpected(c, density, args);
    if unexpected != {} {
      return Err(TypeError(unexpected));
    }
    var fig := new Figure(ExpressCall(Express.Scatter, data, args));
    ModeOfArgs(c, density, data, args);
    Theming.ThemedIff(map[], ScatterMode(c), c);
    var themed := Theming.ApplyScatterTheme(fig, c);
    r := if themed.Ok? then Ok(themed.value) else Err(ThemeFailed(themed.error));
  }

  /** "color" and "color_discrete_map" are keywords, so the final arguments are refused exactly as the filtered ones. */
  lemma SameUnexpected(c: Config, density: Value, a: map<string, Value>)
    requires c.fields.Keys !! c.extras.Keys && ScatterArgs(c, density, a)
    ensures (set k | k in a && k !in ScatterSignature.Keywords) == Unexpected(c)
  {
    ScatterSignature.ColorKeywords();
  }

  /** Every declared field that is forwarded is a keyword of `px.scatter`: only extras can be refused. */
  lemma DeclaredFieldsAccepted(k: Args, c: Config)
    requires ScatterConfig.Validate(k) == Ok(c)
    ensures c.fields.Keys !! c.extras.Keys
    ensures Unexpected(c) == set n | n in c.extras && c.extras[n] != None && n !in ScatterSignature.Keywords
  {
    ScatterConfig.ValidateKeepsModel(k);
    assert forall n :: n in ScatterConfig.Model.fields && n !in ThemingParams ==> n in ScatterSignature.Keywords;
  }

  /**
   * `x_title` and `y_title` are not keywords of `px.scatter`: passed with a
   * value other than None they are refused there, so a build that succeeds
   * had both passed, and passed as None (the theme then falls back to the
   * title-cased columns).
   */
  lemma TitlesOnlyAsNone(k: Args, c: Config)
    requires ScatterConfig.Validate(k) == Ok(c)
    ensures Theming.ThemeReady(c) && c.fields.Keys !! c.extras.Keys
    ensures "x_title" in k && k["x_title"] != None ==> "x_title" in Unexpected(c)
    ensures "y_title" in k && k["y_title"] != None ==> "y_title" in Unexpected(c)
    ensures BuildSucceeds(c) ==> "x_title" in k && k["x_title"] == None && "y_title" in k && k["y_title"] == None
  {
    assert Theming.ThemeReady(c) && (Theming.ThemedLayout(map[], c).Ok? ==> "x_title" in k && "y_title" in k) by {
      Theming.NeedsTitleExtras(k, c);
    }
    TitleRefused(k, c, "x_title");
    TitleRefused(k, c, "y_title");
  }

  /** A title passed with a value other than None is refused by `px.scatter`. */
  lemma TitleRefused(k: Args, c: Config, n: string)
    requires ScatterConfig.Validate(k) == Ok(c)
    requires n == "x_title" || n == "y_title"
    ensures c.fields.Keys !! c.extras.Keys
    ensures n in k && k[n] != None ==> n in Unexpected(c)
  {
    ScatterConfig.TitlesUndeclared();
    ScatterSignature.TitlesNotKeywords();
    ScatterConfig.KeepsExtras(k, c);
    DeclaredFieldsAccepted(k, c);
  }

  /**
   * Without a `text` column `px.scatter` draws markers alone, which the
   * theme's selector picks, so Plotly refuses `size_max`: a build that gets
   * past `px.scatter` with a validated configuration fails unless `text` is
   * passed.
   */
  lemma NeedsText(k: Args, c: Config)
    requires ScatterConfig.Validate(k) == Ok(c)
    ensures Theming.ThemeReady(c) && c.fields.Keys !! c.extras.Keys
    ensures ScatterMode(c) == Str(if "text" in k && Truthy(k["text"]) then "markers+text" else "markers")
    ensures BuildSucceeds(c) ==> "text" in k && Truthy(k["text"])
    ensures !("text" in k && Truthy(k["text"])) && ColorArgument(c, None).Ok? && Unexpected(c) == {} ==>
              Failure(c) == ThemeFailed(Theming.PropertyRefused(Theming.SizeMaxRefused))
  {
    Theming.ValidatedIsThemeReady(k, c);
    TextMode(k, c);
  }

  /** The traces carry text exactly when a truthy `text` was passed. */
  lemma TextMode(k: Args, c: Config)
    requires ScatterConfig.Validate(k) == Ok(c)
    ensures c.fields.Keys !! c.extras.Keys
    ensures ScatterMode(c) == Str(if "text" in k && Truthy(k["text"]) then "markers+text" else "markers")
  {
    var text := if "text" in k then k["text"] else None;
    assert c.fields.Keys !! c.extras.Keys && "text" in c.fields && c.fields["text"] == text by {
      ScatterConfig.ValidateKeepsModel(k);
      ScatterConfig.DeclaresText();
      Schemas.OptionalValue(ScatterConfig.Model, k, "text");
    }
    ModeOfText(c, text);
  }

  /** The traces carry text exactly when the `text` field is truthy. */
  lemma ModeOfText(c: Config, text: Value)
    requires c.fields.Keys !! c.extras.Keys && "text" in c.fields && c.fields["text"] == text
    ensures ScatterMode(c) == Str(if Truthy(text) then "markers+text" else "markers")
  {
    assert "text" !in ThemingParams;
    FieldPassed(c, ThemingParams, "text");
  }

  /** An omitted `hover_data` reaches `px.scatter` as the empty list: falsy, but not None. */
  lemma EmptyHoverDataForwarded(k: Args, c: Config, density: Value, a: map<string, Value>)
    requires ScatterConfig.Validate(k) == Ok(c) && "hover_data" !in k
    requires ScatterArgs(c, density, a)
    ensures "hover_data" in a && a["hover_data"] == List([])
  {
    ScatterConfig.ValidateKeepsModel(k);
    ScatterConfig.DeclaresHoverData();
    ScatterConfig.FlagDefaults(k, c);
    NotThemingParams();
    FieldPassed(c, ThemingParams, "hover_data");
  }
}

/** `build` of the Plotly line engine. */
module LineBuilder {
  import opened Values
  import opened Figures
  import opened PlotArguments
  import LineConfig

  /** The parameters `apply_line_theme` handles, kept out of `px.line`. */
  const ThemingParams := [
    "markers", "log_x", "log_y", "range_x", "range_y", "line_shape", "title",
    "subtitle", "template", "width", "height"
  ]

  /** `build(data, config)`: `px.line` on the filtered arguments, then the line theme once. */
  method Build(data: Frame, c: Config) returns (fig: Figure)
    requires c.fields.Keys !! c.extras.Keys
    ensures fresh(fig)
    ensures fig.origin == ExpressCall(Express.Line, data, PlotArgs(c.Dump(), ThemingParams))
    ensures fig.themes == [LineTheme] && fig.tracePatches == [] && fig.layout == map[]
  {
    fig := new Figure(ExpressCall(Express.Line, data, PlotArgs(c.Dump(), ThemingParams)));
    fig.ApplyOpaque(LineTheme);
  }

  lemma HoverDataNotThemed()
    ensures "hover_data" !in ThemingParams
  {
  }

  /** An omitted `hover_data` reaches `px.line` as the empty list: falsy, but not None. */
  lemma EmptyHoverDataForwarded(k: Args, c: Config)
    requires LineConfig.Validate(k) == Ok(c) && "hover_data" !in k
    ensures "hover_data" in PlotArgs(c.Dump(), ThemingParams)
    ensures PlotArgs(c.Dump(), ThemingParams)["hover_data"] == List([])
  {
    LineConfig.ValidateKeepsModel(k);
    LineConfig.DeclaresHoverData();
    LineConfig.StyleDefaults(k, c);
    HoverDataNotThemed();
    FieldPassed(c, ThemingParams, "hover_data");
  }
}

/** `build` of the Plotly bar engine. */
module BarBuilder {
  import opened Values
  import opened Figures
  import opened PlotArguments
  import BarConfig

  /** The parameters `apply_bar_theme` handles, kept out of `px.bar`. */
  const ThemingParams := [
    "opacity", "orientation", "barmode", "log_x", "log_y", "range_x", "range_y", "title",
    "x_title", "y_title", "subtitle", "template", "width", "height"
  ]

  /** `build(data, config)`: `px.bar` on the filtered arguments, then the bar theme once. */
  method Build(data: Frame, c: Config) returns (fig: Figure)
    requires c.fields.Keys !! c.extras.Keys
    ensures fresh(fig)
    ensures fig.origin == ExpressCall(Express.Bar, data, PlotArgs(c.Dump(), ThemingParams))
    ensures fig.themes == [BarTheme] && fig.tracePatches == [] && fig.layout == map[]
  {
    fig := new Figure(ExpressCall(Express.Bar, data, PlotArgs(c.Dump(), ThemingParams)));
    fig.ApplyOpaque(BarTheme);
  }

  lemma ColorNotThemed()
    ensures "color" !in ThemingParams
  {
  }

  /** "color" is forwarded exactly when it is not None, with its value: no colour handling. */
  lemma ColorForwardedIffSet(k: Args, c: Config)
    requires BarConfig.Validate(k) == Ok(c)
    ensures "color" in PlotArgs(c.Dump(), ThemingParams) <==> c.fields["color"] != None
    ensures "color" in PlotArgs(c.Dump(), ThemingParams) ==> PlotArgs(c.Dump(), ThemingParams)["color"] == c.fields["color"]
  {
    BarConfig.ValidateKeepsModel(k);
    BarConfig.DeclaresColor();
    ColorNotThemed();
    FieldPassed(c, ThemingParams, "color");
  }
}

/** `build` of the Plotly box engine. */
module BoxBuilder {
  import opened Values
  import opened Figures
  import opened PlotArguments
  import BoxConfig

  /** The parameters `apply_box_theme` handles, kept out of `px.box`; `orientation` is not one. */
  const ThemingParams := [
    "boxmode", "log_x", "log_y", "range_x", "range_y", "notched", "points", "title",
    "x_title", "y_title", "subtitle", "template", "width", "height"
  ]

  /** `build(data, config)`: `px.box` on the filtered arguments, then the box theme once. */
  method Build(data: Frame, c: Config) returns (fig: Figure)
    requires c.fields.Keys !! c.extras.Keys
    ensures fresh(fig)
    ensures fig.origin == ExpressCall(Express.Box, data, PlotArgs(c.Dump(), ThemingParams))
    ensures fig.themes == [BoxTheme] && fig.tracePatches == [] && fig.layout == map[]
  {
    fig := new Figure(ExpressCall(Express.Box, data, PlotArgs(c.Dump(), ThemingParams)));
    fig.ApplyOpaque(BoxTheme);
  }

  lemma ColumnsNotThemed()
    ensures "orientation" !in ThemingParams && "x" !in ThemingParams && "y" !in ThemingParams
  {
  }

  /** `orientation` is forwarded whenever it is set; unset `x` or `y` are not forwarded at all. */
  lemma OrientationAndColumns(k: Args, c: Config)
    requires BoxConfig.Validate(k) == Ok(c)
    ensures c.fields["orientation"] != None ==>
              PlotArgs(c.Dump(), ThemingParams)["orientation"] == c.fields["orientation"]
    ensures "x" !in k ==> "x" !in PlotArgs(c.Dump(), ThemingParams)
    ensures "y" !in k ==> "y" !in PlotArgs(c.Dump(), ThemingParams)
  {
    BoxConfig.ValidateKeepsModel(k);
    BoxConfig.DeclaresOrientation();
    BoxConfig.DeclaresX();
    BoxConfig.DeclaresY();
    BoxConfig.OptionalDefaults(k, c);
    ColumnsNotThemed();
    FieldPassed(c, ThemingParams, "orientation");
    FieldPassed(c, ThemingParams, "x");
    FieldPassed(c, ThemingParams, "y");
  }
}
