/**
 * `apply_scatter_theme` of the Plotly engine: one `update_traces` call that
 * styles the markers, then two `update_layout` calls on the same layout, the
 * second overwriting part of what the first set. The marker patch holds
 * `size_max`, which is an argument of `px.scatter` and not a marker property,
 * so Plotly refuses it on every trace the selector picks.
 */
module Theming {
  import opened Values
  import opened Text
  import opened Figures
  import Schemas
  import ScatterConfig

  /**
   * What the theme reads from its configuration beyond plain field values:
   * `x` and `y` are column names and `labels` is None or a dictionary.
   */
  predicate ThemeReady(c: Config) {
    && c.Field("x").Str? && c.Field("y").Str?
    && (c.Field("labels").None? || c.Field("labels").Dict?)
  }

  /** `labels.get(col, col.title()) if labels else col.title()`. */
  function LabelledTitle(labels: Value, col: string): (t: Value)
    requires labels.None? || labels.Dict?
    ensures labels.Dict? && col in labels.entries ==> t == labels.entries[col]
    ensures !(labels.Dict? && col in labels.entries) ==> t == Str(Title(col))
  {
    if Truthy(labels) then
      (if col in labels.entries then labels.entries[col] else Str(Title(col)))
    else Str(Title(col))
  }

  /** `"log" if flag else "linear"`. */
  function AxisType(log: Value): (t: string)
    ensures t == "log" <==> Truthy(log)
    ensures t == "linear" <==> !Truthy(log)
  {
    if Truthy(log) then "log" else "linear"
  }

  /** The marker styling patch, taken from the configuration. */
  function MarkerPatch(c: Config): map<string, Value> {
    map["marker" := Dict(map[
      "opacity" := c.Field("opacity"),
      "line" := Dict(map["width" := c.Field("marker_line_width"), "color" := c.Field("marker_line_color")]),
      "size_max" := c.Field("size_max")
    ])]
  }

  /** `selector=dict(mode="markers")`: only traces drawn as markers alone are styled. */
  const MarkersOnly := ModeIs("markers")

  /** Plotly's ValueError for the marker patch: `size_max` is not a property of a scatter marker. */
  const SizeMaxRefused := InvalidProperties("scatter.Marker", {"size_max"})

  /** `size_max` is the one key of the marker patch that a scatter marker lacks; its outline is accepted. */
  lemma MarkerPatchRefused(c: Config)
    ensures CheckPatch(MarkerPatch(c)) == Err(SizeMaxRefused)
  {
    var marker := MarkerPatch(c)["marker"];
    assert "opacity" in MarkerShapes && "line" in MarkerShapes;
    SizeMaxNoMarkerProperty();
    assert Unknown(marker, MarkerProperties) == {"size_max"};
  }

  /** `size_max` is neither a colour-scale nor a shape property of a marker. */
  lemma SizeMaxNoMarkerProperty()
    ensures "size_max" !in MarkerProperties
  {
    assert "size_max" !in MarkerScales;
    assert "size_max" !in MarkerShapes;
  }

  /** Why the theme fails: Plotly's refusal of the marker patch, or a title that cannot be read. */
  datatype ThemeError =
    | PropertyRefused(property: PropertyError)
    | TitleUnreadable(attribute: AttributeError)

  /** The horizontal legend above the plot. */
  const LegendStyle := Dict(map[
    "orientation" := Str("h"), "yanchor" := Str("bottom"), "y" := Real(1.02),
    "xanchor" := Str("right"), "x" := Int(1)
  ])

  /** The properties the first `update_layout` sets. */
  const FirstKeys: set<LayoutKey> := {
    TitleText, TitleSubtitleText, XaxisTitle, YaxisTitle, Height, Width, Template,
    XaxisType, YaxisType, XaxisRange, YaxisRange, Hovermode
  }

  /** The value the first `update_layout` gives each of its properties. */
  function FirstValue(c: Config, key: LayoutKey): Value
    requires ThemeReady(c)
  {
    match key
    case TitleText => c.Field("title")
    case TitleSubtitleText => c.Field("subtitle")
    case XaxisTitle => LabelledTitle(c.Field("labels"), c.Field("x").s)
    case YaxisTitle => LabelledTitle(c.Field("labels"), c.Field("y").s)
    case Height => c.Field("height")
    case Width => c.Field("width")
    case Template => c.Field("template")
    case XaxisType => Str(AxisType(c.Field("log_x")))
    case YaxisType => Str(AxisType(c.Field("log_y")))
    case XaxisRange => c.Field("range_x")
    case YaxisRange => c.Field("range_y")
    case Hovermode => Str("closest")
    case _ => None // not one of its properties
  }

  /** The arguments of the first `update_layout`. */
  function FirstLayout(c: Config): Layout
    requires ThemeReady(c)
  {
    map key | key in FirstKeys :: FirstValue(c, key)
  }

  /** The properties the second `update_layout` sets. */
  const SecondKeys: set<LayoutKey> := {TitleText, XaxisTitle, YaxisTitle, Height, Width, Template, Legend, Hovermode}

  /** The value the second `update_layout` gives each of its properties, given the two titles read. */
  function SecondValue(c: Config, xTitle: Value, yTitle: Value, key: LayoutKey): Value
    requires ThemeReady(c)
  {
    match key
    case TitleText => c.Field("title")
    case XaxisTitle => Or(xTitle, Str(Title(c.Field("x").s)))
    case YaxisTitle => Or(yTitle, Str(Title(c.Field("y").s)))
    case Height => c.Field("height")
    case Width => c.Field("width")
    case Template => Str("plotly_white")
    case Legend => LegendStyle
    case Hovermode => Str("closest")
    case _ => None // not one of its properties
  }

  /**
   * The arguments of the second `update_layout`. They are evaluated before
   * the call, and reading `x_title` or `y_title` fails with AttributeError
   * when the configuration has it neither as a field nor as an extra.
   */
  function SecondLayout(c: Config): Result<Layout, AttributeError>
    requires ThemeReady(c)
  {
    var xTitle :- Attr(c, "x_title");
    var yTitle :- Attr(c, "y_title");
    Ok(map key | key in SecondKeys :: SecondValue(c, xTitle, yTitle, key))
  }

  /**
   * The layout after the theme: the first patch over the old layout, then the
   * second over that; an AttributeError stops the theme after the first.
   */
  function ThemedLayout(before: Layout, c: Config): Result<Layout, AttributeError>
    requires ThemeReady(c)
  {
    var second :- SecondLayout(c);
    Ok(before + FirstLayout(c) + second)
  }

  /**
   * What the theme does to a figure whose traces have the given mode: the
   * marker patch is refused when the selector picks them; otherwise the
   * layout is themed, unless a title cannot be read.
   */
  function Themed(before: Layout, mode: Value, c: Config): Result<Layout, ThemeError>
    requires ThemeReady(c)
  {
    if Selects(MarkersOnly, mode) && CheckPatch(MarkerPatch(c)).Err? then
      Err(PropertyRefused(CheckPatch(MarkerPatch(c)).error))
    else match ThemedLayout(before, c)
      case Ok(l) => Ok(l)
      case Err(e) => Err(TitleUnreadable(e))
  }

  /**
   * `apply_scatter_theme(fig, config)`. On traces drawn as markers alone it
   * raises Plotly's ValueError before changing the figure; otherwise it
   * records the marker patch and themes the layout.
   */
  method ApplyScatterTheme(fig: Figure, c: Config) returns (r: Result<Figure, ThemeError>)
    requires ThemeReady(c)
    modifies fig
    ensures r.Ok? <==> Themed(old(fig.layout), TraceMode(fig.origin), c).Ok?
    ensures r.Err? ==> r.error == Themed(old(fig.layout), TraceMode(fig.origin), c).error
    ensures r.Ok? ==> r.value == fig && fig.layout == Themed(old(fig.layout), TraceMode(fig.origin), c).value
    ensures fig.tracePatches == if Selects(MarkersOnly, TraceMode(fig.origin)) then old(fig.tracePatches)
                                else old(fig.tracePatches) + [TracePatch(MarkerPatch(c), MarkersOnly)]
    ensures r.Err? ==> fig.layout == if Selects(MarkersOnly, TraceMode(fig.origin)) then old(fig.layout)
                                     else old(fig.layout) + FirstLayout(c)
    ensures fig.themes == old(fig.themes)
  {
    MarkerPatchRefused(c);
    var traced := fig.UpdateTraces(MarkerPatch(c), MarkersOnly);
    if traced.Err? {
      return Err(PropertyRefused(traced.error));
    }
    fig.UpdateLayout(FirstLayout(c));
    var second := SecondLayout(c);
    if second.Err? {
      return Err(TitleUnreadable(second.error));
    }
    fig.UpdateLayout(second.value);
    return Ok(fig);
  }

  /**
   * The theme succeeds exactly when the traces are not drawn as markers
   * alone and both titles can be read; on marker traces it fails with the
   * refusal of `size_max`, otherwise with the layout's AttributeError.
   */
  lemma ThemedIff(before: Layout, mode: Value, c: Config)
    requires ThemeReady(c)
    ensures Themed(before, mode, c).Ok? <==> mode != Str("markers") && ThemedLayout(before, c).Ok?
    ensures mode == Str("markers") ==> Themed(before, mode, c) == Err(PropertyRefused(SizeMaxRefused))
    ensures mode != Str("markers") && ThemedLayout(before, c).Ok? ==>
              Themed(before, mode, c) == Ok(ThemedLayout(before, c).value)
    ensures mode != Str("markers") && ThemedLayout(before, c).Err? ==>
              Themed(before, mode, c) == Err(TitleUnreadable(ThemedLayout(before, c).error))
  {
    MarkerPatchRefused(c);
  }

  /** The theme fails exactly when `x_title` or `y_title` cannot be read. */
  lemma ThemeFailsIff(before: Layout, c: Config)
    requires ThemeReady(c)
    ensures ThemedLayout(before, c).Err? <==>
              !(("x_title" in c.fields || "x_title" in c.extras) && ("y_title" in c.fields || "y_title" in c.extras))
    ensures ThemedLayout(before, c).Err? ==>
              ThemedLayout(before, c).error == AttributeError(if Attr(c, "x_title").Err? then "x_title" else "y_title")
  {
  }

  /** The first pass titles an axis from `labels` when it names the column, else from `col.title()`. */
  lemma FirstPassTitles(c: Config)
    requires ThemeReady(c)
    ensures var labels, x := c.Field("labels"), c.Field("x").s;
            FirstLayout(c)[XaxisTitle] == if labels.Dict? && x in labels.entries then labels.entries[x] else Str(Title(x))
    ensures var labels, y := c.Field("labels"), c.Field("y").s;
            FirstLayout(c)[YaxisTitle] == if labels.Dict? && y in labels.entries then labels.entries[y] else Str(Title(y))
  {
  }

  /** Which pass sets which property. */
  lemma KeySets()
    ensures forall key :: key in FirstKeys <==> !key.Other? && !key.Legend?
    ensures forall key :: key in SecondKeys <==>
              key in {TitleText, XaxisTitle, YaxisTitle, Height, Width, Template, Legend, Hovermode}
    ensures TitleSubtitleText !in SecondKeys && XaxisType !in SecondKeys && YaxisType !in SecondKeys
    ensures XaxisRange !in SecondKeys && YaxisRange !in SecondKeys
    ensures XaxisTitle in SecondKeys && YaxisTitle in SecondKeys && Template in SecondKeys
  {
  }

  /** The values the first pass gives the properties that only it sets. */
  lemma FirstOnlyValues(c: Config)
    requires ThemeReady(c)
    ensures FirstValue(c, TitleSubtitleText) == c.Field("subtitle")
    ensures FirstValue(c, XaxisType) == Str(if Truthy(c.Field("log_x")) then "log" else "linear")
    ensures FirstValue(c, YaxisType) == Str(if Truthy(c.Field("log_y")) then "log" else "linear")
    ensures FirstValue(c, XaxisRange) == c.Field("range_x")
    ensures FirstValue(c, YaxisRange) == c.Field("range_y")
  {
  }

  /**
   * Each property of the themed layout comes from the last pass that sets
   * it: the second, else the first, else the old layout.
   */
  lemma ThemedAt(before: Layout, c: Config, l: Layout, key: LayoutKey)
    requires ThemeReady(c) && ThemedLayout(before, c) == Ok(l)
    ensures key in l <==> key in before || key in FirstKeys || key in SecondKeys
    ensures key in SecondKeys ==> l[key] == SecondValue(c, Attr(c, "x_title").value, Attr(c, "y_title").value, key)
    ensures key !in SecondKeys && key in FirstKeys ==> l[key] == FirstValue(c, key)
    ensures key !in SecondKeys && key !in FirstKeys && key in before ==> l[key] == before[key]
  {
    var first, second := FirstLayout(c), SecondLayout(c).value;
    assert l == before + first + second;
    LastWriteWins(before + first, second, key);
    LastWriteWins(before, first, key);
  }

  /**
   * After the theme the axis titles are `x_title` when truthy, else the
   * title-cased column name; the template is always "plotly_white".
   */
  lemma FinalTitlesAndTemplate(before: Layout, c: Config, l: Layout)
    requires ThemeReady(c) && ThemedLayout(before, c) == Ok(l)
    ensures var xt := Attr(c, "x_title").value;
            l[XaxisTitle] == if Truthy(xt) then xt else Str(Title(c.Field("x").s))
    ensures var yt := Attr(c, "y_title").value;
            l[YaxisTitle] == if Truthy(yt) then yt else Str(Title(c.Field("y").s))
    ensures l[Template] == Str("plotly_white")
  {
    KeySets();
    ThemedAt(before, c, l, XaxisTitle);
    ThemedAt(before, c, l, YaxisTitle);
    ThemedAt(before, c, l, Template);
  }

  /** What only the first pass sets survives the second: the subtitle and the ranges. */
  lemma FirstPassSurvives(before: Layout, c: Config, l: Layout)
    requires ThemeReady(c) && ThemedLayout(before, c) == Ok(l)
    ensures l[TitleSubtitleText] == c.Field("subtitle")
    ensures l[XaxisRange] == c.Field("range_x")
    ensures l[YaxisRange] == c.Field("range_y")
  {
    KeySets();
    FirstOnlyValues(c);
    ThemedAt(before, c, l, TitleSubtitleText);
    ThemedAt(before, c, l, XaxisRange);
    ThemedAt(before, c, l, YaxisRange);
  }

  /** An axis is logarithmic exactly when its `log_x`/`log_y` switch is truthy, else linear. */
  lemma AxisTypes(before: Layout, c: Config, l: Layout)
    requires ThemeReady(c) && ThemedLayout(before, c) == Ok(l)
    ensures l[XaxisType] == Str(if Truthy(c.Field("log_x")) then "log" else "linear")
    ensures l[YaxisType] == Str(if Truthy(c.Field("log_y")) then "log" else "linear")
  {
    KeySets();
    FirstOnlyValues(c);
    ThemedAt(before, c, l, XaxisType);
    ThemedAt(before, c, l, YaxisType);
  }

  /** The layout properties the theme sets. */
  const ThemeKeys: set<LayoutKey> := {
    TitleText, TitleSubtitleText, XaxisTitle, YaxisTitle, Height, Width,
    Template, XaxisType, YaxisType, XaxisRange, YaxisRange, Hovermode, Legend
  }

  /** Layout properties the theme does not set keep their old values. */
  lemma OtherKeysKept(before: Layout, c: Config, l: Layout)
    requires ThemeReady(c) && ThemedLayout(before, c) == Ok(l)
    ensures l.Keys == before.Keys + ThemeKeys
    ensures forall key :: key in before && key !in ThemeKeys ==> l[key] == before[key]
  {
    assert FirstKeys + SecondKeys == ThemeKeys;
    forall key ensures key in l <==> key in before || key in ThemeKeys {
      ThemedAt(before, c, l, key);
    }
    forall key | key in before && key !in ThemeKeys ensures l[key] == before[key] {
      ThemedAt(before, c, l, key);
    }
  }

  /** The configuration with its `labels` field replaced. */
  function WithLabels(c: Config, labels: Value): (c': Config)
    ensures c'.Field("labels") == labels
    ensures forall n :: n != "labels" ==> c'.Field(n) == c.Field(n)
    ensures forall n :: n != "labels" ==> (n in c'.fields <==> n in c.fields)
    ensures c'.extras == c.extras
  {
    Config(c.fields["labels" := labels], c.extras)
  }

  /** Changing `labels` changes the first pass only in the two axis titles. */
  lemma FirstPassLabelsOnlyTitles(c: Config, c': Config)
    requires ThemeReady(c) && ThemeReady(c')
    requires forall n :: n != "labels" ==> c'.Field(n) == c.Field(n)
    ensures forall key :: key != XaxisTitle && key != YaxisTitle ==> FirstValue(c', key) == FirstValue(c, key)
  {
    forall key | key != XaxisTitle && key != YaxisTitle
      ensures FirstValue(c', key) == FirstValue(c, key)
    {
      match key
      case TitleText => assert c'.Field("title") == c.Field("title");
      case TitleSubtitleText => assert c'.Field("subtitle") == c.Field("subtitle");
      case Height => assert c'.Field("height") == c.Field("height");
      case Width => assert c'.Field("width") == c.Field("width");
      case Template => assert c'.Field("template") == c.Field("template");
      case XaxisType => assert c'.Field("log_x") == c.Field("log_x");
      case YaxisType => assert c'.Field("log_y") == c.Field("log_y");
      case XaxisRange => assert c'.Field("range_x") == c.Field("range_x");
      case YaxisRange => assert c'.Field("range_y") == c.Field("range_y");
      case _ =>
    }
  }

  /** The second pass does not read `labels`. */
  lemma SecondPassIgnoresLabels(c: Config, c': Config)
    requires ThemeReady(c) && ThemeReady(c')
    requires forall n :: n != "labels" ==> c'.Field(n) == c.Field(n)
    requires forall n :: n != "labels" ==> (n in c'.fields <==> n in c.fields)
    requires c'.extras == c.extras
    ensures SecondLayout(c') == SecondLayout(c)
  {
    assert c'.Field("x") == c.Field("x") && c'.Field("y") == c.Field("y");
    assert c'.Field("title") == c.Field("title");
    assert c'.Field("height") == c.Field("height") && c'.Field("width") == c.Field("width");
    assert c'.Field("x_title") == c.Field("x_title") && ("x_title" in c'.fields <==> "x_title" in c.fields);
    assert c'.Field("y_title") == c.Field("y_title") && ("y_title" in c'.fields <==> "y_title" in c.fields);
    assert Attr(c', "x_title") == Attr(c, "x_title") && Attr(c', "y_title") == Attr(c, "y_title");
    if Attr(c, "x_title").Ok? && Attr(c, "y_title").Ok? {
      var xt, yt := Attr(c, "x_title").value, Attr(c, "y_title").value;
      forall key ensures SecondValue(c', xt, yt, key) == SecondValue(c, xt, yt, key) {
      }
      var m := map key | key in SecondKeys :: SecondValue(c, xt, yt, key);
      var m' := map key | key in SecondKeys :: SecondValue(c', xt, yt, key);
      assert m' == m;
      assert SecondLayout(c) == Ok(m) && SecondLayout(c') == Ok(m');
    }
  }

  /**
   * The titles the first pass takes from `labels` are always overwritten by
   * the second pass, so whatever `labels` holds, the themed layout is the same.
   */
  lemma LabelsNeverSurvive(before: Layout, c: Config, labels: Value)
    requires ThemeReady(c) && (labels.None? || labels.Dict?)
    ensures ThemeReady(WithLabels(c, labels))
    ensures ThemedLayout(before, WithLabels(c, labels)) == ThemedLayout(before, c)
  {
    var c' := WithLabels(c, labels);
    assert ThemeReady(c');
    SecondPassIgnoresLabels(c, c');
    if SecondLayout(c).Ok? {
      FirstPassLabelsOnlyTitles(c, c');
      var first, first', second := FirstLayout(c), FirstLayout(c'), SecondLayout(c).value;
      assert XaxisTitle in second && YaxisTitle in second;
      OverwrittenFirstPass(before, first, first', second);
    }
  }

  /** A validated scatter configuration is one the theme can read. */
  lemma ValidatedIsThemeReady(k: Args, c: Config)
    requires ScatterConfig.Validate(k) == Ok(c)
    ensures ThemeReady(c)
  {
    ScatterConfig.ValidateKeepsModel(k);
    ScatterConfig.DeclaresX();
    ScatterConfig.DeclaresY();
    ScatterConfig.DeclaresLabels();
    Schemas.FieldHolds(ScatterConfig.Model, k, "x");
    Schemas.FieldHolds(ScatterConfig.Model, k, "y");
    Schemas.FieldHolds(ScatterConfig.Model, k, "labels");
  }

  /**
   * For a validated scatter configuration the theme fails exactly when
   * `x_title` or `y_title` was not passed: neither is a declared field.
   */
  lemma NeedsTitleExtras(k: Args, c: Config)
    requires ScatterConfig.Validate(k) == Ok(c)
    ensures ThemeReady(c)
    ensures forall before :: ThemedLayout(before, c).Err? <==> "x_title" !in k || "y_title" !in k
  {
    ValidatedIsThemeReady(k, c);
    ScatterConfig.KeepsExtras(k, c);
    ScatterConfig.ValidateKeepsModel(k);
    ScatterConfig.TitlesUndeclared();
    forall before: Layout ensures ThemedLayout(before, c).Err? <==> "x_title" !in k || "y_title" !in k {
      ThemeFailsIff(before, c);
    }
  }
}
