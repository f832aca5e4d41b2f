/**
 * `ScatterConfig` of the basic plotting API: the declared fields with their
 * types, defaults and bounds, undeclared arguments kept as extras, and the
 * model validator that makes `color` and `color_by_density` mutually exclusive.
 */
module ScatterConfig {
  import opened Values
  import opened Schemas

  /** The declared fields, in the order of the model. */
  const Model := Schema(
    map[
      "x" := FieldSpec(StrK, Required, Unbounded),
      "y" := FieldSpec(StrK, Required, Unbounded),
      "color" := OptionalStr,
      "symbol" := OptionalStr,
      "size" := OptionalStr,
      "hover_name" := OptionalStr,
      "hover_data" := FieldSpec(ListK(StrK), Default(List([])), Unbounded),
      "text" := OptionalStr,
      "facet_row" := OptionalStr,
      "facet_col" := OptionalStr,
      "error_x" := OptionalStr,
      "error_y" := OptionalStr,
      "labels" := OptionalStrMap,
      "color_discrete_map" := OptionalStrMap,
      "symbol_map" := OptionalStrMap,
      "opacity" := FieldSpec(FloatK, Default(Real(0.8)), Between(0.0, 1.0)),
      "size_max" := FieldSpec(IntK, Default(Int(20)), Unbounded),
      "trendline" := OptionalStr,
      "trendline_options" := FieldSpec(OptionalK(AnyDictK), Default(None), Unbounded),
      "log_x" := FieldSpec(BoolK, Default(Bool(false)), Unbounded),
      "log_y" := FieldSpec(BoolK, Default(Bool(false)), Unbounded),
      "range_x" := OptionalRange,
      "range_y" := OptionalRange,
      "title" := FieldSpec(StrK, Default(Str("Scatter Plot")), Unbounded),
      "subtitle" := OptionalStr,
      "template" := FieldSpec(StrK, Default(Str("plotly_white")), Unbounded),
      "width" := FieldSpec(IntK, Default(Int(800)), Unbounded),
      "height" := FieldSpec(IntK, Default(Int(600)), Unbounded),
      "marker_line_width" := FieldSpec(FloatK, Default(Real(0.5)), AtLeast(0.0)),
      "marker_line_color" := FieldSpec(StrK, Default(Str("DarkSlateGrey")), Unbounded),
      "color_by_density" := FieldSpec(BoolK, Default(Bool(false)), Unbounded)
    ],
    Allow)

  lemma DeclaresX()
    ensures "x" in Model.fields && Model.fields["x"] == FieldSpec(StrK, Required, Unbounded)
  {
  }

  lemma DeclaresY()
    ensures "y" in Model.fields && Model.fields["y"] == FieldSpec(StrK, Required, Unbounded)
  {
  }

  lemma DeclaresColor()
    ensures "color" in Model.fields && Model.fields["color"] == OptionalStr
  {
  }

  lemma DeclaresHoverData()
    ensures "hover_data" in Model.fields && Model.fields["hover_data"] == FieldSpec(ListK(StrK), Default(List([])), Unbounded)
  {
  }

  lemma DeclaresText()
    ensures "text" in Model.fields && Model.fields["text"] == OptionalStr
  {
  }

  lemma DeclaresLabels()
    ensures "labels" in Model.fields && Model.fields["labels"] == OptionalStrMap
  {
  }

  lemma DeclaresOpacity()
    ensures "opacity" in Model.fields && Model.fields["opacity"] == FieldSpec(FloatK, Default(Real(0.8)), Between(0.0, 1.0))
  {
  }

  lemma DeclaresSizeMax()
    ensures "size_max" in Model.fields && Model.fields["size_max"] == FieldSpec(IntK, Default(Int(20)), Unbounded)
  {
  }

  lemma DeclaresLogX()
    ensures "log_x" in Model.fields && Model.fields["log_x"] == FieldSpec(BoolK, Default(Bool(false)), Unbounded)
  {
  }

  lemma DeclaresLogY()
    ensures "log_y" in Model.fields && Model.fields["log_y"] == FieldSpec(BoolK, Default(Bool(false)), Unbounded)
  {
  }

  lemma DeclaresTitle()
    ensures "title" in Model.fields && Model.fields["title"] == FieldSpec(StrK, Default(Str("Scatter Plot")), Unbounded)
  {
  }

  lemma DeclaresTemplate()
    ensures "template" in Model.fields && Model.fields["template"] == FieldSpec(StrK, Default(Str("plotly_white")), Unbounded)
  {
  }

  lemma DeclaresWidth()
    ensures "width" in Model.fields && Model.fields["width"] == FieldSpec(IntK, Default(Int(800)), Unbounded)
  {
  }

  lemma DeclaresHeight()
    ensures "height" in Model.fields && Model.fields["height"] == FieldSpec(IntK, Default(Int(600)), Unbounded)
  {
  }

  lemma DeclaresMarkerLineWidth()
    ensures "marker_line_width" in Model.fields && Model.fields["marker_line_width"] == FieldSpec(FloatK, Default(Real(0.5)), AtLeast(0.0))
  {
  }

  lemma DeclaresMarkerLineColor()
    ensures "marker_line_color" in Model.fields && Model.fields["marker_line_color"] == FieldSpec(StrK, Default(Str("DarkSlateGrey")), Unbounded)
  {
  }

  lemma DeclaresColorByDensity()
    ensures "color_by_density" in Model.fields && Model.fields["color_by_density"] == FieldSpec(BoolK, Default(Bool(false)), Unbounded)
  {
  }

  const ExclusiveColorMessage :=
    "Cannot use both 'color' and 'color_by_density'. These options are mutually exclusive."

  /** `ScatterConfig(**k)`: field validation, then `validate_exclusive_color_options`. */
  function Validate(k: Args): Result<Config, ValidationError> {
    var c :- Schemas.Validate(Model, k);
    if Truthy(c.Field("color_by_density")) && Truthy(c.Field("color")) then
      Err(ModelError(ExclusiveColorMessage))
    else
      Ok(c)
  }

  /** A scatter configuration that validates is the field-validated model itself. */
  lemma ValidateKeepsModel(k: Args)
    requires Validate(k).Ok?
    ensures Schemas.Validate(Model, k).Ok?
    ensures Validate(k).value == Schemas.Validate(Model, k).value
  {
  }

  /** Omitted marker styling fields take the defaults the model declares. */
  lemma MarkerDefaults(k: Args, c: Config)
    requires Validate(k) == Ok(c)
    ensures "opacity" !in k ==> c.fields["opacity"] == Real(0.8)
    ensures "size_max" !in k ==> c.fields["size_max"] == Int(20)
    ensures "marker_line_width" !in k ==> c.fields["marker_line_width"] == Real(0.5)
    ensures "marker_line_color" !in k ==> c.fields["marker_line_color"] == Str("DarkSlateGrey")
  {
    ValidateKeepsModel(k);
    DeclaresOpacity();
    if "opacity" !in k { DefaultApplies(Model, k, "opacity"); }
    DeclaresSizeMax();
    if "size_max" !in k { DefaultApplies(Model, k, "size_max"); }
    DeclaresMarkerLineWidth();
    if "marker_line_width" !in k { DefaultApplies(Model, k, "marker_line_width"); }
    DeclaresMarkerLineColor();
    if "marker_line_color" !in k { DefaultApplies(Model, k, "marker_line_color"); }
  }

  /** Omitted layout fields take the defaults the model declares. */
  lemma LayoutDefaults(k: Args, c: Config)
    requires Validate(k) == Ok(c)
    ensures "title" !in k ==> c.fields["title"] == Str("Scatter Plot")
    ensures "template" !in k ==> c.fields["template"] == Str("plotly_white")
    ensures "width" !in k ==> c.fields["width"] == Int(800)
    ensures "height" !in k ==> c.fields["height"] == Int(600)
  {
    ValidateKeepsModel(k);
    DeclaresTitle();
    if "title" !in k { DefaultApplies(Model, k, "title"); }
    DeclaresTemplate();
    if "template" !in k { DefaultApplies(Model, k, "template"); }
    DeclaresWidth();
    if "width" !in k { DefaultApplies(Model, k, "width"); }
    DeclaresHeight();
    if "height" !in k { DefaultApplies(Model, k, "height"); }
  }

  /** Omitted switches and hover data take the defaults the model declares. */
  lemma FlagDefaults(k: Args, c: Config)
    requires Validate(k) == Ok(c)
    ensures "color_by_density" !in k ==> c.fields["color_by_density"] == Bool(false)
    ensures "hover_data" !in k ==> c.fields["hover_data"] == List([])
    ensures "log_x" !in k ==> c.fields["log_x"] == Bool(false)
    ensures "log_y" !in k ==> c.fields["log_y"] == Bool(false)
  {
    ValidateKeepsModel(k);
    DeclaresColorByDensity();
    if "color_by_density" !in k { DefaultApplies(Model, k, "color_by_density"); }
    DeclaresHoverData();
    if "hover_data" !in k { DefaultApplies(Model, k, "hover_data"); }
    DeclaresLogX();
    if "log_x" !in k { DefaultApplies(Model, k, "log_x"); }
    DeclaresLogY();
    if "log_y" !in k { DefaultApplies(Model, k, "log_y"); }
  }

  /** The model validator adds no field errors: only field validation reports any. */
  lemma ReportedByFields(k: Args)
    ensures Reported(Validate(k)) == Reported(Schemas.Validate(Model, k))
  {
  }

  /** `x` and `y` are required: each is reported missing exactly when it is omitted. */
  lemma RequiresXY(k: Args)
    ensures Missing("x") in Reported(Validate(k)) <==> "x" !in k
    ensures Missing("y") in Reported(Validate(k)) <==> "y" !in k
  {
    ReportedByFields(k);
    DeclaresX();
    ReportedIff(Model, k, "x", Missing("x"));
    DeclaresY();
    ReportedIff(Model, k, "y", Missing("y"));
  }

  /** `opacity` must be a number, and one between 0 and 1 inclusive. */
  lemma OpacityBound(k: Args)
    requires "opacity" in k
    ensures WrongType("opacity") in Reported(Validate(k)) <==> !(k["opacity"].Int? || k["opacity"].Real?)
    ensures OutOfRange("opacity") in Reported(Validate(k)) <==>
              && (k["opacity"].Int? || k["opacity"].Real?)
              && !(0.0 <= Numeric(k["opacity"]) <= 1.0)
  {
    ReportedByFields(k);
    DeclaresOpacity();
    ReportedIff(Model, k, "opacity", WrongType("opacity"));
    ReportedIff(Model, k, "opacity", OutOfRange("opacity"));
  }

  /** `marker_line_width` must be a number, and not a negative one. */
  lemma MarkerLineWidthBound(k: Args)
    requires "marker_line_width" in k
    ensures WrongType("marker_line_width") in Reported(Validate(k)) <==> !(k["marker_line_width"].Int? || k["marker_line_width"].Real?)
    ensures OutOfRange("marker_line_width") in Reported(Validate(k)) <==>
              && (k["marker_line_width"].Int? || k["marker_line_width"].Real?)
              && !(0.0 <= Numeric(k["marker_line_width"]))
  {
    ReportedByFields(k);
    DeclaresMarkerLineWidth();
    ReportedIff(Model, k, "marker_line_width", WrongType("marker_line_width"));
    ReportedIff(Model, k, "marker_line_width", OutOfRange("marker_line_width"));
  }

  /**
   * Once the fields validate, the model validator rejects the configuration
   * exactly when density colouring is switched on and a non-empty `color`
   * column is given as well; an empty `color` string is let through.
   */
  lemma ExclusiveColors(k: Args)
    requires Schemas.Validate(Model, k).Ok?
    ensures Validate(k).Err? <==>
              && "color_by_density" in k && k["color_by_density"] == Bool(true)
              && "color" in k && Truthy(k["color"])
    ensures Validate(k).Err? ==> Validate(k).error == ModelError(ExclusiveColorMessage)
  {
    DeclaresColorByDensity();
    DeclaresColor();
    if "color_by_density" !in k { DefaultApplies(Model, k, "color_by_density"); }
    if "color" !in k { DefaultApplies(Model, k, "color"); }
  }

  /** Undeclared keyword arguments are kept as extras, with their values. */
  lemma KeepsExtras(k: Args, c: Config)
    requires Validate(k) == Ok(c)
    ensures c.extras.Keys == k.Keys - Model.fields.Keys
    ensures forall n :: n in c.extras ==> c.extras[n] == k[n]
  {
    ValidateKeepsModel(k);
    ValidatedExtras(Model, k);
  }

  /** `x_title` and `y_title` are not fields of the model. */
  lemma TitlesUndeclared()
    ensures "x_title" !in Model.fields && "y_title" !in Model.fields
  {
  }
}
