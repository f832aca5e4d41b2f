/**
 * `LineConfig` of the basic plotting API: the declared fields with their
 * types and defaults, and undeclared arguments kept as extras.
 */
module LineConfig {
  import opened Values
  import opened Schemas

  /** The declared fields, in the order of the model. */
  const Model := Schema(
    map[
      "x" := FieldSpec(StrK, Required, Unbounded),
      "y" := FieldSpec(StrK, Required, Unbounded),
      "line_group" := OptionalStr,
      "color" := OptionalStr,
      "line_dash" := OptionalStr,
      "symbol" := OptionalStr,
      "hover_name" := OptionalStr,
      "hover_data" := FieldSpec(ListK(StrK), Default(List([])), Unbounded),
      "text" := OptionalStr,
      "facet_row" := OptionalStr,
      "facet_col" := OptionalStr,
      "error_x" := OptionalStr,
      "error_y" := OptionalStr,
      "labels" := OptionalStrMap,
      "color_discrete_map" := OptionalStrMap,
      "line_dash_map" := OptionalStrMap,
      "symbol_map" := OptionalStrMap,
      "markers" := FieldSpec(BoolK, Default(Bool(false)), Unbounded),
      "log_x" := FieldSpec(BoolK, Default(Bool(false)), Unbounded),
      "log_y" := FieldSpec(BoolK, Default(Bool(false)), Unbounded),
      "range_x" := OptionalRange,
      "range_y" := OptionalRange,
      "line_shape" := FieldSpec(OptionalK(StrK), Default(Str("linear")), Unbounded),
      "title" := FieldSpec(StrK, Default(Str("Line Plot")), Unbounded),
      "subtitle" := OptionalStr,
      "template" := FieldSpec(StrK, Default(Str("plotly_white")), Unbounded),
      "width" := FieldSpec(IntK, Default(Int(800)), Unbounded),
      "height" := FieldSpec(IntK, Default(Int(600)), Unbounded)
    ],
    Allow)

  lemma DeclaresX()
    ensures "x" in Model.fields && Model.fields["x"] == FieldSpec(StrK, Required, Unbounded)
  {
  }

  lemma DeclaresY()
    ensures "y" in Model.fields && Model.fields["y"] == FieldSpec(StrK, Required, Unbounded)
  {
  }

  lemma DeclaresHoverData()
    ensures "hover_data" in Model.fields && Model.fields["hover_data"] == FieldSpec(ListK(StrK), Default(List([])), Unbounded)
  {
  }

  lemma DeclaresLabels()
    ensures "labels" in Model.fields && Model.fields["labels"] == OptionalStrMap
  {
  }

  lemma DeclaresMarkers()
    ensures "markers" in Model.fields && Model.fields["markers"] == FieldSpec(BoolK, Default(Bool(false)), Unbounded)
  {
  }

  lemma DeclaresLogX()
    ensures "log_x" in Model.fields && Model.fields["log_x"] == FieldSpec(BoolK, Default(Bool(false)), Unbounded)
  {
  }

  lemma DeclaresLogY()
    ensures "log_y" in Model.fields && Model.fields["log_y"] == FieldSpec(BoolK, Default(Bool(false)), Unbounded)
  {
  }

  lemma DeclaresLineShape()
    ensures "line_shape" in Model.fields && Model.fields["line_shape"] == FieldSpec(OptionalK(StrK), Default(Str("linear")), Unbounded)
  {
  }

  lemma DeclaresTitle()
    ensures "title" in Model.fields && Model.fields["title"] == FieldSpec(StrK, Default(Str("Line Plot")), Unbounded)
  {
  }

  lemma DeclaresTemplate()
    ensures "template" in Model.fields && Model.fields["template"] == FieldSpec(StrK, Default(Str("plotly_white")), Unbounded)
  {
  }

  lemma DeclaresWidth()
    ensures "width" in Model.fields && Model.fields["width"] == FieldSpec(IntK, Default(Int(800)), Unbounded)
  {
  }

  lemma DeclaresHeight()
    ensures "height" in Model.fields && Model.fields["height"] == FieldSpec(IntK, Default(Int(600)), Unbounded)
  {
  }

  /** `LineConfig(**k)`: field validation against the declared fields. */
  function Validate(k: Args): Result<Config, ValidationError> {
    Schemas.Validate(Model, k)
  }

  /** A configuration that validates is the field-validated model itself. */
  lemma ValidateKeepsModel(k: Args)
    requires Validate(k).Ok?
    ensures Schemas.Validate(Model, k).Ok?
    ensures Validate(k).value == Schemas.Validate(Model, k).value
  {
  }

  /** Omitted line styling fields take the defaults the model declares. */
  lemma StyleDefaults(k: Args, c: Config)
    requires Validate(k) == Ok(c)
    ensures "markers" !in k ==> c.fields["markers"] == Bool(false)
    ensures "line_shape" !in k ==> c.fields["line_shape"] == Str("linear")
    ensures "hover_data" !in k ==> c.fields["hover_data"] == List([])
  {
    ValidateKeepsModel(k);
    DeclaresMarkers();
    if "markers" !in k { DefaultApplies(Model, k, "markers"); }
    DeclaresLineShape();
    if "line_shape" !in k { DefaultApplies(Model, k, "line_shape"); }
    DeclaresHoverData();
    if "hover_data" !in k { DefaultApplies(Model, k, "hover_data"); }
  }

  /** Omitted axis switches take the defaults the model declares. */
  lemma AxisDefaults(k: Args, c: Config)
    requires Validate(k) == Ok(c)
    ensures "log_x" !in k ==> c.fields["log_x"] == Bool(false)
    ensures "log_y" !in k ==> c.fields["log_y"] == Bool(false)
  {
    ValidateKeepsModel(k);
    DeclaresLogX();
    if "log_x" !in k { DefaultApplies(Model, k, "log_x"); }
    DeclaresLogY();
    if "log_y" !in k { DefaultApplies(Model, k, "log_y"); }
  }

  /** Omitted layout fields take the defaults the model declares. */
  lemma LayoutDefaults(k: Args, c: Config)
    requires Validate(k) == Ok(c)
    ensures "title" !in k ==> c.fields["title"] == Str("Line Plot")
    ensures "template" !in k ==> c.fields["template"] == Str("plotly_white")
    ensures "width" !in k ==> c.fields["width"] == Int(800)
    ensures "height" !in k ==> c.fields["height"] == Int(600)
  {
    ValidateKeepsModel(k);
    DeclaresTitle();
    if "title" !in k { DefaultApplies(Model, k, "title"); }
    DeclaresTemplate();
    if "template" !in k { DefaultApplies(Model, k, "template"); }
    DeclaresWidth();
    if "width" !in k { DefaultApplies(Model, k, "width"); }
    DeclaresHeight();
    if "height" !in k { DefaultApplies(Model, k, "height"); }
  }

  /** Every field error is reported by field validation. */
  lemma ReportedByFields(k: Args)
    ensures Reported(Validate(k)) == Reported(Schemas.Validate(Model, k))
  {
  }

  /** `x` and `y` are required: each is reported missing exactly when it is omitted. */
  lemma RequiresXY(k: Args)
    ensures Missing("x") in Reported(Validate(k)) <==> "x" !in k
    ensures Missing("y") in Reported(Validate(k)) <==> "y" !in k
  {
    ReportedByFields(k);
    DeclaresX();
    ReportedIff(Model, k, "x", Missing("x"));
    DeclaresY();
    ReportedIff(Model, k, "y", Missing("y"));
  }

  /** `line_shape` is optional: an explicit None is accepted. */
  lemma LineShapeNullable(k: Args)
    requires "line_shape" in k && k["line_shape"].None?
    ensures forall e :: e in Reported(Validate(k)) ==> e.Name() != "line_shape"
  {
    ReportedByFields(k);
    DeclaresLineShape();
    GivenFieldAccepted(Model, k, "line_shape");
  }

  /** Undeclared keyword arguments are kept as extras, with their values. */
  lemma KeepsExtras(k: Args, c: Config)
    requires Validate(k) == Ok(c)
    ensures c.extras.Keys == k.Keys - Model.fields.Keys
    ensures forall n :: n in c.extras ==> c.extras[n] == k[n]
  {
    ValidateKeepsModel(k);
    ValidatedExtras(Model, k);
  }
}
