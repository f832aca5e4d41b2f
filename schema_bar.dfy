/**
 * `BarConfig` of the basic plotting API: the declared fields with their
 * types and defaults (opacity here has no bounds), and undeclared arguments
 * kept as extras.
 */
module BarConfig {
  import opened Values
  import opened Schemas

  /** The declared fields, in the order of the model. */
  const Model := Schema(
    map[
      "x" := FieldSpec(StrK, Required, Unbounded),
      "y" := FieldSpec(StrK, Required, Unbounded),
      "color" := OptionalStr,
      "pattern_shape" := OptionalStr,
      "hover_name" := OptionalStr,
      "hover_data" := FieldSpec(ListK(StrK), Default(List([])), Unbounded),
      "text" := OptionalStr,
      "facet_row" := OptionalStr,
      "facet_col" := OptionalStr,
      "error_x" := OptionalStr,
      "error_y" := OptionalStr,
      "labels" := OptionalStrMap,
      "color_discrete_map" := OptionalStrMap,
      "pattern_shape_map" := OptionalStrMap,
      "opacity" := FieldSpec(FloatK, Default(Real(0.8)), Unbounded),
      "orientation" := FieldSpec(StrK, Default(Str("v")), Unbounded),
      "barmode" := FieldSpec(StrK, Default(Str("relative")), Unbounded),
      "log_x" := FieldSpec(BoolK, Default(Bool(false)), Unbounded),
      "log_y" := FieldSpec(BoolK, Default(Bool(false)), Unbounded),
      "range_x" := OptionalRange,
      "range_y" := OptionalRange,
      "title" := FieldSpec(StrK, Default(Str("Bar Plot")), Unbounded),
      "x_title" := OptionalStr,
      "y_title" := OptionalStr,
      "subtitle" := OptionalStr,
      "template" := FieldSpec(StrK, Default(Str("plotly_white")), Unbounded),
      "width" := FieldSpec(IntK, Default(Int(800)), Unbounded),
      "height" := FieldSpec(IntK, Default(Int(600)), Unbounded)
    ],
    Allow)

  lemma DeclaresX()
    ensures "x" in Model.fields && Model.fields["x"] == FieldSpec(StrK, Required, Unbounded)
  {
  }

  lemma DeclaresY()
    ensures "y" in Model.fields && Model.fields["y"] == FieldSpec(StrK, Required, Unbounded)
  {
  }

  lemma DeclaresColor()
    ensures "color" in Model.fields && Model.fields["color"] == OptionalStr
  {
  }

  lemma DeclaresHoverData()
    ensures "hover_data" in Model.fields && Model.fields["hover_data"] == FieldSpec(ListK(StrK), Default(List([])), Unbounded)
  {
  }

  lemma DeclaresOpacity()
    ensures "opacity" in Model.fields && Model.fields["opacity"] == FieldSpec(FloatK, Default(Real(0.8)), Unbounded)
  {
  }

  lemma DeclaresOrientation()
    ensures "orientation" in Model.fields && Model.fields["orientation"] == FieldSpec(StrK, Default(Str("v")), Unbounded)
  {
  }

  lemma DeclaresBarmode()
    ensures "barmode" in Model.fields && Model.fields["barmode"] == FieldSpec(StrK, Default(Str("relative")), Unbounded)
  {
  }

  lemma DeclaresLogX()
    ensures "log_x" in Model.fields && Model.fields["log_x"] == FieldSpec(BoolK, Default(Bool(false)), Unbounded)
  {
  }

  lemma DeclaresLogY()
    ensures "log_y" in Model.fields && Model.fields["log_y"] == FieldSpec(BoolK, Default(Bool(false)), Unbounded)
  {
  }

  lemma DeclaresTitle()
    ensures "title" in Model.fields && Model.fields["title"] == FieldSpec(StrK, Default(Str("Bar Plot")), Unbounded)
  {
  }

  lemma DeclaresXTitle()
    ensures "x_title" in Model.fields && Model.fields["x_title"] == OptionalStr
  {
  }

  lemma DeclaresYTitle()
    ensures "y_title" in Model.fields && Model.fields["y_title"] == OptionalStr
  {
  }

  lemma DeclaresTemplate()
    ensures "template" in Model.fields && Model.fields["template"] == FieldSpec(StrK, Default(Str("plotly_white")), Unbounded)
  {
  }

  lemma DeclaresWidth()
    ensures "width" in Model.fields && Model.fields["width"] == FieldSpec(IntK, Default(Int(800)), Unbounded)
  {
  }

  lemma DeclaresHeight()
    ensures "height" in Model.fields && Model.fields["height"] == FieldSpec(IntK, Default(Int(600)), Unbounded)
  {
  }

  /** `BarConfig(**k)`: field validation against the declared fields. */
  function Validate(k: Args): Result<Config, ValidationError> {
    Schemas.Validate(Model, k)
  }

  /** A configuration that validates is the field-validated model itself. */
  lemma ValidateKeepsModel(k: Args)
    requires Validate(k).Ok?
    ensures Schemas.Validate(Model, k).Ok?
    ensures Validate(k).value == Schemas.Validate(Model, k).value
  {
  }

  /** Omitted bar styling fields take the defaults the model declares. */
  lemma StyleDefaults(k: Args, c: Config)
    requires Validate(k) == Ok(c)
    ensures "opacity" !in k ==> c.fields["opacity"] == Real(0.8)
    ensures "orientation" !in k ==> c.fields["orientation"] == Str("v")
    ensures "barmode" !in k ==> c.fields["barmode"] == Str("relative")
    ensures "hover_data" !in k ==> c.fields["hover_data"] == List([])
  {
    ValidateKeepsModel(k);
    DeclaresOpacity();
    if "opacity" !in k { DefaultApplies(Model, k, "opacity"); }
    DeclaresOrientation();
    if "orientation" !in k { DefaultApplies(Model, k, "orientation"); }
    DeclaresBarmode();
    if "barmode" !in k { DefaultApplies(Model, k, "barmode"); }
    DeclaresHoverData();
    if "hover_data" !in k { DefaultApplies(Model, k, "hover_data"); }
  }

  /** Omitted axis switches and axis titles take the defaults the model declares. */
  lemma AxisDefaults(k: Args, c: Config)
    requires Validate(k) == Ok(c)
    ensures "log_x" !in k ==> c.fields["log_x"] == Bool(false)
    ensures "log_y" !in k ==> c.fields["log_y"] == Bool(false)
    ensures "x_title" !in k ==> c.fields["x_title"] == None
    ensures "y_title" !in k ==> c.fields["y_title"] == None
  {
    ValidateKeepsModel(k);
    DeclaresLogX();
    if "log_x" !in k { DefaultApplies(Model, k, "log_x"); }
    DeclaresLogY();
    if "log_y" !in k { DefaultApplies(Model, k, "log_y"); }
    DeclaresXTitle();
    if "x_title" !in k { DefaultApplies(Model, k, "x_title"); }
    DeclaresYTitle();
    if "y_title" !in k { DefaultApplies(Model, k, "y_title"); }
  }

  /** Omitted layout fields take the defaults the model declares. */
  lemma LayoutDefaults(k: Args, c: Config)
    requires Validate(k) == Ok(c)
    ensures "title" !in k ==> c.fields["title"] == Str("Bar Plot")
    ensures "template" !in k ==> c.fields["template"] == Str("plotly_white")
    ensures "width" !in k ==> c.fields["width"] == Int(800)
    ensures "height" !in k ==> c.fields["height"] == Int(600)
  {
    ValidateKeepsModel(k);
    DeclaresTitle();
    if "title" !in k { DefaultApplies(Model, k, "title"); }
    DeclaresTemplate();
    if "template" !in k { DefaultApplies(Model, k, "template"); }
    DeclaresWidth();
    if "width" !in k { DefaultApplies(Model, k, "width"); }
    DeclaresHeight();
    if "height" !in k { DefaultApplies(Model, k, "height"); }
  }

  /** Every field error is reported by field validation. */
  lemma ReportedByFields(k: Args)
    ensures Reported(Validate(k)) == Reported(Schemas.Validate(Model, k))
  {
  }

  /** `x` and `y` are required: each is reported missing exactly when it is omitted. */
  lemma RequiresXY(k: Args)
    ensures Missing("x") in Reported(Validate(k)) <==> "x" !in k
    ensures Missing("y") in Reported(Validate(k)) <==> "y" !in k
  {
    ReportedByFields(k);
    DeclaresX();
    ReportedIff(Model, k, "x", Missing("x"));
    DeclaresY();
    ReportedIff(Model, k, "y", Missing("y"));
  }

  /** `opacity` has no bounds here: any number is accepted. */
  lemma OpacityUnbounded(k: Args)
    requires "opacity" in k && (k["opacity"].Int? || k["opacity"].Real?)
    ensures forall e :: e in Reported(Validate(k)) ==> e.Name() != "opacity"
  {
    ReportedByFields(k);
    DeclaresOpacity();
    GivenFieldAccepted(Model, k, "opacity");
  }

  /** `orientation` and `barmode` take any string, with no check against the documented choices. */
  lemma ModesUnchecked(k: Args)
    requires "orientation" in k && k["orientation"].Str? && "barmode" in k && k["barmode"].Str?
    ensures forall e :: e in Reported(Validate(k)) ==> e.Name() != "orientation"
    ensures forall e :: e in Reported(Validate(k)) ==> e.Name() != "barmode"
  {
    ReportedByFields(k);
    DeclaresOrientation();
    GivenFieldAccepted(Model, k, "orientation");
    DeclaresBarmode();
    GivenFieldAccepted(Model, k, "barmode");
  }

  /** Undeclared keyword arguments are kept as extras, with their values. */
  lemma KeepsExtras(k: Args, c: Config)
    requires Validate(k) == Ok(c)
    ensures c.extras.Keys == k.Keys - Model.fields.Keys
    ensures forall n :: n in c.extras ==> c.extras[n] == k[n]
  {
    ValidateKeepsModel(k);
    ValidatedExtras(Model, k);
  }
}
