/**
 * `BoxConfig` of the basic plotting API: the declared fields with their
 * types and defaults (here `x` and `y` are optional and `width` and `height`
 * may be None), and undeclared arguments kept as extras.
 */
module BoxConfig {
  import opened Values
  import opened Schemas

  /** The declared fields, in the order of the model. */
  const Model := Schema(
    map[
      "x" := OptionalStr,
      "y" := OptionalStr,
      "color" := OptionalStr,
      "hover_name" := OptionalStr,
      "hover_data" := FieldSpec(ListK(StrK), Default(List([])), Unbounded),
      "facet_row" := OptionalStr,
      "facet_col" := OptionalStr,
      "labels" := OptionalStrMap,
      "color_discrete_map" := OptionalStrMap,
      "category_orders" := FieldSpec(OptionalK(DictK(ListK(StrK))), Default(None), Unbounded),
      "orientation" := OptionalStr,
      "boxmode" := FieldSpec(StrK, Default(Str("group")), Unbounded),
      "log_x" := FieldSpec(BoolK, Default(Bool(false)), Unbounded),
      "log_y" := FieldSpec(BoolK, Default(Bool(false)), Unbounded),
      "range_x" := OptionalRange,
      "range_y" := OptionalRange,
      "notched" := FieldSpec(BoolK, Default(Bool(false)), Unbounded),
      "points" := FieldSpec(StrK, Default(Str("outliers")), Unbounded),
      "title" := FieldSpec(StrK, Default(Str("Box Plot")), Unbounded),
      "x_title" := OptionalStr,
      "y_title" := OptionalStr,
      "subtitle" := OptionalStr,
      "template" := FieldSpec(StrK, Default(Str("plotly_white")), Unbounded),
      "width" := FieldSpec(OptionalK(IntK), Default(Int(800)), Unbounded),
      "height" := FieldSpec(OptionalK(IntK), Default(Int(600)), Unbounded)
    ],
    Allow)

  lemma DeclaresX()
    ensures "x" in Model.fields && Model.fields["x"] == OptionalStr
  {
  }

  lemma DeclaresY()
    ensures "y" in Model.fields && Model.fields["y"] == OptionalStr
  {
  }

  lemma DeclaresHoverData()
    ensures "hover_data" in Model.fields && Model.fields["hover_data"] == FieldSpec(ListK(StrK), Default(List([])), Unbounded)
  {
  }

  lemma DeclaresCategoryOrders()
    ensures "category_orders" in Model.fields && Model.fields["category_orders"] == FieldSpec(OptionalK(DictK(ListK(StrK))), Default(None), Unbounded)
  {
  }

  lemma DeclaresOrientation()
    ensures "orientation" in Model.fields && Model.fields["orientation"] == OptionalStr
  {
  }

  lemma DeclaresBoxmode()
    ensures "boxmode" in Model.fields && Model.fields["boxmode"] == FieldSpec(StrK, Default(Str("group")), Unbounded)
  {
  }

  lemma DeclaresNotched()
    ensures "notched" in Model.fields && Model.fields["notched"] == FieldSpec(BoolK, Default(Bool(false)), Unbounded)
  {
  }

  lemma DeclaresPoints()
    ensures "points" in Model.fields && Model.fields["points"] == FieldSpec(StrK, Default(Str("outliers")), Unbounded)
  {
  }

  lemma DeclaresTitle()
    ensures "title" in Model.fields && Model.fields["title"] == FieldSpec(StrK, Default(Str("Box Plot")), Unbounded)
  {
  }

  lemma DeclaresTemplate()
    ensures "template" in Model.fields && Model.fields["template"] == FieldSpec(StrK, Default(Str("plotly_white")), Unbounded)
  {
  }

  lemma DeclaresWidth()
    ensures "width" in Model.fields && Model.fields["width"] == FieldSpec(OptionalK(IntK), Default(Int(800)), Unbounded)
  {
  }

  lemma DeclaresHeight()
    ensures "height" in Model.fields && Model.fields["height"] == FieldSpec(OptionalK(IntK), Default(Int(600)), Unbounded)
  {
  }

  /** `BoxConfig(**k)`: field validation against the declared fields. */
  function Validate(k: Args): Result<Config, ValidationError> {
    Schemas.Validate(Model, k)
  }

  /** A configuration that validates is the field-validated model itself. */
  lemma ValidateKeepsModel(k: Args)
    requires Validate(k).Ok?
    ensures Schemas.Validate(Model, k).Ok?
    ensures Validate(k).value == Schemas.Validate(Model, k).value
  {
  }

  /** Omitted box styling fields take the defaults the model declares. */
  lemma StyleDefaults(k: Args, c: Config)
    requires Validate(k) == Ok(c)
    ensures "boxmode" !in k ==> c.fields["boxmode"] == Str("group")
    ensures "notched" !in k ==> c.fields["notched"] == Bool(false)
    ensures "points" !in k ==> c.fields["points"] == Str("outliers")
    ensures "hover_data" !in k ==> c.fields["hover_data"] == List([])
  {
    ValidateKeepsModel(k);
    DeclaresBoxmode();
    if "boxmode" !in k { DefaultApplies(Model, k, "boxmode"); }
    DeclaresNotched();
    if "notched" !in k { DefaultApplies(Model, k, "notched"); }
    DeclaresPoints();
    if "points" !in k { DefaultApplies(Model, k, "points"); }
    DeclaresHoverData();
    if "hover_data" !in k { DefaultApplies(Model, k, "hover_data"); }
  }

  /** Omitted column, orientation and category order fields default to None. */
  lemma OptionalDefaults(k: Args, c: Config)
    requires Validate(k) == Ok(c)
    ensures "x" !in k ==> c.fields["x"] == None
    ensures "y" !in k ==> c.fields["y"] == None
    ensures "orientation" !in k ==> c.fields["orientation"] == None
    ensures "category_orders" !in k ==> c.fields["category_orders"] == None
  {
    ValidateKeepsModel(k);
    DeclaresX();
    if "x" !in k { DefaultApplies(Model, k, "x"); }
    DeclaresY();
    if "y" !in k { DefaultApplies(Model, k, "y"); }
    DeclaresOrientation();
    if "orientation" !in k { DefaultApplies(Model, k, "orientation"); }
    DeclaresCategoryOrders();
    if "category_orders" !in k { DefaultApplies(Model, k, "category_orders"); }
  }

  /** Omitted layout fields take the defaults the model declares. */
  lemma LayoutDefaults(k: Args, c: Config)
    requires Validate(k) == Ok(c)
    ensures "title" !in k ==> c.fields["title"] == Str("Box Plot")
    ensures "template" !in k ==> c.fields["template"] == Str("plotly_white")
    ensures "width" !in k ==> c.fields["width"] == Int(800)
    ensures "height" !in k ==> c.fields["height"] == Int(600)
  {
    ValidateKeepsModel(k);
    DeclaresTitle();
    if "title" !in k { DefaultApplies(Model, k, "title"); }
    DeclaresTemplate();
    if "template" !in k { DefaultApplies(Model, k, "template"); }
    DeclaresWidth();
    if "width" !in k { DefaultApplies(Model, k, "width"); }
    DeclaresHeight();
    if "height" !in k { DefaultApplies(Model, k, "height"); }
  }

  /** Every field error is reported by field validation. */
  lemma ReportedByFields(k: Args)
    ensures Reported(Validate(k)) == Reported(Schemas.Validate(Model, k))
  {
  }

  /** Neither `x` nor `y` is required: leaving them out is never reported. */
  lemma XYOptional(k: Args)
    ensures Missing("x") !in Reported(Validate(k))
    ensures Missing("y") !in Reported(Validate(k))
  {
    ReportedByFields(k);
    DeclaresX();
    DeclaresY();
    ReportedIff(Model, k, "x", Missing("x"));
    ReportedIff(Model, k, "y", Missing("y"));
  }

  /** `width` and `height` may be given as None instead of a number. */
  lemma SizeNullable(k: Args)
    requires "width" in k && "height" in k && k["width"].None? && k["height"].None?
    ensures WrongType("width") !in Reported(Validate(k))
    ensures WrongType("height") !in Reported(Validate(k))
  {
    ReportedByFields(k);
    DeclaresWidth();
    DeclaresHeight();
    ReportedIff(Model, k, "width", WrongType("width"));
    ReportedIff(Model, k, "height", WrongType("height"));
  }

  /** Undeclared keyword arguments are kept as extras, with their values. */
  lemma KeepsExtras(k: Args, c: Config)
    requires Validate(k) == Ok(c)
    ensures c.extras.Keys == k.Keys - Model.fields.Keys
    ensures forall n :: n in c.extras ==> c.extras[n] == k[n]
  {
    ValidateKeepsModel(k);
    ValidatedExtras(Model, k);
  }
}
