/**
 * `ScatterConfig` of the older distribution plotting API: the declared
 * fields with their types and defaults; undeclared arguments are dropped.
 */
module LegacyScatterConfig {
  import opened Values
  import opened Schemas

  /** The declared fields, in the order of the model. */
  const Model := Schema(
    map[
      "x" := FieldSpec(StrK, Required, Unbounded),
      "y" := FieldSpec(StrK, Required, Unbounded),
      "group" := OptionalStr,
      "size" := OptionalStr,
      "symbol" := OptionalStr,
      "text" := OptionalStr,
      "hover_cols" := FieldSpec(ListK(StrK), Default(List([])), Unbounded),
      "title" := FieldSpec(StrK, Default(Str("Scatter Plot")), Unbounded),
      "x_title" := OptionalStr,
      "y_title" := OptionalStr,
      "height" := FieldSpec(IntK, Default(Int(600)), Unbounded),
      "width" := FieldSpec(IntK, Default(Int(800)), Unbounded),
      "colors" := OptionalStrMap,
      "trendline" := OptionalStr
    ],
    Ignore)

  lemma DeclaresX()
    ensures "x" in Model.fields && Model.fields["x"] == FieldSpec(StrK, Required, Unbounded)
  {
  }

  lemma DeclaresY()
    ensures "y" in Model.fields && Model.fields["y"] == FieldSpec(StrK, Required, Unbounded)
  {
  }

  lemma DeclaresGroup()
    ensures "group" in Model.fields && Model.fields["group"] == OptionalStr
  {
  }

  lemma DeclaresSize()
    ensures "size" in Model.fields && Model.fields["size"] == OptionalStr
  {
  }

  lemma DeclaresSymbol()
    ensures "symbol" in Model.fields && Model.fields["symbol"] == OptionalStr
  {
  }

  lemma DeclaresText()
    ensures "text" in Model.fields && Model.fields["text"] == OptionalStr
  {
  }

  lemma DeclaresHoverCols()
    ensures "hover_cols" in Model.fields && Model.fields["hover_cols"] == FieldSpec(ListK(StrK), Default(List([])), Unbounded)
  {
  }

  lemma DeclaresTitle()
    ensures "title" in Model.fields && Model.fields["title"] == FieldSpec(StrK, Default(Str("Scatter Plot")), Unbounded)
  {
  }

  lemma DeclaresXTitle()
    ensures "x_title" in Model.fields && Model.fields["x_title"] == OptionalStr
  {
  }

  lemma DeclaresYTitle()
    ensures "y_title" in Model.fields && Model.fields["y_title"] == OptionalStr
  {
  }

  lemma DeclaresHeight()
    ensures "height" in Model.fields && Model.fields["height"] == FieldSpec(IntK, Default(Int(600)), Unbounded)
  {
  }

  lemma DeclaresWidth()
    ensures "width" in Model.fields && Model.fields["width"] == FieldSpec(IntK, Default(Int(800)), Unbounded)
  {
  }

  lemma DeclaresColors()
    ensures "colors" in Model.fields && Model.fields["colors"] == OptionalStrMap
  {
  }

  lemma DeclaresTrendline()
    ensures "trendline" in Model.fields && Model.fields["trendline"] == OptionalStr
  {
  }

  /** `ScatterConfig(**k)`: field validation against the declared fields. */
  function Validate(k: Args): Result<Config, ValidationError> {
    Schemas.Validate(Model, k)
  }

  /** A configuration that validates is the field-validated model itself. */
  lemma ValidateKeepsModel(k: Args)
    requires Validate(k).Ok?
    ensures Schemas.Validate(Model, k).Ok?
    ensures Validate(k).value == Schemas.Validate(Model, k).value
  {
  }

  /** Omitted layout fields take the defaults the model declares. */
  lemma LayoutDefaults(k: Args, c: Config)
    requires Validate(k) == Ok(c)
    ensures "title" !in k ==> c.fields["title"] == Str("Scatter Plot")
    ensures "height" !in k ==> c.fields["height"] == Int(600)
    ensures "width" !in k ==> c.fields["width"] == Int(800)
  {
    ValidateKeepsModel(k);
    DeclaresTitle();
    if "title" !in k { DefaultApplies(Model, k, "title"); }
    DeclaresHeight();
    if "height" !in k { DefaultApplies(Model, k, "height"); }
    DeclaresWidth();
    if "width" !in k { DefaultApplies(Model, k, "width"); }
  }

  /** Omitted optional columns and hover columns take the declared defaults. */
  lemma ColumnDefaults(k: Args, c: Config)
    requires Validate(k) == Ok(c)
    ensures "group" !in k ==> c.fields["group"] == None
    ensures "size" !in k ==> c.fields["size"] == None
    ensures "symbol" !in k ==> c.fields["symbol"] == None
    ensures "text" !in k ==> c.fields["text"] == None
  {
    ValidateKeepsModel(k);
    DeclaresGroup();
    if "group" !in k { DefaultApplies(Model, k, "group"); }
    DeclaresSize();
    if "size" !in k { DefaultApplies(Model, k, "size"); }
    DeclaresSymbol();
    if "symbol" !in k { DefaultApplies(Model, k, "symbol"); }
    DeclaresText();
    if "text" !in k { DefaultApplies(Model, k, "text"); }
  }

  /** Omitted titles, colours, trendline and hover columns take the declared defaults. */
  lemma ExtraDefaults(k: Args, c: Config)
    requires Validate(k) == Ok(c)
    ensures "x_title" !in k ==> c.fields["x_title"] == None
    ensures "y_title" !in k ==> c.fields["y_title"] == None
    ensures "colors" !in k ==> c.fields["colors"] == None
    ensures "trendline" !in k ==> c.fields["trendline"] == None
    ensures "hover_cols" !in k ==> c.fields["hover_cols"] == List([])
  {
    ValidateKeepsModel(k);
    DeclaresXTitle();
    if "x_title" !in k { DefaultApplies(Model, k, "x_title"); }
    DeclaresYTitle();
    if "y_title" !in k { DefaultApplies(Model, k, "y_title"); }
    DeclaresColors();
    if "colors" !in k { DefaultApplies(Model, k, "colors"); }
    DeclaresTrendline();
    if "trendline" !in k { DefaultApplies(Model, k, "trendline"); }
    DeclaresHoverCols();
    if "hover_cols" !in k { DefaultApplies(Model, k, "hover_cols"); }
  }

  /** Every field error is reported by field validation. */
  lemma ReportedByFields(k: Args)
    ensures Reported(Validate(k)) == Reported(Schemas.Validate(Model, k))
  {
  }

  /** `x` and `y` are required: each is reported missing exactly when it is omitted. */
  lemma RequiresXY(k: Args)
    ensures Missing("x") in Reported(Validate(k)) <==> "x" !in k
    ensures Missing("y") in Reported(Validate(k)) <==> "y" !in k
  {
    ReportedByFields(k);
    DeclaresX();
    ReportedIff(Model, k, "x", Missing("x"));
    DeclaresY();
    ReportedIff(Model, k, "y", Missing("y"));
  }

  /** Undeclared keyword arguments are dropped: the model keeps no extras. */
  lemma DropsExtras(k: Args, c: Config)
    requires Validate(k) == Ok(c)
    ensures c.extras == map[]
  {
    ValidatedExtras(Model, k);
  }
}
