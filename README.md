# vuecore in Dafny

vuecore is a plotting library for omics data: a thin layer over Plotly and pydantic.
This project models the parts of it that carry logic of their own:

- **The engine registry.** Two process-wide tables that registration updates in place: builders keyed by engine and then plot type, and savers keyed by engine. Importing the Plotly engine registers the scatter builder and the Plotly saver.
- **The entry points** `create_scatter_plot` and `create_line_plot` of the basic API. Each validates its keyword arguments into a configuration model, looks the builder up, builds the figure, and only when a file path is given looks the saver up and saves. The model records the steps in the order they happen.
- **The configuration models** `ScatterConfig`, `LineConfig`, `BarConfig`, `BoxConfig` and the older distribution `ScatterConfig`, modelled as pydantic models:
  - declared fields with a type, a default or none (required), and optional numeric bounds;
  - an extras policy;
  - the scatter model's validator that makes `color` and `color_by_density` exclusive.

  Validation reports one error per offending field. Pydantic's per-item locations inside lists and dictionaries are not modelled.
- **The builders** of the Plotly engine. Each turns the dumped configuration into `px.*` arguments: it drops the keys its theme handles and the None values. The scatter builder then sets `color` and, in density mode, drops `color_discrete_map`.
- **`apply_scatter_theme`.** It makes one `update_traces` call and two `update_layout` calls on the same layout, in which the last write wins per property. Plotly checks the trace patch against the marker's property names on the traces the selector picks.
- **The older distribution API.** Its `create_scatter_plot` is made of the converter's argument renaming, `apply_plot_theme` and the core `save_plot`.
- **The two savers.**
  - Both extract the lower-cased `Path.suffix` and classify it.
  - The Plotly `save` adds a Chrome install and one retry, and wraps every failure in one RuntimeError.
  - The core `save_plot` also writes `.json`.
- **Small utilities:** `validate_columns_exist`, `combine_docstrings`, `select_xticks` and `select_dates`.

Plotly, Kaleido and pandas are not modelled:

- A data frame is known by its column names.
- A figure is a class that records:
  - the Plotly Express call that created it, with its arguments, which fixes the `mode` of its traces;
  - every trace patch;
  - its layout, as a map from layout property to value;
  - the themes applied to it whose content is not available.
- The export calls of the savers answer from an oracle: a sequence of outcomes, one per external call.

Modules, one or more per file:

| file | modules |
|---|---|
| values.dfy | `Values` |
| text.dfy | `Text` |
| figure.dfy | `Figures` |
| registry.dfy | `Registry` |
| schemas.dfy | `Schemas` |
| schema_scatter.dfy | `ScatterConfig` |
| schema_line.dfy | `LineConfig` |
| schema_bar.dfy | `BarConfig` |
| schema_box.dfy | `BoxConfig` |
| schema_legacy.dfy | `LegacyScatterConfig` |
| builders.dfy | `PlotArguments`, `ScatterSignature`, `ScatterBuilder`, `LineBuilder`, `BarBuilder`, `BoxBuilder` |
| theming.dfy | `Theming` |
| savers.dfy | `Paths`, `Exports`, `PlotlySaver`, `CoreSaver`, `SaverComparison` |
| pipelines.dfy | `Pipelines` |
| legacy.dfy | `LegacyScatter` |
| validation.dfy | `ColumnValidation` |
| docstrings.dfy | `Docstrings` |
| ticks.dfy | `Ticks` |

Where the code and its tests or documentation disagree, the model follows the code and proves the consequence:

- **No line builder.** Only the scatter builder is registered, so a valid `create_line_plot` call fails at the builder lookup (`Pipelines.LinePlotAfterImport`). The line tests expect a figure.
- **No `.json` in the Plotly saver.** The Plotly saver refuses `.json`, although its error message lists it and the tests save `.json` files. The core `save_plot` does write it (`SaverComparison.JsonRefusedByPlotly`).
- **`size_max` in the marker patch.** The first call of `apply_scatter_theme` puts `size_max` into `update_traces(marker=...)`, with `selector=dict(mode="markers")`. `size_max` is an argument of `px.scatter`, which the builder keeps from it as a theming key; it is not a property of a scatter marker, so Plotly raises ValueError on every selected trace. `px.scatter` draws its traces in mode "markers" unless `text` is set ("markers+text"). So without a `text` column the scatter build fails with that ValueError, before any title is read (`Theming.MarkerPatchRefused`, `ScatterBuilder.NeedsText`). The older `apply_plot_theme` patches only marker properties (`LegacyScatter.PlotMarkerPatchAccepted`).
- **Titles read by the scatter theme.** The second `update_layout` of `apply_scatter_theme` reads `config.x_title` and `config.y_title`. Neither is a field of `ScatterConfig`, so the theme raises AttributeError unless both were passed as extra keyword arguments (`Theming.NeedsTitleExtras`). Such extras are also forwarded to `px.scatter`, which takes neither keyword and raises TypeError for a value other than None. So the scatter plot is built only when both titles are passed as None, and the theme then falls back to the title-cased column names (`ScatterBuilder.TitlesOnlyAsNone`). All of this applies only when `text` is set (traces in mode "markers+text"); otherwise Plotly refuses `marker.size_max` first.
- **Engine names under the `strenum` fallback.** Without the standard library's `StrEnum` (Python before 3.11), `auto()` from the `strenum` package keeps the member name, so the default engine is "PLOTLY". The Plotly engine registers itself under "plotly", so the default lookups then fail (`Registry.FallbackDefaultEngineMisses`).
- **Labels never reach the axes.** The axis titles taken from `labels` by the first pass never survive the second pass (`Theming.LabelsNeverSurvive`).
- **No column check.** The distribution `create_scatter_plot` documents a column check, but the check is commented out. The model performs none.

## Model

| member | source | states |
|---|---|---|
| Registry.EnumValues | src/vuecore/constants.py:1-17 | with the standard library's `StrEnum`, `auto()` members take their lower-cased names: "plotly", "scatter" and "line"; under the `strenum` fallback they keep the name as written ("PLOTLY", "SCATTER"), which differs |
| Registry.FallbackDefaultEngineMisses | src/vuecore/constants.py:3-17 | under the `strenum` fallback the default engine finds neither the scatter builder nor the saver the Plotly engine registered; with the standard library it finds both |
| Registry.Registry.constructor | src/vuecore/engines/__init__.py:4-5 | both tables start empty |
| Registry.Registry.GetBuilder | src/vuecore/engines/__init__.py:20-25 | found exactly when the engine and then the plot type are registered, with the registered builder; otherwise ValueError "No '<p>' builder found for engine '<e>'" |
| Registry.Registry.GetSaver | src/vuecore/engines/__init__.py:28-33 | found exactly when the engine is registered; otherwise ValueError "No saver found for engine '<e>'" |
| Registry.Registry.RegisterBuilder | src/vuecore/engines/__init__.py:8-12 | the inner table is created only when absent; afterwards the lookup returns the new builder; every other (plot type, engine) lookup is unchanged; savers are unchanged |
| Registry.Registry.RegisterSaver | src/vuecore/engines/__init__.py:15-17 | afterwards the lookup returns the new saver, overwriting any earlier one; other engines and all builders are unchanged |
| Registry.ImportEngines | src/vuecore/engines/plotly/__init__.py:6-7 | the import leaves exactly the scatter builder and the Plotly saver under "plotly" |
| Registry.ImportedLookups | src/vuecore/engines/plotly/__init__.py:6-7 | after the import, scatter and the saver are found; "line" and every other plot type raise the lookup error |
| Values.Config.Dump | src/vuecore/engines/plotly/scatter.py:35 | `model_dump()` holds exactly the declared fields and the kept extras, with their values |
| Values.Attr | src/vuecore/engines/plotly/theming.py:67-68 | attribute access succeeds exactly for a declared field or a kept extra, fields first; otherwise AttributeError naming the attribute |
| Text.Lower | src/vuecore/engines/plotly/saver.py:45 | `lower()` keeps the length and lower-cases each character |
| Text.TitleIsPointwise | src/vuecore/engines/plotly/theming.py:40 | `title()` keeps the length; a letter after a letter is lower-cased, any other letter upper-cased, and non-letters are kept |
| Text.TitleIdempotent | src/vuecore/engines/plotly/theming.py:67-68 | title-casing twice gives the same as once |
| Text.Strip | src/vuecore/utils/__init__.py:47 | `strip()` is a slice of the input with only whitespace removed on either side and no whitespace at either end |
| Figures.LastWriteWins | src/vuecore/engines/plotly/theming.py:49-74 | after successive layout updates a property holds the last value written, and untouched properties keep theirs |
| Figures.OverwrittenFirstPass | src/vuecore/engines/plotly/theming.py:49-74 | a first patch whose differences a later patch overwrites leaves no trace |
| Figures.Figure.constructor | src/vuecore/engines/plotly/scatter.py:76 | a new figure records its Plotly Express call and has no patches, layout or themes |
| Figures.TraceMode | src/vuecore/engines/plotly/scatter.py:76 | the `mode` Plotly Express gives its traces: a scatter's is "markers" exactly when no truthy `text` is passed and "markers+text" exactly when one is; a line's starts with "lines"; bar and box traces have none |
| Figures.Unknown | src/vuecore/engines/plotly/theming.py:27-34 | the keys of a dictionary value that are not among the given properties; none for a value that is not a dictionary |
| Figures.CheckPatch | src/vuecore/engines/plotly/theming.py:27-34 | a patch passes exactly when `marker` and `marker.line` have only known properties; otherwise the ValueError names the first object with unknown keys and all of its unknown keys |
| Figures.Figure.UpdateTraces | src/vuecore/engines/plotly/theming.py:27-34 | fails exactly when the selector picks the figure's traces and the patch has unknown properties, with that ValueError and nothing changed; otherwise the patch with its selector is appended; layout and themes are unchanged |
| Figures.Figure.UpdateLayout | src/vuecore/engines/plotly/theming.py:49-63 | the given properties overwrite the layout, every other property is kept; trace patches and themes are unchanged |
| Figures.Figure.ApplyOpaque | src/vuecore/engines/plotly/line.py:64 | a theme outside the model is recorded and nothing else changes |
| Schemas.Validate | src/vuecore/schemas/basic/scatter.py:90-159 | validation succeeds exactly when every declared field is either given with its type and within its bounds or has a default; a failure reports at least one field error; the model has exactly the declared fields |
| Schemas.ValidatedFields | src/vuecore/schemas/basic/scatter.py:93-159 | an accepted model holds every given argument and the default of every omitted field |
| Schemas.ValidatedExtras | src/vuecore/schemas/basic/scatter.py:90 | `extra="allow"` keeps exactly the undeclared arguments with their values; the default policy keeps none |
| Schemas.MissingIsReported | src/vuecore/schemas/basic/scatter.py:93-94 | an omitted required field is reported missing and validation fails |
| Schemas.ErrorsAreGenuine | src/vuecore/schemas/basic/scatter.py:93-159 | every reported error names a declared field that is missing, of the wrong type, or typed but out of bounds |
| Schemas.ReportedIff | src/vuecore/schemas/basic/scatter.py:93-159 | a field's error is reported exactly when that field's check fails with it |
| Schemas.GivenFieldAccepted | src/vuecore/schemas/basic/scatter.py:93-159 | a given, well-typed, in-bounds field draws no error |
| Schemas.OptionalValue | src/vuecore/schemas/basic/scatter.py:108 | an optional field defaulting to None holds its argument when given and None otherwise |
| Schemas.FieldHolds | src/vuecore/schemas/basic/scatter.py:93-159 | a declared field of an accepted model is the given well-typed value, or else its default |
| ScatterConfig.ValidateKeepsModel | src/vuecore/schemas/basic/scatter.py:161-168 | a successful validator returns the field-validated model unchanged |
| ScatterConfig.ReportedByFields | src/vuecore/schemas/basic/scatter.py:161-168 | the model validator adds no field errors |
| ScatterConfig.RequiresXY | src/vuecore/schemas/basic/scatter.py:93-94 | `x` (and `y`) is reported missing exactly when it is omitted |
| ScatterConfig.MarkerDefaults | src/vuecore/schemas/basic/scatter.py:126-154 | defaults: opacity 0.8, size_max 20, marker_line_width 0.5, marker_line_color "DarkSlateGrey" |
| ScatterConfig.LayoutDefaults | src/vuecore/schemas/basic/scatter.py:142-148 | defaults: title "Scatter Plot", template "plotly_white", width 800, height 600 |
| ScatterConfig.FlagDefaults | src/vuecore/schemas/basic/scatter.py:105-159 | defaults: color_by_density False, hover_data [], log_x and log_y False |
| ScatterConfig.OpacityBound | src/vuecore/schemas/basic/scatter.py:126 | opacity is a type error unless numeric, and out of range exactly when outside [0, 1] |
| ScatterConfig.MarkerLineWidthBound | src/vuecore/schemas/basic/scatter.py:149-151 | marker_line_width is a type error unless numeric, and out of range exactly when negative |
| ScatterConfig.ExclusiveColors | src/vuecore/schemas/basic/scatter.py:161-168 | once the fields validate, the validator fails exactly when color_by_density is true and color is truthy (an empty color passes), with its message |
| ScatterConfig.KeepsExtras | src/vuecore/schemas/basic/scatter.py:90 | undeclared arguments are kept as extras with their values |
| ScatterConfig.TitlesUndeclared | src/vuecore/schemas/basic/scatter.py:93-159 | `x_title` and `y_title` are not fields of the model |
| LineConfig.ValidateKeepsModel | src/vuecore/schemas/basic/line.py:89-149 | a valid line configuration is the field-validated model: there is no cross-field rule |
| LineConfig.ReportedByFields | src/vuecore/schemas/basic/line.py:89-149 | every error is a field error |
| LineConfig.RequiresXY | src/vuecore/schemas/basic/line.py:92-93 | `x` (and `y`) is reported missing exactly when it is omitted |
| LineConfig.StyleDefaults | src/vuecore/schemas/basic/line.py:107-144 | defaults: markers False, line_shape "linear", hover_data [] |
| LineConfig.AxisDefaults | src/vuecore/schemas/basic/line.py:134-135 | defaults: log_x and log_y False |
| LineConfig.LayoutDefaults | src/vuecore/schemas/basic/line.py:145-149 | defaults: title "Line Plot", template "plotly_white", width 800, height 600 |
| LineConfig.LineShapeNullable | src/vuecore/schemas/basic/line.py:142-144 | an explicit None line_shape draws no error |
| LineConfig.KeepsExtras | src/vuecore/schemas/basic/line.py:89 | undeclared arguments are kept as extras with their values |
| BarConfig.ValidateKeepsModel | src/vuecore/schemas/basic/bar.py:84-139 | a valid bar configuration is the field-validated model |
| BarConfig.ReportedByFields | src/vuecore/schemas/basic/bar.py:84-139 | every error is a field error |
| BarConfig.RequiresXY | src/vuecore/schemas/basic/bar.py:87-88 | `x` (and `y`) is reported missing exactly when it is omitted |
| BarConfig.StyleDefaults | src/vuecore/schemas/basic/bar.py:96-124 | defaults: opacity 0.8, orientation "v", barmode "relative", hover_data [] |
| BarConfig.AxisDefaults | src/vuecore/schemas/basic/bar.py:125-135 | defaults: log_x and log_y False, x_title and y_title None |
| BarConfig.LayoutDefaults | src/vuecore/schemas/basic/bar.py:133-139 | defaults: title "Bar Plot", template "plotly_white", width 800, height 600 |
| BarConfig.OpacityUnbounded | src/vuecore/schemas/basic/bar.py:119 | any numeric opacity draws no error: there are no bounds |
| BarConfig.ModesUnchecked | src/vuecore/schemas/basic/bar.py:120-124 | any string orientation or barmode draws no error |
| BarConfig.KeepsExtras | src/vuecore/schemas/basic/bar.py:84 | undeclared arguments are kept as extras with their values |
| BoxConfig.ValidateKeepsModel | src/vuecore/schemas/basic/box.py:77-130 | a valid box configuration is the field-validated model |
| BoxConfig.ReportedByFields | src/vuecore/schemas/basic/box.py:77-130 | every error is a field error |
| BoxConfig.XYOptional | src/vuecore/schemas/basic/box.py:80-81 | neither `x` nor `y` is ever reported missing |
| BoxConfig.OptionalDefaults | src/vuecore/schemas/basic/box.py:80-109 | defaults: x, y, orientation and category_orders None |
| BoxConfig.StyleDefaults | src/vuecore/schemas/basic/box.py:86-123 | defaults: boxmode "group", notched False, points "outliers", hover_data [] |
| BoxConfig.LayoutDefaults | src/vuecore/schemas/basic/box.py:124-130 | defaults: title "Box Plot", template "plotly_white", width 800, height 600 |
| BoxConfig.SizeNullable | src/vuecore/schemas/basic/box.py:129-130 | explicit None width and height draw no type error |
| BoxConfig.KeepsExtras | src/vuecore/schemas/basic/box.py:77 | undeclared arguments are kept as extras with their values |
| LegacyScatterConfig.ValidateKeepsModel | src/vuecore/schemas/distribution/scatter.py:5-77 | a valid configuration is the field-validated model: no cross-field validator |
| LegacyScatterConfig.ReportedByFields | src/vuecore/schemas/distribution/scatter.py:5-77 | every error is a field error |
| LegacyScatterConfig.RequiresXY | src/vuecore/schemas/distribution/scatter.py:46-47 | `x` (and `y`) is reported missing exactly when it is omitted |
| LegacyScatterConfig.LayoutDefaults | src/vuecore/schemas/distribution/scatter.py:61-69 | defaults: title "Scatter Plot", height 600, width 800 |
| LegacyScatterConfig.ColumnDefaults | src/vuecore/schemas/distribution/scatter.py:48-55 | defaults: group, size, symbol and text None |
| LegacyScatterConfig.ExtraDefaults | src/vuecore/schemas/distribution/scatter.py:56-77 | defaults: x_title, y_title, colors and trendline None, hover_cols [] |
| LegacyScatterConfig.DropsExtras | src/vuecore/schemas/distribution/scatter.py:5-77 | without `model_config` undeclared arguments are dropped |
| PlotArguments.PlotArgs | src/vuecore/engines/plotly/scatter.py:56-60 | the filter keeps exactly the entries whose key is not a theming key and whose value is not None, with unchanged values |
| PlotArguments.PlotArgsIdempotent | src/vuecore/engines/plotly/scatter.py:56-60 | filtering a filtered dictionary again changes nothing |
| PlotArguments.FieldPassed | src/vuecore/engines/plotly/scatter.py:35-60 | a declared field is passed on exactly when it is not a theming key and not None, with its value |
| ScatterBuilder.NotThemingParams | src/vuecore/engines/plotly/scatter.py:38-53 | color, color_discrete_map and hover_data are not theming keys |
| ScatterBuilder.PlotArgsFor | src/vuecore/engines/plotly/scatter.py:56-73 | fails exactly when a colour attribute cannot be read, with its AttributeError; otherwise "color" is always set: the density values in density mode, else the configured colour (possibly None); density mode drops color_discrete_map; every other key is as the filter leaves it; no theming key survives |
| ScatterBuilder.Build | src/vuecore/engines/plotly/scatter.py:56-81 | a missing `color_by_density` or `color` attribute raises its AttributeError first; then a forwarded keyword `px.scatter` does not take raises TypeError, which here carries the set of refused keywords; otherwise a new `px.scatter` figure on those arguments, themed once. Without `text` its traces are in mode "markers", and the theme fails with Plotly's ValueError for `marker.size_max`; with `text` (mode "markers+text") the theme runs and fails only on an unreadable title. It succeeds exactly when the reads succeed, no keyword is refused, `text` is set and both titles can be read, with the theme's trace patch and layout, and otherwise fails with the first of those errors |
| ScatterBuilder.ModeOfArgs | src/vuecore/engines/plotly/scatter.py:56-76 | the prepared arguments give the traces the mode the filtered `text` decides: setting "color" does not change it |
| ScatterBuilder.ModeOfText | src/vuecore/engines/plotly/scatter.py:56-60 | the traces carry text exactly when the `text` field is truthy |
| ScatterBuilder.TextMode | src/vuecore/engines/plotly/scatter.py:56-76 | for a validated configuration the traces are "markers+text" exactly when a truthy `text` was passed, else "markers" |
| ScatterBuilder.NeedsText | src/vuecore/engines/plotly/theming.py:27-34 | for a validated configuration a build succeeds only when a truthy `text` was passed; without it, once the colour reads and `px.scatter` pass, the build fails with the ValueError refusing `size_max` |
| ScatterBuilder.ColorArgument | src/vuecore/engines/plotly/scatter.py:63-73 | `config.color_by_density` is read first; when truthy "color" gets the density values, otherwise `config.color`; either read fails with the AttributeError naming the missing attribute |
| ScatterBuilder.RefusedKeywordFails | src/vuecore/engines/plotly/scatter.py:63-79 | a refused keyword makes the build fail: with the colour read's AttributeError when that read fails, else with the TypeError, never reaching the theme |
| ScatterBuilder.SameUnexpected | src/vuecore/engines/plotly/scatter.py:62-76 | setting "color" and dropping "color_discrete_map" changes nothing about which keywords `px.scatter` refuses |
| ScatterBuilder.DeclaredFieldsAccepted | src/vuecore/engines/plotly/scatter.py:56-76 | every declared field that is forwarded is a `px.scatter` keyword, so the refused keywords are exactly the non-None extras outside its signature |
| ScatterBuilder.TitleRefused | src/vuecore/engines/plotly/scatter.py:56-76 | an `x_title` or `y_title` passed with a value other than None is refused by `px.scatter` |
| ScatterBuilder.TitlesOnlyAsNone | src/vuecore/engines/plotly/scatter.py:76-79 | a build succeeds only when `x_title` and `y_title` were both passed, and both as None (and, by `NeedsText`, `text` was set) |
| ScatterBuilder.EmptyHoverDataForwarded | src/vuecore/engines/plotly/scatter.py:56-60 | an omitted hover_data reaches `px.scatter` as [], falsy but not None |
| LineBuilder.Build | src/vuecore/engines/plotly/line.py:54-66 | a new `px.line` figure on the filtered arguments with the line theme applied once |
| LineBuilder.HoverDataNotThemed | src/vuecore/engines/plotly/line.py:39-51 | hover_data is not a line theming key |
| LineBuilder.EmptyHoverDataForwarded | src/vuecore/engines/plotly/line.py:54-58 | an omitted hover_data reaches `px.line` as [] |
| BarBuilder.Build | src/vuecore/engines/plotly/bar.py:58-70 | a new `px.bar` figure on the filtered arguments with the bar theme applied once |
| BarBuilder.ColorNotThemed | src/vuecore/engines/plotly/bar.py:40-55 | color is not a bar theming key |
| BarBuilder.ColorForwardedIffSet | src/vuecore/engines/plotly/bar.py:58-65 | color is forwarded exactly when it is not None, with its value |
| BoxBuilder.Build | src/vuecore/engines/plotly/box.py:56-68 | a new `px.box` figure on the filtered arguments with the box theme applied once |
| BoxBuilder.ColumnsNotThemed | src/vuecore/engines/plotly/box.py:38-53 | orientation, x and y are not box theming keys |
| BoxBuilder.OrientationAndColumns | src/vuecore/engines/plotly/box.py:56-60 | a set orientation is forwarded; an omitted x or y is not forwarded at all |
| Theming.LabelledTitle | src/vuecore/engines/plotly/theming.py:37-46 | the label for the column when `labels` has one, else the title-cased column name |
| Theming.AxisType | src/vuecore/engines/plotly/theming.py:57-58 | "log" exactly when the switch is truthy, "linear" exactly when it is not |
| Theming.MarkerPatchRefused | src/vuecore/engines/plotly/theming.py:27-34 | the theme's marker patch is refused for `size_max` alone: opacity and the outline are marker properties |
| Theming.ApplyScatterTheme | src/vuecore/engines/plotly/theming.py:6-75 | on traces in mode "markers" the marker patch raises Plotly's ValueError and nothing changes; on other traces the patch is recorded, the layout becomes the first patch over the old layout and then the second over that, and an AttributeError after the first patch leaves it applied |
| Theming.ThemedIff | src/vuecore/engines/plotly/theming.py:27-74 | the theme succeeds exactly when the traces are not in mode "markers" and both titles can be read; on "markers" traces it fails with the refusal of `size_max`, otherwise with the title's AttributeError |
| Theming.ThemeFailsIff | src/vuecore/engines/plotly/theming.py:67-68 | the layout passes fail exactly when `x_title` or `y_title` cannot be read, with the AttributeError of the first missing one; they are reached only when `text` is set (mode "markers+text"), otherwise Plotly refuses `marker.size_max` first |
| Theming.FirstPassTitles | src/vuecore/engines/plotly/theming.py:37-53 | the first pass titles an axis from labels when it names the column, else from the title-cased column name |
| Theming.KeySets | src/vuecore/engines/plotly/theming.py:49-74 | which properties each of the two passes sets |
| Theming.FirstOnlyValues | src/vuecore/engines/plotly/theming.py:51-60 | the first pass's subtitle, axis types and ranges |
| Theming.ThemedAt | src/vuecore/engines/plotly/theming.py:49-74 | each property of the themed layout comes from the second pass, else the first, else the old layout |
| Theming.FinalTitlesAndTemplate | src/vuecore/engines/plotly/theming.py:65-71 | the final axis titles are x_title or y_title when truthy, else the title-cased column; the template is always "plotly_white" |
| Theming.FirstPassSurvives | src/vuecore/engines/plotly/theming.py:49-63 | the subtitle and ranges of the first pass survive the second |
| Theming.AxisTypes | src/vuecore/engines/plotly/theming.py:57-58 | in the themed layout an axis is "log" exactly when its switch is truthy |
| Theming.OtherKeysKept | src/vuecore/engines/plotly/theming.py:49-74 | the themed layout has the old properties plus the theme's, and properties the theme does not set keep their values |
| Theming.FirstPassLabelsOnlyTitles | src/vuecore/engines/plotly/theming.py:37-63 | labels affect only the first pass's two axis titles |
| Theming.SecondPassIgnoresLabels | src/vuecore/engines/plotly/theming.py:65-74 | the second pass does not depend on labels |
| Theming.LabelsNeverSurvive | src/vuecore/engines/plotly/theming.py:37-74 | whatever labels holds, the themed layout is the same |
| Theming.ValidatedIsThemeReady | src/vuecore/schemas/basic/scatter.py:93-117 | a validated scatter configuration has string columns and labels of None or a dictionary |
| Theming.NeedsTitleExtras | src/vuecore/engines/plotly/theming.py:67-68 | for a validated configuration the theme fails exactly when x_title or y_title was not passed |
| Paths.Name | src/vuecore/engines/plotly/saver.py:44 | the last path component holds no separator |
| Paths.Suffix | src/vuecore/engines/plotly/saver.py:45 | empty, or a dot followed by at least one character with no further dot, that ends the last component and is shorter than it |
| Paths.SuffixOfName | src/vuecore/engines/plotly/saver.py:45 | a name with a non-empty stem and a final extension has that extension as suffix |
| Paths.NoSuffixForHiddenOrTrailingDot | src/vuecore/engines/plotly/saver.py:45 | a hidden name with one leading dot, or a name ending in a dot, has no suffix |
| Paths.ExtensionOfName | src/vuecore/engines/plotly/saver.py:44-45 | the extension dispatched on is the lower-cased final extension |
| Paths.UpperCaseExtension | src/vuecore/engines/plotly/saver.py:45 | "X.PNG" dispatches as ".png" |
| PlotlySaver.FormatOf | src/vuecore/engines/plotly/saver.py:48-72 | image exactly for the six image suffixes, HTML exactly for ".html", never JSON |
| PlotlySaver.SaveImage | src/vuecore/engines/plotly/saver.py:48-65 | one write; after a RuntimeError naming Chrome, one install and on success one retry, whose failures are a failed install with its message; any other failure passes on; at most two writes |
| PlotlySaver.Save | src/vuecore/engines/plotly/saver.py:7-74 | succeeds exactly when the image or HTML write succeeds; every failure is the RuntimeError "[VueCore] Failed to save plot: <path>"; an unsupported suffix writes nothing and carries the ValueError; HTML is written with the CDN script |
| CoreSaver.FormatOf | src/vuecore/core/io/saver.py:45-54 | image exactly for the six image suffixes, HTML for ".html", JSON for ".json" |
| CoreSaver.SavePlot | src/vuecore/core/io/saver.py:42-54 | an image suffix makes exactly one `write_image`, ".html" exactly one `write_html` with the CDN, ".json" exactly one `write_json`, each on the given path; an unsupported suffix writes nothing and raises the ValueError naming it; otherwise it succeeds exactly when the write does, and a failure is passed on unwrapped |
| SaverComparison.FormatsAgreeExceptJson | src/vuecore/core/io/saver.py:45-54 | both savers classify every suffix alike except ".json" |
| SaverComparison.JsonRefusedByPlotly | src/vuecore/engines/plotly/saver.py:68-72 | a ".json" path is unsupported for the Plotly saver, which writes nothing, while the core saver makes its one `write_json` call on it |
| Pipelines.RunBuilder | src/vuecore/plots/basic/scatter.py:66 | the registered builder succeeds exactly when it can (only the scatter builder can fail: its colour reads' AttributeError, `px.scatter`'s TypeError, Plotly's ValueError for `marker.size_max` when `text` is not set, or, when it is, the theme's AttributeError); the new figure is the builder's: its Plotly Express call, arguments, trace patches, layout and theme (`BuiltBy`) |
| Pipelines.RunSaver | src/vuecore/plots/basic/scatter.py:71 | the registered saver succeeds exactly when the Plotly save does, failing with its message |
| Pipelines.TraceSplits | src/vuecore/plots/basic/scatter.py:60-71 | the steps are the build steps followed, after a successful build, by the saving steps |
| Pipelines.ValidationFirst | src/vuecore/plots/basic/scatter.py:60-63 | validation is the first step, the only one when it fails, and the builder lookup comes next |
| Pipelines.NoPathNoSave | src/vuecore/plots/basic/scatter.py:69-71 | without a truthy path there is no saver lookup and no save |
| Pipelines.SaverLookedUpAfterBuild | src/vuecore/plots/basic/scatter.py:66-70 | the saver lookup is the fourth step, right after a successful build |
| Pipelines.BuildStage | src/vuecore/plots/basic/scatter.py:60-66 | the validation error, the lookup error or the build's own error, each stopping the rest; success exactly when all three succeed, with the figure the builder made (`BuiltBy`) |
| Pipelines.SaveStage | src/vuecore/plots/basic/scatter.py:69-73 | no save without a truthy path; a missing saver raises its lookup error; otherwise success exactly when the save succeeds, returning the built figure itself |
| Pipelines.Create | src/vuecore/plots/basic/scatter.py:60-73 | the steps in order; the validation error, the builder lookup's NotFound, the build's error, the saver lookup's NotFound or the save's RuntimeError message, each from the first failing step (`Delivers`); success exactly when validation, lookup, build and (given a truthy path) saver lookup and save all succeed; the result is the new figure the builder made |
| Pipelines.LineValidatedIsThemeReady | src/vuecore/plots/basic/line.py:89-95 | a validated line configuration has string columns and labels of None or a dictionary |
| Pipelines.LineConfigRefusedByScatter | src/vuecore/engines/plotly/scatter.py:63-76 | a validated line configuration never gets through the scatter builder: without a `color_by_density` extra its read raises AttributeError, and with one `px.scatter` refuses `markers` |
| Pipelines.LineMarkersRefused | src/vuecore/engines/plotly/scatter.py:56-76 | the line model's `markers` field is forwarded by the scatter filter and refused by `px.scatter` |
| Pipelines.LineColourReads | src/vuecore/engines/plotly/scatter.py:63-73 | on a line configuration `color` can be read, and `color_by_density` only when passed as an extra |
| Pipelines.CreateScatterPlot | src/vuecore/plots/basic/scatter.py:10-73 | validation with `ScatterConfig`, then plot type "scatter" under the caller's engine, with everything `Create` promises: the steps, each step's error, success exactly when every step succeeds, and the builder's figure; the build step fails with Plotly's ValueError for `marker.size_max` unless `text` is passed (`ScatterBuilder.NeedsText`) |
| Pipelines.CreateLinePlot | src/vuecore/plots/basic/line.py:10-102 | validation with `LineConfig`, then plot type "line" under the caller's engine, with everything `Create` promises: the steps, each step's error, success exactly when every step succeeds, and the builder's figure |
| Pipelines.LinePlotAfterImport | src/vuecore/plots/basic/line.py:92 | with the registry the import leaves, a valid line plot raises "No 'line' builder found for engine 'plotly'" |
| LegacyScatter.ArgsFollowRenaming | src/vuecore/core/plotting/plotly/converters.py:28-39 | `px.scatter` gets exactly the nine renamed arguments, each from its configuration field |
| LegacyScatter.ColumnArgs | src/vuecore/core/plotting/plotly/converters.py:30-36 | x and y are passed as is, group as color, hover_cols as hover_data |
| LegacyScatter.LayoutFieldsUnused | src/vuecore/core/plotting/plotly/converters.py:28-39 | title, x_title, y_title, height and width are not passed to `px.scatter` |
| LegacyScatter.ValidatedArgs | src/vuecore/core/plotting/plotly/converters.py:30-36 | for a validated configuration the columns arrive as given, and color and hover_data carry group and hover_cols or their defaults |
| LegacyScatter.Convert | src/vuecore/core/plotting/plotly/converters.py:28-40 | a new unstyled figure made by `px.scatter` on those arguments |
| LegacyScatter.ValidatedIsPlotReady | src/vuecore/schemas/distribution/scatter.py:46-47 | a validated configuration has string columns |
| LegacyScatter.PlotThemeLayout | src/vuecore/core/plotting/plotly/utils.py:30-39 | the theme sets the same eight properties as the second pass of the scatter theme |
| LegacyScatter.PlotMarkerPatchAccepted | src/vuecore/core/plotting/plotly/utils.py:25-28 | the legacy marker patch names only marker and outline properties, so Plotly accepts it on any trace |
| LegacyScatter.ApplyPlotTheme | src/vuecore/core/plotting/plotly/utils.py:25-40 | one constant marker patch for marker traces, which Plotly accepts, one layout update, and the same figure returned |
| LegacyScatter.AxisTitleFallback | src/vuecore/core/plotting/plotly/utils.py:32-33 | an axis title is x_title or y_title when truthy, else the title-cased column |
| LegacyScatter.PlotThemeFields | src/vuecore/core/plotting/plotly/utils.py:31-36 | title, height and width copy the configuration; the template is always "plotly_white" |
| LegacyScatter.DefaultLayout | src/vuecore/core/plotting/plotly/utils.py:30-39 | with the layout arguments omitted: "Scatter Plot", 600 by 800, title-cased columns, "plotly_white" |
| LegacyScatter.SecondPassReadsFields | src/vuecore/engines/plotly/theming.py:65-74 | with the titles declared as fields the scatter theme's second pass reads them |
| LegacyScatter.SecondPassAt | src/vuecore/engines/plotly/theming.py:65-74 | the two themes agree property by property |
| LegacyScatter.SameAsScatterSecondPass | src/vuecore/engines/plotly/theming.py:65-74 | the legacy theme's layout is the scatter theme's second pass |
| LegacyScatter.StyledFigure | src/vuecore/plots/distribution/scatter.py:95-98 | the converter's figure with the theme's trace patch and layout |
| LegacyScatter.CreateScatterPlot | src/vuecore/plots/distribution/scatter.py:77-104 | validation first; the core saver is called only for a truthy save path; success exactly when validation and (given a path) the save succeed; the result is the styled new figure |
| ColumnValidation.Missing | src/vuecore/utils/validation.py:28 | a column is in the missing list exactly when it is required and absent from the frame |
| ColumnValidation.MissingAppend | src/vuecore/utils/validation.py:28 | request order is kept: the missing columns of a concatenation are those of each part in turn |
| ColumnValidation.MissingCounts | src/vuecore/utils/validation.py:28 | an absent column occurs as often as it was requested, a present one never |
| ColumnValidation.MissingIsEmptyIff | src/vuecore/utils/validation.py:28-29 | nothing is missing exactly when every required column is present |
| ColumnValidation.ValidateColumnsExist | src/vuecore/utils/validation.py:28-32 | raises exactly when some required column is absent, with the message listing the missing ones |
| ColumnValidation.NothingRequired | src/vuecore/utils/validation.py:28-29 | an empty required list always passes |
| ColumnValidation.MoreColumnsStillFail | src/vuecore/utils/validation.py:28-32 | requiring more columns never turns a failure into a pass |
| Docstrings.HeaderAt | src/vuecore/utils/__init__.py:38 | a header match that uses the keyword at a position covers it and no more than the text |
| Docstrings.HeaderShape | src/vuecore/utils/__init__.py:38 | a match is the whole whitespace run before "attributes" (case aside), the keyword and a newline, then whitespace, at least one dash and whitespace up to its last newline (`RuleSpan`) |
| Docstrings.SkipSpacesWithin | src/vuecore/utils/__init__.py:38 | skipping whitespace from inside a run ends where the run ends |
| Docstrings.FirstHeaderFrom | src/vuecore/utils/__init__.py:39-40 | the first position with a match, and no match before it |
| Docstrings.Split | src/vuecore/utils/__init__.py:39-40 | one part (the whole text) or three parts that rejoin to the text |
| Docstrings.SplitAtFirstMatch | src/vuecore/utils/__init__.py:38-40 | the split is at the first match, which begins with only whitespace before the keyword |
| Docstrings.CombinedDoc | src/vuecore/utils/__init__.py:30-72 | an empty docstring on either side, or a parent without the header, leaves the child's docstring |
| Docstrings.CombinedWithChildSection | src/vuecore/utils/__init__.py:58-69 | the stripped child header, the section header, the parent block and the child block, in that order |
| Docstrings.CombinedWithoutChildSection | src/vuecore/utils/__init__.py:70-72 | the child's docstring verbatim, the section header and the parent block |
| Docstrings.ParentBlockHolds | src/vuecore/utils/__init__.py:47-52 | the parent block carries the parent's stripped attributes |
| Docstrings.ChildBlockHolds | src/vuecore/utils/__init__.py:60-66 | the child block carries the class's stripped attributes |
| Docstrings.CombinedKeepsBothSections | src/vuecore/utils/__init__.py:58-69 | with both sections, the new docstring holds both stripped attribute texts |
| Docstrings.CombinedExtendsChild | src/vuecore/utils/__init__.py:70-72 | with no child section, the new docstring extends the old one and holds the parent's stripped attributes |
| Docstrings.DocumentedClass.constructor | src/vuecore/utils/__init__.py:30 | a class with its name and docstring |
| Docstrings.CombineDocstrings | src/vuecore/utils/__init__.py:9-74 | the class's docstring becomes the combined docstring of its old one and its base's, and the same class is returned |
| Ticks.FloorDiv | src/vuecore/__init__.py:73 | Python's `//`: the quotient rounded towards minus infinity, for either sign of divisor |
| Ticks.StridedLength | src/vuecore/__init__.py:75 | `s[::step]` has ceil(n / step) elements |
| Ticks.StridedElements | src/vuecore/__init__.py:75 | element i of `s[::step]` is `s[i * step]` |
| Ticks.StridedKeepsFirst | src/vuecore/__init__.py:75 | the first element is kept |
| Ticks.SelectXticks | src/vuecore/__init__.py:72-76 | ZeroDivisionError exactly when max_ticks is 0; the first tick is kept |
| Ticks.SelectXticksUnchanged | src/vuecore/__init__.py:73-76 | a negative max_ticks, or fewer than twice max_ticks ticks, leaves the ticks unchanged |
| Ticks.SelectXticksStride | src/vuecore/__init__.py:73-75 | with an offset above 1: ceil(n / offset) ticks, the i-th being tick i * offset |
| Ticks.MoreThanMaxTicks | src/vuecore/__init__.py:73-75 | 59 ticks with at most 20 give 30 ticks, more than max_ticks |
| Ticks.Unique | src/vuecore/__init__.py:95 | `unique()` holds the same values, each once, no more than the input, in the order of their first appearance |
| Ticks.FirstIndex | src/vuecore/__init__.py:95 | the position of a value's first appearance |
| Ticks.StridedDistinct | src/vuecore/__init__.py:95-98 | striding distinct values gives distinct values |
| Ticks.SelectDatesAsWritten | src/vuecore/__init__.py:95-100 | the written code: unique days, strided when the offset exceeds 1, else None |
| Ticks.SelectDatesLosesFewDays | src/vuecore/__init__.py:96-100 | with the default 30, any series of fewer than 60 values, a single day included, gives None |
| Ticks.AsWrittenNoneIff | src/vuecore/__init__.py:96-100 | the written code returns None exactly when the offset is at most 1 |
| Ticks.SelectDates | src/vuecore/__init__.py:95-100 | corrected: ZeroDivisionError exactly when max_ticks is 0; only days of the series, each once, the first day first; the unique days when the offset is at most 1 |
| Ticks.SelectDatesAgrees | src/vuecore/__init__.py:95-98 | the corrected function agrees with the written one wherever that one returns a value |

## Left out

- Plotly, Plotly Express and Kaleido are outside the model. A figure records what was asked of it: the `px.*` call, the trace patches, the layout properties and the themes. The export and install calls answer from an oracle of outcomes. Rendering, HTML and image content are not modelled.
- `get_density` is a parameter of the scatter builder: its module is not part of this model, and its content is numerical statistics.
- `apply_line_theme`, `apply_bar_theme` and `apply_box_theme` are recorded as opaque theme tokens: their definitions are not part of this model.
- The printed success and Chrome-install messages of both savers, and all logging, are output only.
- Pydantic's lax coercion (for example "5" to 5) is not modelled. A value must have the declared type exactly, and an int is accepted where a float is declared. Defaults are not validated, and neither does pydantic validate them.
- The error order inside a pydantic ValidationError is not modelled: the field errors are a set.
- `Schemas.Validate` reports one error per offending field. Pydantic reports one per failing location, so `range_x=["a", "b"]`, or a `labels` dictionary with two non-string values, yields two errors there (at `('range_x', 0)` and `('range_x', 1)`) and one `WrongType` here.
- `Paths.Name`, `Paths.Suffix`: modelled for "/"-separated paths without "." or ".." components, and Windows separators are not modelled. pathlib drops a "." component, so `Path("out/plot.png/.").suffix` is ".png", while `Paths.Name("out/plot.png/.")` is "." and its suffix is empty.
- `Text.Lower`, `Text.TitleIsPointwise`: `str.lower()` and `str.title()` are modelled on ASCII letters only. Other characters are kept as they are.
- `ColumnValidation.ListRepr` writes each column as `'name'`; the escaping `repr` applies to quotes and backslashes inside a name is not modelled.
- `Docstrings.CombinedDoc`: a missing `__doc__` (None) is modelled as the empty string. Both are falsy and leave the class unchanged.
- `Docstrings.HeaderAt`: the regular expression's case-insensitive match of "Attributes" is modelled with ASCII case folding.
- `Ticks.SelectXticks` returns the thinned tick values. `ax.set_xticks` returns Tick objects, and its effect on the axes is not modelled.
- `Ticks.SelectDates` models the days as integers after `dt.date`. The date conversion and the numpy array type are not modelled.
- The matplotlib helpers in `src/vuecore/__init__.py` (`savefig`, `make_large_descriptors`, `add_prop_as_second_yaxis`, `add_height_to_barplot`, `add_text_to_barplot`, `format_large_numbers`) are plotting side effects, file input and output, and floating point.
- `ScatterBuilder.Build`: the column checks of `px.scatter` are not modelled. Plotly raises ValueError when `x`, `y`, `color` or another column argument names a column the frame lacks, and in density mode `data[config.x]` raises KeyError first; the model takes the build to succeed on any frame. A frame is known only by its column names, and Plotly's argument resolution is not part of this model.
- `ScatterBuilder.Build`: the TypeError carries the set of refused keywords. Python's message names only the first unexpected keyword in argument order, which a map does not keep.
- `Pipelines.CreateScatterPlot`: inherits the gap of `ScatterBuilder.Build`. The ValueError documented for a column missing from the frame is not modelled, so a figure is promised on any frame.
- `LegacyScatter.CreateScatterPlot` (the distribution API's `create_scatter_plot`): `px.scatter`'s ValueError for a column not in the frame is not modelled, so a figure is promised on any frame. The package's own column check is commented out; Plotly's check is not part of this model.
- `Pipelines.RunBuilder`: the line, bar and box builders are likewise taken to succeed on any frame. The scatter builder reads `color_by_density` and `color` as attributes and fails with their AttributeError, but the scatter theme reads its other fields (`opacity`, `size_max`, `title` and the rest) as declared fields, None when absent, where Python would raise AttributeError for a configuration model that lacks them. No configuration model of the package reaches the theme that way: a line configuration is refused at `color_by_density` or by `px.scatter` (`Pipelines.LineConfigRefusedByScatter`).
- `ScatterSignature.Keywords` follows the published signature of `plotly.express.scatter`; plotly's source is not part of this model, and a release with other keywords would refuse other extras.
- `Figures.CheckPatch` checks only the keys of `marker` and `marker.line` against Plotly's property names, which is what refuses `marker.size_max` in `Theming.ApplyScatterTheme`. Other trace properties, the values given to properties, and the layout properties of `update_layout` are not checked: Plotly's value validation is not part of this model.
- `Figures.TraceMode` gives every trace of a call one mode. The traces that trendlines and marginals add (mode "lines", or no mode) are left out; the selector does not pick them. A discrete grouping over an empty frame draws no trace, so nothing is selected and Plotly raises nothing; the model takes there to be at least one trace. With `render_mode="webgl"`, or with the default "auto" on a frame of more than 1000 rows, the traces are `Scattergl`, whose marker properties are taken to be those of `Scatter`; `size_max` is a property of neither.
- `LineBuilder.Build`, `BarBuilder.Build` and `BoxBuilder.Build` do not check their arguments against the signatures of `px.line`, `px.bar` and `px.box`: those signatures are not part of this model.
- `Pipelines.SaveStage` receives the saver lookup's result from `Create`. The lookup is a pure read of the registry, and the step it adds is recorded only when the path is truthy, as in the source.

## Findings

| source | as written | input that shows it | evidently intended | confidence | as-written member | corrected member |
|---|---|---|---|---|---|---|
| src/vuecore/__init__.py:99-100 | the `else` branch of `select_dates` evaluates `xticks` without returning it, so the function returns None whenever the offset is at most 1 | any series with fewer than 60 distinct days and the default `max_ticks=30`, for example a single day | `return xticks`: the unique days, unthinned | not executed | Ticks.SelectDatesAsWritten, Ticks.SelectDatesLosesFewDays | Ticks.SelectDates |
