/**
 * The engine registry: builders keyed by engine and then plot type, savers
 * keyed by engine, both process-wide tables that registration updates in
 * place. Builders and savers are named by tokens.
 */
module Registry {
  import opened Values
  import opened Text

  /** The build and save functions an engine can register. */
  datatype Builder = ScatterBuild | LineBuild | BarBuild | BoxBuild
  datatype Saver = PlotlySave

  /** The `ValueError` a failed lookup raises. */
  datatype LookupError = ValueError(message: string)

  /**
   * The two `StrEnum` classes the constants can be built on: the standard
   * library's (Python 3.11 and later) and, when that import fails, the
   * `strenum` package's.
   */
  datatype StrEnumSource = StandardLibrary | StrenumPackage

  /**
   * The value `auto()` gives a member: the standard library lower-cases the
   * member's name, the `strenum` package keeps it as written.
   */
  function AutoValue(source: StrEnumSource, member: string): string {
    match source
    case StandardLibrary => Lower(member)
    case StrenumPackage => member
  }

  /** `EngineType.PLOTLY`, `PlotType.SCATTER` and `PlotType.LINE` on the standard library. */
  const Plotly := "plotly"
  const ScatterType := "scatter"
  const LineType := "line"

  /**
   * On the standard library the enumerations' values are the lower-case
   * keys the engine registers under; on the fallback they are the upper-case
   * member names, which differ from those keys.
   */
  lemma EnumValues()
    ensures AutoValue(StandardLibrary, "PLOTLY") == Plotly
    ensures AutoValue(StandardLibrary, "SCATTER") == ScatterType
    ensures AutoValue(StandardLibrary, "LINE") == LineType
    ensures AutoValue(StrenumPackage, "PLOTLY") == "PLOTLY" != Plotly
    ensures AutoValue(StrenumPackage, "SCATTER") == "SCATTER" != ScatterType
  {
    assert Lower("PLOTLY") == "plotly";
    assert Lower("SCATTER") == "scatter";
    assert Lower("LINE") == "line";
    assert "PLOTLY"[0] != Plotly[0];
    assert "SCATTER"[0] != ScatterType[0];
  }

  function BuilderMissing(plotType: string, engine: string): string {
    "No '" + plotType + "' builder found for engine '" + engine + "'"
  }

  function SaverMissing(engine: string): string {
    "No saver found for engine '" + engine + "'"
  }

  /** `PLOT_BUILDERS` and `PLOT_SAVERS`. */
  class Registry {
    var builders: map<string, map<string, Builder>>
    var savers: map<string, Saver>

    /** Both tables start empty. */
    constructor ()
      ensures builders == map[] && savers == map[]
    {
      builders := map[];
      savers := map[];
    }

    /** `get_builder(plot_type, engine)`: a missing engine or plot type raises ValueError. */
    function GetBuilder(plotType: string, engine: string): (r: Result<Builder, LookupError>)
      reads this
      ensures r.Ok? <==> engine in builders && plotType in builders[engine]
      ensures r.Ok? ==> r.value == builders[engine][plotType]
      ensures r.Err? ==> r.error == ValueError(BuilderMissing(plotType, engine))
    {
      if engine in builders && plotType in builders[engine] then Ok(builders[engine][plotType])
      else Err(ValueError(BuilderMissing(plotType, engine)))
    }

    /** `get_saver(engine)`: an unregistered engine raises ValueError. */
    function GetSaver(engine: string): (r: Result<Saver, LookupError>)
      reads this
      ensures r.Ok? <==> engine in savers
      ensures r.Ok? ==> r.value == savers[engine]
      ensures r.Err? ==> r.error == ValueError(SaverMissing(engine))
    {
      if engine in savers then Ok(savers[engine]) else Err(ValueError(SaverMissing(engine)))
    }

    /**
     * `register_builder(plot_type, engine, func)`: the engine's table is
     * created when absent; the entry is set, overwriting any earlier one;
     * every other builder and every saver is unchanged.
     */
    method RegisterBuilder(plotType: string, engine: string, f: Builder)
      modifies this
      ensures GetBuilder(plotType, engine) == Ok(f)
      ensures forall p, e :: (p, e) != (plotType, engine) ==> GetBuilder(p, e) == old(GetBuilder(p, e))
      ensures builders == old(builders)[engine := old(if engine in builders then builders[engine] else map[])[plotType := f]]
      ensures savers == old(savers)
    {
      if engine !in builders {
        builders := builders[engine := map[]];
      }
      builders := builders[engine := builders[engine][plotType := f]];
    }

    /** `register_saver(engine, func)`: set or overwritten; builders are unchanged. */
    method RegisterSaver(engine: string, f: Saver)
      modifies this
      ensures GetSaver(engine) == Ok(f)
      ensures forall e :: e != engine ==> GetSaver(e) == old(GetSaver(e))
      ensures savers == old(savers)[engine := f]
      ensures builders == old(builders)
    {
      savers := savers[engine := f];
    }
  }

  /** The tables once the Plotly engine has been imported: one builder and one saver. */
  const PlotlyBuilders := map[Plotly := map[ScatterType := ScatterBuild]]
  const PlotlySavers := map[Plotly := PlotlySave]

  /** Importing the engines: empty tables, then the Plotly engine's two registrations. */
  method ImportEngines() returns (reg: Registry)
    ensures fresh(reg)
    ensures reg.builders == PlotlyBuilders && reg.savers == PlotlySavers
  {
    reg := new Registry();
    reg.RegisterBuilder(ScatterType, Plotly, ScatterBuild);
    reg.RegisterSaver(Plotly, PlotlySave);
  }

  /**
   * After the import: the scatter builder and the Plotly saver are found,
   * and no line builder (nor any other plot type) is registered.
   */
  lemma ImportedLookups(reg: Registry)
    requires reg.builders == PlotlyBuilders && reg.savers == PlotlySavers
    ensures reg.GetBuilder(ScatterType, Plotly) == Ok(ScatterBuild)
    ensures reg.GetSaver(Plotly) == Ok(PlotlySave)
    ensures reg.GetBuilder(LineType, Plotly) == Err(ValueError(BuilderMissing(LineType, Plotly)))
    ensures forall p :: p != ScatterType ==> reg.GetBuilder(p, Plotly).Err?
  {
    assert LineType != ScatterType;
  }

  /**
   * On the fallback `StrEnum`, the default engine `EngineType.PLOTLY` is
   * "PLOTLY", under which nothing is registered: the scatter lookup of
   * `create_scatter_plot` with its default engine raises, and so does the
   * saver lookup.
   */
  lemma FallbackDefaultEngineMisses(reg: Registry)
    requires reg.builders == PlotlyBuilders && reg.savers == PlotlySavers
    ensures reg.GetBuilder(ScatterType, AutoValue(StrenumPackage, "PLOTLY")).Err?
    ensures reg.GetSaver(AutoValue(StrenumPackage, "PLOTLY")).Err?
    ensures reg.GetBuilder(ScatterType, AutoValue(StandardLibrary, "PLOTLY")).Ok?
  {
    EnumValues();
  }
}
