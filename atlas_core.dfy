/**
 * `print_atlas` of atlasprint/core.py: find the layout, configure its
 * reference map, label texts and atlas filter, choose the predefined
 * scales and export the atlas to a PDF file.
 *
 * The QGIS engine is reduced to what the function reads from it: the
 * project's layouts and scale settings, the parser and evaluator of
 * expressions (as functions giving an error text or nothing), the QGIS
 * version, the temporary directory, the generated uuid, and the result of
 * the export together with the existence of the output file.
 */
module AtlasCore {
  import opened Wrappers
  import opened Text
  import opened Expression
  import opened Scales

  /** Raised by `print_atlas`: AtlasPrintException (a user error) or any other exception. */
  datatype PrintFailure = AtlasPrintException(message: string) | OtherException(message: string)

  datatype LayoutType = PrintLayout | Report

  /** The atlas scaling mode of the reference map. */
  datatype ScalingMode = Fixed | Predefined | Auto

  /** A coverage layer whose primary-key indexes name its fields. */
  type CoverageLayer = layer: Layer | WellFormed(layer) witness Layer([], [])

  /** What `print_atlas` changes on the layout it prints: its reference map, labels and atlas. */
  datatype LayoutState = LayoutState(
    scalingMode: ScalingMode,
    mapScale: int,
    reportScales: seq<int>,
    labels: map<string, string>,
    filterFeatures: bool,
    filterExpression: string)

  /**
   * A layout of the project. The identity, type, atlas switch, presence of
   * a reference map and coverage layer are fixed; the rest is what printing
   * updates. `labels` maps the id of each label item to its text.
   */
  class Layout {
    const name: string
    const layoutType: LayoutType
    const atlasEnabled: bool
    const hasReferenceMap: bool
    const coverage: CoverageLayer
    var scalingMode: ScalingMode
    var mapScale: int
    var reportScales: seq<int>
    var labels: map<string, string>
    var filterFeatures: bool
    var filterExpression: string

    constructor (name: string, layoutType: LayoutType, atlasEnabled: bool, hasReferenceMap: bool,
                 coverage: CoverageLayer, labels: map<string, string>)
      ensures this.name == name && this.layoutType == layoutType && this.atlasEnabled == atlasEnabled
      ensures this.hasReferenceMap == hasReferenceMap && this.coverage == coverage
      ensures State() == LayoutState(Auto, 0, [], labels, false, "")
    {
      this.name := name;
      this.layoutType := layoutType;
      this.atlasEnabled := atlasEnabled;
      this.hasReferenceMap := hasReferenceMap;
      this.coverage := coverage;
      scalingMode := Auto;
      mapScale := 0;
      reportScales := [];
      this.labels := labels;
      filterFeatures := false;
      filterExpression := "";
    }

    function State(): LayoutState
      reads this
    {
      LayoutState(scalingMode, mapScale, reportScales, labels, filterFeatures, filterExpression)
    }
  }

  /** The project settings `print_atlas` reads, next to its layouts. */
  datatype Project = Project(
    layouts: seq<Layout>,
    useProjectScales: bool,
    mapScales: seq<int>,
    scalesList: seq<string>)

  /** The parts of the engine and of the environment `print_atlas` depends on. */
  datatype Engine = Engine(
    qgisVersion: int,
    globalScalesSetting: Option<string>,
    parserError: string -> Option<string>,
    evalError: string -> Option<string>,
    tempDir: string,
    uuid: string,
    exportSucceeded: bool,
    fileExists: bool)

  /**
   * The arguments of `print_atlas`. A `scale` of 0 and an empty `scales`
   * stand for None as well: Python treats all of them as false.
   * `kwargs` lists the extra keyword arguments in order.
   */
  datatype AtlasRequest = AtlasRequest(
    layoutName: string,
    featureFilter: string,
    scales: seq<int>,
    scale: int,
    kwargs: seq<(string, string)>)

  /** The PDF export settings handed to the exporter. */
  datatype ExportSettings = ExportSettings(predefinedMapScales: seq<int>)

  /** From this version on, the predefined scales go into the export settings. */
  const NewScalesApi: int := 30900

  // ---------------------------------------------------------------------
  // Layout resolution

  /** `ls[i]` is the first layout of `ls` called `name`. */
  predicate FirstNamedAt(ls: seq<Layout>, name: string, i: int) {
    0 <= i < |ls| && ls[i].name == name && forall j :: 0 <= j < i ==> ls[j].name != name
  }

  /** The first layout of `ls` called `name`. */
  function FirstNamed(ls: seq<Layout>, name: string): (r: Option<Layout>)
    ensures r.None? <==> forall j :: 0 <= j < |ls| ==> ls[j].name != name
    ensures r.Some? ==> exists i :: FirstNamedAt(ls, name, i) && ls[i] == r.value
  {
    if |ls| == 0 then None
    else if ls[0].name == name then Some(ls[0])
    else
      var r := FirstNamed(ls[1..], name);
      assert r.Some? ==> exists i :: FirstNamedAt(ls, name, i) && ls[i] == r.value by {
        if r.Some? {
          var i :| FirstNamedAt(ls[1..], name, i) && ls[1..][i] == r.value;
          assert ls[i + 1] == r.value;
          forall j | 0 <= j < i + 1 ensures ls[j].name != name {
            if j > 0 { assert ls[j] == ls[1..][j - 1]; }
          }
        }
      }
      r
  }

  /** `printLayouts()`: the print layouts of the project, in order. */
  function PrintLayouts(ls: seq<Layout>): (r: seq<Layout>)
    ensures forall l :: l in r ==> l in ls && l.layoutType == PrintLayout
    ensures forall l :: l in ls && l.layoutType == PrintLayout ==> l in r
  {
    if |ls| == 0 then []
    else if ls[0].layoutType == PrintLayout then [ls[0]] + PrintLayouts(ls[1..])
    else PrintLayouts(ls[1..])
  }

  /** `printLayouts()` keeps the project's order: a layout added last comes last, if it is a print layout. */
  lemma {:induction false} PrintLayoutsAppend(ls: seq<Layout>, l: Layout)
    ensures PrintLayouts(ls + [l]) == PrintLayouts(ls) + (if l.layoutType == PrintLayout then [l] else [])
    decreases |ls|
  {
    if |ls| > 0 {
      assert (ls + [l])[1..] == ls[1..] + [l];
      PrintLayoutsAppend(ls[1..], l);
    }
  }

  /**
   * The layout checks of `print_atlas`, in their order: `layoutByName` (the
   * first layout with that name), its type, the search among the print
   * layouts, and the atlas switch. The first failing check gives the error.
   */
  function CheckLayout(ls: seq<Layout>, name: string): (r: Result<Layout, PrintFailure>)
    ensures r == Failure(AtlasPrintException("Layout not found")) <==>
      forall j :: 0 <= j < |ls| ==> ls[j].name != name
    ensures r.Success? <==>
      FirstNamed(ls, name).Some? && FirstNamed(ls, name).value.layoutType == PrintLayout &&
      FirstNamed(ls, name).value.atlasEnabled
    ensures FirstNamed(ls, name).Some? && FirstNamed(ls, name).value.layoutType != PrintLayout ==>
      r == Failure(AtlasPrintException("The layout is not a print layout"))
    ensures (FirstNamed(ls, name).Some? && FirstNamed(ls, name).value.layoutType == PrintLayout &&
             !FirstNamed(ls, name).value.atlasEnabled) ==>
      r == Failure(AtlasPrintException("The layout is not enabled for an atlas"))
    ensures r.Success? ==> r.value == FirstNamed(ls, name).value && r.value in ls
  {
    match FirstNamed(ls, name)
    case None => Failure(AtlasPrintException("Layout not found"))
    case Some(master) =>
      if master.layoutType != PrintLayout then Failure(AtlasPrintException("The layout is not a print layout"))
      else
        FirstPrintLayoutIsMaster(ls, name);
        match FirstNamed(PrintLayouts(ls), name)
        case None => Failure(AtlasPrintException("The layout is not found"))
        case Some(layout) =>
          if !layout.atlasEnabled then Failure(AtlasPrintException("The layout is not enabled for an atlas"))
          else Success(layout)
  }

  /** When the first layout of a name is a print layout, it is also the first print layout of that name. */
  lemma {:induction false} FirstPrintLayoutIsMaster(ls: seq<Layout>, name: string)
    requires FirstNamed(ls, name).Some? && FirstNamed(ls, name).value.layoutType == PrintLayout
    ensures FirstNamed(PrintLayouts(ls), name) == FirstNamed(ls, name)
  {
    if ls[0].name != name {
      FirstPrintLayoutIsMaster(ls[1..], name);
    }
  }

  /**
   * The `for ... else` search of `print_atlas` can never fail: the layout
   * found by name is a print layout, so it is among the print layouts.
   */
  lemma LayoutNotFoundUnreachable(ls: seq<Layout>, name: string)
    ensures CheckLayout(ls, name) != Failure(AtlasPrintException("The layout is not found"))
  {
    if FirstNamed(ls, name).Some? && FirstNamed(ls, name).value.layoutType == PrintLayout {
      FirstPrintLayoutIsMaster(ls, name);
    }
  }

  /** A second layout of the same name is never looked at. */
  lemma LayoutCheckFirstWins(ls: seq<Layout>, name: string, other: Layout)
    requires FirstNamed(ls, name).Some?
    ensures CheckLayout(ls + [other], name) == CheckLayout(ls, name)
  {
    FirstNamedAppend(ls, name, other);
    var master := FirstNamed(ls, name).value;
    if master.layoutType == PrintLayout {
      FirstPrintLayoutIsMaster(ls, name);
      FirstPrintLayoutIsMaster(ls + [other], name);
    }
  }

  lemma {:induction false} FirstNamedAppend(ls: seq<Layout>, name: string, other: Layout)
    requires FirstNamed(ls, name).Some?
    ensures FirstNamed(ls + [other], name) == FirstNamed(ls, name)
  {
    if ls[0].name != name {
      assert (ls + [other])[1..] == ls[1..] + [other];
      FirstNamedAppend(ls[1..], name, other);
    }
  }

  /** The `for` loop over `printLayouts()` of `print_atlas`. */
  method FindPrintLayout(printLayouts: seq<Layout>, name: string) returns (r: Option<Layout>)
    ensures r == FirstNamed(printLayouts, name)
  {
    for i := 0 to |printLayouts|
      invariant FirstNamed(printLayouts, name) == FirstNamed(printLayouts[i..], name)
    {
      if printLayouts[i].name == name {
        return Some(printLayouts[i]);
      }
      assert printLayouts[i..][1..] == printLayouts[i + 1..];
    }
    return None;
  }

  /** `layoutByName` followed by the checks of `print_atlas`. */
  method ResolveLayout(ls: seq<Layout>, name: string) returns (r: Result<Layout, PrintFailure>)
    ensures r == CheckLayout(ls, name)
  {
    var master := FirstNamed(ls, name);
    if master.None? {
      return Failure(AtlasPrintException("Layout not found"));
    }
    if master.value.layoutType != PrintLayout {
      return Failure(AtlasPrintException("The layout is not a print layout"));
    }
    var layout := FindPrintLayout(PrintLayouts(ls), name);
    if layout.None? {
      return Failure(AtlasPrintException("The layout is not found"));
    }
    if !layout.value.atlasEnabled {
      return Failure(AtlasPrintException("The layout is not enabled for an atlas"));
    }
    return Success(layout.value);
  }

  // ---------------------------------------------------------------------
  // Label texts

  /**
   * The label texts after the keyword arguments: for each key in order, the
   * item whose id is the lower-cased key, if there is one, gets the value.
   */
  function LabelTexts(labels: map<string, string>, kwargs: seq<(string, string)>): (r: map<string, string>)
    ensures r.Keys == labels.Keys
    decreases |kwargs|
  {
    if |kwargs| == 0 then labels
    else
      var previous := LabelTexts(labels, kwargs[..|kwargs| - 1]);
      var id := Lower(kwargs[|kwargs| - 1].0);
      if id in previous then previous[id := kwargs[|kwargs| - 1].1] else previous
  }

  /** A label whose id is no lower-cased key keeps its text. */
  lemma {:induction false} LabelTextsUntouched(labels: map<string, string>, kwargs: seq<(string, string)>, id: string)
    requires id in labels
    requires forall k :: 0 <= k < |kwargs| ==> Lower(kwargs[k].0) != id
    ensures LabelTexts(labels, kwargs)[id] == labels[id]
    decreases |kwargs|
  {
    if |kwargs| > 0 {
      LabelTextsUntouched(labels, kwargs[..|kwargs| - 1], id);
    }
  }

  /** A label takes the value of the last key that lower-cases to its id. */
  lemma {:induction false} LabelTextsLastWins(labels: map<string, string>, kwargs: seq<(string, string)>, i: nat)
    requires i < |kwargs| && Lower(kwargs[i].0) in labels
    requires forall k :: i < k < |kwargs| ==> Lower(kwargs[k].0) != Lower(kwargs[i].0)
    ensures LabelTexts(labels, kwargs)[Lower(kwargs[i].0)] == kwargs[i].1
    decreases |kwargs|
  {
    if i < |kwargs| - 1 {
      LabelTextsLastWins(labels, kwargs[..|kwargs| - 1], i);
    }
  }

  // ---------------------------------------------------------------------
  // Scale selection

  /**
   * The predefined scales used when the request gives none and the map is
   * in Predefined mode. None when reading a scale list fails (a ValueError).
   * From QGIS 3.9 on, the project's scales are used when it enables them and
   * has some; before, `use_project` is set to "the project has no scales",
   * so the global scales are chosen either way.
   */
  function FallbackScales(project: Project, engine: Engine): Option<seq<int>> {
    var global := ScaleValues(Split(engine.globalScalesSetting.GetOr(DefaultScales), ","));
    if engine.qgisVersion >= NewScalesApi then
      if !project.useProjectScales || |project.mapScales| == 0 then global else Some(project.mapScales)
    else
      var listed := if project.useProjectScales then ScaleValues(project.scalesList) else Some([]);
      match listed
      case None => None
      case Some(mapScales) =>
        var useProject := |mapScales| == 0;
        if !useProject || |mapScales| == 0 then global else Some(mapScales)
  }

  /** Recent QGIS: the project's scales win exactly when it enables them and has some. */
  lemma FallbackNewApi(project: Project, engine: Engine)
    requires engine.qgisVersion >= NewScalesApi
    ensures project.useProjectScales && |project.mapScales| > 0 ==> FallbackScales(project, engine) == Some(project.mapScales)
    ensures !project.useProjectScales || |project.mapScales| == 0 ==>
      FallbackScales(project, engine) == ScaleValues(Split(engine.globalScalesSetting.GetOr(DefaultScales), ","))
  {
  }

  /** Older QGIS: whenever the project's list reads, the global scales are chosen. */
  lemma FallbackOldApiAlwaysGlobal(project: Project, engine: Engine)
    requires engine.qgisVersion < NewScalesApi
    requires !project.useProjectScales || ScaleValues(project.scalesList).Some?
    ensures FallbackScales(project, engine) == ScaleValues(Split(engine.globalScalesSetting.GetOr(DefaultScales), ","))
  {
  }

  /** The message of the AttributeError raised when the layout has no reference map. */
  function NoReferenceMap(attribute: string): string {
    "'NoneType' object has no attribute '" + attribute + "'"
  }

  /**
   * The start of the ValueError message raised when a scale does not read
   * as a number; Python follows it with `: '<text>'`, which is not carried.
   */
  const ScaleValueError: string := "could not convert string to float"

  // ---------------------------------------------------------------------
  // Output path and export

  /** `os.path.join(directory, file)`: an absolute `file` replaces the directory. */
  function PathJoin(directory: string, file: string): (r: string)
    ensures |r| >= |file| && r[|r| - |file|..] == file
    ensures !StartsWith(file, "/") ==> StartsWith(r, directory)
    ensures StartsWith(file, "/") ==> r == file
  {
    if StartsWith(file, "/") then file
    else if |directory| == 0 || directory[|directory| - 1] == '/' then directory + file
    else directory + "/" + file
  }

  /** `'{}_{}.pdf'.format(layout_name, uuid4())` in the temporary directory. */
  function ExportPath(engine: Engine, layoutName: string): (r: string)
    ensures |r| >= 4 && r[|r| - 4..] == ".pdf"
  {
    var file := layoutName + "_" + engine.uuid + ".pdf";
    var r := PathJoin(engine.tempDir, file);
    assert r[|r| - 4..] == r[|r| - |file|..][|file| - 4..];
    r
  }

  /** The export path ends in `<layout>_<uuid>.pdf`, under the temporary directory unless that name is absolute. */
  lemma ExportPathFile(engine: Engine, layoutName: string)
    ensures var r := ExportPath(engine, layoutName);
      var f := layoutName + "_" + engine.uuid + ".pdf";
      |r| >= |f| && r[|r| - |f|..] == f && (!StartsWith(f, "/") ==> StartsWith(r, engine.tempDir))
  {
  }

  /** What one run of `print_atlas` returns, leaves on the layout, and hands to the exporter. */
  datatype Outcome = Outcome(result: Result<string, PrintFailure>, state: LayoutState, settings: ExportSettings)

  /** The end of `print_atlas`: the path, unless the export failed and left no file behind. */
  function Export(engine: Engine, layoutName: string, state: LayoutState, settings: ExportSettings): (o: Outcome)
    ensures o.state == state && o.settings == settings
    ensures o.result.Failure? <==> !engine.exportSucceeded && !engine.fileExists
    ensures o.result.Failure? ==> o.result.error == OtherException("export not generated " + ExportPath(engine, layoutName))
    ensures o.result.Success? ==> o.result.value == ExportPath(engine, layoutName)
  {
    var path := ExportPath(engine, layoutName);
    if !engine.exportSucceeded && !engine.fileExists then
      Outcome(Failure(OtherException("export not generated " + path)), state, settings)
    else Outcome(Success(path), state, settings)
  }

  /** Where a run stands after one of its steps: stopped with an outcome, or going on. */
  datatype Step = Stop(outcome: Outcome) | Continue(state: LayoutState, settings: ExportSettings) {
    /** The layout's state after the step. */
    function StateAfter(): LayoutState {
      match this
      case Stop(o) => o.state
      case Continue(s, _) => s
    }
  }

  /**
   * The requested scale, then the requested scales: Fixed mode at `scale`,
   * Predefined mode with `scales` (in the export settings from QGIS 3.9 on,
   * in the report context before). Both need the reference map.
   */
  function ScaleStep(layout: Layout, s: LayoutState, engine: Engine, req: AtlasRequest): Step {
    var noSettings := ExportSettings([]);
    if req.scale != 0 && !layout.hasReferenceMap then
      Stop(Outcome(Failure(OtherException(NoReferenceMap("setAtlasScalingMode"))), s, noSettings))
    else
      var s1 := if req.scale != 0 then s.(scalingMode := Fixed, mapScale := req.scale) else s;
      if |req.scales| > 0 && !layout.hasReferenceMap then
        Stop(Outcome(Failure(OtherException(NoReferenceMap("setAtlasScalingMode"))), s1, noSettings))
      else if |req.scales| == 0 then Continue(s1, noSettings)
      else if engine.qgisVersion >= NewScalesApi then
        Continue(s1.(scalingMode := Predefined), ExportSettings(req.scales))
      else Continue(s1.(scalingMode := Predefined, reportScales := req.scales), noSettings)
  }

  /**
   * The label texts, then the optimised filter: a parser error, then an
   * evaluation error, stop the run; otherwise the atlas filters on it.
   */
  function FilterStep(layout: Layout, s: LayoutState, settings: ExportSettings, engine: Engine, req: AtlasRequest): Step {
    var s3 := s.(labels := LabelTexts(s.labels, req.kwargs));
    var filter := OptimizeExpression(layout.coverage, req.featureFilter);
    if engine.parserError(filter).Some? then
      Stop(Outcome(Failure(AtlasPrintException("Expression is invalid, parser error: " + engine.parserError(filter).value)), s3, settings))
    else if engine.evalError(filter).Some? then
      Stop(Outcome(Failure(AtlasPrintException("Expression is invalid, eval error: " + engine.evalError(filter).value)), s3, settings))
    else Continue(s3.(filterFeatures := true, filterExpression := filter), settings)
  }

  /**
   * Without requested scales, a map in Predefined mode gets the fallback
   * scales; then the export.
   */
  function FinishStep(layout: Layout, s: LayoutState, settings: ExportSettings, project: Project, engine: Engine,
                      layoutName: string, scalesGiven: bool): Outcome {
    if !scalesGiven && !layout.hasReferenceMap then
      Outcome(Failure(OtherException(NoReferenceMap("atlasScalingMode"))), s, settings)
    else if !scalesGiven && s.scalingMode == Predefined then
      match FallbackScales(project, engine)
      case None => Outcome(Failure(OtherException(ScaleValueError)), s, settings)
      case Some(mapScales) =>
        if engine.qgisVersion >= NewScalesApi then Export(engine, layoutName, s, ExportSettings(mapScales))
        else Export(engine, layoutName, s.(reportScales := mapScales), settings)
    else Export(engine, layoutName, s, settings)
  }

  /** Everything `print_atlas` does once the layout is resolved and its atlas enabled. */
  function Configure(layout: Layout, s: LayoutState, project: Project, engine: Engine, req: AtlasRequest): Outcome {
    match ScaleStep(layout, s, engine, req)
    case Stop(o) => o
    case Continue(s2, settings) =>
      match FilterStep(layout, s2, settings, engine, req)
      case Stop(o) => o
      case Continue(s4, settings') => FinishStep(layout, s4, settings', project, engine, req.layoutName, |req.scales| > 0)
  }

  /** The scale steps of `print_atlas` on the resolved layout. */
  method ApplyScales(layout: Layout, engine: Engine, req: AtlasRequest) returns (step: Step)
    modifies layout
    ensures step == ScaleStep(layout, old(layout.State()), engine, req)
    ensures layout.State() == step.StateAfter()
  {
    var settings := ExportSettings([]);
    if req.scale != 0 {
      if !layout.hasReferenceMap {
        return Stop(Outcome(Failure(OtherException(NoReferenceMap("setAtlasScalingMode"))), layout.State(), settings));
      }
      layout.scalingMode := Fixed;
      layout.mapScale := req.scale;
    }
    if |req.scales| > 0 {
      if !layout.hasReferenceMap {
        return Stop(Outcome(Failure(OtherException(NoReferenceMap("setAtlasScalingMode"))), layout.State(), settings));
      }
      layout.scalingMode := Predefined;
      if engine.qgisVersion >= NewScalesApi {
        settings := ExportSettings(req.scales);
      } else {
        layout.reportScales := req.scales;
      }
    }
    return Continue(layout.State(), settings);
  }

  /** The keyword-argument loop and the filter steps of `print_atlas`. */
  method ApplyFilter(layout: Layout, settings: ExportSettings, engine: Engine, req: AtlasRequest) returns (step: Step)
    modifies layout
    ensures step == FilterStep(layout, old(layout.State()), settings, engine, req)
    ensures layout.State() == step.StateAfter()
  {
    ghost var s := layout.State();
    for i := 0 to |req.kwargs|
      invariant layout.State() == s.(labels := LabelTexts(s.labels, req.kwargs[..i]))
    {
      assert req.kwargs[..i + 1][..i] == req.kwargs[..i];
      var (key, value) := req.kwargs[i];
      var id := Lower(key);
      if id in layout.labels {
        layout.labels := layout.labels[id := value];
      }
    }
    assert req.kwargs[..|req.kwargs|] == req.kwargs;

    var filter := OptimizeExpression(layout.coverage, req.featureFilter);
    var parserError := engine.parserError(filter);
    if parserError.Some? {
      return Stop(Outcome(Failure(AtlasPrintException("Expression is invalid, parser error: " + parserError.value)),
                          layout.State(), settings));
    }
    var evalError := engine.evalError(filter);
    if evalError.Some? {
      return Stop(Outcome(Failure(AtlasPrintException("Expression is invalid, eval error: " + evalError.value)),
                          layout.State(), settings));
    }
    layout.filterFeatures := true;
    layout.filterExpression := filter;
    return Continue(layout.State(), settings);
  }

  /** The choice between the project's and the global scales in `print_atlas`. */
  method ChooseFallbackScales(project: Project, engine: Engine) returns (r: Option<seq<int>>)
    ensures r == FallbackScales(project, engine)
  {
    var mapScales: seq<int>;
    var useProject: bool;
    if engine.qgisVersion >= NewScalesApi {
      useProject := project.useProjectScales;
      mapScales := project.mapScales;
    } else {
      var listed := ProjectScales(project.useProjectScales, project.scalesList);
      if listed.None? {
        return None;
      }
      mapScales := listed.value;
      useProject := |mapScales| == 0;
    }
    if !useProject || |mapScales| == 0 {
      r := GlobalScales(engine.globalScalesSetting);
    } else {
      r := Some(mapScales);
    }
  }

  /** The scale fallback and the export of `print_atlas`. */
  method Finish(layout: Layout, settings: ExportSettings, project: Project, engine: Engine, layoutName: string,
                scalesGiven: bool)
    returns (r: Result<string, PrintFailure>, settings': ExportSettings)
    modifies layout
    ensures var o := FinishStep(layout, old(layout.State()), settings, project, engine, layoutName, scalesGiven);
      r == o.result && settings' == o.settings && layout.State() == o.state
  {
    settings' := settings;
    var newApi := engine.qgisVersion >= NewScalesApi;
    if !scalesGiven {
      if !layout.hasReferenceMap {
        return Failure(OtherException(NoReferenceMap("atlasScalingMode"))), settings';
      }
      if layout.scalingMode == Predefined {
        var mapScales := ChooseFallbackScales(project, engine);
        if mapScales.None? {
          return Failure(OtherException(ScaleValueError)), settings';
        }
        if newApi {
          settings' := ExportSettings(mapScales.value);
        } else {
          layout.reportScales := mapScales.value;
        }
      }
    }
    var path := ExportPath(engine, layoutName);
    if !engine.exportSucceeded && !engine.fileExists {
      return Failure(OtherException("export not generated " + path)), settings';
    }
    return Success(path), settings';
  }

  /**
   * `print_atlas`. A failed layout check changes nothing; otherwise the
   * resolved layout ends in the state `Configure` describes (also when a
   * later step raises) and the other layouts are untouched.
   */
  method PrintAtlas(project: Project, engine: Engine, req: AtlasRequest)
    returns (r: Result<string, PrintFailure>, settings: ExportSettings)
    modifies project.layouts
    ensures CheckLayout(project.layouts, req.layoutName).Failure? ==>
      r == Failure(CheckLayout(project.layouts, req.layoutName).error) && unchanged(project.layouts)
    ensures CheckLayout(project.layouts, req.layoutName).Success? ==>
      var layout := CheckLayout(project.layouts, req.layoutName).value;
      var o := Configure(layout, old(layout.State()), project, engine, req);
      r == o.result && settings == o.settings && layout.State() == o.state &&
      forall l :: l in project.layouts && l != layout ==> unchanged(l)
  {
    settings := ExportSettings([]);
    var resolved := ResolveLayout(project.layouts, req.layoutName);
    if resolved.Failure? {
      return Failure(resolved.error), settings;
    }
    var layout := resolved.value;
    var step := ApplyScales(layout, engine, req);
    if step.Stop? {
      return step.outcome.result, step.outcome.settings;
    }
    step := ApplyFilter(layout, step.settings, engine, req);
    if step.Stop? {
      return step.outcome.result, step.outcome.settings;
    }
    r, settings := Finish(layout, step.settings, project, engine, req.layoutName, |req.scales| > 0);
  }

  // ---------------------------------------------------------------------
  // What a run promises

  /** A requested scale alone puts the map in Fixed mode at that scale. */
  lemma FixedScaleRequest(layout: Layout, s: LayoutState, project: Project, engine: Engine, req: AtlasRequest)
    requires req.scale != 0 && |req.scales| == 0 && layout.hasReferenceMap
    ensures var o := Configure(layout, s, project, engine, req);
      o.state.scalingMode == Fixed && o.state.mapScale == req.scale && o.state.reportScales == s.reportScales &&
      o.settings == ExportSettings([])
  {
  }

  /**
   * Requested scales put the map in Predefined mode (also after a fixed
   * scale) and go to the export settings, or to the report context before
   * QGIS 3.9; no fallback list replaces them.
   */
  lemma PredefinedScalesRequest(layout: Layout, s: LayoutState, project: Project, engine: Engine, req: AtlasRequest)
    requires |req.scales| > 0 && layout.hasReferenceMap
    ensures var o := Configure(layout, s, project, engine, req);
      o.state.scalingMode == Predefined &&
      (engine.qgisVersion >= NewScalesApi ==> o.settings == ExportSettings(req.scales) && o.state.reportScales == s.reportScales) &&
      (engine.qgisVersion < NewScalesApi ==> o.settings == ExportSettings([]) && o.state.reportScales == req.scales)
  {
  }

  /**
   * Without requested scales, a map already in Predefined mode gets the
   * fallback list once the filter is accepted.
   */
  lemma FallbackScalesUsed(layout: Layout, s: LayoutState, project: Project, engine: Engine, req: AtlasRequest)
    requires |req.scales| == 0 && layout.hasReferenceMap
    requires req.scale == 0 && s.scalingMode == Predefined
    requires var filter := OptimizeExpression(layout.coverage, req.featureFilter);
      engine.parserError(filter).None? && engine.evalError(filter).None?
    requires FallbackScales(project, engine).Some?
    ensures var o := Configure(layout, s, project, engine, req);
      var scales := FallbackScales(project, engine).value;
      if engine.qgisVersion >= NewScalesApi then o.settings == ExportSettings(scales)
      else o.state.reportScales == scales
  {
  }

  /** A parser error is reported before the filter is set; the scales and labels are already changed. */
  lemma ParserErrorStopsBeforeFilter(layout: Layout, s: LayoutState, project: Project, engine: Engine, req: AtlasRequest)
    requires layout.hasReferenceMap
    requires engine.parserError(OptimizeExpression(layout.coverage, req.featureFilter)).Some?
    ensures var o := Configure(layout, s, project, engine, req);
      var e := engine.parserError(OptimizeExpression(layout.coverage, req.featureFilter)).value;
      o.result == Failure(AtlasPrintException("Expression is invalid, parser error: " + e)) &&
      o.state.filterFeatures == s.filterFeatures && o.state.filterExpression == s.filterExpression &&
      o.state.labels == LabelTexts(s.labels, req.kwargs)
  {
  }

  /**
   * A run that gets past the filter checks raises only when the export did
   * not succeed and left no file; otherwise it returns the path in the
   * temporary directory, and the atlas filters on the optimised filter.
   */
  lemma ExportOutcome(layout: Layout, s: LayoutState, project: Project, engine: Engine, req: AtlasRequest)
    requires layout.hasReferenceMap
    requires var filter := OptimizeExpression(layout.coverage, req.featureFilter);
      engine.parserError(filter).None? && engine.evalError(filter).None?
    requires FallbackScales(project, engine).Some?
    ensures var o := Configure(layout, s, project, engine, req);
      o.state.filterFeatures && o.state.filterExpression == OptimizeExpression(layout.coverage, req.featureFilter) &&
      (o.result.Failure? <==> !engine.exportSucceeded && !engine.fileExists) &&
      (o.result.Success? ==> o.result.value == ExportPath(engine, req.layoutName))
  {
    var filter := OptimizeExpression(layout.coverage, req.featureFilter);
    var st := ScaleStep(layout, s, engine, req);
    assert st.Continue?;
    var ft := FilterStep(layout, st.state, st.settings, engine, req);
    assert ft.Continue? && ft.state.filterFeatures && ft.state.filterExpression == filter;
    assert Configure(layout, s, project, engine, req) ==
      FinishStep(layout, ft.state, ft.settings, project, engine, req.layoutName, |req.scales| > 0);
    FinishKeepsFilter(layout, ft.state, ft.settings, project, engine, req.layoutName, |req.scales| > 0);
  }

  /** The last step keeps the atlas filter and ends in the export check. */
  lemma FinishKeepsFilter(layout: Layout, s: LayoutState, settings: ExportSettings, project: Project, engine: Engine,
                          layoutName: string, scalesGiven: bool)
    requires layout.hasReferenceMap && FallbackScales(project, engine).Some?
    ensures var o := FinishStep(layout, s, settings, project, engine, layoutName, scalesGiven);
      o.state.filterFeatures == s.filterFeatures && o.state.filterExpression == s.filterExpression &&
      (o.result.Failure? <==> !engine.exportSucceeded && !engine.fileExists) &&
      (o.result.Success? ==> o.result.value == ExportPath(engine, layoutName))
  {
  }
}
