/**
 * `print_atlas` of filters/core.py, the older server core. It shares the
 * layout checks, the scale readers, the scale fallback and the export
 * check with atlasprint/core.py, but takes one scale as text, rewrites a
 * `$id` filter into `"<pk>" IN (<fid>)`, sets the atlas filter without
 * turning filtering on, and has no expression checks, requested scale list
 * or label texts.
 */
module LegacyCore {
  import opened Wrappers
  import opened Text
  import opened Expression
  import opened AtlasCore

  /** The arguments of the older `print_atlas`; an empty `scale` stands for None. */
  datatype LegacyRequest = LegacyRequest(layoutName: string, featureFilter: string, scale: string)

  /** The message of the ValueError raised by `int()` on a scale that is not a number. */
  function IntValueError(text: string): string {
    "invalid literal for int() with base 10: '" + text + "'"
  }

  /**
   * The requested scale: Fixed mode is set before `int(scale)` is read, so
   * a scale that is not a number leaves the map in Fixed mode at its old
   * scale and raises.
   */
  function LegacyScaleStep(layout: Layout, s: LayoutState, req: LegacyRequest): Step {
    var noSettings := ExportSettings([]);
    if req.scale == "" then Continue(s, noSettings)
    else if !layout.hasReferenceMap then
      Stop(Outcome(Failure(OtherException(NoReferenceMap("setAtlasScalingMode"))), s, noSettings))
    else
      match ParseInt(req.scale)
      case None => Stop(Outcome(Failure(OtherException(IntValueError(req.scale))), s.(scalingMode := Fixed), noSettings))
      case Some(v) => Continue(s.(scalingMode := Fixed, mapScale := v), noSettings)
  }

  /** Everything the older `print_atlas` does once the layout is resolved and its atlas enabled. */
  function LegacyConfigure(layout: Layout, s: LayoutState, project: Project, engine: Engine, req: LegacyRequest): Outcome {
    match LegacyScaleStep(layout, s, req)
    case Stop(o) => o
    case Continue(s1, settings) =>
      var s2 := s1.(filterExpression := FidFilter(layout.coverage, req.featureFilter));
      FinishStep(layout, s2, settings, project, engine, req.layoutName, false)
  }

  /** The scale step of the older `print_atlas` on the resolved layout. */
  method ApplyLegacyScale(layout: Layout, req: LegacyRequest) returns (step: Step)
    modifies layout
    ensures step == LegacyScaleStep(layout, old(layout.State()), req)
    ensures layout.State() == step.StateAfter()
  {
    var settings := ExportSettings([]);
    if req.scale != "" {
      if !layout.hasReferenceMap {
        return Stop(Outcome(Failure(OtherException(NoReferenceMap("setAtlasScalingMode"))), layout.State(), settings));
      }
      layout.scalingMode := Fixed;
      var scale := ParseInt(req.scale);
      if scale.None? {
        return Stop(Outcome(Failure(OtherException(IntValueError(req.scale))), layout.State(), settings));
      }
      layout.mapScale := scale.value;
    }
    return Continue(layout.State(), settings);
  }

  /**
   * The older `print_atlas`: a failed layout check changes nothing;
   * otherwise the resolved layout ends in the state `LegacyConfigure`
   * describes and the other layouts are untouched.
   */
  method LegacyPrintAtlas(project: Project, engine: Engine, req: LegacyRequest)
    returns (r: Result<string, PrintFailure>, settings: ExportSettings)
    modifies project.layouts
    ensures CheckLayout(project.layouts, req.layoutName).Failure? ==>
      r == Failure(CheckLayout(project.layouts, req.layoutName).error) && unchanged(project.layouts)
    ensures CheckLayout(project.layouts, req.layoutName).Success? ==>
      var layout := CheckLayout(project.layouts, req.layoutName).value;
      var o := LegacyConfigure(layout, old(layout.State()), project, engine, req);
      r == o.result && settings == o.settings && layout.State() == o.state &&
      forall l :: l in project.layouts && l != layout ==> unchanged(l)
  {
    settings := ExportSettings([]);
    var resolved := ResolveLayout(project.layouts, req.layoutName);
    if resolved.Failure? {
      return Failure(resolved.error), settings;
    }
    var layout := resolved.value;
    var step := ApplyLegacyScale(layout, req);
    if step.Stop? {
      return step.outcome.result, step.outcome.settings;
    }
    layout.filterExpression := FidFilter(layout.coverage, req.featureFilter);
    r, settings := Finish(layout, step.settings, project, engine, req.layoutName, false);
  }

  // ---------------------------------------------------------------------
  // What a run promises

  /** A scale that reads as an integer puts the map in Fixed mode at that scale. */
  lemma LegacyFixedScale(layout: Layout, s: LayoutState, project: Project, engine: Engine, req: LegacyRequest)
    requires layout.hasReferenceMap && ParseInt(req.scale).Some?
    ensures var o := LegacyConfigure(layout, s, project, engine, req);
      o.state.scalingMode == Fixed && o.state.mapScale == ParseInt(req.scale).value
  {
    assert req.scale != "";
  }

  /** A scale that is not an integer raises after Fixed mode is set, before the filter is touched. */
  lemma LegacyBadScale(layout: Layout, s: LayoutState, project: Project, engine: Engine, req: LegacyRequest)
    requires layout.hasReferenceMap && req.scale != "" && ParseInt(req.scale).None?
    ensures var o := LegacyConfigure(layout, s, project, engine, req);
      o.result == Failure(OtherException(IntValueError(req.scale))) &&
      o.state == s.(scalingMode := Fixed)
  {
  }

  /**
   * Past the scale, the atlas filter is the `$id` rewrite of the request's
   * filter (the caller's filter when no rewrite applies), filtering is not
   * switched on, and the run raises only when the export failed and left no
   * file.
   */
  lemma LegacyFilterAndExport(layout: Layout, s: LayoutState, project: Project, engine: Engine, req: LegacyRequest)
    requires layout.hasReferenceMap && (req.scale == "" || ParseInt(req.scale).Some?)
    requires FallbackScales(project, engine).Some?
    ensures var o := LegacyConfigure(layout, s, project, engine, req);
      o.state.filterExpression == FidFilter(layout.coverage, req.featureFilter) &&
      o.state.filterFeatures == s.filterFeatures &&
      (o.result.Failure? <==> !engine.exportSucceeded && !engine.fileExists) &&
      (o.result.Success? ==> o.result.value == ExportPath(engine, req.layoutName))
  {
    var st := LegacyScaleStep(layout, s, req);
    assert st.Continue? && st.state.filterFeatures == s.filterFeatures;
    var s2 := st.state.(filterExpression := FidFilter(layout.coverage, req.featureFilter));
    assert LegacyConfigure(layout, s, project, engine, req) ==
      FinishStep(layout, s2, st.settings, project, engine, req.layoutName, false);
    FinishKeepsFilter(layout, s2, st.settings, project, engine, req.layoutName, false);
  }

  /**
   * The fallback scales apply whenever the map is in Predefined mode, as
   * there is no requested scale list: before QGIS 3.9 they are the global
   * scales.
   */
  lemma LegacyFallbackOldApi(layout: Layout, s: LayoutState, project: Project, engine: Engine, req: LegacyRequest)
    requires layout.hasReferenceMap && req.scale == "" && s.scalingMode == Predefined
    requires engine.qgisVersion < NewScalesApi
    requires !project.useProjectScales || Scales.ScaleValues(project.scalesList).Some?
    requires Scales.ScaleValues(Split(engine.globalScalesSetting.GetOr(Scales.DefaultScales), ",")).Some?
    ensures var o := LegacyConfigure(layout, s, project, engine, req);
      o.state.reportScales == Scales.ScaleValues(Split(engine.globalScalesSetting.GetOr(Scales.DefaultScales), ",")).value
  {
    FallbackOldApiAlwaysGlobal(project, engine);
  }
}
