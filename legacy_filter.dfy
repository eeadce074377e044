/**
 * The older server filter, filters/atlasprintFilter.py. Its
 * `responseComplete` answers GetCapabilitiesAtlas and GetPrintAtlas with a
 * JSON document or the PDF, always with the header `Status: 200`; its own
 * `print_atlas` looks the layout up in the project's XML, loads it into a
 * new print layout, applies the `$id` rewrite and exports the first page.
 *
 * The project file is given as the sequence of its elements below the root,
 * in document order; loading a layout from its XML is the input `load`.
 */
module LegacyFilter {
  import opened Wrappers
  import opened Text
  import opened Expression
  import opened Http
  import opened AtlasCore
  import opened Service

  // ---------------------------------------------------------------------
  // Looking the layout up in the project file

  /** An element of the project file: its tag, its attributes and (left abstract) its children. */
  datatype XmlElement = XmlElement(tag: string, attributes: map<string, string>)

  /** The element is selected by the ElementTree path `.//tag[@attribute="value"]`. */
  predicate Matches(e: XmlElement, tag: string, attribute: string, value: string) {
    e.tag == tag && attribute in e.attributes && e.attributes[attribute] == value
  }

  /** The position of the last selected element. */
  function LastMatch(elems: seq<XmlElement>, tag: string, attribute: string, value: string): (r: Option<nat>)
    ensures r.None? <==> forall i :: 0 <= i < |elems| ==> !Matches(elems[i], tag, attribute, value)
    ensures r.Some? ==> (r.value < |elems| && Matches(elems[r.value], tag, attribute, value) &&
      forall j :: r.value < j < |elems| ==> !Matches(elems[j], tag, attribute, value))
  {
    if |elems| == 0 then None
    else if Matches(elems[|elems| - 1], tag, attribute, value) then Some(|elems| - 1)
    else LastMatch(elems[..|elems| - 1], tag, attribute, value)
  }

  function LastElement(elems: seq<XmlElement>, tag: string, attribute: string, value: string): Option<XmlElement> {
    match LastMatch(elems, tag, attribute, value)
    case None => None
    case Some(i) => Some(elems[i])
  }

  /**
   * The layout `print_atlas` loads: the last Composer whose title is the
   * name, or, only when there is none, the last Layout with that name.
   */
  function ComposerXml(xml: seq<XmlElement>, name: string): Option<XmlElement> {
    match LastElement(xml, "Composer", "title", name)
    case Some(e) => Some(e)
    case None => LastElement(xml, "Layout", "name", name)
  }

  /** The two loops of `print_atlas` that overwrite `composer_xml` with every match. */
  method FindComposerXml(xml: seq<XmlElement>, name: string) returns (r: Option<XmlElement>)
    ensures r == ComposerXml(xml, name)
  {
    r := None;
    for i := 0 to |xml|
      invariant r == LastElement(xml[..i], "Composer", "title", name)
    {
      assert xml[..i + 1][..i] == xml[..i];
      if Matches(xml[i], "Composer", "title", name) {
        r := Some(xml[i]);
      }
    }
    assert xml[..|xml|] == xml;
    if r.None? {
      for i := 0 to |xml|
        invariant r == LastElement(xml[..i], "Layout", "name", name)
      {
        assert xml[..i + 1][..i] == xml[..i];
        if Matches(xml[i], "Layout", "name", name) {
          r := Some(xml[i]);
        }
      }
    }
  }

  /** A Composer with that title wins over every Layout with that name, wherever they stand. */
  lemma ComposerBeforeLayout(xml: seq<XmlElement>, name: string, i: nat)
    requires i < |xml| && Matches(xml[i], "Composer", "title", name)
    ensures ComposerXml(xml, name).Some? && ComposerXml(xml, name).value.tag == "Composer"
  {
  }

  /** Element `i` is the match `print_atlas` keeps: no element of its kind after it matches. */
  predicate LastMatchAt(xml: seq<XmlElement>, name: string, i: nat) {
    i < |xml| && (Matches(xml[i], "Composer", "title", name) || Matches(xml[i], "Layout", "name", name)) &&
    forall j :: i < j < |xml| ==> !Matches(xml[j], xml[i].tag, if xml[i].tag == "Composer" then "title" else "name", name)
  }

  /** Among several matches the last one is loaded, and nothing matching is nothing loaded. */
  lemma ComposerLastWins(xml: seq<XmlElement>, name: string)
    ensures ComposerXml(xml, name).None? <==>
      forall i :: 0 <= i < |xml| ==> !Matches(xml[i], "Composer", "title", name) && !Matches(xml[i], "Layout", "name", name)
    ensures ComposerXml(xml, name).Some? ==>
      exists i: nat :: LastMatchAt(xml, name, i) && xml[i] == ComposerXml(xml, name).value
  {
    var c := LastMatch(xml, "Composer", "title", name);
    if c.Some? {
      assert LastMatchAt(xml, name, c.value) && xml[c.value] == ComposerXml(xml, name).value;
    } else {
      var l := LastMatch(xml, "Layout", "name", name);
      if l.Some? {
        assert LastMatchAt(xml, name, l.value) && xml[l.value] == ComposerXml(xml, name).value;
      }
    }
  }

  // ---------------------------------------------------------------------
  // The older filter's `print_atlas`

  /** `predefined_scales` of the filter. */
  const PredefinedScales: seq<int> := [500, 1000, 2500, 5000, 10000, 25000, 50000, 100000, 250000, 500000, 1000000,
                                       2500000, 5000000, 10000000, 25000000, 50000000, 100000000, 250000000]

  /** What QGIS makes of a layout's XML: the reference map, the coverage layer and the first page's name. */
  datatype Template = Template(hasReferenceMap: bool, coverage: CoverageLayer, firstPageName: string)

  /** The layout's state once `print_atlas` has configured its atlas. */
  function XmlLayoutState(t: Template, featureFilter: string): LayoutState {
    LayoutState(Predefined, 0, PredefinedScales, map[], true, FidFilter(t.coverage, featureFilter))
  }

  /**
   * `print_atlas`: None without a filter or a layout, an exception without a
   * reference map, and a path only when the export succeeded AND the file
   * exists.
   */
  function XmlPrintResult(xml: seq<XmlElement>, composerName: string, featureFilter: string,
                          load: XmlElement -> Template, engine: Engine): Result<Option<string>, PrintFailure> {
    if featureFilter == "" then Success(None)
    else
      match ComposerXml(xml, composerName)
      case None => Success(None)
      case Some(e) =>
        var t := load(e);
        if !t.hasReferenceMap then Failure(OtherException(NoReferenceMap("setAtlasDriven")))
        else if !engine.exportSucceeded || !engine.fileExists then Success(None)
        else Success(Some(ExportPath(engine, t.firstPageName)))
  }

  /**
   * `print_atlas` on a new print layout: the result is `XmlPrintResult`,
   * and the layout it loads is configured as `XmlLayoutState` says.
   */
  method XmlPrintAtlas(xml: seq<XmlElement>, composerName: string, featureFilter: string,
                       load: XmlElement -> Template, engine: Engine) returns (r: Result<Option<string>, PrintFailure>, layout: Layout?)
    ensures r == XmlPrintResult(xml, composerName, featureFilter, load, engine)
    ensures layout != null <==> featureFilter != "" && ComposerXml(xml, composerName).Some?
    ensures layout != null ==> fresh(layout) && layout.atlasEnabled
    ensures layout != null && layout.hasReferenceMap ==>
      layout.State() == XmlLayoutState(load(ComposerXml(xml, composerName).value), featureFilter)
  {
    layout := null;
    if featureFilter == "" {
      return Success(None), layout;
    }
    var element := FindComposerXml(xml, composerName);
    if element.None? {
      return Success(None), layout;
    }
    var t := load(element.value);
    layout := new Layout(composerName, PrintLayout, true, t.hasReferenceMap, t.coverage, map[]);
    if !layout.hasReferenceMap {
      return Failure(OtherException(NoReferenceMap("setAtlasDriven"))), layout;
    }
    layout.scalingMode := Predefined;
    layout.reportScales := PredefinedScales;
    layout.filterFeatures := true;
    layout.filterExpression := FidFilter(layout.coverage, featureFilter);
    if !engine.exportSucceeded {
      return Success(None), layout;
    }
    if !engine.fileExists {
      return Success(None), layout;
    }
    return Success(Some(ExportPath(engine, t.firstPageName))), layout;
  }

  /** Without a filter nothing is looked up and nothing is printed. */
  lemma EmptyFilterPrintsNothing(xml: seq<XmlElement>, composerName: string, load: XmlElement -> Template, engine: Engine)
    ensures XmlPrintResult(xml, composerName, "", load, engine) == Success(None)
  {
  }

  /**
   * The export check is stricter than the one of the newer cores: a path
   * here is a path there, but an export reported as failed whose file exists
   * is a path there and nothing here.
   */
  lemma ExportCheckStricter(xml: seq<XmlElement>, composerName: string, featureFilter: string,
                            load: XmlElement -> Template, engine: Engine, s: LayoutState, settings: ExportSettings)
    requires featureFilter != "" && ComposerXml(xml, composerName).Some?
    requires load(ComposerXml(xml, composerName).value).hasReferenceMap
    ensures var r := XmlPrintResult(xml, composerName, featureFilter, load, engine);
      var name := load(ComposerXml(xml, composerName).value).firstPageName;
      (r.Success? && r.value.Some? <==> engine.exportSucceeded && engine.fileExists) &&
      (r.Success? && r.value.Some? ==> Export(engine, name, s, settings).result == Success(r.value.value)) &&
      (!engine.exportSucceeded && engine.fileExists ==>
        r == Success(None) && Export(engine, name, s, settings).result.Success?)
  {
  }

  /** The rewrite keeps only the first number: `$id IN (1,2)` on a layer keyed by `gid` becomes `"gid" IN (1)`. */
  lemma XmlPrintFilterExample(xml: seq<XmlElement>, composerName: string, load: XmlElement -> Template)
    requires ComposerXml(xml, composerName).Some?
    requires load(ComposerXml(xml, composerName).value).coverage == GidLayer()
    ensures XmlLayoutState(load(ComposerXml(xml, composerName).value), "$id IN (1,2)").filterExpression == "\"gid\" IN (1)"
  {
    FidFilterListExample();
  }

  // ---------------------------------------------------------------------
  // `responseComplete`

  // The two messages are written in two pieces so that the verifier sees their first word.
  const MissingParameters: string := "Missing " + "parameters: TEMPLATE, FORMAT, DPI, MAP, EXP_FILTER are required "
  const ParseErrorPrefix: string := "An " + "error occured while parsing the given expression: "
  const NoPdfError: string := "ATLAS - Error while generating the PDF"
  const ReadError: string := "Error occured while reading PDF file"

  /** What `responseComplete` does: nothing, raise a KeyError, or answer. */
  datatype LegacyReply =
    | Untouched
    | MissingService                          // `params['SERVICE']` raises KeyError
    | JsonStatus(status: string, json: JsonBody)
    | PdfStatus(bytes: seq<bv8>)

  /** The keys GetPrintAtlas needs, present even when empty. */
  predicate HasPrintKeys(params: map<string, string>) {
    "TEMPLATE" in params && "FORMAT" in params && "DPI" in params && "MAP" in params && "EXP_FILTER" in params
  }

  /** Routing: SERVICE is WMS in any case and REQUEST one of the two atlas requests. */
  predicate IsLegacyAtlasRequest(params: map<string, string>) {
    "SERVICE" in params && Lower(params["SERVICE"]) == "wms" &&
    "REQUEST" in params && Lower(params["REQUEST"]) in ["getprintatlas", "getcapabilitiesatlas"]
  }

  /** The request gets past the key check and sets the filter's fields. */
  predicate ReachesPrint(params: map<string, string>) {
    IsLegacyAtlasRequest(params) && Lower(params["REQUEST"]) == "getprintatlas" && HasPrintKeys(params)
  }

  /** The reply to a GetPrintAtlas that has all its keys. */
  function PrintAnswer(params: map<string, string>, parserError: string -> Option<string>,
                       xml: seq<XmlElement>, load: XmlElement -> Template, engine: Engine,
                       pdfContents: Option<seq<bv8>>): LegacyReply
    requires HasPrintKeys(params)
  {
    if parserError(params["EXP_FILTER"]).Some? then
      JsonStatus("200", FailBody(ParseErrorPrefix + parserError(params["EXP_FILTER"]).value))
    else
      var printed := XmlPrintResult(xml, params["TEMPLATE"], params["EXP_FILTER"], load, engine);
      if printed.Failure? || printed.value.None? then JsonStatus("200", FailBody(NoPdfError))
      else
        match pdfContents
        case None => JsonStatus("200", FailBody(ReadError))
        case Some(bytes) => PdfStatus(bytes)
  }

  /** `responseComplete`, as the reply it leads to. */
  function LegacyReplyOf(params: map<string, string>, metadata: map<string, string>, parserError: string -> Option<string>,
                         xml: seq<XmlElement>, load: XmlElement -> Template, engine: Engine,
                         pdfContents: Option<seq<bv8>>): LegacyReply {
    if "SERVICE" !in params then MissingService
    else if !IsLegacyAtlasRequest(params) then Untouched
    else if Lower(params["REQUEST"]) == "getcapabilitiesatlas" then JsonStatus("200", CapabilitiesBody(metadata))
    else if !HasPrintKeys(params) then JsonStatus("200", FailBody(MissingParameters))
    else PrintAnswer(params, parserError, xml, load, engine, pdfContents)
  }

  /** The handler after a reply; the status code itself is never set. */
  function ApplyLegacyReply(reply: LegacyReply, s: ResponseState): ResponseState {
    match reply
    case Untouched => s
    case MissingService => s
    case JsonStatus(status, json) =>
      ResponseState(s.statusCode, map["Content-type" := "text/json", "Status" := status], [JsonText(json)])
    case PdfStatus(bytes) =>
      ResponseState(s.statusCode, map["Content-type" := "application/pdf", "Status" := "200"], [PdfBytes(bytes)])
  }

  class LegacyAtlasPrintFilter {
    var handler: ServerResponse?
    var projectPath: Option<string>
    var composerName: Option<string>
    var featureFilter: Option<string>
    var metadata: map<string, string>

    constructor (metadataFile: Option<(string, string)>)
      ensures handler == null && projectPath.None? && composerName.None? && featureFilter.None?
      ensures metadata == MetadataOf(metadataFile)
    {
      handler := null;
      projectPath := None;
      composerName := None;
      featureFilter := None;
      metadata := MetadataOf(metadataFile);
    }

    /** `setJsonResponse`: clear, then the JSON document with a `Status` header. */
    method SetJsonResponse(status: string, json: JsonBody)
      requires handler != null
      modifies handler
      ensures handler.State() == ApplyLegacyReply(JsonStatus(status, json), old(handler.State()))
    {
      handler.Clear();
      handler.SetHeader("Content-type", "text/json");
      handler.SetHeader("Status", status);
      handler.Write(JsonText(json));
    }

    /**
     * `responseComplete` on the request handler and the project file
     * `configFilePath`; `raised` is the KeyError of a request without SERVICE.
     */
    method ResponseComplete(requestHandler: ServerResponse, configFilePath: string, parserError: string -> Option<string>,
                            xml: seq<XmlElement>, load: XmlElement -> Template, engine: Engine,
                            pdfContents: Option<seq<bv8>>) returns (raised: bool)
      modifies this, requestHandler
      ensures handler == requestHandler && metadata == old(metadata)
      ensures var reply := LegacyReplyOf(requestHandler.parameters, metadata, parserError, xml, load, engine, pdfContents);
        (raised <==> reply == MissingService) &&
        requestHandler.State() == ApplyLegacyReply(reply, old(requestHandler.State()))
      ensures var params := requestHandler.parameters;
        if ReachesPrint(params) then
          projectPath == Some(configFilePath) && composerName == Some(params["TEMPLATE"]) &&
          featureFilter == Some(params["EXP_FILTER"])
        else
          projectPath == old(projectPath) && composerName == old(composerName) && featureFilter == old(featureFilter)
    {
      handler := requestHandler;
      var params := requestHandler.parameters;
      if "SERVICE" !in params {
        return true;
      }
      if Lower(params["SERVICE"]) != "wms" {
        return false;
      }
      if "REQUEST" !in params || Lower(params["REQUEST"]) !in ["getprintatlas", "getcapabilitiesatlas"] {
        return false;
      }
      if Lower(params["REQUEST"]) == "getcapabilitiesatlas" {
        SetJsonResponse("200", CapabilitiesBody(metadata));
        return false;
      }
      if !HasPrintKeys(params) {
        SetJsonResponse("200", FailBody(MissingParameters));
        return false;
      }
      projectPath := Some(configFilePath);
      composerName := Some(params["TEMPLATE"]);
      featureFilter := Some(params["EXP_FILTER"]);
      AnswerPrint(params, parserError, xml, load, engine, pdfContents);
      return false;
    }

    /** The part of `responseComplete` after the fields are set: parse check, `print_atlas`, then the PDF. */
    method AnswerPrint(params: map<string, string>, parserError: string -> Option<string>,
                       xml: seq<XmlElement>, load: XmlElement -> Template, engine: Engine,
                       pdfContents: Option<seq<bv8>>)
      requires handler != null && HasPrintKeys(params)
      modifies handler
      ensures handler.State() ==
        ApplyLegacyReply(PrintAnswer(params, parserError, xml, load, engine, pdfContents), old(handler.State()))
    {
      var parsed := parserError(params["EXP_FILTER"]);
      if parsed.Some? {
        SetJsonResponse("200", FailBody(ParseErrorPrefix + parsed.value));
        return;
      }
      var pdf, _ := XmlPrintAtlas(xml, params["TEMPLATE"], params["EXP_FILTER"], load, engine);
      if pdf.Failure? || pdf.value.None? {
        SetJsonResponse("200", FailBody(NoPdfError));
        return;
      }
      handler.Clear();
      handler.SetHeader("Content-type", "application/pdf");
      handler.SetHeader("Status", "200");
      if pdfContents.None? {
        SetJsonResponse("200", FailBody(ReadError));
        return;
      }
      handler.Write(PdfBytes(pdfContents.value));
    }
  }

  // ---------------------------------------------------------------------
  // What the older filter promises

  /**
   * Every answer carries `Status: 200`, failures included; only the JSON
   * document says `fail`.
   */
  lemma AlwaysStatus200(params: map<string, string>, metadata: map<string, string>, parserError: string -> Option<string>,
                        xml: seq<XmlElement>, load: XmlElement -> Template, engine: Engine,
                        pdfContents: Option<seq<bv8>>, s: ResponseState)
    ensures var reply := LegacyReplyOf(params, metadata, parserError, xml, load, engine, pdfContents);
      (reply.JsonStatus? || reply.PdfStatus?) ==> ApplyLegacyReply(reply, s).headers["Status"] == "200"
    ensures var reply := LegacyReplyOf(params, metadata, parserError, xml, load, engine, pdfContents);
      ApplyLegacyReply(reply, s).statusCode == s.statusCode
  {
  }

  /** The response changes exactly for an atlas request; a request without SERVICE raises. */
  lemma LegacyRouting(params: map<string, string>, metadata: map<string, string>, parserError: string -> Option<string>,
                      xml: seq<XmlElement>, load: XmlElement -> Template, engine: Engine, pdfContents: Option<seq<bv8>>)
    ensures var reply := LegacyReplyOf(params, metadata, parserError, xml, load, engine, pdfContents);
      (reply == MissingService <==> "SERVICE" !in params) &&
      (reply == Untouched <==> "SERVICE" in params && !IsLegacyAtlasRequest(params)) &&
      (IsLegacyAtlasRequest(params) && Lower(params["REQUEST"]) == "getcapabilitiesatlas" ==>
        reply == JsonStatus("200", CapabilitiesBody(metadata)))
  {
  }

  /**
   * The key check tests presence, not emptiness: the missing-parameters
   * answer comes exactly when one of the five keys is absent.
   */
  lemma MissingKeysIsPresenceTest(params: map<string, string>, metadata: map<string, string>,
                                  parserError: string -> Option<string>, xml: seq<XmlElement>,
                                  load: XmlElement -> Template, engine: Engine, pdfContents: Option<seq<bv8>>)
    requires IsLegacyAtlasRequest(params) && Lower(params["REQUEST"]) == "getprintatlas"
    ensures (LegacyReplyOf(params, metadata, parserError, xml, load, engine, pdfContents) ==
      JsonStatus("200", FailBody(MissingParameters))) <==> !HasPrintKeys(params)
  {
    if HasPrintKeys(params) && parserError(params["EXP_FILTER"]).Some? {
      MessagesDiffer(parserError(params["EXP_FILTER"]).value);
    }
  }

  /** The missing-parameters message is none of the later ones. */
  lemma MessagesDiffer(parserText: string)
    ensures MissingParameters != ParseErrorPrefix + parserText
  {
    assert MissingParameters[0] == 'M';
    assert (ParseErrorPrefix + parserText)[0] == 'A';
  }

  /**
   * Past the key check: a parser error is reported with its text, an empty
   * filter, a missing layout or an exception all end in the same
   * "Error while generating" document, and a PDF is sent only for a path.
   */
  lemma LegacyPrintReplies(params: map<string, string>, metadata: map<string, string>,
                           parserError: string -> Option<string>, xml: seq<XmlElement>,
                           load: XmlElement -> Template, engine: Engine, pdfContents: Option<seq<bv8>>)
    requires ReachesPrint(params)
    ensures var reply := LegacyReplyOf(params, metadata, parserError, xml, load, engine, pdfContents);
      var printed := XmlPrintResult(xml, params["TEMPLATE"], params["EXP_FILTER"], load, engine);
      (parserError(params["EXP_FILTER"]).Some? ==>
        reply == JsonStatus("200", FailBody(ParseErrorPrefix + parserError(params["EXP_FILTER"]).value))) &&
      (parserError(params["EXP_FILTER"]).None? && (printed.Failure? || printed.value.None?) ==>
        reply == JsonStatus("200", FailBody(NoPdfError))) &&
      (reply.PdfStatus? <==> (parserError(params["EXP_FILTER"]).None? && printed.Success? &&
        printed.value.Some? && pdfContents.Some?))
  {
  }
}
