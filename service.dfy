/**
 * The ATLAS service of atlasprintServer/atlasprintService.py: dispatch on
 * REQUEST, the capabilities document, and GetPrint (the checks of
 * `Validation`, the call to `print_atlas`, and the PDF reply), with every
 * error turned into a JSON reply carrying its HTTP code.
 *
 * The service calls the `print_atlas` of atlasprintServer/core.py, which is
 * not part of this model: its outcome for a checked request is the input
 * `printAtlas`. The PDF file on disk is the input `pdf`.
 */
module Service {
  import opened Wrappers
  import opened Text
  import opened Http
  import opened Validation

  /** What `print_atlas` does with a request: a path, an AtlasPrintException, or another exception. */
  datatype PrintCall = Printed(path: string) | UserFailure(message: string) | OtherFailure(message: string)

  /** The output file: whether it exists, its bytes if it can be read, and whether it can be removed. */
  datatype PdfFile = PdfFile(present: bool, contents: Option<seq<bv8>>, removable: bool)

  /** AtlasPrintError: an HTTP code and a message. */
  datatype ServiceError = ServiceError(code: int, message: string)

  const UserErrorPrefix: string := "ATLAS - Error from the user while generating the PDF: "
  const InternalError: string := "Internal 'atlasprint' service error"

  /** What the service sends back. */
  datatype Reply = ErrorReply(error: ServiceError) | CapabilitiesReply | PdfReply(bytes: seq<bv8>)

  /** `get_plugin_metadata`: the name and version read from metadata.txt, when the file exists. */
  function MetadataOf(metadataFile: Option<(string, string)>): (m: map<string, string>)
    ensures metadataFile.None? ==> m == map[]
    ensures metadataFile.Some? ==> (m.Keys == {"name", "version"} &&
      m["name"] == metadataFile.value.0 && m["version"] == metadataFile.value.1)
  {
    match metadataFile
    case None => map[]
    case Some((name, version)) => map["name" := name, "version" := version]
  }

  /** `get_print`, as the reply it leads to. */
  function PrintReply(params: Params, parserError: string -> Option<string>, printAtlas: PrintRequest -> PrintCall,
                      pdf: PdfFile): Reply {
    match ValidatePrint(params, parserError)
    case Failure(message) => ErrorReply(ServiceError(400, UserErrorPrefix + message))
    case Success(request) =>
      match printAtlas(request)
      case UserFailure(message) => ErrorReply(ServiceError(400, UserErrorPrefix + message))
      case OtherFailure(_) => ErrorReply(ServiceError(500, InternalError))
      case Printed(_) =>
        if !pdf.present then ErrorReply(ServiceError(404, "ATLAS PDF not found"))
        else if pdf.contents.None? || !pdf.removable then ErrorReply(ServiceError(500, InternalError))
        else PdfReply(pdf.contents.value)
  }

  /** The REQUEST parameter, lower-cased, or the empty string when it is absent. */
  function RequestName(params: Params): string {
    Lower(if "REQUEST" in params then params["REQUEST"] else "")
  }

  /** `executeRequest`, as the reply it leads to. */
  function ServiceReply(params: Params, parserError: string -> Option<string>, printAtlas: PrintRequest -> PrintCall,
                        pdf: PdfFile): Reply {
    var request := RequestName(params);
    if request == "getcapabilities" then CapabilitiesReply
    else if request == "getprint" then PrintReply(params, parserError, printAtlas, pdf)
    else ErrorReply(ServiceError(400,
      "Invalid REQUEST parameter: must be one of GetCapabilities, GetPrint, found '" + request + "'"))
  }

  /**
   * The response after a reply is written into `s`. An error clears the
   * response first, so nothing written before survives; the capabilities
   * and the PDF are written over what is there.
   */
  function Respond(reply: Reply, metadata: map<string, string>, s: ResponseState): ResponseState {
    match reply
    case ErrorReply(e) =>
      ResponseState(e.code, map["Content-Type" := "application/json"], [JsonText(FailBody(e.message))])
    case CapabilitiesReply =>
      ResponseState(200, s.headers["Content-Type" := "application/json"], s.body + [JsonText(CapabilitiesBody(metadata))])
    case PdfReply(bytes) =>
      ResponseState(200, s.headers["Content-type" := "application/pdf"], s.body + [PdfBytes(bytes)])
  }

  /** `write_json_response`. */
  method WriteJsonResponse(data: JsonBody, response: ServerResponse, code: int)
    modifies response
    ensures response.State() == ResponseState(code, old(response.headers)["Content-Type" := "application/json"],
                                              old(response.body) + [JsonText(data)])
  {
    response.SetStatusCode(code);
    response.SetHeader("Content-Type", "application/json");
    response.Write(JsonText(data));
  }

  /** `AtlasPrintError.formatResponse`: clear, then write the fail document with the error's code. */
  method FormatResponse(error: ServiceError, response: ServerResponse)
    modifies response
    ensures response.State() == Respond(ErrorReply(error), map[], old(response.State()))
  {
    response.Clear();
    WriteJsonResponse(FailBody(error.message), response, error.code);
  }

  class AtlasPrintService {
    var metadata: map<string, string>

    constructor (metadataFile: Option<(string, string)>)
      ensures metadata == MetadataOf(metadataFile)
    {
      metadata := MetadataOf(metadataFile);
    }

    /** `get_capabilities`. */
    method GetCapabilities(response: ServerResponse)
      modifies response
      ensures response.State() == Respond(CapabilitiesReply, metadata, old(response.State()))
    {
      WriteJsonResponse(CapabilitiesBody(metadata), response, 200);
    }

    /**
     * `get_print`: an error comes back to the caller (to be formatted);
     * otherwise the PDF is written.
     */
    method GetPrint(params: Params, response: ServerResponse, parserError: string -> Option<string>,
                    printAtlas: PrintRequest -> PrintCall, pdf: PdfFile) returns (error: Option<ServiceError>)
      modifies response
      ensures PrintReply(params, parserError, printAtlas, pdf).ErrorReply? ==>
        error == Some(PrintReply(params, parserError, printAtlas, pdf).error)
      ensures PrintReply(params, parserError, printAtlas, pdf).PdfReply? ==>
        error.None? && response.State() == Respond(PrintReply(params, parserError, printAtlas, pdf), metadata, old(response.State()))
      ensures !PrintReply(params, parserError, printAtlas, pdf).CapabilitiesReply?
    {
      var checked := ValidatePrint(params, parserError);
      if checked.Failure? {
        return Some(ServiceError(400, UserErrorPrefix + checked.error));
      }
      var call := printAtlas(checked.value);
      if call.UserFailure? {
        return Some(ServiceError(400, UserErrorPrefix + call.message));
      }
      if call.OtherFailure? {
        return Some(ServiceError(500, InternalError));
      }
      if !pdf.present {
        return Some(ServiceError(404, "ATLAS PDF not found"));
      }
      response.SetHeader("Content-type", "application/pdf");
      response.SetStatusCode(200);
      if pdf.contents.None? {
        return Some(ServiceError(500, InternalError));
      }
      response.Write(PdfBytes(pdf.contents.value));
      if !pdf.removable {
        return Some(ServiceError(500, InternalError));
      }
      return None;
    }

    /** `executeRequest`: dispatch on REQUEST and format any error. */
    method ExecuteRequest(response: ServerResponse, parserError: string -> Option<string>,
                          printAtlas: PrintRequest -> PrintCall, pdf: PdfFile)
      modifies response
      ensures response.State() ==
        Respond(ServiceReply(response.parameters, parserError, printAtlas, pdf), metadata, old(response.State()))
    {
      var params := response.parameters;
      var request := Lower(if "REQUEST" in params then params["REQUEST"] else "");
      if request == "getcapabilities" {
        GetCapabilities(response);
      } else if request == "getprint" {
        var error := GetPrint(params, response, parserError, printAtlas, pdf);
        if error.Some? {
          FormatResponse(error.value, response);
        }
      } else {
        FormatResponse(ServiceError(400,
          "Invalid REQUEST parameter: must be one of GetCapabilities, GetPrint, found '" + request + "'"), response);
      }
    }
  }

  // ---------------------------------------------------------------------
  // What the service promises

  /** An error reply leaves exactly the JSON fail document, whatever was written before. */
  lemma ErrorReplyIsWholeResponse(e: ServiceError, metadata: map<string, string>, s: ResponseState)
    ensures var t := Respond(ErrorReply(e), metadata, s);
      t.statusCode == e.code && t.headers.Keys == {"Content-Type"} &&
      t.headers["Content-Type"] == "application/json" && t.body == [JsonText(FailBody(e.message))]
  {
  }

  /** REQUEST is matched without regard to case. */
  lemma RequestCaseInsensitive(params: Params, a: string, b: string, parserError: string -> Option<string>,
                               printAtlas: PrintRequest -> PrintCall, pdf: PdfFile)
    requires Lower(a) == Lower(b)
    ensures ServiceReply(params["REQUEST" := a], parserError, printAtlas, pdf) ==
            ServiceReply(params["REQUEST" := b], parserError, printAtlas, pdf)
  {
    var pa, pb := params["REQUEST" := a], params["REQUEST" := b];
    assert RequestName(pa) == Lower(a) && RequestName(pb) == Lower(b);
    forall k | k in {"TEMPLATE", "EXP_FILTER", "SCALE", "SCALES"}
      ensures (k in pa <==> k in pb) && (k in pa ==> pa[k] == pb[k])
    {
      assert k != "REQUEST";
    }
    PrintReplyReadsItsKeys(pa, pb, parserError, printAtlas, pdf);
  }

  /** GetPrint answers from TEMPLATE, EXP_FILTER, SCALE and SCALES alone. */
  lemma PrintReplyReadsItsKeys(p: Params, q: Params, parserError: string -> Option<string>,
                               printAtlas: PrintRequest -> PrintCall, pdf: PdfFile)
    requires forall k :: k in {"TEMPLATE", "EXP_FILTER", "SCALE", "SCALES"} ==>
      (k in p <==> k in q) && (k in p ==> p[k] == q[k])
    ensures PrintReply(p, parserError, printAtlas, pdf) == PrintReply(q, parserError, printAtlas, pdf)
  {
    ValidateReadsItsKeys(p, q, parserError);
  }

  /** A missing REQUEST is an unknown request, reported as the empty string. */
  lemma MissingRequest(params: Params, parserError: string -> Option<string>, printAtlas: PrintRequest -> PrintCall,
                       pdf: PdfFile)
    requires "REQUEST" !in params
    ensures ServiceReply(params, parserError, printAtlas, pdf) == ErrorReply(ServiceError(400,
      "Invalid REQUEST parameter: must be one of GetCapabilities, GetPrint, found ''"))
  {
    assert Lower("") == "";
  }

  /** REQUEST=Get (the unit test) gives 400 with the lower-cased value in the message. */
  lemma UnknownRequestExample(parserError: string -> Option<string>, printAtlas: PrintRequest -> PrintCall, pdf: PdfFile)
    ensures ServiceReply(map["SERVICE" := "ATLAS", "REQUEST" := "Get", "MAP" := "no_atlas.qgs"], parserError, printAtlas, pdf)
      == ErrorReply(ServiceError(400, "Invalid REQUEST parameter: must be one of GetCapabilities, GetPrint, found 'get'"))
  {
    assert Lower("Get") == "get";
  }

  /**
   * The HTTP code of a GetPrint: 400 for a refused parameter or a user
   * error, 500 for any other exception, 404 for a missing file, and 200
   * with the PDF otherwise (or 500 when the file cannot be read or removed).
   */
  lemma PrintReplyCodes(params: Params, parserError: string -> Option<string>, printAtlas: PrintRequest -> PrintCall,
                        pdf: PdfFile)
    ensures var reply := PrintReply(params, parserError, printAtlas, pdf);
      var checked := ValidatePrint(params, parserError);
      (checked.Failure? ==> reply == ErrorReply(ServiceError(400, UserErrorPrefix + checked.error))) &&
      (checked.Success? && printAtlas(checked.value).UserFailure? ==>
        reply == ErrorReply(ServiceError(400, UserErrorPrefix + printAtlas(checked.value).message))) &&
      (checked.Success? && printAtlas(checked.value).OtherFailure? ==>
        reply == ErrorReply(ServiceError(500, InternalError))) &&
      (checked.Success? && printAtlas(checked.value).Printed? && !pdf.present ==>
        reply == ErrorReply(ServiceError(404, "ATLAS PDF not found"))) &&
      (reply.PdfReply? <==> (checked.Success? && printAtlas(checked.value).Printed? && pdf.present &&
        pdf.contents.Some? && pdf.removable))
  {
  }

  /** The service only ever answers 200, 400, 404 or 500. */
  lemma StatusCodes(params: Params, parserError: string -> Option<string>, printAtlas: PrintRequest -> PrintCall,
                    pdf: PdfFile, metadata: map<string, string>, s: ResponseState)
    ensures Respond(ServiceReply(params, parserError, printAtlas, pdf), metadata, s).statusCode in {200, 400, 404, 500}
  {
  }

  /** A missing TEMPLATE (the unit test) gives 400 and the user-error message. */
  lemma NoTemplateExample(parserError: string -> Option<string>, printAtlas: PrintRequest -> PrintCall, pdf: PdfFile)
    ensures ServiceReply(map["SERVICE" := "ATLAS", "REQUEST" := "GetPrint", "MAP" := "atlas_simple.qgs"],
                         parserError, printAtlas, pdf)
      == ErrorReply(ServiceError(400, UserErrorPrefix + "TEMPLATE is required"))
  {
    var params := map["SERVICE" := "ATLAS", "REQUEST" := "GetPrint", "MAP" := "atlas_simple.qgs"];
    var l := Lower("GetPrint");
    assert l[0] == 'g' && l[1] == 'e' && l[2] == 't' && l[3] == 'p';
    assert l[4] == 'r' && l[5] == 'i' && l[6] == 'n' && l[7] == 't';
    assert l == "getprint";
    assert RequestName(params) == "getprint";
    assert !Truthy(params, "TEMPLATE");
    assert ValidatePrint(params, parserError) == Failure("TEMPLATE is required");
  }
}
