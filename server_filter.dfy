/**
 * The server filter of atlasprintServer/filters/atlasprintFilter.py: once
 * QGIS Server has answered a WMS request, `responseComplete` replaces the
 * answer when the request is GetCapabilitiesAtlas or GetPrintAtlas, and
 * leaves it alone otherwise.
 *
 * Like the service, the filter calls the `print_atlas` of
 * atlasprintServer/core.py, which is not part of this model; its outcome is
 * the input `printAtlas`. Reading the PDF file is the input `pdfContents`.
 */
module ServerFilter {
  import opened Wrappers
  import opened Text
  import opened Http
  import opened Validation
  import opened Service

  /** What `responseComplete` does to the response. */
  datatype FilterReply = Untouched | JsonReply(code: int, json: JsonBody) | PdfReply(bytes: seq<bv8>)

  const PdfReadError: string := "Error occurred while reading PDF file"
  const PrintErrorPrefix: string := "ATLAS - Error while generating the PDF: "

  /** SERVICE is present, not empty, and WMS in any case; REQUEST is one of the two atlas requests. */
  predicate IsAtlasRequest(params: Params) {
    Truthy(params, "SERVICE") && Lower(params["SERVICE"]) == "wms" &&
    "REQUEST" in params && Lower(params["REQUEST"]) in ["getprintatlas", "getcapabilitiesatlas"]
  }

  /** `responseComplete`, as the reply it leads to. */
  function FilterReplyOf(params: Params, metadata: map<string, string>, parserError: string -> Option<string>,
                         printAtlas: PrintRequest -> PrintCall, pdfContents: Option<seq<bv8>>): FilterReply {
    if !IsAtlasRequest(params) then Untouched
    else if Lower(params["REQUEST"]) == "getcapabilitiesatlas" then JsonReply(200, CapabilitiesBody(metadata))
    else
      match ValidatePrint(params, parserError)
      case Failure(message) => JsonReply(400, FailBody(UserErrorPrefix + message))
      case Success(request) =>
        match printAtlas(request)
        case UserFailure(message) => JsonReply(400, FailBody(UserErrorPrefix + message))
        case OtherFailure(message) => JsonReply(500, FailBody(PrintErrorPrefix + message))
        case Printed(_) =>
          match pdfContents
          case None => JsonReply(500, FailBody(PdfReadError))
          case Some(bytes) => FilterReply.PdfReply(bytes)
  }

  /** The handler after a reply: a JSON or PDF reply clears it first. */
  function ApplyFilterReply(reply: FilterReply, s: ResponseState): ResponseState {
    match reply
    case Untouched => s
    case JsonReply(code, json) => ResponseState(code, map["Content-type" := "text/json"], [JsonText(json)])
    case PdfReply(bytes) => ResponseState(200, map["Content-type" := "application/pdf"], [PdfBytes(bytes)])
  }

  class AtlasPrintFilter {
    var handler: ServerResponse?
    var metadata: map<string, string>

    constructor (metadataFile: Option<(string, string)>)
      ensures handler == null && metadata == MetadataOf(metadataFile)
    {
      handler := null;
      metadata := MetadataOf(metadataFile);
    }

    /** `set_json_response`: clear, then the JSON document with its status. */
    method SetJsonResponse(status: int, json: JsonBody)
      requires handler != null
      modifies handler
      ensures handler.State() == ApplyFilterReply(JsonReply(status, json), old(handler.State()))
    {
      handler.Clear();
      handler.SetHeader("Content-type", "text/json");
      handler.SetStatusCode(status);
      handler.Write(JsonText(json));
    }

    /** `responseComplete` on the request handler QGIS Server gives it. */
    method ResponseComplete(requestHandler: ServerResponse, parserError: string -> Option<string>,
                            printAtlas: PrintRequest -> PrintCall, pdfContents: Option<seq<bv8>>)
      modifies this, requestHandler
      ensures handler == requestHandler && metadata == old(metadata)
      ensures requestHandler.State() ==
        ApplyFilterReply(FilterReplyOf(requestHandler.parameters, metadata, parserError, printAtlas, pdfContents),
                         old(requestHandler.State()))
    {
      handler := requestHandler;
      var params := requestHandler.parameters;
      if !("SERVICE" in params) || params["SERVICE"] == "" {
        return;
      }
      if Lower(params["SERVICE"]) != "wms" {
        return;
      }
      if !("REQUEST" in params) || Lower(params["REQUEST"]) !in ["getprintatlas", "getcapabilitiesatlas"] {
        return;
      }
      if Lower(params["REQUEST"]) == "getcapabilitiesatlas" {
        SetJsonResponse(200, CapabilitiesBody(metadata));
        return;
      }
      var checked := ValidatePrint(params, parserError);
      if checked.Failure? {
        SetJsonResponse(400, FailBody(UserErrorPrefix + checked.error));
        return;
      }
      var call := printAtlas(checked.value);
      if call.UserFailure? {
        SetJsonResponse(400, FailBody(UserErrorPrefix + call.message));
        return;
      }
      if call.OtherFailure? {
        SetJsonResponse(500, FailBody(PrintErrorPrefix + call.message));
        return;
      }
      requestHandler.Clear();
      requestHandler.SetHeader("Content-type", "application/pdf");
      requestHandler.SetStatusCode(200);
      if pdfContents.None? {
        SetJsonResponse(500, FailBody(PdfReadError));
        return;
      }
      requestHandler.Write(PdfBytes(pdfContents.value));
    }
  }

  // ---------------------------------------------------------------------
  // What the filter promises

  /** The response is left as QGIS Server made it exactly when the request is not an atlas request. */
  lemma UntouchedIffNotAtlas(params: Params, metadata: map<string, string>, parserError: string -> Option<string>,
                             printAtlas: PrintRequest -> PrintCall, pdfContents: Option<seq<bv8>>, s: ResponseState)
    ensures FilterReplyOf(params, metadata, parserError, printAtlas, pdfContents) == Untouched <==> !IsAtlasRequest(params)
    ensures !IsAtlasRequest(params) ==>
      ApplyFilterReply(FilterReplyOf(params, metadata, parserError, printAtlas, pdfContents), s) == s
  {
  }

  /** GetCapabilitiesAtlas answers 200 with the success document and the metadata. */
  lemma CapabilitiesAtlas(params: Params, metadata: map<string, string>, parserError: string -> Option<string>,
                          printAtlas: PrintRequest -> PrintCall, pdfContents: Option<seq<bv8>>)
    requires IsAtlasRequest(params) && Lower(params["REQUEST"]) == "getcapabilitiesatlas"
    ensures FilterReplyOf(params, metadata, parserError, printAtlas, pdfContents) == JsonReply(200, CapabilitiesBody(metadata))
  {
  }

  /**
   * A GetPrintAtlas refused by the checks gets the same 400 message as the
   * service's GetPrint with the same parameters.
   */
  lemma SameChecksAsService(params: Params, metadata: map<string, string>, parserError: string -> Option<string>,
                            printAtlas: PrintRequest -> PrintCall, pdfContents: Option<seq<bv8>>, pdf: PdfFile)
    requires IsAtlasRequest(params) && Lower(params["REQUEST"]) == "getprintatlas"
    requires ValidatePrint(params, parserError).Failure?
    ensures var m := UserErrorPrefix + ValidatePrint(params, parserError).error;
      FilterReplyOf(params, metadata, parserError, printAtlas, pdfContents) == JsonReply(400, FailBody(m)) &&
      PrintReply(params, parserError, printAtlas, pdf) == ErrorReply(ServiceError(400, m))
  {
  }

  /**
   * Past the checks: 400 for a user error, 500 with the exception's text
   * for any other, 500 when the PDF cannot be read, and 200 with the PDF.
   */
  lemma PrintAtlasCodes(params: Params, metadata: map<string, string>, parserError: string -> Option<string>,
                        printAtlas: PrintRequest -> PrintCall, pdfContents: Option<seq<bv8>>)
    requires IsAtlasRequest(params) && Lower(params["REQUEST"]) == "getprintatlas"
    requires ValidatePrint(params, parserError).Success?
    ensures var call := printAtlas(ValidatePrint(params, parserError).value);
      var reply := FilterReplyOf(params, metadata, parserError, printAtlas, pdfContents);
      (call.UserFailure? ==> reply == JsonReply(400, FailBody(UserErrorPrefix + call.message))) &&
      (call.OtherFailure? ==> reply == JsonReply(500, FailBody(PrintErrorPrefix + call.message))) &&
      (call.Printed? && pdfContents.None? ==> reply == JsonReply(500, FailBody(PdfReadError))) &&
      (call.Printed? && pdfContents.Some? ==> reply == FilterReply.PdfReply(pdfContents.value))
  {
  }

  /** Every JSON reply is the whole body: nothing written before it survives. */
  lemma JsonReplyIsWholeBody(code: int, json: JsonBody, s: ResponseState)
    ensures var t := ApplyFilterReply(JsonReply(code, json), s);
      t.statusCode == code && t.body == [JsonText(json)] && t.headers == map["Content-type" := "text/json"]
  {
  }
}
