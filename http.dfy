/**
 * The server response the handlers write into: QGIS Server's
 * QgsServerResponse for the service, and the request handler of a server
 * filter, which offers the same operations under other names
 * (`setResponseHeader`, `appendBody`).
 *
 * Clearing empties the headers and the body and keeps the status code.
 * JSON documents stay values of `JsonBody`; their text is not modelled.
 */
module Http {

  /** The two JSON documents the plugin writes. */
  datatype JsonBody =
    | FailBody(message: string)                        // {"status": "fail", "message": ...}
    | CapabilitiesBody(metadata: map<string, string>)  // {"status": "success", "metadata": ...}

  /** One write into the body: a JSON document or the bytes of a PDF file. */
  datatype Chunk = JsonText(json: JsonBody) | PdfBytes(bytes: seq<bv8>)

  datatype ResponseState = ResponseState(statusCode: int, headers: map<string, string>, body: seq<Chunk>)

  class ServerResponse {
    /** The request's parameters (`parameters()`, `parameterMap()`). */
    const parameters: map<string, string>
    var statusCode: int
    var headers: map<string, string>
    var body: seq<Chunk>

    constructor (parameters: map<string, string>)
      ensures this.parameters == parameters
      ensures State() == ResponseState(200, map[], [])
    {
      this.parameters := parameters;
      statusCode := 200;
      headers := map[];
      body := [];
    }

    function State(): ResponseState
      reads this
    {
      ResponseState(statusCode, headers, body)
    }

    method Clear()
      modifies this
      ensures State() == ResponseState(old(statusCode), map[], [])
    {
      headers := map[];
      body := [];
    }

    method SetHeader(key: string, value: string)
      modifies this
      ensures State() == old(State()).(headers := old(headers)[key := value])
    {
      headers := headers[key := value];
    }

    method SetStatusCode(code: int)
      modifies this
      ensures State() == old(State()).(statusCode := code)
    {
      statusCode := code;
    }

    method Write(chunk: Chunk)
      modifies this
      ensures State() == old(State()).(body := old(body) + [chunk])
    {
      body := body + [chunk];
    }
  }
}
