/**
 * The `/config` HTTP handler (servitor/api/handlers/config_handler.go).
 *
 * The handler encodes the configuration once, when it is built, and answers
 * every GET with exactly those bytes. The JSON encoder is a library function
 * and is taken as a parameter: any total function that may fail.
 */
module Handlers {
  import opened Wrappers

  newtype byte = b: int | 0 <= b < 256

  /** json.Marshal on a string-to-string map: the encoding, or the library's error. */
  type Encoder = map<string, string> -> Result<seq<byte>>

  const MethodGet: string := "GET"
  const StatusOK: int := 200
  const StatusMethodNotAllowed: int := 405

  /** What the handler sees of a request: its method (verb), and whether closing its body fails. */
  datatype Request = Request(verb: string, bodyCloseFails: bool)

  /** What a response writer records: the status, the headers set, and the bytes written. */
  datatype Response = Response(status: int, header: map<string, string>, body: seq<byte>)

  /**
   * The UTF-8 bytes of an ASCII string: each character is one byte with the
   * same code. (Characters from 128 up take several bytes in UTF-8 and are not
   * covered.)
   */
  function Bytes(s: string): (b: seq<byte>)
    requires forall i :: 0 <= i < |s| ==> s[i] as int < 128
    ensures |b| == |s|
    ensures forall i :: 0 <= i < |s| ==> b[i] as int == s[i] as int
  {
    seq(|s|, i requires 0 <= i < |s| => s[i] as int as byte)
  }

  /** The message of `errors.Wrap(err, context)`: the context, a colon, then the cause. */
  function Wrap(cause: string, context: string): string
  {
    context + ": " + cause
  }

  /**
   * net/http's Error helper as documented: it sets exactly the plain-text
   * content type and `nosniff`, writes the given status, then the message
   * followed by a newline.
   */
  function HttpError(msg: string, code: int): (r: Response)
    requires forall i :: 0 <= i < |msg| ==> msg[i] as int < 128
    ensures r.status == code
    ensures r.header.Keys == {"Content-Type", "X-Content-Type-Options"}
    ensures r.header["Content-Type"] == "text/plain; charset=utf-8"
    ensures r.header["X-Content-Type-Options"] == "nosniff"
    ensures |r.body| == |msg| + 1 && r.body[|msg|] == 10
    ensures forall i :: 0 <= i < |msg| ==> r.body[i] as int == msg[i] as int
  {
    Response(code,
             map["Content-Type" := "text/plain; charset=utf-8", "X-Content-Type-Options" := "nosniff"],
             Bytes(msg + "\n"))
  }

  /** configHandler: holds the encoded configuration, fixed at construction. */
  class ConfigHandler {
    const resp: seq<byte>

    constructor (resp: seq<byte>)
      ensures this.resp == resp
    {
      this.resp := resp;
    }

    /**
     * Handler: dispatches on the request method alone. The deferred close of the
     * request body runs on every path; a failure there is only logged.
     */
    method Handler(req: Request) returns (rsp: Response, closeAttempted: bool)
      ensures closeAttempted
      ensures req.verb == MethodGet ==>
                rsp.status == StatusOK
                && rsp.header == map["Content-Type" := "application/json"]
                && rsp.body == resp
      ensures req.verb != MethodGet ==>
                rsp.status == StatusMethodNotAllowed
                && "Content-Type" in rsp.header
                && rsp.header["Content-Type"] == "text/plain; charset=utf-8"
                && rsp.body == Bytes("Method not allowed\n")
    {
      if req.verb != MethodGet {
        rsp := HttpError("Method not allowed", StatusMethodNotAllowed);
      } else {
        var header: map<string, string> := map[];
        header := header["Content-Type" := "application/json"];
        rsp := Response(StatusOK, header, resp);
      }
      // the deferred r.Body.Close() runs last on both paths; when it fails
      // (req.bodyCloseFails) the error is only logged and rsp is left as it is
      closeAttempted := true;
    }
  }

  /**
   * newConfigHandler: encodes the configuration once; on an encoding error no
   * handler is returned and the error is wrapped.
   */
  method NewConfigHandler(config: map<string, string>, encode: Encoder)
    returns (h: ConfigHandler?, err: Option<string>)
    ensures encode(config).Ok? ==> h != null && fresh(h) && h.resp == encode(config).value && err.None?
    ensures encode(config).Err? ==>
              h == null && err == Some("could not marshal config: " + encode(config).msg)
  {
    var encoded := encode(config);
    if encoded.Err? {
      assert "could not marshal config" + ": " == "could not marshal config: ";
      return null, Some(Wrap(encoded.msg, "could not marshal config"));
    }
    h := new ConfigHandler(encoded.value);
    err := None;
  }

  /**
   * Two GET requests to one handler get identical responses carrying the bytes
   * captured at construction, whether or not closing either request body fails.
   */
  method RepeatedGets(h: ConfigHandler, first: Request, second: Request)
    returns (a: Response, b: Response)
    requires first.verb == MethodGet && second.verb == MethodGet
    ensures a == b && a.body == h.resp && a.status == StatusOK
  {
    var closed;
    a, closed := h.Handler(first);
    b, closed := h.Handler(second);
  }
}
