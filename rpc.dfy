/** The JSON-RPC 2.0 envelopes and HTTP replies the MCP dispatchers produce.
    Error codes are those of section 5.1 of the JSON-RPC 2.0 specification;
    the protocol revision is MCP 2024-11-05. */
module Rpc {
  import opened Wrappers
  import opened Json

  const ProtocolVersion: string := "2024-11-05"
  const MethodNotFound: int := -32601
  const InvalidParams: int := -32602
  const InternalError: int := -32603

  const StatusOk: int := 200
  const StatusAccepted: int := 202
  const StatusBadRequest: int := 400
  const StatusServerError: int := 500

  /** The POST body: text Jackson cannot parse, or the tree it parses to. */
  datatype RequestBody = Malformed | Parsed(tree: Json)

  /** A ResponseEntity: its status and its body, absent for a null body. */
  datatype HttpResponse = HttpResponse(status: int, body: Option<Json>)

  /** How a handlePost without a catch-all ends: with a response, or with an
      exception that leaves the method for the web framework to report. */
  datatype Handled = Answered(response: HttpResponse) | Escaped

  /** The members every reply starts with: the protocol tag and the request
      id as text, then one more member. */
  function Envelope(id: string, member: string, value: Json): Json
  {
    JObj([("jsonrpc", JStr("2.0")), ("id", JStr(id)), (member, value)])
  }

  function ResultEnvelope(id: string, result: Json): Json
  {
    Envelope(id, "result", result)
  }

  function ErrorEnvelope(id: string, code: int, message: string): Json
  {
    Envelope(id, "error", JObj([("code", JNum(code)), ("message", JStr(message))]))
  }

  /** A reply that received its result member and then, from a catch block
      reached after that, an error member as well. */
  function ResultThenErrorEnvelope(id: string, result: Json, code: int, message: string): Json
  {
    JObj([("jsonrpc", JStr("2.0")), ("id", JStr(id)), ("result", result),
          ("error", JObj([("code", JNum(code)), ("message", JStr(message))]))])
  }

  /** The result of initialize: protocol version, empty capabilities and the
      server's name and version. */
  function InitializeResult(protocolVersion: Json, name: Json, version: Json): Json
  {
    JObj([("protocolVersion", protocolVersion), ("capabilities", JObj([])),
          ("serverInfo", JObj([("name", name), ("version", version)]))])
  }

  /** A reply body as a client reads it: jsonrpc "2.0", the id as text, and
      exactly one of a result and an error. */
  predicate IsEnvelopeFor(body: Json, id: string)
  {
    body.JObj? && Get(body, "jsonrpc") == Some(JStr("2.0")) && Get(body, "id") == Some(JStr(id))
    && (Has(body, "result") != Has(body, "error"))
  }

  /** The error code a reply body carries, if it is an error reply. */
  function ErrorCode(body: Json): Option<int>
  {
    match Get(body, "error")
    case Some(e) => (match Get(e, "code") case Some(JNum(c)) => Some(c) case _ => None)
    case None => None
  }

  /** The error message a reply body carries, if it is an error reply. */
  function ErrorMessage(body: Json): Option<string>
  {
    match Get(body, "error")
    case Some(e) => (match Get(e, "message") case Some(JStr(m)) => Some(m) case _ => None)
    case None => None
  }

  /** A result envelope reads back as an envelope for its id carrying the
      result and no error. */
  lemma ResultEnvelopeReadsBack(id: string, result: Json)
    ensures IsEnvelopeFor(ResultEnvelope(id, result), id)
    ensures Get(ResultEnvelope(id, result), "result") == Some(result)
    ensures ErrorCode(ResultEnvelope(id, result)) == None
  {
    EnvelopeMembers(id, "result", result);
  }

  /** An error envelope reads back as an envelope for its id carrying the
      code and message and no result. */
  lemma ErrorEnvelopeReadsBack(id: string, code: int, message: string)
    ensures IsEnvelopeFor(ErrorEnvelope(id, code, message), id)
    ensures !Has(ErrorEnvelope(id, code, message), "result")
    ensures ErrorCode(ErrorEnvelope(id, code, message)) == Some(code)
    ensures ErrorMessage(ErrorEnvelope(id, code, message)) == Some(message)
  {
    var error := JObj([("code", JNum(code)), ("message", JStr(message))]);
    EnvelopeMembers(id, "error", error);
    assert error.fields[1..] == [("message", JStr(message))];
    LookupCons(error.fields, "message");
    LookupCons(error.fields[1..], "message");
  }

  /** Such a reply carries both members, so it is not a well-formed
      envelope: a client finds the result and the error side by side. */
  lemma ResultThenErrorReadsBack(id: string, result: Json, code: int, message: string)
    ensures var body := ResultThenErrorEnvelope(id, result, code, message);
      && Get(body, "jsonrpc") == Some(JStr("2.0")) && Get(body, "id") == Some(JStr(id))
      && Get(body, "result") == Some(result)
      && ErrorCode(body) == Some(code) && ErrorMessage(body) == Some(message)
      && !IsEnvelopeFor(body, id)
  {
    var error := JObj([("code", JNum(code)), ("message", JStr(message))]);
    ResultThenErrorMembers(id, result, error);
    EnvelopeMembers(id, "error", error);
    ErrorEnvelopeReadsBack(id, code, message);
    assert Get(ResultThenErrorEnvelope(id, result, code, message), "error") == Get(ErrorEnvelope(id, code, message), "error");
  }

  lemma ResultThenErrorMembers(id: string, result: Json, error: Json)
    ensures var body := JObj([("jsonrpc", JStr("2.0")), ("id", JStr(id)), ("result", result), ("error", error)]);
      && Get(body, "jsonrpc") == Some(JStr("2.0")) && Get(body, "id") == Some(JStr(id))
      && Get(body, "result") == Some(result) && Get(body, "error") == Some(error)
  {
    var f := [("jsonrpc", JStr("2.0")), ("id", JStr(id)), ("result", result), ("error", error)];
    assert |"id"| == 2 && |"jsonrpc"| == 7 && |"result"| == 6 && |"error"| == 5;
    assert f[1..] == [("id", JStr(id)), ("result", result), ("error", error)];
    assert f[1..][1..] == [("result", result), ("error", error)];
    assert f[1..][1..][1..] == [("error", error)];
    LookupCons(f, "jsonrpc");
    LookupCons(f, "id");
    LookupCons(f[1..], "id");
    LookupCons(f, "result");
    LookupCons(f[1..], "result");
    LookupCons(f[1..][1..], "result");
    LookupCons(f, "error");
    LookupCons(f[1..], "error");
    LookupCons(f[1..][1..], "error");
    LookupCons(f[1..][1..][1..], "error");
  }

  lemma EnvelopeMembers(id: string, member: string, value: Json)
    requires member != "jsonrpc" && member != "id"
    ensures Get(Envelope(id, member, value), "jsonrpc") == Some(JStr("2.0"))
    ensures Get(Envelope(id, member, value), "id") == Some(JStr(id))
    ensures Get(Envelope(id, member, value), member) == Some(value)
    ensures forall k | k != "jsonrpc" && k != "id" && k != member :: !Has(Envelope(id, member, value), k)
  {
    var f := Envelope(id, member, value).fields;
    assert "id" != "jsonrpc" by { assert |"id"| != |"jsonrpc"|; }
    assert f[1..] == [("id", JStr(id)), (member, value)];
    assert f[1..][1..] == [(member, value)];
    assert f[1..][1..][1..] == [];
    forall k
      ensures Lookup(f, k) == if k == "jsonrpc" then Some(JStr("2.0"))
        else if k == "id" then Some(JStr(id)) else if k == member then Some(value) else None
    {
      LookupCons(f, k);
      LookupCons(f[1..], k);
      LookupCons(f[1..][1..], k);
    }
  }

  /** The id of a request as the dispatchers echo it: request.get("id").asText(). */
  function IdText(request: Json): string
    requires Has(request, "id")
  {
    AsText(Get(request, "id").value)
  }
}
