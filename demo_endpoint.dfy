/** McpDemoEndpoint: the demo application's MCP endpoint at /mcp/demo1. It
    routes on the method name like the starter's controllers, reports a fixed
    server description, lists the demo service's tools and passes calls to
    the service. Nothing is caught: a body that does not parse to an object
    (the JSON null included), a missing method, and a tools/call without
    params or a tool name leave handlePost as an exception. */
module DemoEndpoint {
  import opened Wrappers
  import opened Json
  import opened JavaValues
  import opened Rpc
  import opened DemoService

  const ServerName: string := "三国演义资料库-新版MCP协议"
  const ServerVersion: string := "1.0.0"
  const UnsupportedText: string := "本服务器不支持这个方法"

  /** handleInitialize(id). */
  function InitializeReply(id: string): HttpResponse
  {
    HttpResponse(StatusOk, Some(ResultEnvelope(id, InitializeResult(JStr(ProtocolVersion), JStr(ServerName),
                                                                    JStr(ServerVersion)))))
  }

  /** handleListTools(id): the service's tool maps, as trees, under
      result.tools. */
  function ListToolsReply(id: string, tools: seq<Json>): HttpResponse
  {
    HttpResponse(StatusOk, Some(ResultEnvelope(id, JObj([("tools", JArr(tools))]))))
  }

  /** handlePing(id). */
  function PingReply(id: string): HttpResponse
  {
    HttpResponse(StatusOk, Some(ResultEnvelope(id, JObj([]))))
  }

  /** handleUnsupportedMethod(id, method): the method is not named. */
  function UnsupportedReply(id: string): HttpResponse
  {
    HttpResponse(StatusBadRequest, Some(ErrorEnvelope(id, MethodNotFound, UnsupportedText)))
  }

  /** convertValue of the arguments member to a Map: null when it is absent
      or the null node, the converted members of an object, and an exception
      (None) for anything else. */
  function CallArguments(params: Json): Option<Option<seq<(string, Value)>>>
  {
    match Get(params, "arguments")
    case None => Some(None)
    case Some(JNull) => Some(None)
    case Some(JObj(fields)) => Some(Some(FromJsonFields(fields)))
    case Some(_) => None
  }

  /** handleCallTool(request): the service's result map, as a tree, under
      result. */
  function CallToolReply<D>(id: string, request: Json, handlers: map<string, ToolHandler>, ops: DoubleOps<D>): Handled
  {
    match Get(request, "params")
    case None => Escaped
    case Some(params) =>
      match Get(params, "name")
      case None => Escaped
      case Some(name) =>
        match CallArguments(params)
        case None => Escaped
        case Some(arguments) =>
          Answered(HttpResponse(StatusOk, Some(ResultEnvelope(id, CallResult(handlers, AsText(name), arguments, ops)))))
  }

  /** handlePost(body) against a service with the given tools and handlers. */
  function Reply<D>(tools: seq<Json>, handlers: map<string, ToolHandler>, body: RequestBody, ops: DoubleOps<D>): Handled
  {
    if body.Malformed? || !body.tree.JObj? then Escaped
    else
      var request := body.tree;
      if !Has(request, "id") then Answered(HttpResponse(StatusAccepted, None))
      else
        var id := IdText(request);
        match Get(request, "method")
        case None => Escaped
        case Some(m) =>
          var methodName := AsText(m);
          if methodName == "initialize" then Answered(InitializeReply(id))
          else if methodName == "tools/list" then Answered(ListToolsReply(id, tools))
          else if methodName == "tools/call" then CallToolReply(id, request, handlers, ops)
          else if methodName == "ping" then Answered(PingReply(id))
          else Answered(UnsupportedReply(id))
  }

  /** An object request without an id is a notification: 202 and no body,
      whatever its method; a body that parses to null is not an object, so
      it escapes instead. */
  lemma NotificationAccepted<D>(tools: seq<Json>, handlers: map<string, ToolHandler>, body: RequestBody,
                                ops: DoubleOps<D>)
    ensures Reply(tools, handlers, body, ops) == Answered(HttpResponse(StatusAccepted, None))
      <==> body.Parsed? && body.tree.JObj? && !Has(body.tree, "id")
    ensures Reply(tools, handlers, Parsed(JNull), ops) == Escaped
  {
  }

  /** Any method other than the four is answered 400 with error -32601 and
      the same fixed message, which does not name the method. */
  lemma UnsupportedMethodRejected<D>(tools: seq<Json>, handlers: map<string, ToolHandler>, request: Json,
                                     ops: DoubleOps<D>)
    requires request.JObj? && Has(request, "id") && Has(request, "method")
    requires AsText(Get(request, "method").value) !in {"initialize", "tools/list", "tools/call", "ping"}
    ensures var reply := Reply(tools, handlers, Parsed(request), ops);
      && reply.Answered? && reply.response.status == StatusBadRequest
      && IsEnvelopeFor(reply.response.body.value, IdText(request))
      && ErrorCode(reply.response.body.value) == Some(MethodNotFound)
      && ErrorMessage(reply.response.body.value) == Some(UnsupportedText)
  {
    assert Reply(tools, handlers, Parsed(request), ops) == Answered(UnsupportedReply(IdText(request)));
    ErrorEnvelopeReadsBack(IdText(request), MethodNotFound, UnsupportedText);
  }

  /** initialize reports protocol 2024-11-05 and the demo's fixed name and
      version, tools/list the service's tools as they are, and ping an empty
      object, each in a 200 result envelope for the request's id. */
  lemma KnownMethodResults<D>(tools: seq<Json>, handlers: map<string, ToolHandler>, request: Json, ops: DoubleOps<D>)
    requires request.JObj? && Has(request, "id") && Has(request, "method")
    requires AsText(Get(request, "method").value) in {"initialize", "tools/list", "ping"}
    ensures var reply := Reply(tools, handlers, Parsed(request), ops);
      var methodName := AsText(Get(request, "method").value);
      && reply.Answered? && reply.response.status == StatusOk
      && IsEnvelopeFor(reply.response.body.value, IdText(request))
      && (methodName == "initialize" ==>
            Get(reply.response.body.value, "result")
            == Some(InitializeResult(JStr(ProtocolVersion), JStr(ServerName), JStr(ServerVersion))))
      && (methodName == "tools/list" ==> Get(reply.response.body.value, "result") == Some(JObj([("tools", JArr(tools))])))
      && (methodName == "ping" ==> Get(reply.response.body.value, "result") == Some(JObj([])))
  {
    var id := IdText(request);
    var methodName := AsText(Get(request, "method").value);
    if methodName == "initialize" {
      assert Reply(tools, handlers, Parsed(request), ops) == Answered(InitializeReply(id));
      ResultEnvelopeReadsBack(id, InitializeResult(JStr(ProtocolVersion), JStr(ServerName), JStr(ServerVersion)));
    } else if methodName == "tools/list" {
      assert Reply(tools, handlers, Parsed(request), ops) == Answered(ListToolsReply(id, tools));
      ResultEnvelopeReadsBack(id, JObj([("tools", JArr(tools))]));
    } else {
      assert Reply(tools, handlers, Parsed(request), ops) == Answered(PingReply(id));
      ResultEnvelopeReadsBack(id, JObj([]));
    }
  }

  /** A tools/call with a tool name and object, null or absent arguments is
      answered 200 with the service's result verbatim, the arguments passed
      as null when absent. */
  lemma CallPassedToService<D>(tools: seq<Json>, handlers: map<string, ToolHandler>, request: Json, ops: DoubleOps<D>)
    requires request.JObj? && Has(request, "id") && Has(request, "method")
    requires AsText(Get(request, "method").value) == "tools/call"
    requires Has(request, "params") && Has(Get(request, "params").value, "name")
    requires CallArguments(Get(request, "params").value).Some?
    ensures var params := Get(request, "params").value;
      var reply := Reply(tools, handlers, Parsed(request), ops);
      var result := CallResult(handlers, AsText(Get(params, "name").value), CallArguments(params).value, ops);
      && reply.Answered? && reply.response.status == StatusOk
      && IsEnvelopeFor(reply.response.body.value, IdText(request))
      && Get(reply.response.body.value, "result") == Some(result)
      && (!Has(params, "arguments") ==> CallArguments(params).value.None?)
  {
    var params := Get(request, "params").value;
    var id := IdText(request);
    var result := CallResult(handlers, AsText(Get(params, "name").value), CallArguments(params).value, ops);
    assert Reply(tools, handlers, Parsed(request), ops) == CallToolReply(id, request, handlers, ops);
    assert CallToolReply(id, request, handlers, ops) == Answered(HttpResponse(StatusOk, Some(ResultEnvelope(id, result))));
    ResultEnvelopeReadsBack(id, result);
  }

  class McpDemoEndpoint {
    const server: McpDemoService

    constructor (server: McpDemoService)
      ensures this.server == server
    {
      this.server := server;
    }

    /** handlePost(body). */
    method HandlePost<D>(body: RequestBody, ops: DoubleOps<D>) returns (handled: Handled)
      ensures handled == Reply(server.tools.items, server.toolHandlers, body, ops)
    {
      if body.Malformed? || !body.tree.JObj? {
        return Escaped;
      }
      var request := body.tree;
      if !Has(request, "id") {
        return Answered(HttpResponse(StatusAccepted, None));
      }
      var id := AsText(Get(request, "id").value);
      var methodNode := Get(request, "method");
      if methodNode.None? {
        return Escaped;
      }
      var methodName := AsText(methodNode.value);
      if methodName == "initialize" {
        handled := Answered(InitializeReply(id));
      } else if methodName == "tools/list" {
        var list := server.GetTools();
        handled := Answered(ListToolsReply(id, list.items));
      } else if methodName == "tools/call" {
        handled := HandleCallTool(id, request, ops);
      } else if methodName == "ping" {
        handled := Answered(PingReply(id));
      } else {
        handled := Answered(UnsupportedReply(id));
      }
    }

    /** handleCallTool(request). */
    method HandleCallTool<D>(id: string, request: Json, ops: DoubleOps<D>) returns (handled: Handled)
      ensures handled == CallToolReply(id, request, server.toolHandlers, ops)
    {
      var params := Get(request, "params");
      if params.None? || Get(params.value, "name").None? {
        return Escaped;
      }
      var toolName := AsText(Get(params.value, "name").value);
      var arguments := CallArguments(params.value);
      if arguments.None? {
        return Escaped;
      }
      var result := server.CallTool(toolName, arguments.value, ops);
      handled := Answered(HttpResponse(StatusOk, Some(ResultEnvelope(id, result))));
    }
  }
}
