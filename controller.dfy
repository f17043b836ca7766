/** McpController: the base controller an application extends. handlePost
    parses the body, answers a notification with 202, and otherwise routes
    on the method name to the initialize, tools/list, tools/call and ping
    builders, which delegate to the tool registry. Nothing is caught here:
    a body Jackson cannot parse, a missing method, missing params or a
    missing tool name leave handlePost as an exception. The same dispatch
    serves the dynamic controller of the auto-configuration, which differs
    only in where its server description comes from and in passing its
    controller instance to the registry. */
module Controller {
  import opened Wrappers
  import opened Json
  import opened JavaValues
  import opened ToolDefinition
  import opened ToolRegistry
  import opened Rpc

  /** The three strings initialize reports, as the nodes ObjectNode.put
      stores for them (a null String becomes the null node). */
  datatype ServerInfo = ServerInfo(protocolVersion: Json, name: Json, version: Json)

  /** The tool name a tools/call request carries in params.name. */
  function CalledTool(request: Json): Option<string>
  {
    match Get(request, "params")
    case None => None
    case Some(params) => (match Get(params, "name") case Some(name) => Some(AsText(name)) case None => None)
  }

  /** The tool a call names, when it is registered, takes no Double
      parameter (see "Left out"); every other request is served as it is. */
  predicate CallIsDoubleFree(tools: map<string, ToolDefinition>, request: Json)
  {
    CalledTool(request).Some? && CalledTool(request).value in tools ==>
      DoubleFree(tools[CalledTool(request).value].toolMethod)
  }

  /** The same, for a body that turns out to be a tools/call request. */
  predicate Servable(tools: map<string, ToolDefinition>, body: RequestBody)
  {
    body.Parsed? && Has(body.tree, "id") && MethodOf(body.tree) == Some("tools/call") ==>
      CallIsDoubleFree(tools, body.tree)
  }

  /** handleInitialize(id). */
  function InitializeReply(id: string, info: ServerInfo): HttpResponse
  {
    HttpResponse(StatusOk, Some(ResultEnvelope(id, InitializeResult(info.protocolVersion, info.name, info.version))))
  }

  /** handleListTools(id): the registry's tool nodes under result.tools. */
  function ListToolsReply(id: string, tools: map<string, ToolDefinition>, order: seq<string>): HttpResponse
    requires forall i | 0 <= i < |order| :: order[i] in tools
  {
    HttpResponse(StatusOk, Some(ResultEnvelope(id, JObj([("tools", JArr(ToolNodes(tools, order)))]))))
  }

  /** handlePing(id). */
  function PingReply(id: string): HttpResponse
  {
    HttpResponse(StatusOk, Some(ResultEnvelope(id, JObj([]))))
  }

  /** handleUnsupportedMethod(id, method). */
  function UnsupportedReply(id: string, methodName: string): HttpResponse
  {
    HttpResponse(StatusBadRequest, Some(ErrorEnvelope(id, MethodNotFound, "Method not supported: " + methodName)))
  }

  /** The arguments map of a tools/call: an empty map when params has no
      arguments member or it is the null node, the converted members of an
      object, and no map at all (convertValue throws) for anything else. */
  function CallArguments(params: Json): Option<seq<(string, Value)>>
  {
    match Get(params, "arguments")
    case None => Some([])
    case Some(JNull) => Some([])
    case Some(JObj(fields)) => Some(FromJsonFields(fields))
    case Some(_) => None
  }

  /** handleCallTool(request): the registry's callTool output, verbatim, as
      the result of a 200 reply. */
  function CallToolReply(id: string, request: Json, tools: map<string, ToolDefinition>,
                         controller: Option<Instance>, reflect: Reflection): Handled
    requires CallIsDoubleFree(tools, request)
  {
    match Get(request, "params")
    case None => Escaped
    case Some(params) =>
      match Get(params, "name")
      case None => Escaped
      case Some(name) =>
        match CallArguments(params)
        case None => Escaped
        case Some(arguments) =>
          Answered(HttpResponse(StatusOk, Some(ResultEnvelope(id, CallResult(tools, AsText(name), arguments,
                                                                              controller, reflect)))))
  }

  /** handlePost(body) of a controller with the given server description,
      registry contents and controller instance; order is the iteration
      order getToolsAsJson uses. */
  function Reply(info: ServerInfo, tools: map<string, ToolDefinition>, order: seq<string>, body: RequestBody,
                 controller: Option<Instance>, reflect: Reflection): Handled
    requires Servable(tools, body)
    requires forall i | 0 <= i < |order| :: order[i] in tools
  {
    match body
    case Malformed => Escaped
    case Parsed(request) =>
      if !Has(request, "id") then Answered(HttpResponse(StatusAccepted, None))
      else
        var id := IdText(request);
        match Get(request, "method")
        case None => Escaped
        case Some(m) =>
          var methodName := AsText(m);
          if methodName == "initialize" then Answered(InitializeReply(id, info))
          else if methodName == "tools/list" then Answered(ListToolsReply(id, tools, order))
          else if methodName == "tools/call" then CallToolReply(id, request, tools, controller, reflect)
          else if methodName == "ping" then Answered(PingReply(id))
          else Answered(UnsupportedReply(id, methodName))
  }

  /** The method name of a request, when it has a method member. */
  function MethodOf(request: Json): Option<string>
  {
    match Get(request, "method")
    case Some(m) => Some(AsText(m))
    case None => None
  }

  /** A request without an id is a notification: 202 and no body, whatever
      its method. */
  lemma NotificationAccepted(info: ServerInfo, tools: map<string, ToolDefinition>, order: seq<string>,
                             request: Json, controller: Option<Instance>, reflect: Reflection)
    requires Servable(tools, Parsed(request)) && forall i | 0 <= i < |order| :: order[i] in tools
    ensures !Has(request, "id") <==>
      Reply(info, tools, order, Parsed(request), controller, reflect) == Answered(HttpResponse(StatusAccepted, None))
  {
    if Has(request, "id") {
      var reply := Reply(info, tools, order, Parsed(request), controller, reflect);
      if reply.Answered? {
        assert reply.response.body.Some?;
      }
    }
  }

  /** There is no catch-all: a body that does not parse, a request with an
      id but no method, and a tools/call without params or without a tool
      name leave handlePost as an exception instead of a reply. */
  lemma ExceptionsPropagate(info: ServerInfo, tools: map<string, ToolDefinition>, order: seq<string>,
                            request: Json, controller: Option<Instance>, reflect: Reflection)
    requires Servable(tools, Parsed(request)) && forall i | 0 <= i < |order| :: order[i] in tools
    ensures Reply(info, tools, order, Malformed, controller, reflect) == Escaped
    ensures Has(request, "id") && MethodOf(request).None? ==>
      Reply(info, tools, order, Parsed(request), controller, reflect) == Escaped
    ensures Has(request, "id") && MethodOf(request) == Some("tools/call")
            && (!Has(request, "params") || !Has(Get(request, "params").value, "name")) ==>
      Reply(info, tools, order, Parsed(request), controller, reflect) == Escaped
  {
  }

  /** A method other than the four is answered 400 with error -32601 and a
      message naming it. */
  lemma UnsupportedMethodRejected(info: ServerInfo, tools: map<string, ToolDefinition>, order: seq<string>,
                                  request: Json, controller: Option<Instance>, reflect: Reflection)
    requires Servable(tools, Parsed(request)) && forall i | 0 <= i < |order| :: order[i] in tools
    requires Has(request, "id") && MethodOf(request).Some?
    requires MethodOf(request).value !in {"initialize", "tools/list", "tools/call", "ping"}
    ensures var reply := Reply(info, tools, order, Parsed(request), controller, reflect);
      && reply.Answered? && reply.response.status == StatusBadRequest
      && IsEnvelopeFor(reply.response.body.value, IdText(request))
      && ErrorCode(reply.response.body.value) == Some(MethodNotFound)
      && ErrorMessage(reply.response.body.value) == Some("Method not supported: " + MethodOf(request).value)
  {
    var methodName := MethodOf(request).value;
    ErrorEnvelopeReadsBack(IdText(request), MethodNotFound, "Method not supported: " + methodName);
  }

  /** The four methods are routed to their builders and answered 200 (a
      tools/call may instead escape). */
  lemma KnownMethodsRouted(info: ServerInfo, tools: map<string, ToolDefinition>, order: seq<string>,
                           request: Json, controller: Option<Instance>, reflect: Reflection)
    requires Servable(tools, Parsed(request)) && forall i | 0 <= i < |order| :: order[i] in tools
    requires Has(request, "id") && MethodOf(request).Some?
    requires MethodOf(request).value in {"initialize", "tools/list", "tools/call", "ping"}
    ensures var reply := Reply(info, tools, order, Parsed(request), controller, reflect);
      && (reply.Answered? ==> reply.response.status == StatusOk)
      && (MethodOf(request).value != "tools/call" ==> reply.Answered?)
  {
  }

  /** Every reply to a request with an id is an envelope for that id, and it
      is an error exactly when its status is 400. */
  lemma RepliesAreEnvelopes(info: ServerInfo, tools: map<string, ToolDefinition>, order: seq<string>,
                            request: Json, controller: Option<Instance>, reflect: Reflection)
    requires Servable(tools, Parsed(request)) && forall i | 0 <= i < |order| :: order[i] in tools
    requires Has(request, "id")
    requires Reply(info, tools, order, Parsed(request), controller, reflect).Answered?
    ensures var response := Reply(info, tools, order, Parsed(request), controller, reflect).response;
      && response.body.Some?
      && IsEnvelopeFor(response.body.value, IdText(request))
      && (response.status == StatusBadRequest <==> ErrorCode(response.body.value).Some?)
      && (response.status == StatusOk || response.status == StatusBadRequest)
  {
    var id := IdText(request);
    var response := Reply(info, tools, order, Parsed(request), controller, reflect).response;
    var methodName := MethodOf(request).value;
    if methodName == "initialize" {
      ResultEnvelopeReadsBack(id, InitializeResult(info.protocolVersion, info.name, info.version));
    } else if methodName == "tools/list" {
      ResultEnvelopeReadsBack(id, JObj([("tools", JArr(ToolNodes(tools, order)))]));
    } else if methodName == "tools/call" {
      var params := Get(request, "params").value;
      var arguments := CallArguments(params).value;
      var name := AsText(Get(params, "name").value);
      ResultEnvelopeReadsBack(id, CallResult(tools, name, arguments, controller, reflect));
    } else if methodName == "ping" {
      ResultEnvelopeReadsBack(id, JObj([]));
    } else {
      ErrorEnvelopeReadsBack(id, MethodNotFound, "Method not supported: " + methodName);
    }
  }

  /** initialize reports the controller's protocol version and server name
      and version, with empty capabilities. */
  lemma InitializeReadsBack(info: ServerInfo, id: string)
    ensures var result := InitializeResult(info.protocolVersion, info.name, info.version);
      var serverInfo := JObj([("name", info.name), ("version", info.version)]);
      && Get(InitializeReply(id, info).body.value, "result") == Some(result)
      && Get(result, "protocolVersion") == Some(info.protocolVersion)
      && Get(result, "capabilities") == Some(JObj([]))
      && Get(result, "serverInfo") == Some(serverInfo)
      && Get(serverInfo, "name") == Some(info.name)
      && Get(serverInfo, "version") == Some(info.version)
  {
    var result := InitializeResult(info.protocolVersion, info.name, info.version);
    ResultEnvelopeReadsBack(id, result);
    var f := result.fields;
    assert f[1..] == [("capabilities", JObj([])), ("serverInfo", f[2].1)];
    assert f[1..][1..] == [("serverInfo", f[2].1)];
    assert "capabilities" != "protocolVersion" && "serverInfo" != "protocolVersion" && "serverInfo" != "capabilities";
    LookupCons(f, "protocolVersion");
    LookupCons(f, "capabilities");
    LookupCons(f, "serverInfo");
    LookupCons(f[1..], "capabilities");
    LookupCons(f[1..], "serverInfo");
    LookupCons(f[1..][1..], "serverInfo");
    var s := f[2].1.fields;
    assert s[1..] == [("version", info.version)];
    LookupCons(s, "name");
    LookupCons(s, "version");
    LookupCons(s[1..], "version");
  }

  /** tools/list answers with the registry's tool nodes under result.tools. */
  lemma ListToolsReadsBack(id: string, tools: map<string, ToolDefinition>, order: seq<string>)
    requires IsEnumeration(order, tools.Keys)
    ensures Get(ListToolsReply(id, tools, order).body.value, "result") == Some(JObj([("tools", JArr(ToolNodes(tools, order)))]))
    ensures Get(JObj([("tools", JArr(ToolNodes(tools, order)))]), "tools") == Some(JArr(ToolNodes(tools, order)))
  {
    var result := JObj([("tools", JArr(ToolNodes(tools, order)))]);
    ResultEnvelopeReadsBack(id, result);
    LookupCons(result.fields, "tools");
  }

  /** tools/call never answers with an error: its reply is 200 and carries
      callTool's output as the result, with absent or null arguments read as
      an empty map. */
  lemma CallToolAnswersResult(id: string, request: Json, tools: map<string, ToolDefinition>,
                              controller: Option<Instance>, reflect: Reflection)
    requires CallIsDoubleFree(tools, request)
    requires CallToolReply(id, request, tools, controller, reflect).Answered?
    ensures var params := Get(request, "params").value;
      var response := CallToolReply(id, request, tools, controller, reflect).response;
      && response.status == StatusOk
      && ErrorCode(response.body.value) == None
      && Get(response.body.value, "result")
         == Some(CallResult(tools, AsText(Get(params, "name").value), CallArguments(params).value, controller, reflect))
      && (Get(params, "arguments") in {None, Some(JNull)} ==> CallArguments(params) == Some([]))
  {
    var params := Get(request, "params").value;
    var name := AsText(Get(params, "name").value);
    ResultEnvelopeReadsBack(id, CallResult(tools, name, CallArguments(params).value, controller, reflect));
  }

  /** McpController with its default server description. */
  class McpController {
    var toolRegistry: ToolRegistry
    var serverName: string
    var serverVersion: string
    var protocolVersion: string

    constructor (registry: ToolRegistry)
      ensures toolRegistry == registry
      ensures serverName == "MCP Server" && serverVersion == "1.0.0" && protocolVersion == ProtocolVersion
    {
      toolRegistry := registry;
      serverName := "MCP Server";
      serverVersion := "1.0.0";
      protocolVersion := ProtocolVersion;
    }

    function Info(): ServerInfo
      reads this
    {
      ServerInfo(JStr(protocolVersion), JStr(serverName), JStr(serverVersion))
    }

    /** handlePost(body): the reply, with order the iteration order the
        registry used if the request was a tools/list. */
    method HandlePost(body: RequestBody, reflect: Reflection) returns (handled: Handled, ghost order: seq<string>)
      requires Servable(toolRegistry.tools, body)
      ensures IsEnumeration(order, toolRegistry.tools.Keys)
      ensures handled == Reply(Info(), toolRegistry.tools, order, body, None, reflect)
    {
      EnumerationExists(toolRegistry.tools.Keys);
      order :| IsEnumeration(order, toolRegistry.tools.Keys);
      if body.Malformed? {
        return Escaped, order;
      }
      var request := body.tree;
      if !Has(request, "id") {
        return Answered(HttpResponse(StatusAccepted, None)), order;
      }
      var id := AsText(Get(request, "id").value);
      var methodNode := Get(request, "method");
      if methodNode.None? {
        return Escaped, order;
      }
      var methodName := AsText(methodNode.value);
      if methodName == "initialize" {
        handled := Answered(HttpResponse(StatusOk, Some(ResultEnvelope(id, InitializeResult(
          JStr(protocolVersion), JStr(serverName), JStr(serverVersion))))));
      } else if methodName == "tools/list" {
        var nodes;
        nodes, order := toolRegistry.GetToolsAsJson();
        handled := Answered(HttpResponse(StatusOk, Some(ResultEnvelope(id, JObj([("tools", JArr(nodes))])))));
      } else if methodName == "tools/call" {
        handled := HandleCallTool(toolRegistry, id, request, None, reflect);
      } else if methodName == "ping" {
        handled := Answered(HttpResponse(StatusOk, Some(ResultEnvelope(id, JObj([])))));
      } else {
        handled := Answered(HttpResponse(StatusBadRequest, Some(ErrorEnvelope(id, MethodNotFound,
          "Method not supported: " + methodName))));
      }
    }
  }

  /** handleCallTool(request), shared by both controllers. */
  method HandleCallTool(registry: ToolRegistry, id: string, request: Json, controller: Option<Instance>,
                        reflect: Reflection) returns (handled: Handled)
    requires CallIsDoubleFree(registry.tools, request)
    ensures handled == CallToolReply(id, request, registry.tools, controller, reflect)
  {
    var params := Get(request, "params");
    if params.None? {
      return Escaped;
    }
    var nameNode := Get(params.value, "name");
    if nameNode.None? {
      return Escaped;
    }
    var toolName := AsText(nameNode.value);
    var argumentsNode := Get(params.value, "arguments");
    var arguments: seq<(string, Value)> := [];
    if argumentsNode.Some? && !argumentsNode.value.JNull? {
      if !argumentsNode.value.JObj? {
        return Escaped;
      }
      arguments := FromJsonFields(argumentsNode.value.fields);
    }
    var result := registry.CallTool(toolName, arguments, controller, reflect);
    handled := Answered(HttpResponse(StatusOk, Some(ResultEnvelope(id, result))));
  }
}
