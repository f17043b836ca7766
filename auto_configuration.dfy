/** McpAutoConfiguration: the import registrar behind @EnableMcpServer. For
    a class carrying @EnableMcpServer it derives a bean name from the class
    name, records it in the annotation's attribute map and registers a
    DynamicMcpController definition under it; @McpServer is recognised but
    registers nothing. DynamicMcpController serves the same dispatch as
    McpController, with its server description taken from the attributes
    and the user's controller bean passed to every tool call. */
module AutoConfiguration {
  import opened Wrappers
  import opened Json
  import opened JavaText
  import opened JavaValues
  import opened ToolDefinition
  import opened ToolRegistry
  import opened Rpc
  import opened Controller

  /** getUserControllerBeanName(className): the simple class name after the
      last '.', when that dot is neither the first nor the last character,
      with its first character lower-cased. */
  function UserControllerBeanName(className: string): (beanName: string)
    ensures |beanName| <= |className|
    ensures beanName == [] <==> className == []
  {
    var lastDot := LastIndexOf(className, '.');
    var simpleName := if 0 < lastDot < |className| - 1 then className[lastDot + 1..] else className;
    if simpleName == [] then simpleName else LowerFirst(simpleName)
  }

  /** The class name had a package prefix that was cut off. */
  predicate Stripped(className: string)
  {
    0 < LastIndexOf(className, '.') < |className| - 1
  }

  /** Lower-casing the first character neither adds nor removes a dot. */
  lemma LowerFirstKeepsDots(s: string)
    ensures forall i | 0 <= i < |s| :: (LowerFirst(s)[i] == '.' <==> s[i] == '.')
  {
    if s != [] {
      assert LowerFirst(s)[0] == LowerAscii(s[0]);
      forall i | 1 <= i < |s|
        ensures LowerFirst(s)[i] == s[i]
      {
        assert LowerFirst(s)[1..][i - 1] == s[1..][i - 1];
      }
    }
  }

  /** When the package prefix was cut off, no dot is left. */
  lemma StrippedNameHasNoDot(className: string)
    requires Stripped(className)
    ensures '.' !in UserControllerBeanName(className)
  {
    var lastDot := LastIndexOf(className, '.');
    var simpleName := className[lastDot + 1..];
    LowerFirstKeepsDots(simpleName);
    LastIndexOfIsLast(className, '.');
    var beanName := UserControllerBeanName(className);
    forall i | 0 <= i < |beanName|
      ensures beanName[i] != '.'
    {
      assert simpleName[i] != '.';
    }
  }

  /** Strings with dots at the same positions have their last dot at the
      same position. */
  lemma {:induction false} SameDotsSameLastDot(r: string, s: string)
    requires |r| == |s|
    requires forall i | 0 <= i < |s| :: (r[i] == '.' <==> s[i] == '.')
    ensures LastIndexOf(r, '.') == LastIndexOf(s, '.')
    decreases |s|
  {
    if s != [] {
      var n := |s| - 1;
      assert forall i | 0 <= i < n :: r[..n][i] == r[i] && s[..n][i] == s[i];
      SameDotsSameLastDot(r[..n], s[..n]);
    }
  }

  /** A string without a dot has none last. */
  lemma NoDotNoLastDot(s: string)
    requires '.' !in s
    ensures LastIndexOf(s, '.') == -1
  {
  }

  /** Lower-casing the first character twice is lower-casing it once. */
  lemma LowerFirstIdempotent(s: string)
    ensures LowerFirst(LowerFirst(s)) == LowerFirst(s)
  {
    if s != [] {
      assert LowerFirst(LowerFirst(s))[1..] == LowerFirst(s)[1..];
    }
  }

  /** The bean name of a derived bean name keeps all of it. */
  lemma BeanNameNotStrippedAgain(className: string)
    requires className != []
    ensures !Stripped(UserControllerBeanName(className))
  {
    var beanName := UserControllerBeanName(className);
    var lastDot := LastIndexOf(className, '.');
    if Stripped(className) {
      StrippedNameHasNoDot(className);
      NoDotNoLastDot(beanName);
    } else {
      LowerFirstKeepsDots(className);
      SameDotsSameLastDot(beanName, className);
    }
  }

  /** Deriving the bean name of a bean name gives it back. */
  lemma UserControllerBeanNameIdempotent(className: string)
    ensures UserControllerBeanName(UserControllerBeanName(className)) == UserControllerBeanName(className)
  {
    var beanName := UserControllerBeanName(className);
    if beanName != [] {
      var lastDot := LastIndexOf(className, '.');
      var simpleName := if Stripped(className) then className[lastDot + 1..] else className;
      assert beanName == LowerFirst(simpleName);
      BeanNameNotStrippedAgain(className);
      assert UserControllerBeanName(beanName) == LowerFirst(beanName);
      LowerFirstIdempotent(simpleName);
    }
  }

  /** The attribute key under which the derived bean name is recorded. */
  const UserControllerKey: string := "userControllerBeanName"

  /** A bean definition: the class Spring is to instantiate. */
  datatype BeanDefinition = BeanDefinition(beanClass: string)

  const DynamicControllerClass: string := "cn.daydayup.dev.streamable.mcp.starter.config.McpAutoConfiguration$DynamicMcpController"

  /** The annotation attributes map getAnnotationAttributes hands out. Its
      values are the annotation's String members. */
  class AttributeMap {
    var entries: map<string, string>

    constructor (entries: map<string, string>)
      ensures this.entries == entries
    {
      this.entries := entries;
    }

    /** Map.get, with None for a null result. */
    function Get(key: string): Option<string>
      reads this
    {
      if key in entries then Some(entries[key]) else None
    }
  }

  /** Spring's BeanDefinitionRegistry: definitions by bean name. A second
      definition under a name replaces the first. */
  class BeanDefinitionRegistry {
    var definitions: map<string, BeanDefinition>

    constructor ()
      ensures definitions == map[]
    {
      definitions := map[];
    }

    method RegisterBeanDefinition(name: string, definition: BeanDefinition)
      modifies this
      ensures definitions == old(definitions)[name := definition]
    {
      definitions := definitions[name := definition];
    }
  }

  /** The server description a DynamicMcpController built from these
      attributes reports. */
  function AttributeInfo(entries: map<string, string>): ServerInfo
  {
    ServerInfo(TextOrNull(if "protocolVersion" in entries then Some(entries["protocolVersion"]) else None),
               TextOrNull(if "serverName" in entries then Some(entries["serverName"]) else None),
               TextOrNull(if "serverVersion" in entries then Some(entries["serverVersion"]) else None))
  }

  /** The dynamic controller: its fields are read from the attributes once,
      at construction. */
  class DynamicMcpController {
    const serverName: Option<string>
    const serverVersion: Option<string>
    const protocolVersion: Option<string>
    const userControllerBeanName: Option<string>

    constructor (attributes: AttributeMap)
      ensures serverName == attributes.Get("serverName")
      ensures serverVersion == attributes.Get("serverVersion")
      ensures protocolVersion == attributes.Get("protocolVersion")
      ensures userControllerBeanName == attributes.Get(UserControllerKey)
      ensures Info() == AttributeInfo(attributes.entries)
    {
      serverName := attributes.Get("serverName");
      serverVersion := attributes.Get("serverVersion");
      protocolVersion := attributes.Get("protocolVersion");
      userControllerBeanName := attributes.Get(UserControllerKey);
    }

    function Info(): ServerInfo
    {
      ServerInfo(TextOrNull(protocolVersion), TextOrNull(serverName), TextOrNull(serverVersion))
    }

    /** handlePost(body). The application context's beans by name are given
        as a map; the user controller is looked up before the body is
        parsed, and a failed lookup (no name, or no bean of that name)
        escapes. */
    method HandlePost(body: RequestBody, registry: ToolRegistry, beans: map<string, Instance>, reflect: Reflection)
      returns (handled: Handled, ghost order: seq<string>)
      requires Servable(registry.tools, body)
      ensures IsEnumeration(order, registry.tools.Keys)
      ensures handled == DynamicReply(Info(), userControllerBeanName, registry.tools, order, beans, body, reflect)
    {
      EnumerationExists(registry.tools.Keys);
      order :| IsEnumeration(order, registry.tools.Keys);
      if userControllerBeanName.None? || userControllerBeanName.value !in beans {
        return Escaped, order;
      }
      var userController := beans[userControllerBeanName.value];
      if body.Malformed? {
        return Escaped, order;
      }
      var request := body.tree;
      if !Has(request, "id") {
        return Answered(HttpResponse(StatusAccepted, None)), order;
      }
      var id := AsText(Get(request, "id").value);
      var methodNode := Get(request, "method");
      if methodNode.None? {
        return Escaped, order;
      }
      var methodName := AsText(methodNode.value);
      if methodName == "initialize" {
        handled := Answered(HttpResponse(StatusOk, Some(ResultEnvelope(id, InitializeResult(
          TextOrNull(protocolVersion), TextOrNull(serverName), TextOrNull(serverVersion))))));
      } else if methodName == "tools/list" {
        var nodes;
        nodes, order := registry.GetToolsAsJson();
        handled := Answered(HttpResponse(StatusOk, Some(ResultEnvelope(id, JObj([("tools", JArr(nodes))])))));
      } else if methodName == "tools/call" {
        handled := HandleCallTool(registry, id, request, Some(userController), reflect);
      } else if methodName == "ping" {
        handled := Answered(HttpResponse(StatusOk, Some(ResultEnvelope(id, JObj([])))));
      } else {
        handled := Answered(HttpResponse(StatusBadRequest, Some(ErrorEnvelope(id, MethodNotFound,
          "Method not supported: " + methodName))));
      }
    }
  }

  /** DynamicMcpController.handlePost: the shared dispatch, run with the user
      controller as the instance every tool is invoked on. */
  function DynamicReply(info: ServerInfo, beanName: Option<string>, tools: map<string, ToolDefinition>,
                        order: seq<string>, beans: map<string, Instance>, body: RequestBody,
                        reflect: Reflection): Handled
    requires Servable(tools, body)
    requires forall i | 0 <= i < |order| :: order[i] in tools
  {
    if beanName.None? || beanName.value !in beans then Escaped
    else Reply(info, tools, order, body, Some(beans[beanName.value]), reflect)
  }

  /** A tools/call through the dynamic controller runs the tool on the user
      controller, whichever instance the tool was registered with. */
  lemma DynamicCallUsesUserController(info: ServerInfo, beanName: string, tools: map<string, ToolDefinition>,
                                      order: seq<string>, beans: map<string, Instance>, request: Json,
                                      reflect: Reflection)
    requires Servable(tools, Parsed(request)) && forall i | 0 <= i < |order| :: order[i] in tools
    requires beanName in beans && Has(request, "id") && MethodOf(request) == Some("tools/call")
    requires Get(request, "params").Some? && Get(Get(request, "params").value, "name").Some?
    requires CallArguments(Get(request, "params").value).Some?
    ensures var params := Get(request, "params").value;
      var toolName := AsText(Get(params, "name").value);
      var arguments := CallArguments(params).value;
      toolName in tools ==>
        DynamicReply(info, Some(beanName), tools, order, beans, Parsed(request), reflect)
        == Answered(HttpResponse(StatusOk, Some(ResultEnvelope(IdText(request),
             CallResult(map[toolName := tools[toolName].(instance := beans[beanName])], toolName, arguments,
                        None, reflect)))))
  {
    var params := Get(request, "params").value;
    var toolName := AsText(Get(params, "name").value);
    var arguments := CallArguments(params).value;
    if toolName in tools {
      ControllerReplacesInstance(tools[toolName], arguments, beans[beanName], reflect);
    }
  }

  /** initialize on a dynamic controller built from the attributes reports
      the attributes' protocol version, server name and version. */
  lemma DynamicInitializeEchoesAttributes(entries: map<string, string>, id: string)
    requires "protocolVersion" in entries && "serverName" in entries && "serverVersion" in entries
    ensures var result := InitializeResult(JStr(entries["protocolVersion"]), JStr(entries["serverName"]),
                                          JStr(entries["serverVersion"]));
      && Get(InitializeReply(id, AttributeInfo(entries)).body.value, "result") == Some(result)
      && Get(result, "protocolVersion") == Some(JStr(entries["protocolVersion"]))
      && Get(result, "serverInfo") == Some(JObj([("name", JStr(entries["serverName"])),
                                                 ("version", JStr(entries["serverVersion"]))]))
  {
    InitializeReadsBack(AttributeInfo(entries), id);
  }

  /** The registrar. An import of a class without either annotation does
      nothing either. */
  class McpAutoConfiguration {
    constructor ()
    {
    }

    /** registerBeanDefinitions(metadata, registry): the class is given by
        its name and the attribute maps of its two annotations, null where
        the annotation is absent. @EnableMcpServer takes precedence. */
    method RegisterBeanDefinitions(className: string, enableMcpServer: AttributeMap?, mcpServer: AttributeMap?,
                                   registry: BeanDefinitionRegistry)
      modifies registry, enableMcpServer
      ensures enableMcpServer != null ==>
        && registry.definitions
           == old(registry.definitions)[UserControllerBeanName(className) := BeanDefinition(DynamicControllerClass)]
        && enableMcpServer.entries == old(enableMcpServer.entries)[UserControllerKey := UserControllerBeanName(className)]
      ensures enableMcpServer == null ==> registry.definitions == old(registry.definitions)
    {
      if enableMcpServer != null {
        CreateMcpController(registry, enableMcpServer, className);
      } else if mcpServer != null {
        ConfigureMcpController(mcpServer, className);
      }
    }

    /** createMcpController: records the bean name in the attributes, builds
        a controller from them only to name its class, and registers a
        definition holding that class alone under the name. */
    method CreateMcpController(registry: BeanDefinitionRegistry, attributes: AttributeMap, userControllerClassName: string)
      modifies registry, attributes
      ensures attributes.entries == old(attributes.entries)[UserControllerKey := UserControllerBeanName(userControllerClassName)]
      ensures registry.definitions
           == old(registry.definitions)[UserControllerBeanName(userControllerClassName) := BeanDefinition(DynamicControllerClass)]
    {
      var userControllerBeanName := UserControllerBeanName(userControllerClassName);
      attributes.entries := attributes.entries[UserControllerKey := userControllerBeanName];
      var dynamicMcpController := new DynamicMcpController(attributes);
      registry.RegisterBeanDefinition(userControllerBeanName, BeanDefinition(DynamicControllerClass));
    }

    /** configureMcpController: a class extending McpController needs no
        extra bean. */
    method ConfigureMcpController(attributes: AttributeMap, userControllerClassName: string)
    {
    }
  }
}
