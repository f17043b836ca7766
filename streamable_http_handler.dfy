/** McpStreamableHttpHandler: the endpoint handler created for each
    @McpServerEndpoint bean. It describes its functions itself (every
    parameter is a string in its schema), binds a call's arguments to the
    method's parameters by their @McpParam names, and catches everything:
    a request it cannot handle is answered 500 with no body. */
module StreamableHttpHandler {
  import opened Wrappers
  import opened Json
  import opened JavaText
  import opened JavaValues
  import opened ResponseSchema
  import opened Rpc

  /** McpFunctionInfo.ParamInfo: the parameter's @McpParam name, its
      description (possibly null), its enum values (possibly null) and
      whether it is required. The parameter's class is never read here. */
  datatype ParamInfo = ParamInfo(name: string, description: Option<string>, enums: Option<seq<string>>,
                                 required: bool)

  /** McpFunctionInfo: the function's name and description, the method it
      calls, and its parameter infos, a list that may be null and whose
      entries may be null. */
  datatype FunctionInfo = FunctionInfo(name: string, description: Option<string>, toolMethod: MethodRef,
                                       params: Option<seq<Option<ParamInfo>>>)

  // ---------------------------------------------------------------------
  // tools/list
  // ---------------------------------------------------------------------

  /** The node describing one parameter: always of type "string", with its
      description, and with its enum values when it has at least one. */
  function PropertyNode(p: ParamInfo): Json
  {
    JObj([("type", JStr("string")), ("description", TextOrNull(p.description))]
         + (if p.enums.Some? && p.enums.value != [] then [("enum", JArr(Strings(p.enums.value)))] else []))
  }

  /** The properties object after the parameters so far: a null entry is
      skipped, and a parameter whose name is already there replaces the
      earlier node in its place. */
  function Properties(params: seq<Option<ParamInfo>>): Fields
  {
    if params == [] then []
    else
      var earlier := Properties(params[..|params| - 1]);
      var last := params[|params| - 1];
      if last.Some? then Put(earlier, last.value.name, PropertyNode(last.value)) else earlier
  }

  /** The names of the required parameters, in declaration order. */
  function RequiredNames(params: seq<Option<ParamInfo>>): seq<string>
  {
    if params == [] then []
    else
      var earlier := RequiredNames(params[..|params| - 1]);
      var last := params[|params| - 1];
      if last.Some? && last.value.required then earlier + [last.value.name] else earlier
  }

  /** The input schema of a non-empty parameter list: type "object", the
      properties, and the required names when there are any. */
  function InputSchema(params: seq<Option<ParamInfo>>): Json
  {
    var required := RequiredNames(params);
    JObj([("type", JStr("object")), ("properties", JObj(Properties(params)))]
         + (if required != [] then [("required", JArr(Strings(required)))] else []))
  }

  /** The node of one function: name, description, and an input schema
      exactly when its parameter list is neither null nor empty. */
  function ToolNode(f: FunctionInfo): Json
  {
    JObj([("name", JStr(f.name)), ("description", TextOrNull(f.description))]
         + (if f.params.Some? && f.params.value != [] then [("inputSchema", InputSchema(f.params.value))] else []))
  }

  /** One node per function, in list order. */
  function ToolNodes(infos: seq<FunctionInfo>): (nodes: seq<Json>)
    ensures |nodes| == |infos| && forall i | 0 <= i < |infos| :: nodes[i] == ToolNode(infos[i])
  {
    seq(|infos|, i requires 0 <= i < |infos| => ToolNode(infos[i]))
  }

  /** handleListTools(id). */
  function ListToolsReply(id: string, infos: seq<FunctionInfo>): HttpResponse
  {
    HttpResponse(StatusOk, Some(ResultEnvelope(id, JObj([("tools", JArr(ToolNodes(infos)))]))))
  }

  /** A parameter's node: type "string", its description, and its enum
      values, in order, exactly when it has some. */
  lemma PropertyNodeMembers(p: ParamInfo)
    ensures Get(PropertyNode(p), "type") == Some(JStr("string"))
    ensures Get(PropertyNode(p), "description") == Some(TextOrNull(p.description))
    ensures Has(PropertyNode(p), "enum") <==> p.enums.Some? && p.enums.value != []
    ensures Has(PropertyNode(p), "enum") ==> Get(PropertyNode(p), "enum") == Some(JArr(Strings(p.enums.value)))
  {
    var f := PropertyNode(p).fields;
    LookupCons(f, "type");
    LookupCons(f, "description");
    LookupCons(f, "enum");
    LookupCons(f[1..], "description");
    LookupCons(f[1..], "enum");
    if p.enums.Some? && p.enums.value != [] {
      assert f[1..][1..] == [("enum", JArr(Strings(p.enums.value)))];
      LookupCons(f[1..][1..], "enum");
    } else {
      assert f[1..][1..] == [];
    }
  }

  /** The properties are keyed by the names of the non-null parameters. */
  /** The key set grows by the last parameter's name, if it has one. */
  lemma KeysOneMore(params: seq<Option<ParamInfo>>, before: set<string>, added: set<string>, after: set<string>)
    requires params != [] && after == before + added
    requires added == if params[|params| - 1].Some? then {params[|params| - 1].value.name} else {}
    requires forall k :: k in before <==> exists i | 0 <= i < |params| - 1 :: params[i].Some? && params[i].value.name == k
    ensures forall k :: k in after <==> exists i | 0 <= i < |params| :: params[i].Some? && params[i].value.name == k
  {
    forall k | exists i | 0 <= i < |params| :: params[i].Some? && params[i].value.name == k
      ensures k in after
    {
      var i :| 0 <= i < |params| && params[i].Some? && params[i].value.name == k;
      if i < |params| - 1 {
        assert k in before;
      }
    }
  }

  lemma {:induction false} PropertiesKeys(params: seq<Option<ParamInfo>>)
    ensures forall k :: k in Keys(Properties(params)) <==>
      exists i | 0 <= i < |params| :: params[i].Some? && params[i].value.name == k
  {
    if params != [] {
      var n := |params| - 1;
      var init := params[..n];
      PropertiesKeys(init);
      var added: set<string> := if params[n].Some? then {params[n].value.name} else {};
      assert Keys(Properties(params)) == Keys(Properties(init)) + added;
      assert forall i | 0 <= i < n :: init[i] == params[i];
      KeysOneMore(params, Keys(Properties(init)), added, Keys(Properties(params)));
    }
  }

  /** Each key of the properties holds the node of the last parameter of
      that name. */
  lemma {:induction false} PropertiesLastWins(params: seq<Option<ParamInfo>>)
    ensures forall k | k in Keys(Properties(params)) :: exists i | 0 <= i < |params| ::
      && params[i].Some? && params[i].value.name == k
      && Lookup(Properties(params), k) == Some(PropertyNode(params[i].value))
      && forall j | i < j < |params| :: params[j].None? || params[j].value.name != k
  {
    if params != [] {
      var n := |params| - 1;
      var init := params[..n];
      PropertiesLastWins(init);
      var props := Properties(params);
      forall k | k in Keys(props)
        ensures exists i | 0 <= i < |params| ::
          && params[i].Some? && params[i].value.name == k
          && Lookup(props, k) == Some(PropertyNode(params[i].value))
          && forall j | i < j < |params| :: params[j].None? || params[j].value.name != k
      {
        if params[n].Some? && params[n].value.name == k {
          assert Lookup(props, k) == Some(PropertyNode(params[n].value));
        } else {
          assert k in Keys(Properties(init));
          var i :| 0 <= i < n
            && init[i].Some? && init[i].value.name == k
            && Lookup(Properties(init), k) == Some(PropertyNode(init[i].value))
            && forall j | i < j < n :: init[j].None? || init[j].value.name != k;
          assert params[i] == init[i];
          assert Lookup(props, k) == Lookup(Properties(init), k);
          assert forall j | i < j < n :: params[j] == init[j];
        }
      }
    }
  }

  /** Every property of a schema says type "string". */
  lemma PropertiesAreStrings(params: seq<Option<ParamInfo>>, k: string)
    requires k in Keys(Properties(params))
    ensures Get(Lookup(Properties(params), k).value, "type") == Some(JStr("string"))
  {
    PropertiesKeys(params);
    PropertiesLastWins(params);
    var i :| 0 <= i < |params| && params[i].Some? && params[i].value.name == k
      && Lookup(Properties(params), k) == Some(PropertyNode(params[i].value));
    PropertyNodeMembers(params[i].value);
  }

  /** The required names of a list are those of its parts, in order. */
  lemma {:induction false} RequiredNamesAppend(a: seq<Option<ParamInfo>>, b: seq<Option<ParamInfo>>)
    ensures RequiredNames(a + b) == RequiredNames(a) + RequiredNames(b)
  {
    if b != [] {
      var n := |b| - 1;
      assert (a + b)[..|a + b| - 1] == a + b[..n];
      RequiredNamesAppend(a, b[..n]);
    } else {
      assert a + b == a;
    }
  }

  /** A name is listed as required exactly when a non-null parameter of that
      name is required. */
  lemma {:induction false} RequiredNamesExact(params: seq<Option<ParamInfo>>)
    ensures forall x :: x in RequiredNames(params) <==>
      exists i | 0 <= i < |params| :: params[i].Some? && params[i].value.required && params[i].value.name == x
  {
    if params != [] {
      var n := |params| - 1;
      var init := params[..n];
      RequiredNamesExact(init);
      forall x
        ensures x in RequiredNames(params) <==>
          exists i | 0 <= i < |params| :: params[i].Some? && params[i].value.required && params[i].value.name == x
      {
        if exists i | 0 <= i < |params| :: params[i].Some? && params[i].value.required && params[i].value.name == x {
          var i :| 0 <= i < |params| && params[i].Some? && params[i].value.required && params[i].value.name == x;
          if i < n {
            assert init[i] == params[i];
          }
        }
        if x in RequiredNames(init) {
          var i :| 0 <= i < n && init[i].Some? && init[i].value.required && init[i].value.name == x;
          assert params[i] == init[i];
        }
      }
    }
  }

  /** The input schema: type "object", the properties, and a required list
      exactly when some parameter is required. */
  lemma InputSchemaMembers(params: seq<Option<ParamInfo>>)
    ensures Get(InputSchema(params), "type") == Some(JStr("object"))
    ensures Get(InputSchema(params), "properties") == Some(JObj(Properties(params)))
    ensures Has(InputSchema(params), "required") <==> RequiredNames(params) != []
    ensures Has(InputSchema(params), "required") ==>
      Get(InputSchema(params), "required") == Some(JArr(Strings(RequiredNames(params))))
  {
    var f := InputSchema(params).fields;
    LookupCons(f, "type");
    LookupCons(f, "properties");
    LookupCons(f, "required");
    LookupCons(f[1..], "properties");
    LookupCons(f[1..], "required");
    if RequiredNames(params) != [] {
      assert f[1..][1..] == [("required", JArr(Strings(RequiredNames(params))))];
      LookupCons(f[1..][1..], "required");
    } else {
      assert f[1..][1..] == [];
    }
  }

  /** A function's node: its name and description, and an input schema
      exactly when it has a non-empty parameter list. */
  lemma ToolNodeMembers(f: FunctionInfo)
    ensures Get(ToolNode(f), "name") == Some(JStr(f.name))
    ensures Get(ToolNode(f), "description") == Some(TextOrNull(f.description))
    ensures Has(ToolNode(f), "inputSchema") <==> f.params.Some? && f.params.value != []
    ensures Has(ToolNode(f), "inputSchema") ==> Get(ToolNode(f), "inputSchema") == Some(InputSchema(f.params.value))
  {
    var fields := ToolNode(f).fields;
    LookupCons(fields, "name");
    LookupCons(fields, "description");
    LookupCons(fields, "inputSchema");
    LookupCons(fields[1..], "description");
    LookupCons(fields[1..], "inputSchema");
    if f.params.Some? && f.params.value != [] {
      assert fields[1..][1..] == [("inputSchema", InputSchema(f.params.value))];
      LookupCons(fields[1..][1..], "inputSchema");
    } else {
      assert fields[1..][1..] == [];
    }
  }

  // ---------------------------------------------------------------------
  // tools/call
  // ---------------------------------------------------------------------

  /** The first function of the list whose name equals the tool name; a
      null tool name equals none. */
  function FirstNamed(infos: seq<FunctionInfo>, toolName: Option<string>): (found: Option<FunctionInfo>)
    ensures found.Some? ==> exists i | 0 <= i < |infos| ::
      && infos[i] == found.value && toolName == Some(infos[i].name)
      && forall j | 0 <= j < i :: toolName != Some(infos[j].name)
    ensures found.None? ==> forall i | 0 <= i < |infos| :: toolName != Some(infos[i].name)
  {
    if infos == [] then None
    else if toolName == Some(infos[0].name) then Some(infos[0])
    else
      var found := FirstNamed(infos[1..], toolName);
      assert forall i | 1 <= i < |infos| :: infos[i] == infos[1..][i - 1];
      assert found.Some? ==> exists i | 1 <= i < |infos| ::
        && infos[i] == found.value && toolName == Some(infos[i].name)
        && forall j | 0 <= j < i :: toolName != Some(infos[j].name) by {
        if found.Some? {
          var i :| 0 <= i < |infos[1..]| && infos[1..][i] == found.value && toolName == Some(infos[1..][i].name)
            && forall j | 0 <= j < i :: toolName != Some(infos[1..][j].name);
          assert infos[i + 1] == found.value;
          assert forall j | 0 <= j < i + 1 :: toolName != Some(infos[j].name) by {
            forall j | 0 <= j < i + 1
              ensures toolName != Some(infos[j].name)
            {
              if j > 0 {
                assert infos[j] == infos[1..][j - 1];
              }
            }
          }
        }
      }
      found
  }

  /** How binding the arguments to the method's parameters ends: every
      parameter bound; a required parameter missing, which is answered with
      -32602; or an exception with its message. */
  datatype Binding = Bound(args: seq<Value>) | MissingRequired(name: string) | BindingFailed(message: string)

  /** The message of ArrayList.get's IndexOutOfBoundsException. */
  function IndexMessage(index: int, size: int): string
  {
    "Index: " + DecimalString(index) + ", Size: " + DecimalString(size)
  }

  /** The value parameter i receives: the text of the argument under its
      name, or null when the argument is absent. */
  function ArgumentFor(arguments: Option<Fields>, p: ParamInfo): Value
  {
    if arguments.Some? && p.name in Keys(arguments.value) then VString(AsText(Lookup(arguments.value, p.name).value))
    else VNull
  }

  /** Binding the first n parameters. Parameter i reads parameter info i,
      which throws when the info list is null, shorter than the method's
      parameter list, or holds null there. */
  function BindPrefix(arguments: Option<Fields>, params: Option<seq<Option<ParamInfo>>>, n: nat): Binding
  {
    if n == 0 then Bound([])
    else
      var earlier := BindPrefix(arguments, params, n - 1);
      var i := n - 1;
      if !earlier.Bound? then earlier
      else if params.None? then BindingFailed(NullMessage)
      else if i >= |params.value| then BindingFailed(IndexMessage(i, |params.value|))
      else if params.value[i].None? then BindingFailed(NullMessage)
      else
        var p := params.value[i].value;
        if ArgumentFor(arguments, p).VNull? && p.required then MissingRequired(p.name)
        else Bound(earlier.args + [ArgumentFor(arguments, p)])
  }

  /** Once binding stops, later parameters do not change the outcome. */
  lemma {:induction false} BindingStops(arguments: Option<Fields>, params: Option<seq<Option<ParamInfo>>>, k: nat, n: nat)
    requires k <= n && !BindPrefix(arguments, params, k).Bound?
    ensures BindPrefix(arguments, params, n) == BindPrefix(arguments, params, k)
    decreases n
  {
    if n > k {
      BindingStops(arguments, params, k, n - 1);
    }
  }

  /** Every parameter is bound exactly when the method has none, or there
      are parameter infos for all of them, none null, and each required one
      has its argument; then
      parameter i holds the text of its argument, or null. */
  lemma {:induction false} BindingSucceeds(arguments: Option<Fields>, params: Option<seq<Option<ParamInfo>>>, n: nat)
    ensures BindPrefix(arguments, params, n).Bound? <==>
      || n == 0
      || (&& params.Some? && n <= |params.value|
          && forall i | 0 <= i < n :: params.value[i].Some?
               && (params.value[i].value.required ==> !ArgumentFor(arguments, params.value[i].value).VNull?))
    ensures BindPrefix(arguments, params, n).Bound? ==>
      var args := BindPrefix(arguments, params, n).args;
      |args| == n && forall i | 0 <= i < n :: args[i] == ArgumentFor(arguments, params.value[i].value)
  {
    if n > 0 {
      BindingSucceeds(arguments, params, n - 1);
      var earlier := BindPrefix(arguments, params, n - 1);
      if BindPrefix(arguments, params, n).Bound? {
        assert earlier.Bound?;
        var p := params.value[n - 1].value;
        assert BindPrefix(arguments, params, n).args == earlier.args + [ArgumentFor(arguments, p)];
      } else if params.Some? && n <= |params.value| {
        if earlier.Bound? {
          assert !(params.value[n - 1].Some?
                   && (params.value[n - 1].value.required ==> !ArgumentFor(arguments, params.value[n - 1].value).VNull?));
        }
      }
    }
  }

  /** A missing required argument is reported under the name of the first
      parameter that lacks one, and every parameter before it is bound. */
  lemma {:induction false} BindingMissing(arguments: Option<Fields>, params: Option<seq<Option<ParamInfo>>>, n: nat)
    requires BindPrefix(arguments, params, n).MissingRequired?
    ensures exists i | 0 <= i < n ::
      && params.Some? && i < |params.value| && params.value[i].Some?
      && params.value[i].value.required && params.value[i].value.name == BindPrefix(arguments, params, n).name
      && ArgumentFor(arguments, params.value[i].value).VNull?
      && BindPrefix(arguments, params, i).Bound?
  {
    if BindPrefix(arguments, params, n - 1).MissingRequired? {
      BindingMissing(arguments, params, n - 1);
    }
  }

  /** When there are fewer parameter infos than method parameters and all of
      them bind, the first parameter beyond them throws
      IndexOutOfBoundsException. */
  lemma TooFewParamInfos(arguments: Option<Fields>, params: seq<Option<ParamInfo>>, n: nat)
    requires |params| < n
    requires BindPrefix(arguments, Some(params), |params|).Bound?
    ensures BindPrefix(arguments, Some(params), n) == BindingFailed(IndexMessage(|params|, |params|))
  {
    BindingStops(arguments, Some(params), |params| + 1, n);
  }

  /** What handleCallTool reads from params: the tool name, null when params
      or its name is missing, and the arguments object, null when absent;
      None when the arguments member is not an object, where the cast to
      ObjectNode throws. */
  function CallRequest(request: Json): Option<(Option<string>, Option<Fields>)>
  {
    match Get(request, "params")
    case None => Some((None, None))
    case Some(params) =>
      match Get(params, "name")
      case None => Some((None, None))
      case Some(name) =>
        match Get(params, "arguments")
        case None => Some((Some(AsText(name)), None))
        case Some(JObj(fields)) => Some((Some(AsText(name)), Some(fields)))
        case Some(_) => None
  }

  /** The tool name as string concatenation writes it. */
  function NameText(toolName: Option<string>): string
  {
    if toolName.Some? then toolName.value else NullMessage
  }

  /** The text a successful call reports: the result's toString(), or the
      empty string for a null result. */
  function ResultText(r: JavaResult): Result<string>
  {
    if r.NullResult? then Ok("") else r.text
  }

  /** The result member of a call whose text was read. */
  function ContentResult(text: string): Json
  {
    JObj([("content", JArr([TextItem(text)]))])
  }

  function NotFoundMessage(toolName: Option<string>): string
  {
    "找不到指定的工具: " + NameText(toolName)
  }

  function MissingMessage(name: string): string
  {
    "缺少必需参数: " + name
  }

  function FailureMessage(toolName: Option<string>, message: string): string
  {
    "工具 " + NameText(toolName) + " 执行时发生异常" + message
  }

  /** The body handleCallTool answers with, once it has the tool name and
      arguments: not found (-32601) without a matching function or a target
      bean; a missing required argument (-32602); a failure while binding or
      invoking (-32603); otherwise the result's text as the one content item.
      The result member is put before toString() runs, so a toString that
      throws leaves an empty result beside the -32603 error. */
  function CallToolBody(id: string, toolName: Option<string>, arguments: Option<Fields>, infos: seq<FunctionInfo>,
                        targetBean: Option<Instance>, reflect: Reflection): Json
  {
    var target := FirstNamed(infos, toolName);
    if target.None? || targetBean.None? then ErrorEnvelope(id, MethodNotFound, NotFoundMessage(toolName))
    else
      var f := target.value;
      match BindPrefix(arguments, f.params, |f.toolMethod.paramTypes|)
      case MissingRequired(name) => ErrorEnvelope(id, InvalidParams, MissingMessage(name))
      case BindingFailed(message) => ErrorEnvelope(id, InternalError, FailureMessage(toolName, message))
      case Bound(args) =>
        var outcome := reflect(f.toolMethod, targetBean.value, args);
        if !outcome.Returned? then ErrorEnvelope(id, InternalError, FailureMessage(toolName, ExceptionMessage(outcome)))
        else
          match ResultText(outcome.result)
          case Ok(text) => ResultEnvelope(id, ContentResult(text))
          case Thrown(m) => ResultThenErrorEnvelope(id, JObj([]), InternalError, FailureMessage(toolName, m))
  }

  /** handleCallTool(request): a 200 reply, or an exception when the
      arguments member is not an object. */
  function CallToolReply(id: string, request: Json, infos: seq<FunctionInfo>, targetBean: Option<Instance>,
                         reflect: Reflection): Handled
  {
    match CallRequest(request)
    case None => Escaped
    case Some((toolName, arguments)) =>
      Answered(HttpResponse(StatusOk, Some(CallToolBody(id, toolName, arguments, infos, targetBean, reflect))))
  }

  /** Without a function of that name, or without a target bean, the call
      is answered with error -32601 naming the tool, and nothing is invoked. */
  lemma CallToolNotFound(id: string, toolName: Option<string>, arguments: Option<Fields>, infos: seq<FunctionInfo>,
                         targetBean: Option<Instance>, reflect: Reflection)
    requires targetBean.None? || forall i | 0 <= i < |infos| :: toolName != Some(infos[i].name)
    ensures var body := CallToolBody(id, toolName, arguments, infos, targetBean, reflect);
      && IsEnvelopeFor(body, id) && !Has(body, "result")
      && ErrorCode(body) == Some(MethodNotFound) && ErrorMessage(body) == Some(NotFoundMessage(toolName))
  {
    ErrorEnvelopeReadsBack(id, MethodNotFound, NotFoundMessage(toolName));
  }

  /** A required parameter without its argument is answered with error
      -32602 naming it: the parameter is required, its argument is absent,
      and the method is not invoked, so there is no result. */
  lemma CallToolMissingArgument(id: string, toolName: Option<string>, arguments: Option<Fields>,
                                infos: seq<FunctionInfo>, targetBean: Option<Instance>, reflect: Reflection)
    requires targetBean.Some? && FirstNamed(infos, toolName).Some?
    requires var f := FirstNamed(infos, toolName).value;
      BindPrefix(arguments, f.params, |f.toolMethod.paramTypes|).MissingRequired?
    ensures var f := FirstNamed(infos, toolName).value;
      var name := BindPrefix(arguments, f.params, |f.toolMethod.paramTypes|).name;
      var body := CallToolBody(id, toolName, arguments, infos, targetBean, reflect);
      && IsEnvelopeFor(body, id) && !Has(body, "result")
      && ErrorCode(body) == Some(InvalidParams) && ErrorMessage(body) == Some(MissingMessage(name))
      && exists i | 0 <= i < |f.toolMethod.paramTypes| ::
           && f.params.Some? && i < |f.params.value| && f.params.value[i].Some?
           && f.params.value[i].value.required && f.params.value[i].value.name == name
           && (arguments.None? || name !in Keys(arguments.value))
  {
    var f := FirstNamed(infos, toolName).value;
    var n := |f.toolMethod.paramTypes|;
    var name := BindPrefix(arguments, f.params, n).name;
    ErrorEnvelopeReadsBack(id, InvalidParams, MissingMessage(name));
    BindingMissing(arguments, f.params, n);
  }

  /** With every parameter bound, the method runs on the target bean with
      the bound arguments: its result's text is the single content item, and
      an exception is answered with -32603 naming the tool and carrying the
      exception's message. An exception from the result's toString comes
      after the result member was put: the reply then carries an empty
      result and the -32603 error side by side. */
  lemma CallToolInvoked(id: string, toolName: Option<string>, arguments: Option<Fields>, infos: seq<FunctionInfo>,
                        targetBean: Option<Instance>, reflect: Reflection)
    requires targetBean.Some? && FirstNamed(infos, toolName).Some?
    requires var f := FirstNamed(infos, toolName).value;
      BindPrefix(arguments, f.params, |f.toolMethod.paramTypes|).Bound?
    ensures var f := FirstNamed(infos, toolName).value;
      var args := BindPrefix(arguments, f.params, |f.toolMethod.paramTypes|).args;
      var outcome := reflect(f.toolMethod, targetBean.value, args);
      var body := CallToolBody(id, toolName, arguments, infos, targetBean, reflect);
      && toolName == Some(f.name)
      && (outcome.Returned? && ResultText(outcome.result).Ok? ==>
            && IsEnvelopeFor(body, id)
            && Get(body, "result") == Some(ContentResult(ResultText(outcome.result).value)))
      && (outcome.Returned? && ResultText(outcome.result).Thrown? ==>
            && Get(body, "id") == Some(JStr(id)) && !IsEnvelopeFor(body, id)
            && Get(body, "result") == Some(JObj([]))
            && ErrorCode(body) == Some(InternalError)
            && ErrorMessage(body) == Some("工具 " + f.name + " 执行时发生异常" + ResultText(outcome.result).message))
      && (!outcome.Returned? ==>
            && IsEnvelopeFor(body, id) && !Has(body, "result")
            && ErrorCode(body) == Some(InternalError)
            && ErrorMessage(body) == Some("工具 " + f.name + " 执行时发生异常" + ExceptionMessage(outcome)))
  {
    var f := FirstNamed(infos, toolName).value;
    var args := BindPrefix(arguments, f.params, |f.toolMethod.paramTypes|).args;
    var outcome := reflect(f.toolMethod, targetBean.value, args);
    if outcome.Returned? {
      match ResultText(outcome.result) {
        case Ok(text) => ResultEnvelopeReadsBack(id, ContentResult(text));
        case Thrown(m) => ResultThenErrorReadsBack(id, JObj([]), InternalError, FailureMessage(toolName, m));
      }
    } else {
      ErrorEnvelopeReadsBack(id, InternalError, FailureMessage(toolName, ExceptionMessage(outcome)));
    }
  }

  // ---------------------------------------------------------------------
  // handlePost
  // ---------------------------------------------------------------------

  /** handleInitialize(id): the fixed protocol version, empty capabilities,
      and the handler's name and version. */
  function InitializeReply(id: string, name: Option<string>, version: Option<string>): HttpResponse
  {
    HttpResponse(StatusOk, Some(ResultEnvelope(id, InitializeResult(JStr(ProtocolVersion), TextOrNull(name),
                                                                    TextOrNull(version)))))
  }

  /** handlePing(id). */
  function PingReply(id: string): HttpResponse
  {
    HttpResponse(StatusOk, Some(ResultEnvelope(id, JObj([]))))
  }

  function UnsupportedMessage(methodName: string): string
  {
    "本服务器不支持 " + methodName + " 方法"
  }

  /** handleUnsupportedMethod(id, method). */
  function UnsupportedReply(id: string, methodName: string): HttpResponse
  {
    HttpResponse(StatusBadRequest, Some(ErrorEnvelope(id, MethodNotFound, UnsupportedMessage(methodName))))
  }

  /** The reply to an exception anywhere in handlePost. */
  const ServerError: HttpResponse := HttpResponse(StatusServerError, None)

  /** handlePost(body) of a handler with the given fields. The body is read
      as an ObjectNode: the JSON null gives no node and is a notification,
      any other non-object fails like malformed text. */
  function PostReply(name: Option<string>, version: Option<string>, infos: seq<FunctionInfo>,
                     targetBean: Option<Instance>, body: RequestBody, reflect: Reflection): HttpResponse
  {
    match body
    case Malformed => ServerError
    case Parsed(JNull) => HttpResponse(StatusAccepted, None)
    case Parsed(JObj(fields)) =>
      var request := JObj(fields);
      if !Has(request, "id") then HttpResponse(StatusAccepted, None)
      else
        var id := IdText(request);
        (match Get(request, "method")
         case None => ServerError
         case Some(m) =>
           var methodName := AsText(m);
           if methodName == "initialize" then InitializeReply(id, name, version)
           else if methodName == "tools/list" then ListToolsReply(id, infos)
           else if methodName == "tools/call" then
             (match CallToolReply(id, request, infos, targetBean, reflect)
              case Answered(response) => response
              case Escaped => ServerError)
           else if methodName == "ping" then PingReply(id)
           else UnsupportedReply(id, methodName))
    case Parsed(_) => ServerError
  }

  /** The request a body parses to, when it parses to an object. */
  function RequestOf(body: RequestBody): Option<Json>
  {
    if body.Parsed? && body.tree.JObj? then Some(body.tree) else None
  }

  /** A body that parses to null, or to an object without an id, is a
      notification: 202 and no body, whatever its method. Nothing else is. */
  lemma NotificationAccepted(name: Option<string>, version: Option<string>, infos: seq<FunctionInfo>,
                             targetBean: Option<Instance>, body: RequestBody, reflect: Reflection)
    ensures PostReply(name, version, infos, targetBean, body, reflect) == HttpResponse(StatusAccepted, None)
      <==> body == Parsed(JNull) || (RequestOf(body).Some? && !Has(RequestOf(body).value, "id"))
  {
  }

  /** handlePost answers every request: a 500 with no body exactly when the
      body does not parse to an object or null, a request with an id has no
      method, or a tools/call's arguments are not an object. */
  lemma ServerErrorCases(name: Option<string>, version: Option<string>, infos: seq<FunctionInfo>,
                         targetBean: Option<Instance>, body: RequestBody, reflect: Reflection)
    ensures var reply := PostReply(name, version, infos, targetBean, body, reflect);
      && (reply.status == StatusServerError <==>
            || body.Malformed?
            || (body.Parsed? && !body.tree.JObj? && !body.tree.JNull?)
            || (RequestOf(body).Some? && Has(RequestOf(body).value, "id") && !Has(RequestOf(body).value, "method"))
            || (RequestOf(body).Some? && Has(RequestOf(body).value, "id") && Has(RequestOf(body).value, "method")
                && AsText(Get(RequestOf(body).value, "method").value) == "tools/call"
                && CallRequest(RequestOf(body).value).None?))
      && (reply.status == StatusServerError ==> reply.body.None?)
  {
    if RequestOf(body).Some? && Has(RequestOf(body).value, "id") && Has(RequestOf(body).value, "method") {
      var request := RequestOf(body).value;
      var id := IdText(request);
      var methodName := AsText(Get(request, "method").value);
      if methodName == "tools/call" {
        match CallRequest(request) {
          case None =>
          case Some((toolName, arguments)) =>
            assert PostReply(name, version, infos, targetBean, body, reflect).status == StatusOk;
        }
      } else if methodName == "initialize" {
        assert PostReply(name, version, infos, targetBean, body, reflect) == InitializeReply(id, name, version);
      } else if methodName == "tools/list" {
        assert PostReply(name, version, infos, targetBean, body, reflect) == ListToolsReply(id, infos);
      } else if methodName == "ping" {
        assert PostReply(name, version, infos, targetBean, body, reflect) == PingReply(id);
      } else {
        assert PostReply(name, version, infos, targetBean, body, reflect) == UnsupportedReply(id, methodName);
      }
    }
  }

  /** A method other than the four is answered 400 with error -32601 and a
      message naming it. */
  lemma UnsupportedMethodRejected(name: Option<string>, version: Option<string>, infos: seq<FunctionInfo>,
                                  targetBean: Option<Instance>, request: Json, reflect: Reflection)
    requires request.JObj? && Has(request, "id") && Has(request, "method")
    requires AsText(Get(request, "method").value) !in {"initialize", "tools/list", "tools/call", "ping"}
    ensures var reply := PostReply(name, version, infos, targetBean, Parsed(request), reflect);
      var methodName := AsText(Get(request, "method").value);
      && reply.status == StatusBadRequest
      && IsEnvelopeFor(reply.body.value, IdText(request))
      && ErrorCode(reply.body.value) == Some(MethodNotFound)
      && ErrorMessage(reply.body.value) == Some(UnsupportedMessage(methodName))
  {
    ErrorEnvelopeReadsBack(IdText(request), MethodNotFound, UnsupportedMessage(AsText(Get(request, "method").value)));
  }

  /** initialize, tools/list and ping are answered 200 with a result
      envelope for the request's id: initialize reports the protocol version,
      empty capabilities and the handler's name and version, tools/list one
      node per function in list order, and ping an empty object. */
  lemma KnownMethodResults(name: Option<string>, version: Option<string>, infos: seq<FunctionInfo>,
                           targetBean: Option<Instance>, request: Json, reflect: Reflection)
    requires request.JObj? && Has(request, "id") && Has(request, "method")
    requires AsText(Get(request, "method").value) in {"initialize", "tools/list", "ping"}
    ensures var reply := PostReply(name, version, infos, targetBean, Parsed(request), reflect);
      var methodName := AsText(Get(request, "method").value);
      && reply.status == StatusOk
      && IsEnvelopeFor(reply.body.value, IdText(request))
      && ErrorCode(reply.body.value) == None
      && (methodName == "initialize" ==>
            Get(reply.body.value, "result")
            == Some(InitializeResult(JStr(ProtocolVersion), TextOrNull(name), TextOrNull(version))))
      && (methodName == "tools/list" ==>
            Get(reply.body.value, "result") == Some(JObj([("tools", JArr(ToolNodes(infos)))])))
      && (methodName == "ping" ==> Get(reply.body.value, "result") == Some(JObj([])))
  {
    var id := IdText(request);
    var methodName := AsText(Get(request, "method").value);
    if methodName == "initialize" {
      assert PostReply(name, version, infos, targetBean, Parsed(request), reflect) == InitializeReply(id, name, version);
      ResultEnvelopeReadsBack(id, InitializeResult(JStr(ProtocolVersion), TextOrNull(name), TextOrNull(version)));
    } else if methodName == "tools/list" {
      assert PostReply(name, version, infos, targetBean, Parsed(request), reflect) == ListToolsReply(id, infos);
      ResultEnvelopeReadsBack(id, JObj([("tools", JArr(ToolNodes(infos)))]));
    } else {
      assert PostReply(name, version, infos, targetBean, Parsed(request), reflect) == PingReply(id);
      ResultEnvelopeReadsBack(id, JObj([]));
    }
  }

  /** A tools/call whose arguments are an object or absent is answered 200
      with the call's envelope, whichever way the call ends. */
  lemma CallAnsweredOk(name: Option<string>, version: Option<string>, infos: seq<FunctionInfo>,
                       targetBean: Option<Instance>, request: Json, reflect: Reflection)
    requires request.JObj? && Has(request, "id") && Has(request, "method")
    requires AsText(Get(request, "method").value) == "tools/call"
    requires CallRequest(request).Some?
    ensures var reply := PostReply(name, version, infos, targetBean, Parsed(request), reflect);
      var (toolName, arguments) := CallRequest(request).value;
      && reply.status == StatusOk
      && reply.body == Some(CallToolBody(IdText(request), toolName, arguments, infos, targetBean, reflect))
  {
  }

  // ---------------------------------------------------------------------
  // The handler object
  // ---------------------------------------------------------------------

  /** The handler's state: the server name and version it reports, the
      functions it serves and the bean it calls them on. */
  class McpStreamableHttpHandler {
    var name: Option<string>
    var version: Option<string>
    var functionInfos: seq<FunctionInfo>
    var targetBean: Option<Instance>

    /** A handler as its auto-registry leaves it after setting its fields. */
    constructor (name: Option<string>, version: Option<string>, functionInfos: seq<FunctionInfo>,
                 targetBean: Option<Instance>)
      ensures this.name == name && this.version == version
      ensures this.functionInfos == functionInfos && this.targetBean == targetBean
    {
      this.name := name;
      this.version := version;
      this.functionInfos := functionInfos;
      this.targetBean := targetBean;
    }

    /** handlePost(body). */
    method HandlePost(body: RequestBody, reflect: Reflection) returns (response: HttpResponse)
      ensures response == PostReply(name, version, functionInfos, targetBean, body, reflect)
    {
      if body.Malformed? || !(body.tree.JObj? || body.tree.JNull?) {
        return ServerError;
      }
      var request := body.tree;
      if request.JNull? || !Has(request, "id") {
        return HttpResponse(StatusAccepted, None);
      }
      var id := AsText(Get(request, "id").value);
      var methodNode := Get(request, "method");
      if methodNode.None? {
        return ServerError;
      }
      var methodName := AsText(methodNode.value);
      if methodName == "initialize" {
        response := InitializeReply(id, name, version);
      } else if methodName == "tools/list" {
        response := HandleListTools(id);
      } else if methodName == "tools/call" {
        var handled := HandleCallTool(id, request, reflect);
        response := if handled.Answered? then handled.response else ServerError;
      } else if methodName == "ping" {
        response := PingReply(id);
      } else {
        response := UnsupportedReply(id, methodName);
      }
    }

    /** handleListTools(id): one node per function info, in list order. */
    method HandleListTools(id: string) returns (response: HttpResponse)
      ensures response == ListToolsReply(id, functionInfos)
    {
      var tools: seq<Json> := [];
      var i := 0;
      while i < |functionInfos|
        invariant 0 <= i <= |functionInfos|
        invariant |tools| == i && forall j | 0 <= j < i :: tools[j] == ToolNode(functionInfos[j])
      {
        var node := DescribeFunction(functionInfos[i]);
        tools := tools + [node];
        i := i + 1;
      }
      assert tools == ToolNodes(functionInfos);
      response := HttpResponse(StatusOk, Some(ResultEnvelope(id, JObj([("tools", JArr(tools))]))));
    }

    /** handleCallTool(request): finds the function, binds the arguments
      into the argument array and invokes the method on the target bean. */
    method HandleCallTool(id: string, request: Json, reflect: Reflection) returns (handled: Handled)
      ensures handled == CallToolReply(id, request, functionInfos, targetBean, reflect)
    {
      var call := CallRequest(request);
      if call.None? {
        return Escaped;
      }
      var (toolName, arguments) := call.value;
      var target := FindFunction(toolName);
      if target.None? || targetBean.None? {
        return Answered(HttpResponse(StatusOk, Some(ErrorEnvelope(id, MethodNotFound, NotFoundMessage(toolName)))));
      }
      var f := target.value;
      var binding := BindArguments(arguments, f.params, |f.toolMethod.paramTypes|);
      var body: Json;
      match binding {
        case MissingRequired(missing) =>
          body := ErrorEnvelope(id, InvalidParams, MissingMessage(missing));
        case BindingFailed(message) =>
          body := ErrorEnvelope(id, InternalError, FailureMessage(toolName, message));
        case Bound(args) =>
          var outcome := reflect(f.toolMethod, targetBean.value, args);
          if outcome.Returned? {
            match ResultText(outcome.result) {
              case Ok(text) =>
                body := ResultEnvelope(id, ContentResult(text));
              case Thrown(m) =>
                body := ResultThenErrorEnvelope(id, JObj([]), InternalError, FailureMessage(toolName, m));
            }
          } else {
            body := ErrorEnvelope(id, InternalError, FailureMessage(toolName, ExceptionMessage(outcome)));
          }
      }
      handled := Answered(HttpResponse(StatusOk, Some(body)));
    }

    /** The search loop of handleCallTool: the first function of that name. */
    method FindFunction(toolName: Option<string>) returns (found: Option<FunctionInfo>)
      ensures found == FirstNamed(functionInfos, toolName)
    {
      var i := 0;
      while i < |functionInfos|
        invariant 0 <= i <= |functionInfos|
        invariant FirstNamed(functionInfos, toolName) == FirstNamed(functionInfos[i..], toolName)
      {
        if toolName == Some(functionInfos[i].name) {
          return Some(functionInfos[i]);
        }
        assert functionInfos[i..][1..] == functionInfos[i + 1..];
        i := i + 1;
      }
      return None;
    }
  }

  /** One function's node, as the loop body of handleListTools builds it. */
  method DescribeFunction(f: FunctionInfo) returns (node: Json)
    ensures node == ToolNode(f)
  {
    var fields := [("name", JStr(f.name)), ("description", TextOrNull(f.description))];
    if f.params.Some? && f.params.value != [] {
      var schema := BuildInputSchema(f.params.value);
      fields := fields + [("inputSchema", schema)];
    }
    node := JObj(fields);
  }

  /** The input schema loop of handleListTools: properties put one parameter
      at a time, required names collected in order. */
  method BuildInputSchema(params: seq<Option<ParamInfo>>) returns (schema: Json)
    ensures schema == InputSchema(params)
  {
    var properties: Fields := [];
    var required: seq<string> := [];
    var i := 0;
    while i < |params|
      invariant 0 <= i <= |params|
      invariant properties == Properties(params[..i])
      invariant required == RequiredNames(params[..i])
    {
      assert params[..i + 1][..i] == params[..i];
      if params[i].Some? {
        var p := params[i].value;
        var node := DescribeParameter(p);
        properties := Put(properties, p.name, node);
        if p.required {
          required := required + [p.name];
        }
      }
      i := i + 1;
    }
    assert params[..i] == params;
    var fields := [("type", JStr("object")), ("properties", JObj(properties))];
    if required != [] {
      fields := fields + [("required", JArr(Strings(required)))];
    }
    schema := JObj(fields);
  }

  /** One parameter's property node; the enum values are appended one at a
      time. */
  method DescribeParameter(p: ParamInfo) returns (node: Json)
    ensures node == PropertyNode(p)
  {
    var fields := [("type", JStr("string")), ("description", TextOrNull(p.description))];
    if p.enums.Some? {
      var values: seq<Json> := [];
      var i := 0;
      while i < |p.enums.value|
        invariant 0 <= i <= |p.enums.value|
        invariant values == Strings(p.enums.value[..i])
      {
        values := values + [JStr(p.enums.value[i])];
        i := i + 1;
      }
      assert p.enums.value[..i] == p.enums.value;
      if values != [] {
        fields := fields + [("enum", JArr(values))];
      }
    }
    node := JObj(fields);
  }

  /** The argument-array loop of handleCallTool: parameter i gets the text of
      its argument or stays null, and the loop stops at the first missing
      required argument or the first exception. */
  method BindArguments(arguments: Option<Fields>, params: Option<seq<Option<ParamInfo>>>, arity: nat)
    returns (binding: Binding)
    ensures binding == BindPrefix(arguments, params, arity)
  {
    var args := new Value[arity](_ => VNull);
    var i := 0;
    while i < arity
      invariant 0 <= i <= arity
      invariant BindPrefix(arguments, params, i) == Bound(args[..i])
      invariant forall j | i <= j < arity :: args[j] == VNull
    {
      var stop: Option<Binding> := None;
      if params.None? {
        stop := Some(BindingFailed(NullMessage));
      } else if i >= |params.value| {
        stop := Some(BindingFailed(IndexMessage(i, |params.value|)));
      } else if params.value[i].None? {
        stop := Some(BindingFailed(NullMessage));
      } else {
        var p := params.value[i].value;
        if arguments.Some? && p.name in Keys(arguments.value) {
          args[i] := VString(AsText(Lookup(arguments.value, p.name).value));
        } else if p.required {
          stop := Some(MissingRequired(p.name));
        }
      }
      if stop.Some? {
        assert BindPrefix(arguments, params, i + 1) == stop.value;
        BindingStops(arguments, params, i + 1, arity);
        return stop.value;
      }
      assert args[..i + 1] == args[..i] + [args[i]];
      i := i + 1;
    }
    assert args[..arity] == args[..];
    return Bound(args[..]);
  }
}
