/** McpDemoService: the demo application's hand-written tool table. It lists
    two tools, getWeather and calculate, each with a fixed input schema, and
    answers a call through the handler registered under the tool's name.
    Both handlers catch every exception and report it as an isError
    result. The maps the service builds are HashMaps; their members are
    written here in the order the code puts them. */
module DemoService {
  import opened Wrappers
  import opened Json
  import opened JavaValues
  import opened ResponseSchema

  /** The handler lambdas, named by the tool each serves. */
  datatype ToolHandler = WeatherHandler | CalculatorHandler

  /** Java's double arithmetic, which this model does not describe:
      Double.parseDouble of a text (failing with the message of its
      NumberFormatException), and one of the four operations applied to two
      doubles with the result formatted by "%.2f". */
  datatype DoubleOps<!D> = DoubleOps(parseDouble: string -> Result<D>, formatResult: (string, D, D) -> string)

  // ---------------------------------------------------------------------
  // The tool list
  // ---------------------------------------------------------------------

  /** createWeatherSchema(): one string property, city, which is required. */
  function WeatherSchema(): Json
  {
    JObj([("type", JStr("object")),
          ("properties", JObj([("city", JObj([("type", JStr("string")), ("description", JStr("城市名称"))]))])),
          ("required", JArr([JStr("city")]))])
  }

  /** The operations the calculator's schema offers. */
  const Operations: seq<string> := ["add", "subtract", "multiply", "divide"]

  /** createCalculatorSchema(): two numbers and an operation, all required. */
  function CalculatorSchema(): Json
  {
    JObj([("type", JStr("object")),
          ("properties", JObj([
            ("num1", JObj([("type", JStr("number")), ("description", JStr("第一个数字"))])),
            ("num2", JObj([("type", JStr("number")), ("description", JStr("第二个数字"))])),
            ("operation", JObj([("type", JStr("string")), ("description", JStr("运算类型")),
                                ("enum", JArr(Strings(Operations)))]))])),
          ("required", JArr(Strings(["num1", "num2", "operation"])))])
  }

  /** The tool map of getWeather. */
  function WeatherTool(): Json
  {
    JObj([("name", JStr("getWeather")), ("description", JStr("获取城市天气信息")), ("inputSchema", WeatherSchema())])
  }

  /** The tool map of calculate. */
  function CalculatorTool(): Json
  {
    JObj([("name", JStr("calculate")), ("description", JStr("简单计算器")), ("inputSchema", CalculatorSchema())])
  }

  /** The weather schema requires exactly the city. */
  lemma WeatherSchemaRequires()
    ensures Get(WeatherSchema(), "required") == Some(JArr([JStr("city")]))
  {
    var weather := WeatherSchema().fields;
    assert weather[1..][1..] == [("required", JArr([JStr("city")]))];
    LookupCons(weather, "required");
    LookupCons(weather[1..], "required");
    LookupCons(weather[1..][1..], "required");
  }

  /** The calculator schema requires both numbers and the operation. */
  lemma CalculatorSchemaRequires()
    ensures Get(CalculatorSchema(), "required") == Some(JArr([JStr("num1"), JStr("num2"), JStr("operation")]))
  {
    var calculator := CalculatorSchema().fields;
    var required := Strings(["num1", "num2", "operation"]);
    assert required == [JStr("num1"), JStr("num2"), JStr("operation")];
    assert calculator[1..][1..] == [("required", JArr(required))];
    LookupCons(calculator, "required");
    LookupCons(calculator[1..], "required");
    LookupCons(calculator[1..][1..], "required");
  }

  /** The operation's values are the four operations, in order. */
  lemma CalculatorOperationEnum()
    ensures Get(CalculatorSchema(), "properties").Some?
    ensures var properties := Get(CalculatorSchema(), "properties").value;
      && Get(properties, "operation").Some?
      && Get(Get(properties, "operation").value, "enum")
         == Some(JArr([JStr("add"), JStr("subtract"), JStr("multiply"), JStr("divide")]))
  {
    var calculator := CalculatorSchema().fields;
    LookupCons(calculator, "properties");
    LookupCons(calculator[1..], "properties");
    var properties := calculator[1].1.fields;
    assert properties[1..][1..] == [properties[2]];
    LookupCons(properties, "operation");
    LookupCons(properties[1..], "operation");
    LookupCons(properties[1..][1..], "operation");
    var operation := properties[2].1.fields;
    assert Strings(Operations) == [JStr("add"), JStr("subtract"), JStr("multiply"), JStr("divide")];
    assert operation[1..][1..] == [operation[2]];
    LookupCons(operation, "enum");
    LookupCons(operation[1..], "enum");
    LookupCons(operation[1..][1..], "enum");
  }

  // ---------------------------------------------------------------------
  // The handlers
  // ---------------------------------------------------------------------

  /** The text the weather handler reports for a city. */
  function WeatherText(city: string): string
  {
    city + ": 晴天，温度25℃"
  }

  const EmptyCityText: string := "错误：城市名称不能为空"

  /** The weather handler: a null arguments map fails with a
      NullPointerException and a city that is not a String with a
      ClassCastException, both reported as "查询错误: " and the message; a null
      or empty city is an error; any other city gets its (simulated) weather. */
  function WeatherResult(arguments: Option<seq<(string, Value)>>): Json
  {
    if arguments.None? then Text("查询错误: " + NullMessage, true)
    else
      var city := LookupValue(arguments.value, "city");
      if !(city.VNull? || city.VString?) then
        Text("查询错误: " + ClassCastMessage(ClassName(city), "java.lang.String"), true)
      else if city.VNull? || city.s == [] then Text(EmptyCityText, true)
      else Text(WeatherText(city.s), false)
  }

  /** How the calculator's try block ends: the formatted result, or the
      message of the exception it raised. Every lookup of a missing argument
      and a null operation fail with a NullPointerException, an operation
      that is not a String with a ClassCastException, and an operation other
      than the four with an IllegalArgumentException naming it. */
  function Calculation<D>(arguments: Option<seq<(string, Value)>>, ops: DoubleOps<D>): Result<string>
  {
    if arguments.None? then Thrown(NullMessage)
    else
      var num1 := LookupValue(arguments.value, "num1");
      if num1.VNull? then Thrown(NullMessage)
      else
        match ops.parseDouble(ValueOf(num1))
        case Thrown(m) => Thrown(m)
        case Ok(x) =>
          var num2 := LookupValue(arguments.value, "num2");
          if num2.VNull? then Thrown(NullMessage)
          else
            match ops.parseDouble(ValueOf(num2))
            case Thrown(m) => Thrown(m)
            case Ok(y) =>
              var operation := LookupValue(arguments.value, "operation");
              if operation.VNull? then Thrown(NullMessage)
              else if !operation.VString? then Thrown(ClassCastMessage(ClassName(operation), "java.lang.String"))
              else if operation.s in Operations then Ok("计算结果: " + ops.formatResult(operation.s, x, y))
              else Thrown("不支持的运算：" + operation.s)
  }

  /** The calculator handler: the calculation's text, or "计算错误: " and the
      exception's message as an error. */
  function CalculatorResult<D>(arguments: Option<seq<(string, Value)>>, ops: DoubleOps<D>): Json
  {
    match Calculation(arguments, ops)
    case Ok(text) => Text(text, false)
    case Thrown(m) => Text("计算错误: " + m, true)
  }

  function HandlerResult<D>(handler: ToolHandler, arguments: Option<seq<(string, Value)>>, ops: DoubleOps<D>): Json
  {
    match handler
    case WeatherHandler => WeatherResult(arguments)
    case CalculatorHandler => CalculatorResult(arguments, ops)
  }

  /** callTool(toolName, arguments): the handler's result, or an isError
      result naming an unknown tool. */
  function CallResult<D>(handlers: map<string, ToolHandler>, toolName: string,
                         arguments: Option<seq<(string, Value)>>, ops: DoubleOps<D>): Json
  {
    if toolName !in handlers then Text("Tool not found: " + toolName, true)
    else HandlerResult(handlers[toolName], arguments, ops)
  }

  /** An unknown tool name is answered with an isError result naming it. */
  lemma CallUnknownTool<D>(handlers: map<string, ToolHandler>, toolName: string,
                           arguments: Option<seq<(string, Value)>>, ops: DoubleOps<D>)
    requires toolName !in handlers
    ensures TextOf(CallResult(handlers, toolName, arguments, ops)) == Some("Tool not found: " + toolName)
    ensures IsErrorOf(CallResult(handlers, toolName, arguments, ops)) == Some(true)
  {
    TextReadBack("Tool not found: " + toolName, true);
  }

  /** The weather handler reports an error exactly when there is no city
      string to report on; otherwise it reports the city's weather. */
  lemma WeatherCases(arguments: Option<seq<(string, Value)>>)
    ensures var city := if arguments.Some? then LookupValue(arguments.value, "city") else VNull;
      && (IsErrorOf(WeatherResult(arguments)) == Some(false) <==> city.VString? && city.s != [] && arguments.Some?)
      && (IsErrorOf(WeatherResult(arguments)) == Some(false) ==> TextOf(WeatherResult(arguments)) == Some(WeatherText(city.s)))
      && (arguments.Some? && (city.VNull? || city == VString([])) ==> TextOf(WeatherResult(arguments)) == Some(EmptyCityText))
      && IsErrorOf(WeatherResult(arguments)).Some?
  {
    if arguments.None? {
      TextReadBack("查询错误: " + NullMessage, true);
    } else {
      var city := LookupValue(arguments.value, "city");
      if !(city.VNull? || city.VString?) {
        TextReadBack("查询错误: " + ClassCastMessage(ClassName(city), "java.lang.String"), true);
      } else if city.VNull? || city.s == [] {
        TextReadBack(EmptyCityText, true);
      } else {
        TextReadBack(WeatherText(city.s), false);
      }
    }
  }

  /** The calculator never throws: it always answers with one text item, an
      error exactly when the calculation raised, and an operation other than
      the four is such an error, named in the text. */
  lemma CalculatorCases<D>(arguments: Option<seq<(string, Value)>>, ops: DoubleOps<D>)
    ensures var r := CalculatorResult(arguments, ops);
      && TextOf(r).Some?
      && (IsErrorOf(r) == Some(true) <==> Calculation(arguments, ops).Thrown?)
      && (IsErrorOf(r) == Some(false) <==> Calculation(arguments, ops).Ok?)
    ensures Calculation(arguments, ops).Ok? ==> LookupValue(arguments.value, "operation").s in Operations
    ensures Calculation(arguments, ops).Thrown? ==>
      TextOf(CalculatorResult(arguments, ops)) == Some("计算错误: " + Calculation(arguments, ops).message)
  {
    match Calculation(arguments, ops) {
      case Ok(text) => TextReadBack(text, false);
      case Thrown(m) => TextReadBack("计算错误: " + m, true);
    }
  }

  /** An operation outside the four, with both numbers parsed, is reported
      as an error naming the operation. */
  lemma UnsupportedOperation<D>(arguments: seq<(string, Value)>, ops: DoubleOps<D>, operation: string)
    requires LookupValue(arguments, "operation") == VString(operation) && operation !in Operations
    requires !LookupValue(arguments, "num1").VNull? && ops.parseDouble(ValueOf(LookupValue(arguments, "num1"))).Ok?
    requires !LookupValue(arguments, "num2").VNull? && ops.parseDouble(ValueOf(LookupValue(arguments, "num2"))).Ok?
    ensures IsErrorOf(CalculatorResult(Some(arguments), ops)) == Some(true)
    ensures TextOf(CalculatorResult(Some(arguments), ops)) == Some("计算错误: " + "不支持的运算：" + operation)
  {
    assert Calculation(Some(arguments), ops) == Thrown("不支持的运算：" + operation);
    assert "计算错误: " + ("不支持的运算：" + operation) == "计算错误: " + "不支持的运算：" + operation;
    TextReadBack("计算错误: " + "不支持的运算：" + operation, true);
  }

  // ---------------------------------------------------------------------
  // The service
  // ---------------------------------------------------------------------

  /** The service's tools list: an ArrayList that getTools hands out as is. */
  class ToolList {
    var items: seq<Json>

    constructor ()
      ensures items == []
    {
      items := [];
    }
  }

  /** The name a tool map carries. */
  function ToolName(tool: Json): Option<string>
  {
    match Get(tool, "name")
    case Some(JStr(name)) => Some(name)
    case _ => None
  }

  class McpDemoService {
    const tools: ToolList
    var toolHandlers: map<string, ToolHandler>

    /** Every listed tool names a registered handler. */
    ghost predicate Valid()
      reads this, tools
    {
      forall i | 0 <= i < |tools.items| :: ToolName(tools.items[i]).Some? && ToolName(tools.items[i]).value in toolHandlers
    }

    constructor ()
      ensures Valid() && fresh(tools)
      ensures tools.items == [] && toolHandlers == map[]
    {
      tools := new ToolList();
      toolHandlers := map[];
    }

    /** initialize(): registers getWeather and then calculate. */
    method Initialize()
      requires Valid()
      modifies this, tools
      ensures Valid()
      ensures tools.items == old(tools.items) + [WeatherTool(), CalculatorTool()]
      ensures toolHandlers == old(toolHandlers)["getWeather" := WeatherHandler]["calculate" := CalculatorHandler]
    {
      RegisterWeatherTool();
      RegisterCalculatorTool();
    }

    /** registerWeatherTool(): lists the tool and files its handler under
      the tool's name. */
    method RegisterWeatherTool()
      requires Valid()
      modifies this, tools
      ensures Valid()
      ensures tools.items == old(tools.items) + [WeatherTool()]
      ensures toolHandlers == old(toolHandlers)["getWeather" := WeatherHandler]
    {
      var tool := WeatherTool();
      assert ToolName(tool) == Some("getWeather") by {
        LookupCons(tool.fields, "name");
      }
      tools.items := tools.items + [tool];
      toolHandlers := toolHandlers[ToolName(tool).value := WeatherHandler];
    }

    /** registerCalculatorTool(). */
    method RegisterCalculatorTool()
      requires Valid()
      modifies this, tools
      ensures Valid()
      ensures tools.items == old(tools.items) + [CalculatorTool()]
      ensures toolHandlers == old(toolHandlers)["calculate" := CalculatorHandler]
    {
      var tool := CalculatorTool();
      assert ToolName(tool) == Some("calculate") by {
        LookupCons(tool.fields, "name");
      }
      tools.items := tools.items + [tool];
      toolHandlers := toolHandlers[ToolName(tool).value := CalculatorHandler];
    }

    /** getTools(): the service's own list, not a copy. */
    method GetTools() returns (list: ToolList)
      ensures list == tools
    {
      list := tools;
    }

    /** callTool(toolName, arguments): on a valid service every listed
        tool reaches its handler rather than "Tool not found". */
    method CallTool<D>(toolName: string, arguments: Option<seq<(string, Value)>>, ops: DoubleOps<D>)
      returns (result: Json)
      ensures result == CallResult(toolHandlers, toolName, arguments, ops)
      ensures Valid() && (exists i | 0 <= i < |tools.items| :: ToolName(tools.items[i]) == Some(toolName)) ==>
        toolName in toolHandlers && result == HandlerResult(toolHandlers[toolName], arguments, ops)
    {
      if toolName !in toolHandlers {
        return Text("Tool not found: " + toolName, true);
      }
      var handler := toolHandlers[toolName];
      match handler {
        case WeatherHandler => result := WeatherResult(arguments);
        case CalculatorHandler => result := CalculatorResult(arguments, ops);
      }
    }
  }

  /** A fresh, initialised service lists getWeather then calculate, and a
      call to either listed name reaches a handler. */
  method InitializedService() returns (service: McpDemoService)
    ensures service.Valid()
    ensures service.tools.items == [WeatherTool(), CalculatorTool()]
    ensures service.toolHandlers.Keys == {"getWeather", "calculate"}
  {
    service := new McpDemoService();
    service.Initialize();
  }
}
