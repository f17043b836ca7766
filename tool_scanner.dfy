/** McpToolScanner: finds the @McpTool methods of the beans whose class is
    annotated @EnableMcpServer or @McpServer, derives each tool's name and
    JSON input schema, and registers them. The application context's beans,
    their classes' annotations and their declared methods are given to the
    scan as data, in the order the context and the class report them. */
module ToolScanner {
  import opened Wrappers
  import opened Json
  import opened JavaText
  import opened JavaValues
  import opened ToolDefinition
  import opened ToolRegistry

  /** @McpParam(name, description, required) on a parameter. */
  datatype ParamAnnotation = McpParam(name: string, description: string, required: bool)

  /** A reflective Parameter: its class, its reflective name ("arg0" unless
      compiled with -parameters) and its @McpParam, if any. */
  datatype Parameter = Parameter(paramType: JavaType, reflectiveName: string, annotation: Option<ParamAnnotation>)

  /** @McpTool(name, description) on a method. */
  datatype ToolAnnotation = McpTool(name: string, description: string)

  datatype DeclaredMethod = DeclaredMethod(name: string, parameters: seq<Parameter>, tool: Option<ToolAnnotation>)

  /** A bean of the application context with its class's annotations. */
  datatype Bean = Bean(instance: Instance, enableMcpServer: bool, mcpServer: bool, methods: seq<DeclaredMethod>)

  function MethodRefOf(m: DeclaredMethod): MethodRef
  {
    MethodRef(m.name, ParamTypes(m.parameters))
  }

  function ParamTypes(ps: seq<Parameter>): (r: seq<JavaType>)
    ensures |r| == |ps|
  {
    if ps == [] then [] else ParamTypes(ps[..|ps| - 1]) + [ps[|ps| - 1].paramType]
  }

  /** The JSON-Schema type createInputSchema gives a parameter class. */
  function SchemaType(t: JavaType): string
  {
    match t
    case StringClass => "string"
    case IntegerClass => "integer"
    case IntType => "integer"
    case LongClass => "integer"
    case LongType => "integer"
    case DoubleClass => "number"
    case DoubleType => "number"
    case BooleanClass => "boolean"
    case BooleanType => "boolean"
    case MapInterface => "object"
    case _ => "string"
  }

  /** The schema type announces what the call path delivers: a parameter
      declared "integer", "boolean" or "string" that converts successfully
      receives an integer, a boolean or a string (for the classes convertValue
      lists; other classes are announced as "string" but passed unchanged). */
  lemma SchemaTypeMatchesConversion(v: Value, t: JavaType)
    requires IsListedTarget(t) && !IsDouble(t)
    requires !v.VNull? && InRange(v) && ConvertValue(v, t).Ok?
    ensures SchemaType(t) == "integer" ==> ConvertValue(v, t).value.VInteger? || ConvertValue(v, t).value.VLong?
    ensures SchemaType(t) == "boolean" ==> ConvertValue(v, t).value.VBool?
    ensures SchemaType(t) == "string" ==> ConvertValue(v, t).value.VString?
  {
  }

  /** The property key: the @McpParam name when non-empty, the reflective
      name otherwise. */
  function PropertyKey(p: Parameter): string
  {
    if p.annotation.Some? && p.annotation.value.name != "" then p.annotation.value.name else p.reflectiveName
  }

  predicate IsRequired(p: Parameter)
  {
    p.annotation.Some? && p.annotation.value.required
  }

  /** A parameter's property: its type, and its description when non-empty. */
  function PropertyNode(p: Parameter): Json
  {
    JObj([("type", JStr(SchemaType(p.paramType)))]
         + (if p.annotation.Some? && p.annotation.value.description != ""
            then [("description", JStr(p.annotation.value.description))] else []))
  }

  /** A property states the parameter's schema type, and a description
      exactly when the @McpParam gives a non-empty one, and nothing else. */
  lemma PropertyNodeMembers(p: Parameter)
    ensures Get(PropertyNode(p), "type") == Some(JStr(SchemaType(p.paramType)))
    ensures Has(PropertyNode(p), "description") <==> p.annotation.Some? && p.annotation.value.description != ""
    ensures Has(PropertyNode(p), "description") ==> Get(PropertyNode(p), "description") == Some(JStr(p.annotation.value.description))
    ensures forall k | k != "type" && k != "description" :: !Has(PropertyNode(p), k)
  {
  }

  /** The properties map after the first |ps| parameters. */
  function Properties(ps: seq<Parameter>): Fields
  {
    if ps == [] then [] else Put(Properties(ps[..|ps| - 1]), PropertyKey(ps[|ps| - 1]), PropertyNode(ps[|ps| - 1]))
  }

  /** The required list after the first |ps| parameters. */
  function RequiredNames(ps: seq<Parameter>): seq<string>
  {
    if ps == [] then []
    else RequiredNames(ps[..|ps| - 1]) + (if IsRequired(ps[|ps| - 1]) then [PropertyKey(ps[|ps| - 1])] else [])
  }

  function InputSchemaOf(ps: seq<Parameter>): Json
  {
    JObj([("type", JStr("object")), ("properties", JObj(Properties(ps))),
          ("required", JArr(Strings(RequiredNames(ps))))])
  }

  /** The part of createInputSchema's loop that reads one parameter: its
      property key, its property node and whether it is required. */
  method DescribeParameter(param: Parameter) returns (paramName: string, prop: Json, required: bool)
    ensures paramName == PropertyKey(param)
    ensures prop == PropertyNode(param)
    ensures required == IsRequired(param)
  {
    var fields: Fields := [("type", JStr(SchemaType(param.paramType)))];
    paramName := param.reflectiveName;
    required := false;
    if param.annotation.Some? {
      var annotation := param.annotation.value;
      if annotation.name != "" {
        paramName := annotation.name;
      }
      if annotation.description != "" {
        assert "description" !in Keys(fields) by {
          assert |"description"| != |"type"|;
        }
        fields := Put(fields, "description", JStr(annotation.description));
      }
      required := annotation.required;
    }
    prop := JObj(fields);
  }

  /** Properties and RequiredNames after one more parameter. */
  lemma SchemaStep(ps: seq<Parameter>, i: nat)
    requires i < |ps|
    ensures Properties(ps[..i + 1]) == Put(Properties(ps[..i]), PropertyKey(ps[i]), PropertyNode(ps[i]))
    ensures RequiredNames(ps[..i + 1]) == RequiredNames(ps[..i]) + (if IsRequired(ps[i]) then [PropertyKey(ps[i])] else [])
  {
    assert ps[..i + 1][..i] == ps[..i];
  }

  /** createInputSchema(method). */
  method CreateInputSchema(parameters: seq<Parameter>) returns (schema: Json)
    ensures schema == InputSchemaOf(parameters)
  {
    var properties: Fields := [];
    var requiredList: seq<string> := [];
    var i := 0;
    while i < |parameters|
      invariant 0 <= i <= |parameters|
      invariant properties == Properties(parameters[..i])
      invariant requiredList == RequiredNames(parameters[..i])
    {
      var paramName, prop, required := DescribeParameter(parameters[i]);
      properties := Put(properties, paramName, prop);
      if required {
        requiredList := requiredList + [paramName];
      }
      SchemaStep(parameters, i);
      i := i + 1;
    }
    assert parameters[..i] == parameters;
    schema := JObj([("type", JStr("object")), ("properties", JObj(properties)),
                    ("required", JArr(Strings(requiredList)))]);
  }

  /** Every parameter has a property under its key, and no other key exists. */
  lemma {:induction false} PropertiesKeys(ps: seq<Parameter>)
    ensures forall k :: k in Keys(Properties(ps)) <==> exists i | 0 <= i < |ps| :: PropertyKey(ps[i]) == k
  {
    if ps != [] {
      var n := |ps| - 1;
      var init := ps[..n];
      PropertiesKeys(init);
      assert forall i | 0 <= i < n :: init[i] == ps[i];
      KeysOneMore(ps, Keys(Properties(init)), Keys(Properties(ps)));
    }
  }

  /** The key set grows by the last parameter's key. */
  lemma KeysOneMore(ps: seq<Parameter>, before: set<string>, after: set<string>)
    requires ps != [] && after == before + {PropertyKey(ps[|ps| - 1])}
    requires forall k :: k in before <==> exists i | 0 <= i < |ps| - 1 :: PropertyKey(ps[i]) == k
    ensures forall k :: k in after <==> exists i | 0 <= i < |ps| :: PropertyKey(ps[i]) == k
  {
    forall k | exists i | 0 <= i < |ps| :: PropertyKey(ps[i]) == k
      ensures k in after
    {
      var i :| 0 <= i < |ps| && PropertyKey(ps[i]) == k;
      if i < |ps| - 1 {
        assert k in before;
      }
    }
  }

  /** The property under a key describes the last parameter with that key: a
      later parameter with the same key overwrites an earlier one. */
  lemma {:induction false} PropertiesLastWins(ps: seq<Parameter>, i: nat)
    requires i < |ps|
    requires forall j | i < j < |ps| :: PropertyKey(ps[j]) != PropertyKey(ps[i])
    ensures Lookup(Properties(ps), PropertyKey(ps[i])) == Some(PropertyNode(ps[i]))
  {
    if i < |ps| - 1 {
      var init := ps[..|ps| - 1];
      assert init[i] == ps[i];
      forall j | i < j < |init| ensures PropertyKey(init[j]) != PropertyKey(init[i]) {
        assert init[j] == ps[j];
      }
      PropertiesLastWins(init, i);
    }
  }

  /** The positions of the required parameters, in increasing order. */
  function RequiredPositions(ps: seq<Parameter>): (r: seq<nat>)
    ensures forall j | 0 <= j < |r| :: r[j] < |ps|
  {
    if ps == [] then []
    else RequiredPositions(ps[..|ps| - 1]) + (if IsRequired(ps[|ps| - 1]) then [|ps| - 1] else [])
  }

  /** The required list names the parameters at the required positions, one
      entry per position. */
  lemma {:induction false} RequiredNamesAlign(ps: seq<Parameter>)
    ensures |RequiredNames(ps)| == |RequiredPositions(ps)|
    ensures forall j | 0 <= j < |RequiredPositions(ps)| ::
      RequiredNames(ps)[j] == PropertyKey(ps[RequiredPositions(ps)[j]])
  {
    if ps != [] {
      var init := ps[..|ps| - 1];
      RequiredNamesAlign(init);
      var p0, n0 := RequiredPositions(init), RequiredNames(init);
      var p, n := RequiredPositions(ps), RequiredNames(ps);
      forall j | 0 <= j < |p|
        ensures n[j] == PropertyKey(ps[p[j]])
      {
        if j < |p0| {
          assert p[j] == p0[j] && n[j] == n0[j];
          assert init[p0[j]] == ps[p0[j]];
        }
      }
    }
  }

  /** The required positions increase: the list keeps declaration order. */
  lemma {:induction false} RequiredPositionsIncreasing(ps: seq<Parameter>)
    ensures forall j, k | 0 <= j < k < |RequiredPositions(ps)| :: RequiredPositions(ps)[j] < RequiredPositions(ps)[k]
  {
    if ps != [] {
      var init := ps[..|ps| - 1];
      RequiredPositionsIncreasing(init);
      var p0, p := RequiredPositions(init), RequiredPositions(ps);
      forall j, k | 0 <= j < k < |p|
        ensures p[j] < p[k]
      {
        assert p[j] == p0[j];
        if k < |p0| {
          assert p[k] == p0[k];
        }
      }
    }
  }

  /** A position is listed exactly when its parameter is required. */
  lemma {:induction false} RequiredPositionsExact(ps: seq<Parameter>)
    ensures forall i | 0 <= i < |ps| :: (i in RequiredPositions(ps) <==> IsRequired(ps[i]))
  {
    if ps != [] {
      var init := ps[..|ps| - 1];
      RequiredPositionsExact(init);
      var p0, p := RequiredPositions(init), RequiredPositions(ps);
      forall i | 0 <= i < |ps|
        ensures i in p <==> IsRequired(ps[i])
      {
        if i < |init| {
          assert init[i] == ps[i];
          assert i != |ps| - 1;
          assert (i in p) == (i in p0);
        }
      }
    }
  }

  /** With no required parameter the required list is empty. */
  lemma {:induction false} RequiredNamesEmpty(ps: seq<Parameter>)
    requires forall i | 0 <= i < |ps| :: !IsRequired(ps[i])
    ensures RequiredNames(ps) == []
  {
    if ps != [] {
      RequiredNamesEmpty(ps[..|ps| - 1]);
    }
  }

  /** The schema always has type "object", a properties map and a required
      list, the last empty when no parameter is required. */
  lemma InputSchemaShape(ps: seq<Parameter>)
    ensures Get(InputSchemaOf(ps), "type") == Some(JStr("object"))
    ensures Get(InputSchemaOf(ps), "properties") == Some(JObj(Properties(ps)))
    ensures Get(InputSchemaOf(ps), "required") == Some(JArr(Strings(RequiredNames(ps))))
    ensures (forall i | 0 <= i < |ps| :: !IsRequired(ps[i])) ==> Get(InputSchemaOf(ps), "required") == Some(JArr([]))
  {
    var f := InputSchemaOf(ps).fields;
    var rest := [("properties", JObj(Properties(ps))), ("required", JArr(Strings(RequiredNames(ps))))];
    assert f == [("type", JStr("object"))] + rest;
    assert "properties" != "type" && "required" != "type" && "required" != "properties";
    LookupCons(f, "type");
    LookupCons(f, "properties");
    LookupCons(f, "required");
    assert f[1..] == rest;
    LookupCons(rest, "properties");
    LookupCons(rest, "required");
    assert rest[1..] == [("required", JArr(Strings(RequiredNames(ps))))];
    LookupCons(rest[1..], "required");
    if forall i | 0 <= i < |ps| :: !IsRequired(ps[i]) {
      RequiredNamesEmpty(ps);
    }
  }

  /** The tool name: the annotation's name unless it is blank after trimming,
      in which case the method's name. */
  function ToolName(methodName: string, tool: ToolAnnotation): (name: string)
    ensures name == tool.name || name == methodName
    ensures Trim(name) == [] ==> name == methodName
    ensures Trim(tool.name) != [] ==> name == tool.name
  {
    if Trim(tool.name) == [] then methodName else tool.name
  }

  /** One registerTool call: the bean's instance, the method and its
      @McpTool annotation, from which the name, description, method handle and
      input schema are derived. */
  datatype Registration = Registration(instance: Instance, declared: DeclaredMethod, tool: ToolAnnotation)

  function NameOf(r: Registration): string
  {
    ToolName(r.declared.name, r.tool)
  }

  /** The definition registerTool files for a registration. */
  function DefinitionOf(r: Registration): ToolDefinition
  {
    ToolDefinition(NameOf(r), r.tool.description, r.instance, MethodRefOf(r.declared),
                   Some(InputSchemaOf(r.declared.parameters)))
  }

  predicate IsServerBean(b: Bean)
  {
    b.enableMcpServer || b.mcpServer
  }

  /** Method m of bean b is a tool and r is its registration. */
  predicate Declares(b: Bean, m: DeclaredMethod, r: Registration)
  {
    m.tool.Some? && r == Registration(b.instance, m, m.tool.value)
  }

  /** The registrations of the methods ms of bean b, in order. */
  function MethodRegistrations(b: Bean, ms: seq<DeclaredMethod>): seq<Registration>
  {
    if ms == [] then []
    else MethodRegistrations(b, ms[..|ms| - 1])
         + (if ms[|ms| - 1].tool.Some? then [Registration(b.instance, ms[|ms| - 1], ms[|ms| - 1].tool.value)] else [])
  }

  /** The registrations of a whole scan, bean by bean. */
  function Registrations(beans: seq<Bean>): seq<Registration>
  {
    if beans == [] then []
    else Registrations(beans[..|beans| - 1])
         + (if IsServerBean(beans[|beans| - 1]) then MethodRegistrations(beans[|beans| - 1], beans[|beans| - 1].methods) else [])
  }

  /** The tools map after the registrations, in order. */
  function Registered(tools: map<string, ToolDefinition>, regs: seq<Registration>): map<string, ToolDefinition>
  {
    if regs == [] then tools
    else Registered(tools, regs[..|regs| - 1])[NameOf(regs[|regs| - 1]) := DefinitionOf(regs[|regs| - 1])]
  }

  lemma {:induction false} MethodRegistrationsExact(b: Bean, ms: seq<DeclaredMethod>, r: Registration)
    ensures r in MethodRegistrations(b, ms) <==> exists j | 0 <= j < |ms| :: Declares(b, ms[j], r)
  {
    if ms != [] {
      var init := ms[..|ms| - 1];
      MethodRegistrationsExact(b, init, r);
      if r in MethodRegistrations(b, ms) && r !in MethodRegistrations(b, init) {
        assert Declares(b, ms[|ms| - 1], r);
      }
      if r in MethodRegistrations(b, init) {
        var j :| 0 <= j < |init| && Declares(b, init[j], r);
        assert ms[j] == init[j];
      }
      if exists j | 0 <= j < |ms| :: Declares(b, ms[j], r) {
        var j :| 0 <= j < |ms| && Declares(b, ms[j], r);
        if j < |init| {
          assert Declares(b, init[j], r);
        }
      }
    }
  }

  /** Bean i's method j is a tool of a server bean, with registration r. */
  predicate Discovers(beans: seq<Bean>, i: int, j: int, r: Registration)
  {
    0 <= i < |beans| && 0 <= j < |beans[i].methods|
    && IsServerBean(beans[i]) && Declares(beans[i], beans[i].methods[j], r)
  }

  /** A scan registers exactly the @McpTool methods of the beans annotated
      @EnableMcpServer or @McpServer. */
  lemma {:induction false} RegistrationsExact(beans: seq<Bean>, r: Registration)
    ensures r in Registrations(beans) <==> exists i, j :: Discovers(beans, i, j, r)
  {
    if beans != [] {
      var init := beans[..|beans| - 1];
      var last := beans[|beans| - 1];
      RegistrationsExact(init, r);
      MethodRegistrationsExact(last, last.methods, r);
      var tail := if IsServerBean(last) then MethodRegistrations(last, last.methods) else [];
      assert Registrations(beans) == Registrations(init) + tail;
      if r in Registrations(init) {
        var i, j :| Discovers(init, i, j, r);
        assert init[i] == beans[i];
        assert Discovers(beans, i, j, r);
      } else if r in tail {
        var j :| 0 <= j < |last.methods| && Declares(last, last.methods[j], r);
        assert Discovers(beans, |beans| - 1, j, r);
      }
      if exists i, j :: Discovers(beans, i, j, r) {
        var i, j :| Discovers(beans, i, j, r);
        if i < |init| {
          assert init[i] == beans[i];
          assert Discovers(init, i, j, r);
        } else {
          assert beans[i] == last;
          assert r in tail;
        }
      }
    }
  }

  /** Registrations of one more bean. */
  lemma RegistrationsStep(beans: seq<Bean>, b: nat)
    requires b < |beans|
    ensures Registrations(beans[..b + 1])
         == Registrations(beans[..b]) + (if IsServerBean(beans[b]) then MethodRegistrations(beans[b], beans[b].methods) else [])
  {
    assert beans[..b + 1][..b] == beans[..b];
  }

  /** Registering one more declared method: its tool when it is annotated,
      nothing otherwise. */
  lemma RegisteredMethodStep(start: map<string, ToolDefinition>, bean: Bean, ms: seq<DeclaredMethod>, m: nat)
    requires m < |ms|
    ensures ms[m].tool.Some? ==>
      var r := Registration(bean.instance, ms[m], ms[m].tool.value);
      Registered(start, MethodRegistrations(bean, ms[..m + 1]))
      == Registered(start, MethodRegistrations(bean, ms[..m]))[NameOf(r) := DefinitionOf(r)]
    ensures ms[m].tool.None? ==>
      Registered(start, MethodRegistrations(bean, ms[..m + 1])) == Registered(start, MethodRegistrations(bean, ms[..m]))
  {
    var before := MethodRegistrations(bean, ms[..m]);
    assert ms[..m + 1][..m] == ms[..m];
    if ms[m].tool.Some? {
      var r := Registration(bean.instance, ms[m], ms[m].tool.value);
      assert MethodRegistrations(bean, ms[..m + 1]) == before + [r];
      assert (before + [r])[..|before|] == before;
      RegisteredLast(start, before + [r]);
    } else {
      assert MethodRegistrations(bean, ms[..m + 1]) == before;
    }
  }

  /** Registering the tools of one more bean: its methods' registrations
      when it is a server bean, nothing otherwise. */
  lemma RegisteredBeanStep(start: map<string, ToolDefinition>, beans: seq<Bean>, b: nat)
    requires b < |beans|
    ensures Registered(start, Registrations(beans[..b + 1]))
         == if IsServerBean(beans[b])
            then Registered(Registered(start, Registrations(beans[..b])), MethodRegistrations(beans[b], beans[b].methods))
            else Registered(start, Registrations(beans[..b]))
  {
    RegistrationsStep(beans, b);
    if IsServerBean(beans[b]) {
      RegisteredAppend(start, Registrations(beans[..b]), MethodRegistrations(beans[b], beans[b].methods));
    } else {
      assert Registrations(beans[..b + 1]) == Registrations(beans[..b]);
    }
  }

  /** Registered unfolded once. */
  lemma RegisteredLast(tools: map<string, ToolDefinition>, regs: seq<Registration>)
    requires regs != []
    ensures Registered(tools, regs)
         == Registered(tools, regs[..|regs| - 1])[NameOf(regs[|regs| - 1]) := DefinitionOf(regs[|regs| - 1])]
  {
  }

  /** Registering two runs of tools is registering them one after the other. */
  lemma {:induction false} RegisteredAppend(tools: map<string, ToolDefinition>, first: seq<Registration>,
                                            second: seq<Registration>)
    ensures Registered(tools, first + second) == Registered(Registered(tools, first), second)
  {
    if second != [] {
      var init := second[..|second| - 1];
      var last := second[|second| - 1];
      var all := first + second;
      RegisteredAppend(tools, first, init);
      assert all[..|all| - 1] == first + init;
      assert all[|all| - 1] == last;
      RegisteredLast(tools, all);
      RegisteredLast(Registered(tools, first), second);
    } else {
      assert first + second == first;
    }
  }

  /** A name no registration uses keeps its old definition, or stays absent. */
  lemma {:induction false} RegisteredUntouched(tools: map<string, ToolDefinition>, regs: seq<Registration>, name: string)
    requires forall i | 0 <= i < |regs| :: NameOf(regs[i]) != name
    ensures name in Registered(tools, regs) <==> name in tools
    ensures name in tools ==> Registered(tools, regs)[name] == tools[name]
  {
    if regs != [] {
      var init := regs[..|regs| - 1];
      assert forall i | 0 <= i < |init| :: init[i] == regs[i];
      RegisteredUntouched(tools, init, name);
    }
  }

  /** A registered name maps to its last registration: a later tool of the
      same name replaces an earlier one. */
  lemma {:induction false} RegisteredLastWins(tools: map<string, ToolDefinition>, regs: seq<Registration>, i: nat)
    requires i < |regs|
    requires forall j | i < j < |regs| :: NameOf(regs[j]) != NameOf(regs[i])
    ensures NameOf(regs[i]) in Registered(tools, regs)
    ensures Registered(tools, regs)[NameOf(regs[i])] == DefinitionOf(regs[i])
  {
    if i < |regs| - 1 {
      var init := regs[..|regs| - 1];
      assert init[i] == regs[i];
      forall j | i < j < |init|
        ensures NameOf(init[j]) != NameOf(init[i])
      {
        assert init[j] == regs[j];
      }
      RegisteredLastWins(tools, init, i);
    }
  }

  class ToolScanner {
    var toolRegistry: ToolRegistry?

    constructor ()
      ensures toolRegistry == null
    {
      toolRegistry := null;
    }

    method SetToolRegistry(registry: ToolRegistry)
      modifies this
      ensures toolRegistry == registry
    {
      toolRegistry := registry;
    }

    /** The body of the scan for one @McpTool method: resolve the name, build
        the schema and register the tool. */
    static method RegisterMethod(registry: ToolRegistry, instance: Instance, declared: DeclaredMethod,
                                 toolAnnotation: ToolAnnotation)
      requires registry.Valid()
      modifies registry
      ensures registry.Valid()
      ensures var r := Registration(instance, declared, toolAnnotation);
        registry.tools == old(registry.tools)[NameOf(r) := DefinitionOf(r)]
    {
      var toolName := toolAnnotation.name;
      if Trim(toolName) == [] {
        toolName := declared.name;
      }
      var inputSchema := CreateInputSchema(declared.parameters);
      registry.RegisterTool(toolName, toolAnnotation.description, instance, MethodRefOf(declared), Some(inputSchema));
    }

    /** The scan of one server bean: its @McpTool methods in declaration
        order. */
    static method ScanBean(registry: ToolRegistry, bean: Bean)
      requires registry.Valid()
      modifies registry
      ensures registry.Valid()
      ensures registry.tools == Registered(old(registry.tools), MethodRegistrations(bean, bean.methods))
    {
      ghost var start := registry.tools;
      var methods := bean.methods;
      var m := 0;
      while m < |methods|
        invariant 0 <= m <= |methods|
        invariant registry.Valid()
        invariant registry.tools == Registered(start, MethodRegistrations(bean, methods[..m]))
      {
        var declared := methods[m];
        RegisteredMethodStep(start, bean, methods, m);
        if declared.tool.Some? {
          RegisterMethod(registry, bean.instance, declared, declared.tool.value);
        }
        m := m + 1;
      }
      assert methods[..m] == methods;
    }

    /** The loop of scanAndRegisterTools: every bean in the context, in
        order; only server beans contribute tools. */
    static method ScanBeans(registry: ToolRegistry, beans: seq<Bean>)
      requires registry.Valid()
      modifies registry
      ensures registry.Valid()
      ensures registry.tools == Registered(old(registry.tools), Registrations(beans))
    {
      ghost var start := registry.tools;
      var b := 0;
      assert Registrations(beans[..b]) == [];
      while b < |beans|
        invariant 0 <= b <= |beans|
        invariant registry.Valid()
        invariant registry.tools == Registered(start, Registrations(beans[..b]))
      {
        var bean := beans[b];
        RegisteredBeanStep(start, beans, b);
        if bean.enableMcpServer || bean.mcpServer {
          ScanBean(registry, bean);
        }
        b := b + 1;
      }
      assert beans[..b] == beans;
    }

    /** scanAndRegisterTools(): refuses to run without a registry, and
        otherwise registers every discovered tool in scan order. */
    method ScanAndRegisterTools(beans: seq<Bean>) returns (failure: Option<string>)
      requires toolRegistry != null ==> toolRegistry.Valid()
      modifies toolRegistry
      ensures toolRegistry == null ==> failure == Some("McpToolRegistry must be set before scanning")
      ensures toolRegistry != null ==>
        && failure == None
        && toolRegistry.Valid()
        && toolRegistry.tools == Registered(old(toolRegistry.tools), Registrations(beans))
    {
      if toolRegistry == null {
        return Some("McpToolRegistry must be set before scanning");
      }
      ScanBeans(toolRegistry, beans);
      return None;
    }
  }
}
