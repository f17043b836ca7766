/** McpToolRegistry: the tools by name, the instance each runs on, and the
    call path that never throws: an unknown name and a failing call both come
    back as an isError result. */
module ToolRegistry {
  import opened Wrappers
  import opened Json
  import opened JavaValues
  import opened ToolDefinition
  import opened ResponseSchema

  /** The node getToolsAsJson emits for one tool: name, description, and the
      input schema when the tool has one. */
  function ToolNode(def: ToolDefinition): Json
  {
    JObj([("name", JStr(def.name)), ("description", JStr(def.description))]
         + (if def.inputSchema.Some? then [("inputSchema", def.inputSchema.value)] else []))
  }

  /** A tool node carries its tool's name and description, and an input
      schema exactly when the tool has one. */
  lemma ToolNodeMembers(def: ToolDefinition)
    ensures Get(ToolNode(def), "name") == Some(JStr(def.name))
    ensures Get(ToolNode(def), "description") == Some(JStr(def.description))
    ensures Has(ToolNode(def), "inputSchema") <==> def.inputSchema.Some?
    ensures def.inputSchema.Some? ==> Get(ToolNode(def), "inputSchema") == def.inputSchema
  {
    var f := ToolNode(def).fields;
    LookupCons(f, "name");
    LookupCons(f, "description");
    LookupCons(f, "inputSchema");
    LookupCons(f[1..], "description");
    LookupCons(f[1..], "inputSchema");
    if def.inputSchema.Some? {
      assert f[1..][1..] == [("inputSchema", def.inputSchema.value)];
      LookupCons(f[1..][1..], "inputSchema");
    } else {
      assert f[1..][1..] == [];
    }
  }

  /** order lists every key of keys exactly once. */
  ghost predicate IsEnumeration(order: seq<string>, keys: set<string>)
  {
    && (forall i, j | 0 <= i < j < |order| :: order[i] != order[j])
    && (forall i | 0 <= i < |order| :: order[i] in keys)
    && (forall k | k in keys :: k in order)
  }

  /** Every finite set of names can be listed, in some order. */
  lemma {:induction false} EnumerationExists(keys: set<string>)
    ensures exists order :: IsEnumeration(order, keys)
    decreases |keys|
  {
    if keys == {} {
      assert IsEnumeration([], keys);
    } else {
      var k :| k in keys;
      EnumerationExists(keys - {k});
      var rest :| IsEnumeration(rest, keys - {k});
      assert IsEnumeration(rest + [k], keys);
    }
  }

  /** The nodes of the tools listed in order. */
  function ToolNodes(tools: map<string, ToolDefinition>, order: seq<string>): (nodes: seq<Json>)
    requires forall i | 0 <= i < |order| :: order[i] in tools
    ensures |nodes| == |order|
  {
    seq(|order|, i requires 0 <= i < |order| => ToolNode(tools[order[i]]))
  }

  /** Listed in an enumeration of the registry, the tool nodes are one per
      registered tool, each the node of a registered tool. */
  lemma ToolNodesListRegistry(tools: map<string, ToolDefinition>, order: seq<string>)
    requires IsEnumeration(order, tools.Keys)
    ensures |ToolNodes(tools, order)| == |tools|
    ensures forall name | name in tools :: ToolNode(tools[name]) in ToolNodes(tools, order)
    ensures forall node | node in ToolNodes(tools, order) :: exists name | name in tools :: node == ToolNode(tools[name])
  {
    var nodes := ToolNodes(tools, order);
    EnumerationSize(order, tools.Keys);
    forall name | name in tools
      ensures ToolNode(tools[name]) in nodes
    {
      var i :| 0 <= i < |order| && order[i] == name;
      assert nodes[i] == ToolNode(tools[name]);
    }
    forall node | node in nodes
      ensures exists name | name in tools :: node == ToolNode(tools[name])
    {
      var i :| 0 <= i < |nodes| && nodes[i] == node;
      assert node == ToolNode(tools[order[i]]);
    }
  }

  /** An enumeration of a set has as many entries as the set has members. */
  lemma {:induction false} EnumerationSize(order: seq<string>, keys: set<string>)
    requires IsEnumeration(order, keys)
    ensures |order| == |keys|
    decreases |order|
  {
    if order != [] {
      var last := order[|order| - 1];
      var init := order[..|order| - 1];
      assert forall i | 0 <= i < |init| :: init[i] == order[i];
      forall k | k in keys - {last}
        ensures k in init
      {
        var i :| 0 <= i < |order| && order[i] == k;
        assert i != |order| - 1;
      }
      assert IsEnumeration(init, keys - {last});
      EnumerationSize(init, keys - {last});
    } else {
      assert forall k | k in keys :: k in order;
      assert keys == {};
    }
  }

  /** callTool(toolName, arguments, controllerInstance), as the tree the
      caller serialises. */
  function CallResult(tools: map<string, ToolDefinition>, toolName: string, arguments: seq<(string, Value)>,
                      controller: Option<Instance>, reflect: Reflection): Json
    requires toolName in tools ==> DoubleFree(tools[toolName].toolMethod)
  {
    if toolName !in tools then Text("Tool not found: " + toolName, true)
    else
      match InvokeOutcome(tools[toolName], arguments, controller, reflect)
      case Returned(r) => TreeOf(r)
      case Raised(m) => Text("Error calling tool: " + m, true)
      case ToolThrew(c) => Text("Error calling tool: " + ExceptionMessage(ToolThrew(c)), true)
  }

  /** An unknown name is answered with an isError result naming it. */
  lemma CallUnknownTool(tools: map<string, ToolDefinition>, toolName: string, arguments: seq<(string, Value)>,
                        controller: Option<Instance>, reflect: Reflection)
    requires toolName !in tools
    ensures TextOf(CallResult(tools, toolName, arguments, controller, reflect)) == Some("Tool not found: " + toolName)
    ensures IsErrorOf(CallResult(tools, toolName, arguments, controller, reflect)) == Some(true)
  {
    TextReadBack("Tool not found: " + toolName, true);
  }

  /** A registered tool's call gives back what the tool returned, run on the
      controller instance when one is given. */
  lemma CallKnownTool(tools: map<string, ToolDefinition>, toolName: string, arguments: seq<(string, Value)>,
                      controller: Option<Instance>, reflect: Reflection)
    requires toolName in tools && DoubleFree(tools[toolName].toolMethod)
    requires InvokeOutcome(tools[toolName], arguments, controller, reflect).Returned?
    ensures CallResult(tools, toolName, arguments, controller, reflect)
         == TreeOf(InvokeOutcome(tools[toolName], arguments, controller, reflect).result)
    ensures controller.Some? ==>
      (CallResult(tools, toolName, arguments, controller, reflect)
       == TreeOf(InvokeOutcome(tools[toolName].(instance := controller.value), arguments, None, reflect).result))
  {
    if controller.Some? {
      ControllerReplacesInstance(tools[toolName], arguments, controller.value, reflect);
    }
  }

  /** Any exception out of invoke becomes an isError result with the
      exception's message. An exception thrown by the tool's own code reaches
      the registry wrapped, so its message is lost and "null" is reported. */
  lemma CallFailingTool(tools: map<string, ToolDefinition>, toolName: string, arguments: seq<(string, Value)>,
                        controller: Option<Instance>, reflect: Reflection)
    requires toolName in tools && DoubleFree(tools[toolName].toolMethod)
    requires !InvokeOutcome(tools[toolName], arguments, controller, reflect).Returned?
    ensures IsErrorOf(CallResult(tools, toolName, arguments, controller, reflect)) == Some(true)
    ensures TextOf(CallResult(tools, toolName, arguments, controller, reflect))
         == Some("Error calling tool: " + ExceptionMessage(InvokeOutcome(tools[toolName], arguments, controller, reflect)))
    ensures InvokeOutcome(tools[toolName], arguments, controller, reflect).ToolThrew? ==>
      (TextOf(CallResult(tools, toolName, arguments, controller, reflect)) == Some("Error calling tool: null"))
  {
    var outcome := InvokeOutcome(tools[toolName], arguments, controller, reflect);
    TextReadBack("Error calling tool: " + ExceptionMessage(outcome), true);
    if outcome.ToolThrew? {
      assert ExceptionMessage(outcome) == "null";
      assert "Error calling tool: " + "null" == "Error calling tool: null";
    }
  }

  class ToolRegistry {
    var tools: map<string, ToolDefinition>
    var toolInstances: map<string, Instance>

    /** Both maps have the same keys, each tool is filed under its own name,
        and toolInstances holds each tool's instance. */
    ghost predicate Valid()
      reads this
    {
      && tools.Keys == toolInstances.Keys
      && forall k | k in tools :: tools[k].name == k && toolInstances[k] == tools[k].instance
    }

    constructor ()
      ensures Valid()
      ensures tools == map[] && toolInstances == map[]
    {
      tools := map[];
      toolInstances := map[];
    }

    /** registerTool: files the tool under its name, replacing any earlier
        tool of that name, and changes no other entry. */
    method RegisterTool(name: string, description: string, instance: Instance, toolMethod: MethodRef,
                        inputSchema: Option<Json>)
      requires Valid()
      modifies this
      ensures Valid()
      ensures tools == old(tools)[name := ToolDefinition(name, description, instance, toolMethod, inputSchema)]
      ensures toolInstances == old(toolInstances)[name := instance]
    {
      var tool := ToolDefinition(name, description, instance, toolMethod, inputSchema);
      tools := tools[name := tool];
      toolInstances := toolInstances[name := instance];
    }

    /** callTool(toolName, arguments, controllerInstance); the two-argument
        overload is this with no controller instance. */
    method CallTool(toolName: string, arguments: seq<(string, Value)>, controller: Option<Instance>,
                    reflect: Reflection) returns (result: Json)
      requires toolName in tools ==> DoubleFree(tools[toolName].toolMethod)
      ensures result == CallResult(tools, toolName, arguments, controller, reflect)
    {
      if toolName !in tools {
        return Text("Tool not found: " + toolName, true);
      }
      var tool := tools[toolName];
      var outcome: Outcome;
      if controller.Some? {
        outcome := Invoke(tool, arguments, controller, reflect);
      } else {
        outcome := Invoke(tool, arguments, None, reflect);
      }
      if outcome.Returned? {
        result := TreeOf(outcome.result);
      } else {
        result := Text("Error calling tool: " + ExceptionMessage(outcome), true);
      }
    }

    /** getToolsAsJson: one node per registered tool, in the map's iteration
        order, which is unspecified; order says which one this call used. */
    method GetToolsAsJson() returns (nodes: seq<Json>, ghost order: seq<string>)
      ensures IsEnumeration(order, tools.Keys)
      ensures nodes == ToolNodes(tools, order)
    {
      var remaining := tools.Keys;
      nodes, order := [], [];
      while remaining != {}
        invariant remaining <= tools.Keys
        invariant |nodes| == |order|
        invariant forall i | 0 <= i < |order| :: order[i] in tools && order[i] !in remaining
        invariant forall i | 0 <= i < |order| :: nodes[i] == ToolNode(tools[order[i]])
        invariant forall i, j | 0 <= i < j < |order| :: order[i] != order[j]
        invariant forall k | k in tools.Keys :: k in remaining || k in order
        decreases |remaining|
      {
        var k :| k in remaining;
        nodes := nodes + [ToolNode(tools[k])];
        order := order + [k];
        remaining := remaining - {k};
      }
    }

    /** getTools: a copy of the tools map, which later registrations and
        changes to the copy do not share. */
    method GetTools() returns (copy: map<string, ToolDefinition>)
      ensures copy == tools
    {
      copy := map k | k in tools :: tools[k];
    }
  }
}
