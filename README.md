# Streamable HTTP MCP server, modelled in Dafny

This project models the core of a Spring Boot starter and a demo application. Together they serve the Model Context Protocol (MCP, protocol revision "2024-11-05") over HTTP POST as JSON-RPC 2.0. Dafny proves properties of the model.

A client posts one JSON-RPC request. A dispatcher reads it and answers in one of these ways:
- a notification (a request without an `id`) gets 202 and no body, as section 4.1 of the JSON-RPC 2.0 specification requires;
- the four methods `initialize`, `tools/list`, `tools/call` and `ping` are routed to their builders;
- any other method gets error -32601.

The error codes -32601, -32602 and -32603 are those of section 5.1 of JSON-RPC 2.0.

The model covers four dispatchers, which differ in what they catch and what they report:
- the starter's `McpStreamableHttpHandler`, which derives schemas and binds arguments itself and turns every exception into a 500;
- the starter's base `McpController`;
- the `DynamicMcpController` of `McpAutoConfiguration`;
- the demo's `McpDemoEndpoint`.

The last three let exceptions escape.

It also covers the parts behind those dispatchers:
- the tool registry;
- the tool definition, which binds an arguments map positionally to `"arg" + i` and converts each value to its parameter's class;
- the annotation scanner and its JSON-Schema derivation;
- the bean-name derivation of the auto-configuration;
- the lifecycle state machine;
- the client-address header precedence of the web utilities;
- the `ResponseSchema.text` builder;
- the demo service's weather and calculator handlers.

One module per source file, plus shared modules:
- `wrappers.dfy` holds `Option` and `Result`.
- `java_text.dfy` holds the `java.lang` text routines the core relies on: `Integer.toString`, `parseInt`, `parseLong`, `parseBoolean`, `trim`, `split(",")` and `lastIndexOf`.
- `json.dfy` models Jackson trees as ordered objects.
- `java_values.dfy` holds Java argument values, the classes they are converted to, and reflection as a parameter.
- `rpc.dfy` holds the JSON-RPC envelopes and HTTP replies.

A method in the source that changes state is a `method` on a `class` holding that state. The classes are:
- `ToolRegistry` (`tools`, `toolInstances`);
- `ToolScanner` (`toolRegistry`);
- `LifecycleManager` (`running`);
- `McpDemoService` (`tools`, `toolHandlers`);
- the bean-definition registry and the annotation attributes map.

Each such method is proved against a specification function. The schema, listing and binding loops are `while` loops. Their invariants tie the partial result to that function applied to the prefix done so far. Routing, envelope building and value conversion are functions. The lemmas beside them state what the replies mean.

Three behaviours of the code are worth stating plainly:
- Conversion failures are not recovered by passing the raw string along. A text that is not a number makes an `int` or `long` parameter fail with `NumberFormatException`, and the registry reports that as an `isError` result.
- Absent arguments of `McpStreamableHttpHandler` stay `null`; they are not replaced by zero values.
- The base and dynamic controllers and the demo endpoint do not turn exceptions into error envelopes; the exceptions escape `handlePost`.

## Model


| member | source | states |
|---|---|---|
| JavaText.ParseInt | streamable-http-mcp-starter/src/main/java/cn/daydayup/dev/streamable/mcp/starter/core/McpToolDefinition.java:96 | Integer.parseInt succeeds exactly on an optional sign followed by decimal digits of any script Character.digit accepts whose value lies in the 32-bit range, giving that value, and otherwise throws with `For input string: "s"` |
| JavaText.ParseLong | streamable-http-mcp-starter/src/main/java/cn/daydayup/dev/streamable/mcp/starter/core/McpToolDefinition.java:101 | Long.parseLong, the same rule in both directions over the 64-bit range |
| JavaText.ParseIntReadsOtherScripts | streamable-http-mcp-starter/src/main/java/cn/daydayup/dev/streamable/mcp/starter/core/McpToolDefinition.java:96-101 | fullwidth and Arabic-Indic digits are read by parseInt and parseLong as their decimal values |
| JavaText.SignedValueOfDecimal | streamable-http-mcp-starter/src/main/java/cn/daydayup/dev/streamable/mcp/starter/core/McpToolDefinition.java:96-101 | the decimal text of every integer reads back as that integer |
| JavaText.ParseIntOfDecimal | streamable-http-mcp-starter/src/main/java/cn/daydayup/dev/streamable/mcp/starter/core/McpToolDefinition.java:96 | parseInt inverts toString on every int |
| JavaText.ParseLongOfDecimal | streamable-http-mcp-starter/src/main/java/cn/daydayup/dev/streamable/mcp/starter/core/McpToolDefinition.java:101 | parseLong inverts toString on every long |
| JavaText.ParseIntRejectsDigitless | streamable-http-mcp-starter/src/main/java/cn/daydayup/dev/streamable/mcp/starter/core/McpToolDefinition.java:96-101 | text without a decimal digit of any script makes both parsers throw |
| JavaText.ParseBooleanOfString | streamable-http-mcp-starter/src/main/java/cn/daydayup/dev/streamable/mcp/starter/core/McpToolDefinition.java:111 | parseBoolean reads "true" and "false" back as the booleans they name |
| JavaText.ParseBooleanIgnoresCase | streamable-http-mcp-starter/src/main/java/cn/daydayup/dev/streamable/mcp/starter/core/McpToolDefinition.java:111 | every four-letter spelling of "true" in any letter case parses to true |
| JavaText.ParseBooleanOfDecimal | streamable-http-mcp-starter/src/main/java/cn/daydayup/dev/streamable/mcp/starter/core/McpToolDefinition.java:111 | the text of a number never parses to true |
| JavaText.TrimSpec | streamable-http-mcp-starter/src/main/java/cn/daydayup/dev/streamable/mcp/starter/core/McpWebUtils.java:58 | trim removes exactly the leading and trailing characters up to U+0020, and leaves a result that is empty or starts and ends above U+0020 |
| JavaText.TrimIdempotent | streamable-http-mcp-starter/src/main/java/cn/daydayup/dev/streamable/mcp/starter/core/McpToolScanner.java:58 | trimming twice is trimming once |
| JavaText.TrimEmpty | streamable-http-mcp-starter/src/main/java/cn/daydayup/dev/streamable/mcp/starter/core/McpToolScanner.java:58 | a name is blank after trim exactly when all its characters are at most U+0020 |
| JavaText.LastIndexOf | streamable-http-mcp-starter/src/main/java/cn/daydayup/dev/streamable/mcp/starter/config/McpAutoConfiguration.java:73 | lastIndexOf gives -1 or a position holding the character |
| JavaText.LastIndexOfIsLast | streamable-http-mcp-starter/src/main/java/cn/daydayup/dev/streamable/mcp/starter/config/McpAutoConfiguration.java:73 | no occurrence of the character follows the position lastIndexOf gives |
| JavaText.SplitCommaHead | streamable-http-mcp-starter/src/main/java/cn/daydayup/dev/streamable/mcp/starter/core/McpWebUtils.java:58 | split(",") is empty exactly when the text is only commas, and otherwise starts with the text before the first comma |
| JavaText.LowerFirst | streamable-http-mcp-starter/src/main/java/cn/daydayup/dev/streamable/mcp/starter/config/McpAutoConfiguration.java:83-85 | setCharAt(0, toLowerCase) keeps the length and every character after the first |
| Json.Lookup | streamable-http-mcp-starter/src/main/java/cn/daydayup/dev/streamable/mcp/starter/core/McpStreamableHttpHandler.java:214-215 | ObjectNode.has/get find a value exactly when the key is present, and the value found is stored under that key |
| Json.Put | streamable-http-mcp-starter/src/main/java/cn/daydayup/dev/streamable/mcp/starter/core/McpToolScanner.java:121 | put stores the value under the key, changes no other key, replaces in place an existing key and appends a new one |
| Json.PutPut | streamable-http-mcp-starter/src/main/java/cn/daydayup/dev/streamable/mcp/starter/core/McpToolScanner.java:121 | a second put of the same key overrides the first |
| Json.PutKeepsDistinctKeys | streamable-http-mcp-starter/src/main/java/cn/daydayup/dev/streamable/mcp/starter/core/McpToolScanner.java:121 | put never makes two members share a name |
| Json.LookupFindsEveryMember | streamable-http-mcp-starter/src/main/java/cn/daydayup/dev/streamable/mcp/starter/core/McpStreamableHttpHandler.java:214-215 | in an object with distinct names, get finds every member under its own name |
| JavaValues.Wrap32 | streamable-http-mcp-starter/src/main/java/cn/daydayup/dev/streamable/mcp/starter/core/McpToolDefinition.java:94 | Number.intValue gives the int congruent to the number modulo 2^32, and leaves an int unchanged |
| JavaValues.Wrap64 | streamable-http-mcp-starter/src/main/java/cn/daydayup/dev/streamable/mcp/starter/core/McpToolDefinition.java:99 | Number.longValue, the same modulo 2^64 |
| JavaValues.FromJsonFields | streamable-http-mcp-starter/src/main/java/cn/daydayup/dev/streamable/mcp/starter/core/McpController.java:109 | converting an object node to a Map keeps every member, in order, each converted |
| JavaValues.LookupFromJson | streamable-http-mcp-starter/src/main/java/cn/daydayup/dev/streamable/mcp/starter/core/McpController.java:109 | looking a key up in the converted Map gives the converted member, or null when the key is absent |
| JavaValues.IntValueOfConvertedNumber | streamable-http-mcp-starter/src/main/java/cn/daydayup/dev/streamable/mcp/starter/core/McpToolDefinition.java:93-96 | a JSON integer in the int range reaches the binder as a Number whose intValue and text both give it back |
| ResponseSchema.Text | streamable-http-mcp-starter/src/main/java/cn/daydayup/dev/streamable/mcp/starter/response/ResponseSchema.java:24-26 | text(t, e) is a map with exactly the keys `content` and `isError` |
| ResponseSchema.TextReadBack | streamable-http-mcp-starter/src/main/java/cn/daydayup/dev/streamable/mcp/starter/response/ResponseSchema.java:17-27 | a reader of text(t, e) finds one text item carrying t, and isError equal to e |
| Rpc.ResultEnvelopeReadsBack | streamable-http-mcp-starter/src/main/java/cn/daydayup/dev/streamable/mcp/starter/core/McpStreamableHttpHandler.java:75-79 | a result envelope has jsonrpc "2.0", echoes the id, carries its result and no error |
| Rpc.ErrorEnvelopeReadsBack | streamable-http-mcp-starter/src/main/java/cn/daydayup/dev/streamable/mcp/starter/core/McpStreamableHttpHandler.java:97-103 | an error envelope echoes the id, carries its code and message and has no result |
| Rpc.ResultThenErrorReadsBack | streamable-http-mcp-starter/src/main/java/cn/daydayup/dev/streamable/mcp/starter/core/McpStreamableHttpHandler.java:230-246 | a reply whose result was put before the error echoes the id, holds both members, reports the error code and message, and is not a well-formed envelope |
| Rpc.EnvelopeMembers | streamable-http-mcp-starter/src/main/java/cn/daydayup/dev/streamable/mcp/starter/core/McpStreamableHttpHandler.java:97-101 | an envelope has exactly the members jsonrpc, id and its result or error member |
| ToolDefinition.DefaultInstance | streamable-http-mcp-starter/src/main/java/cn/daydayup/dev/streamable/mcp/starter/core/McpToolDefinition.java:117-127 | getDefaultInstance is null exactly for non-primitive classes (boxed Integer and String included), and the zero of int, long and boolean otherwise |
| ToolDefinition.ConvertValue | streamable-http-mcp-starter/src/main/java/cn/daydayup/dev/streamable/mcp/starter/core/McpToolDefinition.java:80-115 | null gives the default instance; an instance of the target and any value for an unlisted class pass unchanged; a String target gets String.valueOf; an int or long target gets intValue or longValue (wrapped to 32 or 64 bits) of any Number, and otherwise parseInt or parseLong of the text, succeeding exactly when that parse does; a boolean target gets a boolean as is and otherwise whether the text equals "true" ignoring case; a success conforms to the target |
| ToolDefinition.ConvertIntRoundTrip | streamable-http-mcp-starter/src/main/java/cn/daydayup/dev/streamable/mcp/starter/core/McpToolDefinition.java:92-96 | an int sent as decimal text or as a JSON number reaches an int or Integer parameter as that int |
| ToolDefinition.ConvertLongRoundTrip | streamable-http-mcp-starter/src/main/java/cn/daydayup/dev/streamable/mcp/starter/core/McpToolDefinition.java:97-101 | a long sent as decimal text reaches a long or Long parameter as that long |
| ToolDefinition.ConvertRejectsNonNumericText | streamable-http-mcp-starter/src/main/java/cn/daydayup/dev/streamable/mcp/starter/core/McpToolDefinition.java:92-101 | text without a decimal digit of any script makes an int or long parameter throw, with no fallback to the string |
| ToolDefinition.ConvertNarrowsLong | streamable-http-mcp-starter/src/main/java/cn/daydayup/dev/streamable/mcp/starter/core/McpToolDefinition.java:93-94 | a Long given to an int parameter is narrowed to its low 32 bits |
| ToolDefinition.ConvertBooleanRoundTrip | streamable-http-mcp-starter/src/main/java/cn/daydayup/dev/streamable/mcp/starter/core/McpToolDefinition.java:107-111 | a boolean parameter fed the text of a boolean gets that boolean |
| ToolDefinition.ConvertNumberToBoolean | streamable-http-mcp-starter/src/main/java/cn/daydayup/dev/streamable/mcp/starter/core/McpToolDefinition.java:107-111 | a number given to a boolean parameter becomes false |
| ToolDefinition.ArgumentKeysDistinct | streamable-http-mcp-starter/src/main/java/cn/daydayup/dev/streamable/mcp/starter/core/McpToolDefinition.java:75 | distinct positions read distinct keys "arg" + i |
| ToolDefinition.ParameterNames | streamable-http-mcp-starter/src/main/java/cn/daydayup/dev/streamable/mcp/starter/core/McpToolDefinition.java:70-78 | getParameterNames gives one name per parameter, "arg" + i at position i |
| ToolDefinition.ConvertedPrefix | streamable-http-mcp-starter/src/main/java/cn/daydayup/dev/streamable/mcp/starter/core/McpToolDefinition.java:58-64 | a successful binding of k parameters has k values |
| ToolDefinition.ConvertedPrefixFailureSticks | streamable-http-mcp-starter/src/main/java/cn/daydayup/dev/streamable/mcp/starter/core/McpToolDefinition.java:58-64 | once a conversion throws, later parameters do not change the outcome |
| ToolDefinition.InvokeWithoutParameters | streamable-http-mcp-starter/src/main/java/cn/daydayup/dev/streamable/mcp/starter/core/McpToolDefinition.java:49-50 | a method without parameters is called with no arguments, whatever the map holds |
| ToolDefinition.InvokeWithMap | streamable-http-mcp-starter/src/main/java/cn/daydayup/dev/streamable/mcp/starter/core/McpToolDefinition.java:51-52 | a method taking a single Map receives the arguments map unchanged |
| ToolDefinition.Invoke | streamable-http-mcp-starter/src/main/java/cn/daydayup/dev/streamable/mcp/starter/core/McpToolDefinition.java:44-67 | the argument-array loop of invoke ends as the invoke specification says |
| ToolDefinition.ControllerReplacesInstance | streamable-http-mcp-starter/src/main/java/cn/daydayup/dev/streamable/mcp/starter/core/McpToolDefinition.java:44-45 | a controller instance replaces the registered instance as the target, and nothing else changes |
| ToolDefinition.ConvertedPrefixPositional | streamable-http-mcp-starter/src/main/java/cn/daydayup/dev/streamable/mcp/starter/core/McpToolDefinition.java:55-61 | parameter i receives the conversion of the value under "arg" + i |
| ToolDefinition.ConvertedPrefixReadsOnlyArgumentKeys | streamable-http-mcp-starter/src/main/java/cn/daydayup/dev/streamable/mcp/starter/core/McpToolDefinition.java:55-61 | two maps that agree on "arg0" .. "arg(k-1)" bind alike: the @McpParam names are never read |
| ToolDefinition.InvokePositional | streamable-http-mcp-starter/src/main/java/cn/daydayup/dev/streamable/mcp/starter/core/McpToolDefinition.java:53-66 | a method with ordinary parameters is called on the target with the converted "arg" + i values, and maps agreeing on those keys give the same outcome |
| ToolRegistry.ToolNodeMembers | streamable-http-mcp-starter/src/main/java/cn/daydayup/dev/streamable/mcp/starter/core/McpToolRegistry.java:84-89 | a tool node carries the name and description, and an inputSchema exactly when the definition has one |
| ToolRegistry.EnumerationExists | streamable-http-mcp-starter/src/main/java/cn/daydayup/dev/streamable/mcp/starter/core/McpToolRegistry.java:83 | the registry's names can always be iterated in some order that lists each once |
| ToolRegistry.ToolNodes | streamable-http-mcp-starter/src/main/java/cn/daydayup/dev/streamable/mcp/starter/core/McpToolRegistry.java:81-93 | one node per listed name |
| ToolRegistry.ToolNodesListRegistry | streamable-http-mcp-starter/src/main/java/cn/daydayup/dev/streamable/mcp/starter/core/McpToolRegistry.java:81-93 | in any iteration order there are as many nodes as tools, every tool has its node, and every node is a tool's |
| ToolRegistry.CallUnknownTool | streamable-http-mcp-starter/src/main/java/cn/daydayup/dev/streamable/mcp/starter/core/McpToolRegistry.java:46-57 | an unregistered name is answered `Tool not found: ` + name with isError true, not an exception |
| ToolRegistry.CallKnownTool | streamable-http-mcp-starter/src/main/java/cn/daydayup/dev/streamable/mcp/starter/core/McpToolRegistry.java:59-64 | a registered tool's call returns the tree of what invoke returned, run on the controller instance when one is given |
| ToolRegistry.CallFailingTool | streamable-http-mcp-starter/src/main/java/cn/daydayup/dev/streamable/mcp/starter/core/McpToolRegistry.java:65-75 | any exception out of invoke becomes isError true with `Error calling tool: ` + its message |
| ToolRegistry.ToolRegistry.RegisterTool | streamable-http-mcp-starter/src/main/java/cn/daydayup/dev/streamable/mcp/starter/core/McpToolRegistry.java:29-33 | registerTool files the definition and the instance under the name, overwriting, and keeps both maps in step |
| ToolRegistry.ToolRegistry.CallTool | streamable-http-mcp-starter/src/main/java/cn/daydayup/dev/streamable/mcp/starter/core/McpToolRegistry.java:45-76 | callTool returns the call-result specification |
| ToolRegistry.ToolRegistry.GetToolsAsJson | streamable-http-mcp-starter/src/main/java/cn/daydayup/dev/streamable/mcp/starter/core/McpToolRegistry.java:81-93 | the loop emits the nodes of the tools in an enumeration of the registry |
| ToolRegistry.ToolRegistry.GetTools | streamable-http-mcp-starter/src/main/java/cn/daydayup/dev/streamable/mcp/starter/core/McpToolRegistry.java:98-100 | getTools returns a copy equal to the tools map |
| ToolScanner.SchemaTypeMatchesConversion | streamable-http-mcp-starter/src/main/java/cn/daydayup/dev/streamable/mcp/starter/core/McpToolScanner.java:87-102 | a parameter announced as "integer", "boolean" or "string" receives an integer, a boolean or a string from a successful conversion |
| ToolScanner.PropertyNodeMembers | streamable-http-mcp-starter/src/main/java/cn/daydayup/dev/streamable/mcp/starter/core/McpToolScanner.java:85-116 | a property has the parameter's schema type, a description exactly when the annotation gives a non-empty one, and nothing else |
| ToolScanner.DescribeParameter | streamable-http-mcp-starter/src/main/java/cn/daydayup/dev/streamable/mcp/starter/core/McpToolScanner.java:84-119 | the loop body yields the property key, the property node and the required flag |
| ToolScanner.CreateInputSchema | streamable-http-mcp-starter/src/main/java/cn/daydayup/dev/streamable/mcp/starter/core/McpToolScanner.java:75-132 | the parameter loop builds the input schema specification |
| ToolScanner.PropertiesKeys | streamable-http-mcp-starter/src/main/java/cn/daydayup/dev/streamable/mcp/starter/core/McpToolScanner.java:104-121 | the properties are keyed by exactly the parameters' keys: the @McpParam name when non-empty, the reflective name otherwise |
| ToolScanner.PropertiesLastWins | streamable-http-mcp-starter/src/main/java/cn/daydayup/dev/streamable/mcp/starter/core/McpToolScanner.java:121 | the property under a key is that of the last parameter with the key |
| ToolScanner.RequiredPositions | streamable-http-mcp-starter/src/main/java/cn/daydayup/dev/streamable/mcp/starter/core/McpToolScanner.java:123-125 | the positions of the required parameters all lie within the list |
| ToolScanner.RequiredNamesAlign | streamable-http-mcp-starter/src/main/java/cn/daydayup/dev/streamable/mcp/starter/core/McpToolScanner.java:123-125 | the required list names the parameters at the required positions, one to one |
| ToolScanner.RequiredPositionsIncreasing | streamable-http-mcp-starter/src/main/java/cn/daydayup/dev/streamable/mcp/starter/core/McpToolScanner.java:83-125 | the required list keeps declaration order |
| ToolScanner.RequiredPositionsExact | streamable-http-mcp-starter/src/main/java/cn/daydayup/dev/streamable/mcp/starter/core/McpToolScanner.java:118-125 | a parameter is listed exactly when it is annotated required=true |
| ToolScanner.RequiredNamesEmpty | streamable-http-mcp-starter/src/main/java/cn/daydayup/dev/streamable/mcp/starter/core/McpToolScanner.java:123-129 | with no required parameter the required list is empty |
| ToolScanner.InputSchemaShape | streamable-http-mcp-starter/src/main/java/cn/daydayup/dev/streamable/mcp/starter/core/McpToolScanner.java:76-129 | the schema always has type "object", the properties and a required list, empty when nothing is required |
| ToolScanner.ToolName | streamable-http-mcp-starter/src/main/java/cn/daydayup/dev/streamable/mcp/starter/core/McpToolScanner.java:57-60 | the tool name is the annotation's name unless that is blank after trim, then the method name; it is blank only when the method name is |
| ToolScanner.MethodRegistrationsExact | streamable-http-mcp-starter/src/main/java/cn/daydayup/dev/streamable/mcp/starter/core/McpToolScanner.java:53-54 | a bean's registrations are exactly those of its @McpTool methods |
| ToolScanner.RegistrationsExact | streamable-http-mcp-starter/src/main/java/cn/daydayup/dev/streamable/mcp/starter/core/McpToolScanner.java:45-54 | a scan registers exactly the @McpTool methods of beans annotated @EnableMcpServer or @McpServer |
| ToolScanner.RegisteredAppend | streamable-http-mcp-starter/src/main/java/cn/daydayup/dev/streamable/mcp/starter/core/McpToolScanner.java:45-72 | registering two runs of tools is registering one after the other |
| ToolScanner.RegisteredUntouched | streamable-http-mcp-starter/src/main/java/cn/daydayup/dev/streamable/mcp/starter/core/McpToolScanner.java:68 | a name no registration uses keeps its old definition, or stays absent |
| ToolScanner.RegisteredLastWins | streamable-http-mcp-starter/src/main/java/cn/daydayup/dev/streamable/mcp/starter/core/McpToolScanner.java:68 | a name maps to the definition of its last registration |
| ToolScanner.ToolScanner.SetToolRegistry | streamable-http-mcp-starter/src/main/java/cn/daydayup/dev/streamable/mcp/starter/core/McpToolScanner.java:30-32 | the scanner holds the registry it was given |
| ToolScanner.ToolScanner.RegisterMethod | streamable-http-mcp-starter/src/main/java/cn/daydayup/dev/streamable/mcp/starter/core/McpToolScanner.java:55-68 | one @McpTool method is filed under its resolved name with its description, instance, method and derived schema |
| ToolScanner.ToolScanner.ScanBean | streamable-http-mcp-starter/src/main/java/cn/daydayup/dev/streamable/mcp/starter/core/McpToolScanner.java:52-70 | the method loop registers the bean's tools in declaration order |
| ToolScanner.ToolScanner.ScanBeans | streamable-http-mcp-starter/src/main/java/cn/daydayup/dev/streamable/mcp/starter/core/McpToolScanner.java:45-72 | the bean loop registers the tools of the server beans, bean by bean |
| ToolScanner.ToolScanner.ScanAndRegisterTools | streamable-http-mcp-starter/src/main/java/cn/daydayup/dev/streamable/mcp/starter/core/McpToolScanner.java:37-73 | without a registry the scan fails with `McpToolRegistry must be set before scanning` before touching anything; otherwise every discovered tool is registered in scan order |
| Controller.NotificationAccepted | streamable-http-mcp-starter/src/main/java/cn/daydayup/dev/streamable/mcp/starter/core/McpController.java:41-44 | a request is answered 202 with no body exactly when it has no id |
| Controller.ExceptionsPropagate | streamable-http-mcp-starter/src/main/java/cn/daydayup/dev/streamable/mcp/starter/core/McpController.java:37-46 | an unparsable body, a missing method, or a tools/call without params or name escapes as an exception |
| Controller.UnsupportedMethodRejected | streamable-http-mcp-starter/src/main/java/cn/daydayup/dev/streamable/mcp/starter/core/McpController.java:127-136 | any other method is answered 400 with -32601 and `Method not supported: ` + method |
| Controller.KnownMethodsRouted | streamable-http-mcp-starter/src/main/java/cn/daydayup/dev/streamable/mcp/starter/core/McpController.java:47-63 | the four methods are answered 200, and only tools/call can escape |
| Controller.RepliesAreEnvelopes | streamable-http-mcp-starter/src/main/java/cn/daydayup/dev/streamable/mcp/starter/core/McpController.java:69-136 | every reply to a request with an id is an envelope for it, and is 400 exactly when it carries an error |
| Controller.InitializeReadsBack | streamable-http-mcp-starter/src/main/java/cn/daydayup/dev/streamable/mcp/starter/core/McpController.java:69-86 | initialize reports the protocol version, empty capabilities and the server name and version |
| Controller.ListToolsReadsBack | streamable-http-mcp-starter/src/main/java/cn/daydayup/dev/streamable/mcp/starter/core/McpController.java:88-97 | tools/list answers with the registry's tool nodes under result.tools |
| Controller.CallToolAnswersResult | streamable-http-mcp-starter/src/main/java/cn/daydayup/dev/streamable/mcp/starter/core/McpController.java:99-116 | tools/call answers 200 with callTool's output as result and never an error; absent or null arguments become an empty map |
| Controller.McpController.constructor | streamable-http-mcp-starter/src/main/java/cn/daydayup/dev/streamable/mcp/starter/core/McpController.java:27-29 | the defaults are "MCP Server", "1.0.0" and "2024-11-05" |
| Controller.McpController.HandlePost | streamable-http-mcp-starter/src/main/java/cn/daydayup/dev/streamable/mcp/starter/core/McpController.java:37-67 | handlePost gives the dispatch specification's reply, over some iteration order of the registry, for any body whose tools/call names no registered tool with a double parameter |
| Controller.HandleCallTool | streamable-http-mcp-starter/src/main/java/cn/daydayup/dev/streamable/mcp/starter/core/McpController.java:99-116 | handleCallTool gives the tools/call specification's reply when the called tool has no double parameter |
| AutoConfiguration.UserControllerBeanName | streamable-http-mcp-starter/src/main/java/cn/daydayup/dev/streamable/mcp/starter/config/McpAutoConfiguration.java:70-86 | the bean name is never longer than the class name, and is empty exactly when the class name is |
| AutoConfiguration.StrippedNameHasNoDot | streamable-http-mcp-starter/src/main/java/cn/daydayup/dev/streamable/mcp/starter/config/McpAutoConfiguration.java:72-76 | when the package prefix is cut off, no dot is left |
| AutoConfiguration.LowerFirstIdempotent | streamable-http-mcp-starter/src/main/java/cn/daydayup/dev/streamable/mcp/starter/config/McpAutoConfiguration.java:83-85 | lower-casing the first character twice is doing it once |
| AutoConfiguration.BeanNameNotStrippedAgain | streamable-http-mcp-starter/src/main/java/cn/daydayup/dev/streamable/mcp/starter/config/McpAutoConfiguration.java:73-76 | a derived bean name has no package prefix left to cut |
| AutoConfiguration.UserControllerBeanNameIdempotent | streamable-http-mcp-starter/src/main/java/cn/daydayup/dev/streamable/mcp/starter/config/McpAutoConfiguration.java:70-86 | deriving the bean name of a bean name gives it back |
| AutoConfiguration.BeanDefinitionRegistry.RegisterBeanDefinition | streamable-http-mcp-starter/src/main/java/cn/daydayup/dev/streamable/mcp/starter/config/McpAutoConfiguration.java:62 | the definition is filed under its bean name |
| AutoConfiguration.DynamicMcpController.constructor | streamable-http-mcp-starter/src/main/java/cn/daydayup/dev/streamable/mcp/starter/config/McpAutoConfiguration.java:100-105 | the four fields are read from the attributes, null where absent |
| AutoConfiguration.DynamicMcpController.HandlePost | streamable-http-mcp-starter/src/main/java/cn/daydayup/dev/streamable/mcp/starter/config/McpAutoConfiguration.java:113-147 | handlePost gives the dynamic dispatch specification's reply, for any body whose tools/call names no registered tool with a double parameter |
| AutoConfiguration.DynamicCallUsesUserController | streamable-http-mcp-starter/src/main/java/cn/daydayup/dev/streamable/mcp/starter/config/McpAutoConfiguration.java:179-196 | a tools/call runs the tool on the user controller bean and answers 200 with the result |
| AutoConfiguration.DynamicInitializeEchoesAttributes | streamable-http-mcp-starter/src/main/java/cn/daydayup/dev/streamable/mcp/starter/config/McpAutoConfiguration.java:149-166 | initialize reports the protocol version, name and version of the attributes map the controller was built from |
| AutoConfiguration.McpAutoConfiguration.RegisterBeanDefinitions | streamable-http-mcp-starter/src/main/java/cn/daydayup/dev/streamable/mcp/starter/config/McpAutoConfiguration.java:31-48 | @EnableMcpServer wins and registers the dynamic controller under the derived name; the @McpServer branch and no annotation register nothing |
| AutoConfiguration.McpAutoConfiguration.CreateMcpController | streamable-http-mcp-starter/src/main/java/cn/daydayup/dev/streamable/mcp/starter/config/McpAutoConfiguration.java:50-63 | the derived name is written into the attributes under `userControllerBeanName` and the bean is registered under that same name |
| Lifecycle.LifecycleManager.constructor | streamable-http-mcp-starter/src/main/java/cn/daydayup/dev/streamable/mcp/starter/core/McpLifecycleManager.java:22 | a new manager is not running and has not scanned |
| Lifecycle.LifecycleManager.Init | streamable-http-mcp-starter/src/main/java/cn/daydayup/dev/streamable/mcp/starter/core/McpLifecycleManager.java:25-27 | init hands the registry to the scanner |
| Lifecycle.LifecycleManager.Start | streamable-http-mcp-starter/src/main/java/cn/daydayup/dev/streamable/mcp/starter/core/McpLifecycleManager.java:30-35 | a running manager does nothing; a stopped one scans once and runs exactly when the scan did not fail |
| Lifecycle.LifecycleManager.Stop | streamable-http-mcp-starter/src/main/java/cn/daydayup/dev/streamable/mcp/starter/core/McpLifecycleManager.java:38-40 | stop clears running, so the next start scans again |
| Lifecycle.LifecycleManager.Destroy | streamable-http-mcp-starter/src/main/java/cn/daydayup/dev/streamable/mcp/starter/core/McpLifecycleManager.java:48-50 | destroy is stop |
| WebUtils.Header | streamable-http-mcp-starter/src/main/java/cn/daydayup/dev/streamable/mcp/starter/core/McpWebUtils.java:29 | getHeader finds a header whose name matches ignoring case, and finds none only when no name matches |
| WebUtils.GetRequestParam | streamable-http-mcp-starter/src/main/java/cn/daydayup/dev/streamable/mcp/starter/core/McpWebUtils.java:40-46 | a parameter value is found only in a current request that has the parameter |
| WebUtils.NoRequestNoAnswers | streamable-http-mcp-starter/src/main/java/cn/daydayup/dev/streamable/mcp/starter/core/McpWebUtils.java:26-68 | without a current request the header, the parameter and the client address are all null |
| WebUtils.ForwardedForWins | streamable-http-mcp-starter/src/main/java/cn/daydayup/dev/streamable/mcp/starter/core/McpWebUtils.java:56-59 | a non-empty X-Forwarded-For gives its first comma-separated segment trimmed, whatever X-Real-IP says, and throws exactly when it is only commas |
| WebUtils.RealIpThenRemoteAddr | streamable-http-mcp-starter/src/main/java/cn/daydayup/dev/streamable/mcp/starter/core/McpWebUtils.java:61-66 | otherwise a non-empty X-Real-IP is returned verbatim, else the remote address |
| WebUtils.ForwardedAddressTrimmed | streamable-http-mcp-starter/src/main/java/cn/daydayup/dev/streamable/mcp/starter/core/McpWebUtils.java:58 | an address taken from X-Forwarded-For is empty or has no surrounding white space |
| StreamableHttpHandler.ToolNodes | streamable-http-mcp-starter/src/main/java/cn/daydayup/dev/streamable/mcp/starter/core/McpStreamableHttpHandler.java:124-128 | tools/list emits one node per function info, in list order |
| StreamableHttpHandler.PropertyNodeMembers | streamable-http-mcp-starter/src/main/java/cn/daydayup/dev/streamable/mcp/starter/core/McpStreamableHttpHandler.java:142-151 | every property has type "string" and the description, and an enum exactly when the enum list is non-empty, its values in order |
| StreamableHttpHandler.PropertiesKeys | streamable-http-mcp-starter/src/main/java/cn/daydayup/dev/streamable/mcp/starter/core/McpStreamableHttpHandler.java:138-142 | the properties are keyed by exactly the names of the non-null parameter infos |
| StreamableHttpHandler.PropertiesLastWins | streamable-http-mcp-starter/src/main/java/cn/daydayup/dev/streamable/mcp/starter/core/McpStreamableHttpHandler.java:142 | each key holds the node of the last parameter of that name |
| StreamableHttpHandler.PropertiesAreStrings | streamable-http-mcp-starter/src/main/java/cn/daydayup/dev/streamable/mcp/starter/core/McpStreamableHttpHandler.java:143 | every property says type "string" |
| StreamableHttpHandler.RequiredNamesAppend | streamable-http-mcp-starter/src/main/java/cn/daydayup/dev/streamable/mcp/starter/core/McpStreamableHttpHandler.java:153-155 | the required names of a list are those of its parts, in order |
| StreamableHttpHandler.RequiredNamesExact | streamable-http-mcp-starter/src/main/java/cn/daydayup/dev/streamable/mcp/starter/core/McpStreamableHttpHandler.java:153-155 | a name is required exactly when a non-null parameter of that name is |
| StreamableHttpHandler.InputSchemaMembers | streamable-http-mcp-starter/src/main/java/cn/daydayup/dev/streamable/mcp/starter/core/McpStreamableHttpHandler.java:133-162 | the schema has type "object" and the properties, and a required list exactly when some parameter is required |
| StreamableHttpHandler.ToolNodeMembers | streamable-http-mcp-starter/src/main/java/cn/daydayup/dev/streamable/mcp/starter/core/McpStreamableHttpHandler.java:126-133 | a node has the name and description, and an inputSchema exactly when the parameter list is non-null and non-empty |
| StreamableHttpHandler.FirstNamed | streamable-http-mcp-starter/src/main/java/cn/daydayup/dev/streamable/mcp/starter/core/McpStreamableHttpHandler.java:194-200 | the function found is the first whose name equals the tool name, and none is found only when no name equals it |
| StreamableHttpHandler.BindingStops | streamable-http-mcp-starter/src/main/java/cn/daydayup/dev/streamable/mcp/starter/core/McpStreamableHttpHandler.java:210-223 | once binding stops, later parameters do not change the outcome |
| StreamableHttpHandler.BindingSucceeds | streamable-http-mcp-starter/src/main/java/cn/daydayup/dev/streamable/mcp/starter/core/McpStreamableHttpHandler.java:210-224 | binding succeeds exactly when there is nothing to bind, or every parameter has a non-null info and every required one its argument; then parameter i gets its argument's text, or null |
| StreamableHttpHandler.BindingMissing | streamable-http-mcp-starter/src/main/java/cn/daydayup/dev/streamable/mcp/starter/core/McpStreamableHttpHandler.java:216-222 | a missing-argument stop names a required parameter whose argument is absent, after all earlier ones bound |
| StreamableHttpHandler.TooFewParamInfos | streamable-http-mcp-starter/src/main/java/cn/daydayup/dev/streamable/mcp/starter/core/McpStreamableHttpHandler.java:211 | fewer parameter infos than parameters fail with `Index: n, Size: n` |
| StreamableHttpHandler.CallToolNotFound | streamable-http-mcp-starter/src/main/java/cn/daydayup/dev/streamable/mcp/starter/core/McpStreamableHttpHandler.java:247-253 | without a function of that name or without a target bean, the reply is -32601 naming the tool, with no result |
| StreamableHttpHandler.CallToolMissingArgument | streamable-http-mcp-starter/src/main/java/cn/daydayup/dev/streamable/mcp/starter/core/McpStreamableHttpHandler.java:216-222 | a missing required argument is answered -32602 naming it, with no result |
| StreamableHttpHandler.CallToolInvoked | streamable-http-mcp-starter/src/main/java/cn/daydayup/dev/streamable/mcp/starter/core/McpStreamableHttpHandler.java:227-246 | a bound call answers one text item with the result's text; a method that throws gives -32603 with the tool name and the exception message and no result; a result whose toString throws gives a reply holding both an empty result and that -32603 error |
| StreamableHttpHandler.NotificationAccepted | streamable-http-mcp-starter/src/main/java/cn/daydayup/dev/streamable/mcp/starter/core/McpStreamableHttpHandler.java:44-47 | 202 with no body exactly for a body that parses to null or to an object without an id |
| StreamableHttpHandler.ServerErrorCases | streamable-http-mcp-starter/src/main/java/cn/daydayup/dev/streamable/mcp/starter/core/McpStreamableHttpHandler.java:43-65 | 500 with no body exactly for an unparsable or non-object body, a missing method, or tools/call arguments that are not an object |
| StreamableHttpHandler.UnsupportedMethodRejected | streamable-http-mcp-starter/src/main/java/cn/daydayup/dev/streamable/mcp/starter/core/McpStreamableHttpHandler.java:96-106 | any other method is answered 400 with -32601 and a message naming the method |
| StreamableHttpHandler.KnownMethodResults | streamable-http-mcp-starter/src/main/java/cn/daydayup/dev/streamable/mcp/starter/core/McpStreamableHttpHandler.java:51-59 | initialize, tools/list and ping answer 200 with the protocol and server fields, the tool nodes, and `{}` |
| StreamableHttpHandler.CallAnsweredOk | streamable-http-mcp-starter/src/main/java/cn/daydayup/dev/streamable/mcp/starter/core/McpStreamableHttpHandler.java:176-256 | a tools/call with object or absent arguments is answered 200, whichever way the call ends |
| StreamableHttpHandler.McpStreamableHttpHandler.HandlePost | streamable-http-mcp-starter/src/main/java/cn/daydayup/dev/streamable/mcp/starter/core/McpStreamableHttpHandler.java:42-66 | handlePost gives the reply specification |
| StreamableHttpHandler.McpStreamableHttpHandler.HandleListTools | streamable-http-mcp-starter/src/main/java/cn/daydayup/dev/streamable/mcp/starter/core/McpStreamableHttpHandler.java:114-168 | the listing loop builds the tools/list specification |
| StreamableHttpHandler.McpStreamableHttpHandler.HandleCallTool | streamable-http-mcp-starter/src/main/java/cn/daydayup/dev/streamable/mcp/starter/core/McpStreamableHttpHandler.java:176-256 | handleCallTool gives the tools/call specification, including the reply with both result and error when toString throws |
| StreamableHttpHandler.McpStreamableHttpHandler.FindFunction | streamable-http-mcp-starter/src/main/java/cn/daydayup/dev/streamable/mcp/starter/core/McpStreamableHttpHandler.java:194-200 | the search loop finds the first function of that name |
| StreamableHttpHandler.DescribeFunction | streamable-http-mcp-starter/src/main/java/cn/daydayup/dev/streamable/mcp/starter/core/McpStreamableHttpHandler.java:126-163 | one function's node, as the specification gives it |
| StreamableHttpHandler.BuildInputSchema | streamable-http-mcp-starter/src/main/java/cn/daydayup/dev/streamable/mcp/starter/core/McpStreamableHttpHandler.java:133-162 | the parameter loop builds the input schema specification |
| StreamableHttpHandler.DescribeParameter | streamable-http-mcp-starter/src/main/java/cn/daydayup/dev/streamable/mcp/starter/core/McpStreamableHttpHandler.java:142-151 | the enum loop builds the property node specification |
| StreamableHttpHandler.BindArguments | streamable-http-mcp-starter/src/main/java/cn/daydayup/dev/streamable/mcp/starter/core/McpStreamableHttpHandler.java:207-224 | the argument-array loop ends as the binding specification says |
| DemoService.WeatherSchemaRequires | streamable-http-mcp-demo/src/main/java/cn/daydayup/dev/streamable/mcp/demo/service/McpDemoService.java:145 | the weather schema requires exactly ["city"] |
| DemoService.CalculatorSchemaRequires | streamable-http-mcp-demo/src/main/java/cn/daydayup/dev/streamable/mcp/demo/service/McpDemoService.java:173 | the calculator schema requires exactly [num1, num2, operation] |
| DemoService.CalculatorOperationEnum | streamable-http-mcp-demo/src/main/java/cn/daydayup/dev/streamable/mcp/demo/service/McpDemoService.java:169 | the operation enum is [add, subtract, multiply, divide] |
| DemoService.CallUnknownTool | streamable-http-mcp-demo/src/main/java/cn/daydayup/dev/streamable/mcp/demo/service/McpDemoService.java:32-44 | an unknown tool is answered `Tool not found: ` + name with isError true |
| DemoService.WeatherCases | streamable-http-mcp-demo/src/main/java/cn/daydayup/dev/streamable/mcp/demo/service/McpDemoService.java:55-88 | the weather handler succeeds exactly for a non-empty string city, with `<city>: 晴天，温度25℃`; a null or empty city gives the empty-city error; it always reports isError |
| DemoService.CalculatorCases | streamable-http-mcp-demo/src/main/java/cn/daydayup/dev/streamable/mcp/demo/service/McpDemoService.java:98-131 | the calculator never throws: it reports isError true exactly when the calculation fails, with `计算错误: ` + the message, and succeeds only for the four operations |
| DemoService.UnsupportedOperation | streamable-http-mcp-demo/src/main/java/cn/daydayup/dev/streamable/mcp/demo/service/McpDemoService.java:107-112 | an operation outside the four, with valid numbers, reports `不支持的运算：` + operation as an error |
| DemoService.McpDemoService.constructor | streamable-http-mcp-demo/src/main/java/cn/daydayup/dev/streamable/mcp/demo/service/McpDemoService.java:18-19 | a new service has no tools and no handlers |
| DemoService.McpDemoService.Initialize | streamable-http-mcp-demo/src/main/java/cn/daydayup/dev/streamable/mcp/demo/service/McpDemoService.java:22-25 | initialize appends the weather and then the calculator tool and installs both handlers |
| DemoService.McpDemoService.RegisterWeatherTool | streamable-http-mcp-demo/src/main/java/cn/daydayup/dev/streamable/mcp/demo/service/McpDemoService.java:48-55 | the weather tool is appended and its handler filed under getWeather |
| DemoService.McpDemoService.RegisterCalculatorTool | streamable-http-mcp-demo/src/main/java/cn/daydayup/dev/streamable/mcp/demo/service/McpDemoService.java:91-98 | the calculator tool is appended and its handler filed under calculate |
| DemoService.McpDemoService.GetTools | streamable-http-mcp-demo/src/main/java/cn/daydayup/dev/streamable/mcp/demo/service/McpDemoService.java:27-29 | getTools returns the service's own list object, not a copy |
| DemoService.McpDemoService.CallTool | streamable-http-mcp-demo/src/main/java/cn/daydayup/dev/streamable/mcp/demo/service/McpDemoService.java:31-46 | callTool gives the handler-table specification's result; on a valid service every listed tool reaches its handler |
| DemoService.InitializedService | streamable-http-mcp-demo/src/main/java/cn/daydayup/dev/streamable/mcp/demo/service/McpDemoService.java:22-25 | after initialization the tools are [getWeather, calculate] in that order and the handler keys are exactly those two |
| DemoEndpoint.NotificationAccepted | streamable-http-mcp-demo/src/main/java/cn/daydayup/dev/streamable/mcp/demo/controller/McpDemoEndpoint.java:38-44 | 202 with no body exactly for an object without an id; a body that parses to null escapes |
| DemoEndpoint.UnsupportedMethodRejected | streamable-http-mcp-demo/src/main/java/cn/daydayup/dev/streamable/mcp/demo/controller/McpDemoEndpoint.java:123-133 | any other method is answered 400 with -32601 and a fixed message that does not name the method |
| DemoEndpoint.KnownMethodResults | streamable-http-mcp-demo/src/main/java/cn/daydayup/dev/streamable/mcp/demo/controller/McpDemoEndpoint.java:69-98 | initialize reports "2024-11-05", "三国演义资料库-新版MCP协议" and "1.0.0"; tools/list the service's tools as they are; ping `{}` |
| DemoEndpoint.CallPassedToService | streamable-http-mcp-demo/src/main/java/cn/daydayup/dev/streamable/mcp/demo/controller/McpDemoEndpoint.java:100-112 | tools/call answers 200 with the service's result verbatim, absent arguments passed as null |
| DemoEndpoint.McpDemoEndpoint.HandlePost | streamable-http-mcp-demo/src/main/java/cn/daydayup/dev/streamable/mcp/demo/controller/McpDemoEndpoint.java:37-67 | handlePost gives the endpoint's reply specification over the service's current tools and handlers |
| DemoEndpoint.McpDemoEndpoint.HandleCallTool | streamable-http-mcp-demo/src/main/java/cn/daydayup/dev/streamable/mcp/demo/controller/McpDemoEndpoint.java:100-112 | handleCallTool answers 200 with the service's callTool result, as a tree, under result; absent or null arguments are passed as null; it escapes when params or name is missing, or when arguments is present but neither an object nor null |

## Left out

- Jackson parsing and serialisation are not modelled. A body arrives already parsed, or as "does not parse". `valueToTree` of a tool's result is a tree the reflection parameter supplies with the result.
- The Spring container is not modelled: bean post-processing, `McpServerEndpointAutoRegistry`, the auto-configuration classes other than `McpAutoConfiguration`, the annotations, `SpringContextUtil` and `McpRequestContextHolder`. The beans of the application context are a parameter (a sequence of beans for the scan, a map by name for the dynamic controller). The current request of the web utilities is an explicit parameter instead of a thread-local.
- Reflection (`Method.invoke`, `getParameters`) is a function parameter from method, target and arguments to a returned value or an exception. A returned object's `toString` is part of that parameter and may throw; `valueToTree` of a result is taken to succeed.
- Concurrency is not modelled. The registry's `ConcurrentHashMap` is a sequential map, and its iteration order is any enumeration of the keys, chosen by the method.
- Every `HashMap`-built result map is modelled with a fixed key order, because its real order is unspecified. These are the tool-call results, the demo's tools and schemas, and the scanner's schema.
- Logging is left out, as are the `handleGet` methods that only throw "method not allowed".
- The double conversion is left out. ToolDefinition.ConvertValue requires that no value reach a `Double`/`double` target without already being one, so Invoke and the registry's CallTool require tools without such parameters. The dispatchers' HandlePost require only that the tool a tools/call names has none. The reason is floating point.
- JSON numbers are integers. Fractional and exponent numbers, such as a calculator argument 2.5 whose `asText` is "2.5", are not modelled (floating point).
- `float` and `double` appear only as the zero defaults.
- DemoService.Calculation: `Double.parseDouble`, the arithmetic and the `%.2f` formatting of the calculator are parameters (`DoubleOps`), so the model states which branch is taken and what is reported, not the number computed.
- The demo `calculate` methods of `McpServerStarterEndpoint` and `StarterBasedMcpController` are not part of this model (floating point, console output and cookies).
- Exception messages are those of Java 8. `NullPointerException` has a null message, which concatenates as "null". `ArrayList.get` reports `Index: i, Size: n`. A `ClassCastException` names both classes. `InvocationTargetException` has a null message.
- Case mapping (`toLowerCase`, `equalsIgnoreCase`) covers ASCII letters only.
- ToolDefinition.Invoke: the `getDefaultInstance` fallback for positions beyond the parameter names cannot be reached, because getParameterNames returns one name per parameter. The model omits that branch.
- `convertValue` of a non-object `arguments` node to a `Map` is taken to throw.
- `McpAutoConfiguration.createMcpController` (McpAutoConfiguration.java:50-63) builds a `DynamicMcpController` from the annotation attributes only to read its class. The model builds and discards that instance too, and the bean definition records only the class. The instance the container later creates from that class-only definition gets its `Map` constructor argument from the container, not from these attributes. DynamicInitializeEchoesAttributes and the constructor row describe a controller built from a given attributes map. For the annotation's attributes that controller is the discarded instance. Which `Map` the container supplies to the serving instance is not modelled.
- The definition is registered under `userControllerBeanName`, the user class's own default bean name, and `handlePost` looks that name up (McpAutoConfiguration.java:116). Which of the two definitions the container keeps under that name is not modelled: the bean map is a parameter.
- `configureMcpController` does nothing in the source, and its model does nothing.
- StreamableHttpHandler: a null function list, a null function name and a null parameter name are not modelled. Neither are null elements of an enum list. The list is a sequence, names are strings, and a parameter info may be null.
- `ParamInfo.type` is not modelled because the handler never reads it.
- The `@Data` setters through which the auto-registry fills a handler are replaced by a constructor taking the four fields.
- ResponseSchema.Text: each call building a fresh object is not stated, because the model's trees are values.
- DemoService.McpDemoService.GetTools: returning the internal list rather than a copy is stated as object identity of the returned `ToolList`. A caller's later changes to it are not modelled.
- Lifecycle.LifecycleManager.IsRunning is a function reading the field. Its relation to start and stop is stated on Start, Stop and Destroy.
