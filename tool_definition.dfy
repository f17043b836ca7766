/** McpToolDefinition: a registered tool method and how a call binds the
    arguments map to the method's parameters. A method without parameters is
    called with none, a method taking a single Map gets the arguments map as
    it is, and any other method gets parameter i from the key "arg" + i,
    converted to the parameter's class. */
module ToolDefinition {
  import opened Wrappers
  import opened Json
  import opened JavaText
  import opened JavaValues

  datatype ToolDefinition = ToolDefinition(
    name: string,
    description: string,
    instance: Instance,
    toolMethod: MethodRef,
    inputSchema: Option<Json>)

  /** getDefaultInstance(type): the zero of a primitive class, null otherwise. */
  function DefaultInstance(t: JavaType): (r: Value)
    ensures r == VNull <==> !IsPrimitive(t)
    ensures t.IntType? ==> r == VInteger(0)
    ensures t.LongType? ==> r == VLong(0)
    ensures t.BooleanType? ==> r == VBool(false)
  {
    match t
    case BooleanType => VBool(false)
    case ByteType => VByte(0)
    case ShortType => VShort(0)
    case IntType => VInteger(0)
    case LongType => VLong(0)
    case FloatType => VFloatZero
    case DoubleType => VDoubleZero
    case CharType => VChar(0 as char)
    case _ => VNull
  }

  predicate IsDouble(t: JavaType)
  {
    t.DoubleClass? || t.DoubleType?
  }

  /** No parameter is declared Double or double (see "Left out"). */
  predicate DoubleFree(m: MethodRef)
  {
    forall i | 0 <= i < |m.paramTypes| :: !IsDouble(m.paramTypes[i])
  }

  /** The classes convertValue has a branch for. */
  predicate IsListedTarget(t: JavaType)
  {
    t.StringClass? || t.IntegerClass? || t.IntType? || t.LongClass? || t.LongType?
    || IsDouble(t) || t.BooleanClass? || t.BooleanType?
  }

  /** The boxed value a successful conversion to a listed class yields. */
  predicate Conforms(v: Value, t: JavaType)
  {
    if t.StringClass? then v.VString?
    else if t.IntegerClass? || t.IntType? then v.VInteger? && Int32Min <= v.i <= Int32Max
    else if t.LongClass? || t.LongType? then v.VLong? && Int64Min <= v.l <= Int64Max
    else if t.BooleanClass? || t.BooleanType? then v.VBool?
    else true
  }

  /** A value the Java arguments map can hold: every number within the range
      of its class, as convertValue from JSON and Java code produce them. */
  predicate InRange(v: Value)
  {
    match v
    case VInteger(i) => Int32Min <= i <= Int32Max
    case VLong(l) => Int64Min <= l <= Int64Max
    case _ => true
  }

  /** convertValue(value, targetType). A Double or double target with a value
      that is neither null nor a Double would reach Double.parseDouble, which
      the model leaves out. */
  function ConvertValue(v: Value, t: JavaType): (r: Result<Value>)
    requires !IsDouble(t) || v.VNull? || IsInstance(v, t)
    ensures v.VNull? ==> r == Ok(DefaultInstance(t))
    ensures !v.VNull? && IsInstance(v, t) ==> r == Ok(v)
    ensures !v.VNull? && !IsListedTarget(t) ==> r == Ok(v)
    ensures r.Ok? && !v.VNull? && InRange(v) ==> Conforms(r.value, t)
    ensures !v.VNull? && !IsInstance(v, t) && t.StringClass? ==> r == Ok(VString(ValueOf(v)))
    ensures !v.VNull? && !IsInstance(v, t) && (t.IntegerClass? || t.IntType?) ==>
      && (IsNumber(v) ==> r == Ok(VInteger(Wrap32(IntegralValue(v)))))
      && (!IsNumber(v) ==> (r.Ok? <==> ParseInt(ValueOf(v)).Ok?))
      && (!IsNumber(v) && r.Ok? ==> r.value == VInteger(ParseInt(ValueOf(v)).value))
    ensures !v.VNull? && !IsInstance(v, t) && (t.LongClass? || t.LongType?) ==>
      && (IsNumber(v) ==> r == Ok(VLong(Wrap64(IntegralValue(v)))))
      && (!IsNumber(v) ==> (r.Ok? <==> ParseLong(ValueOf(v)).Ok?))
      && (!IsNumber(v) && r.Ok? ==> r.value == VLong(ParseLong(ValueOf(v)).value))
    ensures !v.VNull? && (t.BooleanClass? || t.BooleanType?) ==>
      r == Ok(if v.VBool? then v else VBool(EqualsIgnoreCase(ValueOf(v), "true")))
    ensures r.Thrown? ==>
      && (t.IntegerClass? || t.IntType? || t.LongClass? || t.LongType?)
      && !IsNumber(v)
      && r.message == NumberFormatMessage(ValueOf(v))
  {
    if v.VNull? then Ok(DefaultInstance(t))
    else if IsInstance(v, t) then Ok(v)
    else if t.StringClass? then Ok(VString(ValueOf(v)))
    else if t.IntegerClass? || t.IntType? then
      if IsNumber(v) then Ok(VInteger(IntValue(v)))
      else
        match ParseInt(ValueOf(v))
        case Ok(n) => Ok(VInteger(n))
        case Thrown(m) => Thrown(m)
    else if t.LongClass? || t.LongType? then
      if IsNumber(v) then Ok(VLong(LongValue(v)))
      else
        match ParseLong(ValueOf(v))
        case Ok(n) => Ok(VLong(n))
        case Thrown(m) => Thrown(m)
    else if t.BooleanClass? || t.BooleanType? then
      if v.VBool? then Ok(v) else Ok(VBool(ParseBoolean(ValueOf(v))))
    else Ok(v)
  }

  /** A number sent as text reaches an int parameter as that number, and a
      number sent as a JSON number reaches it unchanged. */
  lemma ConvertIntRoundTrip(n: int)
    requires Int32Min <= n <= Int32Max
    ensures ConvertValue(VString(DecimalString(n)), IntType) == Ok(VInteger(n))
    ensures ConvertValue(VString(DecimalString(n)), IntegerClass) == Ok(VInteger(n))
    ensures ConvertValue(FromJson(JNum(n)), IntType) == Ok(VInteger(n))
  {
    ParseIntOfDecimal(n);
  }

  /** The same for long parameters. */
  lemma ConvertLongRoundTrip(n: int)
    requires Int64Min <= n <= Int64Max
    ensures ConvertValue(VString(DecimalString(n)), LongType) == Ok(VLong(n))
    ensures ConvertValue(VString(DecimalString(n)), LongClass) == Ok(VLong(n))
  {
    ParseLongOfDecimal(n);
  }

  /** Text that is not a number makes an int or long parameter fail with
      NumberFormatException; it is never passed on as the raw string. */
  lemma ConvertRejectsNonNumericText(s: string, t: JavaType)
    requires t.IntegerClass? || t.IntType? || t.LongClass? || t.LongType?
    requires forall i | 0 <= i < |s| :: !IsDigit(s[i])
    ensures ConvertValue(VString(s), t) == Thrown(NumberFormatMessage(s))
  {
    ParseIntRejectsDigitless(s);
  }

  /** A number wider than an int is narrowed to its low 32 bits. */
  lemma ConvertNarrowsLong(n: int)
    ensures ConvertValue(VLong(n), IntType) == Ok(VInteger(Wrap32(n)))
  {
  }

  /** A boolean parameter fed its own text form gets the boolean back. */
  lemma ConvertBooleanRoundTrip(b: bool)
    ensures ConvertValue(VString(BooleanString(b)), BooleanType) == Ok(VBool(b))
    ensures ConvertValue(VString(ValueOf(VBool(b))), BooleanClass) == Ok(VBool(b))
  {
    ParseBooleanOfString(b);
  }

  /** A number is never read as true by a boolean parameter. */
  lemma ConvertNumberToBoolean(n: int)
    requires Int32Min <= n <= Int32Max
    ensures ConvertValue(VInteger(n), BooleanType) == Ok(VBool(false))
  {
    ParseBooleanOfDecimal(n);
  }

  /** The key parameter i is read from. */
  function ArgumentKey(i: nat): string
  {
    "arg" + DecimalString(i)
  }

  /** Distinct positions read distinct keys. */
  lemma ArgumentKeysDistinct(i: nat, j: nat)
    requires i != j
    ensures ArgumentKey(i) != ArgumentKey(j)
  {
    SignedValueOfDecimal(i);
    SignedValueOfDecimal(j);
    assert ArgumentKey(i)[3..] == DecimalString(i);
    assert ArgumentKey(j)[3..] == DecimalString(j);
  }

  /** getParameterNames(method): "arg0", "arg1", ..., one per parameter. */
  method ParameterNames(m: MethodRef) returns (names: seq<string>)
    ensures |names| == |m.paramTypes|
    ensures forall i | 0 <= i < |names| :: names[i] == ArgumentKey(i)
  {
    var buffer := new string[|m.paramTypes|];
    var i := 0;
    while i < buffer.Length
      invariant 0 <= i <= buffer.Length
      invariant forall j | 0 <= j < i :: buffer[j] == ArgumentKey(j)
    {
      buffer[i] := "arg" + DecimalString(i);
      i := i + 1;
    }
    names := buffer[..];
  }

  /** The converted arguments for the first k parameters, or the first
      conversion's exception. */
  function ConvertedPrefix(types: seq<JavaType>, arguments: seq<(string, Value)>, k: nat): (r: Result<seq<Value>>)
    requires k <= |types|
    requires forall i | 0 <= i < |types| :: !IsDouble(types[i])
    ensures r.Ok? ==> |r.value| == k
  {
    if k == 0 then Ok([])
    else
      match ConvertedPrefix(types, arguments, k - 1)
      case Thrown(m) => Thrown(m)
      case Ok(prefix) =>
        match ConvertValue(LookupValue(arguments, ArgumentKey(k - 1)), types[k - 1])
        case Thrown(m) => Thrown(m)
        case Ok(v) => Ok(prefix + [v])
  }

  /** The object a call runs on: the controller instance when one is given,
      and the registered instance otherwise. */
  function Target(def: ToolDefinition, controller: Option<Instance>): Instance
  {
    controller.GetOr(def.instance)
  }

  /** invoke(arguments, controllerInstance). */
  function InvokeOutcome(def: ToolDefinition, arguments: seq<(string, Value)>, controller: Option<Instance>,
                         reflect: Reflection): Outcome
    requires DoubleFree(def.toolMethod)
  {
    var types := def.toolMethod.paramTypes;
    var target := Target(def, controller);
    if |types| == 0 then reflect(def.toolMethod, target, [])
    else if |types| == 1 && types[0] == MapInterface then reflect(def.toolMethod, target, [VMap(arguments)])
    else
      match ConvertedPrefix(types, arguments, |types|)
      case Thrown(m) => Raised(m)
      case Ok(args) => reflect(def.toolMethod, target, args)
  }

  /** A method without parameters is called with no arguments, whatever the
      arguments map holds. */
  lemma InvokeWithoutParameters(def: ToolDefinition, a1: seq<(string, Value)>, a2: seq<(string, Value)>,
                                controller: Option<Instance>, reflect: Reflection)
    requires DoubleFree(def.toolMethod) && def.toolMethod.paramTypes == []
    ensures InvokeOutcome(def, a1, controller, reflect) == reflect(def.toolMethod, Target(def, controller), [])
    ensures InvokeOutcome(def, a1, controller, reflect) == InvokeOutcome(def, a2, controller, reflect)
  {
  }

  /** A method whose one parameter is a Map receives the arguments map as it
      is, nothing converted. */
  lemma InvokeWithMap(def: ToolDefinition, arguments: seq<(string, Value)>, controller: Option<Instance>,
                      reflect: Reflection)
    requires DoubleFree(def.toolMethod) && def.toolMethod.paramTypes == [MapInterface]
    ensures InvokeOutcome(def, arguments, controller, reflect)
         == reflect(def.toolMethod, Target(def, controller), [VMap(arguments)])
  {
  }

  lemma {:induction false} ConvertedPrefixFailureSticks(types: seq<JavaType>, arguments: seq<(string, Value)>, k: nat, n: nat)
    requires k <= n <= |types|
    requires forall i | 0 <= i < |types| :: !IsDouble(types[i])
    requires ConvertedPrefix(types, arguments, k).Thrown?
    ensures ConvertedPrefix(types, arguments, n) == ConvertedPrefix(types, arguments, k)
    decreases n - k
  {
    if k < n {
      ConvertedPrefixFailureSticks(types, arguments, k, n - 1);
    }
  }

  /** invoke, as the source writes it: an index loop filling an argument array. */
  method Invoke(def: ToolDefinition, arguments: seq<(string, Value)>, controller: Option<Instance>,
                reflect: Reflection) returns (outcome: Outcome)
    requires DoubleFree(def.toolMethod)
    ensures outcome == InvokeOutcome(def, arguments, controller, reflect)
  {
    var target := if controller.Some? then controller.value else def.instance;
    var paramTypes := def.toolMethod.paramTypes;
    if |paramTypes| == 0 {
      outcome := reflect(def.toolMethod, target, []);
    } else if |paramTypes| == 1 && paramTypes[0] == MapInterface {
      outcome := reflect(def.toolMethod, target, [VMap(arguments)]);
    } else {
      var args := new Value[|paramTypes|];
      var names := ParameterNames(def.toolMethod);
      var i := 0;
      while i < |paramTypes|
        invariant 0 <= i <= |paramTypes|
        invariant ConvertedPrefix(paramTypes, arguments, i) == Ok(args[..i])
      {
        var converted := ConvertValue(LookupValue(arguments, names[i]), paramTypes[i]);
        if converted.Thrown? {
          ConvertedPrefixFailureSticks(paramTypes, arguments, i + 1, |paramTypes|);
          return Raised(converted.message);
        }
        args[i] := converted.value;
        assert args[..i + 1] == args[..i] + [converted.value];
        i := i + 1;
      }
      assert args[..] == args[..i];
      outcome := reflect(def.toolMethod, target, args[..]);
    }
  }

  /** A controller instance replaces the registered instance as the target,
      and nothing else about the call changes. */
  lemma ControllerReplacesInstance(def: ToolDefinition, arguments: seq<(string, Value)>, c: Instance, reflect: Reflection)
    requires DoubleFree(def.toolMethod)
    ensures InvokeOutcome(def, arguments, Some(c), reflect) == InvokeOutcome(def.(instance := c), arguments, None, reflect)
  {
  }

  /** Parameter i receives the conversion of the value under "arg" + i. */
  lemma {:induction false} ConvertedPrefixPositional(types: seq<JavaType>, arguments: seq<(string, Value)>, k: nat)
    requires k <= |types|
    requires forall i | 0 <= i < |types| :: !IsDouble(types[i])
    requires ConvertedPrefix(types, arguments, k).Ok?
    ensures forall i | 0 <= i < k ::
      ConvertValue(LookupValue(arguments, ArgumentKey(i)), types[i]) == Ok(ConvertedPrefix(types, arguments, k).value[i])
  {
    if k > 0 {
      ConvertedPrefixPositional(types, arguments, k - 1);
    }
  }

  /** The conversions only look at the keys "arg0" .. "arg(k-1)": two maps
      that agree there convert alike, whatever else they hold, and in
      particular whatever they hold under the parameters' declared names. */
  lemma {:induction false} ConvertedPrefixReadsOnlyArgumentKeys(types: seq<JavaType>, a1: seq<(string, Value)>,
                                                               a2: seq<(string, Value)>, k: nat)
    requires k <= |types|
    requires forall i | 0 <= i < |types| :: !IsDouble(types[i])
    requires forall i | 0 <= i < k :: LookupValue(a1, ArgumentKey(i)) == LookupValue(a2, ArgumentKey(i))
    ensures ConvertedPrefix(types, a1, k) == ConvertedPrefix(types, a2, k)
  {
    if k > 0 {
      ConvertedPrefixReadsOnlyArgumentKeys(types, a1, a2, k - 1);
    }
  }

  /** A method with parameters other than a single Map is called with
      argument i converted from the value under "arg" + i, and its outcome
      depends on the arguments map only through those keys. */
  lemma InvokePositional(def: ToolDefinition, a1: seq<(string, Value)>, a2: seq<(string, Value)>,
                         controller: Option<Instance>, reflect: Reflection)
    requires DoubleFree(def.toolMethod)
    requires |def.toolMethod.paramTypes| > 0 && !(|def.toolMethod.paramTypes| == 1 && def.toolMethod.paramTypes[0] == MapInterface)
    requires forall i | 0 <= i < |def.toolMethod.paramTypes| :: LookupValue(a1, ArgumentKey(i)) == LookupValue(a2, ArgumentKey(i))
    ensures InvokeOutcome(def, a1, controller, reflect) == InvokeOutcome(def, a2, controller, reflect)
    ensures ConvertedPrefix(def.toolMethod.paramTypes, a1, |def.toolMethod.paramTypes|).Ok? ==>
      var args := ConvertedPrefix(def.toolMethod.paramTypes, a1, |def.toolMethod.paramTypes|).value;
      InvokeOutcome(def, a1, controller, reflect) == reflect(def.toolMethod, Target(def, controller), args)
      && forall i | 0 <= i < |args| ::
           ConvertValue(LookupValue(a1, ArgumentKey(i)), def.toolMethod.paramTypes[i]) == Ok(args[i])
  {
    var types := def.toolMethod.paramTypes;
    ConvertedPrefixReadsOnlyArgumentKeys(types, a1, a2, |types|);
    if ConvertedPrefix(types, a1, |types|).Ok? {
      ConvertedPrefixPositional(types, a1, |types|);
    }
  }
}
