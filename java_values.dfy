/** The Java objects that travel between the JSON layer and a tool method:
    argument values as Jackson's convertValue produces them, the classes a
    parameter may be declared with, and the reflective call itself, which the
    model takes as a parameter because it runs code outside the core. */
module JavaValues {
  import opened Wrappers
  import opened Json
  import opened JavaText

  /** The parameter classes the core distinguishes. */
  datatype JavaType =
    | StringClass
    | IntegerClass | IntType
    | LongClass | LongType
    | DoubleClass | DoubleType
    | BooleanClass | BooleanType
    | ByteType | ShortType | FloatType | CharType
    | MapInterface
    | ObjectClass
    | OtherClass(name: string)

  predicate IsPrimitive(t: JavaType)
  {
    t.IntType? || t.LongType? || t.DoubleType? || t.BooleanType?
    || t.ByteType? || t.ShortType? || t.FloatType? || t.CharType?
  }

  /** A Java object: null, a boxed primitive, a String, an ArrayList or a
      LinkedHashMap. Float and double values occur only as the zero defaults. */
  datatype Value =
    | VNull
    | VBool(b: bool)
    | VInteger(i: int)
    | VLong(l: int)
    | VBigInteger(n: int)
    | VByte(byteValue: int)
    | VShort(shortValue: int)
    | VChar(c: char)
    | VFloatZero
    | VDoubleZero
    | VString(s: string)
    | VList(items: seq<Value>)
    | VMap(entries: seq<(string, Value)>)

  /** Class.isInstance(v). A primitive class has no instances, and none of
      the modelled values is an instance of another class. */
  predicate IsInstance(v: Value, t: JavaType)
  {
    match t
    case StringClass => v.VString?
    case IntegerClass => v.VInteger?
    case LongClass => v.VLong?
    case DoubleClass => v.VDoubleZero?
    case BooleanClass => v.VBool?
    case MapInterface => v.VMap?
    case ObjectClass => !v.VNull?
    case _ => false
  }

  /** v instanceof Number. */
  predicate IsNumber(v: Value)
  {
    v.VInteger? || v.VLong? || v.VBigInteger? || v.VByte? || v.VShort? || v.VFloatZero? || v.VDoubleZero?
  }

  function IntegralValue(v: Value): int
    requires IsNumber(v)
  {
    match v
    case VInteger(i) => i
    case VLong(l) => l
    case VBigInteger(n) => n
    case VByte(b) => b
    case VShort(s) => s
    case _ => 0
  }

  /** The low 32 bits of n read as a signed int, as a narrowing cast does. */
  function Wrap32(n: int): (r: int)
    ensures Int32Min <= r <= Int32Max
    ensures (r - n) % 0x1_0000_0000 == 0
    ensures Int32Min <= n <= Int32Max ==> r == n
  {
    (n - Int32Min) % 0x1_0000_0000 + Int32Min
  }

  /** The low 64 bits of n read as a signed long. */
  function Wrap64(n: int): (r: int)
    ensures Int64Min <= r <= Int64Max
    ensures (r - n) % 0x1_0000_0000_0000_0000 == 0
    ensures Int64Min <= n <= Int64Max ==> r == n
  {
    (n - Int64Min) % 0x1_0000_0000_0000_0000 + Int64Min
  }

  /** Number.intValue(). */
  function IntValue(v: Value): int
    requires IsNumber(v)
  {
    Wrap32(IntegralValue(v))
  }

  /** Number.longValue(). */
  function LongValue(v: Value): int
    requires IsNumber(v)
  {
    Wrap64(IntegralValue(v))
  }

  /** String.valueOf(v): toString, with "null" for null, "[a, b]" for a list
      and "{k=v}" for a map. */
  function ValueOf(v: Value): string
  {
    match v
    case VNull => "null"
    case VBool(b) => BooleanString(b)
    case VInteger(i) => DecimalString(i)
    case VLong(l) => DecimalString(l)
    case VBigInteger(n) => DecimalString(n)
    case VByte(b) => DecimalString(b)
    case VShort(s) => DecimalString(s)
    case VChar(c) => [c]
    case VFloatZero => "0.0"
    case VDoubleZero => "0.0"
    case VString(s) => s
    case VList(items) => "[" + Join(seq(|items|, i requires 0 <= i < |items| => ValueOf(items[i]))) + "]"
    case VMap(entries) =>
      "{" + Join(seq(|entries|, i requires 0 <= i < |entries| => entries[i].0 + "=" + ValueOf(entries[i].1))) + "}"
  }

  /** The parts separated by ", ". */
  function Join(parts: seq<string>): string
  {
    if parts == [] then ""
    else if |parts| == 1 then parts[0]
    else parts[0] + ", " + Join(parts[1..])
  }

  /** getClass().getName() of a non-null value. */
  function ClassName(v: Value): string
  {
    match v
    case VNull => "null"
    case VBool(_) => "java.lang.Boolean"
    case VInteger(_) => "java.lang.Integer"
    case VLong(_) => "java.lang.Long"
    case VBigInteger(_) => "java.math.BigInteger"
    case VByte(_) => "java.lang.Byte"
    case VShort(_) => "java.lang.Short"
    case VChar(_) => "java.lang.Character"
    case VFloatZero => "java.lang.Float"
    case VDoubleZero => "java.lang.Double"
    case VString(_) => "java.lang.String"
    case VList(_) => "java.util.ArrayList"
    case VMap(_) => "java.util.LinkedHashMap"
  }

  /** A null exception message as string concatenation renders it. A
      NullPointerException raised by the JVM itself has no message. */
  const NullMessage: string := "null"

  /** The message of the ClassCastException of a failed cast. */
  function ClassCastMessage(from: string, to: string): string
  {
    from + " cannot be cast to " + to
  }

  /** Jackson's convertValue of a tree to Object: integral numbers become the
      smallest of Integer, Long and BigInteger that holds them, arrays become
      lists and objects become maps in member order. */
  function FromJson(j: Json): (v: Value)
    ensures j.JObj? ==> v.VMap? && |v.entries| == |j.fields|
  {
    match j
    case JNull => VNull
    case JBool(b) => VBool(b)
    case JNum(n) =>
      if Int32Min <= n <= Int32Max then VInteger(n)
      else if Int64Min <= n <= Int64Max then VLong(n)
      else VBigInteger(n)
    case JStr(s) => VString(s)
    case JArr(items) => VList(seq(|items|, i requires 0 <= i < |items| => FromJson(items[i])))
    case JObj(fields) => VMap(seq(|fields|, i requires 0 <= i < |fields| => (fields[i].0, FromJson(fields[i].1))))
  }

  /** The map convertValue builds from an object node's members. */
  function FromJsonFields(fields: Fields): (entries: seq<(string, Value)>)
    ensures |entries| == |fields|
    ensures forall i | 0 <= i < |fields| :: entries[i] == (fields[i].0, FromJson(fields[i].1))
  {
    FromJson(JObj(fields)).entries
  }

  /** Map.get(key) on a map in member order: the first entry's value, or null
      when the key is absent. */
  function LookupValue(entries: seq<(string, Value)>, key: string): Value
  {
    if entries == [] then VNull
    else if entries[0].0 == key then entries[0].1
    else LookupValue(entries[1..], key)
  }

  /** A converted member is found under its own name in the converted map. */
  lemma {:induction false} LookupFromJson(fields: Fields, key: string)
    ensures LookupValue(FromJsonFields(fields), key)
         == match Lookup(fields, key) case Some(j) => FromJson(j) case None => VNull
  {
    if fields != [] {
      LookupFromJson(fields[1..], key);
      assert FromJsonFields(fields)[1..] == FromJsonFields(fields[1..]);
    }
  }

  /** Reading back a number Jackson converted gives the number itself. */
  lemma IntValueOfConvertedNumber(n: int)
    requires Int32Min <= n <= Int32Max
    ensures IsNumber(FromJson(JNum(n))) && IntValue(FromJson(JNum(n))) == n
    ensures ParseInt(ValueOf(FromJson(JNum(n)))) == Ok(n)
  {
    ParseIntOfDecimal(n);
  }

  /** An object the JVM holds a reference to. */
  datatype Instance = Instance(id: nat)

  /** A reflective Method: its name and declared parameter classes. */
  datatype MethodRef = MethodRef(name: string, paramTypes: seq<JavaType>)

  /** What a tool method returned: null, or an object given by what its
      toString() gives (the text, or the message of the exception a
      user-defined toString throws) and the JSON tree Jackson's valueToTree
      makes of it. */
  datatype JavaResult = NullResult | ObjectResult(text: Result<string>, tree: Json)

  /** valueToTree of a returned object. */
  function TreeOf(r: JavaResult): Json
  {
    match r
    case NullResult => JNull
    case ObjectResult(_, tree) => tree
  }

  /** How a call to a tool method ended: a result; an exception raised on the
      way (a failed conversion, or Method.invoke refusing the arguments) with
      its message; or an exception thrown by the tool's own code, which
      Method.invoke wraps in an InvocationTargetException. */
  datatype Outcome = Returned(result: JavaResult) | Raised(message: string) | ToolThrew(cause: string)

  /** What e.getMessage() contributes when the caller appends it to a string.
      An InvocationTargetException carries no message of its own, so the
      tool's message is lost and "null" is appended. */
  function ExceptionMessage(o: Outcome): string
    requires !o.Returned?
  {
    match o
    case Raised(m) => m
    case ToolThrew(_) => NullMessage
  }

  /** Method.invoke(target, args). The tool's code is not part of the core, so
      every operation that calls a tool takes this as a parameter. */
  type Reflection = (MethodRef, Instance, seq<Value>) -> Outcome
}
