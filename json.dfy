/** Jackson's JSON tree (JsonNode) as a value. An object keeps its members in
    insertion order, as ObjectNode's LinkedHashMap does. Numbers are integral
    only: a fractional or exponent number node (a double argument such as
    2.5, whose asText is "2.5") is outside this model. */
module Json {
  import opened Wrappers
  import JavaText

  datatype Json =
    | JNull
    | JBool(b: bool)
    | JNum(n: int)
    | JStr(s: string)
    | JArr(items: seq<Json>)
    | JObj(fields: seq<(string, Json)>)

  type Fields = seq<(string, Json)>

  function Keys(fields: Fields): set<string>
  {
    set i | 0 <= i < |fields| :: fields[i].0
  }

  /** The value stored under key: the first member with that name. */
  function Lookup(fields: Fields, key: string): (r: Option<Json>)
    ensures r.Some? <==> key in Keys(fields)
    ensures r.Some? ==> (key, r.value) in fields
  {
    if fields == [] then None
    else if fields[0].0 == key then Some(fields[0].1)
    else
      KeysCons(fields);
      Lookup(fields[1..], key)
  }

  /** JsonNode.get(key): only an object node has members. */
  function Get(j: Json, key: string): Option<Json>
  {
    if j.JObj? then Lookup(j.fields, key) else None
  }

  /** JsonNode.has(key). */
  predicate Has(j: Json, key: string)
  {
    Get(j, key).Some?
  }

  /** ObjectNode.put / set: a new key is appended, an existing key keeps its
      position and takes the new value. */
  function Put(fields: Fields, key: string, value: Json): (r: Fields)
    ensures Lookup(r, key) == Some(value)
    ensures forall k | k != key :: Lookup(r, k) == Lookup(fields, k)
    ensures Keys(r) == Keys(fields) + {key}
    ensures key in Keys(fields) ==> |r| == |fields|
    ensures key !in Keys(fields) ==> r == fields + [(key, value)]
  {
    KeysCons(fields);
    if fields == [] then [(key, value)]
    else if fields[0].0 == key then
      var r := [(key, value)] + fields[1..];
      KeysCons(r);
      assert r[1..] == fields[1..];
      r
    else
      var r := [fields[0]] + Put(fields[1..], key, value);
      KeysCons(r);
      assert r[1..] == Put(fields[1..], key, value);
      r
  }

  /** An ObjectNode's members have distinct names: its LinkedHashMap holds
      one entry per key. A field sequence here may repeat a name, but only
      Lookup's first match is ever seen, and Put replaces exactly that one. */
  predicate DistinctKeys(fields: Fields)
  {
    forall i, j | 0 <= i < j < |fields| :: fields[i].0 != fields[j].0
  }

  /** Putting into an object with distinct names keeps them distinct. */
  lemma {:induction false} PutKeepsDistinctKeys(fields: Fields, key: string, value: Json)
    requires DistinctKeys(fields)
    ensures DistinctKeys(Put(fields, key, value))
  {
    if fields != [] && fields[0].0 != key {
      var tail := Put(fields[1..], key, value);
      PutKeepsDistinctKeys(fields[1..], key, value);
      KeysCons(fields);
      forall k | k in Keys(fields[1..])
        ensures k != fields[0].0
      {
        var j :| 0 <= j < |fields[1..]| && fields[1..][j].0 == k;
        assert fields[1..][j] == fields[j + 1];
      }
      var r := Put(fields, key, value);
      assert r == [fields[0]] + tail;
      forall i, j | 0 <= i < j < |r|
        ensures r[i].0 != r[j].0
      {
        if i == 0 {
          assert r[j].0 == tail[j - 1].0;
          assert r[j].0 in Keys(tail);
        } else {
          assert r[i] == tail[i - 1] && r[j] == tail[j - 1];
        }
      }
    }
  }

  /** With distinct names, every member is the one Lookup finds. */
  lemma {:induction false} LookupFindsEveryMember(fields: Fields, key: string, value: Json)
    requires DistinctKeys(fields)
    requires (key, value) in fields
    ensures Lookup(fields, key) == Some(value)
  {
    if fields[0] != (key, value) {
      var k :| 0 <= k < |fields| && fields[k] == (key, value);
      assert fields[0].0 != key;
      assert fields[1..][k - 1] == (key, value);
      assert DistinctKeys(fields[1..]) by {
        forall i, j | 0 <= i < j < |fields[1..]|
          ensures fields[1..][i].0 != fields[1..][j].0
        {
          assert fields[1..][i] == fields[i + 1] && fields[1..][j] == fields[j + 1];
        }
      }
      LookupFindsEveryMember(fields[1..], key, value);
    }
  }

  /** Lookup unfolded once. */
  lemma LookupCons(fields: Fields, key: string)
    requires fields != []
    ensures Lookup(fields, key) == if fields[0].0 == key then Some(fields[0].1) else Lookup(fields[1..], key)
  {
  }

  lemma KeysCons(fields: Fields)
    ensures fields != [] ==> Keys(fields) == {fields[0].0} + Keys(fields[1..])
  {
    if fields != [] {
      forall k | k in Keys(fields)
        ensures k in {fields[0].0} + Keys(fields[1..])
      {
        var i :| 0 <= i < |fields| && fields[i].0 == k;
        if i > 0 {
          assert fields[1..][i - 1].0 == k;
        }
      }
      forall k | k in Keys(fields[1..])
        ensures k in Keys(fields)
      {
        var i :| 0 <= i < |fields[1..]| && fields[1..][i].0 == k;
        assert fields[i + 1].0 == k;
      }
    }
  }

  /** JsonNode.asText(): a string's own text, the decimal form of a number,
      "true"/"false", "null" for the null node and "" for containers. */
  function AsText(j: Json): string
  {
    match j
    case JNull => "null"
    case JBool(b) => JavaText.BooleanString(b)
    case JNum(n) => JavaText.DecimalString(n)
    case JStr(s) => s
    case JArr(_) => ""
    case JObj(_) => ""
  }

  /** An array of string nodes, one per string, in order. */
  function Strings(s: seq<string>): (r: seq<Json>)
    ensures |r| == |s| && forall i | 0 <= i < |s| :: r[i] == JStr(s[i])
  {
    seq(|s|, i requires 0 <= i < |s| => JStr(s[i]))
  }

  /** The node that ObjectNode.put(key, String) stores: a null String becomes
      the null node. */
  function TextOrNull(s: Option<string>): Json
  {
    match s
    case None => JNull
    case Some(t) => JStr(t)
  }

  /** Putting twice under one key is putting the second value once. */
  lemma {:induction false} PutPut(fields: Fields, key: string, v: Json, w: Json)
    ensures Put(Put(fields, key, v), key, w) == Put(fields, key, w)
  {
    if fields != [] && fields[0].0 != key {
      PutPut(fields[1..], key, v, w);
      assert Put(fields, key, v)[1..] == Put(fields[1..], key, v);
    }
  }
}
