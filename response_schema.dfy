/** ResponseSchema.text: the tool-call result map a tool hands back, one text
    content item and an isError flag. The same map shape is what the registry
    and the demo service build for their error results. */
module ResponseSchema {
  import opened Wrappers
  import opened Json

  /** One content item {type: "text", text: t}. */
  function TextItem(text: string): Json
  {
    JObj([("type", JStr("text")), ("text", JStr(text))])
  }

  /** ResponseSchema.text(text, isError). */
  function Text(text: string, isError: bool): (r: Json)
    ensures r.JObj? && Keys(r.fields) == {"content", "isError"}
  {
    var r := JObj([("content", JArr([TextItem(text)])), ("isError", JBool(isError))]);
    assert r.fields[0].0 == "content" && r.fields[1].0 == "isError";
    r
  }

  /** The text of a result whose content is a single text item. */
  function TextOf(r: Json): Option<string>
  {
    match Get(r, "content")
    case Some(JArr(items)) =>
      if |items| == 1 && Get(items[0], "type") == Some(JStr("text")) then
        match Get(items[0], "text")
        case Some(JStr(t)) => Some(t)
        case _ => None
      else None
    case _ => None
  }

  /** The isError flag of a result. */
  function IsErrorOf(r: Json): Option<bool>
  {
    match Get(r, "isError")
    case Some(JBool(b)) => Some(b)
    case _ => None
  }

  /** A client reads back exactly the text and flag the builder was given. */
  lemma TextReadBack(text: string, isError: bool)
    ensures TextOf(Text(text, isError)) == Some(text)
    ensures IsErrorOf(Text(text, isError)) == Some(isError)
  {
    var item := TextItem(text);
    LookupCons(item.fields, "type");
    LookupCons(item.fields, "text");
    assert item.fields[1..] == [("text", JStr(text))];
    LookupCons(item.fields[1..], "text");
    var r := Text(text, isError);
    LookupCons(r.fields, "content");
    LookupCons(r.fields, "isError");
    assert r.fields[1..] == [("isError", JBool(isError))];
    LookupCons(r.fields[1..], "isError");
  }
}
