/** The envelope every tool answers with: a list of content items and an
    optional error flag. `stringify` stands for `JSON.stringify(data, null, 2)`. */
module Responses {
  import opened JsValue
  import opened Text

  datatype Content = Content(kind: string, text: string)

  datatype ToolResponse = ToolResponse(content: seq<Content>, isError: Option<bool>)

  /** A response made of one text item. */
  function TextResponse(text: string): (r: ToolResponse)
    ensures r.content == [Content("text", text)] && r.isError.None?
  {
    ToolResponse([Content("text", text)], None)
  }

  /** `createErrorResponse(error, operation)`: one text item naming the
      operation and the error's message, and the error flag set. */
  function CreateErrorResponse(e: Thrown, operation: string): (r: ToolResponse)
    ensures r.isError == Some(true)
    ensures |r.content| == 1 && r.content[0].kind == "text"
    ensures e.Error? ==> r.content[0].text == "Error " + operation + ": " + e.message
    ensures e.NonError? ==> r.content[0].text == "Error " + operation + ": Unknown error"
  {
    ToolResponse([Content("text", "Error " + operation + ": " + ErrorMessage(e))], Some(true))
  }

  /** `createSuccessResponse(data, message?)`: one text item holding the
      serialised data, preceded by the message and a newline when there is
      one, and no error flag. */
  function CreateSuccessResponse(data: Value, message: Option<string>, stringify: Value -> string): (r: ToolResponse)
    ensures r.isError.None?
    ensures |r.content| == 1 && r.content[0].kind == "text"
    ensures message.None? ==> r.content[0].text == stringify(data)
    ensures message.Some? ==> r.content[0].text == message.value + "\n" + stringify(data)
  {
    var json := stringify(data);
    TextResponse(if message.Some? then message.value + "\n" + json else json)
  }

  /** An error response and a success response can always be told apart by
      the flag, whatever their text. */
  lemma ErrorAndSuccessDiffer(e: Thrown, operation: string, data: Value, message: Option<string>, stringify: Value -> string)
    ensures CreateErrorResponse(e, operation) != CreateSuccessResponse(data, message, stringify)
  {
  }

  /** The message, when given, is the first line of a success response's
      text and the serialised data is the rest. */
  lemma SuccessTextSplits(data: Value, message: string, stringify: Value -> string)
    requires '\n' !in message
    ensures var text := CreateSuccessResponse(data, Some(message), stringify).content[0].text;
      text[..FirstIndex(text, '\n')] == message && text[FirstIndex(text, '\n') + 1..] == stringify(data)
  {
    var text := message + "\n" + stringify(data);
    assert text[..|message|] == message;
    FirstIndexAt(text, '\n', |message|);
  }

  /** `{ [key]: items, count: items.length }`, the payload of the list tools
      that report a count. Reading the length of a missing list throws. */
  function Counted(key: string, items: Value): (r: Result<Value>)
    ensures items.Arr? ==> r == Ok(Obj([Prop(key, items), Prop("count", Num(|items.items|))]))
    ensures r.Throw? <==> items == Null || items == Undefined
  {
    match Length(items)
    case Ok(n) => Ok(Obj([Prop(key, items), Prop("count", n)]))
    case Throw(e) => Throw(e)
  }

  /** The handler around one client call: the value the call produced is
      shaped into the success payload, and whatever the call or the shaping
      throws becomes an error response naming the operation. A handler
      never lets an error escape. */
  function Respond(result: Result<Value>, shape: Value -> Result<Value>, message: Option<string>,
                   operation: string, stringify: Value -> string): (r: ToolResponse)
    ensures result.Throw? ==> r == CreateErrorResponse(result.error, operation)
    ensures result.Ok? && shape(result.value).Throw? ==> r == CreateErrorResponse(shape(result.value).error, operation)
    ensures result.Ok? && shape(result.value).Ok? ==> r == CreateSuccessResponse(shape(result.value).value, message, stringify)
    ensures r.isError.None? <==> result.Ok? && shape(result.value).Ok?
  {
    match result
    case Throw(e) => CreateErrorResponse(e, operation)
    case Ok(v) =>
      match shape(v)
      case Throw(e) => CreateErrorResponse(e, operation)
      case Ok(data) => CreateSuccessResponse(data, message, stringify)
  }
}
