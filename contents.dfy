/**
 * The chat-history items the Bedrock helpers consume: a message has an
 * author role and an ordered list of content items of a few kinds.
 */
module Contents {
  import opened Wrappers
  import opened Values

  /** The roles that have an entry in the converter table. */
  datatype AuthorRole = System | User | Assistant | Tool

  /** How a function call carries its arguments. */
  datatype Arguments =
    | MappingArguments(fields: seq<Field>)   // already a mapping
    | StringArguments(text: string)          // a JSON document, possibly empty
    | NoArguments                            // None

  /**
   * One content item. `rendered` stands for `str(item)` of a function result,
   * whose formatting belongs to the content classes and is not modelled.
   */
  datatype ContentItem =
    | TextContent(text: string)
    | ImageContent(mimeType: string, data: seq<bv8>)
    | FunctionCallContent(id: Option<string>, name: Option<string>, arguments: Arguments)
    | FunctionResultContent(id: Option<string>, rendered: string)
    | OtherContent(typeName: string)

  datatype ChatMessage = ChatMessage(role: AuthorRole, items: seq<ContentItem>)

  /** No text item comes before position `i`. */
  predicate FirstTextAt(items: seq<ContentItem>, i: int)
    requires 0 <= i <= |items|
  {
    forall j :: 0 <= j < i ==> !items[j].TextContent?
  }

  /**
   * `message.content`: the text of the first text item, or "" when the
   * message has none.
   */
  function MessageText(items: seq<ContentItem>): (r: string)
    ensures (forall i :: 0 <= i < |items| ==> !items[i].TextContent?) ==> r == ""
    ensures forall i :: 0 <= i < |items| && items[i].TextContent? && FirstTextAt(items, i) ==> r == items[i].text
  {
    if items == [] then ""
    else if items[0].TextContent? then items[0].text
    else
      var r := MessageText(items[1..]);
      assert forall i :: 1 <= i < |items| ==> items[i] == items[1..][i - 1];
      r
  }
}
