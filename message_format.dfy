/**
 * The per-role message formatters and the converter table that turn a chat
 * message into the shape the Bedrock Converse API expects. Each formatter
 * walks the items in order, appends one content block per item and stops at
 * the first item its role does not allow.
 */
module MessageFormat {
  import opened Wrappers
  import opened Values
  import opened Contents

  /** Why a message cannot be formatted. All but the last are `ServiceInvalidRequestError`. */
  datatype FormatError =
    | UserContentNotSupported                   // neither text nor image in a user message
    | ImageInAssistantMessage
    | UnsupportedInAssistantMessage(item: ContentItem)
    | ImageInToolMessage
    | UnsupportedInToolMessage(item: ContentItem)
    | InvalidJsonArguments(text: string)        // `json.loads` raised on the call arguments

  /** `s.removeprefix(prefix)`. */
  function RemovePrefix(s: string, prefix: string): (r: string)
    ensures prefix <= s ==> prefix + r == s
    ensures !(prefix <= s) ==> r == s
  {
    if prefix <= s then s[|prefix|..] else s
  }

  /** `{"text": text}` */
  function TextBlock(text: string): Value
  {
    Single("text", Str(text))
  }

  /** `{"image": {"format": format, "source": {"bytes": data}}}` */
  function ImageBlock(format: string, data: seq<bv8>): Value
  {
    Single("image", Dict([Field("format", Str(format)), Field("source", Single("bytes", Bytes(data)))]))
  }

  /** `{"toolUse": {"toolUseId": id, "name": name, "input": input}}` */
  function ToolUseBlock(id: Option<string>, name: Option<string>, input: Value): Value
  {
    Single("toolUse", Dict([Field("toolUseId", OptionalStr(id)), Field("name", OptionalStr(name)), Field("input", input)]))
  }

  /** `{"toolResult": {"toolUseId": id, "content": [{"text": text}]}}` */
  function ToolResultBlock(id: Option<string>, text: string): Value
  {
    Single("toolResult", Dict([Field("toolUseId", OptionalStr(id)), Field("content", List([TextBlock(text)]))]))
  }

  /** An optional string as a value: `None` stays `None`. */
  function OptionalStr(s: Option<string>): Value
  {
    match s
    case Some(t) => Str(t)
    case None => Null
  }

  /** `{"role": role, "content": contents}` */
  function RoleMessage(role: string, contents: seq<Value>): Value
  {
    Dict([Field("role", Str(role)), Field("content", List(contents))])
  }

  /** `arguments or "{}"`: the JSON text of non-mapping arguments; missing or empty means "{}". */
  function ArgumentsText(arguments: Arguments): (r: string)
    ensures r != ""
    ensures arguments.StringArguments? && arguments.text != "" ==> r == arguments.text
    ensures arguments.NoArguments? || arguments == StringArguments("") ==> r == "{}"
  {
    match arguments
    case StringArguments(text) => if text == "" then "{}" else text
    case _ => "{}"
  }

  /**
   * The `input` of a tool use: a mapping is passed as it is; otherwise the
   * argument text goes through `parseJson`, which stands for `json.loads`
   * (None when it raises).
   */
  function ToolInput(arguments: Arguments, parseJson: string -> Option<Value>): (r: Result<Value, FormatError>)
    ensures arguments.MappingArguments? ==> r == Success(Dict(arguments.fields))
    ensures !arguments.MappingArguments? && parseJson(ArgumentsText(arguments)).Some? ==>
              r == Success(parseJson(ArgumentsText(arguments)).value)
    ensures !arguments.MappingArguments? && parseJson(ArgumentsText(arguments)).None? ==>
              r == Failure(InvalidJsonArguments(ArgumentsText(arguments)))
  {
    match arguments
    case MappingArguments(fields) => Success(Dict(fields))
    case _ =>
      match parseJson(ArgumentsText(arguments))
      case Some(v) => Success(v)
      case None => Failure(InvalidJsonArguments(ArgumentsText(arguments)))
  }

  /** The three item-by-item formatters; the assistant one needs the JSON parser. */
  datatype Formatter =
    | UserFormatter
    | AssistantFormatter(parseJson: string -> Option<Value>)
    | ToolFormatter

  /** The block one item becomes under a formatter, or why the formatter rejects it. */
  function Entry(fmt: Formatter, item: ContentItem): Result<Value, FormatError>
  {
    match fmt
    case UserFormatter =>
      (match item
       case ImageContent(mimeType, data) =>
         Success(ImageBlock(RemovePrefix(mimeType, "image/"), data))
       case TextContent(text) => Success(TextBlock(text))
       case _ => Failure(UserContentNotSupported))
    case AssistantFormatter(parseJson) =>
      (match item
       case ImageContent(_, _) => Failure(ImageInAssistantMessage)
       case TextContent(text) => Success(TextBlock(text))
       case FunctionCallContent(id, name, arguments) =>
         (match ToolInput(arguments, parseJson)
          case Failure(e) => Failure(e)
          case Success(input) =>
            Success(ToolUseBlock(id, name, input)))
       case _ => Failure(UnsupportedInAssistantMessage(item)))
    case ToolFormatter =>
      (match item
       case ImageContent(_, _) => Failure(ImageInToolMessage)
       case TextContent(text) => Success(TextBlock(text))
       case FunctionResultContent(id, rendered) =>
         Success(ToolResultBlock(id, rendered))
       case _ => Failure(UnsupportedInToolMessage(item)))
  }

  /**
   * The `contents` list a formatter's loop builds: the blocks of all items in
   * order, or the error of the first item that is rejected.
   */
  function Collect(fmt: Formatter, items: seq<ContentItem>): Result<seq<Value>, FormatError>
  {
    if items == [] then Success([])
    else
      match Collect(fmt, items[..|items| - 1])
      case Failure(e) => Failure(e)
      case Success(blocks) =>
        match Entry(fmt, items[|items| - 1])
        case Failure(e) => Failure(e)
        case Success(block) => Success(blocks + [block])
  }

  /** What a formatter returns: the role-tagged message, or the first error. */
  function Formatted(fmt: Formatter, role: string, items: seq<ContentItem>): Result<Value, FormatError>
  {
    match Collect(fmt, items)
    case Failure(e) => Failure(e)
    case Success(blocks) => Success(RoleMessage(role, blocks))
  }

  /**
   * `Collect` succeeds exactly when every item is accepted; it then holds one
   * block per item, in item order.
   */
  lemma {:induction false} CollectSuccess(fmt: Formatter, items: seq<ContentItem>)
    ensures Collect(fmt, items).Success? <==>
              forall i :: 0 <= i < |items| ==> Entry(fmt, items[i]).Success?
    ensures Collect(fmt, items).Success? ==>
              var blocks := Collect(fmt, items).value;
              |blocks| == |items| &&
              forall i :: 0 <= i < |items| ==> blocks[i] == Entry(fmt, items[i]).value
  {
    if items != [] {
      var n := |items| - 1;
      var init := items[..n];
      CollectSuccess(fmt, init);
      assert forall i :: 0 <= i < n ==> init[i] == items[i];
    }
  }

  /** When `Collect` fails, its error is that of the first rejected item. */
  lemma {:induction false} CollectFirstFailure(fmt: Formatter, items: seq<ContentItem>)
    ensures Collect(fmt, items).Failure? ==>
              exists i :: 0 <= i < |items| && Entry(fmt, items[i]) == Failure(Collect(fmt, items).error) &&
                          forall j :: 0 <= j < i ==> Entry(fmt, items[j]).Success?
  {
    if items != [] {
      var n := |items| - 1;
      var init := items[..n];
      CollectFirstFailure(fmt, init);
      CollectSuccess(fmt, init);
      assert forall i :: 0 <= i < n ==> init[i] == items[i];
      if Collect(fmt, init).Failure? {
        var i :| 0 <= i < n && Entry(fmt, init[i]) == Failure(Collect(fmt, init).error) &&
                 forall j :: 0 <= j < i ==> Entry(fmt, init[j]).Success?;
        assert Entry(fmt, items[i]) == Failure(Collect(fmt, items).error);
      } else if Entry(fmt, items[n]).Failure? {
        assert Entry(fmt, items[n]) == Failure(Collect(fmt, items).error);
      }
    }
  }

  /** Once a prefix fails, extending it keeps the same failure: the loop may stop early. */
  lemma {:induction false} CollectFailureSticks(fmt: Formatter, items: seq<ContentItem>, n: nat)
    requires n <= |items|
    requires Collect(fmt, items[..n]).Failure?
    ensures Collect(fmt, items) == Collect(fmt, items[..n])
    decreases |items|
  {
    if n < |items| {
      var init := items[..|items| - 1];
      assert init[..n] == items[..n];
      CollectFailureSticks(fmt, init, n);
    } else {
      assert items[..n] == items;
    }
  }

  /** One loop iteration that accepts item `i`. */
  lemma CollectStep(fmt: Formatter, items: seq<ContentItem>, i: nat, blocks: seq<Value>)
    requires i < |items|
    requires Collect(fmt, items[..i]) == Success(blocks)
    requires Entry(fmt, items[i]).Success?
    ensures Collect(fmt, items[..i + 1]) == Success(blocks + [Entry(fmt, items[i]).value])
  {
    assert items[..i + 1][..i] == items[..i];
  }

  /** One loop iteration that rejects item `i`: the whole list fails with that item's error. */
  lemma CollectStop(fmt: Formatter, items: seq<ContentItem>, i: nat)
    requires i < |items|
    requires Collect(fmt, items[..i]).Success?
    requires Entry(fmt, items[i]).Failure?
    ensures Collect(fmt, items) == Failure(Entry(fmt, items[i]).error)
  {
    assert items[..i + 1][..i] == items[..i];
    CollectFailureSticks(fmt, items, i + 1);
  }

  /** `_format_system_message`: the message text as a single text block; it never fails. */
  function FormatSystemMessage(message: ChatMessage): (r: Value)
    ensures r.Dict? && |r.fields| == 1 && r.fields[0].key == "text"
    ensures r.fields[0].value == Str(MessageText(message.items))
  {
    TextBlock(MessageText(message.items))
  }

  /** `_format_user_message` */
  method FormatUserMessage(message: ChatMessage) returns (r: Result<Value, FormatError>)
    ensures r == Formatted(UserFormatter, "user", message.items)
  {
    var items := message.items;
    var contents: seq<Value> := [];
    var i := 0;
    while i < |items|
      invariant 0 <= i <= |items|
      invariant Collect(UserFormatter, items[..i]) == Success(contents)
    {
      var item := items[i];
      if !(item.ImageContent? || item.TextContent?) {
        CollectStop(UserFormatter, items, i);
        return Failure(UserContentNotSupported);
      }
      CollectStep(UserFormatter, items, i, contents);
      if item.ImageContent? {
        contents := contents + [ImageBlock(RemovePrefix(item.mimeType, "image/"), item.data)];
      } else {
        contents := contents + [TextBlock(item.text)];
      }
      i := i + 1;
    }
    assert items[..i] == items;
    return Success(RoleMessage("user", contents));
  }

  /** `_format_assistant_message`; `parseJson` stands for `json.loads`. */
  method FormatAssistantMessage(message: ChatMessage, parseJson: string -> Option<Value>)
    returns (r: Result<Value, FormatError>)
    ensures r == Formatted(AssistantFormatter(parseJson), "assistant", message.items)
  {
    var fmt := AssistantFormatter(parseJson);
    var items := message.items;
    var contents: seq<Value> := [];
    var i := 0;
    while i < |items|
      invariant 0 <= i <= |items|
      invariant Collect(fmt, items[..i]) == Success(contents)
    {
      var item := items[i];
      if item.ImageContent? {
        CollectStop(fmt, items, i);
        return Failure(ImageInAssistantMessage);
      }
      if item.TextContent? {
        CollectStep(fmt, items, i, contents);
        contents := contents + [TextBlock(item.text)];
      } else if item.FunctionCallContent? {
        var input := ToolInput(item.arguments, parseJson);
        if input.Failure? {
          CollectStop(fmt, items, i);
          return Failure(input.error);
        }
        CollectStep(fmt, items, i, contents);
        contents := contents + [ToolUseBlock(item.id, item.name, input.value)];
      } else {
        CollectStop(fmt, items, i);
        return Failure(UnsupportedInAssistantMessage(item));
      }
      i := i + 1;
    }
    assert items[..i] == items;
    return Success(RoleMessage("assistant", contents));
  }

  /** `_format_tool_message`: tool results travel back under the "user" role. */
  method FormatToolMessage(message: ChatMessage) returns (r: Result<Value, FormatError>)
    ensures r == Formatted(ToolFormatter, "user", message.items)
  {
    var items := message.items;
    var contents: seq<Value> := [];
    var i := 0;
    while i < |items|
      invariant 0 <= i <= |items|
      invariant Collect(ToolFormatter, items[..i]) == Success(contents)
    {
      var item := items[i];
      if item.ImageContent? {
        CollectStop(ToolFormatter, items, i);
        return Failure(ImageInToolMessage);
      }
      if item.TextContent? {
        CollectStep(ToolFormatter, items, i, contents);
        contents := contents + [TextBlock(item.text)];
      } else if item.FunctionResultContent? {
        CollectStep(ToolFormatter, items, i, contents);
        contents := contents + [ToolResultBlock(item.id, item.rendered)];
      } else {
        CollectStop(ToolFormatter, items, i);
        return Failure(UnsupportedInToolMessage(item));
      }
      i := i + 1;
    }
    assert items[..i] == items;
    return Success(RoleMessage("user", contents));
  }

  /** Reads the role tag back out of a formatted message. */
  function MessageRole(message: Value): Option<string>
  {
    match message
    case Dict(fields) =>
      (match Get(fields, "role")
       case Some(Str(role)) => Some(role)
       case _ => None)
    case _ => None
  }

  /** Reads the content blocks back out of a formatted message. */
  function MessageBlocks(message: Value): seq<Value>
  {
    match message
    case Dict(fields) =>
      (match Get(fields, "content")
       case Some(List(blocks)) => blocks
       case _ => [])
    case _ => []
  }

  /** The single key a content block is tagged with. */
  function BlockTag(block: Value): Option<string>
  {
    if block.Dict? && |block.fields| == 1 then Some(block.fields[0].key) else None
  }

  /** The tag each kind of item is sent under. */
  function ItemTag(item: ContentItem): Option<string>
  {
    match item
    case TextContent(_) => Some("text")
    case ImageContent(_, _) => Some("image")
    case FunctionCallContent(_, _, _) => Some("toolUse")
    case FunctionResultContent(_, _) => Some("toolResult")
    case OtherContent(_) => None
  }

  /** A role-tagged message reads back as the role and blocks it was built from. */
  lemma RoleMessageReadBack(role: string, blocks: seq<Value>)
    ensures MessageRole(RoleMessage(role, blocks)) == Some(role)
    ensures MessageBlocks(RoleMessage(role, blocks)) == blocks
  {
    var fields := RoleMessage(role, blocks).fields;
    assert fields[1..] == [Field("content", List(blocks))];
    assert "role" != "content" by { assert "role"[0] != "content"[0]; }
    assert Get(fields[1..], "content") == Some(List(blocks));
    assert Get(fields, "content") == Some(List(blocks));
  }

  /** The item kinds each formatter accepts. */
  predicate Accepts(fmt: Formatter, item: ContentItem)
  {
    match fmt
    case UserFormatter => item.TextContent? || item.ImageContent?
    case AssistantFormatter(parseJson) =>
      item.TextContent? || (item.FunctionCallContent? && ToolInput(item.arguments, parseJson).Success?)
    case ToolFormatter => item.TextContent? || item.FunctionResultContent?
  }

  /**
   * Every formatter fails exactly when some item is not accepted, and then
   * with the error of the first such item; on success the message carries
   * the role tag and one block per item, in item order, each tagged after
   * its item's kind.
   */
  lemma FormattedShape(fmt: Formatter, role: string, items: seq<ContentItem>)
    ensures var r := Formatted(fmt, role, items);
      && (r.Failure? <==> exists i :: 0 <= i < |items| && !Accepts(fmt, items[i]))
      && (r.Failure? ==>
            exists i :: 0 <= i < |items| && !Accepts(fmt, items[i]) &&
                        (forall j :: 0 <= j < i ==> Accepts(fmt, items[j])) &&
                        Entry(fmt, items[i]) == Failure(r.error))
      && (r.Success? ==>
            && MessageRole(r.value) == Some(role)
            && |MessageBlocks(r.value)| == |items|
            && forall i :: 0 <= i < |items| ==>
                 MessageBlocks(r.value)[i] == Entry(fmt, items[i]).value &&
                 BlockTag(MessageBlocks(r.value)[i]) == ItemTag(items[i]))
  {
    CollectSuccess(fmt, items);
    CollectFirstFailure(fmt, items);
    if Collect(fmt, items).Success? {
      RoleMessageReadBack(role, Collect(fmt, items).value);
    }
    assert forall item :: Entry(fmt, item).Success? <==> Accepts(fmt, item);
    assert forall item :: Entry(fmt, item).Success? ==> BlockTag(Entry(fmt, item).value) == ItemTag(item);
  }

  /**
   * `_format_user_message` rejects any item that is neither text nor an
   * image; otherwise it tags the message "user" and turns each text into a
   * text block and each image into an image block whose format is the MIME
   * type without its "image/" prefix.
   */
  lemma UserMessageSpec(items: seq<ContentItem>)
    ensures var r := Formatted(UserFormatter, "user", items);
      && (r.Failure? <==> exists i :: 0 <= i < |items| && !items[i].TextContent? && !items[i].ImageContent?)
      && (r.Failure? ==> r.error == UserContentNotSupported)
      && (r.Success? ==>
            && MessageRole(r.value) == Some("user")
            && |MessageBlocks(r.value)| == |items|
            && forall i :: 0 <= i < |items| ==>
                 (items[i].TextContent? ==> MessageBlocks(r.value)[i] == TextBlock(items[i].text)) &&
                 (items[i].ImageContent? ==>
                    MessageBlocks(r.value)[i] == ImageBlock(RemovePrefix(items[i].mimeType, "image/"), items[i].data)))
  {
    FormattedShape(UserFormatter, "user", items);
  }

  /**
   * `_format_assistant_message` fails on any image, on any item that is
   * neither text nor a function call, and on call arguments the JSON parser
   * rejects; the first such item decides the error. Otherwise the message is
   * tagged "assistant" and each call becomes a tool use with the call's id,
   * name and input.
   */
  lemma AssistantMessageSpec(items: seq<ContentItem>, parseJson: string -> Option<Value>)
    ensures var r := Formatted(AssistantFormatter(parseJson), "assistant", items);
      && ((exists i :: 0 <= i < |items| && items[i].ImageContent?) ==> r.Failure?)
      && ((exists i :: 0 <= i < |items| && items[i].FunctionResultContent?) ==> r.Failure?)
      && (r.Failure? <==>
            exists i :: 0 <= i < |items| && !Accepts(AssistantFormatter(parseJson), items[i]))
      && (r.Failure? ==>
            exists i :: 0 <= i < |items| &&
                        (forall j :: 0 <= j < i ==> Accepts(AssistantFormatter(parseJson), items[j])) &&
                        !Accepts(AssistantFormatter(parseJson), items[i]) &&
                        (items[i].ImageContent? ==> r.error == ImageInAssistantMessage) &&
                        (items[i].FunctionCallContent? ==>
                           r.error == InvalidJsonArguments(ArgumentsText(items[i].arguments))) &&
                        (items[i].FunctionResultContent? || items[i].OtherContent? ==>
                           r.error == UnsupportedInAssistantMessage(items[i])) &&
                        !items[i].TextContent?)
      && (r.Success? ==>
            && MessageRole(r.value) == Some("assistant")
            && |MessageBlocks(r.value)| == |items|
            && forall i :: 0 <= i < |items| ==>
                 (items[i].TextContent? ==> MessageBlocks(r.value)[i] == TextBlock(items[i].text)) &&
                 (items[i].FunctionCallContent? ==>
                    MessageBlocks(r.value)[i] ==
                      ToolUseBlock(items[i].id, items[i].name, ToolInput(items[i].arguments, parseJson).value)))
  {
    FormattedShape(AssistantFormatter(parseJson), "assistant", items);
  }

  /**
   * `_format_tool_message` fails on images and on anything that is neither
   * text nor a function result, the first such item deciding the error; it
   * tags the message "user", not "tool", and each function result becomes a
   * tool result carrying the same id and exactly one text block.
   */
  lemma ToolMessageSpec(items: seq<ContentItem>)
    ensures var r := Formatted(ToolFormatter, "user", items);
      && (r.Failure? <==>
            exists i :: 0 <= i < |items| && !items[i].TextContent? && !items[i].FunctionResultContent?)
      && (r.Failure? ==>
            exists i :: 0 <= i < |items| &&
                        (forall j :: 0 <= j < i ==> items[j].TextContent? || items[j].FunctionResultContent?) &&
                        (items[i].ImageContent? ==> r.error == ImageInToolMessage) &&
                        (!items[i].ImageContent? ==> r.error == UnsupportedInToolMessage(items[i])) &&
                        !items[i].TextContent? && !items[i].FunctionResultContent?)
      && (r.Success? ==>
            && MessageRole(r.value) == Some("user")
            && |MessageBlocks(r.value)| == |items|
            && forall i :: 0 <= i < |items| ==>
                 (items[i].TextContent? ==> MessageBlocks(r.value)[i] == TextBlock(items[i].text)) &&
                 (items[i].FunctionResultContent? ==>
                    MessageBlocks(r.value)[i] == ToolResultBlock(items[i].id, items[i].rendered)))
  {
    FormattedShape(ToolFormatter, "user", items);
  }

  /**
   * `MESSAGE_CONVERTERS[message.role](message)`, as a value. A system message
   * always succeeds and carries no role tag; an assistant message is tagged
   * "assistant"; user and tool messages are both tagged "user".
   */
  function Converted(message: ChatMessage, parseJson: string -> Option<Value>): (r: Result<Value, FormatError>)
    ensures message.role == System ==> r.Success? && MessageRole(r.value).None?
    ensures r.Success? && message.role != System ==>
              MessageRole(r.value) == Some(if message.role == Assistant then "assistant" else "user")
  {
    match message.role
    case System => Success(FormatSystemMessage(message))
    case User => Formatted(UserFormatter, "user", message.items)
    case Assistant => Formatted(AssistantFormatter(parseJson), "assistant", message.items)
    case Tool => Formatted(ToolFormatter, "user", message.items)
  }

  /** The converter table: dispatch on the author role. */
  method ConvertMessage(message: ChatMessage, parseJson: string -> Option<Value>)
    returns (r: Result<Value, FormatError>)
    ensures r == Converted(message, parseJson)
  {
    match message.role
    case System => r := Success(FormatSystemMessage(message));
    case User => r := FormatUserMessage(message);
    case Assistant => r := FormatAssistantMessage(message, parseJson);
    case Tool => r := FormatToolMessage(message);
  }
}
