# Bedrock request helpers of Semantic Kernel, in Dafny

This project models the helpers that the Semantic Kernel Python SDK uses to
talk to the Amazon Bedrock Converse API
(`python/semantic_kernel/connectors/ai/bedrock/services/model_provider/utils.py`).
The helpers do four things:

- **None removal.** `remove_none_recursively` strips `None`-valued entries
  from a request dictionary and from the dictionaries nested in it, down to
  `max_depth` levels (5 by default). Lists are not entered.
- **Message formatting.** The four `_format_*_message` functions, reached
  through the `MESSAGE_CONVERTERS` table, turn a chat message into a Converse
  message. The system formatter emits a single `text` entry holding the
  message text and never fails. The user, assistant and tool formatters
  produce one content block per item, in item order, and stop at the first
  item their role does not allow, raising `ServiceInvalidRequestError`; an
  assistant function call whose argument text is not valid JSON stops the
  assistant formatter with the `JSONDecodeError` of `json.loads` instead.
- **Tool choice.** `update_settings_from_function_choice_configuration` writes
  Bedrock's `tool_choice` and `tools` settings from the function-choice type
  (NONE, AUTO, REQUIRED) and the list of available kernel functions.
- **Finish reasons.** `finish_reason_from_bedrock_to_semantic_kernel` turns a
  Bedrock stop reason into the framework's `FinishReason`, or `None`.

Files and modules:

- `wrappers.dfy` (`Wrappers`): `Option` for Python's `X | None`, and `Result`
  for "a value, or the exception raised instead".
- `values.dfy` (`Values`): JSON-like values. A dictionary is an ordered list of
  fields, because Python dictionaries keep insertion order and that order is
  what gets serialised. `SetKey` is Python's `d[k] = v`.
- `none_removal.dfy` (`NoneRemoval`): `remove_none_recursively`, and the
  "no `None` left within the depth" invariant it establishes.
- `contents.dfy` (`Contents`): author roles, content items (text, image,
  function call, function result, any other kind), chat messages.
- `message_format.dfy` (`MessageFormat`): the formatters and the converter
  table. The user, assistant and tool formatters are methods with the
  source's loop. Each is proved equal to `Formatted`, a function that folds
  the per-item rule `Entry` over the items (`Collect`). The lemmas then state
  each role's promises about `Formatted`.
- `function_choice.dfy` (`FunctionChoice`): the Bedrock settings as a class
  with the two fields the update writes. The update is a method with
  `modifies`. The pure pieces (`ToolChoiceFor`, `ToolSpecs`, `Properties`,
  `RequiredNames`) carry the lemmas. Among them, `DecodeToolChoice` reads a
  `toolChoice` back as one of Bedrock's three modes (auto, any, a named
  tool), so the mapping can be stated by what it means.
- `finish_reason.dfy` (`FinishReasons`): the finish-reason table.

## Model

| member | source | states |
|---|---|---|
| `Values.SetKeyKeys` | python/semantic_kernel/connectors/ai/bedrock/services/model_provider/utils.py:199 | Python dictionary assignment: an existing key keeps its place, a new key goes last |
| `Values.SetKeyGet` | python/semantic_kernel/connectors/ai/bedrock/services/model_provider/utils.py:199 | after the assignment the key reads the new value and every other key reads what it did |
| `Values.SetKeyDistinct` | python/semantic_kernel/connectors/ai/bedrock/services/model_provider/utils.py:199 | assignment never creates a duplicate key |
| `NoneRemoval.RemoveNoneRecursively` | python/semantic_kernel/connectors/ai/bedrock/services/model_provider/utils.py:23-31 | the input comes back unchanged when `max_depth <= 0` or when it is not a dictionary; a dictionary stays a dictionary; the result is `None` exactly when the input is |
| `NoneRemoval.RemoveNone` | python/semantic_kernel/connectors/ai/bedrock/services/model_provider/utils.py:23 | the call with the default `max_depth=5` leaves no `None` within five levels, and returns its input unchanged exactly when there was none to remove |
| `NoneRemoval.RemoveNoneFields` | python/semantic_kernel/connectors/ai/bedrock/services/model_provider/utils.py:31 | the comprehension keeps no more entries than it was given, and none of the kept values is `None` |
| `NoneRemoval.RemoveNoneIsNoneFree` | python/semantic_kernel/connectors/ai/bedrock/services/model_provider/utils.py:23-31 | after one pass, no `None` value remains in any dictionary shallower than `max_depth` |
| `NoneRemoval.FixpointIffNoneFree` | python/semantic_kernel/connectors/ai/bedrock/services/model_provider/utils.py:23-31 | a value is returned unchanged if and only if it already has no `None` within `max_depth` |
| `NoneRemoval.RemoveNoneIdempotent` | python/semantic_kernel/connectors/ai/bedrock/services/model_provider/utils.py:23-31 | applying the function twice with the same depth gives the result of applying it once |
| `NoneRemoval.RemoveNoneFieldsOrder` | python/semantic_kernel/connectors/ai/bedrock/services/model_provider/utils.py:31 | the comprehension keeps the surviving keys in their original order: they form a subsequence of the input keys |
| `NoneRemoval.RemoveNoneFieldsDistinct` | python/semantic_kernel/connectors/ai/bedrock/services/model_provider/utils.py:31 | a dictionary without duplicate keys gives one without duplicate keys |
| `NoneRemoval.RemoveNoneFieldsGet` | python/semantic_kernel/connectors/ai/bedrock/services/model_provider/utils.py:31 | for a dictionary without duplicate keys: a key is kept exactly when its value is not `None`, and it is then bound to that value cleaned one level deeper |
| `NoneRemoval.RemoveNoneFieldsKeeps` | python/semantic_kernel/connectors/ai/bedrock/services/model_provider/utils.py:31 | all of the above together, for every key |
| `NoneRemoval.RemoveNoneDict` | python/semantic_kernel/connectors/ai/bedrock/services/model_provider/utils.py:25-31 | at depth `max_depth > 0` a dictionary without duplicate keys becomes a dictionary holding exactly its non-`None` entries, in order, each cleaned at `max_depth - 1` |
| `Contents.MessageText` | python/semantic_kernel/connectors/ai/bedrock/services/model_provider/utils.py:45 | `message.content` is the text of the first text item, or "" when there is none |
| `MessageFormat.RemovePrefix` | python/semantic_kernel/connectors/ai/bedrock/services/model_provider/utils.py:67 | `removeprefix`: putting the prefix back gives the input when it had the prefix; otherwise the input is unchanged |
| `MessageFormat.ArgumentsText` | python/semantic_kernel/connectors/ai/bedrock/services/model_provider/utils.py:107 | `arguments or "{}"`: a non-empty argument string is used as it is; a missing or empty one becomes "{}" |
| `MessageFormat.ToolInput` | python/semantic_kernel/connectors/ai/bedrock/services/model_provider/utils.py:105-107 | a mapping is the input as given; otherwise the input is what the JSON parser makes of the argument text, and a parser failure is an error naming that text |
| `MessageFormat.CollectSuccess` | python/semantic_kernel/connectors/ai/bedrock/services/model_provider/utils.py:59-74 | the loop's list succeeds exactly when every item is accepted, and then has one block per item, in item order |
| `MessageFormat.CollectFirstFailure` | python/semantic_kernel/connectors/ai/bedrock/services/model_provider/utils.py:59-74 | when the loop's list fails, its error is that of the first rejected item, with every earlier item accepted |
| `MessageFormat.CollectFailureSticks` | python/semantic_kernel/connectors/ai/bedrock/services/model_provider/utils.py:60-62 | once a prefix of the items fails, the whole list fails with the same error, so raising mid-loop is sound |
| `MessageFormat.FormatSystemMessage` | python/semantic_kernel/connectors/ai/bedrock/services/model_provider/utils.py:34-45 | a system message is one `text` entry holding the message's text, and it never fails |
| `MessageFormat.FormatUserMessage` | python/semantic_kernel/connectors/ai/bedrock/services/model_provider/utils.py:48-79 | the loop returns exactly what the user rule gives for the items, including the error of the first rejected item |
| `MessageFormat.FormatAssistantMessage` | python/semantic_kernel/connectors/ai/bedrock/services/model_provider/utils.py:82-116 | the loop returns exactly what the assistant rule gives for the items |
| `MessageFormat.FormatToolMessage` | python/semantic_kernel/connectors/ai/bedrock/services/model_provider/utils.py:119-149 | the loop returns exactly what the tool rule gives for the items |
| `MessageFormat.FormattedShape` | python/semantic_kernel/connectors/ai/bedrock/services/model_provider/utils.py:59-79 | for every role: failure exactly when some item is not accepted, with the first such item's error; on success the message reads back with the role tag and one block per item, in order, each tagged after its item's kind (text, image, toolUse, toolResult) |
| `MessageFormat.UserMessageSpec` | python/semantic_kernel/connectors/ai/bedrock/services/model_provider/utils.py:59-79 | a user message fails exactly when some item is neither text nor image. Otherwise it is tagged "user"; text becomes `{"text": ...}`; an image becomes an image block with its bytes, whose format is the MIME type without "image/" |
| `MessageFormat.AssistantMessageSpec` | python/semantic_kernel/connectors/ai/bedrock/services/model_provider/utils.py:93-116 | any image or function result makes it fail. It fails exactly when some item is not text and not a call whose arguments parse. The first such item's kind decides the error. Otherwise it is tagged "assistant", and each call becomes a `toolUse` with the call's id, name and input |
| `MessageFormat.ToolMessageSpec` | python/semantic_kernel/connectors/ai/bedrock/services/model_provider/utils.py:128-149 | a tool message fails exactly when some item is neither text nor a function result; the first such item decides between the image error and the unsupported-type error. Otherwise it is tagged "user", and each result becomes a `toolResult` with the same id and exactly one text block |
| `MessageFormat.ConvertMessage` | python/semantic_kernel/connectors/ai/bedrock/services/model_provider/utils.py:152-157 | dispatching on the author role gives that role's formatter's result |
| `MessageFormat.Converted` | python/semantic_kernel/connectors/ai/bedrock/services/model_provider/utils.py:152-157 | a system message always succeeds and has no role tag; a converted assistant message is tagged "assistant"; user and tool messages are both tagged "user" |
| `FunctionChoice.RequiredNames` | python/semantic_kernel/connectors/ai/bedrock/services/model_provider/utils.py:200 | the `required` list is a subsequence of the parameter names, and a name is in it exactly when some parameter of that name is required |
| `FunctionChoice.RequiredNamesPositions` | python/semantic_kernel/connectors/ai/bedrock/services/model_provider/utils.py:200 | the `required` list pins down exactly: there is an increasing list of positions, holding exactly the positions of the required parameters, whose parameters' names are the list entry by entry, repeated names included |
| `FunctionChoice.PropertiesDistinct` | python/semantic_kernel/connectors/ai/bedrock/services/model_provider/utils.py:199 | the `properties` dictionary has no duplicate key |
| `FunctionChoice.PropertiesKeys` | python/semantic_kernel/connectors/ai/bedrock/services/model_provider/utils.py:199 | its keys are exactly the parameter names |
| `FunctionChoice.PropertiesValues` | python/semantic_kernel/connectors/ai/bedrock/services/model_provider/utils.py:199 | each name is bound to the schema of the last parameter with that name |
| `FunctionChoice.UpdateSettingsFromFunctionChoiceConfiguration` | python/semantic_kernel/connectors/ai/bedrock/services/model_provider/utils.py:160-206 | with type NONE, or with no available functions, both settings are unchanged; otherwise `tool_choice` is the mapped choice and `tools` is the tool-spec list of the available functions |
| `FunctionChoice.ToolSpecRequiredReadBack` | python/semantic_kernel/connectors/ai/bedrock/services/model_provider/utils.py:193-202 | a tool spec's `inputSchema.json.required` reads back as the function's required parameter names |
| `FunctionChoice.ToolSpecsShape` | python/semantic_kernel/connectors/ai/bedrock/services/model_provider/utils.py:191-206 | `tools` has one tool spec per available function, in order; each is named by the function's fully qualified name and lists that function's required parameters |
| `FunctionChoice.ToolChoiceFor` | python/semantic_kernel/connectors/ai/bedrock/services/model_provider/utils.py:168-189 | the chosen `tool_choice` is a valid Bedrock mode. It obliges the model to call a tool exactly when the type is REQUIRED, and every available function stays callable. REQUIRED with one function names that function; with several it asks for any |
| `FinishReasons.FinishReasonFromBedrock` | python/semantic_kernel/connectors/ai/bedrock/services/model_provider/utils.py:209-217 | a string translates to a reason exactly when it is one of that reason's Bedrock names ("stop_sequence" and "end_turn" for STOP, "max_tokens" for LENGTH, "content_filtered" for CONTENT_FILTER, "tool_use" for TOOL_CALLS); every other string gives None |

## Left out

- `json.loads` (utils.py:107) is the parameter `parseJson`, with `None` standing for the decode error it raises. JSON parsing itself is not modelled.
- `str(item)` of a function result (utils.py:140) is the item's `rendered` field. How the content classes render results is not modelled.
- Image bytes (utils.py:69) and parameter schemas (`param.schema_data`, utils.py:199) are carried through as opaque values.
- The `isinstance` assertion on the settings (utils.py:166) is replaced by typing the parameter as the Bedrock settings class.
- `ChatMessageContent.content`, `KernelFunctionMetadata.fully_qualified_name` and the content classes are not part of this model. `content` is taken to be the first text item's text, and the fully qualified name is a field.
- Content kinds are disjoint here. A subclass of `TextContent` or `ImageContent` that `isinstance` would also match is not represented.
- An image whose MIME type is `None` is not represented; the Python code would fail with an attribute error.
- Author roles outside the converter table are not represented. Looking one up would raise `KeyError`.
- Values have no floating-point numbers, and dictionary keys are strings only.
- The demo scripts (the math planner, its arithmetic plugin and the career-advisor group chat) are not modelled. They are float arithmetic or calls into remote services and an external agent framework.
