/**
 * The values that flow between blocks: Python values held in workflow variables, IM messages
 * (`kirara_ai.im.message`) and LLM chat messages and responses (`kirara_ai.llm.format`).
 * Only the fields the modelled blocks read or build are kept.
 */
module Messages {
  import opened Wrappers
  import opened Numerals

  /** A Python value as the blocks see it; `str(v)` of a container or object is carried as `repr`. */
  datatype PyValue =
    | PyNone
    | PyStr(s: string)
    | PyInt(i: int)
    | PyDict(entries: map<string, PyValue>, repr: string)
    | PyList(items: seq<PyValue>, repr: string)
    | PyOther(repr: string)

  /** Python's `str(v)`. */
  function Str(v: PyValue): (r: string)
    ensures v.PyStr? ==> r == v.s
  {
    match v
    case PyNone => "None"
    case PyStr(s) => s
    case PyInt(i) => if i < 0 then "-" + NatToString(-i) else NatToString(i)
    case PyDict(_, repr) => repr
    case PyList(_, repr) => repr
    case PyOther(repr) => repr
  }

  /** `ChatSender`: the fields of a sender the blocks read. */
  datatype ChatSender = ChatSender(userId: string, displayName: string)

  /** One element of an IM message. */
  datatype MessageElement =
    | TextElement(text: string)
    | ImageElement(mediaId: string)
    | OtherElement(kind: string)

  /** `[TextMessage(t) for t in texts]`. */
  function TextElements(texts: seq<string>): (r: seq<MessageElement>)
    ensures |r| == |texts| && forall i :: 0 <= i < |texts| ==> r[i] == TextElement(texts[i])
  {
    if texts == [] then [] else [TextElement(texts[0])] + TextElements(texts[1..])
  }

  /** `IMMessage(sender=..., message_elements=[...])`. */
  datatype ImMessage = ImMessage(sender: ChatSender, elements: seq<MessageElement>)

  /**
   * The properties `IMMessage.content` and `IMMessage.images`, derived from the elements by
   * code that is not part of this model; `images` is given as the media ids of the images.
   */
  datatype MessageView = MessageView(
    content: seq<MessageElement> -> string,
    imageIds: seq<MessageElement> -> seq<string>)

  /** One part of an LLM chat message's content. */
  datatype ContentPart =
    | TextPart(text: string)
    | ImagePart(mediaId: string)
    | OtherPart(kind: string)

  /** A tool call requested by the model: the function's name and its arguments. */
  datatype ToolCall = ToolCall(functionName: string, arguments: string)

  /** `LLMChatMessage(role=..., content=[...], tool_calls=[...])`; no tool calls is the empty list. */
  datatype LlmMessage = LlmMessage(role: string, content: seq<ContentPart>, toolCalls: seq<ToolCall>)

  /** `LLMChatResponse`: its `message` may be absent. */
  datatype LlmResponse = LlmResponse(message: Option<LlmMessage>)

  /** `ComposableMessageType`: what a memory composer accepts. */
  datatype Composable = ImComposable(im: ImMessage) | LlmComposable(llm: LlmMessage)

  /** A message of one text part, as the blocks build for prompts and tool results. */
  function TextMessage(role: string, text: string): LlmMessage {
    LlmMessage(role, [TextPart(text)], [])
  }
}
