/**
 The shapes shared by the hosted chat-completion client, the service selector
 and the upload page: chat messages and their content parts, chat options,
 the raw completion the hosted endpoint returns and the normalised AIResponse
 every backend hands back. Also the JavaScript `a || b` fallback on the three
 value kinds the code applies it to.
 */
module Types {

  /** `undefined` / `null` versus a present value. */
  datatype Option<T> = None | Some(value: T)

  /** The role of a chat message. */
  datatype Role = User | Assistant | System

  /** One part of a multi-part message content. */
  datatype ContentPart =
    | TextPart(text: string)
    | ImageUrlPart(url: string)
    | FilePart(puterPath: string)

  /** Message content: a bare string or an ordered list of parts. */
  datatype Content = Plain(s: string) | Parts(parts: seq<ContentPart>)

  datatype ChatMessage = ChatMessage(role: Role, content: Content)

  /** The first argument of `chat`: a bare prompt or a message list. */
  datatype Prompt = PromptText(text: string) | PromptMessages(messages: seq<ChatMessage>)

  /** Caller options; every field may be left out. */
  datatype ChatOptions = ChatOptions(model: Option<string>, temperature: Option<real>, maxTokens: Option<int>)

  /** The second argument of `chat`: absent, an image URL, or an options object. */
  datatype ImageArg = NoImage | ImageUrl(url: string) | ImageOptions(options: ChatOptions)

  /** The argument of `img2txt`: a URL, or a file/blob, represented here by
      the data URL the browser's reader produces for it. */
  datatype ImageSource = UrlImage(url: string) | BlobImage(dataUrl: string)

  /** The body sent to the hosted chat-completion endpoint. */
  datatype Request = Request(model: string, messages: seq<ChatMessage>, temperature: real, maxTokens: int)

  /** One choice of a raw completion; `content` and `finishReason` may be null. */
  datatype RawChoice = RawChoice(index: int, role: string, content: Option<string>, finishReason: Option<string>)

  /** A raw completion; `totalTokens` is absent when the endpoint omits usage. */
  datatype RawCompletion = RawCompletion(model: string, choices: seq<RawChoice>, totalTokens: Option<int>)

  datatype Usage = Usage(kind: string, model: string, amount: int, cost: int)

  datatype ResponseMessage = ResponseMessage(role: string, content: Content, refusal: Option<string>, annotations: seq<string>)

  /** The normalised response every backend returns. */
  datatype AIResponse = AIResponse(
    index: int,
    message: ResponseMessage,
    finishReason: string,
    usage: seq<Usage>,
    viaAiChatService: bool)

  /** `o || d` on an optional string: the empty string is falsy. */
  function StringOr(o: Option<string>, d: string): (r: string)
    ensures o.Some? && o.value != "" ==> r == o.value
    ensures o.None? || o.value == "" ==> r == d
  {
    if o.Some? && o.value != "" then o.value else d
  }

  /** `o || d` on an optional number: zero is falsy (NaN is not modelled). */
  function RealOr(o: Option<real>, d: real): (r: real)
    ensures o.Some? && o.value != 0.0 ==> r == o.value
    ensures o.None? || o.value == 0.0 ==> r == d
  {
    if o.Some? && o.value != 0.0 then o.value else d
  }

  /** `o || d` on an optional integer: zero is falsy. */
  function IntOr(o: Option<int>, d: int): (r: int)
    ensures o.Some? && o.value != 0 ==> r == o.value
    ensures o.None? || o.value == 0 ==> r == d
  {
    if o.Some? && o.value != 0 then o.value else d
  }
}
