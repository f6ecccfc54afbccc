/**
 The hosted chat-completion client. Everything up to the network call is
 modelled: how a prompt and image argument become the outgoing message list,
 how caller options fall back to the defaults, which request `feedback` and
 `img2txt` send, and how a raw completion is normalised into an AIResponse.
 The call itself is the parameter `complete`: `None` stands for a call that
 threw, which the client catches and reports as an absent result.
 */
module OpenRouter {
  import opened Types

  const DefaultModel: string := "anthropic/claude-3.7-sonnet"
  const DefaultTemperature: real := 0.7
  const DefaultMaxTokens: int := 4000

  const VisionModel: string := "anthropic/claude-3.5-sonnet"
  const VisionTemperature: real := 0.1
  const VisionMaxTokens: int := 2000
  const ImageInstruction: string := "请提取这张图片中的所有文本内容。"

  /** Options after the client's defaults have been applied. */
  datatype ResolvedOptions = ResolvedOptions(model: string, temperature: real, maxTokens: int)

  /** `options?.x || default` for each of model, temperature and max_tokens:
      an absent or falsy (empty, zero) value takes the default. */
  function ResolveOptions(options: Option<ChatOptions>): (r: ResolvedOptions)
    ensures options.None? ==> r == ResolvedOptions(DefaultModel, DefaultTemperature, DefaultMaxTokens)
    ensures options.Some? ==> var o := options.value;
      && (if o.model.Some? && o.model.value != "" then r.model == o.model.value else r.model == DefaultModel)
      && (if o.temperature.Some? && o.temperature.value != 0.0 then r.temperature == o.temperature.value
          else r.temperature == DefaultTemperature)
      && (if o.maxTokens.Some? && o.maxTokens.value != 0 then r.maxTokens == o.maxTokens.value
          else r.maxTokens == DefaultMaxTokens)
    ensures r.model != "" && r.temperature != 0.0 && r.maxTokens != 0
  {
    match options
    case None => ResolvedOptions(DefaultModel, DefaultTemperature, DefaultMaxTokens)
    case Some(o) =>
      ResolvedOptions(
        StringOr(o.model, DefaultModel),
        RealOr(o.temperature, DefaultTemperature),
        IntOr(o.maxTokens, DefaultMaxTokens))
  }

  /** Resolved options passed back in as explicit options resolve to themselves:
      the defaults are never falsy, so a second resolution changes nothing. */
  lemma ResolveOptionsIdempotent(options: Option<ChatOptions>)
    ensures var r := ResolveOptions(options);
      ResolveOptions(Some(ChatOptions(Some(r.model), Some(r.temperature), Some(r.maxTokens)))) == r
  {
  }

  /** The placeholder text that stands for a file part. */
  function FilePlaceholder(puterPath: string): string {
    "[文件: " + puterPath + "]"
  }

  /** One part of `processMessageContent`: text parts keep their text, file
      parts become a text placeholder naming the path, other parts are kept. */
  function ProcessPart(p: ContentPart): (r: ContentPart)
    ensures p.TextPart? ==> r == p
    ensures p.FilePart? ==> r == TextPart(FilePlaceholder(p.puterPath))
    ensures p.ImageUrlPart? ==> r == p
    ensures !r.FilePart?
  {
    match p
    case TextPart(t) => TextPart(t)
    case FilePart(path) => TextPart(FilePlaceholder(path))
    case ImageUrlPart(_) => p
  }

  /** Content with no file part left in it. */
  predicate NoFileParts(c: Content) {
    c.Parts? ==> forall i :: 0 <= i < |c.parts| ==> !c.parts[i].FilePart?
  }

  /** `processMessageContent`: a string is returned unchanged, a part list is
      mapped part by part. */
  function ProcessContent(c: Content): (r: Content)
    ensures c.Plain? ==> r == c
    ensures c.Parts? ==>
      && r.Parts?
      && |r.parts| == |c.parts|
      && (forall i :: 0 <= i < |c.parts| ==> r.parts[i] == ProcessPart(c.parts[i]))
  {
    match c
    case Plain(_) => c
    case Parts(ps) => Parts(seq(|ps|, i requires 0 <= i < |ps| => ProcessPart(ps[i])))
  }

  /** Processing removes every file part, and processing processed content
      again changes nothing. */
  lemma ProcessContentNormalises(c: Content)
    ensures NoFileParts(ProcessContent(c))
    ensures ProcessContent(ProcessContent(c)) == ProcessContent(c)
  {
    var once := ProcessContent(c);
    if c.Parts? {
      var twice := ProcessContent(once);
      assert |twice.parts| == |once.parts|;
      forall i | 0 <= i < |once.parts|
        ensures twice.parts[i] == once.parts[i]
      {
        assert !once.parts[i].FilePart?;
      }
      assert twice.parts == once.parts;
    }
  }

  /** The message list `chat` starts from: a bare prompt becomes one user
      message; a message list keeps its length and roles and has each content
      processed. */
  function NormalizePrompt(prompt: Prompt): (r: seq<ChatMessage>)
    ensures prompt.PromptText? ==> r == [ChatMessage(User, Plain(prompt.text))]
    ensures prompt.PromptMessages? ==>
      && |r| == |prompt.messages|
      && (forall i :: 0 <= i < |r| ==> r[i].role == prompt.messages[i].role)
      && (forall i :: 0 <= i < |r| ==> r[i].content == ProcessContent(prompt.messages[i].content))
  {
    match prompt
    case PromptText(s) => [ChatMessage(User, Plain(s))]
    case PromptMessages(ms) =>
      seq(|ms|, i requires 0 <= i < |ms| => ChatMessage(ms[i].role, ProcessContent(ms[i].content)))
  }

  /** Grafting an image URL onto the last message: only when the argument is
      a string, the list is non-empty and the last message is a user message;
      its content becomes a text part (the old content if it was a string,
      else empty) followed by the image part. */
  function AttachImage(messages: seq<ChatMessage>, image: ImageArg): (r: seq<ChatMessage>)
    ensures |r| == |messages|
    ensures forall i :: 0 <= i < |messages| - 1 ==> r[i] == messages[i]
    ensures image.ImageUrl? && |messages| > 0 && messages[|messages| - 1].role == User ==>
      var last := messages[|messages| - 1];
      r[|r| - 1] == ChatMessage(User, Parts([
        TextPart(if last.content.Plain? then last.content.s else ""),
        ImageUrlPart(image.url)]))
    ensures !(image.ImageUrl? && |messages| > 0 && messages[|messages| - 1].role == User) ==> r == messages
  {
    if image.ImageUrl? && |messages| > 0 && messages[|messages| - 1].role == User then
      var last := messages[|messages| - 1];
      var text := match last.content
        case Plain(s) => s
        case Parts(_) => "";
      messages[..|messages| - 1] + [ChatMessage(User, Parts([TextPart(text), ImageUrlPart(image.url)]))]
    else messages
  }

  /** Every message of a normalised prompt is free of file parts. */
  lemma NormalizePromptHasNoFiles(prompt: Prompt)
    ensures forall i :: 0 <= i < |NormalizePrompt(prompt)| ==> NoFileParts(NormalizePrompt(prompt)[i].content)
  {
    if prompt.PromptMessages? {
      var ms := NormalizePrompt(prompt);
      forall i | 0 <= i < |ms|
        ensures NoFileParts(ms[i].content)
      {
        ProcessContentNormalises(prompt.messages[i].content);
      }
    }
  }

  /** The request `chat` sends; `testMode` plays no part in it. There is one
      message per prompt message (one for a bare prompt), roles are kept, the
      options are resolved, and no file part reaches the endpoint. */
  function ChatRequest(prompt: Prompt, image: ImageArg, options: Option<ChatOptions>): (r: Request)
    ensures var o := ResolveOptions(options);
      r.model == o.model && r.temperature == o.temperature && r.maxTokens == o.maxTokens
    ensures |r.messages| == if prompt.PromptText? then 1 else |prompt.messages|
    ensures prompt.PromptMessages? ==>
      forall i :: 0 <= i < |r.messages| ==> r.messages[i].role == prompt.messages[i].role
    ensures forall i :: 0 <= i < |r.messages| ==> NoFileParts(r.messages[i].content)
    ensures r.messages == AttachImage(NormalizePrompt(prompt), image)
  {
    var o := ResolveOptions(options);
    NormalizePromptHasNoFiles(prompt);
    Request(o.model, AttachImage(NormalizePrompt(prompt), image), o.temperature, o.maxTokens)
  }

  /** A bare prompt is the same request as a one-element list holding that
      prompt as a user message. */
  lemma BarePromptIsSingleUserMessage(s: string, image: ImageArg, options: Option<ChatOptions>)
    ensures ChatRequest(PromptText(s), image, options)
         == ChatRequest(PromptMessages([ChatMessage(User, Plain(s))]), image, options)
  {
    assert NormalizePrompt(PromptMessages([ChatMessage(User, Plain(s))])) == [ChatMessage(User, Plain(s))];
  }

  /** `convertToAIResponse`: the first choice's index and role are copied,
      null content becomes "", refusal is null and annotations empty, a
      missing or empty finish reason becomes "stop", and there is exactly one token
      usage entry of cost 0. A completion without choices makes the client
      fail, which it reports as absent. */
  function ConvertToAIResponse(raw: RawCompletion): (r: Option<AIResponse>)
    ensures r.Some? <==> |raw.choices| > 0
    ensures r.Some? ==> var choice := raw.choices[0];
      && r.value.index == choice.index
      && r.value.message.role == choice.role
      && r.value.message.content.Plain?
      && (choice.content.Some? ==> r.value.message.content.s == choice.content.value)
      && (choice.content.None? ==> r.value.message.content.s == "")
      && r.value.message.refusal.None?
      && r.value.message.annotations == []
      && (choice.finishReason.Some? && choice.finishReason.value != "" ==> r.value.finishReason == choice.finishReason.value)
      && (choice.finishReason.None? || choice.finishReason.value == "" ==> r.value.finishReason == "stop")
      && r.value.finishReason != ""
      && |r.value.usage| == 1
      && r.value.usage[0] == Usage("tokens", raw.model, if raw.totalTokens.Some? then raw.totalTokens.value else 0, 0)
      && !r.value.viaAiChatService
  {
    if |raw.choices| == 0 then None
    else
      var choice := raw.choices[0];
      Some(AIResponse(
        choice.index,
        ResponseMessage(choice.role, Plain(StringOr(choice.content, "")), None, []),
        StringOr(choice.finishReason, "stop"),
        [Usage("tokens", raw.model, IntOr(raw.totalTokens, 0), 0)],
        false))
  }

  /** Sending a request and normalising the answer; a call that threw or a
      completion without choices gives an absent result. */
  function Complete(complete: Request -> Option<RawCompletion>, req: Request): (r: Option<AIResponse>)
    ensures complete(req).None? ==> r.None?
    ensures complete(req).Some? ==> r == ConvertToAIResponse(complete(req).value)
    ensures r.Some? ==> |r.value.usage| == 1 && r.value.usage[0].cost == 0 && r.value.finishReason != ""
  {
    match complete(req)
    case None => None
    case Some(raw) => ConvertToAIResponse(raw)
  }

  /** `chat`. */
  function Chat(complete: Request -> Option<RawCompletion>, prompt: Prompt, image: ImageArg,
                testMode: Option<bool>, options: Option<ChatOptions>): (r: Option<AIResponse>)
    ensures complete(ChatRequest(prompt, image, options)).None? ==> r.None?
    ensures complete(ChatRequest(prompt, image, options)).Some? ==>
      r == ConvertToAIResponse(complete(ChatRequest(prompt, image, options)).value)
    ensures r.Some? ==> !r.value.viaAiChatService && r.value.message.refusal.None?
  {
    Complete(complete, ChatRequest(prompt, image, options))
  }

  /** The request `feedback` sends: the message alone, as one user message,
      with the default model, temperature and token cap. */
  function FeedbackRequest(path: string, message: string): (r: Request)
    ensures r.messages == [ChatMessage(User, Plain(message))]
    ensures r.model == DefaultModel && r.temperature == DefaultTemperature && r.maxTokens == DefaultMaxTokens
  {
    Request(DefaultModel, [ChatMessage(User, Plain(message))], DefaultTemperature, DefaultMaxTokens)
  }

  /** `feedback` ignores the path: it sends the same request as `chat` with
      the message as a bare prompt and no image or options, whatever the path. */
  lemma FeedbackIsBareChat(path1: string, path2: string, message: string)
    ensures FeedbackRequest(path1, message) == FeedbackRequest(path2, message)
    ensures FeedbackRequest(path1, message) == ChatRequest(PromptText(message), NoImage, None)
  {
  }

  /** `feedback`. */
  function Feedback(complete: Request -> Option<RawCompletion>, path: string, message: string): (r: Option<AIResponse>)
    ensures complete(FeedbackRequest(path, message)).None? ==> r.None?
    ensures complete(FeedbackRequest(path, message)).Some? ==>
      r == ConvertToAIResponse(complete(FeedbackRequest(path, message)).value)
    ensures r.Some? ==> !r.value.viaAiChatService
  {
    Complete(complete, FeedbackRequest(path, message))
  }

  /** The URL `img2txt` sends: a URL as given, a blob as its data URL. */
  function ImageUrlOf(image: ImageSource): string {
    match image
    case UrlImage(url) => url
    case BlobImage(dataUrl) => dataUrl
  }

  /** The request `img2txt` sends: one user message holding the fixed
      instruction then the image, to the vision model. */
  function Img2TxtRequest(image: ImageSource): (r: Request)
    ensures |r.messages| == 1 && r.messages[0].role == User
    ensures r.messages[0].content == Parts([TextPart(ImageInstruction), ImageUrlPart(ImageUrlOf(image))])
    ensures r.model == VisionModel && r.temperature == VisionTemperature && r.maxTokens == VisionMaxTokens
  {
    Request(
      VisionModel,
      [ChatMessage(User, Parts([TextPart(ImageInstruction), ImageUrlPart(ImageUrlOf(image))]))],
      VisionTemperature, VisionMaxTokens)
  }

  /** `choices[0]?.message?.content || undefined`: the first choice's text
      when there is one and it is non-empty. */
  function Img2TxtResult(raw: RawCompletion): (r: Option<string>)
    ensures r.Some? <==> |raw.choices| > 0 && raw.choices[0].content.Some? && raw.choices[0].content.value != ""
    ensures r.Some? ==> r.value == raw.choices[0].content.value && r.value != ""
  {
    if |raw.choices| > 0 && raw.choices[0].content.Some? && raw.choices[0].content.value != "" then
      Some(raw.choices[0].content.value)
    else None
  }

  /** `img2txt`. */
  function Img2Txt(complete: Request -> Option<RawCompletion>, image: ImageSource, testMode: Option<bool>): (r: Option<string>)
    ensures complete(Img2TxtRequest(image)).None? ==> r.None?
    ensures complete(Img2TxtRequest(image)).Some? ==> r == Img2TxtResult(complete(Img2TxtRequest(image)).value)
    ensures r.Some? ==> r.value != ""
  {
    match complete(Img2TxtRequest(image))
    case None => None
    case Some(raw) => Img2TxtResult(raw)
  }

  /** A non-empty `img2txt` answer is the content `chat` would report for the
      same completion. */
  lemma Img2TxtAgreesWithConvert(raw: RawCompletion)
    requires Img2TxtResult(raw).Some?
    ensures ConvertToAIResponse(raw).Some?
    ensures ConvertToAIResponse(raw).value.message.content == Plain(Img2TxtResult(raw).value)
  {
  }
}
