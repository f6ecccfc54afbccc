/**
 The service selector: a process-wide store holding which backend is active
 and the hosted client, if one has been constructed. Each of `chat`,
 `feedback` and `img2txt` is routed to the hosted client, to the in-browser
 bridge, or to nothing. Whether the bridge object is present in the page is
 the input `bridgePresent`; what the bridge does with a call is foreign, so a
 dispatch is modelled as the call it makes.
 */
module AIService {
  import opened Types
  import OpenRouter

  datatype ServiceType = Puter | OpenRouterService

  /** A hosted client, identified by the API key it was built with. */
  datatype Client = Client(apiKey: string)

  datatype Store = Store(serviceType: ServiceType, client: Option<Client>)

  /** The store before any setter runs: hosted service selected, no client. */
  const InitialStore: Store := Store(OpenRouterService, None)

  /** The model the bridge is asked to use for `feedback`. */
  const BridgeFeedbackModel: string := "claude-3-7-sonnet"

  /** Where an operation goes. */
  datatype Backend = Hosted(client: Client) | Bridge | Absent

  /** The call a dispatch makes. */
  datatype Call =
    | HostedChat(client: Client, prompt: Prompt, image: ImageArg, testMode: Option<bool>, options: Option<ChatOptions>)
    | HostedFeedback(client: Client, path: string, message: string)
    | HostedImg2Txt(client: Client, source: ImageSource, testMode: Option<bool>)
    | BridgeChat(prompt: Prompt, image: ImageArg, testMode: Option<bool>, options: Option<ChatOptions>)
    | BridgeImg2Txt(source: ImageSource, testMode: Option<bool>)
    | Unavailable

  /** The backend a call goes to. */
  function BackendOf(call: Call): Backend {
    match call
    case HostedChat(c, _, _, _, _) => Hosted(c)
    case HostedFeedback(c, _, _) => Hosted(c)
    case HostedImg2Txt(c, _, _) => Hosted(c)
    case BridgeChat(_, _, _, _) => Bridge
    case BridgeImg2Txt(_, _) => Bridge
    case Unavailable => Absent
  }

  /** The routing rule shared by all three operations: the hosted client when
      it is selected and constructed, the bridge when it is selected and
      present, and nothing otherwise; neither falls back to the other. */
  function Route(store: Store, bridgePresent: bool): (r: Backend)
    ensures r.Hosted? <==> store.serviceType == OpenRouterService && store.client.Some?
    ensures r.Hosted? ==> r.client == store.client.value
    ensures r.Bridge? <==> store.serviceType == Puter && bridgePresent
    ensures r.Absent? && store.serviceType == OpenRouterService ==> store.client.None?
    ensures r.Absent? && store.serviceType == Puter ==> !bridgePresent
    ensures (store.serviceType == OpenRouterService && store.client.None?) ==> r.Absent?
    ensures (store.serviceType == Puter && !bridgePresent) ==> r.Absent?
  {
    if store.serviceType == OpenRouterService && store.client.Some? then Hosted(store.client.value)
    else if store.serviceType == Puter && bridgePresent then Bridge
    else Absent
  }

  /** `chat`: the arguments are forwarded unchanged to whichever backend the
      store selects. */
  function DispatchChat(store: Store, bridgePresent: bool, prompt: Prompt, image: ImageArg,
                        testMode: Option<bool>, options: Option<ChatOptions>): (r: Call)
    ensures BackendOf(r) == Route(store, bridgePresent)
    ensures r.HostedChat? ==> r.prompt == prompt && r.image == image && r.testMode == testMode && r.options == options
    ensures r.BridgeChat? ==> r.prompt == prompt && r.image == image && r.testMode == testMode && r.options == options
    ensures !r.HostedFeedback? && !r.HostedImg2Txt? && !r.BridgeImg2Txt?
  {
    match Route(store, bridgePresent)
    case Hosted(c) => HostedChat(c, prompt, image, testMode, options)
    case Bridge => BridgeChat(prompt, image, testMode, options)
    case Absent => Unavailable
  }

  /** The bridge's `feedback`: a `chat` call with one user message holding the
      file reference then the prompt text, and the bridge's vision model. */
  function BridgeFeedbackCall(path: string, message: string): (r: Call)
    ensures r.BridgeChat? && r.prompt.PromptMessages? && |r.prompt.messages| == 1
    ensures r.prompt.messages[0] == ChatMessage(User, Parts([FilePart(path), TextPart(message)]))
    ensures r.image == ImageOptions(ChatOptions(Some(BridgeFeedbackModel), None, None))
    ensures r.testMode.None? && r.options.None?
  {
    BridgeChat(
      PromptMessages([ChatMessage(User, Parts([FilePart(path), TextPart(message)]))]),
      ImageOptions(ChatOptions(Some(BridgeFeedbackModel), None, None)),
      None, None)
  }

  /** `feedback`: the hosted client gets path and message unchanged; the
      bridge gets a file-plus-text message. */
  function DispatchFeedback(store: Store, bridgePresent: bool, path: string, message: string): (r: Call)
    ensures BackendOf(r) == Route(store, bridgePresent)
    ensures r.HostedFeedback? ==> r.path == path && r.message == message
    ensures r.BridgeChat? ==> r == BridgeFeedbackCall(path, message)
    ensures !r.HostedChat? && !r.HostedImg2Txt? && !r.BridgeImg2Txt?
  {
    match Route(store, bridgePresent)
    case Hosted(c) => HostedFeedback(c, path, message)
    case Bridge => BridgeFeedbackCall(path, message)
    case Absent => Unavailable
  }

  /** `img2txt`: the arguments are forwarded unchanged. */
  function DispatchImg2Txt(store: Store, bridgePresent: bool, source: ImageSource, testMode: Option<bool>): (r: Call)
    ensures BackendOf(r) == Route(store, bridgePresent)
    ensures r.HostedImg2Txt? ==> r.source == source && r.testMode == testMode
    ensures r.BridgeImg2Txt? ==> r.source == source && r.testMode == testMode
    ensures !r.HostedChat? && !r.HostedFeedback? && !r.BridgeChat?
  {
    match Route(store, bridgePresent)
    case Hosted(c) => HostedImg2Txt(c, source, testMode)
    case Bridge => BridgeImg2Txt(source, testMode)
    case Absent => Unavailable
  }

  /** `setServiceType`: only the selected service changes. */
  function SetServiceType(store: Store, t: ServiceType): (r: Store)
    ensures r.serviceType == t
    ensures r.client == store.client
  {
    store.(serviceType := t)
  }

  /** `initOpenRouter(apiKey?)`: only the client changes; it is rebuilt with
      the given key, or with the environment's key when none (or an empty
      one) is given. */
  function InitOpenRouter(store: Store, apiKey: Option<string>, envKey: string): (r: Store)
    ensures r.serviceType == store.serviceType
    ensures r.client.Some?
    ensures apiKey.Some? && apiKey.value != "" ==> r.client.value.apiKey == apiKey.value
    ensures apiKey.None? || apiKey.value == "" ==> r.client.value.apiKey == envKey
  {
    store.(client := Some(Client(StringOr(apiKey, envKey))))
  }

  /** The store once the module has loaded: the hosted client built from the
      environment's key, hosted service selected. */
  function ModuleInit(envKey: string): (r: Store)
    ensures r.serviceType == OpenRouterService && r.client == Some(Client(envKey))
  {
    InitOpenRouter(InitialStore, None, envKey)
  }

  /** After module load every operation goes to the hosted client, whether or
      not the bridge is present. */
  lemma ModuleInitRoutesHosted(envKey: string, bridgePresent: bool, path: string, message: string)
    ensures Route(ModuleInit(envKey), bridgePresent) == Hosted(Client(envKey))
    ensures DispatchFeedback(ModuleInit(envKey), bridgePresent, path, message) == HostedFeedback(Client(envKey), path, message)
  {
  }

  /** After switching the service type, all three operations follow the new
      type and nothing reaches the previous backend: switching to the bridge
      sends everything there (or nowhere, if it is missing), switching to the
      hosted service sends everything to the current client (or nowhere). */
  lemma SwitchReroutes(store: Store, t: ServiceType, bridgePresent: bool,
                       prompt: Prompt, image: ImageArg, testMode: Option<bool>, options: Option<ChatOptions>,
                       path: string, message: string, source: ImageSource)
    ensures var s := SetServiceType(store, t);
      var b := Route(s, bridgePresent);
      && BackendOf(DispatchChat(s, bridgePresent, prompt, image, testMode, options)) == b
      && BackendOf(DispatchFeedback(s, bridgePresent, path, message)) == b
      && BackendOf(DispatchImg2Txt(s, bridgePresent, source, testMode)) == b
      && (t == Puter ==> !b.Hosted?)
      && (t == OpenRouterService ==> !b.Bridge?)
      && (t == OpenRouterService && store.client.Some? ==> b == Hosted(store.client.value))
  {
  }

  /** Rebuilding the client does not change which kind of backend is used
      once a client exists: only the client a hosted call goes to changes. */
  lemma InitKeepsSelection(store: Store, apiKey: Option<string>, envKey: string, bridgePresent: bool)
    requires store.client.Some?
    ensures var s := InitOpenRouter(store, apiKey, envKey);
      && (Route(s, bridgePresent).Hosted? <==> Route(store, bridgePresent).Hosted?)
      && (Route(s, bridgePresent).Bridge? <==> Route(store, bridgePresent).Bridge?)
      && (Route(s, bridgePresent).Hosted? ==> Route(s, bridgePresent).client == s.client.value)
  {
  }

  /** What the bridge's `chat` does with a call: it answers, resolves to
      nothing, or rejects. */
  datatype BridgeOutcome = Answered(response: AIResponse) | NoAnswer | Threw

  /** How a selector call settles for its caller: it resolves to a response
      or to `undefined`, or the promise is rejected. */
  datatype Settled = Resolved(answer: Option<AIResponse>) | Rejected

  /** Performing a `chat` or `feedback` call. The hosted client catches every
      error, so a hosted call always resolves; an unavailable service resolves
      to `undefined`. The selector returns the bridge's promise without a
      catch, so a bridge that throws is the only way the call is rejected. */
  function PerformChat(call: Call, complete: Request -> Option<RawCompletion>, bridge: BridgeOutcome): (r: Settled)
    requires call.HostedChat? || call.HostedFeedback? || call.BridgeChat? || call.Unavailable?
    ensures call.Unavailable? ==> r == Resolved(None)
    ensures call.BridgeChat? && bridge.Answered? ==> r == Resolved(Some(bridge.response))
    ensures call.BridgeChat? && bridge.NoAnswer? ==> r == Resolved(None)
    ensures r.Rejected? <==> call.BridgeChat? && bridge.Threw?
    ensures call.HostedChat? ==> r == Resolved(OpenRouter.Chat(complete, call.prompt, call.image, call.testMode, call.options))
    ensures call.HostedFeedback? ==> r == Resolved(OpenRouter.Feedback(complete, call.path, call.message))
    ensures (call.HostedChat? || call.HostedFeedback?) && r.answer.Some? ==> !r.answer.value.viaAiChatService
  {
    match call
    case HostedChat(_, p, i, t, o) => Resolved(OpenRouter.Chat(complete, p, i, t, o))
    case HostedFeedback(_, path, m) => Resolved(OpenRouter.Feedback(complete, path, m))
    case BridgeChat(_, _, _, _) =>
      (match bridge
       case Answered(response) => Resolved(Some(response))
       case NoAnswer => Resolved(None)
       case Threw => Rejected)
    case Unavailable => Resolved(None)
  }
}
