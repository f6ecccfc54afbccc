# Résumé analyser: prompt assembly, AI backend adapter and score colours

A Dafny model of the small rule-bearing core of a client-side résumé-review
web application. The application uploads a résumé, sends its text to a large
language model for structured feedback, and keeps the results in a key-value
store. The model covers:

- **Prompt assembly** (`prompting.dfy`, module `Prompting`). `truncateText`
  cuts the résumé text to a length budget (default 50 000). It moves the cut
  back to the last period, newline or space when that lies strictly beyond
  80% of the budget. Otherwise it cuts hard and appends `...`. The full prompt
  is the instruction text, the header `\n\n简历内容：\n`, then the truncated text.
- **The upload page's analysis flow** (`upload.dfy`, module `Upload`):
  - the record stored under `resume:<uuid>`, first with empty feedback and
    then with the feedback attached;
  - the extraction of the feedback text from the AI response;
  - the status message each failing step ends with.
- **The hosted chat-completion client** (`openrouter.dfy`, module
  `OpenRouter`):
  - how a prompt becomes the outgoing message list: file parts become text
    placeholders, and an image URL is grafted onto a trailing user message;
  - option defaults with JavaScript `||` semantics;
  - the fixed requests of `feedback` and `img2txt`;
  - the normalisation of a raw completion into an `AIResponse`.
- **The service selector** (`aiservice.dfy`, module `AIService`). A store
  holds the selected service type and the hosted client. Each operation is
  routed to the hosted client, to the in-browser bridge, or to nothing. The
  setters each change one field.
- **Score colours** (`summary.dfy`, module `Summary`): green above 70, yellow
  above 49, red otherwise, for the four fixed categories.

`types.dfy` (module `Types`) holds the shared message, option, request and
response shapes and the `a || b` fallbacks.

Conventions used throughout:
- The network call is the parameter `complete: Request -> Option<RawCompletion>`.
  `None` stands for a call that threw; the client catches it and answers "absent".
- Whether the bridge object exists in the page is the boolean `bridgePresent`.
- Text is `seq<char>`. JavaScript counts string length in UTF-16 code units,
  so the two agree for text without characters outside the Basic Multilingual
  Plane.
- The test `lastSentenceEnd > maxLength * 0.8` is modelled exactly as
  `5 * k > 4 * maxLength`.

The selector never falls back between backends. When the bridge is selected
but absent, it answers "absent" rather than using the hosted client. When the
hosted service is selected but no client exists, it does not use the bridge.

The default hosted model is `anthropic/claude-3.7-sonnet`.

## Model

| member | source | states |
|---|---|---|
| Prompting.LastIndexOf | app/routes/upload.tsx:74-78 | `lastIndexOf` of one character is -1 or an index holding it, with no later occurrence |
| Prompting.LastSentenceEnd | app/routes/upload.tsx:74-78 | the maximum of the three `lastIndexOf` results is exactly the last period/newline/space, or -1 when there is none |
| Prompting.TruncateText | app/routes/upload.tsx:69-83 | text within the budget is returned unchanged. Longer text becomes either the hard cut plus `...`, or a non-empty prefix within the budget that ends on a delimiter beyond 80% of the budget. The result never exceeds the budget plus 3 |
| Prompting.TruncateAtBoundary | app/routes/upload.tsx:73-81 | when the last delimiter k within the budget satisfies 5k > 4·budget, the result is `text[..k+1]`, ends on that delimiter, and no delimiter lies between k and the budget |
| Prompting.TruncateHardCut | app/routes/upload.tsx:73-82 | when the last delimiter (or -1) is at or below 80% of the budget, the result is `text[..budget] + "..."` |
| Prompting.TruncateNoDelimiter | app/routes/upload.tsx:74-82 | text with no delimiter within the budget is hard cut with `...` |
| Prompting.TruncateBranchIff | app/routes/upload.tsx:80-82 | the result stays within the budget exactly when some delimiter lies strictly beyond 80% of the budget and before it |
| Prompting.FullPrompt | app/routes/upload.tsx:85-89 | the prompt is the instructions, then the fixed header, then exactly `truncateText` of the résumé text under the default budget, with the length bounds this implies |
| Prompting.FullPromptKeepsShortText | app/routes/upload.tsx:69-89 | résumé text within the default budget appears in the prompt verbatim after instructions and header |
| Upload.RecordKey | app/routes/upload.tsx:58 | the key is `resume:` followed by the identifier |
| Upload.RecordKeyInjective | app/routes/upload.tsx:100 | different identifiers give different keys, so writing a record under its key never overwrites the record of another résumé |
| Upload.FeedbackText | app/routes/upload.tsx:94-97 | string content is the feedback text; otherwise it is the first part's text, and an empty list or a non-text first part is an error |
| Upload.HostedFeedbackHasText | app/routes/upload.tsx:94-97 | a response normalised by the hosted client always yields feedback text: the first choice's content, or "" |
| Upload.Analyze | app/routes/upload.tsx:32-103 | upload/convert failures write nothing. Later stops leave the record with empty feedback under `resume:<uuid>`. Success stores the same record with the parsed feedback and navigates to it. No other key changes, and each failure ends with its status message |
| Upload.AnalyzeAsksAboutUploadedResume | app/routes/upload.tsx:85-100 | a finished run's feedback is the backend's answer for the record's résumé path and the prompt built from the form and résumé text |
| OpenRouter.ResolveOptions | app/lib/openrouter.ts:23-27 | model, temperature and max_tokens fall back to `anthropic/claude-3.7-sonnet`, 0.7 and 4000 when absent or falsy; resolved options are never falsy |
| OpenRouter.ResolveOptionsIdempotent | app/lib/openrouter.ts:23-27 | resolved options passed back in resolve to themselves |
| OpenRouter.ProcessPart | app/lib/openrouter.ts:144-153 | text parts keep their text; file parts become text `[文件: <path>]`; other parts are kept; no file part comes out |
| OpenRouter.ProcessContent | app/lib/openrouter.ts:137-154 | string content is unchanged; a part list keeps its length and has each part processed |
| OpenRouter.ProcessContentNormalises | app/lib/openrouter.ts:144-153 | processed content holds no file part, and processing it again changes nothing |
| OpenRouter.NormalizePrompt | app/lib/openrouter.ts:29-37 | a bare prompt becomes exactly one user message; a message list keeps its length and roles and has each content processed |
| OpenRouter.NormalizePromptHasNoFiles | app/lib/openrouter.ts:33-36 | no normalised message carries a file part |
| OpenRouter.AttachImage | app/lib/openrouter.ts:39-54 | only for a string image URL with a trailing user message does that message become [text(old string content or ""), image_url]. Earlier messages are unchanged, and in every other case the list is unchanged |
| OpenRouter.ChatRequest | app/lib/openrouter.ts:22-61 | the request carries the resolved options and the normalised prompt with the image grafted on. That means one message per prompt message (one for a bare prompt), roles kept, and no file part |
| OpenRouter.BarePromptIsSingleUserMessage | app/lib/openrouter.ts:30-37 | a bare prompt sends the same request as the one-element list holding it as a user message |
| OpenRouter.ConvertToAIResponse | app/lib/openrouter.ts:156-178 | the result is present exactly when there is a first choice. It copies that choice's index and role, turns null content into "", sets no refusal and no annotations, turns a missing or empty finish reason into "stop", has one token usage entry with the total tokens (0 if missing) and cost 0, and is not from the bridge |
| OpenRouter.Complete | app/lib/openrouter.ts:56-67 | a call that threw gives absent; otherwise the normalised completion, whose finish reason is non-empty and whose single usage entry costs 0 |
| OpenRouter.Chat | app/lib/openrouter.ts:15-69 | a call that threw answers absent. A completed call of the chat request answers its normalised completion, which is marked as not from the bridge and has no refusal |
| OpenRouter.FeedbackRequest | app/lib/openrouter.ts:78-90 | one user message holding the prompt text, default model, temperature 0.7, 4000 tokens |
| OpenRouter.FeedbackIsBareChat | app/lib/openrouter.ts:71-90 | the feedback request does not depend on the path and equals the chat request for the bare prompt with no image or options |
| OpenRouter.Feedback | app/lib/openrouter.ts:71-97 | a call that threw answers absent; a completed call of the feedback request answers its normalised completion |
| OpenRouter.Img2TxtRequest | app/lib/openrouter.ts:104-128 | one user message: the fixed instruction text, then the image URL (a blob as its data URL), sent to the vision model with temperature 0.1 and 2000 tokens |
| OpenRouter.Img2TxtResult | app/lib/openrouter.ts:130 | the answer is present exactly when the first choice exists and has non-empty content, and is that content |
| OpenRouter.Img2Txt | app/lib/openrouter.ts:99-135 | a call that threw answers absent. A completed call of the image request answers the first choice's content when it is non-empty, and absent otherwise |
| OpenRouter.Img2TxtAgreesWithConvert | app/lib/openrouter.ts:130-162 | a non-empty `img2txt` answer is the content the chat normalisation reports for the same completion |
| AIService.Route | app/lib/ai-service.ts:45-59 | hosted exactly when the hosted service is selected and a client exists; bridge exactly when the bridge is selected and present; absent otherwise, with no fallback either way |
| AIService.DispatchChat | app/lib/ai-service.ts:39-60 | `chat` goes to the routed backend as a `chat` call (never feedback or img2txt) with its arguments unchanged |
| AIService.BridgeFeedbackCall | app/lib/ai-service.ts:72-89 | the bridge's feedback is a chat with one user message [file(path), text(message)] in that order and model `claude-3-7-sonnet` |
| AIService.DispatchFeedback | app/lib/ai-service.ts:62-95 | `feedback` goes to the routed backend: the hosted client gets path and message unchanged, the bridge gets the file-plus-text message |
| AIService.DispatchImg2Txt | app/lib/ai-service.ts:97-111 | `img2txt` goes to the routed backend with its arguments unchanged |
| AIService.SetServiceType | app/lib/ai-service.ts:113-115 | only the service type changes; the client is untouched |
| AIService.InitOpenRouter | app/lib/ai-service.ts:117-120 | only the client changes: it is rebuilt with the given key, or the environment key when none or an empty one is given |
| AIService.ModuleInit | app/lib/ai-service.ts:117-124 | after module load the hosted service is selected and a client built from the environment key exists |
| AIService.ModuleInitRoutesHosted | app/lib/ai-service.ts:63-68 | after module load operations go to the hosted client whether or not the bridge is present |
| AIService.SwitchReroutes | app/lib/ai-service.ts:45-56 | after switching type all three operations follow the new type: the bridge selection never reaches the hosted client, and the hosted selection never reaches the bridge |
| AIService.InitKeepsSelection | app/lib/ai-service.ts:117-120 | rebuilding an existing client does not change which kind of backend is used, only the client a hosted call goes to |
| AIService.PerformChat | app/lib/ai-service.ts:47-94 | an unavailable service resolves to absent. A hosted call resolves to what the hosted client's chat or feedback answers. A bridge call resolves to the bridge's answer or absent, and a throwing bridge is the only way the call is rejected |
| Types.StringOr | app/lib/openrouter.ts:24 | the JavaScript fallback `o or d` on an optional string: a present non-empty value is kept, and an absent or empty one gives the default |
| Types.RealOr | app/lib/openrouter.ts:25 | the JavaScript fallback `o or d` on an optional number: a present non-zero value is kept, and an absent or zero one gives the default |
| Types.IntOr | app/lib/openrouter.ts:26 | the JavaScript fallback `o or d` on an optional integer: a present non-zero value is kept, and an absent or zero one gives the default |
| Summary.CategoryColour | app/components/Summary.tsx:5-10 | green exactly above 70, yellow exactly for 49 < score <= 70, red exactly at or below 49 |
| Summary.CategoryColourMonotone | app/components/Summary.tsx:5-10 | a higher score never gets a worse colour (red < yellow < green) |
| Summary.Categories | app/components/Summary.tsx:41-44 | exactly four categories in the order tone-and-style, content, structure, skills, each with its sub-object's score and that score's colour |

## Left out

- The HTTP call, the OpenAI client construction and its base URL are foreign code. The call is the `complete` parameter; construction is reduced to the API key it uses.
- Converting a file or blob to a data URL uses the browser's file reader. A blob is represented by the data URL it yields.
- The bridge's own behaviour is foreign, so a dispatch to it is modelled as the call it makes. `window.puter` detection is the `bridgePresent` input.
- The PDF-to-image converter, the identifier generator, the instruction template and file storage are collaborators whose answers are inputs (`Collaborators`, `prepare`).
- Async/await, the zustand store mechanics and console logging are left out. The store is an immutable value, and setters return the new value.
- JSON encoding of records and JSON parsing of the feedback text are left out. The key-value store maps keys to record values.
- Upload.Analyze: the parse of the feedback text is assumed to succeed. Non-JSON feedback text, which throws in the page, is not modelled; an empty part list (the page throws reading `content[0].text`) or a first part without text (the parse throws) is modelled as `Aborted`.
- Summary.CategoryColour: scores are modelled as integers. The page takes any number, so fractional scores such as 70.5 (green) or 49.5 (yellow) cannot be expressed.
- Floating point: temperature is a `real`, and NaN (also falsy for `||`) is not modelled. The 80% threshold is compared exactly rather than after floating-point rounding of `maxLength * 0.8`.
- `truncateText` is modelled for a natural-number budget. The page only calls it with the default.
- The `logprobs: null` field of the normalised response and the `stream` option are omitted. Neither is read by this code.
- The `testMode` argument is carried through dispatch but plays no part in any request.
- `convertToAIResponse` assumes each choice has a message object, as the response type declares.
- Page rendering, routing, authentication redirects, the score gauge and badges, and the listing and wipe pages are UI and storage I/O with no rule to state.
