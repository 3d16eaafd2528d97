# Myanmar finance assistant — a Dafny model of the chat and ingestion core

The system is a chat front-end for Myanmar financial questions. A chat page
sends each question, with an optional image and a "deep analysis" toggle, to a
chat endpoint. The endpoint retrieves context from a vector store and routes the
question to one of two completion back-ends: Gemini (an image or the toggle) or
Groq (otherwise). An admin page posts raw text to an ingest endpoint, which splits it into
chunks and uploads them to the vector store; a command-line script does the same
from a data file. The client also has three stand-alone
services: a mock retriever with a keyword gate, and direct callers for Gemini and
Groq.

This project models those pieces, one Dafny module per source file:

- `Types` holds the shared enumerations and records.
- `RagService` models the mock retriever.
- `ChatRoute` and `IngestRoute` model the two endpoints.
- `IngestScript` models the ingestion script.
- `GeminiService`, `GroqService` and `RouterService` model the client services.
- `ChatPage` and `AdminPage` model the two pages.

`Runtime` models the JavaScript behaviour the code depends on, with the proofs
about it: truthiness, `toLowerCase`, `includes`, `trim`, `split` and `join`, the
decimal rendering of a count, and `Math.round`. `Wrappers` holds `Option` and
`Result`.

Every external call is a parameter of the operation that makes it. This covers
the vector store, the embedding and completion models, `fetch`, the text
splitter and the file system. Each one is a function to its outcome, with a
constructor for the error it can throw. Most take exactly the request the code
sends. The vector store's upload oracle in the ingest endpoint and the script
also takes the chunk's position in the upload order, which `addDocuments([doc])`
does not pass: it indexes the calls, so an upload's outcome may depend on the
calls made before it. The endpoints and
the script also return the calls they make as an ordered log. This is how
"nothing is split before the checks pass" and "one delay after every chunk" are
stated. The two pages are classes whose fields are their React state. Each
`await` splits a handler into `Begin…` and `Finish…`, and a whole-handler method
runs both around the oracle.

Behaviours of the code worth noting:

- The ingest endpoint stops at the first chunk that fails to upload. It answers
  500 with that error and reports no success or failure counts. The script goes
  on after a failed chunk, but it reports only the failing index and no counts.
- The ingest endpoint only rejects a falsy text. A whitespace-only text is
  accepted and split (`IngestRoute.WhitespaceTextAccepted`).
- Retrieved pages are joined in the order the store returns them. The endpoint
  does not sort them by relevance.
- A failed model call gets the provider `System` at the endpoint. The router
  bridge then turns every non-ok response into a fixed apology labelled
  `Gemini 2.5 Flash`. So the page never shows a `System` provider
  (`RouterService.EndToEnd`).

## Model

| member | source | states |
|---|---|---|
| Types.ParseSender | types.ts:1-5 | a string denotes a `Sender` exactly when it is `user`, `ai` or `system`, and the sender read back renders as that string |
| Types.SenderRoundTrip | types.ts:1-5 | every sender's string reads back as that sender, so the three values are distinct |
| Types.ParseProvider | types.ts:7-10 | a string denotes a provider exactly when it is one of the two labels, and it reads back as that label |
| Types.ProviderRoundTrip | types.ts:7-10 | each provider's label reads back as that provider and differs from the `System` error label |
| Runtime.FromOption | services/routerService.ts:17-22 | a missing or empty optional string serialises to a falsy value, a non-empty one to a truthy one |
| Runtime.ToLower | services/ragService.ts:34 | lower-casing keeps the length and maps every character on its own |
| Runtime.IncludesIffOccurs | services/ragService.ts:33-39 | `includes` holds exactly when the substring occurs at some position |
| Runtime.TrimEmptyIffBlank | app/page.tsx:64 | `trim()` gives the empty string exactly for strings made only of ECMAScript white space |
| Runtime.Split | services/geminiService.ts:29 | `split` on a character gives at least one segment and no segment contains the separator |
| Runtime.JoinSplit | services/geminiService.ts:29 | joining the segments of a split with the separator gives back the original string |
| Runtime.SplitJoin | services/geminiService.ts:29 | splitting a join of separator-free segments gives back the segments |
| Runtime.JoinContainsPart | app/api/chat/route.ts:46 | every part occurs whole in a join, at its offset |
| Runtime.NatToDecimal | app/api/ingest/route.ts:62 | a count renders as a non-empty string of digits with no leading zero |
| Runtime.DecimalRoundTrip | app/api/ingest/route.ts:62 | reading back the decimal rendering of a count gives the count |
| Runtime.RoundRatio | scripts/ingest.ts:63 | the result is the ratio rounded to the nearest integer, halves up |
| RagService.MentionsKeyword | services/ragService.ts:34-38 | definition of the keyword test; its properties are in `CaseInsensitive`, `KeywordOpensGate` and `NoKeywordNoContext` |
| RagService.Render | services/ragService.ts:44 | definition of one rendered entry; its properties are in `RenderAll` and `AllOrNothing` |
| RagService.RelevantDocs | services/ragService.ts:33-39 | the filter keeps every document when the lower-cased query includes a keyword and none otherwise |
| RagService.RenderAll | services/ragService.ts:43-45 | each document renders, in order, as its `Source:` title and `Content:` body |
| RagService.RetrieveContext | services/ragService.ts:41-47 | the context is empty exactly when no keyword matches; otherwise it is the header, the rendered entries joined by blank lines, and a trailing blank line |
| RagService.AllOrNothing | services/ragService.ts:14-47 | a query gets either nothing or the whole three-entry knowledge base, in order |
| RagService.CaseInsensitive | services/ragService.ts:34-38 | queries that lower-case alike get the same context |
| RagService.KeywordOpensGate | services/ragService.ts:33-39 | a keyword anywhere in the query, in any case and even inside a longer word, passes the filter |
| RagService.KeywordAnywhere | services/ragService.ts:33-47 | such a query receives the full context |
| RagService.CorporateMatches | services/ragService.ts:34 | "Corporate outlook" retrieves the full context, because "corporate" contains "rate" |
| RagService.NoKeywordNoContext | services/ragService.ts:41 | a query containing none of the keywords gets the empty string |
| ChatRoute.Handle | app/api/chat/route.ts:12-130 | definition of the handler's reply and calls; its properties are in `Post`, `CredentialsCheckedFirst`, `SearchThenOneCall`, `RoutingDecision` and `ReplyEnvelope` |
| ChatRoute.ResponseText | app/api/chat/route.ts:95-116 | definition of the reply text for plain and structured model content; its properties are in `ReplyEnvelope` |
| ChatRoute.SystemError | app/api/chat/route.ts:124-129 | definition of the 500 error reply; its properties are in `CredentialsCheckedFirst` and `ReplyEnvelope` |
| ChatRoute.ContextText | app/api/chat/route.ts:43-50 | a failed search leaves the context empty, and an empty result list gives an empty context |
| ChatRoute.SystemInstruction | app/api/chat/route.ts:53-59 | the prompt is the fixed template with the context between its `CONTEXT:` head and its tail |
| ChatRoute.UsesGemini | app/api/chat/route.ts:68 | definition of the routing test; its properties are in `ProviderFor`, `RoutingDecision` and `EmptyImageIsNoImage` |
| ChatRoute.ModelCallFor | app/api/chat/route.ts:68-111 | definition of the model call for a body and a context; its properties are in `GeminiContentParts`, `SearchThenOneCall` and `RoutingDecision` |
| ChatRoute.ProviderFor | app/api/chat/route.ts:68-70 | Gemini is chosen exactly when `image` or `useComplexModel` is truthy |
| ChatRoute.ContentParts | app/api/chat/route.ts:80-88 | the text part comes first, and an image part follows exactly when the image is truthy |
| ChatRoute.Post | app/api/chat/route.ts:12-130 | the handler's reply and its calls are those of the specification function `Handle` |
| ChatRoute.CredentialsCheckedFirst | app/api/chat/route.ts:17-19 | missing Supabase credentials give a 500 `System Error: Missing Supabase credentials` before any search or model call |
| ChatRoute.SearchThenOneCall | app/api/chat/route.ts:43-59 | with credentials, one search for the message with k = 3 comes first, then exactly one model call whose prompt carries the context; a failed search gives an empty context |
| ChatRoute.InstructionRoundTrip | app/api/chat/route.ts:53-59 | the context can be read back from the system prompt exactly |
| ChatRoute.ContextHeadingPrecedesContext | app/api/chat/route.ts:57-58 | the `CONTEXT:` heading directly precedes the context, even an empty one |
| ChatRoute.ContextKeepsOrder | app/api/chat/route.ts:46 | each retrieved page appears whole in the context, in result order |
| ChatRoute.RoutingDecision | app/api/chat/route.ts:68-101 | the Gemini call is made exactly when `image` or `useComplexModel` is truthy, and a 200 reply carries the matching provider label |
| ChatRoute.GeminiContentParts | app/api/chat/route.ts:80-111 | Gemini receives the text first and the image only when present; Groq receives the plain message |
| ChatRoute.EmptyImageIsNoImage | app/api/chat/route.ts:68 | with the toggle off, a string image selects Gemini exactly when it is non-empty, and a missing one never does; with the toggle on, Gemini is selected whatever the image |
| ChatRoute.HistoryIgnored | app/api/chat/route.ts:14 | the `history` field has no effect on the reply or the calls |
| ChatRoute.ReplyEnvelope | app/api/chat/route.ts:95-129 | every reply is either a 200 with a provider label and the model's text, or a 500 from provider `System` whose text starts `System Error: ` |
| IngestRoute.SuccessMessage | app/api/ingest/route.ts:60-63 | definition of the success message; its properties are in `SuccessMessageCount` and `SuccessMessageInjective` |
| IngestRoute.Accepted | app/api/ingest/route.ts:13-23 | definition of the three request checks; its properties are in `Post`, `PasswordCheckedFirst` and `WhitespaceTextAccepted` |
| IngestRoute.UploadTrace | app/api/ingest/route.ts:53-58 | uploading n chunks makes 2n calls, one upload and one delay per chunk |
| IngestRoute.FirstFailure | app/api/ingest/route.ts:52-58 | the position found is the first whose upload throws, or the end when none does |
| IngestRoute.Post | app/api/ingest/route.ts:8-69 | password, then text, then environment are checked before any call; an accepted body is split once, and the chunks are uploaded in order with a delay after each; the first failure answers 500 with its message; success answers 200 with the count |
| IngestRoute.FirstFailureIs | app/api/ingest/route.ts:52-58 | the first failing position is the one before which every upload succeeds and at which one throws |
| IngestRoute.UploadsInSplitOrder | app/api/ingest/route.ts:53-58 | every chunk is handed to the store exactly once, in split order, with one delay each |
| IngestRoute.AbortKeepsEarlierUploads | app/api/ingest/route.ts:53-67 | when chunk k fails, chunks 0..k were attempted, the earlier ones stay uploaded, and nothing after k is tried |
| IngestRoute.SuccessMessageCount | app/api/ingest/route.ts:60-63 | the success message carries the upload count in decimal, and the count can be read back |
| IngestRoute.SuccessMessageInjective | app/api/ingest/route.ts:62 | different counts give different success messages |
| IngestRoute.PasswordCheckedFirst | app/api/ingest/route.ts:13-15 | a wrong password never passes the `Accepted` gate, whatever the text and the environment; the 401 reply with no calls is `Post`'s contract |
| IngestRoute.WhitespaceTextAccepted | app/api/ingest/route.ts:17-19 | with the right password and environment, a string text is accepted exactly when it is non-empty, so every whitespace-only text is accepted |
| IngestScript.ProgressPercent | scripts/ingest.ts:63 | definition of the rounded percentage; its properties are in `ProgressBounds` |
| IngestScript.ChunkSteps | scripts/ingest.ts:61-76 | definition of one loop iteration's events; its properties are in `ChunkTraceAttempts`, `ChunkTraceFailures`, `ChunkTraceDelays` and `ChunkTracePercents` |
| IngestScript.ChunkTrace | scripts/ingest.ts:61-76 | definition of the loop's events; `RunIngestion` is proved to log it, and its properties are in `ChunkTraceAttempts`, `ChunkTraceFailures`, `ChunkTraceDelays`, `ChunkTracePercents` and `FullRun` |
| IngestScript.RunIngestion | scripts/ingest.ts:14-88 | missing environment throws; a missing file is reported as not found and any other read error as fatal; otherwise every chunk gets progress, an upload, an error report if that upload throws, and a delay, and then completion |
| IngestScript.ChunkTraceAttempts | scripts/ingest.ts:61-72 | each chunk is handed to the store once, in index order, whatever failed before it |
| IngestScript.ChunkTraceFailures | scripts/ingest.ts:67-72 | exactly the chunks whose upload threw are reported, by index, in order |
| IngestScript.ChunkTraceDelays | scripts/ingest.ts:74-75 | one 1000 ms delay follows every chunk |
| IngestScript.ChunkTracePercents | scripts/ingest.ts:63-65 | the i-th progress report carries chunk i's rounded percentage |
| IngestScript.ProgressBounds | scripts/ingest.ts:63 | every percentage is at most 100, and the last chunk reports exactly 100 |
| IngestScript.FullRun | scripts/ingest.ts:61-78 | a full run attempts all chunks in order, reports exactly the failed ones, waits once per chunk, and ends at 100% |
| GeminiService.Base64Data | services/geminiService.ts:29 | a string without a comma is sent unchanged, and the payload never contains a comma unless it is the whole string |
| GeminiService.FullPrompt | services/geminiService.ts:22 | definition of the text part; its properties are in `TurnParts` |
| GeminiService.TurnParts | services/geminiService.ts:25-38 | the image part comes first, as `image/jpeg`, exactly when a non-empty image is given; the prompt text part is always last |
| GeminiService.RequestFor | services/geminiService.ts:41-48 | definition of the request sent for a turn; its properties are in `CallGemini` and `TurnParts` |
| GeminiService.Answer | services/geminiService.ts:50-53 | the answer is never empty: the model's text when it has some, otherwise the no-text or the error fallback |
| GeminiService.BuildParts | services/geminiService.ts:25-38 | the successive pushes build the parts `TurnParts` describes |
| GeminiService.CallGemini | services/geminiService.ts:10-55 | the call sends one user turn with the fixed model and instruction, never throws, and does not use `history` |
| GeminiService.DataUrlPayload | services/geminiService.ts:29-34 | for a data URL with a non-empty, comma-free payload (section 3 of RFC 2397), exactly the payload is sent, as `image/jpeg` |
| GeminiService.SecondSegment | services/geminiService.ts:29 | for comma-separated segments, the second segment is sent when non-empty, else the whole string |
| GroqService.ApiKey | services/groqService.ts:7 | the configured key is used when set, else `gsk_placeholder` |
| GroqService.UserContent | services/groqService.ts:23 | definition of the user message; its properties are in `RequestShape` |
| GroqService.Request | services/groqService.ts:15-39 | definition of the request sent; its properties are in `RequestShape` |
| GroqService.SimulatedAnswer | services/groqService.ts:45 | definition of the demo answer; its properties are in `SimulatedNoteIffContext` |
| GroqService.Answer | services/groqService.ts:42-53 | the answer is never empty; a network error or unreadable body gives the connection error, and a non-ok status gives the simulated answer |
| GroqService.CallGroq | services/groqService.ts:9-55 | the call never throws and never answers with an empty string |
| GroqService.RequestShape | services/groqService.ts:15-39 | exactly two messages are sent, the fixed system prompt then the user content showing the context after `Context:` and ending with the question; fixed model and token limit; placeholder key in the bearer header |
| GroqService.SimulatedNoteIffContext | services/groqService.ts:45 | the simulated answer ends with the policy-document note exactly when the context is non-empty |
| GroqService.OkResponse | services/groqService.ts:48-49 | an ok reply gives the first choice's content; an empty list or missing content gives `No response from Groq.`; missing `choices` gives the connection error |
| GroqService.HistoryUnused | services/groqService.ts:9-13 | the answer does not depend on `history` |
| RouterService.WireBody | services/routerService.ts:17-22 | the endpoint receives the message and history unchanged, and the toggle and image with the same truthiness |
| RouterService.Fallback | services/routerService.ts:36-43 | the fallback answer is labelled `Gemini 2.5 Flash` |
| RouterService.RouteChatRequest | services/routerService.ts:8-43 | an ok response with a readable body is passed through as is; a network error, a non-ok status or an unreadable body gives the fallback |
| RouterService.RoutingOverTheWire | services/routerService.ts:12-23 | the endpoint routes to Gemini exactly when the toggle is on or a non-empty image is attached |
| RouterService.EndToEnd | services/routerService.ts:25-43 | wired to the chat endpoint, the page gets the model's answer with the label of the provider that gave it, or the fallback; every provider it sees is a provider label, never `System` |
| ChatPage.SendBlocked | app/page.tsx:64 | definition of the early-return condition; its properties are in `SendBlockedIff` and `ImageAloneSends` |
| ChatPage.ImageToSend | app/page.tsx:71 | an empty or missing image is sent as none, and any other image unchanged |
| ChatPage.UserMessage | app/page.tsx:66-72 | the user's message carries the raw, untrimmed input and no provider |
| ChatPage.AiMessage | app/page.tsx:91-97 | the AI message carries the response text and provider |
| ChatPage.RequestFor | app/page.tsx:84-89 | the bridge gets the input, the log from before this turn as history, the toggle, and the image to send |
| ChatPage.Home.constructor | app/page.tsx:30-34 | the page starts with empty input and log, no pending reply, the toggle off and no image |
| ChatPage.Home.SetInput | app/page.tsx:253 | typing replaces the input and nothing else |
| ChatPage.Home.SetDeepThinkMode | app/page.tsx:170-174 | the toggle sets the deep-analysis flag and nothing else |
| ChatPage.Home.SelectImage | app/page.tsx:47-56 | a loaded file's data URL becomes the selected image and nothing else changes |
| ChatPage.Home.ClearImage | app/page.tsx:58-61 | the selected image is cleared and nothing else changes |
| ChatPage.Home.BeginSend | app/page.tsx:63-80 | a blocked send changes nothing; otherwise the user's message is logged, the input and image are cleared, a reply is pending, and the request is returned; the alternation invariant is kept |
| ChatPage.Home.FinishSend | app/page.tsx:91-112 | the AI message is appended and the pending flag cleared, keeping the log alternating |
| ChatPage.Home.HandleSend | app/page.tsx:63-113 | a send that is not blocked appends the user's message and then the bridge's answer to it; a blocked one changes nothing |
| ChatPage.Home.HandleKeyDown | app/page.tsx:115-120 | Enter without Shift sends as `HandleSend` does; any other key changes nothing |
| ChatPage.SendBlockedIff | app/page.tsx:64 | a send is blocked exactly when a reply is pending, or the input is only white space and no non-empty image is selected |
| ChatPage.ImageAloneSends | app/page.tsx:64 | with no reply pending, a non-empty image can be sent with any text, and any text with a character other than white space can be sent, whatever white space surrounds it |
| ChatPage.DistinctIds | app/page.tsx:67-92 | with a clock that does not go back, the user's and the AI's messages get different ids |
| ChatPage.IdsCollideAcrossTurns | app/page.tsx:67-92 | ids are unique within a turn only: the AI message stamped at t has the same id as a user message sent at t + 1 |
| ChatPage.TurnAnswer | app/page.tsx:84-99 | wired to the chat endpoint, the AI message shows the model's text and provider, or the fallback labelled Gemini, and its provider is always a provider label |
| AdminPage.StatusFor | app/admin/page.tsx:38-47 | ok gives `Success: ` and the message, non-ok gives `Error: ` and the error, and a thrown fetch or body read gives `Network Error: ` and its message |
| AdminPage.ClearsText | app/admin/page.tsx:40-42 | definition of when the text box is cleared; its properties are in `FinishTrain`, `EndpointSuccess` and `FailuresShowError` |
| AdminPage.ShowsError | app/admin/page.tsx:113 | definition of the red status line; its properties are in `EndpointError` and `FailuresShowError` |
| AdminPage.Admin.constructor | app/admin/page.tsx:6-10 | the page starts logged out, with every field empty and no upload in flight |
| AdminPage.Admin.SetPassword | app/admin/page.tsx:61 | typing replaces the password and nothing else |
| AdminPage.Admin.SetTextData | app/admin/page.tsx:108 | typing replaces the text and nothing else |
| AdminPage.Admin.HandleLogin | app/admin/page.tsx:12-19 | the page is authenticated afterwards exactly when it was already or the password is `admin123`; nothing else changes |
| AdminPage.Admin.Logout | app/admin/page.tsx:81 | the page is logged out and the typed password is kept |
| AdminPage.Admin.BeginTrain | app/admin/page.tsx:22-36 | blank text changes nothing; otherwise the upload is marked in flight with status `Processing...` and the body with the text and password is returned |
| AdminPage.Admin.FinishTrain | app/admin/page.tsx:38-50 | runs only while the upload is in flight; the status is set from the outcome, the text is cleared only on an ok readable response, and processing stops on every path |
| AdminPage.Admin.HandleTrain | app/admin/page.tsx:22-51 | blank text changes nothing; otherwise the status, text and processing flag end as the endpoint's outcome determines |
| AdminPage.TrainDisabled | app/admin/page.tsx:119 | definition of the button's disabled condition; its properties are in `TrainDisabledIff` |
| AdminPage.TrainDisabledIff | app/admin/page.tsx:119 | the button is disabled exactly while processing or when the text is only white space |
| AdminPage.LoginMatchesServer | app/admin/page.tsx:14 | the password that opens the panel is exactly the one the ingest endpoint accepts |
| AdminPage.EndpointSuccess | app/admin/page.tsx:40-42 | the endpoint's success reply shows `Success: ` with its message and clears the text |
| AdminPage.EndpointError | app/admin/page.tsx:43-45 | each of the endpoint's error replies shows `Error: ` with its error, in red, and keeps the text; a wrong password shows `Error: Unauthorized` |
| AdminPage.FailuresShowError | app/admin/page.tsx:43-47 | every outcome that does not clear the text shows a status that includes `Error`, so it is rendered in red |

## Left out

- The SDK client constructors are assumed never to throw: `createClient`, `GoogleGenerativeAIEmbeddings` and `SupabaseVectorStore` (app/api/chat/route.ts:21-39, app/api/ingest/route.ts:25-46), and `ChatGoogleGenerativeAI` and `ChatGroq` (app/api/chat/route.ts:72-77, 103-107). If one threw, the endpoint would answer with its 500 error reply: before any search, split or upload for the store clients, and after the search but before the model call for the model clients. The model has no such path.
- Network, file and console I/O are left out, and so are the SDK clients (Supabase, the LangChain wrappers, `GoogleGenAI`). Each call is an oracle parameter. The model does not cover console logging or `process.stdout` progress lines, except as the script's log events.
- Time is left out. `setTimeout` delays appear only as `Sleep` events. The retriever's 600 ms latency is not modelled. `Date.now()` and `new Date()` are the parameters `sentAt` and `repliedAt`, and one clock reading stands for both the id and the timestamp of a message.
- Floating point is left out. The temperatures and `maxOutputTokens` are not modelled. Document relevance is an exact real.
- IngestScript.RunIngestion: the progress percentage `Math.round(((i + 1) / n) * 100)` is computed on exact rationals, not on JavaScript doubles. Where the double result falls just below a half the two differ: for i = 22, n = 40 the double product is 57.49999999999999, so the script reports 57 where the model logs 58.
- IngestScript.ChunkTracePercents: states the exact-rational percentage, with the same gap at inputs such as i = 22, n = 40 (57 in the script, 58 here).
- IngestScript.ProgressPercent: the exact-rational rounding described above. The bounds in `ProgressBounds` (at most 100, exactly 100 for the last chunk) hold under double arithmetic too.
- `RecursiveCharacterTextSplitter` is an oracle from the text and the two chunk parameters to the chunks. Its chunk size and overlap guarantees are not part of this model.
- The embedding model name, the store table and query names, and the Gemini and Groq model names of the chat endpoint are not part of the model calls. The client services do carry their model names.
- `JSON.stringify` of structured model content is given by the oracle as the serialised string. The chat page's `history` serialisation is not modelled, since the endpoint ignores it.
- The model covers only the parts of a reply body the code reads. The chat bridge assumes `text` and `provider` are strings. A reply missing them is not modelled.
- GroqService.Answer: message content that is truthy but not a string is not modelled. Content is an optional string.
- Runtime.ToLower: only ASCII letters are lower-cased. Other Unicode case mappings are not modelled.
- ChatPage.Home.HandleSend: the catch branch that logs "Sorry, I encountered an error processing your request." is not modelled. The bridge it awaits never throws (`RouterService.RouteChatRequest` is total), so the branch is dead.
- React batching and re-entrancy are not modelled. The pages' handlers run to completion one at a time. `handleKeyDown` does not await the send, and the model treats it as if it did.
- `alert('Incorrect password')`, scrolling, the file input reset in `clearImage` and all rendering are not modelled. The exceptions are the error colouring of the admin status and the train button's disabled condition.
- The FileReader that reads an image is not modelled. `SelectImage` receives the data URL it produces.
- The script's data path is `data/finance_data.txt` relative to the working directory, where the script joins it with `process.cwd()`. The top-level call's unhandled rejection on a missing environment is modelled as a `Failure`.
- `NaN` truthiness and other `JsValue` number cases beyond zero are not modelled. Every number other than zero is truthy here.
