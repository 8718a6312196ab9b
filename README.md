# Canopy-GPT chat relay, modelled in Dafny

Canopy-GPT is a thin chat relay for the Canopy website. It has four server
handlers that each take a request, run a short chain of early-return guards,
make at most one call to a chat-completion provider and map the outcome to a
status and a JSON body:

- `api/chat.js`: CORS preflight, then the persona-injecting relay.
- `pages/api/chat.js`: a verbatim relay.
- `backend/src/index.ts`: an Express `/ask`, `/health` and 404 app.
- `frontend/src/pages/api/ask.ts`: a Next.js `/ask`.

It also has six clients, each keeping an append-only transcript and a loading
flag:

- the React Q&A widget (`QAWidget`, `InputBar`, `askQuestion`);
- the two Next.js chat pages;
- three script widgets that keep a list of message bubbles and a transient
  "typing" bubble.

## How the model is built

Each source file has its own module.

**Server handlers.** Each handler is a pure function, `Respond` (or `Ask` and
`Route` for the Express app).

- Inputs: the request fields the handler reads, whether `OPENAI_API_KEY` is
  set, and the outcome the provider would produce (`Completions.Completion`).
- Output: an `Exchange`. It holds the response the client receives, plus the
  provider call made, if any. From it, "no call" and "exactly one call, with
  this prompt" can be stated.

Each handler is also modelled as written, as a method `Handler`. It:

- writes headers, status and body into a framework response object
  (`Http.Res`);
- calls a scripted provider (`Completions.Provider`) that logs every request.

The method's postcondition says the response it sends equals `Respond`'s, and
the provider log grew by exactly `Respond`'s call.

**Clients.** Each client is a class whose fields are the component's state:

- `PagesIndex.Home` and `PagesEmbed.Embed`: `messages`, `input`, `loading`;
- `QAWidgetComponent.QAWidget`: `messages`, `isLoading`;
- `InputBarComponent.InputBar`: `question`;
- `Bubbles.View`: the widgets' bubble list and input value.

Network calls go to scripted endpoints (`Fetch.Endpoint`) that record what was
posted. Each submission is taken as one atomic "submit, then settle" step.

**JavaScript semantics.** Module `Js` holds what the source relies on:

- truthiness, as in `if (!x)`;
- `x || fallback`;
- `String.prototype.trim`, over the full ECMAScript WhiteSpace and
  LineTerminator set.

**Cross-file properties.** Module `Flows` relates a client's request to the
relay that answers it, and the relay's response to what the user sees.

## Model

| member | source | states |
|---|---|---|
| Js.Trim | frontend/src/components/InputBar.tsx:17-18 | the result is empty exactly when the input is all white space; otherwise it is the infix between the leading and trailing white space, and it neither starts nor ends with white space |
| Js.TrimIdempotent | frontend/src/components/InputBar.tsx:17-18 | trimming an already trimmed string changes nothing |
| Chat.WithoutSystem | api/chat.js:78 | the filter keeps no system turn, and a turn is in the result exactly when it is a non-system turn of the input |
| Chat.WithoutSystemAppend | api/chat.js:78 | filtering a concatenation is concatenating the filtered parts |
| Chat.WithoutSystemLength | api/chat.js:78 | the filtered transcript has exactly as many turns as the input has non-system turns |
| Chat.WithoutSystemIsSubsequence | api/chat.js:78 | the filter keeps the surviving turns in their original order |
| Chat.WithoutSystemOfNonSystem | pages/index.js:44 | a transcript with no system turn passes the filter unchanged |
| ApiChat.EnhancedMessages | api/chat.js:76-79 | the prompt is the persona followed by the non-system turns of the input in order; its length is 1 plus their number |
| ApiChat.Respond | api/chat.js:5-96 | every response carries the three CORS headers; the provider is called exactly for a POST whose `messages` is an array while the key is set, with the persona prompt, 512 tokens and temperature 0.7; 200 comes exactly for OPTIONS or for a completed call; no other status than 200, 400, 405 or 500 |
| ApiChat.Handler | api/chat.js:5-96 | the handler writing into the response object sends exactly `Respond`'s response and issues exactly its provider call |
| ApiChat.PreflightIsEmpty | api/chat.js:7-12 | OPTIONS gets 200 with the CORS headers, no body and no provider call |
| ApiChat.OtherMethodsRefused | api/chat.js:19-21 | any method but POST and OPTIONS gets 405 "Method not allowed" and no provider call |
| ApiChat.FalsyMessagesRefused | api/chat.js:23-26 | a POST gets 400 "Missing messages" exactly when `messages` is falsy, with no provider call; an empty array is let through and sent as the persona alone |
| ApiChat.MissingKeyRefused | api/chat.js:28-32 | without the key a POST with messages gets 500 "OpenAI API key not configured" and no provider call |
| ApiChat.ReplyIsContent | api/chat.js:81-91 | a completed call gets 200 with the first choice's content as `reply`, or '' when there is none, after exactly one call |
| ApiChat.ProviderErrorLeaks | api/chat.js:92-95 | a provider failure gets 500 with the provider's error message verbatim |
| ApiChat.InjectedSystemTurnDropped | api/chat.js:76-79 | a caller-supplied system turn does not reach the provider; the persona takes its place |
| PagesApiChat.Respond | pages/api/chat.js:5-25 | no headers are set; the provider is called exactly for a POST with truthy `messages`, which are forwarded unchanged with 512 tokens and temperature 0.7; 200 comes exactly for a completed call |
| PagesApiChat.Handler | pages/api/chat.js:5-25 | the handler writing into the response object sends exactly `Respond`'s response and issues exactly its provider call |
| PagesApiChat.NonPostRefused | pages/api/chat.js:6-8 | every method but POST, OPTIONS included, gets 405 and no provider call |
| PagesApiChat.FalsyMessagesRefused | pages/api/chat.js:9-12 | a falsy `messages` gets 400 "Missing messages" and no provider call |
| PagesApiChat.ForwardsVerbatim | pages/api/chat.js:13-19 | any transcript, system turns included, reaches the provider unchanged |
| PagesApiChat.ReplyOrError | pages/api/chat.js:20-24 | a completed call gets 200 with the content or ''; a failure gets 500 with the provider's message |
| Backend.Ask | backend/src/index.ts:34-91 | the provider is called exactly for a defined body whose question is a non-empty string while the key is set, with the two-turn prompt, 500 tokens and temperature 0.7; 200 comes exactly for a completed call and then carries a non-empty answer; other statuses are 400 and 500 |
| Backend.Route | backend/src/index.ts:19-102 | every OPTIONS request gets the cors middleware's 204 with no body; otherwise a body the JSON parser rejects gets 500 "Something went wrong!" from the error middleware; only POST /ask, in any letter case and with an optional trailing slash, can call the provider; POST /ask is answered exactly as `Ask` answers its body, a parsed or an undefined one; GET or HEAD of /health gets 200 with status "OK" and the time and no call; a request that is neither gets 404 "Endpoint not found" |
| Backend.AskHandler | backend/src/index.ts:34-91 | the route handler writing into the response object sends exactly `Ask`'s response and issues exactly its provider call, on an undefined body too |
| Backend.QuestionShape | backend/src/index.ts:38 | a question passes the check exactly when it is a non-empty string |
| Backend.UnsetBodyApology | backend/src/index.ts:34-90 | an undefined body makes the destructuring throw inside the `try`, so it gets the fixed 500 apology and no provider call |
| Backend.InvalidQuestionFirst | backend/src/index.ts:36-48 | an invalid question gets 400 "Question is required and must be a string" whether or not the key is set, with no provider call |
| Backend.MissingKeyRefused | backend/src/index.ts:44-48 | without the key a valid question gets 500 "OpenAI API key not configured" and no provider call |
| Backend.AnswerBody | backend/src/index.ts:67-83 | the provider is asked the persona then the question; the body echoes the question, carries the timestamp, and holds the content or "Sorry, I could not generate a response." when it is empty or absent |
| Backend.ProviderErrorHidden | backend/src/index.ts:85-90 | every provider failure gets the same 500 "Failed to process your question. Please try again.", whatever the provider said |
| Backend.HealthAndFallThrough | backend/src/index.ts:22-102 | GET /health reports status "OK" with the time; HEAD /Health/ also gets 200; GET /ask falls through to 404; an OPTIONS preflight of /ask gets 204 with no body |
| Backend.AskPathFolded | backend/src/index.ts:34 | POST /ASK/ reaches the `/ask` handler as POST /ask does |
| FrontendAsk.Respond | frontend/src/pages/api/ask.ts:8-42 | the provider is called exactly for a POST of a non-empty string question, with no credential gate; 200 comes exactly for a completed call and carries a non-empty answer; every other status carries an error body |
| FrontendAsk.Handler | frontend/src/pages/api/ask.ts:8-42 | the handler writing into the response object sends exactly `Respond`'s response and issues exactly its provider call |
| FrontendAsk.NonPostRefused | frontend/src/pages/api/ask.ts:9-11 | a method other than POST gets 405 and no provider call |
| FrontendAsk.InvalidQuestionRefused | frontend/src/pages/api/ask.ts:13-17 | a missing, empty or non-string question gets 400 and no provider call |
| FrontendAsk.ValidQuestionAnswered | frontend/src/pages/api/ask.ts:19-41 | a valid question is sent once as persona then question, with 500 tokens and temperature 0.7; the answer or the fallback comes back with the question and time, and a failure gets the fixed 500 apology |
| FrontendApi.AskQuestion | frontend/src/lib/api.ts:23-33 | it returns exactly when the POST resolved, with the data unchanged; an axios error raises the server's `error` text or "Failed to get answer"; anything else raises "An unexpected error occurred"; a raised message is never empty |
| FrontendApi.AxiosOf | frontend/src/lib/api.ts:25-29 | a 2xx response resolves with its body; any other status rejects, carrying the body's `error` field when it has one |
| FrontendApi.CheckHealth | frontend/src/lib/api.ts:35-38 | the health check always reports "OK" with the current time and contacts nothing |
| FrontendApi.ServerErrorSurfaced | frontend/src/lib/api.ts:28-29 | a non-empty server error text is raised verbatim; an empty or missing one becomes "Failed to get answer" |
| InputBarComponent.Submission | frontend/src/components/InputBar.tsx:15-21 | a submission fires exactly when the trimmed text is non-empty and the bar is neither loading nor disabled, and passes on the trimmed text |
| InputBarComponent.SendEnabledIffSubmits | frontend/src/components/InputBar.tsx:15-45 | the send button is enabled exactly when pressing it submits |
| InputBarComponent.InputBar.constructor | frontend/src/components/InputBar.tsx:13 | the field starts empty |
| InputBarComponent.InputBar.Type | frontend/src/components/InputBar.tsx:33-42 | typing replaces the text unless the textarea is disabled by loading or `disabled` |
| InputBarComponent.InputBar.HandleSubmit | frontend/src/components/InputBar.tsx:15-21 | it passes on exactly `Submission`'s value and clears the field exactly when it fires |
| InputBarComponent.InputBar.HandleKeyPress | frontend/src/components/InputBar.tsx:23-28 | Enter without Shift takes the submit path; any other key submits nothing and leaves the field alone |
| QAWidgetComponent.SettledFrom | frontend/src/lib/api.ts:23-33 | `askQuestion` fulfils with the data or rejects with an Error carrying the raised message, never with a non-Error |
| QAWidgetComponent.AnswerFor | frontend/src/components/QAWidget.tsx:49-68 | the answer message holds the response's answer and timestamp on success; on failure it holds the Error's message, or "An unexpected error occurred. Please try again." for a non-Error, stamped with the failure time |
| QAWidgetComponent.QAWidget.constructor | frontend/src/components/QAWidget.tsx:23-24 | the widget starts with no messages and not loading |
| QAWidgetComponent.QAWidget.Ask | frontend/src/components/QAWidget.tsx:39-47 | the question message is appended, then loading is set |
| QAWidgetComponent.QAWidget.Settle | frontend/src/components/QAWidget.tsx:49-71 | exactly one answer message is appended and loading is cleared, on success and failure alike |
| QAWidgetComponent.QAWidget.HandleSubmit | frontend/src/components/QAWidget.tsx:38-72 | a submission appends the question then its answer and nothing else, so the transcript stays question/answer pairs and is never edited |
| ChatPage.Initial | pages/index.js:4-6 | the transcript starts as the page's persona turn alone, and nothing is displayed |
| ChatPage.ReplyOf | pages/index.js:22-28 | the page gets `data.reply` once both awaits succeed, and nothing when `fetch` or `res.json()` rejects |
| ChatPage.DisplayedIsTail | pages/index.js:44 | on a transcript led by the persona the page shows every turn after the persona turn |
| ChatPage.DisplayedAppend | pages/index.js:18-44 | appending user and assistant turns keeps the transcript well formed and shows them after everything shown before |
| ChatPage.SendEnabledIffPosts | pages/index.js:17-91 | on a page whose input is empty while it loads, the send button is enabled exactly when the input does not trim to blank |
| PagesIndex.Home.constructor | pages/index.js:4-8 | the page starts with the persona transcript, empty input, not loading |
| PagesIndex.Home.Type | pages/index.js:75 | typing replaces the input unless the input is disabled while loading |
| PagesIndex.Home.SendMessage | pages/index.js:15-91 | a blank input changes nothing and posts nothing, and the send button is enabled exactly when the input is not blank and the page is not loading, so exactly then something is posted; otherwise, while waiting, the transcript is the old one plus the untrimmed input as a user turn, the input is empty and the page is loading, and that transcript is posted; on a reply, one assistant turn with `data.reply` is appended and loading cleared; on a rejection the page stays loading |
| PagesEmbed.Embed.constructor | pages/embed.js:4-8 | the page starts with the persona transcript, empty input, not loading |
| PagesEmbed.Embed.Type | pages/embed.js:91 | typing replaces the input unless the input is disabled while loading |
| PagesEmbed.Embed.SendMessage | pages/embed.js:15-106 | a blank input changes nothing and posts nothing, and the send button is enabled exactly when the input is not blank and the page is not loading, so exactly then something is posted; otherwise, while waiting, the transcript is the old one plus the untrimmed input as a user turn, the input is empty and the page is loading, and that transcript is posted; on a reply, one assistant turn with `data.reply` is appended and loading cleared; on a rejection the page stays loading |
| Fetch.Over | pages/index.js:22-27 | a relay's empty body fails to parse, a reply body yields its `reply`, and every other body has no `reply` |
| Fetch.Endpoint.Post | pages/index.js:22-26 | a POST records the posted transcript and settles as scripted |
| Completions.Provider.Create | api/chat.js:81-86 | a provider call records its request and settles as scripted |
| Http.Res.SetHeader | api/chat.js:15-17 | a header is set and nothing else changes |
| Http.Res.Status | api/chat.js:20 | the status is set and nothing else changes |
| Http.Res.Json | api/chat.js:91 | the body is set and the response finished |
| Http.Res.End | api/chat.js:11 | the response is finished with no body |
| Bubbles.View.AddMessage | public/widget-embedded.js:119-146 | a user or bot bubble is appended, or nothing happens when the messages container is missing |
| Bubbles.View.AppendLoading | public/widget-embedded.js:200-217 | the typing bubble is appended at the end |
| Bubbles.View.RemoveAt | public/widget-embedded.js:223 | the typing bubble is removed and the other bubbles keep their order |
| Bubbles.View.Type | public/widget-embedded.js:192 | the browser's edit of the input field replaces the value the submit handler reads at that line, and leaves the bubbles alone |
| Widget.SendMessage | public/widget.js:171-240 | the text is never empty: a rejection, a non-ok status or an unparsable body gives "Sorry, I'm having trouble connecting right now. Please try again later."; otherwise the reply or "Sorry, I didn't get a proper response. Please try again." |
| Widget.OnSubmit | public/widget.js:276-279 | an input that trims to blank changes nothing and posts nothing; any other input is handled as `Converse` handles its trimmed text |
| Widget.Converse | public/widget.js:280-311 | the input is cleared; without the messages container no bubble is added and nothing is posted; with it the message is posted after the persona, the bubbles while waiting are the old ones plus the user and typing bubbles, and afterwards the old ones plus the user bubble and one bubble with the reply text |
| Widget.GuardSkipsExistingWidget | public/widget.js:13-16 | running the script on a page that already has the widget changes nothing |
| Widget.DoubleIncludeMakesTwoWidgets | public/widget.js:319-325 | two copies of the script that both run before either deferred `init` create two widgets |
| Widget.CheckedAtMostOneWidget | public/widget.js:243-246 | with `init` re-checking for the widget, no order of script runs and `init`s creates a second one |
| WidgetEmbedded.SendMessage | public/widget-embedded.js:149-170 | a rejection or unparsable body gives the "trouble connecting" text; otherwise `data.reply` as received, whatever the status |
| WidgetEmbedded.OnSubmit | public/widget-embedded.js:190-193 | an input that trims to blank changes nothing and posts nothing; any other input is handled as `Converse` handles its trimmed text |
| WidgetEmbedded.Converse | public/widget-embedded.js:195-224 | the input is cleared; without the messages container no bubble is added and nothing is posted; with it the message is posted after the short persona, the bubbles while waiting are the old ones plus the user and typing bubbles, and afterwards the old ones plus the user bubble and one bubble with the reply, shown as '' when it is missing |
| WidgetEmbedded.ErrorStatusShowsEmptyBubble | public/widget-embedded.js:164-165 | an error response without `reply` leaves an empty bubble, whatever its status |
| WidgetSimple.SendMessage | public/widget-simple.js:127-148 | a rejection or unparsable body gives the "trouble connecting" text; otherwise `data.reply` as received, whatever the status |
| WidgetSimple.OnSubmit | public/widget-simple.js:164-167 | an input that trims to blank changes nothing and posts nothing; any other input is handled as `Converse` handles its trimmed text |
| WidgetSimple.Converse | public/widget-simple.js:169-194 | the input is cleared; without the messages container no bubble is added and nothing is posted; with it the message is posted after the short persona, the bubbles while waiting are the old ones plus the user and typing bubbles, and afterwards the old ones plus the user bubble and one bubble with the reply, shown as '' when it is missing |
| WidgetSimple.ErrorStatusShowsEmptyBubble | public/widget-simple.js:142-143 | an error response without `reply` leaves an empty bubble, whatever its status |
| Flows.SubmissionAccepted | frontend/src/components/InputBar.tsx:17-18 | whatever the input bar submits, the question endpoint accepts: never 400, and the provider is asked once |
| Flows.AnswerAlwaysShown | frontend/src/components/QAWidget.tsx:49-68 | every request the question endpoint answers ends in a non-empty answer message in the Q&A widget: the answer on 200, otherwise the server's error text verbatim, so the component's own fallback text is never used |
| Flows.NoResponseShown | frontend/src/lib/api.ts:27-32 | a request that gets no response shows "Failed to get answer", and any other failure "An unexpected error occurred" |
| Flows.ProviderFailureApology | frontend/src/pages/api/ask.ts:39-41 | a provider failure reaches the Q&A widget as the endpoint's fixed apology |
| Flows.PageTranscriptRebranded | pages/index.js:18-25 | if `/api/chat` is answered by `api/chat.js`, a page's posted transcript reaches the provider as that relay's persona followed by exactly the displayed turns; the page's own persona is dropped |
| Flows.PageReplyFromRelay | pages/index.js:27-28 | if `/api/chat` is answered by `api/chat.js`, a page appends the relay's reply on success and an assistant turn with no content on every relay error |
| Flows.PageTranscriptVerbatim | pages/api/chat.js:13-19 | if `/api/chat` is answered by `pages/api/chat.js`, a page's posted transcript reaches the provider unchanged, the page's own persona first |
| Flows.PageReplyFromVerbatimRelay | pages/api/chat.js:20-24 | if `/api/chat` is answered by `pages/api/chat.js`, a page appends the reply (or '') on success and an assistant turn with no content on a provider failure |
| Flows.WidgetPromptRebranded | public/widget.js:179-226 | a widget's persona is replaced by the relay's, so the provider sees that persona and the message alone |
| Flows.WidgetTextFromRelay | public/widget.js:229-239 | the floating widget shows the relay's reply, its own fallback for an empty one, and the connection apology for every relay error |
| Flows.EmbeddedTextFromRelay | public/widget-embedded.js:164-165 | the embedded widget shows the relay's reply, and an empty bubble for every relay error |

## Left out

- The provider SDK, `fetch` and `axios` are network calls. They are inputs: a `Completion` outcome, a scripted `Provider` or `Endpoint`, an `AxiosOutcome`. A completion without a `choices` array, which makes the handler throw, is folded into `Failed`.
- Construction of the provider client at module load (`api/chat.js:3`, `pages/api/chat.js:3`, `backend/src/index.ts:15`, `frontend/src/pages/api/ask.ts:4`), and reading `process.env`, are reduced to one boolean: whether the key is set. If the SDK constructor itself throws on a missing key, the module fails to load and no handler answers at all. The handlers' "not configured" 500 then matches the source only for an empty key. This depends on the SDK and is not modelled.
- Persona and prompt texts are constants. Only their place in a prompt matters. The long personas of the relays and of `public/widget.js` are abbreviated to their first sentence.
- Express plumbing in `backend/src/index.ts` is library behaviour. What it does to the status and body is modelled: the cors preflight answer, a body the parser rejects, HEAD on a GET route, case-insensitive paths with an optional trailing slash. The rest is not: morgan, `app.listen`, and the 10 MB limit itself (an over-limit body is one the parser rejects).
- Backend.Route: does not model the headers helmet and cors add to every response, nor that a HEAD answer has its body stripped, nor paths that differ by URL encoding or a query string, because these are library details outside the app's own code.
- A request with no parsed body (`req.body` undefined) is modelled only for `backend/src/index.ts`. There the destructuring at line 36 is inside the `try`, so the answer is the fixed 500 apology (`Backend.UnsetBodyApology`). In `api/chat.js:23`, `pages/api/chat.js:9` and `frontend/src/pages/api/ask.ts:13` the destructuring is outside any `try`, and what the framework then answers is not modelled. A parsed body that is an array or string destructures to an undefined field, which is modelled.
- ApiChat.Respond: assumes every element of a `messages` array is a turn object. A `null` or `undefined` element makes `msg.role` at `api/chat.js:78` throw inside the `try`, which gives 500 with the TypeError text and no provider call; that case, and primitive elements, are not modelled.
- `messages` as a JSON value can be modelled as a string, number or object as well as an array. Only the array case gets the filter. A truthy non-array in `api/chat.js` becomes a 500 carrying the TypeError text "messages.filter is not a function", and the exact wording comes from the JavaScript engine.
- A non-string `reply`, or a JSON-null response body, is not modelled. `reply` is a string or absent.
- NaN is not a value of `Js.Value`, so its falsiness plays no part.
- Which handler answers `/api/chat` depends on deployment: both `api/chat.js` and `pages/api/chat.js` sit at that path. `Flows` states the chat pages' round trip under each in turn and does not decide between them.
- Console logging (`console.log` and `console.error`) has no effect on state or responses and is not modelled.
- HTML and CSS are not modelled: widget markup, container discovery in `public/widget-embedded.js`, and the toggle and close buttons of `public/widget.js`. Nor is the `init` bootstrapping beyond the duplicate-initialisation guard, nor `frontend/src/components/ChatBox.tsx`, which only renders.
- Scrolling (`scrollToBottom`, `scrollIntoView`, `scrollTop`) has no state to verify.
- Message ids and ISO timestamps are parameters. No claim is made that ids are unique.
- Async interleaving is not modelled. Each submission is one atomic submit-then-settle step, so overlapping submissions in the script widgets and pages are not covered. The React state-setter closures are not covered either.
- `Js.Trim` follows the ECMAScript white-space and line-terminator list as of Unicode 15. Later changes to the Unicode space category are not tracked.
- `Bubbles.View.AppendLoading` requires the messages container. Without it the source's `appendChild` on a missing element throws. Each widget's `Converse` models that throw as the end of the handler, after the input is cleared and before any request.

## Findings

| source | as written | input that shows it | evidently intended | confidence | as-written member | corrected member |
|---|---|---|---|---|---|---|
| public/widget.js:13-16 | the duplicate check for `#canopy-widget` runs when the script runs, but the element is only created by `init`, deferred to DOMContentLoaded or a 100 ms timer (public/widget.js:243-246, 319-325) | a page that includes the script twice while the document is still loading: both copies pass the check, then both `init`s create a widget | at most one widget per page, as the comment above the check says; `init` should look for the element again before creating one | medium, not executed | Widget.DoubleIncludeMakesTwoWidgets | Widget.CheckedAtMostOneWidget |
