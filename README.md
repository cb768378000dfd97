# Voice assistant: prompt orchestration and chat proxy, modelled in Dafny

The application lets a user dictate or type a prompt, sends it to its own
`POST /api/chat` endpoint, which forwards it to the DeepSeek chat-completion
API, and shows the answer in an editable rich-text area while a cosmetic
progress indicator runs. This project models the three parts of it that
carry state or decisions:

- **The voice-input component** (`VoiceInput`): the session state (`prompt`,
  `response`, `isLoading`, `error`, `progress`) as the fields of the class
  `PromptSession`, with one method per event: send, simulator tick, fetch
  settlement, transcript change, prompt edit, response edit and the
  microphone toggle. `handleSendPrompt` is split at its `await fetch`: `Send`
  validates and issues the request, `Resolve` takes the fetch's outcome and
  runs the `try`/`catch`/`finally`. Every progress simulator keeps its own
  counter in `simulators`, and its interval ticks are `Tick` events; nothing
  cancels a simulator but itself. `SimulateProgress` runs one simulator to
  its end in a loop.
- **The speech-recognition hook** (`SpeechHook`, `SpeechRecognition`): the
  transcript `text`, `isListening`, the stored engine instance, the deferred
  starts still pending and the engine's `start`/`stop` calls in order. The
  transitions are functions over the value `Hook`; the class `SpeechCapture`
  keeps the same state in fields and each of its methods is proved to make
  the transition of the same name. The transcript rebuild on every result
  is the pure function `Transcript`.
- **The chat proxy** (`ChatRoute`): `Post` maps the decoded prompt and the
  upstream call's outcome to the request sent upstream (if any) and the
  status and body returned.

`JsText` gives JavaScript's `trim` over the whitespace and line-terminator
code points of sections 12.2 and 12.3 of ECMA-262 (the full set, not a
subset). `Pipeline` connects the proxy's replies to the client and proves
the end-to-end cases: a prompt the client sends is never rejected by the
proxy, the client answers exactly when the upstream completes, and every
upstream failure (the 429 rate limit included) ends in the client's generic
error.

External effects are inputs or events: the fetch outcome (`FetchOutcome`),
the upstream outcome (`UpstreamOutcome`), the engine's callbacks (`OnResult`,
`OnError`, `OnEnd`), the expiry of the 100 ms start delay
(`FireDeferredStart`), interval ticks (`Tick`) and whether the browser offers
speech recognition (`Mount`'s `available`).

Behaviour of the code worth knowing:

- Progress is not monotone within a session: a simulator is never cancelled,
  so a tick after the cycle has ended (or a tick of an earlier cycle's
  simulator during a later cycle) can lower it. What holds is that once every
  simulator has stopped itself and no fetch is pending, progress is 100
  (`PromptSession.Valid`); `StaleTickLowersProgress` shows 100 falling to 20.
- There is no lifecycle enum; "failed" is `error != null`. The validation
  error leaves `isLoading`, `progress` and `response` as they were.
- The proxy never produces a `details` field, and a thrown `Error` other than
  a 429 surfaces its own message verbatim with status 500.
- Only missing, null or "" prompts are rejected by the proxy; it does not trim.
- Because the proxy always answers 200 with a non-empty message, the client's
  own fallback "Не удалось получить ответ" is never shown through it.
- The mirroring effect runs at mount with the hook's empty transcript, so the
  component's `initialPrompt` is overwritten with "" (constructor).
- The transcript is mirrored into the prompt on every change, discarding
  typed text (`DictationReplacesTypedPrompt`).

## Model

| member | source | states |
|---|---|---|
| `JsText.TrimStart` | src/app/components/VoiceInput/VoiceInput.tsx:55 | the result is a suffix of the input, starts with a non-whitespace character or is empty, and everything dropped is whitespace |
| `JsText.TrimEnd` | src/app/components/VoiceInput/VoiceInput.tsx:55 | the result is a prefix of the input, ends with a non-whitespace character or is empty, and everything dropped is whitespace |
| `JsText.Trim` | src/app/components/VoiceInput/VoiceInput.tsx:55 | `trim()` is empty exactly when every character is ECMA-262 whitespace or a line terminator; otherwise it starts and ends with a non-whitespace character |
| `ChatRoute.IsTruthy` | src/app/api/chat/route.ts:13 | a decoded prompt is falsy exactly when it is missing, null or "" |
| `ChatRoute.RequestFor` | src/app/api/chat/route.ts:18-26 | the upstream request has model "deepseek-chat", temperature 0.7, max tokens 2000 and exactly two messages: the system preamble "You are a helpful assistant.", then the prompt, unchanged, as the user message |
| `ChatRoute.ReplyContent` | src/app/api/chat/route.ts:28-29 | the reply content is never empty: choice 0's content when present and non-empty, otherwise "No response received" (also for an empty choice list) |
| `ChatRoute.FailureReply` | src/app/api/chat/route.ts:32-47 | a thrown value gives 429 exactly for an `Error` with status 429 (message "Rate limit exceeded"), otherwise 500 with the `Error`'s own message or, for a non-`Error`, "Failed to fetch response from DeepSeek" |
| `ChatRoute.Post` | src/app/api/chat/route.ts:10-48 | an upstream request is issued exactly for a truthy prompt, and it is the fixed request for that prompt; 400 exactly for a falsy prompt, 200 exactly for a completion, 429 exactly for an `Error` with status 429; status always in {200, 400, 429, 500}; `message` body exactly on 200, `error` body otherwise |
| `ChatRoute.FalsyPromptRejected` | src/app/api/chat/route.ts:13-15 | a missing, null or "" prompt gives 400 `{error: "Prompt is required"}`, issues no request, and the upstream outcome makes no difference |
| `ChatRoute.NonEmptyPromptForwarded` | src/app/api/chat/route.ts:13-26 | any non-empty prompt, whitespace-only included, is sent as model "deepseek-chat", max tokens 2000, temperature 0.7, with exactly the system message "You are a helpful assistant." then the user message holding the prompt |
| `ChatRoute.CompletionAnswered` | src/app/api/chat/route.ts:28-31 | a completion is answered 200 `{message: c}` with `c` the reply content; with no choices `c` is "No response received" |
| `ChatRoute.RateLimitOverridesMessage` | src/app/api/chat/route.ts:41-44 | an `Error` with status 429 gives 429 `{error: "Rate limit exceeded"}`, whatever its own message |
| `ChatRoute.OtherFailuresAre500` | src/app/api/chat/route.ts:35-47 | any other thrown value gives 500 with the `Error`'s message, or the fixed DeepSeek message for a non-`Error` |
| `SpeechHook.Initial` | src/hooks/useSpeechRecognition.ts:26-30 | the hook starts valid, unmounted and without recognition support |
| `SpeechHook.HasRecognitionSupport` | src/hooks/useSpeechRecognition.ts:99 | support holds exactly when an instance is stored; a hook without it has empty text, is not listening and never called the engine |
| `SpeechHook.Transcript` | src/hooks/useSpeechRecognition.ts:53-55 | the join of every segment's alternative 0: empty for no segments, otherwise beginning with the first segment's best alternative and ending with the last one's |
| `SpeechHook.Mount` | src/hooks/useSpeechRecognition.ts:32-68 | after the init effect, `hasRecognitionSupport` holds exactly when the capability is available; the stored instance is continuous, with interim results, for "ru-RU, ru"; nothing else changes |
| `SpeechHook.TranscriptAppend` | src/hooks/useSpeechRecognition.ts:53-55 | the transcript of a concatenated result list is the concatenation of the transcripts: segments contribute in order |
| `SpeechHook.TranscriptUsesBestAlternatives` | src/hooks/useSpeechRecognition.ts:54 | two result lists that agree on alternative 0 of every segment give the same transcript |
| `SpeechHook.OnResult` | src/hooks/useSpeechRecognition.ts:52-57 | a result event replaces the whole text with the transcript of the full result list, whatever it was before; a segment without alternatives makes the handler throw and leaves the text; nothing else changes |
| `SpeechHook.OnError` | src/hooks/useSpeechRecognition.ts:59-62 | an error event clears `isListening` and changes nothing else |
| `SpeechHook.OnEnd` | src/hooks/useSpeechRecognition.ts:64-66 | an end event clears `isListening` and changes nothing else |
| `SpeechHook.StartListening` | src/hooks/useSpeechRecognition.ts:76-85 | with an instance: text cleared, `stop` called at once, one deferred start scheduled, `isListening` not yet set; without one: no change |
| `SpeechHook.FireDeferredStart` | src/hooks/useSpeechRecognition.ts:80-83 | the deferred callback calls `start` and sets `isListening`, leaving the text |
| `SpeechHook.StopListening` | src/hooks/useSpeechRecognition.ts:87-92 | with an instance: `stop` called and `isListening` cleared, pending starts kept; without one: no change |
| `SpeechHook.Teardown` | src/hooks/useSpeechRecognition.ts:70-72 | unmounting calls `stop` on the created instance, and does nothing when none was created |
| `SpeechHook.StopCannotCancelDeferredStart` | src/hooks/useSpeechRecognition.ts:76-92 | start, then stop inside the 100 ms window, then the timer: the engine ends started and `isListening` is true, with calls stop, stop, start |
| `SpeechHook.TransitionsKeepValid` | src/hooks/useSpeechRecognition.ts:25-92 | every transition keeps the hook's invariant: without an instance the text is "", nothing listens, nothing is pending and the engine was never called |
| `SpeechRecognition.SpeechCapture.constructor` | src/hooks/useSpeechRecognition.ts:26-30 | the hook starts with empty text, not listening, no instance |
| `SpeechRecognition.SpeechCapture.Mount` | src/hooks/useSpeechRecognition.ts:32-68 | the in-place init effect performs `SpeechHook.Mount` |
| `SpeechRecognition.SpeechCapture.OnResult` | src/hooks/useSpeechRecognition.ts:52-57 | the in-place handler performs `SpeechHook.OnResult` |
| `SpeechRecognition.SpeechCapture.OnError` | src/hooks/useSpeechRecognition.ts:59-62 | the in-place handler performs `SpeechHook.OnError` |
| `SpeechRecognition.SpeechCapture.OnEnd` | src/hooks/useSpeechRecognition.ts:64-66 | the in-place handler performs `SpeechHook.OnEnd` |
| `SpeechRecognition.SpeechCapture.StartListening` | src/hooks/useSpeechRecognition.ts:76-85 | the in-place handler performs `SpeechHook.StartListening` |
| `SpeechRecognition.SpeechCapture.FireDeferredStart` | src/hooks/useSpeechRecognition.ts:80-83 | the in-place timer callback performs `SpeechHook.FireDeferredStart` |
| `SpeechRecognition.SpeechCapture.StopListening` | src/hooks/useSpeechRecognition.ts:87-92 | the in-place handler performs `SpeechHook.StopListening` |
| `SpeechRecognition.SpeechCapture.Teardown` | src/hooks/useSpeechRecognition.ts:70-72 | the in-place cleanup performs `SpeechHook.Teardown` |
| `VoiceInput.IsOk` | src/app/components/VoiceInput/VoiceInput.tsx:74 | `res.ok` holds exactly for a status of the 2xx class |
| `VoiceInput.Settle` | src/app/components/VoiceInput/VoiceInput.tsx:74-81 | a fetch answers exactly when the status is ok and the body decodes; the answer is never empty: `data.message` when non-empty, otherwise "Не удалось получить ответ" |
| `VoiceInput.Published` | src/app/components/VoiceInput/VoiceInput.tsx:47 | a tick publishes `min(counter, 100)`: the counter itself below 100, and exactly 100 once the counter has reached 100 |
| `VoiceInput.SimulateProgress` | src/app/components/VoiceInput/VoiceInput.tsx:43-52 | one simulator publishes exactly ten values 10, 20, ..., 100, strictly increasing, the last 100, then stops itself |
| `VoiceInput.PromptSession.constructor` | src/app/components/VoiceInput/VoiceInput.tsx:21-41 | the session starts empty, not loading, no error, progress 0; the mount-time mirroring effect overwrites `initialPrompt` with the empty transcript |
| `VoiceInput.PromptSession.Send` | src/app/components/VoiceInput/VoiceInput.tsx:54-72 | a blank prompt sets exactly the validation error and changes nothing else (no request, loading, progress and response untouched); otherwise loading, no error, progress 0, one new simulator at 0, and one POST of the prompt as it stands |
| `VoiceInput.PromptSession.Tick` | src/app/components/VoiceInput/VoiceInput.tsx:44-50 | a live simulator's counter grows by 10 and progress becomes the counter capped at 100, even after its cycle ended; the session invariant is kept |
| `VoiceInput.PromptSession.Resolve` | src/app/components/VoiceInput/VoiceInput.tsx:65-85 | an answer replaces the response and calls `onSend` (if supplied) once with the prompt captured at send; a failure sets exactly the generic error and keeps the response, no `onSend`; either way progress 100 and not loading; the invariant (settled implies progress 100) is kept |
| `VoiceInput.PromptSession.SyncTranscript` | src/app/components/VoiceInput/VoiceInput.tsx:39-41 | a changed transcript overwrites the prompt; an unchanged one leaves it |
| `VoiceInput.PromptSession.EditPrompt` | src/app/components/VoiceInput/VoiceInput.tsx:158 | typing sets the prompt to the typed value |
| `VoiceInput.PromptSession.EditResponse` | src/app/components/VoiceInput/VoiceInput.tsx:204 | an editor change sets the response |
| `VoiceInput.PromptSession.ToggleListening` | src/app/components/VoiceInput/VoiceInput.tsx:88-94 | the toggle stops the hook when it is listening and starts it otherwise |
| `VoiceInput.TicksFollowSimulateProgress` | src/app/components/VoiceInput/VoiceInput.tsx:43-51 | ticking a fresh cycle's simulator in the session shows 10, 20, ..., 100, ten values in all, and leaves its counter at 100, where it stops |
| `VoiceInput.StaleTickLowersProgress` | src/app/components/VoiceInput/VoiceInput.tsx:45-51 | a simulator tick after the cycle's `finally` lowers progress from 100 to 20 |
| `VoiceInput.DictationReplacesTypedPrompt` | src/app/components/VoiceInput/VoiceInput.tsx:39-41 | typed text is replaced by the transcript once a result arrives after listening starts |
| `Pipeline.Delivered` | src/app/components/VoiceInput/VoiceInput.tsx:66-76 | the proxy's reply reaches the client with its status and a decodable body whose `message` is present exactly on success and is then the proxy's message |
| `Pipeline.ClientPromptsPassValidation` | src/app/api/chat/route.ts:13-15 | a prompt that passes the client's blank check is truthy for the proxy: it goes upstream and is never answered 400 |
| `Pipeline.ProxyOutcomeSettlesClient` | src/app/components/VoiceInput/VoiceInput.tsx:74-81 | through the proxy the client answers exactly when the upstream completes, with the proxy's content; every upstream failure ends in the generic error |
| `Pipeline.BlankPromptScenario` | src/app/components/VoiceInput/VoiceInput.tsx:55-58 | prompt "  ": validation error, no request, not loading |
| `Pipeline.HelloScenario` | src/app/components/VoiceInput/VoiceInput.tsx:65-85 | prompt "Hello" answered "Hi there": response "Hi there", no error, progress 100, `onSend` called with "Hello" |
| `Pipeline.RateLimitScenario` | src/app/api/chat/route.ts:41-47 | a rate-limited upstream: proxy status 429, client shows the generic error, response unchanged |
| `Pipeline.EmptyChoicesScenario` | src/app/api/chat/route.ts:28-31 | no choices upstream: proxy status 200 with "No response received", which the client shows |

## Left out

- The rendering (JSX), the progress ring (`FaceIDLoader`, floating-point geometry and animation), the rich-text editor wrapper (`ResponseEditor`, taken as a plain assignment of the response), the page layout and the prop/hook interface declarations: no behaviour beyond what is modelled.
- The `disabled` guards of the send button, prompt field and microphone button appear only as preconditions (`!isLoading`) of `Send`, `EditPrompt` and `ToggleListening`; the send button's extra guard on a blank prompt is not used, so the handler's own blank check is modelled.
- HTTP and JSON plumbing: `fetch`, `res.json()`, `req.json()`, `NextResponse`, the OpenAI client, its base URL and API key. Their results are inputs (`FetchOutcome`, `UpstreamOutcome`); the POST method and JSON header of the client request are not represented, only the prompt posted.
- A request body that is not JSON, or has no object shape, makes `req.json()` or the destructuring throw outside the proxy's `try`; that path is not modelled.
- ChatRoute.Post: the `prompt` field is modelled as a string or missing/null; non-string JSON values (numbers, booleans, objects), which JavaScript truthiness would also judge, are not modelled.
- The temperature 0.7 is carried as the integer 7 tenths, not as a floating-point number.
- Wall-clock timing of `setInterval(300)` and `setTimeout(100)`: ticks and timer expiry are events with no duration.
- React scheduling and batching: setters are immediate assignments, and the mirroring effect runs as its own event after the transcript changes.
- The capability probe is a present/absent flag; `alert` and `console.error` logging are not modelled.
- The engine's own behaviour (for instance rejecting `start` while already started) is outside the model; its `start` and `stop` calls are only recorded.
- `onSend` is an external callback: only its calls and arguments are recorded.
