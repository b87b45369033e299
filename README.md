# Live-camera session controller and companions, in Dafny

This project models the behavioural core of a personal web site in Dafny and proves
properties of the model. It has six parts.

* **The live-camera WebRTC controller** (`useWebRTC`). The browser fetches TURN/STUN
  credentials from the relay and opens a peer connection with a receive-only video
  transceiver. It waits for ICE gathering to complete. It appends the gathered candidates
  to its local copy of the offer SDP as `a=` lines (section 5.1 of RFC 8839), with CRLF line
  endings (section 5 of RFC 8866). It then posts the connection's `localDescription`, not
  that extended copy. Finally it applies the relay's answer and attaches the arriving
  stream to the video element. `Stop` closes the connection and tells the relay.
  `WebRtcSession.Controller` is a class with one method per event: `Start`,
  `CredentialsReceived`, `OfferCreated`, `CandidateEvent`, `GatheringStateChanged`,
  `HandleAnswer`, `TrackArrived`, `Reject`, `Stop`. Each call of `startWebRTC` is a *start
  sequence*, the suspended rest of that call together with its own candidate list. Events
  name the sequence they resume. `WebRtcStatus` holds the progress enum and its message
  table. `SdpCandidates` holds the candidate-line fold. `WebRtcScenarios` drives a freshly
  mounted controller through whole runs.
* **The AI chat transcript** (`ChatTranscript`). It covers the bot-response rule, submitting
  the input and the Enter key.
* **The per-user agent cache of the chat server** (`AgentSessions`). It covers get-or-create
  over `active_sessions`, the run configuration and the reply envelope.
* **The device-telemetry summary** (`DeviceInfo`). Two service responses become one summary,
  with a fixed fallback.
* **The theme hook** (`Theme`). It covers initial resolution, toggling, the root class list
  and persistence.
* **The markdown renderer overrides** (`MarkedHtml`). These build the HTML for images and
  code blocks. Two lemmas read the emitted HTML back with a small parser.

Network results, browser callbacks, the highlighter and the LLM agent's answer are
parameters of the methods and functions that use them.

What the live-video code does, and what the model therefore states:

* Stopping does not cancel a start sequence that is still in flight. Credentials that arrive
  after a stop move the status back to `Gathering` and install a new connection
  (`StopWhileFetchingCredentials`).
* There is no gathering timeout.
* There is no session-identity check on late answers. The only protection is the null check
  on the held connection (`AnswerAfterStop`).
* A second start neither tears down nor closes the first connection (`StartTwice`).
* Every stop sends its own stop request, so stop is not a no-op when repeated
  (`StopTwice`).
* A rejected await leaves the status where it was, because rejections are unhandled
  (`Reject`). There is no separate failure message.
* The credentials response is used without checking `response.ok`. An error body from the
  relay makes the connection constructor throw just after the status became `Gathering`.
  The hook then stays loading in `Gathering` with no new connection
  (`CredentialsErrorLeavesGathering`).
* `Streaming` is entered on track arrival alone. It does not wait for the answer.
* The flags are kept in the state record next to the status. They are not derived from the
  status.
* The candidate suffix goes onto the local `offer` value. The request body is the
  connection's `localDescription`. The model keeps these as two values: `AwaitingAnswer`
  holds both `folded` and `submitted`.

## Model

| member | source | states |
|---|---|---|
| `WebRtcStatus.StatusMessageInjective` | src/app/camera-rpi-live/useWebRTC.ts:25-34 | the status table gives every progress value its own message, so no two values share one |
| `WebRtcSession.Controller.LoadingMessage` | src/app/camera-rpi-live/useWebRTC.ts:234 | `loadingMessage` is the table entry of the current status, and no other status shows that message |
| `WebRtcSession.Controller.constructor` | src/app/camera-rpi-live/useWebRTC.ts:37-42 | the hook mounts as `NotStarted` with both flags false, no connection, no request sent and no start sequence |
| `WebRtcSession.Controller.Start` | src/app/camera-rpi-live/useWebRTC.ts:76-91 | sets `LoadingTurnAndStun` with `isLoading` true and `isStreaming` false, then sends the credentials request and opens a new start sequence; the held connection is left as it is, with no guard |
| `WebRtcSession.Controller.CredentialsReceived` | src/app/camera-rpi-live/useWebRTC.ts:91-150 | status becomes `Gathering` with the flags unchanged; a server list gives a fresh open connection configured with exactly those servers and one receive-only video transceiver, which replaces `pcRef`, and the previously held connection is not closed; any other body (the relay's error object) ends the sequence with no connection created and `pcRef` unchanged |
| `WebRtcSession.Controller.OfferCreated` | src/app/camera-rpi-live/useWebRTC.ts:155-157 | the created offer becomes the connection's local description; the sequence waits for gathering with an empty candidate list |
| `WebRtcSession.Controller.CandidateEvent` | src/app/camera-rpi-live/useWebRTC.ts:117-122 | an event without a candidate changes nothing; a candidate is appended at the end of that sequence's list and nothing is removed |
| `WebRtcScenarios.PresentKeepsEveryCandidate` | src/app/camera-rpi-live/useWebRTC.ts:117-122 | over a series of candidate events, the list holds exactly the candidates the events carried, and as many as the events when all carry one |
| `WebRtcSession.Controller.GatheringStateChanged` | src/app/camera-rpi-live/useWebRTC.ts:106-115 | only `complete` resumes the sequence; then the local offer gets the candidate suffix, the status becomes `OfferSent` and exactly one offer request is sent, whose body is the connection's local description and not the folded offer; other states change nothing |
| `SdpCandidates.CandidateSuffixShape` | src/app/camera-rpi-live/useWebRTC.ts:177 | the suffix is one `a=<candidate>` line per candidate, in order, each CRLF-terminated; with no candidate it is a single CRLF |
| `SdpCandidates.JoinThenTerminate` | src/app/camera-rpi-live/useWebRTC.ts:177 | joining non-empty lines with CRLF and adding a CRLF equals terminating each line with CRLF |
| `SdpCandidates.SuffixLines` | src/app/camera-rpi-live/useWebRTC.ts:177 | splitting the suffix at CRLFs gives back exactly the `a=` lines in candidate order (one blank line when none was gathered), given candidates without carriage returns |
| `WebRtcSession.Controller.HandleAnswer` | src/app/camera-rpi-live/useWebRTC.ts:63-74 | the answer `{type: answer, sdp: webrtc_answer}` becomes the remote description of the held connection only if one is held; the status becomes `AnswerReceived` in every case, with the flags unchanged |
| `WebRtcSession.Controller.TrackArrived` | src/app/camera-rpi-live/useWebRTC.ts:124-147 | for an open connection the hook created, once a remote description is applied: sets `Streaming` with `isLoading` false and `isStreaming` true; attaches the first stream and mutes only when a sink exists and its source differs (a stream-less event always resets it); otherwise the sink is untouched |
| `WebRtcSession.Controller.Reject` | src/app/camera-rpi-live/useWebRTC.ts:84-91 | a rejected await ends its start sequence and changes nothing else, so the status and flags stay as they were |
| `WebRtcSession.Controller.Stop` | src/app/camera-rpi-live/useWebRTC.ts:185-208 | closes and drops the held connection if any, clears the sink and sends one stop request per call; a completed stop ends in `Stopped` with both flags false; start sequences in flight are kept; the held connection is never a closed one |
| `WebRtcScenarios.SuccessfulSession` | src/app/camera-rpi-live/useWebRTC.ts:76-183 | a full run shows `NotStarted`, `LoadingTurnAndStun`, `Gathering`, `OfferSent`, `AnswerReceived`, `Streaming` in that order; the relay gets the credentials request, then one offer; the present candidates are folded in order into the local offer; the answer is applied and the stream attached |
| `WebRtcScenarios.CredentialsErrorLeavesGathering` | src/app/camera-rpi-live/useWebRTC.ts:85-98 | an error body from the relay leaves the hook loading in `Gathering`, not streaming, with no connection and only the credentials request sent |
| `WebRtcScenarios.StopWhileFetchingCredentials` | src/app/camera-rpi-live/useWebRTC.ts:84-102 | a stop during the credentials fetch shows `Stopped`, yet the late credentials bring back `Gathering` and a new open held connection |
| `WebRtcScenarios.AnswerAfterStop` | src/app/camera-rpi-live/useWebRTC.ts:69-73 | an answer arriving after a stop sets `AnswerReceived` with both flags false but is applied to no connection |
| `WebRtcScenarios.StartTwice` | src/app/camera-rpi-live/useWebRTC.ts:98-102 | with two starts, the first connection is replaced in `pcRef` and stays open even after a stop, which closes only the second |
| `WebRtcScenarios.StopTwice` | src/app/camera-rpi-live/useWebRTC.ts:185-208 | stopping twice from any state gives the same `Stopped` state both times, with no connection and a cleared sink, and sends two stop requests |
| `ChatTranscript.TrimEmptyIffBlank` | frontend/src/app/ai-chat/page.tsx:42 | `input.trim()` is empty exactly when the input is empty or holds only ECMAScript white space and line terminators |
| `ChatTranscript.WithResponse` | frontend/src/app/ai-chat/page.tsx:19-33 | an empty response changes nothing; otherwise the last message becomes the bot's with the response text; after a bot message the length is unchanged and the earlier messages are kept; otherwise exactly one bot message is appended |
| `ChatTranscript.StreamedReplyIsOneMessage` | frontend/src/app/ai-chat/page.tsx:21-30 | any run of non-empty responses adds at most one bot message, and it carries the latest response |
| `ChatTranscript.ChatPage.constructor` | frontend/src/app/ai-chat/page.tsx:12-13 | the page starts with no messages and an empty input |
| `ChatTranscript.ChatPage.HandleChange` | frontend/src/app/ai-chat/page.tsx:36-38 | the input becomes the field's value and nothing else changes |
| `ChatTranscript.ChatPage.ReceiveResponse` | frontend/src/app/ai-chat/page.tsx:19-33 | the transcript becomes `WithResponse` of the old one; input and socket untouched |
| `ChatTranscript.ChatPage.HandleSubmit` | frontend/src/app/ai-chat/page.tsx:41-51 | blank input changes nothing; otherwise exactly one `{User, input}` with the untrimmed input is appended and the input is cleared, and the input goes on the socket only when it is open |
| `ChatTranscript.ChatPage.HandleKeyDown` | frontend/src/app/ai-chat/page.tsx:65-70 | Enter without Shift prevents the default and submits; Shift+Enter and every other key change nothing |
| `AgentSessions.GetOrCreate` | server/src/ai_personal_lawyer/invoke_agent.py:18-22 | a cached uuid gets its stored agent and nothing changes; an absent one gets exactly one new agent stored under it; afterwards the key is present and every other entry is unchanged |
| `AgentSessions.GetOrCreateKeepsCache` | server/src/ai_personal_lawyer/invoke_agent.py:18-22 | get-or-create keeps every cached agent created before and never gives two users the same agent |
| `AgentSessions.GetOrCreateIdempotent` | server/src/ai_personal_lawyer/invoke_agent.py:18-22 | a second get-or-create for the same uuid returns the same agent and changes nothing |
| `AgentSessions.ThreadId` | server/src/ai_personal_lawyer/invoke_agent.py:25 | the thread id is `str(user_uuid)`: the uuid itself, or the text `None`, which a missing uuid and the uuid `"None"` share |
| `AgentSessions.Reply` | server/src/ai_personal_lawyer/invoke_agent.py:28 | the reply is a JSON object with the single key `on_chat_model_stream`, mapped to the answer |
| `AgentSessions.AgentRegistry.constructor` | server/src/ai_personal_lawyer/invoke_agent.py:12 | the cache starts empty and no agent has been created |
| `AgentSessions.AgentRegistry.InvokeAgent` | server/src/ai_personal_lawyer/invoke_agent.py:15-29 | the cache and the count change as `GetOrCreate` says, keeping the cache invariant; the agent is invoked with the message, `"English"` and the uuid's thread id; the reply is the envelope around the answer |
| `AgentSessions.SameUserTwice` | server/src/ai_personal_lawyer/invoke_agent.py:18-22 | two messages from one user on a fresh server create one agent and use it twice on the same thread |
| `DeviceInfo.GetDeviceInfo` | src/app/api/get-device-info/get-device-info.ts:18-85 | a rejected fetch, a response that is not ok, or an unreadable body gives the fixed fallback; the status is `Connected` exactly when both responses are readable and `device_id` is truthy (so the fallback never is); cpu, uptime, temperature, charging status and level are copied from their source fields |
| `Theme.InitialTheme` | frontend/src/hooks/useTheme.ts:9-15 | a non-empty stored value is used as it is, without validation; otherwise `dark` exactly when the system prefers dark, else `light`; never empty |
| `Theme.Toggle` | frontend/src/hooks/useTheme.ts:28 | the result is `light` or `dark`, and `dark` exactly when the theme was `light` |
| `Theme.ToggleTwice` | frontend/src/hooks/useTheme.ts:28 | toggling twice restores `light` and `dark`; any other stored value ends as `dark` |
| `Theme.ThemeClassIsToken` | frontend/src/hooks/useTheme.ts:21 | `classList.add` accepts the theme's class exactly when the theme holds no ASCII white space; `light` and `dark` are always accepted |
| `Theme.AppliedClassesShape` | frontend/src/hooks/useTheme.ts:20-21 | after the effect the root has the light class exactly for `light` and the dark class exactly for `dark`; it has the theme's own class exactly when the add succeeded or the class was already there; every other class is kept; a duplicate-free list of tokens stays one |
| `Theme.ThemeHook.constructor` | frontend/src/hooks/useTheme.ts:9-15 | the hook starts with the theme resolved from the stored `theme` key and the system preference, on a root whose classes form a token list |
| `Theme.ThemeHook.ToggleTheme` | frontend/src/hooks/useTheme.ts:27-29 | the theme becomes its toggle; classes and storage are untouched until the effect runs |
| `Theme.ThemeHook.ApplyTheme` | frontend/src/hooks/useTheme.ts:17-25 | it completes exactly when the theme holds no ASCII white space; the root classes become `AppliedClasses` of the old ones and stay a token list; the theme is stored under `theme` only when the effect completed, with no other key changed |
| `Theme.PersistedThemeIsRestored` | frontend/src/hooks/useTheme.ts:24 | a theme the effect persisted is the theme the next mount resolves, whatever the system preference |
| `MarkedHtml.ImageHtmlReadsBack` | frontend/src/app/get-post-by-id/get-marked-html.ts:20-29 | the output is the `image-wrapper` div around one `img` whose `src` is `/images?file=` followed by the unchanged href and whose `alt` is the link text; it has a `title` exactly when the title is truthy |
| `MarkedHtml.CodeHtmlReadsBack` | frontend/src/app/get-post-by-id/get-marked-html.ts:10-17 | the code block's class is `hljs ` plus the block's own language, even after a fallback, or `hljs undefined` for a block without one; its body is the highlighter's output for the language when it is known and for `plaintext` otherwise, including a missing language |

## Left out

- Browser internals. `RTCPeerConnection` is reduced to its configuration, transceivers,
  local and remote description and a closed flag. The offer text from `createOffer` is a
  parameter.
- The browser also inserts gathered candidates into `localDescription` itself. This is not
  modelled: the local description stays the offer as it was set.
- Scheduling inside an event. Each event method runs one stretch of code between two awaits
  as a single step. Four stretches contain awaits that are folded away:
  - the token fetch before the credentials request, inside `Start`;
  - the token fetch between `OfferSent` and the offer request;
  - the token fetch and the stop request inside `Stop`;
  - the gap between creating the offer and setting it as the local description.
- `getToken` always yields a token. Its own failure is not modelled separately.
- A connection's events need that connection to be open. `TrackArrived` also needs the
  connection to be one the hook created and to have a remote description. No event needs the
  connection to be the one currently held.
- These effects are not modelled: `video.play()`, console logging, `JSON.stringify` of the
  request body, and failures of `setRemoteDescription`.
- The unmount cleanup and the `beforeunload` listener are not modelled separately. Both call
  the same stop path that `Stop` models.
- WebRtcSession.Controller.HandleAnswer: states that the answer is applied, but does not
  model the browser rejecting an ill-formed or missing `webrtc_answer`.
- The `useWebSocket` hook (frontend/src/hooks/useWebSocket) is not part of this model. A
  response is a string, and the empty string is the falsy case.
- React re-runs the response effect only when `response` changes. `ReceiveResponse` models
  one run. The same response arriving twice is not filtered.
- The page mutates `lastMessage.msg` in place. The model replaces that element by value, so
  aliasing with the previous state is not represented.
- Scrolling, rendering and message keys are left out.
- `agent.invoke`, the LLM call, is outside the model. Its answer is a parameter. Logging and
  the websocket send are left out.
- AgentSessions.ThreadId: a uuid is either a string or missing. Other JSON values are not
  modelled. A number would share a thread with its decimal text while being cached
  separately. Python's dict treats `True` and `1` as one key. A list or object raises
  `TypeError` at the cache lookup.
- The reply is the JSON value. The exact text `json.dumps` produces is not modelled.
- The websocket receive loop in main.py is not part of this model.
- The fetch URLs, headers and environment variable of `getDeviceInfo` are left out. The
  response bodies' field types are taken as declared.
- Server-side rendering and a missing `window` or `localStorage` are left out.
- `ApplyTheme` models one run of the effect. Its failure path covers only ASCII white space
  in the theme, the one way the class can fail to be a token. React runs it after each render whose theme
  changed.
- `marked.parse`, `marked.setOptions` and highlight.js itself are foreign libraries. The
  highlighter is a pair of function parameters.
- MarkedHtml.ImageHtmlReadsBack: the read-back is stated only for values without a double
  quote. The renderer does no escaping of its own.
- MarkedHtml.CodeHtmlReadsBack: the read-back is stated only for languages without a double
  quote. The renderer does no escaping of its own.
