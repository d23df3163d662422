# Voice-session relay protocol, modelled in Dafny

This project models the session relay of a voice-chat system. A browser records
push-to-talk audio. A Node server relays it over WebSocket to a Gemini live chat
session, and relays the chat's replies back. The model covers three event-driven
state machines:

- **The per-connection relay** (`server/index.js`, the `connection` handler,
  module `RelayServer`). Each connection holds at most one adapter in its own
  `geminiClient` variable. The messages `start_session`, `audio_data`,
  `interrupt` and `end_session`, and the socket's `close`, create that adapter,
  forward to it, end it and let go of it.
- **The upstream session adapter** (`server/gemini-client.js`, class
  `GeminiLiveClient`, module `GeminiClient`). Its state is the fields
  `liveSession` and `ws`. Every message to the browser needs "socket present
  and `readyState === 1`". Every SDK call needs the corresponding optional SDK
  method to be present.
- **The browser's session controller** (`src/hooks/useVoiceChat.ts`, the
  `useVoiceChat` hook, module `VoiceChatHook`). Its state is four flags, an
  append-only chat history, and refs to the current socket and recorder.
  Socket, recorder and playback events drive it, and so do the user actions.

Two shared modules support them:

- `Protocol` holds the message types, one closed datatype per direction.
  `Frame` wraps them with variants for a frame of unknown `type` and for a
  frame that cannot be parsed.
- `Transport` holds the two socket ends. `ServerSocket` records every `send`.
  `BrowserSocket` follows the browser `WebSocket`: `send` throws while
  CONNECTING, transmits while OPEN, and discards while CLOSING or CLOSED.

Each component has two layers:

- **Step functions** on a value of the component's state. Each returns the new
  state and what was sent (and, on the server, which calls were made). The
  trace lemmas are proved about these functions.
- **A class** with the source's fields. Its methods are proved to perform
  exactly the step function's transition on those fields and sockets.

The relay's class `Connection` holds real `GeminiLiveClient` objects. It keeps
ghost records of the clients it constructed, the index of the one it holds,
and the calls it made.

Environment outcomes are method parameters:

- whether the adapter's constructor throws;
- how the SDK handshake ends;
- whether `sendMessage` fails;
- how media setup ends;
- the clock readings `addMessage` takes;
- the sockets' ready states.

Each handler runs as one atomic step.

The code is simpler than a full session state machine, and the model follows it:

- The relay only tracks whether it holds a client; it has no other session state.
- The relay forwards `interrupt` whenever it holds a client.
- A frame of unknown type is dropped silently, with no `error`.
- Nothing has a timeout.
- Optional SDK methods are probed before each call.
- `start_session` replaces the held client without ending it. The replaced
  adapter keeps its socket and its listeners, so replies from its SDK chat still
  reach the browser (`ResponseStep` only asks that the adapter be bound and
  listening on that chat).
- A failed handshake leaves the new adapter held, bound and without a chat.
  A later `audio_data` is then a silent no-op.

## Model

| member | source | states |
|---|---|---|
| `RelayServer.NewConnection` | server/index.js:29 | a new connection holds no client and has constructed none |
| `RelayServer.Dispatch` | server/index.js:31-66 | each frame leads to at most one call on a client or one `error`, never both, and constructs at most one client |
| `RelayServer.CloseStep` | server/index.js:68-74 | `close` ends the held client (exactly one `endSession` call) and holds none afterwards; with no client it does nothing; it never sends |
| `RelayServer.ForwardsOnlyToHeldClient` | server/index.js:41-53 | `audio_data` and `interrupt` call the held client if and only if one is held; otherwise no call and no reply; state unchanged |
| `RelayServer.EndSessionEndsOnce` | server/index.js:55-60 | `end_session` ends the held client and clears it; a second `end_session` changes nothing and does nothing |
| `RelayServer.UnknownTypeIsIgnored` | server/index.js:35-61 | a frame whose `type` matches no case changes nothing and sends nothing |
| `RelayServer.ExceptionReportedOnce` | server/index.js:62-65 | unparseable JSON, or a throwing adapter constructor, yields exactly one `error` with the exception's message; the held client is kept |
| `RelayServer.StartReplacesWithoutEnding` | server/index.js:36-39 | `start_session` holds a newly constructed client and starts it; the previous client gets no `endSession` |
| `RelayServer.ReleasedClientNeverEnded` | server/index.js:36-39 | a constructed client that the connection no longer holds gets no `endSession` from any later frame or `close`: a replaced client leaks |
| `RelayServer.ReplacedClientLeaks` | server/index.js:36-39 | after two `start_session` frames and a disconnect, the calls are exactly: start client 0, start client 1, end client 1; client 0 is never ended |
| `RelayServer.EndsAtMostOnce` | server/index.js:55-74 | over any sequence of frames and closes from a new connection, no client gets `endSession` twice |
| `RelayServer.CloseEndsHeldClientOnce` | server/index.js:68-74 | a client still held at `close` has not been ended before; counting `close`, it is ended exactly once |
| `RelayServer.ForwardsInOrder` | server/index.js:31-53 | while a client is held and no frame starts or ends a session: every call goes to that client, the state is unchanged, and the audio passed to `sendAudio` equals the `audio_data` payloads in arrival order |
| `RelayServer.Connection.constructor` | server/index.js:26-29 | a connection starts with its own socket, no client and no calls; it shares no state with other connections |
| `RelayServer.Connection.OnMessage` | server/index.js:31-66 | the held client and call log change as `Dispatch` says; the called adapter (the new one on `start_session`) changes by the adapter step of that call; the socket gets exactly the messages of the relay or that adapter; on `start_session` the replaced adapter is left entirely unchanged (its socket, chat and listeners); the record of constructed clients only grows |
| `RelayServer.Connection.OnClose` | server/index.js:68-74 | state and call log change as `CloseStep` says; the held adapter is ended (no chat, no socket); no client is constructed; nothing is sent |
| `GeminiClient.Fresh` | server/gemini-client.js:26-30 | a constructed adapter has no chat, no socket and no listener |
| `GeminiClient.StartStep` | server/gemini-client.js:32-84 | binds the socket; keeps the new chat, registering listeners only if the chat has `on`; on an open socket sends exactly one message (`session_started` on success, `'Failed to start voice session'` on failure); otherwise sends nothing; records no `sendMessage` or `interrupt` call |
| `GeminiClient.SendAudioStep` | server/gemini-client.js:86-97 | one `sendMessage` with exactly this audio if and only if there is a chat with `sendMessage`; one `'Failed to process audio'` error if and only if that call fails on a bound open socket; state unchanged |
| `GeminiClient.InterruptStep` | server/gemini-client.js:99-107 | one SDK `interrupt` if and only if there is a chat with `interrupt`; never sends (a failure is swallowed); state unchanged |
| `GeminiClient.EndStep` | server/gemini-client.js:109-119 | no chat and no socket afterwards; no message and no SDK call; cannot fail |
| `GeminiClient.ResponseStep` | server/gemini-client.js:56-64 | at most one `audio_response`, with the response's audio and its text or `''`, sent if and only if that chat has the listener and the socket is bound and open |
| `GeminiClient.ErrorEventStep` | server/gemini-client.js:66-71 | at most one `error` carrying the event's message, under the same guard |
| `GeminiClient.FreshIsInert` | server/gemini-client.js:86-107 | on a fresh adapter, `sendAudio`, `interrupt`, `endSession` and upstream events make no SDK call, send nothing and change nothing |
| `GeminiClient.EndIsIdempotent` | server/gemini-client.js:109-119 | a second `endSession` changes nothing and does nothing |
| `GeminiClient.EndedIsSilent` | server/gemini-client.js:56-119 | after `endSession` and until a new `startSession`, no event sends a message or calls the SDK, whatever the socket state |
| `GeminiClient.ClosedSocketGetsNothing` | server/gemini-client.js:56-94 | if no event finds the socket open, the adapter sends nothing |
| `GeminiClient.SendsNeedOpenBoundSocket` | server/gemini-client.js:56-94 | a handler sends only when its event found the socket open and the adapter bound to a socket |
| `GeminiClient.GeminiLiveClient.constructor` | server/gemini-client.js:26-30 | fields as in `Fresh`, no SDK call recorded |
| `GeminiClient.GeminiLiveClient.StartSession` | server/gemini-client.js:32-84 | fields, socket output and SDK calls change exactly as `StartStep` says, with the socket's ready state at the time |
| `GeminiClient.GeminiLiveClient.SendAudio` | server/gemini-client.js:86-97 | as `SendAudioStep`, with the guard `ws && ws.readyState === 1` evaluated on the held socket |
| `GeminiClient.GeminiLiveClient.Interrupt` | server/gemini-client.js:99-107 | as `InterruptStep` |
| `GeminiClient.GeminiLiveClient.EndSession` | server/gemini-client.js:109-119 | as `EndStep`: `liveSession` and `ws` cleared, no SDK call |
| `GeminiClient.GeminiLiveClient.OnResponse` | server/gemini-client.js:56-64 | as `ResponseStep` for the chat that emitted the response |
| `GeminiClient.GeminiLiveClient.OnUpstreamError` | server/gemini-client.js:66-71 | as `ErrorEventStep` for the chat that emitted the error |
| `Protocol.TextOrEmpty` | server/gemini-client.js:61 | a missing text becomes `''`; a present one is kept |
| `VoiceChatHook.Initial` | src/hooks/useVoiceChat.ts:11-15 | all four flags false, empty history |
| `VoiceChatHook.AddMessage` | src/hooks/useVoiceChat.ts:188-197 | exactly one entry appended at the end, with the given role, content, id and timestamp; earlier entries unchanged |
| `VoiceChatHook.OpenStep` | src/hooks/useVoiceChat.ts:28-33 | connected and session active, other state unchanged, exactly one `start_session` sent |
| `VoiceChatHook.MessageStep` | src/hooks/useVoiceChat.ts:35-59 | only `audio_response` changes state: it sets `isSpeaking` and appends exactly one assistant entry (its text, with the given id and timestamp) if and only if its text is non-empty, keeping every earlier entry; `session_started`, `error`, unknown and unparseable frames change nothing; nothing is sent |
| `VoiceChatHook.CloseStep` | src/hooks/useVoiceChat.ts:61-66 | all four flags false, history kept, nothing sent |
| `VoiceChatHook.DisconnectStep` | src/hooks/useVoiceChat.ts:77-95 | `end_session` transmitted if and only if the current socket is open; all four flags false, unless the socket is still connecting (then `send` throws and nothing changes) |
| `VoiceChatHook.StartRecordingStep` | src/hooks/useVoiceChat.ts:97-148 | recording begins if and only if connected and the recorder started; nothing else changes; nothing sent |
| `VoiceChatHook.RecorderStopStep` | src/hooks/useVoiceChat.ts:126-140 | one `audio_data` holding the concatenated chunks, sent if and only if the current socket is open; recording always ends; nothing else changes |
| `VoiceChatHook.InterruptStep` | src/hooks/useVoiceChat.ts:156-161 | with a socket and while speaking: `interrupt` transmitted if the socket is open, and speaking stops unless `send` throws; otherwise nothing changes |
| `VoiceChatHook.PlaybackStep` | src/hooks/useVoiceChat.ts:176-185 | playback end or decode failure stops speaking; nothing else changes |
| `VoiceChatHook.FlagsAlwaysAgree` | src/hooks/useVoiceChat.ts:28-161 | under every sequence of events, `isSessionActive == isConnected` and `isRecording` implies `isConnected` stay true |
| `VoiceChatHook.HistoryIsAppendOnly` | src/hooks/useVoiceChat.ts:43-53 | the history after any events is the old history followed by one assistant entry per `audio_response` with non-empty text, in arrival order |
| `VoiceChatHook.NonEmpty` | src/hooks/useVoiceChat.ts:120-124 | the kept chunks are all non-empty |
| `VoiceChatHook.Flatten` | src/hooks/useVoiceChat.ts:127-129 | the recording is as long as all chunks together |
| `VoiceChatHook.NonEmptyExtends` | src/hooks/useVoiceChat.ts:120-124 | one more delivered chunk is kept at the end if and only if it is non-empty; the earlier kept chunks are unchanged |
| `VoiceChatHook.SkippingEmptyChunksKeepsAudio` | src/hooks/useVoiceChat.ts:120-129 | skipping empty chunks loses no audio: the concatenation of the kept chunks equals that of all delivered chunks |
| `VoiceChatHook.Recorder.OnDataAvailable` | src/hooks/useVoiceChat.ts:120-124 | the chunk is added to everything delivered; a non-empty chunk is appended to this recorder's chunks, an empty one skipped; the kept chunks stay exactly the non-empty delivered ones |
| `VoiceChatHook.VoiceChat.constructor` | src/hooks/useVoiceChat.ts:11-18 | state as `Initial`, no socket, no recorder |
| `VoiceChatHook.VoiceChat.Connect` | src/hooks/useVoiceChat.ts:22-26 | a new connecting socket becomes the current one; no flag changes |
| `VoiceChatHook.VoiceChat.OnOpen` | src/hooks/useVoiceChat.ts:28-33 | as `OpenStep`; `start_session` goes out on the socket that opened |
| `VoiceChatHook.VoiceChat.OnMessage` | src/hooks/useVoiceChat.ts:35-59 | as `MessageStep` |
| `VoiceChatHook.VoiceChat.OnClose` | src/hooks/useVoiceChat.ts:61-66 | as `CloseStep` |
| `VoiceChatHook.VoiceChat.Disconnect` | src/hooks/useVoiceChat.ts:77-95 | as `DisconnectStep` on the current socket; it sends before it closes (OPEN becomes CLOSING); the recorder is stopped if recording; a connecting socket leaves everything unchanged |
| `VoiceChatHook.VoiceChat.StartRecording` | src/hooks/useVoiceChat.ts:97-148 | as `StartRecordingStep`; once media setup gets that far, a new recorder with no chunks becomes current, recording only if it started |
| `VoiceChatHook.VoiceChat.OnRecorderStop` | src/hooks/useVoiceChat.ts:126-140 | as `RecorderStopStep`, with that recorder's chunks and the current socket; on an open socket the one `audio_data` sent holds the concatenation of every chunk the recorder delivered, so skipping empty chunks loses no audio |
| `VoiceChatHook.VoiceChat.StopRecording` | src/hooks/useVoiceChat.ts:150-154 | stops the current recorder only while recording; keeps its chunks |
| `VoiceChatHook.VoiceChat.Interrupt` | src/hooks/useVoiceChat.ts:156-161 | as `InterruptStep` on the current socket |
| `VoiceChatHook.VoiceChat.OnPlaybackEnded` | src/hooks/useVoiceChat.ts:176-185 | as `PlaybackStep` |

## Left out

- The UI components (`VoiceChat.tsx`, `ChatHistory.tsx`, `Header.tsx`, `Footer.tsx`, `App.tsx`) only render. Their toggle handlers re-check guards the hook already has.
- `AudioVisualizer.tsx` is canvas animation with floating-point radii.
- The server bootstrap (Express, CORS, HTTP listen, `/health`) is I/O plumbing.
- The Google Generative AI SDK is foreign. A chat is a record of which optional methods it has. Success or failure of `getGenerativeModel`/`startChat`, `sendMessage` and `interrupt` is a parameter. The system instructions, model name and voice configuration are constants that the protocol never inspects.
- A throwing `on` registration and a throwing `ws.send` inside the adapter are not modelled. Neither happens on an open socket with a working SDK.
- The relay's own `ws.send` in its `catch` is recorded as sent whatever the socket's state. What the `ws` library does with a send on a socket that is not open is not modelled.
- The relay does not check the payload of an `audio_data` frame. The model carries it as a byte sequence. A frame without `audioData`, which passes `undefined` on to `sendAudio`, is not distinguished.
- Browser media APIs are foreign: `getUserMedia`, `MediaRecorder`, `AudioContext.decodeAudioData` and `Blob`. Media setup is a three-way outcome parameter. Recorded chunks are byte sequences. Playback is modelled only through its two ending callbacks.
- Stopping the media stream's tracks in `disconnect`, and the `streamRef` itself, are not modelled. They do not affect the protocol.
- The `id` and `timestamp` that `addMessage` reads from the clock are inputs.
- Logging (`console.*`) and the `onerror` handler, which only logs, are not modelled.
- The `catch` of `connect` is not modelled. It would catch a `WebSocket` constructor throwing on its constant URL.
- The `async` handlers are not interleaved: each handler is one atomic step, and the failure of an SDK call is reported in the same step as the call. In the source, `startRecording` awaits `getUserMedia` (`src/hooks/useVoiceChat.ts:101`) between its `isConnected` test and `setIsRecording(true)`. `sendAudio` and `interrupt` await the SDK (`server/gemini-client.js:89`, `:102`), so other frames can be handled before a failure is reported. The relay's `await geminiClient.endSession()` (`server/index.js:57`) awaits a function that itself awaits nothing, so no `close` can run before `geminiClient = null`. A second `message` event delivered in the same tick would still find `geminiClient` set: two `end_session` frames handled that way call `endSession` twice on one client. That call is idempotent (`EndIsIdempotent`), but `EndsAtMostOnce` counts calls and assumes it does not happen. An `end_session` followed in the same tick by a `start_session` is not harmless: the first handler resumes and sets `geminiClient = null` (`server/index.js:58`) over the new client. That client is then never ended, its listeners stay bound to the socket, and every later `audio_data` is dropped. Whether the socket library can deliver two frames like that is not part of this model.
- VoiceChatHook.FlagsAlwaysAgree: its `isRecording ==> isConnected` half relies on `startRecording` being atomic across the `getUserMedia` await. If `ws.onclose` (`src/hooks/useVoiceChat.ts:61-66`) runs during that await, the source ends with `isRecording` true and `isConnected` false.
- React semantics are not modelled: stale closures, `useCallback` dependencies and the unmount effect (`useVoiceChat.ts:200-204`). That effect runs its cleanup, and so the old `disconnect`, whenever `disconnect`'s identity changes with `isRecording`. This would send `end_session` and close the socket when recording starts or stops.
- The server has no timeouts and no speaking, listening or closed states.
