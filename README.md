# Interview assistant client: session dispatcher and capture controls

This project models the two pieces of event-driven logic in the browser
client of the interview assistant (a React app), and proves properties of
them in Dafny.

- **The session dispatcher**. This is the `App` component, modelled in
  `session.dfy` as module `Session`, class `App`. It sorts each message from
  the server socket by its `type`. A `transcription` becomes a user turn. An
  `assistant_response` becomes an assistant turn. Any other type is dropped.
  The component also records the setup fields and sends the `setup` frame,
  but only over an OPEN socket. It keeps the recording flag, and it hands
  audio blobs to `socket.send` without checking whether the socket is ready.
  The transcript only ever grows at its end.
- **The capture controls**. This is the `AudioControls` component, modelled
  in `audio_controls.dfy` as module `AudioCapture`, class `AudioControls`.
  It decides whether a start may go ahead:
  - With the tab source and no tab chosen, it only shows an alert.
  - When the tab lookup fails, or tab capture yields no stream, it stops
    there.
  - When the microphone is refused, it shows an alert.
  - When recording does start, it notifies its caller exactly once, right
    after the recorder starts.

  It passes on only recorded chunks with `size > 0`, unchanged and in
  order. Its stop path always stops the current stream's tracks, if there
  is a stream, and always notifies the caller.

Both components are objects whose handlers update state in place. Each one
is a Dafny class with those fields. A `Snapshot()` function returns the
whole state as a datatype. Each handler's `ensures` gives its whole new
state in terms of the old one, as `Snapshot() == old(Snapshot()).(...)`.
Pure functions say what a handler adds: `Transcript` (the turns added by
some messages), `SetupFrames`, `AudioFrames`, `StartTrace`, `StopTrace` and
`Forward` (the chunks that pass the size filter). The lemmas are about
these functions.

The capture controls record what they do to the outside world in one
append-only log, `trace`. The log holds platform requests, recorder starts,
callback invocations, alerts and window posts. Shared helpers live in
`logs.dfy` (counting entries in a log) and `media.dfy` (blobs, tracks,
streams).

The platform's answers are inputs to the handlers. These are: whether
`chrome.tabs.get` yields a tab (`tabFound`), what tab capture or
`getUserMedia` returns (`grant`), and whether `new MediaRecorder(...)` and
`start` succeed (`recorderOk`). The browser changing the socket's
`readyState` is the environment step `App.ReadyStateChanged`. Inbound socket
frames are given already parsed, as `(type, content)` pairs.

Three behaviours of the code are worth stating outright:
- `onStopRecording` is called on every stop, not at most once. The stop
  handler (`src/components/AudioControls.js:104-111`) never clears `stream`.
  So repeated stops each notify, and each stops the same tracks again
  (`RepeatedStops`).
- Empty chunks are dropped in the recorder's `ondataavailable`
  (`src/components/AudioControls.js:62`), not at the socket.
  `App.handleAudioData` sends whatever it is given, and its readiness check
  is commented out.
- The client has no reconnection, no voice-activity gating, no
  loading/typing flags and no screen-share capture. It captures a browser
  tab through the `chrome.tabCapture` API.

## Model

| member | source | states |
|---|---|---|
| `Session.Transcript` | src/App.js:35-48 | the turns added by a run of messages: at most one per message; its meaning is proved by `TranscriptSingle`, `TranscriptConcat`, `TranscriptSenderCount`, `TranscriptLength` and `UnknownOnly`, and `OnMessage` is stated through it |
| `Session.Classify` | src/App.js:39-47 | a message yields a turn exactly when its type is `transcription` or `assistant_response`; the turn keeps the content, and it is the user's exactly for a transcription |
| `Session.TranscriptSingle` | src/App.js:39-47 | one transcription adds exactly `[{user, content}]`, one assistant response exactly `[{assistant, content}]`, and any other type adds nothing |
| `Session.TranscriptConcat` | src/App.js:82-85 | messages processed one batch after another give the first batch's turns followed by the second's: turns are appended in arrival order |
| `Session.TranscriptSenderCount` | src/App.js:39-44 | the number of user turns equals the number of transcriptions received, and the number of assistant turns equals the number of assistant responses |
| `Session.TranscriptLength` | src/App.js:35-48 | the transcript has one turn per transcription or assistant response received, and no other |
| `Session.UnknownOnly` | src/App.js:45-47 | messages of unknown types add nothing to the transcript |
| `Session.SetupFrames` | src/App.js:68-79 | the setup frame `{type: "setup", jobDescription, intervieweeBackground}` is sent if and only if the socket exists and is OPEN; otherwise nothing is sent |
| `Session.AudioFrames` | src/App.js:97-107 | the blob is passed unchanged to `socket.send` whenever a socket exists, whatever its readyState; with no socket nothing is passed to it |
| `Session.App.constructor` | src/App.js:20-25 | the initial state: setup not complete, empty fields, empty transcript, not recording, null socket reference, nothing sent |
| `Session.App.ReadyStateChanged` | src/App.js:31-33 | the browser moves an existing socket only to a later readyState (CONNECTING to OPEN, CLOSING or CLOSED; OPEN to CLOSING or CLOSED; CLOSING to CLOSED), and nothing else changes |
| `Session.App.Connect` | src/App.js:29 | the mount effect stores a new socket in CONNECTING state and changes nothing else |
| `Session.App.AddMessage` | src/App.js:82-85 | the transcript grows by exactly the given turn at its end, the old transcript is a proper prefix of the new one, and nothing else changes |
| `Session.App.OnMessage` | src/App.js:35-48 | a transcription appends one user turn, an assistant response one assistant turn, and any other type leaves the whole state unchanged |
| `Session.App.HandleSetupComplete` | src/App.js:62-80 | the job description and background are stored and setup is marked complete whatever the socket's state; the setup frame is appended to the sent frames only over an OPEN socket |
| `Session.App.HandleStartRecording` | src/App.js:87-90 | the recording flag becomes true and nothing else changes |
| `Session.App.HandleStopRecording` | src/App.js:92-95 | the recording flag becomes false and nothing else changes |
| `Session.App.HandleAudioData` | src/App.js:97-107 | the blob is appended unchanged to the sent frames with no readiness check; with a null socket the call fails (a TypeError) and nothing is sent |
| `Session.ExampleSession` | src/App.js:62-85 | connect, open, setup, then a transcription, an unknown message and an assistant response give exactly the user and assistant turns and one setup frame |
| `AudioCapture.RecordTrace` | src/components/AudioControls.js:56-74 | a recorder that starts is followed by exactly one "started" notification; if the recorder cannot be created or started, nothing happens |
| `AudioCapture.StartTrace` | src/components/AudioControls.js:56-131 | the actions of one press of "Start Recording" for the given platform answers; its contract is carried by `StartTraceGuards` and `StartTraceNotifiesOnce`, and `HandleStartRecording` and `PressButton` are stated through it |
| `AudioCapture.StartTraceGuards` | src/components/AudioControls.js:76-131 | a start that does not get a recorder running neither starts one nor notifies; with the tab source and no tab chosen, only the alert and no capture request; a null tab stream gives the lookup and capture requests and nothing more; a refused microphone gives the request and the alert; a start never stops or delivers audio |
| `AudioCapture.StartTraceNotifiesOnce` | src/components/AudioControls.js:56-131 | a start notifies "started" exactly once when a stream is acquired and the recorder starts, and then as its last action, right after the recorder on that stream started; otherwise never; it never notifies "stopped" |
| `AudioCapture.Forward` | src/components/AudioControls.js:60-65 | only chunks with size > 0 pass, and nothing is added that was not recorded |
| `AudioCapture.ForwardConcat` | src/components/AudioControls.js:60-65 | chunks filtered one run after another keep their order |
| `AudioCapture.ForwardKeepsNonEmpty` | src/components/AudioControls.js:62-64 | a run of non-empty chunks passes entirely, unchanged and in order |
| `AudioCapture.ForwardCount` | src/components/AudioControls.js:62-64 | each non-empty chunk passes as often as it was recorded; an empty chunk never passes |
| `AudioCapture.DeliveriesConcat` | src/components/AudioControls.js:60-65 | delivering chunk by chunk gives the same `onAudioData` calls as filtering the whole run |
| `AudioCapture.StopTrace` | src/components/AudioControls.js:109-110 | the actions of one call of the stop handler: the stop request is posted to the window, then "stopped" is notified; `RepeatedStops` counts them |
| `AudioCapture.RepeatedStops` | src/components/AudioControls.js:104-111 | n calls of the stop handler add exactly n "stopped" notifications, repeated calls included |
| `AudioCapture.StopTracks` | src/components/AudioControls.js:107 | after the loop, every track of the stream has ended |
| `AudioCapture.AudioControls.constructor` | src/components/AudioControls.js:20-23 | the initial state: no tabs, no tab chosen, the microphone source, no stream, nothing done |
| `AudioCapture.AudioControls.StartRecording` | src/components/AudioControls.js:56-74 | the recorder starts and "started" is notified once, or the call fails with nothing done; the stream and selections are untouched |
| `AudioCapture.AudioControls.OnDataAvailable` | src/components/AudioControls.js:60-65 | a non-empty chunk is passed to `onAudioData` unchanged; an empty chunk changes nothing |
| `AudioCapture.AudioControls.HandleStartRecording` | src/components/AudioControls.js:76-102 | the actions taken are exactly `StartTrace` of the current source and tab and the platform's answers; the stream is replaced exactly when one was acquired; the source and tab are unchanged |
| `AudioCapture.AudioControls.StartCapture` | src/components/AudioControls.js:113-131 | a null capture stream stops after the capture request, with no recorder and no notification; a granted stream is stored and recorded |
| `AudioCapture.AudioControls.HandleStopRecording` | src/components/AudioControls.js:104-111 | on every call, it posts the stop request and notifies "stopped"; every track of the current stream, if any, has ended; the stream reference and selections are unchanged |
| `AudioCapture.AudioControls.PressButton` | src/components/AudioControls.js:173-181 | while recording the button has the stop handler's whole effect, including every track of the current stream ended; otherwise the start handler's whole effect, with no track touched |
| `AudioCapture.AudioControls.ChooseSource` | src/components/AudioControls.js:144-149 | while recording the selector is disabled and nothing changes; otherwise the source is set, and switching to the tab source posts the tab-list request |
| `AudioCapture.AudioControls.ChooseTab` | src/components/AudioControls.js:155-171 | the tab can be changed only when the tab source is shown and not recording; otherwise nothing changes |
| `AudioCapture.AudioControls.OnWindowMessage` | src/components/AudioControls.js:31-44 | only window messages from the window itself, while the tab source is selected, have an effect: a tab list replaces `tabs`; a tab stream is stored and recorded as by `startRecording`; a `TAB_AUDIO_STREAM` message without a stream is stored all the same (the current stream becomes null) and records nothing, since the listener has no null check and `new MediaRecorder` throws |
| `AudioCapture.ExampleMicrophoneSession` | src/components/AudioControls.js:56-111 | a microphone start, an empty and a non-empty chunk, and two stops give exactly: request, recorder start, one "started", the non-empty chunk, then two stop posts and two "stopped"s; the track has ended |

## Left out

- Rendering and styling: the JSX, the Material-UI layout, the transcript list and the other components. They are presentation only.
- `JSON.parse` at src/App.js:38: inbound frames are given already parsed. A malformed frame makes `JSON.parse` throw inside `onmessage`. The code does not handle that, and the model does not invent recovery.
- The WebSocket transport: the URL, `onopen` and `onerror` (they only log), and the cleanup `close()`. The socket is a reference that is null or that holds a readyState. The browser moves it between states through the environment step `App.ReadyStateChanged`.
- Session.App.HandleAudioData: the log holds the frames passed to `socket.send`. What the browser then does with them is not modelled: it throws in the CONNECTING state and discards frames after close.
- Logging to the console: it has no effect on state.
- React's asynchronous state updates: each `set...` call takes effect at once in the model. A React StrictMode double run of effects is not modelled.
- Chunk timing (`start(10000)`) and the recorder's `onerror` handler, which only logs. The recorder is never stopped by the code: it ends when its tracks end. A final chunk it then emits is just another `OnDataAvailable` call.
- The effect cleanup in src/components/AudioControls.js:46-51, which removes the window listener and stops the tracks of the stream that the effect closed over. This is React lifecycle behaviour. The listener's lifetime is modelled only as "active while the tab source is selected".
- AudioCapture.AudioControls.StartCapture: `chrome.tabCapture.capture` takes no tab id, so the tab it captures is chosen by the browser. The model logs a capture request without an id. The looked-up tab id is used only by `chrome.tabs.get`.
- The contents of the tab list and of the platform streams: they are opaque values from the browser and the extension.
- AudioCapture.AudioControls.HandleStartRecording, AudioCapture.AudioControls.StartCapture: each waits for the platform in the browser. These are the `getUserMedia` promise, the `chrome.tabs.get` callback and the `chrome.tabCapture.capture` callback. The model gives the answer as an input and runs each press in one step. `isRecording` only changes when `onStartRecording` runs, so the button can be pressed again while a request is pending. The model cannot produce the interleaving that follows: two requests, then two recorder starts and two "started" notifications. After such a double start, a stop ends only the tracks of the second stream, and the first recorder keeps delivering chunks.
- The wiring of the `AudioControls` callbacks to the `App` handlers (src/App.js:126-131): each side is modelled on its own. The recording flag passed to `AudioControls` is a parameter of `PressButton`, `ChooseSource` and `ChooseTab`.
