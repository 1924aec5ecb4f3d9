/** The interview session held by the top-level `App` component: the chat
    transcript built from the server's messages, the setup handshake, the
    recording flag and the audio chunks forwarded to the server socket. */
module Session {
  import opened Logs
  import opened Media

  const TranscriptionType: string := "transcription"
  const AssistantResponseType: string := "assistant_response"

  datatype Option<T> = None | Some(value: T)

  /** Who said a turn: the app stores the strings "user" and "assistant". */
  datatype Sender = User | Assistant

  /** One chat turn, `{sender, content}`. */
  datatype Turn = Turn(sender: Sender, content: string)

  /** An inbound socket frame after `JSON.parse`: its `type` and `content` fields. */
  datatype Inbound = Inbound(kind: string, content: string)

  /** `WebSocket.readyState`. */
  datatype ReadyState = Connecting | Open | Closing | Closed

  /** `socketRef.current`: `null` until the mount effect creates the socket. */
  datatype SocketRef = NoSocket | Socket(readyState: ReadyState)

  /** A frame handed to `socket.send`: the JSON setup message or an audio blob. */
  datatype Frame =
    | SetupFrame(jobDescription: string, intervieweeBackground: string)
    | AudioFrame(blob: Blob)

  /** The message types the handler turns into chat turns. */
  predicate Recognised(m: Inbound) {
    m.kind == TranscriptionType || m.kind == AssistantResponseType
  }

  /** The `onmessage` classifier: a transcription is the user's turn, an
      assistant response the assistant's, anything else is dropped. */
  function Classify(m: Inbound): (r: Option<Turn>)
    ensures r.Some? <==> Recognised(m)
    ensures r.Some? ==> r.value.content == m.content
    ensures r.Some? ==> (r.value.sender == User <==> m.kind == TranscriptionType)
  {
    if m.kind == TranscriptionType then Some(Turn(User, m.content))
    else if m.kind == AssistantResponseType then Some(Turn(Assistant, m.content))
    else None
  }

  /** The turns that a sequence of inbound messages adds, in arrival order. */
  function Transcript(ms: seq<Inbound>): (r: seq<Turn>)
    ensures |r| <= |ms|
  {
    if ms == [] then []
    else
      var last := ms[|ms| - 1];
      Transcript(ms[..|ms| - 1]) + (match Classify(last) case Some(t) => [t] case None => [])
  }

  function Kinds(ms: seq<Inbound>): (ks: seq<string>)
    ensures |ks| == |ms| && forall i :: 0 <= i < |ms| ==> ks[i] == ms[i].kind
  {
    seq(|ms|, i requires 0 <= i < |ms| => ms[i].kind)
  }

  function Senders(ts: seq<Turn>): (ss: seq<Sender>)
    ensures |ss| == |ts| && forall i :: 0 <= i < |ts| ==> ss[i] == ts[i].sender
  {
    seq(|ts|, i requires 0 <= i < |ts| => ts[i].sender)
  }

  /** Processing two batches of messages one after the other gives the
      first batch's turns followed by the second's: turns are only appended. */
  lemma {:induction false} TranscriptConcat(a: seq<Inbound>, b: seq<Inbound>)
    ensures Transcript(a + b) == Transcript(a) + Transcript(b)
  {
    if b == [] {
      assert a + b == a;
    } else {
      var b' := b[..|b| - 1];
      assert (a + b)[..|a + b| - 1] == a + b';
      TranscriptConcat(a, b');
    }
  }

  /** A single message adds exactly the turn its classification gives. */
  lemma TranscriptSingle(m: Inbound)
    ensures m.kind == TranscriptionType ==> Transcript([m]) == [Turn(User, m.content)]
    ensures m.kind == AssistantResponseType ==> Transcript([m]) == [Turn(Assistant, m.content)]
    ensures !Recognised(m) ==> Transcript([m]) == []
  {
  }

  /** The message type that produces a turn of this sender. */
  function KindOf(who: Sender): string {
    if who == User then TranscriptionType else AssistantResponseType
  }

  /** One message adds a turn by `who` exactly when it has `who`'s type. */
  lemma SingleSenderCount(m: Inbound, who: Sender)
    ensures Count(Senders(Transcript([m])), who) == Count([m.kind], KindOf(who))
  {
    TranscriptSingle(m);
  }

  /** The senders of two runs of turns, one after the other. */
  lemma SendersConcat(a: seq<Turn>, b: seq<Turn>)
    ensures Senders(a + b) == Senders(a) + Senders(b)
  {
  }

  /** The types of a run of messages followed by one more. */
  lemma KindsSnoc(ms: seq<Inbound>, m: Inbound)
    ensures Kinds(ms + [m]) == Kinds(ms) + [m.kind]
  {
  }

  /** Every transcription becomes one user turn and every assistant response
      one assistant turn, whatever else arrives in between. */
  lemma {:induction false} TranscriptSenderCount(ms: seq<Inbound>, who: Sender)
    ensures Count(Senders(Transcript(ms)), who) == Count(Kinds(ms), KindOf(who))
  {
    if ms != [] {
      var init, last := ms[..|ms| - 1], ms[|ms| - 1];
      assert ms == init + [last];
      TranscriptSenderCount(init, who);
      var before, added := Transcript(init), Transcript([last]);
      TranscriptConcat(init, [last]);
      assert Transcript(ms) == before + added;
      SendersConcat(before, added);
      CountConcat(Senders(before), Senders(added), who);
      SingleSenderCount(last, who);
      KindsSnoc(init, last);
      CountConcat(Kinds(init), [last.kind], KindOf(who));
    }
  }

  /** The transcript holds one turn per transcription or assistant response
      received, and no other. */
  lemma TranscriptLength(ms: seq<Inbound>)
    ensures |Transcript(ms)| == Count(Kinds(ms), TranscriptionType) + Count(Kinds(ms), AssistantResponseType)
  {
    TranscriptSenderCount(ms, User);
    TranscriptSenderCount(ms, Assistant);
    SendersSplit(Transcript(ms));
  }

  /** Each turn is a user's or an assistant's. */
  lemma {:induction false} SendersSplit(ts: seq<Turn>)
    ensures Count(Senders(ts), User) + Count(Senders(ts), Assistant) == |ts|
  {
    if ts != [] {
      var init := ts[..|ts| - 1];
      assert Senders(ts) == Senders(init) + [ts[|ts| - 1].sender];
      CountConcat(Senders(init), [ts[|ts| - 1].sender], User);
      CountConcat(Senders(init), [ts[|ts| - 1].sender], Assistant);
      SendersSplit(init);
    }
  }

  /** A stream of messages of unknown types adds nothing to the transcript. */
  lemma {:induction false} UnknownOnly(ms: seq<Inbound>)
    requires forall i :: 0 <= i < |ms| ==> !Recognised(ms[i])
    ensures Transcript(ms) == []
  {
    if ms != [] {
      UnknownOnly(ms[..|ms| - 1]);
    }
  }

  /** The setup frames `handleSetupComplete` sends: the setup message when the
      socket exists and is OPEN, nothing otherwise. */
  function SetupFrames(socket: SocketRef, jd: string, background: string): (r: seq<Frame>)
    ensures r == [] || r == [SetupFrame(jd, background)]
    ensures r != [] <==> socket == Socket(Open)
  {
    if socket.Socket? && socket.readyState == Open then [SetupFrame(jd, background)] else []
  }

  /** The frames `handleAudioData` passes to `socket.send`: the blob unchanged
      whatever the socket's readyState; with no socket the call throws first. */
  function AudioFrames(socket: SocketRef, blob: Blob): (r: seq<Frame>)
    ensures r == [] || r == [AudioFrame(blob)]
    ensures r != [] <==> socket.Socket?
  {
    if socket.NoSocket? then [] else [AudioFrame(blob)]
  }

  /** The readyState changes a WebSocket can make: CONNECTING to OPEN,
      CLOSING or CLOSED, OPEN to CLOSING or CLOSED, CLOSING to CLOSED. A
      socket never goes back to an earlier state. */
  predicate CanMoveTo(from: ReadyState, to: ReadyState) {
    match from
    case Connecting => to != Connecting
    case Open => to == Closing || to == Closed
    case Closing => to == Closed
    case Closed => false
  }

  /** Everything the `App` component holds, for stating whole-state effects. */
  datatype AppState = AppState(
    isSetupComplete: bool,
    jobDescription: string,
    intervieweeBackground: string,
    messages: seq<Turn>,
    isRecording: bool,
    socket: SocketRef,
    sent: seq<Frame>)

  /** The `App` component: its React state, the socket reference and the log
      of frames passed to `socket.send`. */
  class App {
    var isSetupComplete: bool
    var jobDescription: string
    var intervieweeBackground: string
    var messages: seq<Turn>
    var isRecording: bool
    var socket: SocketRef
    var sent: seq<Frame>

    function Snapshot(): AppState
      reads this
    {
      AppState(isSetupComplete, jobDescription, intervieweeBackground, messages, isRecording, socket, sent)
    }

    /** The initial `useState` values and `useRef(null)`. */
    constructor ()
      ensures Snapshot() == AppState(false, "", "", [], false, NoSocket, [])
    {
      isSetupComplete, jobDescription, intervieweeBackground := false, "", "";
      messages, isRecording := [], false;
      socket, sent := NoSocket, [];
    }

    /** The mount effect stores a new socket, which starts out CONNECTING. */
    method Connect()
      modifies this
      ensures Snapshot() == old(Snapshot()).(socket := Socket(Connecting))
    {
      socket := Socket(Connecting);
    }

    /** The browser moves the socket to a later readyState. */
    method ReadyStateChanged(state: ReadyState)
      requires socket.Socket? && CanMoveTo(socket.readyState, state)
      modifies this
      ensures Snapshot() == old(Snapshot()).(socket := Socket(state))
    {
      socket := Socket(state);
    }

    /** `addMessage`: the transcript grows by exactly this turn at its end. */
    method AddMessage(sender: Sender, content: string)
      modifies this
      ensures messages == old(messages) + [Turn(sender, content)]
      ensures |messages| == |old(messages)| + 1 && old(messages) < messages
      ensures Snapshot() == old(Snapshot()).(messages := messages)
    {
      messages := messages + [Turn(sender, content)];
    }

    /** `socket.onmessage` on an already parsed frame. */
    method OnMessage(m: Inbound)
      modifies this
      ensures Snapshot() == old(Snapshot()).(messages := old(messages) + Transcript([m]))
      ensures m.kind == TranscriptionType ==> messages == old(messages) + [Turn(User, m.content)]
      ensures m.kind == AssistantResponseType ==> messages == old(messages) + [Turn(Assistant, m.content)]
      ensures !Recognised(m) ==> Snapshot() == old(Snapshot())
    {
      TranscriptSingle(m);
      if m.kind == TranscriptionType {
        AddMessage(User, m.content);
      } else if m.kind == AssistantResponseType {
        AddMessage(Assistant, m.content);
      }
    }

    /** `handleSetupComplete`: records the setup fields whatever the socket's
        state, and sends the setup frame only over an OPEN socket. */
    method HandleSetupComplete(jd: string, background: string)
      modifies this
      ensures Snapshot() == old(Snapshot()).(
        jobDescription := jd, intervieweeBackground := background, isSetupComplete := true,
        sent := old(sent) + SetupFrames(old(socket), jd, background))
    {
      jobDescription := jd;
      intervieweeBackground := background;
      isSetupComplete := true;
      if socket.Socket? && socket.readyState == Open {
        sent := sent + [SetupFrame(jd, background)];
      }
    }

    /** `handleStartRecording`: only the recording flag changes. */
    method HandleStartRecording()
      modifies this
      ensures Snapshot() == old(Snapshot()).(isRecording := true)
    {
      isRecording := true;
    }

    /** `handleStopRecording`: only the recording flag changes. */
    method HandleStopRecording()
      modifies this
      ensures Snapshot() == old(Snapshot()).(isRecording := false)
    {
      isRecording := false;
    }

    /** `handleAudioData`: sends the blob with no readiness check; `failed`
        reports the TypeError thrown when there is no socket yet. */
    method HandleAudioData(blob: Blob) returns (failed: bool)
      modifies this
      ensures failed <==> old(socket) == NoSocket
      ensures Snapshot() == old(Snapshot()).(sent := old(sent) + AudioFrames(old(socket), blob))
    {
      failed := socket.NoSocket?;
      if !failed {
        sent := sent + [AudioFrame(blob)];
      }
    }
  }

  /** A session run end to end: connect, open, complete setup, then receive a
      transcription, a message of an unknown type and an assistant response. */
  method ExampleSession() returns (turns: seq<Turn>, frames: seq<Frame>)
    ensures turns == [Turn(User, "Tell me about yourself"), Turn(Assistant, "Sure, go ahead.")]
    ensures frames == [SetupFrame("Backend Engineer", "5y Go")]
  {
    var app := new App();
    app.Connect();
    app.ReadyStateChanged(Open);
    app.HandleSetupComplete("Backend Engineer", "5y Go");
    app.OnMessage(Inbound(TranscriptionType, "Tell me about yourself"));
    app.OnMessage(Inbound("status", "ignored"));
    app.OnMessage(Inbound(AssistantResponseType, "Sure, go ahead."));
    turns, frames := app.messages, app.sent;
  }
}
