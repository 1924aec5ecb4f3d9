/** The `AudioControls` component: choosing an audio source (the microphone
    or a browser tab), acquiring a stream from the platform, recording it,
    forwarding non-empty chunks, and stopping. The platform's answers (is the
    tab there, was a stream granted, did the recorder start) are inputs. */
module AudioCapture {
  import opened Logs
  import opened Media

  const SelectTabAlert: string := "Please select a tab first"
  const MicrophoneAlert: string := "Could not access the microphone. Please check permissions."

  /** `selectedSource`: "microphone" or "tab". */
  datatype Source = Microphone | TabAudio

  /** `selectedTab`: "" until a tab is picked, then the picked tab's id. */
  datatype TabChoice = NoTab | TabId(id: int)

  /** JavaScript's `!selectedTab`: both "" and the id 0 are falsy. */
  predicate Unselected(c: TabChoice) {
    c.NoTab? || c.id == 0
  }

  /** An entry of the tab list the browser extension sends. */
  datatype TabInfo = TabInfo(id: int, title: string)

  /** What a platform stream request comes back with. */
  datatype Grant = Granted(stream: MediaStream) | Refused

  /** Messages posted to the window for the browser extension. */
  datatype WindowPost = GetTabs | StopTabCapture

  /** Messages the window listener receives, by their `type`; a
      `TAB_AUDIO_STREAM` message need not carry a stream. */
  datatype WindowMessage = TabsList(tabs: seq<TabInfo>) | TabAudioStream(stream: MediaStream?) | OtherMessage

  /** What the component does to the outside world, in order. */
  datatype Action =
    | LookUpTab(id: int)                   // chrome.tabs.get(Number(selectedTab), ...)
    | CaptureTabAudio                      // chrome.tabCapture.capture({audio: true, video: false}, ...)
    | OpenMicrophone                       // navigator.mediaDevices.getUserMedia({audio: true})
    | StartRecorder(stream: MediaStream)   // new MediaRecorder(stream) ... .start(10000)
    | NotifyStarted                        // onStartRecording()
    | NotifyStopped                        // onStopRecording()
    | DeliverAudio(chunk: Blob)            // onAudioData(chunk)
    | ShowAlert(message: string)           // alert(...)
    | Post(post: WindowPost)               // window.postMessage(...)

  /** `startRecording(stream)`: when the recorder can be created and started
      it starts, and then the caller is told; otherwise it throws at once. */
  function RecordTrace(s: MediaStream, recorderOk: bool): (r: seq<Action>)
    ensures Count(r, NotifyStarted) == (if recorderOk then 1 else 0)
    ensures recorderOk ==> r == [StartRecorder(s), NotifyStarted]
    ensures !recorderOk ==> r == []
  {
    if recorderOk then [StartRecorder(s), NotifyStarted] else []
  }

  /** The start path reaches `setStream` with a stream the platform granted. */
  predicate Acquires(src: Source, tab: TabChoice, tabFound: bool, grant: Grant) {
    grant.Granted? && (src == TabAudio ==> !Unselected(tab) && tabFound)
  }

  /** The start path ends with a running recorder. */
  predicate Succeeds(src: Source, tab: TabChoice, tabFound: bool, grant: Grant, recorderOk: bool) {
    Acquires(src, tab, tabFound, grant) && recorderOk
  }

  /** The actions of one press of "Start Recording", for the given platform
      answers: `tabFound` (`chrome.tabs.get` yields a tab), `grant` (the tab
      capture or microphone request) and `recorderOk` (the recorder starts). */
  function StartTrace(src: Source, tab: TabChoice, tabFound: bool, grant: Grant, recorderOk: bool): seq<Action> {
    match src
    case TabAudio =>
      if Unselected(tab) then [ShowAlert(SelectTabAlert)]
      else if !tabFound then [LookUpTab(tab.id)]
      else
        [LookUpTab(tab.id), CaptureTabAudio]
        + (if grant.Granted? then RecordTrace(grant.stream, recorderOk) else [])
    case Microphone =>
      // an exception in startRecording lands in the promise's catch
      [OpenMicrophone]
      + (if grant.Refused? then [ShowAlert(MicrophoneAlert)]
         else RecordTrace(grant.stream, recorderOk) + (if recorderOk then [] else [ShowAlert(MicrophoneAlert)]))
  }

  /** A press of "Start Recording" that does not get a recorder running
      neither starts one nor notifies; the three guarded paths end early. */
  lemma StartTraceGuards(src: Source, tab: TabChoice, tabFound: bool, grant: Grant, recorderOk: bool)
    ensures !Succeeds(src, tab, tabFound, grant, recorderOk) ==>
      forall a :: a in StartTrace(src, tab, tabFound, grant, recorderOk) ==> !a.StartRecorder? && a != NotifyStarted
    // tab source with no tab chosen: only the alert, no platform request
    ensures src == TabAudio && Unselected(tab) ==>
      StartTrace(src, tab, tabFound, grant, recorderOk) == [ShowAlert(SelectTabAlert)]
    // tab capture yields no stream: no recorder, no notification, no alert
    ensures src == TabAudio && !Unselected(tab) && tabFound && grant.Refused? ==>
      StartTrace(src, tab, tabFound, grant, recorderOk) == [LookUpTab(tab.id), CaptureTabAudio]
    // microphone refused: the microphone alert, and nothing is recorded
    ensures src == Microphone && grant.Refused? ==>
      StartTrace(src, tab, tabFound, grant, recorderOk) == [OpenMicrophone, ShowAlert(MicrophoneAlert)]
    // a start never stops and never delivers audio
    ensures forall a :: a in StartTrace(src, tab, tabFound, grant, recorderOk) ==> a != NotifyStopped && !a.DeliverAudio?
  {
  }

  /** A press of "Start Recording" notifies "started" once when a stream is
      acquired and the recorder starts, right after the recorder on that
      stream started, and never otherwise. */
  lemma StartTraceNotifiesOnce(src: Source, tab: TabChoice, tabFound: bool, grant: Grant, recorderOk: bool)
    ensures Count(StartTrace(src, tab, tabFound, grant, recorderOk), NotifyStarted)
      == (if Succeeds(src, tab, tabFound, grant, recorderOk) then 1 else 0)
    ensures Succeeds(src, tab, tabFound, grant, recorderOk) ==>
      var r := StartTrace(src, tab, tabFound, grant, recorderOk);
      |r| >= 2 && r[|r| - 2..] == [StartRecorder(grant.stream), NotifyStarted]
    ensures Count(StartTrace(src, tab, tabFound, grant, recorderOk), NotifyStopped) == 0
  {
    var r := StartTrace(src, tab, tabFound, grant, recorderOk);
    StartTraceGuards(src, tab, tabFound, grant, recorderOk);
    assert NotifyStopped !in r;
    if Succeeds(src, tab, tabFound, grant, recorderOk) {
      var p := if src == TabAudio then [LookUpTab(tab.id), CaptureTabAudio] else [OpenMicrophone];
      var tail := [StartRecorder(grant.stream), NotifyStarted];
      assert r == p + tail;
      assert NotifyStarted !in p;
      CountConcat(p, tail, NotifyStarted);
      assert tail[..1] == [StartRecorder(grant.stream)];
      assert [StartRecorder(grant.stream)][..0] == [];
    } else {
      assert NotifyStarted !in r;
    }
  }

  /** The actions of `handleStopRecording`: post the stop request, notify. */
  const StopTrace: seq<Action> := [Post(StopTabCapture), NotifyStopped]

  /** The chunks that pass the `size > 0` filter, in order. */
  function Forward(chunks: seq<Blob>): (r: seq<Blob>)
    ensures |r| <= |chunks|
    ensures forall i :: 0 <= i < |r| ==> r[i].Size() > 0
    ensures multiset(r) <= multiset(chunks)
  {
    if chunks == [] then []
    else
      var init, last := chunks[..|chunks| - 1], chunks[|chunks| - 1];
      assert chunks == init + [last];
      Forward(init) + (if last.Size() > 0 then [last] else [])
  }

  /** The `onAudioData` calls that hand these chunks over. */
  function AsDeliveries(chunks: seq<Blob>): (r: seq<Action>)
    ensures |r| == |chunks| && forall i :: 0 <= i < |chunks| ==> r[i] == DeliverAudio(chunks[i])
  {
    seq(|chunks|, i requires 0 <= i < |chunks| => DeliverAudio(chunks[i]))
  }

  /** One more chunk adds itself to the filtered run exactly when it is non-empty. */
  lemma ForwardSnoc(chunks: seq<Blob>, c: Blob)
    ensures Forward(chunks + [c]) == Forward(chunks) + (if c.Size() > 0 then [c] else [])
  {
    assert (chunks + [c])[..|chunks|] == chunks;
  }

  /** Filtering two runs of chunks one after the other keeps their order. */
  lemma {:induction false} ForwardConcat(a: seq<Blob>, b: seq<Blob>)
    ensures Forward(a + b) == Forward(a) + Forward(b)
  {
    if b == [] {
      assert a + b == a;
    } else {
      var b', last := b[..|b| - 1], b[|b| - 1];
      assert b == b' + [last];
      assert a + b == (a + b') + [last];
      ForwardConcat(a, b');
      ForwardSnoc(a + b', last);
      ForwardSnoc(b', last);
    }
  }

  /** Non-empty chunks all pass, unchanged and in order. */
  lemma {:induction false} ForwardKeepsNonEmpty(chunks: seq<Blob>)
    requires forall i :: 0 <= i < |chunks| ==> chunks[i].Size() > 0
    ensures Forward(chunks) == chunks
  {
    if chunks != [] {
      var init := chunks[..|chunks| - 1];
      assert chunks == init + [chunks[|chunks| - 1]];
      ForwardKeepsNonEmpty(init);
    }
  }

  /** Exactly the empty chunks are dropped: a chunk passes as often as it
      was recorded when it is non-empty, and never when it is empty. */
  lemma {:induction false} ForwardCount(chunks: seq<Blob>, c: Blob)
    ensures Count(Forward(chunks), c) == if c.Size() > 0 then Count(chunks, c) else 0
  {
    if chunks != [] {
      var init, last := chunks[..|chunks| - 1], chunks[|chunks| - 1];
      ForwardCount(init, c);
      CountConcat(Forward(init), if last.Size() > 0 then [last] else [], c);
      assert [last][..0] == [];
    }
  }

  /** The deliveries of two runs of chunks, one after the other. */
  lemma AsDeliveriesConcat(a: seq<Blob>, b: seq<Blob>)
    ensures AsDeliveries(a) + AsDeliveries(b) == AsDeliveries(a + b)
  {
    var left, right := AsDeliveries(a) + AsDeliveries(b), AsDeliveries(a + b);
    forall i | 0 <= i < |right|
      ensures left[i] == right[i]
    {
      if i < |a| {
        assert left[i] == AsDeliveries(a)[i];
      } else {
        assert left[i] == AsDeliveries(b)[i - |a|];
      }
    }
  }

  /** Delivering chunk by chunk hands over the filtered run in order. */
  lemma DeliveriesConcat(a: seq<Blob>, b: seq<Blob>)
    ensures AsDeliveries(Forward(a)) + AsDeliveries(Forward(b)) == AsDeliveries(Forward(a + b))
  {
    ForwardConcat(a, b);
    AsDeliveriesConcat(Forward(a), Forward(b));
  }

  /** Every call of the stop handler notifies the caller, repeated calls
      included: `n` stops add exactly `n` "stopped" notifications. */
  lemma RepeatedStops(t: seq<Action>, n: nat)
    ensures Count(t + Repeat(StopTrace, n), NotifyStopped) == Count(t, NotifyStopped) + n
  {
    CountConcat(t, Repeat(StopTrace, n), NotifyStopped);
    CountRepeat(StopTrace, n, NotifyStopped);
    assert StopTrace[..1] == [Post(StopTabCapture)];
    assert [Post(StopTabCapture)][..0] == [];
  }

  /** Everything the component holds, for stating whole-state effects. */
  datatype ControlsState = ControlsState(
    tabs: seq<TabInfo>,
    selectedTab: TabChoice,
    selectedSource: Source,
    stream: MediaStream?,
    trace: seq<Action>)

  /** Stops every track of `s` (`getTracks().forEach(track => track.stop())`). */
  method StopTracks(s: MediaStream)
    modifies s.TrackSet()
    ensures forall i :: 0 <= i < |s.tracks| ==> !s.tracks[i].live
  {
    for i := 0 to |s.tracks|
      invariant forall j :: 0 <= j < i ==> !s.tracks[j].live
    {
      s.tracks[i].Stop();
    }
  }

  class AudioControls {
    var tabs: seq<TabInfo>
    var selectedTab: TabChoice
    var selectedSource: Source
    var stream: MediaStream?
    var trace: seq<Action>

    function Snapshot(): ControlsState
      reads this
    {
      ControlsState(tabs, selectedTab, selectedSource, stream, trace)
    }

    /** The tracks the stop handler may end. */
    function StreamTracks(): set<Track>
      reads this
    {
      if stream == null then {} else stream.TrackSet()
    }

    /** The initial `useState` values: no tabs, no tab, the microphone, no stream. */
    constructor ()
      ensures Snapshot() == ControlsState([], NoTab, Microphone, null, [])
    {
      tabs, selectedTab, selectedSource := [], NoTab, Microphone;
      stream, trace := null, [];
    }

    /** `startRecording(stream)`. */
    method StartRecording(s: MediaStream, recorderOk: bool) returns (ok: bool)
      modifies this
      ensures ok == recorderOk
      ensures Snapshot() == old(Snapshot()).(trace := old(trace) + RecordTrace(s, recorderOk))
    {
      ok := recorderOk;
      if ok {
        trace := trace + [StartRecorder(s), NotifyStarted];
      }
    }

    /** A chunk from the recorder (`ondataavailable`): only a non-empty one
        reaches `onAudioData`. */
    method OnDataAvailable(chunk: Blob)
      modifies this
      ensures Snapshot() == old(Snapshot()).(trace := old(trace) + AsDeliveries(Forward([chunk])))
      ensures chunk.Size() > 0 ==> trace == old(trace) + [DeliverAudio(chunk)]
      ensures chunk.Size() == 0 ==> Snapshot() == old(Snapshot())
    {
      assert [chunk][..0] == [];
      if chunk.Size() > 0 {
        trace := trace + [DeliverAudio(chunk)];
      }
    }

    /** `handleStartRecording`, with the platform's answers as inputs. */
    method HandleStartRecording(tabFound: bool, grant: Grant, recorderOk: bool)
      modifies this
      ensures Snapshot() == old(Snapshot()).(
        stream := if Acquires(old(selectedSource), old(selectedTab), tabFound, grant) then grant.stream else old(stream),
        trace := old(trace) + StartTrace(old(selectedSource), old(selectedTab), tabFound, grant, recorderOk))
    {
      match selectedSource
      case TabAudio =>
        if Unselected(selectedTab) {
          trace := trace + [ShowAlert(SelectTabAlert)];
          return;
        }
        trace := trace + [LookUpTab(selectedTab.id)];
        if tabFound {
          StartCapture(grant, recorderOk);
        }
      case Microphone =>
        trace := trace + [OpenMicrophone];
        match grant
        case Granted(s) =>
          stream := s;
          var ok := StartRecording(s, recorderOk);
          if !ok {
            trace := trace + [ShowAlert(MicrophoneAlert)];
          }
        case Refused =>
          trace := trace + [ShowAlert(MicrophoneAlert)];
    }

    /** `startCapture`: without a stream it gives up before any recorder. */
    method StartCapture(grant: Grant, recorderOk: bool)
      modifies this
      ensures Snapshot() == old(Snapshot()).(
        stream := if grant.Granted? then grant.stream else old(stream),
        trace := old(trace) + [CaptureTabAudio]
                 + (if grant.Granted? then RecordTrace(grant.stream, recorderOk) else []))
    {
      trace := trace + [CaptureTabAudio];
      if grant.Refused? {
        return;
      }
      stream := grant.stream;
      var _ := StartRecording(grant.stream, recorderOk);
    }

    /** `handleStopRecording`: on every call it stops the tracks of the
        current stream, if any, posts the stop request and notifies. */
    method HandleStopRecording()
      modifies this, StreamTracks()
      ensures Snapshot() == old(Snapshot()).(trace := old(trace) + StopTrace)
      ensures stream != null ==> forall i :: 0 <= i < |stream.tracks| ==> !stream.tracks[i].live
    {
      if stream != null {
        StopTracks(stream);
      }
      trace := trace + StopTrace;
    }

    /** The record/stop button: it calls the stop handler while recording
        and the start handler otherwise. */
    method PressButton(isRecording: bool, tabFound: bool, grant: Grant, recorderOk: bool)
      modifies this, if isRecording then StreamTracks() else {}
      ensures isRecording ==> Snapshot() == old(Snapshot()).(trace := old(trace) + StopTrace)
      ensures isRecording && stream != null ==> forall i :: 0 <= i < |stream.tracks| ==> !stream.tracks[i].live
      ensures !isRecording ==> Snapshot() == old(Snapshot()).(
        stream := if Acquires(old(selectedSource), old(selectedTab), tabFound, grant) then grant.stream else old(stream),
        trace := old(trace) + StartTrace(old(selectedSource), old(selectedTab), tabFound, grant, recorderOk))
    {
      if isRecording {
        HandleStopRecording();
      } else {
        HandleStartRecording(tabFound, grant, recorderOk);
      }
    }

    /** Picking a source: the selector is disabled while recording. Switching
        to the tab source asks the extension for the tab list. */
    method ChooseSource(src: Source, isRecording: bool)
      modifies this
      ensures isRecording ==> Snapshot() == old(Snapshot())
      ensures !isRecording ==> Snapshot() == old(Snapshot()).(
        selectedSource := src,
        trace := old(trace) + (if src == TabAudio && old(selectedSource) != TabAudio then [Post(GetTabs)] else []))
    {
      if !isRecording {
        var wasTab := selectedSource == TabAudio;
        selectedSource := src;
        if src == TabAudio && !wasTab {
          trace := trace + [Post(GetTabs)];
        }
      }
    }

    /** Picking a tab: the tab selector is shown only for the tab source and
        is disabled while recording. */
    method ChooseTab(tab: TabChoice, isRecording: bool)
      modifies this
      ensures !isRecording && old(selectedSource) == TabAudio ==>
        Snapshot() == old(Snapshot()).(selectedTab := tab)
      ensures isRecording || old(selectedSource) != TabAudio ==> Snapshot() == old(Snapshot())
    {
      if !isRecording && selectedSource == TabAudio {
        selectedTab := tab;
      }
    }

    /** The window listener, registered while the tab source is selected: a
        tab list replaces `tabs`; a tab stream is stored and recorded. The
        listener does not check for a missing stream: it is stored all the
        same, and the recorder constructor throws, so nothing is recorded. */
    method OnWindowMessage(fromWindow: bool, msg: WindowMessage, recorderOk: bool)
      modifies this
      ensures !fromWindow || old(selectedSource) != TabAudio || msg.OtherMessage? ==>
        Snapshot() == old(Snapshot())
      ensures fromWindow && old(selectedSource) == TabAudio && msg.TabsList? ==>
        Snapshot() == old(Snapshot()).(tabs := msg.tabs)
      ensures fromWindow && old(selectedSource) == TabAudio && msg.TabAudioStream? ==>
        Snapshot() == old(Snapshot()).(stream := msg.stream,
          trace := old(trace) + (if msg.stream == null then [] else RecordTrace(msg.stream, recorderOk)))
    {
      if !fromWindow || selectedSource != TabAudio {
        return;
      }
      match msg
      case TabsList(ts) =>
        tabs := ts;
      case TabAudioStream(s) =>
        stream := s;
        if s != null {
          var _ := StartRecording(s, recorderOk);
        }
      case OtherMessage =>
    }
  }

  /** A microphone session: start, an empty and a non-empty chunk, then two
      presses of stop, which both notify and leave every track ended. */
  method ExampleMicrophoneSession(chunk: Blob) returns (t: seq<Action>, trackLive: bool)
    requires chunk.Size() > 0
    ensures |t| == 8 && t[1].StartRecorder?
    ensures t == [OpenMicrophone, t[1], NotifyStarted, DeliverAudio(chunk)] + StopTrace + StopTrace
    ensures !trackLive
  {
    var track := new Track();
    var mic := new MediaStream([track]);
    var controls := new AudioControls();
    controls.HandleStartRecording(false, Granted(mic), true);
    assert controls.stream == mic;
    assert controls.trace == [OpenMicrophone, StartRecorder(mic), NotifyStarted];
    controls.OnDataAvailable(Blob([]));
    controls.OnDataAvailable(chunk);
    assert controls.trace == [OpenMicrophone, StartRecorder(mic), NotifyStarted, DeliverAudio(chunk)];
    controls.HandleStopRecording();
    assert controls.stream.tracks[0] == track;
    assert !track.live;
    controls.HandleStopRecording();
    t, trackLive := controls.trace, track.live;
  }
}
