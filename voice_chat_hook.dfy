/** The browser's session controller (the `useVoiceChat` hook): four flags
    (`isConnected`, `isRecording`, `isSpeaking`, `isSessionActive`), an
    append-only chat history, and the refs to the current socket and the
    current media recorder. Socket events, recorder events, playback events
    and the user actions `connect`, `disconnect`, `startRecording`,
    `stopRecording` and `interrupt` drive it; it sends `start_session`,
    `audio_data`, `interrupt` and `end_session` under explicit guards.

    Each handler runs as one step. The state transitions are the functions
    below; the class `VoiceChat` performs them on its fields and sockets. */
module VoiceChatHook {
  import opened Protocol
  import opened Transport

  datatype Role = User | Assistant

  /** One chat history entry; `id` and `timestamp` come from the clock. */
  datatype Message = Message(id: string, role: Role, content: string, timestamp: int)

  /** `addMessage`: the new entry goes at the end and nothing before it changes. */
  function AddMessage(history: seq<Message>, role: Role, content: string, id: string, timestamp: int): (r: seq<Message>)
    ensures |r| == |history| + 1
    ensures r[..|history|] == history
    ensures r[|history|].role == role && r[|history|].content == content
    ensures r[|history|].id == id && r[|history|].timestamp == timestamp
  {
    history + [Message(id, role, content, timestamp)]
  }

  /** The hook's React state. */
  datatype Hook = Hook(isConnected: bool, isRecording: bool, isSpeaking: bool, isSessionActive: bool, chatHistory: seq<Message>)

  function Initial(): (h: Hook)
    ensures !h.isConnected && !h.isRecording && !h.isSpeaking && !h.isSessionActive && h.chatHistory == []
  {
    Hook(false, false, false, false, [])
  }

  /** All four flags false, the history kept. */
  function Reset(h: Hook): (r: Hook)
    ensures !r.isConnected && !r.isRecording && !r.isSpeaking && !r.isSessionActive
    ensures r.chatHistory == h.chatHistory
  {
    Hook(false, false, false, false, h.chatHistory)
  }

  /** `wsRef.current` as a handler finds it: no socket, or a socket in some
      ready state. */
  datatype SocketRef = NoSocket | SocketIn(readyState: int)

  /** How `startRecording`'s media setup ends: `getUserMedia` (or the
      `MediaRecorder` constructor) throws, `start()` throws after the recorder
      is stored in its ref, or the recorder starts. */
  datatype RecorderOutcome = MediaUnavailable | RecorderFailed | RecorderStarted

  /** One handler's effect: the new state and what the socket transmits. */
  datatype HookStep = HookStep(next: Hook, sent: seq<ClientMsg>)

  /** `ws.onopen`: connected, session active, one `start_session` sent. */
  function OpenStep(h: Hook): (r: HookStep)
    ensures r.next.isConnected && r.next.isSessionActive
    ensures r.next.isRecording == h.isRecording && r.next.isSpeaking == h.isSpeaking
    ensures r.next.chatHistory == h.chatHistory
    ensures r.sent == [StartSession]
  {
    HookStep(h.(isConnected := true, isSessionActive := true), [StartSession])
  }

  /** The assistant entry a received frame adds: one for an `audio_response`
      with a non-empty text, none otherwise. */
  function ReplyTo(frame: Frame<ServerMsg>, id: string, timestamp: int): seq<Message>
  {
    if frame.Parsed? && frame.msg.AudioResponse? && frame.msg.text != ""
    then [Message(id, Assistant, frame.msg.text, timestamp)]
    else []
  }

  /** `ws.onmessage`. Only `audio_response` changes anything: the assistant is
      speaking, and a non-empty text becomes one assistant entry. A frame that
      fails to parse throws inside the handler and changes nothing. */
  function MessageStep(h: Hook, frame: Frame<ServerMsg>, id: string, timestamp: int): (r: HookStep)
    ensures r.sent == []
    ensures r.next.isConnected == h.isConnected && r.next.isRecording == h.isRecording
    ensures r.next.isSessionActive == h.isSessionActive
    ensures r.next.isSpeaking == (h.isSpeaking || (frame.Parsed? && frame.msg.AudioResponse?))
    ensures r.next.chatHistory == h.chatHistory + ReplyTo(frame, id, timestamp)
  {
    match frame
    case Parsed(AudioResponse(_, text)) =>
      var history := if text != "" then AddMessage(h.chatHistory, Assistant, text, id, timestamp) else h.chatHistory;
      HookStep(h.(isSpeaking := true, chatHistory := history), [])
    case _ => HookStep(h, [])
  }

  /** `ws.onclose`: every flag false. */
  function CloseStep(h: Hook): (r: HookStep)
    ensures r.next == Reset(h) && r.sent == []
  {
    HookStep(Reset(h), [])
  }

  /** `disconnect()`: with a socket, `end_session` goes out before the socket
      is closed (it is transmitted only if the socket is open; a socket still
      connecting makes `send` throw, which abandons the whole handler); then
      every flag is false. */
  function DisconnectStep(h: Hook, ref: SocketRef): (r: HookStep)
    ensures ref == SocketIn(CONNECTING) ==> r == HookStep(h, [])
    ensures ref != SocketIn(CONNECTING) ==> r.next == Reset(h)
    ensures r.sent == (if ref == SocketIn(OPEN) then [EndSession] else [])
  {
    match ref
    case NoSocket => HookStep(Reset(h), [])
    case SocketIn(readyState) =>
      match SendResultIn(readyState)
      case Threw => HookStep(h, [])
      case Transmitted => HookStep(Reset(h), [EndSession])
      case Discarded => HookStep(Reset(h), [])
  }

  /** `startRecording()`: nothing unless connected; recording once the
      recorder has started. */
  function StartRecordingStep(h: Hook, outcome: RecorderOutcome): (r: HookStep)
    ensures r.sent == []
    ensures r.next.isRecording == (h.isRecording || (h.isConnected && outcome == RecorderStarted))
    ensures r.next.(isRecording := h.isRecording) == h
  {
    if h.isConnected && outcome == RecorderStarted then HookStep(h.(isRecording := true), []) else HookStep(h, [])
  }

  /** `mediaRecorder.onstop`: one `audio_data` holding the recorded chunks,
      concatenated, is transmitted if the current socket is open; recording
      ends in every case. */
  function RecorderStopStep(h: Hook, chunks: seq<Audio>, ref: SocketRef): (r: HookStep)
    ensures !r.next.isRecording && r.next.(isRecording := h.isRecording) == h
    ensures r.sent == (if ref == SocketIn(OPEN) then [AudioData(Flatten(chunks))] else [])
  {
    HookStep(h.(isRecording := false), if ref == SocketIn(OPEN) then [AudioData(Flatten(chunks))] else [])
  }

  /** `interrupt()`: only with a socket and while speaking; then one
      `interrupt` goes out (transmitted if the socket is open) and speaking
      stops, unless `send` throws on a connecting socket. */
  function InterruptStep(h: Hook, ref: SocketRef): (r: HookStep)
    ensures r.next.(isSpeaking := h.isSpeaking) == h
    ensures r.next.isSpeaking == (h.isSpeaking && (ref.NoSocket? || ref == SocketIn(CONNECTING)))
    ensures r.sent == (if h.isSpeaking && ref == SocketIn(OPEN) then [Interrupt] else [])
  {
    if ref.SocketIn? && h.isSpeaking then
      match SendResultIn(ref.readyState)
      case Threw => HookStep(h, [])
      case Transmitted => HookStep(h.(isSpeaking := false), [Interrupt])
      case Discarded => HookStep(h.(isSpeaking := false), [])
    else HookStep(h, [])
  }

  /** Playback of a response ended (`source.onended`) or could not be
      decoded (the `catch` of `playAudioResponse`): speaking stops. */
  function PlaybackStep(h: Hook): (r: HookStep)
    ensures !r.next.isSpeaking && r.next.(isSpeaking := h.isSpeaking) == h
    ensures r.sent == []
  {
    HookStep(h.(isSpeaking := false), [])
  }

  /** Everything that changes the hook's state, with what the environment
      decides carried by the event. `stopRecording` and `connect` change no
      state of their own and are not events here. */
  datatype HookEvent =
    | SocketOpened
    | MessageReceived(frame: Frame<ServerMsg>, id: string, timestamp: int)
    | SocketClosed
    | DisconnectCalled(ref: SocketRef)
    | StartRecordingCalled(outcome: RecorderOutcome)
    | RecorderStopped(chunks: seq<Audio>, ref: SocketRef)
    | InterruptCalled(ref: SocketRef)
    | PlaybackEnded

  function Apply(h: Hook, e: HookEvent): HookStep
  {
    match e
    case SocketOpened => OpenStep(h)
    case MessageReceived(frame, id, timestamp) => MessageStep(h, frame, id, timestamp)
    case SocketClosed => CloseStep(h)
    case DisconnectCalled(ref) => DisconnectStep(h, ref)
    case StartRecordingCalled(outcome) => StartRecordingStep(h, outcome)
    case RecorderStopped(chunks, ref) => RecorderStopStep(h, chunks, ref)
    case InterruptCalled(ref) => InterruptStep(h, ref)
    case PlaybackEnded => PlaybackStep(h)
  }

  function Run(h: Hook, events: seq<HookEvent>): HookStep
    decreases |events|
  {
    if events == [] then HookStep(h, [])
    else
      var first := Apply(h, events[0]);
      var rest := Run(first.next, events[1..]);
      HookStep(rest.next, first.sent + rest.sent)
  }

  /** The flags agree with each other: the session is active exactly while
      connected, and recording only happens while connected. */
  ghost predicate FlagsAgree(h: Hook)
  {
    h.isSessionActive == h.isConnected && (h.isRecording ==> h.isConnected)
  }

  /** From the initial state, whatever happens, the flags agree. */
  lemma {:induction false} FlagsAlwaysAgree(h: Hook, events: seq<HookEvent>)
    requires FlagsAgree(h)
    ensures FlagsAgree(Run(h, events).next)
    decreases |events|
  {
    if events != [] {
      var first := Apply(h, events[0]);
      assert FlagsAgree(first.next);
      FlagsAlwaysAgree(first.next, events[1..]);
    }
  }

  /** The assistant entries that the `audio_response` frames among `events`
      add, in order: one per frame with a non-empty text. */
  function Replies(events: seq<HookEvent>): seq<Message>
    decreases |events|
  {
    if events == [] then []
    else
      var e := events[0];
      (if e.MessageReceived? then ReplyTo(e.frame, e.id, e.timestamp) else []) + Replies(events[1..])
  }

  /** The chat history only grows, at its end, and exactly by the replies
      with text, in the order they arrived. */
  lemma {:induction false} HistoryIsAppendOnly(h: Hook, events: seq<HookEvent>)
    ensures Run(h, events).next.chatHistory == h.chatHistory + Replies(events)
    decreases |events|
  {
    if events != [] {
      var first := Apply(h, events[0]);
      HistoryIsAppendOnly(first.next, events[1..]);
      var e := events[0];
      if e.MessageReceived? {
        assert first.next.chatHistory == h.chatHistory + ReplyTo(e.frame, e.id, e.timestamp);
      } else {
        assert first.next.chatHistory == h.chatHistory;
      }
    }
  }

  /** The concatenation of recorded chunks, as `new Blob(chunks)` builds it:
      as long as all the chunks together. */
  function Flatten(chunks: seq<Audio>): (r: Audio)
    ensures |r| == TotalLength(chunks)
    decreases |chunks|
  {
    if chunks == [] then [] else chunks[0] + Flatten(chunks[1..])
  }

  function TotalLength(chunks: seq<Audio>): nat
    decreases |chunks|
  {
    if chunks == [] then 0 else |chunks[0]| + TotalLength(chunks[1..])
  }

  /** The chunks `ondataavailable` keeps: the non-empty ones. */
  function NonEmpty(chunks: seq<Audio>): (r: seq<Audio>)
    ensures forall i :: 0 <= i < |r| ==> |r[i]| > 0
    decreases |chunks|
  {
    if chunks == [] then []
    else (if |chunks[0]| > 0 then [chunks[0]] else []) + NonEmpty(chunks[1..])
  }

  /** Skipping empty chunks loses no audio: the recording sent on stop is the
      concatenation of everything the recorder delivered. */
  lemma {:induction false} SkippingEmptyChunksKeepsAudio(chunks: seq<Audio>)
    ensures Flatten(NonEmpty(chunks)) == Flatten(chunks)
    decreases |chunks|
  {
    if chunks != [] {
      SkippingEmptyChunksKeepsAudio(chunks[1..]);
      FlattenAppend(if |chunks[0]| > 0 then [chunks[0]] else [], NonEmpty(chunks[1..]));
    }
  }

  /** Delivering one more chunk keeps it when, and only when, it is non-empty. */
  lemma {:induction false} NonEmptyExtends(chunks: seq<Audio>, chunk: Audio)
    ensures NonEmpty(chunks + [chunk]) == NonEmpty(chunks) + (if |chunk| > 0 then [chunk] else [])
    decreases |chunks|
  {
    if chunks == [] {
      assert chunks + [chunk] == [chunk];
      assert [chunk][1..] == [];
    } else {
      assert (chunks + [chunk])[1..] == chunks[1..] + [chunk];
      NonEmptyExtends(chunks[1..], chunk);
    }
  }

  lemma {:induction false} FlattenAppend(a: seq<Audio>, b: seq<Audio>)
    ensures Flatten(a + b) == Flatten(a) + Flatten(b)
    decreases |a|
  {
    if a != [] {
      assert (a + b)[1..] == a[1..] + b;
      FlattenAppend(a[1..], b);
    } else {
      assert a + b == b;
    }
  }

  /** One media recorder and the `audioChunks` array of the `startRecording`
      call that created it. */
  class Recorder {
    var recording: bool
    var chunks: seq<Audio>
    /** Every chunk the recorder has handed to `ondataavailable`, empty or not. */
    ghost var delivered: seq<Audio>

    /** `ondataavailable` keeps exactly the non-empty delivered chunks. */
    ghost predicate Valid()
      reads this
    {
      chunks == NonEmpty(delivered)
    }

    constructor ()
      ensures Valid() && !recording && chunks == [] && delivered == []
    {
      recording := false;
      chunks := [];
      delivered := [];
    }

    method Start()
      modifies this
      ensures recording && chunks == old(chunks) && delivered == old(delivered)
    {
      recording := true;
    }

    /** `stop()`; on an inactive recorder it does nothing. */
    method Stop()
      modifies this
      ensures !recording && chunks == old(chunks) && delivered == old(delivered)
    {
      recording := false;
    }

    /** `ondataavailable`: a non-empty chunk is appended, an empty one skipped. */
    method OnDataAvailable(chunk: Audio)
      requires Valid()
      modifies this
      ensures Valid() && recording == old(recording)
      ensures delivered == old(delivered) + [chunk]
      ensures chunks == if |chunk| > 0 then old(chunks) + [chunk] else old(chunks)
    {
      NonEmptyExtends(delivered, chunk);
      delivered := delivered + [chunk];
      if |chunk| > 0 {
        chunks := chunks + [chunk];
      }
    }
  }

  /** One mounted `useVoiceChat` hook. */
  class VoiceChat {
    var isConnected: bool
    var isRecording: bool
    var isSpeaking: bool
    var isSessionActive: bool
    var chatHistory: seq<Message>
    var wsRef: BrowserSocket?
    var mediaRecorderRef: Recorder?

    function State(): Hook
      reads this
    {
      Hook(isConnected, isRecording, isSpeaking, isSessionActive, chatHistory)
    }

    function Ref(): SocketRef
      reads this, wsRef
    {
      if wsRef == null then NoSocket else SocketIn(wsRef.readyState)
    }

    constructor ()
      ensures State() == Initial() && wsRef == null && mediaRecorderRef == null
    {
      isConnected, isRecording, isSpeaking, isSessionActive := false, false, false, false;
      chatHistory := [];
      wsRef := null;
      mediaRecorderRef := null;
    }

    /** `connect()`: a new socket, still connecting, becomes the current one. */
    method Connect() returns (ws: BrowserSocket)
      modifies this
      ensures fresh(ws) && wsRef == ws && ws.readyState == CONNECTING && ws.sent == []
      ensures State() == old(State()) && mediaRecorderRef == old(mediaRecorderRef)
    {
      ws := new BrowserSocket();
      wsRef := ws;
    }

    /** `ws.onopen` of socket `ws` (the browser fires it once `ws` is open);
        `start_session` goes out on that socket, whichever is current. */
    method OnOpen(ws: BrowserSocket)
      requires ws.readyState == OPEN
      modifies this, ws
      ensures var s := OpenStep(old(State()));
              State() == s.next && ws.sent == old(ws.sent) + s.sent && ws.readyState == OPEN
      ensures wsRef == old(wsRef) && mediaRecorderRef == old(mediaRecorderRef)
    {
      isConnected := true;
      isSessionActive := true;
      var _ := ws.Send(StartSession);
    }

    /** `ws.onmessage`; `id` and `timestamp` are the clock readings
        `addMessage` would take. */
    method OnMessage(frame: Frame<ServerMsg>, id: string, timestamp: int)
      modifies this
      ensures State() == MessageStep(old(State()), frame, id, timestamp).next
      ensures wsRef == old(wsRef) && mediaRecorderRef == old(mediaRecorderRef)
    {
      match frame {
        case Parsed(AudioResponse(_, text)) =>
          isSpeaking := true;
          if text != "" {
            chatHistory := AddMessage(chatHistory, Assistant, text, id, timestamp);
          }
        case _ =>
      }
    }

    /** `ws.onclose`. */
    method OnClose()
      modifies this
      ensures State() == CloseStep(old(State())).next
      ensures wsRef == old(wsRef) && mediaRecorderRef == old(mediaRecorderRef)
    {
      isConnected := false;
      isSessionActive := false;
      isRecording := false;
      isSpeaking := false;
    }

    /** `disconnect()`: `end_session`, then `close()`, then the recorder is
        stopped if recording, then every flag is false; a connecting socket
        makes the first `send` throw and nothing else happens. */
    method Disconnect()
      modifies this, wsRef, mediaRecorderRef
      ensures wsRef == old(wsRef) && mediaRecorderRef == old(mediaRecorderRef)
      ensures var s := DisconnectStep(old(State()), old(Ref()));
              && State() == s.next
              && (wsRef != null ==> wsRef.sent == old(wsRef.sent) + s.sent)
      ensures wsRef != null && old(wsRef.readyState) == CONNECTING ==>
                wsRef.readyState == CONNECTING
                && (mediaRecorderRef != null ==> unchanged(mediaRecorderRef))
      ensures wsRef != null && old(wsRef.readyState) != CONNECTING ==>
                wsRef.readyState == (if old(wsRef.readyState) == OPEN then CLOSING else old(wsRef.readyState))
      ensures (wsRef == null || old(wsRef.readyState) != CONNECTING) && mediaRecorderRef != null ==>
                && mediaRecorderRef.chunks == old(mediaRecorderRef.chunks)
                && mediaRecorderRef.delivered == old(mediaRecorderRef.delivered)
                && mediaRecorderRef.recording == (old(mediaRecorderRef.recording) && !old(isRecording))
    {
      if wsRef != null {
        var r := wsRef.Send(EndSession);
        if r == Threw {
          return;
        }
        wsRef.Close();
      }
      if mediaRecorderRef != null && isRecording {
        mediaRecorderRef.Stop();
      }
      isConnected := false;
      isSessionActive := false;
      isRecording := false;
      isSpeaking := false;
    }

    /** `startRecording()`: the new recorder, when media setup gets that
        far, becomes the current one. */
    method StartRecording(outcome: RecorderOutcome)
      modifies this
      ensures State() == StartRecordingStep(old(State()), outcome).next
      ensures wsRef == old(wsRef)
      ensures !old(isConnected) || outcome == MediaUnavailable ==> mediaRecorderRef == old(mediaRecorderRef)
      ensures old(isConnected) && outcome != MediaUnavailable ==>
                && fresh(mediaRecorderRef) && mediaRecorderRef.Valid()
                && mediaRecorderRef.chunks == [] && mediaRecorderRef.delivered == []
                && mediaRecorderRef.recording == (outcome == RecorderStarted)
    {
      if !isConnected {
        return;
      }
      if outcome == MediaUnavailable {
        return;
      }
      var recorder := new Recorder();
      mediaRecorderRef := recorder;
      if outcome == RecorderFailed {
        return;
      }
      recorder.Start();
      isRecording := true;
    }

    /** `mediaRecorder.onstop` of `recorder`: its chunks, concatenated, go out
        on the current socket if that socket is open. No audio is lost to the
        skipped empty chunks: what goes out is everything the recorder
        delivered. */
    method OnRecorderStop(recorder: Recorder)
      requires recorder.Valid()
      modifies this, wsRef
      ensures wsRef == old(wsRef) && mediaRecorderRef == old(mediaRecorderRef)
      ensures var s := RecorderStopStep(old(State()), recorder.chunks, old(Ref()));
              && State() == s.next
              && (wsRef != null ==> wsRef.sent == old(wsRef.sent) + s.sent && wsRef.readyState == old(wsRef.readyState))
      ensures wsRef != null && old(wsRef.readyState) == OPEN ==>
                wsRef.sent == old(wsRef.sent) + [AudioData(Flatten(recorder.delivered))]
    {
      SkippingEmptyChunksKeepsAudio(recorder.delivered);
      var audioData := Flatten(recorder.chunks);
      if wsRef != null && wsRef.readyState == OPEN {
        var _ := wsRef.Send(AudioData(audioData));
      }
      isRecording := false;
    }

    /** `stopRecording()`: stops the current recorder, only while recording;
        the state changes when the recorder's `onstop` runs. */
    method StopRecording()
      modifies mediaRecorderRef
      ensures mediaRecorderRef != null ==> mediaRecorderRef.chunks == old(mediaRecorderRef.chunks)
      ensures mediaRecorderRef != null ==> mediaRecorderRef.delivered == old(mediaRecorderRef.delivered)
      ensures mediaRecorderRef != null ==> mediaRecorderRef.recording == (old(mediaRecorderRef.recording) && !isRecording)
    {
      if mediaRecorderRef != null && isRecording {
        mediaRecorderRef.Stop();
      }
    }

    /** `interrupt()`. */
    method Interrupt()
      modifies this, wsRef
      ensures wsRef == old(wsRef) && mediaRecorderRef == old(mediaRecorderRef)
      ensures var s := InterruptStep(old(State()), old(Ref()));
              && State() == s.next
              && (wsRef != null ==> wsRef.sent == old(wsRef.sent) + s.sent && wsRef.readyState == old(wsRef.readyState))
    {
      if wsRef != null && isSpeaking {
        var r := wsRef.Send(Protocol.Interrupt);
        if r != Threw {
          isSpeaking := false;
        }
      }
    }

    /** `source.onended`, and the `catch` of `playAudioResponse`. */
    method OnPlaybackEnded()
      modifies this
      ensures State() == PlaybackStep(old(State())).next
      ensures wsRef == old(wsRef) && mediaRecorderRef == old(mediaRecorderRef)
    {
      isSpeaking := false;
    }
  }
}
