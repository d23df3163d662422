/** The upstream session adapter (`GeminiLiveClient`): it owns at most one SDK
    chat session and at most one reference to the browser's socket, forwards
    audio and interrupts to the chat, and relays the chat's `response` and
    `error` events to the socket. Every send to the socket is guarded by
    "socket present and readyState === 1"; every call into the chat is guarded
    by the presence of the corresponding optional SDK method.

    The SDK is opaque: a chat is a record of which optional methods it has,
    and whether a call succeeds is a parameter. */
module GeminiClient {
  import opened Protocol
  import opened Transport

  /** An SDK chat session, as the adapter sees it: an identity (so that events
      can be traced back to the session that emitted them) and the presence of
      its optional methods `on`, `sendMessage` and `interrupt`. */
  datatype Chat = Chat(id: nat, hasOn: bool, hasSendMessage: bool, hasInterrupt: bool)

  /** How the handshake of `startSession` ends: `getGenerativeModel` and
      `startChat` return a chat, or one of them throws. */
  datatype StartOutcome = Started(chat: Chat) | HandshakeFailed

  /** A call the adapter makes into an SDK chat. */
  datatype UpstreamCall = SendMessage(chat: nat, audio: Audio) | InterruptChat(chat: nat)

  /** The payload of an SDK `response` event. */
  datatype UpstreamResponse = UpstreamResponse(audioData: Option<Audio>, text: Option<string>)

  /** The adapter's state: the `liveSession` field, whether the `ws` field
      holds a socket, and the chats on which the two listeners are registered
      (a listener stays registered on its chat after the adapter lets go of it). */
  datatype Adapter = Adapter(liveSession: Option<Chat>, bound: bool, listening: set<nat>)

  /** One handler's effect: the new state, the messages sent to the socket and
      the calls made into the SDK, in order. */
  datatype Step = Step(next: Adapter, sent: seq<ServerMsg>, calls: seq<UpstreamCall>)

  /** The state the constructor leaves: no session, no socket, no listener. */
  function Fresh(): (a: Adapter)
    ensures a.liveSession.None? && !a.bound && a.listening == {}
  {
    Adapter(None, false, {})
  }

  /** `startSession(ws)`: binds the socket first, then either stores the new
      chat (registering both listeners when it has `on`) and reports
      `session_started`, or reports the start failure; `open` is whether the
      socket's readyState is 1. At most one message is sent, and only on an
      open socket. */
  function StartStep(a: Adapter, open: bool, outcome: StartOutcome): (r: Step)
    ensures r.next.bound && r.calls == []
    ensures |r.sent| == (if open then 1 else 0)
    ensures r.sent == [SessionStarted] <==> open && outcome.Started?
    ensures r.sent == [Error(FailedToStart)] <==> open && outcome.HandshakeFailed?
    ensures outcome.Started? ==> r.next.liveSession == Some(outcome.chat)
    ensures outcome.HandshakeFailed? ==> r.next.liveSession == a.liveSession
    ensures r.next.listening == if outcome.Started? && outcome.chat.hasOn then a.listening + {outcome.chat.id} else a.listening
  {
    match outcome
    case HandshakeFailed =>
      Step(a.(bound := true), if open then [Error(FailedToStart)] else [], [])
    case Started(chat) =>
      var listening := if chat.hasOn then a.listening + {chat.id} else a.listening;
      Step(Adapter(Some(chat), true, listening), if open then [SessionStarted] else [], [])
  }

  /** `sendAudio(audioData)`: forwards the audio to the chat when there is one
      and it has `sendMessage`; a failed `sendMessage` is reported as exactly
      one 'Failed to process audio' error, if the socket is bound and open. */
  function SendAudioStep(a: Adapter, open: bool, audio: Audio, fails: bool): (r: Step)
    ensures r.next == a
    ensures r.calls != [] <==> a.liveSession.Some? && a.liveSession.value.hasSendMessage
    ensures r.calls != [] ==> r.calls == [SendMessage(a.liveSession.value.id, audio)]
    ensures r.sent != [] <==> r.calls != [] && fails && a.bound && open
    ensures r.sent != [] ==> r.sent == [Error(FailedToProcess)]
  {
    match a.liveSession
    case None => Step(a, [], [])
    case Some(chat) =>
      if chat.hasSendMessage then
        Step(a, if fails && a.bound && open then [Error(FailedToProcess)] else [], [SendMessage(chat.id, audio)])
      else Step(a, [], [])
  }

  /** `interrupt()`: interrupts the chat when there is one and it has
      `interrupt`; a failure is swallowed, so nothing is ever sent. */
  function InterruptStep(a: Adapter): (r: Step)
    ensures r.next == a && r.sent == []
    ensures r.calls != [] <==> a.liveSession.Some? && a.liveSession.value.hasInterrupt
    ensures r.calls != [] ==> r.calls == [InterruptChat(a.liveSession.value.id)]
  {
    match a.liveSession
    case None => Step(a, [], [])
    case Some(chat) => if chat.hasInterrupt then Step(a, [], [InterruptChat(chat.id)]) else Step(a, [], [])
  }

  /** `endSession()`: drops the chat and the socket; it never sends, never
      calls the SDK, and cannot fail. The listeners stay on their chats. */
  function EndStep(a: Adapter): (r: Step)
    ensures r.next.liveSession.None? && !r.next.bound && r.next.listening == a.listening
    ensures r.sent == [] && r.calls == []
  {
    Step(Adapter(None, false, a.listening), [], [])
  }

  /** The `response` listener of chat `from`: one `audio_response` carrying the
      response's audio and its text (or ''), if a listener is registered on
      that chat and the socket is bound and open. */
  function ResponseStep(a: Adapter, open: bool, from: nat, response: UpstreamResponse): (r: Step)
    ensures r.next == a && r.calls == [] && |r.sent| <= 1
    ensures r.sent != [] <==> from in a.listening && a.bound && open
    ensures r.sent != [] ==> r.sent[0] == AudioResponse(response.audioData, TextOrEmpty(response.text))
  {
    if from in a.listening && a.bound && open
    then Step(a, [AudioResponse(response.audioData, TextOrEmpty(response.text))], [])
    else Step(a, [], [])
  }

  /** The `error` listener of chat `from`: one `error` carrying the event's
      message, under the same guard as the `response` listener. */
  function ErrorEventStep(a: Adapter, open: bool, from: nat, message: string): (r: Step)
    ensures r.next == a && r.calls == [] && |r.sent| <= 1
    ensures r.sent != [] <==> from in a.listening && a.bound && open
    ensures r.sent != [] ==> r.sent[0] == Error(message)
  {
    if from in a.listening && a.bound && open then Step(a, [Error(message)], []) else Step(a, [], [])
  }

  /** Everything that can happen to one adapter, with the environment's
      contribution (socket open or not, SDK outcome) carried by the event. */
  datatype AdapterEvent =
    | StartEv(open: bool, outcome: StartOutcome)
    | SendAudioEv(open: bool, audio: Audio, fails: bool)
    | InterruptEv
    | EndEv
    | ResponseEv(open: bool, from: nat, response: UpstreamResponse)
    | ErrorEv(open: bool, from: nat, message: string)

  function Apply(a: Adapter, e: AdapterEvent): Step
  {
    match e
    case StartEv(open, outcome) => StartStep(a, open, outcome)
    case SendAudioEv(open, audio, fails) => SendAudioStep(a, open, audio, fails)
    case InterruptEv => InterruptStep(a)
    case EndEv => EndStep(a)
    case ResponseEv(open, from, response) => ResponseStep(a, open, from, response)
    case ErrorEv(open, from, message) => ErrorEventStep(a, open, from, message)
  }

  /** The events in order, one handler at a time. */
  function Run(a: Adapter, events: seq<AdapterEvent>): Step
    decreases |events|
  {
    if events == [] then Step(a, [], [])
    else
      var first := Apply(a, events[0]);
      var rest := Run(first.next, events[1..]);
      Step(rest.next, first.sent + rest.sent, first.calls + rest.calls)
  }

  /** Whether the event happens while the socket reads as open. */
  predicate OpenAt(e: AdapterEvent)
  {
    match e
    case StartEv(open, _) => open
    case SendAudioEv(open, _, _) => open
    case ResponseEv(open, _, _) => open
    case ErrorEv(open, _, _) => open
    case _ => false
  }

  /** A freshly constructed adapter is inert: `sendAudio`, `interrupt` and
      upstream events make no SDK call and send nothing. */
  lemma FreshIsInert(e: AdapterEvent)
    requires !e.StartEv?
    ensures Apply(Fresh(), e) == Step(Fresh(), [], [])
  {
  }

  /** `endSession` is idempotent: a second call changes nothing. */
  lemma EndIsIdempotent(a: Adapter)
    ensures Apply(EndStep(a).next, EndEv) == Step(EndStep(a).next, [], [])
  {
  }

  /** After `endSession`, and until a new `startSession`, the adapter is
      silent: nothing reaches the socket and nothing reaches the SDK, whatever
      the socket's state and whatever the SDK emits. */
  lemma {:induction false} EndedIsSilent(a: Adapter, events: seq<AdapterEvent>)
    requires forall i :: 0 <= i < |events| ==> !events[i].StartEv?
    ensures Run(EndStep(a).next, events).sent == []
    ensures Run(EndStep(a).next, events).calls == []
  {
    SilentStaysSilent(EndStep(a).next, events);
  }

  lemma {:induction false} SilentStaysSilent(a: Adapter, events: seq<AdapterEvent>)
    requires a.liveSession.None? && !a.bound
    requires forall i :: 0 <= i < |events| ==> !events[i].StartEv?
    ensures Run(a, events) == Step(a, [], [])
  {
    if events != [] {
      assert Apply(a, events[0]) == Step(a, [], []);
      SilentStaysSilent(a, events[1..]);
    }
  }

  /** Every message the adapter sends is sent while the socket reads as open:
      if no event finds the socket open, nothing is sent at all. */
  lemma {:induction false} ClosedSocketGetsNothing(a: Adapter, events: seq<AdapterEvent>)
    requires forall i :: 0 <= i < |events| ==> !OpenAt(events[i])
    ensures Run(a, events).sent == []
    decreases |events|
  {
    if events != [] {
      assert Apply(a, events[0]).sent == [];
      ClosedSocketGetsNothing(Apply(a, events[0]).next, events[1..]);
    }
  }

  /** Only the handlers of messages that arrived on an open socket send: a
      sent message always comes from an event that found the socket open and
      the adapter bound to it. */
  lemma SendsNeedOpenBoundSocket(a: Adapter, e: AdapterEvent)
    ensures Apply(a, e).sent != [] ==> OpenAt(e) && Apply(a, e).next.bound
  {
  }

  /** The adapter of one connection. The ghost `upstream` records the calls
      made into the SDK, in order; the source keeps no such log. */
  class GeminiLiveClient {
    var liveSession: Option<Chat>
    var ws: ServerSocket?
    var listening: set<nat>
    ghost var upstream: seq<UpstreamCall>

    function State(): Adapter
      reads this
    {
      Adapter(liveSession, ws != null, listening)
    }

    /** The guard of every send: `this.ws && this.ws.readyState === 1`. */
    predicate SocketOpen()
      reads this, ws
    {
      ws != null && ws.readyState == OPEN
    }

    constructor ()
      ensures State() == Fresh() && ws == null && upstream == []
    {
      liveSession := None;
      ws := null;
      listening := {};
      upstream := [];
    }

    method StartSession(sock: ServerSocket, outcome: StartOutcome)
      modifies this, sock
      ensures ws == sock && sock.readyState == old(sock.readyState)
      ensures var s := StartStep(old(State()), old(sock.readyState) == OPEN, outcome);
              State() == s.next && sock.sent == old(sock.sent) + s.sent && upstream == old(upstream) + s.calls
    {
      ws := sock;
      match outcome
      case HandshakeFailed =>
        if ws.readyState == OPEN {
          ws.Send(Error(FailedToStart));
        }
      case Started(chat) =>
        liveSession := Some(chat);
        if chat.hasOn {
          listening := listening + {chat.id};
        }
        if ws.readyState == OPEN {
          ws.Send(SessionStarted);
        }
    }

    method SendAudio(audio: Audio, fails: bool)
      modifies this, ws
      ensures ws == old(ws) && (ws != null ==> ws.readyState == old(ws.readyState))
      ensures var s := SendAudioStep(old(State()), old(SocketOpen()), audio, fails);
              && State() == s.next && upstream == old(upstream) + s.calls
              && (ws != null ==> ws.sent == old(ws.sent) + s.sent)
              && (ws == null ==> s.sent == [])
    {
      if liveSession.Some? && liveSession.value.hasSendMessage {
        upstream := upstream + [SendMessage(liveSession.value.id, audio)];
        if fails && ws != null && ws.readyState == OPEN {
          ws.Send(Error(FailedToProcess));
        }
      }
    }

    method Interrupt()
      modifies this
      ensures ws == old(ws)
      ensures var s := InterruptStep(old(State()));
              State() == s.next && upstream == old(upstream) + s.calls
    {
      if liveSession.Some? && liveSession.value.hasInterrupt {
        upstream := upstream + [InterruptChat(liveSession.value.id)];
      }
    }

    method EndSession()
      modifies this
      ensures State() == EndStep(old(State())).next && ws == null && upstream == old(upstream)
    {
      if liveSession.Some? {
        liveSession := None;
      }
      ws := null;
    }

    /** An SDK `response` event emitted by chat `from`. */
    method OnResponse(from: nat, response: UpstreamResponse)
      modifies ws
      ensures ws != null ==> ws.readyState == old(ws.readyState)
      ensures var s := ResponseStep(State(), old(SocketOpen()), from, response);
              && (ws != null ==> ws.sent == old(ws.sent) + s.sent)
              && (ws == null ==> s.sent == [])
    {
      if from in listening && ws != null && ws.readyState == OPEN {
        ws.Send(AudioResponse(response.audioData, TextOrEmpty(response.text)));
      }
    }

    /** An SDK `error` event emitted by chat `from`. */
    method OnUpstreamError(from: nat, message: string)
      modifies ws
      ensures ws != null ==> ws.readyState == old(ws.readyState)
      ensures var s := ErrorEventStep(State(), old(SocketOpen()), from, message);
              && (ws != null ==> ws.sent == old(ws.sent) + s.sent)
              && (ws == null ==> s.sent == [])
    {
      if from in listening && ws != null && ws.readyState == OPEN {
        ws.Send(Error(message));
      }
    }
  }
}
