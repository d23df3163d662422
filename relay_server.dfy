/** The per-connection relay of the server's `connection` handler. Each
    connection holds at most one adapter (`geminiClient`), created by
    `start_session`; `audio_data` and `interrupt` are forwarded to it when it
    exists; `end_session` and the socket's `close` end it and let go of it.
    A frame that cannot be read, or an exception escaping a case, is answered
    with one `error` message; a frame of an unknown type is ignored.

    The relay's decisions are modelled on client identities: the n-th adapter a
    connection constructs is client n, and `Call` records what the relay asks
    of which client. */
module RelayServer {
  import opened Protocol
  import opened Transport
  import GeminiClient

  /** A call the relay makes on one of the adapters it constructed. */
  datatype Call =
    | StartSessionCall(client: nat)
    | SendAudioCall(client: nat, audio: Audio)
    | InterruptCall(client: nat)
    | EndSessionCall(client: nat)

  /** The relay's state: the client held in `geminiClient`, if any, and how
      many clients the connection has constructed so far. */
  datatype Conn = Conn(held: Option<nat>, constructed: nat)

  /** One handler's effect: the new state, the calls on clients and the
      messages the relay itself sends (only from its `catch`). */
  datatype RelayStep = RelayStep(next: Conn, calls: seq<Call>, sent: seq<ServerMsg>)

  /** What reaches the connection: a frame (with the error, if any, that the
      adapter's constructor throws were it to be constructed), or `close`. */
  datatype RelayEvent = Message(frame: Frame<ClientMsg>, ctorError: Option<string>) | Close

  /** A new connection holds no client. */
  function NewConnection(): (c: Conn)
    ensures c.held.None? && c.constructed == 0
  {
    Conn(None, 0)
  }

  /** The `message` handler. Every frame leads to at most one call on a
      client or one error message, never both. */
  function Dispatch(c: Conn, frame: Frame<ClientMsg>, ctorError: Option<string>): (r: RelayStep)
    ensures |r.calls| + |r.sent| <= 1
    ensures c.constructed <= r.next.constructed <= c.constructed + 1
  {
    match frame
    case Malformed(reason) => RelayStep(c, [], [Error(reason)])
    case UnknownType(_) => RelayStep(c, [], [])
    case Parsed(msg) =>
      match msg
      case StartSession =>
        (match ctorError
         case Some(m) => RelayStep(c, [], [Error(m)])
         case None => RelayStep(Conn(Some(c.constructed), c.constructed + 1), [StartSessionCall(c.constructed)], []))
      case AudioData(audio) =>
        (match c.held
         case None => RelayStep(c, [], [])
         case Some(h) => RelayStep(c, [SendAudioCall(h, audio)], []))
      case Interrupt =>
        (match c.held
         case None => RelayStep(c, [], [])
         case Some(h) => RelayStep(c, [InterruptCall(h)], []))
      case EndSession =>
        (match c.held
         case None => RelayStep(c, [], [])
         case Some(h) => RelayStep(Conn(None, c.constructed), [EndSessionCall(h)], []))
  }

  /** The `close` handler: ends the held client, if any, and lets go of it. */
  function CloseStep(c: Conn): (r: RelayStep)
    ensures r.next.held.None? && r.next.constructed == c.constructed && r.sent == []
    ensures c.held.None? ==> r.calls == []
    ensures c.held.Some? ==> r.calls == [EndSessionCall(c.held.value)]
  {
    match c.held
    case None => RelayStep(c, [], [])
    case Some(h) => RelayStep(Conn(None, c.constructed), [EndSessionCall(h)], [])
  }

  function Apply(c: Conn, e: RelayEvent): RelayStep
  {
    match e
    case Message(frame, ctorError) => Dispatch(c, frame, ctorError)
    case Close => CloseStep(c)
  }

  /** The events of one connection, handled one at a time. */
  function Run(c: Conn, events: seq<RelayEvent>): RelayStep
    decreases |events|
  {
    if events == [] then RelayStep(c, [], [])
    else
      var first := Apply(c, events[0]);
      var rest := Run(first.next, events[1..]);
      RelayStep(rest.next, first.calls + rest.calls, first.sent + rest.sent)
  }

  // ---------------------------------------------------------------------
  // Properties of single messages

  /** `audio_data` and `interrupt` reach the held client, and only when one
      is held; without a client there is no call and no reply. */
  lemma ForwardsOnlyToHeldClient(c: Conn, audio: Audio, ctorError: Option<string>)
    ensures Dispatch(c, Parsed(AudioData(audio)), ctorError)
            == RelayStep(c, if c.held.Some? then [SendAudioCall(c.held.value, audio)] else [], [])
    ensures Dispatch(c, Parsed(Interrupt), ctorError)
            == RelayStep(c, if c.held.Some? then [InterruptCall(c.held.value)] else [], [])
  {
  }

  /** `end_session` ends the held client and lets go of it; a second
      `end_session` does nothing at all. */
  lemma EndSessionEndsOnce(c: Conn, e1: Option<string>, e2: Option<string>)
    ensures var r := Dispatch(c, Parsed(EndSession), e1);
            && r.next == Conn(None, c.constructed)
            && r.calls == (if c.held.Some? then [EndSessionCall(c.held.value)] else [])
            && Dispatch(r.next, Parsed(EndSession), e2) == RelayStep(r.next, [], [])
  {
  }

  /** A frame whose `type` matches no case changes nothing and sends nothing. */
  lemma UnknownTypeIsIgnored(c: Conn, tag: string, ctorError: Option<string>)
    ensures Dispatch(c, UnknownType(tag), ctorError) == RelayStep(c, [], [])
  {
  }

  /** A frame that cannot be read, or whose start throws in the adapter's
      constructor, is answered with exactly one `error` carrying the
      exception's message, and changes nothing else. */
  lemma ExceptionReportedOnce(c: Conn, reason: string, m: string, ctorError: Option<string>)
    ensures Dispatch(c, Malformed(reason), ctorError) == RelayStep(c, [], [Error(reason)])
    ensures Dispatch(c, Parsed(StartSession), Some(m)) == RelayStep(c, [], [Error(m)])
  {
  }

  /** `start_session` always constructs a new client and holds it instead of
      the previous one, which is not ended. */
  lemma StartReplacesWithoutEnding(c: Conn)
    ensures var r := Dispatch(c, Parsed(StartSession), None);
            && r.next == Conn(Some(c.constructed), c.constructed + 1)
            && r.calls == [StartSessionCall(c.constructed)]
            && r.sent == []
  {
  }

  // ---------------------------------------------------------------------
  // Teardown happens at most once per client

  /** No client is ended twice in `log`. */
  ghost predicate EndedAtMostOnce(log: seq<Call>)
  {
    forall i, j :: 0 <= i < j < |log| && log[i].EndSessionCall? && log[j].EndSessionCall? ==> log[i].client != log[j].client
  }

  /** What the relay's history guarantees about its state: every call went to
      a constructed client, no client was ended twice, and the held client has
      not been ended. */
  ghost predicate Consistent(c: Conn, log: seq<Call>)
  {
    && (forall i :: 0 <= i < |log| ==> log[i].client < c.constructed)
    && EndedAtMostOnce(log)
    && (c.held.Some? ==> c.held.value < c.constructed && EndSessionCall(c.held.value) !in log)
  }

  lemma ApplyKeepsConsistent(c: Conn, log: seq<Call>, e: RelayEvent)
    requires Consistent(c, log)
    ensures Consistent(Apply(c, e).next, log + Apply(c, e).calls)
  {
  }

  lemma {:induction false} RunKeepsConsistent(c: Conn, log: seq<Call>, events: seq<RelayEvent>)
    requires Consistent(c, log)
    ensures Consistent(Run(c, events).next, log + Run(c, events).calls)
    decreases |events|
  {
    if events != [] {
      var first := Apply(c, events[0]);
      ApplyKeepsConsistent(c, log, events[0]);
      RunKeepsConsistent(first.next, log + first.calls, events[1..]);
      assert log + Run(c, events).calls == (log + first.calls) + Run(first.next, events[1..]).calls;
    }
  }

  /** Whatever a connection receives, and whether the browser ends the session
      explicitly, disconnects, or both, no client is ended twice. */
  lemma EndsAtMostOnce(events: seq<RelayEvent>)
    ensures EndedAtMostOnce(Run(NewConnection(), events).calls)
  {
    RunKeepsConsistent(NewConnection(), [], events);
    assert [] + Run(NewConnection(), events).calls == Run(NewConnection(), events).calls;
  }

  /** A client that is still held when the socket closes has not been ended
      yet, and `close` ends it: over the connection's whole life it is ended
      exactly once. */
  lemma CloseEndsHeldClientOnce(events: seq<RelayEvent>)
    ensures var r := Run(NewConnection(), events);
            r.next.held.Some? ==>
              multiset(r.calls + CloseStep(r.next).calls)[EndSessionCall(r.next.held.value)] == 1
  {
    var r := Run(NewConnection(), events);
    RunKeepsConsistent(NewConnection(), [], events);
    assert [] + r.calls == r.calls;
    if r.next.held.Some? {
      var h := r.next.held.value;
      assert EndSessionCall(h) !in r.calls;
      assert multiset(r.calls)[EndSessionCall(h)] == 0;
      assert multiset(r.calls + CloseStep(r.next).calls) == multiset(r.calls) + multiset{EndSessionCall(h)};
    }
  }

  /** A client the connection no longer holds is never ended afterwards,
      whatever arrives: a client replaced by a second `start_session` leaks. */
  lemma {:induction false} ReleasedClientNeverEnded(c: Conn, k: nat, events: seq<RelayEvent>)
    requires k < c.constructed && c.held != Some(k)
    ensures EndSessionCall(k) !in Run(c, events).calls
    decreases |events|
  {
    if events != [] {
      var first := Apply(c, events[0]);
      assert EndSessionCall(k) !in first.calls;
      ReleasedClientNeverEnded(first.next, k, events[1..]);
    }
  }

  /** Two `start_session` frames and then a disconnect: the second client is
      ended by the disconnect, the first one never is. */
  lemma ReplacedClientLeaks()
    ensures var r := Run(NewConnection(), [Message(Parsed(StartSession), None), Message(Parsed(StartSession), None), Close]);
            && r.calls == [StartSessionCall(0), StartSessionCall(1), EndSessionCall(1)]
            && EndSessionCall(0) !in r.calls
  {
  }

  // ---------------------------------------------------------------------
  // Audio is forwarded in arrival order

  /** A frame that neither starts nor ends a session. */
  predicate KeepsClient(e: RelayEvent)
  {
    e.Message? && !(e.frame.Parsed? && (e.frame.msg.StartSession? || e.frame.msg.EndSession?))
  }

  /** The audio payloads of the `audio_data` frames among `events`, in order. */
  function AudioReceived(events: seq<RelayEvent>): seq<Audio>
    decreases |events|
  {
    if events == [] then []
    else
      var e := events[0];
      (if e.Message? && e.frame.Parsed? && e.frame.msg.AudioData? then [e.frame.msg.audioData] else [])
        + AudioReceived(events[1..])
  }

  /** The audio passed to `sendAudio` by `calls`, in order. */
  function AudioForwarded(calls: seq<Call>): seq<Audio>
    decreases |calls|
  {
    if calls == [] then []
    else (if calls[0].SendAudioCall? then [calls[0].audio] else []) + AudioForwarded(calls[1..])
  }

  /** While a client is held and no frame starts or ends a session, every
      call goes to that client, and the audio it receives is exactly the
      audio of the `audio_data` frames, in the order they arrived. */
  lemma {:induction false} ForwardsInOrder(c: Conn, events: seq<RelayEvent>)
    requires c.held.Some?
    requires forall i :: 0 <= i < |events| ==> KeepsClient(events[i])
    ensures Run(c, events).next == c
    ensures forall i :: 0 <= i < |Run(c, events).calls| ==> Run(c, events).calls[i].client == c.held.value
    ensures AudioForwarded(Run(c, events).calls) == AudioReceived(events)
    decreases |events|
  {
    if events != [] {
      var first := Apply(c, events[0]);
      var rest := Run(first.next, events[1..]);
      assert first.next == c;
      ForwardsInOrder(c, events[1..]);
      if first.calls != [] {
        assert (first.calls + rest.calls)[1..] == rest.calls;
      } else {
        assert first.calls + rest.calls == rest.calls;
      }
    }
  }

  // ---------------------------------------------------------------------
  // The connection, with real adapters

  /** What the environment decides for one message: whether the adapter's
      constructor throws, how the handshake of `startSession` ends, and
      whether `sendMessage` fails. */
  datatype Env = Env(ctorError: Option<string>, start: GeminiClient.StartOutcome, sendFails: bool)

  /** The adapter step a relay call performs on its client. */
  function ClientEffect(call: Call, prior: GeminiClient.Adapter, open: bool, env: Env): GeminiClient.Step
  {
    match call
    case StartSessionCall(_) => GeminiClient.StartStep(GeminiClient.Fresh(), open, env.start)
    case SendAudioCall(_, audio) => GeminiClient.SendAudioStep(prior, open, audio, env.sendFails)
    case InterruptCall(_) => GeminiClient.InterruptStep(prior)
    case EndSessionCall(_) => GeminiClient.EndStep(prior)
  }

  /** The closure of one `connection` callback: its socket and its own
      `geminiClient` variable. Nothing here is shared between connections.
      `clients` lists the adapters it constructed (client n is `clients[n]`),
      `held` the index of the one in `geminiClient`, `calls` what it asked
      of them. */
  class Connection {
    const ws: ServerSocket
    var geminiClient: GeminiClient.GeminiLiveClient?
    ghost var clients: seq<GeminiClient.GeminiLiveClient>
    ghost var held: Option<nat>
    ghost var calls: seq<Call>

    ghost predicate Valid()
      reads this, clients
    {
      && (held.None? <==> geminiClient == null)
      && (held.Some? ==> held.value < |clients| && clients[held.value] == geminiClient)
      && (forall i :: 0 <= i < |clients| ==> clients[i].ws == null || clients[i].ws == ws)
    }

    ghost function State(): Conn
      reads this
    {
      Conn(held, |clients|)
    }

    constructor (ws: ServerSocket)
      ensures Valid() && State() == NewConnection() && calls == []
      ensures this.ws == ws && geminiClient == null
    {
      this.ws := ws;
      geminiClient := null;
      clients := [];
      held := None;
      calls := [];
    }

    /** The `message` handler. Its decisions are those of `Dispatch`; the call
        it makes, if any, has the effect `ClientEffect` gives on that client. */
    method OnMessage(frame: Frame<ClientMsg>, env: Env)
      requires Valid()
      modifies this, ws, geminiClient
      ensures Valid() && old(clients) <= clients
      ensures var r := Dispatch(old(State()), frame, env.ctorError);
              State() == r.next && calls == old(calls) + r.calls
      ensures ws.readyState == old(ws.readyState)
      ensures var r := Dispatch(old(State()), frame, env.ctorError);
              r.calls == [] ==>
                && ws.sent == old(ws.sent) + r.sent
                && (old(geminiClient) != null ==>
                      old(geminiClient).State() == old(geminiClient.State())
                      && old(geminiClient).upstream == old(geminiClient.upstream))
      ensures var r := Dispatch(old(State()), frame, env.ctorError);
              r.calls != [] && r.calls[0].StartSessionCall? ==>
                var s := ClientEffect(r.calls[0], GeminiClient.Fresh(), old(ws.readyState) == OPEN, env);
                && fresh(geminiClient) && geminiClient == clients[r.calls[0].client]
                && geminiClient.State() == s.next && geminiClient.upstream == s.calls
                && ws.sent == old(ws.sent) + s.sent
      ensures var r := Dispatch(old(State()), frame, env.ctorError);
              r.calls != [] && r.calls[0].StartSessionCall? && old(geminiClient) != null ==>
                unchanged(old(geminiClient))
      ensures var r := Dispatch(old(State()), frame, env.ctorError);
              r.calls != [] && !r.calls[0].StartSessionCall? ==>
                var s := ClientEffect(r.calls[0], old(geminiClient.State()), old(ws.readyState) == OPEN, env);
                && old(geminiClient) == clients[r.calls[0].client]
                && old(geminiClient).State() == s.next
                && old(geminiClient).upstream == old(geminiClient.upstream) + s.calls
                && ws.sent == old(ws.sent) + s.sent
    {
      match frame
      case Malformed(reason) =>
        ws.Send(Error(reason));
      case UnknownType(_) =>
      case Parsed(msg) =>
        match msg
        case StartSession =>
          match env.ctorError {
            case Some(m) =>
              ws.Send(Error(m));
            case None =>
              var client := new GeminiClient.GeminiLiveClient();
              geminiClient := client;
              calls := calls + [StartSessionCall(|clients|)];
              held := Some(|clients|);
              clients := clients + [client];
              client.StartSession(ws, env.start);
          }
        case AudioData(audio) =>
          if geminiClient != null {
            calls := calls + [SendAudioCall(held.value, audio)];
            geminiClient.SendAudio(audio, env.sendFails);
          }
        case Interrupt =>
          if geminiClient != null {
            calls := calls + [InterruptCall(held.value)];
            geminiClient.Interrupt();
          }
        case EndSession =>
          if geminiClient != null {
            calls := calls + [EndSessionCall(held.value)];
            geminiClient.EndSession();
            geminiClient := null;
            held := None;
          }
    }

    /** The `close` handler. */
    method OnClose()
      requires Valid()
      modifies this, geminiClient
      ensures Valid() && clients == old(clients)
      ensures var r := CloseStep(old(State()));
              State() == r.next && calls == old(calls) + r.calls
      ensures old(geminiClient) != null ==>
                && old(geminiClient).State() == GeminiClient.EndStep(old(geminiClient.State())).next
                && old(geminiClient).upstream == old(geminiClient.upstream)
      ensures ws.sent == old(ws.sent) && geminiClient == null
    {
      if geminiClient != null {
        calls := calls + [EndSessionCall(held.value)];
        geminiClient.EndSession();
        geminiClient := null;
        held := None;
      }
    }
  }
}
