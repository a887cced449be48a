/**
 * The connection-lifecycle rules of `Client` in src/client/mod.rs, as pure
 * transitions over the client's observable state: the session fields, the
 * commands sent to the gateway, the current connection generation, the
 * live heartbeaters and the handler tasks spawned.  The class in module
 * `Client` is proved to follow these transitions; the lemmas below state
 * what the source promises about them.
 */
module ClientSpec {
  import opened Wrappers
  import opened Models

  /** A running heartbeater: the connection generation whose outbound channel it holds, and its interval. */
  datatype Heartbeater = Heartbeater(generation: nat, interval: nat)

  /**
   * What the gateway connection does when the client reconnects: whether
   * `close_channels` succeeds, the last sequence `reconnect` returns, and the
   * heartbeat interval of the new connection.  The gateway module is not
   * part of this model, so these are inputs.
   */
  datatype GatewayReconnect = GatewayReconnect(
    channelsClosed: bool,
    lastSequence: Option<u64>,
    heartbeatInterval: nat)

  /** One inbound event, with what the gateway would do should it lead to a reconnect. */
  datatype Tick = Tick(event: Event, gateway: GatewayReconnect)

  /** What stays fixed while `start` runs: the token, the configuration and the registered handlers. */
  datatype Setup = Setup(token: string, config: Config, handlers: set<Handler>)

  datatype State = State(
    sessionId: string,
    resumable: bool,
    outbound: seq<Command>,
    generation: nat,
    heartbeatInterval: nat,
    heartbeaters: seq<Heartbeater>,
    tasks: seq<Handler>)

  // ---------------------------------------------------------------------------
  // Token normalisation (Client::new)
  // ---------------------------------------------------------------------------

  predicate StartsWithBot(t: string)
  {
    |t| >= 4 && t[..4] == "Bot "
  }

  /** The token `Client::new` stores: prefixed with "Bot " unless it already is. */
  function NormalizeToken(t: string): (r: string)
    ensures StartsWithBot(r)
    ensures |r| >= |t| && r[|r| - |t|..] == t
  {
    if StartsWithBot(t) then t else "Bot " + t
  }

  /** A token is left unchanged exactly when it already starts with "Bot "; otherwise it gains exactly that prefix. */
  lemma NormalizeTokenFixedPoints(t: string)
    ensures NormalizeToken(t) == t <==> StartsWithBot(t)
    ensures !StartsWithBot(t) ==> NormalizeToken(t) == "Bot " + t
  {
  }

  lemma NormalizeTokenIdempotent(t: string)
    ensures NormalizeToken(NormalizeToken(t)) == NormalizeToken(t)
  {
  }

  // ---------------------------------------------------------------------------
  // Heartbeaters
  // ---------------------------------------------------------------------------

  /** Number of heartbeaters bound to generation `g`. */
  function Count(hs: seq<Heartbeater>, g: nat): nat
  {
    if hs == [] then 0 else (if hs[0].generation == g then 1 else 0) + Count(hs[1..], g)
  }

  /** The heartbeaters that keep running once the channels of generation `g` are closed. */
  function Unbind(hs: seq<Heartbeater>, g: nat): seq<Heartbeater>
  {
    if hs == [] then []
    else if hs[0].generation == g then Unbind(hs[1..], g)
    else [hs[0]] + Unbind(hs[1..], g)
  }

  predicate GenerationsBounded(s: State)
  {
    forall h :: h in s.heartbeaters ==> h.generation <= s.generation
  }

  /** Exactly one heartbeater holds the current connection's channel, and none holds a later one. */
  predicate CurrentHeartbeaterUnique(s: State)
  {
    GenerationsBounded(s) && Count(s.heartbeaters, s.generation) == 1
  }

  /** The only heartbeater running is bound to the current connection and uses its interval. */
  predicate OneHeartbeater(s: State)
  {
    s.heartbeaters == [Heartbeater(s.generation, s.heartbeatInterval)]
  }

  lemma {:induction false} CountAppend(hs: seq<Heartbeater>, h: Heartbeater, g: nat)
    ensures Count(hs + [h], g) == Count(hs, g) + (if h.generation == g then 1 else 0)
  {
    if hs != [] {
      assert (hs + [h])[1..] == hs[1..] + [h];
      CountAppend(hs[1..], h, g);
    }
  }

  lemma {:induction false} CountAbsent(hs: seq<Heartbeater>, g: nat)
    requires forall h :: h in hs ==> h.generation != g
    ensures Count(hs, g) == 0
  {
    if hs != [] {
      assert hs[0] in hs;
      assert forall h :: h in hs[1..] ==> h in hs;
      CountAbsent(hs[1..], g);
    }
  }

  /** Closing generation `g` stops all of its heartbeaters and no other. */
  lemma {:induction false} UnbindStopsOnlyGeneration(hs: seq<Heartbeater>, g: nat)
    ensures forall h :: h in Unbind(hs, g) <==> h in hs && h.generation != g
  {
    if hs != [] {
      UnbindStopsOnlyGeneration(hs[1..], g);
      assert hs == [hs[0]] + hs[1..];
    }
  }

  // ---------------------------------------------------------------------------
  // Transitions
  // ---------------------------------------------------------------------------

  /** The IDENTIFY command `clean_connect` builds from the token and the configuration. */
  function IdentifyFor(setup: Setup): Command
  {
    Identify(
      setup.token,
      setup.config.gatewayLargeThreshold,
      setup.config.gatewayGuildsSubscriptions,
      [setup.config.gatewayShardId, setup.config.gatewayNumShards])
  }

  /** `spawn_heartbeater`: one more heartbeater on the current channel. */
  function SpawnHeartbeater(s: State): State
  {
    s.(heartbeaters := s.heartbeaters + [Heartbeater(s.generation, s.heartbeatInterval)])
  }

  /** `clean_connect`: send IDENTIFY, then spawn a heartbeater. */
  function CleanConnect(setup: Setup, s: State): State
  {
    SpawnHeartbeater(s.(outbound := s.outbound + [IdentifyFor(setup)]))
  }

  /** `resume_connect`: send RESUME with the current session id, then spawn a heartbeater. */
  function ResumeConnect(setup: Setup, s: State, lastSequence: Option<u64>): State
  {
    SpawnHeartbeater(s.(outbound := s.outbound + [Resume(setup.token, s.sessionId, lastSequence)]))
  }

  /** `close_channels`: on success every heartbeater of the current generation stops. */
  function CloseChannels(s: State, closed: bool): State
  {
    if closed then s.(heartbeaters := Unbind(s.heartbeaters, s.generation)) else s
  }

  /** `gateway.reconnect()`: a new connection, with its own channels and heartbeat interval. */
  function ReopenGateway(s: State, gw: GatewayReconnect): State
  {
    s.(generation := s.generation + 1, heartbeatInterval := gw.heartbeatInterval)
  }

  /** `reconnect`: close, reopen, then RESUME if resumable, else IDENTIFY and allow resuming again. */
  function Reconnect(setup: Setup, s: State, gw: GatewayReconnect): State
  {
    var reopened := ReopenGateway(CloseChannels(s, gw.channelsClosed), gw);
    if reopened.resumable then ResumeConnect(setup, reopened, gw.lastSequence)
    else CleanConnect(setup, reopened).(resumable := true)
  }

  /** `handle_event!`: spawn the handler's task if one is registered. */
  function RunHandler(setup: Setup, s: State, h: Handler): State
  {
    if h in setup.handlers then s.(tasks := s.tasks + [h]) else s
  }

  /** The `Event::Dispatch` arm of `start`. */
  function RouteDispatch(setup: Setup, s: State, d: DispatchEvent): State
  {
    match d
    case Ready(id) => RunHandler(setup, s.(sessionId := id), OnReady)
    case Routed(k) => RunHandler(setup, s, On(k))
    case Unrouted => s
  }

  /** One turn of the loop of `start`; a present error is the one `start` returns. */
  function Step(setup: Setup, s: State, t: Tick): (State, Option<DiscordError>)
  {
    match t.event
    case Dispatch(d) => (RouteDispatch(setup, s, d), None)
    case ReconnectRequested => (s, None)
    case InvalidSession(b) => (s.(resumable := b), None)
    case HeartbeatAck => (s, None)
    case Close(e) =>
      if e == AuthenticationFailed then (s, Some(e)) else (Reconnect(setup, s, t.gateway), None)
    case Hello(_) => (s, None)
  }

  /** The loop of `start` over a finite stream of events; no error means the stream ran out. */
  function Run(setup: Setup, s: State, ticks: seq<Tick>): (State, Option<DiscordError>)
    decreases |ticks|
  {
    if ticks == [] then (s, None)
    else
      var r := Step(setup, s, ticks[0]);
      if r.1.Some? then r else Run(setup, r.0, ticks[1..])
  }

  /** `start`: IDENTIFY and a heartbeater, then the loop. */
  function Start(setup: Setup, s: State, ticks: seq<Tick>): (State, Option<DiscordError>)
  {
    Run(setup, CleanConnect(setup, s), ticks)
  }

  // ---------------------------------------------------------------------------
  // Properties of the loop
  // ---------------------------------------------------------------------------

  /** A Ready dispatch records its session id whether or not a handler is registered; its task is spawned only if one is. */
  lemma ReadyRecordsSessionId(setup: Setup, s: State, id: string, gw: GatewayReconnect)
    ensures var r := Step(setup, s, Tick(Dispatch(Ready(id)), gw));
      && r.1 == None
      && r.0.sessionId == id
      && r.0.tasks == s.tasks + (if OnReady in setup.handlers then [OnReady] else [])
      && r.0 == s.(sessionId := id, tasks := r.0.tasks)
  {
  }

  /** Any other routed dispatch spawns its handler's task exactly when one is registered, and changes nothing else. */
  lemma RoutedDispatchOnlySpawns(setup: Setup, s: State, k: EventKind, gw: GatewayReconnect)
    ensures var r := Step(setup, s, Tick(Dispatch(Routed(k)), gw));
      && r.1 == None
      && r.0 == s.(tasks := s.tasks + (if On(k) in setup.handlers then [On(k)] else []))
  {
  }

  /** `InvalidSession(b)` stores `b` and changes nothing else: no command, same session id. */
  lemma InvalidSessionOnlySetsFlag(setup: Setup, s: State, b: bool, gw: GatewayReconnect)
    ensures Step(setup, s, Tick(InvalidSession(b), gw)) == (s.(resumable := b), None)
  {
  }

  /** Reconnect requests, heartbeat acknowledgements, Hello and unrouted dispatches are only logged. */
  lemma LoggedEventsChangeNothing(setup: Setup, s: State, t: Tick)
    requires t.event.ReconnectRequested? || t.event.HeartbeatAck? || t.event.Hello?
          || t.event == Dispatch(Unrouted)
    ensures Step(setup, s, t) == (s, None)
  {
  }

  /** An authentication failure ends `start` with that error, before any reconnect or command. */
  lemma AuthenticationFailureIsFatal(setup: Setup, s: State, gw: GatewayReconnect, rest: seq<Tick>)
    ensures Run(setup, s, [Tick(Close(AuthenticationFailed), gw)] + rest) == (s, Some(AuthenticationFailed))
  {
    assert ([Tick(Close(AuthenticationFailed), gw)] + rest)[0] == Tick(Close(AuthenticationFailed), gw);
  }

  /** `start` can only fail with `AuthenticationFailed`: every other close is absorbed by a reconnect. */
  lemma {:induction false} RunFailsOnlyOnAuthentication(setup: Setup, s: State, ticks: seq<Tick>)
    ensures Run(setup, s, ticks).1 == None || Run(setup, s, ticks).1 == Some(AuthenticationFailed)
    decreases |ticks|
  {
    if ticks != [] {
      var r := Step(setup, s, ticks[0]);
      if r.1.None? {
        RunFailsOnlyOnAuthentication(setup, r.0, ticks[1..]);
      }
    }
  }

  /** Commands are only ever appended: what was sent stays sent, in order. */
  lemma {:induction false} RunExtendsOutbound(setup: Setup, s: State, ticks: seq<Tick>)
    ensures s.outbound <= Run(setup, s, ticks).0.outbound
    decreases |ticks|
  {
    if ticks != [] {
      var r := Step(setup, s, ticks[0]);
      assert s.outbound <= r.0.outbound;
      if r.1.None? {
        RunExtendsOutbound(setup, r.0, ticks[1..]);
      }
    }
  }

  /** From an idle client, `start` sends IDENTIFY with shard [id, count] first, and leaves exactly one heartbeater running. */
  lemma StartSendsIdentifyFirst(setup: Setup, s: State, ticks: seq<Tick>)
    requires s.outbound == [] && s.heartbeaters == []
    ensures var connected := CleanConnect(setup, s);
      && connected.outbound == [Identify(setup.token, setup.config.gatewayLargeThreshold,
                                         setup.config.gatewayGuildsSubscriptions,
                                         [setup.config.gatewayShardId, setup.config.gatewayNumShards])]
      && OneHeartbeater(connected)
    ensures var r := Start(setup, s, ticks).0;
      |r.outbound| > 0 && r.outbound[0] == IdentifyFor(setup)
  {
    RunExtendsOutbound(setup, CleanConnect(setup, s), ticks);
  }

  /** A recoverable close of a resumable session sends exactly one RESUME with the token, the session id and the gateway's last sequence. */
  lemma RecoverableCloseResumes(setup: Setup, s: State, e: DiscordError, gw: GatewayReconnect)
    requires e != AuthenticationFailed && s.resumable
    ensures var r := Step(setup, s, Tick(Close(e), gw));
      && r.1 == None
      && r.0.outbound == s.outbound + [Resume(setup.token, s.sessionId, gw.lastSequence)]
      && r.0.resumable
      && r.0.sessionId == s.sessionId
      && r.0.generation == s.generation + 1
  {
  }

  /** A recoverable close of a session that may not be resumed sends exactly one IDENTIFY, and resuming is allowed again. */
  lemma RecoverableCloseReidentifies(setup: Setup, s: State, e: DiscordError, gw: GatewayReconnect)
    requires e != AuthenticationFailed && !s.resumable
    ensures var r := Step(setup, s, Tick(Close(e), gw));
      && r.1 == None
      && r.0.outbound == s.outbound + [IdentifyFor(setup)]
      && r.0.resumable
      && r.0.sessionId == s.sessionId
      && r.0.generation == s.generation + 1
  {
  }

  /** After every reconnect exactly one heartbeater holds the new connection's channel, whether or not closing the old one succeeded. */
  lemma ReconnectBindsOneHeartbeater(setup: Setup, s: State, gw: GatewayReconnect)
    requires GenerationsBounded(s)
    ensures CurrentHeartbeaterUnique(Reconnect(setup, s, gw))
  {
    var closed := CloseChannels(s, gw.channelsClosed);
    if gw.channelsClosed {
      UnbindStopsOnlyGeneration(s.heartbeaters, s.generation);
    }
    assert forall h :: h in closed.heartbeaters ==> h in s.heartbeaters;
    var reopened := ReopenGateway(closed, gw);
    CountAbsent(closed.heartbeaters, reopened.generation);
    CountAppend(closed.heartbeaters, Heartbeater(reopened.generation, reopened.heartbeatInterval), reopened.generation);
  }

  /** When closing succeeds, a client running one heartbeater still runs exactly one, bound to the new connection. */
  lemma ReconnectKeepsOneHeartbeater(setup: Setup, s: State, gw: GatewayReconnect)
    requires OneHeartbeater(s) && gw.channelsClosed
    ensures OneHeartbeater(Reconnect(setup, s, gw))
  {
    assert Unbind(s.heartbeaters, s.generation) == [];
  }

  /** When closing fails, the old heartbeater keeps running beside the new one. */
  lemma ReconnectLeaksWhenCloseFails(setup: Setup, s: State, gw: GatewayReconnect)
    requires OneHeartbeater(s) && !gw.channelsClosed
    ensures var r := Reconnect(setup, s, gw);
      && |r.heartbeaters| == 2
      && r.heartbeaters[0] == s.heartbeaters[0]
      && r.heartbeaters[1] == Heartbeater(r.generation, gw.heartbeatInterval)
  {
  }

  /** Every turn of the loop keeps exactly one heartbeater on the current connection. */
  lemma StepKeepsCurrentHeartbeaterUnique(setup: Setup, s: State, t: Tick)
    requires CurrentHeartbeaterUnique(s)
    ensures CurrentHeartbeaterUnique(Step(setup, s, t).0)
  {
    if t.event.Close? && t.event.reason != AuthenticationFailed {
      ReconnectBindsOneHeartbeater(setup, s, t.gateway);
    }
  }

  lemma {:induction false} RunKeepsCurrentHeartbeaterUnique(setup: Setup, s: State, ticks: seq<Tick>)
    requires CurrentHeartbeaterUnique(s)
    ensures CurrentHeartbeaterUnique(Run(setup, s, ticks).0)
    decreases |ticks|
  {
    if ticks != [] {
      StepKeepsCurrentHeartbeaterUnique(setup, s, ticks[0]);
      var r := Step(setup, s, ticks[0]);
      if r.1.None? {
        RunKeepsCurrentHeartbeaterUnique(setup, r.0, ticks[1..]);
      }
    }
  }

  /** After `start` from a fresh client, exactly one heartbeater holds the current connection's channel, whatever the stream. */
  lemma StartKeepsOneCurrentHeartbeater(setup: Setup, s: State, ticks: seq<Tick>)
    requires s.outbound == [] && s.heartbeaters == []
    ensures CurrentHeartbeaterUnique(Start(setup, s, ticks).0)
  {
    StartSendsIdentifyFirst(setup, s, ticks);
    var connected := CleanConnect(setup, s);
    assert Count(connected.heartbeaters, connected.generation) == 1;
    RunKeepsCurrentHeartbeaterUnique(setup, connected, ticks);
  }

  /** Every reconnect of the stream closes its channels successfully. */
  predicate ClosesSucceed(ticks: seq<Tick>)
  {
    forall i :: 0 <= i < |ticks| ==> ticks[i].gateway.channelsClosed
  }

  /** After any number of reconnects whose channels close, exactly one heartbeater runs: none duplicated, none leaked. */
  lemma {:induction false} RunKeepsOneHeartbeater(setup: Setup, s: State, ticks: seq<Tick>)
    requires OneHeartbeater(s) && ClosesSucceed(ticks)
    ensures OneHeartbeater(Run(setup, s, ticks).0)
    decreases |ticks|
  {
    if ticks != [] {
      var t := ticks[0];
      if t.event.Close? && t.event.reason != AuthenticationFailed {
        ReconnectKeepsOneHeartbeater(setup, s, t.gateway);
      }
      var r := Step(setup, s, t);
      if r.1.None? {
        assert forall i :: 0 <= i < |ticks[1..]| ==> ticks[1..][i] == ticks[i + 1];
        RunKeepsOneHeartbeater(setup, r.0, ticks[1..]);
      }
    }
  }

  /** Events carrying no revocation. */
  predicate NoRevocation(ticks: seq<Tick>)
  {
    forall i :: 0 <= i < |ticks| ==> ticks[i].event != InvalidSession(false)
  }

  /** A resumable session stays resumable until the gateway revokes it with `InvalidSession(false)`. */
  lemma {:induction false} ResumableUntilRevoked(setup: Setup, s: State, ticks: seq<Tick>)
    requires s.resumable && NoRevocation(ticks)
    ensures Run(setup, s, ticks).0.resumable
    decreases |ticks|
  {
    if ticks != [] {
      var r := Step(setup, s, ticks[0]);
      assert r.0.resumable;
      if r.1.None? {
        assert forall i :: 0 <= i < |ticks[1..]| ==> ticks[1..][i] == ticks[i + 1];
        ResumableUntilRevoked(setup, r.0, ticks[1..]);
      }
    }
  }

  /** A revocation followed by a close makes the client IDENTIFY, never RESUME, and then allow resuming again. */
  lemma RevocationThenCloseIdentifies(setup: Setup, s: State, e: DiscordError, gw1: GatewayReconnect, gw2: GatewayReconnect)
    requires e != AuthenticationFailed
    ensures var r := Run(setup, s, [Tick(InvalidSession(false), gw1), Tick(Close(e), gw2)]);
      && r.1 == None
      && r.0.outbound == s.outbound + [IdentifyFor(setup)]
      && r.0.resumable
  {
    var ticks := [Tick(InvalidSession(false), gw1), Tick(Close(e), gw2)];
    var revoked := s.(resumable := false);
    assert Step(setup, s, ticks[0]) == (revoked, None);
    assert ticks[1..] == [Tick(Close(e), gw2)];
    RecoverableCloseReidentifies(setup, revoked, e, gw2);
    var closed := Step(setup, revoked, ticks[1]);
    assert Run(setup, revoked, ticks[1..]) == Run(setup, closed.0, []);
  }
}
