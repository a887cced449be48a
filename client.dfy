/**
 * `Client` of src/client/mod.rs: the coordinator that sends IDENTIFY or
 * RESUME, supervises heartbeaters across reconnects, records the session
 * id and the resumable flag in the shared `Session`, and spawns handler
 * tasks for dispatched events.  Every method is proved to follow the
 * transition of the same name in `ClientSpec`.
 */
module Client {
  import opened Wrappers
  import opened Models
  import ClientSpec
  import Session

  class Client {
    const token: string
    const config: Config
    /** Shared with handler tasks in the source (an `Arc<Session>`). */
    const session: Session.Session
    /** Which handler slots are filled. */
    var handlers: set<Handler>
    /** The gateway connection: its generation counts reconnects; each has its own interval. */
    var generation: nat
    var heartbeatInterval: nat
    /** Every command sent on the gateway's outbound channels, in order. */
    var outbound: seq<Command>
    /** The heartbeaters still running. */
    var heartbeaters: seq<ClientSpec.Heartbeater>
    /** The handler tasks spawned, in order. */
    var tasks: seq<Handler>

    function Setup(): ClientSpec.Setup
      reads this
    {
      ClientSpec.Setup(token, config, handlers)
    }

    function State(): ClientSpec.State
      reads this, session
    {
      ClientSpec.State(session.id, session.resumable, outbound, generation, heartbeatInterval, heartbeaters, tasks)
    }

    /**
     * `Client::new` once the gateway connection is open: the token gains the
     * "Bot " prefix unless it has it, and the session starts empty and resumable.
     */
    constructor (rawToken: string, config: Config, heartbeatInterval: nat)
      ensures token == ClientSpec.NormalizeToken(rawToken) && this.config == config
      ensures fresh(session) && session.httpToken == token
      ensures handlers == {}
      ensures State() == ClientSpec.State("", true, [], 0, heartbeatInterval, [], [])
    {
      var t := rawToken;
      if !(|t| >= 4 && t[..4] == "Bot ") {
        t := "Bot " + t;
      }
      token := t;
      this.config := config;
      session := new Session.Session(t);
      handlers := {};
      generation := 0;
      this.heartbeatInterval := heartbeatInterval;
      outbound := [];
      heartbeaters := [];
      tasks := [];
    }

    /**
     * `Client::new`: `connect` is the outcome of `GatewayConnection::new`
     * (its heartbeat interval, or its error, which is passed on).
     */
    static method New(rawToken: string, config: Config, connect: Result<nat, DiscordError>)
      returns (r: Result<Client, DiscordError>)
      ensures connect.Err? ==> r == Err(connect.error)
      ensures connect.Ok? ==>
        && r.Ok? && fresh(r.value) && fresh(r.value.session)
        && r.value.token == ClientSpec.NormalizeToken(rawToken)
        && r.value.session.httpToken == r.value.token
        && r.value.config == config
        && r.value.handlers == {}
        && r.value.State() == ClientSpec.State("", true, [], 0, connect.value, [], [])
    {
      if connect.Err? {
        return Err(connect.error);
      }
      var c := new Client(rawToken, config, connect.value);
      r := Ok(c);
    }

    /** The `on_*` registration methods: fill one handler slot. */
    method Register(h: Handler)
      modifies this`handlers
      ensures handlers == old(handlers) + {h}
    {
      handlers := handlers + {h};
    }

    /** `spawn_heartbeater`: a heartbeater bound to the current channel and interval. */
    method SpawnHeartbeater()
      modifies this`heartbeaters
      ensures State() == ClientSpec.SpawnHeartbeater(old(State()))
    {
      heartbeaters := heartbeaters + [ClientSpec.Heartbeater(generation, heartbeatInterval)];
    }

    /** `clean_connect`: IDENTIFY with the configured shard, then a heartbeater. */
    method CleanConnect()
      modifies this`outbound, this`heartbeaters
      ensures State() == ClientSpec.CleanConnect(Setup(), old(State()))
    {
      var shard := [config.gatewayShardId, config.gatewayNumShards];
      var identify := Identify(token, config.gatewayLargeThreshold, config.gatewayGuildsSubscriptions, shard);
      outbound := outbound + [identify];
      SpawnHeartbeater();
    }

    /** `resume_connect`: RESUME with the token, the stored session id and the given sequence, then a heartbeater. */
    method ResumeConnect(lastSequence: Option<u64>)
      modifies this`outbound, this`heartbeaters
      ensures State() == ClientSpec.ResumeConnect(Setup(), old(State()), lastSequence)
    {
      var sessionId := session.Id();
      outbound := outbound + [Resume(token, sessionId, lastSequence)];
      SpawnHeartbeater();
    }

    /** `gateway.close_channels()`: when it succeeds, the current generation's heartbeaters stop. */
    method CloseChannels(succeeds: bool)
      modifies this`heartbeaters
      ensures State() == ClientSpec.CloseChannels(old(State()), succeeds)
    {
      if succeeds {
        heartbeaters := ClientSpec.Unbind(heartbeaters, generation);
      }
    }

    /** `gateway.reconnect()`: a new connection, and the last sequence the old one saw. */
    method ReopenGateway(gw: ClientSpec.GatewayReconnect) returns (lastSequence: Option<u64>)
      modifies this`generation, this`heartbeatInterval
      ensures State() == ClientSpec.ReopenGateway(old(State()), gw)
      ensures lastSequence == gw.lastSequence
    {
      generation := generation + 1;
      heartbeatInterval := gw.heartbeatInterval;
      lastSequence := gw.lastSequence;
    }

    /** `reconnect`: close, reopen, then RESUME if resumable, else IDENTIFY and set resumable again. */
    method Reconnect(gw: ClientSpec.GatewayReconnect)
      modifies this`outbound, this`heartbeaters, this`generation, this`heartbeatInterval, session`resumable
      ensures State() == ClientSpec.Reconnect(Setup(), old(State()), gw)
    {
      CloseChannels(gw.channelsClosed);
      var lastSequence := ReopenGateway(gw);
      var resumable := session.IsResumable();
      if resumable {
        ResumeConnect(lastSequence);
      } else {
        CleanConnect();
        session.SetResumable(true);
      }
    }

    /** `handle_event!`: spawn the handler's task if its slot is filled. */
    method HandleEvent(h: Handler)
      modifies this`tasks
      ensures State() == ClientSpec.RunHandler(Setup(), old(State()), h)
    {
      if h in handlers {
        tasks := tasks + [h];
      }
    }

    /** One turn of the loop of `start`: classify the event and act on it. */
    method Receive(t: ClientSpec.Tick) returns (exit: Option<DiscordError>)
      modifies this`outbound, this`heartbeaters, this`generation, this`heartbeatInterval, this`tasks, session
      ensures (State(), exit) == ClientSpec.Step(Setup(), old(State()), t)
    {
      exit := None;
      match t.event
      case Dispatch(d) =>
        match d {
          case Ready(id) =>
            session.SetId(id);
            HandleEvent(OnReady);
          case Routed(k) =>
            HandleEvent(On(k));
          case Unrouted =>
        }
      case ReconnectRequested =>
      case InvalidSession(b) =>
        session.SetResumable(b);
      case HeartbeatAck =>
      case Close(e) =>
        if e == AuthenticationFailed {
          exit := Some(e);
        } else {
          Reconnect(t.gateway);
        }
      case Hello(_) =>
    }

    /**
     * `start`: IDENTIFY and a heartbeater, then one turn per event until an
     * authentication failure, or until the (finite) stream runs out.
     */
    method Start(ticks: seq<ClientSpec.Tick>) returns (exit: Option<DiscordError>)
      modifies this`outbound, this`heartbeaters, this`generation, this`heartbeatInterval, this`tasks, session
      ensures (State(), exit) == ClientSpec.Start(Setup(), old(State()), ticks)
    {
      CleanConnect();
      exit := None;
      var i := 0;
      while i < |ticks|
        invariant 0 <= i <= |ticks|
        invariant exit == None
        invariant ClientSpec.Run(Setup(), State(), ticks[i..]) == ClientSpec.Start(Setup(), old(State()), ticks)
      {
        assert ticks[i..][0] == ticks[i] && ticks[i..][1..] == ticks[i + 1..];
        exit := Receive(ticks[i]);
        if exit.Some? {
          return;
        }
        i := i + 1;
      }
      assert ticks[i..] == [];
    }
  }

  /**
   * Connect, then Ready("abc123"): the session id is recorded, only IDENTIFY
   * has been sent, and one heartbeater runs with the connection's interval.
   */
  method ReadyScenario(rawToken: string, config: Config, interval: nat, gw: ClientSpec.GatewayReconnect)
    returns (sessionId: string, sent: seq<Command>, running: seq<ClientSpec.Heartbeater>, exit: Option<DiscordError>)
    ensures sessionId == "abc123" && exit == None
    ensures |sent| == 1 && sent[0].Identify?
    ensures running == [ClientSpec.Heartbeater(0, interval)]
  {
    var c := new Client(rawToken, config, interval);
    c.Register(OnReady);
    var ticks := [ClientSpec.Tick(Dispatch(Ready("abc123")), gw)];
    ghost var setup, before := c.Setup(), c.State();
    exit := c.Start(ticks);
    ghost var connected := ClientSpec.CleanConnect(setup, before);
    ghost var ready := ClientSpec.Step(setup, connected, ticks[0]);
    assert ticks[1..] == [];
    assert ClientSpec.Run(setup, connected, ticks) == ClientSpec.Run(setup, ready.0, []);
    sessionId, sent, running := c.session.id, c.outbound, c.heartbeaters;
  }

  /**
   * Connect, Ready("abc123"), then a connection reset while resumable, with the
   * gateway reporting sequence 57: the client sends RESUME for "abc123" from 57.
   */
  method ResumeScenario(rawToken: string, config: Config, interval: nat, gw: ClientSpec.GatewayReconnect)
    returns (sent: seq<Command>, exit: Option<DiscordError>)
    requires gw.lastSequence == Some(57)
    ensures exit == None
    ensures |sent| == 2 && sent[0].Identify?
    ensures sent[1] == Resume(ClientSpec.NormalizeToken(rawToken), "abc123", Some(57))
  {
    var c := new Client(rawToken, config, interval);
    var ticks := [
      ClientSpec.Tick(Dispatch(Ready("abc123")), gw),
      ClientSpec.Tick(Close(OtherError("network reset")), gw)];
    ghost var setup, before := c.Setup(), c.State();
    exit := c.Start(ticks);
    ghost var connected := ClientSpec.CleanConnect(setup, before);
    ghost var ready := ClientSpec.Step(setup, connected, ticks[0]);
    ghost var resumed := ClientSpec.Step(setup, ready.0, ticks[1]);
    assert ticks[1..] == [ticks[1]] && ticks[1..][1..] == [];
    assert ClientSpec.Run(setup, connected, ticks) == ClientSpec.Run(setup, ready.0, ticks[1..]);
    assert ClientSpec.Run(setup, ready.0, ticks[1..]) == ClientSpec.Run(setup, resumed.0, []);
    ClientSpec.RecoverableCloseResumes(setup, ready.0, OtherError("network reset"), gw);
    sent := c.outbound;
  }
}
