// The master's handler of one connection: lines in, registry steps and replies out.

module ConnectionHandler {
  import opened Wrappers
  import opened Text
  import opened Workers
  import opened LineCodec
  import opened Registry
  import opened RegistryRuns
  import opened Heartbeat
  import LayerSplit

  datatype ModelEntry = ModelEntry(name: string, url: string, totalLayers: nat)

  /** The model a SuperNode is told to load; there is none to tell without models. */
  function Selected(config: seq<ModelEntry>): (model: InitModel)
    ensures model.SuperNode?
  {
    if config == [] then InitModel.SuperNode("", "", 0)
    else InitModel.SuperNode(config[0].name, config[0].url, config[0].totalLayers)
  }

  /** The text of the reply to REGISTER. The master aborts when it has no model for
      its SuperNode; the empty text stands for that. */
  function InitText(init: InitModel, config: seq<ModelEntry>): string
  {
    if init.SuperNode? && config == [] then "" else PrintInit(init)
  }

  /** What the handler reads next, with the clock and the order in which the hash map
      would be iterated then; `End` is the end of the stream or a failed read. */
  datatype Arrival = Line(text: string, now: nat, order: seq<string>) | End

  /** The registry step a line asks for; INFER and lines that make no sense ask for none. */
  function EventOf(conn: nat, peer: string, a: Arrival): Option<Event>
  {
    match a
    case End => Some(Close(conn))
    case Line(text, now, order) =>
      match ParseLine(Trim(text))
      case Some(Register(id, vram, ram, cores, gpu, port)) =>
        Some(Enrol(Registration(conn, peer, id, vram, ram, cores, gpu, port, now)))
      case Some(Ping(id, vram, ram)) => Some(Event.Ping(id, vram, ram, now, order))
      case _ => None
  }

  function PingReply(m: Master, id: string, order: seq<string>): Reply
  {
    if id in m.workers then Pong(m.workers[id].credits, Announcement(m, SlaveAddrs(m.workers, order))) else NotFound
  }

  function Find(config: seq<ModelEntry>, name: string): Option<ModelEntry>
  {
    if config == [] then None else if config[0].name == name then Some(config[0]) else Find(config[1..], name)
  }

  function Listed(workers: map<string, WorkerNode>, order: seq<string>): seq<WorkerNode>
  {
    if order == [] then []
    else (if order[0] in workers then [workers[order[0]]] else []) + Listed(workers, order[1..])
  }

  function Names(config: seq<ModelEntry>): seq<string>
  {
    seq(|config|, i requires 0 <= i < |config| => config[i].name)
  }

  function Addresses(split: seq<(string, nat)>): seq<string>
  {
    seq(|split|, i requires 0 <= i < |split| => split[i].0)
  }

  function Counts(split: seq<(string, nat)>): seq<string>
  {
    seq(|split|, i requires 0 <= i < |split| => Decimal(split[i].1))
  }

  /** The reply to INFER. With 2^32 computing workers the division by zero ends the
      process; the empty reply stands for that. */
  function InferReply(workers: map<string, WorkerNode>, config: seq<ModelEntry>, name: string,
                      order: seq<string>): string
  {
    var model := Find(config, name);
    if model.None? then "ERROR:model_not_available:" + Join(Names(config), ',') + "\n"
    else if Listed(workers, order) == [] then "ERROR:no_workers_available\n"
    else
      var split := LayerSplit.TensorSplit(model.value.totalLayers, Listed(workers, order));
      if split.None? then ""
      else "RPC_CHAIN:" + Join(Addresses(split.value), ',') + ":" + Join(Counts(split.value), ',') + "\n"
  }

  /** The reply to a line in the state before it. */
  function ReplyTo(m: Master, config: seq<ModelEntry>, conn: nat, peer: string, a: Arrival): string
    requires a.Line?
  {
    match ParseLine(Trim(a.text))
    case Some(Register(id, vram, ram, cores, gpu, port)) =>
      InitText(RegisterReply(m, Registration(conn, peer, id, vram, ram, cores, gpu, port, a.now), Selected(config)),
        config)
    case Some(Ping(id, _, _)) => ReplyText(PingReply(m, id, a.order))
    case Some(Infer(name)) => InferReply(m.workers, config, name, a.order)
    case None => "ERROR:invalid_command\n"
  }

  function AfterLine(s: Swarm, conn: nat, peer: string, a: Arrival): Swarm
  {
    var e := EventOf(conn, peer, a);
    if e.Some? then Step(s, e.value) else s
  }

  /** All steps and replies of a connection, up to its end. */
  function Handle(s: Swarm, config: seq<ModelEntry>, conn: nat, peer: string, arrivals: seq<Arrival>)
    : (Swarm, seq<string>)
    decreases |arrivals|
  {
    if arrivals == [] then (s, [])
    else if arrivals[0].End? then (Step(s, Close(conn)), [])
    else
      var rest := Handle(AfterLine(s, conn, peer, arrivals[0]), config, conn, peer, arrivals[1..]);
      (rest.0, [ReplyTo(s.m, config, conn, peer, arrivals[0])] + rest.1)
  }

  function Remembered(conn: nat, id: Option<string>): map<nat, string>
  {
    if id.Some? then map[conn := id.value] else map[]
  }

  method HandlePing(registry: WorkerRegistry, id: string, vramFreeMb: nat, ramFreeMb: nat, now: nat, order: seq<string>)
    returns (reply: Reply)
    modifies registry
    ensures registry.View() == Step(Swarm(old(registry.View()), map[]),
            Event.Ping(id, vramFreeMb, ramFreeMb, now, order)).m
    ensures reply == PingReply(old(registry.View()), id, order)
  {
    HeartbeatKeepsSlaves(registry.View(), id, vramFreeMb, ramFreeMb, now, order);
    var known := registry.UpdateHeartbeat(id, vramFreeMb, ramFreeMb, now);
    if known {
      var credits := registry.workers[id].credits;
      var update := registry.CheckSlaveChange(order);
      reply := Pong(credits, update);
    } else {
      reply := NotFound;
    }
  }

  method HandleLine(registry: WorkerRegistry, config: seq<ModelEntry>, conn: nat, peer: string,
                    remembered: Option<string>, a: Arrival)
    returns (reply: string, workerId: Option<string>)
    requires a.Line?
    modifies registry
    ensures Swarm(registry.View(), Remembered(conn, workerId))
            == AfterLine(Swarm(old(registry.View()), Remembered(conn, remembered)), conn, peer, a)
    ensures reply == ReplyTo(old(registry.View()), config, conn, peer, a)
  {
    reply, workerId := "", remembered;
    match ParseLine(Trim(a.text)) {
      case Some(Register(id, vram, ram, cores, gpu, port)) =>
        var init := registry.HandleRegister(Registration(conn, peer, id, vram, ram, cores, gpu, port, a.now),
          Selected(config));
        assert Remembered(conn, remembered)[conn := id] == Remembered(conn, Some(id));
        workerId := Some(id);
        reply := InitText(init, config);
      case Some(Ping(id, vram, ram)) =>
        var pong := HandlePing(registry, id, vram, ram, a.now, a.order);
        reply := ReplyText(pong);
      case Some(Infer(name)) =>
        reply := InferReply(registry.workers, config, name, a.order);
      case None =>
        reply := "ERROR:invalid_command\n";
    }
  }

  method HandleEnd(registry: WorkerRegistry, ghost conn: nat, remembered: Option<string>)
    modifies registry
    ensures registry.View() == Step(Swarm(old(registry.View()), Remembered(conn, remembered)), Close(conn)).m
  {
    if remembered.Some? {
      registry.UnregisterWorker(remembered.value);
    }
  }

  /** `handle_connection`: the id remembered for the connection is that of its latest
      REGISTER, and it is unregistered when the connection ends. */
  method HandleConnection(registry: WorkerRegistry, config: seq<ModelEntry>, conn: nat, peer: string,
                          arrivals: seq<Arrival>)
    returns (sent: seq<string>)
    modifies registry
    ensures var h := Handle(Swarm(old(registry.View()), map[]), config, conn, peer, arrivals);
            registry.View() == h.0.m && sent == h.1
  {
    ghost var whole := Handle(Swarm(registry.View(), map[]), config, conn, peer, arrivals);
    var thisWorkerId: Option<string> := None;
    sent := [];
    var i := 0;
    assert arrivals[i..] == arrivals;
    while i < |arrivals|
      invariant 0 <= i <= |arrivals|
      invariant var rest := Handle(Swarm(registry.View(), Remembered(conn, thisWorkerId)), config, conn, peer,
                arrivals[i..]);
                whole.0 == rest.0 && whole.1 == sent + rest.1
    {
      assert arrivals[i..][0] == arrivals[i] && arrivals[i..][1..] == arrivals[i + 1..];
      if arrivals[i].End? {
        HandleEnd(registry, conn, thisWorkerId);
        return;
      }
      var reply;
      reply, thisWorkerId := HandleLine(registry, config, conn, peer, thisWorkerId, arrivals[i]);
      sent := sent + [reply];
      i := i + 1;
    }
  }

  /** The events of a connection, up to its end. */
  function Events(conn: nat, peer: string, arrivals: seq<Arrival>): seq<Event>
  {
    if arrivals == [] then []
    else if arrivals[0].End? then [Close(conn)]
    else
      var e := EventOf(conn, peer, arrivals[0]);
      (if e.Some? then [e.value] else []) + Events(conn, peer, arrivals[1..])
  }

  /** Every PING comes with an order in which the map may be iterated then. */
  ghost predicate InOrder(s: Swarm, events: seq<Event>)
    decreases |events|
  {
    events == [] || (Enabled(s, events[0]) && InOrder(Step(s, events[0]), events[1..]))
  }

  lemma {:induction false} EventsRun(x: Traced, events: seq<Event>) returns (y: Traced)
    requires InOrder(x.s, events)
    ensures IsRun(x, events, y) && y.s == StepAll(x.s, events)
    decreases |events|
  {
    if events == [] {
      y := x;
    } else {
      y := EventsRun(Next(x, events[0]), events[1..]);
    }
  }

  function StepAll(s: Swarm, events: seq<Event>): Swarm
    decreases |events|
  {
    if events == [] then s else StepAll(Step(s, events[0]), events[1..])
  }

  lemma {:induction false} HandlingIsItsEvents(s: Swarm, config: seq<ModelEntry>, conn: nat, peer: string,
                                               arrivals: seq<Arrival>)
    ensures Handle(s, config, conn, peer, arrivals).0 == StepAll(s, Events(conn, peer, arrivals))
    decreases |arrivals|
  {
    if arrivals != [] && !arrivals[0].End? {
      var e := EventOf(conn, peer, arrivals[0]);
      HandlingIsItsEvents(AfterLine(s, conn, peer, arrivals[0]), config, conn, peer, arrivals[1..]);
      var rest := Events(conn, peer, arrivals[1..]);
      if e.Some? {
        assert ([e.value] + rest)[0] == e.value && ([e.value] + rest)[1..] == rest;
      } else {
        assert [] + rest == rest;
      }
    }
  }

  /** From any state, handling a connection is a run of the registry. */
  lemma HandlingIsARun(x: Traced, config: seq<ModelEntry>, conn: nat, peer: string, arrivals: seq<Arrival>)
    returns (y: Traced)
    requires InOrder(x.s, Events(conn, peer, arrivals))
    ensures IsRun(x, Events(conn, peer, arrivals), y)
    ensures y.s == Handle(x.s, config, conn, peer, arrivals).0
  {
    y := EventsRun(x, Events(conn, peer, arrivals));
    HandlingIsItsEvents(x.s, config, conn, peer, arrivals);
  }

  // ----- many connections, interleaved -----

  /** What happens to the master next: a line or the end of some connection, a tick
      of the heartbeat checker, or a credit earned. */
  datatype Input =
    | Arrived(conn: nat, peer: string, a: Arrival)
    | Ticked(now: nat)
    | Credited(id: string, amount: u64)

  function InputEvent(i: Input): Option<Event>
  {
    match i
    case Arrived(conn, peer, a) => EventOf(conn, peer, a)
    case Ticked(now) => Some(Tick(now))
    case Credited(id, amount) => Some(Credit(id, amount))
  }

  function InputEvents(inputs: seq<Input>): seq<Event>
  {
    if inputs == [] then []
    else
      var e := InputEvent(inputs[0]);
      (if e.Some? then [e.value] else []) + InputEvents(inputs[1..])
  }

  function AfterInput(s: Swarm, i: Input): Swarm
  {
    var e := InputEvent(i);
    if e.Some? then Step(s, e.value) else s
  }

  function AfterInputs(s: Swarm, inputs: seq<Input>): Swarm
    decreases |inputs|
  {
    if inputs == [] then s else AfterInputs(AfterInput(s, inputs[0]), inputs[1..])
  }

  lemma {:induction false} InputsAreTheirEvents(s: Swarm, inputs: seq<Input>)
    ensures AfterInputs(s, inputs) == StepAll(s, InputEvents(inputs))
    decreases |inputs|
  {
    if inputs != [] {
      var e := InputEvent(inputs[0]);
      InputsAreTheirEvents(AfterInput(s, inputs[0]), inputs[1..]);
      var rest := InputEvents(inputs[1..]);
      if e.Some? {
        assert ([e.value] + rest)[0] == e.value && ([e.value] + rest)[1..] == rest;
      } else {
        assert [] + rest == rest;
      }
    }
  }

  /** Any interleaving of any number of connections is a run of the registry, so
      what the theorems about runs say holds while many workers are served. */
  lemma InterleavingIsARun(x: Traced, inputs: seq<Input>) returns (y: Traced)
    requires InOrder(x.s, InputEvents(inputs))
    ensures IsRun(x, InputEvents(inputs), y) && y.s == AfterInputs(x.s, inputs)
  {
    y := EventsRun(x, InputEvents(inputs));
    InputsAreTheirEvents(x.s, inputs);
  }

  /** The id a connection remembers. */
  function MemoryOf(s: Swarm, conn: nat): Option<string>
  {
    if conn in s.conns then Some(s.conns[conn]) else None
  }

  /** A handler that knows only what its own connection remembers does the step of
      the whole master, and no step touches what another connection remembers. */
  lemma HandlersKeepToThemselves(s: Swarm, conn: nat, peer: string, a: Arrival, other: nat)
    ensures var alone := AfterLine(Swarm(s.m, Remembered(conn, MemoryOf(s, conn))), conn, peer, a);
            var all := AfterLine(s, conn, peer, a);
            && all.m == alone.m && MemoryOf(all, conn) == MemoryOf(alone, conn)
            && (other != conn ==> MemoryOf(all, other) == MemoryOf(s, other))
  {
  }

  /** The worker the latest REGISTER of an open connection named. */
  function LatestOn(events: seq<Event>, conn: nat): Option<string>
  {
    if events == [] then None
    else
      var last := events[|events| - 1];
      if last.Enrol? && last.r.conn == conn then Some(last.r.id)
      else if last == Close(conn) then None
      else LatestOn(events[..|events| - 1], conn)
  }

  lemma {:induction false} MemoryRun(x: Traced, past: seq<Event>, events: seq<Event>, y: Traced, conn: nat)
    requires MemoryOf(x.s, conn) == LatestOn(past, conn) && IsRun(x, events, y)
    ensures MemoryOf(y.s, conn) == LatestOn(past + events, conn)
    decreases |events|
  {
    if events == [] {
      assert past + events == past;
    } else {
      assert (past + [events[0]])[..|past|] == past;
      MemoryRun(Next(x, events[0]), past + [events[0]], events[1..], y, conn);
      assert past + [events[0]] + events[1..] == past + events;
    }
  }

  /** In every run, whatever other connections do in between: when a connection ends,
      the worker it registered last is not registered any more, and no other worker
      is touched. */
  lemma EndedConnectionsLeaveNoWorker(saved: map<string, u64>, events: seq<Event>, y: Traced, conn: nat)
    requires IsRun(Start(saved), events, y)
    ensures var id := LatestOn(events, conn);
            Next(y, Close(conn)).s.m.workers == if id.Some? then y.s.m.workers - {id.value} else y.s.m.workers
  {
    MemoryRun(Start(saved), [], events, y, conn);
    assert [] + events == events;
  }

  /** The handshake from end to end: the line the worker prints reaches the registry
      with its own fields, the reply it reads is the one the master sent, and the
      role and port in it are those the registry has recorded for it. */
  lemma Handshake(m: Master, config: seq<ModelEntry>, conn: nat, peer: string, now: nat, order: seq<string>,
                  id: string, vramMb: nat, ramMb: nat, cpuCores: nat, hasGpu: bool, rpcPort: nat)
    requires CleanId(id) && vramMb <= U64_MAX && ramMb <= U64_MAX && cpuCores <= U64_MAX && rpcPort <= U16_MAX
    requires config != [] && CleanInit(Selected(config)) && Selected(config).totalLayers <= U32_MAX
    requires m.nextPort <= U16_MAX
    ensures var line := Line(ReadLine(PrintRegister(id, vramMb, ramMb, cpuCores, hasGpu, rpcPort)).0, now, order);
            var r := Registration(conn, peer, id, vramMb, ramMb, cpuCores, hasGpu, rpcPort, now);
            var got := ReceiveInit(ReplyTo(m, config, conn, peer, line)).0;
            var w := Registry.Register(m, r).workers[id];
            && EventOf(conn, peer, line) == Some(Enrol(r))
            && got.Some?
            && (w.role.SuperNode? ==>
                  got.value == InitModel.SuperNode(config[0].name, config[0].url, config[0].totalLayers))
            && (w.role.Consumer? ==> got.value.Consumer?)
            && (w.role.GpuProvider? ==> got.value == InitModel.GpuProvider(w.tunnelPort))
            && (got.value.Consumer? <==> !hasGpu || vramMb < 6144)
            && (got.value.SuperNode? <==> hasGpu && vramMb >= 6144 && m.superId.None?)
  {
    var printed := PrintRegister(id, vramMb, ramMb, cpuCores, hasGpu, rpcPort);
    var r := Registration(conn, peer, id, vramMb, ramMb, cpuCores, hasGpu, rpcPort, now);
    RegisterRoundTrip(id, vramMb, ramMb, cpuCores, hasGpu, rpcPort, "");
    assert printed + "" == printed;
    var reply := RegisterReply(m, r, Selected(config));
    InitRoundTrip(reply, "");
    assert PrintInit(reply) + "" == PrintInit(reply);
  }
}
