// The worker's connection to the master: register, take the role, deliver it once,
// and keep up the heartbeat until the connection is lost; then again from the start.

module Client {
  import opened Wrappers
  import opened Text
  import opened Workers
  import opened LineCodec
  import opened Heartbeat

  /** One heartbeat: the PING cannot be written or no line comes back, or the master
      answers. */
  datatype Exchange = Lost | Answered(round: Round)

  /** One turn of the reconnect loop. It fails before a line has come back, or the
      reply to REGISTER is the first line of `greeting`; `downloads` says whether a
      SuperNode gets its model. */
  datatype Connection = Failed | Greeted(greeting: string, downloads: bool, exchanges: seq<Exchange>)

  /** The heartbeats up to the first that fails. */
  function Rounds(exchanges: seq<Exchange>): seq<Round>
  {
    if exchanges == [] || exchanges[0].Lost? then [] else [exchanges[0].round] + Rounds(exchanges[1..])
  }

  /** The configuration a connection yields, unless it is given up before. */
  function Config(c: Connection): Option<InitModel>
  {
    if c.Failed? then None
    else
      var m := ReceiveInit(c.greeting).0;
      if m.Some? && m.value.SuperNode? && !c.downloads then None else m
  }

  /** What the worker's main program has been sent, and the credits it shows. */
  datatype Worker = Worker(delivered: Option<InitModel>, slaves: seq<string>, credits: u64)

  function AfterConnection(w: Worker, c: Connection): Worker
  {
    var config := Config(c);
    if config.None? then w
    else
      var r := Beats(Reader([], [], [], w.credits), Rounds(c.exchanges));
      Worker(if w.delivered.Some? then w.delivered else config, w.slaves + r.forwarded, r.credits)
  }

  function After(w: Worker, connections: seq<Connection>): Worker
  {
    if connections == [] then w
    else
      var n := |connections| - 1;
      AfterConnection(After(w, connections[..n]), connections[n])
  }

  class WorkerClient {
    /** `ready_tx`, which sending takes. */
    var readyTx: bool
    var delivered: Option<InitModel>
    var slavesSent: seq<string>
    var creditsTracker: u64

    ghost predicate Valid()
      reads this
    {
      readyTx <==> delivered.None?
    }

    ghost function View(): Worker
      reads this
    {
      Worker(delivered, slavesSent, creditsTracker)
    }

    constructor ()
      ensures Valid() && View() == Worker(None, [], 0)
    {
      readyTx, delivered, slavesSent, creditsTracker := true, None, [], 0;
    }

    method HeartbeatLoop(conn: MasterConnection, exchanges: seq<Exchange>)
      modifies conn
      ensures conn.View() == Beats(old(conn.View()), Rounds(exchanges))
    {
      ghost var done: seq<Round> := [];
      var heartbeatOk := true;
      var i := 0;
      while heartbeatOk && i < |exchanges|
        invariant 0 <= i <= |exchanges|
        invariant conn.View() == Beats(old(conn.View()), done)
        invariant done + (if heartbeatOk then Rounds(exchanges[i..]) else []) == Rounds(exchanges)
      {
        assert exchanges[i..][0] == exchanges[i] && exchanges[i..][1..] == exchanges[i + 1..];
        match exchanges[i] {
          case Lost =>
            heartbeatOk := false;
          case Answered(round) =>
            BeatsMore(old(conn.View()), done, round);
            conn.Heartbeat(ReplyLines(round.reply), round.inTime);
            done := done + [round];
        }
        i := i + 1;
      }
      assert i == |exchanges| ==> Rounds(exchanges[i..]) == [];
      assert done == Rounds(exchanges);
    }

    /** Everything the reconnect loop does with one connection. */
    method Connect(c: Connection)
      requires Valid()
      modifies this
      ensures Valid() && View() == AfterConnection(old(View()), c)
    {
      if c.Failed? {
        return;
      }
      var m := ReceiveInit(c.greeting).0;
      if m.None? {
        return;
      }
      if m.value.SuperNode? && !c.downloads {
        return;
      }
      if readyTx {
        readyTx := false;
        delivered := m;
      }
      var conn := new MasterConnection(creditsTracker);
      HeartbeatLoop(conn, c.exchanges);
      slavesSent := slavesSent + conn.slavesSent;
      creditsTracker := conn.creditsTracker;
    }

    method StartMasterConnection(connections: seq<Connection>)
      requires Valid()
      modifies this
      ensures Valid() && View() == After(old(View()), connections)
    {
      for i := 0 to |connections|
        invariant Valid() && View() == After(old(View()), connections[..i])
      {
        assert connections[..i + 1][..i] == connections[..i];
        Connect(connections[i]);
      }
      assert connections[..|connections|] == connections;
    }
  }

  /** Connection i is the first to yield a configuration. */
  predicate FirstToConfigure(connections: seq<Connection>, i: nat)
  {
    && i < |connections| && Config(connections[i]).Some?
    && forall j :: 0 <= j < i ==> Config(connections[j]).None?
  }

  lemma DeliveredAfter(w: Worker, c: Connection)
    ensures AfterConnection(w, c).delivered == if w.delivered.Some? then w.delivered else Config(c)
  {
  }

  lemma {:induction false} NothingToDeliver(w: Worker, connections: seq<Connection>)
    requires w.delivered.None? && forall i :: 0 <= i < |connections| ==> Config(connections[i]).None?
    ensures After(w, connections).delivered.None?
  {
    if connections != [] {
      var n := |connections| - 1;
      NothingToDeliver(w, connections[..n]);
      DeliveredAfter(After(w, connections[..n]), connections[n]);
    }
  }

  lemma {:induction false} SomethingIsDelivered(w: Worker, connections: seq<Connection>, i: nat)
    requires i < |connections| && Config(connections[i]).Some?
    ensures After(w, connections).delivered.Some?
    decreases |connections|
  {
    var n := |connections| - 1;
    if i < n {
      SomethingIsDelivered(w, connections[..n], i);
    }
    DeliveredAfter(After(w, connections[..n]), connections[n]);
  }

  lemma {:induction false} FirstIsDelivered(w: Worker, connections: seq<Connection>, i: nat)
    requires w.delivered.None? && FirstToConfigure(connections, i)
    ensures After(w, connections).delivered == Config(connections[i])
    decreases |connections|
  {
    var n := |connections| - 1;
    if i < n {
      FirstIsDelivered(w, connections[..n], i);
    } else {
      NothingToDeliver(w, connections[..n]);
    }
    DeliveredAfter(After(w, connections[..n]), connections[n]);
  }

  /** Over any series of reconnects the main program is sent one configuration, that
      of the first connection to yield one, whatever role a later one is given. */
  lemma OneConfigIsDelivered(w: Worker, connections: seq<Connection>)
    requires w.delivered.None?
    ensures var d := After(w, connections).delivered;
            && (d.None? <==> forall i :: 0 <= i < |connections| ==> Config(connections[i]).None?)
            && (forall i: nat :: FirstToConfigure(connections, i) ==> d == Config(connections[i]))
  {
    if i: nat :| i < |connections| && Config(connections[i]).Some? {
      SomethingIsDelivered(w, connections, i);
    } else {
      NothingToDeliver(w, connections);
    }
    forall i: nat | FirstToConfigure(connections, i) ensures After(w, connections).delivered == Config(connections[i]) {
      FirstIsDelivered(w, connections, i);
    }
  }

  /** The configuration is the one the master printed, unless it names a model that cannot
      be downloaded. */
  lemma ConfigIsAsPrinted(m: InitModel, downloads: bool, exchanges: seq<Exchange>)
    requires CleanInit(m) && (m.SuperNode? ==> m.totalLayers <= U32_MAX) && (m.GpuProvider? ==> m.tunnelPort <= U16_MAX)
    ensures Config(Greeted(PrintInit(m), downloads, exchanges)) == if m.SuperNode? && !downloads then None else Some(m)
  {
    InitRoundTrip(m, "");
    assert PrintInit(m) + "" == PrintInit(m);
  }

  /** Heartbeats that are all answered. */
  function Answering(rounds: seq<Round>): seq<Exchange>
  {
    seq(|rounds|, i requires 0 <= i < |rounds| => Answered(rounds[i]))
  }

  /** The connection yields a configuration, these heartbeats are answered, and it is lost
      at the next or has no more. */
  predicate Lives(c: Connection, rounds: seq<Round>, rest: seq<Exchange>)
  {
    && c.Greeted? && Config(c).Some?
    && c.exchanges == Answering(rounds) + rest && (rest == [] || rest[0].Lost?)
  }

  lemma {:induction false} RoundsOf(rounds: seq<Round>, rest: seq<Exchange>)
    requires rest == [] || rest[0].Lost?
    ensures Rounds(Answering(rounds) + rest) == rounds
  {
    if rounds == [] {
      assert Answering(rounds) + rest == rest;
    } else {
      RoundsOf(rounds[1..], rest);
      assert (Answering(rounds) + rest)[1..] == Answering(rounds[1..]) + rest;
      assert [rounds[0]] + rounds[1..] == rounds;
    }
  }

  /** A connection adds to the lists the main program has been sent exactly those that
      were announced on it, less those still unread, in order, for every timing; without
      a late second line all of them. And the credits shown are those of the last PONG
      read first by a heartbeat. */
  lemma EachConnectionForwardsWhatItReads(w: Worker, c: Connection, rounds: seq<Round>, rest: seq<Exchange>)
    requires Lives(c, rounds, rest)
    ensures var n := AfterConnection(w, c);
            var reader := Reader([], [], [], w.credits);
            && n.slaves + Payloads(Beats(reader, rounds).unread) == w.slaves + Payloads(Sent(rounds))
            && (InTime(rounds) ==> n.slaves == w.slaves + Payloads(Sent(rounds)))
            && ShowsTheLast(FirstLines(reader, rounds), w.credits, n.credits)
            && (InTime(rounds) ==> n.credits == LatestCredits(w.credits, rounds))
  {
    var reader := Reader([], [], [], w.credits);
    RoundsOf(rounds, rest);
    ForwardedExactly(w.credits, rounds);
    ShownAreTheLastRead(w.credits, rounds);
    var r := Beats(reader, rounds);
    assert w.slaves + r.forwarded + Payloads(r.unread) == w.slaves + (r.forwarded + Payloads(r.unread));
    if InTime(rounds) {
      InTimeKeepsLevel(reader, rounds);
      assert [] + Payloads(Sent(rounds)) == Payloads(Sent(rounds));
    }
  }

  lemma AfterOneMore(w: Worker, earlier: seq<Connection>, c: Connection)
    ensures After(w, earlier + [c]) == AfterConnection(After(w, earlier), c)
  {
    assert (earlier + [c])[..|earlier|] == earlier;
  }

  /** What a connection adds to the forwarded slave lists is a prefix of what the
      master announced on it, for every timing: none is altered, reordered, skipped
      or forwarded twice. */
  lemma EachConnectionForwardsInOrder(w: Worker, c: Connection)
    ensures var n := AfterConnection(w, c);
            && w.slaves <= n.slaves
            && (c.Greeted? ==> n.slaves[|w.slaves|..] <= Payloads(Sent(Rounds(c.exchanges))))
  {
    if c.Greeted? {
      ForwardedExactly(w.credits, Rounds(c.exchanges));
    }
  }
}
