// Slave announcements from the registry to the llama-server command line.

module Announcements {
  import opened Wrappers
  import opened Text
  import opened Workers
  import opened Registry
  import opened RegistryRuns
  import opened Heartbeat
  import opened Client
  import ConnectionHandler
  import ApiKeys
  import CreditLedger

  /** The peer part of an address is an IP address and a port. */
  predicate CleanPeer(e: Event)
  {
    e.Enrol? ==> ',' !in e.r.peer && '\n' !in e.r.peer
  }

  predicate CleanPeers(events: seq<Event>)
  {
    forall e :: e in events ==> CleanPeer(e)
  }

  ghost predicate CleanAddrs(addrs: seq<string>)
  {
    forall a :: a in addrs ==> CleanAddr(a)
  }

  ghost predicate CleanRegistry(x: Traced)
  {
    && (forall id :: id in x.s.m.workers ==> CleanAddr(x.s.m.workers[id].addr))
    && (forall k :: 0 <= k < |x.observed| ==> CleanAddrs(x.observed[k]))
  }

  lemma BuiltAddrIsClean(peer: string, port: nat)
    requires ',' !in peer && '\n' !in peer
    ensures CleanAddr(peer + ":" + Decimal(port))
  {
    var digits := Decimal(port);
    assert digits[|digits| - 1] in digits;
  }

  lemma {:induction false} SlavesAreClean(workers: map<string, WorkerNode>, order: seq<string>)
    requires forall id :: id in workers ==> CleanAddr(workers[id].addr)
    ensures CleanAddrs(SlaveAddrs(workers, order))
  {
    if order != [] {
      SlavesAreClean(workers, order[1..]);
    }
  }

  lemma CleanStep(x: Traced, e: Event)
    requires CleanRegistry(x) && CleanPeer(e)
    ensures CleanRegistry(Next(x, e))
  {
    if e.Enrol? {
      BuiltAddrIsClean(e.r.peer, e.r.rpcPort);
    }
    if e.Ping? {
      SlavesAreClean(x.s.m.workers, e.order);
    }
  }

  lemma {:induction false} CleanRun(x: Traced, events: seq<Event>, y: Traced)
    requires CleanRegistry(x) && IsRun(x, events, y) && CleanPeers(events)
    ensures CleanRegistry(y)
    decreases |events|
  {
    if events != [] {
      assert events[0] in events;
      CleanStep(x, events[0]);
      CleanRun(Next(x, events[0]), events[1..], y);
    }
  }

  /** The replies to the PINGs of one worker, in a run from x. */
  function RepliesTo(x: Traced, events: seq<Event>, id: string): seq<Reply>
    decreases |events|
  {
    if events == [] then []
    else
      var e := events[0];
      (if e.Ping? && e.id == id then [ConnectionHandler.PingReply(x.s.m, id, e.order)] else [])
      + RepliesTo(Next(x, e), events[1..], id)
  }

  /** Heartbeats with these replies, at any times. */
  predicate Answers(rounds: seq<Round>, replies: seq<Reply>)
  {
    |rounds| == |replies| && forall i :: 0 <= i < |rounds| ==> rounds[i].reply == replies[i]
  }

  function Joined(lists: seq<seq<string>>): seq<string>
  {
    seq(|lists|, i requires 0 <= i < |lists| => Join(lists[i], ','))
  }

  lemma {:induction false} SentCons(r: Round, rounds: seq<Round>)
    ensures Sent([r] + rounds) == ReplyLines(r.reply) + Sent(rounds)
  {
    var all := [r] + rounds;
    if rounds == [] {
      assert all[..|all| - 1] == [] && ReplyLines(r.reply) + [] == [] + ReplyLines(r.reply);
    } else {
      var front, last := rounds[..|rounds| - 1], rounds[|rounds| - 1];
      SentCons(r, front);
      assert all[..|all| - 1] == [r] + front;
      Assoc(ReplyLines(r.reply), Sent(front), ReplyLines(last.reply));
    }
  }

  /** What a PING adds to the lists its worker was sent is what its reply announces. */
  lemma PayloadsOfAReply(reply: Reply)
    requires reply.Pong? && reply.update.Some? ==> reply.update.value != [] && CleanAddrs(reply.update.value)
    ensures Payloads(ReplyLines(reply)) == if reply.Pong? && reply.update.Some? then [Join(reply.update.value, ',')]
            else []
  {
    var lines := ReplyLines(reply);
    assert Payloads([]) == [] && lines[1..] == if |lines| == 2 then [lines[1]] else [];
    match reply
    case NotFound =>
      NotFoundIsNoPong();
    case Pong(credits, update) =>
      CreditsLineIsPong(credits);
      PongHasNoPayload(lines[0]);
      if update.Some? {
        AnnouncedListReachesTheCommandLine(update.value);
        assert Payload(lines[1]) == Some(Join(update.value, ','));
        assert [lines[1]][1..] == [] && Payloads(lines[1..]) == [Join(update.value, ',')] + Payloads([]);
      }
  }

  lemma PingAnnounces(x: Traced, e: Event)
    requires CleanRegistry(x) && e.Ping?
    ensures var slaves := SlaveAddrs(x.s.m.workers, e.order);
            var news := if e.id in x.s.m.workers && Announcement(x.s.m, slaves).Some? then [slaves] else [];
            && Payloads(ReplyLines(ConnectionHandler.PingReply(x.s.m, e.id, e.order))) == Joined(news)
            && SentTo(Next(x, e), e.id) == (if news == [] then SentTo(x, e.id) else SentTo(x, e.id) + news)
  {
    SlavesAreClean(x.s.m.workers, e.order);
    PayloadsOfAReply(ConnectionHandler.PingReply(x.s.m, e.id, e.order));
  }

  lemma OthersAnnounceNothing(x: Traced, e: Event, id: string)
    requires !(e.Ping? && e.id == id)
    ensures SentTo(Next(x, e), id) == SentTo(x, id)
  {
  }

  lemma Tail(sofar: seq<seq<string>>, news: seq<seq<string>>, all: seq<seq<string>>)
    requires sofar + news <= all
    ensures sofar <= all && all[|sofar|..] == news + all[|sofar + news|..]
  {
  }

  lemma OneReplyMore(first: Round, rest: seq<Round>, news: seq<seq<string>>, later: seq<seq<string>>)
    requires Payloads(ReplyLines(first.reply)) == Joined(news)
    requires Payloads(Sent(rest)) == Joined(later)
    ensures Payloads(Sent([first] + rest)) == Joined(news + later)
  {
    SentCons(first, rest);
    PayloadsAppend(ReplyLines(first.reply), Sent(rest));
    JoinedAppend(news, later);
  }

  lemma Uncons(rounds: seq<Round>)
    requires rounds != []
    ensures rounds == [rounds[0]] + rounds[1..]
  {
  }

  lemma CarryOne(rounds: seq<Round>, sofar: seq<seq<string>>, news: seq<seq<string>>, all: seq<seq<string>>)
    requires rounds != [] && sofar + news <= all
    requires Payloads(ReplyLines(rounds[0].reply)) == Joined(news)
    requires Payloads(Sent(rounds[1..])) == Joined(all[|sofar + news|..])
    ensures sofar <= all && Payloads(Sent(rounds)) == Joined(all[|sofar|..])
  {
    var first, rest, later := rounds[0], rounds[1..], all[|sofar + news|..];
    Uncons(rounds);
    Tail(sofar, news, all);
    OneReplyMore(first, rest, news, later);
    calc {
      Payloads(Sent(rounds));
      Payloads(Sent([first] + rest));
      Joined(news + later);
      Joined(all[|sofar|..]);
    }
  }

  lemma FirstEvent(x: Traced, events: seq<Event>, id: string, rounds: seq<Round>)
    returns (rest: seq<Round>, news: seq<seq<string>>)
    requires events != [] && (events[0].Ping? ==> CleanRegistry(x)) && Answers(rounds, RepliesTo(x, events, id))
    ensures Answers(rest, RepliesTo(Next(x, events[0]), events[1..], id))
    ensures SentTo(Next(x, events[0]), id) == if news == [] then SentTo(x, id) else SentTo(x, id) + news
    ensures if events[0].Ping? && events[0].id == id
            then rounds != [] && rest == rounds[1..] && Payloads(ReplyLines(rounds[0].reply)) == Joined(news)
            else rest == rounds && news == []
  {
    if events[0].Ping? && events[0].id == id {
      news := PingFirst(x, events, id, rounds);
      rest := rounds[1..];
    } else {
      rest, news := rounds, [];
      NoReplyFirst(x, events, id);
    }
  }

  lemma NoReplyFirst(x: Traced, events: seq<Event>, id: string)
    requires events != [] && !(events[0].Ping? && events[0].id == id)
    ensures RepliesTo(x, events, id) == RepliesTo(Next(x, events[0]), events[1..], id)
    ensures SentTo(Next(x, events[0]), id) == SentTo(x, id)
  {
    OthersAnnounceNothing(x, events[0], id);
  }

  /** The announcements in the replies to a worker's PINGs are the lists the trace has
      it sent meanwhile. */
  lemma {:induction false} RepliesCarryTheLists(x: Traced, events: seq<Event>, y: Traced, id: string,
                                                rounds: seq<Round>)
    requires CleanRegistry(x) && IsRun(x, events, y) && CleanPeers(events)
    requires Answers(rounds, RepliesTo(x, events, id))
    ensures SentTo(x, id) <= SentTo(y, id)
    ensures Payloads(Sent(rounds)) == Joined(SentTo(y, id)[|SentTo(x, id)|..])
    decreases |events|
  {
    if events != [] {
      var rest, news := FirstEvent(x, events, id, rounds);
      assert events[0] in events;
      CleanStep(x, events[0]);
      RepliesCarryTheLists(Next(x, events[0]), events[1..], y, id, rest);
      if events[0].Ping? && events[0].id == id {
        CarryOne(rounds, SentTo(x, id), news, SentTo(y, id));
      } else {
        assert SentTo(Next(x, events[0]), id) == SentTo(x, id);
      }
    } else {
      assert rounds == [] && SentTo(y, id)[|SentTo(x, id)|..] == [];
    }
  }

  lemma PingFirst(x: Traced, events: seq<Event>, id: string, rounds: seq<Round>) returns (news: seq<seq<string>>)
    requires CleanRegistry(x) && events != [] && events[0].Ping? && events[0].id == id
    requires Answers(rounds, RepliesTo(x, events, id))
    ensures rounds != [] && Answers(rounds[1..], RepliesTo(Next(x, events[0]), events[1..], id))
    ensures SentTo(Next(x, events[0]), id) == SentTo(x, id) + news
    ensures Payloads(ReplyLines(rounds[0].reply)) == Joined(news)
  {
    var reply := ConnectionHandler.PingReply(x.s.m, id, events[0].order);
    var rest := RepliesTo(Next(x, events[0]), events[1..], id);
    assert RepliesTo(x, events, id) == [reply] + rest;
    PingAnnounces(x, events[0]);
    var slaves := SlaveAddrs(x.s.m.workers, events[0].order);
    news := if id in x.s.m.workers && Announcement(x.s.m, slaves).Some? then [slaves] else [];
    assert rounds[0].reply == reply;
    forall i | 0 <= i < |rounds[1..]| ensures rounds[1..][i].reply == rest[i] {
      assert rounds[1..][i] == rounds[i + 1] && ([reply] + rest)[i + 1] == rest[i];
    }
  }

  lemma JoinedAppend(a: seq<seq<string>>, b: seq<seq<string>>)
    ensures Joined(a + b) == Joined(a) + Joined(b)
  {
  }

  /** From any state of any run, for one worker's heartbeats on one connection, with
      any timing: what the connection adds to the lists its main program is sent and what
      is still unread are together exactly the lists the master sends it, in order; when
      no second line is late it is all of them. */
  lemma SentListsAreForwarded(saved: map<string, u64>, before: seq<Event>, x: Traced, events: seq<Event>, y: Traced,
                              id: string, w: Worker, c: Connection, rounds: seq<Round>, rest: seq<Exchange>)
    requires IsRun(Start(saved), before, x) && IsRun(x, events, y)
    requires CleanPeers(before) && CleanPeers(events)
    requires Lives(c, rounds, rest) && Answers(rounds, RepliesTo(x, events, id))
    ensures SentTo(x, id) <= SentTo(y, id)
    ensures var n := AfterConnection(w, c);
            var unread := Beats(Reader([], [], [], w.credits), rounds).unread;
            var lists := SentTo(y, id)[|SentTo(x, id)|..];
            && n.slaves + Payloads(unread) == w.slaves + Joined(lists)
            && (n.slaves == w.slaves + Joined(lists) <==> Payloads(unread) == [])
            && (InTime(rounds) ==> n.slaves == w.slaves + Joined(lists))
            && (InTime(rounds) <==> ForwardsInOwnBeat(Reader([], [], [], w.credits), rounds))
  {
    CurrentIffInTime(Reader([], [], [], w.credits), rounds);
    CleanRun(Start(saved), before, x);
    RepliesCarryTheLists(x, events, y, id, rounds);
    EachConnectionForwardsWhatItReads(w, c, rounds, rest);
  }

  lemma ChainOfAList(slaves: seq<string>)
    requires slaves != [] && CleanAddrs(slaves)
    ensures Split(RpcChain(Join(slaves, ',')), ',') == [LocalRpc()] + slaves
  {
    AnnouncedListReachesTheCommandLine(slaves);
  }

  /** The --rpc argument after all lists the main program has been sent. */
  function CommandLine(w: Worker, spawns: seq<bool>): Option<string>
  {
    if |spawns| == |w.slaves| then Running(None, w.slaves, spawns) else None
  }

  lemma JoinedLast(sofar: seq<seq<string>>, all: seq<seq<string>>)
    requires sofar <= all && |sofar| < |all|
    ensures var texts := Joined(all[|sofar|..]);
            |texts| == |all| - |sofar| && texts[|texts| - 1] == Join(all[|all| - 1], ',')
  {
  }

  lemma LastRelaunch(process: Option<string>, forwarded: seq<string>, spawns: seq<bool>)
    requires 0 < |forwarded| == |spawns| && spawns[|spawns| - 1]
    ensures Running(process, forwarded, spawns) == Some(RpcChain(forwarded[|forwarded| - 1]))
  {
  }

  lemma ChainOfTheLast(sofar: seq<seq<string>>, all: seq<seq<string>>, before: seq<string>, w: Worker,
                       spawns: seq<bool>)
    requires sofar <= all && |sofar| < |all| && w.slaves == before + Joined(all[|sofar|..])
    requires |spawns| == |w.slaves| && spawns[|spawns| - 1]
    ensures CommandLine(w, spawns) == Some(RpcChain(Join(all[|all| - 1], ',')))
  {
    JoinedLast(sofar, all);
    LastRelaunch(None, w.slaves, spawns);
  }

  /** A part of a run from x to y in which worker id is sent something new. The replies to
      its PINGs are those its client gets on connection c, the latest of several. */
  ghost predicate Serves(saved: map<string, u64>, before: seq<Event>, x: Traced, events: seq<Event>, y: Traced,
                         id: string, c: Connection, rounds: seq<Round>, rest: seq<Exchange>)
  {
    && IsRun(Start(saved), before, x) && IsRun(x, events, y)
    && CleanPeers(before) && CleanPeers(events)
    && Lives(c, rounds, rest) && Answers(rounds, RepliesTo(x, events, id))
    && |SentTo(x, id)| < |SentTo(y, id)|
  }

  lemma LastSentIsClean(saved: map<string, u64>, before: seq<Event>, x: Traced, events: seq<Event>, y: Traced,
                        id: string)
    requires IsRun(Start(saved), before, x) && IsRun(x, events, y)
    requires CleanPeers(before) && CleanPeers(events) && SentTo(y, id) != []
    ensures var last := SentTo(y, id)[|SentTo(y, id)| - 1]; last != [] && CleanAddrs(last)
  {
    SentListsAreClean(saved, before, x, events, y, id, SentTo(y, id)[|SentTo(y, id)| - 1]);
  }

  /** From the registry through the client to the command line: over any connections, when
      no second line is late on the last one and the last relaunch succeeds, the
      llama-server runs with a chain that splits at commas into its own address and the
      last list its worker was sent. `spawns` has an outcome for each list forwarded. */
  lemma TheCommandLineFollowsTheMaster(saved: map<string, u64>, before: seq<Event>, x: Traced, events: seq<Event>,
                                       y: Traced, id: string, earlier: seq<Connection>, c: Connection,
                                       rounds: seq<Round>, rest: seq<Exchange>, spawns: seq<bool>)
    requires Serves(saved, before, x, events, y, id, c, rounds, rest) && InTime(rounds)
    requires var w := After(Worker(None, [], 0), earlier + [c]);
             |spawns| == |w.slaves| && spawns != [] && spawns[|spawns| - 1]
    ensures var chain := RpcChain(Join(SentTo(y, id)[|SentTo(y, id)| - 1], ','));
            && CommandLine(After(Worker(None, [], 0), earlier + [c]), spawns) == Some(chain)
            && Split(chain, ',') == [LocalRpc()] + SentTo(y, id)[|SentTo(y, id)| - 1]
  {
    var w := After(Worker(None, [], 0), earlier);
    AfterOneMore(Worker(None, [], 0), earlier, c);
    SentListsAreForwarded(saved, before, x, events, y, id, w, c, rounds, rest);
    LastSentIsClean(saved, before, x, events, y, id);
    ChainOfTheLast(SentTo(x, id), SentTo(y, id), w.slaves, AfterConnection(w, c), spawns);
    ChainOfAList(SentTo(y, id)[|SentTo(y, id)| - 1]);
  }

  /** And that is the list of the last successful PING of any worker, exactly when the
      last change first observed at a PING of this worker was to that list. */
  lemma TheCommandLineIsCurrent(saved: map<string, u64>, before: seq<Event>, x: Traced, events: seq<Event>, y: Traced,
                                id: string, earlier: seq<Connection>, c: Connection, rounds: seq<Round>,
                                rest: seq<Exchange>, spawns: seq<bool>, chain: string)
    requires Serves(saved, before, x, events, y, id, c, rounds, rest) && InTime(rounds)
    requires var w := After(Worker(None, [], 0), earlier + [c]);
             && |spawns| == |w.slaves| && spawns != [] && spawns[|spawns| - 1]
             && CommandLine(w, spawns) == Some(chain)
    requires y.observed != []
    ensures |y.observers| == |y.observed|
    ensures Split(chain, ',') == [LocalRpc()] + y.observed[|y.observed| - 1]
            <==> exists j: nat ::
                   LastNewsFor(y.observed, y.observers, id, j, |y.observed|)
                   && y.observed[j] == y.observed[|y.observed| - 1]
  {
    RunThen(Start(saved), before, x, events, y);
    WhoHoldsTheCurrentList(saved, before + events, y, id);
    TheCommandLineFollowsTheMaster(saved, before, x, events, y, id, earlier, c, rounds, rest, spawns);
    ChainTellsTheList(y, id, chain, y.observed[|y.observed| - 1]);
  }

  lemma ChainTellsTheList(y: Traced, id: string, chain: string, slaves: seq<string>)
    requires SentTo(y, id) != [] && Split(chain, ',') == [LocalRpc()] + SentTo(y, id)[|SentTo(y, id)| - 1]
    ensures Split(chain, ',') == [LocalRpc()] + slaves <==> HoldsList(y, id, slaves)
  {
    var last := SentTo(y, id)[|SentTo(y, id)| - 1];
    assert ([LocalRpc()] + last)[1..] == last && ([LocalRpc()] + slaves)[1..] == slaves;
  }

  ghost predicate CleanSent(x: Traced, id: string)
  {
    forall slaves :: slaves in SentTo(x, id) ==> slaves != [] && CleanAddrs(slaves)
  }

  lemma CleanSentStep(x: Traced, e: Event, id: string)
    requires CleanRegistry(x) && CleanSent(x, id)
    ensures CleanSent(Next(x, e), id)
  {
    if e.Ping? && e.id == id {
      PingAnnounces(x, e);
      SlavesAreClean(x.s.m.workers, e.order);
    } else {
      OthersAnnounceNothing(x, e, id);
    }
  }

  lemma {:induction false} CleanSentRun(x: Traced, events: seq<Event>, y: Traced, id: string)
    requires CleanRegistry(x) && CleanSent(x, id) && IsRun(x, events, y) && CleanPeers(events)
    ensures CleanSent(y, id)
    decreases |events|
  {
    if events != [] {
      assert events[0] in events;
      CleanStep(x, events[0]);
      CleanSentStep(x, events[0], id);
      CleanSentRun(Next(x, events[0]), events[1..], y, id);
    }
  }

  lemma SentListsAreClean(saved: map<string, u64>, before: seq<Event>, x: Traced, events: seq<Event>, y: Traced,
                          id: string, slaves: seq<string>)
    requires IsRun(Start(saved), before, x) && IsRun(x, events, y)
    requires CleanPeers(before) && CleanPeers(events)
    requires slaves in SentTo(y, id)
    ensures slaves != [] && CleanAddrs(slaves)
  {
    CleanRun(Start(saved), before, x);
    CleanSentRun(Start(saved), before, x, id);
    CleanSentRun(x, events, y, id);
  }

  // ----- credits -----

  /** From the settlements to the worker: in every history, a worker that reads on time is
      shown at its next PING its startup credits and one for each grant since its latest
      REGISTER. */
  lemma EarnedCreditsAreShown(saved: map<string, u64>, pool: u64, keys: ApiKeys.KeyMap,
                              actions: seq<CreditLedger.Action>, n: CreditLedger.Ledger, id: string,
                              order: seq<string>, c: Reader, inTime: bool)
    requires CreditLedger.IsHistory(CreditLedger.Opening(saved, pool, keys), actions, n)
    requires id in n.swarm.m.workers && c.unread == []
    ensures Beat(c, ReplyLines(ConnectionHandler.PingReply(n.swarm.m, id, order)), inTime).credits
            == WrappingAdd(SavedCredit(n.swarm.m, id), CreditLedger.GrantsTo(n, id))
  {
    CreditLedger.GrantsNeverExceedDecrements(saved, pool, keys, actions, n);
    LevelBeat(c, Round(ConnectionHandler.PingReply(n.swarm.m, id, order), inTime));
  }
}
