// What the registry records about a worker, in terms of the lines it has sent, and which
// machines the SuperNode is told to use.

module Registrations {
  import opened Wrappers
  import opened Text
  import opened Workers
  import opened Registry
  import opened RegistryRuns

  /** The latest REGISTER of a worker. */
  function LatestRegister(past: seq<Event>, id: string): Option<Registration>
  {
    if past == [] then None
    else
      var last := past[|past| - 1];
      if Registers(last, id) then Some(last.r) else LatestRegister(past[..|past| - 1], id)
  }

  /** The free memory a worker reported last, and when. */
  datatype Report = Report(vramFreeMb: nat, ramFreeMb: nat, at: nat)

  /** The latest REGISTER or PING of a worker; a REGISTER has all its memory free. */
  function LatestReport(past: seq<Event>, id: string): Option<Report>
  {
    if past == [] then None
    else
      match past[|past| - 1]
      case Enrol(r) =>
        if r.id == id then Some(Report(r.vramMb, r.ramMb, r.now)) else LatestReport(past[..|past| - 1], id)
      case Ping(pinger, vram, ram, now, _) =>
        if pinger == id then Some(Report(vram, ram, now)) else LatestReport(past[..|past| - 1], id)
      case _ => LatestReport(past[..|past| - 1], id)
  }

  predicate HasEnough(r: Registration)
  {
    r.hasGpu && r.vramMb >= 6144
  }

  /** A node of the registry as its worker has described it. */
  ghost predicate AsReported(w: WorkerNode, id: string, past: seq<Event>)
  {
    && LatestRegister(past, id).Some? && LatestReport(past, id).Some?
    && (var r, report := LatestRegister(past, id).value, LatestReport(past, id).value;
        && w.id == id && w.addr == r.peer + ":" + Decimal(r.rpcPort) && w.rpcPort == r.rpcPort
        && w.vramMb == r.vramMb && w.ramMb == r.ramMb && w.cpuCores == r.cpuCores && w.hasGpu == r.hasGpu
        && w.vramFreeMb == report.vramFreeMb && w.ramFreeMb == report.ramFreeMb && w.lastPing == report.at
        && (w.role.Consumer? <==> !HasEnough(r)))
  }

  ghost predicate AllAsReported(x: Traced, past: seq<Event>)
  {
    forall id :: id in x.s.m.workers ==> AsReported(x.s.m.workers[id], id, past)
  }

  lemma LatestNext(past: seq<Event>, e: Event, id: string)
    ensures LatestRegister(past + [e], id) == if Registers(e, id) then Some(e.r) else LatestRegister(past, id)
    ensures LatestReport(past + [e], id)
            == if Registers(e, id) then Some(Report(e.r.vramMb, e.r.ramMb, e.r.now))
               else if e.Ping? && e.id == id then Some(Report(e.vramFreeMb, e.ramFreeMb, e.now))
               else LatestReport(past, id)
  {
    assert (past + [e])[..|past|] == past;
  }

  lemma EnrolledAsReported(s: Swarm, past: seq<Event>, r: Registration)
    ensures r.id in Step(s, Enrol(r)).m.workers
    ensures AsReported(Step(s, Enrol(r)).m.workers[r.id], r.id, past + [Enrol(r)])
  {
    LatestNext(past, Enrol(r), r.id);
  }

  lemma PingedAsReported(s: Swarm, past: seq<Event>, e: Event)
    requires e.Ping? && e.id in s.m.workers && AsReported(s.m.workers[e.id], e.id, past)
    ensures e.id in Step(s, e).m.workers && AsReported(Step(s, e).m.workers[e.id], e.id, past + [e])
  {
    LatestNext(past, e, e.id);
  }

  lemma OthersLeaveAsIs(s: Swarm, e: Event, id: string)
    requires !Registers(e, id) && !(e.Ping? && e.id == id) && id in Step(s, e).m.workers
    ensures id in s.m.workers
    ensures Step(s, e).m.workers[id] == s.m.workers[id].(credits := Step(s, e).m.workers[id].credits)
  {
  }

  lemma SameReport(w: WorkerNode, n: WorkerNode, id: string, past: seq<Event>, e: Event)
    requires AsReported(w, id, past) && !Registers(e, id) && !(e.Ping? && e.id == id) && n == w.(credits := n.credits)
    ensures AsReported(n, id, past + [e])
  {
    LatestNext(past, e, id);
  }

  lemma ReportedStep(x: Traced, past: seq<Event>, e: Event, id: string)
    requires id in x.s.m.workers ==> AsReported(x.s.m.workers[id], id, past)
    requires id in Next(x, e).s.m.workers
    ensures AsReported(Next(x, e).s.m.workers[id], id, past + [e])
  {
    if Registers(e, id) {
      EnrolledAsReported(x.s, past, e.r);
    } else if e.Ping? && e.id == id {
      PingedAsReported(x.s, past, e);
    } else {
      OthersLeaveAsIs(x.s, e, id);
      SameReport(x.s.m.workers[id], Step(x.s, e).m.workers[id], id, past, e);
    }
  }

  lemma {:induction false} ReportedRun(x: Traced, past: seq<Event>, events: seq<Event>, y: Traced)
    requires AllAsReported(x, past) && IsRun(x, events, y)
    ensures AllAsReported(y, past + events)
    decreases |events|
  {
    if events == [] {
      assert past + events == past;
    } else {
      var e := events[0];
      forall id | id in Next(x, e).s.m.workers ensures AsReported(Next(x, e).s.m.workers[id], id, past + [e]) {
        ReportedStep(x, past, e, id);
      }
      ReportedRun(Next(x, e), past + [e], events[1..], y);
      assert past + [e] + events[1..] == past + events;
    }
  }

  /** Every run: a registered worker is recorded as its latest REGISTER and its latest PING
      describe it, and it is a consumer exactly when that REGISTER had no GPU or less than
      6144 MB. */
  lemma WorkersAreAsReported(saved: map<string, u64>, events: seq<Event>, y: Traced, id: string)
    requires IsRun(Start(saved), events, y) && id in y.s.m.workers
    ensures LatestRegister(events, id).Some? && LatestReport(events, id).Some?
    ensures var w, r, report := y.s.m.workers[id], LatestRegister(events, id).value, LatestReport(events, id).value;
            && w.id == id && w.addr == r.peer + ":" + Decimal(r.rpcPort) && w.rpcPort == r.rpcPort
            && w.vramMb == r.vramMb && w.ramMb == r.ramMb && w.cpuCores == r.cpuCores && w.hasGpu == r.hasGpu
            && w.vramFreeMb == report.vramFreeMb && w.ramFreeMb == report.ramFreeMb && w.lastPing == report.at
            && (w.role.Consumer? <==> !r.hasGpu || r.vramMb < 6144)
  {
    ReportedRun(Start(saved), [], events, y);
    assert [] + events == events;
  }

  // ----- who is announced -----

  /** The address is that of a worker whose latest REGISTER had a GPU and 6144 MB. */
  ghost predicate IsProvider(past: seq<Event>, id: string, addr: string)
  {
    var r := LatestRegister(past, id);
    r.Some? && HasEnough(r.value) && addr == r.value.peer + ":" + Decimal(r.value.rpcPort)
  }

  lemma ProvidersAreListed(x: Traced, past: seq<Event>, order: seq<string>, addr: string)
    requires AllAsReported(x, past)
    ensures addr in SlaveAddrs(x.s.m.workers, order)
            <==> exists id :: id in order && id in x.s.m.workers && !x.s.m.workers[id].role.SuperNode?
                              && IsProvider(past, id, addr)
  {
    SlavesAreTheProviders(x.s.m.workers, order, addr);
    forall id | id in x.s.m.workers && !x.s.m.workers[id].role.SuperNode?
      ensures x.s.m.workers[id].role.GpuProvider? && x.s.m.workers[id].addr == addr <==> IsProvider(past, id, addr)
    {
      assert AsReported(x.s.m.workers[id], id, past);
    }
  }

  /** Every run: the list a PING would see has the addresses of exactly the registered
      workers other than the SuperNode whose latest REGISTER had a GPU and 6144 MB. */
  lemma ListIsOfTheProviders(saved: map<string, u64>, events: seq<Event>, y: Traced, order: seq<string>, addr: string)
    requires IsRun(Start(saved), events, y) && IterationOrder(y.s.m.workers, order)
    ensures addr in SlaveAddrs(y.s.m.workers, order)
            <==> exists id :: id in y.s.m.workers && !y.s.m.workers[id].role.SuperNode? && IsProvider(events, id, addr)
  {
    ReportedRun(Start(saved), [], events, y);
    assert [] + events == events;
    ProvidersAreListed(y, events, order, addr);
  }

  /** At some moment the address was that of a provider. */
  ghost predicate WasProvider(past: seq<Event>, addr: string)
  {
    exists n, id :: 0 <= n <= |past| && IsProvider(past[..n], id, addr)
  }

  ghost predicate ObservedProviders(x: Traced, past: seq<Event>)
  {
    forall k, addr :: 0 <= k < |x.observed| && addr in x.observed[k] ==> WasProvider(past, addr)
  }

  lemma WasProviderNext(past: seq<Event>, e: Event, addr: string)
    requires WasProvider(past, addr)
    ensures WasProvider(past + [e], addr)
  {
    var n, id :| 0 <= n <= |past| && IsProvider(past[..n], id, addr);
    assert (past + [e])[..n] == past[..n];
  }

  lemma ListedNow(x: Traced, past: seq<Event>, order: seq<string>, addr: string)
    requires AllAsReported(x, past) && addr in SlaveAddrs(x.s.m.workers, order)
    ensures WasProvider(past, addr)
  {
    ProvidersAreListed(x, past, order, addr);
    var id :| id in order && id in x.s.m.workers && IsProvider(past, id, addr);
    assert past[..|past|] == past;
  }

  lemma ObservedStep(x: Traced, past: seq<Event>, e: Event)
    requires AllAsReported(x, past) && ObservedProviders(x, past)
    ensures ObservedProviders(Next(x, e), past + [e])
  {
    forall k, addr | 0 <= k < |Next(x, e).observed| && addr in Next(x, e).observed[k]
      ensures WasProvider(past + [e], addr)
    {
      if k == |x.observed| {
        ListedNow(x, past, e.order, addr);
      }
      WasProviderNext(past, e, addr);
    }
  }

  lemma {:induction false} ObservedRun(x: Traced, past: seq<Event>, events: seq<Event>, y: Traced)
    requires AllAsReported(x, past) && ObservedProviders(x, past) && IsRun(x, events, y)
    ensures ObservedProviders(y, past + events)
    decreases |events|
  {
    if events == [] {
      assert past + events == past;
    } else {
      var e := events[0];
      forall id | id in Next(x, e).s.m.workers ensures AsReported(Next(x, e).s.m.workers[id], id, past + [e]) {
        ReportedStep(x, past, e, id);
      }
      ObservedStep(x, past, e);
      ObservedRun(Next(x, e), past + [e], events[1..], y);
      assert past + [e] + events[1..] == past + events;
    }
  }

  /** Every run: an address in any list that was ever observed or announced was, at that
      time, the address of a worker whose latest REGISTER had a GPU and 6144 MB. */
  lemma AnnouncedAreProviders(saved: map<string, u64>, events: seq<Event>, y: Traced, k: nat, addr: string)
    returns (n: nat, id: string)
    requires IsRun(Start(saved), events, y) && k < |y.observed| && addr in y.observed[k]
    ensures n <= |events| && LatestRegister(events[..n], id).Some?
    ensures var r := LatestRegister(events[..n], id).value;
            r.hasGpu && r.vramMb >= 6144 && addr == r.peer + ":" + Decimal(r.rpcPort)
  {
    ObservedRun(Start(saved), [], events, y);
    assert [] + events == events;
    assert WasProvider(events, addr);
    n, id :| 0 <= n <= |events| && IsProvider(events[..n], id, addr);
  }
}
