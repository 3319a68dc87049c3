// Runs of the master: connections registering, pinging and closing, the
// heartbeat checker, and credits arriving, each handler body one step.

module RegistryRuns {
  import opened Wrappers
  import opened Text
  import opened Workers
  import opened Registry

  /** `conns` is what each open connection remembers as its worker id. */
  datatype Swarm = Swarm(m: Master, conns: map<nat, string>)

  /** `order` is the order in which the hash map is iterated at that PING. */
  datatype Event =
    | Enrol(r: Registration)
    | Ping(id: string, vramFreeMb: nat, ramFreeMb: nat, now: nat, order: seq<string>)
    | Close(conn: nat)
    | Tick(now: nat)
    | Credit(id: string, amount: u64)

  ghost predicate Enabled(s: Swarm, e: Event)
  {
    e.Ping? ==> IterationOrder(s.m.workers, e.order)
  }

  function Step(s: Swarm, e: Event): Swarm
  {
    match e
    case Enrol(r) => Swarm(Register(s.m, r), s.conns[r.conn := r.id])
    case Ping(id, vram, ram, now, order) =>
      if id in s.m.workers then s.(m := Observe(Heartbeat(s.m, id, vram, ram, now), SlaveAddrs(s.m.workers, order)))
      else s
    case Close(c) =>
      if c in s.conns then Swarm(Unregister(s.m, s.conns[c]), s.conns - {c}) else s
    case Tick(now) => s.(m := Reap(s.m, now))
    case Credit(id, amount) => s.(m := CreditWorker(s.m, id, amount))
  }

  /** The slave list read at a PING is the one after the heartbeat update, which
      changes neither roles nor addresses. */
  lemma {:induction false} HeartbeatKeepsSlaves(m: Master, id: string, vram: nat, ram: nat, now: nat,
                                                order: seq<string>)
    ensures SlaveAddrs(Heartbeat(m, id, vram, ram, now).workers, order) == SlaveAddrs(m.workers, order)
  {
    if order != [] {
      HeartbeatKeepsSlaves(m, id, vram, ram, now, order[1..]);
    }
  }

  /** A state with its history: how many ports were handed out and which worker
      got which allocation last, how often the version was bumped, the slave lists
      seen at successful PINGs with who pinged and the places of those announced,
      the lists each worker was sent, and the events since the latest election. */
  datatype Traced = Traced(
    s: Swarm, allocs: nat, issued: map<string, nat>, bumps: nat,
    observed: seq<seq<string>>, observers: seq<string>, announcedAt: seq<nat>,
    sent: map<string, seq<seq<string>>>, sinceElection: seq<Event>)

  function SentTo(x: Traced, id: string): seq<seq<string>>
  {
    if id in x.sent then x.sent[id] else []
  }

  predicate TakesPort(m: Master, r: Registration)
  {
    !r.RoleIf(m.superId.None?).SuperNode?
  }

  function Bumps(s: Swarm, e: Event): nat
  {
    match e
    case Enrol(r) => if TakesPort(s.m, r) then 1 else 2
    case Ping(_, _, _, _, _) => 0
    case Close(c) => if c in s.conns then 1 else 0
    case Tick(now) => |StaleIds(s.m, now)|
    case Credit(id, _) => if id in s.m.workers then 1 else 0
  }

  function Next(x: Traced, e: Event): Traced
  {
    var y := x.(s := Step(x.s, e), bumps := x.bumps + Bumps(x.s, e), sinceElection := x.sinceElection + [e]);
    match e
    case Enrol(r) =>
      if TakesPort(x.s.m, r) then y.(allocs := x.allocs + 1, issued := x.issued[r.id := x.allocs])
      else y.(sinceElection := [])
    case Ping(id, _, _, _, order) =>
      if id in x.s.m.workers then
        var slaves := SlaveAddrs(x.s.m.workers, order);
        var announced := Announcement(x.s.m, slaves).Some?;
        y.(observed := x.observed + [slaves], observers := x.observers + [id],
           announcedAt := if announced then x.announcedAt + [|x.observed|] else x.announcedAt,
           sent := if announced then x.sent[id := SentTo(x, id) + [slaves]] else x.sent)
      else y
    case _ => y
  }

  function Start(saved: map<string, u64>): Traced
  {
    Traced(Swarm(Master(map[], None, None, [], FIRST_TUNNEL_PORT, 0, saved), map[]), 0, map[], 0, [], [], [], map[], [])
  }

  ghost predicate IsRun(x: Traced, events: seq<Event>, y: Traced)
    decreases |events|
  {
    if events == [] then x == y
    else Enabled(x.s, events[0]) && IsRun(Next(x, events[0]), events[1..], y)
  }

  /** What every step keeps, every run keeps. */
  lemma {:induction false} RunKeeps(inv: Traced -> bool, x: Traced, events: seq<Event>, y: Traced)
    requires inv(x) && IsRun(x, events, y)
    requires forall z, e :: inv(z) && Enabled(z.s, e) ==> inv(Next(z, e))
    ensures inv(y)
    decreases |events|
  {
    if events != [] {
      RunKeeps(inv, Next(x, events[0]), events[1..], y);
    }
  }

  lemma {:induction false} RunThen(x: Traced, events: seq<Event>, y: Traced, more: seq<Event>, z: Traced)
    requires IsRun(x, events, y) && IsRun(y, more, z)
    ensures IsRun(x, events + more, z)
    decreases |events|
  {
    if events == [] {
      assert events + more == more;
    } else {
      var all := events + more;
      assert all[0] == events[0] && all[1..] == events[1..] + more;
      RunThen(Next(x, events[0]), events[1..], y, more, z);
    }
  }

  // ----- one SuperNode -----

  ghost predicate SuperSafe(m: Master)
  {
    && (forall id :: id in m.workers ==> m.workers[id].id == id)
    && (forall id :: id in m.workers && m.workers[id].role.SuperNode? ==> m.superId == Some(id))
    && (m.superId.Some? ==> m.superId.value in m.workers)
    && (m.cmdConn.Some? <==> m.superId.Some?)
  }

  lemma SuperSafeStep(s: Swarm, e: Event)
    requires SuperSafe(s.m)
    ensures SuperSafe(Step(s, e).m)
  {
  }

  /** In every run, only the recorded id can have the SuperNode role (so at most
      one worker has it), the recorded id is registered, and a command channel is
      held exactly while an id is recorded. */
  lemma SuperNodeSafety(saved: map<string, u64>, events: seq<Event>, y: Traced)
    requires IsRun(Start(saved), events, y)
    ensures SuperSafe(y.s.m)
  {
    forall x: Traced, e | SuperSafe(x.s.m) ensures SuperSafe(Next(x, e).s.m) {
      SuperSafeStep(x.s, e);
    }
    RunKeeps((x: Traced) => SuperSafe(x.s.m), Start(saved), events, y);
  }

  /** Whether an event takes worker id out of the registry. */
  predicate Removes(s: Swarm, e: Event, id: string)
  {
    || (e.Close? && e.conn in s.conns && s.conns[e.conn] == id)
    || (e.Tick? && id in StaleIds(s.m, e.now))
  }

  ghost predicate NeverRemoves(x: Traced, events: seq<Event>, id: string)
    decreases |events|
  {
    events == [] || (!Removes(x.s, events[0], id) && NeverRemoves(Next(x, events[0]), events[1..], id))
  }

  /** A second REGISTER of the recorded id loses it the role, and from then on,
      as long as that id stays registered, nobody is SuperNode. */
  lemma SecondRegisterLeavesNoSuperNode(saved: map<string, u64>, before: seq<Event>, x: Traced,
                                        r: Registration, after: seq<Event>, y: Traced)
    requires IsRun(Start(saved), before, x) && x.s.m.superId == Some(r.id)
    requires IsRun(Next(x, Enrol(r)), after, y) && NeverRemoves(Next(x, Enrol(r)), after, r.id)
    ensures y.s.m.superId == Some(r.id)
    ensures forall id :: id in y.s.m.workers ==> !y.s.m.workers[id].role.SuperNode?
  {
    SuperNodeSafety(saved, before, x);
    SeatStaysBlocked(Next(x, Enrol(r)), after, y, r.id);
  }

  lemma {:induction false} SeatStaysBlocked(x: Traced, events: seq<Event>, y: Traced, holder: string)
    requires x.s.m.superId == Some(holder)
    requires forall id :: id in x.s.m.workers ==> !x.s.m.workers[id].role.SuperNode?
    requires IsRun(x, events, y) && NeverRemoves(x, events, holder)
    ensures y.s.m.superId == Some(holder)
    ensures forall id :: id in y.s.m.workers ==> !y.s.m.workers[id].role.SuperNode?
    decreases |events|
  {
    if events != [] {
      SeatStaysBlocked(Next(x, events[0]), events[1..], y, holder);
    }
  }

  /** A REGISTER of id. */
  predicate Registers(e: Event, id: string)
  {
    e.Enrol? && e.r.id == id
  }

  ghost predicate RoleSinceElection(x: Traced)
  {
    x.s.m.superId.Some? ==>
      var id := x.s.m.superId.value;
      id in x.s.m.workers
      && (x.s.m.workers[id].role.SuperNode? <==> forall e :: e in x.sinceElection ==> !Registers(e, id))
  }

  lemma RoleSinceElectionStep(x: Traced, e: Event)
    requires RoleSinceElection(x) && SuperSafe(x.s.m)
    ensures RoleSinceElection(Next(x, e))
  {
    var n := Next(x, e);
    if n.s.m.superId.Some? && n.s.m.superId == x.s.m.superId {
      assert n.sinceElection == x.sinceElection + [e];
      RecordedKeepsItsRole(x.s, e);
    }
  }

  lemma RecordedKeepsItsRole(s: Swarm, e: Event)
    requires SuperSafe(s.m) && s.m.superId.Some? && Step(s, e).m.superId == s.m.superId
    ensures var id := s.m.superId.value;
            && id in s.m.workers && id in Step(s, e).m.workers
            && (Step(s, e).m.workers[id].role.SuperNode? <==> s.m.workers[id].role.SuperNode? && !Registers(e, id))
  {
  }

  /** The election: the event just before those since it is the REGISTER that made
      the recorded worker SuperNode. */
  ghost predicate ElectedIn(x: Traced, past: seq<Event>)
  {
    x.s.m.superId.Some? ==>
      |x.sinceElection| < |past|
      && var k := |past| - |x.sinceElection| - 1;
         Registers(past[k], x.s.m.superId.value) && past[k].r.Qualifies() && past[k + 1..] == x.sinceElection
  }

  lemma ElectedStep(x: Traced, past: seq<Event>, e: Event)
    requires ElectedIn(x, past)
    ensures ElectedIn(Next(x, e), past + [e])
  {
    var n := Next(x, e);
    if n.s.m.superId.Some? && x.s.m.superId.Some? {
      var k := |past| - |x.sinceElection| - 1;
      assert (past + [e])[k + 1..] == past[k + 1..] + [e];
    }
  }

  lemma {:induction false} ElectedRun(x: Traced, past: seq<Event>, events: seq<Event>, y: Traced)
    requires ElectedIn(x, past) && IsRun(x, events, y)
    ensures ElectedIn(y, past + events)
    decreases |events|
  {
    if events == [] {
      assert past + events == past;
    } else {
      ElectedStep(x, past, events[0]);
      ElectedRun(Next(x, events[0]), past + [events[0]], events[1..], y);
      assert past + [events[0]] + events[1..] == past + events;
    }
  }

  lemma RoleSinceElectionRun(saved: map<string, u64>, events: seq<Event>, y: Traced)
    requires IsRun(Start(saved), events, y)
    ensures RoleSinceElection(y)
  {
    forall x: Traced, e | SuperSafe(x.s.m) && RoleSinceElection(x)
      ensures SuperSafe(Next(x, e).s.m) && RoleSinceElection(Next(x, e))
    {
      SuperSafeStep(x.s, e);
      RoleSinceElectionStep(x, e);
    }
    RunKeeps((x: Traced) => SuperSafe(x.s.m) && RoleSinceElection(x), Start(saved), events, y);
  }

  /** In every run the recorded worker was elected by one of its REGISTERs, and it
      still has the SuperNode role exactly when it has not registered again since. */
  lemma RecordedIsSuperNodeIffNotRegisteredAgain(saved: map<string, u64>, events: seq<Event>, y: Traced)
    requires IsRun(Start(saved), events, y) && y.s.m.superId.Some?
    ensures var id := y.s.m.superId.value;
            && |y.sinceElection| < |events|
            && (var k := |events| - |y.sinceElection| - 1;
                Registers(events[k], id) && events[k].r.Qualifies() && events[k + 1..] == y.sinceElection)
            && id in y.s.m.workers
            && (y.s.m.workers[id].role.SuperNode? <==> forall e :: e in y.sinceElection ==> !Registers(e, id))
  {
    RoleSinceElectionRun(saved, events, y);
    ElectedFromStart(saved, events, y);
  }

  lemma ElectedFromStart(saved: map<string, u64>, events: seq<Event>, y: Traced)
    requires IsRun(Start(saved), events, y)
    ensures ElectedIn(y, events)
  {
    ElectedRun(Start(saved), [], events, y);
    assert [] + events == events;
  }

  predicate Vies(e: Event)
  {
    e.Enrol? && e.r.Qualifies()
  }

  /** Losing the SuperNode (here by reaping) vacates the seat, it stays vacant
      while nobody qualified registers, and the next qualified REGISTER takes it. */
  lemma NextQualifiedRegisterIsElected(x: Traced, now: nat, between: seq<Event>, y: Traced, r: Registration)
    requires x.s.m.superId.Some? && x.s.m.superId.value in StaleIds(x.s.m, now)
    requires IsRun(Next(x, Tick(now)), between, y) && (forall e :: e in between ==> !Vies(e)) && r.Qualifies()
    ensures var n := Next(y, Enrol(r)).s.m;
            n.superId == Some(r.id) && n.workers[r.id].role.SuperNode? && n.cmdConn == Some(r.conn)
  {
    VacancyLasts(Next(x, Tick(now)), between, y);
  }

  lemma {:induction false} VacancyLasts(x: Traced, events: seq<Event>, y: Traced)
    requires x.s.m.superId.None? && IsRun(x, events, y) && forall e :: e in events ==> !Vies(e)
    ensures y.s.m.superId.None?
    decreases |events|
  {
    if events != [] {
      assert events[0] in events;
      VacancyLasts(Next(x, events[0]), events[1..], y);
    }
  }

  // ----- tunnel ports -----

  /** The port the k-th allocation (from 0) hands out. */
  function PortOf(k: nat): nat
  {
    FIRST_TUNNEL_PORT + k % PORTS
  }

  lemma PortAfterPortOf(k: nat)
    ensures PortAfter(PortOf(k)) == PortOf(k + 1)
  {
  }

  lemma SamePort(j: nat, k: nat)
    ensures PortOf(j) == PortOf(k) <==> (j - k) % PORTS == 0
    ensures FIRST_TUNNEL_PORT <= PortOf(j) <= U16_MAX
    ensures j < k < j + PORTS ==> PortOf(j) != PortOf(k)
  {
  }

  ghost predicate IssuedOnce(x: Traced)
  {
    && (forall id :: id in x.issued ==> x.issued[id] < x.allocs)
    && (forall a, b :: a in x.issued && b in x.issued && a != b ==> x.issued[a] != x.issued[b])
  }

  ghost predicate HasItsPort(x: Traced, id: string)
    requires id in x.s.m.workers
  {
    var w := x.s.m.workers[id];
    if w.role.SuperNode? then w.tunnelPort == 0
    else id in x.issued && w.tunnelPort == PortOf(x.issued[id])
  }

  ghost predicate PortsCounted(x: Traced)
  {
    && x.s.m.nextPort == PortOf(x.allocs)
    && (forall id :: id in x.s.m.workers ==> HasItsPort(x, id))
  }

  lemma PortsCountedStep(x: Traced, e: Event)
    requires PortsCounted(x)
    ensures PortsCounted(Next(x, e))
  {
    var y := Next(x, e);
    if e.Enrol? {
      PortAfterPortOf(x.allocs);
    }
    forall id | id in y.s.m.workers ensures HasItsPort(y, id) {
      if id in x.s.m.workers {
        assert HasItsPort(x, id);
      }
    }
  }

  lemma PortsRun(saved: map<string, u64>, events: seq<Event>, y: Traced)
    requires IsRun(Start(saved), events, y)
    ensures PortsCounted(y) && IssuedOnce(y)
  {
    forall x: Traced, e | PortsCounted(x) ensures PortsCounted(Next(x, e)) {
      PortsCountedStep(x, e);
    }
    RunKeeps((x: Traced) => PortsCounted(x), Start(saved), events, y);
    RunKeeps((x: Traced) => IssuedOnce(x), Start(saved), events, y);
  }

  /** In every run: the k-th allocation from 0 yields 18000 + k mod 47536, a
      SuperNode has port 0, everyone else a port in 18000..65535, and two of them
      share a port exactly when the allocations they live on are a positive
      multiple of 47536 apart, so never when fewer than 47536 separate them. */
  lemma TunnelPortUniqueness(saved: map<string, u64>, events: seq<Event>, y: Traced, a: string, b: string)
    requires IsRun(Start(saved), events, y)
    requires a in y.s.m.workers && b in y.s.m.workers && a != b
    requires !y.s.m.workers[a].role.SuperNode?
    ensures y.s.m.nextPort == 18000 + y.allocs % 47536
    ensures 18000 <= y.s.m.workers[a].tunnelPort <= 65535
    ensures y.s.m.workers[b].role.SuperNode? ==> y.s.m.workers[b].tunnelPort == 0
    ensures !y.s.m.workers[b].role.SuperNode? ==>
              && a in y.issued && b in y.issued && y.issued[a] != y.issued[b]
              && (y.s.m.workers[a].tunnelPort == y.s.m.workers[b].tunnelPort
                  <==> (y.issued[a] as int - y.issued[b] as int) % 47536 == 0)
              && (y.issued[a] < y.issued[b] < y.issued[a] + 47536 ==>
                  y.s.m.workers[a].tunnelPort != y.s.m.workers[b].tunnelPort)
  {
    PortsRun(saved, events, y);
    assert HasItsPort(y, a) && HasItsPort(y, b);
    SamePort(y.issued[a], if b in y.issued then y.issued[b] else 0);
  }

  // ----- the version counter -----

  /** A node without the three fields a PING refreshes. */
  function Lasting(w: WorkerNode): WorkerNode
  {
    w.(vramFreeMb := 0, ramFreeMb := 0, lastPing := 0)
  }

  /** Agreement on membership, roles, addresses, ports, credits, the recorded
      SuperNode, its channel and the port allocator. */
  ghost predicate SameShape(m: Master, n: Master)
  {
    && m.workers.Keys == n.workers.Keys
    && (forall id :: id in m.workers && id in n.workers ==> Lasting(m.workers[id]) == Lasting(n.workers[id]))
    && m.superId == n.superId && m.cmdConn == n.cmdConn && m.nextPort == n.nextPort
  }

  ghost predicate VersionSince(x: Traced, y: Traced)
  {
    && x.bumps <= y.bumps
    && y.s.m.version == WrappingAdd(x.s.m.version, y.bumps - x.bumps)
    && (x.bumps == y.bumps ==> SameShape(x.s.m, y.s.m))
  }

  lemma BumpsCountVersions(s: Swarm, e: Event)
    ensures Step(s, e).m.version == WrappingAdd(s.m.version, Bumps(s, e))
  {
  }

  lemma WithoutBumpsNothingLastingChanges(s: Swarm, e: Event)
    requires Bumps(s, e) == 0
    ensures SameShape(s.m, Step(s, e).m)
  {
    if e.Tick? {
      assert StaleIds(s.m, e.now) == {};
      assert s.m.workers - StaleIds(s.m, e.now) == s.m.workers;
    }
  }

  lemma VersionSinceStep(x: Traced, y: Traced, e: Event)
    requires VersionSince(x, y)
    ensures VersionSince(x, Next(y, e))
  {
    var n := Bumps(y.s, e);
    assert Next(y, e).s == Step(y.s, e) && Next(y, e).bumps == y.bumps + n;
    WrappingAddTwice(x.s.m.version, y.bumps - x.bumps, n);
    BumpsCountVersions(y.s, e);
    if n == 0 {
      WithoutBumpsNothingLastingChanges(y.s, e);
    }
  }

  lemma WrapMeansMany(v: u64, n: nat)
    ensures WrappingAdd(v, n) == v && n < TWO_64 ==> n == 0
    ensures v + n < TWO_64 ==> v <= WrappingAdd(v, n)
  {
  }

  lemma VersionSinceRun(x: Traced, events: seq<Event>, y: Traced)
    requires IsRun(x, events, y)
    ensures VersionSince(x, y)
  {
    forall z: Traced, e | VersionSince(x, z) ensures VersionSince(x, Next(z, e)) {
      VersionSinceStep(x, z, e);
    }
    RunKeeps((z: Traced) => VersionSince(x, z), x, events, y);
  }

  /** Between any state and any later one: equal versions with fewer than 2^64
      bumps in between mean that nothing but PINGs' fields (and the remembered
      slave list) changed, and without a wrap the version never decreases. */
  lemma VersionIsFaithful(x: Traced, events: seq<Event>, y: Traced)
    requires IsRun(x, events, y)
    ensures x.bumps <= y.bumps
    ensures y.bumps - x.bumps < TWO_64 && x.s.m.version == y.s.m.version ==> SameShape(x.s.m, y.s.m)
    ensures x.s.m.version + (y.bumps - x.bumps) < TWO_64 ==> x.s.m.version <= y.s.m.version
  {
    VersionSinceRun(x, events, y);
    WrapMeansMany(x.s.m.version, y.bumps - x.bumps);
  }

  // ----- slave announcements -----

  function Before(observed: seq<seq<string>>, i: nat): seq<string>
    requires i <= |observed|
  {
    if i == 0 then [] else observed[i - 1]
  }

  /** Observation k is a nonempty list other than the one before it. */
  predicate IsNews(observed: seq<seq<string>>, k: nat)
    requires k < |observed|
  {
    observed[k] != [] && observed[k] != Before(observed, k)
  }

  /** The announcements are exactly the changes, in order. */
  ghost predicate AnnouncedChanges(observed: seq<seq<string>>, at: seq<nat>)
  {
    && (forall i, j :: 0 <= i < j < |at| ==> at[i] < at[j])
    && (forall i :: 0 <= i < |at| ==> at[i] < |observed| && IsNews(observed, at[i]))
    && (forall k :: 0 <= k < |observed| && IsNews(observed, k) ==> k in at)
  }

  ghost predicate Announced(x: Traced)
  {
    && x.s.m.lastSlaves == Before(x.observed, |x.observed|)
    && AnnouncedChanges(x.observed, x.announcedAt)
  }

  lemma OldNews(observed: seq<seq<string>>, slaves: seq<string>, k: nat)
    requires k < |observed|
    ensures IsNews(observed + [slaves], k) == IsNews(observed, k)
  {
    assert Before(observed + [slaves], k) == Before(observed, k);
  }

  function Extended(observed: seq<seq<string>>, at: seq<nat>, slaves: seq<string>): seq<nat>
  {
    if IsNews(observed + [slaves], |observed|) then at + [|observed|] else at
  }

  lemma ListedIsNews(observed: seq<seq<string>>, at: seq<nat>, slaves: seq<string>, i: nat)
    requires AnnouncedChanges(observed, at) && i < |Extended(observed, at, slaves)|
    ensures var k := Extended(observed, at, slaves)[i]; k <= |observed| && IsNews(observed + [slaves], k)
  {
    if i < |at| {
      OldNews(observed, slaves, at[i]);
    }
  }

  lemma NewsIsListed(observed: seq<seq<string>>, at: seq<nat>, slaves: seq<string>, k: nat)
    requires AnnouncedChanges(observed, at) && k <= |observed| && IsNews(observed + [slaves], k)
    ensures k in Extended(observed, at, slaves)
  {
    if k < |observed| {
      OldNews(observed, slaves, k);
      assert k in at;
    } else {
      assert Extended(observed, at, slaves)[|at|] == k;
    }
  }

  lemma ObserveMore(observed: seq<seq<string>>, at: seq<nat>, slaves: seq<string>)
    requires AnnouncedChanges(observed, at)
    ensures AnnouncedChanges(observed + [slaves], Extended(observed, at, slaves))
  {
    var more, longer := observed + [slaves], Extended(observed, at, slaves);
    forall i | 0 <= i < |longer| ensures longer[i] < |more| && IsNews(more, longer[i]) {
      ListedIsNews(observed, at, slaves, i);
    }
    forall k | 0 <= k < |more| && IsNews(more, k) ensures k in longer {
      NewsIsListed(observed, at, slaves, k);
    }
    assert forall i, j :: 0 <= i < j < |longer| ==> longer[i] < longer[j];
  }

  lemma AnnouncedStep(x: Traced, e: Event)
    requires Announced(x)
    ensures Announced(Next(x, e))
  {
    if e.Ping? && e.id in x.s.m.workers {
      var slaves := SlaveAddrs(x.s.m.workers, e.order);
      ObserveMore(x.observed, x.announcedAt, slaves);
      assert Before(x.observed + [slaves], |x.observed|) == x.s.m.lastSlaves;
    }
  }

  lemma AnnouncedRun(saved: map<string, u64>, events: seq<Event>, y: Traced)
    requires IsRun(Start(saved), events, y)
    ensures Announced(y)
  {
    forall x: Traced, e | Announced(x) ensures Announced(Next(x, e)) {
      AnnouncedStep(x, e);
    }
    RunKeeps((x: Traced) => Announced(x), Start(saved), events, y);
  }

  lemma {:induction false} LastChange(observed: seq<seq<string>>, at: seq<nat>, k: nat)
    requires AnnouncedChanges(observed, at) && k < |observed| && observed[k] != []
    requires forall i :: 0 <= i < |at| ==> at[i] <= k
    ensures at != [] && observed[at[|at| - 1]] == observed[k]
  {
    if !IsNews(observed, k) {
      LastChange(observed, at, k - 1);
    }
  }

  /** The last announcement made to any worker is the list at the last successful PING
      exactly when that list is nonempty. */
  lemma LastAnnouncementIsCurrentIff(saved: map<string, u64>, events: seq<Event>, y: Traced)
    requires IsRun(Start(saved), events, y) && y.observed != []
    ensures forall i :: 0 <= i < |y.announcedAt| ==> y.announcedAt[i] < |y.observed|
    ensures (y.announcedAt != []
             && y.observed[y.announcedAt[|y.announcedAt| - 1]] == y.observed[|y.observed| - 1])
            <==> y.observed[|y.observed| - 1] != []
  {
    AnnouncedRun(saved, events, y);
    if y.observed[|y.observed| - 1] != [] {
      LastChange(y.observed, y.announcedAt, |y.observed| - 1);
    } else if y.announcedAt != [] {
      assert IsNews(y.observed, y.announcedAt[|y.announcedAt| - 1]);
    }
  }

  lemma {:induction false} SameUntil(observed: seq<seq<string>>, at: seq<nat>, i: nat, k: nat)
    requires AnnouncedChanges(observed, at) && i + 1 < |at| && at[i] <= k < at[i + 1]
    requires forall j :: at[i] < j < at[i + 1] ==> observed[j] != []
    ensures observed[k] == observed[at[i]]
  {
    if k > at[i] {
      SameUntil(observed, at, i, k - 1);
      if IsNews(observed, k) {
        var j :| 0 <= j < |at| && at[j] == k;
      }
    }
  }

  /** Stutter-free: two consecutive announcements are equal only if an empty list
      was observed between them. */
  lemma NoStutter(saved: map<string, u64>, events: seq<Event>, y: Traced, i: nat)
    requires IsRun(Start(saved), events, y)
    requires i + 1 < |y.announcedAt|
    ensures y.announcedAt[i] < y.announcedAt[i + 1] < |y.observed|
    ensures y.observed[y.announcedAt[i]] == y.observed[y.announcedAt[i + 1]] ==>
              exists k :: y.announcedAt[i] < k < y.announcedAt[i + 1] && y.observed[k] == []
  {
    AnnouncedRun(saved, events, y);
    var a, b := y.announcedAt[i], y.announcedAt[i + 1];
    if forall k :: a < k < b ==> y.observed[k] != [] {
      SameUntil(y.observed, y.announcedAt, i, b - 1);
      assert IsNews(y.observed, b);
    }
  }

  // ----- who an announcement goes to -----

  /** The changes among the first n observations that were made at a PING of id. */
  function NewsFor(observed: seq<seq<string>>, observers: seq<string>, id: string, n: nat): seq<seq<string>>
    requires n <= |observed| == |observers|
  {
    if n == 0 then []
    else NewsFor(observed, observers, id, n - 1)
         + (if IsNews(observed, n - 1) && observers[n - 1] == id then [observed[n - 1]] else [])
  }

  function AllNews(observed: seq<seq<string>>, n: nat): seq<seq<string>>
    requires n <= |observed|
  {
    if n == 0 then [] else AllNews(observed, n - 1) + (if IsNews(observed, n - 1) then [observed[n - 1]] else [])
  }

  ghost predicate Delivered(x: Traced)
  {
    && |x.observers| == |x.observed|
    && x.s.m.lastSlaves == Before(x.observed, |x.observed|)
    && forall id :: SentTo(x, id) == NewsFor(x.observed, x.observers, id, |x.observed|)
  }

  lemma {:induction false} NewsForLonger(observed: seq<seq<string>>, observers: seq<string>, id: string, n: nat,
                                         slaves: seq<string>, pinger: string)
    requires n <= |observed| == |observers|
    ensures NewsFor(observed + [slaves], observers + [pinger], id, n) == NewsFor(observed, observers, id, n)
  {
    if n > 0 {
      NewsForLonger(observed, observers, id, n - 1, slaves, pinger);
      OldNews(observed, slaves, n - 1);
    }
  }

  lemma DeliveredPing(x: Traced, e: Event, id: string)
    requires Delivered(x) && e.Ping? && e.id in x.s.m.workers
    ensures var n := Next(x, e);
            |n.observers| == |n.observed| && SentTo(n, id) == NewsFor(n.observed, n.observers, id, |n.observed|)
  {
    var slaves := SlaveAddrs(x.s.m.workers, e.order);
    var more, last := x.observed + [slaves], |x.observed|;
    assert Before(more, last) == x.s.m.lastSlaves;
    assert IsNews(more, last) == Announcement(x.s.m, slaves).Some?;
    NewsForLonger(x.observed, x.observers, id, last, slaves, e.id);
    assert NewsFor(x.observed, x.observers, id, last) + [] == NewsFor(x.observed, x.observers, id, last);
  }

  lemma DeliveredStep(x: Traced, e: Event)
    requires Delivered(x)
    ensures Delivered(Next(x, e))
  {
    if e.Ping? && e.id in x.s.m.workers {
      forall id
        ensures SentTo(Next(x, e), id) == NewsFor(Next(x, e).observed, Next(x, e).observers, id, |Next(x, e).observed|)
      {
        DeliveredPing(x, e, id);
      }
    }
  }

  lemma DeliveredRun(saved: map<string, u64>, events: seq<Event>, y: Traced)
    requires IsRun(Start(saved), events, y)
    ensures Delivered(y)
  {
    forall x: Traced, e | Delivered(x) ensures Delivered(Next(x, e)) {
      DeliveredStep(x, e);
    }
    RunKeeps((x: Traced) => Delivered(x), Start(saved), events, y);
  }

  lemma NewsForNext(observed: seq<seq<string>>, observers: seq<string>, id: string, n: nat)
    requires n < |observed| == |observers|
    ensures NewsFor(observed, observers, id, n + 1)
            == if IsNews(observed, n) && observers[n] == id then NewsFor(observed, observers, id, n) + [observed[n]]
               else NewsFor(observed, observers, id, n)
    ensures AllNews(observed, n + 1) == if IsNews(observed, n) then AllNews(observed, n) + [observed[n]]
            else AllNews(observed, n)
  {
    assert NewsFor(observed, observers, id, n) + [] == NewsFor(observed, observers, id, n);
    assert AllNews(observed, n) + [] == AllNews(observed, n);
  }

  /** All changes went to id, among the first n observations. */
  predicate AllAt(observed: seq<seq<string>>, observers: seq<string>, id: string, n: nat)
    requires n <= |observed| == |observers|
  {
    forall j :: 0 <= j < n && IsNews(observed, j) ==> observers[j] == id
  }

  lemma AllAtNext(observed: seq<seq<string>>, observers: seq<string>, id: string, n: nat)
    requires n < |observed| == |observers|
    ensures AllAt(observed, observers, id, n + 1)
            <==> AllAt(observed, observers, id, n) && (IsNews(observed, n) ==> observers[n] == id)
  {
  }

  lemma SameEnds(a: seq<seq<string>>, b: seq<seq<string>>, last: seq<string>)
    ensures a + [last] == b + [last] <==> a == b
  {
    assert (a + [last])[..|a|] == a && (b + [last])[..|b|] == b;
  }

  lemma {:induction false} NewsCompared(observed: seq<seq<string>>, observers: seq<string>, id: string, n: nat)
    requires n <= |observed| == |observers|
    ensures |NewsFor(observed, observers, id, n)| <= |AllNews(observed, n)|
    ensures NewsFor(observed, observers, id, n) == AllNews(observed, n) <==> AllAt(observed, observers, id, n)
  {
    if n > 0 {
      NewsCompared(observed, observers, id, n - 1);
      NewsForNext(observed, observers, id, n - 1);
      AllAtNext(observed, observers, id, n - 1);
      if IsNews(observed, n - 1) && observers[n - 1] == id {
        SameEnds(NewsFor(observed, observers, id, n - 1), AllNews(observed, n - 1), observed[n - 1]);
      } else if IsNews(observed, n - 1) {
        assert |NewsFor(observed, observers, id, n)| < |AllNews(observed, n)|;
      }
    }
  }

  /** Every run, every worker: it has been sent exactly the changes of the list that
      its own PINGs were the first to observe, in order. So it has been sent every
      change exactly when all of them were first observed at its PINGs. */
  lemma AnnouncementsGoToTheirObserver(saved: map<string, u64>, events: seq<Event>, y: Traced, id: string)
    requires IsRun(Start(saved), events, y)
    ensures |y.observers| == |y.observed|
    ensures SentTo(y, id) == NewsFor(y.observed, y.observers, id, |y.observed|)
    ensures SentTo(y, id) == AllNews(y.observed, |y.observed|) <==> AllAt(y.observed, y.observers, id, |y.observed|)
  {
    DeliveredRun(saved, events, y);
    NewsCompared(y.observed, y.observers, id, |y.observed|);
  }

  /** Observation j is the last change that a PING of id was the first to observe. */
  ghost predicate LastNewsFor(observed: seq<seq<string>>, observers: seq<string>, id: string, j: nat, n: nat)
    requires n <= |observed| == |observers|
  {
    && j < n && IsNews(observed, j) && observers[j] == id
    && forall k :: j < k < n && IsNews(observed, k) ==> observers[k] != id
  }

  lemma LastNewsIsNow(observed: seq<seq<string>>, observers: seq<string>, id: string, n: nat)
    requires 0 < n <= |observed| == |observers| && IsNews(observed, n - 1) && observers[n - 1] == id
    ensures LastNewsFor(observed, observers, id, n - 1, n)
    ensures var mine := NewsFor(observed, observers, id, n);
            mine != [] && mine[|mine| - 1] == observed[n - 1]
  {
  }

  lemma LastNewsStays(observed: seq<seq<string>>, observers: seq<string>, id: string, n: nat, j: nat)
    requires 0 < n <= |observed| == |observers| && !(IsNews(observed, n - 1) && observers[n - 1] == id)
    ensures NewsFor(observed, observers, id, n) == NewsFor(observed, observers, id, n - 1)
    ensures LastNewsFor(observed, observers, id, j, n) <==> LastNewsFor(observed, observers, id, j, n - 1)
  {
  }

  lemma {:induction false} LastOfNewsFor(observed: seq<seq<string>>, observers: seq<string>, id: string, n: nat, j: nat)
    requires n <= |observed| == |observers| && LastNewsFor(observed, observers, id, j, n)
    ensures var mine := NewsFor(observed, observers, id, n);
            mine != [] && mine[|mine| - 1] == observed[j]
  {
    if IsNews(observed, n - 1) && observers[n - 1] == id {
      LastNewsIsNow(observed, observers, id, n);
    } else {
      LastNewsStays(observed, observers, id, n, j);
      LastOfNewsFor(observed, observers, id, n - 1, j);
    }
  }

  lemma {:induction false} SomeLastNews(observed: seq<seq<string>>, observers: seq<string>, id: string, n: nat)
    returns (j: nat)
    requires n <= |observed| == |observers| && NewsFor(observed, observers, id, n) != []
    ensures LastNewsFor(observed, observers, id, j, n)
  {
    if IsNews(observed, n - 1) && observers[n - 1] == id {
      LastNewsIsNow(observed, observers, id, n);
      j := n - 1;
    } else {
      LastNewsStays(observed, observers, id, n, 0);
      j := SomeLastNews(observed, observers, id, n - 1);
      LastNewsStays(observed, observers, id, n, j);
    }
  }

  predicate HoldsList(x: Traced, id: string, slaves: seq<string>)
  {
    SentTo(x, id) != [] && SentTo(x, id)[|SentTo(x, id)| - 1] == slaves
  }

  /** Every run: the SuperNode (or any worker) holds the list of the last successful
      PING exactly when the last change first observed at a PING of its own was to
      that list. */
  lemma WhoHoldsTheCurrentList(saved: map<string, u64>, events: seq<Event>, y: Traced, id: string)
    requires IsRun(Start(saved), events, y) && y.observed != []
    ensures |y.observers| == |y.observed|
    ensures HoldsList(y, id, y.observed[|y.observed| - 1])
            <==> exists j: nat ::
                   LastNewsFor(y.observed, y.observers, id, j, |y.observed|)
                   && y.observed[j] == y.observed[|y.observed| - 1]
  {
    DeliveredRun(saved, events, y);
    if SentTo(y, id) != [] {
      var j := SomeLastNews(y.observed, y.observers, id, |y.observed|);
      LastOfNewsFor(y.observed, y.observers, id, |y.observed|, j);
    }
    forall j: nat | LastNewsFor(y.observed, y.observers, id, j, |y.observed|)
      ensures SentTo(y, id) != [] && SentTo(y, id)[|SentTo(y, id)| - 1] == y.observed[j]
    {
      LastOfNewsFor(y.observed, y.observers, id, |y.observed|, j);
    }
  }

  /** The announcement goes to whichever worker pings first after a change: here a
      provider's own PING consumes it and the SuperNode's next PING brings none. */
  lemma SuperNodeMissesAnAnnouncement(saved: map<string, u64>, super: Registration, gpu: Registration, now: nat)
    requires super.Qualifies() && gpu.Qualifies() && super.id != gpu.id
    ensures var x := Next(Next(Start(saved), Enrol(super)), Enrol(gpu));
            var pings := [Ping(gpu.id, 0, 0, now, [super.id, gpu.id]), Ping(super.id, 0, 0, now, [super.id, gpu.id])];
            var y := Next(Next(x, pings[0]), pings[1]);
            && IsRun(x, pings, y)
            && y.s.m.superId == Some(super.id)
            && y.observed == [[x.s.m.workers[gpu.id].addr], [x.s.m.workers[gpu.id].addr]]
            && SentTo(y, gpu.id) == [[x.s.m.workers[gpu.id].addr]] && SentTo(y, super.id) == []
  {
    var x := Next(Next(Start(saved), Enrol(super)), Enrol(gpu));
    var order := [super.id, gpu.id];
    var c, d := Ping(gpu.id, 0, 0, now, order), Ping(super.id, 0, 0, now, order);
    var z := Next(x, c);
    assert order[1..] == [gpu.id];
    assert SlaveAddrs(x.s.m.workers, [gpu.id]) == [x.s.m.workers[gpu.id].addr];
    assert SlaveAddrs(x.s.m.workers, order) == [x.s.m.workers[gpu.id].addr];
    HeartbeatKeepsSlaves(x.s.m, gpu.id, 0, 0, now, order);
    assert [d][1..] == [] && [c, d][1..] == [d];
    assert IsRun(Next(z, d), [], Next(z, d));
    assert IsRun(z, [d], Next(z, d));
  }

  /** The order of iteration is part of the list, and the comparison is of lists:
      with the same workers but another order the list is announced again. */
  lemma ReorderingIsAnnounced(m: Master, a: string, b: string)
    requires a in m.workers && b in m.workers && m.workers[a].role.GpuProvider? && m.workers[b].role.GpuProvider?
    requires m.workers[a].addr != m.workers[b].addr && m.lastSlaves == SlaveAddrs(m.workers, [a, b])
    ensures Announcement(m, SlaveAddrs(m.workers, [b, a])) == Some([m.workers[b].addr, m.workers[a].addr])
  {
    SlavesOfTwo(m.workers, a, b);
    SlavesOfTwo(m.workers, b, a);
  }

  lemma SlavesOfTwo(workers: map<string, WorkerNode>, a: string, b: string)
    requires a in workers && b in workers && workers[a].role.GpuProvider? && workers[b].role.GpuProvider?
    ensures SlaveAddrs(workers, [a, b]) == [workers[a].addr, workers[b].addr]
  {
    assert [a, b][1..] == [b];
    assert SlaveAddrs(workers, [b]) == [workers[b].addr] + SlaveAddrs(workers, []);
  }

  // ----- reaping in time -----

  const TICK_EVERY: nat := 30 * SECOND

  /** A state with the clock, the time of the next tick and the ticks so far. */
  datatype Timed = Timed(x: Traced, now: nat, due: nat, ticks: nat)

  function TimeOf(e: Event, now: nat): nat
  {
    match e
    case Enrol(r) => r.now
    case Ping(_, _, _, t, _) => t
    case Tick(t) => t
    case _ => now
  }

  /** Time does not go backwards or past the next tick, and ticks are on time. */
  ghost predicate Timely(c: Timed, e: Event)
  {
    && Enabled(c.x.s, e)
    && c.now <= TimeOf(e, c.now) <= c.due
    && (e.Tick? ==> e.now == c.due)
  }

  function TimedNext(c: Timed, e: Event): Timed
  {
    var t := TimeOf(e, c.now);
    if e.Tick? then Timed(Next(c.x, e), t, c.due + TICK_EVERY, c.ticks + 1)
    else c.(x := Next(c.x, e), now := t)
  }

  ghost predicate IsTimedRun(c: Timed, events: seq<Event>, d: Timed)
    decreases |events|
  {
    if events == [] then d.x == c.x && c.now <= d.now <= c.due && d.due == c.due && d.ticks == c.ticks
    else Timely(c, events[0]) && IsTimedRun(TimedNext(c, events[0]), events[1..], d)
  }

  ghost predicate Fresh(c: Timed)
  {
    c.ticks > 0 ==>
      forall id :: id in c.x.s.m.workers ==> c.x.s.m.workers[id].lastPing + REAP_AFTER + TICK_EVERY >= c.due
  }

  lemma FreshStep(c: Timed, e: Event)
    requires Fresh(c) && Timely(c, e) && c.due <= c.now + TICK_EVERY
    ensures Fresh(TimedNext(c, e))
  {
  }

  lemma {:induction false} FreshRun(c: Timed, events: seq<Event>, d: Timed, id: string)
    requires IsTimedRun(c, events, d) && Fresh(c) && c.now <= c.due <= c.now + TICK_EVERY
    requires d.ticks > 0 && id in d.x.s.m.workers
    ensures d.x.s.m.workers[id].lastPing + 150_000 >= d.now
    decreases |events|
  {
    if events != [] {
      FreshStep(c, events[0]);
      FreshRun(TimedNext(c, events[0]), events[1..], d, id);
    }
  }

  /** From the first tick on (which is at startup, at time t0), at no time is a
      worker registered whose last PING or REGISTER is more than 150 s old. */
  lemma SilentWorkersAreReaped(saved: map<string, u64>, t0: nat, events: seq<Event>, d: Timed, id: string)
    requires IsTimedRun(Timed(Start(saved), t0, t0, 0), events, d)
    requires d.ticks > 0 && id in d.x.s.m.workers
    ensures d.x.s.m.workers[id].lastPing + 150_000 >= d.now
  {
    FreshRun(Timed(Start(saved), t0, t0, 0), events, d, id);
  }

  predicate Refreshes(e: Event, id: string)
  {
    (e.Enrol? && e.r.id == id) || (e.Ping? && e.id == id)
  }

  /** From `last` to `end`, id is heard from at least every 120 s. Times are in
      milliseconds. */
  ghost predicate HeardFrom(events: seq<Event>, id: string, last: nat, end: nat)
    decreases |events|
  {
    if events == [] then end <= last + 120_000
    else if Refreshes(events[0], id) then
      TimeOf(events[0], 0) <= last + 120_000 && HeardFrom(events[1..], id, TimeOf(events[0], 0), end)
    else HeardFrom(events[1..], id, last, end)
  }

  ghost predicate NeverCloses(x: Traced, events: seq<Event>, id: string)
    decreases |events|
  {
    events == [] ||
    (!(events[0].Close? && events[0].conn in x.s.conns && x.s.conns[events[0].conn] == id)
     && NeverCloses(Next(x, events[0]), events[1..], id))
  }

  lemma {:induction false} HeardFromBoundsNow(c: Timed, events: seq<Event>, d: Timed, id: string, last: nat)
    requires IsTimedRun(c, events, d) && HeardFrom(events, id, last, d.now)
    ensures c.now <= last + REAP_AFTER
    decreases |events|
  {
    if events != [] && !Refreshes(events[0], id) {
      HeardFromBoundsNow(TimedNext(c, events[0]), events[1..], d, id, last);
    }
  }

  lemma HeardStays(s: Swarm, e: Event, id: string)
    requires id in s.m.workers && !Removes(s, e, id)
    ensures id in Step(s, e).m.workers
    ensures Step(s, e).m.workers[id].lastPing
            == if e.Enrol? && e.r.id == id then e.r.now else if e.Ping? && e.id == id then e.now
              else s.m.workers[id].lastPing
  {
  }

  lemma HeardOneStep(c: Timed, e: Event, id: string)
    requires Timely(c, e) && id in c.x.s.m.workers
    requires !(e.Close? && e.conn in c.x.s.conns && c.x.s.conns[e.conn] == id)
    requires TimedNext(c, e).now <= c.x.s.m.workers[id].lastPing + REAP_AFTER || Refreshes(e, id)
    ensures id in TimedNext(c, e).x.s.m.workers
    ensures TimedNext(c, e).x.s.m.workers[id].lastPing
            == if Refreshes(e, id) then TimeOf(e, 0) else c.x.s.m.workers[id].lastPing
  {
    HeardStays(c.x.s, e, id);
  }

  /** A registered worker that is heard from at least every 120 s, and none of
      whose connections closes, is never reaped. */
  lemma {:induction false} HeardWorkersStay(c: Timed, events: seq<Event>, d: Timed, id: string)
    requires IsTimedRun(c, events, d) && id in c.x.s.m.workers
    requires HeardFrom(events, id, c.x.s.m.workers[id].lastPing, d.now)
    requires NeverCloses(c.x, events, id)
    ensures id in d.x.s.m.workers
    decreases |events|
  {
    if events != [] {
      var n := TimedNext(c, events[0]);
      var last := c.x.s.m.workers[id].lastPing;
      if !Refreshes(events[0], id) {
        HeardFromBoundsNow(n, events[1..], d, id, last);
      }
      HeardOneStep(c, events[0], id);
      HeardWorkersStay(n, events[1..], d, id);
    }
  }
}
