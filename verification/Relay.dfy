// The TCP relay: one thread per connection, a table of waiting workers behind one
// lock, a condition per worker, and a byte bridge once a request has come.

module Relay {
  import opened Wrappers
  import opened Bytes

  /** The two versions in the repository: src/tunnel-relay.py serves one request per
      registration and waits in the critical section that registered it; the one at
      the root releases the lock in between and waits again after each request. */
  datatype Variant = OneShot | Looping

  const WORKER_MAGIC: byte := 69
  const API_PORT: nat := 7000
  const FIRST_PORT: nat := 18000

  /** One of the two copying threads of a bridge: `rest` is what it has received and
      not yet sent. */
  datatype Forward = Idle | Holding(rest: seq<byte>) | Over

  /** Where the thread of a connection is. */
  datatype Pc =
    // before the first byte
    | Reading
    | Rejected
    // a worker
    | EnterWorker
    | Registering
    | Arming
    | Armed
    | Waiting
    | Woken
    | Popping
    | Bridging(api: nat, up: Forward, down: Forward)
    | Leaving
    | Cleaning
    | WorkerDone
    // an API request
    | EnterApi
    | LookingUp
    | Stored(entry: nat)
    | MagicSent(entry: nat)
    | SendFailed(entry: nat)
    | ApiDone

  /** `rx` and `tx` are all bytes the relay has taken from and put on the socket. */
  datatype Socket = Socket(port: nat, open: bool, rx: seq<byte>, tx: seq<byte>)

  /** A worker's entry: `slot` is entry['api'], `apis` the requests ever stored
      there and `taken` those its thread has popped. */
  datatype Entry = Entry(slot: Option<nat>, apis: seq<nat>, taken: seq<nat>)

  /** Connections, their threads and their entries go by the same number. `targets`
      remembers at which worker a request was stored, `latest` the last worker
      registered on each port. */
  datatype State = State(
    variant: Variant, pcs: map<nat, Pc>, sockets: map<nat, Socket>, entries: map<nat, Entry>,
    targets: map<nat, nat>, workers: map<nat, nat>, lock: Option<nat>, latest: map<nat, nat>)

  datatype Action =
    | Accept(c: nat, port: nat)
    | FirstByte(c: nat, b: byte)
    | NoFirstByte(c: nat)
    | Acquire(c: nat)
    | Install(c: nat)
    | Wait(c: nat)
    | Pop(c: nat)
    | Clean(c: nat)
    | LookUp(c: nat)
    | SendMagic(c: nat, ok: bool)
    | Abort(c: nat)
    | Notify(c: nat)
    | Receive(c: nat, up: bool, chunk: seq<byte>)
    | Send(c: nat, up: bool, n: nat)
    | Stop(c: nat, up: bool)
    | Finish(c: nat)

  /** The thread holds the lock. */
  predicate Holds(pc: Pc)
  {
    pc.Registering? || pc.Armed? || pc.Popping? || pc.Cleaning?
    || pc.LookingUp? || pc.Stored? || pc.MagicSent? || pc.SendFailed?
  }

  /** The thread waits for the lock. */
  predicate Wants(pc: Pc)
  {
    pc.EnterWorker? || pc.Arming? || pc.Woken? || pc.Leaving? || pc.EnterApi?
  }

  function Granted(pc: Pc): Pc
    requires Wants(pc)
  {
    match pc
    case EnterWorker => Registering
    case Arming => Armed
    case Woken => Popping
    case Leaving => Cleaning
    case EnterApi => LookingUp
  }

  /** Where a connection goes after its first byte. */
  function Route(variant: Variant, port: nat, b: byte): Pc
  {
    if (variant.Looping? && port >= FIRST_PORT) || 65 <= b < 91 then
      if b == WORKER_MAGIC then EnterWorker
      else if variant.OneShot? && port != API_PORT then Rejected
      else EnterApi
    else Rejected
  }

  function Side(pc: Pc, up: bool): Forward
    requires pc.Bridging?
  {
    if up then pc.up else pc.down
  }

  function WithSide(pc: Pc, up: bool, f: Forward): Pc
    requires pc.Bridging?
  {
    if up then pc.(up := f) else pc.(down := f)
  }

  function Source(c: nat, pc: Pc, up: bool): nat
    requires pc.Bridging?
  {
    if up then pc.api else c
  }

  function Target(c: nat, pc: Pc, up: bool): nat
    requires pc.Bridging?
  {
    if up then c else pc.api
  }

  function SocketOf(s: State, c: nat): Socket
  {
    if c in s.sockets then s.sockets[c] else Socket(0, false, [], [])
  }

  function EntryOf(s: State, c: nat): Entry
  {
    if c in s.entries then s.entries[c] else Entry(None, [], [])
  }

  predicate At(s: State, pc: Pc, a: Action)
  {
    match a
    case Accept(_, _) => false
    case FirstByte(_, _) => pc.Reading?
    case NoFirstByte(_) => pc.Reading?
    case Acquire(_) => Wants(pc) && s.lock.None?
    case Install(_) => pc.Registering?
    case Wait(_) => pc.Armed?
    case Pop(_) => pc.Popping?
    case Clean(_) => pc.Cleaning?
    case LookUp(_) => pc.LookingUp?
    case SendMagic(c, ok) => pc.Stored? && (ok ==> SocketOf(s, pc.entry).open)
    case Abort(_) => pc.SendFailed?
    case Notify(_) => pc.MagicSent?
    case Receive(c, up, chunk) =>
      pc.Bridging? && Side(pc, up).Idle? && chunk != [] && SocketOf(s, Source(c, pc, up)).open
    case Send(c, up, n) =>
      pc.Bridging? && Side(pc, up).Holding? && 0 < n <= |Side(pc, up).rest| && SocketOf(s, Target(c, pc, up)).open
    case Stop(_, up) => pc.Bridging? && !Side(pc, up).Over?
    case Finish(_) => pc.Bridging? && pc.up.Over? && pc.down.Over?
  }

  predicate Enabled(s: State, a: Action)
  {
    if a.Accept? then a.c !in s.pcs && a.c !in s.sockets else a.c in s.pcs && At(s, s.pcs[a.c], a)
  }

  function Closed(sockets: map<nat, Socket>, c: nat): map<nat, Socket>
  {
    if c in sockets then sockets[c := sockets[c].(open := false)] else sockets
  }

  function AfterForward(rest: seq<byte>): Forward
  {
    if rest == [] then Idle else Holding(rest)
  }

  predicate Arrives(a: Action)
  {
    a.Accept? || a.FirstByte? || a.NoFirstByte? || a.Acquire?
  }

  predicate Serves(a: Action)
  {
    a.Install? || a.Wait? || a.Pop? || a.Clean?
  }

  predicate Asks(a: Action)
  {
    a.LookUp? || a.SendMagic? || a.Abort? || a.Notify?
  }

  /** `handle_connection` up to its routing, and taking the lock. */
  function Arrive(s: State, a: Action): State
    requires Enabled(s, a) && Arrives(a)
  {
    match a
    case Accept(c, port) =>
      s.(pcs := s.pcs[c := Reading], sockets := s.sockets[c := Socket(port, true, [], [])])
    case FirstByte(c, b) =>
      var k := SocketOf(s, c);
      var pc := Route(s.variant, k.port, b);
      s.(pcs := s.pcs[c := pc], sockets := s.sockets[c := k.(rx := k.rx + [b], open := k.open && !pc.Rejected?)])
    case NoFirstByte(c) =>
      s.(pcs := s.pcs[c := Rejected], sockets := Closed(s.sockets, c))
    case Acquire(c) =>
      s.(pcs := s.pcs[c := Granted(s.pcs[c])], lock := Some(c))
  }

  // `handle_worker`, except for the bridge

  predicate Is(s: State, c: nat, pc: Pc)
  {
    c in s.pcs && s.pcs[c] == pc
  }

  /** Closes the connection of the entry it replaces. Only the one-shot relay keeps
      the lock until it waits. */
  function DoInstall(s: State, c: nat): State
    requires Is(s, c, Registering)
  {
    var port := SocketOf(s, c).port;
    s.(sockets := if port in s.workers then Closed(s.sockets, s.workers[port]) else s.sockets,
       workers := s.workers[port := c], latest := s.latest[port := c],
       entries := s.entries[c := Entry(None, [], [])],
       pcs := s.pcs[c := if s.variant.OneShot? then Armed else Arming],
       lock := if s.variant.OneShot? then s.lock else None)
  }

  function DoWait(s: State, c: nat): State
    requires Is(s, c, Armed)
  {
    s.(pcs := s.pcs[c := Waiting], lock := None)
  }

  function DoPop(s: State, c: nat): State
    requires Is(s, c, Popping)
  {
    var e := EntryOf(s, c);
    if e.slot.Some? then
      s.(entries := s.entries[c := e.(slot := None, taken := e.taken + [e.slot.value])],
         pcs := s.pcs[c := Bridging(e.slot.value, Idle, Idle)], lock := None)
    else s.(pcs := s.pcs[c := Leaving], lock := None)
  }

  function DoClean(s: State, c: nat): State
    requires Is(s, c, Cleaning)
  {
    var port := SocketOf(s, c).port;
    s.(workers := if port in s.workers && s.workers[port] == c then s.workers - {port} else s.workers,
       pcs := s.pcs[c := WorkerDone], sockets := Closed(s.sockets, c), lock := None)
  }

  function Serve(s: State, a: Action): State
    requires Enabled(s, a) && Serves(a)
  {
    match a
    case Install(c) => DoInstall(s, c)
    case Wait(c) => DoWait(s, c)
    case Pop(c) => DoPop(s, c)
    case Clean(c) => DoClean(s, c)
  }

  // `handle_api`

  function DoLookUp(s: State, c: nat): State
    requires Is(s, c, LookingUp)
  {
    var port := SocketOf(s, c).port;
    if port in s.workers then
      var w := s.workers[port];
      var e := EntryOf(s, w);
      s.(entries := s.entries[w := e.(slot := Some(c), apis := e.apis + [c])],
         targets := s.targets[c := w], pcs := s.pcs[c := Stored(w)])
    else s.(pcs := s.pcs[c := Rejected], sockets := Closed(s.sockets, c), lock := None)
  }

  function DoSendMagic(s: State, c: nat, w: nat, ok: bool): State
    requires Is(s, c, Stored(w))
  {
    var k := SocketOf(s, w);
    if ok then s.(sockets := s.sockets[w := k.(tx := k.tx + SocketOf(s, c).rx)], pcs := s.pcs[c := MagicSent(w)])
    else s.(pcs := s.pcs[c := SendFailed(w)])
  }

  function DoAbort(s: State, c: nat, w: nat): State
    requires Is(s, c, SendFailed(w))
  {
    s.(entries := s.entries[w := EntryOf(s, w).(slot := None)],
       pcs := s.pcs[c := Rejected], sockets := Closed(s.sockets, c), lock := None)
  }

  function DoNotify(s: State, c: nat, w: nat): State
    requires Is(s, c, MagicSent(w))
  {
    var woken := if w in s.pcs && s.pcs[w].Waiting? then s.pcs[w := Woken] else s.pcs;
    s.(pcs := woken[c := ApiDone], lock := None)
  }

  function Ask(s: State, a: Action): State
    requires Enabled(s, a) && Asks(a)
  {
    match a
    case LookUp(c) => DoLookUp(s, c)
    case SendMagic(c, ok) => DoSendMagic(s, c, s.pcs[c].entry, ok)
    case Abort(c) => DoAbort(s, c, s.pcs[c].entry)
    case Notify(c) => DoNotify(s, c, s.pcs[c].entry)
  }

  /** `bridge` and its two `forward` threads. */
  function Copy(s: State, a: Action): State
    requires Enabled(s, a) && !Arrives(a) && !Serves(a) && !Asks(a)
  {
    match a
    case Receive(c, up, chunk) =>
      var src := Source(c, s.pcs[c], up);
      var k := SocketOf(s, src);
      s.(sockets := s.sockets[src := k.(rx := k.rx + chunk)],
         pcs := s.pcs[c := WithSide(s.pcs[c], up, Holding(chunk))])
    case Send(c, up, n) =>
      var dst := Target(c, s.pcs[c], up);
      var k := SocketOf(s, dst);
      var rest := Side(s.pcs[c], up).rest;
      s.(sockets := s.sockets[dst := k.(tx := k.tx + rest[..n])],
         pcs := s.pcs[c := WithSide(s.pcs[c], up, AfterForward(rest[n..]))])
    case Stop(c, up) =>
      s.(pcs := s.pcs[c := WithSide(s.pcs[c], up, Over)])
    case Finish(c) =>
      s.(sockets := Closed(s.sockets, s.pcs[c].api),
         pcs := s.pcs[c := if s.variant.OneShot? then Leaving else Arming])
  }

  function Next(s: State, a: Action): State
    requires Enabled(s, a)
  {
    if Arrives(a) then Arrive(s, a) else if Serves(a) then Serve(s, a) else if Asks(a) then Ask(s, a) else Copy(s, a)
  }

  function Start(variant: Variant): State
  {
    State(variant, map[], map[], map[], map[], map[], None, map[])
  }

  ghost predicate IsRun(s: State, actions: seq<Action>, t: State)
    decreases |actions|
  {
    if actions == [] then s == t
    else Enabled(s, actions[0]) && IsRun(Next(s, actions[0]), actions[1..], t)
  }

  lemma {:induction false} RunKeeps(inv: State -> bool, s: State, actions: seq<Action>, t: State)
    requires inv(s) && IsRun(s, actions, t)
    requires forall x, a :: inv(x) && Enabled(x, a) ==> inv(Next(x, a))
    ensures inv(t)
    decreases |actions|
  {
    if actions != [] {
      RunKeeps(inv, Next(s, actions[0]), actions[1..], t);
    }
  }

  lemma {:induction false} Then(s: State, actions: seq<Action>, t: State, more: seq<Action>, u: State)
    requires IsRun(s, actions, t) && IsRun(t, more, u)
    ensures IsRun(s, actions + more, u)
    decreases |actions|
  {
    if actions == [] {
      assert actions + more == more;
    } else {
      var all := actions + more;
      assert all[0] == actions[0] && all[1..] == actions[1..] + more;
      Then(Next(s, actions[0]), actions[1..], t, more, u);
    }
  }

  lemma One(s: State, a: Action)
    requires Enabled(s, a)
    ensures IsRun(s, [a], Next(s, a))
  {
    assert [a][1..] == [];
  }

  lemma Two(s: State, a: Action, b: Action)
    requires Enabled(s, a) && Enabled(Next(s, a), b)
    ensures IsRun(s, [a, b], Next(Next(s, a), b))
  {
    One(Next(s, a), b);
    assert [a, b][1..] == [b];
  }

  // ----- the lock -----

  /** The lock is held by the one thread in a critical section. */
  ghost predicate LockSafe(s: State)
  {
    && (s.lock.Some? ==> s.lock.value in s.pcs)
    && (forall c :: c in s.pcs ==> (Holds(s.pcs[c]) <==> s.lock == Some(c)))
  }

  lemma LockSafeArrive(s: State, a: Action)
    requires LockSafe(s) && Enabled(s, a) && Arrives(a)
    ensures LockSafe(Arrive(s, a))
  {
  }

  lemma LockSafeServe(s: State, a: Action)
    requires LockSafe(s) && Enabled(s, a) && Serves(a)
    ensures LockSafe(Serve(s, a))
  {
  }

  lemma LockSafeNotify(s: State, a: Action)
    requires LockSafe(s) && Enabled(s, a) && a.Notify?
    ensures LockSafe(Ask(s, a))
  {
  }

  lemma LockSafeAsk(s: State, a: Action)
    requires LockSafe(s) && Enabled(s, a) && Asks(a)
    ensures LockSafe(Ask(s, a))
  {
    if a.Notify? {
      LockSafeNotify(s, a);
    }
  }

  lemma LockSafeCopy(s: State, a: Action)
    requires LockSafe(s) && Enabled(s, a) && !Arrives(a) && !Serves(a) && !Asks(a)
    ensures LockSafe(Copy(s, a))
  {
  }

  lemma LockSafeStep(s: State, a: Action)
    requires LockSafe(s) && Enabled(s, a)
    ensures LockSafe(Next(s, a))
  {
    if Arrives(a) {
      LockSafeArrive(s, a);
    } else if Serves(a) {
      LockSafeServe(s, a);
    } else if Asks(a) {
      LockSafeAsk(s, a);
    } else {
      LockSafeCopy(s, a);
    }
  }

  // ----- the registry of workers -----

  /** A worker thread between installation and the end of its cleanup. */
  predicate Entered(pc: Pc)
  {
    pc.Arming? || pc.Armed? || pc.Waiting? || pc.Woken? || pc.Popping? || pc.Bridging? || pc.Leaving? || pc.Cleaning?
  }

  ghost predicate SocketsSafe(s: State)
  {
    s.sockets.Keys == s.pcs.Keys
  }

  /** On port p the table holds the latest worker, and it is missing only once that
      worker's own thread has cleaned up. */
  ghost predicate PortSafe(s: State, p: nat)
    requires p in s.latest
  {
    var e := s.latest[p];
    && e in s.pcs && SocketOf(s, e).port == p
    && (if p in s.workers then s.workers[p] == e && Entered(s.pcs[e]) else s.pcs[e].WorkerDone?)
  }

  /** A worker that is no longer the latest has had its connection closed. */
  ghost predicate ReplacedIsClosed(s: State, c: nat)
    requires c in s.pcs
  {
    var k := SocketOf(s, c);
    Entered(s.pcs[c]) ==> k.port in s.latest && (s.latest[k.port] != c ==> !k.open)
  }

  ghost predicate RegistrySafe(s: State)
  {
    && s.workers.Keys <= s.latest.Keys
    && (forall p :: p in s.latest ==> PortSafe(s, p))
    && (forall c :: c in s.pcs ==> ReplacedIsClosed(s, c))
  }

  /** Connection c is at the same stage of a worker's life, on the same port, and
      its socket has not been opened again. */
  ghost predicate SameStage(s: State, n: State, c: nat)
    requires c in s.pcs
  {
    && c in n.pcs
    && Entered(n.pcs[c]) == Entered(s.pcs[c]) && n.pcs[c].WorkerDone? == s.pcs[c].WorkerDone?
    && SocketOf(n, c).port == SocketOf(s, c).port && (SocketOf(n, c).open ==> SocketOf(s, c).open)
  }

  ghost predicate SameStages(s: State, n: State)
  {
    && n.workers == s.workers && n.latest == s.latest
    && (forall c :: c in s.pcs ==> SameStage(s, n, c))
    && (forall c :: c in n.pcs && c !in s.pcs ==> !Entered(n.pcs[c]))
  }

  lemma SameStagesKeepRegistry(s: State, n: State)
    requires RegistrySafe(s) && SameStages(s, n)
    ensures RegistrySafe(n)
  {
    forall p | p in n.latest ensures PortSafe(n, p) {
      assert PortSafe(s, p);
      assert SameStage(s, n, s.latest[p]);
    }
    forall c | c in n.pcs ensures ReplacedIsClosed(n, c) {
      if c in s.pcs {
        assert ReplacedIsClosed(s, c) && SameStage(s, n, c);
      }
    }
  }

  lemma ArriveKeepsStages(s: State, a: Action)
    requires Enabled(s, a) && Arrives(a)
    ensures SameStages(s, Arrive(s, a))
  {
  }

  lemma LookUpKeepsStages(s: State, c: nat)
    requires Is(s, c, LookingUp)
    ensures SameStages(s, DoLookUp(s, c))
  {
  }

  lemma SendMagicKeepsStages(s: State, c: nat, w: nat, ok: bool)
    requires Is(s, c, Stored(w))
    ensures SameStages(s, DoSendMagic(s, c, w, ok))
  {
  }

  lemma AbortKeepsStages(s: State, c: nat, w: nat)
    requires Is(s, c, SendFailed(w))
    ensures SameStages(s, DoAbort(s, c, w))
  {
  }

  lemma NotifyKeepsStages(s: State, c: nat, w: nat)
    requires Is(s, c, MagicSent(w))
    ensures SameStages(s, DoNotify(s, c, w))
  {
  }

  lemma AskKeepsStages(s: State, a: Action)
    requires Enabled(s, a) && Asks(a)
    ensures SameStages(s, Ask(s, a))
  {
    match a
    case LookUp(c) => LookUpKeepsStages(s, c);
    case SendMagic(c, ok) => SendMagicKeepsStages(s, c, s.pcs[c].entry, ok);
    case Abort(c) => AbortKeepsStages(s, c, s.pcs[c].entry);
    case Notify(c) => NotifyKeepsStages(s, c, s.pcs[c].entry);
  }

  lemma CopyKeepsStages(s: State, a: Action)
    requires Enabled(s, a) && !Arrives(a) && !Serves(a) && !Asks(a)
    ensures SameStages(s, Copy(s, a))
  {
  }

  lemma WaitKeepsStages(s: State, c: nat)
    requires Is(s, c, Armed)
    ensures SameStages(s, DoWait(s, c))
  {
  }

  lemma PopKeepsStages(s: State, c: nat)
    requires Is(s, c, Popping)
    ensures SameStages(s, DoPop(s, c))
  {
  }

  lemma InstallKeepsPort(s: State, c: nat, p: nat)
    requires Is(s, c, Registering) && p in DoInstall(s, c).latest && (p in s.latest ==> PortSafe(s, p))
    ensures PortSafe(DoInstall(s, c), p)
  {
  }

  lemma InstallClosesTheReplaced(s: State, c: nat, d: nat)
    requires Is(s, c, Registering) && d in s.pcs && ReplacedIsClosed(s, d) && s.workers.Keys <= s.latest.Keys
    requires var p := SocketOf(s, c).port; p in s.latest ==> PortSafe(s, p)
    ensures d in DoInstall(s, c).pcs && ReplacedIsClosed(DoInstall(s, c), d)
  {
  }

  lemma InstallKeepsRegistry(s: State, c: nat)
    requires RegistrySafe(s) && Is(s, c, Registering)
    ensures RegistrySafe(DoInstall(s, c))
  {
    var n := DoInstall(s, c);
    forall p | p in n.latest ensures PortSafe(n, p) {
      InstallKeepsPort(s, c, p);
    }
    forall d | d in n.pcs ensures ReplacedIsClosed(n, d) {
      InstallClosesTheReplaced(s, c, d);
    }
  }

  lemma CleanKeepsRegistry(s: State, c: nat)
    requires RegistrySafe(s) && Is(s, c, Cleaning)
    ensures RegistrySafe(DoClean(s, c))
  {
    var n := DoClean(s, c);
    assert ReplacedIsClosed(s, c);
    forall p | p in n.latest ensures PortSafe(n, p) {
      assert PortSafe(s, p);
    }
    forall d | d in n.pcs ensures ReplacedIsClosed(n, d) {
      assert ReplacedIsClosed(s, d);
    }
  }

  lemma RegistrySafeStep(s: State, a: Action)
    requires RegistrySafe(s) && Enabled(s, a)
    ensures RegistrySafe(Next(s, a))
  {
    if a.Install? {
      InstallKeepsRegistry(s, a.c);
    } else if a.Clean? {
      CleanKeepsRegistry(s, a.c);
    } else {
      if Arrives(a) {
        ArriveKeepsStages(s, a);
      } else if Serves(a) {
        if a.Wait? {
          WaitKeepsStages(s, a.c);
        } else {
          PopKeepsStages(s, a.c);
        }
      } else if Asks(a) {
        AskKeepsStages(s, a);
      } else {
        CopyKeepsStages(s, a);
      }
      SameStagesKeepRegistry(s, Next(s, a));
    }
  }

  // ----- the handoff -----

  /** What is in a worker's slot was put there by the request it belongs to and has
      not been taken; what was taken had been stored there, and once. */
  ghost predicate SlotSafe(s: State, w: nat)
    requires w in s.entries
  {
    var e := s.entries[w];
    && (e.slot.Some? ==> e.slot.value in s.targets && s.targets[e.slot.value] == w && e.slot.value !in e.taken)
    && (forall a :: a in e.taken ==> a in s.targets && s.targets[a] == w)
    && (forall i, j :: 0 <= i < j < |e.taken| ==> e.taken[i] != e.taken[j])
  }

  predicate AtEntry(pc: Pc, e: nat)
  {
    pc == Stored(e) || pc == MagicSent(e) || pc == SendFailed(e)
  }

  /** A request that has chosen a worker is on its way to it or through with it, and
      is on that worker's list. */
  ghost predicate TargetSafe(s: State, a: nat)
    requires a in s.pcs
  {
    if a in s.targets then
      && s.targets[a] in s.entries && a in s.entries[s.targets[a]].apis
      && (AtEntry(s.pcs[a], s.targets[a]) || s.pcs[a].ApiDone? || s.pcs[a].Rejected?)
    else !(s.pcs[a].Stored? || s.pcs[a].MagicSent? || s.pcs[a].SendFailed?)
  }

  /** Exactly the workers that have been installed have an entry. */
  ghost predicate RoleSafe(s: State, c: nat)
    requires c in s.pcs
  {
    c in s.entries <==> Entered(s.pcs[c]) || s.pcs[c].WorkerDone?
  }

  ghost predicate HandoffSafe(s: State)
  {
    && s.entries.Keys <= s.pcs.Keys && s.targets.Keys <= s.pcs.Keys
    && (forall w :: w in s.entries ==> SlotSafe(s, w))
    && (forall c :: c in s.pcs ==> TargetSafe(s, c) && RoleSafe(s, c))
  }

  /** Nothing about slots and targets changes, and every thread that is on its way
      to a worker or has an entry stays in that role. */
  ghost predicate SameRole(s: State, n: State, c: nat)
    requires c in s.pcs
  {
    && c in n.pcs
    && (Entered(n.pcs[c]) || n.pcs[c].WorkerDone?) == (Entered(s.pcs[c]) || s.pcs[c].WorkerDone?)
    && (c in s.targets ==> AtEntry(n.pcs[c], s.targets[c]) || n.pcs[c].ApiDone? || n.pcs[c].Rejected?)
    && (c !in s.targets ==> !(n.pcs[c].Stored? || n.pcs[c].MagicSent? || n.pcs[c].SendFailed?))
  }

  ghost predicate SameRoles(s: State, n: State)
  {
    && n.entries == s.entries && n.targets == s.targets
    && (forall c :: c in s.pcs ==> SameRole(s, n, c))
    && (forall c :: c in n.pcs && c !in s.pcs ==> n.pcs[c].Reading?)
  }

  lemma SameRolesKeepHandoff(s: State, n: State)
    requires HandoffSafe(s) && SameRoles(s, n)
    ensures HandoffSafe(n)
  {
    forall w | w in n.entries ensures SlotSafe(n, w) {
      assert SlotSafe(s, w);
    }
    forall c | c in n.pcs ensures TargetSafe(n, c) && RoleSafe(n, c) {
      if c in s.pcs {
        assert SameRole(s, n, c) && TargetSafe(s, c) && RoleSafe(s, c);
      }
    }
  }

  lemma ArriveKeepsRole(s: State, a: Action, d: nat)
    requires Enabled(s, a) && Arrives(a) && d in s.pcs && TargetSafe(s, d)
    ensures SameRole(s, Arrive(s, a), d)
  {
  }

  lemma ArriveKeepsRoles(s: State, a: Action)
    requires HandoffSafe(s) && Enabled(s, a) && Arrives(a)
    ensures SameRoles(s, Arrive(s, a))
  {
    forall d | d in s.pcs ensures SameRole(s, Arrive(s, a), d) {
      assert TargetSafe(s, d);
      ArriveKeepsRole(s, a, d);
    }
  }

  lemma WaitKeepsRole(s: State, c: nat, d: nat)
    requires Is(s, c, Armed) && d in s.pcs && TargetSafe(s, d)
    ensures SameRole(s, DoWait(s, c), d)
  {
  }

  lemma WaitKeepsRoles(s: State, c: nat)
    requires HandoffSafe(s) && Is(s, c, Armed)
    ensures SameRoles(s, DoWait(s, c))
  {
    forall d | d in s.pcs ensures SameRole(s, DoWait(s, c), d) {
      assert TargetSafe(s, d);
      WaitKeepsRole(s, c, d);
    }
  }

  lemma CleanKeepsRole(s: State, c: nat, d: nat)
    requires Is(s, c, Cleaning) && d in s.pcs && TargetSafe(s, d)
    ensures SameRole(s, DoClean(s, c), d)
  {
  }

  lemma CleanKeepsRoles(s: State, c: nat)
    requires HandoffSafe(s) && Is(s, c, Cleaning)
    ensures SameRoles(s, DoClean(s, c))
  {
    forall d | d in s.pcs ensures SameRole(s, DoClean(s, c), d) {
      assert TargetSafe(s, d);
      CleanKeepsRole(s, c, d);
    }
  }

  lemma SendMagicKeepsRole(s: State, c: nat, w: nat, ok: bool, d: nat)
    requires Is(s, c, Stored(w)) && d in s.pcs && TargetSafe(s, d)
    ensures SameRole(s, DoSendMagic(s, c, w, ok), d)
  {
  }

  lemma SendMagicKeepsRoles(s: State, c: nat, w: nat, ok: bool)
    requires HandoffSafe(s) && Is(s, c, Stored(w))
    ensures SameRoles(s, DoSendMagic(s, c, w, ok))
  {
    forall d | d in s.pcs ensures SameRole(s, DoSendMagic(s, c, w, ok), d) {
      assert TargetSafe(s, d);
      SendMagicKeepsRole(s, c, w, ok, d);
    }
  }

  lemma NotifyKeepsRole(s: State, c: nat, w: nat, d: nat)
    requires Is(s, c, MagicSent(w)) && d in s.pcs && TargetSafe(s, d)
    ensures SameRole(s, DoNotify(s, c, w), d)
  {
  }

  lemma NotifyKeepsRoles(s: State, c: nat, w: nat)
    requires HandoffSafe(s) && Is(s, c, MagicSent(w))
    ensures SameRoles(s, DoNotify(s, c, w))
  {
    forall d | d in s.pcs ensures SameRole(s, DoNotify(s, c, w), d) {
      assert TargetSafe(s, d);
      NotifyKeepsRole(s, c, w, d);
    }
  }

  lemma CopyKeepsRole(s: State, a: Action, d: nat)
    requires Enabled(s, a) && !Arrives(a) && !Serves(a) && !Asks(a) && d in s.pcs && TargetSafe(s, d)
    ensures SameRole(s, Copy(s, a), d)
  {
  }

  lemma CopyKeepsRoles(s: State, a: Action)
    requires HandoffSafe(s) && Enabled(s, a) && !Arrives(a) && !Serves(a) && !Asks(a)
    ensures SameRoles(s, Copy(s, a))
  {
    forall d | d in s.pcs ensures SameRole(s, Copy(s, a), d) {
      assert TargetSafe(s, d);
      CopyKeepsRole(s, a, d);
    }
  }

  lemma InstallKeepsSlot(s: State, c: nat, v: nat)
    requires Is(s, c, Registering) && TargetSafe(s, c) && v in DoInstall(s, c).entries
             && (v in s.entries ==> SlotSafe(s, v))
    ensures SlotSafe(DoInstall(s, c), v)
  {
  }

  lemma InstallKeepsTarget(s: State, c: nat, d: nat)
    requires Is(s, c, Registering) && TargetSafe(s, c) && RoleSafe(s, c)
    requires d in s.pcs && TargetSafe(s, d) && RoleSafe(s, d)
    ensures d in DoInstall(s, c).pcs && TargetSafe(DoInstall(s, c), d) && RoleSafe(DoInstall(s, c), d)
  {
  }

  lemma InstallKeepsHandoff(s: State, c: nat)
    requires HandoffSafe(s) && Is(s, c, Registering)
    ensures HandoffSafe(DoInstall(s, c))
  {
    var n := DoInstall(s, c);
    assert TargetSafe(s, c) && RoleSafe(s, c);
    forall v | v in n.entries ensures SlotSafe(n, v) {
      assert v in s.entries ==> SlotSafe(s, v);
      InstallKeepsSlot(s, c, v);
    }
    forall d | d in n.pcs ensures TargetSafe(n, d) && RoleSafe(n, d) {
      assert TargetSafe(s, d) && RoleSafe(s, d);
      InstallKeepsTarget(s, c, d);
    }
  }

  lemma PopKeepsSlot(s: State, c: nat, v: nat)
    requires Is(s, c, Popping) && TargetSafe(s, c) && v in DoPop(s, c).entries && (v in s.entries ==> SlotSafe(s, v))
    ensures SlotSafe(DoPop(s, c), v)
  {
    if v == c && c in s.entries && s.entries[c].slot.Some? {
      var taken := s.entries[c].taken + [s.entries[c].slot.value];
      assert forall a :: a in taken ==> a in s.targets && s.targets[a] == c;
    }
  }

  lemma PopKeepsTarget(s: State, c: nat, d: nat)
    requires Is(s, c, Popping) && c in s.entries && c !in s.targets
    requires d in s.pcs && TargetSafe(s, d) && RoleSafe(s, d)
    ensures d in DoPop(s, c).pcs && TargetSafe(DoPop(s, c), d) && RoleSafe(DoPop(s, c), d)
  {
    var n := DoPop(s, c);
    assert n.targets == s.targets && n.entries.Keys == s.entries.Keys;
    assert n.entries[c].apis == s.entries[c].apis;
  }

  lemma PopKeepsSlots(s: State, c: nat, v: nat)
    requires HandoffSafe(s) && Is(s, c, Popping) && v in DoPop(s, c).entries
    ensures SlotSafe(DoPop(s, c), v)
  {
    assert TargetSafe(s, c);
    assert v in s.entries ==> SlotSafe(s, v);
    PopKeepsSlot(s, c, v);
  }

  lemma PopKeepsTargets(s: State, c: nat, d: nat)
    requires HandoffSafe(s) && Is(s, c, Popping) && d in s.pcs
    ensures d in DoPop(s, c).pcs && TargetSafe(DoPop(s, c), d) && RoleSafe(DoPop(s, c), d)
  {
    assert TargetSafe(s, c) && RoleSafe(s, c);
    assert TargetSafe(s, d) && RoleSafe(s, d);
    PopKeepsTarget(s, c, d);
  }

  lemma PopKeepsHandoff(s: State, c: nat)
    requires HandoffSafe(s) && Is(s, c, Popping)
    ensures HandoffSafe(DoPop(s, c))
  {
    var n := DoPop(s, c);
    forall v | v in n.entries ensures SlotSafe(n, v) {
      PopKeepsSlots(s, c, v);
    }
    forall d | d in n.pcs ensures TargetSafe(n, d) && RoleSafe(n, d) {
      PopKeepsTargets(s, c, d);
    }
  }

  lemma LookUpKeepsSlot(s: State, c: nat, v: nat)
    requires Is(s, c, LookingUp) && TargetSafe(s, c) && v in DoLookUp(s, c).entries
             && (v in s.entries ==> SlotSafe(s, v))
    ensures SlotSafe(DoLookUp(s, c), v)
  {
  }

  lemma LookUpKeepsTarget(s: State, c: nat, d: nat)
    requires Is(s, c, LookingUp) && TargetSafe(s, c) && RoleSafe(s, c)
    requires var port := SocketOf(s, c).port; port in s.workers ==> s.workers[port] in s.entries
    requires d in s.pcs && TargetSafe(s, d) && RoleSafe(s, d)
    ensures d in DoLookUp(s, c).pcs && TargetSafe(DoLookUp(s, c), d) && RoleSafe(DoLookUp(s, c), d)
  {
  }

  lemma LookUpKeepsHandoff(s: State, c: nat)
    requires RegistrySafe(s) && HandoffSafe(s) && Is(s, c, LookingUp)
    ensures HandoffSafe(DoLookUp(s, c))
  {
    var n := DoLookUp(s, c);
    assert TargetSafe(s, c) && RoleSafe(s, c);
    var port := SocketOf(s, c).port;
    assert port in s.workers ==> PortSafe(s, port) && RoleSafe(s, s.workers[port]);
    forall v | v in n.entries ensures SlotSafe(n, v) {
      assert v in s.entries ==> SlotSafe(s, v);
      LookUpKeepsSlot(s, c, v);
    }
    forall d | d in n.pcs ensures TargetSafe(n, d) && RoleSafe(n, d) {
      assert TargetSafe(s, d) && RoleSafe(s, d);
      LookUpKeepsTarget(s, c, d);
    }
  }

  lemma AbortKeepsSlot(s: State, c: nat, w: nat, v: nat)
    requires Is(s, c, SendFailed(w)) && TargetSafe(s, c) && v in DoAbort(s, c, w).entries
             && (v in s.entries ==> SlotSafe(s, v))
    ensures SlotSafe(DoAbort(s, c, w), v)
  {
  }

  lemma AbortKeepsTarget(s: State, c: nat, w: nat, d: nat)
    requires Is(s, c, SendFailed(w)) && TargetSafe(s, c) && RoleSafe(s, c)
    requires d in s.pcs && TargetSafe(s, d) && RoleSafe(s, d)
    ensures d in DoAbort(s, c, w).pcs && TargetSafe(DoAbort(s, c, w), d) && RoleSafe(DoAbort(s, c, w), d)
  {
  }

  lemma AbortKeepsHandoff(s: State, c: nat, w: nat)
    requires HandoffSafe(s) && Is(s, c, SendFailed(w))
    ensures HandoffSafe(DoAbort(s, c, w))
  {
    var n := DoAbort(s, c, w);
    assert TargetSafe(s, c) && RoleSafe(s, c);
    forall v | v in n.entries ensures SlotSafe(n, v) {
      assert v in s.entries ==> SlotSafe(s, v);
      AbortKeepsSlot(s, c, w, v);
    }
    forall d | d in n.pcs ensures TargetSafe(n, d) && RoleSafe(n, d) {
      assert TargetSafe(s, d) && RoleSafe(s, d);
      AbortKeepsTarget(s, c, w, d);
    }
  }

  lemma HandoffSafeStep(s: State, a: Action)
    requires RegistrySafe(s) && HandoffSafe(s) && Enabled(s, a)
    ensures HandoffSafe(Next(s, a))
  {
    if a.Install? {
      InstallKeepsHandoff(s, a.c);
    } else if a.Pop? {
      PopKeepsHandoff(s, a.c);
    } else if a.LookUp? {
      LookUpKeepsHandoff(s, a.c);
    } else if a.Abort? {
      AbortKeepsHandoff(s, a.c, s.pcs[a.c].entry);
    } else {
      if a.Wait? {
        WaitKeepsRoles(s, a.c);
      } else if a.Clean? {
        CleanKeepsRoles(s, a.c);
      } else if a.SendMagic? {
        SendMagicKeepsRoles(s, a.c, s.pcs[a.c].entry, a.ok);
      } else if a.Notify? {
        NotifyKeepsRoles(s, a.c, s.pcs[a.c].entry);
      } else if Arrives(a) {
        ArriveKeepsRoles(s, a);
      } else {
        CopyKeepsRoles(s, a);
      }
      SameRolesKeepHandoff(s, Next(s, a));
    }
  }

  // ----- no lost wakeup, and at most one bridge per worker, in the one-shot relay -----

  /** A worker about to wait has no request pending, and one that waits un-notified
      has none unless the API thread that stored it is still in its critical
      section. A worker is bridged for the first request it takes, and done then. */
  ghost predicate WakeSafe(s: State, w: nat)
    requires w in s.pcs
  {
    var e := EntryOf(s, w);
    s.variant.OneShot? ==>
      && (s.pcs[w].Armed? ==> e.slot.None?)
      && (s.pcs[w].Waiting? && e.slot.Some? ==> s.lock == e.slot)
      && |e.taken| <= 1
      && (s.pcs[w].Armed? || s.pcs[w].Waiting? || s.pcs[w].Woken? || s.pcs[w].Popping? ==> e.taken == [])
      && !s.pcs[w].Arming?
  }

  ghost predicate Safe(s: State)
  {
    && LockSafe(s) && RegistrySafe(s) && HandoffSafe(s) && SocketsSafe(s)
    && (forall w :: w in s.pcs ==> WakeSafe(s, w))
  }

  /** A worker that waits although a request is in its slot. */
  predicate Pending(s: State, w: nat)
  {
    s.variant.OneShot? && w in s.pcs && s.pcs[w].Waiting? && EntryOf(s, w).slot.Some?
  }

  /** Only the API thread that stored the request can hold the lock then. */
  lemma PendingOnlyForItsRequest(s: State, c: nat, w: nat)
    requires Safe(s) && c in s.pcs && Holds(s.pcs[c]) && !AtEntry(s.pcs[c], w)
    ensures !Pending(s, w)
  {
    assert w in s.pcs ==> WakeSafe(s, w);
    assert w in s.entries ==> SlotSafe(s, w);
    assert TargetSafe(s, c);
  }

  lemma ArriveKeepsWake(s: State, a: Action, w: nat)
    requires Enabled(s, a) && Arrives(a) && w in Arrive(s, a).pcs
    requires if w in s.pcs then WakeSafe(s, w) else w !in s.entries
    ensures WakeSafe(Arrive(s, a), w)
  {
  }

  lemma CopyKeepsWake(s: State, a: Action, w: nat)
    requires Enabled(s, a) && !Arrives(a) && !Serves(a) && !Asks(a) && w in s.pcs && WakeSafe(s, w)
    ensures w in Copy(s, a).pcs && WakeSafe(Copy(s, a), w)
  {
  }

  lemma InstallKeepsWake(s: State, c: nat, w: nat)
    requires Is(s, c, Registering) && w in s.pcs && WakeSafe(s, w) && !Pending(s, w)
    ensures w in DoInstall(s, c).pcs && WakeSafe(DoInstall(s, c), w)
  {
  }

  lemma WaitKeepsWake(s: State, c: nat, w: nat)
    requires Is(s, c, Armed) && w in s.pcs && WakeSafe(s, w) && !Pending(s, w)
    ensures w in DoWait(s, c).pcs && WakeSafe(DoWait(s, c), w)
  {
  }

  lemma PopKeepsOwnWake(s: State, c: nat)
    requires Is(s, c, Popping) && WakeSafe(s, c)
    ensures c in DoPop(s, c).pcs && WakeSafe(DoPop(s, c), c)
  {
  }

  lemma PopKeepsWake(s: State, c: nat, w: nat)
    requires Is(s, c, Popping) && w in s.pcs && WakeSafe(s, w) && !Pending(s, w)
    ensures w in DoPop(s, c).pcs && WakeSafe(DoPop(s, c), w)
  {
    if w == c {
      PopKeepsOwnWake(s, c);
    } else {
      assert EntryOf(DoPop(s, c), w) == EntryOf(s, w) && DoPop(s, c).pcs[w] == s.pcs[w];
    }
  }

  lemma CleanKeepsWake(s: State, c: nat, w: nat)
    requires Is(s, c, Cleaning) && w in s.pcs && WakeSafe(s, w) && !Pending(s, w)
    ensures w in DoClean(s, c).pcs && WakeSafe(DoClean(s, c), w)
  {
  }

  lemma LookUpKeepsWake(s: State, c: nat, w: nat)
    requires Is(s, c, LookingUp) && s.lock == Some(c) && w in s.pcs && WakeSafe(s, w) && !Pending(s, w)
    requires !s.pcs[w].Armed?
    ensures w in DoLookUp(s, c).pcs && WakeSafe(DoLookUp(s, c), w)
  {
  }

  lemma SendMagicKeepsWake(s: State, c: nat, e: nat, ok: bool, w: nat)
    requires Is(s, c, Stored(e)) && w in s.pcs && WakeSafe(s, w)
    ensures w in DoSendMagic(s, c, e, ok).pcs && WakeSafe(DoSendMagic(s, c, e, ok), w)
  {
  }

  lemma AbortKeepsWake(s: State, c: nat, e: nat, w: nat)
    requires Is(s, c, SendFailed(e)) && w in s.pcs && WakeSafe(s, w) && (w != e ==> !Pending(s, w))
    ensures w in DoAbort(s, c, e).pcs && WakeSafe(DoAbort(s, c, e), w)
  {
  }

  lemma NotifyKeepsWake(s: State, c: nat, e: nat, w: nat)
    requires Is(s, c, MagicSent(e)) && w in s.pcs && WakeSafe(s, w) && (w != e ==> !Pending(s, w))
    ensures w in DoNotify(s, c, e).pcs && WakeSafe(DoNotify(s, c, e), w)
  {
  }

  /** What the steps under the lock rely on for worker w. */
  ghost predicate WakeReady(s: State, a: Action, w: nat)
  {
    && (if w in s.pcs then WakeSafe(s, w) else w !in s.entries)
    && (a.c in s.pcs && Holds(s.pcs[a.c]) ==>
          && s.lock == Some(a.c)
          && (!AtEntry(s.pcs[a.c], w) ==> !Pending(s, w))
          && (w in s.pcs && s.pcs[w].Armed? ==> w == a.c))
  }

  lemma SafeIsWakeReady(s: State, a: Action, w: nat)
    requires Safe(s)
    ensures WakeReady(s, a, w)
  {
    if w in s.pcs {
      assert WakeSafe(s, w);
    }
    if a.c in s.pcs && Holds(s.pcs[a.c]) && !AtEntry(s.pcs[a.c], w) {
      PendingOnlyForItsRequest(s, a.c, w);
    }
  }

  lemma ServeKeepsWake(s: State, a: Action, w: nat)
    requires Enabled(s, a) && Serves(a) && w in s.pcs && WakeReady(s, a, w)
    ensures w in Serve(s, a).pcs && WakeSafe(Serve(s, a), w)
  {
    match a
    case Install(c) => InstallKeepsWake(s, c, w);
    case Wait(c) => WaitKeepsWake(s, c, w);
    case Pop(c) => PopKeepsWake(s, c, w);
    case Clean(c) => CleanKeepsWake(s, c, w);
  }

  lemma AskKeepsWake(s: State, a: Action, w: nat)
    requires Enabled(s, a) && Asks(a) && w in s.pcs && WakeReady(s, a, w)
    ensures w in Ask(s, a).pcs && WakeSafe(Ask(s, a), w)
  {
    match a
    case LookUp(c) => LookUpKeepsWake(s, c, w);
    case SendMagic(c, ok) => SendMagicKeepsWake(s, c, s.pcs[c].entry, ok, w);
    case Abort(c) => AbortKeepsWake(s, c, s.pcs[c].entry, w);
    case Notify(c) => NotifyKeepsWake(s, c, s.pcs[c].entry, w);
  }

  lemma WakeSafeStep(s: State, a: Action, w: nat)
    requires WakeReady(s, a, w) && Enabled(s, a) && w in Next(s, a).pcs && (w in s.pcs || Arrives(a))
    ensures WakeSafe(Next(s, a), w)
  {
    if Arrives(a) {
      ArriveKeepsWake(s, a, w);
    } else if Serves(a) {
      ServeKeepsWake(s, a, w);
    } else if Asks(a) {
      AskKeepsWake(s, a, w);
    } else {
      CopyKeepsWake(s, a, w);
    }
  }

  lemma OnlyArrivalsAreNew(s: State, a: Action, w: nat)
    requires Enabled(s, a) && w in Next(s, a).pcs && !Arrives(a)
    ensures w in s.pcs
  {
  }

  lemma SocketsSafeServe(s: State, a: Action)
    requires SocketsSafe(s) && Enabled(s, a) && Serves(a)
    ensures SocketsSafe(Serve(s, a))
  {
  }

  lemma SocketsSafeAsk(s: State, a: Action)
    requires SocketsSafe(s) && Enabled(s, a) && Asks(a)
    ensures SocketsSafe(Ask(s, a))
  {
  }

  lemma SocketsSafeStep(s: State, a: Action)
    requires SocketsSafe(s) && Enabled(s, a)
    ensures SocketsSafe(Next(s, a))
  {
    if Serves(a) {
      SocketsSafeServe(s, a);
    } else if Asks(a) {
      SocketsSafeAsk(s, a);
    }
  }

  lemma SafeStep(s: State, a: Action)
    requires Safe(s) && Enabled(s, a)
    ensures Safe(Next(s, a))
  {
    LockSafeStep(s, a);
    RegistrySafeStep(s, a);
    HandoffSafeStep(s, a);
    SocketsSafeStep(s, a);
    forall w | w in Next(s, a).pcs ensures WakeSafe(Next(s, a), w) {
      SafeIsWakeReady(s, a, w);
      if !Arrives(a) {
        OnlyArrivalsAreNew(s, a, w);
      }
      WakeSafeStep(s, a, w);
    }
  }

  lemma SafeRun(variant: Variant, actions: seq<Action>, t: State)
    requires IsRun(Start(variant), actions, t)
    ensures Safe(t)
  {
    forall s, a | Safe(s) && Enabled(s, a) ensures Safe(Next(s, a)) {
      SafeStep(s, a);
    }
    RunKeeps((s: State) => Safe(s), Start(variant), actions, t);
  }

  // ----- the theorems about the handoff -----

  /** No lost wakeup: whenever the lock is free, a worker that waits un-notified has
      no request pending. */
  lemma NoLostWakeup(actions: seq<Action>, t: State, w: nat)
    requires IsRun(Start(OneShot), actions, t)
    requires t.lock.None? && w in t.pcs && t.pcs[w].Waiting?
    ensures EntryOf(t, w).slot.None?
  {
    SafeRun(OneShot, actions, t);
    VariantStays(Start(OneShot), actions, t);
    assert WakeSafe(t, w);
  }

  lemma {:induction false} VariantStays(s: State, actions: seq<Action>, t: State)
    requires IsRun(s, actions, t)
    ensures t.variant == s.variant
    decreases |actions|
  {
    if actions != [] {
      VariantStays(Next(s, actions[0]), actions[1..], t);
    }
  }

  /** Exclusive handoff, in both relays: an API connection is taken by at most one
      worker and at most once. */
  lemma EachRequestIsTakenOnce(variant: Variant, actions: seq<Action>, t: State, v: nat, i: nat, w: nat, j: nat)
    requires IsRun(Start(variant), actions, t)
    requires v in t.entries && w in t.entries && i < |t.entries[v].taken| && j < |t.entries[w].taken|
    requires t.entries[v].taken[i] == t.entries[w].taken[j]
    ensures v == w && i == j
  {
    SafeRun(variant, actions, t);
    assert SlotSafe(t, v) && SlotSafe(t, w);
    assert t.entries[v].taken[i] in t.entries[v].taken && t.entries[w].taken[j] in t.entries[w].taken;
  }

  /** The one-shot relay bridges a worker connection at most once. */
  lemma EachWorkerIsBridgedOnce(actions: seq<Action>, t: State, w: nat)
    requires IsRun(Start(OneShot), actions, t) && w in t.entries
    ensures |t.entries[w].taken| <= 1
  {
    SafeRun(OneShot, actions, t);
    VariantStays(Start(OneShot), actions, t);
    assert WakeSafe(t, w);
  }

  /** Registry identity, in both relays: the table holds the latest worker of each
      port, which is missing only once its own thread has cleaned up, and a replaced
      worker has had its connection closed. */
  lemma RegistryIdentity(variant: Variant, actions: seq<Action>, t: State)
    requires IsRun(Start(variant), actions, t)
    ensures forall p :: p in t.workers ==> p in t.latest && t.workers[p] == t.latest[p]
    ensures forall p :: p in t.latest && p !in t.workers ==> Is(t, t.latest[p], WorkerDone)
    ensures forall c :: c in t.pcs && Entered(t.pcs[c]) && SocketOf(t, c).open ==>
              SocketOf(t, c).port in t.workers && t.workers[SocketOf(t, c).port] == c
  {
    SafeRun(variant, actions, t);
    forall p | p in t.latest ensures PortSafe(t, p) {}
    forall c | c in t.pcs && Entered(t.pcs[c]) && SocketOf(t, c).open
      ensures SocketOf(t, c).port in t.workers && t.workers[SocketOf(t, c).port] == c
    {
      OpenOnesAreInTheTable(t, c);
    }
  }

  lemma OpenOnesAreInTheTable(t: State, c: nat)
    requires RegistrySafe(t) && c in t.pcs && Entered(t.pcs[c]) && SocketOf(t, c).open
    ensures SocketOf(t, c).port in t.workers && t.workers[SocketOf(t, c).port] == c
  {
    assert ReplacedIsClosed(t, c) && PortSafe(t, SocketOf(t, c).port);
  }

  /** A cleanup takes the table entry of its own worker and of no other. */
  lemma CleanupIsOwn(variant: Variant, actions: seq<Action>, t: State, c: nat)
    requires IsRun(Start(variant), actions, t) && Is(t, c, Cleaning)
    ensures var p := SocketOf(t, c).port;
            DoClean(t, c).workers == if p in t.latest && t.latest[p] == c then t.workers - {p} else t.workers
  {
    SafeRun(variant, actions, t);
    CleaningIsOwn(t, c);
  }

  lemma CleaningIsOwn(t: State, c: nat)
    requires RegistrySafe(t) && Is(t, c, Cleaning)
    ensures var p := SocketOf(t, c).port;
            DoClean(t, c).workers == if p in t.latest && t.latest[p] == c then t.workers - {p} else t.workers
  {
    assert ReplacedIsClosed(t, c) && PortSafe(t, SocketOf(t, c).port);
  }
}
