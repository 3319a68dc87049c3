// Which waiting workers of the one-shot relay can still be woken, and what has to be
// known about sockets and ports for that.

module RelayWakeups {
  import opened Wrappers
  import opened Relay
  import opened RelayBytes
  import opened RelayFaults

  // ----- open sockets -----

  /** The connection of a thread that has not got past its registration is open, and
      so is that of the latest worker on a port until it is done. */
  ghost predicate OpenSafe(s: State, c: nat)
    requires c in s.pcs
  {
    var k := SocketOf(s, c);
    && (s.pcs[c].Reading? || s.pcs[c].EnterWorker? || s.pcs[c].Registering? ==> k.open)
    && (Entered(s.pcs[c]) && k.port in s.latest && s.latest[k.port] == c ==> k.open)
  }

  lemma ArriveKeepsOpen(s: State, a: Action, c: nat)
    requires Enabled(s, a) && Arrives(a) && SocketsSafe(s) && c in Arrive(s, a).pcs && (c in s.pcs ==> OpenSafe(s, c))
    ensures OpenSafe(Arrive(s, a), c)
  {
  }

  /** Only the connection of the worker that is replaced is closed. */
  lemma InstallKeepsOpen(s: State, c: nat, d: nat)
    requires Is(s, c, Registering) && SocketsSafe(s) && d in s.pcs && OpenSafe(s, d) && OpenSafe(s, c)
    requires var p := SocketOf(s, c).port; p in s.workers ==>
               s.workers[p] in s.pcs && Entered(s.pcs[s.workers[p]]) && SocketOf(s, s.workers[p]).port == p
    ensures d in DoInstall(s, c).pcs && OpenSafe(DoInstall(s, c), d)
  {
    var p := SocketOf(s, c).port;
    assert SocketOf(DoInstall(s, c), d).port == SocketOf(s, d).port;
    if p in s.workers && s.workers[p] == d {
      assert d != c;
    } else {
      assert SocketOf(DoInstall(s, c), d) == SocketOf(s, d);
    }
  }

  lemma WaitKeepsOpen(s: State, c: nat, d: nat)
    requires Is(s, c, Armed) && d in s.pcs && OpenSafe(s, d)
    ensures d in DoWait(s, c).pcs && OpenSafe(DoWait(s, c), d)
  {
  }

  lemma PopKeepsOpen(s: State, c: nat, d: nat)
    requires Is(s, c, Popping) && d in s.pcs && OpenSafe(s, d)
    ensures d in DoPop(s, c).pcs && OpenSafe(DoPop(s, c), d)
  {
  }

  lemma CleanKeepsOpen(s: State, c: nat, d: nat)
    requires Is(s, c, Cleaning) && d in s.pcs && OpenSafe(s, d)
    ensures d in DoClean(s, c).pcs && OpenSafe(DoClean(s, c), d)
  {
  }

  lemma LookUpKeepsOpen(s: State, c: nat, d: nat)
    requires Is(s, c, LookingUp) && d in s.pcs && OpenSafe(s, d)
    ensures d in DoLookUp(s, c).pcs && OpenSafe(DoLookUp(s, c), d)
  {
  }

  lemma SendMagicKeepsOpen(s: State, c: nat, w: nat, ok: bool, d: nat)
    requires Is(s, c, Stored(w)) && d in s.pcs && OpenSafe(s, d) && w in s.sockets
    ensures d in DoSendMagic(s, c, w, ok).pcs && OpenSafe(DoSendMagic(s, c, w, ok), d)
  {
  }

  lemma AbortKeepsOpen(s: State, c: nat, w: nat, d: nat)
    requires Is(s, c, SendFailed(w)) && d in s.pcs && OpenSafe(s, d)
    ensures d in DoAbort(s, c, w).pcs && OpenSafe(DoAbort(s, c, w), d)
  {
  }

  lemma NotifyKeepsOpen(s: State, c: nat, w: nat, d: nat)
    requires Is(s, c, MagicSent(w)) && d in s.pcs && OpenSafe(s, d)
    ensures d in DoNotify(s, c, w).pcs && OpenSafe(DoNotify(s, c, w), d)
  {
  }

  /** A thread whose request has been taken: past registering, and no worker. */
  predicate Settled(pc: Pc)
  {
    pc.ApiDone? || pc.Rejected? || pc.Stored? || pc.MagicSent? || pc.SendFailed?
  }

  /** The end of a bridge closes the connection of its request. */
  lemma CopyKeepsOpen(s: State, a: Action, d: nat)
    requires Enabled(s, a) && Copies(a) && d in s.pcs && OpenSafe(s, d)
    requires s.pcs[a.c].api in s.pcs && Settled(s.pcs[s.pcs[a.c].api])
    ensures d in Copy(s, a).pcs && OpenSafe(Copy(s, a), d)
  {
  }

  lemma BridgedIsSettled(s: State, c: nat)
    requires HandoffSafe(s) && c in s.pcs && BridgeSafe(s, c) && s.pcs[c].Bridging?
    ensures s.pcs[c].api in s.pcs && Settled(s.pcs[s.pcs[c].api])
  {
    var b := s.pcs[c].api;
    assert SlotSafe(s, c) && b in s.targets;
    assert TargetSafe(s, b);
  }

  // ----- ports of requests -----

  /** The one-shot relay takes requests on one port only. */
  ghost predicate ApiPortSafe(s: State, c: nat)
    requires c in s.pcs
  {
    s.variant.OneShot? && (s.pcs[c].EnterApi? || s.pcs[c].LookingUp?) ==> SocketOf(s, c).port == API_PORT
  }

  lemma ArriveKeepsApiPort(s: State, a: Action, c: nat)
    requires Enabled(s, a) && Arrives(a) && c in Arrive(s, a).pcs && (c in s.pcs ==> ApiPortSafe(s, c))
    ensures ApiPortSafe(Arrive(s, a), c)
  {
  }

  lemma ServeKeepsApiPort(s: State, a: Action, c: nat)
    requires Enabled(s, a) && Serves(a) && c in s.pcs && ApiPortSafe(s, c)
    ensures c in Serve(s, a).pcs && ApiPortSafe(Serve(s, a), c)
  {
  }

  lemma AskKeepsPorts(s: State, a: Action, c: nat)
    requires Enabled(s, a) && Asks(a)
    ensures SocketOf(Ask(s, a), c).port == SocketOf(s, c).port || c !in s.sockets
  {
  }

  lemma AskStartsNoRequest(s: State, a: Action, c: nat)
    requires Enabled(s, a) && Asks(a) && c in s.pcs
    ensures c in Ask(s, a).pcs
    ensures Ask(s, a).pcs[c].EnterApi? || Ask(s, a).pcs[c].LookingUp? ==> s.pcs[c].EnterApi? || s.pcs[c].LookingUp?
  {
  }

  lemma AskKeepsApiPort(s: State, a: Action, c: nat)
    requires SocketsSafe(s) && Enabled(s, a) && Asks(a) && c in s.pcs && ApiPortSafe(s, c)
    ensures c in Ask(s, a).pcs && ApiPortSafe(Ask(s, a), c)
  {
    AskKeepsPorts(s, a, c);
    AskStartsNoRequest(s, a, c);
    assert Ask(s, a).variant == s.variant;
  }

  lemma CopyKeepsApiPort(s: State, a: Action, c: nat)
    requires Enabled(s, a) && Copies(a) && c in s.pcs && ApiPortSafe(s, c)
    ensures c in Copy(s, a).pcs && ApiPortSafe(Copy(s, a), c)
  {
  }

  // ----- every run -----

  /** Everything known about reachable states so far. */
  ghost predicate Good(s: State)
  {
    && Safe(s) && FreshAndBytes(s)
    && forall c :: c in s.pcs ==> OpenSafe(s, c) && ApiPortSafe(s, c)
  }

  lemma TableIsEntered(s: State, p: nat)
    requires RegistrySafe(s) && p in s.workers
    ensures p in s.latest && s.latest[p] == s.workers[p]
    ensures s.workers[p] in s.pcs && Entered(s.pcs[s.workers[p]]) && SocketOf(s, s.workers[p]).port == p
  {
    assert PortSafe(s, p);
  }

  lemma ServeKeepsOpen(s: State, a: Action, c: nat)
    requires RegistrySafe(s) && SocketsSafe(s) && Enabled(s, a) && Serves(a) && c in s.pcs && OpenSafe(s, c)
             && OpenSafe(s, a.c)
    ensures c in Serve(s, a).pcs && OpenSafe(Serve(s, a), c)
  {
    match a
    case Install(d) =>
      var p := SocketOf(s, d).port;
      if p in s.workers {
        TableIsEntered(s, p);
      }
      InstallKeepsOpen(s, d, c);
    case Wait(d) => WaitKeepsOpen(s, d, c);
    case Pop(d) => PopKeepsOpen(s, d, c);
    case Clean(d) => CleanKeepsOpen(s, d, c);
  }

  lemma AskKeepsOpen(s: State, a: Action, c: nat)
    requires Enabled(s, a) && Asks(a) && c in s.pcs && OpenSafe(s, c)
    requires s.pcs[a.c].Stored? ==> s.pcs[a.c].entry in s.sockets
    ensures c in Ask(s, a).pcs && OpenSafe(Ask(s, a), c)
  {
    match a
    case LookUp(d) => LookUpKeepsOpen(s, d, c);
    case SendMagic(d, ok) => SendMagicKeepsOpen(s, d, s.pcs[d].entry, ok, c);
    case Abort(d) => AbortKeepsOpen(s, d, s.pcs[d].entry, c);
    case Notify(d) => NotifyKeepsOpen(s, d, s.pcs[d].entry, c);
  }

  lemma StoredHasASocket(s: State, c: nat)
    requires SocketsSafe(s) && HandoffSafe(s) && c in s.pcs && s.pcs[c].Stored?
    ensures s.pcs[c].entry in s.sockets
  {
    assert TargetSafe(s, c);
  }

  lemma GoodThread(s: State, a: Action, c: nat)
    requires Good(s) && Enabled(s, a) && c in Next(s, a).pcs
    ensures OpenSafe(Next(s, a), c) && ApiPortSafe(Next(s, a), c)
  {
    if Arrives(a) {
      ArriveKeepsOpen(s, a, c);
      ArriveKeepsApiPort(s, a, c);
    } else {
      OnlyArrivalsAreNew(s, a, c);
      if Serves(a) {
        ServeKeepsOpen(s, a, c);
        ServeKeepsApiPort(s, a, c);
      } else if Asks(a) {
        if a.SendMagic? {
          StoredHasASocket(s, a.c);
        }
        AskKeepsOpen(s, a, c);
        AskKeepsApiPort(s, a, c);
      } else {
        BridgedIsSettled(s, a.c);
        CopyKeepsOpen(s, a, c);
        CopyKeepsApiPort(s, a, c);
      }
    }
  }

  lemma GoodStep(s: State, a: Action)
    requires Good(s) && Enabled(s, a)
    ensures Good(Next(s, a))
  {
    SafeStep(s, a);
    BytesStep(s, a);
    forall c | c in Next(s, a).pcs ensures OpenSafe(Next(s, a), c) && ApiPortSafe(Next(s, a), c) {
      GoodThread(s, a, c);
    }
  }

  lemma GoodRun(variant: Variant, actions: seq<Action>, t: State)
    requires IsRun(Start(variant), actions, t)
    ensures Good(t)
  {
    forall s, a | Good(s) && Enabled(s, a) ensures Good(Next(s, a)) {
      GoodStep(s, a);
    }
    RunKeeps((s: State) => Good(s), Start(variant), actions, t);
  }

  // ----- who can be woken -----

  /** Some continuation ends the wait of worker w. */
  ghost predicate CanBeWoken(s: State, w: nat)
  {
    exists after, t :: IsRun(s, after, t) && w in t.pcs && !t.pcs[w].Waiting?
  }

  /** The table sends no request to w: its port takes none, or it has been replaced. */
  ghost predicate OutOfReach(s: State, w: nat)
  {
    var p := SocketOf(s, w).port;
    p != API_PORT || (p in s.latest && s.latest[p] != w)
  }

  ghost predicate Stuck(s: State, w: nat)
  {
    && Safe(s) && s.variant.OneShot? && Is(s, w, Waiting) && OutOfReach(s, w)
    && (forall c :: c in s.pcs ==> ApiPortSafe(s, c) && !AtEntry(s.pcs[c], w))
  }

  lemma NoLookUpFinds(s: State, c: nat, w: nat)
    requires RegistrySafe(s) && s.variant.OneShot? && OutOfReach(s, w) && Is(s, c, LookingUp) && ApiPortSafe(s, c)
    ensures var p := SocketOf(s, c).port; p in s.workers ==> s.workers[p] != w
  {
    var p := SocketOf(s, c).port;
    if p in s.workers {
      TableIsEntered(s, p);
    }
  }

  /** A step moves its own thread, and at most wakes one other. */
  predicate Undisturbed(p: Pc, q: Pc)
  {
    q == p || (p.Waiting? && q.Woken?)
  }

  lemma OthersStayPut(s: State, a: Action, c: nat)
    requires Enabled(s, a) && c in s.pcs && c != a.c
    ensures c in Next(s, a).pcs && Undisturbed(s.pcs[c], Next(s, a).pcs[c])
  {
    if Arrives(a) {
      assert Arrive(s, a).pcs - {a.c} == s.pcs - {a.c};
    } else if Asks(a) {
      OthersStayPutAsking(s, a, c);
    }
  }

  lemma OthersStayPutAsking(s: State, a: Action, c: nat)
    requires Enabled(s, a) && Asks(a) && c in s.pcs && c != a.c
    ensures c in Ask(s, a).pcs && Undisturbed(s.pcs[c], Ask(s, a).pcs[c])
  {
  }

  /** A thread gets to a worker only by finding it in the table. */
  lemma OthersDoNotChoose(s: State, a: Action, w: nat)
    requires Enabled(s, a) && !Asks(a) && (a.c in s.pcs ==> !AtEntry(s.pcs[a.c], w)) && a.c in Next(s, a).pcs
    ensures !AtEntry(Next(s, a).pcs[a.c], w)
  {
  }

  lemma ChosenOnesStay(s: State, a: Action, w: nat)
    requires Enabled(s, a) && Asks(a) && !a.LookUp? && a.c in s.pcs && !AtEntry(s.pcs[a.c], w)
    ensures a.c in Ask(s, a).pcs && !AtEntry(Ask(s, a).pcs[a.c], w)
  {
  }

  lemma LookUpChoosesFromTheTable(s: State, c: nat, w: nat)
    requires Is(s, c, LookingUp) && var p := SocketOf(s, c).port; p in s.workers ==> s.workers[p] != w
    ensures c in DoLookUp(s, c).pcs && !AtEntry(DoLookUp(s, c).pcs[c], w)
  {
  }

  lemma OnlyAcceptAdds(s: State, a: Action, c: nat)
    requires Enabled(s, a) && c in Next(s, a).pcs && c !in s.pcs
    ensures a.Accept? && c == a.c
  {
    if !Arrives(a) {
      OnlyArrivalsAreNew(s, a, c);
      assert false;
    }
  }

  lemma StuckThread(s: State, a: Action, w: nat, c: nat)
    requires Enabled(s, a) && c in Next(s, a).pcs && (c in s.pcs ==> !AtEntry(s.pcs[c], w))
    requires a.LookUp? ==> var p := SocketOf(s, a.c).port; p in s.workers ==> s.workers[p] != w
    ensures !AtEntry(Next(s, a).pcs[c], w)
  {
    if c == a.c {
      if a.LookUp? {
        LookUpChoosesFromTheTable(s, c, w);
      } else if Asks(a) {
        ChosenOnesStay(s, a, w);
      } else {
        OthersDoNotChoose(s, a, w);
      }
    } else if c in s.pcs {
      OthersStayPut(s, a, c);
    } else {
      OnlyAcceptAdds(s, a, c);
    }
  }

  lemma StuckArriving(s: State, a: Action, w: nat)
    requires Enabled(s, a) && Arrives(a) && SocketsSafe(s) && Is(s, w, Waiting) && OutOfReach(s, w)
    ensures Is(Arrive(s, a), w, Waiting) && OutOfReach(Arrive(s, a), w)
  {
  }

  lemma StuckServing(s: State, a: Action, w: nat)
    requires Enabled(s, a) && Serves(a) && Is(s, w, Waiting) && OutOfReach(s, w)
    ensures Is(Serve(s, a), w, Waiting) && OutOfReach(Serve(s, a), w)
  {
  }

  lemma StuckAsking(s: State, a: Action, w: nat)
    requires Enabled(s, a) && Asks(a) && SocketsSafe(s) && Is(s, w, Waiting) && OutOfReach(s, w)
             && !AtEntry(s.pcs[a.c], w)
    ensures Is(Ask(s, a), w, Waiting) && OutOfReach(Ask(s, a), w)
  {
    AskKeepsPorts(s, a, w);
    assert Ask(s, a).latest == s.latest;
    assert Is(Ask(s, a), w, Waiting);
  }

  lemma StuckCopying(s: State, a: Action, w: nat)
    requires Enabled(s, a) && Copies(a) && Is(s, w, Waiting) && OutOfReach(s, w)
    ensures Is(Copy(s, a), w, Waiting) && OutOfReach(Copy(s, a), w)
  {
  }

  lemma StuckSelf(s: State, a: Action, w: nat)
    requires Enabled(s, a) && SocketsSafe(s) && Is(s, w, Waiting) && OutOfReach(s, w)
    requires a.c in s.pcs ==> !AtEntry(s.pcs[a.c], w)
    ensures Is(Next(s, a), w, Waiting) && OutOfReach(Next(s, a), w)
  {
    if Arrives(a) {
      StuckArriving(s, a, w);
    } else if Serves(a) {
      StuckServing(s, a, w);
    } else if Asks(a) {
      StuckAsking(s, a, w);
    } else {
      StuckCopying(s, a, w);
    }
  }

  lemma ApiPortStep(s: State, a: Action, c: nat)
    requires SocketsSafe(s) && Enabled(s, a) && c in Next(s, a).pcs && (c in s.pcs ==> ApiPortSafe(s, c))
    ensures ApiPortSafe(Next(s, a), c)
  {
    if Arrives(a) {
      ArriveKeepsApiPort(s, a, c);
    } else {
      OnlyArrivalsAreNew(s, a, c);
      if Serves(a) {
        ServeKeepsApiPort(s, a, c);
      } else if Asks(a) {
        AskKeepsApiPort(s, a, c);
      } else {
        CopyKeepsApiPort(s, a, c);
      }
    }
  }

  lemma StuckStep(s: State, a: Action, w: nat)
    requires Stuck(s, w) && Enabled(s, a)
    ensures Stuck(Next(s, a), w)
  {
    SafeStep(s, a);
    VariantStaysOneStep(s, a);
    if a.LookUp? {
      NoLookUpFinds(s, a.c, w);
    }
    StuckSelf(s, a, w);
    forall c | c in Next(s, a).pcs ensures ApiPortSafe(Next(s, a), c) && !AtEntry(Next(s, a).pcs[c], w) {
      ApiPortStep(s, a, c);
      StuckThread(s, a, w, c);
    }
  }

  lemma VariantStaysOneStep(s: State, a: Action)
    requires Enabled(s, a)
    ensures Next(s, a).variant == s.variant
  {
  }

  lemma {:induction false} StuckRun(s: State, actions: seq<Action>, t: State, w: nat)
    requires Stuck(s, w) && IsRun(s, actions, t)
    ensures Is(t, w, Waiting)
    decreases |actions|
  {
    if actions != [] {
      StuckStep(s, actions[0], w);
      StuckRun(Next(s, actions[0]), actions[1..], t, w);
    }
  }

  lemma {:induction false} Above(s: set<nat>) returns (a: nat)
    ensures forall x :: x in s ==> x < a
  {
    if x :| x in s {
      var b := Above(s - {x});
      a := if b <= x then x + 1 else b;
      forall y | y in s ensures y < a {
        assert y == x || y in s - {x};
      }
    } else {
      a := 0;
    }
  }

  lemma LatestCanBeWoken(s: State, w: nat)
    requires Good(s) && s.lock.None? && Is(s, w, Waiting)
    requires SocketOf(s, w).port == API_PORT && API_PORT in s.latest && s.latest[API_PORT] == w
    ensures CanBeWoken(s, w)
  {
    assert PortSafe(s, API_PORT) && OpenSafe(s, w) && RoleSafe(s, w);
    var a := Above(s.pcs.Keys);
    assert a !in s.pcs && a !in s.sockets && a != w;
    var actions, t := Requests(s, w, a, 71);
    assert IsRun(s, actions, t) && t.pcs[w].Woken?;
  }

  lemma OutOfReachIsStuck(s: State, w: nat)
    requires Good(s) && s.variant.OneShot? && s.lock.None? && Is(s, w, Waiting) && OutOfReach(s, w)
    ensures Stuck(s, w)
  {
    forall c | c in s.pcs ensures !AtEntry(s.pcs[c], w) {
      assert Holds(s.pcs[c]) ==> s.lock == Some(c);
    }
  }

  /** In every reachable state of the one-shot relay with the lock free: a waiting
      worker can still be woken exactly when it is the latest on the one port that
      takes requests. One that has been replaced waits for ever, and so does every
      worker on another port. */
  lemma WhoCanBeWoken(actions: seq<Action>, s: State, w: nat)
    requires IsRun(Start(OneShot), actions, s) && s.lock.None? && Is(s, w, Waiting)
    ensures CanBeWoken(s, w) <==> SocketOf(s, w).port == 7000 && 7000 in s.latest && s.latest[7000] == w
  {
    GoodRun(OneShot, actions, s);
    VariantStays(Start(OneShot), actions, s);
    assert ReplacedIsClosed(s, w);
    if SocketOf(s, w).port == API_PORT && s.latest[API_PORT] == w {
      LatestCanBeWoken(s, w);
    } else {
      OutOfReachIsStuck(s, w);
      forall after, t | IsRun(s, after, t) ensures Is(t, w, Waiting) {
        StuckRun(s, after, t, w);
      }
    }
  }

  /** A worker whose registration was replaced while it waited waits for ever. */
  lemma ReplacedWorkerWaitsForever(before: seq<Action>, s: State, after: seq<Action>, t: State, w: nat)
    requires IsRun(Start(OneShot), before, s) && IsRun(s, after, t)
    requires s.lock.None? && Is(s, w, Waiting)
    requires var p := SocketOf(s, w).port; p in s.latest && s.latest[p] != w
    ensures Is(t, w, Waiting)
  {
    GoodRun(OneShot, before, s);
    VariantStays(Start(OneShot), before, s);
    OutOfReachIsStuck(s, w);
    StuckRun(s, after, t, w);
  }
}
