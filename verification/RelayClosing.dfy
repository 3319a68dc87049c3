// When the relay closes connections.

module RelayClosing {
  import opened Wrappers
  import opened Relay
  import opened RelayBytes
  import opened RelayWakeups
  import opened RelayRequests

  /** Whoever has been rejected, and a worker that is through, has its connection closed. */
  ghost predicate EndClosed(s: State, c: nat)
    requires c in s.pcs
  {
    s.pcs[c].Rejected? || s.pcs[c].WorkerDone? ==> !SocketOf(s, c).open
  }

  /** A client on its way to a worker. */
  predicate OnItsWay(pc: Pc)
  {
    pc.Reading? || pc.EnterApi? || pc.LookingUp? || pc.Stored? || pc.MagicSent? || pc.SendFailed?
  }

  predicate Taken(s: State, a: nat)
  {
    a in s.targets && a in EntryOf(s, s.targets[a]).taken
  }

  /** Request a has been taken and its bridge is over. */
  predicate Served(s: State, a: nat)
  {
    Taken(s, a)
    && !(s.targets[a] in s.pcs && s.pcs[s.targets[a]].Bridging? && s.pcs[s.targets[a]].api == a)
  }

  /** A client's connection is open on its way, and afterwards until it has been served. */
  ghost predicate ClientOpen(s: State, a: nat)
    requires a in s.pcs
  {
    && (OnItsWay(s.pcs[a]) ==> SocketOf(s, a).open && !Taken(s, a))
    && (s.pcs[a].ApiDone? ==> a in s.targets && (SocketOf(s, a).open <==> !Served(s, a)))
  }

  ghost predicate Tidy(s: State)
  {
    Handed(s) && forall c :: c in s.pcs ==> EndClosed(s, c) && ClientOpen(s, c)
  }

  // ----- ends -----

  lemma ArriveCloses(s: State, a: Action, c: nat)
    requires Enabled(s, a) && Arrives(a) && c in Arrive(s, a).pcs && (c in s.pcs ==> EndClosed(s, c))
    ensures EndClosed(Arrive(s, a), c)
  {
  }

  lemma ServeCloses(s: State, a: Action, c: nat)
    requires Enabled(s, a) && Serves(a) && c in s.pcs && EndClosed(s, c)
    ensures c in Serve(s, a).pcs && EndClosed(Serve(s, a), c)
  {
  }

  lemma AskCloses(s: State, a: Action, c: nat)
    requires Enabled(s, a) && Asks(a) && c in s.pcs && EndClosed(s, c)
    requires s.pcs[a.c].Stored? ==> s.pcs[a.c].entry in s.sockets
    ensures c in Ask(s, a).pcs && EndClosed(Ask(s, a), c)
  {
  }

  lemma CopyCloses(s: State, a: Action, c: nat)
    requires Enabled(s, a) && Copies(a) && c in s.pcs && EndClosed(s, c)
    ensures c in Copy(s, a).pcs && EndClosed(Copy(s, a), c)
  {
  }

  lemma EndStep(s: State, a: Action, c: nat)
    requires Handed(s) && Enabled(s, a) && c in Next(s, a).pcs && (c in s.pcs ==> EndClosed(s, c))
    ensures EndClosed(Next(s, a), c)
  {
    if Arrives(a) {
      ArriveCloses(s, a, c);
    } else {
      OnlyArrivalsAreNew(s, a, c);
      if Serves(a) {
        ServeCloses(s, a, c);
      } else if Asks(a) {
        if a.SendMagic? {
          StoredHasASocket(s, a.c);
        }
        AskCloses(s, a, c);
      } else {
        CopyCloses(s, a, c);
      }
    }
  }

  // ----- clients -----

  lemma ArriveKeepsClient(s: State, e: Action, a: nat)
    requires Enabled(s, e) && Arrives(e) && a in Arrive(s, e).pcs && (a in s.pcs ==> ClientOpen(s, a))
    requires e.c !in s.targets && s.targets.Keys <= s.pcs.Keys
    ensures ClientOpen(Arrive(s, e), a)
  {
  }

  /** The replaced worker is no client. */
  lemma InstallKeepsClient(s: State, c: nat, a: nat)
    requires Is(s, c, Registering) && c !in s.entries && a in s.pcs && a != c && ClientOpen(s, a)
    requires var p := SocketOf(s, c).port; p in s.workers ==> s.workers[p] in s.pcs && Entered(s.pcs[s.workers[p]])
    requires a in s.targets ==> s.targets[a] in s.entries
    ensures a in DoInstall(s, c).pcs && ClientOpen(DoInstall(s, c), a)
  {
  }

  lemma WaitKeepsClient(s: State, c: nat, a: nat)
    requires Is(s, c, Armed) && a in s.pcs && ClientOpen(s, a)
    ensures a in DoWait(s, c).pcs && ClientOpen(DoWait(s, c), a)
  {
  }

  lemma CleanKeepsClient(s: State, c: nat, a: nat)
    requires Is(s, c, Cleaning) && a in s.pcs && ClientOpen(s, a)
    ensures a in DoClean(s, c).pcs && ClientOpen(DoClean(s, c), a)
  {
  }

  lemma PopKeepsClient(s: State, c: nat, a: nat)
    requires Is(s, c, Popping) && c in s.entries && SlotSafe(s, c) && a in s.pcs && ClientOpen(s, a)
    requires s.entries[c].slot == Some(a) ==> !OnItsWay(s.pcs[a])
    ensures a in DoPop(s, c).pcs && ClientOpen(DoPop(s, c), a)
  {
  }

  lemma LookUpKeepsClient(s: State, c: nat, a: nat)
    requires Is(s, c, LookingUp) && c !in s.targets && a in s.pcs && ClientOpen(s, a)
    requires var p := SocketOf(s, c).port;
             p in s.workers ==> s.workers[p] in s.entries && c !in s.entries[s.workers[p]].taken
    ensures a in DoLookUp(s, c).pcs && ClientOpen(DoLookUp(s, c), a)
  {
    var n := DoLookUp(s, c);
    if a != c {
      assert n.pcs[a] == s.pcs[a] && SocketOf(n, a) == SocketOf(s, a);
      assert Taken(n, a) == Taken(s, a);
    }
  }

  lemma SendKeepsClient(s: State, c: nat, e: nat, ok: bool, a: nat)
    requires Is(s, c, Stored(e)) && e in s.sockets && a in s.pcs && ClientOpen(s, a)
    ensures a in DoSendMagic(s, c, e, ok).pcs && ClientOpen(DoSendMagic(s, c, e, ok), a)
  {
  }

  lemma AbortKeepsClient(s: State, c: nat, e: nat, a: nat)
    requires Is(s, c, SendFailed(e)) && a in s.pcs && ClientOpen(s, a)
    ensures a in DoAbort(s, c, e).pcs && ClientOpen(DoAbort(s, c, e), a)
  {
  }

  lemma NotifyKeepsClient(s: State, c: nat, e: nat, a: nat)
    requires Is(s, c, MagicSent(e)) && c in s.targets && a in s.pcs && ClientOpen(s, a)
    ensures a in DoNotify(s, c, e).pcs && ClientOpen(DoNotify(s, c, e), a)
  {
  }

  lemma CopyKeepsClient(s: State, e: Action, a: nat)
    requires Enabled(s, e) && Copies(e) && a in s.pcs && ClientOpen(s, a)
    requires e.c !in s.targets && e.c in s.entries
    requires var b := s.pcs[e.c].api;
             b in s.pcs && b in s.targets && s.targets[b] == e.c && b in s.entries[e.c].taken && !OnItsWay(s.pcs[b])
    ensures a in Copy(s, e).pcs && ClientOpen(Copy(s, e), a)
  {
  }

  lemma NotTakenYet(s: State, c: nat, w: nat)
    requires HandoffSafe(s) && w in s.entries && c !in s.targets
    ensures c !in s.entries[w].taken
  {
    assert SlotSafe(s, w);
  }

  lemma TargetsAreWorkers(s: State, a: nat)
    requires HandoffSafe(s) && a in s.pcs && a in s.targets
    ensures s.targets[a] in s.entries
  {
    assert TargetSafe(s, a);
  }

  lemma ReplacedIsEntered(s: State, p: nat)
    requires RegistrySafe(s)
    ensures p in s.workers ==> s.workers[p] in s.pcs && Entered(s.pcs[s.workers[p]])
  {
    if p in s.workers {
      TableIsEntered(s, p);
    }
  }

  lemma InstallingKeepsClient(s: State, c: nat, a: nat)
    requires RegistrySafe(s) && HandoffSafe(s) && Is(s, c, Registering) && a in s.pcs && ClientOpen(s, a)
    ensures a in DoInstall(s, c).pcs && ClientOpen(DoInstall(s, c), a)
  {
    if a != c {
      ServingIsReady(s, c);
      ReplacedIsEntered(s, SocketOf(s, c).port);
      if a in s.targets {
        TargetsAreWorkers(s, a);
      }
      InstallKeepsClient(s, c, a);
    }
  }

  lemma PoppingKeepsClient(s: State, c: nat, a: nat)
    requires LockSafe(s) && HandoffSafe(s) && Is(s, c, Popping) && a in s.pcs && ClientOpen(s, a)
    ensures a in DoPop(s, c).pcs && ClientOpen(DoPop(s, c), a)
  {
    PopIsReady(s, c);
    assert SlotSafe(s, c);
    PopKeepsClient(s, c, a);
  }

  lemma ServeKeepsClient(s: State, e: Action, a: nat)
    requires RegistrySafe(s) && LockSafe(s) && HandoffSafe(s) && Enabled(s, e) && Serves(e)
    requires a in s.pcs && ClientOpen(s, a)
    ensures a in Serve(s, e).pcs && ClientOpen(Serve(s, e), a)
  {
    match e
    case Install(c) => InstallingKeepsClient(s, c, a);
    case Wait(c) => WaitKeepsClient(s, c, a);
    case Pop(c) => PoppingKeepsClient(s, c, a);
    case Clean(c) => CleanKeepsClient(s, c, a);
  }

  lemma AskKeepsClient(s: State, e: Action, a: nat)
    requires SocketsSafe(s) && RegistrySafe(s) && HandoffSafe(s) && Enabled(s, e) && Asks(e)
    requires a in s.pcs && ClientOpen(s, a)
    ensures a in Ask(s, e).pcs && ClientOpen(Ask(s, e), a)
  {
    match e
    case LookUp(c) =>
      LookUpIsReady(s, c);
      var p := SocketOf(s, c).port;
      if p in s.workers {
        NotTakenYet(s, c, s.workers[p]);
      }
      LookUpKeepsClient(s, c, a);
    case SendMagic(c, ok) =>
      AtItsTarget(s, c);
      StoredHasASocket(s, c);
      SendKeepsClient(s, c, s.pcs[c].entry, ok, a);
    case Abort(c) => AbortKeepsClient(s, c, s.pcs[c].entry, a);
    case Notify(c) =>
      AtItsTarget(s, c);
      NotifyKeepsClient(s, c, s.pcs[c].entry, a);
  }

  lemma CopyingKeepsClient(s: State, e: Action, a: nat)
    requires HandoffSafe(s) && Enabled(s, e) && Copies(e) && BridgeSafe(s, e.c)
    requires a in s.pcs && ClientOpen(s, a) && forall c :: c in s.pcs ==> ClientOpen(s, c)
    ensures a in Copy(s, e).pcs && ClientOpen(Copy(s, e), a)
  {
    BridgeIsApart(s, e.c);
    var b := s.pcs[e.c].api;
    assert SlotSafe(s, e.c) && b in s.entries[e.c].taken && b in s.pcs;
    assert ClientOpen(s, b);
    CopyKeepsClient(s, e, a);
  }

  lemma ClientStep(s: State, e: Action, a: nat)
    requires Handed(s) && Enabled(s, e) && a in Next(s, e).pcs && forall c :: c in s.pcs ==> ClientOpen(s, c)
    ensures ClientOpen(Next(s, e), a)
  {
    if Arrives(e) {
      ArrivingHasNoTarget(s, e);
      ArriveKeepsClient(s, e, a);
    } else {
      OnlyArrivalsAreNew(s, e, a);
      if Serves(e) {
        ServeKeepsClient(s, e, a);
      } else if Asks(e) {
        AskKeepsClient(s, e, a);
      } else {
        CopyingKeepsClient(s, e, a);
      }
    }
  }

  lemma TidyStep(s: State, e: Action)
    requires Tidy(s) && Enabled(s, e)
    ensures Tidy(Next(s, e))
  {
    HandedStep(s, e);
    forall c | c in Next(s, e).pcs ensures EndClosed(Next(s, e), c) && ClientOpen(Next(s, e), c) {
      EndStep(s, e, c);
      ClientStep(s, e, c);
    }
  }

  lemma TidyRun(variant: Variant, actions: seq<Action>, t: State)
    requires IsRun(Start(variant), actions, t)
    ensures Tidy(t)
  {
    forall s, e | Tidy(s) && Enabled(s, e) ensures Tidy(Next(s, e)) {
      TidyStep(s, e);
    }
    RunKeeps((s: State) => Tidy(s), Start(variant), actions, t);
  }

  /** Every run of both relays: whoever was rejected and every worker that is through has
      its connection closed, and the connection of a client that was handed over is closed
      exactly when it has been taken and its bridge is over. */
  lemma ConnectionsAreClosed(variant: Variant, actions: seq<Action>, t: State, c: nat)
    requires IsRun(Start(variant), actions, t) && c in t.pcs
    ensures t.pcs[c].Rejected? || t.pcs[c].WorkerDone? ==> !SocketOf(t, c).open
    ensures t.pcs[c].ApiDone? ==>
              && c in t.targets
              && (SocketOf(t, c).open <==>
                    c !in EntryOf(t, t.targets[c]).taken
                    || (t.targets[c] in t.pcs && t.pcs[t.targets[c]].Bridging? && t.pcs[t.targets[c]].api == c))
  {
    TidyRun(variant, actions, t);
    assert EndClosed(t, c) && ClientOpen(t, c);
  }
}
