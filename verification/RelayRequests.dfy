// When a request that was handed to a worker is taken by it.

module RelayRequests {
  import opened Wrappers
  import opened Relay
  import opened RelayBytes
  import opened RelayFaults
  import opened RelayWakeups

  // ----- the slot while a request is being handed over -----

  predicate AtSome(pc: Pc)
  {
    pc.Stored? || pc.MagicSent? || pc.SendFailed?
  }

  /** In its critical section a request is in the slot of the worker it has found. */
  ghost predicate HolderSafe(s: State, d: nat)
    requires d in s.pcs
  {
    AtSome(s.pcs[d]) ==> EntryOf(s, s.pcs[d].entry).slot == Some(d)
  }

  lemma HolderElsewhere(s: State, a: Action, d: nat)
    requires Enabled(s, a) && (Arrives(a) || Copies(a)) && d in Next(s, a).pcs && (d in s.pcs ==> HolderSafe(s, d))
    ensures HolderSafe(Next(s, a), d)
  {
  }

  /** A serving step is in its own critical section, so no request is in one. */
  lemma HolderServing(s: State, a: Action, d: nat)
    requires LockSafe(s) && Enabled(s, a) && Serves(a) && d in s.pcs
    ensures d in Serve(s, a).pcs && HolderSafe(Serve(s, a), d)
  {
    assert Holds(s.pcs[a.c]);
    assert d != a.c ==> !AtSome(s.pcs[d]);
    ServingIsNotAsking(s, a, d);
  }

  lemma ServingIsNotAsking(s: State, a: Action, d: nat)
    requires Enabled(s, a) && Serves(a) && d in s.pcs && (d != a.c ==> !AtSome(s.pcs[d]))
    ensures d in Serve(s, a).pcs && !AtSome(Serve(s, a).pcs[d])
  {
  }

  lemma HolderAtLookUp(s: State, c: nat, d: nat)
    requires Is(s, c, LookingUp) && d in s.pcs && (d != c ==> !AtSome(s.pcs[d]))
    ensures d in DoLookUp(s, c).pcs && HolderSafe(DoLookUp(s, c), d)
  {
  }

  lemma HolderAtSend(s: State, c: nat, e: nat, ok: bool, d: nat)
    requires Is(s, c, Stored(e)) && d in s.pcs && HolderSafe(s, d)
    ensures d in DoSendMagic(s, c, e, ok).pcs && HolderSafe(DoSendMagic(s, c, e, ok), d)
  {
  }

  lemma HolderAtAbort(s: State, c: nat, e: nat, d: nat)
    requires Is(s, c, SendFailed(e)) && d in s.pcs && (d != c ==> !AtSome(s.pcs[d]))
    ensures d in DoAbort(s, c, e).pcs && HolderSafe(DoAbort(s, c, e), d)
  {
  }

  lemma HolderAtNotify(s: State, c: nat, e: nat, d: nat)
    requires Is(s, c, MagicSent(e)) && d in s.pcs && (d != c ==> !AtSome(s.pcs[d]))
    ensures d in DoNotify(s, c, e).pcs && HolderSafe(DoNotify(s, c, e), d)
  {
  }

  lemma HolderAsking(s: State, a: Action, d: nat)
    requires Enabled(s, a) && Asks(a) && d in s.pcs && HolderSafe(s, d)
    requires d != a.c ==> !AtSome(s.pcs[d])
    ensures d in Ask(s, a).pcs && HolderSafe(Ask(s, a), d)
  {
    match a
    case LookUp(c) => HolderAtLookUp(s, c, d);
    case SendMagic(c, ok) => HolderAtSend(s, c, s.pcs[c].entry, ok, d);
    case Abort(c) => HolderAtAbort(s, c, s.pcs[c].entry, d);
    case Notify(c) => HolderAtNotify(s, c, s.pcs[c].entry, d);
  }

  lemma AskingIsAlone(s: State, a: Action, d: nat)
    requires LockSafe(s) && Enabled(s, a) && (Asks(a) || Serves(a)) && d in s.pcs && d != a.c
    ensures !Holds(s.pcs[d])
  {
    assert Holds(s.pcs[a.c]);
  }

  lemma HolderStep(s: State, a: Action, d: nat)
    requires LockSafe(s) && Enabled(s, a) && d in Next(s, a).pcs && (d in s.pcs ==> HolderSafe(s, d))
    ensures HolderSafe(Next(s, a), d)
  {
    if Arrives(a) || Copies(a) {
      HolderElsewhere(s, a, d);
    } else {
      OnlyArrivalsAreNew(s, a, d);
      if d != a.c {
        AskingIsAlone(s, a, d);
      }
      if Serves(a) {
        HolderServing(s, a, d);
      } else {
        HolderAsking(s, a, d);
      }
    }
  }

  // ----- the latest request -----

  /** The latest request stored at a worker is in its slot or has been taken, once
      its thread has let it go with a notification. */
  ghost predicate LatestKept(s: State, w: nat)
    requires w in s.entries
  {
    var e := s.entries[w];
    e.apis != [] ==>
      var a := e.apis[|e.apis| - 1];
      && a in s.pcs && a in s.targets && s.targets[a] == w
      && (s.pcs[a].ApiDone? ==> e.slot == Some(a) || a in e.taken)
  }

  lemma LatestElsewhere(s: State, a: Action, w: nat)
    requires Enabled(s, a) && (Arrives(a) || Copies(a)) && w in s.entries && LatestKept(s, w)
    requires Arrives(a) ==> a.c !in s.targets
    ensures w in Next(s, a).entries && LatestKept(Next(s, a), w)
  {
  }

  lemma LatestAtInstall(s: State, c: nat, w: nat)
    requires Is(s, c, Registering) && c !in s.targets && w in DoInstall(s, c).entries
             && (w in s.entries ==> LatestKept(s, w))
    ensures LatestKept(DoInstall(s, c), w)
  {
  }

  lemma LatestAtOwnPop(s: State, w: nat)
    requires Is(s, w, Popping) && w !in s.targets && w in s.entries && LatestKept(s, w)
    ensures w in DoPop(s, w).entries && LatestKept(DoPop(s, w), w)
  {
  }

  lemma LatestAtPop(s: State, c: nat, w: nat)
    requires Is(s, c, Popping) && c !in s.targets && c in s.entries && w in s.entries && LatestKept(s, w)
    ensures w in DoPop(s, c).entries && LatestKept(DoPop(s, c), w)
  {
    if w == c {
      LatestAtOwnPop(s, w);
    } else {
      assert DoPop(s, c).entries[w] == s.entries[w];
    }
  }

  lemma LatestAtWait(s: State, c: nat, w: nat)
    requires Is(s, c, Armed) && c !in s.targets && w in s.entries && LatestKept(s, w)
    ensures w in DoWait(s, c).entries && LatestKept(DoWait(s, c), w)
  {
  }

  lemma LatestAtClean(s: State, c: nat, w: nat)
    requires Is(s, c, Cleaning) && c !in s.targets && w in s.entries && LatestKept(s, w)
    ensures w in DoClean(s, c).entries && LatestKept(DoClean(s, c), w)
  {
  }

  lemma LatestServing(s: State, a: Action, w: nat)
    requires Enabled(s, a) && Serves(a) && w in Serve(s, a).entries && (w in s.entries ==> LatestKept(s, w))
    requires a.c !in s.targets && (a.Install? || w in s.entries) && (a.Pop? ==> a.c in s.entries)
    ensures LatestKept(Serve(s, a), w)
  {
    match a
    case Install(c) => LatestAtInstall(s, c, w);
    case Wait(c) => LatestAtWait(s, c, w);
    case Pop(c) => LatestAtPop(s, c, w);
    case Clean(c) => LatestAtClean(s, c, w);
  }

  lemma LatestAtLookUp(s: State, c: nat, w: nat)
    requires Is(s, c, LookingUp) && c !in s.targets && w in DoLookUp(s, c).entries
    requires w in s.entries && LatestKept(s, w)
    ensures LatestKept(DoLookUp(s, c), w)
  {
  }

  lemma LatestAtSend(s: State, c: nat, e: nat, ok: bool, w: nat)
    requires Is(s, c, Stored(e)) && w in s.entries && LatestKept(s, w)
    ensures w in DoSendMagic(s, c, e, ok).entries && LatestKept(DoSendMagic(s, c, e, ok), w)
  {
  }

  lemma LatestAtAbort(s: State, c: nat, e: nat, w: nat)
    requires Is(s, c, SendFailed(e)) && e in s.entries && HolderSafe(s, c) && w in s.entries && LatestKept(s, w)
    ensures w in DoAbort(s, c, e).entries && LatestKept(DoAbort(s, c, e), w)
  {
  }

  lemma LatestAtNotify(s: State, c: nat, e: nat, w: nat)
    requires Is(s, c, MagicSent(e)) && HolderSafe(s, c) && w in s.entries && LatestKept(s, w)
    requires c in s.targets && s.targets[c] == e
    ensures w in DoNotify(s, c, e).entries && LatestKept(DoNotify(s, c, e), w)
  {
  }

  /** What is known about reachable states, with the handover. */
  ghost predicate Handed(s: State)
  {
    && Good(s)
    && (forall d :: d in s.pcs ==> HolderSafe(s, d))
    && (forall w :: w in s.entries ==> LatestKept(s, w))
  }

  lemma AtItsTarget(s: State, c: nat)
    requires HandoffSafe(s) && c in s.pcs && AtSome(s.pcs[c])
    ensures c in s.targets && s.targets[c] == s.pcs[c].entry && s.pcs[c].entry in s.entries
  {
    assert TargetSafe(s, c);
  }

  /** What an asking step relies on: a request at its worker is on its way to it. */
  ghost predicate AskReady(s: State, a: Action)
  {
    && a.c in s.pcs
    && (if a.LookUp? then
          a.c !in s.targets
          && (var p := SocketOf(s, a.c).port; p in s.workers ==> s.workers[p] in s.entries)
        else
          AtSome(s.pcs[a.c]) ==>
            a.c in s.targets && s.targets[a.c] == s.pcs[a.c].entry && s.pcs[a.c].entry in s.entries)
  }

  lemma SafeIsAskReady(s: State, a: Action)
    requires RegistrySafe(s) && HandoffSafe(s) && Enabled(s, a) && Asks(a)
    ensures AskReady(s, a)
  {
    if a.LookUp? {
      LookUpIsReady(s, a.c);
    } else {
      AtItsTarget(s, a.c);
    }
  }

  lemma LatestAsking(s: State, a: Action, w: nat)
    requires Enabled(s, a) && Asks(a) && AskReady(s, a) && HolderSafe(s, a.c) && w in Ask(s, a).entries
    requires w in s.entries && LatestKept(s, w)
    ensures LatestKept(Ask(s, a), w)
  {
    match a
    case LookUp(c) => LatestAtLookUp(s, c, w);
    case SendMagic(c, ok) => LatestAtSend(s, c, s.pcs[c].entry, ok, w);
    case Abort(c) => LatestAtAbort(s, c, s.pcs[c].entry, w);
    case Notify(c) => LatestAtNotify(s, c, s.pcs[c].entry, w);
  }

  lemma AskingAddsNoEntries(s: State, a: Action)
    requires Enabled(s, a) && Asks(a) && AskReady(s, a)
    ensures Ask(s, a).entries.Keys == s.entries.Keys
  {
  }

  lemma ServingAddsItsEntry(s: State, a: Action)
    requires Enabled(s, a) && Serves(a) && (a.Pop? ==> a.c in s.entries)
    ensures Serve(s, a).entries.Keys == if a.Install? then s.entries.Keys + {a.c} else s.entries.Keys
  {
  }

  lemma OthersAddNoEntries(s: State, a: Action)
    requires Enabled(s, a) && (Arrives(a) || Copies(a))
    ensures Next(s, a).entries == s.entries
  {
  }

  lemma LatestServingStep(s: State, a: Action, w: nat)
    requires ServeReady(s, a) && Enabled(s, a) && Serves(a) && w in Serve(s, a).entries
             && (w in s.entries ==> LatestKept(s, w))
    ensures LatestKept(Serve(s, a), w)
  {
    ServingAddsItsEntry(s, a);
    LatestServing(s, a, w);
  }

  lemma LatestAskingStep(s: State, a: Action, w: nat)
    requires AskReady(s, a) && Enabled(s, a) && Asks(a) && HolderSafe(s, a.c)
    requires w in Ask(s, a).entries && (w in s.entries ==> LatestKept(s, w))
    ensures LatestKept(Ask(s, a), w)
  {
    AskingAddsNoEntries(s, a);
    LatestAsking(s, a, w);
  }

  lemma LatestStep(s: State, a: Action, w: nat)
    requires Safe(s) && Enabled(s, a) && w in Next(s, a).entries
    requires (a.c in s.pcs ==> HolderSafe(s, a.c)) && (w in s.entries ==> LatestKept(s, w))
    ensures LatestKept(Next(s, a), w)
  {
    if Serves(a) {
      SafeIsServeReady(s, a);
      LatestServingStep(s, a, w);
    } else if Asks(a) {
      SafeIsAskReady(s, a);
      LatestAskingStep(s, a, w);
    } else {
      if Arrives(a) {
        ArrivingHasNoTarget(s, a);
      }
      OthersAddNoEntries(s, a);
      LatestElsewhere(s, a, w);
    }
  }

  lemma HandedStep(s: State, a: Action)
    requires Handed(s) && Enabled(s, a)
    ensures Handed(Next(s, a))
  {
    GoodStep(s, a);
    forall d | d in Next(s, a).pcs ensures HolderSafe(Next(s, a), d) {
      HolderStep(s, a, d);
    }
    forall w | w in Next(s, a).entries ensures LatestKept(Next(s, a), w) {
      LatestStep(s, a, w);
    }
  }

  lemma HandedRun(variant: Variant, actions: seq<Action>, t: State)
    requires IsRun(Start(variant), actions, t)
    ensures Handed(t)
  {
    forall s, a | Handed(s) && Enabled(s, a) ensures Handed(Next(s, a)) {
      HandedStep(s, a);
    }
    RunKeeps((s: State) => Handed(s), Start(variant), actions, t);
  }

  /** Every run of both relays: a request that was notified is in its worker's slot or
      has been taken, until the next request is stored there. */
  lemma NotifiedRequestsAreKept(variant: Variant, actions: seq<Action>, t: State, w: nat, a: nat)
    requires IsRun(Start(variant), actions, t) && w in t.entries && Is(t, a, ApiDone)
    requires t.entries[w].apis != [] && t.entries[w].apis[|t.entries[w].apis| - 1] == a
    ensures t.entries[w].slot == Some(a) || a in t.entries[w].taken
  {
    HandedRun(variant, actions, t);
    assert LatestKept(t, w);
  }

  // ----- requests that are never taken -----

  /** No worker takes request a in any continuation. */
  ghost predicate NeverTaken(s: State, a: nat)
  {
    forall after, t, v :: IsRun(s, after, t) && v in t.entries ==> a !in t.entries[v].taken
  }

  /** Request a was stored at w and is not taken. Either it is in the slot, and w is
      neither woken nor will the thread of a wake it; or it has left the slot. */
  ghost predicate Missed(s: State, a: nat, w: nat)
  {
    && a in s.targets && s.targets[a] == w && w in s.entries && w in s.pcs && a in s.pcs
    && a !in s.entries[w].taken
    && (AtEntry(s.pcs[a], w) || s.pcs[a].ApiDone? || s.pcs[a].Rejected?)
    && (if s.entries[w].slot == Some(a)
        then !s.pcs[w].Woken? && !s.pcs[w].Popping? && (AtEntry(s.pcs[a], w) ==> !s.pcs[w].Waiting?)
        else !AtEntry(s.pcs[a], w))
  }

  lemma MissedArriving(s: State, act: Action, a: nat, w: nat)
    requires Missed(s, a, w) && Enabled(s, act) && Arrives(act) && (act.c in s.pcs ==> act.c != a)
    ensures Missed(Arrive(s, act), a, w)
  {
  }

  /** While the thread of a is in its critical section, no worker serves. */
  lemma MissedServing(s: State, act: Action, a: nat, w: nat)
    requires Missed(s, a, w) && Enabled(s, act) && Serves(act) && !AtEntry(s.pcs[a], w) && act.c != a
    requires act.Install? ==> act.c != w
    ensures Missed(Serve(s, act), a, w)
  {
  }

  lemma MissedAtLookUp(s: State, c: nat, a: nat, w: nat)
    requires Missed(s, a, w) && Is(s, c, LookingUp) && !AtEntry(s.pcs[a], w) && c !in s.targets
    ensures Missed(DoLookUp(s, c), a, w)
  {
  }

  lemma MissedAtSend(s: State, c: nat, e: nat, ok: bool, a: nat, w: nat)
    requires Missed(s, a, w) && Is(s, c, Stored(e)) && (c == a ==> e == w)
    ensures Missed(DoSendMagic(s, c, e, ok), a, w)
  {
  }

  lemma MissedAtAbort(s: State, c: nat, e: nat, a: nat, w: nat)
    requires Missed(s, a, w) && Is(s, c, SendFailed(e)) && (c == a ==> e == w) && (c != a ==> !AtEntry(s.pcs[a], w))
    ensures Missed(DoAbort(s, c, e), a, w)
  {
  }

  /** Another request's notification wakes w only when a has left the slot. */
  lemma MissedAtNotify(s: State, c: nat, e: nat, a: nat, w: nat)
    requires Missed(s, a, w) && Is(s, c, MagicSent(e)) && HolderSafe(s, c)
    requires (c == a ==> e == w) && (c != a ==> !AtEntry(s.pcs[a], w))
    ensures Missed(DoNotify(s, c, e), a, w)
  {
  }

  lemma MissedCopying(s: State, act: Action, a: nat, w: nat)
    requires Missed(s, a, w) && Enabled(s, act) && Copies(act)
    ensures Missed(Copy(s, act), a, w)
  {
  }

  lemma MissedAsking(s: State, act: Action, a: nat, w: nat)
    requires Missed(s, a, w) && Enabled(s, act) && Asks(act) && AskReady(s, act) && HolderSafe(s, act.c)
    requires act.c != a ==> !AtEntry(s.pcs[a], w)
    ensures Missed(Ask(s, act), a, w)
  {
    match act
    case LookUp(c) => MissedAtLookUp(s, c, a, w);
    case SendMagic(c, ok) => MissedAtSend(s, c, s.pcs[c].entry, ok, a, w);
    case Abort(c) => MissedAtAbort(s, c, s.pcs[c].entry, a, w);
    case Notify(c) => MissedAtNotify(s, c, s.pcs[c].entry, a, w);
  }

  /** A step in a critical section other than that of a. */
  lemma MissedIsNotAsking(s: State, act: Action, a: nat, w: nat)
    requires LockSafe(s) && Enabled(s, act) && (Asks(act) || Serves(act)) && a in s.pcs && act.c != a
    ensures !AtEntry(s.pcs[a], w)
  {
    AskingIsAlone(s, act, a);
  }

  lemma ServingIsNotARequest(s: State, act: Action, a: nat)
    requires ServeReady(s, act) && Enabled(s, act) && a in s.targets
    ensures act.c != a && (act.Install? ==> act.c !in s.entries)
  {
  }

  lemma MissedStep(s: State, act: Action, a: nat, w: nat)
    requires Handed(s) && Missed(s, a, w) && Enabled(s, act)
    ensures Missed(Next(s, act), a, w)
  {
    if Arrives(act) {
      ArrivingHasNoTarget(s, act);
      MissedArriving(s, act, a, w);
    } else if Serves(act) {
      SafeIsServeReady(s, act);
      ServingIsNotARequest(s, act, a);
      MissedIsNotAsking(s, act, a, w);
      MissedServing(s, act, a, w);
    } else if Asks(act) {
      SafeIsAskReady(s, act);
      if act.c != a {
        MissedIsNotAsking(s, act, a, w);
      }
      MissedAsking(s, act, a, w);
    } else {
      MissedCopying(s, act, a, w);
    }
  }

  lemma MissedIsNeverTaken(s: State, a: nat, w: nat)
    requires Handed(s) && Missed(s, a, w)
    ensures NeverTaken(s, a)
  {
    forall after, t, v | IsRun(s, after, t) && v in t.entries ensures a !in t.entries[v].taken {
      MissedRun(s, after, t, a, w);
      assert SlotSafe(t, v);
    }
  }

  lemma {:induction false} MissedRun(s: State, actions: seq<Action>, t: State, a: nat, w: nat)
    requires Handed(s) && Missed(s, a, w) && IsRun(s, actions, t)
    ensures HandoffSafe(t) && Missed(t, a, w)
    decreases |actions|
  {
    if actions != [] {
      HandedStep(s, actions[0]);
      MissedStep(s, actions[0], a, w);
      MissedRun(Next(s, actions[0]), actions[1..], t, a, w);
    }
  }

  // ----- exactly which requests can be taken -----

  lemma TakenByARun(s: State, actions: seq<Action>, t: State, w: nat, a: nat)
    requires IsRun(s, actions, t) && w in t.entries && a in t.entries[w].taken
    ensures !NeverTaken(s, a)
  {
  }

  /** Worker w is at its wait, or woken and not yet back. */
  predicate AtItsWait(s: State, w: nat)
  {
    w in s.pcs && (s.pcs[w].Waiting? || s.pcs[w].Woken?)
  }

  /** The rest of the critical section of a request wakes a worker at its wait. */
  lemma RequestWakesItsWorker(s: State, c: nat, w: nat) returns (t: State)
    requires Is(s, c, Stored(w)) && c != w && AtItsWait(s, w) && SocketOf(s, w).open
    requires w in s.entries && s.entries[w].slot == Some(c)
    ensures IsRun(s, [SendMagic(c, true), Notify(c)], t)
    ensures t.lock.None? && Is(t, w, Woken) && w in t.entries && t.entries[w].slot == Some(c)
  {
    var s1 := Next(s, SendMagic(c, true));
    assert Is(s1, c, MagicSent(w)) && s1.pcs[w] == s.pcs[w];
    Two(s, SendMagic(c, true), Notify(c));
    t := Next(s1, Notify(c));
  }

  lemma AwaitedRequestCanBeTaken(s: State, c: nat, w: nat)
    requires Is(s, c, Stored(w)) && c != w && AtItsWait(s, w) && SocketOf(s, w).open
    requires w in s.entries && s.entries[w].slot == Some(c)
    ensures !NeverTaken(s, c)
  {
    var t1 := RequestWakesItsWorker(s, c, w);
    var t2 := PopsNext(t1, w, c);
    Then(s, [SendMagic(c, true), Notify(c)], t1, [Acquire(w), Pop(w)], t2);
    TakenByARun(s, [SendMagic(c, true), Notify(c)] + [Acquire(w), Pop(w)], t2, w, c);
  }

  /** The worker a request finds in the table. */
  lemma FoundWorker(s: State, c: nat)
    requires Handed(s) && Is(s, c, LookingUp) && SocketOf(s, c).port in s.workers
    ensures var w := s.workers[SocketOf(s, c).port];
            && w != c && w in s.pcs && w in s.entries && Entered(s.pcs[w]) && SocketOf(s, w).open
            && !Holds(s.pcs[w]) && c !in s.targets
  {
    var p := SocketOf(s, c).port;
    TableIsEntered(s, p);
    assert OpenSafe(s, s.workers[p]);
    LookUpIsReady(s, c);
    AskingIsAlone(s, LookUp(c), s.workers[p]);
  }

  lemma StoredInPassing(s: State, c: nat, w: nat)
    requires HandoffSafe(s) && Is(s, c, LookingUp) && SocketOf(s, c).port in s.workers
             && s.workers[SocketOf(s, c).port] == w
    requires w != c && w in s.pcs && w in s.entries && Entered(s.pcs[w]) && !Holds(s.pcs[w]) && c !in s.targets
    requires !AtItsWait(s, w)
    ensures Missed(DoLookUp(s, c), c, w)
  {
    assert SlotSafe(s, w);
  }

  /** Every run of both relays: a request that is being stored at a worker can be
      taken in some continuation exactly when the worker is at its wait. */
  lemma StoredRequestIsTakenIffAwaited(variant: Variant, actions: seq<Action>, s: State, c: nat)
    requires IsRun(Start(variant), actions, s) && Is(s, c, LookingUp) && SocketOf(s, c).port in s.workers
    ensures NeverTaken(DoLookUp(s, c), c) <==> !AtItsWait(s, s.workers[SocketOf(s, c).port])
  {
    HandedRun(variant, actions, s);
    if AtItsWait(s, s.workers[SocketOf(s, c).port]) {
      FoundRequestCanBeTaken(s, c);
    } else {
      PassedRequestIsNeverTaken(s, c);
    }
  }

  lemma FoundRequestCanBeTaken(s: State, c: nat)
    requires Handed(s) && Is(s, c, LookingUp) && SocketOf(s, c).port in s.workers
    requires AtItsWait(s, s.workers[SocketOf(s, c).port])
    ensures !NeverTaken(DoLookUp(s, c), c)
  {
    FoundWorker(s, c);
    AwaitedRequestCanBeTaken(DoLookUp(s, c), c, s.workers[SocketOf(s, c).port]);
  }

  lemma PassedRequestIsNeverTaken(s: State, c: nat)
    requires Handed(s) && Is(s, c, LookingUp) && SocketOf(s, c).port in s.workers
    requires !AtItsWait(s, s.workers[SocketOf(s, c).port])
    ensures NeverTaken(DoLookUp(s, c), c)
  {
    FoundWorker(s, c);
    StoredInPassing(s, c, s.workers[SocketOf(s, c).port]);
    HandedStep(s, LookUp(c));
    MissedIsNeverTaken(DoLookUp(s, c), c, s.workers[SocketOf(s, c).port]);
  }

  lemma OverwrittenIsMissed(s: State, c: nat, w: nat, b: nat)
    requires LockSafe(s) && HandoffSafe(s) && Is(s, c, LookingUp) && c !in s.targets && w != c
    requires SocketOf(s, c).port in s.workers && s.workers[SocketOf(s, c).port] == w && w in s.pcs
    requires w in s.entries && s.entries[w].slot == Some(b)
    ensures b != c && Missed(DoLookUp(s, c), b, w)
  {
    assert SlotSafe(s, w) && TargetSafe(s, b);
    AskingIsAlone(s, LookUp(c), b);
  }

  lemma OverwrittenIsNeverTaken(s: State, c: nat, b: nat)
    requires Handed(s) && Is(s, c, LookingUp) && SocketOf(s, c).port in s.workers
    requires EntryOf(s, s.workers[SocketOf(s, c).port]).slot == Some(b)
    ensures NeverTaken(DoLookUp(s, c), b)
  {
    FoundWorker(s, c);
    OverwrittenIsMissed(s, c, s.workers[SocketOf(s, c).port], b);
    HandedStep(s, LookUp(c));
    MissedIsNeverTaken(DoLookUp(s, c), b, s.workers[SocketOf(s, c).port]);
  }

  /** Every run of both relays: storing a request costs a request its turn, its own or
      that of the one in the slot, exactly when the slot is taken or the worker is not
      at its wait. */
  lemma StoringCostsATurnIff(variant: Variant, actions: seq<Action>, s: State, c: nat)
    requires IsRun(Start(variant), actions, s) && Is(s, c, LookingUp) && SocketOf(s, c).port in s.workers
    ensures var w := s.workers[SocketOf(s, c).port];
            (exists b :: (b == c || EntryOf(s, w).slot == Some(b)) && NeverTaken(DoLookUp(s, c), b))
            <==> EntryOf(s, w).slot.Some? || !AtItsWait(s, w)
  {
    HandedRun(variant, actions, s);
    StoredRequestIsTakenIffAwaited(variant, actions, s, c);
    var slot := EntryOf(s, s.workers[SocketOf(s, c).port]).slot;
    if slot.Some? {
      OverwrittenIsNeverTaken(s, c, slot.value);
    }
  }

  lemma LeftBehindIsMissed(s: State, a: nat, w: nat)
    requires LockSafe(s) && HandoffSafe(s) && s.lock.None? && Is(s, a, ApiDone) && a in s.targets && s.targets[a] == w
    requires w in s.entries && a !in s.entries[w].taken && !(s.entries[w].slot == Some(a) && Is(s, w, Woken))
    ensures Missed(s, a, w)
  {
    assert w in s.pcs;
    assert Holds(s.pcs[w]) ==> s.lock == Some(w);
  }

  /** Every run of both relays, with the lock free: a request that was handed over and
      is not taken yet can still be taken exactly when it is in its worker's slot and
      the worker is woken. */
  lemma HandedOverIsTakenIffWoken(variant: Variant, actions: seq<Action>, s: State, a: nat)
    requires IsRun(Start(variant), actions, s) && s.lock.None? && Is(s, a, ApiDone) && a in s.targets
    requires a !in EntryOf(s, s.targets[a]).taken
    ensures !NeverTaken(s, a) <==> EntryOf(s, s.targets[a]).slot == Some(a) && Is(s, s.targets[a], Woken)
  {
    HandedRun(variant, actions, s);
    assert TargetSafe(s, a);
    var w := s.targets[a];
    if EntryOf(s, w).slot == Some(a) && Is(s, w, Woken) {
      var t := PopsNext(s, w, a);
      TakenByARun(s, [Acquire(w), Pop(w)], t, w, a);
    } else {
      LeftBehindIsMissed(s, a, w);
      MissedIsNeverTaken(s, a, w);
    }
  }
}
