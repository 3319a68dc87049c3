// When the bytes sent to a worker can get mixed up: exactly as long as requests can
// come to it. A worker out of their reach is served in turn for ever; into one within
// reach enough requests can put more bytes than its clients ever sent.

module RelayRisks {
  import opened Wrappers
  import opened Bytes
  import opened Relay
  import opened RelayBytes
  import opened RelayFaults
  import opened RelayWakeups
  import opened RelayRequests
  import opened RelayTurns

  lemma HandedAfter(s: State, actions: seq<Action>, t: State)
    requires Handed(s) && IsRun(s, actions, t)
    ensures Handed(t)
  {
    forall x, a | Handed(x) && Enabled(x, a) ensures Handed(Next(x, a)) {
      HandedStep(x, a);
    }
    RunKeeps((x: State) => Handed(x), s, actions, t);
  }

  // ----- a worker out of reach -----

  /** No request finds w, and none is on its way there. */
  ghost predicate Sealed(s: State, w: nat)
  {
    && Handed(s) && w in s.entries && !TakesRequests(s, w)
    && (forall c :: c in s.pcs ==> !AtEntry(s.pcs[c], w))
  }

  lemma NotFound(s: State, c: nat, w: nat)
    requires RegistrySafe(s) && Is(s, c, LookingUp) && ApiPortSafe(s, c) && !TakesRequests(s, w)
    ensures var p := SocketOf(s, c).port; p in s.workers ==> s.workers[p] != w
  {
    var p := SocketOf(s, c).port;
    if p in s.workers && s.workers[p] == w {
      TableIsEntered(s, p);
      assert false;
    }
  }

  lemma SealedFindsNone(s: State, a: Action, w: nat)
    requires Sealed(s, w) && Enabled(s, a) && a.LookUp?
    ensures var p := SocketOf(s, a.c).port; p in s.workers ==> s.workers[p] != w
  {
    assert ApiPortSafe(s, a.c);
    NotFound(s, a.c, w);
  }

  lemma ArrivingStaysOff(s: State, a: Action, w: nat)
    requires Enabled(s, a) && Arrives(a) && SocketsSafe(s) && w in s.pcs && !TakesRequests(s, w)
    ensures !TakesRequests(Arrive(s, a), w)
  {
  }

  lemma ServingStaysOff(s: State, a: Action, w: nat)
    requires Enabled(s, a) && Serves(a) && a != Install(w) && !TakesRequests(s, w)
    ensures !TakesRequests(Serve(s, a), w)
  {
  }

  lemma AskingStaysOff(s: State, a: Action, w: nat)
    requires Enabled(s, a) && Asks(a) && w in s.sockets && !TakesRequests(s, w)
    ensures !TakesRequests(Ask(s, a), w)
  {
    AskKeepsPorts(s, a, w);
    VariantStaysOneStep(s, a);
    assert Ask(s, a).workers == s.workers;
  }

  lemma CopyingStaysOff(s: State, a: Action, w: nat)
    requires Enabled(s, a) && Copies(a) && w in s.sockets && !TakesRequests(s, w)
    ensures !TakesRequests(Copy(s, a), w)
  {
  }

  lemma InstalledIsAnother(s: State, a: Action, w: nat)
    requires HandoffSafe(s) && Enabled(s, a) && Serves(a) && w in s.entries
    ensures a != Install(w)
  {
    WorkerItself(s, w);
  }

  lemma StaysOff(s: State, a: Action, w: nat)
    requires Handed(s) && Enabled(s, a) && w in s.entries && !TakesRequests(s, w)
    ensures !TakesRequests(Next(s, a), w)
  {
    WorkerItself(s, w);
    if Arrives(a) {
      ArrivingStaysOff(s, a, w);
    } else if Serves(a) {
      InstalledIsAnother(s, a, w);
      ServingStaysOff(s, a, w);
    } else if Asks(a) {
      AskingStaysOff(s, a, w);
    } else {
      CopyingStaysOff(s, a, w);
    }
  }

  lemma ServingKeepsApis(s: State, a: Action, w: nat)
    requires Enabled(s, a) && Serves(a) && w in s.entries && a != Install(w)
    ensures w in Serve(s, a).entries && Serve(s, a).entries[w].apis == s.entries[w].apis
  {
  }

  lemma AskingKeepsApis(s: State, a: Action, w: nat)
    requires Enabled(s, a) && Asks(a) && w in s.entries
    requires a.LookUp? ==> var p := SocketOf(s, a.c).port; p in s.workers ==> s.workers[p] != w
    ensures w in Ask(s, a).entries && Ask(s, a).entries[w].apis == s.entries[w].apis
  {
  }

  lemma UnaskedKeepsApis(s: State, a: Action, w: nat)
    requires HandoffSafe(s) && Enabled(s, a) && w in s.entries
    requires a.LookUp? ==> var p := SocketOf(s, a.c).port; p in s.workers ==> s.workers[p] != w
    ensures w in Next(s, a).entries && Next(s, a).entries[w].apis == s.entries[w].apis
  {
    if Serves(a) {
      InstalledIsAnother(s, a, w);
      ServingKeepsApis(s, a, w);
    } else if Asks(a) {
      AskingKeepsApis(s, a, w);
    } else {
      OthersAddNoEntries(s, a);
    }
  }

  lemma SealedStep(s: State, a: Action, w: nat)
    requires Sealed(s, w) && Enabled(s, a)
    ensures Sealed(Next(s, a), w) && InGoodTime(s, a, w)
    ensures Next(s, a).entries[w].apis == s.entries[w].apis
  {
    HandedStep(s, a);
    StaysOff(s, a, w);
    if a.LookUp? {
      SealedFindsNone(s, a, w);
    }
    UnaskedKeepsApis(s, a, w);
    forall c | c in Next(s, a).pcs ensures !AtEntry(Next(s, a).pcs[c], w) {
      StuckThread(s, a, w, c);
    }
  }

  lemma {:induction false} SealedRun(s: State, actions: seq<Action>, t: State, w: nat)
    requires Sealed(s, w) && IsRun(s, actions, t)
    ensures w in t.entries && t.entries[w].apis == s.entries[w].apis && OrderlyRun(s, actions, w)
    decreases |actions|
  {
    if actions != [] {
      SealedStep(s, actions[0], w);
      SealedRun(Next(s, actions[0]), actions[1..], t, w);
    }
  }

  lemma FreeIsSealed(s: State, w: nat)
    requires Handed(s) && s.lock.None? && w in s.entries && !TakesRequests(s, w)
    ensures Sealed(s, w)
  {
    forall c | c in s.pcs ensures !AtEntry(s.pcs[c], w) {
      assert Holds(s.pcs[c]) ==> s.lock == Some(c);
    }
  }

  // ----- a worker that is through -----

  predicate Ended(s: State, w: nat)
  {
    w in s.pcs && (s.pcs[w].Leaving? || s.pcs[w].Cleaning? || s.pcs[w].WorkerDone?)
  }

  lemma EndedStep(s: State, a: Action, w: nat)
    requires Ended(s, w) && Enabled(s, a)
    ensures Ended(Next(s, a), w)
  {
    if a.c != w {
      OthersStayPut(s, a, w);
    }
  }

  lemma {:induction false} EndedRun(s: State, actions: seq<Action>, t: State, w: nat)
    requires Ended(s, w) && IsRun(s, actions, t)
    ensures Ended(t, w)
    decreases |actions|
  {
    if actions != [] {
      EndedStep(s, actions[0], w);
      EndedRun(Next(s, actions[0]), actions[1..], t, w);
    }
  }

  // ----- a worker within reach -----

  lemma ReachableStands(s: State, w: nat)
    requires Handed(s) && s.lock.None? && TakesRequests(s, w)
    ensures Stands(s, w) && Entered(s.pcs[w]) && !Holds(s.pcs[w])
  {
    TableIsEntered(s, SocketOf(s, w).port);
    assert OpenSafe(s, w) && RoleSafe(s, w);
    assert Holds(s.pcs[w]) ==> s.lock == Some(w);
  }

  /** n requests after s, none of them taken: n bytes more to w, and the bytes of no
      other connection have changed. */
  ghost predicate Flooded(s: State, w: nat, n: nat, t: State)
    requires Stands(s, w)
  {
    && Stands(t, w) && t.entries[w].taken == s.entries[w].taken
    && (s.pcs[w].Waiting? || t.pcs[w] == s.pcs[w])
    && (forall c :: c in s.sockets && c != w ==> c in t.sockets && t.sockets[c] == s.sockets[c])
    && |t.sockets[w].tx| == |s.sockets[w].tx| + n
    && (n > 0 ==> t.entries[w].slot.Some? && |SocketOf(t, t.entries[w].slot.value).rx| == 1)
  }

  lemma FloodedOnce(s: State, w: nat, n: nat, r: State, a: nat, b: byte, t: State)
    requires Stands(s, w) && Flooded(s, w, n, r) && a != w && a !in r.sockets && Requested(r, w, a, b, t)
    ensures Flooded(s, w, n + 1, t)
  {
  }

  lemma {:induction false} Flood(s: State, w: nat, n: nat) returns (actions: seq<Action>, t: State)
    requires Handed(s) && Stands(s, w)
    ensures IsRun(s, actions, t) && Flooded(s, w, n, t)
  {
    if n == 0 {
      actions, t := [], s;
    } else {
      var first, r := Flood(s, w, n - 1);
      HandedAfter(s, first, r);
      var a := Above(r.pcs.Keys);
      assert a !in r.pcs && a !in r.sockets && a != w;
      var second;
      second, t := Requests(r, w, a, 71);
      FloodedOnce(s, w, n - 1, r, a, 71, t);
      Then(s, first, r, second, t);
      actions := first + second;
    }
  }

  lemma ArmsItself(s: State, w: nat) returns (t: State)
    requires Stands(s, w) && Is(s, w, Arming)
    ensures IsRun(s, [Acquire(w), Wait(w)], t) && Stands(t, w) && Is(t, w, Waiting)
    ensures t.entries == s.entries
  {
    Two(s, Acquire(w), Wait(w));
    t := Next(Next(s, Acquire(w)), Wait(w));
  }

  lemma BridgesNext(s: State, w: nat) returns (actions: seq<Action>, t: State)
    requires Handed(s) && Stands(s, w) && (Is(s, w, Waiting) || Is(s, w, Woken))
    ensures IsRun(s, actions, t) && Stands(t, w) && t.pcs[w].Bridging? && t.pcs[w] == Bridging(t.pcs[w].api, Idle, Idle)
    ensures t.entries[w].taken == s.entries[w].taken + [t.pcs[w].api]
  {
    var a := Above(s.pcs.Keys);
    assert a !in s.pcs && a !in s.sockets && a != w;
    var first, r := Requests(s, w, a, 71);
    t := PopsNext(r, w, a);
    Then(s, first, r, [Acquire(w), Pop(w)], t);
    actions := first + [Acquire(w), Pop(w)];
  }

  /** A worker that has not left gets to a bridge. */
  lemma GetsToABridge(s: State, w: nat) returns (actions: seq<Action>, t: State)
    requires Handed(s) && Stands(s, w) && (s.pcs[w].Arming? || s.pcs[w].Waiting? || s.pcs[w].Woken?)
    ensures IsRun(s, actions, t) && Stands(t, w) && t.pcs[w].Bridging? && t.pcs[w] == Bridging(t.pcs[w].api, Idle, Idle)
    ensures t.entries[w].taken == s.entries[w].taken + [t.pcs[w].api]
  {
    if s.pcs[w].Arming? {
      var r := ArmsItself(s, w);
      HandedAfter(s, [Acquire(w), Wait(w)], r);
      var second;
      second, t := BridgesNext(r, w);
      Then(s, [Acquire(w), Wait(w)], r, second, t);
      actions := [Acquire(w), Wait(w)] + second;
    } else {
      actions, t := BridgesNext(s, w);
    }
  }

  // ----- one bridge after another -----

  lemma EndsItsBridge(s: State, w: nat, a: nat) returns (actions: seq<Action>, t: State)
    requires Stands(s, w) && s.variant.Looping? && Is(s, w, Bridging(a, Idle, Idle)) && a != w
    ensures IsRun(s, actions, t) && Stands(t, w) && Is(t, w, Arming) && t.entries == s.entries
  {
    var r := Next(Next(s, Stop(w, true)), Stop(w, false));
    Two(s, Stop(w, true), Stop(w, false));
    One(r, Finish(w));
    t := Next(r, Finish(w));
    Then(s, [Stop(w, true), Stop(w, false)], r, [Finish(w)], t);
    actions := [Stop(w, true), Stop(w, false)] + [Finish(w)];
  }

  lemma BridgesOnceMore(s: State, w: nat) returns (actions: seq<Action>, t: State)
    requires Handed(s) && Stands(s, w) && s.variant.Looping? && Is(s, w, Arming)
    ensures IsRun(s, actions, t) && Stands(t, w) && Is(t, w, Arming)
    ensures |t.entries[w].taken| == |s.entries[w].taken| + 1
  {
    var first, r := GetsToABridge(s, w);
    HandedAfter(s, first, r);
    VariantStays(s, first, r);
    var a := r.pcs[w].api;
    assert BridgeSafe(r, w);
    BridgeIsApart(r, w);
    var second;
    second, t := EndsItsBridge(r, w, a);
    Then(s, first, r, second, t);
    actions := first + second;
  }

  lemma {:induction false} BridgesMany(w: nat, n: nat) returns (actions: seq<Action>, t: State)
    ensures IsRun(Start(Looping), actions, t) && Stands(t, w) && Is(t, w, Arming)
    ensures |t.entries[w].taken| == n
  {
    if n == 0 {
      actions, t := Registers(Looping, w);
    } else {
      var first, s := BridgesMany(w, n - 1);
      HandedRun(Looping, first, s);
      VariantStays(Start(Looping), first, s);
      var second;
      second, t := BridgesOnceMore(s, w);
      Then(Start(Looping), first, s, second, t);
      actions := first + second;
    }
  }

  /** In some run a worker takes n requests on one registration. */
  ghost predicate CanTake(variant: Variant, n: nat)
  {
    exists actions, t, w :: IsRun(Start(variant), actions, t) && w in t.entries && |t.entries[w].taken| == n
  }

  /** A registration can serve more than one request exactly in the looping relay, and
      there any number. */
  lemma OnlyTheLoopingRelayServesAgain(variant: Variant, n: nat)
    requires n > 1
    ensures CanTake(variant, n) <==> variant.Looping?
  {
    if variant.Looping? {
      var actions, t := BridgesMany(0, n);
      assert IsRun(Start(variant), actions, t) && 0 in t.entries;
    } else if CanTake(variant, n) {
      var actions, t, w :| IsRun(Start(variant), actions, t) && w in t.entries && |t.entries[w].taken| == n;
      EachWorkerIsBridgedOnce(actions, t, w);
      assert false;
    }
  }

  // ----- the first bridge of a worker -----

  /** While w bridges its first request, it has been sent bytes that are no prefix of
      those the client sent. */
  ghost predicate Garbled(t: State, w: nat)
  {
    && w in t.pcs && t.pcs[w].Bridging? && EntryOf(t, w).taken == [t.pcs[w].api]
    && !(SocketOf(t, w).tx <= SocketOf(t, t.pcs[w].api).rx)
  }

  ghost predicate CanBeGarbled(s: State, w: nat)
  {
    exists after, t :: IsRun(s, after, t) && Garbled(t, w)
  }

  lemma OpenBridgeCanBeGarbled(s: State, w: nat)
    requires Handed(s) && Stands(s, w) && s.pcs[w].Bridging? && s.entries[w].taken == [s.pcs[w].api]
    ensures CanBeGarbled(s, w)
  {
    var x := s.pcs[w].api;
    assert SlotSafe(s, w) && x in s.entries[w].taken;
    Apart(s, w, x);
    assert x in s.sockets;
    var actions, t := Flood(s, w, |s.sockets[x].rx| + 1);
    assert Garbled(t, w);
  }

  lemma ReachableCanBeGarbled(s: State, w: nat)
    requires Handed(s) && s.lock.None? && TakesRequests(s, w) && w in s.entries && w in s.pcs && !s.pcs[w].Leaving?
    requires if s.pcs[w].Bridging? then s.entries[w].taken == [s.pcs[w].api] else s.entries[w].taken == []
    ensures CanBeGarbled(s, w)
  {
    ReachableStands(s, w);
    if s.pcs[w].Bridging? {
      OpenBridgeCanBeGarbled(s, w);
    } else {
      var first, r := GetsToABridge(s, w);
      assert [] + [r.pcs[w].api] == [r.pcs[w].api];
      HandedAfter(s, first, r);
      OpenBridgeCanBeGarbled(r, w);
      GarbledLater(s, first, r, w);
    }
  }

  lemma GarbledLater(s: State, first: seq<Action>, r: State, w: nat)
    requires IsRun(s, first, r) && CanBeGarbled(r, w)
    ensures CanBeGarbled(s, w)
  {
    var second, t :| IsRun(r, second, t) && Garbled(t, w);
    Then(s, first, r, second, t);
  }

  lemma SealedIsNotGarbled(variant: Variant, before: seq<Action>, s: State, w: nat, after: seq<Action>, t: State)
    requires IsRun(Start(variant), before, s) && Sealed(s, w) && |s.entries[w].apis| <= 1 && IsRun(s, after, t)
    ensures !Garbled(t, w)
  {
    SealedRun(s, after, t, w);
    HandedAfter(s, after, t);
    Then(Start(variant), before, s, after, t);
    if w in t.pcs && t.pcs[w].Bridging? && t.entries[w].taken == [t.pcs[w].api] {
      TakenWasStored(t, w, t.pcs[w].api);
      RelayedBytesArePrefixes(variant, before + after, t, w, t.pcs[w].api);
    }
  }

  lemma TakenWasStored(t: State, w: nat, x: nat)
    requires HandoffSafe(t) && w in t.entries && |t.entries[w].apis| <= 1 && t.entries[w].taken == [x]
    ensures t.entries[w].apis == [x]
  {
    assert SlotSafe(t, w) && x in t.entries[w].taken;
    assert TargetSafe(t, x);
  }

  /** Every run of both relays, with the lock free, until the first bridge of w is over
      and while at most one request has been stored at w (waiting to be taken, or
      bridged): w can still be sent bytes its client did not send, in some continuation,
      exactly when requests can come to it and it has not left without one. */
  lemma FirstBridgeIsAtRiskIff(variant: Variant, before: seq<Action>, s: State, w: nat)
    requires IsRun(Start(variant), before, s) && s.lock.None? && w in s.entries && w in s.pcs
    requires |s.entries[w].apis| <= 1 && (s.entries[w].taken == [] || s.pcs[w].Bridging?)
    ensures CanBeGarbled(s, w) <==> TakesRequests(s, w) && !s.pcs[w].Leaving?
  {
    HandedRun(variant, before, s);
    FirstBridgeHasTaken(s, w);
    if !TakesRequests(s, w) {
      FreeIsSealed(s, w);
      forall after, t | IsRun(s, after, t) ensures !Garbled(t, w) {
        SealedIsNotGarbled(variant, before, s, w, after, t);
      }
    } else if s.pcs[w].Leaving? {
      forall after, t | IsRun(s, after, t) ensures !Garbled(t, w) {
        EndedRun(s, after, t, w);
      }
    } else {
      ReachableCanBeGarbled(s, w);
    }
  }

  lemma FirstBridgeHasTaken(s: State, w: nat)
    requires Handed(s) && w in s.entries && w in s.pcs
    requires |s.entries[w].apis| <= 1 && (s.entries[w].taken == [] || s.pcs[w].Bridging?)
    ensures if s.pcs[w].Bridging? then s.entries[w].taken == [s.pcs[w].api] else s.entries[w].taken == []
  {
    assert BridgeSafe(s, w);
    if s.pcs[w].Bridging? {
      var x := s.pcs[w].api;
      assert SlotSafe(s, w) && TargetSafe(s, x);
      assert BytesSafe(s, w);
    }
  }

  // ----- any number of bridges -----

  function TotalSent(s: State, cs: seq<nat>): nat
  {
    if cs == [] then 0 else TotalSent(s, cs[..|cs| - 1]) + |SocketOf(s, cs[|cs| - 1]).rx|
  }

  lemma {:induction false} FlatIsBounded(s: State, cs: seq<nat>, parts: seq<seq<byte>>)
    requires |parts| == |cs| && forall i :: 0 <= i < |cs| ==> parts[i] <= SocketOf(s, cs[i]).rx
    ensures |Flat(parts)| <= TotalSent(s, cs)
  {
    if cs != [] {
      FlatIsBounded(s, cs[..|cs| - 1], parts[..|parts| - 1]);
    }
  }

  lemma {:induction false} SameTotal(s: State, t: State, cs: seq<nat>)
    requires forall i :: 0 <= i < |cs| ==> SocketOf(t, cs[i]) == SocketOf(s, cs[i])
    ensures TotalSent(t, cs) == TotalSent(s, cs)
  {
    if cs != [] {
      SameTotal(s, t, cs[..|cs| - 1]);
    }
  }

  /** More bytes than all clients have sent cannot be served in turn. */
  lemma FloodedIsOutOfTurn(s: State, w: nat, t: State)
    requires Handed(s) && Stands(s, w) && Flooded(s, w, TotalSent(s, s.entries[w].taken) + 2, t)
    ensures !ServedInTurn(t, w)
  {
    var taken := s.entries[w].taken;
    forall i | 0 <= i < |taken| ensures SocketOf(t, taken[i]) == SocketOf(s, taken[i]) {
      TakenAreApart(s, w, i);
      assert taken[i] != w && taken[i] in s.sockets;
    }
    SameTotal(s, t, taken);
    forall ups | InTurn(t, w, ups) ensures false {
      FlatIsBounded(t, taken, ups);
    }
  }

  lemma CanBeFlooded(s: State, w: nat)
    requires Handed(s) && s.lock.None? && TakesRequests(s, w)
    ensures exists after, t :: IsRun(s, after, t) && !ServedInTurn(t, w)
  {
    ReachableStands(s, w);
    var after, t := Flood(s, w, TotalSent(s, s.entries[w].taken) + 2);
    FloodedIsOutOfTurn(s, w, t);
  }

  lemma {:induction false} OrderlyThen(s: State, actions: seq<Action>, t: State, more: seq<Action>, w: nat)
    requires IsRun(s, actions, t) && OrderlyRun(s, actions, w) && OrderlyRun(t, more, w)
    ensures OrderlyRun(s, actions + more, w)
    decreases |actions|
  {
    if actions == [] {
      assert actions + more == more;
    } else {
      var all := actions + more;
      assert all[0] == actions[0] && all[1..] == actions[1..] + more;
      OrderlyThen(Next(s, actions[0]), actions[1..], t, more, w);
    }
  }

  lemma SealedStaysInTurn(variant: Variant, before: seq<Action>, s: State, w: nat, after: seq<Action>, t: State)
    requires IsRun(Start(variant), before, s) && OrderlyRun(Start(variant), before, w)
    requires Sealed(s, w) && IsRun(s, after, t)
    ensures ServedInTurn(t, w)
  {
    SealedRun(s, after, t, w);
    Then(Start(variant), before, s, after, t);
    OrderlyThen(Start(variant), before, s, after, w);
    RequestsAreServedInTurn(variant, before + after, t, w);
  }

  /** Every run of both relays that has been orderly so far, with the lock free: w can
      still be sent bytes out of turn, in some continuation, exactly when requests can
      come to it. */
  lemma TurnsAreAtRiskIff(variant: Variant, before: seq<Action>, s: State, w: nat)
    requires IsRun(Start(variant), before, s) && OrderlyRun(Start(variant), before, w)
    requires s.lock.None? && w in s.entries
    ensures (exists after, t :: IsRun(s, after, t) && !ServedInTurn(t, w)) <==> TakesRequests(s, w)
  {
    HandedRun(variant, before, s);
    if TakesRequests(s, w) {
      CanBeFlooded(s, w);
    } else {
      FreeIsSealed(s, w);
      forall after, t | IsRun(s, after, t) ensures ServedInTurn(t, w) {
        SealedStaysInTurn(variant, before, s, w, after, t);
      }
    }
  }
}
