// Runs of the relay that show what it does not guarantee.

module RelayFaults {
  import opened Wrappers
  import opened Bytes
  import opened Relay

  predicate Letter(b: byte)
  {
    65 <= b < 91 && b != WORKER_MAGIC
  }

  /** A worker registers on the API port and is about to wait (or, in the looping
      relay, about to take the lock again for that). */
  lemma Registers(variant: Variant, w: nat) returns (actions: seq<Action>, t: State)
    ensures IsRun(Start(variant), actions, t)
    ensures t == State(variant, map[w := if variant.OneShot? then Armed else Arming],
                       map[w := Socket(API_PORT, true, [WORKER_MAGIC], [])], map[w := Entry(None, [], [])],
                       map[], map[API_PORT := w], if variant.OneShot? then Some(w) else None, map[API_PORT := w])
  {
    var s := Start(variant);
    var s1 := Next(s, Accept(w, API_PORT));
    var s2 := Next(s1, FirstByte(w, WORKER_MAGIC));
    assert s2.pcs == map[w := EnterWorker];
    var s3 := Next(s2, Acquire(w));
    t := Next(s3, Install(w));
    Two(s, Accept(w, API_PORT), FirstByte(w, WORKER_MAGIC));
    Two(s2, Acquire(w), Install(w));
    Then(s, [Accept(w, API_PORT), FirstByte(w, WORKER_MAGIC)], s2, [Acquire(w), Install(w)], t);
    actions := [Accept(w, API_PORT), FirstByte(w, WORKER_MAGIC)] + [Acquire(w), Install(w)];
    assert [] + [WORKER_MAGIC] == [WORKER_MAGIC];
    assert t.pcs == map[w := if variant.OneShot? then Armed else Arming];
    assert t.sockets == map[w := Socket(API_PORT, true, [WORKER_MAGIC], [])];
  }

  /** Worker w is in the table, on a port where requests are taken. */
  predicate TakesRequests(s: State, w: nat)
  {
    var p := SocketOf(s, w).port;
    p in s.workers && s.workers[p] == w && (s.variant.OneShot? ==> p == API_PORT)
  }

  /** It stands there with an open connection, and the lock is free. */
  predicate Stands(s: State, w: nat)
  {
    && s.lock.None? && TakesRequests(s, w)
    && w in s.pcs && w in s.sockets && w in s.entries && s.sockets[w].open
  }

  lemma Comes(s: State, p: nat, a: nat, b: byte) returns (t: State)
    requires a !in s.pcs && a !in s.sockets && Letter(b) && s.lock.None? && (s.variant.OneShot? ==> p == API_PORT)
    ensures IsRun(s, [Accept(a, p), FirstByte(a, b)] + [Acquire(a)], t)
    ensures t == s.(pcs := s.pcs[a := LookingUp], sockets := s.sockets[a := Socket(p, true, [b], [])],
            lock := Some(a))
  {
    var s1 := Next(s, Accept(a, p));
    var s2 := Next(s1, FirstByte(a, b));
    assert s2.pcs[a] == EnterApi;
    t := Next(s2, Acquire(a));
    Two(s, Accept(a, p), FirstByte(a, b));
    One(s2, Acquire(a));
    Then(s, [Accept(a, p), FirstByte(a, b)], s2, [Acquire(a)], t);
    assert [] + [b] == [b];
    assert t.pcs == s.pcs[a := LookingUp];
    assert t.sockets == s.sockets[a := Socket(p, true, [b], [])];
  }

  /** What a request leaves behind when nothing fails. */
  ghost predicate Requested(s: State, w: nat, a: nat, b: byte, t: State)
    requires Stands(s, w)
  {
    && Stands(t, w) && t.variant == s.variant && t.pcs.Keys == s.pcs.Keys + {a}
      && t.sockets.Keys == s.sockets.Keys + {a}
    && t.entries == s.entries[w := s.entries[w].(slot := Some(a), apis := s.entries[w].apis + [a])]
    && t.targets == s.targets[a := w]
    && t.sockets[w] == s.sockets[w].(tx := s.sockets[w].tx + [b])
    && (forall c :: c in s.sockets && c != w ==> c in t.sockets && t.sockets[c] == s.sockets[c])
    && a in t.sockets && t.sockets[a] == Socket(s.sockets[w].port, true, [b], [])
    && (forall c :: c in s.pcs && c != w ==> c in t.pcs && t.pcs[c] == s.pcs[c])
    && a in t.pcs && t.pcs[a] == ApiDone
    && t.pcs[w] == if s.pcs[w].Waiting? then Woken else s.pcs[w]
  }

  /** The critical section of `handle_api`. */
  lemma Answers(s: State, w: nat, a: nat) returns (actions: seq<Action>, t: State)
    requires a != w && Is(s, a, LookingUp) && a in s.sockets && Stands(s.(lock := None), w)
    requires s.sockets[a].port == s.sockets[w].port
    ensures IsRun(s, actions, t)
    ensures t == s.(pcs := t.pcs, lock := None, targets := s.targets[a := w],
                    entries := s.entries[w := s.entries[w].(slot := Some(a), apis := s.entries[w].apis + [a])],
                    sockets := s.sockets[w := s.sockets[w].(tx := s.sockets[w].tx + s.sockets[a].rx)])
    ensures t.pcs == s.pcs[a := ApiDone][w := if s.pcs[w].Waiting? then Woken else s.pcs[w]]
  {
    var s2 := Next(s, LookUp(a));
    var s3 := Next(s2, SendMagic(a, true));
    assert Is(s2, a, Stored(w)) && Is(s3, a, MagicSent(w));
    t := Next(s3, Notify(a));
    Two(s, LookUp(a), SendMagic(a, true));
    One(s3, Notify(a));
    Then(s, [LookUp(a), SendMagic(a, true)], s3, [Notify(a)], t);
    actions := [LookUp(a), SendMagic(a, true)] + [Notify(a)];
  }

  lemma Requests(s: State, w: nat, a: nat, b: byte) returns (actions: seq<Action>, t: State)
    requires Stands(s, w) && a != w && a !in s.pcs && a !in s.sockets && Letter(b)
    ensures IsRun(s, actions, t) && Requested(s, w, a, b, t)
  {
    var p := s.sockets[w].port;
    var s1 := Comes(s, p, a, b);
    var second;
    second, t := Answers(s1, w, a);
    var first := [Accept(a, p), FirstByte(a, b)] + [Acquire(a)];
    Then(s, first, s1, second, t);
    actions := first + second;
  }

  /** In the looping relay a request that comes between registration and waiting is
      notified to nobody: its worker ends up waiting for a wakeup that has been. */
  lemma LoopingRelayLosesAWakeup(w: nat, a: nat, b: byte) returns (actions: seq<Action>, t: State)
    requires w != a && Letter(b)
    ensures IsRun(Start(Looping), actions, t)
    ensures t.lock.None? && Is(t, w, Waiting) && EntryOf(t, w).slot == Some(a)
  {
    var first, s := Registers(Looping, w);
    var second, r := Requests(s, w, a, b);
    Two(r, Acquire(w), Wait(w));
    t := Next(Next(r, Acquire(w)), Wait(w));
    Then(Start(Looping), first, s, second, r);
    Then(Start(Looping), first + second, r, [Acquire(w), Wait(w)], t);
    actions := first + second + [Acquire(w), Wait(w)];
  }

  /** Some run of the relay leaves a worker waiting un-notified, the lock free and a
      request pending. */
  ghost predicate CanLoseAWakeup(variant: Variant)
  {
    exists actions, t, w ::
      IsRun(Start(variant), actions, t) && t.lock.None? && Is(t, w, Waiting) && EntryOf(t, w).slot.Some?
  }

  /** The relay loses no wakeup exactly when it waits in the critical section that
      registered the worker. */
  lemma OnlyTheLoopingRelayLosesWakeups(variant: Variant)
    ensures CanLoseAWakeup(variant) <==> variant.Looping?
  {
    if variant.Looping? {
      var actions, t := LoopingRelayLosesAWakeup(0, 1, 71);
      assert IsRun(Start(variant), actions, t) && Is(t, 0, Waiting) && EntryOf(t, 0).slot.Some?;
    } else if CanLoseAWakeup(variant) {
      var actions, t, w :|
        IsRun(Start(variant), actions, t) && t.lock.None? && Is(t, w, Waiting) && EntryOf(t, w).slot.Some?;
      NoLostWakeup(actions, t, w);
      assert false;
    }
  }

  /** One worker waiting in the one-shot relay. */
  function WaitingFor(w: nat): State
  {
    State(OneShot, map[w := Waiting], map[w := Socket(API_PORT, true, [WORKER_MAGIC], [])],
          map[w := Entry(None, [], [])], map[], map[API_PORT := w], None, map[API_PORT := w])
  }

  lemma Waits(w: nat) returns (actions: seq<Action>)
    ensures IsRun(Start(OneShot), actions, WaitingFor(w))
  {
    var first, s := Registers(OneShot, w);
    One(s, Wait(w));
    var t := Next(s, Wait(w));
    Then(Start(OneShot), first, s, [Wait(w)], t);
    actions := first + [Wait(w)];
    assert t.pcs == map[w := Waiting];
  }

  /** And a request handed to it. */
  lemma HandsOver(w: nat, a: nat, b: byte) returns (actions: seq<Action>, t: State)
    requires w != a && Letter(b)
    ensures IsRun(Start(OneShot), actions, t)
    ensures Stands(WaitingFor(w), w) && Requested(WaitingFor(w), w, a, b, t)
  {
    var first := Waits(w);
    var second;
    second, t := Requests(WaitingFor(w), w, a, b);
    Then(Start(OneShot), first, WaitingFor(w), second, t);
    actions := first + second;
  }

  lemma PopsNext(s: State, w: nat, a: nat) returns (t: State)
    requires s.lock.None? && Is(s, w, Woken) && w in s.entries && s.entries[w].slot == Some(a)
    ensures IsRun(s, [Acquire(w), Pop(w)], t)
    ensures t == s.(entries := s.entries[w := s.entries[w].(slot := None, taken := s.entries[w].taken + [a])],
                    pcs := s.pcs[w := Bridging(a, Idle, Idle)])
  {
    Two(s, Acquire(w), Pop(w));
    t := Next(Next(s, Acquire(w)), Pop(w));
    assert s.pcs[w := Popping][w := Bridging(a, Idle, Idle)] == s.pcs[w := Bridging(a, Idle, Idle)];
  }

  /** The woken worker takes the request. */
  lemma Takes(w: nat, a: nat, b: byte, s: State) returns (t: State)
    requires w != a && Stands(WaitingFor(w), w) && Requested(WaitingFor(w), w, a, b, s)
    ensures IsRun(s, [Acquire(w), Pop(w)], t)
    ensures Stands(t, w) && t.pcs.Keys == {w, a} && t.sockets.Keys == {w, a} && Is(t, w, Bridging(a, Idle, Idle))
    ensures t.entries[w].apis == [a] && t.sockets[w].tx == [b] && t.sockets[a].rx == [b]
    ensures t.sockets[w].rx == [WORKER_MAGIC] && t.sockets[a].tx == [] && t.sockets[a].open
  {
    assert [] + [a] == [a] && [] + [b] == [b];
    t := PopsNext(s, w, a);
  }

  /** A worker bridging its first request. */
  lemma Bridges(w: nat, a: nat, b: byte) returns (actions: seq<Action>, t: State)
    requires w != a && Letter(b)
    ensures IsRun(Start(OneShot), actions, t)
    ensures Stands(t, w) && t.pcs.Keys == {w, a} && t.sockets.Keys == {w, a} && Is(t, w, Bridging(a, Idle, Idle))
    ensures t.entries[w].apis == [a] && t.sockets[w].tx == [b] && t.sockets[a].rx == [b]
    ensures t.sockets[w].rx == [WORKER_MAGIC] && t.sockets[a].tx == [] && t.sockets[a].open
  {
    var first, s := HandsOver(w, a, b);
    t := Takes(w, a, b, s);
    Then(Start(OneShot), first, s, [Acquire(w), Pop(w)], t);
    actions := first + [Acquire(w), Pop(w)];
  }

  /** One chunk over a bridge, received and sent on at once. */
  lemma CopiesChunk(s: State, w: nat, a: nat, up: bool, chunk: seq<byte>) returns (t: State)
    requires w != a && Is(s, w, Bridging(a, Idle, Idle)) && w in s.sockets && a in s.sockets && chunk != []
    requires s.sockets[w].open && s.sockets[a].open
    ensures IsRun(s, [Receive(w, up, chunk), Send(w, up, |chunk|)], t)
    ensures var src, dst := if up then a else w, if up then w else a;
            t == s.(sockets := s.sockets[src := s.sockets[src].(rx := s.sockets[src].rx + chunk)]
                                        [dst := s.sockets[dst].(tx := s.sockets[dst].tx + chunk)])
  {
    Two(s, Receive(w, up, chunk), Send(w, up, |chunk|));
    t := Next(Next(s, Receive(w, up, chunk)), Send(w, up, |chunk|));
    assert chunk[..|chunk|] == chunk && chunk[|chunk|..] == [];
    assert t.pcs == s.pcs;
  }

  lemma Injects(s: State, w: nat, a: nat, b: byte, a2: nat, b2: byte, t: State)
    requires w != a && Stands(s, w) && Is(s, w, Bridging(a, Idle, Idle)) && a in s.sockets
    requires s.entries[w].apis == [a] && s.sockets[w].tx == [b] && s.sockets[a].rx == [b]
    requires Requested(s, w, a2, b2, t)
    ensures Is(t, w, Bridging(a, Idle, Idle)) && EntryOf(t, w).apis == [a, a2]
    ensures SocketOf(t, a).rx == [b] && SocketOf(t, w).tx == [b, b2]
  {
  }

  /** A second request on a worker that is already bridging puts its first byte into
      the stream of the first: the worker receives a byte its client never sent. */
  lemma SecondRequestInjectsAByte(w: nat, a: nat, b: byte, a2: nat, b2: byte) returns (actions: seq<Action>, t: State)
    requires w != a && w != a2 && a != a2 && Letter(b) && Letter(b2)
    ensures IsRun(Start(OneShot), actions, t)
    ensures Is(t, w, Bridging(a, Idle, Idle)) && EntryOf(t, w).apis == [a, a2]
    ensures SocketOf(t, a).rx == [b] && SocketOf(t, w).tx == [b, b2]
    ensures !(SocketOf(t, w).tx <= SocketOf(t, a).rx)
  {
    var first, s := Bridges(w, a, b);
    var second;
    second, t := Requests(s, w, a2, b2);
    Injects(s, w, a, b, a2, b2, t);
    Then(Start(OneShot), first, s, second, t);
    actions := first + second;
  }

  /** A second request that comes before the woken worker has taken the first one
      overwrites it, and its byte comes after that of the first. */
  lemma SecondRequestOverwritesTheFirst(w: nat, a: nat, b: byte, a2: nat, b2: byte)
    returns (actions: seq<Action>, t: State)
    requires w != a && w != a2 && a != a2 && Letter(b) && Letter(b2)
    ensures IsRun(Start(OneShot), actions, t)
    ensures t.lock.None? && Is(t, a, ApiDone) && a in t.targets && t.targets[a] == w && SocketOf(t, a).open
    ensures w in t.entries && t.entries[w].slot == Some(a2) && t.entries[w].taken == []
    ensures SocketOf(t, w).tx == [b, b2] && SocketOf(t, a2).rx == [b2]
  {
    var first, s := HandsOver(w, a, b);
    var second;
    second, t := Requests(s, w, a2, b2);
    assert [] + [b] + [b2] == [b, b2];
    Then(Start(OneShot), first, s, second, t);
    actions := first + second;
  }
}
