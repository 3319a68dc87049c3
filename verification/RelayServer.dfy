// The relay's critical sections and its copying loop as the threads run them.

module RelayServer {
  import opened Wrappers
  import opened Bytes
  import opened Relay

  /** The API thread's critical section, by what it finds. */
  function ApiSection(c: nat, found: bool, delivered: bool): seq<Action>
  {
    if !found then [LookUp(c)]
    else if delivered then [LookUp(c), SendMagic(c, true)] + [Notify(c)]
    else [LookUp(c), SendMagic(c, false)] + [Abort(c)]
  }

  /** Only these actions are copying by one side of the bridge of c. */
  predicate CopiesSide(c: nat, up: bool, actions: seq<Action>)
  {
    forall a :: a in actions ==>
      (a.Receive? || a.Send? || a.Stop?) && a.c == c && a.up == up
  }

  /** What one call of `recv` gives, and how much of it `sendall` gets out when it
      fails. */
  datatype Chunk = Chunk(data: seq<byte>, sent: Option<nat>)

  /** All of the chunk goes out. */
  predicate Whole(c: Chunk)
  {
    c.sent.None? || c.sent.value >= |c.data|
  }

  /** What `forward` receives: up to the end of the stream or the first chunk that does not
      go out as a whole. */
  function Received(chunks: seq<Chunk>): seq<byte>
  {
    if chunks == [] || chunks[0].data == [] then []
    else chunks[0].data + if Whole(chunks[0]) then Received(chunks[1..]) else []
  }

  /** And what it sends on. */
  function SentOn(chunks: seq<Chunk>): seq<byte>
  {
    if chunks == [] || chunks[0].data == [] then []
    else if Whole(chunks[0]) then chunks[0].data + SentOn(chunks[1..])
    else chunks[0].data[..chunks[0].sent.value]
  }

  lemma {:induction false} SentOnIsAPrefix(chunks: seq<Chunk>)
    ensures SentOn(chunks) <= Received(chunks)
  {
    if chunks != [] && chunks[0].data != [] && Whole(chunks[0]) {
      SentOnIsAPrefix(chunks[1..]);
    }
  }

  function Chunks(parts: seq<seq<byte>>): seq<Chunk>
  {
    seq(|parts|, i requires 0 <= i < |parts| => Chunk(parts[i], None))
  }

  function Concat(parts: seq<seq<byte>>): seq<byte>
  {
    if parts == [] then [] else parts[0] + Concat(parts[1..])
  }

  /** While nothing fails, everything is received and sent on, in whatever chunks. */
  lemma {:induction false} EverythingIsSentOn(parts: seq<seq<byte>>)
    requires forall i :: 0 <= i < |parts| ==> parts[i] != []
    ensures SentOn(Chunks(parts)) == Received(Chunks(parts)) == Concat(parts)
  {
    if parts != [] {
      EverythingIsSentOn(parts[1..]);
      assert Chunks(parts)[1..] == Chunks(parts[1..]);
    }
  }

  /** The bytes of both sockets before chunk i, from what they were at first. */
  ghost predicate Forwarded(chunks: seq<Chunk>, i: nat, failed: bool, rx0: seq<byte>, rx: seq<byte>,
                            tx0: seq<byte>, tx: seq<byte>)
    requires i <= |chunks|
  {
    && rx + (if failed then [] else Received(chunks[i..])) == rx0 + Received(chunks)
    && tx + (if failed then [] else SentOn(chunks[i..])) == tx0 + SentOn(chunks)
  }

  lemma ForwardedMore(chunks: seq<Chunk>, i: nat, rx0: seq<byte>, rx: seq<byte>, tx0: seq<byte>, tx: seq<byte>)
    requires i < |chunks| && chunks[i].data != [] && Forwarded(chunks, i, false, rx0, rx, tx0, tx)
    ensures var data := chunks[i].data;
            var n := if Whole(chunks[i]) then |data| else chunks[i].sent.value;
            Forwarded(chunks, i + 1, !Whole(chunks[i]), rx0, rx + data, tx0, tx + data[..n])
  {
    assert chunks[i..][0] == chunks[i] && chunks[i..][1..] == chunks[i + 1..];
    var more := if Whole(chunks[i]) then Received(chunks[i + 1..]) else [];
    Assoc(rx, chunks[i].data, more);
    if Whole(chunks[i]) {
      assert chunks[i].data[..|chunks[i].data|] == chunks[i].data;
      Assoc(tx, chunks[i].data, SentOn(chunks[i + 1..]));
    }
  }

  lemma RegisterRun(s: State, c: nat)
    requires Is(s, c, Registering)
    ensures var t := DoInstall(s, c);
            if s.variant.OneShot? then IsRun(s, [Install(c), Wait(c)], DoWait(t, c)) else IsRun(s, [Install(c)], t)
  {
    if s.variant.OneShot? {
      Two(s, Install(c), Wait(c));
    } else {
      One(s, Install(c));
    }
  }

  function AfterApi(s: State, c: nat, delivered: bool): State
    requires Is(s, c, LookingUp)
  {
    var stored := DoLookUp(s, c);
    if SocketOf(s, c).port !in s.workers then stored
    else
      var w := s.workers[SocketOf(s, c).port];
      var sent := DoSendMagic(stored, c, w, delivered);
      if delivered then DoNotify(sent, c, w) else DoAbort(sent, c, w)
  }

  lemma ApiRun(s: State, c: nat, delivered: bool)
    requires Is(s, c, LookingUp)
    requires var p := SocketOf(s, c).port; p in s.workers && delivered ==> SocketOf(s, s.workers[p]).open
    ensures IsRun(s, ApiSection(c, SocketOf(s, c).port in s.workers, delivered), AfterApi(s, c, delivered))
  {
    if SocketOf(s, c).port !in s.workers {
      One(s, LookUp(c));
    } else {
      var w := s.workers[SocketOf(s, c).port];
      var stored := DoLookUp(s, c);
      var sent := DoSendMagic(stored, c, w, delivered);
      var last := if delivered then Notify(c) else Abort(c);
      Two(s, LookUp(c), SendMagic(c, delivered));
      One(sent, last);
      Then(s, [LookUp(c), SendMagic(c, delivered)], sent, [last], AfterApi(s, c, delivered));
    }
  }

  class Server {
    const variant: Variant
    var sockets: map<nat, Socket>
    var entries: map<nat, Entry>
    var workers: map<nat, nat>
    ghost var pcs: map<nat, Pc>
    ghost var targets: map<nat, nat>
    ghost var lock: Option<nat>
    ghost var latest: map<nat, nat>

    ghost function View(): State
      reads this
    {
      State(variant, pcs, sockets, entries, targets, workers, lock, latest)
    }

    constructor (variant: Variant)
      ensures View() == Start(variant)
    {
      this.variant := variant;
      sockets, entries, workers := map[], map[], map[];
      pcs, targets, lock, latest := map[], map[], None, map[];
    }

    method Close(c: nat)
      modifies this`sockets
      ensures sockets == Closed(old(sockets), c)
    {
      if c in sockets {
        sockets := sockets[c := sockets[c].(open := false)];
      }
    }

    method Enter(c: nat)
      requires Is(View(), c, Registering) && c in sockets
      modifies this
      ensures View() == DoInstall(old(View()), c)
    {
      var port := sockets[c].port;
      if port in workers {
        Close(workers[port]);
      }
      workers := workers[port := c];
      latest := latest[port := c];
      entries := entries[c := Entry(None, [], [])];
      if variant.OneShot? {
        pcs := pcs[c := Armed];
      } else {
        pcs := pcs[c := Arming];
        lock := None;
      }
    }

    ghost method WaitForRequest(c: nat)
      requires Is(View(), c, Armed)
      modifies this`pcs, this`lock
      ensures View() == DoWait(old(View()), c)
    {
      pcs := pcs[c := Waiting];
      lock := None;
    }

    /** `handle_worker` from taking the lock to letting it go again. */
    method Register(c: nat)
      requires Is(View(), c, Registering) && c in sockets
      modifies this
      ensures IsRun(old(View()), if variant.OneShot? then [Install(c), Wait(c)] else [Install(c)], View())
    {
      RegisterRun(View(), c);
      Enter(c);
      if variant.OneShot? {
        WaitForRequest(c);
      }
    }

    /** The section after `cv.wait()` returned. */
    method Take(c: nat) returns (api: Option<nat>)
      requires Is(View(), c, Popping) && c in entries
      modifies this
      ensures IsRun(old(View()), [Pop(c)], View())
      ensures api == old(entries[c].slot)
    {
      ghost var s := View();
      One(s, Pop(c));
      api := entries[c].slot;
      if api.Some? {
        entries := entries[c := entries[c].(slot := None, taken := entries[c].taken + [api.value])];
        pcs := pcs[c := Bridging(api.value, Idle, Idle)];
      } else {
        pcs := pcs[c := Leaving];
      }
      lock := None;
    }

    method CleanUp(c: nat)
      requires Is(View(), c, Cleaning) && c in sockets
      modifies this
      ensures IsRun(old(View()), [Clean(c)], View())
    {
      ghost var s := View();
      One(s, Clean(c));
      var port := sockets[c].port;
      if port in workers && workers[port] == c {
        workers := workers - {port};
      }
      Close(c);
      pcs := pcs[c := WorkerDone];
      lock := None;
    }

    method StoreRequest(c: nat) returns (w: Option<nat>)
      requires Is(View(), c, LookingUp) && c in sockets
      requires sockets[c].port in workers ==> workers[sockets[c].port] in entries
      modifies this
      ensures View() == DoLookUp(old(View()), c)
      ensures w == old(if sockets[c].port in workers then Some(workers[sockets[c].port]) else None)
    {
      var port := sockets[c].port;
      if port in workers {
        var e := workers[port];
        entries := entries[e := entries[e].(slot := Some(c), apis := entries[e].apis + [c])];
        targets := targets[c := e];
        pcs := pcs[c := Stored(e)];
        w := Some(e);
      } else {
        Close(c);
        pcs := pcs[c := Rejected];
        lock := None;
        w := None;
      }
    }

    method SendMagicByte(c: nat, w: nat, delivered: bool)
      requires Is(View(), c, Stored(w)) && c in sockets && w in sockets
      modifies this`sockets, this`pcs
      ensures View() == DoSendMagic(old(View()), c, w, delivered)
    {
      if delivered {
        sockets := sockets[w := sockets[w].(tx := sockets[w].tx + sockets[c].rx)];
        pcs := pcs[c := MagicSent(w)];
      } else {
        pcs := pcs[c := SendFailed(w)];
      }
    }

    method GiveUp(c: nat, w: nat)
      requires Is(View(), c, SendFailed(w)) && w in entries
      modifies this
      ensures View() == DoAbort(old(View()), c, w)
    {
      entries := entries[w := entries[w].(slot := None)];
      Close(c);
      pcs := pcs[c := Rejected];
      lock := None;
    }

    ghost method Signal(c: nat, w: nat)
      requires Is(View(), c, MagicSent(w))
      modifies this`pcs, this`lock
      ensures View() == DoNotify(old(View()), c, w)
    {
      if w in pcs && pcs[w].Waiting? {
        pcs := pcs[w := Woken];
      }
      pcs := pcs[c := ApiDone];
      lock := None;
    }

    /** The critical section of `handle_api`; `delivered` says whether the worker's
        connection takes the byte. */
    method HandleApi(c: nat, delivered: bool)
      requires Is(View(), c, LookingUp) && c in sockets
      requires sockets[c].port in workers ==>
                 var w := workers[sockets[c].port]; w in entries && w in sockets && (delivered ==> sockets[w].open)
      modifies this
      ensures IsRun(old(View()), ApiSection(c, old(sockets[c].port in workers), delivered), View())
    {
      ApiRun(View(), c, delivered);
      var w := StoreRequest(c);
      if w.Some? {
        SendMagicByte(c, w.value, delivered);
        if delivered {
          Signal(c, w.value);
        } else {
          GiveUp(c, w.value);
        }
      }
    }

    /** The thread that copies one way over the bridge of c is where `f` says, and its
        two sockets are there. */
    ghost predicate CanCopy(c: nat, up: bool, src: nat, dst: nat, f: Forward)
      reads this
    {
      && c in pcs && pcs[c].Bridging? && Side(pcs[c], up) == f
      && src == Source(c, pcs[c], up) && dst == Target(c, pcs[c], up)
      && src in sockets && sockets[src].open && dst in sockets && sockets[dst].open
    }

    method Recv(ghost c: nat, ghost up: bool, src: nat, ghost dst: nat, data: seq<byte>)
      requires CanCopy(c, up, src, dst, Idle) && data != []
      modifies this`sockets, this`pcs
      ensures IsRun(old(View()), [Receive(c, up, data)], View())
      ensures CanCopy(c, up, src, dst, Holding(data))
      ensures sockets == old(sockets)[src := old(sockets[src]).(rx := old(sockets[src].rx) + data)]
    {
      One(View(), Receive(c, up, data));
      sockets := sockets[src := sockets[src].(rx := sockets[src].rx + data)];
      pcs := pcs[c := WithSide(pcs[c], up, Holding(data))];
    }

    method Sendall(ghost c: nat, ghost up: bool, ghost src: nat, dst: nat, data: seq<byte>, n: nat)
      requires CanCopy(c, up, src, dst, Holding(data)) && 0 < n <= |data|
      modifies this`sockets, this`pcs
      ensures IsRun(old(View()), [Send(c, up, n)], View())
      ensures CanCopy(c, up, src, dst, AfterForward(data[n..]))
      ensures sockets == old(sockets)[dst := old(sockets[dst]).(tx := old(sockets[dst].tx) + data[..n])]
    {
      One(View(), Send(c, up, n));
      sockets := sockets[dst := sockets[dst].(tx := sockets[dst].tx + data[..n])];
      pcs := pcs[c := WithSide(pcs[c], up, AfterForward(data[n..]))];
    }

    /** One round of the loop: `sent` is how much goes out before a failure. */
    method CopyChunk(ghost c: nat, ghost up: bool, src: nat, dst: nat, data: seq<byte>, n: nat)
      returns (ghost actions: seq<Action>)
      requires CanCopy(c, up, src, dst, Idle) && data != [] && n <= |data|
      modifies this`sockets, this`pcs
      ensures IsRun(old(View()), actions, View()) && CopiesSide(c, up, actions)
      ensures CanCopy(c, up, src, dst, AfterForward(data[n..]))
      ensures sockets[src].rx == old(sockets[src].rx) + data && sockets[dst].tx == old(sockets[dst].tx) + data[..n]
    {
      ghost var s := View();
      Recv(c, up, src, dst, data);
      actions := [Receive(c, up, data)];
      if n > 0 {
        ghost var received := View();
        Sendall(c, up, src, dst, data, n);
        Then(s, actions, received, [Send(c, up, n)], View());
        actions := actions + [Send(c, up, n)];
      }
    }

    ghost method StopCopying(c: nat, up: bool, src: nat, dst: nat, f: Forward)
      requires CanCopy(c, up, src, dst, f) && !f.Over?
      modifies this`pcs
      ensures IsRun(old(View()), [Stop(c, up)], View())
      ensures CanCopy(c, up, src, dst, Over) && sockets == old(sockets)
    {
      One(View(), Stop(c, up));
      pcs := pcs[c := WithSide(pcs[c], up, Over)];
    }

    /** Since s this side of the bridge has done these actions. */
    ghost predicate Copied(c: nat, up: bool, src: nat, dst: nat, f: Forward, s: State, actions: seq<Action>)
      reads this
    {
      IsRun(s, actions, View()) && CopiesSide(c, up, actions) && CanCopy(c, up, src, dst, f)
    }

    method CopyNext(ghost c: nat, ghost up: bool, src: nat, dst: nat, data: seq<byte>, n: nat, ghost s: State,
                    ghost done: seq<Action>)
      returns (ghost actions: seq<Action>)
      requires Copied(c, up, src, dst, Idle, s, done) && data != [] && n <= |data|
      modifies this`sockets, this`pcs
      ensures Copied(c, up, src, dst, AfterForward(data[n..]), s, actions)
      ensures sockets[src].rx == old(sockets[src].rx) + data && sockets[dst].tx == old(sockets[dst].tx) + data[..n]
    {
      ghost var before := View();
      ghost var more := CopyChunk(c, up, src, dst, data, n);
      Then(s, done, before, more, View());
      actions := done + more;
    }

    ghost method StopAtLast(c: nat, up: bool, src: nat, dst: nat, f: Forward, s: State, done: seq<Action>)
      returns (actions: seq<Action>)
      requires Copied(c, up, src, dst, f, s, done) && !f.Over?
      modifies this`pcs
      ensures Copied(c, up, src, dst, Over, s, actions)
    {
      var before := View();
      StopCopying(c, up, src, dst, f);
      Then(s, done, before, [Stop(c, up)], View());
      actions := done + [Stop(c, up)];
    }

    /** `forward`: copies until the source ends or a send fails, and that is a run of its
        own side of the bridge. */
    method Forward(ghost c: nat, ghost up: bool, src: nat, dst: nat, chunks: seq<Chunk>)
      returns (ghost actions: seq<Action>)
      requires CanCopy(c, up, src, dst, Idle)
      modifies this`sockets, this`pcs
      ensures IsRun(old(View()), actions, View()) && CopiesSide(c, up, actions)
      ensures CanCopy(c, up, src, dst, Over)
      ensures sockets[src].rx == old(sockets[src].rx) + Received(chunks)
      ensures sockets[dst].tx == old(sockets[dst].tx) + SentOn(chunks)
    {
      ghost var s := View();
      ghost var rx0, tx0 := sockets[src].rx, sockets[dst].tx;
      assert chunks[0..] == chunks;
      actions := [];
      ghost var f := Idle;
      var i := 0;
      var failed := false;
      while i < |chunks| && chunks[i].data != [] && !failed
        invariant 0 <= i <= |chunks|
        invariant Copied(c, up, src, dst, f, s, actions) && !f.Over? && (!failed ==> f.Idle?)
        invariant Forwarded(chunks, i, failed, rx0, sockets[src].rx, tx0, sockets[dst].tx)
      {
        var data := chunks[i].data;
        failed := chunks[i].sent.Some? && chunks[i].sent.value < |data|;
        var n := if failed then chunks[i].sent.value else |data|;
        ForwardedMore(chunks, i, rx0, sockets[src].rx, tx0, sockets[dst].tx);
        actions := CopyNext(c, up, src, dst, data, n, s, actions);
        f := AfterForward(data[n..]);
        i := i + 1;
      }
      actions := StopAtLast(c, up, src, dst, f, s, actions);
    }
  }
}
