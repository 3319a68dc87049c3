// The worker's end of the relay: announce, wait for the first byte of a request,
// connect to the local server, replay the byte and copy both ways.

module Tunnel {
  import opened Wrappers
  import opened Bytes
  import opened Workers

  const MAGIC: byte := 69

  /** A socket as the worker sees it: all bytes read from it and written to it. */
  class Connection {
    var rx: seq<byte>
    var tx: seq<byte>

    constructor ()
      ensures rx == [] && tx == []
    {
      rx, tx := [], [];
    }
  }

  /** What the network does next in one direction: a read (empty at the end of the
      stream), a write of up to n of the bytes held, or an error. */
  datatype Progress = Read(bytes: seq<byte>) | Write(n: nat) | Broken

  datatype Event = Event(fromServer: bool, progress: Progress)

  /** A direction holds what it has read and not yet written. */
  datatype Pipe = Pipe(held: seq<byte>, ended: bool, written: nat)

  datatype Copied = Copying | Finished(fromServer: nat, fromLocal: nat) | Failed

  predicate IsOver(p: Pipe)
  {
    p.ended && p.held == []
  }

  // ----- what a copy does, from what the network does -----

  predicate HasEnded(events: seq<Event>, fromServer: bool)
  {
    Event(fromServer, Read([])) in events
  }

  /** What a direction has read: all its reads up to its end of stream. */
  function BytesRead(events: seq<Event>, fromServer: bool): seq<byte>
  {
    if events == [] then []
    else
      var front, e := events[..|events| - 1], events[|events| - 1];
      BytesRead(front, fromServer)
      + if e.fromServer == fromServer && e.progress.Read? && !HasEnded(front, fromServer) then e.progress.bytes else []
  }

  /** How much of that it has written: each write passes on what it asks for, as far as
      there is anything. */
  function BytesWritten(events: seq<Event>, fromServer: bool): (n: nat)
    ensures n <= |BytesRead(events, fromServer)|
  {
    if events == [] then 0
    else
      var front, e := events[..|events| - 1], events[|events| - 1];
      var before, available := BytesWritten(front, fromServer), |BytesRead(front, fromServer)|;
      if e.fromServer != fromServer || !e.progress.Write? then before
      else if before + e.progress.n < available then before + e.progress.n else available
  }

  function PassedOn(events: seq<Event>, fromServer: bool): seq<byte>
  {
    BytesRead(events, fromServer)[..BytesWritten(events, fromServer)]
  }

  predicate Drained(events: seq<Event>, fromServer: bool)
  {
    HasEnded(events, fromServer) && BytesWritten(events, fromServer) == |BytesRead(events, fromServer)|
  }

  predicate Complete(events: seq<Event>)
  {
    Drained(events, true) && Drained(events, false)
  }

  /** An error, or a write that takes nothing although there is something to write. */
  predicate ErrorNext(events: seq<Event>, e: Event)
  {
    e.progress.Broken?
    || (e.progress == Write(0) && BytesWritten(events, e.fromServer) < |BytesRead(events, e.fromServer)|)
  }

  ghost predicate GoesOn(events: seq<Event>, n: nat)
    requires n <= |events|
  {
    forall i :: 0 <= i < n ==> !ErrorNext(events[..i], events[i]) && !Complete(events[..i])
  }

  /** The copy has gone through n events and stops with r: at the first error, when both
      directions have ended and written everything, or because there is no more. */
  ghost predicate StopsAfter(events: seq<Event>, n: nat, r: Copied)
  {
    && n <= |events|
    && GoesOn(events, n)
    && match r
       case Copying => n == |events| && !Complete(events)
       case Finished(a, b) =>
         Complete(events[..n]) && a == |BytesRead(events[..n], true)| && b == |BytesRead(events[..n], false)|
       case Failed => n < |events| && !Complete(events[..n]) && ErrorNext(events[..n], events[n])
  }

  /** The events alone decide. */
  lemma StopsOnce(events: seq<Event>, n: nat, r: Copied, m: nat, q: Copied)
    requires StopsAfter(events, n, r) && StopsAfter(events, m, q)
    ensures n == m && r == q
  {
    assert events[..|events|] == events;
    if n < m {
      GoesOnAt(events, m, n);
      assert false;
    } else if m < n {
      GoesOnAt(events, n, m);
      assert false;
    }
  }

  lemma GoesOnAt(events: seq<Event>, n: nat, i: nat)
    requires i < n <= |events| && GoesOn(events, n)
    ensures !ErrorNext(events[..i], events[i]) && !Complete(events[..i])
  {
  }

  lemma GoesOnMore(events: seq<Event>, n: nat)
    requires n < |events| && GoesOn(events, n) && !ErrorNext(events[..n], events[n]) && !Complete(events[..n])
    ensures GoesOn(events, n + 1)
  {
  }

  /** Where it stops. */
  function StopFrom(events: seq<Event>, i: nat): (n: nat)
    requires i <= |events|
    ensures i <= n <= |events|
    decreases |events| - i
  {
    if i == |events| || Complete(events[..i]) || ErrorNext(events[..i], events[i]) then i else StopFrom(events, i + 1)
  }

  function Done(events: seq<Event>): seq<Event>
  {
    events[..StopFrom(events, 0)]
  }

  function ResultOf(events: seq<Event>): Copied
  {
    var done := Done(events);
    if Complete(done) then Finished(|BytesRead(done, true)|, |BytesRead(done, false)|)
    else if |done| < |events| then Failed
    else Copying
  }

  lemma {:induction false} StopsThere(events: seq<Event>, i: nat)
    requires i <= |events| && GoesOn(events, i)
    ensures var n := StopFrom(events, i);
            && GoesOn(events, n)
            && (n == |events| || Complete(events[..n]) || ErrorNext(events[..n], events[n]))
    decreases |events| - i
  {
    if i < |events| && !Complete(events[..i]) && !ErrorNext(events[..i], events[i]) {
      GoesOnMore(events, i);
      StopsThere(events, i + 1);
    }
  }

  lemma TheEventsDecide(events: seq<Event>)
    ensures StopsAfter(events, |Done(events)|, ResultOf(events))
  {
    StopsThere(events, 0);
    assert events[..|events|] == events;
  }

  lemma {:induction false} StopsHere(events: seq<Event>, j: nat, i: nat)
    requires j <= i <= |events| && GoesOn(events, i)
    requires i == |events| || Complete(events[..i]) || ErrorNext(events[..i], events[i])
    ensures StopFrom(events, j) == i
    decreases i - j
  {
    if j < i {
      GoesOnAt(events, i, j);
      StopsHere(events, j + 1, i);
    }
  }

  lemma PassedOnIsAPrefix(events: seq<Event>)
    ensures forall side :: PassedOn(events, side) <= BytesRead(events, side)
    ensures Complete(events) ==> forall side :: PassedOn(events, side) == BytesRead(events, side)
  {
  }

  /** What a copy has written each way is a prefix of what it has read; a finished one has
      written everything and counted it. */
  lemma CopiesAreFaithful(events: seq<Event>)
    ensures forall side :: PassedOn(Done(events), side) <= BytesRead(Done(events), side)
    ensures ResultOf(events).Finished? ==>
              && (forall side :: PassedOn(Done(events), side) == BytesRead(Done(events), side))
              && ResultOf(events) == Finished(|PassedOn(Done(events), true)|, |PassedOn(Done(events), false)|)
  {
    PassedOnIsAPrefix(Done(events));
  }

  lemma OneMore(events: seq<Event>, i: nat)
    requires i < |events|
    ensures events[..i + 1] == events[..i] + [events[i]]
  {
  }

  lemma AfterOne(events: seq<Event>, e: Event, fromServer: bool)
    ensures var all := events + [e];
            && HasEnded(all, fromServer) == (HasEnded(events, fromServer) || e == Event(fromServer, Read([])))
            && BytesRead(all, fromServer)
               == BytesRead(events, fromServer)
                  + (if e.fromServer == fromServer && e.progress.Read? && !HasEnded(events, fromServer)
                     then e.progress.bytes else [])
            && (e.fromServer != fromServer || !e.progress.Write? ==>
                  BytesWritten(all, fromServer) == BytesWritten(events, fromServer))
            && (e.fromServer == fromServer && e.progress.Write? ==>
                  var more := BytesWritten(events, fromServer) + e.progress.n;
                  var available := |BytesRead(events, fromServer)|;
                  BytesWritten(all, fromServer) == if more < available then more else available)
  {
    assert (events + [e])[..|events|] == events;
  }

  /** Any bytes can be copied both ways. */
  function CopyAll(down: seq<byte>, up: seq<byte>): seq<Event>
  {
    [Event(true, Read(down)), Event(true, Write(|down|)), Event(false, Read(up)), Event(false, Write(|up|)),
     Event(true, Read([])), Event(false, Read([]))]
  }

  lemma CopyingAll(down: seq<byte>, up: seq<byte>, i: nat)
    requires down != [] && up != [] && i <= 6
    ensures var events := CopyAll(down, up)[..i];
            && BytesRead(events, true) == (if i == 0 then [] else down)
            && BytesWritten(events, true) == (if i < 2 then 0 else |down|)
            && BytesRead(events, false) == (if i < 3 then [] else up)
            && BytesWritten(events, false) == (if i < 4 then 0 else |up|)
            && HasEnded(events, true) == (i >= 5) && HasEnded(events, false) == (i == 6)
  {
    if i > 0 {
      CopyingAll(down, up, i - 1);
      OneMore(CopyAll(down, up), i - 1);
      AfterOne(CopyAll(down, up)[..i - 1], CopyAll(down, up)[i - 1], true);
      AfterOne(CopyAll(down, up)[..i - 1], CopyAll(down, up)[i - 1], false);
    }
  }

  /** There is a copy that passes on any given bytes both ways and counts them. */
  lemma EverythingCanBeCopied(down: seq<byte>, up: seq<byte>)
    requires down != [] && up != []
    ensures Done(CopyAll(down, up)) == CopyAll(down, up) && ResultOf(CopyAll(down, up)) == Finished(|down|, |up|)
    ensures PassedOn(CopyAll(down, up), true) == BytesRead(CopyAll(down, up), true) == down
    ensures PassedOn(CopyAll(down, up), false) == BytesRead(CopyAll(down, up), false) == up
  {
    var events := CopyAll(down, up);
    assert events[..6] == events;
    CopyingAll(down, up, 6);
    forall i | 0 <= i < 6 ensures !ErrorNext(events[..i], events[i]) && !Complete(events[..i]) {
      CopyingAll(down, up, i);
    }
    TheEventsDecide(events);
    StopsOnce(events, 6, Finished(|down|, |up|), |Done(events)|, ResultOf(events));
  }

  /** The state of a direction after some events, when it had read rx0 and written tx0
      before. */
  ghost predicate Conveys(p: Pipe, events: seq<Event>, fromServer: bool, rx0: seq<byte>, rx: seq<byte>,
                          tx0: seq<byte>, tx: seq<byte>)
  {
    && p.ended == HasEnded(events, fromServer) && p.written == BytesWritten(events, fromServer)
    && p.held == BytesRead(events, fromServer)[p.written..]
    && rx == rx0 + BytesRead(events, fromServer)
    && tx == tx0 + PassedOn(events, fromServer)
  }

  lemma ReadConveys(p: Pipe, events: seq<Event>, fromServer: bool, rx0: seq<byte>, rx: seq<byte>,
                    tx0: seq<byte>, tx: seq<byte>, bytes: seq<byte>)
    requires Conveys(p, events, fromServer, rx0, rx, tx0, tx)
    ensures var q := if p.ended then p else if bytes == [] then p.(ended := true) else p.(held := p.held + bytes);
            var more := if p.ended then [] else bytes;
            Conveys(q, events + [Event(fromServer, Read(bytes))], fromServer, rx0, rx + more, tx0, tx)
  {
    AfterOne(events, Event(fromServer, Read(bytes)), fromServer);
    var read, more := BytesRead(events, fromServer), if p.ended then [] else bytes;
    assert (read + more)[p.written..] == read[p.written..] + more && (read + more)[..p.written] == read[..p.written];
    assert rx0 + read + more == rx0 + (read + more);
  }

  lemma WriteConveys(p: Pipe, events: seq<Event>, fromServer: bool, rx0: seq<byte>, rx: seq<byte>,
                     tx0: seq<byte>, tx: seq<byte>, n: nat, k: nat)
    requires Conveys(p, events, fromServer, rx0, rx, tx0, tx) && k == if n < |p.held| then n else |p.held|
    ensures Conveys(p.(held := p.held[k..], written := p.written + k), events + [Event(fromServer, Write(n))],
                    fromServer, rx0, rx, tx0, tx + p.held[..k])
  {
    var all, read := events + [Event(fromServer, Write(n))], BytesRead(events, fromServer);
    AfterOne(events, Event(fromServer, Write(n)), fromServer);
    assert read + [] == read;
    assert BytesRead(all, fromServer) == read && BytesWritten(all, fromServer) == p.written + k;
    Moved(tx0, read, p.written, k);
  }

  lemma Moved(tx0: seq<byte>, read: seq<byte>, n: nat, k: nat)
    requires n + k <= |read|
    ensures tx0 + read[..n] + read[n..][..k] == tx0 + read[..n + k] && read[n..][k..] == read[n + k..]
  {
    assert read[..n] + read[n..][..k] == read[..n + k];
  }

  method Advance(p: Pipe, src: Connection, dst: Connection, progress: Progress, ghost events: seq<Event>,
                 ghost fromServer: bool, ghost rx0: seq<byte>, ghost tx0: seq<byte>)
    returns (q: Pipe, ok: bool)
    requires Conveys(p, events, fromServer, rx0, src.rx, tx0, dst.tx)
    modifies src`rx, dst`tx
    ensures ok <==> !ErrorNext(events, Event(fromServer, progress))
    ensures ok ==> Conveys(q, events + [Event(fromServer, progress)], fromServer, rx0, src.rx, tx0, dst.tx)
    ensures !ok ==> q == p && src.rx == old(src.rx) && dst.tx == old(dst.tx)
  {
    q, ok := p, true;
    match progress {
      case Read(bytes) =>
        ReadConveys(p, events, fromServer, rx0, src.rx, tx0, dst.tx, bytes);
        if !p.ended {
          if bytes == [] {
            q := p.(ended := true);
          } else {
            src.rx := src.rx + bytes;
            q := p.(held := p.held + bytes);
          }
        }
      case Write(n) =>
        var k := if n < |p.held| then n else |p.held|;
        WriteConveys(p, events, fromServer, rx0, src.rx, tx0, dst.tx, n, k);
        if p.held != [] {
          dst.tx := dst.tx + p.held[..k];
          q := p.(held := p.held[k..], written := p.written + k);
          ok := k != 0;
        }
      case Broken =>
        ok := false;
    }
  }

  lemma OtherDirection(p: Pipe, events: seq<Event>, e: Event, fromServer: bool, rx0: seq<byte>, rx: seq<byte>,
                       tx0: seq<byte>, tx: seq<byte>)
    requires Conveys(p, events, fromServer, rx0, rx, tx0, tx) && e.fromServer != fromServer
    ensures Conveys(p, events + [e], fromServer, rx0, rx, tx0, tx)
  {
    AfterOne(events, e, fromServer);
  }

  /** Both directions of a copy, from what the two connections had read and written
      before. */
  datatype Before = Before(serverRx: seq<byte>, serverTx: seq<byte>, localRx: seq<byte>, localTx: seq<byte>)

  ghost predicate BothConvey(down: Pipe, up: Pipe, events: seq<Event>, b: Before, server: Connection, local: Connection)
    reads server, local
  {
    && Conveys(down, events, true, b.serverRx, server.rx, b.localTx, local.tx)
    && Conveys(up, events, false, b.localRx, local.rx, b.serverTx, server.tx)
  }

  method Proceed(down: Pipe, up: Pipe, server: Connection, local: Connection, e: Event, ghost events: seq<Event>,
                 ghost b: Before)
    returns (d: Pipe, u: Pipe, ok: bool)
    requires server != local && BothConvey(down, up, events, b, server, local)
    modifies server, local
    ensures ok <==> !ErrorNext(events, e)
    ensures BothConvey(d, u, if ok then events + [e] else events, b, server, local)
  {
    d, u := down, up;
    if e.fromServer {
      OtherDirection(up, events, e, false, b.localRx, local.rx, b.serverTx, server.tx);
      d, ok := Advance(down, server, local, e.progress, events, true, b.serverRx, b.localTx);
    } else {
      OtherDirection(down, events, e, true, b.serverRx, server.rx, b.localTx, local.tx);
      u, ok := Advance(up, local, server, e.progress, events, false, b.localRx, b.serverTx);
    }
  }

  lemma OverIsComplete(down: Pipe, up: Pipe, events: seq<Event>, b: Before, server: Connection, local: Connection)
    requires BothConvey(down, up, events, b, server, local)
    ensures IsOver(down) && IsOver(up) <==> Complete(events)
    ensures IsOver(down) ==> down.written == |BytesRead(events, true)|
    ensures IsOver(up) ==> up.written == |BytesRead(events, false)|
  {
  }

  /** `io::copy_bidirectional`: stops where and with what the events decide; each
      direction has read what they say and written the first bytes of that. */
  method CopyBidirectional(server: Connection, local: Connection, events: seq<Event>) returns (r: Copied)
    requires server != local
    modifies server, local
    ensures r == ResultOf(events)
    ensures server.rx == old(server.rx) + BytesRead(Done(events), true)
    ensures local.rx == old(local.rx) + BytesRead(Done(events), false)
    ensures local.tx == old(local.tx) + PassedOn(Done(events), true)
    ensures server.tx == old(server.tx) + PassedOn(Done(events), false)
  {
    ghost var b := Before(server.rx, server.tx, local.rx, local.tx);
    var down, up := Pipe([], false, 0), Pipe([], false, 0);
    var i := 0;
    while i < |events| && !(IsOver(down) && IsOver(up))
      invariant 0 <= i <= |events|
      invariant BothConvey(down, up, events[..i], b, server, local) && GoesOn(events, i)
    {
      OverIsComplete(down, up, events[..i], b, server, local);
      var ok;
      down, up, ok := Proceed(down, up, server, local, events[i], events[..i], b);
      if !ok {
        StopsHere(events, 0, i);
        return Failed;
      }
      OneMore(events, i);
      GoesOnMore(events, i);
      i := i + 1;
    }
    OverIsComplete(down, up, events[..i], b, server, local);
    assert events[..|events|] == events;
    r := if IsOver(down) && IsOver(up) then Finished(down.written, up.written) else Copying;
    StopsHere(events, 0, i);
  }

  /** What passed over one connection to the relay and the local connection made for it. */
  datatype Session = Session(announced: bool, fromRelay: seq<byte>, toRelay: seq<byte>,
                             fromLocal: seq<byte>, toLocal: seq<byte>, finished: bool)

  /** The relay gets the magic byte and then what the local server says, the local
      server what the relay says, beginning with the byte that was read ahead; and
      the local server is not spoken to before a request has come. */
  predicate SessionSafe(s: Session)
  {
    var greeting := if s.announced then [MAGIC] else [];
    && s.toRelay <= greeting + s.fromLocal
    && s.toLocal <= s.fromRelay
    && (s.fromRelay == [] ==> s.fromLocal == [])
    && (s.finished ==> s.fromRelay != [] && s.toRelay == greeting + s.fromLocal && s.toLocal == s.fromRelay)
  }

  /** How the network and the local server answer one attempt. */
  datatype Attempt = Attempt(announced: bool, firstByte: Option<byte>, localUp: bool, replayed: bool,
                             events: seq<Event>)

  /** One turn of the loop: the shutdown flag when the loop condition reads it, the
      attempt if the relay accepts the connection, and the flag read at the end. */
  datatype Turn = Turn(stopped: bool, attempt: Option<Attempt>, stoppedAfter: bool)

  /** A turn that gives up early goes on without reading the flag a second time. */
  predicate ReadsFlagAgain(turn: Turn)
  {
    turn.attempt.None?
    || (turn.attempt.value.firstByte.Some? && turn.attempt.value.localUp && turn.attempt.value.replayed)
  }

  /** The attempts that are made before the shutdown flag is seen. */
  function Attempts(turns: seq<Turn>): seq<Attempt>
  {
    if turns == [] || turns[0].stopped then []
    else
      (if turns[0].attempt.Some? then [turns[0].attempt.value] else [])
      + (if ReadsFlagAgain(turns[0]) && turns[0].stoppedAfter then [] else Attempts(turns[1..]))
  }

  lemma AttemptsFrom(turns: seq<Turn>, i: nat)
    requires i < |turns| && !turns[i].stopped
    ensures var rest := Attempts(turns[i..]);
            var later := if ReadsFlagAgain(turns[i]) && turns[i].stoppedAfter then [] else Attempts(turns[i + 1..]);
            if turns[i].attempt.Some? then rest != [] && rest[0] == turns[i].attempt.value && rest[1..] == later
            else rest == later
  {
    assert turns[i..][0] == turns[i] && turns[i..][1..] == turns[i + 1..];
  }

  /** Before turn i: the attempts made, and those still to make. */
  ghost predicate Made(turns: seq<Turn>, i: nat, running: bool, made: seq<Attempt>, rest: seq<Attempt>)
    requires i <= |turns|
  {
    rest == (if running then Attempts(turns[i..]) else []) && made + rest == Attempts(turns)
  }

  lemma MadeMore(turns: seq<Turn>, i: nat, made: seq<Attempt>, rest: seq<Attempt>)
    requires i < |turns| && !turns[i].stopped && Made(turns, i, true, made, rest)
    ensures var running := !(ReadsFlagAgain(turns[i]) && turns[i].stoppedAfter);
            if turns[i].attempt.Some?
            then rest != [] && Made(turns, i + 1, running, made + [turns[i].attempt.value], rest[1..])
            else Made(turns, i + 1, running, made, rest)
  {
    AttemptsFrom(turns, i);
    if turns[i].attempt.Some? {
      assert made + [rest[0]] + rest[1..] == made + rest;
    }
  }

  /** While the flag is not set, every connection the relay accepts is served; from the
      moment the loop condition reads it none is. */
  lemma {:induction false} ServesUntilStopped(attempts: seq<Attempt>, last: Turn, more: seq<Turn>)
    requires last.stopped
    ensures var turns := seq(|attempts|, i requires 0 <= i < |attempts| => Turn(false, Some(attempts[i]), false));
            Attempts(turns + [last] + more) == attempts
  {
    var turns := seq(|attempts|, i requires 0 <= i < |attempts| => Turn(false, Some(attempts[i]), false));
    var all := turns + [last] + more;
    if attempts == [] {
      assert all[0] == last;
    } else {
      ServesUntilStopped(attempts[1..], last, more);
      var others := attempts[1..];
      var rest := seq(|others|, i requires 0 <= i < |others| => Turn(false, Some(others[i]), false));
      assert all[0] == turns[0] && all[1..] == rest + [last] + more;
    }
  }

  /** An attempt that is served to its copy ends the loop when the flag is set by then;
      one that is given up early does not read it before the next turn. */
  lemma StopsAfterACopy(attempt: Attempt, more: seq<Turn>)
    ensures var copied := attempt.firstByte.Some? && attempt.localUp && attempt.replayed;
            Attempts([Turn(false, Some(attempt), true)] + more) == [attempt] + if copied then [] else Attempts(more)
  {
    assert ([Turn(false, Some(attempt), true)] + more)[1..] == more;
  }

  predicate GetsToCopy(a: Attempt)
  {
    a.firstByte.Some? && a.localUp && a.replayed
  }

  /** What passes over the connections of an attempt, from what the network does. */
  function SessionOf(a: Attempt): Session
  {
    var greeting := if a.announced then [MAGIC] else [];
    if a.firstByte.None? then Session(a.announced, [], greeting, [], [], false)
    else
      var first, done := [a.firstByte.value], Done(a.events);
      if GetsToCopy(a)
      then Session(a.announced, first + BytesRead(done, true), greeting + PassedOn(done, false),
                   BytesRead(done, false), first + PassedOn(done, true), ResultOf(a.events).Finished?)
      else Session(a.announced, first, greeting, [], [], false)
  }

  lemma SessionsAreSafe(a: Attempt)
    ensures var s := SessionOf(a);
            && SessionSafe(s) && s.announced == a.announced
            && (s.finished <==> GetsToCopy(a) && ResultOf(a.events).Finished?)
            && (s.finished ==> ResultOf(a.events) == Finished(|s.toLocal| - 1, |s.fromLocal|))
  {
    PassedOnIsAPrefix(Done(a.events));
  }

  function SessionsOf(attempts: seq<Attempt>): seq<Session>
  {
    seq(|attempts|, i requires 0 <= i < |attempts| => SessionOf(attempts[i]))
  }

  /** Bytes that a finished copy passed on to the local server and to the relay; the
      first byte of a request and the magic byte are not among them. */
  function ToLocal(s: Session): nat
  {
    if s.finished && s.toLocal != [] then |s.toLocal| - 1 else 0
  }

  function ToRelay(s: Session): nat
  {
    if s.finished then |s.fromLocal| else 0
  }

  function CopiedToLocal(sessions: seq<Session>): nat
  {
    if sessions == [] then 0
    else CopiedToLocal(sessions[..|sessions| - 1]) + ToLocal(sessions[|sessions| - 1])
  }

  function CopiedToRelay(sessions: seq<Session>): nat
  {
    if sessions == [] then 0
    else CopiedToRelay(sessions[..|sessions| - 1]) + ToRelay(sessions[|sessions| - 1])
  }

  class WorkerTunnel {
    var bytesToOracle: u64
    var bytesToWorker: u64
    ghost var sessions: seq<Session>

    constructor ()
      ensures bytesToOracle == 0 && bytesToWorker == 0 && sessions == []
    {
      bytesToOracle, bytesToWorker, sessions := 0, 0, [];
    }

    /** One accepted connection: `r` is None when it is given up before copying. */
    method Serve(attempt: Attempt) returns (r: Option<Copied>, ghost session: Session)
      ensures session == SessionOf(attempt) && SessionSafe(session) && session.announced == attempt.announced
      ensures r.Some? <==> attempt.firstByte.Some? && attempt.localUp && attempt.replayed
      ensures r == if GetsToCopy(attempt) then Some(ResultOf(attempt.events)) else None
    {
      SessionsAreSafe(attempt);
      var server := new Connection();
      if attempt.announced {
        server.tx := [MAGIC];
      }
      if attempt.firstByte.None? {
        return None, Session(attempt.announced, server.rx, server.tx, [], [], false);
      }
      var firstByte := attempt.firstByte.value;
      server.rx := server.rx + [firstByte];
      assert server.rx == [firstByte];
      if !attempt.localUp {
        return None, Session(attempt.announced, server.rx, server.tx, [], [], false);
      }
      var local := new Connection();
      if !attempt.replayed {
        return None, Session(attempt.announced, server.rx, server.tx, local.rx, local.tx, false);
      }
      local.tx := local.tx + [firstByte];
      assert local.tx == [firstByte];
      var copied := CopyBidirectional(server, local, attempt.events);
      assert local.rx == BytesRead(Done(attempt.events), false);
      r, session := Some(copied),
        Session(attempt.announced, server.rx, server.tx, local.rx, local.tx, copied.Finished?);
    }

    method ServeAndCount(attempt: Attempt)
      modifies this
      ensures sessions == old(sessions) + [SessionOf(attempt)]
      ensures bytesToOracle == WrappingAdd(old(bytesToOracle), ToLocal(SessionOf(attempt)))
      ensures bytesToWorker == WrappingAdd(old(bytesToWorker), ToRelay(SessionOf(attempt)))
    {
      var r;
      ghost var session;
      r, session := Serve(attempt);
      SessionsAreSafe(attempt);
      if r.Some? && r.value.Finished? {
        bytesToOracle := WrappingAdd(bytesToOracle, r.value.fromServer);
        bytesToWorker := WrappingAdd(bytesToWorker, r.value.fromLocal);
      }
      sessions := sessions + [session];
    }

    method TakeTurn(turn: Turn, ghost a0: u64, ghost b0: u64, ghost s0: seq<Session>, ghost made: seq<Attempt>)
      requires Counted(a0, b0, s0, SessionsOf(made), bytesToOracle, bytesToWorker, sessions)
      modifies this
      ensures var all := if turn.attempt.Some? then made + [turn.attempt.value] else made;
              Counted(a0, b0, s0, SessionsOf(all), bytesToOracle, bytesToWorker, sessions)
    {
      if turn.attempt.Some? {
        CountOneMore(a0, b0, s0, SessionsOf(made), bytesToOracle, bytesToWorker, sessions,
          SessionOf(turn.attempt.value));
        SessionsAppend(made, turn.attempt.value);
        ServeAndCount(turn.attempt.value);
      }
    }

    method RunReverseTunnel(turns: seq<Turn>)
      modifies this
      ensures sessions == old(sessions) + SessionsOf(Attempts(turns))
      ensures forall s :: s in SessionsOf(Attempts(turns)) ==> SessionSafe(s)
      ensures bytesToOracle == WrappingAdd(old(bytesToOracle), CopiedToLocal(SessionsOf(Attempts(turns))))
      ensures bytesToWorker == WrappingAdd(old(bytesToWorker), CopiedToRelay(SessionsOf(Attempts(turns))))
    {
      AllSessionsAreSafe(Attempts(turns));
      ghost var made, rest := [], Attempts(turns);
      var i := 0;
      var running := true;
      while i < |turns| && running && !turns[i].stopped
        invariant 0 <= i <= |turns|
        invariant Made(turns, i, running, made, rest)
        invariant Counted(old(bytesToOracle), old(bytesToWorker), old(sessions), SessionsOf(made),
                          bytesToOracle, bytesToWorker, sessions)
      {
        MadeMore(turns, i, made, rest);
        TakeTurn(turns[i], old(bytesToOracle), old(bytesToWorker), old(sessions), made);
        if turns[i].attempt.Some? {
          made, rest := made + [turns[i].attempt.value], rest[1..];
        }
        running := !(ReadsFlagAgain(turns[i]) && turns[i].stoppedAfter);
        i := i + 1;
      }
      assert rest == [] && made + [] == made;
    }
  }

  /** What `RunReverseTunnel` adds to the counter for bytes to the relay is what went to
      the local server, and conversely. Each counter is right exactly when the two
      amounts agree modulo 2^64. */
  lemma CountersAreRightIff(before: u64, sessions: seq<Session>)
    ensures WrappingAdd(before, CopiedToLocal(sessions)) == WrappingAdd(before, CopiedToRelay(sessions))
            <==> CopiedToLocal(sessions) % TWO_64 == CopiedToRelay(sessions) % TWO_64
  {
    var a, b := CopiedToLocal(sessions), CopiedToRelay(sessions);
    SameResidue(before, a, b);
  }

  lemma SameResidue(k: nat, a: nat, b: nat)
    ensures (k + a) % TWO_64 == (k + b) % TWO_64 <==> a % TWO_64 == b % TWO_64
  {
    var qa, qb := a / TWO_64, b / TWO_64;
    assert a == qa * TWO_64 + a % TWO_64 && b == qb * TWO_64 + b % TWO_64;
    var ka, kb := (k + a) / TWO_64, (k + b) / TWO_64;
    assert k + a == ka * TWO_64 + (k + a) % TWO_64 && k + b == kb * TWO_64 + (k + b) % TWO_64;
  }

  /** A request of one byte with a reply of one: nothing was copied to the local server
      after the first byte, one byte to the relay. */
  lemma SwappedCounters(request: byte, reply: byte)
    ensures var s := Session(true, [request], [MAGIC, reply], [reply], [request], true);
            && SessionSafe(s)
            && WrappingAdd(0, CopiedToLocal([s])) == 0 && WrappingAdd(0, CopiedToRelay([s])) == 1
  {
    var s := Session(true, [request], [MAGIC, reply], [reply], [request], true);
    assert [MAGIC] + [reply] == [MAGIC, reply];
    CopiedAppend([], s);
    assert [] + [s] == [s];
  }

  /** The counters and the sessions after some more, from what they were before. */
  ghost predicate Counted(a0: u64, b0: u64, s0: seq<Session>, done: seq<Session>, a: u64, b: u64, s: seq<Session>)
  {
    a == WrappingAdd(a0, CopiedToLocal(done)) && b == WrappingAdd(b0, CopiedToRelay(done)) && s == s0 + done
  }

  lemma CountOneMore(a0: u64, b0: u64, s0: seq<Session>, done: seq<Session>, a: u64, b: u64, s: seq<Session>,
                     session: Session)
    requires Counted(a0, b0, s0, done, a, b, s)
    ensures Counted(a0, b0, s0, done + [session], WrappingAdd(a, ToLocal(session)), WrappingAdd(b, ToRelay(session)),
                    s + [session])
  {
    CopiedAppend(done, session);
    WrappingAddTwice(a0, CopiedToLocal(done), ToLocal(session));
    WrappingAddTwice(b0, CopiedToRelay(done), ToRelay(session));
    Assoc(s0, done, [session]);
  }

  lemma AllSessionsAreSafe(attempts: seq<Attempt>)
    ensures forall s :: s in SessionsOf(attempts) ==> SessionSafe(s)
  {
    forall i | 0 <= i < |attempts| ensures SessionSafe(SessionOf(attempts[i])) {
      SessionsAreSafe(attempts[i]);
    }
  }

  lemma SessionsAppend(made: seq<Attempt>, attempt: Attempt)
    ensures SessionsOf(made + [attempt]) == SessionsOf(made) + [SessionOf(attempt)]
  {
  }

  lemma CopiedAppend(sessions: seq<Session>, s: Session)
    ensures CopiedToLocal(sessions + [s]) == CopiedToLocal(sessions) + ToLocal(s)
    ensures CopiedToRelay(sessions + [s]) == CopiedToRelay(sessions) + ToRelay(s)
  {
    assert (sessions + [s])[..|sessions|] == sessions;
  }
}
