// From the API client through the relay and the worker's tunnel to the local
// server and back.

module EndToEnd {
  import opened Wrappers
  import opened Bytes
  import opened Relay
  import opened RelayBytes
  import opened RelayFaults
  import opened Tunnel

  /** The rendezvous of the two programs: whatever becomes of an attempt that could write
      its announcement, its first byte makes the relay, in both versions and on any port,
      take the connection for a worker and put it in the table. */
  lemma AnnouncingRegisters(attempt: Attempt, s: State, c: nat) returns (t: State)
    requires attempt.announced && Is(s, c, Reading) && c in s.sockets && s.lock.None?
    ensures SessionOf(attempt).toRelay != [] && SessionOf(attempt).toRelay[0] as char == 'E'
    ensures IsRun(s, [FirstByte(c, SessionOf(attempt).toRelay[0])] + [Acquire(c), Install(c)], t)
    ensures c in t.entries && s.sockets[c].port in t.workers && t.workers[s.sockets[c].port] == c
  {
    var b := SessionOf(attempt).toRelay[0];
    One(s, FirstByte(c, b));
    var r := Next(s, FirstByte(c, b));
    assert Is(r, c, EnterWorker);
    Two(r, Acquire(c), Install(c));
    t := Next(Next(r, Acquire(c)), Install(c));
    Then(s, [FirstByte(c, b)], r, [Acquire(c), Install(c)], t);
  }

  /** And a client that does not begin with that byte is never taken for a worker: it
      goes to the requests where there are any, or is rejected. */
  lemma OthersAreNoWorkers(s: State, c: nat, b: byte)
    requires Is(s, c, Reading) && b as char != 'E'
    ensures var pc := Next(s, FirstByte(c, b)).pcs[c]; pc.EnterApi? || pc.Rejected?
    ensures SocketOf(s, c).port == API_PORT ==>
              (Next(s, FirstByte(c, b)).pcs[c].EnterApi? <==> 'A' <= b as char <= 'Z')
  {
  }

  /** TCP in each direction of the three hops: what arrives at one end is a prefix of
      what was put in at the other. `w` is the worker's connection to the relay, `a`
      the client's. */
  predicate InOrder(t: State, w: nat, a: nat, session: Session, clientSent: seq<byte>, clientReceived: seq<byte>,
                    localSent: seq<byte>, localReceived: seq<byte>)
  {
    && SocketOf(t, a).rx <= clientSent && clientReceived <= SocketOf(t, a).tx
    && session.fromRelay <= SocketOf(t, w).tx && SocketOf(t, w).rx <= session.toRelay
    && session.fromLocal <= localSent && localReceived <= session.toLocal
  }

  /** And everything put in has arrived. */
  predicate AllArrived(t: State, w: nat, a: nat, session: Session, clientSent: seq<byte>, clientReceived: seq<byte>,
                       localSent: seq<byte>, localReceived: seq<byte>)
  {
    && SocketOf(t, a).rx == clientSent && clientReceived == SocketOf(t, a).tx
    && session.fromRelay == SocketOf(t, w).tx && SocketOf(t, w).rx == session.toRelay
    && session.fromLocal == localSent && localReceived == session.toLocal
  }

  /** Byte integrity from end to end, for every schedule of the relay's threads, every
      way of cutting the streams into reads and writes, and at every moment: with one
      API request on a worker's registration, the local server receives a prefix of
      what the client sent and the client a prefix of what the local server sent. */
  lemma BytesArriveInOrder(variant: Variant, actions: seq<Action>, t: State, w: nat, a: nat, session: Session,
                           clientSent: seq<byte>, clientReceived: seq<byte>, localSent: seq<byte>,
                           localReceived: seq<byte>)
    requires IsRun(Start(variant), actions, t) && w in t.entries && t.entries[w].apis == [a]
    requires SessionSafe(session) && session.announced
    requires InOrder(t, w, a, session, clientSent, clientReceived, localSent, localReceived)
    ensures localReceived <= clientSent
    ensures clientReceived <= localSent
  {
    RelayedBytesArePrefixes(variant, actions, t, w, a);
    AfterTheMagicByte(SocketOf(t, w).rx, session.toRelay, session.fromLocal);
  }

  lemma AfterTheMagicByte(received: seq<byte>, sent: seq<byte>, payload: seq<byte>)
    requires received != [] && received <= sent && sent <= [MAGIC] + payload
    ensures received[1..] <= payload
  {
    assert ([MAGIC] + payload)[1..] == payload;
  }

  lemma RelayCanPassAll(w: nat, a: nat, sent: seq<byte>, reply: seq<byte>) returns (actions: seq<Action>, t: State)
    requires w != a && |sent| > 1 && Letter(sent[0]) && reply != []
    ensures IsRun(Start(OneShot), actions, t) && w in t.entries && t.entries[w].apis == [a]
    ensures SocketOf(t, a).rx == SocketOf(t, w).tx == sent
    ensures SocketOf(t, w).rx == [WORKER_MAGIC] + reply && SocketOf(t, a).tx == reply
  {
    var rest := sent[1..];
    assert [sent[0]] + rest == sent && [] + reply == reply;
    var first, s := RelayFaults.Bridges(w, a, sent[0]);
    var r := CopiesChunk(s, w, a, true, rest);
    t := CopiesChunk(r, w, a, false, reply);
    var second := [Receive(w, true, rest), Send(w, true, |rest|)];
    var third := [Receive(w, false, reply), Send(w, false, |reply|)];
    Then(Start(OneShot), first, s, second, r);
    Then(Start(OneShot), first + second, r, third, t);
    actions := first + second + third;
  }

  lemma TunnelCanPassAll(sent: seq<byte>, reply: seq<byte>) returns (attempt: Attempt)
    requires |sent| > 1 && reply != []
    ensures attempt.announced && ResultOf(attempt.events) == Finished(|sent| - 1, |reply|)
    ensures SessionOf(attempt) == Session(true, sent, [MAGIC] + reply, reply, sent, true)
  {
    var rest := sent[1..];
    assert [sent[0]] + rest == sent;
    attempt := Attempt(true, Some(sent[0]), true, true, CopyAll(rest, reply));
    EverythingCanBeCopied(rest, reply);
  }

  /** All of this can happen: for any bytes of the client (beginning with a letter) and
      of the local server there is a run of the relay and a session of the tunnel in
      which everything arrives. */
  lemma EverythingCanArrive(w: nat, a: nat, sent: seq<byte>, reply: seq<byte>)
    returns (actions: seq<Action>, t: State, attempt: Attempt)
    requires w != a && |sent| > 1 && Letter(sent[0]) && reply != []
    ensures IsRun(Start(OneShot), actions, t) && w in t.entries && t.entries[w].apis == [a]
    ensures attempt.announced && ResultOf(attempt.events) == Finished(|sent| - 1, |reply|)
    ensures AllArrived(t, w, a, SessionOf(attempt), sent, reply, reply, sent)
  {
    actions, t := RelayCanPassAll(w, a, sent, reply);
    attempt := TunnelCanPassAll(sent, reply);
  }

  /** Nothing is lost on the way either: whenever everything has arrived and neither
      the relay nor the worker holds anything back, both ends have received all the
      other has sent. */
  lemma NothingIsLost(variant: Variant, actions: seq<Action>, t: State, w: nat, a: nat, session: Session,
                      clientSent: seq<byte>, clientReceived: seq<byte>, localSent: seq<byte>, localReceived: seq<byte>)
    requires IsRun(Start(variant), actions, t) && w in t.entries && t.entries[w].apis == [a]
    requires session.toRelay == [MAGIC] + session.fromLocal && session.toLocal == session.fromRelay
    requires AllArrived(t, w, a, session, clientSent, clientReceived, localSent, localReceived)
    requires Is(t, w, Bridging(a, Idle, Idle))
    ensures localReceived == clientSent
    ensures clientReceived == localSent
  {
    BytesRun(variant, actions, t);
    assert BytesSafe(t, w) && BridgeSafe(t, w);
    assert ([MAGIC] + session.fromLocal)[1..] == session.fromLocal;
  }
}
