// A worker that comes back on a new connection before the master has noticed the end
// of the old one.

module Reconnects {
  import opened Wrappers
  import opened Workers
  import opened Registry
  import opened RegistryRuns
  import opened Registrations

  /** The connection of the latest REGISTER of id. */
  function RegisteredOn(past: seq<Event>, id: string): Option<nat>
  {
    var r := LatestRegister(past, id);
    if r.Some? then Some(r.value.conn) else None
  }

  lemma RegisteredOnNext(past: seq<Event>, e: Event, id: string)
    ensures RegisteredOn(past + [e], id) == if Registers(e, id) then Some(e.r.conn) else RegisteredOn(past, id)
  {
    LatestNext(past, e, id);
  }

  /** The end of a connection unregisters only a worker that registered there last. */
  ghost predicate ClosesAreOwn(x: Traced, past: seq<Event>)
  {
    forall conn: nat, id :: id in x.s.m.workers && id !in Next(x, Close(conn)).s.m.workers ==>
      RegisteredOn(past, id) == Some(conn)
  }

  ghost predicate AlwaysOwn(x: Traced, past: seq<Event>, events: seq<Event>)
    decreases |events|
  {
    ClosesAreOwn(x, past)
    && (events != [] ==> AlwaysOwn(Next(x, events[0]), past + [events[0]], events[1..]))
  }

  /** No other connection remembers the worker that registers. */
  predicate ComesAnew(s: Swarm, e: Event)
  {
    e.Enrol? ==> forall c :: c in s.conns && c != e.r.conn ==> s.conns[c] != e.r.id
  }

  ghost predicate AlwaysAnew(x: Traced, events: seq<Event>)
    decreases |events|
  {
    events != [] ==> ComesAnew(x.s, events[0]) && AlwaysAnew(Next(x, events[0]), events[1..])
  }

  ghost predicate MemoriesAreOwn(x: Traced, past: seq<Event>)
  {
    forall c :: c in x.s.conns ==> RegisteredOn(past, x.s.conns[c]) == Some(c)
  }

  lemma ComingAnewKeepsOwn(x: Traced, past: seq<Event>, e: Event)
    requires MemoriesAreOwn(x, past) && ComesAnew(x.s, e)
    ensures MemoriesAreOwn(Next(x, e), past + [e])
  {
    var n := Next(x, e);
    forall c | c in n.s.conns ensures RegisteredOn(past + [e], n.s.conns[c]) == Some(c) {
      RegisteredOnNext(past, e, n.s.conns[c]);
    }
  }

  lemma OwnMemoriesCloseOwn(x: Traced, past: seq<Event>)
    requires MemoriesAreOwn(x, past)
    ensures ClosesAreOwn(x, past)
  {
  }

  /** A worker that another connection still remembers is lost when that one ends. */
  lemma ComingAgainIsTaken(x: Traced, past: seq<Event>, e: Event)
    requires e.Enrol? && !ComesAnew(x.s, e)
    ensures !ClosesAreOwn(Next(x, e), past + [e])
  {
    var c :| c in x.s.conns && c != e.r.conn && x.s.conns[c] == e.r.id;
    RegisteredOnNext(past, e, e.r.id);
    var n := Next(x, e);
    assert e.r.id in n.s.m.workers && e.r.id !in Next(n, Close(c)).s.m.workers;
  }

  lemma {:induction false} OwnIffAnew(x: Traced, past: seq<Event>, events: seq<Event>)
    requires MemoriesAreOwn(x, past)
    ensures AlwaysOwn(x, past, events) <==> AlwaysAnew(x, events)
    decreases |events|
  {
    OwnMemoriesCloseOwn(x, past);
    if events != [] {
      var e := events[0];
      if ComesAnew(x.s, e) {
        ComingAnewKeepsOwn(x, past, e);
        OwnIffAnew(Next(x, e), past + [e], events[1..]);
      } else {
        ComingAgainIsTaken(x, past, e);
      }
    }
  }

  /** Every run: at no moment can the end of a connection unregister a worker that has
      registered on another one since, exactly when no REGISTER comes while another
      connection still remembers its worker. */
  lemma ClosesAreOwnIff(saved: map<string, u64>, events: seq<Event>, y: Traced)
    requires IsRun(Start(saved), events, y)
    ensures AlwaysOwn(Start(saved), [], events) <==> AlwaysAnew(Start(saved), events)
  {
    OwnIffAnew(Start(saved), [], events);
  }

  /** A worker registers, registers again on a second connection, and is unregistered
      by the end of the first. */
  lemma OldConnectionTakesTheNewRegistration(saved: map<string, u64>, r: Registration, again: Registration)
    returns (y: Traced)
    requires again.id == r.id && again.conn != r.conn
    ensures IsRun(Start(saved), [Enrol(r), Enrol(again), Close(r.conn)], y)
    ensures r.id !in y.s.m.workers && again.conn in y.s.conns && y.s.conns[again.conn] == r.id
    ensures RegisteredOn([Enrol(r), Enrol(again), Close(r.conn)], r.id) == Some(again.conn)
  {
    var x1 := Next(Start(saved), Enrol(r));
    var x2 := Next(x1, Enrol(again));
    y := Next(x2, Close(r.conn));
    var events := [Enrol(r), Enrol(again), Close(r.conn)];
    assert events[1..] == [Enrol(again), Close(r.conn)] && events[1..][1..] == [Close(r.conn)];
    assert [Close(r.conn)][1..] == [];
    assert IsRun(x2, [Close(r.conn)], y) && IsRun(x1, [Enrol(again), Close(r.conn)], y);
    assert events[..2] == [Enrol(r), Enrol(again)] && RegisteredOn(events[..2], r.id) == Some(again.conn);
  }

  lemma UnknownStep(s: Swarm, e: Event, id: string)
    requires id !in s.m.workers && !Registers(e, id)
    ensures id !in Step(s, e).m.workers
  {
  }

  /** A worker that is not registered stays unknown, whatever it PINGs, until it
      registers again; the client does so on a new connection only. */
  lemma {:induction false} UnknownUntilRegistered(x: Traced, events: seq<Event>, y: Traced, id: string)
    requires id !in x.s.m.workers && IsRun(x, events, y) && forall e :: e in events ==> !Registers(e, id)
    ensures id !in y.s.m.workers
    decreases |events|
  {
    if events != [] {
      assert !Registers(events[0], id);
      UnknownStep(x.s, events[0], id);
      UnknownUntilRegistered(Next(x, events[0]), events[1..], y, id);
    }
  }
}
