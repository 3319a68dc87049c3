// The election as it is locked in the source: a REGISTER checks for a SuperNode
// under one lock and becomes SuperNode under another, and other handlers run in between.

module SplitElection {
  import opened Workers
  import opened Registry
  import opened RegistryRuns

  /** What the check of a REGISTER saw. */
  datatype Checked = Checked(r: Registration, vacant: bool)

  /** A REGISTER that has checked and not elected yet is in `checked` under its connection. */
  datatype Split = Split(s: Swarm, checked: map<nat, Checked>)

  datatype SplitEvent = Check(r: Registration) | Elect(conn: nat) | Other(event: Event)

  /** A connection between check and election does nothing else. */
  ghost predicate Possible(x: Split, e: SplitEvent)
  {
    match e
    case Check(r) => r.conn !in x.checked
    case Elect(c) => c in x.checked
    case Other(event) => !event.Enrol? && Enabled(x.s, event) && (event.Close? ==> event.conn !in x.checked)
  }

  function After(x: Split, e: SplitEvent): Split
    requires Possible(x, e)
  {
    match e
    case Check(r) => x.(checked := x.checked[r.conn := Checked(r, x.s.m.superId.None?)])
    case Elect(c) =>
      var k := x.checked[c];
      Split(Swarm(RegisterGiven(x.s.m, k.r, k.vacant), x.s.conns[c := k.r.id]), x.checked - {c})
    case Other(event) => x.(s := Step(x.s, event))
  }

  function Begin(saved: map<string, u64>): Split
  {
    Split(RegistryRuns.Start(saved).s, map[])
  }

  ghost predicate IsSplitRun(x: Split, events: seq<SplitEvent>, y: Split)
    decreases |events|
  {
    if events == [] then x == y
    else Possible(x, events[0]) && IsSplitRun(After(x, events[0]), events[1..], y)
  }

  ghost predicate OneSuperNode(m: Master)
  {
    forall a, b :: a in m.workers && b in m.workers && m.workers[a].role.SuperNode? && m.workers[b].role.SuperNode?
      ==> a == b
  }

  /** An election on a check that found the seat vacant, while another registered
      worker has taken it. */
  ghost predicate Clash(x: Split, e: SplitEvent)
    requires Possible(x, e)
  {
    e.Elect?
    && x.checked[e.conn].vacant && x.checked[e.conn].r.Qualifies()
    && exists id :: id in x.s.m.workers && id != x.checked[e.conn].r.id && x.s.m.workers[id].role.SuperNode?
  }

  lemma ElectionKeepsOne(x: Split, e: SplitEvent)
    requires Possible(x, e) && OneSuperNode(x.s.m)
    ensures OneSuperNode(After(x, e).s.m) <==> !Clash(x, e)
  {
    if Clash(x, e) {
      var r := x.checked[e.conn].r;
      var id :| id in x.s.m.workers && id != r.id && x.s.m.workers[id].role.SuperNode?;
      var n := After(x, e).s.m;
      assert r.id in n.workers && n.workers[r.id].role.SuperNode?;
      assert id in n.workers && n.workers[id].role.SuperNode?;
    }
  }

  lemma ElectionKeepsSafety(x: Split, e: SplitEvent)
    requires Possible(x, e) && SuperSafe(x.s.m) && !Clash(x, e)
    ensures SuperSafe(After(x, e).s.m)
  {
    if e.Other? {
      SuperSafeStep(x.s, e.event);
    }
  }

  lemma SafetyMeansOne(m: Master)
    requires SuperSafe(m)
    ensures OneSuperNode(m)
  {
  }

  ghost predicate NeverClashes(x: Split, events: seq<SplitEvent>)
    decreases |events|
  {
    events != [] && Possible(x, events[0]) ==> !Clash(x, events[0]) && NeverClashes(After(x, events[0]), events[1..])
  }

  ghost predicate AlwaysOne(x: Split, events: seq<SplitEvent>)
    decreases |events|
  {
    && OneSuperNode(x.s.m)
    && (events != [] && Possible(x, events[0]) ==> AlwaysOne(After(x, events[0]), events[1..]))
  }

  ghost predicate AlwaysSafe(x: Split, events: seq<SplitEvent>)
    decreases |events|
  {
    && SuperSafe(x.s.m)
    && (events != [] && Possible(x, events[0]) ==> AlwaysSafe(After(x, events[0]), events[1..]))
  }

  lemma {:induction false} AlwaysOneRun(x: Split, events: seq<SplitEvent>)
    requires OneSuperNode(x.s.m)
    ensures AlwaysOne(x, events) <==> NeverClashes(x, events)
    decreases |events|
  {
    if events != [] && Possible(x, events[0]) {
      ElectionKeepsOne(x, events[0]);
      if !Clash(x, events[0]) {
        AlwaysOneRun(After(x, events[0]), events[1..]);
      }
    }
  }

  lemma {:induction false} AlwaysSafeRun(x: Split, events: seq<SplitEvent>)
    requires SuperSafe(x.s.m)
    ensures AlwaysSafe(x, events) <==> NeverClashes(x, events)
    decreases |events|
  {
    SafetyMeansOne(x.s.m);
    if events != [] && Possible(x, events[0]) {
      ElectionKeepsOne(x, events[0]);
      if !Clash(x, events[0]) {
        ElectionKeepsSafety(x, events[0]);
        AlwaysSafeRun(After(x, events[0]), events[1..]);
      } else if SuperSafe(After(x, events[0]).s.m) {
        SafetyMeansOne(After(x, events[0]).s.m);
        assert false;
      }
    }
  }

  /** A run with split elections has at most one SuperNode all the way, and keeps the
      whole SuperNode invariant, exactly when no election acts on a vacancy that
      another registered SuperNode has filled since the check. */
  lemma OneSuperNodeIffNoClash(saved: map<string, u64>, events: seq<SplitEvent>, y: Split)
    requires IsSplitRun(Begin(saved), events, y)
    ensures AlwaysOne(Begin(saved), events) <==> NeverClashes(Begin(saved), events)
    ensures AlwaysSafe(Begin(saved), events) <==> NeverClashes(Begin(saved), events)
  {
    AlwaysOneRun(Begin(saved), events);
    AlwaysSafeRun(Begin(saved), events);
  }

  /** Check and election with nothing in between are the registration step. */
  lemma CheckThenElectIsRegistering(x: Split, r: Registration)
    requires r.conn !in x.checked
    ensures Possible(x, Check(r)) && Possible(After(x, Check(r)), Elect(r.conn))
    ensures After(After(x, Check(r)), Elect(r.conn)) == x.(s := Step(x.s, Enrol(r)))
    ensures SuperSafe(x.s.m) ==> !Clash(After(x, Check(r)), Elect(r.conn))
  {
    assert x.checked[r.conn := Checked(r, x.s.m.superId.None?)] - {r.conn} == x.checked;
  }

  /** Every check is followed by its own election. */
  predicate Paired(events: seq<SplitEvent>)
    decreases |events|
  {
    events == []
    || (events[0].Other? && Paired(events[1..]))
    || (|events| >= 2 && events[0].Check? && events[1] == Elect(events[0].r.conn) && Paired(events[2..]))
  }

  /** Then elections never clash: the runs with atomic handlers are safe. */
  lemma {:induction false} PairedElectionsNeverClash(x: Split, events: seq<SplitEvent>, y: Split)
    requires IsSplitRun(x, events, y) && Paired(events) && SuperSafe(x.s.m)
    ensures NeverClashes(x, events)
    decreases |events|
  {
    if events != [] {
      var n := After(x, events[0]);
      if events[0].Other? {
        ElectionKeepsSafety(x, events[0]);
        PairedElectionsNeverClash(n, events[1..], y);
      } else {
        CheckThenElectIsRegistering(x, events[0].r);
        assert events[1..][1..] == events[2..];
        SuperSafeStep(x.s, Enrol(events[0].r));
        PairedElectionsNeverClash(After(n, events[1]), events[2..], y);
      }
    }
  }

  /** When two qualified REGISTERs both check before either elects, two workers
      become SuperNode. */
  lemma SplitElectionMakesTwoSuperNodes(saved: map<string, u64>, a: Registration, b: Registration) returns (y: Split)
    requires a.Qualifies() && b.Qualifies() && a.id != b.id && a.conn != b.conn
    ensures IsSplitRun(Begin(saved), [Check(a), Check(b), Elect(a.conn), Elect(b.conn)], y)
    ensures a.id in y.s.m.workers && y.s.m.workers[a.id].role.SuperNode?
    ensures b.id in y.s.m.workers && y.s.m.workers[b.id].role.SuperNode?
  {
    var x0 := Begin(saved);
    var x1 := After(x0, Check(a));
    var x2 := After(x1, Check(b));
    var x3 := After(x2, Elect(a.conn));
    y := After(x3, Elect(b.conn));
    var p, q, r, s := Check(a), Check(b), Elect(a.conn), Elect(b.conn);
    assert [p, q, r, s][1..] == [q, r, s] && [q, r, s][1..] == [r, s] && [r, s][1..] == [s] && [s][1..] == [];
    assert IsSplitRun(y, [], y);
    assert IsSplitRun(x3, [s], y);
    assert IsSplitRun(x2, [r, s], y);
    assert IsSplitRun(x1, [q, r, s], y);
  }
}
