// The bytes a bridge carries, and what a second request on one registration does.

module RelayBytes {
  import opened Bytes
  import opened Relay

  /** What one copying thread owes: everything received is sent or in its hands,
      until it stops and drops what it holds. */
  predicate Carries(f: Forward, rx: seq<byte>, tx: seq<byte>)
  {
    match f
    case Idle => tx == rx
    case Holding(rest) => tx + rest == rx
    case Over => tx <= rx
  }

  /** A connection no bridge has touched: one byte in at most, none out. */
  ghost predicate FreshSafe(s: State, c: nat)
    requires c in s.pcs
  {
    var k := SocketOf(s, c);
    match s.pcs[c]
    case Reading => k.rx == [] && k.tx == []
    case EnterWorker => |k.rx| == 1 && k.tx == []
    case Registering => |k.rx| == 1 && k.tx == []
    case EnterApi => |k.rx| == 1 && k.tx == []
    case LookingUp => |k.rx| == 1 && k.tx == []
    case _ => true
  }

  /** A bridging thread has taken the request it bridges. */
  ghost predicate BridgeSafe(s: State, w: nat)
    requires w in s.pcs
  {
    s.pcs[w].Bridging? ==> w in s.entries && s.pcs[w].api in s.entries[w].taken
  }

  /** The one request a ever stored at worker w, and the bytes of both. */
  ghost predicate OneRequest(s: State, w: nat, a: nat)
    requires w in s.entries && w in s.pcs && a in s.pcs
  {
    var e := s.entries[w];
    var wk, ak := SocketOf(s, w), SocketOf(s, a);
    if e.taken == [] then
      && |wk.rx| == 1 && |ak.rx| == 1 && ak.tx == []
      && (if s.pcs[a].MagicSent? || s.pcs[a].ApiDone? then wk.tx == ak.rx else wk.tx == [])
      && (e.slot.Some? ==> e.slot.value == a && !s.pcs[a].Rejected?)
    else
      && e.taken == [a] && e.slot.None? && s.pcs[a].ApiDone? && |wk.rx| >= 1
      && (if s.pcs[w].Bridging? then
            s.pcs[w].api == a && Carries(s.pcs[w].up, ak.rx, wk.tx) && Carries(s.pcs[w].down, wk.rx[1..], ak.tx)
          else wk.tx <= ak.rx && ak.tx <= wk.rx[1..])
  }

  /** The bytes of worker w as long as at most one request has been stored there. */
  ghost predicate BytesSafe(s: State, w: nat)
    requires w in s.entries && w in s.pcs
  {
    var e := s.entries[w];
    if e.apis == [] then
      |SocketOf(s, w).rx| == 1 && SocketOf(s, w).tx == [] && e.taken == [] && e.slot.None?
    else
      |e.apis| == 1 ==>
        e.apis[0] in s.pcs && e.apis[0] in s.targets && s.targets[e.apis[0]] == w && OneRequest(s, w, e.apis[0])
  }

  ghost predicate FreshAndBytes(s: State)
  {
    && (forall c :: c in s.pcs ==> FreshSafe(s, c) && BridgeSafe(s, c))
    && (forall w :: w in s.entries ==> w in s.pcs && BytesSafe(s, w))
  }

  // ----- steps that do not concern a worker -----

  predicate SameBytes(s: State, n: State, c: nat)
  {
    SocketOf(n, c).rx == SocketOf(s, c).rx && SocketOf(n, c).tx == SocketOf(s, c).tx
  }

  /** The request thread has not moved to or from a point the bytes depend on. */
  predicate SameRequest(p: Pc, q: Pc)
  {
    q == p || (p.Stored? && q.SendFailed?)
  }

  ghost predicate Quiet(s: State, n: State, w: nat)
    requires w in s.entries && w in s.pcs
  {
    && w in n.entries && w in n.pcs && n.entries[w] == s.entries[w]
    && (n.pcs[w] == s.pcs[w] || (!s.pcs[w].Bridging? && !n.pcs[w].Bridging?))
    && SameBytes(s, n, w)
    && (|s.entries[w].apis| == 1 ==>
          var a := s.entries[w].apis[0];
          a in s.pcs && a in n.pcs && a in s.targets && a in n.targets && n.targets[a] == s.targets[a]
          && SameRequest(s.pcs[a], n.pcs[a]) && SameBytes(s, n, a))
  }

  lemma QuietKeepsBytes(s: State, n: State, w: nat)
    requires w in s.entries && w in s.pcs && BytesSafe(s, w) && Quiet(s, n, w)
    ensures BytesSafe(n, w)
  {
  }

  /** Workers with an entry and requests with a target are different connections. */
  lemma Apart(s: State, w: nat, a: nat)
    requires HandoffSafe(s) && w in s.entries && a in s.targets
    ensures w != a && a !in s.entries && w !in s.targets
  {
    TargetsHaveNoEntry(s, a);
    if w in s.targets {
      TargetsHaveNoEntry(s, w);
      assert false;
    }
  }

  lemma TargetsHaveNoEntry(s: State, a: nat)
    requires HandoffSafe(s) && a in s.targets
    ensures a !in s.entries
  {
    assert a in s.pcs;
    assert TargetSafe(s, a);
    assert RoleSafe(s, a);
  }

  // ----- arriving -----

  lemma ArriveIsQuiet(s: State, a: Action, w: nat)
    requires Enabled(s, a) && Arrives(a) && SocketsSafe(s)
    requires w in s.entries && w in s.pcs && !s.pcs[w].Reading? && BytesSafe(s, w)
    requires a.c in s.pcs ==> a.c !in s.targets
    ensures Quiet(s, Arrive(s, a), w)
  {
  }

  lemma ArriveKeepsFresh(s: State, a: Action, c: nat)
    requires Enabled(s, a) && Arrives(a) && SocketsSafe(s) && c in Arrive(s, a).pcs
    requires c in s.pcs ==> FreshSafe(s, c) && BridgeSafe(s, c)
    ensures FreshSafe(Arrive(s, a), c) && BridgeSafe(Arrive(s, a), c)
  {
  }

  lemma ArriveKeepsBytes(s: State, a: Action)
    requires FreshAndBytes(s) && SocketsSafe(s) && Enabled(s, a) && Arrives(a)
    requires a.c in s.pcs ==> a.c !in s.targets
    requires forall w :: w in s.entries ==> w in s.pcs && !s.pcs[w].Reading?
    ensures FreshAndBytes(Arrive(s, a))
  {
    var n := Arrive(s, a);
    forall c | c in n.pcs ensures FreshSafe(n, c) && BridgeSafe(n, c) {
      ArriveKeepsFresh(s, a, c);
    }
    forall w | w in n.entries ensures w in n.pcs && BytesSafe(n, w) {
      ArriveIsQuiet(s, a, w);
      QuietKeepsBytes(s, n, w);
    }
  }

  // ----- serving -----

  lemma InstallIsQuiet(s: State, c: nat, w: nat)
    requires Is(s, c, Registering) && w in s.entries && w in s.pcs && w != c && BytesSafe(s, w) && c !in s.targets
    ensures Quiet(s, DoInstall(s, c), w)
  {
  }

  lemma InstallKeepsFresh(s: State, c: nat, d: nat)
    requires Is(s, c, Registering) && d in s.pcs && FreshSafe(s, d) && BridgeSafe(s, d) && c !in s.entries
    ensures d in DoInstall(s, c).pcs && FreshSafe(DoInstall(s, c), d) && BridgeSafe(DoInstall(s, c), d)
  {
  }

  lemma InstallKeepsBytes(s: State, c: nat)
    requires FreshAndBytes(s) && Is(s, c, Registering) && c !in s.targets && c !in s.entries
    ensures FreshAndBytes(DoInstall(s, c))
  {
    var n := DoInstall(s, c);
    assert FreshSafe(s, c);
    forall d | d in n.pcs ensures FreshSafe(n, d) && BridgeSafe(n, d) {
      InstallKeepsFresh(s, c, d);
    }
    forall w | w in n.entries ensures w in n.pcs && BytesSafe(n, w) {
      if w != c {
        InstallIsQuiet(s, c, w);
        QuietKeepsBytes(s, n, w);
      } else {
        assert SocketOf(n, c).rx == SocketOf(s, c).rx && SocketOf(n, c).tx == SocketOf(s, c).tx;
      }
    }
  }

  lemma WaitKeepsBytes(s: State, c: nat)
    requires FreshAndBytes(s) && Is(s, c, Armed) && c !in s.targets
    ensures FreshAndBytes(DoWait(s, c))
  {
    var n := DoWait(s, c);
    forall w | w in n.entries ensures w in n.pcs && BytesSafe(n, w) {
      assert BytesSafe(s, w);
      QuietKeepsBytes(s, n, w);
    }
    forall d | d in n.pcs ensures FreshSafe(n, d) && BridgeSafe(n, d) {
      assert FreshSafe(s, d) && BridgeSafe(s, d);
    }
  }

  lemma CleanKeepsBytes(s: State, c: nat)
    requires FreshAndBytes(s) && Is(s, c, Cleaning) && c !in s.targets
    ensures FreshAndBytes(DoClean(s, c))
  {
    var n := DoClean(s, c);
    forall w | w in n.entries ensures w in n.pcs && BytesSafe(n, w) {
      assert BytesSafe(s, w);
      QuietKeepsBytes(s, n, w);
    }
    forall d | d in n.pcs ensures FreshSafe(n, d) && BridgeSafe(n, d) {
      assert FreshSafe(s, d) && BridgeSafe(s, d);
    }
  }

  lemma PopIsQuiet(s: State, c: nat, w: nat)
    requires Is(s, c, Popping) && w in s.entries && w in s.pcs && w != c && BytesSafe(s, w) && c !in s.targets
    ensures Quiet(s, DoPop(s, c), w)
  {
  }

  /** The request found in the slot has been sent its byte and notified. */
  lemma PopStartsTheBridge(s: State, c: nat)
    requires Is(s, c, Popping) && c in s.entries && BytesSafe(s, c) && c !in s.targets
    requires var e := s.entries[c];
             e.slot.Some? ==> e.slot.value in s.pcs && (s.pcs[e.slot.value].ApiDone? || s.pcs[e.slot.value].Rejected?)
    ensures c in DoPop(s, c).entries && c in DoPop(s, c).pcs && BytesSafe(DoPop(s, c), c)
  {
  }

  lemma PopKeepsFresh(s: State, c: nat, d: nat)
    requires Is(s, c, Popping) && d in s.pcs && FreshSafe(s, d)
    ensures d in DoPop(s, c).pcs && FreshSafe(DoPop(s, c), d)
  {
  }

  lemma PopKeepsBridge(s: State, c: nat, d: nat)
    requires Is(s, c, Popping) && d in s.pcs && BridgeSafe(s, d)
    ensures d in DoPop(s, c).pcs && BridgeSafe(DoPop(s, c), d)
  {
  }

  lemma PopKeepsBytes(s: State, c: nat)
    requires FreshAndBytes(s) && Is(s, c, Popping) && c in s.entries && c !in s.targets
    requires var e := s.entries[c];
             e.slot.Some? ==> e.slot.value in s.pcs && (s.pcs[e.slot.value].ApiDone? || s.pcs[e.slot.value].Rejected?)
    ensures FreshAndBytes(DoPop(s, c))
  {
    var n := DoPop(s, c);
    forall w | w in n.entries ensures w in n.pcs && BytesSafe(n, w) {
      if w != c {
        PopIsQuiet(s, c, w);
        QuietKeepsBytes(s, n, w);
      } else {
        PopStartsTheBridge(s, c);
      }
    }
    forall d | d in n.pcs ensures FreshSafe(n, d) && BridgeSafe(n, d) {
      PopKeepsFresh(s, c, d);
      PopKeepsBridge(s, c, d);
    }
  }

  // ----- asking -----

  /** A worker whose one request is not c, nor goes by the number of the worker e
      that c is after. */
  ghost predicate Unconcerned(s: State, c: nat, e: nat, w: nat)
  {
    && w in s.entries && w in s.pcs && w != c && w != e && BytesSafe(s, w)
    && (|s.entries[w].apis| == 1 ==> s.entries[w].apis[0] != c && s.entries[w].apis[0] != e)
  }

  lemma LookUpIsQuiet(s: State, c: nat, e: nat, w: nat)
    requires Is(s, c, LookingUp) && Unconcerned(s, c, e, w)
    requires var p := SocketOf(s, c).port; p in s.workers ==> s.workers[p] == e
    ensures Quiet(s, DoLookUp(s, c), w)
  {
  }

  lemma SendMagicIsQuiet(s: State, c: nat, e: nat, ok: bool, w: nat)
    requires Is(s, c, Stored(e)) && Unconcerned(s, c, e, w)
    ensures Quiet(s, DoSendMagic(s, c, e, ok), w)
  {
  }

  lemma AbortIsQuiet(s: State, c: nat, e: nat, w: nat)
    requires Is(s, c, SendFailed(e)) && Unconcerned(s, c, e, w)
    ensures Quiet(s, DoAbort(s, c, e), w)
  {
  }

  lemma NotifyIsQuiet(s: State, c: nat, e: nat, w: nat)
    requires Is(s, c, MagicSent(e)) && Unconcerned(s, c, e, w)
    ensures Quiet(s, DoNotify(s, c, e), w)
  {
  }

  lemma LookUpStartsARequest(s: State, c: nat, e: nat)
    requires Is(s, c, LookingUp) && e in s.entries && e in s.pcs && e != c && BytesSafe(s, e) && FreshSafe(s, c)
    requires var p := SocketOf(s, c).port; p in s.workers && s.workers[p] == e
    ensures e in DoLookUp(s, c).entries && e in DoLookUp(s, c).pcs && BytesSafe(DoLookUp(s, c), e)
  {
  }

  lemma LookUpKeepsFresh(s: State, c: nat, d: nat)
    requires Is(s, c, LookingUp) && d in s.pcs && FreshSafe(s, d) && BridgeSafe(s, d)
    ensures d in DoLookUp(s, c).pcs && FreshSafe(DoLookUp(s, c), d) && BridgeSafe(DoLookUp(s, c), d)
  {
  }

  lemma LookUpKeepsBytes(s: State, c: nat)
    requires FreshAndBytes(s) && Is(s, c, LookingUp) && c !in s.targets && c !in s.entries
    requires var p := SocketOf(s, c).port;
             p in s.workers ==> s.workers[p] in s.entries && s.workers[p] !in s.targets
    ensures FreshAndBytes(DoLookUp(s, c))
  {
    var n := DoLookUp(s, c);
    assert FreshSafe(s, c);
    var p := SocketOf(s, c).port;
    var e := if p in s.workers then s.workers[p] else c;
    forall w | w in n.entries ensures w in n.pcs && BytesSafe(n, w) {
      assert BytesSafe(s, w);
      if w == e {
        LookUpStartsARequest(s, c, e);
      } else {
        LookUpIsQuiet(s, c, e, w);
        QuietKeepsBytes(s, n, w);
      }
    }
    forall d | d in n.pcs ensures FreshSafe(n, d) && BridgeSafe(n, d) {
      LookUpKeepsFresh(s, c, d);
    }
  }

  /** The request's byte reaches the worker before anything else does. */
  lemma SendMagicStartsTheStream(s: State, c: nat, e: nat, ok: bool)
    requires Is(s, c, Stored(e)) && e in s.entries && e in s.pcs && e != c && BytesSafe(s, e)
    requires c in s.entries[e].apis
    ensures var n := DoSendMagic(s, c, e, ok); e in n.entries && e in n.pcs && BytesSafe(n, e)
  {
    if |s.entries[e].apis| == 1 {
      assert s.entries[e].apis == [c];
    }
  }

  lemma SendMagicKeepsFresh(s: State, c: nat, e: nat, ok: bool, d: nat)
    requires Is(s, c, Stored(e)) && d in s.pcs && FreshSafe(s, d) && BridgeSafe(s, d)
    requires e in s.pcs && (Entered(s.pcs[e]) || s.pcs[e].WorkerDone?)
    ensures var n := DoSendMagic(s, c, e, ok); d in n.pcs && FreshSafe(n, d) && BridgeSafe(n, d)
  {
  }

  lemma AbortEndsTheRequest(s: State, c: nat, e: nat)
    requires Is(s, c, SendFailed(e)) && e in s.entries && e in s.pcs && e != c && BytesSafe(s, e)
    requires c in s.entries[e].apis
    ensures var n := DoAbort(s, c, e); e in n.entries && e in n.pcs && BytesSafe(n, e)
  {
    if |s.entries[e].apis| == 1 {
      assert s.entries[e].apis == [c];
    }
  }

  lemma AbortKeepsFresh(s: State, c: nat, e: nat, d: nat)
    requires Is(s, c, SendFailed(e)) && d in s.pcs && FreshSafe(s, d) && BridgeSafe(s, d)
    ensures var n := DoAbort(s, c, e); d in n.pcs && FreshSafe(n, d) && BridgeSafe(n, d)
  {
  }

  lemma NotifyCompletesTheRequest(s: State, c: nat, e: nat)
    requires Is(s, c, MagicSent(e)) && e in s.entries && e in s.pcs && e != c && BytesSafe(s, e)
    requires c in s.entries[e].apis
    ensures var n := DoNotify(s, c, e); e in n.entries && e in n.pcs && BytesSafe(n, e)
  {
    if |s.entries[e].apis| == 1 {
      assert s.entries[e].apis == [c];
    }
  }

  lemma NotifyKeepsFresh(s: State, c: nat, e: nat, d: nat)
    requires Is(s, c, MagicSent(e)) && d in s.pcs && FreshSafe(s, d) && BridgeSafe(s, d)
    ensures var n := DoNotify(s, c, e); d in n.pcs && FreshSafe(n, d) && BridgeSafe(n, d)
  {
  }

  /** A thread at a worker's entry is apart from every other worker's bytes. */
  ghost predicate AtEntryOf(s: State, c: nat, e: nat)
  {
    && e in s.entries && e in s.pcs && c in s.entries[e].apis && e !in s.targets
    && c in s.targets && s.targets[c] == e && c !in s.entries
    && (Entered(s.pcs[e]) || s.pcs[e].WorkerDone?)
  }

  lemma AtEntryIsOf(s: State, c: nat, e: nat)
    requires HandoffSafe(s) && c in s.pcs && AtEntry(s.pcs[c], e)
    ensures AtEntryOf(s, c, e)
  {
    assert TargetSafe(s, c) && RoleSafe(s, e);
    Apart(s, e, c);
  }

  lemma SendMagicKeepsBytes(s: State, c: nat, e: nat, ok: bool)
    requires FreshAndBytes(s) && Is(s, c, Stored(e)) && AtEntryOf(s, c, e)
    ensures FreshAndBytes(DoSendMagic(s, c, e, ok))
  {
    var n := DoSendMagic(s, c, e, ok);
    forall w | w in n.entries ensures w in n.pcs && BytesSafe(n, w) {
      assert BytesSafe(s, w);
      if w == e {
        SendMagicStartsTheStream(s, c, e, ok);
      } else {
        SendMagicIsQuiet(s, c, e, ok, w);
        QuietKeepsBytes(s, n, w);
      }
    }
    forall d | d in n.pcs ensures FreshSafe(n, d) && BridgeSafe(n, d) {
      SendMagicKeepsFresh(s, c, e, ok, d);
    }
  }

  lemma AbortKeepsBytes(s: State, c: nat, e: nat)
    requires FreshAndBytes(s) && Is(s, c, SendFailed(e)) && AtEntryOf(s, c, e)
    ensures FreshAndBytes(DoAbort(s, c, e))
  {
    var n := DoAbort(s, c, e);
    forall w | w in n.entries ensures w in n.pcs && BytesSafe(n, w) {
      assert BytesSafe(s, w);
      if w == e {
        AbortEndsTheRequest(s, c, e);
      } else {
        AbortIsQuiet(s, c, e, w);
        QuietKeepsBytes(s, n, w);
      }
    }
    forall d | d in n.pcs ensures FreshSafe(n, d) && BridgeSafe(n, d) {
      AbortKeepsFresh(s, c, e, d);
    }
  }

  lemma NotifyKeepsBytes(s: State, c: nat, e: nat)
    requires FreshAndBytes(s) && Is(s, c, MagicSent(e)) && AtEntryOf(s, c, e)
    ensures FreshAndBytes(DoNotify(s, c, e))
  {
    var n := DoNotify(s, c, e);
    forall w | w in n.entries ensures w in n.pcs && BytesSafe(n, w) {
      assert BytesSafe(s, w);
      if w == e {
        NotifyCompletesTheRequest(s, c, e);
      } else {
        NotifyIsQuiet(s, c, e, w);
        QuietKeepsBytes(s, n, w);
      }
    }
    forall d | d in n.pcs ensures FreshSafe(n, d) && BridgeSafe(n, d) {
      NotifyKeepsFresh(s, c, e, d);
    }
  }

  // ----- copying -----

  predicate Copies(a: Action)
  {
    !Arrives(a) && !Serves(a) && !Asks(a)
  }

  /** The bridge of one worker does not touch another worker's bytes. */
  lemma CopyIsQuiet(s: State, a: Action, w: nat)
    requires Enabled(s, a) && Copies(a) && w in s.entries && w in s.pcs && w != a.c && BytesSafe(s, w)
    requires a.c !in s.targets && w != s.pcs[a.c].api
    requires |s.entries[w].apis| == 1 ==> s.entries[w].apis[0] != s.pcs[a.c].api
    ensures Quiet(s, Copy(s, a), w)
  {
  }

  lemma ReceiveCarries(rx: seq<byte>, tx: seq<byte>, chunk: seq<byte>)
    requires Carries(Idle, rx, tx)
    ensures Carries(Holding(chunk), rx + chunk, tx)
  {
  }

  lemma SendCarries(rx: seq<byte>, tx: seq<byte>, rest: seq<byte>, n: nat)
    requires Carries(Holding(rest), rx, tx) && n <= |rest|
    ensures Carries(AfterForward(rest[n..]), rx, tx + rest[..n])
  {
    assert tx + rest[..n] + rest[n..] == tx + rest;
  }

  lemma StopCarries(f: Forward, rx: seq<byte>, tx: seq<byte>)
    requires Carries(f, rx, tx)
    ensures Carries(Over, rx, tx)
  {
  }

  /** A worker that is bridging has taken its one request. */
  lemma BridgingHasTaken(s: State, w: nat)
    requires w in s.entries && w in s.pcs && BytesSafe(s, w) && BridgeSafe(s, w) && s.pcs[w].Bridging?
    requires |s.entries[w].apis| <= 1
    ensures var a := s.pcs[w].api;
            && s.entries[w].apis == [a] && a in s.pcs && s.entries[w].taken == [a] && OneRequest(s, w, a)
  {
  }

  lemma ReceiveKeepsBytes(s: State, w: nat, up: bool, chunk: seq<byte>)
    requires Enabled(s, Receive(w, up, chunk)) && w in s.entries && BytesSafe(s, w) && BridgeSafe(s, w)
    requires s.pcs[w].api != w
    ensures var n := Copy(s, Receive(w, up, chunk)); w in n.entries && w in n.pcs && BytesSafe(n, w)
  {
    if |s.entries[w].apis| <= 1 {
      BridgingHasTaken(s, w);
      var wk, ak := SocketOf(s, w), SocketOf(s, s.pcs[w].api);
      if up {
        ReceiveCarries(ak.rx, wk.tx, chunk);
      } else {
        ReceiveCarries(wk.rx[1..], ak.tx, chunk);
        assert (wk.rx + chunk)[1..] == wk.rx[1..] + chunk;
      }
    }
  }

  lemma SendKeepsBytes(s: State, w: nat, up: bool, k: nat)
    requires Enabled(s, Send(w, up, k)) && w in s.entries && BytesSafe(s, w) && BridgeSafe(s, w)
    requires s.pcs[w].api != w
    ensures var n := Copy(s, Send(w, up, k)); w in n.entries && w in n.pcs && BytesSafe(n, w)
  {
    if |s.entries[w].apis| <= 1 {
      BridgingHasTaken(s, w);
      var wk, ak := SocketOf(s, w), SocketOf(s, s.pcs[w].api);
      if up {
        SendCarries(ak.rx, wk.tx, s.pcs[w].up.rest, k);
      } else {
        SendCarries(wk.rx[1..], ak.tx, s.pcs[w].down.rest, k);
      }
    }
  }

  lemma StopKeepsBytes(s: State, w: nat, up: bool)
    requires Enabled(s, Stop(w, up)) && w in s.entries && BytesSafe(s, w) && BridgeSafe(s, w)
    ensures var n := Copy(s, Stop(w, up)); w in n.entries && w in n.pcs && BytesSafe(n, w)
  {
    if |s.entries[w].apis| <= 1 {
      BridgingHasTaken(s, w);
      var wk, ak := SocketOf(s, w), SocketOf(s, s.pcs[w].api);
      if up {
        StopCarries(s.pcs[w].up, ak.rx, wk.tx);
      } else {
        StopCarries(s.pcs[w].down, wk.rx[1..], ak.tx);
      }
    }
  }

  lemma FinishKeepsBytes(s: State, w: nat)
    requires Enabled(s, Finish(w)) && w in s.entries && BytesSafe(s, w) && BridgeSafe(s, w)
    requires s.pcs[w].api != w
    ensures var n := Copy(s, Finish(w)); w in n.entries && w in n.pcs && BytesSafe(n, w)
  {
    if |s.entries[w].apis| <= 1 {
      BridgingHasTaken(s, w);
    }
  }

  lemma CopyKeepsOwnBytes(s: State, a: Action)
    requires Enabled(s, a) && Copies(a) && a.c in s.entries && BytesSafe(s, a.c) && BridgeSafe(s, a.c)
    requires s.pcs[a.c].api != a.c
    ensures var n := Copy(s, a); a.c in n.entries && a.c in n.pcs && BytesSafe(n, a.c)
  {
    match a
    case Receive(c, up, chunk) => ReceiveKeepsBytes(s, c, up, chunk);
    case Send(c, up, k) => SendKeepsBytes(s, c, up, k);
    case Stop(c, up) => StopKeepsBytes(s, c, up);
    case Finish(c) => FinishKeepsBytes(s, c);
  }

  lemma CopyKeepsFresh(s: State, a: Action, d: nat)
    requires Enabled(s, a) && Copies(a) && d in s.pcs && FreshSafe(s, d) && BridgeSafe(s, d)
    requires s.pcs[a.c].api == d ==> s.pcs[d].ApiDone? || s.pcs[d].Rejected? || AtEntry(s.pcs[d], a.c)
    ensures d in Copy(s, a).pcs && FreshSafe(Copy(s, a), d) && BridgeSafe(Copy(s, a), d)
  {
  }

  /** Request b has chosen worker w. */
  predicate OnceAt(s: State, b: nat, w: nat)
  {
    && b in s.targets && s.targets[b] == w && b in s.pcs
    && (s.pcs[b].ApiDone? || s.pcs[b].Rejected? || AtEntry(s.pcs[b], w))
  }

  lemma CopyKeepsBytes(s: State, a: Action)
    requires FreshAndBytes(s) && Enabled(s, a) && Copies(a)
    requires a.c !in s.targets && s.pcs[a.c].api !in s.entries
    requires OnceAt(s, s.pcs[a.c].api, a.c)
    ensures FreshAndBytes(Copy(s, a))
  {
    var n := Copy(s, a);
    assert BridgeSafe(s, a.c);
    forall w | w in n.entries ensures w in n.pcs && BytesSafe(n, w) {
      assert BytesSafe(s, w);
      if w == a.c {
        CopyKeepsOwnBytes(s, a);
      } else {
        CopyIsQuiet(s, a, w);
        QuietKeepsBytes(s, n, w);
      }
    }
    forall d | d in n.pcs ensures FreshSafe(n, d) && BridgeSafe(n, d) {
      CopyKeepsFresh(s, a, d);
    }
  }

  // ----- every run -----

  lemma TableHoldsEntered(s: State, p: nat)
    requires RegistrySafe(s) && p in s.workers
    ensures s.workers[p] in s.pcs && Entered(s.pcs[s.workers[p]])
  {
    assert PortSafe(s, p);
  }

  lemma AskingIsReady(s: State, c: nat)
    requires HandoffSafe(s) && Is(s, c, LookingUp)
    ensures c !in s.targets && c !in s.entries
  {
    assert TargetSafe(s, c) && RoleSafe(s, c);
  }

  lemma LookUpIsReady(s: State, c: nat)
    requires RegistrySafe(s) && HandoffSafe(s) && Is(s, c, LookingUp)
    ensures c !in s.targets && c !in s.entries
    ensures var p := SocketOf(s, c).port;
            p in s.workers ==> s.workers[p] in s.entries && s.workers[p] !in s.targets
  {
    AskingIsReady(s, c);
    var p := SocketOf(s, c).port;
    if p in s.workers {
      TableHoldsEntered(s, p);
      ServingIsReady(s, s.workers[p]);
    }
  }

  lemma AskKeepsBytes(s: State, a: Action)
    requires RegistrySafe(s) && HandoffSafe(s) && FreshAndBytes(s) && Enabled(s, a) && Asks(a)
    ensures FreshAndBytes(Ask(s, a))
  {
    var c := a.c;
    if a.LookUp? {
      LookUpIsReady(s, c);
      LookUpKeepsBytes(s, c);
    } else {
      var e := s.pcs[c].entry;
      AtEntryIsOf(s, c, e);
      match a
      case SendMagic(_, ok) => SendMagicKeepsBytes(s, c, e, ok);
      case Abort(_) => AbortKeepsBytes(s, c, e);
      case Notify(_) => NotifyKeepsBytes(s, c, e);
    }
  }

  lemma ServingIsReady(s: State, c: nat)
    requires HandoffSafe(s) && c in s.pcs && (s.pcs[c].Registering? || Entered(s.pcs[c]))
    ensures c !in s.targets && (c in s.entries <==> Entered(s.pcs[c]))
  {
    assert TargetSafe(s, c) && RoleSafe(s, c);
  }

  lemma PopIsReady(s: State, c: nat)
    requires LockSafe(s) && HandoffSafe(s) && Is(s, c, Popping)
    ensures c in s.entries && c !in s.targets
    ensures var e := s.entries[c];
            e.slot.Some? ==> e.slot.value in s.pcs && (s.pcs[e.slot.value].ApiDone? || s.pcs[e.slot.value].Rejected?)
  {
    ServingIsReady(s, c);
    assert SlotSafe(s, c);
    var slot := s.entries[c].slot;
    if slot.Some? {
      assert TargetSafe(s, slot.value);
    }
  }

  /** What a serving step relies on beside the bytes. */
  ghost predicate ServeReady(s: State, a: Action)
  {
    && a.c in s.pcs && a.c !in s.targets && (a.c in s.entries <==> Entered(s.pcs[a.c]))
    && (a.Pop? && a.c in s.entries ==>
          var e := s.entries[a.c];
          e.slot.Some? ==> e.slot.value in s.pcs && (s.pcs[e.slot.value].ApiDone? || s.pcs[e.slot.value].Rejected?))
  }

  lemma SafeIsServeReady(s: State, a: Action)
    requires LockSafe(s) && HandoffSafe(s) && Enabled(s, a) && Serves(a)
    ensures ServeReady(s, a)
  {
    ServingIsReady(s, a.c);
    if a.Pop? {
      PopIsReady(s, a.c);
    }
  }

  lemma ServeKeepsBytes(s: State, a: Action)
    requires FreshAndBytes(s) && Enabled(s, a) && Serves(a) && ServeReady(s, a)
    ensures FreshAndBytes(Serve(s, a))
  {
    match a
    case Install(c) => InstallKeepsBytes(s, c);
    case Wait(c) => WaitKeepsBytes(s, c);
    case Clean(c) => CleanKeepsBytes(s, c);
    case Pop(c) => PopKeepsBytes(s, c);
  }

  lemma BridgeIsApart(s: State, c: nat)
    requires HandoffSafe(s) && c in s.pcs && BridgeSafe(s, c) && s.pcs[c].Bridging?
    ensures c !in s.targets && c in s.entries
    ensures s.pcs[c].api !in s.entries && OnceAt(s, s.pcs[c].api, c)
  {
    assert TargetSafe(s, c) && RoleSafe(s, c) && BridgeSafe(s, c) && SlotSafe(s, c);
    var b := s.pcs[c].api;
    assert b in s.entries[c].taken;
    Apart(s, c, b);
    assert TargetSafe(s, b);
  }

  lemma NoEntryIsReading(s: State)
    requires HandoffSafe(s)
    ensures forall w :: w in s.entries ==> w in s.pcs && !s.pcs[w].Reading?
  {
    forall w | w in s.entries ensures w in s.pcs && !s.pcs[w].Reading? {
      assert RoleSafe(s, w);
    }
  }

  lemma ArrivingHasNoTarget(s: State, a: Action)
    requires HandoffSafe(s) && Enabled(s, a) && Arrives(a)
    ensures a.c !in s.targets
  {
    assert a.c in s.pcs ==> TargetSafe(s, a.c);
  }

  lemma ArrivalKeepsBytes(s: State, a: Action)
    requires SocketsSafe(s) && HandoffSafe(s) && FreshAndBytes(s) && Enabled(s, a) && Arrives(a)
    ensures FreshAndBytes(Arrive(s, a))
  {
    ArrivingHasNoTarget(s, a);
    NoEntryIsReading(s);
    ArriveKeepsBytes(s, a);
  }

  lemma BytesStep(s: State, a: Action)
    requires Safe(s) && FreshAndBytes(s) && Enabled(s, a)
    ensures FreshAndBytes(Next(s, a))
  {
    if Arrives(a) {
      ArrivalKeepsBytes(s, a);
    } else if Serves(a) {
      SafeIsServeReady(s, a);
      ServeKeepsBytes(s, a);
    } else if Asks(a) {
      AskKeepsBytes(s, a);
    } else {
      BridgeIsApart(s, a.c);
      CopyKeepsBytes(s, a);
    }
  }

  lemma BytesRun(variant: Variant, actions: seq<Action>, t: State)
    requires IsRun(Start(variant), actions, t)
    ensures Safe(t) && FreshAndBytes(t)
  {
    forall s, a | Safe(s) && FreshAndBytes(s) && Enabled(s, a) ensures Safe(Next(s, a)) && FreshAndBytes(Next(s, a)) {
      SafeStep(s, a);
      BytesStep(s, a);
    }
    RunKeeps((s: State) => Safe(s) && FreshAndBytes(s), Start(variant), actions, t);
  }

  /** Byte integrity at the relay, in both versions and for every schedule and every
      way of cutting the streams into chunks: while only one request has been stored
      at a worker, the bytes put on the worker's socket are a prefix of those taken
      from the request's, and the bytes put on the request's socket a prefix of those
      taken from the worker's after its own magic byte. */
  lemma RelayedBytesArePrefixes(variant: Variant, actions: seq<Action>, t: State, w: nat, a: nat)
    requires IsRun(Start(variant), actions, t) && w in t.entries && t.entries[w].apis == [a]
    ensures SocketOf(t, w).tx <= SocketOf(t, a).rx
    ensures SocketOf(t, w).rx != [] && SocketOf(t, a).tx <= SocketOf(t, w).rx[1..]
  {
    BytesRun(variant, actions, t);
    assert BytesSafe(t, w);
    if t.entries[w].taken != [] && t.pcs[w].Bridging? {
      StopCarries(t.pcs[w].up, SocketOf(t, a).rx, SocketOf(t, w).tx);
      StopCarries(t.pcs[w].down, SocketOf(t, w).rx[1..], SocketOf(t, a).tx);
    }
  }
}
