// Several requests on one registration, one after the other: what the looping relay
// is for. Each is stored when the bridge of the one before is over.

module RelayTurns {
  import opened Wrappers
  import opened Bytes
  import opened Relay
  import opened RelayBytes
  import opened RelayRequests

  function Flat(parts: seq<seq<byte>>): seq<byte>
  {
    if parts == [] then [] else Flat(parts[..|parts| - 1]) + parts[|parts| - 1]
  }

  lemma FlatSnoc(parts: seq<seq<byte>>, part: seq<byte>)
    ensures Flat(parts + [part]) == Flat(parts) + part
  {
    assert (parts + [part])[..|parts|] == parts;
  }

  /** The last part with more bytes at its end. */
  function Longer(parts: seq<seq<byte>>, more: seq<byte>): (r: seq<seq<byte>>)
    requires parts != []
    ensures |r| == |parts|
  {
    parts[|parts| - 1 := parts[|parts| - 1] + more]
  }

  lemma FlatLonger(parts: seq<seq<byte>>, more: seq<byte>)
    requires parts != []
    ensures Flat(Longer(parts, more)) == Flat(parts) + more
  {
    var n := |parts| - 1;
    assert Longer(parts, more)[..n] == parts[..n];
    Assoc(Flat(parts[..n]), parts[n], more);
  }

  // ----- the invariants -----

  /** The byte of a request that has been sent on and not been taken yet. */
  function PendingByte(s: State, slot: Option<nat>): seq<byte>
  {
    if slot.Some? && slot.value in s.pcs && (s.pcs[slot.value].MagicSent? || s.pcs[slot.value].ApiDone?)
    then SocketOf(s, slot.value).rx else []
  }

  predicate AwaitsItsTurn(s: State, c: nat)
  {
    && c in s.pcs && |SocketOf(s, c).rx| == 1 && SocketOf(s, c).tx == []
    && (AtSome(s.pcs[c]) || s.pcs[c].ApiDone?)
  }

  /** `ups` is what was passed to worker w in the turn of each request it has taken. */
  ghost predicate UpTurns(s: State, w: nat, ups: seq<seq<byte>>)
    requires w in s.entries && w in s.pcs
  {
    var e := s.entries[w];
    && |ups| == |e.taken|
    && SocketOf(s, w).tx == Flat(ups) + PendingByte(s, e.slot)
    && (forall i :: 0 <= i < |ups| ==> ups[i] <= SocketOf(s, e.taken[i]).rx)
    && (s.pcs[w].Bridging? ==>
          && e.slot.None? && ups != [] && s.pcs[w].api == e.taken[|ups| - 1]
          && Carries(s.pcs[w].up, SocketOf(s, s.pcs[w].api).rx, ups[|ups| - 1]))
  }

  /** `downs` is what was received from it in each of these turns. */
  ghost predicate DownTurns(s: State, w: nat, downs: seq<seq<byte>>)
    requires w in s.entries && w in s.pcs
  {
    var e, k := s.entries[w], SocketOf(s, w);
    && |downs| == |e.taken| && |k.rx| >= 1
    && Flat(downs) == k.rx[1..]
    && (forall i :: 0 <= i < |downs| ==> SocketOf(s, e.taken[i]).tx <= downs[i])
    && (e.slot.Some? ==> AwaitsItsTurn(s, e.slot.value))
    && (s.pcs[w].Bridging? ==>
          && downs != [] && s.pcs[w].api == e.taken[|downs| - 1]
          && Carries(s.pcs[w].down, downs[|downs| - 1], SocketOf(s, s.pcs[w].api).tx))
  }

  // ----- steps that do not concern w -----

  ghost predicate Untouched(s: State, n: State, w: nat)
    requires w in s.entries && w in s.pcs
  {
    && w in n.entries && w in n.pcs && n.entries[w] == s.entries[w]
    && (n.pcs[w] == s.pcs[w] || (!s.pcs[w].Bridging? && !n.pcs[w].Bridging?))
    && SameBytes(s, n, w)
    && (forall i :: 0 <= i < |s.entries[w].taken| ==> SameBytes(s, n, s.entries[w].taken[i]))
    && (s.entries[w].slot.Some? ==>
          var c := s.entries[w].slot.value;
          c in s.pcs && c in n.pcs && n.pcs[c] == s.pcs[c] && SameBytes(s, n, c))
  }

  lemma UntouchedKeepsUp(s: State, n: State, w: nat, ups: seq<seq<byte>>)
    requires w in s.entries && w in s.pcs && UpTurns(s, w, ups) && Untouched(s, n, w)
    ensures UpTurns(n, w, ups)
  {
  }

  lemma UntouchedKeepsDown(s: State, n: State, w: nat, downs: seq<seq<byte>>)
    requires w in s.entries && w in s.pcs && DownTurns(s, w, downs) && Untouched(s, n, w)
    ensures DownTurns(n, w, downs)
  {
  }

  /** w has an entry, and the requests at it are no workers and have it as target. */
  ghost predicate AtWorker(s: State, w: nat)
  {
    && w in s.entries && w in s.pcs && w !in s.targets && !s.pcs[w].Reading? && !s.pcs[w].EnterWorker?
      && !s.pcs[w].Registering?
    && (forall i :: 0 <= i < |s.entries[w].taken| ==>
          var a := s.entries[w].taken[i]; a in s.targets && s.targets[a] == w && a !in s.entries)
    && (s.entries[w].slot.Some? ==>
          var c := s.entries[w].slot.value; c in s.pcs && c in s.targets && s.targets[c] == w && c !in s.entries)
  }

  lemma TakenAreApart(s: State, w: nat, i: nat)
    requires HandoffSafe(s) && w in s.entries && i < |s.entries[w].taken|
    ensures var a := s.entries[w].taken[i]; a in s.targets && s.targets[a] == w && a !in s.entries
  {
    assert SlotSafe(s, w) && s.entries[w].taken[i] in s.entries[w].taken;
    Apart(s, w, s.entries[w].taken[i]);
  }

  lemma SlotIsApart(s: State, w: nat)
    requires HandoffSafe(s) && w in s.entries && s.entries[w].slot.Some?
    ensures var c := s.entries[w].slot.value; c in s.pcs && c in s.targets && s.targets[c] == w && c !in s.entries
  {
    assert SlotSafe(s, w);
    Apart(s, w, s.entries[w].slot.value);
  }

  lemma WorkerItself(s: State, w: nat)
    requires HandoffSafe(s) && w in s.entries
    ensures w in s.pcs && w !in s.targets && !s.pcs[w].Reading? && !s.pcs[w].EnterWorker? && !s.pcs[w].Registering?
  {
    assert RoleSafe(s, w) && TargetSafe(s, w);
  }

  lemma WorkersAreAtWorker(s: State, w: nat)
    requires HandoffSafe(s) && w in s.entries
    ensures AtWorker(s, w)
  {
    WorkerItself(s, w);
    forall i | 0 <= i < |s.entries[w].taken|
      ensures var a := s.entries[w].taken[i]; a in s.targets && s.targets[a] == w && a !in s.entries
    {
      TakenAreApart(s, w, i);
    }
    if s.entries[w].slot.Some? {
      SlotIsApart(s, w);
    }
  }

  lemma ArrivingLeavesAlone(s: State, a: Action, w: nat)
    requires Enabled(s, a) && Arrives(a) && SocketsSafe(s) && AtWorker(s, w) && a.c !in s.targets
    requires s.targets.Keys <= s.pcs.Keys
    ensures Untouched(s, Arrive(s, a), w)
  {
  }

  lemma InstallLeavesAlone(s: State, c: nat, w: nat)
    requires Is(s, c, Registering) && AtWorker(s, w) && c !in s.targets
    ensures Untouched(s, DoInstall(s, c), w)
  {
  }

  lemma WaitLeavesAlone(s: State, c: nat, w: nat)
    requires Is(s, c, Armed) && AtWorker(s, w) && c !in s.targets
    ensures Untouched(s, DoWait(s, c), w)
  {
  }

  lemma PopLeavesAlone(s: State, c: nat, w: nat)
    requires Is(s, c, Popping) && AtWorker(s, w) && c !in s.targets && c != w
    ensures Untouched(s, DoPop(s, c), w)
  {
  }

  lemma CleanLeavesAlone(s: State, c: nat, w: nat)
    requires Is(s, c, Cleaning) && AtWorker(s, w) && c !in s.targets
    ensures Untouched(s, DoClean(s, c), w)
  {
  }

  lemma LookUpLeavesAlone(s: State, c: nat, w: nat)
    requires Is(s, c, LookingUp) && AtWorker(s, w) && c !in s.targets
    requires var p := SocketOf(s, c).port; p in s.workers ==> s.workers[p] != w && s.workers[p] !in s.targets
    ensures Untouched(s, DoLookUp(s, c), w)
  {
  }

  lemma SendLeavesAlone(s: State, c: nat, e: nat, ok: bool, w: nat)
    requires Is(s, c, Stored(e)) && AtWorker(s, w) && e != w && c in s.targets && s.targets[c] == e && e in s.entries
    ensures Untouched(s, DoSendMagic(s, c, e, ok), w)
  {
  }

  lemma AbortLeavesAlone(s: State, c: nat, e: nat, w: nat)
    requires Is(s, c, SendFailed(e)) && AtWorker(s, w) && e != w && c in s.targets && s.targets[c] == e
    ensures Untouched(s, DoAbort(s, c, e), w)
  {
  }

  lemma NotifyLeavesAlone(s: State, c: nat, e: nat, w: nat)
    requires Is(s, c, MagicSent(e)) && AtWorker(s, w) && e != w && c in s.targets && s.targets[c] == e
    requires e !in s.targets
    ensures Untouched(s, DoNotify(s, c, e), w)
  {
  }

  lemma CopyLeavesAlone(s: State, a: Action, w: nat)
    requires Enabled(s, a) && Copies(a) && AtWorker(s, w) && a.c != w && a.c in s.entries && a.c !in s.targets
    requires var b := s.pcs[a.c].api; b in s.targets && s.targets[b] == a.c && b !in s.entries
    ensures Untouched(s, Copy(s, a), w)
  {
  }

  // ----- what is passed to w -----

  /** A stored request waits without a byte sent. */
  lemma LookUpKeepsUp(s: State, c: nat, w: nat, ups: seq<seq<byte>>)
    requires Is(s, c, LookingUp) && AtWorker(s, w) && UpTurns(s, w, ups)
    requires c !in s.targets && c != w && s.entries[w].slot.None? && !s.pcs[w].Bridging?
    requires var p := SocketOf(s, c).port; p in s.workers && s.workers[p] == w
    ensures var n := DoLookUp(s, c); w in n.entries && w in n.pcs && UpTurns(n, w, ups)
  {
  }

  lemma SendKeepsUp(s: State, c: nat, w: nat, ok: bool, ups: seq<seq<byte>>)
    requires Is(s, c, Stored(w)) && AtWorker(s, w) && UpTurns(s, w, ups)
    requires c in s.targets && c != w && s.entries[w].slot == Some(c)
    ensures var n := DoSendMagic(s, c, w, ok); w in n.entries && w in n.pcs && UpTurns(n, w, ups)
  {
    assert Flat(ups) + [] == Flat(ups);
  }

  lemma AbortKeepsUp(s: State, c: nat, w: nat, ups: seq<seq<byte>>)
    requires Is(s, c, SendFailed(w)) && AtWorker(s, w) && UpTurns(s, w, ups)
    requires c in s.targets && c != w && s.entries[w].slot == Some(c)
    ensures var n := DoAbort(s, c, w); w in n.entries && w in n.pcs && UpTurns(n, w, ups)
  {
  }

  lemma NotifyKeepsUp(s: State, c: nat, w: nat, ups: seq<seq<byte>>)
    requires Is(s, c, MagicSent(w)) && AtWorker(s, w) && UpTurns(s, w, ups)
    requires c in s.targets && c != w && s.entries[w].slot == Some(c)
    ensures var n := DoNotify(s, c, w); w in n.entries && w in n.pcs && UpTurns(n, w, ups)
  {
  }

  /** Taking a request starts its turn with its first byte. */
  lemma PopStartsUp(s: State, w: nat, ups: seq<seq<byte>>) returns (u: seq<seq<byte>>)
    requires Is(s, w, Popping) && AtWorker(s, w) && UpTurns(s, w, ups)
    requires s.entries[w].slot.Some? ==> s.pcs[s.entries[w].slot.value].ApiDone?
    ensures var n := DoPop(s, w); w in n.entries && w in n.pcs && UpTurns(n, w, u)
  {
    u := ups;
    if s.entries[w].slot.Some? {
      var rx := SocketOf(s, s.entries[w].slot.value).rx;
      u := ups + [rx];
      FlatSnoc(ups, rx);
    }
  }

  lemma ReceiveKeepsUp(s: State, w: nat, up: bool, chunk: seq<byte>, ups: seq<seq<byte>>)
    requires AtWorker(s, w) && UpTurns(s, w, ups) && Enabled(s, Receive(w, up, chunk))
    ensures var n := Copy(s, Receive(w, up, chunk)); w in n.entries && w in n.pcs && UpTurns(n, w, ups)
  {
    if up {
      ReceiveCarries(SocketOf(s, s.pcs[w].api).rx, ups[|ups| - 1], chunk);
    }
  }

  lemma SendUpLengthens(s: State, w: nat, k: nat, ups: seq<seq<byte>>) returns (u: seq<seq<byte>>)
    requires AtWorker(s, w) && UpTurns(s, w, ups) && Enabled(s, Send(w, true, k))
    ensures var n := Copy(s, Send(w, true, k)); w in n.entries && w in n.pcs && UpTurns(n, w, u)
  {
    var rx, data := SocketOf(s, s.pcs[w].api).rx, s.pcs[w].up.rest;
    u := Longer(ups, data[..k]);
    SendCarries(rx, ups[|ups| - 1], data, k);
    StopCarries(AfterForward(data[k..]), rx, ups[|ups| - 1] + data[..k]);
    FlatLonger(ups, data[..k]);
    assert Flat(ups) + [] == Flat(ups);
  }

  lemma SendDownKeepsUp(s: State, w: nat, k: nat, ups: seq<seq<byte>>)
    requires AtWorker(s, w) && UpTurns(s, w, ups) && Enabled(s, Send(w, false, k))
    ensures var n := Copy(s, Send(w, false, k)); w in n.entries && w in n.pcs && UpTurns(n, w, ups)
  {
  }

  lemma StopKeepsUp(s: State, w: nat, up: bool, ups: seq<seq<byte>>)
    requires AtWorker(s, w) && UpTurns(s, w, ups) && Enabled(s, Stop(w, up))
    ensures var n := Copy(s, Stop(w, up)); w in n.entries && w in n.pcs && UpTurns(n, w, ups)
  {
    StopCarries(s.pcs[w].up, SocketOf(s, s.pcs[w].api).rx, ups[|ups| - 1]);
  }

  lemma FinishKeepsUp(s: State, w: nat, ups: seq<seq<byte>>)
    requires AtWorker(s, w) && UpTurns(s, w, ups) && Enabled(s, Finish(w))
    ensures var n := Copy(s, Finish(w)); w in n.entries && w in n.pcs && UpTurns(n, w, ups)
  {
  }

  // ----- what is received from w -----

  lemma InstallStartsTurns(s: State, w: nat)
    requires Is(s, w, Registering) && FreshSafe(s, w)
    ensures w in DoInstall(s, w).entries && w in DoInstall(s, w).pcs
    ensures UpTurns(DoInstall(s, w), w, []) && DownTurns(DoInstall(s, w), w, [])
  {
  }

  lemma LookUpKeepsDown(s: State, c: nat, w: nat, downs: seq<seq<byte>>)
    requires Is(s, c, LookingUp) && FreshSafe(s, c) && AtWorker(s, w) && DownTurns(s, w, downs)
    requires c !in s.targets && c != w
    requires var p := SocketOf(s, c).port; p in s.workers && s.workers[p] == w
    ensures var n := DoLookUp(s, c); w in n.entries && w in n.pcs && DownTurns(n, w, downs)
  {
  }

  lemma SendKeepsDown(s: State, c: nat, w: nat, ok: bool, downs: seq<seq<byte>>)
    requires Is(s, c, Stored(w)) && AtWorker(s, w) && DownTurns(s, w, downs) && c in s.targets && c != w
    ensures var n := DoSendMagic(s, c, w, ok); w in n.entries && w in n.pcs && DownTurns(n, w, downs)
  {
  }

  lemma AbortKeepsDown(s: State, c: nat, w: nat, downs: seq<seq<byte>>)
    requires Is(s, c, SendFailed(w)) && AtWorker(s, w) && DownTurns(s, w, downs) && c in s.targets && c != w
    ensures var n := DoAbort(s, c, w); w in n.entries && w in n.pcs && DownTurns(n, w, downs)
  {
  }

  lemma NotifyKeepsDown(s: State, c: nat, w: nat, downs: seq<seq<byte>>)
    requires Is(s, c, MagicSent(w)) && AtWorker(s, w) && DownTurns(s, w, downs) && c in s.targets && c != w
    ensures var n := DoNotify(s, c, w); w in n.entries && w in n.pcs && DownTurns(n, w, downs)
  {
  }

  lemma PopStartsDown(s: State, w: nat, downs: seq<seq<byte>>) returns (d: seq<seq<byte>>)
    requires Is(s, w, Popping) && AtWorker(s, w) && DownTurns(s, w, downs)
    ensures var n := DoPop(s, w); w in n.entries && w in n.pcs && DownTurns(n, w, d)
  {
    d := downs;
    if s.entries[w].slot.Some? {
      d := downs + [[]];
      FlatSnoc(downs, []);
    }
  }

  /** The requests at a worker are different ones. */
  ghost predicate Distinct(e: Entry)
  {
    && (forall i, j :: 0 <= i < j < |e.taken| ==> e.taken[i] != e.taken[j])
    && (e.slot.Some? ==> e.slot.value !in e.taken)
  }

  lemma AfterTheFirst(rx: seq<byte>, chunk: seq<byte>)
    requires rx != []
    ensures (rx + chunk)[1..] == rx[1..] + chunk
  {
  }

  lemma ReceiveUpKeepsDown(s: State, w: nat, chunk: seq<byte>, downs: seq<seq<byte>>)
    requires AtWorker(s, w) && DownTurns(s, w, downs) && Distinct(s.entries[w]) && Enabled(s, Receive(w, true, chunk))
    ensures var n := Copy(s, Receive(w, true, chunk)); w in n.entries && w in n.pcs && DownTurns(n, w, downs)
  {
    assert s.pcs[w].api in s.entries[w].taken;
  }

  lemma ReceiveDownLengthens(s: State, w: nat, chunk: seq<byte>, downs: seq<seq<byte>>) returns (d: seq<seq<byte>>)
    requires AtWorker(s, w) && DownTurns(s, w, downs) && Enabled(s, Receive(w, false, chunk))
    ensures var n := Copy(s, Receive(w, false, chunk)); w in n.entries && w in n.pcs && DownTurns(n, w, d)
  {
    d := Longer(downs, chunk);
    ReceiveCarries(downs[|downs| - 1], SocketOf(s, s.pcs[w].api).tx, chunk);
    FlatLonger(downs, chunk);
    AfterTheFirst(SocketOf(s, w).rx, chunk);
  }

  lemma SendUpKeepsDown(s: State, w: nat, k: nat, downs: seq<seq<byte>>)
    requires AtWorker(s, w) && DownTurns(s, w, downs) && Enabled(s, Send(w, true, k))
    ensures var n := Copy(s, Send(w, true, k)); w in n.entries && w in n.pcs && DownTurns(n, w, downs)
  {
  }

  lemma SendDownKeepsDown(s: State, w: nat, k: nat, downs: seq<seq<byte>>)
    requires AtWorker(s, w) && DownTurns(s, w, downs) && Distinct(s.entries[w]) && Enabled(s, Send(w, false, k))
    ensures var n := Copy(s, Send(w, false, k)); w in n.entries && w in n.pcs && DownTurns(n, w, downs)
  {
    var tx, data := SocketOf(s, s.pcs[w].api).tx, s.pcs[w].down.rest;
    assert s.pcs[w].api in s.entries[w].taken;
    SendCarries(downs[|downs| - 1], tx, data, k);
    StopCarries(AfterForward(data[k..]), downs[|downs| - 1], tx + data[..k]);
  }

  lemma StopKeepsDown(s: State, w: nat, up: bool, downs: seq<seq<byte>>)
    requires AtWorker(s, w) && DownTurns(s, w, downs) && Enabled(s, Stop(w, up))
    ensures var n := Copy(s, Stop(w, up)); w in n.entries && w in n.pcs && DownTurns(n, w, downs)
  {
    StopCarries(s.pcs[w].down, downs[|downs| - 1], SocketOf(s, s.pcs[w].api).tx);
  }

  lemma FinishKeepsDown(s: State, w: nat, downs: seq<seq<byte>>)
    requires AtWorker(s, w) && DownTurns(s, w, downs) && Enabled(s, Finish(w))
    ensures var n := Copy(s, Finish(w)); w in n.entries && w in n.pcs && DownTurns(n, w, downs)
  {
  }

  // ----- one step -----

  lemma ServingLeavesAlone(s: State, a: Action, w: nat)
    requires Enabled(s, a) && Serves(a) && ServeReady(s, a) && AtWorker(s, w) && !(a.Pop? && a.c == w)
    ensures Untouched(s, Serve(s, a), w)
  {
    match a
    case Install(c) => InstallLeavesAlone(s, c, w);
    case Wait(c) => WaitLeavesAlone(s, c, w);
    case Pop(c) => PopLeavesAlone(s, c, w);
    case Clean(c) => CleanLeavesAlone(s, c, w);
  }

  /** A popping worker finds a request that has been notified, or none. */
  lemma PoppedIsDone(s: State, w: nat)
    requires LockSafe(s) && HandoffSafe(s) && Is(s, w, Popping) && AtWorker(s, w) && s.entries[w].slot.Some?
             && AwaitsItsTurn(s, s.entries[w].slot.value)
    ensures s.pcs[s.entries[w].slot.value].ApiDone?
  {
    PopIsReady(s, w);
  }

  lemma ServingUp(s: State, a: Action, w: nat, ups: seq<seq<byte>>) returns (u: seq<seq<byte>>)
    requires LockSafe(s) && HandoffSafe(s) && Enabled(s, a) && Serves(a) && AtWorker(s, w) && UpTurns(s, w, ups)
    requires s.entries[w].slot.Some? ==> AwaitsItsTurn(s, s.entries[w].slot.value)
    ensures w in Serve(s, a).entries && w in Serve(s, a).pcs && UpTurns(Serve(s, a), w, u)
  {
    if a.Pop? && a.c == w {
      if s.entries[w].slot.Some? {
        PoppedIsDone(s, w);
      }
      u := PopStartsUp(s, w, ups);
    } else {
      u := ups;
      SafeIsServeReady(s, a);
      ServingLeavesAlone(s, a, w);
      UntouchedKeepsUp(s, Serve(s, a), w, ups);
    }
  }

  lemma ServingDown(s: State, a: Action, w: nat, downs: seq<seq<byte>>) returns (d: seq<seq<byte>>)
    requires LockSafe(s) && HandoffSafe(s) && Enabled(s, a) && Serves(a) && AtWorker(s, w) && DownTurns(s, w, downs)
    ensures w in Serve(s, a).entries && w in Serve(s, a).pcs && DownTurns(Serve(s, a), w, d)
  {
    if a.Pop? && a.c == w {
      d := PopStartsDown(s, w, downs);
    } else {
      d := downs;
      SafeIsServeReady(s, a);
      ServingLeavesAlone(s, a, w);
      UntouchedKeepsDown(s, Serve(s, a), w, downs);
    }
  }

  /** A request looking up has touched nothing; one that has found its worker is in
      its slot. */
  ghost predicate AskerSafe(s: State, a: Action)
  {
    && a.c in s.pcs && a.c !in s.entries
    && (if a.LookUp? then
          && a.c !in s.targets && FreshSafe(s, a.c)
          && (var p := SocketOf(s, a.c).port; p in s.workers ==> s.workers[p] !in s.targets)
        else
          AtSome(s.pcs[a.c])
          && (var e := s.pcs[a.c].entry;
              && a.c in s.targets && s.targets[a.c] == e && e in s.entries && e !in s.targets
              && EntryOf(s, e).slot == Some(a.c)))
  }

  lemma SenderIsApart(s: State, a: Action)
    requires HandoffSafe(s) && Enabled(s, a) && Asks(a) && !a.LookUp? && HolderSafe(s, a.c)
    ensures AskerSafe(s, a)
  {
    AtItsTarget(s, a.c);
    Apart(s, s.pcs[a.c].entry, a.c);
  }

  lemma AskerIsApart(s: State, a: Action)
    requires Handed(s) && Enabled(s, a) && Asks(a)
    ensures AskerSafe(s, a)
  {
    if a.LookUp? {
      LookUpIsReady(s, a.c);
    } else {
      SenderIsApart(s, a);
    }
  }

  /** The worker a request step is about, if any. */
  predicate AsksOf(s: State, a: Action, w: nat)
    requires Enabled(s, a) && Asks(a)
  {
    if a.LookUp? then var p := SocketOf(s, a.c).port; p in s.workers && s.workers[p] == w
    else s.pcs[a.c].entry == w
  }

  lemma AskingLeavesAlone(s: State, a: Action, w: nat)
    requires Enabled(s, a) && Asks(a) && AskerSafe(s, a) && AtWorker(s, w) && !AsksOf(s, a, w)
    ensures Untouched(s, Ask(s, a), w)
  {
    match a
    case LookUp(c) => LookUpLeavesAlone(s, c, w);
    case SendMagic(c, ok) => SendLeavesAlone(s, c, s.pcs[c].entry, ok, w);
    case Abort(c) => AbortLeavesAlone(s, c, s.pcs[c].entry, w);
    case Notify(c) => NotifyLeavesAlone(s, c, s.pcs[c].entry, w);
  }

  /** A request comes to w only when the slot is empty and no bridge is open. */
  predicate InGoodTime(s: State, a: Action, w: nat)
  {
    a.LookUp? && w in s.pcs ==>
      var p := SocketOf(s, a.c).port;
      p in s.workers && s.workers[p] == w ==> EntryOf(s, w).slot.None? && !s.pcs[w].Bridging?
  }

  lemma AskingUp(s: State, a: Action, w: nat, ups: seq<seq<byte>>)
    requires Enabled(s, a) && Asks(a) && AskerSafe(s, a) && InGoodTime(s, a, w) && AtWorker(s, w) && UpTurns(s, w, ups)
    ensures w in Ask(s, a).entries && w in Ask(s, a).pcs && UpTurns(Ask(s, a), w, ups)
  {
    if AsksOf(s, a, w) {
      match a
      case LookUp(c) => LookUpKeepsUp(s, c, w, ups);
      case SendMagic(c, ok) => SendKeepsUp(s, c, w, ok, ups);
      case Abort(c) => AbortKeepsUp(s, c, w, ups);
      case Notify(c) => NotifyKeepsUp(s, c, w, ups);
    } else {
      AskingLeavesAlone(s, a, w);
      UntouchedKeepsUp(s, Ask(s, a), w, ups);
    }
  }

  lemma AskingDown(s: State, a: Action, w: nat, downs: seq<seq<byte>>)
    requires Enabled(s, a) && Asks(a) && AskerSafe(s, a) && AtWorker(s, w) && DownTurns(s, w, downs)
    ensures w in Ask(s, a).entries && w in Ask(s, a).pcs && DownTurns(Ask(s, a), w, downs)
  {
    if AsksOf(s, a, w) {
      match a
      case LookUp(c) => LookUpKeepsDown(s, c, w, downs);
      case SendMagic(c, ok) => SendKeepsDown(s, c, w, ok, downs);
      case Abort(c) => AbortKeepsDown(s, c, w, downs);
      case Notify(c) => NotifyKeepsDown(s, c, w, downs);
    } else {
      AskingLeavesAlone(s, a, w);
      UntouchedKeepsDown(s, Ask(s, a), w, downs);
    }
  }

  lemma CopyingElsewhere(s: State, a: Action, w: nat)
    requires HandoffSafe(s) && Enabled(s, a) && Copies(a) && BridgeSafe(s, a.c) && a.c != w && AtWorker(s, w)
    ensures Untouched(s, Copy(s, a), w)
  {
    BridgeIsApart(s, a.c);
    CopyLeavesAlone(s, a, w);
  }

  lemma CopyingUp(s: State, a: Action, w: nat, ups: seq<seq<byte>>) returns (u: seq<seq<byte>>)
    requires HandoffSafe(s) && Enabled(s, a) && Copies(a) && BridgeSafe(s, a.c) && AtWorker(s, w) && UpTurns(s, w, ups)
    ensures w in Copy(s, a).entries && w in Copy(s, a).pcs && UpTurns(Copy(s, a), w, u)
  {
    u := ups;
    if a.c != w {
      CopyingElsewhere(s, a, w);
      UntouchedKeepsUp(s, Copy(s, a), w, ups);
    } else {
      match a
      case Receive(_, up, chunk) => ReceiveKeepsUp(s, w, up, chunk, ups);
      case Send(_, up, k) =>
        if up {
          u := SendUpLengthens(s, w, k, ups);
        } else {
          SendDownKeepsUp(s, w, k, ups);
        }
      case Stop(_, up) => StopKeepsUp(s, w, up, ups);
      case Finish(_) => FinishKeepsUp(s, w, ups);
    }
  }

  lemma CopyingDown(s: State, a: Action, w: nat, downs: seq<seq<byte>>) returns (d: seq<seq<byte>>)
    requires HandoffSafe(s) && Enabled(s, a) && Copies(a) && BridgeSafe(s, a.c)
    requires AtWorker(s, w) && Distinct(s.entries[w]) && DownTurns(s, w, downs)
    ensures w in Copy(s, a).entries && w in Copy(s, a).pcs && DownTurns(Copy(s, a), w, d)
  {
    d := downs;
    if a.c != w {
      CopyingElsewhere(s, a, w);
      UntouchedKeepsDown(s, Copy(s, a), w, downs);
    } else {
      match a
      case Receive(_, up, chunk) =>
        if up {
          ReceiveUpKeepsDown(s, w, chunk, downs);
        } else {
          d := ReceiveDownLengthens(s, w, chunk, downs);
        }
      case Send(_, up, k) =>
        if up {
          SendUpKeepsDown(s, w, k, downs);
        } else {
          SendDownKeepsDown(s, w, k, downs);
        }
      case Stop(_, up) => StopKeepsDown(s, w, up, downs);
      case Finish(_) => FinishKeepsDown(s, w, downs);
    }
  }

  lemma ArrivingElsewhere(s: State, a: Action, w: nat)
    requires SocketsSafe(s) && HandoffSafe(s) && Enabled(s, a) && Arrives(a) && AtWorker(s, w)
    ensures Untouched(s, Arrive(s, a), w)
  {
    ArrivingHasNoTarget(s, a);
    ArrivingLeavesAlone(s, a, w);
  }

  lemma UpStep(s: State, a: Action, w: nat, ups: seq<seq<byte>>) returns (u: seq<seq<byte>>)
    requires Handed(s) && Enabled(s, a) && InGoodTime(s, a, w) && w in s.entries && w in s.pcs && UpTurns(s, w, ups)
    requires s.entries[w].slot.Some? ==> AwaitsItsTurn(s, s.entries[w].slot.value)
    ensures w in Next(s, a).entries && w in Next(s, a).pcs && UpTurns(Next(s, a), w, u)
  {
    u := ups;
    WorkersAreAtWorker(s, w);
    if Arrives(a) {
      ArrivingElsewhere(s, a, w);
      UntouchedKeepsUp(s, Arrive(s, a), w, ups);
    } else if Serves(a) {
      u := ServingUp(s, a, w, ups);
    } else if Asks(a) {
      AskerIsApart(s, a);
      AskingUp(s, a, w, ups);
    } else {
      u := CopyingUp(s, a, w, ups);
    }
  }

  lemma DownStep(s: State, a: Action, w: nat, downs: seq<seq<byte>>) returns (d: seq<seq<byte>>)
    requires Handed(s) && Enabled(s, a) && w in s.entries && w in s.pcs && DownTurns(s, w, downs)
    ensures w in Next(s, a).entries && w in Next(s, a).pcs && DownTurns(Next(s, a), w, d)
  {
    d := downs;
    WorkersAreAtWorker(s, w);
    if Arrives(a) {
      ArrivingElsewhere(s, a, w);
      UntouchedKeepsDown(s, Arrive(s, a), w, downs);
    } else if Serves(a) {
      d := ServingDown(s, a, w, downs);
    } else if Asks(a) {
      AskerIsApart(s, a);
      AskingDown(s, a, w, downs);
    } else {
      assert SlotSafe(s, w);
      d := CopyingDown(s, a, w, downs);
    }
  }

  // ----- every run -----

  lemma OnlyInstallAddsEntries(s: State, a: Action, w: nat)
    requires Safe(s) && Enabled(s, a) && w in Next(s, a).entries && w !in s.entries
    ensures a == Install(w)
  {
    if Serves(a) {
      SafeIsServeReady(s, a);
      ServingAddsItsEntry(s, a);
    } else if Asks(a) {
      SafeIsAskReady(s, a);
      AskingAddsNoEntries(s, a);
    } else {
      OthersAddNoEntries(s, a);
    }
  }

  ghost predicate Downs(s: State, w: nat, downs: seq<seq<byte>>)
  {
    w in s.entries ==> w in s.pcs && DownTurns(s, w, downs)
  }

  ghost predicate Ups(s: State, w: nat, ups: seq<seq<byte>>)
  {
    w in s.entries ==> w in s.pcs && UpTurns(s, w, ups)
  }

  lemma TurnsBegin(s: State, a: Action, w: nat)
    requires Handed(s) && Enabled(s, a) && w !in s.entries
    ensures Downs(Next(s, a), w, []) && Ups(Next(s, a), w, [])
  {
    if w in Next(s, a).entries {
      OnlyInstallAddsEntries(s, a, w);
      assert FreshSafe(s, w);
      InstallStartsTurns(s, w);
    }
  }

  lemma DownsStep(s: State, a: Action, w: nat, downs: seq<seq<byte>>) returns (d: seq<seq<byte>>)
    requires Handed(s) && Enabled(s, a) && Downs(s, w, downs)
    ensures Downs(Next(s, a), w, d)
  {
    if w in s.entries {
      d := DownStep(s, a, w, downs);
    } else {
      d := [];
      TurnsBegin(s, a, w);
    }
  }

  lemma UpsStep(s: State, a: Action, w: nat, ups: seq<seq<byte>>, downs: seq<seq<byte>>) returns (u: seq<seq<byte>>)
    requires Handed(s) && Enabled(s, a) && InGoodTime(s, a, w) && Ups(s, w, ups) && Downs(s, w, downs)
    ensures Ups(Next(s, a), w, u)
  {
    if w in s.entries {
      u := UpStep(s, a, w, ups);
    } else {
      u := [];
      TurnsBegin(s, a, w);
    }
  }

  lemma {:induction false} DownsRun(s: State, actions: seq<Action>, t: State, w: nat, downs: seq<seq<byte>>)
    returns (d: seq<seq<byte>>)
    requires Handed(s) && IsRun(s, actions, t) && Downs(s, w, downs)
    ensures Downs(t, w, d)
    decreases |actions|
  {
    d := downs;
    if actions != [] {
      d := DownsStep(s, actions[0], w, downs);
      HandedStep(s, actions[0]);
      d := DownsRun(Next(s, actions[0]), actions[1..], t, w, d);
    }
  }

  ghost predicate OrderlyRun(s: State, actions: seq<Action>, w: nat)
    decreases |actions|
  {
    actions == [] || (Enabled(s, actions[0]) && InGoodTime(s, actions[0], w)
      && OrderlyRun(Next(s, actions[0]), actions[1..], w))
  }

  lemma {:induction false} UpsRun(s: State, actions: seq<Action>, t: State, w: nat, ups: seq<seq<byte>>,
                                  downs: seq<seq<byte>>)
    returns (u: seq<seq<byte>>)
    requires Handed(s) && IsRun(s, actions, t) && OrderlyRun(s, actions, w) && Ups(s, w, ups) && Downs(s, w, downs)
    ensures Ups(t, w, u)
    decreases |actions|
  {
    u := ups;
    if actions != [] {
      u := UpsStep(s, actions[0], w, ups, downs);
      var d := DownsStep(s, actions[0], w, downs);
      HandedStep(s, actions[0]);
      u := UpsRun(Next(s, actions[0]), actions[1..], t, w, u, d);
    }
  }

  /** The way back, in every run of both relays, whatever requests come and when: what
      worker w sends after its magic byte falls into one part for each request it has
      taken, in order, and each client is sent a prefix of its own part. */
  lemma RepliesAreNeverMixed(variant: Variant, actions: seq<Action>, t: State, w: nat)
    returns (downs: seq<seq<byte>>)
    requires IsRun(Start(variant), actions, t) && w in t.entries
    ensures var taken := t.entries[w].taken;
            && |downs| == |taken|
            && SocketOf(t, w).rx != [] && SocketOf(t, w).rx[1..] == Flat(downs)
            && forall i :: 0 <= i < |taken| ==> SocketOf(t, taken[i]).tx <= downs[i]
  {
    downs := DownsRun(Start(variant), actions, t, w, []);
  }

  /** What w has been sent is one part for each request it has taken, in order, each a
      prefix of what that client sent, and the first byte of a request still waiting. */
  ghost predicate ServedInTurn(t: State, w: nat)
  {
    exists ups :: InTurn(t, w, ups)
  }

  ghost predicate InTurn(t: State, w: nat, ups: seq<seq<byte>>)
  {
    var e := EntryOf(t, w);
    && |ups| == |e.taken|
    && SocketOf(t, w).tx == Flat(ups) + PendingByte(t, e.slot)
    && forall i :: 0 <= i < |ups| ==> ups[i] <= SocketOf(t, e.taken[i]).rx
  }

  /** The way there, over many requests: in every run of both relays in which each
      request comes to worker w after the bridge of the one before. */
  lemma RequestsAreServedInTurn(variant: Variant, actions: seq<Action>, t: State, w: nat)
    requires IsRun(Start(variant), actions, t) && OrderlyRun(Start(variant), actions, w) && w in t.entries
    ensures ServedInTurn(t, w)
  {
    var ups := UpsRun(Start(variant), actions, t, w, [], []);
    assert InTurn(t, w, ups);
  }
}
