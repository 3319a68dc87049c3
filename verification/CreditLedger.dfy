// Credits under concurrent requests: admission reads a key and the pool, and
// settlement is separate atomic actions on the pool, the registry and the key.

module CreditLedger {
  import opened Wrappers
  import opened Workers
  import opened Registry
  import opened RegistryRuns
  import opened ApiKeys

  /** Where one request of the completion endpoint is. A request is on `key` from
      the moment the key is validated until it has been settled or has failed. */
  datatype Request =
    | Validated(key: string)
    | Admitted(key: string)
    | Charged(key: string)
    | Granting(key: string, superId: Option<string>)
    | Granted(key: string)

  /** What happened on one key: top-ups and their sum, settlements that deducted a
      credit and settlements that did not. */
  datatype Record = Record(topUps: nat, added: nat, billed: nat, unbilled: nat)

  datatype Ledger = Ledger(
    swarm: Swarm, pool: u64, keys: KeyMap, requests: map<nat, Request>,
    decrements: nat, poolAdded: nat, grants: nat, grantsTo: map<string, nat>,
    records: map<string, Record>)

  datatype Action =
    | Validate(req: nat, key: string)
    | CheckPool(req: nat)
    | Fail(req: nat)
    | Charge(req: nat)
    | ReadSuper(req: nat)
    | Grant(req: nat)
    | Bill(req: nat)
    | TopUpPool(amount: u64)
    | Admin(op: Op)
    | Net(event: Event)

  ghost predicate Possible(l: Ledger, a: Action)
  {
    match a
    case Validate(req, _) => req !in l.requests
    case CheckPool(req) => req in l.requests && l.requests[req].Validated?
    case Fail(req) => req in l.requests && (l.requests[req].Validated? || l.requests[req].Admitted?)
    case Charge(req) => req in l.requests && l.requests[req].Admitted?
    case ReadSuper(req) => req in l.requests && l.requests[req].Charged?
    case Grant(req) => req in l.requests && l.requests[req].Granting?
    case Bill(req) => req in l.requests && l.requests[req].Granted?
    case TopUpPool(amount) => amount > 0
    case Admin(op) => !op.Deduct?
    case Net(e) => Enabled(l.swarm, e) && !e.Credit?
  }

  function RecordOf(l: Ledger, key: string): Record
  {
    if key in l.records then l.records[key] else Record(0, 0, 0, 0)
  }

  function GrantsTo(l: Ledger, id: string): nat
  {
    if id in l.grantsTo then l.grantsTo[id] else 0
  }

  /** `fetch_sub(1)`, which wraps around below zero. */
  function Decremented(pool: u64): u64
  {
    if pool == 0 then TWO_64 - 1 else pool - 1
  }

  function Move(l: Ledger, req: nat, r: Request): Ledger
  {
    l.(requests := l.requests[req := r])
  }

  function Leave(l: Ledger, req: nat): Ledger
  {
    l.(requests := l.requests - {req})
  }

  function BillKey(l: Ledger, key: string): Ledger
  {
    var r := RecordOf(l, key);
    l.(keys := Apply(l.keys, Deduct(key)),
       records := l.records[key := if Changes(l.keys, Deduct(key)) then r.(billed := r.billed + 1)
                                   else r.(unbilled := r.unbilled + 1)])
  }

  function Administer(l: Ledger, op: Op): Ledger
  {
    var n := l.(keys := Apply(l.keys, op));
    if op.Add? && op.key in l.keys then
      var r := RecordOf(l, op.key);
      n.(records := l.records[op.key := r.(topUps := r.topUps + 1, added := r.added + op.amount)])
    else n
  }

  function Act(l: Ledger, a: Action): Ledger
    requires Possible(l, a)
  {
    match a
    case Validate(req, key) => if Usable(l.keys, key) then Move(l, req, Validated(key)) else l
    case CheckPool(req) => if l.pool == 0 then Leave(l, req) else Move(l, req, Admitted(l.requests[req].key))
    case Fail(req) => Leave(l, req)
    case Charge(req) =>
      Move(l, req, Charged(l.requests[req].key)).(pool := Decremented(l.pool), decrements := l.decrements + 1)
    case ReadSuper(req) => Move(l, req, Granting(l.requests[req].key, l.swarm.m.superId))
    case Grant(req) =>
      var n := Move(l, req, Granted(l.requests[req].key));
      var sid := l.requests[req].superId;
      if sid.Some? && sid.value in l.swarm.m.workers then
        n.(swarm := Step(l.swarm, Credit(sid.value, 1)), grants := l.grants + 1,
           grantsTo := l.grantsTo[sid.value := GrantsTo(l, sid.value) + 1])
      else n
    case Bill(req) => Leave(BillKey(l, l.requests[req].key), req)
    case TopUpPool(amount) => l.(pool := WrappingAdd(l.pool, amount), poolAdded := l.poolAdded + amount)
    case Admin(op) => Administer(l, op)
    case Net(e) =>
      l.(swarm := Step(l.swarm, e), grantsTo := if e.Enrol? then l.grantsTo[e.r.id := 0] else l.grantsTo)
  }

  ghost predicate IsHistory(l: Ledger, actions: seq<Action>, n: Ledger)
    decreases |actions|
  {
    if actions == [] then l == n
    else Possible(l, actions[0]) && IsHistory(Act(l, actions[0]), actions[1..], n)
  }

  lemma {:induction false} HistoryKeeps(inv: Ledger -> bool, l: Ledger, actions: seq<Action>, n: Ledger)
    requires inv(l) && IsHistory(l, actions, n)
    requires forall k, a :: inv(k) && Possible(k, a) ==> inv(Act(k, a))
    ensures inv(n)
    decreases |actions|
  {
    if actions != [] {
      HistoryKeeps(inv, Act(l, actions[0]), actions[1..], n);
    }
  }

  /** The ledger at startup. */
  function Opening(saved: map<string, u64>, pool: u64, keys: KeyMap): Ledger
  {
    Ledger(RegistryRuns.Start(saved).s, pool, keys, map[], 0, 0, 0, map[], map[])
  }

  // ----- conservation of the pool -----

  ghost predicate PoolBalances(initial: u64, l: Ledger)
  {
    l.pool == (initial + l.poolAdded - l.decrements) % TWO_64
  }

  lemma DecrementBalances(x: int)
    ensures Decremented(x % TWO_64) == (x - 1) % TWO_64
  {
  }

  lemma TopUpBalances(x: int, amount: nat)
    ensures WrappingAdd(x % TWO_64, amount) == (x + amount) % TWO_64
  {
  }

  lemma PoolBalancesStep(initial: u64, l: Ledger, a: Action)
    requires PoolBalances(initial, l) && Possible(l, a)
    ensures PoolBalances(initial, Act(l, a))
  {
    DecrementBalances(initial + l.poolAdded - l.decrements);
    if a.TopUpPool? {
      TopUpBalances(initial + l.poolAdded - l.decrements, a.amount);
    }
  }

  lemma SmallResidue(x: int)
    ensures 0 <= x < TWO_64 <==> x % TWO_64 == x
  {
  }

  /** In every interleaving the pool is its initial value plus top-ups minus
      decrements, modulo 2^64, and exactly that number just while it fits. */
  lemma PoolConservation(saved: map<string, u64>, pool: u64, keys: KeyMap, actions: seq<Action>, n: Ledger)
    requires IsHistory(Opening(saved, pool, keys), actions, n)
    ensures var balance := pool + n.poolAdded - n.decrements;
            && n.pool == balance % TWO_64
            && (n.pool == balance <==> 0 <= balance < TWO_64)
  {
    forall l: Ledger, a | PoolBalances(pool, l) && Possible(l, a) ensures PoolBalances(pool, Act(l, a)) {
      PoolBalancesStep(pool, l, a);
    }
    HistoryKeeps((l: Ledger) => PoolBalances(pool, l), Opening(saved, pool, keys), actions, n);
    SmallResidue(pool + n.poolAdded - n.decrements);
  }

  /** At every state of the history at most one request is in flight. */
  ghost predicate Serial(l: Ledger, actions: seq<Action>)
    decreases |actions|
  {
    && (forall p, q :: p in l.requests && q in l.requests ==> p == q)
    && (actions != [] ==> Possible(l, actions[0]) && Serial(Act(l, actions[0]), actions[1..]))
  }

  ghost predicate Covered(initial: u64, l: Ledger)
  {
    && PoolBalances(initial, l)
    && l.decrements <= initial + l.poolAdded
    && ((exists r :: r in l.requests && l.requests[r].Admitted?) ==> l.decrements < initial + l.poolAdded)
  }

  lemma CoveredStep(initial: u64, l: Ledger, a: Action)
    requires Covered(initial, l) && Possible(l, a)
    requires forall p, q :: p in l.requests && q in l.requests ==> p == q
    requires initial + l.poolAdded < TWO_64
    ensures Covered(initial, Act(l, a))
  {
    PoolBalancesStep(initial, l, a);
    SmallResidue(initial + l.poolAdded - l.decrements);
    var n := Act(l, a);
    if a.Charge? {
      assert l.requests[a.req].Admitted?;
      assert forall r :: r in n.requests ==> r == a.req;
    } else if !a.CheckPool? {
      forall r | r in n.requests && n.requests[r].Admitted? ensures l.decrements < initial + l.poolAdded {
        assert r in l.requests && l.requests[r].Admitted?;
      }
    }
  }

  lemma {:induction false} CoveredHistory(initial: u64, l: Ledger, actions: seq<Action>, n: Ledger)
    requires Covered(initial, l) && IsHistory(l, actions, n) && Serial(l, actions)
    requires initial + n.poolAdded < TWO_64
    ensures l.poolAdded <= n.poolAdded
    ensures Covered(initial, n)
    decreases |actions|
  {
    AddedGrows(l, actions, n);
    if actions != [] {
      CoveredStep(initial, l, actions[0]);
      CoveredHistory(initial, Act(l, actions[0]), actions[1..], n);
    }
  }

  lemma {:induction false} AddedGrows(l: Ledger, actions: seq<Action>, n: Ledger)
    requires IsHistory(l, actions, n)
    ensures l.poolAdded <= n.poolAdded
    decreases |actions|
  {
    if actions != [] {
      AddedGrows(Act(l, actions[0]), actions[1..], n);
    }
  }

  /** Requests one at a time never take the pool below zero. */
  lemma SerialPoolNeverUnderflows(saved: map<string, u64>, pool: u64, keys: KeyMap, actions: seq<Action>, n: Ledger)
    requires IsHistory(Opening(saved, pool, keys), actions, n) && Serial(Opening(saved, pool, keys), actions)
    requires pool + n.poolAdded < TWO_64
    ensures n.decrements <= pool + n.poolAdded
    ensures n.pool == pool + n.poolAdded - n.decrements
  {
    CoveredHistory(pool, Opening(saved, pool, keys), actions, n);
    SmallResidue(pool + n.poolAdded - n.decrements);
  }

  /** At every state of the history at most m requests are in flight. */
  ghost predicate InFlightAtMost(l: Ledger, actions: seq<Action>, m: nat)
    decreases |actions|
  {
    && |l.requests| <= m
    && (actions != [] ==> Possible(l, actions[0]) && InFlightAtMost(Act(l, actions[0]), actions[1..], m))
  }

  lemma FirstThen(l: Ledger, a: Action, actions: seq<Action>, n: Ledger, m: nat)
    requires Possible(l, a) && |l.requests| <= m
    requires IsHistory(Act(l, a), actions, n) && InFlightAtMost(Act(l, a), actions, m)
    ensures IsHistory(l, [a] + actions, n) && InFlightAtMost(l, [a] + actions, m)
  {
    assert ([a] + actions)[0] == a && ([a] + actions)[1..] == actions;
  }

  lemma PutSize(requests: map<nat, Request>, req: nat, r: Request)
    ensures |requests[req := r]| == |requests| + if req in requests then 0 else 1
  {
    assert requests[req := r].Keys == requests.Keys + {req};
    assert |requests[req := r]| == |requests[req := r].Keys| && |requests| == |requests.Keys|;
  }

  /** An admitted request takes from the pool. */
  lemma Charging(l: Ledger, req: nat, m: nat) returns (n: Ledger)
    requires req in l.requests && l.requests[req].Admitted? && |l.requests| <= m
    ensures n == Act(l, Charge(req))
    ensures IsHistory(l, [Charge(req)], n) && InFlightAtMost(l, [Charge(req)], m)
  {
    n := Act(l, Charge(req));
    PutSize(l.requests, req, Charged(l.requests[req].key));
    assert [Charge(req)][1..] == [];
  }

  lemma Admitting(l: Ledger, key: string, req: nat, actions: seq<Action>, n: Ledger, m: nat)
    requires l.pool > 0 && Usable(l.keys, key) && req !in l.requests && |l.requests| + 1 <= m
    requires var k := l.(requests := l.requests[req := Admitted(key)]);
             IsHistory(k, actions, n) && InFlightAtMost(k, actions, m)
    ensures var all := [Validate(req, key)] + ([CheckPool(req)] + actions);
            IsHistory(l, all, n) && InFlightAtMost(l, all, m)
  {
    var validated := Act(l, Validate(req, key));
    PutSize(l.requests, req, Validated(key));
    assert Act(validated, CheckPool(req)) == l.(requests := l.requests[req := Admitted(key)]);
    FirstThen(validated, CheckPool(req), actions, n, m);
    FirstThen(l, Validate(req, key), [CheckPool(req)] + actions, n, m);
  }

  /** Two at a time can: both pass the check of a pool of one, and the second
      decrement leaves the largest number there is. */
  lemma TwoRequestsUnderflowThePool(l: Ledger, key: string, p: nat, q: nat) returns (actions: seq<Action>, n: Ledger)
    requires l.pool == 1 && Usable(l.keys, key) && l.requests == map[] && p != q
    ensures IsHistory(l, actions, n) && InFlightAtMost(l, actions, 2)
    ensures n.pool == TWO_64 - 1 && n.decrements == l.decrements + 2 && n.poolAdded == l.poolAdded
  {
    var one := l.(requests := l.requests[p := Admitted(key)]);
    var two := one.(requests := one.requests[q := Admitted(key)]);
    PutSize(l.requests, p, Admitted(key));
    PutSize(one.requests, q, Admitted(key));
    var charged := Charging(two, p, 2);
    PutSize(two.requests, p, Charged(key));
    n := Charging(charged, q, 2);
    FirstThen(two, Charge(p), [Charge(q)], n, 2);
    var charges := [Charge(p)] + [Charge(q)];
    Admitting(one, key, q, charges, n, 2);
    var rest := [Validate(q, key)] + ([CheckPool(q)] + charges);
    Admitting(l, key, p, rest, n, 2);
    actions := [Validate(p, key)] + ([CheckPool(p)] + rest);
  }

  /** Some history with at most m requests in flight takes more from the pool than
      was ever in it. */
  ghost predicate CanUnderflow(m: nat)
  {
    exists saved, pool: u64, keys, actions, n ::
      && IsHistory(Opening(saved, pool, keys), actions, n) && InFlightAtMost(Opening(saved, pool, keys), actions, m)
      && pool + n.poolAdded < TWO_64 && n.decrements > pool + n.poolAdded
  }

  lemma {:induction false} OneInFlightIsSerial(l: Ledger, actions: seq<Action>, m: nat)
    requires m <= 1 && InFlightAtMost(l, actions, m)
    ensures Serial(l, actions)
    decreases |actions|
  {
    forall p, q | p in l.requests && q in l.requests ensures p == q {
      assert {p, q} <= l.requests.Keys && |l.requests.Keys| == |l.requests|;
      if p != q {
        SubsetSize({p, q}, l.requests.Keys);
        assert false;
      }
    }
    if actions != [] {
      OneInFlightIsSerial(Act(l, actions[0]), actions[1..], m);
    }
  }

  lemma {:induction false} SubsetSize(a: set<nat>, b: set<nat>)
    requires a <= b
    ensures |a| <= |b|
  {
    if x :| x in a {
      SubsetSize(a - {x}, b - {x});
    }
  }

  /** The pool can be overdrawn exactly when two requests may be in flight at once. */
  lemma UnderflowIffTwoInFlight(m: nat)
    ensures CanUnderflow(m) <==> m >= 2
  {
    if m >= 2 {
      var keys: KeyMap := map["k" := ApiKey("k", "", 2, true, "")];
      var actions, n := TwoRequestsUnderflowThePool(Opening(map[], 1, keys), "k", 0, 1);
      MoreInFlight(Opening(map[], 1, keys), actions, 2, m);
    } else if CanUnderflow(m) {
      var saved, pool: u64, keys, actions, n :|
        && IsHistory(Opening(saved, pool, keys), actions, n) && InFlightAtMost(Opening(saved, pool, keys), actions, m)
        && pool + n.poolAdded < TWO_64 && n.decrements > pool + n.poolAdded;
      OneInFlightIsSerial(Opening(saved, pool, keys), actions, m);
      SerialPoolNeverUnderflows(saved, pool, keys, actions, n);
      assert false;
    }
  }

  lemma {:induction false} MoreInFlight(l: Ledger, actions: seq<Action>, m: nat, more: nat)
    requires InFlightAtMost(l, actions, m) && m <= more
    ensures InFlightAtMost(l, actions, more)
    decreases |actions|
  {
    if actions != [] {
      MoreInFlight(Act(l, actions[0]), actions[1..], m, more);
    }
  }

  // ----- overdrafts -----

  ghost predicate Reaches(l: Ledger, actions: seq<Action>, n: Ledger, m: nat)
  {
    IsHistory(l, actions, n) && InFlightAtMost(l, actions, m)
  }

  lemma {:induction false} ReachesThen(l: Ledger, first: seq<Action>, k: Ledger, second: seq<Action>, n: Ledger, m: nat)
    requires Reaches(l, first, k, m) && Reaches(k, second, n, m)
    ensures Reaches(l, first + second, n, m)
    decreases |first|
  {
    if first == [] {
      assert first + second == second;
    } else {
      var all := first + second;
      assert all[0] == first[0] && all[1..] == first[1..] + second;
      ReachesThen(Act(l, first[0]), first[1..], k, second, n, m);
    }
  }

  lemma ReachesNext(l: Ledger, a: Action, m: nat) returns (n: Ledger)
    requires Possible(l, a) && |l.requests| <= m && |Act(l, a).requests| <= m
    ensures n == Act(l, a) && Reaches(l, [a], n, m)
  {
    n := Act(l, a);
    assert [a][1..] == [];
  }

  lemma Admission(l: Ledger, key: string, req: nat, m: nat) returns (actions: seq<Action>, n: Ledger)
    requires l.pool > 0 && Usable(l.keys, key) && req !in l.requests && |l.requests| + 1 <= m
    ensures n == l.(requests := l.requests[req := Admitted(key)]) && Reaches(l, actions, n, m)
  {
    n := l.(requests := l.requests[req := Admitted(key)]);
    PutSize(l.requests, req, Admitted(key));
    Admitting(l, key, req, [], n, m);
    actions := [Validate(req, key)] + ([CheckPool(req)] + []);
  }

  lemma GrantingOrNot(l: Ledger, key: string, req: nat, m: nat) returns (actions: seq<Action>, n: Ledger)
    requires req in l.requests && l.requests[req] == Charged(key) && |l.requests| <= m
    ensures Reaches(l, actions, n, m) && n.requests == l.requests[req := Granted(key)] && n.keys == l.keys
    ensures n.pool == l.pool && n.decrements == l.decrements && n.poolAdded == l.poolAdded
  {
    PutSize(l.requests, req, Granting(key, l.swarm.m.superId));
    var k := ReachesNext(l, ReadSuper(req), m);
    PutSize(k.requests, req, Granted(key));
    n := ReachesNext(k, Grant(req), m);
    assert n.requests == l.requests[req := Granted(key)];
    ReachesThen(l, [ReadSuper(req)], k, [Grant(req)], n, m);
    actions := [ReadSuper(req)] + [Grant(req)];
  }

  lemma LeaveSize(requests: map<nat, Request>, req: nat)
    ensures |requests - {req}| <= |requests|
  {
    SubsetSize((requests - {req}).Keys, requests.Keys);
    assert |requests - {req}| == |(requests - {req}).Keys| && |requests| == |requests.Keys|;
  }

  /** Billing, and a top-up of what it took from the key. */
  lemma BillingAndAdding(l: Ledger, key: string, req: nat, m: nat) returns (actions: seq<Action>, n: Ledger)
    requires req in l.requests && l.requests[req] == Granted(key) && Usable(l.keys, key) && |l.requests| <= m
    ensures Reaches(l, actions, n, m) && n.requests == l.requests - {req} && Usable(n.keys, key)
    ensures n.pool == l.pool && n.decrements == l.decrements && n.poolAdded == l.poolAdded
  {
    LeaveSize(l.requests, req);
    var k := ReachesNext(l, Bill(req), m);
    n := ReachesNext(k, Admin(Add(key, 1)), m);
    ReachesThen(l, [Bill(req)], k, [Admin(Add(key, 1))], n, m);
    actions := [Bill(req)] + [Admin(Add(key, 1))];
  }

  lemma Settling(l: Ledger, key: string, req: nat, m: nat) returns (actions: seq<Action>, n: Ledger)
    requires req in l.requests && l.requests[req] == Charged(key) && Usable(l.keys, key) && |l.requests| <= m
    ensures Reaches(l, actions, n, m) && n.requests == l.requests - {req} && Usable(n.keys, key)
    ensures n.pool == l.pool && n.decrements == l.decrements && n.poolAdded == l.poolAdded
  {
    var first, k := GrantingOrNot(l, key, req, m);
    PutSize(l.requests, req, Granted(key));
    assert k.requests - {req} == l.requests - {req};
    var second;
    second, n := BillingAndAdding(k, key, req, m);
    ReachesThen(l, first, k, second, n, m);
    actions := first + second;
  }

  lemma ChargingAndSettling(l: Ledger, key: string, req: nat, m: nat) returns (actions: seq<Action>, n: Ledger)
    requires req in l.requests && l.requests[req] == Admitted(key) && Usable(l.keys, key) && |l.requests| <= m
    ensures Reaches(l, actions, n, m) && n.requests == l.requests - {req} && Usable(n.keys, key)
    ensures n.pool == Decremented(l.pool) && n.decrements == l.decrements + 1 && n.poolAdded == l.poolAdded
  {
    PutSize(l.requests, req, Charged(key));
    var k := Charging(l, req, m);
    var rest;
    rest, n := Settling(k, key, req, m);
    assert k.requests - {req} == l.requests - {req};
    ReachesThen(l, [Charge(req)], k, rest, n, m);
    actions := [Charge(req)] + rest;
  }

  /** One admitted request is in flight. */
  ghost predicate Holding(l: Ledger, key: string, req: nat)
  {
    l.requests == map[req := Admitted(key)] && Usable(l.keys, key)
  }

  /** While the pool is not empty, the next request passes the check before this one is
      charged. */
  lemma AdmitThenCharge(l: Ledger, key: string, req: nat) returns (actions: seq<Action>, n: Ledger)
    requires Holding(l, key, req) && l.pool > 0
    ensures Reaches(l, actions, n, 2) && Holding(n, key, req + 1)
    ensures n.decrements == l.decrements + 1 && n.poolAdded == l.poolAdded
  {
    var first, k := Admission(l, key, req + 1, 2);
    assert |k.requests| <= 2 by {
      PutSize(l.requests, req + 1, Admitted(key));
    }
    var second;
    second, n := ChargingAndSettling(k, key, req, 2);
    assert k.requests - {req} == map[req + 1 := Admitted(key)];
    ReachesThen(l, first, k, second, n, 2);
    actions := first + second;
  }

  /** Charging it at an empty pool fills the pool up again. */
  lemma ChargeThenAdmit(l: Ledger, key: string, req: nat) returns (actions: seq<Action>, n: Ledger)
    requires Holding(l, key, req) && l.pool == 0
    ensures Reaches(l, actions, n, 2) && Holding(n, key, req + 1)
    ensures n.decrements == l.decrements + 1 && n.poolAdded == l.poolAdded
  {
    var first, k := ChargingAndSettling(l, key, req, 2);
    assert k.requests == map[];
    var second;
    second, n := Admission(k, key, req + 1, 2);
    ReachesThen(l, first, k, second, n, 2);
    actions := first + second;
  }

  lemma OneMore(l: Ledger, key: string, req: nat) returns (actions: seq<Action>, n: Ledger)
    requires Holding(l, key, req)
    ensures Reaches(l, actions, n, 2) && Holding(n, key, req + 1)
    ensures n.decrements == l.decrements + 1 && n.poolAdded == l.poolAdded
  {
    if l.pool > 0 {
      actions, n := AdmitThenCharge(l, key, req);
    } else {
      actions, n := ChargeThenAdmit(l, key, req);
    }
  }

  lemma {:induction false} Overdrawing(l: Ledger, key: string, req: nat, d: nat)
    returns (actions: seq<Action>, n: Ledger)
    requires Holding(l, key, req)
    ensures Reaches(l, actions, n, 2) && n.decrements == l.decrements + d && n.poolAdded == l.poolAdded
    decreases d
  {
    if d == 0 {
      actions, n := [], l;
    } else {
      var first, k := OneMore(l, key, req);
      var rest;
      rest, n := Overdrawing(k, key, req + 1, d - 1);
      ReachesThen(l, first, k, rest, n, 2);
      actions := first + rest;
    }
  }

  /** An overdraft fills the pool up to 2^64 - 1, so that nobody is refused any more:
      with two requests in flight at a time, the amount by which more is taken from the
      pool than was ever in it has no bound. */
  lemma OverdraftIsUnbounded(d: nat) returns (keys: KeyMap, actions: seq<Action>, n: Ledger)
    ensures IsHistory(Opening(map[], 1, keys), actions, n) && InFlightAtMost(Opening(map[], 1, keys), actions, 2)
    ensures n.poolAdded == 0 && n.decrements == 1 + d
  {
    keys := map["k" := ApiKey("k", "", 2, true, "")];
    var start := Opening(map[], 1, keys);
    var first, l := Admission(start, "k", 0, 2);
    assert l.requests == map[0 := Admitted("k")];
    var rest;
    rest, n := Overdrawing(l, "k", 0, d + 1);
    ReachesThen(start, first, l, rest, n, 2);
    actions := first + rest;
  }

  // ----- grants -----

  /** Requests that have taken from the pool and not yet come to the grant. */
  function AwaitingGrant(requests: map<nat, Request>): set<nat>
  {
    set r | r in requests && (requests[r].Charged? || requests[r].Granting?)
  }

  ghost predicate GrantsBacked(l: Ledger)
  {
    l.grants + |AwaitingGrant(l.requests)| <= l.decrements
  }

  predicate HasItsCredits(l: Ledger, id: string)
    requires id in l.swarm.m.workers
  {
    l.swarm.m.workers[id].credits == WrappingAdd(SavedCredit(l.swarm.m, id), GrantsTo(l, id))
  }

  ghost predicate CreditsMatch(l: Ledger)
  {
    forall id :: id in l.swarm.m.workers ==> HasItsCredits(l, id)
  }

  predicate Awaits(r: Request)
  {
    r.Charged? || r.Granting?
  }

  lemma AwaitingGrantWithout(requests: map<nat, Request>, req: nat)
    ensures AwaitingGrant(requests - {req}) == AwaitingGrant(requests) - {req}
  {
  }

  lemma AwaitingGrantWith(requests: map<nat, Request>, req: nat, r: Request)
    ensures AwaitingGrant(requests[req := r])
            == if Awaits(r) then AwaitingGrant(requests) + {req} else AwaitingGrant(requests) - {req}
  {
  }

  lemma AwaitingGrantInSettlement(l: Ledger, a: Action)
    requires Possible(l, a) && (a.Charge? || a.ReadSuper? || a.Grant?)
    ensures var before, after := AwaitingGrant(l.requests), AwaitingGrant(Act(l, a).requests);
            |after| == if a.Charge? then |before| + 1 else if a.Grant? then |before| - 1 else |before|
  {
    var r := Act(l, a).requests[a.req];
    AwaitingGrantWith(l.requests, a.req, r);
    assert Act(l, a).requests == l.requests[a.req := r];
    var before := AwaitingGrant(l.requests);
    assert a.ReadSuper? ==> before + {a.req} == before;
  }

  lemma AwaitingGrantElsewhere(l: Ledger, a: Action)
    requires Possible(l, a) && !(a.Charge? || a.ReadSuper? || a.Grant?)
    ensures AwaitingGrant(Act(l, a).requests) == AwaitingGrant(l.requests)
  {
    match a
    case Validate(req, key) => AwaitingGrantWith(l.requests, req, Validated(key));
    case CheckPool(req) =>
      AwaitingGrantWithout(l.requests, req);
      AwaitingGrantWith(l.requests, req, Admitted(l.requests[req].key));
    case Fail(req) => AwaitingGrantWithout(l.requests, req);
    case Bill(req) => AwaitingGrantWithout(l.requests, req);
    case _ =>
  }

  lemma GrantsBackedStep(l: Ledger, a: Action)
    requires GrantsBacked(l) && Possible(l, a)
    ensures GrantsBacked(Act(l, a))
  {
    if a.Charge? || a.ReadSuper? || a.Grant? {
      AwaitingGrantInSettlement(l, a);
    } else {
      AwaitingGrantElsewhere(l, a);
    }
  }

  /** Worker id is the recorded SuperNode and registered in every state of the history. */
  ghost predicate HoldsTheSeat(l: Ledger, actions: seq<Action>, id: string)
    decreases |actions|
  {
    && l.swarm.m.superId == Some(id) && id in l.swarm.m.workers
    && (actions != [] ==> Possible(l, actions[0]) && HoldsTheSeat(Act(l, actions[0]), actions[1..], id))
  }

  /** Whoever is about to be given a credit is worker id. */
  ghost predicate GrantsGoTo(l: Ledger, id: string)
  {
    forall r :: r in l.requests && l.requests[r].Granting? ==> l.requests[r].superId == Some(id)
  }

  lemma GrantsGoToStep(l: Ledger, a: Action, id: string)
    requires GrantsGoTo(l, id) && Possible(l, a) && l.swarm.m.superId == Some(id)
    ensures GrantsGoTo(Act(l, a), id)
  {
  }

  lemma OneGrantEach(l: Ledger, a: Action, id: string)
    requires GrantsGoTo(l, id) && Possible(l, a) && id in l.swarm.m.workers
    ensures var n := Act(l, a);
            n.grants + |AwaitingGrant(n.requests)| - n.decrements
            == l.grants + |AwaitingGrant(l.requests)| - l.decrements
  {
    if a.Charge? || a.ReadSuper? || a.Grant? {
      AwaitingGrantInSettlement(l, a);
    } else {
      AwaitingGrantElsewhere(l, a);
    }
  }

  /** While one worker is the registered SuperNode, every decrement of the pool earns it a
      credit, at the latest when the requests under way have been settled. */
  lemma {:induction false} NoGrantIsLost(l: Ledger, actions: seq<Action>, n: Ledger, id: string)
    requires IsHistory(l, actions, n) && HoldsTheSeat(l, actions, id) && GrantsGoTo(l, id)
    ensures n.grants + |AwaitingGrant(n.requests)| - n.decrements
            == l.grants + |AwaitingGrant(l.requests)| - l.decrements
    decreases |actions|
  {
    if actions != [] {
      GrantsGoToStep(l, actions[0], id);
      OneGrantEach(l, actions[0], id);
      NoGrantIsLost(Act(l, actions[0]), actions[1..], n, id);
    }
  }

  /** Registry events other than grants touch a worker's credits only at REGISTER. */
  lemma CreditsAcrossEvents(s: Swarm, e: Event, id: string)
    requires !e.Credit? && id in Step(s, e).m.workers
    ensures Step(s, e).m.savedCredits == s.m.savedCredits
    ensures if e.Enrol? && e.r.id == id then Step(s, e).m.workers[id].credits == SavedCredit(s.m, id)
            else id in s.m.workers && Step(s, e).m.workers[id].credits == s.m.workers[id].credits
  {
  }

  /** Events leave the grants to a worker counted from its last REGISTER. */
  lemma EventKeepsCredits(l: Ledger, e: Event, id: string)
    requires Possible(l, Net(e)) && id in Step(l.swarm, e).m.workers
    requires id in l.swarm.m.workers ==> HasItsCredits(l, id)
    ensures id in Act(l, Net(e)).swarm.m.workers && HasItsCredits(Act(l, Net(e)), id)
  {
    CreditsAcrossEvents(l.swarm, e, id);
  }

  lemma GrantKeepsCredits(l: Ledger, req: nat, id: string)
    requires Possible(l, Grant(req)) && id in l.swarm.m.workers && HasItsCredits(l, id)
    ensures id in Act(l, Grant(req)).swarm.m.workers && HasItsCredits(Act(l, Grant(req)), id)
  {
    WrappingAddTwice(SavedCredit(l.swarm.m, id), GrantsTo(l, id), 1);
  }

  lemma GrantAddsNoWorker(l: Ledger, req: nat)
    requires Possible(l, Grant(req))
    ensures Act(l, Grant(req)).swarm.m.workers.Keys == l.swarm.m.workers.Keys
  {
  }

  lemma OthersTouchNoCredits(l: Ledger, a: Action)
    requires Possible(l, a) && !a.Net? && !a.Grant?
    ensures Act(l, a).swarm == l.swarm && Act(l, a).grantsTo == l.grantsTo
  {
  }

  lemma CreditsMatchStep(l: Ledger, a: Action)
    requires CreditsMatch(l) && Possible(l, a)
    ensures CreditsMatch(Act(l, a))
  {
    match a
    case Net(e) =>
      forall id | id in Act(l, a).swarm.m.workers ensures HasItsCredits(Act(l, a), id) {
        EventKeepsCredits(l, e, id);
      }
    case Grant(req) =>
      GrantAddsNoWorker(l, req);
      forall id | id in l.swarm.m.workers ensures id in Act(l, a).swarm.m.workers && HasItsCredits(Act(l, a), id) {
        GrantKeepsCredits(l, req, id);
      }
    case _ =>
      OthersTouchNoCredits(l, a);
      forall id | id in l.swarm.m.workers ensures id in Act(l, a).swarm.m.workers && HasItsCredits(Act(l, a), id) {
        assert HasItsCredits(l, id);
      }
  }

  /** In every interleaving each registered worker's credits are its startup value
      plus the grants since its last REGISTER (modulo 2^64), and there are never
      more grants than pool decrements. */
  lemma GrantsNeverExceedDecrements(saved: map<string, u64>, pool: u64, keys: KeyMap, actions: seq<Action>, n: Ledger)
    requires IsHistory(Opening(saved, pool, keys), actions, n)
    ensures n.grants <= n.decrements
    ensures forall id :: id in n.swarm.m.workers ==>
              n.swarm.m.workers[id].credits == WrappingAdd(SavedCredit(n.swarm.m, id), GrantsTo(n, id))
  {
    forall l: Ledger, a | GrantsBacked(l) && Possible(l, a) ensures GrantsBacked(Act(l, a)) {
      GrantsBackedStep(l, a);
    }
    forall l: Ledger, a | CreditsMatch(l) && Possible(l, a) ensures CreditsMatch(Act(l, a)) {
      CreditsMatchStep(l, a);
    }
    HistoryKeeps((l: Ledger) => GrantsBacked(l), Opening(saved, pool, keys), actions, n);
    HistoryKeeps((l: Ledger) => CreditsMatch(l), Opening(saved, pool, keys), actions, n);
    assert forall id :: id in n.swarm.m.workers ==> HasItsCredits(n, id);
  }

  // ----- unbilled responses on one key -----

  function OnKey(requests: map<nat, Request>, key: string): set<nat>
  {
    set r | r in requests && requests[r].key == key
  }

  /** An action that neither deletes the key nor creates it anew, and whose top-up
      of it does not wrap around. */
  predicate Respects(l: Ledger, a: Action, key: string)
  {
    a.Admin? && a.op.key == key ==>
      a.op.Toggle? || (a.op.Add? && key in l.keys && l.keys[key].credits + a.op.amount < TWO_64)
  }

  /** A history in which the key lives on and never has more than m requests. */
  ghost predicate IsCrowdedHistory(l: Ledger, actions: seq<Action>, n: Ledger, key: string, m: nat)
    decreases |actions|
  {
    && |OnKey(l.requests, key)| <= m
    && if actions == [] then l == n
       else && Possible(l, actions[0]) && Respects(l, actions[0], key)
            && IsCrowdedHistory(Act(l, actions[0]), actions[1..], n, key, m)
  }

  /** With credits on the key, every past dry spell cost at most m - 1 unbilled
      responses; during a dry spell each request in flight may still cost one. */
  ghost predicate Budget(l: Ledger, key: string, m: nat)
  {
    && m >= 1
    && key in l.keys
    && var r := RecordOf(l, key);
       if l.keys[key].credits == 0 then r.unbilled + |OnKey(l.requests, key)| <= (m - 1) * (r.topUps + 1)
       else r.unbilled <= (m - 1) * r.topUps
  }

  lemma OnKeyWithout(requests: map<nat, Request>, key: string, req: nat)
    ensures OnKey(requests - {req}, key) == OnKey(requests, key) - {req}
  {
  }

  lemma OnKeyWith(requests: map<nat, Request>, key: string, req: nat, r: Request)
    ensures OnKey(requests[req := r], key)
            == if r.key == key then OnKey(requests, key) + {req} else OnKey(requests, key) - {req}
  {
  }

  lemma MovingKeepsTheCrowd(requests: map<nat, Request>, key: string, req: nat, r: Request)
    requires req in requests && requests[req].key == r.key
    ensures OnKey(requests[req := r], key) == OnKey(requests, key)
  {
  }

  lemma LeavingThinsTheCrowd(requests: map<nat, Request>, key: string, req: nat)
    requires req in requests
    ensures |OnKey(requests - {req}, key)| == |OnKey(requests, key)| - if requests[req].key == key then 1 else 0
  {
    OnKeyWithout(requests, key, req);
    if requests[req].key == key {
      assert req in OnKey(requests, key);
    } else {
      assert OnKey(requests, key) - {req} == OnKey(requests, key);
    }
  }

  lemma ValidatingAddsToTheCrowd(requests: map<nat, Request>, key: string, req: nat, k: string)
    requires req !in requests
    ensures |OnKey(requests[req := Validated(k)], key)| == |OnKey(requests, key)| + if k == key then 1 else 0
  {
    OnKeyWith(requests, key, req, Validated(k));
    assert req !in OnKey(requests, key);
    assert k != key ==> OnKey(requests, key) - {req} == OnKey(requests, key);
  }

  lemma CrowdAfter(l: Ledger, a: Action, key: string)
    requires Possible(l, a)
    ensures var before, after := |OnKey(l.requests, key)|, |OnKey(Act(l, a).requests, key)|;
            && (a.Validate? ==> after == if a.key == key && Usable(l.keys, key) then before + 1 else before)
            && (a.Bill? ==> after == if l.requests[a.req].key == key then before - 1 else before)
            && (!a.Validate? ==> after <= before)
  {
    match a
    case Validate(req, k) => ValidatingAddsToTheCrowd(l.requests, key, req, k);
    case CheckPool(req) =>
      LeavingThinsTheCrowd(l.requests, key, req);
      MovingKeepsTheCrowd(l.requests, key, req, Admitted(l.requests[req].key));
    case Fail(req) => LeavingThinsTheCrowd(l.requests, key, req);
    case Charge(req) => MovingKeepsTheCrowd(l.requests, key, req, Charged(l.requests[req].key));
    case ReadSuper(req) => MovingKeepsTheCrowd(l.requests, key, req, Granting(l.requests[req].key, l.swarm.m.superId));
    case Grant(req) => MovingKeepsTheCrowd(l.requests, key, req, Granted(l.requests[req].key));
    case Bill(req) => LeavingThinsTheCrowd(l.requests, key, req);
    case _ =>
  }

  lemma OneMorePeriod(m: nat, t: nat)
    requires m >= 1
    ensures (m - 1) * (t + 1) == (m - 1) * t + (m - 1)
    ensures (m - 1) * (t + 1) >= 0
  {
  }

  lemma BudgetStep(l: Ledger, a: Action, key: string, m: nat)
    requires Budget(l, key, m) && Possible(l, a) && Respects(l, a, key)
    requires |OnKey(l.requests, key)| <= m
    ensures Budget(Act(l, a), key, m)
  {
    CrowdAfter(l, a, key);
    var r := RecordOf(l, key);
    OneMorePeriod(m, r.topUps);
    OneMorePeriod(m, r.topUps + 1);
    if a.Bill? {
      assert RecordOf(Act(l, a), key).topUps == r.topUps;
    }
  }

  lemma {:induction false} BudgetHistory(l: Ledger, actions: seq<Action>, n: Ledger, key: string, m: nat)
    requires Budget(l, key, m) && IsCrowdedHistory(l, actions, n, key, m)
    ensures Budget(n, key, m)
    decreases |actions|
  {
    if actions != [] {
      BudgetStep(l, actions[0], key, m);
      BudgetHistory(Act(l, actions[0]), actions[1..], n, key, m);
    }
  }

  /** A key no request is on and nothing has been recorded for. */
  predicate Untouched(l: Ledger, key: string)
  {
    key in l.keys && OnKey(l.requests, key) == {} && RecordOf(l, key) == Record(0, 0, 0, 0)
  }

  /** Over every interleaving in which the key is not deleted and at most m requests
      are on it at once, at most (m - 1) * (T + 1) successful responses settle
      without deducting a credit, T being its top-ups so far. */
  lemma UnbilledResponsesAreBounded(l: Ledger, actions: seq<Action>, n: Ledger, key: string, m: nat)
    requires m >= 1 && Untouched(l, key) && IsCrowdedHistory(l, actions, n, key, m)
    ensures var r := RecordOf(n, key); r.unbilled <= (m - 1) * (r.topUps + 1)
    ensures m == 1 ==> RecordOf(n, key).unbilled == 0
  {
    OneMorePeriod(m, 0);
    BudgetHistory(l, actions, n, key, m);
    OneMorePeriod(m, RecordOf(n, key).topUps);
  }

  ghost predicate KeyBalances(l: Ledger, key: string, initial: nat)
  {
    && key in l.keys
    && l.keys[key].credits + RecordOf(l, key).billed == initial + RecordOf(l, key).added
  }

  lemma KeyBalancesStep(l: Ledger, a: Action, key: string, initial: nat)
    requires KeyBalances(l, key, initial) && Possible(l, a) && Respects(l, a, key)
    ensures KeyBalances(Act(l, a), key, initial)
  {
  }

  /** The key's credits never underflow: they are what it started with, plus what
      was added, minus one per billed response. */
  lemma {:induction false} KeyConservation(l: Ledger, actions: seq<Action>, n: Ledger, key: string, m: nat,
                                           initial: nat)
    requires IsCrowdedHistory(l, actions, n, key, m) && KeyBalances(l, key, initial)
    ensures KeyBalances(n, key, initial)
    decreases |actions|
  {
    if actions != [] {
      KeyBalancesStep(l, actions[0], key, initial);
      KeyConservation(Act(l, actions[0]), actions[1..], n, key, m, initial);
    }
  }

  // ----- the bound on unbilled responses is attained -----

  lemma {:induction false} Joined(l: Ledger, a: seq<Action>, k: Ledger, b: seq<Action>, n: Ledger, key: string, m: nat)
    requires IsCrowdedHistory(l, a, k, key, m) && IsCrowdedHistory(k, b, n, key, m)
    ensures IsCrowdedHistory(l, a + b, n, key, m)
    decreases |a|
  {
    if a == [] {
      assert a + b == b;
    } else {
      Joined(Act(l, a[0]), a[1..], k, b, n, key, m);
      assert (a + b)[1..] == a[1..] + b;
    }
  }

  lemma OneAction(l: Ledger, a: Action, key: string, m: nat)
    requires Possible(l, a) && Respects(l, a, key)
    requires |OnKey(l.requests, key)| <= m && |OnKey(Act(l, a).requests, key)| <= m
    ensures IsCrowdedHistory(l, [a], Act(l, a), key, m)
  {
    assert [a][1..] == [];
  }

  /** Requests 0 to j - 1, all admitted on an enabled key, and no others. */
  ghost predicate Lined(l: Ledger, key: string, j: nat)
  {
    && key in l.keys && l.keys[key].enabled
    && |OnKey(l.requests, key)| == j
    && (forall r :: r in l.requests <==> r < j)
    && (forall r :: r in l.requests ==> l.requests[r] == Admitted(key))
  }

  lemma AdmitOne(l: Ledger, key: string, j: nat, m: nat) returns (actions: seq<Action>, n: Ledger)
    requires Lined(l, key, j) && l.keys[key].credits > 0 && l.pool > 0 && j < m
    ensures IsCrowdedHistory(l, actions, n, key, m) && Lined(n, key, j + 1)
    ensures n == l.(requests := n.requests)
  {
    var a, b := Validate(j, key), CheckPool(j);
    var k := Act(l, a);
    n := Act(k, b);
    CrowdAfter(l, a, key);
    OnKeyWith(k.requests, key, j, Admitted(key));
    assert OnKey(k.requests, key) + {j} == OnKey(k.requests, key);
    OneAction(l, a, key, m);
    OneAction(k, b, key, m);
    Joined(l, [a], k, [b], n, key, m);
    actions := [a] + [b];
  }

  lemma {:induction false} AdmitUpTo(l: Ledger, key: string, j: nat, m: nat) returns (actions: seq<Action>, n: Ledger)
    requires Lined(l, key, j) && l.keys[key].credits > 0 && l.pool > 0 && j <= m
    ensures IsCrowdedHistory(l, actions, n, key, m) && Lined(n, key, m)
    ensures n == l.(requests := n.requests)
    decreases m - j
  {
    if j == m {
      actions, n := [], l;
    } else {
      var a, k := AdmitOne(l, key, j, m);
      var b;
      b, n := AdmitUpTo(k, key, j + 1, m);
      Joined(l, a, k, b, n, key, m);
      actions := a + b;
    }
  }

  /** Three steps that take an admitted request to the point of billing. */
  lemma ReachBilling(l: Ledger, key: string, j: nat, m: nat) returns (actions: seq<Action>, n: Ledger)
    requires Lined(l, key, j + 1) && j < m && l.pool > 0
    ensures IsCrowdedHistory(l, actions, n, key, m) && |OnKey(n.requests, key)| == j + 1
    ensures n.requests == l.requests[j := Granted(key)]
    ensures n.keys == l.keys && n.pool == l.pool - 1 && n.records == l.records
  {
    var a, b, c := Charge(j), ReadSuper(j), Grant(j);
    var k1 := Act(l, a);
    var k2 := Act(k1, b);
    n := Act(k2, c);
    CrowdAfter(l, a, key);
    CrowdAfter(k1, b, key);
    CrowdAfter(k2, c, key);
    assert n.requests == l.requests[j := Granted(key)];
    OnKeyWith(l.requests, key, j, Granted(key));
    assert OnKey(l.requests, key) + {j} == OnKey(l.requests, key);
    OneAction(l, a, key, m);
    OneAction(k1, b, key, m);
    OneAction(k2, c, key, m);
    Joined(l, [a], k1, [b], k2, key, m);
    Joined(l, [a] + [b], k2, [c], n, key, m);
    actions := [a] + [b] + [c];
  }

  lemma SettleOne(l: Ledger, key: string, j: nat, m: nat) returns (actions: seq<Action>, n: Ledger)
    requires Lined(l, key, j + 1) && j < m && l.pool > 0
    ensures IsCrowdedHistory(l, actions, n, key, m) && Lined(n, key, j)
    ensures n.pool == l.pool - 1
    ensures n.keys[key].credits == if l.keys[key].credits > 0 then l.keys[key].credits - 1 else 0
    ensures RecordOf(n, key).topUps == RecordOf(l, key).topUps
    ensures RecordOf(n, key).unbilled == RecordOf(l, key).unbilled + if l.keys[key].credits > 0 then 0 else 1
  {
    var a, k := ReachBilling(l, key, j, m);
    n := Act(k, Bill(j));
    CrowdAfter(k, Bill(j), key);
    OneAction(k, Bill(j), key, m);
    Joined(l, a, k, [Bill(j)], n, key, m);
    actions := a + [Bill(j)];
  }

  lemma {:induction false} SettleAll(l: Ledger, key: string, j: nat, m: nat) returns (actions: seq<Action>, n: Ledger)
    requires Lined(l, key, j) && j <= m && l.pool >= j && l.keys[key].credits <= 1
    ensures IsCrowdedHistory(l, actions, n, key, m) && Lined(n, key, 0)
    ensures n.pool == l.pool - j
    ensures n.keys[key].credits == if j == 0 then l.keys[key].credits else 0
    ensures RecordOf(n, key).topUps == RecordOf(l, key).topUps
    ensures RecordOf(n, key).unbilled
            == RecordOf(l, key).unbilled + if j > 0 && l.keys[key].credits == 1 then j - 1 else j
    decreases j
  {
    if j == 0 {
      actions, n := [], l;
    } else {
      var a, k := SettleOne(l, key, j - 1, m);
      var b;
      b, n := SettleAll(k, key, j - 1, m);
      Joined(l, a, k, b, n, key, m);
      actions := a + b;
    }
  }

  /** m requests pass the check of a key with one credit left; one is billed. */
  lemma OneWave(l: Ledger, key: string, m: nat) returns (actions: seq<Action>, n: Ledger)
    requires m >= 1 && Lined(l, key, 0) && l.keys[key].credits == 1 && l.pool >= m
    ensures IsCrowdedHistory(l, actions, n, key, m) && Lined(n, key, 0)
    ensures n.pool == l.pool - m && n.keys[key].credits == 0
    ensures RecordOf(n, key).topUps == RecordOf(l, key).topUps
    ensures RecordOf(n, key).unbilled == RecordOf(l, key).unbilled + (m - 1)
  {
    var a, k := AdmitUpTo(l, key, 0, m);
    var b;
    b, n := SettleAll(k, key, m, m);
    Joined(l, a, k, b, n, key, m);
    actions := a + b;
  }

  lemma TopUpOne(l: Ledger, key: string, m: nat) returns (actions: seq<Action>, n: Ledger)
    requires Lined(l, key, 0) && l.keys[key].credits == 0
    ensures IsCrowdedHistory(l, actions, n, key, m) && Lined(n, key, 0)
    ensures n.pool == l.pool && n.keys[key].credits == 1
    ensures RecordOf(n, key).topUps == RecordOf(l, key).topUps + 1
    ensures RecordOf(n, key).unbilled == RecordOf(l, key).unbilled
  {
    var a := Admin(Add(key, 1));
    n := Act(l, a);
    OneAction(l, a, key, m);
    actions := [a];
  }

  /** For every m and every number of top-ups there is a history that reaches the
      bound: waves of m requests, with a top-up of one credit between them. */
  lemma {:induction false} BoundIsAttained(l: Ledger, key: string, m: nat, topUps: nat)
    returns (actions: seq<Action>, n: Ledger)
    requires m >= 1 && Lined(l, key, 0) && RecordOf(l, key) == Record(0, 0, 0, 0)
    requires l.keys[key].credits == 1 && l.pool >= m * (topUps + 1)
    ensures IsCrowdedHistory(l, actions, n, key, m)
    ensures RecordOf(n, key).topUps == topUps
    ensures RecordOf(n, key).unbilled == (m - 1) * (topUps + 1)
    ensures Lined(n, key, 0) && n.keys[key].credits == 0 && n.pool == l.pool - m * (topUps + 1)
    decreases topUps
  {
    if topUps == 0 {
      actions, n := OneWave(l, key, m);
    } else {
      assert m * (topUps + 1) == m * topUps + m;
      assert (m - 1) * (topUps + 1) == (m - 1) * topUps + (m - 1);
      var a, k := BoundIsAttained(l, key, m, topUps - 1);
      var b, k2 := TopUpOne(k, key, m);
      var c;
      c, n := OneWave(k2, key, m);
      Joined(l, a, k, b, k2, key, m);
      Joined(l, a + b, k2, c, n, key, m);
      actions := a + b + c;
    }
  }
}
