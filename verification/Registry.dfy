// The master's registry of workers: the class with its locked fields, and the
// same operations as functions on a snapshot of those fields.

module Registry {
  import opened Wrappers
  import opened Text
  import opened Workers
  import LineCodec

  const FIRST_TUNNEL_PORT: nat := 18000
  const PORTS: nat := 47536
  const SUPER_NODE_VRAM_THRESHOLD: nat := 6144
  const SECOND: nat := 1000
  const REAP_AFTER: nat := 120 * SECOND

  /** `cmdConn` is the connection whose command channel the registry holds;
      `savedCredits` was read from the credits file at startup and never changes. */
  datatype Master = Master(
    workers: map<string, WorkerNode>,
    superId: Option<string>,
    cmdConn: Option<nat>,
    lastSlaves: seq<string>,
    nextPort: nat,
    version: u64,
    savedCredits: map<string, u64>)

  // ----- operations -----

  function PortAfter(port: nat): nat
  {
    var next := (port + 1) % 0x1_0000;
    if next < FIRST_TUNNEL_PORT then FIRST_TUNNEL_PORT else next
  }

  /** One REGISTER line as it reaches the handler. `now` is the clock. */
  datatype Registration = Registration(
    conn: nat, peer: string, id: string, vramMb: nat, ramMb: nat,
    cpuCores: nat, hasGpu: bool, rpcPort: nat, now: nat)
  {
    predicate Qualifies()
    {
      hasGpu && vramMb >= SUPER_NODE_VRAM_THRESHOLD
    }

    function RoleIf(vacant: bool): Role
    {
      if !Qualifies() then Consumer else if vacant then SuperNode else GpuProvider
    }

    function Node(role: Role, tunnelPort: nat, credits: u64): WorkerNode
    {
      WorkerNode(id, role, peer + ":" + Decimal(rpcPort), rpcPort, tunnelPort,
                 vramMb, vramMb, ramMb, ramMb, cpuCores, hasGpu, now, credits)
    }
  }

  function SavedCredit(m: Master, id: string): u64
  {
    if id in m.savedCredits then m.savedCredits[id] else 0
  }

  /** The REGISTER branch of the handler after its election check, which found
      the SuperNode seat vacant or not. */
  function RegisterGiven(m: Master, r: Registration, vacant: bool): Master
  {
    var role := r.RoleIf(vacant);
    if role.SuperNode? then
      m.(superId := Some(r.id), cmdConn := Some(r.conn), version := WrappingAdd(m.version, 2),
         workers := m.workers[r.id := r.Node(role, 0, SavedCredit(m, r.id))])
    else
      m.(nextPort := PortAfter(m.nextPort), version := WrappingAdd(m.version, 1),
         workers := m.workers[r.id := r.Node(role, m.nextPort, SavedCredit(m, r.id))])
  }

  /** The whole REGISTER branch as one step. */
  function Register(m: Master, r: Registration): Master
  {
    RegisterGiven(m, r, m.superId.None?)
  }

  function RegisterReply(m: Master, r: Registration, model: LineCodec.InitModel): LineCodec.InitModel
    requires model.SuperNode?
  {
    match r.RoleIf(m.superId.None?)
    case SuperNode => model
    case Consumer => LineCodec.InitModel.Consumer
    case GpuProvider => LineCodec.InitModel.GpuProvider(m.nextPort)
  }

  function Unregister(m: Master, id: string): Master
  {
    var wasSuper := m.superId == Some(id);
    m.(workers := m.workers - {id},
       superId := if wasSuper then None else m.superId,
       cmdConn := if wasSuper then None else m.cmdConn,
       version := WrappingAdd(m.version, 1))
  }

  function Heartbeat(m: Master, id: string, vramFreeMb: nat, ramFreeMb: nat, now: nat): Master
  {
    if id in m.workers then
      m.(workers := m.workers[id := m.workers[id].(vramFreeMb := vramFreeMb, ramFreeMb := ramFreeMb, lastPing := now)])
    else m
  }

  function CreditWorker(m: Master, id: string, amount: u64): Master
  {
    if id in m.workers then
      m.(workers := m.workers[id := m.workers[id].(credits := WrappingAdd(m.workers[id].credits, amount))],
         version := WrappingAdd(m.version, 1))
    else m
  }

  /** `order` is an order in which the hash map may be iterated. */
  ghost predicate IterationOrder(workers: map<string, WorkerNode>, order: seq<string>)
  {
    && (forall i, j :: 0 <= i < j < |order| ==> order[i] != order[j])
    && (forall id :: id in order <==> id in workers)
  }

  function SlaveAddrs(workers: map<string, WorkerNode>, order: seq<string>): seq<string>
  {
    if order == [] then []
    else
      var id := order[0];
      (if id in workers && workers[id].role.GpuProvider? then [workers[id].addr] else [])
      + SlaveAddrs(workers, order[1..])
  }

  /** The list has the addresses of exactly the GPU providers in the order. */
  lemma {:induction false} SlavesAreTheProviders(workers: map<string, WorkerNode>, order: seq<string>, addr: string)
    ensures addr in SlaveAddrs(workers, order)
            <==> exists id :: id in order && id in workers && workers[id].role.GpuProvider? && workers[id].addr == addr
  {
    if order != [] {
      SlavesAreTheProviders(workers, order[1..], addr);
      assert order == [order[0]] + order[1..];
    }
  }

  lemma {:induction false} SlavesInOrder(workers: map<string, WorkerNode>, a: seq<string>, b: seq<string>)
    ensures SlaveAddrs(workers, a + b) == SlaveAddrs(workers, a) + SlaveAddrs(workers, b)
  {
    if a == [] {
      assert a + b == b;
    } else {
      SlavesInOrder(workers, a[1..], b);
      assert (a + b)[0] == a[0] && (a + b)[1..] == a[1..] + b;
      var first := if a[0] in workers && workers[a[0]].role.GpuProvider? then [workers[a[0]].addr] else [];
      Assoc(first, SlaveAddrs(workers, a[1..]), SlaveAddrs(workers, b));
    }
  }

  /** The announcement a PING triggers after `slaves` was observed, if any. */
  function Announcement(m: Master, slaves: seq<string>): Option<seq<string>>
  {
    if slaves != m.lastSlaves && slaves != [] then Some(slaves) else None
  }

  function Observe(m: Master, slaves: seq<string>): Master
  {
    m.(lastSlaves := slaves)
  }

  predicate Stale(w: WorkerNode, now: nat)
  {
    now > w.lastPing + REAP_AFTER
  }

  function StaleIds(m: Master, now: nat): set<string>
  {
    set id | id in m.workers && Stale(m.workers[id], now)
  }

  /** One tick of the heartbeat checker as one step. */
  function Reap(m: Master, now: nat): Master
  {
    var stale := StaleIds(m, now);
    var superStale := m.superId.Some? && m.superId.value in stale;
    m.(workers := m.workers - stale,
       superId := if superStale then None else m.superId,
       cmdConn := if superStale then None else m.cmdConn,
       version := WrappingAdd(m.version, |stale|))
  }

  // ----- credits across restarts -----

  /** A readable credits file; an entry without a number counts as none. */
  datatype CreditsFile = CreditsFile(creditPool: Option<u64>, credits: map<string, u64>)

  const INITIAL_POOL: u64 := 1000

  function LoadCredits(file: Option<CreditsFile>): (u64, map<string, u64>)
  {
    if file.None? then (INITIAL_POOL, map[])
    else (if file.value.creditPool.Some? then file.value.creditPool.value else INITIAL_POOL, file.value.credits)
  }

  function CreditsOf(workers: map<string, WorkerNode>): map<string, u64>
  {
    map id | id in workers :: workers[id].credits
  }

  function Fresh(savedCredits: map<string, u64>): Master
  {
    Master(map[], None, None, [], FIRST_TUNNEL_PORT, 0, savedCredits)
  }

  /** A restart from a saved file has the saved pool, and a worker that registers gets
      its credits back exactly if it was registered when the file was saved. */
  lemma RestartKeepsTheRegistered(workers: map<string, WorkerNode>, creditPool: u64, r: Registration)
    ensures var loaded := LoadCredits(Some(CreditsFile(Some(creditPool), CreditsOf(workers))));
            && loaded.0 == creditPool
            && Register(Fresh(loaded.1), r).workers[r.id].credits == if r.id in workers then workers[r.id].credits
              else 0
  {
  }

  // ----- the registry object -----

  class WorkerRegistry {
    var workers: map<string, WorkerNode>
    var version: u64
    var superNodeId: Option<string>
    var lastSlaveList: seq<string>
    var tunnelPortAllocator: nat
    var superNodeCmdTx: Option<nat>
    const savedWorkerCredits: map<string, u64>
    const hasFile: bool
    var creditsFile: Option<CreditsFile>

    ghost function View(): Master
      reads this
    {
      Master(workers, superNodeId, superNodeCmdTx, lastSlaveList, tunnelPortAllocator, version, savedWorkerCredits)
    }

    constructor (hasFile: bool, file: Option<CreditsFile>)
      ensures View() == Fresh(if hasFile then LoadCredits(file).1 else map[])
      ensures this.hasFile == hasFile && creditsFile == file
    {
      this.hasFile, creditsFile := hasFile, file;
      workers := map[];
      version := 0;
      superNodeId := None;
      lastSlaveList := [];
      tunnelPortAllocator := FIRST_TUNNEL_PORT;
      superNodeCmdTx := None;
      savedWorkerCredits := if hasFile then LoadCredits(file).1 else map[];
    }

    method BumpVersion()
      modifies this`version
      ensures version == WrappingAdd(old(version), 1)
    {
      version := WrappingAdd(version, 1);
    }

    method AllocateTunnelPort() returns (port: nat)
      modifies this`tunnelPortAllocator
      ensures port == old(tunnelPortAllocator)
      ensures tunnelPortAllocator == PortAfter(port)
    {
      port := tunnelPortAllocator;
      tunnelPortAllocator := (tunnelPortAllocator + 1) % 0x1_0000;
      if tunnelPortAllocator < FIRST_TUNNEL_PORT {
        tunnelPortAllocator := FIRST_TUNNEL_PORT;
      }
    }

    method SetSuperNode(id: string)
      modifies this`superNodeId, this`version
      ensures superNodeId == Some(id) && version == WrappingAdd(old(version), 1)
    {
      superNodeId := Some(id);
      BumpVersion();
    }

    method RegisterNode(node: WorkerNode)
      modifies this`workers, this`version
      ensures workers == old(workers)[node.id := node] && version == WrappingAdd(old(version), 1)
    {
      workers := workers[node.id := node];
      BumpVersion();
    }

    /** The REGISTER branch of the connection handler, with nothing interleaved. */
    method HandleRegister(r: Registration, model: LineCodec.InitModel) returns (reply: LineCodec.InitModel)
      requires model.SuperNode?
      modifies this
      ensures View() == Register(old(View()), r) && creditsFile == old(creditsFile)
      ensures reply == RegisterReply(old(View()), r, model)
    {
      var role := Consumer;
      if r.hasGpu && r.vramMb >= SUPER_NODE_VRAM_THRESHOLD {
        if superNodeId.None? {
          SetSuperNode(r.id);
          role := SuperNode;
        } else {
          role := GpuProvider;
        }
      }
      var tunnelPort := 0;
      if !role.SuperNode? {
        tunnelPort := AllocateTunnelPort();
      }
      var saved := if r.id in savedWorkerCredits then savedWorkerCredits[r.id] else 0;
      RegisterNode(r.Node(role, tunnelPort, saved));
      if role.SuperNode? {
        superNodeCmdTx := Some(r.conn);
      }
      match role {
        case SuperNode => reply := model;
        case Consumer => reply := LineCodec.InitModel.Consumer;
        case GpuProvider => reply := LineCodec.InitModel.GpuProvider(tunnelPort);
      }
    }

    method UnregisterWorker(id: string)
      modifies this
      ensures View() == Unregister(old(View()), id) && creditsFile == old(creditsFile)
    {
      workers := workers - {id};
      if superNodeId == Some(id) {
        superNodeId := None;
        superNodeCmdTx := None;
      }
      BumpVersion();
    }

    method UpdateHeartbeat(id: string, vramFreeMb: nat, ramFreeMb: nat, now: nat) returns (known: bool)
      modifies this`workers
      ensures known <==> id in old(workers)
      ensures View() == Heartbeat(old(View()), id, vramFreeMb, ramFreeMb, now)
    {
      known := id in workers;
      if known {
        workers := workers[id := workers[id].(vramFreeMb := vramFreeMb, ramFreeMb := ramFreeMb, lastPing := now)];
      }
    }

    method SaveCredits(creditPool: u64)
      modifies this`creditsFile
      ensures creditsFile == if hasFile then Some(CreditsFile(Some(creditPool), CreditsOf(workers)))
              else old(creditsFile)
    {
      if hasFile {
        creditsFile := Some(CreditsFile(Some(creditPool), CreditsOf(workers)));
      }
    }

    method AddCreditsToSuperNode(amount: u64, creditPool: u64) returns (total: u64)
      modifies this
      ensures View() == if old(superNodeId).Some? then CreditWorker(old(View()), old(superNodeId).value, amount)
              else old(View())
      ensures total == if old(superNodeId).Some? && old(superNodeId).value in workers
                       then workers[old(superNodeId).value].credits else 0
      ensures creditsFile == if old(superNodeId).Some? && old(superNodeId).value in workers && hasFile
                             then Some(CreditsFile(Some(creditPool), CreditsOf(workers))) else old(creditsFile)
    {
      var sid := superNodeId;
      if sid.Some? && sid.value in workers {
        var w := workers[sid.value];
        total := WrappingAdd(w.credits, amount);
        workers := workers[sid.value := w.(credits := total)];
        BumpVersion();
        SaveCredits(creditPool);
        return;
      }
      total := 0;
    }

    method RpcSlaveAddrs(order: seq<string>) returns (addrs: seq<string>)
      ensures addrs == SlaveAddrs(workers, order)
    {
      addrs := [];
      for i := 0 to |order|
        invariant addrs + SlaveAddrs(workers, order[i..]) == SlaveAddrs(workers, order)
      {
        var id := order[i];
        assert order[i..][1..] == order[i + 1..];
        if id in workers && workers[id].role.GpuProvider? {
          addrs := addrs + [workers[id].addr];
        }
      }
    }

    method CheckSlaveChange(order: seq<string>) returns (update: Option<seq<string>>)
      modifies this`lastSlaveList
      ensures update == Announcement(old(View()), SlaveAddrs(workers, order))
      ensures View() == Observe(old(View()), SlaveAddrs(workers, order))
    {
      var current := RpcSlaveAddrs(order);
      update := None;
      if current != lastSlaveList {
        lastSlaveList := current;
        if current != [] {
          update := Some(current);
        }
      }
    }

    /** One tick of the heartbeat checker: collect the stale ids from a snapshot,
        then unregister them one by one. */
    method HeartbeatTick(order: seq<string>, now: nat)
      requires IterationOrder(workers, order)
      modifies this
      ensures View() == Reap(old(View()), now) && creditsFile == old(creditsFile)
    {
      var toRemove: seq<string> := [];
      for i := 0 to |order|
        invariant forall id :: id in toRemove <==> id in order[..i] && Stale(workers[id], now)
        invariant forall j, k :: 0 <= j < k < |toRemove| ==> toRemove[j] != toRemove[k]
      {
        assert order[i] !in order[..i];
        if now > workers[order[i]].lastPing + REAP_AFTER {
          toRemove := toRemove + [order[i]];
        }
        assert order[..i + 1] == order[..i] + [order[i]];
      }
      assert order[..|order|] == order;
      ghost var before := View();
      for i := 0 to |toRemove|
        invariant View() == UnregisterAll(before, toRemove[..i]) && creditsFile == old(creditsFile)
      {
        assert toRemove[..i + 1][..i] == toRemove[..i];
        UnregisterWorker(toRemove[i]);
      }
      assert toRemove[..|toRemove|] == toRemove;
      UnregisteringTheStaleIsReaping(before, toRemove, now);
    }
  }

  function UnregisterAll(m: Master, ids: seq<string>): Master
  {
    if ids == [] then m else Unregister(UnregisterAll(m, ids[..|ids| - 1]), ids[|ids| - 1])
  }

  /** The state after n unregistrations of the ids in s. */
  function Without(m: Master, s: set<string>, n: nat): Master
  {
    var superGone := m.superId.Some? && m.superId.value in s;
    m.(workers := m.workers - s,
       superId := if superGone then None else m.superId,
       cmdConn := if superGone then None else m.cmdConn,
       version := WrappingAdd(m.version, n))
  }

  lemma UnregisterOneMore(m: Master, s: set<string>, n: nat, id: string)
    ensures Unregister(Without(m, s, n), id) == Without(m, s + {id}, n + 1)
  {
    WrappingAddTwice(m.version, n, 1);
    assert m.workers - s - {id} == m.workers - (s + {id});
  }

  function Ids(ids: seq<string>): set<string>
  {
    set id | id in ids
  }

  lemma {:induction false} UnregisterAllAtOnce(m: Master, ids: seq<string>)
    ensures UnregisterAll(m, ids) == Without(m, Ids(ids), |ids|)
  {
    if ids == [] {
      assert m.workers - Ids(ids) == m.workers;
    } else {
      var front, last := ids[..|ids| - 1], ids[|ids| - 1];
      UnregisterAllAtOnce(m, front);
      assert ids == front + [last];
      assert Ids(ids) == Ids(front) + {last};
      UnregisterOneMore(m, Ids(front), |front|, last);
    }
  }

  lemma {:induction false} DistinctCount(ids: seq<string>, s: set<string>)
    requires forall j, k :: 0 <= j < k < |ids| ==> ids[j] != ids[k]
    requires forall id :: id in ids <==> id in s
    ensures |ids| == |s|
  {
    if ids == [] {
      assert s == {};
    } else {
      var front, last := ids[..|ids| - 1], ids[|ids| - 1];
      assert ids == front + [last];
      assert last in s && last !in front;
      DistinctCount(front, s - {last});
    }
  }

  /** The loop over the stale ids, in any order, has the effect of one step. */
  lemma UnregisteringTheStaleIsReaping(m: Master, ids: seq<string>, now: nat)
    requires forall j, k :: 0 <= j < k < |ids| ==> ids[j] != ids[k]
    requires forall id :: id in ids <==> id in StaleIds(m, now)
    ensures UnregisterAll(m, ids) == Reap(m, now)
  {
    UnregisterAllAtOnce(m, ids);
    DistinctCount(ids, StaleIds(m, now));
    assert Ids(ids) == StaleIds(m, now);
  }
}
