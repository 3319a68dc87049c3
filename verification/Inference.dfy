// The replies that name numbers and addresses: to a PING, and to INFER.

module Inference {
  import opened Wrappers
  import opened Text
  import opened Workers
  import opened LineCodec
  import opened Registry
  import opened ConnectionHandler
  import opened Heartbeat

  // ----- PING -----

  /** The reply to a printed PING, byte by byte: the credits the registry has for that
      worker, and the list of providers if it is a new one and not empty. */
  lemma PingIsAnswered(m: Master, config: seq<ModelEntry>, conn: nat, peer: string, id: string, vramFreeMb: nat,
                       ramFreeMb: nat, now: nat, order: seq<string>)
    requires CleanId(id) && vramFreeMb <= U64_MAX && ramFreeMb <= U64_MAX
    ensures var line := Line(ReadLine(PrintPing(id, vramFreeMb, ramFreeMb)).0, now, order);
            var slaves := SlaveAddrs(m.workers, order);
            ReplyTo(m, config, conn, peer, line)
            == if id !in m.workers then "ERROR:worker_not_found\n"
               else "PONG:CREDITS=" + Decimal(m.workers[id].credits) + "\n"
                    + if slaves == [] || slaves == m.lastSlaves then ""
                      else "UPDATE_SLAVES:" + Join(slaves, ',') + "\n"
  {
    PingRoundTrip(id, vramFreeMb, ramFreeMb, "");
    assert PrintPing(id, vramFreeMb, ramFreeMb) + "" == PrintPing(id, vramFreeMb, ramFreeMb);
    if id in m.workers {
      PongText(m.workers[id].credits, Announcement(m, SlaveAddrs(m.workers, order)));
    }
  }

  lemma PongText(credits: u64, update: Option<seq<string>>)
    ensures ReplyText(Pong(credits, update))
            == "PONG:CREDITS=" + Decimal(credits) + "\n"
               + if update.None? then "" else "UPDATE_SLAVES:" + Join(update.value, ',') + "\n"
  {
    var pong := "PONG:CREDITS=" + Decimal(credits) + "\n";
    if update.None? {
      assert pong + "" == pong;
    } else {
      var text := Join(update.value, ',');
      assert pong + "UPDATE_SLAVES:" + text + "\n" == pong + ("UPDATE_SLAVES:" + text + "\n");
    }
  }

  // ----- INFER -----

  /** Entry k is the first of this name. */
  predicate FirstNamed(config: seq<ModelEntry>, name: string, k: nat)
  {
    k < |config| && config[k].name == name && forall j :: 0 <= j < k ==> config[j].name != name
  }

  lemma {:induction false} FindIsFirst(config: seq<ModelEntry>, name: string, k: nat)
    requires FirstNamed(config, name, k)
    ensures Find(config, name) == Some(config[k])
  {
    if k > 0 {
      FindIsFirst(config[1..], name, k - 1);
    }
  }

  lemma {:induction false} FindIsNone(config: seq<ModelEntry>, name: string)
    requires forall j :: 0 <= j < |config| ==> config[j].name != name
    ensures Find(config, name).None?
  {
    if config != [] {
      FindIsNone(config[1..], name);
    }
  }

  /** The workers that take part, in the order of the map. */
  function Taking(workers: map<string, WorkerNode>, order: seq<string>): seq<string>
  {
    if order == [] then []
    else
      (if order[0] in workers && !workers[order[0]].role.Consumer? then [order[0]] else [])
      + Taking(workers, order[1..])
  }

  lemma {:induction false} TakingAreTheComputing(workers: map<string, WorkerNode>, order: seq<string>)
    ensures var gpu, ids := LayerSplit.GpuWorkers(Listed(workers, order)), Taking(workers, order);
            && |gpu| == |ids|
            && (forall i :: 0 <= i < |ids| ==> ids[i] in workers && gpu[i] == workers[ids[i]])
            && (forall id :: id in ids <==> id in order && id in workers && !workers[id].role.Consumer?)
  {
    if order != [] {
      var id := order[0];
      TakingAreTheComputing(workers, order[1..]);
      LayerSplit.ComputingInOrder(if id in workers then [workers[id]] else [], Listed(workers, order[1..]));
      assert order == [id] + order[1..];
      if id in workers {
        assert LayerSplit.GpuWorkers([workers[id]]) == if workers[id].role.Consumer? then [] else [workers[id]];
      }
    }
  }

  lemma {:induction false} ListedIsEmpty(workers: map<string, WorkerNode>, order: seq<string>)
    ensures Listed(workers, order) == [] <==> forall id :: id in order ==> id !in workers
  {
    if order != [] {
      ListedIsEmpty(workers, order[1..]);
      assert order == [order[0]] + order[1..];
    }
  }

  /** What an INFER is answered with, from the lists in the reply: an address and a layer
      count for each worker that is no consumer, in the order of the map, or the local
      server alone. */
  ghost predicate IsSplit(workers: map<string, WorkerNode>, order: seq<string>, totalLayers: nat,
                          addrs: seq<string>, counts: seq<nat>)
  {
    var ids := Taking(workers, order);
    && |addrs| == |counts|
    && (if ids == [] then addrs == ["127.0.0.1:8090"]
        else |addrs| == |ids| && forall i :: 0 <= i < |ids| ==> ids[i] in workers && addrs[i] == workers[ids[i]].addr)
    && LayerSplit.Sum(counts) == totalLayers
    && (forall i, j :: 0 <= i < |counts| && 0 <= j < |counts| ==> counts[i] <= counts[j] + 1)
  }

  lemma SplitIsASplit(workers: map<string, WorkerNode>, order: seq<string>, totalLayers: nat)
    requires |Taking(workers, order)| < TWO_32
    ensures var split := LayerSplit.TensorSplit(totalLayers, Listed(workers, order));
            split.Some? && IsSplit(workers, order, totalLayers, Addresses(split.value), LayerSplit.Layers(split.value))
  {
    TakingAreTheComputing(workers, order);
    var listed := Listed(workers, order);
    if Taking(workers, order) == [] {
      var ls := LayerSplit.Layers([("127.0.0.1:8090", totalLayers)]);
      assert ls == [totalLayers] && ls[..0] == [];
      assert Addresses([("127.0.0.1:8090", totalLayers)]) == ["127.0.0.1:8090"];
    } else {
      var base, extra := LayerSplit.SharesByIndex(totalLayers, listed);
      LayerSplit.SplitSumsToTotal(totalLayers, listed);
    }
  }

  function Texts(counts: seq<nat>): seq<string>
  {
    seq(|counts|, i requires 0 <= i < |counts| => Decimal(counts[i]))
  }

  lemma InferText(workers: map<string, WorkerNode>, config: seq<ModelEntry>, name: string, order: seq<string>)
    returns (addrs: seq<string>, counts: seq<nat>)
    requires IterationOrder(workers, order) && |Taking(workers, order)| < TWO_32
    ensures var reply := InferReply(workers, config, name, order);
            && ((forall e :: e in config ==> e.name != name) ==>
                  reply == "ERROR:model_not_available:" + Join(Names(config), ',') + "\n")
            && (forall k: nat :: FirstNamed(config, name, k) ==>
                  if workers == map[] then reply == "ERROR:no_workers_available\n"
                  else
                    && IsSplit(workers, order, config[k].totalLayers, addrs, counts)
                    && reply == "RPC_CHAIN:" + Join(addrs, ',') + ":" + Join(Texts(counts), ',') + "\n")
  {
    addrs, counts := [], [];
    if k: nat :| FirstNamed(config, name, k) {
      FindIsFirst(config, name, k);
      ListedIsEmpty(workers, order);
      if workers != map[] {
        SplitIsASplit(workers, order, config[k].totalLayers);
        var split := LayerSplit.TensorSplit(config[k].totalLayers, Listed(workers, order)).value;
        addrs, counts := Addresses(split), LayerSplit.Layers(split);
        assert Counts(split) == Texts(counts);
        var id :| id in workers;
        assert id in order;
      }
      forall j: nat | FirstNamed(config, name, j) ensures j == k {}
    }
    if forall e :: e in config ==> e.name != name {
      FindIsNone(config, name);
    }
  }

  /** A printed INFER is answered: no entry of that name, or no workers, is told in an
      error; otherwise the layers of the first entry of that name are all shared out, as
      evenly as can be, to exactly the workers that are no consumers. */
  lemma InferIsAnswered(m: Master, config: seq<ModelEntry>, conn: nat, peer: string, name: string, now: nat,
                        order: seq<string>)
    returns (addrs: seq<string>, counts: seq<nat>)
    requires ':' !in name && '\n' !in name && (name != "" ==> !IsWhite(name[|name| - 1]))
    requires IterationOrder(m.workers, order) && |Taking(m.workers, order)| < TWO_32
    ensures forall id :: id in Taking(m.workers, order) <==> id in m.workers && !m.workers[id].role.Consumer?
    ensures var reply := ReplyTo(m, config, conn, peer, Line(ReadLine("INFER:" + name + "\n").0, now, order));
            && ((forall e :: e in config ==> e.name != name) ==>
                  reply == "ERROR:model_not_available:" + Join(Names(config), ',') + "\n")
            && (forall k: nat :: FirstNamed(config, name, k) ==>
                  if m.workers == map[] then reply == "ERROR:no_workers_available\n"
                  else
                    && IsSplit(m.workers, order, config[k].totalLayers, addrs, counts)
                    && reply == "RPC_CHAIN:" + Join(addrs, ',') + ":" + Join(Texts(counts), ',') + "\n")
  {
    InferArrives(name);
    TakingAreTheComputing(m.workers, order);
    addrs, counts := InferText(m.workers, config, name, order);
  }
}
