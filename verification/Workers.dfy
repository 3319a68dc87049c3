// What the master knows about one worker.

module Workers {
  datatype Role = Consumer | SuperNode | GpuProvider

  /** `lastPing` is a point in time in milliseconds. */
  datatype WorkerNode = WorkerNode(
    id: string, role: Role, addr: string, rpcPort: nat, tunnelPort: nat,
    vramMb: nat, vramFreeMb: nat, ramMb: nat, ramFreeMb: nat,
    cpuCores: nat, hasGpu: bool, lastPing: nat, credits: u64)

  const TWO_32: nat := 0x1_0000_0000
  const TWO_64: nat := 0x1_0000_0000_0000_0000

  type u64 = n: nat | n < TWO_64

  /** Addition as a release build does it: wrapping around. */
  function WrappingAdd(a: u64, b: nat): u64
  {
    (a + b) % TWO_64
  }

  lemma WrappingAddTwice(a: u64, b: nat, c: nat)
    ensures WrappingAdd(WrappingAdd(a, b), c) == WrappingAdd(a, b + c)
  {
  }
}
