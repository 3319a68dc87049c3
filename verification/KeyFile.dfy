// The key file under any number of threads.

module KeyFile {
  import opened ApiKeys

  /** Every operation is two critical sections: the change, and then the save of
      whatever the map is by then. `log` lists the changes in the order the lock
      admitted them, `saved` how many of them the last save included, and
      `pending` the threads that have changed the map but not yet saved it, with
      the place of their change in the log. */
  datatype Threads = Threads(
    keys: KeyMap, file: Document, log: seq<Op>, saved: nat, pending: map<nat, nat>)

  datatype Step =
    | Mutate(thread: nat, op: Op)
    | Save(thread: nat)

  predicate Enabled(s: Threads, step: Step)
  {
    match step
    case Mutate(t, _) => t !in s.pending
    case Save(t) => t in s.pending
  }

  function Next(s: Threads, step: Step): Threads
    requires Enabled(s, step)
  {
    match step
    case Mutate(t, op) =>
      if Changes(s.keys, op) then
        s.(keys := Apply(s.keys, op), log := s.log + [op], pending := s.pending[t := |s.log|])
      else s
    case Save(t) =>
      s.(file := Keys(s.keys), saved := |s.log|, pending := s.pending - {t})
  }

  function Start(file: Document): Threads
  {
    Threads(Load(file), file, [], 0, map[])
  }

  ghost predicate IsRun(s: Threads, steps: seq<Step>, t: Threads)
    decreases |steps|
  {
    if steps == [] then s == t
    else Enabled(s, steps[0]) && IsRun(Next(s, steps[0]), steps[1..], t)
  }

  function Replay(m: KeyMap, log: seq<Op>): KeyMap
  {
    if log == [] then m else Apply(Replay(m, log[..|log| - 1]), log[|log| - 1])
  }

  /** Some thread has made change i and not saved yet. */
  ghost predicate Unsaved(s: Threads, i: nat)
  {
    exists u :: u in s.pending && s.pending[u] == i
  }

  ghost predicate Durable(start: Document, s: Threads)
  {
    && s.saved <= |s.log|
    && s.keys == Replay(Load(start), s.log)
    && Load(s.file) == Replay(Load(start), s.log[..s.saved])
    && (s.file == start || s.file.Keys?)
    && (forall i :: s.saved <= i < |s.log| ==> Unsaved(s, i))
    && (forall t :: t in s.pending ==> s.pending[t] < |s.log|)
  }

  lemma DurableChange(start: Document, s: Threads, t: nat, op: Op)
    requires Durable(start, s) && Enabled(s, Mutate(t, op)) && Changes(s.keys, op)
    ensures Durable(start, Next(s, Mutate(t, op)))
  {
    var n := Next(s, Mutate(t, op));
    assert n.log[..|n.log| - 1] == s.log;
    assert n.log[..n.saved] == s.log[..s.saved];
    forall i | n.saved <= i < |n.log| ensures Unsaved(n, i) {
      if i < |s.log| {
        assert Unsaved(s, i);
        var u :| u in s.pending && s.pending[u] == i;
        assert n.pending[u] == i;
      } else {
        assert n.pending[t] == i;
      }
    }
  }

  lemma DurableSave(start: Document, s: Threads, t: nat)
    requires Durable(start, s) && Enabled(s, Save(t))
    ensures Durable(start, Next(s, Save(t)))
  {
    var n := Next(s, Save(t));
    assert n.log[..n.saved] == n.log;
  }

  lemma DurableStep(start: Document, s: Threads, step: Step)
    requires Durable(start, s) && Enabled(s, step)
    ensures Durable(start, Next(s, step))
  {
    match step
    case Mutate(t, op) =>
      if Changes(s.keys, op) {
        DurableChange(start, s, t, op);
      }
    case Save(t) => DurableSave(start, s, t);
  }

  lemma {:induction false} DurableRun(start: Document, s: Threads, steps: seq<Step>, t: Threads)
    requires Durable(start, s) && IsRun(s, steps, t)
    ensures Durable(start, t)
    decreases |steps|
  {
    if steps != [] {
      DurableStep(start, s, steps[0]);
      DurableRun(start, Next(s, steps[0]), steps[1..], t);
    }
  }

  /** In every interleaving, whatever the file was at the start, reading the file
      back gives the map after a prefix of the changes in lock order, and a change
      missing from it belongs to a thread that has not saved yet. */
  lemma FileIsAPrefixOfTheChanges(start: Document, steps: seq<Step>, t: Threads)
    requires IsRun(Start(start), steps, t)
    ensures t.saved <= |t.log|
    ensures t.keys == Replay(Load(start), t.log)
    ensures Load(t.file) == Replay(Load(start), t.log[..t.saved])
    ensures forall i :: t.saved <= i < |t.log| ==> Unsaved(t, i)
  {
    DurableRun(start, Start(start), steps, t);
  }

  /** Once no operation is under way the file reads back as the map, and it holds
      the map itself unless nothing ever changed. */
  lemma FileAgreesAtQuiescence(start: Document, steps: seq<Step>, t: Threads)
    requires IsRun(Start(start), steps, t)
    ensures Load(t.file) != t.keys ==> t.pending != map[]
    ensures t.pending == map[] ==> Load(t.file) == t.keys
    ensures t.pending == map[] ==> (t.file == Keys(t.keys) <==> t.log != [] || start.Keys?)
  {
    DurableRun(start, Start(start), steps, t);
    FileWrittenRun(start, Start(start), steps, t);
    if t.pending == map[] {
      assert !Unsaved(t, t.saved);
      assert t.saved == |t.log|;
      assert t.log[..t.saved] == t.log;
    }
  }

  /** A save happened as soon as some change is in the file. */
  ghost predicate FileWritten(start: Document, s: Threads)
  {
    && (s.saved > 0 ==> s.file.Keys?)
    && (s.saved == 0 ==> s.file == start)
    && (s.log == [] ==> s.pending == map[])
    && (forall t :: t in s.pending ==> s.log != [])
  }

  lemma {:induction false} FileWrittenRun(start: Document, s: Threads, steps: seq<Step>, t: Threads)
    requires FileWritten(start, s) && IsRun(s, steps, t)
    ensures FileWritten(start, t)
    decreases |steps|
  {
    if steps != [] {
      FileWrittenRun(start, Next(s, steps[0]), steps[1..], t);
    }
  }
}
