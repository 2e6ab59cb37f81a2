/** The queue's operations step by step under any number of threads: what is done under the lock,
    and the size that is read outside it. */
module QueueThreads {
  import opened Prelude

  // Where a thread is inside an operation. A push grows the array before it stores the value;
  // a pop replaces the array before it lowers the size; a clear lowers the size first.
  datatype Thread<T> =
    | Idle
    | Checked // has seen that there is something to pop
    | WaitsToPush(value: T)
    | WaitsToPop // has asserted that there is something to pop
    | WaitsToClear
    | Grown(value: T)
    | Taken(value: T)
    | Shrunk(value: T)
    | Emptied
    | Unlocks

  datatype Move<T> = BeginPush(value: T) | BeginClear | Check | Go

  // removed and pushed remember what has left and what has entered, in order.
  datatype Shared<T> = Shared(
    values: seq<Option<T>>, size: nat, writer: Option<nat>, threads: seq<Thread<T>>,
    pushed: seq<T>, removed: seq<T>, failed: bool)

  predicate Inside<T>(thread: Thread<T>) {
    thread.Grown? || thread.Taken? || thread.Shrunk? || thread.Emptied? || thread.Unlocks?
  }

  function Cells<T>(values: seq<T>): seq<Option<T>> {
    seq(|values|, i requires 0 <= i < |values| => Some(values[i]))
  }

  // The values of the cells, as far as they have been stored.
  function Stored<T>(cells: seq<Option<T>>): seq<T> {
    if cells == [] || cells[0].None? then [] else [cells[0].value] + Stored(cells[1..])
  }

  // Taking the lock and the first step under it.
  function Locked<T>(s: Shared<T>, t: nat): Shared<T>
    requires t < |s.threads|
  {
    var entered := s.(writer := Some(t));
    match s.threads[t]
    case WaitsToPush(value) =>
      entered.(values := s.values + [None], size := s.size + 1, threads := s.threads[t := Grown(value)])
    case WaitsToPop =>
      // asserts that there is an array, and reads its first cell
      if s.values == [] || s.values[0].None? then s.(failed := true)
      else entered.(threads := s.threads[t := Taken(s.values[0].value)])
    case WaitsToClear => entered.(size := 0, threads := s.threads[t := Emptied])
    case _ => s
  }

  function Do<T>(s: Shared<T>, t: nat, move: Move<T>): Shared<T> {
    if t >= |s.threads| || s.failed then s
    else match (move, s.threads[t])
      case (BeginPush(value), Idle) => s.(threads := s.threads[t := WaitsToPush(value)])
      case (BeginClear, Idle) => s.(threads := s.threads[t := WaitsToClear])
      case (Check, Idle) => if s.size == 0 then s else s.(threads := s.threads[t := Checked])
      case (Go, Checked) =>
        if s.size == 0 then s.(failed := true) else s.(threads := s.threads[t := WaitsToPop])
      case (Go, Grown(value)) =>
        if s.values == [] then s
        else s.(values := s.values[|s.values| - 1 := Some(value)], pushed := s.pushed + [value],
                threads := s.threads[t := Unlocks])
      case (Go, Taken(value)) =>
        if s.values == [] then s else s.(values := s.values[1..], threads := s.threads[t := Shrunk(value)])
      case (Go, Shrunk(value)) =>
        s.(size := |s.values|, removed := s.removed + [value], threads := s.threads[t := Unlocks])
      case (Go, Emptied) =>
        s.(values := [], removed := s.removed + Stored(s.values), threads := s.threads[t := Unlocks])
      case (Go, Unlocks) => s.(writer := None, threads := s.threads[t := Idle])
      case (Go, _) => if s.writer.Some? then s else Locked(s, t)
      case _ => s
  }

  datatype Step<T> = Step(t: nat, move: Move<T>)

  function Run<T>(s: Shared<T>, steps: seq<Step<T>>): Shared<T>
    decreases |steps|
  {
    if steps == [] then s else Run(Do(s, steps[0].t, steps[0].move), steps[1..])
  }

  ghost predicate Initial<T(!new)>(s: Shared<T>) {
    && s.values == [] && s.size == 0 && s.writer.None? && s.pushed == s.removed == [] && !s.failed
    && forall t :: 0 <= t < |s.threads| ==> s.threads[t].Idle?
  }

  // -------- The abstract queue --------

  // What the queue holds as seen by whoever gets the lock next: an operation under way has
  // not happened until its last step.
  function Contents<T>(s: Shared<T>): seq<T> {
    if s.writer.None? || s.writer.value >= |s.threads| then Stored(s.values)
    else match s.threads[s.writer.value]
      case Shrunk(value) => [value] + Stored(s.values)
      case _ => Stored(s.values)
  }

  lemma {:induction false} StoredCells<T>(values: seq<T>)
    ensures Stored(Cells(values)) == values
    ensures Stored(Cells(values) + [None]) == values
  {
    if values == [] {
      assert Cells(values) + [None] == [None];
    } else {
      StoredCells(values[1..]);
      assert Cells(values)[1..] == Cells(values[1..]);
      assert (Cells(values) + [None])[1..] == Cells(values[1..]) + [None];
    }
  }

  // Only the writer is inside.
  predicate Owned<T>(s: Shared<T>) {
    && (s.writer.Some? ==> s.writer.value < |s.threads|)
    && (forall t :: 0 <= t < |s.threads| ==> (Inside(s.threads[t]) <==> s.writer == Some(t)))
  }

  // Up to where the writer is, the array and the size agree with the contents.
  ghost predicate Agrees<T(!new)>(writer: Thread<T>, values: seq<Option<T>>, size: nat, contents: seq<T>) {
    match writer
    case Grown(_) => values == Cells(contents) + [None] && size == |contents| + 1
    case Taken(value) => values == Cells(contents) && size == |contents| > 0 && value == contents[0]
    case Shrunk(_) => contents != [] && values == Cells(contents[1..]) && size == |contents|
    case Emptied => values == Cells(contents) && size == 0
    case _ => values == Cells(contents) && size == |contents|
  }

  // And every value pushed is still there or has been removed, in order.
  ghost predicate Inv<T(!new)>(s: Shared<T>) {
    && Owned(s)
    && Agrees(if s.writer.None? then Idle else s.threads[s.writer.value], s.values, s.size, Contents(s))
    && s.removed + Contents(s) == s.pushed
  }

  lemma StepOwned<T(!new)>(s: Shared<T>, t: nat, move: Move<T>)
    requires Owned(s)
    ensures Owned(Do(s, t, move))
  {
  }

  // No thread but one pops or clears, and what it has seen is still there.
  ghost predicate OneRemover<T(!new)>(s: Shared<T>, remover: nat) {
    && !s.failed
    && (forall t :: 0 <= t < |s.threads| && t != remover ==>
          s.threads[t].Idle? || s.threads[t].WaitsToPush? || s.threads[t].Grown? || s.threads[t].Unlocks?)
    && (remover < |s.threads| && (s.threads[remover].Checked? || s.threads[remover].WaitsToPop?) ==> s.size > 0)
  }

  // What a step does to the abstract queue: it pushes one value at the back, takes one off the
  // front, empties it, or leaves it alone.
  ghost predicate Refines<T(!new)>(s: Shared<T>, s': Shared<T>, t: nat)
    requires t < |s.threads|
  {
    var contents, contents' := Contents(s), Contents(s');
    match s.threads[t]
    case Grown(value) => contents' == contents + [value]
    case Shrunk(value) => contents == [value] + contents'
    case Emptied => contents' == []
    case _ => contents' == contents
  }

  lemma GoGrown<T(!new)>(s: Shared<T>, t: nat)
    requires Inv(s) && !s.failed && s.writer == Some(t) && s.threads[t].Grown?
    ensures var s' := Do(s, t, Go); Inv(s') && Refines(s, s', t) && !s'.failed
  {
    var s', contents := Do(s, t, Go), Contents(s);
    StepOwned(s, t, Go);
    hide Owned;
    var value := s.threads[t].value;
    assert s'.values == Cells(contents + [value]);
    StoredCells(contents + [value]);
  }

  lemma GoTaken<T(!new)>(s: Shared<T>, t: nat)
    requires Inv(s) && !s.failed && s.writer == Some(t) && s.threads[t].Taken?
    ensures var s' := Do(s, t, Go); Inv(s') && Refines(s, s', t) && !s'.failed
  {
    var s', contents := Do(s, t, Go), Contents(s);
    StepOwned(s, t, Go);
    hide Owned;
    assert s'.values == Cells(contents[1..]);
    StoredCells(contents);
    StoredCells(contents[1..]);
  }

  lemma GoShrunk<T(!new)>(s: Shared<T>, t: nat)
    requires Inv(s) && !s.failed && s.writer == Some(t) && s.threads[t].Shrunk?
    ensures var s' := Do(s, t, Go); Inv(s') && Refines(s, s', t) && !s'.failed
  {
    var s', contents := Do(s, t, Go), Contents(s);
    StepOwned(s, t, Go);
    hide Owned;
    var value, rest := s.threads[t].value, Stored(s.values);
    assert contents == [value] + rest && contents[1..] == rest;
    assert s.removed + [value] + rest == s.removed + contents;
    assert |s.values| == |rest|;
    assert s'.threads[t] == Unlocks;
    hide Stored, Cells;
  }

  lemma GoEmptied<T(!new)>(s: Shared<T>, t: nat)
    requires Inv(s) && !s.failed && s.writer == Some(t) && s.threads[t].Emptied?
    ensures var s' := Do(s, t, Go); Inv(s') && Refines(s, s', t) && !s'.failed
  {
    var s', contents := Do(s, t, Go), Contents(s);
    StepOwned(s, t, Go);
    hide Owned;
    StoredCells(contents);
    assert s'.values == Cells<T>([]);
  }

  lemma GoUnlocks<T(!new)>(s: Shared<T>, t: nat)
    requires Inv(s) && !s.failed && s.writer == Some(t) && s.threads[t].Unlocks?
    ensures var s' := Do(s, t, Go); Inv(s') && Refines(s, s', t) && !s'.failed
  {
    var s', contents := Do(s, t, Go), Contents(s);
    StepOwned(s, t, Go);
    hide Owned;
    StoredCells(contents);
  }

  lemma GoInside<T(!new)>(s: Shared<T>, t: nat)
    requires Inv(s) && !s.failed && s.writer == Some(t)
    ensures var s' := Do(s, t, Go); Inv(s') && Refines(s, s', t) && !s'.failed
  {
    assert Inside(s.threads[t]);
    match s.threads[t]
    case Grown(_) => GoGrown(s, t);
    case Taken(_) => GoTaken(s, t);
    case Shrunk(_) => GoShrunk(s, t);
    case Emptied => GoEmptied(s, t);
    case Unlocks => GoUnlocks(s, t);
    case _ => assert false;
  }

  lemma GoLocking<T(!new)>(s: Shared<T>, t: nat)
    requires Inv(s) && t < |s.threads| && !s.failed && s.writer.None?
    ensures var s' := Do(s, t, Go); Inv(s') && Refines(s, s', t)
    ensures s.threads[t].WaitsToPop? && s.size > 0 ==> !Do(s, t, Go).failed
  {
    StepOwned(s, t, Go);
    StoredCells(Contents(s));
    assert !Inside(s.threads[t]);
    hide Owned;
    match s.threads[t] {
      case WaitsToPop => assert s.values == Cells(Contents(s));
      case _ =>
    }
  }

  // In any interleaving each step does to the contents what its operation should, all at once.
  lemma StepRefines<T(!new)>(s: Shared<T>, t: nat, move: Move<T>)
    requires Inv(s) && t < |s.threads|
    ensures Inv(Do(s, t, move))
    ensures if move.Go? && !s.failed then Refines(s, Do(s, t, move), t) else Contents(Do(s, t, move)) == Contents(s)
  {
    StepOwned(s, t, move);
    if move.Go? && !s.failed && s.writer == Some(t) {
      GoInside(s, t);
    } else if move.Go? && !s.failed && s.writer.None? {
      GoLocking(s, t);
    } else {
      var s' := Do(s, t, move);
      assert s'.values == s.values && s'.size == s.size && s'.writer == s.writer;
      assert s.writer.Some? ==> s.writer.value == t || s'.threads[s.writer.value] == s.threads[s.writer.value];
      assert s.writer == Some(t) ==> Inside(s.threads[t]);
      assert !Inside(s.threads[t]) ==> s.writer != Some(t);
      hide Owned;
    }
  }

  // -------- Whole runs --------

  lemma InitialInv<T(!new)>(s: Shared<T>)
    requires Initial(s)
    ensures Inv(s)
  {
    assert Cells<T>([]) == [];
  }

  lemma {:induction false} RunKeeps<T(!new)>(s: Shared<T>, steps: seq<Step<T>>)
    requires Inv(s)
    ensures Inv(Run(s, steps))
    decreases |steps|
  {
    if steps != [] {
      if steps[0].t < |s.threads| {
        StepRefines(s, steps[0].t, steps[0].move);
      }
      RunKeeps(Do(s, steps[0].t, steps[0].move), steps[1..]);
    }
  }

  // First in, first out: whatever the interleaving, what has been popped or cleared is, in order,
  // the beginning of what has been pushed, and the rest of it is in the queue.
  lemma FirstInFirstOut<T(!new)>(s: Shared<T>, steps: seq<Step<T>>)
    requires Initial(s)
    ensures var s' := Run(s, steps);
      && s'.removed + Contents(s') == s'.pushed
      && (s'.writer.None? ==> s'.values == Cells(Contents(s')) && s'.size == |Contents(s')|)
  {
    InitialInv(s);
    RunKeeps(s, steps);
  }

  // -------- The unlocked check --------

  predicate Removes<T>(move: Move<T>) {
    move.Check? || move.BeginClear?
  }

  // Only these threads pop and clear.
  predicate RemovedBy<T>(steps: seq<Step<T>>, removers: set<nat>) {
    forall k :: 0 <= k < |steps| && Removes(steps[k].move) ==> steps[k].t in removers
  }

  // A failure is a check or a pop that finds nothing.
  lemma GoFails<T(!new)>(s: Shared<T>, t: nat)
    requires Inv(s) && t < |s.threads| && !s.failed && s.size > 0
    ensures !Do(s, t, Go).failed
  {
    assert Inside(s.threads[t]) <==> s.writer == Some(t);
    if s.writer == Some(t) {
      GoInside(s, t);
    } else if s.writer.None? {
      GoLocking(s, t);
    }
    hide Inv, Refines;
  }

  lemma RemoverKeeps<T(!new)>(s: Shared<T>, remover: nat, t: nat, move: Move<T>)
    requires Inv(s) && OneRemover(s, remover)
    requires move.Check? || move.BeginClear? ==> t == remover
    ensures OneRemover(Do(s, t, move), remover)
  {
    if t < |s.threads| && move.Go? && s.size > 0 {
      GoFails(s, t);
    }
    hide Inv;
  }

  lemma {:induction false} RemoverNeverFails<T(!new)>(s: Shared<T>, steps: seq<Step<T>>, removers: set<nat>, remover: nat)
    requires Inv(s) && OneRemover(s, remover) && RemovedBy(steps, removers)
    requires forall t :: t in removers && t < |s.threads| ==> t == remover
    ensures !Run(s, steps).failed
    decreases |steps|
  {
    if steps != [] {
      var t, move := steps[0].t, steps[0].move;
      if t < |s.threads| {
        RemoverKeeps(s, remover, t, move);
        StepRefines(s, t, move);
      }
      assert |Do(s, t, move).threads| == |s.threads|;
      hide Do, Inv, OneRemover;
      RemoverNeverFails(Do(s, t, move), steps[1..], removers, remover);
    }
  }

  // With a single thread that pops and clears, no pop that follows a successful check finds the queue empty.
  lemma OneRemoverNeverPopsEmpty<T(!new)>(s: Shared<T>, steps: seq<Step<T>>, remover: nat)
    requires Initial(s) && RemovedBy(steps, {remover})
    ensures !Run(s, steps).failed
  {
    InitialInv(s);
    RemoverNeverFails(s, steps, {remover}, remover);
  }

  // -------- Nobody is stuck --------

  // How many steps an operation has before it.
  function Distance<T>(thread: Thread<T>): nat {
    match thread
    case Idle => 0
    case Checked => 5
    case WaitsToPop => 4
    case WaitsToPush(_) => 3
    case WaitsToClear => 3
    case Taken(_) => 3
    case Grown(_) => 2
    case Shrunk(_) => 2
    case Emptied => 2
    case Unlocks => 1
  }

  function Distances<T>(threads: seq<Thread<T>>): nat {
    if threads == [] then 0 else Distance(threads[0]) + Distances(threads[1..])
  }

  lemma {:induction false} Nearer<T>(threads: seq<Thread<T>>, t: nat, thread: Thread<T>)
    requires t < |threads|
    ensures Distances(threads[t := thread]) + Distance(threads[t]) == Distances(threads) + Distance(thread)
  {
    if t == 0 {
      assert threads[0 := thread][1..] == threads[1..];
    } else {
      assert threads[t := thread][1..] == threads[1..][t - 1 := thread];
      Nearer(threads[1..], t - 1, thread);
    }
  }

  // What the steps rely on.
  predicate CanGo<T>(s: Shared<T>, t: nat) {
    && !s.failed && t < |s.threads| && !s.threads[t].Idle?
    && (if Inside(s.threads[t]) then s.threads[t].Grown? || s.threads[t].Taken? ==> s.values != [] else s.writer.None?)
    && (s.threads[t].Checked? ==> s.size > 0)
    && (s.threads[t].WaitsToPop? ==> s.values != [] && s.values[0].Some?)
  }

  lemma GoShortens<T>(s: Shared<T>, t: nat)
    requires CanGo(s, t)
    ensures var v := Do(s, t, Go);
      && !v.failed && |v.threads| == |s.threads| && v.threads == s.threads[t := v.threads[t]]
      && Distance(v.threads[t]) < Distance(s.threads[t])
  {
    hide Stored;
  }

  lemma CanGoOn<T(!new)>(s: Shared<T>, t: nat)
    requires Inv(s) && !s.failed && t < |s.threads| && !s.threads[t].Idle?
    requires s.writer.None? || s.writer == Some(t)
    requires s.threads[t].Checked? || s.threads[t].WaitsToPop? ==> s.size > 0
    ensures CanGo(s, t)
  {
    assert Inside(s.threads[t]) <==> s.writer == Some(t);
    hide Stored;
  }

  // Whoever is inside goes on, and otherwise anybody does.
  lemma GoesOn<T(!new)>(s: Shared<T>, t: nat)
    requires Inv(s) && !s.failed && t < |s.threads| && !s.threads[t].Idle?
    requires s.writer.None? || s.writer == Some(t)
    requires s.threads[t].Checked? || s.threads[t].WaitsToPop? ==> s.size > 0
    ensures var v := Do(s, t, Go);
      !v.failed && |v.threads| == |s.threads| && Distances(v.threads) < Distances(s.threads)
  {
    CanGoOn(s, t);
    GoShortens(s, t);
    hide Inv, Do, CanGo;
    Nearer(s.threads, t, Do(s, t, Go).threads[t]);
  }

  lemma IdleIsFree<T(!new)>(s: Shared<T>)
    requires Inv(s) && forall t :: 0 <= t < |s.threads| ==> s.threads[t].Idle?
    ensures s.writer.None?
  {
    hide Agrees, Stored;
  }

  // From every state of a run with a single remover some run finishes every operation that has begun.
  lemma {:induction false} EverybodyCanFinish<T(!new)>(s: Shared<T>, remover: nat) returns (steps: seq<Step<T>>)
    requires Inv(s) && OneRemover(s, remover)
    ensures forall i :: 0 <= i < |steps| ==> steps[i].move.Go?
    ensures var v := Run(s, steps);
      !v.failed && v.writer.None? && forall t :: 0 <= t < |v.threads| ==> v.threads[t].Idle?
    decreases Distances(s.threads)
  {
    if i :| 0 <= i < |s.threads| && !s.threads[i].Idle? {
      var t := if s.writer.Some? then s.writer.value else i;
      assert s.writer.Some? ==> Inside(s.threads[s.writer.value]);
      GoesOn(s, t);
      StepRefines(s, t, Go);
      RemoverKeeps(s, remover, t, Go);
      var rest := EverybodyCanFinish(Do(s, t, Go), remover);
      steps := [Step(t, Go)] + rest;
      assert steps[1..] == rest;
    } else {
      steps := [];
      IdleIsFree(s);
    }
  }

  // -------- Two removing threads --------

  // What threads i and j are doing.
  function Both<T>(s: Shared<T>, i: nat, j: nat, x: Thread<T>, y: Thread<T>): Shared<T>
    requires i < |s.threads| && j < |s.threads|
  {
    s.(threads := s.threads[i := x][j := y])
  }

  // One step of thread i or j at the head of a run.
  lemma RunOn<T(!new)>(s: Shared<T>, step: Step<T>, next: Shared<T>, rest: seq<Step<T>>, removers: set<nat>)
    requires Do(s, step.t, step.move) == next
    requires RemovedBy(rest, removers) && (Removes(step.move) ==> step.t in removers)
    ensures Run(s, [step] + rest) == Run(next, rest) && RemovedBy([step] + rest, removers)
  {
    assert ([step] + rest)[1..] == rest;
  }

  // What a step of i makes of it, and of j.
  lemma BothStep<T>(s: Shared<T>, i: nat, j: nat, x: Thread<T>, y: Thread<T>, z: Thread<T>)
    requires i < |s.threads| && j < |s.threads| && i != j
    ensures Both(s, i, j, x, y).threads[i] == x && Both(s, i, j, x, y).threads[j] == y
    ensures Both(s, i, j, x, y).threads[i := z] == Both(s, i, j, z, y).threads
    ensures Both(s, i, j, x, y).threads[j := z] == Both(s, i, j, x, z).threads
  {
  }

  // Thread i pushes a value, and nobody else does anything.
  lemma PushingAlone<T(!new)>(s: Shared<T>, i: nat, j: nat, value: T, rest: seq<Step<T>>, removers: set<nat>)
    returns (steps: seq<Step<T>>)
    requires Initial(s) && i < |s.threads| && j < |s.threads| && i != j && RemovedBy(rest, removers)
    ensures RemovedBy(steps, removers)
    ensures Run(s, steps) == Run(Both(s.(values := [Some(value)], size := 1, pushed := [value]), i, j, Idle, Idle), rest)
  {
    var grown := s.(values := [None], size := 1, writer := Some(i));
    steps := StoringAlone(grown, i, j, value, rest, removers);
    assert s.threads[i].Idle? && s.threads[j].Idle? && Both(s, i, j, Idle, Idle).threads == s.threads;
    assert grown.(values := [Some(value)], pushed := [value], writer := None)
        == s.(values := [Some(value)], size := 1, pushed := [value]);
    BothStep(s, i, j, Idle, Idle, WaitsToPush(value));
    BothStep(s, i, j, WaitsToPush(value), Idle, Grown(value));
    hide Run, RemovedBy, Both;
    RunOn(Both(s, i, j, WaitsToPush(value), Idle), Step(i, Go), Both(grown, i, j, Grown(value), Idle), steps, removers);
    steps := [Step(i, Go)] + steps;
    RunOn(s, Step(i, BeginPush(value)), Both(s, i, j, WaitsToPush(value), Idle), steps, removers);
    steps := [Step(i, BeginPush(value))] + steps;
  }

  lemma StoringAlone<T(!new)>(s: Shared<T>, i: nat, j: nat, value: T, rest: seq<Step<T>>, removers: set<nat>)
    returns (steps: seq<Step<T>>)
    requires i < |s.threads| && j < |s.threads| && i != j && RemovedBy(rest, removers)
    requires s.values == [None] && s.pushed == [] && !s.failed
    ensures RemovedBy(steps, removers)
    ensures Run(Both(s, i, j, Grown(value), Idle), steps)
         == Run(Both(s.(values := [Some(value)], pushed := [value], writer := None), i, j, Idle, Idle), rest)
  {
    var stored := s.(values := [Some(value)], pushed := [value]);
    BothStep(s, i, j, Grown(value), Idle, Unlocks);
    BothStep(stored, i, j, Unlocks, Idle, Idle);
    assert s.values[0 := Some(value)] == stored.values && s.pushed + [value] == [value];
    hide Run, RemovedBy, Both;
    RunOn(Both(stored, i, j, Unlocks, Idle), Step(i, Go), Both(stored.(writer := None), i, j, Idle, Idle), rest, removers);
    steps := [Step(i, Go)] + rest;
    RunOn(Both(s, i, j, Grown(value), Idle), Step(i, Go), Both(stored, i, j, Unlocks, Idle), steps, removers);
    steps := [Step(i, Go)] + steps;
  }

  // Both see the one value.
  lemma CheckingTwice<T(!new)>(s: Shared<T>, i: nat, j: nat, rest: seq<Step<T>>, removers: set<nat>)
    returns (steps: seq<Step<T>>)
    requires i < |s.threads| && j < |s.threads| && i != j && i in removers && j in removers
    requires s.size > 0 && !s.failed && RemovedBy(rest, removers)
    ensures RemovedBy(steps, removers) && Run(Both(s, i, j, Idle, Idle), steps) == Run(Both(s, i, j, Checked, Checked), rest)
  {
    BothStep(s, i, j, Idle, Idle, Checked);
    BothStep(s, i, j, Checked, Idle, Checked);
    hide Run, RemovedBy, Both;
    RunOn(Both(s, i, j, Checked, Idle), Step(j, Check), Both(s, i, j, Checked, Checked), rest, removers);
    steps := [Step(j, Check)] + rest;
    RunOn(Both(s, i, j, Idle, Idle), Step(i, Check), Both(s, i, j, Checked, Idle), steps, removers);
    steps := [Step(i, Check)] + steps;
  }

  // The first takes it.
  lemma TakingIt<T(!new)>(s: Shared<T>, i: nat, j: nat, value: T, rest: seq<Step<T>>, removers: set<nat>)
    returns (steps: seq<Step<T>>)
    requires i < |s.threads| && j < |s.threads| && i != j && RemovedBy(rest, removers)
    requires s.values == [Some(value)] && s.size == 1 && s.writer.None? && !s.failed
    ensures RemovedBy(steps, removers)
    ensures Run(Both(s, i, j, Checked, Checked), steps)
         == Run(Both(s.(writer := Some(i)), i, j, Taken(value), Checked), rest)
  {
    var taken := s.(writer := Some(i));
    BothStep(s, i, j, Checked, Checked, WaitsToPop);
    BothStep(s, i, j, WaitsToPop, Checked, Taken(value));
    hide Run, RemovedBy, Both;
    RunOn(Both(s, i, j, WaitsToPop, Checked), Step(i, Go), Both(taken, i, j, Taken(value), Checked), rest, removers);
    steps := [Step(i, Go)] + rest;
    RunOn(Both(s, i, j, Checked, Checked), Step(i, Go), Both(s, i, j, WaitsToPop, Checked), steps, removers);
    steps := [Step(i, Go)] + steps;
  }

  // And the second finds it gone.
  lemma FindingItGone<T(!new)>(s: Shared<T>, i: nat, j: nat, value: T, removers: set<nat>) returns (steps: seq<Step<T>>)
    requires i < |s.threads| && j < |s.threads| && i != j
    requires s.values == [Some(value)] && s.size == 1 && s.writer == Some(i) && !s.failed
    ensures RemovedBy(steps, removers) && Run(Both(s, i, j, Taken(value), Checked), steps).failed
  {
    var shrunk := s.(values := []);
    var gone := shrunk.(size := 0, removed := s.removed + [value]);
    BothStep(s, i, j, Taken(value), Checked, Shrunk(value));
    BothStep(s, i, j, Shrunk(value), Checked, Unlocks);
    BothStep(gone, i, j, Unlocks, Checked, Checked);
    assert s.values[1..] == [];
    var failed := Both(gone, i, j, Unlocks, Checked).(failed := true);
    NoSteps(failed, removers);
    hide Run, RemovedBy, Both;
    steps := [];
    RunOn(Both(gone, i, j, Unlocks, Checked), Step(j, Go), failed, steps, removers);
    steps := [Step(j, Go)] + steps;
    RunOn(Both(shrunk, i, j, Shrunk(value), Checked), Step(i, Go), Both(gone, i, j, Unlocks, Checked), steps, removers);
    steps := [Step(i, Go)] + steps;
    RunOn(Both(s, i, j, Taken(value), Checked), Step(i, Go), Both(shrunk, i, j, Shrunk(value), Checked), steps, removers);
    steps := [Step(i, Go)] + steps;
  }

  lemma NoSteps<T(!new)>(s: Shared<T>, removers: set<nat>)
    ensures Run(s, []) == s && RemovedBy<T>([], removers)
  {
  }

  // Any two removing threads of any system can fail.
  lemma TwoRemoversCanFail<T(!new)>(s: Shared<T>, i: nat, j: nat, value: T, removers: set<nat>)
    requires Initial(s) && i < |s.threads| && j < |s.threads| && i != j && i in removers && j in removers
    ensures exists steps :: RemovedBy(steps, removers) && Run(s, steps).failed
  {
    var full := s.(values := [Some(value)], size := 1, pushed := [value]);
    var popping := FindingItGone(full.(writer := Some(i)), i, j, value, removers);
    popping := TakingIt(full, i, j, value, popping, removers);
    popping := CheckingTwice(full, i, j, popping, removers);
    var steps := PushingAlone(s, i, j, value, popping, removers);
  }

  // The unlocked check is safe exactly for a single remover: no run in which these threads pop and
  // clear fails if and only if at most one thread is among them.
  lemma SafeForOneRemoverOnly<T(!new)>(s: Shared<T>, removers: set<nat>, value: T)
    requires Initial(s)
    ensures (forall steps :: RemovedBy(steps, removers) ==> !Run(s, steps).failed) <==>
            (forall i, j :: i in removers && j in removers && i < |s.threads| && j < |s.threads| ==> i == j)
  {
    hide Run;
    if i, j :| i in removers && j in removers && i < |s.threads| && j < |s.threads| && i != j {
      TwoRemoversCanFail(s, i, j, value, removers);
    } else {
      var remover := if t: nat :| t in removers && t < |s.threads| then t else |s.threads|;
      InitialInv(s);
      forall steps | RemovedBy(steps, removers)
        ensures !Run(s, steps).failed
      {
        RemoverNeverFails(s, steps, removers, remover);
      }
    }
  }
}
