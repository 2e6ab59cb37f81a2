/** The reader-counting lock of src/utils/rwMutex.c under any number of threads. */
module RwMutex {

  // Where a thread is. A call is one or two steps: the counter changes atomically, and only
  // then is the mutex taken or released.
  datatype Thread =
    | Out
    | FirstWaits // has raised the counter to one and waits for the mutex
    | Reads(barged: bool) // barged: it came while a first reader was waiting
    | Releases // has lowered the counter to zero and is about to release the mutex
    | Writes

  datatype Move = EnterRead | ObtainFirst | LeaveRead | Release | LockWrite | UnlockWrite

  datatype Lock = Lock(counter: nat, locked: bool, threads: seq<Thread>)

  function Moved(s: Lock, t: nat, thread: Thread): Lock
    requires t < |s.threads|
  {
    s.(threads := s.threads[t := thread])
  }

  // One atomic step of thread t. A move that the thread cannot make changes nothing.
  function Do(s: Lock, t: nat, move: Move): Lock {
    if t >= |s.threads| then s
    else match (move, s.threads[t])
      case (EnterRead, Out) =>
        var next := Moved(s, t, if s.counter == 0 then FirstWaits else Reads(FirstWaits in s.threads));
        next.(counter := s.counter + 1)
      case (ObtainFirst, FirstWaits) => if s.locked then s else Moved(s, t, Reads(false)).(locked := true)
      case (LeaveRead, Reads(_)) =>
        if s.counter == 0 then s
        else Moved(s, t, if s.counter == 1 then Releases else Out).(counter := s.counter - 1)
      case (Release, Releases) => Moved(s, t, Out).(locked := false)
      case (LockWrite, Out) => if s.locked then s else Moved(s, t, Writes).(locked := true)
      case (UnlockWrite, Writes) => Moved(s, t, Out).(locked := false)
      case _ => s
  }

  datatype Step = Step(t: nat, move: Move)

  function Run(s: Lock, steps: seq<Step>): Lock
    decreases |steps|
  {
    if steps == [] then s else Run(Do(s, steps[0].t, steps[0].move), steps[1..])
  }

  predicate Initial(s: Lock) {
    s.counter == 0 && !s.locked && forall thread :: thread in s.threads ==> thread == Out
  }

  // -------- The invariant --------

  // Readers share the mutex that the first of them obtained, once none of them waits for it.
  predicate Session(s: Lock) {
    s.counter > 0 && FirstWaits !in s.threads
  }

  function Count(threads: seq<Thread>, thread: Thread): nat {
    multiset(threads)[thread]
  }

  // The counter counts the readers, one waiting at most, and the mutex is held by a writer, by a
  // reader on its way out or by the readers together: by exactly one of them when it is locked.
  predicate Inv(s: Lock) {
    && s.counter == Count(s.threads, FirstWaits) + Count(s.threads, Reads(false)) + Count(s.threads, Reads(true))
    && Count(s.threads, FirstWaits) <= 1
    && Count(s.threads, Writes) + Count(s.threads, Releases) + (if Session(s) then 1 else 0)
       == (if s.locked then 1 else 0)
    && (Count(s.threads, FirstWaits) == 1 ==> Count(s.threads, Reads(false)) == 0)
  }

  lemma Counted(threads: seq<Thread>, thread: Thread)
    ensures thread in threads <==> Count(threads, thread) > 0
  {
    assert thread in threads <==> thread in multiset(threads);
  }

  // Every thread out: no other state is to be found.
  lemma NobodyElse(threads: seq<Thread>)
    requires forall thread :: thread in threads ==> thread == Out
    ensures forall thread :: thread != Out ==> Count(threads, thread) == 0
  {
    forall thread | thread != Out
      ensures Count(threads, thread) == 0
    {
      Counted(threads, thread);
    }
  }

  lemma InitialInv(s: Lock)
    requires Initial(s)
    ensures Inv(s)
  {
    NobodyElse(s.threads);
  }

  // How a count changes when one thread moves on.
  lemma Replaced(threads: seq<Thread>, t: nat, thread: Thread, k: Thread)
    requires t < |threads|
    ensures Count(threads[t := thread], k)
         == Count(threads, k) - (if k == threads[t] then 1 else 0) + (if k == thread then 1 else 0)
  {
    assert threads[t] in multiset(threads);
    assert multiset(threads[t := thread]) == multiset(threads) - multiset{threads[t]} + multiset{thread};
  }

  // What one thread's move from was to now does to the counts.
  lemma Moves(s: Lock, t: nat, move: Move)
    requires t < |s.threads|
    ensures var v := Do(s, t, move); var was, now := s.threads[t], v.threads[t];
      && v.threads == s.threads[t := now]
      && (forall k :: Count(v.threads, k) == Count(s.threads, k) - (if k == was then 1 else 0) + (if k == now then 1 else 0))
      && (FirstWaits in s.threads <==> Count(s.threads, FirstWaits) > 0)
      && (FirstWaits in v.threads <==> Count(v.threads, FirstWaits) > 0)
  {
    var v := Do(s, t, move);
    assert v.threads == s.threads[t := v.threads[t]];
    forall k
      ensures Count(v.threads, k)
           == Count(s.threads, k) - (if k == s.threads[t] then 1 else 0) + (if k == v.threads[t] then 1 else 0)
    {
      Replaced(s.threads, t, v.threads[t], k);
    }
    Counted(s.threads, FirstWaits);
    Counted(v.threads, FirstWaits);
    hide Count, Do;
  }

  lemma EnteringKeeps(s: Lock, t: nat, move: Move)
    requires Inv(s) && t < |s.threads| && (move.EnterRead? || move.ObtainFirst?)
    ensures Inv(Do(s, t, move))
  {
    Moves(s, t, move);
    hide Count;
  }

  lemma LeavingKeeps(s: Lock, t: nat, move: Move)
    requires Inv(s) && t < |s.threads| && (move.LeaveRead? || move.Release?)
    ensures Inv(Do(s, t, move))
  {
    Moves(s, t, move);
    hide Count;
  }

  lemma WritingKeeps(s: Lock, t: nat, move: Move)
    requires Inv(s) && t < |s.threads| && (move.LockWrite? || move.UnlockWrite?)
    ensures Inv(Do(s, t, move))
  {
    Moves(s, t, move);
    hide Count;
  }

  lemma StepKeeps(s: Lock, t: nat, move: Move)
    requires Inv(s)
    ensures Inv(Do(s, t, move))
  {
    if t < |s.threads| {
      match move {
        case EnterRead => EnteringKeeps(s, t, move);
        case ObtainFirst => EnteringKeeps(s, t, move);
        case LeaveRead => LeavingKeeps(s, t, move);
        case Release => LeavingKeeps(s, t, move);
        case _ => WritingKeeps(s, t, move);
      }
      hide Inv, Do;
    }
  }

  lemma {:induction false} RunKeeps(s: Lock, steps: seq<Step>)
    requires Inv(s)
    ensures Inv(Run(s, steps))
    decreases |steps|
  {
    if steps != [] {
      StepKeeps(s, steps[0].t, steps[0].move);
      RunKeeps(Do(s, steps[0].t, steps[0].move), steps[1..]);
    }
  }

  // -------- What the lock gives --------

  lemma Twice(threads: seq<Thread>, i: nat, j: nat)
    requires i < j < |threads| && threads[i] == threads[j]
    ensures multiset(threads)[threads[i]] >= 2
  {
    assert threads == threads[..j] + threads[j..];
    assert threads[..j][i] == threads[i] && threads[j..][0] == threads[j];
  }

  // At most one thread writes, and while one does nobody is about to release the mutex.
  lemma OneWriter(s: Lock, steps: seq<Step>, i: nat, j: nat)
    requires Initial(s)
    ensures var threads := Run(s, steps).threads;
      i < j < |threads| ==> !(threads[i] in {Writes, Releases} && threads[j] in {Writes, Releases})
  {
    InitialInv(s);
    RunKeeps(s, steps);
    var threads := Run(s, steps).threads;
    if i < j < |threads| {
      if threads[i] == threads[j] {
        Twice(threads, i, j);
      }
      assert threads[i] in multiset(threads) && threads[j] in multiset(threads);
    }
  }

  // Who is where after a step.
  lemma Whereabouts(s: Lock, t: nat, move: Move, thread: Thread)
    requires t < |s.threads|
    ensures var after := Do(s, t, move).threads;
      && |after| == |s.threads|
      && (thread in after ==> thread in s.threads || thread == after[t])
      && (thread in s.threads ==> thread in after || thread == s.threads[t])
      && after[t] in after
  {
    var after := Do(s, t, move).threads;
    assert forall i :: 0 <= i < |s.threads| && i != t ==> after[i] == s.threads[i];
    assert after[t] in after;
  }

  // From the moment a first reader obtains the mutex until the last reader releases it.
  predicate ReadersHold(s: Lock) {
    Session(s) || Releases in s.threads
  }

  // While the readers hold the mutex nobody writes, and only the release ends that.
  lemma ReadersKeepWritersOut(s: Lock, t: nat, move: Move)
    requires Inv(s) && ReadersHold(s)
    ensures Writes !in s.threads
    ensures ReadersHold(Do(s, t, move)) || (t < |s.threads| && s.threads[t].Releases? && move == Release)
  {
    Counted(s.threads, Releases);
    Counted(s.threads, Writes);
    if t < |s.threads| {
      Whereabouts(s, t, move, FirstWaits);
      Whereabouts(s, t, move, Releases);
      Counted(s.threads, s.threads[t]);
    }
    hide Count;
  }

  lemma ObtainingStartsIt(s: Lock, t: nat)
    requires Inv(s) && t < |s.threads| && s.threads[t].FirstWaits? && !s.locked
    ensures ReadersHold(Do(s, t, ObtainFirst))
  {
    var after := Do(s, t, ObtainFirst).threads;
    assert after == s.threads[t := Reads(false)];
    assert multiset(after) == multiset(s.threads) - multiset{FirstWaits} + multiset{Reads(false)};
    assert FirstWaits in after ==> FirstWaits in multiset(after);
    assert FirstWaits in multiset(s.threads);
  }

  // -------- What it does not give --------

  predicate Overlap(s: Lock) {
    Writes in s.threads && (Reads(false) in s.threads || Reads(true) in s.threads)
  }

  // A reader beside a writer came while a first reader was still waiting, and that one waits on.
  lemma OverlapNeedsBarging(s: Lock)
    requires Inv(s) && Overlap(s)
    ensures FirstWaits in s.threads && Reads(true) in s.threads && Reads(false) !in s.threads
  {
    assert Writes in multiset(s.threads);
    assert Reads(false) in s.threads ==> Reads(false) in multiset(s.threads);
    assert Reads(true) in s.threads ==> Reads(true) in multiset(s.threads);
    assert multiset(s.threads)[FirstWaits] > 0 ==> FirstWaits in multiset(s.threads);
  }

  // Exactly the two steps that make readers and a writer overlap.
  lemma OverlapBegins(s: Lock, t: nat, move: Move)
    requires Inv(s) && !Overlap(s)
    ensures Overlap(Do(s, t, move)) <==>
            t < |s.threads| && s.threads[t].Out? &&
            ((move == EnterRead && s.counter > 0 && Writes in s.threads) ||
             (move == LockWrite && !s.locked && Reads(true) in s.threads))
  {
    if t < |s.threads| {
      Whereabouts(s, t, move, Writes);
      Whereabouts(s, t, move, Reads(true));
      Whereabouts(s, t, move, Reads(false));
      StepKeeps(s, t, move);
      if Overlap(Do(s, t, move)) {
        OverlapNeedsBarging(Do(s, t, move));
      }
      hide Inv;
    }
  }

  // No reader comes while a first reader waits.
  predicate Patient(s: Lock, steps: seq<Step>)
    decreases |steps|
  {
    steps == [] ||
    (!(steps[0].move == EnterRead && FirstWaits in s.threads)
     && Patient(Do(s, steps[0].t, steps[0].move), steps[1..]))
  }

  lemma {:induction false} NobodyBarges(s: Lock, steps: seq<Step>)
    requires Inv(s) && Reads(true) !in s.threads && Patient(s, steps)
    ensures Reads(true) !in Run(s, steps).threads
    decreases |steps|
  {
    if steps != [] {
      var next := Do(s, steps[0].t, steps[0].move);
      StepKeeps(s, steps[0].t, steps[0].move);
      assert forall i :: 0 <= i < |s.threads| && i != steps[0].t ==> next.threads[i] == s.threads[i];
      NobodyBarges(next, steps[1..]);
    }
  }

  // Without such arrivals the lock excludes readers from writers.
  lemma PatientRunsExclude(s: Lock, steps: seq<Step>)
    requires Initial(s) && Patient(s, steps)
    ensures !Overlap(Run(s, steps))
  {
    InitialInv(s);
    RunKeeps(s, steps);
    NobodyBarges(s, steps);
    if Overlap(Run(s, steps)) {
      OverlapNeedsBarging(Run(s, steps));
    }
  }

  // With them it does not: a writer is inside, a first reader waits, and a second one walks in.
  lemma ExclusionFails()
    ensures var s := Lock(0, false, [Out, Out, Out]);
      Initial(s) && Overlap(Run(s, [Step(0, LockWrite), Step(1, EnterRead), Step(2, EnterRead)]))
  {
    var s := Lock(0, false, [Out, Out, Out]);
    var steps := [Step(0, LockWrite), Step(1, EnterRead), Step(2, EnterRead)];
    var s1 := Do(s, 0, LockWrite);
    assert s1 == Lock(0, true, [Writes, Out, Out]);
    var s2 := Do(s1, 1, EnterRead);
    assert s2 == Lock(1, true, [Writes, FirstWaits, Out]);
    var s3 := Do(s2, 2, EnterRead);
    assert s2.threads[1] == FirstWaits;
    assert s3 == Lock(2, true, [Writes, FirstWaits, Reads(true)]);
    assert steps[1..][1..] == [Step(2, EnterRead)] && steps[1..][1..][1..] == [];
    assert Run(s, steps) == Run(s1, steps[1..]) == Run(s2, steps[1..][1..]) == Run(s3, []);
    assert s3.threads[0] == Writes && s3.threads[2] == Reads(true);
  }

  // When every thread is out again the lock is as it was at the start.
  lemma NothingIsLeaked(s: Lock, steps: seq<Step>)
    requires Initial(s)
    requires forall thread :: thread in Run(s, steps).threads ==> thread == Out
    ensures Initial(Run(s, steps))
  {
    InitialInv(s);
    RunKeeps(s, steps);
    NobodyElse(Run(s, steps).threads);
  }

  // -------- Nobody is stuck --------

  // Releasing leaves the mutex free and the thread out.
  lemma ReleasedIsFree(s: Lock, t: nat, move: Move)
    requires Inv(s) && t < |s.threads|
    requires (move == Release && s.threads[t].Releases?) || (move == UnlockWrite && s.threads[t].Writes?)
    ensures var v := Do(s, t, move); s.locked && !v.locked && v.threads == s.threads[t := Out] && v.counter == s.counter
  {
    Counted(s.threads, s.threads[t]);
    hide Count;
  }

  // How far a thread is from being out.
  function Distance(thread: Thread): nat {
    match thread
    case Out => 0
    case FirstWaits => 3
    case Reads(_) => 2
    case Releases => 1
    case Writes => 1
  }

  function Distances(threads: seq<Thread>): nat {
    if threads == [] then 0 else Distance(threads[0]) + Distances(threads[1..])
  }

  lemma {:induction false} Nearer(threads: seq<Thread>, t: nat, thread: Thread)
    requires t < |threads|
    ensures Distances(threads[t := thread]) + Distance(threads[t]) == Distances(threads) + Distance(thread)
  {
    if t == 0 {
      assert threads[0 := thread][1..] == threads[1..];
    } else {
      assert threads[t := thread][1..] == threads[1..][t - 1 := thread];
      Nearer(threads[1..], t - 1, thread);
    }
  }

  // The step that this thread can take towards being out: only a first reader may have to wait.
  function Outward(thread: Thread): Move {
    match thread
    case FirstWaits => ObtainFirst
    case Reads(_) => LeaveRead
    case Releases => Release
    case _ => UnlockWrite
  }

  lemma OneNearer(s: Lock, t: nat)
    requires Inv(s) && t < |s.threads| && !s.threads[t].Out? && (s.threads[t].FirstWaits? ==> !s.locked)
    ensures |Do(s, t, Outward(s.threads[t])).threads| == |s.threads|
    ensures Distances(Do(s, t, Outward(s.threads[t])).threads) < Distances(s.threads)
  {
    var v := Do(s, t, Outward(s.threads[t]));
    Counted(s.threads, s.threads[t]);
    hide Count;
    assert v.threads == s.threads[t := v.threads[t]];
    Nearer(s.threads, t, v.threads[t]);
  }

  // While somebody is not out, somebody can take such a step.
  lemma SomebodyCanLeave(s: Lock) returns (t: nat)
    requires Inv(s) && exists i :: 0 <= i < |s.threads| && !s.threads[i].Out?
    ensures t < |s.threads| && !s.threads[t].Out? && (s.threads[t].FirstWaits? ==> !s.locked)
  {
    t :| t < |s.threads| && !s.threads[t].Out?;
    if s.threads[t].FirstWaits? && s.locked {
      Counted(s.threads, FirstWaits);
      Counted(s.threads, Writes);
      Counted(s.threads, Releases);
      assert Writes in s.threads || Releases in s.threads;
      t :| t < |s.threads| && s.threads[t] in {Writes, Releases};
    }
  }

  // Steps that let no reader or writer in anew.
  predicate Leaving(steps: seq<Step>) {
    forall i :: 0 <= i < |steps| ==> steps[i].move != EnterRead && steps[i].move != LockWrite
  }

  // From every state some run brings everybody out, and then the lock is as it was at the start.
  lemma {:induction false} EverybodyCanLeave(s: Lock) returns (steps: seq<Step>)
    requires Inv(s)
    ensures Leaving(steps) && |Run(s, steps).threads| == |s.threads| && Initial(Run(s, steps))
    decreases Distances(s.threads)
  {
    if i :| 0 <= i < |s.threads| && !s.threads[i].Out? {
      var t := SomebodyCanLeave(s);
      var step := Step(t, Outward(s.threads[t]));
      OneNearer(s, t);
      StepKeeps(s, t, step.move);
      var rest := EverybodyCanLeave(Do(s, t, step.move));
      steps := [step] + rest;
      assert steps[1..] == rest;
    } else {
      steps := [];
      NobodyElse(s.threads);
    }
  }

  // A waiting first reader needs no more than one step of somebody else to obtain the mutex.
  lemma WaiterGetsIn(s: Lock, t: nat) returns (steps: seq<Step>)
    requires Inv(s) && t < |s.threads| && s.threads[t].FirstWaits?
    ensures |steps| <= 1 && (forall i :: 0 <= i < |steps| ==> steps[i].t != t) && Leaving(steps)
    ensures var v := Do(Run(s, steps), t, ObtainFirst);
      t < |v.threads| && v.threads[t] == Reads(false) && v.locked && ReadersHold(v)
  {
    steps := [];
    if s.locked {
      Counted(s.threads, FirstWaits);
      Counted(s.threads, Writes);
      Counted(s.threads, Releases);
      var other: nat :| other < |s.threads| && s.threads[other] in {Writes, Releases};
      steps := [Step(other, Outward(s.threads[other]))];
      ReleasedIsFree(s, other, steps[0].move);
      StepKeeps(s, other, steps[0].move);
      assert Run(s, steps) == Do(s, other, steps[0].move) by {
        assert steps[1..] == [];
      }
    }
    ObtainingStartsIt(Run(s, steps), t);
    hide Inv, Run;
  }

  // -------- The lock itself --------

  // The two fields of the source, beside where the threads are.
  class RWMutex {
    var counter: nat
    var locked: bool
    ghost var threads: seq<Thread>

    ghost function State(): Lock
      reads this
    {
      Lock(counter, locked, threads)
    }

    constructor (ghost count: nat)
      ensures Initial(State()) && |threads| == count
    {
      counter, locked := 0, false;
      threads := seq(count, _ => Out);
    }

    // The first half of a read lock; first: the caller goes on to the mutex.
    method RaiseCounter(ghost t: nat) returns (first: bool)
      requires t < |threads| && threads[t].Out?
      modifies this
      ensures State() == Do(old(State()), t, EnterRead)
      ensures first <==> threads[t].FirstWaits?
      ensures counter == old(counter) + 1 && (first <==> counter == 1) && (!first ==> threads[t].Reads?)
    {
      threads := threads[t := if counter == 0 then FirstWaits else Reads(FirstWaits in threads)];
      counter := counter + 1;
      first := counter == 1;
    }

    // An attempt to take the mutex, by a first reader or a writer; it waits for as long as this fails.
    method TryLock(ghost t: nat) returns (taken: bool)
      requires t < |threads| && (threads[t].FirstWaits? || threads[t].Out?)
      modifies this
      ensures State() == Do(old(State()), t, if old(threads)[t].Out? then LockWrite else ObtainFirst)
      ensures taken <==> !old(locked)
      ensures locked && counter == old(counter)
      ensures taken ==> threads == old(threads)[t := if old(threads)[t].Out? then Writes else Reads(false)]
    {
      taken := !locked;
      if taken {
        locked := true;
        threads := threads[t := if threads[t].Out? then Writes else Reads(false)];
      }
    }

    // The first half of a read unlock; last: the caller goes on to release the mutex.
    method LowerCounter(ghost t: nat) returns (last: bool)
      requires Inv(State()) && t < |threads| && threads[t].Reads?
      modifies this
      ensures State() == Do(old(State()), t, LeaveRead)
      ensures last <==> threads[t].Releases?
      ensures counter == old(counter) - 1 && (last <==> counter == 0) && (!last ==> threads[t].Out?)
    {
      assert threads[t] in multiset(threads);
      counter := counter - 1;
      last := counter == 0;
      threads := threads[t := if last then Releases else Out];
    }

    // The second half of a read unlock, or a write unlock.
    method Unlock(ghost t: nat)
      requires t < |threads| && (threads[t].Releases? || threads[t].Writes?)
      modifies this
      ensures State() == Do(old(State()), t, if old(threads)[t].Writes? then UnlockWrite else Release)
      ensures !locked && threads == old(threads)[t := Out] && counter == old(counter)
    {
      locked := false;
      threads := threads[t := Out];
    }
  }
}
