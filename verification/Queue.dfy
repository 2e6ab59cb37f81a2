/** The queue of src/collections/queue.c: the object itself, and its operations step by step
    under any number of threads. */
module Queue {
  import opened Prelude

  // -------- The object --------

  class Queue<T> {
    var values: array?<T>
    var size: nat

    ghost predicate Valid()
      reads this
    {
      (size == 0 <==> values == null) && (values != null ==> values.Length == size)
    }

    ghost function Contents(): seq<T>
      reads this, values
      requires Valid()
    {
      if values == null then [] else values[..]
    }

    constructor ()
      ensures Valid() && Contents() == []
    {
      values, size := null, 0;
    }

    // queuePush, with the reallocation written as a copy
    method Push(value: T)
      requires Valid()
      modifies this
      ensures Valid() && Contents() == old(Contents()) + [value]
    {
      var was, n := values, size;
      size := size + 1;
      values := new T[size](i requires 0 <= i <= n && (was != null ==> was.Length == n) && (was == null ==> n == 0)
        reads was => if i < n then was[i] else value);
      assert values[..] == old(Contents()) + [value];
    }

    // queuePop; the source asserts that there is something to pop
    method Pop() returns (value: T)
      requires Valid() && size > 0
      modifies this
      ensures Valid() && [value] + Contents() == old(Contents())
    {
      value := values[0];
      var newSize := size - 1;
      if newSize == 0 {
        values, size := null, 0;
      } else {
        var was := values;
        var temp := new T[newSize](i requires 0 <= i < newSize && was.Length == newSize + 1 reads was => was[i + 1]);
        assert temp[..] == was[1..];
        values, size := temp, newSize;
      }
    }

    // What other threads push meanwhile.
    method PushAll(more: seq<T>)
      requires Valid()
      modifies this
      ensures Valid() && Contents() == old(Contents()) + more
    {
      for j := 0 to |more|
        invariant Valid() && Contents() == old(Contents()) + more[..j]
      {
        Push(more[j]);
      }
    }

    // queuePeek
    method Peek() returns (value: Option<T>)
      requires Valid()
      ensures value == if Contents() == [] then None else Some(Contents()[0])
    {
      value := None;
      if size > 0 {
        value := Some(values[0]);
      }
    }

    // queueClear
    method Clear()
      requires Valid()
      modifies this
      ensures Valid() && Contents() == []
    {
      values, size := null, 0;
    }

    // queueWaitAndPop for a timeout that is not negative: clock[k] is what the clock shows at the k-th
    // poll, and arrivals[k] is what other threads have pushed since the poll before. It returns
    // exactly if something is there at a poll in time, and then the oldest value at the first such poll.
    method WaitAndPop(start: nat, timeout: nat, clock: seq<nat>, arrivals: seq<seq<T>>) returns (value: Option<T>)
      requires Valid() && |clock| == |arrivals| && forall k :: 0 <= k < |clock| ==> start <= clock[k]
      requires clock != [] && clock[|clock| - 1] - start >= timeout
      modifies this
      ensures Valid()
      ensures value.Some? <==>
        exists k :: 0 <= k < |clock| && InTime(clock, start, timeout, k) && There(old(Contents()), arrivals, k) != []
      ensures forall k :: 0 <= k < |clock| && FirstFound(old(Contents()), clock, start, timeout, arrivals, k) ==>
        value == Some(There(old(Contents()), arrivals, k)[0]) && Contents() == There(old(Contents()), arrivals, k)[1..]
      ensures value.None? ==> Contents() == old(Contents())
    {
      ghost var before := Contents();
      var k := 0;
      NothingPolled(before, clock, start, timeout, arrivals);
      hide Polled, There, InTime, FirstFound;
      while clock[k] - start < timeout
        invariant k < |clock| && Valid() && before == old(Contents()) && Contents() == (if k == 0 then before else [])
        invariant Polled(before, clock, start, timeout, arrivals, k)
        decreases |clock| - k
      {
        PushAll(arrivals[k]);
        ThereNow(before, clock, start, timeout, arrivals, k);
        if size > 0 {
          FoundNow(before, clock, start, timeout, arrivals, k);
          ghost var there := Contents();
          var popped := Pop();
          assert there == [popped] + Contents() && there[0] == popped && there[1..] == Contents();
          return Some(popped);
        }
        PolledOn(before, clock, start, timeout, arrivals, k);
        k := k + 1;
      }
      NotFound(before, clock, start, timeout, arrivals, k);
      return None;
    }
  }

  // Polls up to this one come before the deadline.
  predicate InTime(clock: seq<nat>, start: nat, timeout: nat, k: nat)
    requires k < |clock|
  {
    forall j :: 0 <= j <= k ==> clock[j] - start < timeout
  }

  // What would be there at this poll if nothing had been popped.
  function There<T>(contents: seq<T>, arrivals: seq<seq<T>>, k: nat): seq<T>
    requires k < |arrivals|
  {
    contents + Concat(arrivals[..k + 1])
  }

  // The first poll that finds something comes in time.
  ghost predicate FirstFound<T>(contents: seq<T>, clock: seq<nat>, start: nat, timeout: nat, arrivals: seq<seq<T>>, k: nat)
    requires k < |clock| == |arrivals|
  {
    && InTime(clock, start, timeout, k) && There(contents, arrivals, k) != []
    && forall j :: 0 <= j < k ==> There(contents, arrivals, j) == []
  }

  // The polls before this one have come in time and found nothing.
  ghost predicate Polled<T>(contents: seq<T>, clock: seq<nat>, start: nat, timeout: nat, arrivals: seq<seq<T>>, k: nat)
    requires k <= |clock| == |arrivals|
  {
    && (forall j :: 0 <= j < k ==> clock[j] - start < timeout)
    && (forall j :: 0 <= j < k ==> There(contents, arrivals, j) == [])
  }

  lemma NothingPolled<T>(contents: seq<T>, clock: seq<nat>, start: nat, timeout: nat, arrivals: seq<seq<T>>)
    requires |clock| == |arrivals|
    ensures Polled(contents, clock, start, timeout, arrivals, 0)
  {
  }

  lemma PolledOn<T>(contents: seq<T>, clock: seq<nat>, start: nat, timeout: nat, arrivals: seq<seq<T>>, k: nat)
    requires k < |clock| == |arrivals| && Polled(contents, clock, start, timeout, arrivals, k)
    requires clock[k] - start < timeout && There(contents, arrivals, k) == []
    ensures Polled(contents, clock, start, timeout, arrivals, k + 1)
    ensures contents == []
  {
    hide Concat;
  }

  lemma ThereNow<T>(contents: seq<T>, clock: seq<nat>, start: nat, timeout: nat, arrivals: seq<seq<T>>, k: nat)
    requires k < |clock| == |arrivals| && Polled(contents, clock, start, timeout, arrivals, k)
    ensures There(contents, arrivals, k) == (if k == 0 then contents else []) + arrivals[k]
  {
    assert arrivals[..k + 1] == arrivals[..k] + [arrivals[k]];
    ConcatAppend(arrivals[..k], arrivals[k]);
    if k > 0 {
      assert There(contents, arrivals, k - 1) == [];
    } else {
      assert Concat(arrivals[..0]) == [];
    }
    hide Concat;
  }

  lemma FoundNow<T>(contents: seq<T>, clock: seq<nat>, start: nat, timeout: nat, arrivals: seq<seq<T>>, k: nat)
    requires k < |clock| == |arrivals| && Polled(contents, clock, start, timeout, arrivals, k)
    requires clock[k] - start < timeout && There(contents, arrivals, k) != []
    ensures InTime(clock, start, timeout, k)
    ensures forall n :: 0 <= n < |clock| && FirstFound(contents, clock, start, timeout, arrivals, n) ==> n == k
  {
    hide There;
  }

  lemma NotFound<T>(contents: seq<T>, clock: seq<nat>, start: nat, timeout: nat, arrivals: seq<seq<T>>, k: nat)
    requires k < |clock| == |arrivals| && Polled(contents, clock, start, timeout, arrivals, k)
    requires clock[k] - start >= timeout
    ensures forall n :: 0 <= n < |clock| && InTime(clock, start, timeout, n) ==> There(contents, arrivals, n) == []
    ensures forall n :: 0 <= n < |clock| ==> !FirstFound(contents, clock, start, timeout, arrivals, n)
    ensures k > 0 ==> contents == []
  {
    if k > 0 {
      assert There(contents, arrivals, 0) == [];
    }
    hide Concat;
  }
}
