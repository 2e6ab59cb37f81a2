/** The list of src/collections/list.c. */
module List {
  import opened Prelude

  class List<T> {
    var values: array?<T>
    var size: nat

    ghost predicate Valid()
      reads this
    {
      (size == 0 <==> values == null) && (values != null ==> values.Length == size)
    }

    ghost function Contents(): (s: seq<T>)
      reads this, values
      requires Valid()
      ensures |s| == size
    {
      if values == null then [] else values[..]
    }

    constructor ()
      ensures Valid() && Contents() == []
    {
      values, size := null, 0;
    }

    // listCopy: a new list of duplicates in the same order
    method Copy(duplicate: T -> T) returns (copy: List<T>)
      requires Valid()
      ensures fresh(copy) && copy.Valid()
      ensures |copy.Contents()| == |Contents()|
      ensures forall i :: 0 <= i < |Contents()| ==> copy.Contents()[i] == duplicate(Contents()[i])
    {
      copy := new List();
      for i := 0 to size
        invariant fresh(copy) && copy.Valid() && copy.size == i
        invariant forall j :: 0 <= j < i ==> copy.Contents()[j] == duplicate(Contents()[j])
      {
        copy.AddBack(duplicate(values[i]));
      }
    }

    // listAddBack, with the reallocation written as a copy
    method AddBack(value: T)
      requires Valid()
      modifies this
      ensures Valid() && Contents() == old(Contents()) + [value]
    {
      var was, n := values, size;
      size := size + 1;
      values := new T[size](i requires 0 <= i <= n && (was != null ==> was.Length == n) && (was == null ==> n == 0)
        reads was => if i < n then was[i] else value);
      assert values[..] == old(Contents()) + [value];
    }

    // listAddFront: every value moves one place on
    method AddFront(value: T)
      requires Valid()
      modifies this
      ensures Valid() && Contents() == [value] + old(Contents())
    {
      var was := values;
      size := size + 1;
      var temp := new T[size](_ => value);
      var i := 1;
      while i < size
        invariant 1 <= i <= size == temp.Length && size == old(size) + 1 && was == old(values) == values
        invariant temp[0] == value
        invariant forall j :: 1 <= j < i ==> temp[j] == was[j - 1]
        modifies temp
      {
        temp[i] := was[i - 1];
        i := i + 1;
      }
      values := temp;
      assert values[..] == [value] + old(Contents());
    }

    // listGet
    method Get(index: nat) returns (value: T)
      requires Valid() && index < size
      ensures value == Contents()[index]
    {
      value := values[index];
    }

    // listBinarySearch: the comparator says whether the key lies before a value, at it or after it.
    // The source asserts that the list is not empty.
    method BinarySearch(compare: T -> int) returns (value: Option<T>)
      requires Valid() && size > 0
      requires forall i, j :: 0 <= i < j < |Contents()| ==>
                 (compare(Contents()[i]) <= 0 ==> compare(Contents()[j]) < 0)
      ensures value.Some? ==> value.value in Contents() && compare(value.value) == 0
      ensures value.None? ==> forall i :: 0 <= i < |Contents()| ==> compare(Contents()[i]) != 0
    {
      var low, high := 0, size;
      while low < high
        invariant low <= high <= size
        invariant forall i :: 0 <= i < low ==> compare(Contents()[i]) > 0
        invariant forall i :: high <= i < size ==> compare(Contents()[i]) < 0
      {
        var middle := (low + high) / 2;
        var c := compare(values[middle]);
        assert Contents()[middle] == values[middle];
        if c == 0 {
          return Some(values[middle]);
        } else if c < 0 {
          high := middle;
        } else {
          low := middle + 1;
        }
      }
      return None;
    }

    // listClear
    method Clear()
      requires Valid()
      modifies this
      ensures Valid() && Contents() == []
    {
      values, size := null, 0;
    }
  }
}
