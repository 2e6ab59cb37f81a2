/** Types shared by every other module. */
module Prelude {
  datatype Option<+T> = None | Some(value: T)

  type byte = x: int | 0 <= x < 256

  // Widths of C's unsigned and unsigned long on the only platform the client supports.
  const UINT_LIMIT: nat := 0x1_0000_0000
  const ULONG_LIMIT: nat := 0x1_0000_0000_0000_0000
  const INT_SIZE: nat := 4
  const LONG_SIZE: nat := 8

  function Min(a: int, b: int): int {
    if a <= b then a else b
  }

  // The bytes of a list of buffers, one after another.
  function Concat<T>(parts: seq<seq<T>>): seq<T> {
    if parts == [] then [] else parts[0] + Concat(parts[1..])
  }

  lemma {:induction false} ConcatAppend<T>(parts: seq<seq<T>>, last: seq<T>)
    ensures Concat(parts + [last]) == Concat(parts) + last
  {
    if parts == [] {
      assert Concat([last]) == last + Concat([]);
    } else {
      assert (parts + [last])[1..] == parts[1..] + [last];
      ConcatAppend(parts[1..], last);
    }
  }

  lemma MultiplyMonotone(a: int, b: int, c: nat)
    requires a <= b
    ensures a * c <= b * c
  {
    assert (b - a) * c >= 0;
  }

  // A quotient is known from the bounds of its block.
  lemma QuotientIs(size: nat, q: nat, block: nat)
    requires block > 0 && q * block <= size < q * block + block
    ensures size / block == q
  {
    var d := size / block;
    assert size == d * block + size % block;
    if d < q {
      MultiplyMonotone(d + 1, q, block);
    } else if d > q {
      MultiplyMonotone(q + 1, d, block);
    }
  }
}
