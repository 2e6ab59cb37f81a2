/** The ISO/IEC 7816-4 padding that text messages carry inside their encryption. */
module Padding {
  import opened Prelude

  const MARKER: byte := 0x80

  // -------- What padding means --------

  function Zeros(n: nat): (z: seq<byte>)
    ensures |z| == n && forall i :: 0 <= i < n ==> z[i] == 0
  {
    seq(n, _ => 0)
  }

  function PaddedSize(size: nat, block: nat): nat
    requires block > 0
  {
    (size / block + 1) * block
  }

  // The marker byte and then as few zeros as reach the next multiple of the block.
  function Padded(bytes: seq<byte>, block: nat): seq<byte>
    requires block > 0
  {
    PaddedSizeBounds(|bytes|, block);
    bytes + [MARKER] + Zeros(PaddedSize(|bytes|, block) - |bytes| - 1)
  }

  // What sodium_unpad accepts: a marker in the last block with only zeros behind it.
  ghost predicate MarkerAt(padded: seq<byte>, block: nat, k: nat) {
    && block <= |padded|
    && |padded| - block <= k < |padded|
    && padded[k] == MARKER
    && forall i :: k < i < |padded| ==> padded[i] == 0
  }

  lemma PaddedSizeBounds(size: nat, block: nat)
    requires block > 0
    ensures size < PaddedSize(size, block) <= size + block
    ensures PaddedSize(size, block) % block == 0
  {
    var q, r := size / block, size % block;
    assert size == q * block + r;
    assert (q + 1) * block == q * block + block;
    MultipleHasNoRemainder(q + 1, block);
  }

  lemma MultipleHasNoRemainder(q: nat, block: nat)
    requires block > 0
    ensures (q * block) % block == 0
  {
    var x := q * block;
    var d, r := x / block, x % block;
    assert x == d * block + r;
    assert (d + 1) * block == d * block + block;
    if d < q {
      MultiplyMonotone(d + 1, q, block);
    } else {
      MultiplyMonotone(q, d, block);
    }
  }

  lemma MarkerIsUnique(padded: seq<byte>, block: nat, k: nat, l: nat)
    requires MarkerAt(padded, block, k) && MarkerAt(padded, block, l)
    ensures k == l
  {
  }

  // Whatever the text ends with, the added marker is the one that is found again.
  lemma PaddedHasItsMarker(bytes: seq<byte>, block: nat)
    requires block > 0
    ensures MarkerAt(Padded(bytes, block), block, |bytes|)
    ensures |Padded(bytes, block)| == PaddedSize(|bytes|, block)
    ensures Padded(bytes, block)[..|bytes|] == bytes
  {
    PaddedSizeBounds(|bytes|, block);
  }

  // The largest payload whose padded form fits a budget.
  function LargestPayload(budget: nat, block: nat): int
    requires block > 0
  {
    (budget / block) * block - 1
  }

  lemma LargestPayloadIsTight(size: nat, budget: nat, block: nat)
    requires block > 0
    ensures PaddedSize(size, block) <= budget <==> size <= LargestPayload(budget, block)
  {
    var q, m := size / block, budget / block;
    assert size == q * block + size % block;
    assert budget == m * block + budget % block;
    if q + 1 <= m {
      assert (q + 1) * block <= m * block by { MultiplyMonotone(q + 1, m, block); }
      assert (q + 1) * block == q * block + block;
    } else {
      assert m * block <= q * block by { MultiplyMonotone(m, q, block); }
      assert (m + 1) * block <= (q + 1) * block by { MultiplyMonotone(m + 1, q + 1, block); }
      assert (m + 1) * block == m * block + block;
    }
  }

  // -------- The buffer operations --------

  // sodium_pad: extends the first size bytes of the buffer in place.
  method SodiumPad(buffer: array<byte>, size: nat, block: nat) returns (newSize: nat)
    requires block > 0 && size <= buffer.Length
    modifies buffer
    ensures newSize == if PaddedSize(size, block) <= buffer.Length then PaddedSize(size, block) else 0
    ensures newSize > 0 ==> buffer[..newSize] == Padded(old(buffer[..size]), block)
    ensures newSize == 0 ==> buffer[..] == old(buffer[..])
  {
    PaddedSizeBounds(size, block);
    newSize := PaddedSize(size, block);
    if newSize > buffer.Length {
      return 0;
    }
    buffer[size] := MARKER;
    var i := size + 1;
    while i < newSize
      invariant size < i <= newSize
      invariant buffer[..size] == old(buffer[..size]) && buffer[size] == MARKER
      invariant forall j :: size < j < i ==> buffer[j] == 0
    {
      buffer[i] := 0;
      i := i + 1;
    }
    assert buffer[..newSize] == Padded(old(buffer[..size]), block);
  }

  // sodium_unpad: reads the whole last block from its end. A byte is the barrier
  // when it is the marker and every byte read before it was zero.
  method SodiumUnpad(buffer: array<byte>, size: nat, block: nat) returns (unpadded: Option<nat>)
    requires block > 0 && size <= buffer.Length
    ensures unpadded.Some? ==> MarkerAt(buffer[..size], block, unpadded.value)
    ensures unpadded.None? ==> forall k: nat :: !MarkerAt(buffer[..size], block, k)
  {
    if size < block {
      return None;
    }
    var seenNonZero, valid, padLength := false, false, 0;
    var i := 0;
    while i < block
      invariant 0 <= i <= block
      invariant !seenNonZero <==> forall j :: size - i <= j < size ==> buffer[j] == 0
      invariant valid ==> padLength < size && MarkerAt(buffer[..size], block, size - 1 - padLength)
      invariant !valid ==> padLength == 0
      invariant !valid ==> forall k: nat :: size - i <= k ==> !MarkerAt(buffer[..size], block, k)
    {
      var c := buffer[size - 1 - i];
      var barrier := !seenNonZero && padLength == 0 && c == MARKER;
      ghost var before := valid;
      if barrier {
        padLength, valid := i, true;
      } else if !valid {
        forall k: nat | size - 1 - i <= k ensures !MarkerAt(buffer[..size], block, k) {
          if k == size - 1 - i && c == MARKER {
            var j :| size - i <= j < size && buffer[j] != 0;
            assert buffer[..size][j] != 0;
          }
        }
      }
      seenNonZero := seenNonZero || c != 0;
      i := i + 1;
    }
    unpadded := if valid then Some(size - 1 - padLength) else None;
  }

  // cryptoAddPadding: a copy with room for one block, padded and cut to size.
  method AddPadding(bytes: seq<byte>, block: nat) returns (padded: seq<byte>)
    requires block > 0 && bytes != []
    ensures padded == Padded(bytes, block)
  {
    var buffer := new byte[|bytes| + block];
    CopyInto(buffer, bytes);
    PaddedSizeBounds(|bytes|, block);
    var newSize := SodiumPad(buffer, |bytes|, block);
    padded := buffer[..newSize];
  }

  // cryptoRemovePadding. The source asserts its caller's size rule before the call.
  method RemovePadding(padded: seq<byte>, block: nat) returns (bytes: Option<seq<byte>>)
    requires block > 0 && padded != [] && |padded| % block == 0
    ensures bytes == Unpad(padded, block)
  {
    var buffer := new byte[|padded|];
    CopyInto(buffer, padded);
    assert buffer[..|padded|] == padded;
    var size := SodiumUnpad(buffer, |padded|, block);
    if size.Some? {
      ghost var k: nat :| MarkerAt(padded, block, k) && Unpad(padded, block) == Some(padded[..k]);
      MarkerIsUnique(padded, block, k, size.value);
    }
    assert size.Some? ==> buffer[..size.value] == padded[..size.value];
    assert buffer[..|padded|] == padded;
    bytes := if size.None? then None else Some(buffer[..size.value]);
  }

  method CopyInto(buffer: array<byte>, bytes: seq<byte>)
    requires |bytes| <= buffer.Length
    modifies buffer
    ensures buffer[..|bytes|] == bytes
  {
    var i := 0;
    while i < |bytes|
      invariant 0 <= i <= |bytes|
      invariant buffer[..i] == bytes[..i]
    {
      buffer[i] := bytes[i];
      i := i + 1;
    }
  }

  // The payload in front of the last block's marker, if there is one.
  ghost function Unpad(padded: seq<byte>, block: nat): (bytes: Option<seq<byte>>) {
    if exists k: nat :: MarkerAt(padded, block, k) then
      var k: nat :| MarkerAt(padded, block, k); Some(padded[..k])
    else
      None
  }

  // testCrypto_padding's promise, for every byte string and every block size.
  lemma PaddingRoundTrip(bytes: seq<byte>, block: nat)
    requires block > 0
    ensures Unpad(Padded(bytes, block), block) == Some(bytes)
    ensures |Padded(bytes, block)| % block == 0 && |bytes| < |Padded(bytes, block)|
  {
    var padded := Padded(bytes, block);
    PaddedSizeBounds(|bytes|, block);
    PaddedHasItsMarker(bytes, block);
    var k: nat :| MarkerAt(padded, block, k) && Unpad(padded, block) == Some(padded[..k]);
    MarkerIsUnique(padded, block, k, |bytes|);
  }

  // And nothing else unpads to them: whole blocks with that payload are its padded form.
  lemma PaddingIsUnique(padded: seq<byte>, bytes: seq<byte>, block: nat)
    requires block > 0
    ensures |padded| % block == 0 && Unpad(padded, block) == Some(bytes) <==> padded == Padded(bytes, block)
  {
    PaddingRoundTrip(bytes, block);
    if |padded| % block == 0 && Unpad(padded, block) == Some(bytes) {
      var k: nat :| MarkerAt(padded, block, k) && padded[..k] == bytes;
      var n := |padded| / block;
      assert |padded| == n * block;
      assert n > 0 && n * block == (n - 1) * block + block;
      QuotientIs(k, n - 1, block);
      assert PaddedSize(|bytes|, block) == |padded|;
      assert padded == Padded(bytes, block);
    }
  }
}
