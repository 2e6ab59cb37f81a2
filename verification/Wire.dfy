/** Messages as bytes, and frames of encrypted messages in the byte stream to the server. */
module Wire {
  import opened Prelude
  import opened Crypto

  // -------- Little-endian numbers --------

  function Power256(width: nat): (p: nat)
    ensures p > 0
  {
    if width == 0 then 1 else 256 * Power256(width - 1)
  }

  function Encode(number: nat, width: nat): (bytes: seq<byte>)
    ensures |bytes| == width
  {
    if width == 0 then [] else [number % 256] + Encode(number / 256, width - 1)
  }

  function Decode(bytes: seq<byte>): nat {
    if bytes == [] then 0 else bytes[0] + 256 * Decode(bytes[1..])
  }

  lemma {:induction false} DecodeEncode(number: nat, width: nat)
    requires number < Power256(width)
    ensures Decode(Encode(number, width)) == number
  {
    if width > 0 {
      DecodeEncode(number / 256, width - 1);
    }
  }

  lemma {:induction false} EncodeDecode(bytes: seq<byte>)
    ensures Decode(bytes) < Power256(|bytes|)
    ensures Encode(Decode(bytes), |bytes|) == bytes
  {
    if bytes != [] {
      EncodeDecode(bytes[1..]);
      LowestByte(bytes[0], Decode(bytes[1..]));
    }
  }

  lemma LowestByte(b: byte, rest: nat)
    ensures (b + 256 * rest) % 256 == b && (b + 256 * rest) / 256 == rest
  {
  }

  function Little(bytes: seq<int>): int
    requires |bytes| == 4
  {
    bytes[0] + 0x100 * bytes[1] + 0x1_0000 * bytes[2] + 0x100_0000 * bytes[3]
  }

  // The least significant byte comes first.
  lemma LittleEndian(bytes: seq<byte>)
    ensures |bytes| == INT_SIZE ==> Decode(bytes) == Little(bytes)
    ensures |bytes| == LONG_SIZE ==>
              Decode(bytes) == Decode(bytes[..INT_SIZE]) + UINT_LIMIT * Decode(bytes[INT_SIZE..])
  {
    if |bytes| == INT_SIZE {
      FourBytes(bytes);
    } else if |bytes| == LONG_SIZE {
      FourBytes(bytes[..INT_SIZE]);
      FourMore(bytes);
    }
  }

  lemma FourMore(bytes: seq<byte>)
    requires |bytes| >= 4
    ensures Decode(bytes) == Little(bytes[..4]) + 0x1_0000_0000 * Decode(bytes[4..])
  {
    var b1, b2, b3 := bytes[1..], bytes[2..], bytes[3..];
    assert b1[1..] == b2 && b2[1..] == b3 && b3[1..] == bytes[4..];
    assert Decode(b3) == bytes[3] + 256 * Decode(bytes[4..]);
    assert Decode(b2) == bytes[2] + 256 * Decode(b3);
    assert Decode(b1) == bytes[1] + 256 * Decode(b2);
  }

  lemma FourBytes(bytes: seq<byte>)
    requires |bytes| == 4
    ensures Decode(bytes) == Little(bytes)
  {
    FourMore(bytes);
    assert bytes[..4] == bytes && Decode(bytes[4..]) == 0;
  }

  // -------- Messages --------

  const TOKEN_UNSIGNED_VALUE_SIZE: nat := 2 * INT_SIZE
  const TOKEN_TRAILING_SIZE: nat := 16
  const TOKEN_SIZE: nat := TOKEN_UNSIGNED_VALUE_SIZE + 40 + TOKEN_TRAILING_SIZE
  const MESSAGE_HEAD_SIZE: nat := INT_SIZE * 6 + LONG_SIZE + TOKEN_SIZE
  const MAX_MESSAGE_SIZE: nat := 256
  const MAX_MESSAGE_BODY_SIZE: nat := MAX_MESSAGE_SIZE - MESSAGE_HEAD_SIZE

  // The numbers stand for the bit patterns of the C fields; the size field is the body's length.
  datatype WireMessage = WireMessage(
    flag: nat, timestamp: nat, index: nat, count: nat, from: nat, to: nat, token: seq<byte>, body: seq<byte>)

  predicate Valid(m: WireMessage) {
    && m.flag < UINT_LIMIT && m.timestamp < ULONG_LIMIT && m.index < UINT_LIMIT && m.count < UINT_LIMIT
    && m.from < UINT_LIMIT && m.to < UINT_LIMIT
    && |m.token| == TOKEN_SIZE && |m.body| <= MAX_MESSAGE_BODY_SIZE
  }

  function Head(m: WireMessage): seq<byte> {
    Encode(m.flag, INT_SIZE) + Encode(m.timestamp, LONG_SIZE) + Encode(|m.body|, INT_SIZE) + Encode(m.index, INT_SIZE)
    + Encode(m.count, INT_SIZE) + Encode(m.from, INT_SIZE) + Encode(m.to, INT_SIZE) + m.token
  }

  function Packed(m: WireMessage): seq<byte> {
    Head(m) + m.body
  }

  // unpackMessage asserts on the size field. It is told no length: a buffer that ends before
  // the message does is outside what the source defines, and yields nothing here.
  function Unpacked(buffer: seq<byte>): Option<WireMessage> {
    if |buffer| < MESSAGE_HEAD_SIZE then None
    else
      var size := Decode(buffer[12..16]);
      if size > MAX_MESSAGE_BODY_SIZE || |buffer| < MESSAGE_HEAD_SIZE + size then None
      else Some(WireMessage(Decode(buffer[0..4]), Decode(buffer[4..12]), Decode(buffer[16..20]), Decode(buffer[20..24]),
                            Decode(buffer[24..28]), Decode(buffer[28..32]), buffer[32..96],
                            buffer[MESSAGE_HEAD_SIZE..MESSAGE_HEAD_SIZE + size]))
  }

  lemma Limits()
    ensures Power256(INT_SIZE) == UINT_LIMIT && Power256(LONG_SIZE) == ULONG_LIMIT
    ensures MESSAGE_HEAD_SIZE == 96 && MAX_MESSAGE_BODY_SIZE == 160
  {
    assert Power256(3) == 0x100_0000;
    assert Power256(4) == 0x1_0000_0000;
    assert Power256(6) == 0x1_0000_0000_0000;
    assert Power256(7) == 0x100_0000_0000_0000;
  }

  // Where each field of a packed message lies.
  lemma HeadLayout(m: WireMessage, buffer: seq<byte>)
    requires Valid(m) && Head(m) <= buffer
    ensures |Head(m)| == MESSAGE_HEAD_SIZE
    ensures buffer[0..4] == Encode(m.flag, INT_SIZE) && buffer[4..12] == Encode(m.timestamp, LONG_SIZE)
    ensures buffer[12..16] == Encode(|m.body|, INT_SIZE) && buffer[16..20] == Encode(m.index, INT_SIZE)
    ensures buffer[20..24] == Encode(m.count, INT_SIZE) && buffer[24..28] == Encode(m.from, INT_SIZE)
    ensures buffer[28..32] == Encode(m.to, INT_SIZE) && buffer[32..96] == m.token
  {
    hide Encode;
    assert forall k :: 0 <= k < 96 ==> buffer[k] == Head(m)[k];
  }

  // What is packed is read back, whatever bytes follow it.
  lemma UnpackPacked(m: WireMessage, rest: seq<byte>)
    requires Valid(m)
    ensures Unpacked(Packed(m) + rest) == Some(m)
  {
    var buffer := Packed(m) + rest;
    assert Head(m) <= buffer;
    HeadLayout(m, buffer);
    Limits();
    DecodeEncode(m.flag, INT_SIZE);
    DecodeEncode(m.timestamp, LONG_SIZE);
    DecodeEncode(|m.body|, INT_SIZE);
    DecodeEncode(m.index, INT_SIZE);
    DecodeEncode(m.count, INT_SIZE);
    DecodeEncode(m.from, INT_SIZE);
    DecodeEncode(m.to, INT_SIZE);
    hide Encode, Decode;
    assert buffer[96..96 + |m.body|] == m.body;
  }

  // What is read packs to the bytes it was read from.
  lemma PackUnpacked(buffer: seq<byte>)
    requires Unpacked(buffer).Some?
    ensures Valid(Unpacked(buffer).value)
    ensures Packed(Unpacked(buffer).value) <= buffer
  {
    HeadUnpacked(buffer);
    hide Encode, Decode, Head, Valid;
  }

  lemma HeadUnpacked(buffer: seq<byte>)
    requires Unpacked(buffer).Some?
    ensures Valid(Unpacked(buffer).value)
    ensures Head(Unpacked(buffer).value) == buffer[..MESSAGE_HEAD_SIZE]
  {
    Limits();
    EncodeDecode(buffer[0..4]);
    EncodeDecode(buffer[4..12]);
    EncodeDecode(buffer[12..16]);
    EncodeDecode(buffer[16..20]);
    EncodeDecode(buffer[20..24]);
    EncodeDecode(buffer[24..28]);
    EncodeDecode(buffer[28..32]);
    var m := Unpacked(buffer).value;
    hide Encode, Decode, Power256;
    Slices(buffer);
  }

  // The head in its pieces.
  lemma Slices(buffer: seq<byte>)
    requires |buffer| >= 96
    ensures buffer[..96] == buffer[0..4] + buffer[4..12] + buffer[12..16] + buffer[16..20] + buffer[20..24]
                            + buffer[24..28] + buffer[28..32] + buffer[32..96]
  {
  }

  // Unpacking finds the one message whose packed form the buffer begins with.
  lemma UnpackedIsTheMessage(buffer: seq<byte>, m: WireMessage)
    ensures Unpacked(buffer) == Some(m) <==> Valid(m) && Packed(m) <= buffer
  {
    if Unpacked(buffer) == Some(m) {
      PackUnpacked(buffer);
    }
    if Valid(m) && Packed(m) <= buffer {
      UnpackPacked(m, buffer[|Packed(m)|..]);
      assert Packed(m) + buffer[|Packed(m)|..] == buffer;
    }
    hide Unpacked, Packed, Valid;
  }

  // SDL_memcpy to an offset of a buffer that is filled from its start.
  method Append(buffer: array<byte>, offset: nat, bytes: seq<byte>) returns (end: nat)
    requires offset + |bytes| <= buffer.Length
    modifies buffer
    ensures end == offset + |bytes|
    ensures buffer[..end] == old(buffer[..offset]) + bytes
  {
    var i := 0;
    while i < |bytes|
      invariant 0 <= i <= |bytes|
      invariant buffer[..offset] == old(buffer[..offset])
      invariant buffer[offset..offset + i] == bytes[..i]
    {
      buffer[offset + i] := bytes[i];
      i := i + 1;
    }
    end := offset + |bytes|;
    assert buffer[..end] == buffer[..offset] + buffer[offset..end];
  }

  // packMessage
  method PackMessage(m: WireMessage) returns (buffer: array<byte>)
    requires Valid(m)
    ensures fresh(buffer) && buffer[..] == Packed(m)
  {
    buffer := new byte[MESSAGE_HEAD_SIZE + |m.body|];
    hide Encode;
    var end := Append(buffer, 0, Encode(m.flag, INT_SIZE));
    end := Append(buffer, end, Encode(m.timestamp, LONG_SIZE));
    end := Append(buffer, end, Encode(|m.body|, INT_SIZE));
    end := Append(buffer, end, Encode(m.index, INT_SIZE));
    end := Append(buffer, end, Encode(m.count, INT_SIZE));
    end := Append(buffer, end, Encode(m.from, INT_SIZE));
    end := Append(buffer, end, Encode(m.to, INT_SIZE));
    end := Append(buffer, end, m.token);
    assert buffer[..end] == Head(m);
    end := Append(buffer, end, m.body);
    assert buffer[..end] == buffer[..];
  }

  // unpackMessage: the message that the buffer begins with, if there is one
  method UnpackMessage(buffer: array<byte>) returns (m: Option<WireMessage>)
    ensures m == Unpacked(buffer[..])
    ensures forall x :: m == Some(x) <==> Valid(x) && Packed(x) <= buffer[..]
  {
    forall x
      ensures Unpacked(buffer[..]) == Some(x) <==> Valid(x) && Packed(x) <= buffer[..]
    {
      UnpackedIsTheMessage(buffer[..], x);
    }
    hide Valid, Packed, Decode;
    if buffer.Length < MESSAGE_HEAD_SIZE {
      return None;
    }
    var size := Decode(buffer[12..16]);
    if size > MAX_MESSAGE_BODY_SIZE || buffer.Length < MESSAGE_HEAD_SIZE + size {
      return None;
    }
    var flag, timestamp, index, count := Decode(buffer[0..4]), Decode(buffer[4..12]), Decode(buffer[16..20]), Decode(buffer[20..24]);
    var from, to := Decode(buffer[24..28]), Decode(buffer[28..32]);
    m := Some(WireMessage(flag, timestamp, index, count, from, to, buffer[32..96],
                          buffer[MESSAGE_HEAD_SIZE..MESSAGE_HEAD_SIZE + size]));
    assert forall i, j :: 0 <= i <= j <= buffer.Length ==> buffer[..][i..j] == buffer[i..j];
  }
}
