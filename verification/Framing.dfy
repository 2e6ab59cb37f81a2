/** The byte stream between a client and the server: a length and an encrypted message per
    frame, under a cipher that moves on with every frame. */
module Framing {
  import opened Prelude
  import opened Crypto
  import opened Wire

  // A byte of the stream: either a plain one or the i-th byte of a ciphertext.
  datatype Octet = Plain(value: byte) | Sealed(text: Ciphertext, i: nat)

  function PlainOctets(bytes: seq<byte>): seq<Octet> {
    seq(|bytes|, i requires 0 <= i < |bytes| => Plain(bytes[i]))
  }

  function SealedOctets(text: Ciphertext): seq<Octet> {
    seq(text.Size(), i requires 0 <= i < text.Size() => Sealed(text, i))
  }

  // What a C program reads from an octet. A ciphertext byte has some value; no claim depends on which.
  function Value(octet: Octet): byte {
    if octet.Plain? then octet.value else 0
  }

  function Values(octets: seq<Octet>): seq<byte> {
    seq(|octets|, i requires 0 <= i < |octets| => Value(octets[i]))
  }

  // The ciphertext that these octets are, if they are one and whole.
  function Gathered(octets: seq<Octet>): Option<Ciphertext> {
    if octets != [] && octets[0].Sealed? && octets == SealedOctets(octets[0].text) then Some(octets[0].text) else None
  }

  const MAX_FRAME_SIZE: nat := EncryptedSize(MAX_MESSAGE_SIZE)

  function Frame(state: StreamState, m: WireMessage): seq<Octet> {
    var text := Ciphertext(state, Packed(m));
    PlainOctets(Encode(text.Size(), INT_SIZE)) + SealedOctets(text)
  }

  // The stream that one thread sends, one encoder state per frame.
  function Stream(state: StreamState, messages: seq<WireMessage>): seq<Octet>
    decreases |messages|
  {
    if messages == [] then [] else Frame(state, messages[0]) + Stream(Advanced(state), messages[1..])
  }

  function After(state: StreamState, count: nat): StreamState {
    state.(counter := state.counter + count)
  }

  datatype Ending = Waiting | Disconnected | AssertionFailed

  // What reading a stream gives: the messages, the decoder state reached, and how it ended.
  datatype Reading = Reading(messages: seq<WireMessage>, state: StreamState, ending: Ending)

  // The first frame of a stream and what it says.
  datatype Parsed = Message(m: WireMessage, size: nat) | Stop(ending: Ending)

  function FirstFrame(state: StreamState, stream: seq<Octet>): (r: Parsed)
    ensures r.Message? ==> INT_SIZE <= r.size <= |stream|
  {
    if |stream| < INT_SIZE then Stop(Disconnected)
    else
      var size := Decode(Values(stream[..INT_SIZE]));
      if size == 0 || size > MAX_FRAME_SIZE then Stop(AssertionFailed)
      else if |stream| < INT_SIZE + size then Stop(Disconnected)
      else
        var text := Gathered(stream[INT_SIZE..INT_SIZE + size]);
        if text.None? || Pull(state, text.value).None? then Stop(AssertionFailed)
        else
          var m := Unpacked(text.value.plain);
          if m.None? then Stop(AssertionFailed) else Message(m.value, INT_SIZE + size)
  }

  function Read(state: StreamState, stream: seq<Octet>): Reading
    decreases |stream|
  {
    if stream == [] then Reading([], state, Waiting)
    else match FirstFrame(state, stream)
      case Stop(ending) => Reading([], state, ending)
      case Message(m, size) =>
        var rest := Read(Advanced(state), stream[size..]);
        Reading([m] + rest.messages, rest.state, rest.ending)
  }

  // No frame exceeds what the receiver's assertion allows.
  lemma FrameFits(state: StreamState, m: WireMessage)
    requires Valid(m)
    ensures Ciphertext(state, Packed(m)).Size() <= MAX_FRAME_SIZE == 273
    ensures |Frame(state, m)| <= INT_SIZE + 273
  {
    HeadLayout(m, Head(m));
  }

  // A frame is cut out of the stream exactly, whatever follows it.
  lemma FrameIsCutOut(state: StreamState, m: WireMessage, rest: seq<Octet>)
    requires Valid(m)
    ensures FirstFrame(state, Frame(state, m) + rest) == Message(m, |Frame(state, m)|)
  {
    var text := Ciphertext(state, Packed(m));
    var size, stream := text.Size(), Frame(state, m) + rest;
    FrameFits(state, m);
    Limits();
    DecodeEncode(size, INT_SIZE);
    assert stream[..INT_SIZE] == PlainOctets(Encode(size, INT_SIZE));
    assert Values(stream[..INT_SIZE]) == Encode(size, INT_SIZE);
    assert stream[INT_SIZE..INT_SIZE + size] == SealedOctets(text);
    UnpackPacked(m, []);
    assert Packed(m) + [] == Packed(m);
    hide Unpacked, Packed, Encode, Decode;
  }

  // A frame opens under no other decoder state than the one its encoder was in: what follows a
  // frame that was encrypted and then lost is refused.
  lemma OtherStatesRefuse(state: StreamState, other: StreamState, m: WireMessage, rest: seq<Octet>)
    requires Valid(m) && other != state
    ensures FirstFrame(other, Frame(state, m) + rest) == Stop(AssertionFailed)
  {
    var text := Ciphertext(state, Packed(m));
    var size, stream := text.Size(), Frame(state, m) + rest;
    FrameFits(state, m);
    Limits();
    DecodeEncode(size, INT_SIZE);
    assert stream[..INT_SIZE] == PlainOctets(Encode(size, INT_SIZE));
    assert Values(stream[..INT_SIZE]) == Encode(size, INT_SIZE);
    assert stream[INT_SIZE..INT_SIZE + size] == SealedOctets(text);
    hide Unpacked, Packed, Encode, Decode;
  }

  // These octets are a message under this state, perhaps with more behind it.
  ghost predicate Holds(state: StreamState, octets: seq<Octet>, m: WireMessage) {
    exists plain :: Valid(m) && Packed(m) <= plain && octets == SealedOctets(Ciphertext(state, plain))
  }

  ghost predicate Garbled(state: StreamState, octets: seq<Octet>) {
    forall m :: !Holds(state, octets, m)
  }

  lemma GatheredIs(octets: seq<Octet>, text: Ciphertext)
    ensures Gathered(octets) == Some(text) <==> octets == SealedOctets(text)
  {
    assert |SealedOctets(text)| == text.Size() > 0;
    assert SealedOctets(text)[0] == Sealed(text, 0);
  }

  lemma HoldsIs(state: StreamState, octets: seq<Octet>, m: WireMessage)
    ensures Holds(state, octets, m) <==>
      Gathered(octets).Some? && Gathered(octets).value.state == state && Unpacked(Gathered(octets).value.plain) == Some(m)
  {
    if Holds(state, octets, m) {
      var plain :| Valid(m) && Packed(m) <= plain && octets == SealedOctets(Ciphertext(state, plain));
      GatheredIs(octets, Ciphertext(state, plain));
      UnpackedIsTheMessage(plain, m);
    }
    if Gathered(octets).Some? && Gathered(octets).value.state == state && Unpacked(Gathered(octets).value.plain) == Some(m) {
      var text := Gathered(octets).value;
      GatheredIs(octets, text);
      UnpackedIsTheMessage(text.plain, m);
      assert text == Ciphertext(state, text.plain);
    }
    hide Unpacked, Packed, Gathered, SealedOctets;
  }

  // What the first frame of any stream comes to. Its length is little-endian in four bytes. A stream that
  // breaks off before the length or before the frame it announces has been cut by a disconnect; a
  // length of zero or beyond the limit fails an assertion, and so does everything that is not
  // a message under the decoder's state.
  lemma FirstFrameExactly(state: StreamState, stream: seq<Octet>, m: WireMessage, n: nat)
    ensures |stream| < 4 ==> FirstFrame(state, stream) == Stop(Disconnected)
    ensures |stream| >= 4 ==>
      var size, first := Little(Values(stream[..4])), FirstFrame(state, stream);
      var fits := 0 < size <= 273 && 4 + size <= |stream|;
      && (first == Stop(Disconnected) <==> 0 < size <= 273 && |stream| < 4 + size)
      && (first == Message(m, n) <==> fits && n == 4 + size && Holds(state, stream[4..n], m))
      && (first == Stop(AssertionFailed) <==>
            size == 0 || size > 273 || (fits && Garbled(state, stream[4..4 + size])))
  {
    hide Holds, Unpacked, Gathered, Decode, Garbled;
    if |stream| >= 4 {
      LittleEndian(Values(stream[..4]));
      Limits();
      var size := Decode(Values(stream[..4]));
      if 0 < size <= 273 && 4 + size <= |stream| {
        WholeFrame(state, stream[4..4 + size], m);
      }
    }
  }

  lemma WholeFrame(state: StreamState, octets: seq<Octet>, m: WireMessage)
    ensures var text := Gathered(octets);
      var message := if text.Some? && text.value.state == state then Unpacked(text.value.plain) else None;
      && (message == Some(m) <==> Holds(state, octets, m))
      && (message == None <==> Garbled(state, octets))
  {
    forall x
      ensures Holds(state, octets, x) <==>
        Gathered(octets).Some? && Gathered(octets).value.state == state && Unpacked(Gathered(octets).value.plain) == Some(x)
    {
      HoldsIs(state, octets, x);
    }
    hide Holds, Unpacked, Gathered;
    var text := Gathered(octets);
    if text.Some? && text.value.state == state && Unpacked(text.value.plain).Some? {
      assert Holds(state, octets, Unpacked(text.value.plain).value);
    }
  }

  // Reading what one thread sent gives back exactly its messages; the k-th frame is read with
  // the k-th state, and reading goes on with whatever follows.
  lemma {:induction false} FramingRoundTrip(state: StreamState, messages: seq<WireMessage>, rest: seq<Octet>)
    requires forall m :: m in messages ==> Valid(m)
    ensures var r := Read(After(state, |messages|), rest);
      Read(state, Stream(state, messages) + rest) == r.(messages := messages + r.messages)
    decreases |messages|
  {
    hide Frame, FirstFrame;
    if messages == [] {
      assert [] + rest == rest;
      assert messages + Read(After(state, 0), rest).messages == Read(state, rest).messages;
    } else {
      var tail := Stream(Advanced(state), messages[1..]) + rest;
      var stream := Stream(state, messages) + rest;
      assert stream == Frame(state, messages[0]) + tail;
      FrameIsCutOut(state, messages[0], tail);
      FramingRoundTrip(Advanced(state), messages[1..], rest);
      assert stream[|Frame(state, messages[0])|..] == tail;
      assert stream != [];
      hide Stream;
      var more := Read(After(state, |messages|), rest).messages;
      assert After(Advanced(state), |messages| - 1) == After(state, |messages|);
      assert [messages[0]] + (messages[1..] + more) == messages + more;
    }
  }

  // When that is all there is, the receiver has read exactly the messages and waits for the next.
  lemma ReadBack(state: StreamState, messages: seq<WireMessage>)
    requires forall m :: m in messages ==> Valid(m)
    ensures Read(state, Stream(state, messages)) == Reading(messages, After(state, |messages|), Waiting)
  {
    FramingRoundTrip(state, messages, []);
    assert Stream(state, messages) + [] == Stream(state, messages);
  }

  // One more send extends the stream by a frame under the state that the sends so far have reached.
  lemma {:induction false} StreamGrows(state: StreamState, messages: seq<WireMessage>, m: WireMessage)
    ensures Stream(state, messages + [m]) == Stream(state, messages) + Frame(After(state, |messages|), m)
    decreases |messages|
  {
    hide Frame;
    if messages == [] {
      assert (messages + [m])[1..] == [];
    } else {
      assert (messages + [m])[1..] == messages[1..] + [m];
      StreamGrows(Advanced(state), messages[1..], m);
    }
  }

  // -------- Sends of which some fail --------

  // A message given to netSend, and whether its bytes could be sent.
  datatype Try = Try(m: WireMessage, ok: bool)

  // The stream that these leave: the encoder moves on with every one of them.
  function Out(state: StreamState, tries: seq<Try>): seq<Octet>
    decreases |tries|
  {
    if tries == [] then []
    else (if tries[0].ok then Frame(state, tries[0].m) else []) + Out(Advanced(state), tries[1..])
  }

  // The messages that got away, and those that did before the first failure.
  function Away(tries: seq<Try>): seq<WireMessage> {
    if tries == [] then [] else (if tries[0].ok then [tries[0].m] else []) + Away(tries[1..])
  }

  function Leading(tries: seq<Try>): seq<WireMessage> {
    if tries == [] || !tries[0].ok then [] else [tries[0].m] + Leading(tries[1..])
  }

  // No message got away after one that did not.
  predicate FailuresLast(tries: seq<Try>) {
    forall i, j :: 0 <= i < j < |tries| && tries[j].ok ==> tries[i].ok
  }

  // A decoder that has fallen behind the encoder reads nothing, and whatever comes fails an assertion.
  lemma {:induction false} BehindReadsNothing(decoder: StreamState, state: StreamState, tries: seq<Try>)
    requires forall t :: t in tries ==> Valid(t.m)
    requires decoder.counter < state.counter
    ensures Read(decoder, Out(state, tries))
         == Reading([], decoder, if Away(tries) == [] then Waiting else AssertionFailed)
    decreases |tries|
  {
    if tries != [] {
      var rest := Out(Advanced(state), tries[1..]);
      if tries[0].ok {
        OtherStatesRefuse(state, decoder, tries[0].m, rest);
        FrameHasLength(state, tries[0].m);
        hide Frame, FirstFrame;
      } else {
        BehindReadsNothing(decoder, Advanced(state), tries[1..]);
        assert [] + rest == rest;
        hide Read;
      }
    }
  }

  lemma FrameHasLength(state: StreamState, m: WireMessage)
    ensures Frame(state, m) != []
  {
    assert |Encode(Ciphertext(state, Packed(m)).Size(), INT_SIZE)| == INT_SIZE;
    hide Encode;
  }

  lemma SameRest(m: WireMessage, a: seq<WireMessage>, b: seq<WireMessage>)
    ensures [m] + a == [m] + b <==> a == b
  {
    assert ([m] + a)[1..] == a && ([m] + b)[1..] == b;
  }

  // What the receiver gets: everything up to the first failure, and then nothing more.
  lemma {:induction false} SendsAreRead(state: StreamState, tries: seq<Try>)
    requires forall t :: t in tries ==> Valid(t.m)
    ensures Read(state, Out(state, tries)).messages == Leading(tries)
    ensures Read(state, Out(state, tries)).ending == if Away(tries) == Leading(tries) then Waiting else AssertionFailed
    decreases |tries|
  {
    if tries != [] {
      if tries[0].ok {
        ReadsOn(state, tries);
        SendsAreRead(Advanced(state), tries[1..]);
        SameRest(tries[0].m, Away(tries[1..]), Leading(tries[1..]));
      } else {
        assert [] + Out(Advanced(state), tries[1..]) == Out(Advanced(state), tries[1..]);
        assert [] + Away(tries[1..]) == Away(tries[1..]);
        BehindReadsNothing(state, Advanced(state), tries[1..]);
      }
      hide Read;
    }
  }

  lemma ReadsOn(state: StreamState, tries: seq<Try>)
    requires tries != [] && tries[0].ok && Valid(tries[0].m)
    ensures var r, rest := Read(state, Out(state, tries)), Read(Advanced(state), Out(Advanced(state), tries[1..]));
      r.messages == [tries[0].m] + rest.messages && r.ending == rest.ending
  {
    var m, rest := tries[0].m, Out(Advanced(state), tries[1..]);
    FrameIsCutOut(state, m, rest);
    FrameHasLength(state, m);
    var stream := Frame(state, m) + rest;
    assert stream == Out(state, tries) && stream[|Frame(state, m)|..] == rest;
    hide Frame, FirstFrame, Out;
  }

  lemma {:induction false} NoneAway(tries: seq<Try>)
    ensures Away(tries) == [] <==> forall k :: 0 <= k < |tries| ==> !tries[k].ok
  {
    if tries != [] {
      NoneAway(tries[1..]);
      assert forall k :: 0 < k < |tries| ==> tries[k] == tries[1..][k - 1];
      assert forall k :: 0 <= k < |tries[1..]| ==> tries[1..][k] == tries[k + 1];
    }
  }

  lemma FailuresLastRest(tries: seq<Try>)
    requires tries != []
    ensures tries[0].ok ==> (FailuresLast(tries) <==> FailuresLast(tries[1..]))
    ensures !tries[0].ok ==> (FailuresLast(tries) <==> forall k :: 0 <= k < |tries[1..]| ==> !tries[1..][k].ok)
  {
    var rest := tries[1..];
    assert forall k :: 0 <= k < |rest| ==> rest[k] == tries[k + 1];
    assert forall k :: 0 < k < |tries| ==> tries[k] == rest[k - 1];
    if FailuresLast(tries) {
      forall i, j | 0 <= i < j < |rest| && rest[j].ok
        ensures rest[i].ok
      {
        assert tries[j + 1].ok && tries[i + 1].ok;
      }
      if !tries[0].ok {
        forall k | 0 <= k < |rest|
          ensures !rest[k].ok
        {
          assert !tries[k + 1].ok;
        }
      }
    }
  }

  lemma {:induction false} LeadingIsAll(tries: seq<Try>)
    ensures Leading(tries) == Away(tries) <==> FailuresLast(tries)
  {
    if tries != [] {
      FailuresLastRest(tries);
      if tries[0].ok {
        LeadingIsAll(tries[1..]);
        SameRest(tries[0].m, Away(tries[1..]), Leading(tries[1..]));
      } else {
        NoneAway(tries[1..]);
        assert [] + Away(tries[1..]) == Away(tries[1..]);
      }
      hide FailuresLast;
    }
  }

  // The receiver gets exactly the messages that got away if and only if none got away after one
  // that did not.
  lemma ReadBackExactly(state: StreamState, tries: seq<Try>)
    requires forall t :: t in tries ==> Valid(t.m)
    ensures Read(state, Out(state, tries)).messages == Away(tries)
       <==> forall i, j :: 0 <= i < j < |tries| && tries[j].ok ==> tries[i].ok
  {
    SendsAreRead(state, tries);
    LeadingIsAll(tries);
    hide Read, Out, Leading, Away;
  }

  // One more try at the end.
  lemma {:induction false} OutGrows(state: StreamState, tries: seq<Try>, t: Try)
    ensures Out(state, tries + [t]) == Out(state, tries) + (if t.ok then Frame(After(state, |tries|), t.m) else [])
    decreases |tries|
  {
    hide Frame;
    if tries == [] {
      assert (tries + [t])[1..] == [];
    } else {
      assert (tries + [t])[1..] == tries[1..] + [t];
      OutGrows(Advanced(state), tries[1..], t);
      assert After(Advanced(state), |tries| - 1) == After(state, |tries|);
    }
  }

  // -------- The two ends --------

  class Sender {
    var encoder: StreamState
    var outgoing: seq<Octet>
    ghost const start: StreamState
    ghost var tries: seq<Try>

    // What has been sent since the start.
    ghost predicate Accounts()
      reads this
    {
      encoder == After(start, |tries|) && outgoing == Out(start, tries)
    }

    constructor (state: StreamState)
      ensures encoder == state && outgoing == [] && start == state && tries == [] && Accounts()
    {
      encoder, outgoing := state, [];
      start, tries := state, [];
    }

    // netSend: the encoder moves on whether or not the bytes can be sent.
    method Send(m: WireMessage, ok: bool)
      requires Valid(m) && Accounts()
      modifies this
      ensures Accounts() && tries == old(tries) + [Try(m, ok)]
      ensures encoder == Advanced(old(encoder))
      ensures outgoing == if ok then old(outgoing) + Frame(old(encoder), m) else old(outgoing)
    {
      OutGrows(start, tries, Try(m, ok));
      tries := tries + [Try(m, ok)];
      var packed := PackMessage(m);
      var text := Ciphertext(encoder, packed[..]);
      assert Frame(encoder, m) == PlainOctets(Encode(text.Size(), INT_SIZE)) + SealedOctets(text);
      hide Out, Frame, Encode;
      encoder := Advanced(encoder);
      if ok {
        outgoing := outgoing + (PlainOctets(Encode(text.Size(), INT_SIZE)) + SealedOctets(text));
      }
      assert old(outgoing) + [] == old(outgoing);
    }
  }

  class Receiver {
    var decoder: StreamState
    var incoming: seq<Octet>

    constructor (state: StreamState, stream: seq<Octet>)
      ensures decoder == state && incoming == stream
    {
      decoder, incoming := state, stream;
    }

    // receivePart: all or nothing
    method ReceivePart(size: nat) returns (part: Option<seq<Octet>>)
      modifies this`incoming
      ensures part == if size <= |old(incoming)| then Some(old(incoming)[..size]) else None
      ensures incoming == if part.Some? then old(incoming)[size..] else old(incoming)
    {
      part := None;
      if size <= |incoming| {
        part := Some(incoming[..size]);
        incoming := incoming[size..];
      }
    }

    // receive
    method Receive() returns (parsed: Parsed)
      modifies this
      ensures parsed == FirstFrame(old(decoder), old(incoming))
      ensures parsed.Message? ==> decoder == Advanced(old(decoder)) && incoming == old(incoming)[parsed.size..]
      ensures parsed.Stop? && parsed.ending == Disconnected ==> decoder == old(decoder)
    {
      var head := ReceivePart(INT_SIZE);
      if head.None? {
        return Stop(Disconnected);
      }
      var size := Decode(Values(head.value));
      if size == 0 || size > MAX_FRAME_SIZE {
        return Stop(AssertionFailed);
      }
      var buffer := ReceivePart(size);
      if buffer.None? {
        return Stop(Disconnected);
      }
      var text := Gathered(buffer.value);
      assert buffer.value == old(incoming)[INT_SIZE..INT_SIZE + size];
      if text.None? || text.value.state != decoder {
        return Stop(AssertionFailed);
      }
      decoder := Advanced(decoder);
      var m := Unpacked(text.value.plain);
      if m.None? {
        return Stop(AssertionFailed);
      }
      parsed := Message(m.value, INT_SIZE + size);
    }

    // netListen: reads on while the socket has something to give.
    method Listen() returns (messages: seq<WireMessage>, ending: Ending)
      modifies this
      ensures var r := Read(old(decoder), old(incoming)); messages == r.messages && ending == r.ending
    {
      messages, ending := [], Waiting;
      ghost var whole := Read(decoder, incoming);
      hide FirstFrame;
      while incoming != []
        invariant ending == Waiting
        invariant whole == var r := Read(decoder, incoming); r.(messages := messages + r.messages)
        decreases |incoming|
      {
        ghost var before := messages;
        var parsed := Receive();
        match parsed {
          case Stop(stopped) =>
            ending := stopped;
            return;
          case Message(m, _) =>
            messages := messages + [m];
            assert before + ([m] + Read(decoder, incoming).messages) == messages + Read(decoder, incoming).messages;
        }
      }
    }
  }
}
