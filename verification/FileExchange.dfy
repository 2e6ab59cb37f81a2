/** Sending a file in chunks: the two passes of the sender over the file, and the receiver's
    loop over what its queue and its clock bring. */
module FileExchange {
  import opened Prelude
  import opened Crypto
  import opened Protocol
  import opened Queue

  const TIMEOUT: nat := 15000

  // What the user is told at the end, unless an assertion fails first.
  datatype Report = Transmitted | NotTransmitted | AssertionFailed

  // Addition in C's unsigned.
  function AddUnsigned(a: nat, b: nat): (sum: nat)
    ensures a + b < UINT_LIMIT ==> sum == a + b
  {
    (a + b) % UINT_LIMIT
  }

  lemma AddingModulo(size: nat, more: nat)
    ensures AddUnsigned(size % UINT_LIMIT, more) == (size + more) % UINT_LIMIT
  {
  }

  // -------- Reading a file in pieces --------

  // How much one read yields: a failed read and the end of the file both yield nothing,
  // and otherwise the file system chooses.
  function ReadSize(remaining: nat, wanted: nat, choice: nat): nat {
    Min(choice, Min(wanted, remaining))
  }

  // What the file system makes of the k-th read; past the list it gives all it is asked for.
  function Choice(choices: seq<nat>, k: nat): nat {
    if k < |choices| then choices[k] else MaxUnencryptedSize()
  }

  // The pieces that successive reads yield until one yields nothing.
  function Pieces(file: seq<byte>, position: nat, choices: seq<nat>, k: nat): seq<seq<byte>>
    requires position <= |file|
    decreases |file| - position
  {
    var n := ReadSize(|file| - position, MaxUnencryptedSize(), Choice(choices, k));
    if n == 0 then [] else [file[position..position + n]] + Pieces(file, position + n, choices, k + 1)
  }

  lemma {:induction false} PiecesFit(file: seq<byte>, position: nat, choices: seq<nat>, k: nat)
    requires position <= |file|
    ensures forall j :: 0 <= j < |Pieces(file, position, choices, k)| ==>
              1 <= |Pieces(file, position, choices, k)[j]| <= MaxUnencryptedSize()
    ensures Concat(Pieces(file, position, choices, k)) <= file[position..]
    decreases |file| - position
  {
    var n := ReadSize(|file| - position, MaxUnencryptedSize(), Choice(choices, k));
    if n > 0 {
      PiecesFit(file, position + n, choices, k + 1);
      assert file[position..] == file[position..position + n] + file[position + n..];
    }
  }

  // Reads that do not fail yield the whole file, however they split it.
  lemma {:induction false} PiecesJoin(file: seq<byte>, position: nat, choices: seq<nat>, k: nat)
    requires position <= |file| && 0 !in choices
    ensures Concat(Pieces(file, position, choices, k)) == file[position..]
    ensures position < |file| ==> Pieces(file, position, choices, k) != []
    decreases |file| - position
  {
    var n := ReadSize(|file| - position, MaxUnencryptedSize(), Choice(choices, k));
    if n > 0 {
      PiecesJoin(file, position + n, choices, k + 1);
      assert file[position..] == file[position..position + n] + file[position + n..];
    }
  }

  // What lands in the queue of file messages.
  datatype FileMessage =
    | Chunk(text: Ciphertext)
    | Answer(fileSize: nat) // the reply to an invite
    | OtherMessage

  // Some read fails, or yields nothing, before the end of the file.
  predicate BreaksOff(size: nat, position: nat, choices: seq<nat>, k: nat)
    decreases size - position
  {
    position < size &&
    var n := ReadSize(size - position, MaxUnencryptedSize(), Choice(choices, k));
    n == 0 || BreaksOff(size, position + n, choices, k + 1)
  }

  // Reads yield the whole file exactly if they do not break off.
  lemma {:induction false} PiecesJoinExactly(file: seq<byte>, position: nat, choices: seq<nat>, k: nat)
    requires position <= |file|
    ensures Concat(Pieces(file, position, choices, k)) == file[position..] <==> !BreaksOff(|file|, position, choices, k)
    decreases |file| - position
  {
    var n := ReadSize(|file| - position, MaxUnencryptedSize(), Choice(choices, k));
    if n > 0 {
      PiecesJoinExactly(file, position + n, choices, k + 1);
      var piece, rest := file[position..position + n], Concat(Pieces(file, position + n, choices, k + 1));
      assert file[position..] == piece + file[position + n..];
      assert (piece + rest)[n..] == rest && (piece + file[position + n..])[n..] == file[position + n..];
      hide ReadSize, Choice;
    }
  }

  // -------- The sender --------

  function Seal(state: StreamState, pieces: seq<seq<byte>>): (chunks: seq<Ciphertext>)
    ensures |chunks| == |pieces|
  {
    seq(|pieces|, k requires 0 <= k < |pieces| => Ciphertext(state, pieces[k]))
  }

  // After k reads the position is start, and the rest of the pieces is still to come.
  ghost predicate ReadSoFar(file: seq<byte>, choices: seq<nat>, all: seq<seq<byte>>, start: nat, k: nat) {
    && start <= |file| && k <= |all|
    && Pieces(file, start, choices, k) == all[k..] && Concat(all[..k]) == file[..start]
  }

  lemma NothingReadYet(file: seq<byte>, choices: seq<nat>)
    ensures ReadSoFar(file, choices, Pieces(file, 0, choices, 0), 0, 0)
  {
  }

  // One read further into the pieces, or the end of them.
  lemma ReadOn(file: seq<byte>, choices: seq<nat>, all: seq<seq<byte>>, start: nat, k: nat)
    requires ReadSoFar(file, choices, all, start, k)
    ensures start <= |file| && k <= |all|
    ensures var n := ReadSize(|file| - start, MaxUnencryptedSize(), Choice(choices, k));
      && (n == 0 ==> k == |all| && Concat(all) == file[..start])
      && (n > 0 ==> k < |all| && all[k] == file[start..start + n] && ReadSoFar(file, choices, all, start + n, k + 1))
  {
    hide Concat;
    var n := ReadSize(|file| - start, MaxUnencryptedSize(), Choice(choices, k));
    if n == 0 {
      assert all[..k] == all;
    } else {
      assert all[k] == all[k..][0] && all[k + 1..] == all[k..][1..];
      assert all[..k + 1] == all[..k] + [all[k]];
      assert file[..start] + file[start..start + n] == file[..start + n];
      ConcatAppend(all[..k], all[k]);
    }
  }

  // What has been hashed so far is the file up to there.
  ghost predicate HashedSoFar(file: seq<byte>, choices: seq<nat>, start: nat, k: nat, absorbed: seq<byte>) {
    ReadSoFar(file, choices, Pieces(file, 0, choices, 0), start, k) && absorbed == file[..start]
  }

  lemma NothingHashedYet(file: seq<byte>, choices: seq<nat>)
    ensures HashedSoFar(file, choices, 0, 0, [])
  {
    NothingReadYet(file, choices);
  }

  lemma HashOn(file: seq<byte>, choices: seq<nat>, start: nat, k: nat, absorbed: seq<byte>)
    requires HashedSoFar(file, choices, start, k, absorbed)
    ensures start <= |file|
    ensures var n := ReadSize(|file| - start, MaxUnencryptedSize(), Choice(choices, k));
      && (n == 0 ==> Checksum(Pieces(file, 0, choices, 0)) == if k == 0 then None else Some(Digest(absorbed)))
      && (n > 0 ==> HashedSoFar(file, choices, start + n, k + 1, absorbed + file[start..start + n]))
  {
    ReadOn(file, choices, Pieces(file, 0, choices, 0), start, k);
    hide ReadSoFar, Concat, Pieces;
    var n := ReadSize(|file| - start, MaxUnencryptedSize(), Choice(choices, k));
    assert file[..start] + file[start..start + n] == file[..start + n];
  }

  // And the chunks so far are what the pieces so far are sealed into.
  ghost predicate SealedSoFar(
    state: StreamState, file: seq<byte>, choices: seq<nat>, start: nat, k: nat, chunks: seq<Ciphertext>)
  {
    var all := Pieces(file, 0, choices, 0);
    ReadSoFar(file, choices, all, start, k) && chunks == Seal(state, all[..k])
  }

  lemma NothingSealedYet(state: StreamState, file: seq<byte>, choices: seq<nat>)
    ensures SealedSoFar(state, file, choices, 0, 0, [])
  {
    NothingReadYet(file, choices);
  }

  lemma ChunkOn(state: StreamState, file: seq<byte>, choices: seq<nat>, start: nat, k: nat, chunks: seq<Ciphertext>)
    requires SealedSoFar(state, file, choices, start, k, chunks)
    ensures var all := Pieces(file, 0, choices, 0);
      && start <= |file| && k <= |all| && chunks <= Seal(state, all)
      && var n := ReadSize(|file| - start, MaxUnencryptedSize(), Choice(choices, k));
         && (n == 0 ==> k == |all| && chunks == Seal(state, all) && |Concat(all)| == start)
         && (n > 0 ==>
              && k < |all|
              && SealedSoFar(state, file, choices, start + n, k + 1, chunks + [Ciphertext(state, file[start..start + n])]))
  {
    var all := Pieces(file, 0, choices, 0);
    ReadOn(file, choices, all, start, k);
    hide ReadSoFar, Concat, Pieces;
    if k == |all| {
      assert all[..k] == all;
    }
  }

  class FileSender {
    const file: seq<byte>
    const streams: Streams // the stored conversation with the receiver
    var position: nat
    var fileBytesCounter: nat
    var exchangingFile: bool
    const fileMessages: Queue<FileMessage>

    constructor (file: seq<byte>, streams: Streams)
      ensures this.file == file && this.streams == streams && position == 0
      ensures !exchangingFile && fresh(fileMessages) && fileMessages.Valid()
    {
      this.file, this.streams := file, streams;
      position, fileBytesCounter, exchangingFile := 0, 0, false;
      fileMessages := new Queue();
    }

    // SDL_RWread
    method Read(wanted: nat, choice: nat) returns (piece: seq<byte>)
      requires position <= |file|
      modifies this`position
      ensures position == old(position) + ReadSize(|file| - old(position), wanted, choice) <= |file|
      ensures piece == file[old(position)..position]
    {
      var n := ReadSize(|file| - position, wanted, choice);
      piece := file[position..position + n];
      position := position + n;
    }

    // calculateOpenedFileChecksum
    method CalculateChecksum(choices: seq<nat>) returns (digest: Option<Digest>)
      requires position == 0
      modifies this`position
      ensures position == 0
      ensures digest == Checksum(Pieces(file, 0, choices, 0))
    {
      var state := new HashState();
      var read, k: nat := false, 0;
      ghost var start := 0;
      NothingHashedYet(file, choices);
      hide HashedSoFar, Pieces, Concat, Checksum, ReadSize, Choice, MaxUnencryptedSize;
      var piece := Read(MaxUnencryptedSize(), Choice(choices, 0));
      while piece != []
        invariant start <= position <= |file| && HashedSoFar(file, choices, start, k, state.absorbed)
        invariant position == start + ReadSize(|file| - start, MaxUnencryptedSize(), Choice(choices, k))
        invariant piece == file[start..position] && fresh(state) && (read <==> k > 0)
        decreases |file| - start
      {
        HashOn(file, choices, start, k, state.absorbed);
        read := true;
        state.Update(piece);
        k, start := k + 1, position;
        piece := Read(MaxUnencryptedSize(), Choice(choices, k));
      }
      HashOn(file, choices, start, k, state.absorbed);
      position := 0;
      if !read {
        return None;
      }
      var final := state.Final();
      digest := Some(final);
    }

    // nextFileChunkSupplier: the next piece under streams that are loaded anew for every piece.
    method NextFileChunk(choice: nat) returns (chunk: Option<Ciphertext>)
      requires position <= |file|
      modifies this`position, this`fileBytesCounter
      ensures old(position) <= position == old(position) + ReadSize(|file| - old(position), MaxUnencryptedSize(), choice) <= |file|
      ensures chunk == if position == old(position) then None
                       else Some(Ciphertext(streams.encryption, file[old(position)..position]))
      ensures chunk.Some? ==> chunk.value.Size() <= MAX_BODY_SIZE
      ensures fileBytesCounter == if chunk.None? then old(fileBytesCounter)
                                  else AddUnsigned(old(fileBytesCounter), position - old(position))
    {
      var piece := Read(MaxUnencryptedSize(), choice);
      if piece == [] {
        return None;
      }
      var coderStreams := new CoderStreams.FromStates(streams);
      var sealed := coderStreams.Encrypt(piece);
      fileBytesCounter := AddUnsigned(fileBytesCounter, |piece|);
      chunk := Some(sealed);
    }

    // The chunk loop of netBeginFileExchange; sent is false when a send has failed.
    method SendChunks(choices: seq<nat>, failure: Option<nat>) returns (sent: bool, chunks: seq<Ciphertext>)
      requires position == 0 && fileBytesCounter == 0 && |file| < UINT_LIMIT
      modifies this`position, this`fileBytesCounter
      ensures var pieces := Pieces(file, 0, choices, 0);
        && chunks <= Seal(streams.encryption, pieces)
        && (sent <==> AllSent(failure, |pieces|)) && (!sent ==> |chunks| == failure.value)
        && (sent ==> chunks == Seal(streams.encryption, pieces) && fileBytesCounter == |Concat(pieces)|)
    {
      chunks := [];
      NothingSealedYet(streams.encryption, file, choices);
      hide Pieces, SealedSoFar, Seal, AddUnsigned, Concat, ReadSize, Choice;
      ghost var start := 0;
      var k: nat := 0;
      var chunk := NextFileChunk(Choice(choices, 0));
      while chunk.Some?
        invariant start <= position <= |file| && SealedSoFar(streams.encryption, file, choices, start, k, chunks)
        invariant position == start + ReadSize(|file| - start, MaxUnencryptedSize(), Choice(choices, k))
        invariant chunk == if position == start then None else Some(Ciphertext(streams.encryption, file[start..position]))
        invariant fileBytesCounter == position && AllSent(failure, k) && |chunks| == k
        decreases |file| - start
      {
        ChunkOn(streams.encryption, file, choices, start, k, chunks);
        if failure == Some(k) {
          return false, chunks;
        }
        chunks := chunks + [chunk.value];
        k, start := k + 1, position;
        chunk := NextFileChunk(Choice(choices, k));
      }
      ChunkOn(streams.encryption, file, choices, start, k, chunks);
      sent := true;
    }

    // finishFileExchanging
    method FinishFileExchanging()
      requires fileMessages.Valid()
      modifies this`exchangingFile, fileMessages
      ensures fileMessages.Valid() && !exchangingFile && fileMessages.Contents() == []
    {
      fileMessages.Clear();
      exchangingFile := false;
    }

    // netBeginFileExchange up to the answer: the invite, and the first message of those that land
    // before the deadline.
    method OfferFile(askSent: bool, landed: seq<FileMessage>) returns (accepted: bool)
      requires fileMessages.Valid() && !exchangingFile
      modifies this`exchangingFile, fileMessages
      ensures fileMessages.Valid()
      ensures accepted <==> askSent && landed != [] && landed[0].Answer? && landed[0].fileSize == |file|
      ensures exchangingFile == accepted && (!accepted ==> fileMessages.Contents() == [])
    {
      accepted := false;
      exchangingFile := true;
      fileMessages.Clear();
      if askSent {
        fileMessages.PushAll(landed);
        if fileMessages.size > 0 {
          var message := fileMessages.Pop();
          assert landed == [message] + fileMessages.Contents();
          accepted := message.Answer? && message.fileSize == |file|;
        }
      }
      if !accepted {
        FinishFileExchanging();
      }
    }

    // beginFileExchange around netBeginFileExchange. The environment decides how reads split the
    // file, whether the invite can be sent, which chunk cannot, and what lands in the queue:
    // first while the answer is awaited, and more while the chunks are sent.
    method BeginFileExchange(
      hashChoices: seq<nat>, choices: seq<nat>, askSent: bool, landed: seq<FileMessage>, more: seq<FileMessage>,
      failure: Option<nat>)
      returns (report: Report, digest: Option<Digest>, chunks: seq<Ciphertext>)
      requires position == 0 && 0 < |file| <= MAX_FILE_SIZE && fileMessages.Valid() && !exchangingFile
      modifies this, fileMessages
      ensures digest == Checksum(Pieces(file, 0, hashChoices, 0))
      ensures chunks <= Seal(streams.encryption, Pieces(file, 0, choices, 0))
      ensures var accepted := askSent && landed != [] && landed[0].Answer? && landed[0].fileSize == |file|;
        && report == SenderReport(file, digest, Pieces(file, 0, choices, 0), accepted, failure)
        && ReportedWell(file, digest, choices, accepted, failure, report)
        // without an acceptance nothing is sent
        && (digest.None? || !accepted ==> chunks == [])
        // a send that fails ends it after the chunks before
        && (digest.Some? && accepted && !AllSent(failure, |Pieces(file, 0, choices, 0)|) ==> |chunks| == failure.value)
      // and success means that the chunks hold the file
      ensures report == Transmitted ==>
        chunks == Seal(streams.encryption, Pieces(file, 0, choices, 0)) && Concat(Plains(chunks)) == file
      // every return leaves the slot and the queue clear
      ensures report != AssertionFailed ==> !exchangingFile && fileMessages.Valid() && fileMessages.Contents() == []
    {
      fileBytesCounter := 0;
      chunks := [];
      SenderReportMeans(file, Checksum(Pieces(file, 0, hashChoices, 0)), choices,
        askSent && landed != [] && landed[0].Answer? && landed[0].fileSize == |file|, failure);
      SealedPlains(streams.encryption, Pieces(file, 0, choices, 0));
      PiecesFit(file, 0, choices, 0);
      assert file[0..] == file;
      hide Pieces, Seal, Plains, ReportedWell;
      digest := CalculateChecksum(hashChoices);
      if digest.None? {
        return AssertionFailed, digest, chunks;
      }
      var accepted := OfferFile(askSent, landed);
      if !accepted {
        return NotTransmitted, digest, chunks;
      }
      var sent;
      sent, chunks := SendChunks(choices, failure);
      if sent && chunks == [] {
        return AssertionFailed, digest, chunks;
      }
      fileMessages.PushAll(more);
      FinishFileExchanging();
      report := if sent && fileBytesCounter == |file| then Transmitted else NotTransmitted;
    }
  }

  predicate AllSent(failure: Option<nat>, count: nat) {
    failure.None? || count <= failure.value
  }

  function Checksum(pieces: seq<seq<byte>>): Option<Digest> {
    if pieces == [] then None else Some(Digest(Concat(pieces)))
  }

  // What the sender is told. An empty first read fails the supplier's assertion.
  function SenderReport(
    file: seq<byte>, digest: Option<Digest>, pieces: seq<seq<byte>>, accepted: bool, failure: Option<nat>): Report {
    if digest.None? then AssertionFailed
    else if !accepted || !AllSent(failure, |pieces|) then NotTransmitted
    else if pieces == [] then AssertionFailed
    else if |Concat(pieces)| == |file| then Transmitted
    else NotTransmitted
  }

  // When an assertion fails, and when the sender is told that its file has been transmitted: exactly if
  // its offer was accepted, no send has failed and neither has a read.
  predicate ReportedWell(
    file: seq<byte>, digest: Option<Digest>, choices: seq<nat>, accepted: bool, failure: Option<nat>, report: Report)
  {
    var sent := accepted && (failure.None? || |Pieces(file, 0, choices, 0)| <= failure.value);
    && (report == AssertionFailed <==> digest.None? || (sent && Choice(choices, 0) == 0))
    && (report == Transmitted <==> digest.Some? && sent && !BreaksOff(|file|, 0, choices, 0))
  }

  lemma SenderReportMeans(
    file: seq<byte>, digest: Option<Digest>, choices: seq<nat>, accepted: bool, failure: Option<nat>)
    requires file != []
    ensures ReportedWell(file, digest, choices, accepted, failure,
                         SenderReport(file, digest, Pieces(file, 0, choices, 0), accepted, failure))
  {
    var pieces := Pieces(file, 0, choices, 0);
    PiecesFit(file, 0, choices, 0);
    PiecesJoinExactly(file, 0, choices, 0);
    assert file[0..] == file;
    assert |Concat(pieces)| == |file| ==> Concat(pieces) == file;
    assert pieces == [] <==> Choice(choices, 0) == 0;
    hide Pieces, Concat;
  }

  function Plains(chunks: seq<Ciphertext>): (pieces: seq<seq<byte>>)
    ensures |pieces| == |chunks|
  {
    seq(|chunks|, k requires 0 <= k < |chunks| => chunks[k].plain)
  }

  lemma SealedPlains(state: StreamState, pieces: seq<seq<byte>>)
    ensures Plains(Seal(state, pieces)) == pieces
  {
  }

  // -------- What the receiver's queue and clock bring --------

  // When a message lands in the queue. The clock moves only while the loop waits.
  datatype Arrival = Arrival(time: nat, message: FileMessage)

  function Max(a: nat, b: nat): nat {
    if a < b then b else a
  }

  // What the loop has done by its end. accepted is when it last took a chunk, or when it began.
  datatype Reception = Reception(written: seq<byte>, aborted: bool, accepted: nat, end: nat)

  // The loop of netReplyToFileExchangeInvite from one wait on.
  function ReceptionFrom(state: StreamState, arrivals: seq<Arrival>, now: nat, accepted: nat, written: seq<byte>): Reception
  {
    if arrivals == [] || Max(now, arrivals[0].time) - now >= TIMEOUT then
      Reception(written, false, accepted, now + TIMEOUT)
    else
      var time := Max(now, arrivals[0].time);
      if time - accepted >= TIMEOUT then Reception(written, false, accepted, time)
      else match arrivals[0].message
        case Chunk(text) =>
          if !(0 < |text.plain| <= MaxUnencryptedSize()) || Pull(state, text).None? then
            Reception(written, true, time, time)
          else ReceptionFrom(state, arrivals[1..], time, time, written + text.plain)
        case _ => ReceptionFrom(state, arrivals[1..], time, accepted, written)
  }

  // The queue holds the arrivals from the k-th on that have landed by now.
  ghost predicate InQueue(contents: seq<FileMessage>, arrivals: seq<Arrival>, k: nat, landed: nat, now: nat) {
    && k <= landed <= |arrivals| && |contents| == landed - k
    && (forall j :: 0 <= j < |contents| ==> contents[j] == arrivals[k + j].message)
    && (forall i :: k <= i < landed ==> arrivals[i].time <= now)
  }

  lemma Landing(contents: seq<FileMessage>, arrivals: seq<Arrival>, k: nat, landed: nat, now: nat, time: nat)
    requires InQueue(contents, arrivals, k, landed, now) && landed < |arrivals|
    requires now <= time && arrivals[landed].time <= time
    ensures InQueue(contents + [arrivals[landed].message], arrivals, k, landed + 1, time)
  {
  }

  lemma Leaving(contents: seq<FileMessage>, arrivals: seq<Arrival>, k: nat, landed: nat, now: nat)
    requires InQueue(contents, arrivals, k, landed, now)
    ensures k <= landed <= |arrivals| && (contents == [] <==> k == landed)
    ensures contents != [] ==>
      && contents[0] == arrivals[k].message && arrivals[k].time <= now
      && InQueue(contents[1..], arrivals, k + 1, landed, now)
  {
  }

  // What the loop makes of the k-th arrival.
  lemma OneArrival(state: StreamState, arrivals: seq<Arrival>, k: nat, now: nat, accepted: nat, written: seq<byte>)
    requires k <= |arrivals|
    ensures var r := ReceptionFrom(state, arrivals[k..], now, accepted, written);
      if k == |arrivals| || Max(now, arrivals[k].time) - now >= TIMEOUT then
        r == Reception(written, false, accepted, now + TIMEOUT)
      else
        var time := Max(now, arrivals[k].time);
        if time - accepted >= TIMEOUT then r == Reception(written, false, accepted, time)
        else if !arrivals[k].message.Chunk? then r == ReceptionFrom(state, arrivals[k + 1..], time, accepted, written)
        else
          var text := arrivals[k].message.text;
          if !(0 < |text.plain| <= MaxUnencryptedSize()) || Pull(state, text).None? then
            r == Reception(written, true, time, time)
          else r == ReceptionFrom(state, arrivals[k + 1..], time, time, written + text.plain)
  {
    if k < |arrivals| {
      assert arrivals[k..][1..] == arrivals[k + 1..];
    }
  }

  // The receiver gives up less than twice the timeout after the last chunk it took, however
  // many other messages keep arriving.
  lemma {:induction false} TimedTermination(state: StreamState, arrivals: seq<Arrival>, now: nat, accepted: nat, written: seq<byte>)
    requires accepted <= now < accepted + TIMEOUT
    ensures var r := ReceptionFrom(state, arrivals, now, accepted, written);
      accepted <= r.accepted <= r.end < r.accepted + 2 * TIMEOUT
  {
    if arrivals != [] {
      var time := Max(now, arrivals[0].time);
      if time - now < TIMEOUT && time - accepted < TIMEOUT {
        match arrivals[0].message {
          case Chunk(text) => TimedTermination(state, arrivals[1..], time, time, written + text.plain);
          case _ => TimedTermination(state, arrivals[1..], time, accepted, written);
        }
      }
    }
  }

  // The given chunks arrive in order, each in time after the one before; whatever other messages
  // arrive between them and after the last.
  predicate InTime(arrivals: seq<Arrival>, chunks: seq<Ciphertext>, now: nat, accepted: nat) {
    if chunks == [] then forall k :: 0 <= k < |arrivals| ==> !arrivals[k].message.Chunk?
    else
      arrivals != [] &&
      var time := Max(now, arrivals[0].time);
      time < accepted + TIMEOUT &&
      if arrivals[0].message.Chunk? then
        arrivals[0].message.text == chunks[0] && InTime(arrivals[1..], chunks[1..], time, time)
      else InTime(arrivals[1..], chunks, time, accepted)
  }

  // Without chunks nothing is written and no assertion fails.
  lemma {:induction false} OthersArePassedOver(state: StreamState, arrivals: seq<Arrival>, now: nat, accepted: nat, written: seq<byte>)
    requires forall k :: 0 <= k < |arrivals| ==> !arrivals[k].message.Chunk?
    ensures var r := ReceptionFrom(state, arrivals, now, accepted, written); !r.aborted && r.written == written
  {
    if arrivals != [] {
      OthersArePassedOver(state, arrivals[1..], Max(now, arrivals[0].time), accepted, written);
    }
  }

  lemma {:induction false} HonestReception(
    state: StreamState, pieces: seq<seq<byte>>, arrivals: seq<Arrival>, now: nat, accepted: nat, written: seq<byte>)
    requires accepted <= now && InTime(arrivals, Seal(state, pieces), now, accepted)
    requires forall j :: 0 <= j < |pieces| ==> 1 <= |pieces[j]| <= MaxUnencryptedSize()
    ensures var r := ReceptionFrom(state, arrivals, now, accepted, written);
      !r.aborted && r.written == written + Concat(pieces)
    decreases |arrivals|
  {
    if pieces == [] {
      OthersArePassedOver(state, arrivals, now, accepted, written);
      assert written + [] == written;
    } else {
      var time := Max(now, arrivals[0].time);
      if arrivals[0].message.Chunk? {
        assert Seal(state, pieces)[1..] == Seal(state, pieces[1..]);
        HonestReception(state, pieces[1..], arrivals[1..], time, time, written + pieces[0]);
        assert written + pieces[0] + Concat(pieces[1..]) == written + Concat(pieces);
      } else {
        HonestReception(state, pieces, arrivals[1..], time, accepted, written);
      }
    }
  }

  // -------- The receiver --------

  // What the receiver is told; took: it has accepted in time and has said so.
  function Reported(took: bool, r: Reception, fileSize: nat, digest: Digest): Report {
    if !took then NotTransmitted
    else if r.aborted then AssertionFailed
    else if |r.written| % UINT_LIMIT == fileSize && r.written != [] && Digest(r.written) == digest then Transmitted
    else NotTransmitted
  }

  class FileReceiver {
    const streams: Streams // the stored conversation with the sender
    var written: seq<byte>
    var fileHashState: HashState?
    var fileBytesCounter: nat
    var exchangingFile: bool
    const fileMessages: Queue<FileMessage>

    // The listening thread has taken the slot for the invite.
    constructor (streams: Streams)
      ensures Valid() && fresh(fileMessages) && this.streams == streams && written == [] && exchangingFile
    {
      this.streams := streams;
      written, fileHashState, fileBytesCounter, exchangingFile := [], null, 0, true;
      fileMessages := new Queue();
    }

    ghost predicate Valid()
      reads this, fileHashState, fileMessages
    {
      && fileMessages.Valid()
      && (fileHashState == null <==> written == [])
      && (fileHashState != null ==> fileHashState.absorbed == written)
      && fileBytesCounter == |written| % UINT_LIMIT
    }

    // nextFileChunkReceiver; false when one of its assertions fails.
    method NextFileChunk(text: Ciphertext) returns (ok: bool)
      requires Valid()
      modifies this`written, this`fileHashState, this`fileBytesCounter, fileHashState
      ensures Valid() && (fileHashState == old(fileHashState) || fresh(fileHashState))
      ensures ok <==> 0 < |text.plain| <= MaxUnencryptedSize() && Pull(streams.decryption, text).Some?
      ensures written == if ok then old(written) + text.plain else old(written)
    {
      if !(0 < |text.plain| <= MaxUnencryptedSize()) {
        return false;
      }
      var coderStreams := new CoderStreams.FromStates(streams);
      var decrypted := coderStreams.Decrypt(text);
      if decrypted.None? {
        return false;
      }
      AddingModulo(|written|, |decrypted.value|);
      hide AddUnsigned;
      written := written + decrypted.value;
      if fileHashState == null {
        fileHashState := new HashState();
      }
      fileHashState.Update(decrypted.value);
      fileBytesCounter := AddUnsigned(fileBytesCounter, |decrypted.value|);
      ok := true;
    }

    // queueWaitAndPop. Of the arrivals, the first k have been popped and the first landed are or
    // have been in the queue; none if nothing comes before the deadline.
    method Wait(arrivals: seq<Arrival>, k: nat, landed: nat, now: nat)
      returns (message: Option<FileMessage>, nowLanded: nat, time: nat)
      requires fileMessages.Valid() && InQueue(fileMessages.Contents(), arrivals, k, landed, now)
      modifies fileMessages
      ensures fileMessages.Valid() && nowLanded <= |arrivals|
      ensures if k == |arrivals| || Max(now, arrivals[k].time) - now >= TIMEOUT
              then message.None? && time == now + TIMEOUT
              else && message == Some(arrivals[k].message) && time == Max(now, arrivals[k].time)
                   && InQueue(fileMessages.Contents(), arrivals, k + 1, nowLanded, time)
    {
      nowLanded, time := landed, now;
      Leaving(fileMessages.Contents(), arrivals, k, landed, now);
      hide InQueue;
      while nowLanded < |arrivals| && arrivals[nowLanded].time <= now
        invariant k <= nowLanded <= |arrivals|
        invariant fileMessages.Valid() && InQueue(fileMessages.Contents(), arrivals, k, nowLanded, now)
      {
        Landing(fileMessages.Contents(), arrivals, k, nowLanded, now, now);
        fileMessages.Push(arrivals[nowLanded].message);
        nowLanded := nowLanded + 1;
      }
      Leaving(fileMessages.Contents(), arrivals, k, nowLanded, now);
      if fileMessages.size == 0 {
        if nowLanded == |arrivals| || arrivals[nowLanded].time - now >= TIMEOUT {
          return None, nowLanded, now + TIMEOUT;
        }
        time := arrivals[nowLanded].time;
        Landing(fileMessages.Contents(), arrivals, k, nowLanded, now, time);
        fileMessages.Push(arrivals[nowLanded].message);
        nowLanded := nowLanded + 1;
        Leaving(fileMessages.Contents(), arrivals, k, nowLanded, time);
      }
      ghost var all := fileMessages.Contents();
      var first := fileMessages.Pop();
      assert all == [first] + fileMessages.Contents() && fileMessages.Contents() == all[1..];
      message := Some(first);
    }

    // The loop of netReplyToFileExchangeInvite, with when it last took a chunk and when it ended.
    method ReceiveChunks(arrivals: seq<Arrival>, start: nat) returns (aborted: bool, accepted: nat, end: nat)
      requires Valid() && written == [] && fileMessages.Contents() == []
      modifies this`written, this`fileHashState, this`fileBytesCounter, fileHashState, fileMessages
      ensures Valid()
      ensures Reception(written, aborted, accepted, end) == ReceptionFrom(streams.decryption, arrivals, start, start, [])
    {
      aborted, accepted := false, start;
      var now: nat, k: nat, landed: nat := start, 0, 0;
      ghost var whole := ReceptionFrom(streams.decryption, arrivals, start, start, []);
      assert arrivals[0..] == arrivals;
      assert InQueue(fileMessages.Contents(), arrivals, 0, 0, start);
      hide InQueue, ReceptionFrom;
      while true
        invariant k <= |arrivals| && Valid() && accepted <= now
        invariant InQueue(fileMessages.Contents(), arrivals, k, landed, now)
        invariant fileHashState == old(fileHashState) || fresh(fileHashState)
        invariant ReceptionFrom(streams.decryption, arrivals[k..], now, accepted, written) == whole
        decreases |arrivals| - k
      {
        OneArrival(streams.decryption, arrivals, k, now, accepted, written);
        var message;
        message, landed, end := Wait(arrivals, k, landed, now);
        if message.None? {
          return;
        }
        now := end;
        if now - accepted >= TIMEOUT {
          return;
        }
        match message.value {
          case Chunk(text) =>
            accepted := now;
            var ok := NextFileChunk(text);
            if !ok {
              return true, accepted, end;
            }
          case _ =>
        }
        k := k + 1;
      }
    }

    // finishFileExchanging
    method FinishFileExchanging()
      requires Valid()
      modifies this`exchangingFile, fileMessages
      ensures Valid() && !exchangingFile && fileMessages.Contents() == []
    {
      fileMessages.Clear();
      exchangingFile := false;
    }

    // netReplyToFileExchangeInvite; reply: what it has sent; completed: it has been through its loop.
    method ReplyToFileExchangeInvite(
      fileSize: nat, accept: bool, inTime: bool, replySent: bool, arrivals: seq<Arrival>, start: nat)
      returns (reply: Option<FileMessage>, completed: bool, aborted: bool, accepted: nat, end: nat)
      requires Valid() && written == [] && exchangingFile
      modifies this`written, this`fileHashState, this`fileBytesCounter, this`exchangingFile, fileHashState, fileMessages
      ensures Valid() && (completed <==> inTime && replySent && accept)
      ensures reply == Reply(fileSize, accept, inTime, replySent)
      ensures completed ==>
        Reception(written, aborted, accepted, end) == ReceptionFrom(streams.decryption, arrivals, start, start, [])
      ensures !completed ==> written == [] && !aborted
      ensures !aborted ==> !exchangingFile && fileMessages.Contents() == []
    {
      reply, completed, aborted, accepted, end := None, false, false, start, start;
      fileMessages.Clear();
      if !inTime {
        FinishFileExchanging();
        return;
      }
      var answer := if accept then fileSize else 0;
      if !replySent {
        FinishFileExchanging();
        return;
      }
      reply := Some(Answer(answer));
      if !accept {
        FinishFileExchanging();
        return;
      }
      completed := true;
      aborted, accepted, end := ReceiveChunks(arrivals, start);
      if !aborted {
        FinishFileExchanging();
      }
    }

    // replyToFileExchangeRequest once the user has answered. A file that cannot be opened is declined.
    method ReplyToFileExchangeRequest(fileSize: nat, originalHash: Digest, accept: bool, inTime: bool, replySent: bool,
                                      arrivals: seq<Arrival>, start: nat)
      returns (reply: Option<FileMessage>, report: Report)
      requires Valid() && written == [] && exchangingFile
      modifies this`written, this`fileHashState, this`fileBytesCounter, this`exchangingFile, fileHashState, fileMessages
      ensures reply == Reply(fileSize, accept, inTime, replySent)
      ensures var took := inTime && replySent && accept; var r := ReceptionFrom(streams.decryption, arrivals, start, start, []);
        && report == Reported(took, r, fileSize, originalHash)
        && written == (if took then r.written else [])
        && (report == AssertionFailed <==> took && r.aborted)
        && (report == Transmitted <==>
              took && !r.aborted && written != [] && |written| % UINT_LIMIT == fileSize && Digest(written) == originalHash)
      // every return leaves the slot and the queue clear
      ensures report != AssertionFailed ==> !exchangingFile && fileMessages.Valid() && fileMessages.Contents() == []
    {
      report := NotTransmitted;
      var completed, aborted, accepted, end;
      reply, completed, aborted, accepted, end :=
        ReplyToFileExchangeInvite(fileSize, accept, inTime, replySent, arrivals, start);
      if !completed {
        return;
      }
      if aborted {
        report := AssertionFailed;
        return;
      }
      var hashesEqual := false;
      if fileHashState != null {
        var hash := fileHashState.Final();
        hashesEqual := hash == originalHash;
      }
      report := if fileBytesCounter != fileSize || !hashesEqual then NotTransmitted else Transmitted;
    }
  }

  // -------- Both ends --------

  // What the receiver answers an offer with: its size if it accepts, 0 if it declines.
  function Reply(fileSize: nat, accept: bool, inTime: bool, replySent: bool): Option<FileMessage> {
    if inTime && replySent then Some(Answer(if accept then fileSize else 0)) else None
  }

  // There is a digest exactly if the first read does not fail, and it is the file's own exactly if the
  // pass does not break off.
  lemma ChecksumOfFile(file: seq<byte>, hashChoices: seq<nat>)
    requires file != []
    ensures var digest := Checksum(Pieces(file, 0, hashChoices, 0));
      && (Choice(hashChoices, 0) != 0 <==> digest.Some?)
      && (digest == Some(Digest(file)) <==> !BreaksOff(|file|, 0, hashChoices, 0))
    ensures 0 !in hashChoices ==> !BreaksOff(|file|, 0, hashChoices, 0)
  {
    PiecesJoinExactly(file, 0, hashChoices, 0);
    assert file[0..] == file;
    if 0 !in hashChoices {
      PiecesJoin(file, 0, hashChoices, 0);
    }
  }

  // Whatever arrives, in whatever order and however late or often, and wherever the sender's own
  // reads broke off, the receiver reports success only when what it wrote is the file that was
  // offered: the announced digest alone could be that of a mere beginning.
  lemma FileSafety(
    file: seq<byte>, hashChoices: seq<nat>, took: bool, state: StreamState, arrivals: seq<Arrival>, start: nat)
    requires 0 < |file| < UINT_LIMIT
    ensures var digest := Checksum(Pieces(file, 0, hashChoices, 0)); var r := ReceptionFrom(state, arrivals, start, start, []);
      digest.Some? && Reported(took, r, |file|, digest.value) == Transmitted ==> took && r.written == file
  {
    PiecesFit(file, 0, hashChoices, 0);
    var hashed, r := Concat(Pieces(file, 0, hashChoices, 0)), ReceptionFrom(state, arrivals, start, start, []);
    assert hashed <= file[0..] == file;
    if r.written == hashed && |r.written| % UINT_LIMIT == |file| {
      assert |hashed| <= |file|;
      assert |hashed| == |file|;
    }
    hide Pieces, ReceptionFrom, Concat;
  }

  // Over a channel that keeps the order of chunks, loses none and is never too late, among whatever
  // other messages, and with reads that do not fail, an exchange succeeds at both ends if the receiver
  // accepts in time and its answer gets away, for every file and however the reads of either pass split
  // it. Otherwise both are told that it has not been transmitted.
  lemma FileCompleteness(
    file: seq<byte>, hashChoices: seq<nat>, choices: seq<nat>, accept: bool, inTime: bool, replySent: bool,
    landed: seq<FileMessage>, state: StreamState, arrivals: seq<Arrival>, start: nat)
    requires 0 < |file| <= MAX_FILE_SIZE && 0 !in hashChoices && 0 !in choices
    requires var reply := Reply(|file|, accept, inTime, replySent); landed == if reply.None? then [] else [reply.value]
    requires InTime(arrivals, Seal(state, Pieces(file, 0, choices, 0)), start, start)
    ensures var digest := Checksum(Pieces(file, 0, hashChoices, 0)); var r := ReceptionFrom(state, arrivals, start, start, []);
      var accepted := landed != [] && landed[0].Answer? && landed[0].fileSize == |file|;
      var took := accept && inTime && replySent; var result := if took then Transmitted else NotTransmitted;
      && digest == Some(Digest(file)) && r.written == file && (accepted <==> took)
      && SenderReport(file, digest, Pieces(file, 0, choices, 0), accepted, None) == result
      && Reported(took, r, |file|, digest.value) == result
  {
    hide Pieces, ReceptionFrom, Concat, InTime, Seal;
    var pieces := Pieces(file, 0, choices, 0);
    PiecesJoin(file, 0, hashChoices, 0);
    PiecesJoin(file, 0, choices, 0);
    PiecesFit(file, 0, choices, 0);
    HonestReception(state, pieces, arrivals, start, start, []);
    assert file[0..] == file && [] + Concat(pieces) == file;
  }
}
