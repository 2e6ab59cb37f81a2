/** Whole file exchanges between two clients of a world: from the chosen file through offer, answer and
    chunks to both ends being free again, with every chunk taken. */
module FileRuns {
  import opened Prelude
  import opened Crypto
  import opened Protocol
  import opened World
  import opened Handshake
  import opened Completion
  import Effects

  // -------- Orderly runs --------

  // No chunk can reach this client any more.
  predicate NothingLeft(w: World, id: Id)
    requires id < |w.peers|
  {
    && w.peers[id].fileMessages == []
    && (forall m :: m in w.inFlight ==> m.to != id)
    && (forall i :: 0 <= i < |w.peers| && (w.peers[i].phase.FileAwaitAnswer? || w.peers[i].phase.FileSendChunk?) ==>
          w.peers[i].phase.to != id)
  }

  // Nothing is lost, no call fails, the offer is accepted, the first read yields something, and
  // nobody is too late: a receiver's wait ends by time only when no chunk can come any more.
  predicate Orderly(w: World, step: Step) {
    match step
    case Deliver(m) => m in w.inFlight
    case Act(id, e) =>
      && id < |w.peers| && e.ok && e.accepted
      && (if e.timedOut then w.peers[id].phase.FileAwaitChunk? && NothingLeft(w, id) else Ready(w.peers[id]))
      && (w.peers[id].phase.FileSendChunk? && w.peers[id].phase.index == 0 ==> e.read != [])
    case _ => false
  }

  ghost predicate OrderlyRun(w: World, steps: seq<Step>) {
    forall k :: 0 <= k < |steps| ==> Orderly(Run(w, steps[..k]), steps[k])
  }

  // -------- What a run has read, sent and taken --------

  // The pieces that client a reads, each cut to what a body holds.
  function ReadIn(w: World, step: Step, a: Id): seq<seq<byte>> {
    if step.Act? && step.id == a && a < |w.peers| && w.peers[a].phase.FileSendChunk? && step.e.read != [] then
      [step.e.read[..Min(|step.e.read|, MaxUnencryptedSize())]]
    else []
  }

  ghost function Read(w: World, steps: seq<Step>, a: Id): seq<seq<byte>> {
    if steps == [] then []
    else
      var before, step := steps[..|steps| - 1], steps[|steps| - 1];
      Read(w, before, a) + ReadIn(Run(w, before), step, a)
  }

  // The chunks among the messages that client b takes from its queue.
  function TakenIn(w: World, step: Step, b: Id): seq<Message> {
    if step.Act? && step.id == b && b < |w.peers| && w.peers[b].phase.FileAwaitChunk? && !step.e.timedOut
       && w.peers[b].fileMessages != [] && w.peers[b].fileMessages[0].body.FileChunk?
    then [w.peers[b].fileMessages[0]]
    else []
  }

  ghost function Taken(w: World, steps: seq<Step>, b: Id): seq<Message> {
    if steps == [] then []
    else
      var before, step := steps[..|steps| - 1], steps[|steps| - 1];
      Taken(w, before, b) + TakenIn(Run(w, before), step, b)
  }

  // The chunks that client a puts on their way.
  ghost function ChunksIn(w: World, step: Step, a: Id): seq<Message> {
    if step.Act? && step.id == a && a < |w.peers| && w.peers[a].phase.FileSendChunk?
       && Acted(w.peers[a], a, |w.origins|, step.e).sent.Some?
    then [Acted(w.peers[a], a, |w.origins|, step.e).sent.value]
    else []
  }

  ghost function Chunks(w: World, steps: seq<Step>, a: Id): seq<Message> {
    if steps == [] then []
    else
      var before, step := steps[..|steps| - 1], steps[|steps| - 1];
      Chunks(w, before, a) + ChunksIn(Run(w, before), step, a)
  }

  // -------- The stages of an exchange --------

  predicate FileIs(p: Peer, busy: bool, phase: Phase, actions: seq<Action>, inbox: seq<Message>) {
    && !p.settingUpConversation && p.exchangingFile == busy
    && p.phase == phase && p.actions == actions && p.fileMessages == inbox
  }

  predicate FileIdle(p: Peer) {
    FileIs(p, false, Free, [], [])
  }

  // Whatever an earlier exchange has left in the queue.
  predicate Rests(p: Peer) {
    FileIs(p, false, Free, [], p.fileMessages)
  }

  // A chunk that the receiver can take.
  predicate GoodChunk(m: Message, a: Id, b: Id, state: StreamState) {
    && m.flag == File && m.from == a && m.to == b && m.body.FileChunk?
    && m.body.text.state == state && 0 < |m.body.text.plain| <= MaxUnencryptedSize()
  }

  // Nobody else has anything to do.
  ghost predicate OthersRestToo(w: World, a: Id, b: Id) {
    forall k :: 0 <= k < |w.peers| && k != a && k != b ==> !Ready(w.peers[k]) && !w.peers[k].phase.Exchanging()
  }

  // Two clients in a conversation, and the first one's partner is the second.
  predicate Conversing(p: Peer, q: Peer, a: Id, b: Id) {
    && p.toUserId == b && b in p.conversations && a in q.conversations && a in q.users
    && Mirrored(p.conversations[b], q.conversations[a])
  }

  // The receiver waits for chunks, and the sender goes on or is through.
  ghost predicate Transferring(p: Peer, q: Peer, inFlight: multiset<Message>, a: Id, b: Id)
    requires a in q.conversations
  {
    && (FileIdle(p) || (p.phase.FileSendChunk? && FileIs(p, true, FileSendChunk(b, p.phase.index), [], [])))
    && FileIs(q, true, FileAwaitChunk(a), [], q.fileMessages)
    && (forall m :: m in q.fileMessages || m in inFlight ==> GoodChunk(m, a, b, q.conversations[a].decryption))
  }

  // Client a has chosen a file for client b.
  ghost predicate FileStage(n: nat, w: World, a: Id, b: Id, size: nat) {
    && a < |w.peers| && b < |w.peers| && a != b && OthersRestToo(w, a, b) && size > 0
    && var p, q := w.peers[a], w.peers[b];
    && Conversing(p, q, a, b)
    && (n in {0, 1, 3, 4, 6, 8} ==> w.inFlight == multiset{})
    && match n
       case 0 => FileIs(p, false, Free, [BeginFileExchange(size)], p.fileMessages) && Rests(q)
       case 1 => FileIs(p, true, FileSendInvite(b, size), [], []) && Rests(q)
       case 2 => FileIs(p, true, FileAwaitAnswer(b, size), [], []) && Rests(q) && InFlight(w, FileAsk, a, b, FileInvite(size))
       case 3 =>
         && FileIs(p, true, FileAwaitAnswer(b, size), [], [])
         && FileIs(q, true, Free, [ReplyToFileInvite(a, size)], q.fileMessages)
       case 4 => FileIs(p, true, FileAwaitAnswer(b, size), [], []) && FileIs(q, true, FileSendReply(a, size), [], [])
       case 5 =>
         && FileIs(p, true, FileAwaitAnswer(b, size), [], []) && FileIs(q, true, FileAwaitChunk(a), [], [])
         && InFlight(w, FileAsk, b, a, FileReply(size))
       case 6 =>
         && |p.fileMessages| == 1 && p.fileMessages[0].flag == FileAsk && p.fileMessages[0].body == FileReply(size)
         && FileIs(p, true, FileAwaitAnswer(b, size), [], p.fileMessages) && FileIs(q, true, FileAwaitChunk(a), [], [])
       case 7 => Transferring(p, q, w.inFlight, a, b)
       case 8 => FileIdle(p) && FileIdle(q)
       case _ => false
  }

  // -------- What a step of the action thread does here --------

  lemma OfferBegins(p: Peer, self: Id, secret: nat, e: Event)
    requires p.phase.Free? && |p.actions| == 1 && p.actions[0].BeginFileExchange?
    requires !p.settingUpConversation && !p.exchangingFile
    ensures Acted(p, self, secret, e) == Only(p.(exchangingFile := true, fileMessages := [], actions := [],
                                                 phase := FileSendInvite(p.toUserId, p.actions[0].fileSize)))
  {
  }

  lemma OfferAccepted(p: Peer, self: Id, secret: nat, e: Event)
    requires p.phase.Free? && |p.actions| == 1 && p.actions[0].ReplyToFileInvite? && p.actions[0].from in p.users
    requires !p.settingUpConversation && p.exchangingFile && !e.timedOut && e.accepted
    ensures Acted(p, self, secret, e) == Only(p.(fileMessages := [], actions := [],
                                                 phase := FileSendReply(p.actions[0].from, p.actions[0].fileSize)))
  {
    hide Awaited, FileAwaited, ChunkSent, SentText, Received, RepliedToInvite;
  }

  lemma OfferDeclined(p: Peer, self: Id, secret: nat, e: Event)
    requires p.phase.Free? && |p.actions| == 1 && p.actions[0].ReplyToFileInvite? && p.actions[0].from in p.users
    requires !p.settingUpConversation && p.exchangingFile && !e.timedOut && !e.accepted && e.ok
    ensures Acted(p, self, secret, e) == Effect(
      p.(exchangingFile := false, fileMessages := [], actions := []),
      Some(Message(FileAsk, e.sendTime, self, p.actions[0].from, FileReply(0))), None, None)
  {
    hide Awaited, FileAwaited, ChunkSent, SentText, Received, RepliedToInvite;
  }

  lemma FileActs(p: Peer, self: Id, secret: nat, e: Event)
    ensures p.phase.FileAwaitAnswer? || p.phase.FileAwaitChunk? ==> Acted(p, self, secret, e) == FileAwaited(p, e)
    ensures p.phase.FileSendChunk? ==> Acted(p, self, secret, e) == ChunkSent(p, self, e)
  {
    hide Begun, Awaited, FileAwaited, ChunkSent;
  }

  lemma AnswerTaken(p: Peer, self: Id, secret: nat, e: Event)
    requires p.phase.FileAwaitAnswer? && |p.fileMessages| == 1 && !e.timedOut
    requires p.fileMessages[0].flag == FileAsk && p.fileMessages[0].body == FileReply(p.phase.fileSize)
    ensures Acted(p, self, secret, e) == Only(p.(fileMessages := [], phase := FileSendChunk(p.phase.to, 0)))
  {
    FileActs(p, self, secret, e);
    Effects.FileWaitingMeans(p, e);
    hide Acted, FileAwaited;
  }

  lemma RefusalTaken(p: Peer, self: Id, secret: nat, e: Event)
    requires p.phase.FileAwaitAnswer? && |p.fileMessages| == 1 && !e.timedOut
    requires p.fileMessages[0].body != FileReply(p.phase.fileSize)
    ensures Acted(p, self, secret, e) == Only(p.(exchangingFile := false, fileMessages := [], phase := Free))
  {
    FileActs(p, self, secret, e);
    Effects.FileWaitingMeans(p, e);
    hide Acted, FileAwaited;
  }

  lemma ChunkTaken(p: Peer, self: Id, secret: nat, e: Event, from: Id)
    requires p.phase == FileAwaitChunk(from) && p.fileMessages != [] && !e.timedOut
    requires from in p.conversations && GoodChunk(p.fileMessages[0], from, self, p.conversations[from].decryption)
    ensures Acted(p, self, secret, e) == Only(p.(fileMessages := p.fileMessages[1..]))
  {
    FileActs(p, self, secret, e);
    Effects.FileWaitingMeans(p, e);
    hide Acted, FileAwaited;
  }

  lemma WaitIsOver(p: Peer, self: Id, secret: nat, e: Event)
    requires p.phase.FileAwaitChunk? && e.timedOut
    ensures Acted(p, self, secret, e) == Only(p.(exchangingFile := false, fileMessages := [], phase := Free))
  {
    FileActs(p, self, secret, e);
    Effects.FileWaitingMeans(p, e);
    hide Acted, FileAwaited;
  }

  lemma ChunkIsSent(p: Peer, self: Id, secret: nat, e: Event)
    requires p.phase.FileSendChunk? && e.ok && e.read != [] && p.toUserId in p.conversations
    ensures var to, index := p.phase.to, p.phase.index;
      var piece := e.read[..Min(|e.read|, MaxUnencryptedSize())];
      var chunk := FileChunk(Ciphertext(p.conversations[p.toUserId].encryption, piece));
      Acted(p, self, secret, e)
        == Sent(p.(phase := FileSendChunk(to, index + 1)), Message(File, e.sendTime, self, to, chunk))
  {
    FileActs(p, self, secret, e);
    Effects.ChunkSendingMeans(p, self, e);
    hide Acted, ChunkSent;
  }

  lemma FileEnds(p: Peer, self: Id, secret: nat, e: Event)
    requires p.phase.FileSendChunk? && e.read == [] && p.phase.index > 0
    ensures Acted(p, self, secret, e) == Only(p.(exchangingFile := false, fileMessages := [], phase := Free))
  {
    FileActs(p, self, secret, e);
    Effects.ChunkSendingMeans(p, self, e);
    hide Acted, ChunkSent;
  }

  // What hearing an offer, an answer or a chunk does.
  lemma OfferHeard(p: Peer, m: Message)
    requires m.flag == FileAsk && m.body.FileInvite? && m.body.fileSize > 0
    requires !p.phase.Aborted? && !p.settingUpConversation && !p.exchangingFile
    ensures Listened(p, m)
         == p.(exchangingFile := true, actions := p.actions + [ReplyToFileInvite(m.from, m.body.fileSize)])
  {
    Effects.HearingMeans(p, m);
    hide Listened;
  }

  lemma FileMessageHeard(p: Peer, m: Message)
    requires (m.flag == FileAsk && m.body.FileReply?) || m.flag == File
    requires !p.phase.Aborted?
    ensures Listened(p, m) == p.(fileMessages := p.fileMessages + [m])
  {
    Effects.HearingMeans(p, m);
    hide Listened;
  }

  // -------- From the chosen file to the first chunk --------

  // One stage on, and no chunk has been read, sent or taken.
  ghost predicate OnToNext(n: nat, w: World, a: Id, b: Id, size: nat, step: Step) {
    && FileStage(n + 1, Do(w, step), a, b, size)
    && ReadIn(w, step, a) == [] && ChunksIn(w, step, a) == [] && TakenIn(w, step, b) == []
  }

  lemma FileStage0(w: World, a: Id, b: Id, size: nat, step: Step)
    requires FileStage(0, w, a, b, size) && Orderly(w, step)
    ensures OnToNext(0, w, a, b, size, step)
  {
    hide Do, Acted, Listened;
    assert step.Act? && step.id == a && !step.e.timedOut && step.e.ok && step.e.accepted;
    hide Orderly, NothingLeft;
    ActIs(w, a, step.e);
    OfferBegins(w.peers[a], a, |w.origins|, step.e);
  }

  lemma FileStage1(w: World, a: Id, b: Id, size: nat, step: Step)
    requires FileStage(1, w, a, b, size) && Orderly(w, step)
    ensures OnToNext(1, w, a, b, size, step)
  {
    hide Do, Acted, Listened;
    assert step.Act? && step.id == a && !step.e.timedOut && step.e.ok && step.e.accepted;
    hide Orderly, NothingLeft;
    ActIs(w, a, step.e);
    Effects.FileAskIs(w.peers[a], a, |w.origins|, step.e);
  }

  lemma FileStage2(w: World, a: Id, b: Id, size: nat, step: Step)
    requires FileStage(2, w, a, b, size) && Orderly(w, step)
    ensures OnToNext(2, w, a, b, size, step)
  {
    hide Do, Acted, Listened;
    var m :| w.inFlight == multiset{m};
    assert step == Deliver(m) && m.to == b;
    hide Orderly, NothingLeft;
    DeliverIs(w, m);
    OfferHeard(w.peers[b], m);
  }

  lemma FileStage3(w: World, a: Id, b: Id, size: nat, step: Step)
    requires FileStage(3, w, a, b, size) && Orderly(w, step)
    ensures OnToNext(3, w, a, b, size, step)
  {
    hide Do, Acted, Listened;
    assert step.Act? && step.id == b && !step.e.timedOut && step.e.ok && step.e.accepted;
    hide Orderly, NothingLeft;
    ActIs(w, b, step.e);
    OfferAccepted(w.peers[b], b, |w.origins|, step.e);
  }

  lemma FileStage4(w: World, a: Id, b: Id, size: nat, step: Step)
    requires FileStage(4, w, a, b, size) && Orderly(w, step)
    ensures OnToNext(4, w, a, b, size, step)
  {
    hide Do, Acted, Listened;
    assert step.Act? && step.id == b && !step.e.timedOut && step.e.ok && step.e.accepted;
    hide Orderly, NothingLeft;
    ActIs(w, b, step.e);
    Effects.FileAskIs(w.peers[b], b, |w.origins|, step.e);
  }

  // The only message on its way is the receiver's answer, and only it can be next.
  lemma AnswerIsNext(w: World, a: Id, b: Id, size: nat, step: Step) returns (m: Message)
    requires FileStage(5, w, a, b, size) && Orderly(w, step)
    ensures w.inFlight == multiset{m} && step == Deliver(m)
    ensures m.flag == FileAsk && m.from == b && m.to == a && m.body == FileReply(size)
    ensures a < |w.peers| && w.peers[a].fileMessages == [] && !w.peers[a].phase.Aborted?
  {
    m :| w.inFlight == multiset{m} && m.flag == FileAsk && m.from == b && m.to == a && m.body == FileReply(size);
  }

  lemma FileStage5(w: World, a: Id, b: Id, size: nat, step: Step)
    requires FileStage(5, w, a, b, size) && Orderly(w, step)
    ensures OnToNext(5, w, a, b, size, step)
  {
    var m := AnswerIsNext(w, a, b, size, step);
    hide Do, Acted, Listened, Orderly, NothingLeft, InFlight;
    DeliverIs(w, m);
    FileMessageHeard(w.peers[a], m);
  }

  lemma FileStage6(w: World, a: Id, b: Id, size: nat, step: Step)
    requires FileStage(6, w, a, b, size) && Orderly(w, step)
    ensures OnToNext(6, w, a, b, size, step)
  {
    hide Do, Acted, Listened;
    assert step.Act? && step.id == a && !step.e.timedOut && step.e.ok && step.e.accepted;
    hide Orderly, NothingLeft;
    ActIs(w, a, step.e);
    AnswerTaken(w.peers[a], a, |w.origins|, step.e);
  }

  lemma BeforeTheTransfer(n: nat, w: World, a: Id, b: Id, size: nat, step: Step)
    requires FileStage(n, w, a, b, size) && n < 7 && Orderly(w, step)
    ensures OnToNext(n, w, a, b, size, step)
  {
    hide Do, Orderly, FileStage, OnToNext;
    if n == 0 { FileStage0(w, a, b, size, step); }
    else if n == 1 { FileStage1(w, a, b, size, step); }
    else if n == 2 { FileStage2(w, a, b, size, step); }
    else if n == 3 { FileStage3(w, a, b, size, step); }
    else if n == 4 { FileStage4(w, a, b, size, step); }
    else if n == 5 { FileStage5(w, a, b, size, step); }
    else { FileStage6(w, a, b, size, step); }
  }

  // -------- The transfer --------

  // Every chunk sent has been taken, waits in the queue or is on its way, and each holds one of the pieces
  // read, in the order of reading.
  ghost predicate Accounted(
    p: Peer, inbox: seq<Message>, inFlight: multiset<Message>, a: Id, b: Id,
    pieces: seq<seq<byte>>, sent: seq<Message>, taken: seq<Message>)
    requires b in p.conversations
  {
    && multiset(sent) == multiset(taken) + multiset(inbox) + inFlight
    && (if p.phase.FileSendChunk? then p.phase.index == |sent| else sent != [])
    && |pieces| == |sent|
    && (forall k :: 0 <= k < |sent| ==> HasPiece(sent[k], a, b, Ciphertext(p.conversations[b].encryption, pieces[k])))
  }

  predicate HasPiece(m: Message, a: Id, b: Id, text: Ciphertext) {
    m.flag == File && m.from == a && m.to == b && m.body == FileChunk(text) && 0 < |text.plain| <= MaxUnencryptedSize()
  }

  // How many steps it takes to get here: three for every chunk, and nine for everything else.
  ghost function StepsTo(n: nat, sending: bool, underway: nat, sent: nat, taken: nat): int {
    if n < 7 then n else 7 + 2 * sent - underway + taken + (if sending then 0 else 1) + (if n == 7 then 0 else 1)
  }

  datatype History = History(pieces: seq<seq<byte>>, sent: seq<Message>, taken: seq<Message>)

  ghost function With(h: History, w: World, step: Step, a: Id, b: Id): History {
    History(h.pieces + ReadIn(w, step, a), h.sent + ChunksIn(w, step, a), h.taken + TakenIn(w, step, b))
  }

  ghost predicate Reached(n: nat, w: World, a: Id, b: Id, size: nat, h: History, count: int) {
    && FileStage(n, w, a, b, size)
    && count == StepsTo(n, w.peers[a].phase.FileSendChunk?, |w.inFlight|, |h.sent|, |h.taken|)
    && if n < 7 then h == History([], [], [])
       else Accounted(w.peers[a], w.peers[b].fileMessages, w.inFlight, a, b, h.pieces, h.sent, h.taken)
  }

  // The sender reads and sends.

  lemma ChunkGoes(w: World, a: Id, b: Id, size: nat, e: Event) returns (piece: seq<byte>, m: Message)
    requires FileStage(7, w, a, b, size) && Orderly(w, Act(a, e)) && e.read != []
    ensures var p, v := w.peers[a], Do(w, Act(a, e));
      && p.phase.FileSendChunk? && 0 < |piece| <= MaxUnencryptedSize()
      && HasPiece(m, a, b, Ciphertext(p.conversations[b].encryption, piece))
      && v.peers == w.peers[a := p.(phase := FileSendChunk(b, p.phase.index + 1))] && v.inFlight == w.inFlight + multiset{m}
    ensures ReadIn(w, Act(a, e), a) == [piece] && ChunksIn(w, Act(a, e), a) == [m] && TakenIn(w, Act(a, e), b) == []
  {
    hide Do, Acted, Listened;
    piece := e.read[..Min(|e.read|, MaxUnencryptedSize())];
    m := Message(File, e.sendTime, a, b, FileChunk(Ciphertext(w.peers[a].conversations[b].encryption, piece)));
    ActIs(w, a, e);
    ChunkIsSent(w.peers[a], a, |w.origins|, e);
  }

  lemma GoodPiece(m: Message, p: Peer, q: Peer, a: Id, b: Id, piece: seq<byte>)
    requires Conversing(p, q, a, b) && 0 < |piece| <= MaxUnencryptedSize()
    requires HasPiece(m, a, b, Ciphertext(p.conversations[b].encryption, piece))
    ensures GoodChunk(m, a, b, q.conversations[a].decryption)
  {
  }

  // The two clients are where they should be, and nobody else has moved.
  ghost predicate Continues(w: World, v: World, a: Id, b: Id) {
    && a < |w.peers| == |v.peers| && b < |w.peers|
    && (forall k :: 0 <= k < |w.peers| && k != a && k != b ==> v.peers[k] == w.peers[k])
    && SameStore(w.peers[a], v.peers[a]) && SameStore(w.peers[b], v.peers[b])
  }

  predicate SameStore(p: Peer, q: Peer) {
    q.toUserId == p.toUserId && q.conversations == p.conversations && q.users == p.users
  }

  lemma StageContinues(w: World, v: World, a: Id, b: Id, size: nat)
    requires FileStage(7, w, a, b, size) && Continues(w, v, a, b)
    ensures Conversing(v.peers[a], v.peers[b], a, b)
    ensures Transferring(v.peers[a], v.peers[b], v.inFlight, a, b) ==> FileStage(7, v, a, b, size)
    ensures FileIdle(v.peers[a]) && FileIdle(v.peers[b]) && v.inFlight == multiset{} ==> FileStage(8, v, a, b, size)
  {
    hide Transferring, Ready;
  }

  lemma StageIs7(w: World, a: Id, b: Id, size: nat)
    requires FileStage(7, w, a, b, size)
    ensures a < |w.peers| && b < |w.peers| && a != b && Conversing(w.peers[a], w.peers[b], a, b)
    ensures Transferring(w.peers[a], w.peers[b], w.inFlight, a, b)
  {
    hide Transferring, Ready;
  }

  lemma SendsOneMore(w: World, a: Id, b: Id, size: nat, h: History, count: int, e: Event)
    requires Reached(7, w, a, b, size, h, count) && Orderly(w, Act(a, e)) && e.read != []
    ensures Reached(7, Do(w, Act(a, e)), a, b, size, With(h, w, Act(a, e), a, b), count + 1)
  {
    hide Do, Acted, ReadIn, ChunksIn, TakenIn, Orderly, FileStage, HasPiece;
    var piece, m := ChunkGoes(w, a, b, size, e);
    StageIs7(w, a, b, size);
    StageContinues(w, Do(w, Act(a, e)), a, b, size);
    GoodPiece(m, w.peers[a], w.peers[b], a, b, piece);
  }

  // It reads nothing more and is through.

  lemma FileIsOver(w: World, a: Id, b: Id, size: nat, e: Event)
    requires FileStage(7, w, a, b, size) && Orderly(w, Act(a, e)) && e.read == []
    ensures var p, v := w.peers[a], Do(w, Act(a, e));
      && p.phase.FileSendChunk? && p.phase.index > 0
      && v.peers == w.peers[a := p.(exchangingFile := false, fileMessages := [], phase := Free)] && v.inFlight == w.inFlight
    ensures ReadIn(w, Act(a, e), a) == [] && ChunksIn(w, Act(a, e), a) == [] && TakenIn(w, Act(a, e), b) == []
  {
    hide Do, Acted, Listened;
    ActIs(w, a, e);
    FileEnds(w.peers[a], a, |w.origins|, e);
  }

  lemma EndsTheFile(w: World, a: Id, b: Id, size: nat, h: History, count: int, e: Event)
    requires Reached(7, w, a, b, size, h, count) && Orderly(w, Act(a, e)) && e.read == []
    ensures Reached(7, Do(w, Act(a, e)), a, b, size, With(h, w, Act(a, e), a, b), count + 1)
  {
    hide Do, Acted, ReadIn, ChunksIn, TakenIn, Orderly, FileStage, HasPiece, GoodChunk;
    FileIsOver(w, a, b, size, e);
    StageIs7(w, a, b, size);
    StageContinues(w, Do(w, Act(a, e)), a, b, size);
  }

  // The receiver takes the oldest chunk of its queue.

  lemma OldestIsTaken(w: World, a: Id, b: Id, size: nat, e: Event)
    requires FileStage(7, w, a, b, size) && Orderly(w, Act(b, e)) && !e.timedOut
    ensures var q, v := w.peers[b], Do(w, Act(b, e));
      && q.fileMessages != [] && q.fileMessages == [q.fileMessages[0]] + q.fileMessages[1..]
      && v.peers == w.peers[b := q.(fileMessages := q.fileMessages[1..])] && v.inFlight == w.inFlight
      && TakenIn(w, Act(b, e), b) == [q.fileMessages[0]]
    ensures ReadIn(w, Act(b, e), a) == [] && ChunksIn(w, Act(b, e), a) == []
  {
    hide Do, Acted, Listened;
    ActIs(w, b, e);
    var q := w.peers[b];
    assert q.fileMessages != [] && q.fileMessages[0] in q.fileMessages;
    ChunkTaken(q, b, |w.origins|, e, a);
  }

  lemma TakesOne(w: World, a: Id, b: Id, size: nat, h: History, count: int, e: Event)
    requires Reached(7, w, a, b, size, h, count) && Orderly(w, Act(b, e)) && !e.timedOut
    ensures Reached(7, Do(w, Act(b, e)), a, b, size, With(h, w, Act(b, e), a, b), count + 1)
  {
    hide Do, Acted, ReadIn, ChunksIn, TakenIn, Orderly, FileStage, HasPiece, GoodChunk;
    OldestIsTaken(w, a, b, size, e);
    StageIs7(w, a, b, size);
    StageContinues(w, Do(w, Act(b, e)), a, b, size);
    var inbox := w.peers[b].fileMessages;
    assert forall m :: m in inbox[1..] ==> m in inbox;
    assert multiset(inbox) == multiset{inbox[0]} + multiset(inbox[1..]);
  }

  // Its deadline passes once nothing is left.

  lemma DeadlinePasses(w: World, a: Id, b: Id, size: nat, e: Event)
    requires FileStage(7, w, a, b, size) && Orderly(w, Act(b, e)) && e.timedOut
    ensures var q, v := w.peers[b], Do(w, Act(b, e));
      && q.fileMessages == [] && w.inFlight == multiset{} && !w.peers[a].phase.FileSendChunk?
      && v.peers == w.peers[b := q.(exchangingFile := false, fileMessages := [], phase := Free)] && v.inFlight == multiset{}
    ensures ReadIn(w, Act(b, e), a) == [] && ChunksIn(w, Act(b, e), a) == [] && TakenIn(w, Act(b, e), b) == []
  {
    hide Do, Acted, Listened;
    ActIs(w, b, e);
    WaitIsOver(w.peers[b], b, |w.origins|, e);
    assert forall m :: m in w.inFlight ==> m.to == b;
  }

  lemma StopsWaiting(w: World, a: Id, b: Id, size: nat, h: History, count: int, e: Event)
    requires Reached(7, w, a, b, size, h, count) && Orderly(w, Act(b, e)) && e.timedOut
    ensures Reached(8, Do(w, Act(b, e)), a, b, size, With(h, w, Act(b, e), a, b), count + 1)
  {
    hide Do, Acted, ReadIn, ChunksIn, TakenIn, Orderly, FileStage, HasPiece, GoodChunk;
    DeadlinePasses(w, a, b, size, e);
    StageIs7(w, a, b, size);
    StageContinues(w, Do(w, Act(b, e)), a, b, size);
  }

  // Its listening thread hears one.

  lemma ChunkArrives(w: World, a: Id, b: Id, size: nat, m: Message)
    requires FileStage(7, w, a, b, size) && m in w.inFlight
    ensures var q, v := w.peers[b], Do(w, Deliver(m));
      && v.peers == w.peers[b := q.(fileMessages := q.fileMessages + [m])] && v.inFlight == w.inFlight - multiset{m}
  {
    hide Do, Acted, Listened;
    DeliverIs(w, m);
    FileMessageHeard(w.peers[b], m);
  }

  lemma MovesOver(inFlight: multiset<Message>, inbox: seq<Message>, m: Message)
    requires m in inFlight
    ensures multiset(inbox) + inFlight == multiset(inbox + [m]) + (inFlight - multiset{m})
    ensures |inFlight - multiset{m}| == |inFlight| - 1
  {
    assert inFlight == inFlight - multiset{m} + multiset{m};
  }

  lemma StillAccounted(p: Peer, inFlight: multiset<Message>, inbox: seq<Message>, m: Message, a: Id, b: Id, h: History)
    requires m in inFlight && b in p.conversations && Accounted(p, inbox, inFlight, a, b, h.pieces, h.sent, h.taken)
    ensures Accounted(p, inbox + [m], inFlight - multiset{m}, a, b, h.pieces, h.sent, h.taken)
  {
    hide HasPiece;
    MovesOver(inFlight, inbox, m);
    assert multiset(h.taken) + multiset(inbox) + inFlight == multiset(h.taken) + (multiset(inbox) + inFlight);
  }

  lemma HearsOne(w: World, a: Id, b: Id, size: nat, h: History, count: int, m: Message)
    requires Reached(7, w, a, b, size, h, count) && Orderly(w, Deliver(m))
    ensures Reached(7, Do(w, Deliver(m)), a, b, size, With(h, w, Deliver(m), a, b), count + 1)
  {
    assert With(h, w, Deliver(m), a, b) == h && m in w.inFlight;
    hide Do, Acted, With, Orderly, FileStage, HasPiece, GoodChunk, Accounted;
    ChunkArrives(w, a, b, size, m);
    StageIs7(w, a, b, size);
    StageContinues(w, Do(w, Deliver(m)), a, b, size);
    StillAccounted(w.peers[a], w.inFlight, w.peers[b].fileMessages, m, a, b, h);
    MovesOver(w.inFlight, w.peers[b].fileMessages, m);
  }

  // -------- Every orderly run --------

  lemma WhoActs(w: World, a: Id, b: Id, size: nat, step: Step)
    requires FileStage(7, w, a, b, size) && Orderly(w, step)
    ensures step.Deliver? || (step.Act? && (step.id == b || (step.id == a && !step.e.timedOut)))
  {
    hide Conversing, NothingLeft;
  }

  lemma TransferGoesOn(w: World, a: Id, b: Id, size: nat, h: History, count: int, step: Step) returns (n: nat)
    requires Reached(7, w, a, b, size, h, count) && Orderly(w, step)
    ensures (n == 7 || n == 8) && Reached(n, Do(w, step), a, b, size, With(h, w, step, a, b), count + 1)
  {
    WhoActs(w, a, b, size, step);
    hide Reached, Do, With, Orderly, FileStage;
    n := 7;
    match step {
      case Deliver(m) => HearsOne(w, a, b, size, h, count, m);
      case Act(id, e) =>
        if id == b {
          if e.timedOut {
            StopsWaiting(w, a, b, size, h, count, e);
            n := 8;
          } else {
            TakesOne(w, a, b, size, h, count, e);
          }
        } else if e.read == [] {
          EndsTheFile(w, a, b, size, h, count, e);
        } else {
          SendsOneMore(w, a, b, size, h, count, e);
        }
    }
  }

  lemma NothingComesAfter(w: World, a: Id, b: Id, size: nat, step: Step)
    requires FileStage(8, w, a, b, size)
    ensures !Orderly(w, step)
  {
  }

  // Until both are free somebody can always take the next step.
  lemma ExchangeIsNotStuck(n: nat, w: World, a: Id, b: Id, size: nat)
    requires FileStage(n, w, a, b, size) && n < 8
    ensures exists step :: Orderly(w, step)
  {
    var e := Event(true, false, true, 0, 0, 0, [0]);
    if n in {2, 5} {
      var m :| m in w.inFlight;
      assert Orderly(w, Deliver(m));
    } else if n in {0, 1, 6} {
      assert Orderly(w, Act(a, e));
    } else if n in {3, 4} {
      assert Orderly(w, Act(b, e));
    } else {
      TransferIsNotStuck(w, a, b, size);
    }
  }

  lemma TransferIsNotStuck(w: World, a: Id, b: Id, size: nat)
    requires FileStage(7, w, a, b, size)
    ensures exists step :: Orderly(w, step)
  {
    var e := Event(true, false, true, 0, 0, 0, [0]);
    if w.peers[a].phase.FileSendChunk? {
      assert Orderly(w, Act(a, e));
    } else if w.peers[b].fileMessages != [] {
      assert Orderly(w, Act(b, e));
    } else if w.inFlight != multiset{} {
      var m :| m in w.inFlight;
      assert Orderly(w, Deliver(m));
    } else {
      assert Orderly(w, Act(b, e.(timedOut := true)));
    }
  }

  ghost function Past(w: World, steps: seq<Step>, a: Id, b: Id): History {
    History(Read(w, steps, a), Chunks(w, steps, a), Taken(w, steps, b))
  }

  lemma PastGrows(w: World, steps: seq<Step>, step: Step, a: Id, b: Id)
    ensures Past(w, steps + [step], a, b) == With(Past(w, steps, a, b), Run(w, steps), step, a, b)
  {
    assert (steps + [step])[..|steps|] == steps;
    hide ReadIn, ChunksIn, TakenIn, Run;
  }

  lemma OneStepOn(n: nat, w: World, a: Id, b: Id, size: nat, h: History, count: int, step: Step) returns (next: nat)
    requires Reached(n, w, a, b, size, h, count) && n <= 8 && Orderly(w, step)
    ensures next <= 8 && Reached(next, Do(w, step), a, b, size, With(h, w, step, a, b), count + 1)
    ensures n < 7 ==> next == n + 1
  {
    hide Do, Orderly, FileStage, ReadIn, ChunksIn, TakenIn;
    if n == 8 {
      NothingComesAfter(w, a, b, size, step);
    } else if n == 7 {
      next := TransferGoesOn(w, a, b, size, h, count, step);
    } else {
      BeforeTheTransfer(n, w, a, b, size, step);
      next := n + 1;
      if next == 7 {
        FirstOfTheTransfer(w, a, b, size, step);
      }
    }
  }

  lemma FirstOfTheTransfer(w: World, a: Id, b: Id, size: nat, step: Step)
    requires FileStage(6, w, a, b, size) && Orderly(w, step) && FileStage(7, Do(w, step), a, b, size)
    ensures var v := Do(w, step);
      v.inFlight == multiset{} && v.peers[b].fileMessages == [] && v.peers[a].phase == FileSendChunk(b, 0)
  {
    hide Do, Acted, Listened;
    assert step.Act? && step.id == a && !step.e.timedOut;
    hide Orderly, NothingLeft;
    ActIs(w, a, step.e);
    AnswerTaken(w.peers[a], a, |w.origins|, step.e);
  }

  lemma ReachesOn(w: World, a: Id, b: Id, size: nat, steps: seq<Step>, step: Step, n: nat) returns (next: nat)
    requires Reached(n, Run(w, steps), a, b, size, Past(w, steps, a, b), |steps|) && n <= 8 && Orderly(Run(w, steps), step)
    ensures next <= 8 && Reached(next, Run(w, steps + [step]), a, b, size, Past(w, steps + [step], a, b), |steps + [step]|)
    ensures n < 7 ==> next == n + 1
  {
    hide Reached, Past, With, Run, Orderly, Do;
    PastGrows(w, steps, step, a, b);
    RunOn(w, steps, step);
    next := OneStepOn(n, Run(w, steps), a, b, size, Past(w, steps, a, b), |steps|, step);
  }

  lemma OrderlyBefore(w: World, steps: seq<Step>)
    requires steps != [] && OrderlyRun(w, steps)
    ensures var before, last := steps[..|steps| - 1], steps[|steps| - 1];
      steps == before + [last] && OrderlyRun(w, before) && Orderly(Run(w, before), last)
  {
    hide Run, Orderly;
    var before := steps[..|steps| - 1];
    forall k | 0 <= k < |before|
      ensures Orderly(Run(w, before[..k]), before[k])
    {
      assert before[..k] == steps[..k];
    }
  }

  lemma {:induction false} OrderlyRunReaches(w: World, a: Id, b: Id, size: nat, steps: seq<Step>) returns (n: nat)
    requires FileStage(0, w, a, b, size) && OrderlyRun(w, steps)
    ensures n <= 8 && Reached(n, Run(w, steps), a, b, size, Past(w, steps, a, b), |steps|)
  {
    if steps == [] {
      n := 0;
      assert Past(w, steps, a, b) == History([], [], []);
      hide FileStage;
    } else {
      hide Reached, Past, Run, Orderly, OrderlyRun;
      OrderlyBefore(w, steps);
      n := OrderlyRunReaches(w, a, b, size, steps[..|steps| - 1]);
      n := ReachesOn(w, a, b, size, steps[..|steps| - 1], steps[|steps| - 1], n);
    }
  }

  // A chunk that decrypts to a piece.
  predicate Delivers(m: Message, state: StreamState, piece: seq<byte>) {
    m.flag == File && m.body.FileChunk? && 0 < |piece| <= MaxUnencryptedSize() && Pull(state, m.body.text) == Some(piece)
  }

  lemma SentAreDelivered(n: nat, w: World, a: Id, b: Id, size: nat, h: History, count: int)
    requires Reached(n, w, a, b, size, h, count)
    ensures a < |w.peers| && b < |w.peers| && a in w.peers[b].conversations && |h.sent| == |h.pieces|
    ensures forall k :: 0 <= k < |h.sent| ==> Delivers(h.sent[k], w.peers[b].conversations[a].decryption, h.pieces[k])
    ensures forall m :: m in h.taken ==> m in h.sent
    ensures n == 8 ==> h.sent != [] && multiset(h.taken) == multiset(h.sent) && count == 3 * |h.sent| + 9
  {
    if n >= 7 {
      forall m | m in h.taken
        ensures m in h.sent
      {
        assert m in multiset(h.sent);
      }
    }
    if n == 8 {
      assert |multiset(h.sent)| == |multiset(h.taken)|;
    }
  }

  lemma BothIdleAtTheEnd(n: nat, w: World, a: Id, b: Id, size: nat)
    requires FileStage(n, w, a, b, size)
    ensures n <= 8 && (n == 8 <==> FileIdle(w.peers[a]) && FileIdle(w.peers[b]))
  {
  }

  // Completeness: however the clients and the network are scheduled, an orderly run goes on until both
  // clients are free. By then every piece the sender has read has been sent as one chunk, decrypts at the receiver
  // and has been taken exactly once, and the run has taken three steps for each of them and nine others.
  lemma OrderlyExchangesComplete(w: World, a: Id, b: Id, size: nat, steps: seq<Step>)
    requires FileStage(0, w, a, b, size) && OrderlyRun(w, steps)
    ensures var v := Run(w, steps); var h := Past(w, steps, a, b);
      && a < |v.peers| && b < |v.peers| && a in v.peers[b].conversations
      && ((exists step :: Orderly(v, step)) <==> !(FileIdle(v.peers[a]) && FileIdle(v.peers[b])))
      && |h.sent| == |h.pieces|
      && (forall k :: 0 <= k < |h.sent| ==> Delivers(h.sent[k], v.peers[b].conversations[a].decryption, h.pieces[k]))
      && (forall m :: m in h.taken ==> m in h.sent)
      && (FileIdle(v.peers[a]) && FileIdle(v.peers[b]) ==>
            h.pieces != [] && multiset(h.taken) == multiset(h.sent) && |steps| == 3 * |h.pieces| + 9)
  {
    var n := OrderlyRunReaches(w, a, b, size, steps);
    var v, h := Run(w, steps), Past(w, steps, a, b);
    hide Run, Past, Orderly, FileStage;
    assert FileStage(n, v, a, b, size);
    BothIdleAtTheEnd(n, v, a, b, size);
    if n < 8 {
      ExchangeIsNotStuck(n, v, a, b, size);
    } else {
      forall step
        ensures !Orderly(v, step)
      {
        NothingComesAfter(v, a, b, size, step);
      }
    }
    SentAreDelivered(n, v, a, b, size, h, |steps|);
  }

  // -------- A run for every file --------

  function Reading(piece: seq<byte>): Event {
    Event(true, false, true, 0, 0, 0, piece)
  }

  // What can be done next.
  lemma CanGoOn(w: World, a: Id, b: Id, size: nat, piece: seq<byte>)
    requires FileStage(7, w, a, b, size)
    ensures w.peers[a].phase.FileSendChunk? && (piece != [] || w.peers[a].phase.index > 0) ==>
              Orderly(w, Act(a, Reading(piece)))
    ensures w.peers[b].fileMessages != [] ==> Orderly(w, Act(b, Reading([])))
    ensures !w.peers[a].phase.FileSendChunk? && w.peers[b].fileMessages == [] && w.inFlight == multiset{} ==>
              Orderly(w, Act(b, Reading([]).(timedOut := true)))
  {
  }

  lemma PieceSent(w: World, a: Id, b: Id, size: nat, h: History, count: int, piece: seq<byte>) returns (m: Message)
    requires Reached(7, w, a, b, size, h, count) && w.peers[a].phase.FileSendChunk? && 0 < |piece| <= MaxUnencryptedSize()
    ensures var step := Act(a, Reading(piece)); var u := Do(w, step);
      && With(h, w, step, a, b) == History(h.pieces + [piece], h.sent + [m], h.taken)
      && Reached(7, u, a, b, size, With(h, w, step, a, b), count + 1)
      && u.inFlight == w.inFlight + multiset{m} && u.peers[a].phase.FileSendChunk? && u.peers[b] == w.peers[b]
  {
    hide Do, ReadIn, ChunksIn, TakenIn, FileStage, Orderly, Accounted;
    var step := Act(a, Reading(piece));
    StageIs7(w, a, b, size);
    CanGoOn(w, a, b, size, piece);
    var sent;
    sent, m := ChunkGoes(w, a, b, size, step.e);
    PieceIsRead(w, a, piece);
    SendsOneMore(w, a, b, size, h, count, step.e);
  }

  lemma PieceIsRead(w: World, a: Id, piece: seq<byte>)
    requires a < |w.peers| && w.peers[a].phase.FileSendChunk? && 0 < |piece| <= MaxUnencryptedSize()
    ensures ReadIn(w, Act(a, Reading(piece)), a) == [piece]
  {
    assert piece[..|piece|] == piece;
  }

  lemma PieceHeard(w: World, a: Id, b: Id, size: nat, h: History, count: int, m: Message)
    requires Reached(7, w, a, b, size, h, count) && w.inFlight == multiset{m}
    ensures var step := Deliver(m); var u := Do(w, step);
      && With(h, w, step, a, b) == h
      && Reached(7, u, a, b, size, h, count + 1)
      && u.inFlight == multiset{} && u.peers[a] == w.peers[a] && u.peers[b].fileMessages == w.peers[b].fileMessages + [m]
  {
    var step := Deliver(m);
    assert Orderly(w, step) && With(h, w, step, a, b) == h;
    ChunkArrives(w, a, b, size, m);
    hide Do, With, FileStage, Orderly, Accounted;
    HearsOne(w, a, b, size, h, count, m);
  }

  lemma PieceTaken(w: World, a: Id, b: Id, size: nat, h: History, count: int, m: Message)
    requires Reached(7, w, a, b, size, h, count) && w.peers[b].fileMessages == [m]
    ensures var step := Act(b, Reading([])); var u := Do(w, step);
      && With(h, w, step, a, b) == History(h.pieces, h.sent, h.taken + [m])
      && Reached(7, u, a, b, size, With(h, w, step, a, b), count + 1)
      && u.inFlight == w.inFlight && u.peers[a] == w.peers[a] && u.peers[b].fileMessages == []
  {
    hide Do, ReadIn, ChunksIn, TakenIn, FileStage, Orderly, Accounted, Transferring, Conversing;
    assert [m][1..] == [];
    var step := Act(b, Reading([]));
    StageIs7(w, a, b, size);
    CanGoOn(w, a, b, size, []);
    OldestIsTaken(w, a, b, size, step.e);
    TakesOne(w, a, b, size, h, count, step.e);
  }

  // After these steps the next chunk can be sent, and everything before it has been taken in the order of sending.
  ghost predicate InStep(w: World, steps: seq<Step>, a: Id, b: Id, size: nat, pieces: seq<seq<byte>>) {
    var u, h := Run(w, steps), Past(w, steps, a, b);
    && Reached(7, u, a, b, size, h, |steps|) && NoRequests(steps)
    && h.pieces == pieces && h.taken == h.sent && u.inFlight == multiset{}
    && u.peers[a].phase.FileSendChunk? && u.peers[b].fileMessages == []
  }

  lemma PieceIsOver(w: World, steps: seq<Step>, a: Id, b: Id, size: nat, pieces: seq<seq<byte>>, piece: seq<byte>)
    returns (more: seq<Step>)
    requires InStep(w, steps, a, b, size, pieces) && 0 < |piece| <= MaxUnencryptedSize()
    ensures InStep(w, more, a, b, size, pieces + [piece])
  {
    hide Run, Do, Past, With, Reached, FileStage;
    var first, third := Act(a, Reading(piece)), Act(b, Reading([]));
    var v, h := Run(w, steps), Past(w, steps, a, b);
    var m := PieceSent(v, a, b, size, h, |steps|, piece);
    PastGrows(w, steps, first, a, b);
    RunOn(w, steps, first);
    var sent := steps + [first];
    PieceHeard(Run(w, sent), a, b, size, Past(w, sent, a, b), |sent|, m);
    PastGrows(w, sent, Deliver(m), a, b);
    RunOn(w, sent, Deliver(m));
    var heard := sent + [Deliver(m)];
    PieceTaken(Run(w, heard), a, b, size, Past(w, heard, a, b), |heard|, m);
    PastGrows(w, heard, third, a, b);
    RunOn(w, heard, third);
    more := heard + [third];
  }

  // Both ends are free and the receiver has taken these pieces in order.
  ghost predicate Transferred(w: World, steps: seq<Step>, a: Id, b: Id, size: nat, pieces: seq<seq<byte>>) {
    var u, h := Run(w, steps), Past(w, steps, a, b);
    && FileStage(8, u, a, b, size) && NoRequests(steps)
    && h.pieces == pieces && h.taken == h.sent && |h.sent| == |pieces|
    && (forall k :: 0 <= k < |pieces| ==> Delivers(h.sent[k], u.peers[b].conversations[a].decryption, pieces[k]))
  }

  lemma ExchangeEnds(w: World, steps: seq<Step>, a: Id, b: Id, size: nat, pieces: seq<seq<byte>>) returns (more: seq<Step>)
    requires InStep(w, steps, a, b, size, pieces) && pieces != []
    ensures Transferred(w, more, a, b, size, pieces)
  {
    hide Run, Do, Past, With, Reached, FileStage;
    var v, h := Run(w, steps), Past(w, steps, a, b);
    var first, second := Act(a, Reading([])), Act(b, Reading([]).(timedOut := true));
    EndOfFile(v, a, b, size, h, |steps|);
    EndOfWait(Do(v, first), a, b, size, h, |steps| + 1);
    PastGrows(w, steps, first, a, b);
    RunOn(w, steps, first);
    PastGrows(w, steps + [first], second, a, b);
    RunOn(w, steps + [first], second);
    more := steps + [first] + [second];
    SentAreDelivered(8, Run(w, more), a, b, size, h, |steps| + 2);
  }

  lemma EndOfFile(w: World, a: Id, b: Id, size: nat, h: History, count: int)
    requires Reached(7, w, a, b, size, h, count) && w.inFlight == multiset{}
    requires w.peers[a].phase.FileSendChunk? && w.peers[b].fileMessages == [] && h.pieces != []
    ensures var first := Act(a, Reading([])); var u := Do(w, first);
      && With(h, w, first, a, b) == h && Reached(7, u, a, b, size, h, count + 1)
      && u.inFlight == multiset{} && u.peers[b].fileMessages == [] && !u.peers[a].phase.FileSendChunk?
  {
    assert w.peers[a].phase.index > 0;
    hide Do, ReadIn, ChunksIn, TakenIn, Acted, Orderly, FileStage, Accounted;
    var first := Act(a, Reading([]));
    CanGoOn(w, a, b, size, []);
    FileIsOver(w, a, b, size, first.e);
    assert With(h, w, first, a, b) == h;
    EndsTheFile(w, a, b, size, h, count, first.e);
  }

  lemma EndOfWait(w: World, a: Id, b: Id, size: nat, h: History, count: int)
    requires Reached(7, w, a, b, size, h, count) && w.inFlight == multiset{}
    requires !w.peers[a].phase.FileSendChunk? && w.peers[b].fileMessages == []
    ensures var second := Act(b, Reading([]).(timedOut := true));
      && With(h, w, second, a, b) == h && Reached(8, Do(w, second), a, b, size, h, count + 1)
      && FileStage(8, Do(w, second), a, b, size)
  {
    hide Do, ReadIn, ChunksIn, TakenIn, Acted, Orderly, FileStage, Accounted;
    var second := Act(b, Reading([]).(timedOut := true));
    CanGoOn(w, a, b, size, []);
    DeadlinePasses(w, a, b, size, second.e);
    assert With(h, w, second, a, b) == h;
    StopsWaiting(w, a, b, size, h, count, second.e);
  }

  predicate AllFit(pieces: seq<seq<byte>>) {
    forall k :: 0 <= k < |pieces| ==> 0 < |pieces[k]| <= MaxUnencryptedSize()
  }

  lemma {:induction false} PiecesAreOver(w: World, a: Id, b: Id, size: nat, pieces: seq<seq<byte>>) returns (steps: seq<Step>)
    requires FileStage(0, w, a, b, size) && AllFit(pieces)
    ensures InStep(w, steps, a, b, size, pieces)
  {
    hide InStep, FileStage;
    if pieces == [] {
      steps := TransferBegins(w, a, b, size, 7);
      InStepAtFirst(w, steps, a, b, size);
    } else {
      var before, last := pieces[..|pieces| - 1], pieces[|pieces| - 1];
      assert pieces == before + [last];
      steps := PiecesAreOver(w, a, b, size, before);
      steps := PieceIsOver(w, steps, a, b, size, before, last);
    }
  }

  lemma ReachedAtFirst(w: World, a: Id, b: Id, size: nat)
    requires FileStage(0, w, a, b, size)
    ensures Reached(0, Run(w, []), a, b, size, Past(w, [], a, b), 0)
  {
    assert Past(w, [], a, b) == History([], [], []);
    hide FileStage;
  }

  lemma SomeStepOn(n: nat, w: World, a: Id, b: Id, size: nat, h: History, count: int) returns (step: Step)
    requires Reached(n, w, a, b, size, h, count) && n < 8
    ensures Orderly(w, step) && !step.Ask?
  {
    assert FileStage(n, w, a, b, size);
    hide FileStage;
    ExchangeIsNotStuck(n, w, a, b, size);
    step :| Orderly(w, step);
  }

  lemma {:induction false} TransferBegins(w: World, a: Id, b: Id, size: nat, n: nat) returns (steps: seq<Step>)
    requires FileStage(0, w, a, b, size) && n <= 7
    ensures |steps| == n && NoRequests(steps) && Reached(n, Run(w, steps), a, b, size, Past(w, steps, a, b), n)
  {
    hide Run, Past, Reached, FileStage, Orderly;
    if n == 0 {
      steps := [];
      ReachedAtFirst(w, a, b, size);
    } else {
      steps := TransferBegins(w, a, b, size, n - 1);
      var step := SomeStepOn(n - 1, Run(w, steps), a, b, size, Past(w, steps, a, b), n - 1);
      var next := ReachesOn(w, a, b, size, steps, step, n - 1);
      steps := steps + [step];
    }
  }

  lemma NothingSentYet(w: World, a: Id, b: Id, size: nat, h: History)
    requires Reached(7, w, a, b, size, h, 7)
    ensures h == History([], [], []) && w.inFlight == multiset{}
    ensures w.peers[a].phase.FileSendChunk? && w.peers[b].fileMessages == []
  {
    StageIs7(w, a, b, size);
    hide FileStage, HasPiece, GoodChunk;
    var inbox := w.peers[b].fileMessages;
    assert |multiset(h.sent)| == |multiset(h.taken)| + |multiset(inbox)| + |w.inFlight|;
  }

  lemma InStepAtFirst(w: World, steps: seq<Step>, a: Id, b: Id, size: nat)
    requires Reached(7, Run(w, steps), a, b, size, Past(w, steps, a, b), 7) && |steps| == 7 && NoRequests(steps)
    ensures InStep(w, steps, a, b, size, [])
  {
    hide Run, Past, Reached;
    NothingSentYet(Run(w, steps), a, b, size, Past(w, steps, a, b));
  }

  // However the sender's reads split its file, some run brings all pieces over, in order.
  lemma EveryFileCanBeSent(w: World, a: Id, b: Id, size: nat, pieces: seq<seq<byte>>) returns (steps: seq<Step>)
    requires FileStage(0, w, a, b, size) && pieces != [] && AllFit(pieces)
    ensures Transferred(w, steps, a, b, size, pieces)
  {
    hide InStep, FileStage, Transferred;
    steps := PiecesAreOver(w, a, b, size, pieces);
    steps := ExchangeEnds(w, steps, a, b, size, pieces);
  }

  // -------- Declined offers --------

  // The receiver has declined, and its answer is on its way.
  ghost predicate Declining(w: World, v: World, a: Id, b: Id, m: Message) {
    && a < |w.peers| == |v.peers| && b < |w.peers| && v.peers[a] == w.peers[a]
    && m.flag == FileAsk && m.from == b && m.to == a && m.body == FileReply(0)
    && v.inFlight == multiset{m} && FileIdle(v.peers[b]) && v.sent == w.sent + {m}
  }

  lemma OfferIsDeclined(w: World, a: Id, b: Id, size: nat, e: Event)
    requires FileStage(3, w, a, b, size) && e.ok && !e.timedOut && !e.accepted
    ensures Declining(w, Do(w, Act(b, e)), a, b, Message(FileAsk, e.sendTime, b, a, FileReply(0)))
  {
    hide Do, Acted, Listened;
    ActIs(w, b, e);
    OfferDeclined(w.peers[b], b, |w.origins|, e);
  }

  lemma RefusalArrives(w: World, v: World, a: Id, b: Id, size: nat, m: Message, f: Event)
    requires FileStage(3, w, a, b, size) && Declining(w, v, a, b, m) && !f.timedOut
    ensures var u := Do(Do(v, Deliver(m)), Act(a, f));
      && |u.peers| == |w.peers| && FileIdle(u.peers[a]) && FileIdle(u.peers[b]) && u.inFlight == multiset{} && u.sent == v.sent
  {
    hide Do, Acted, Listened;
    DeliverIs(v, m);
    FileMessageHeard(v.peers[a], m);
    var t := Do(v, Deliver(m));
    hide OthersRestToo, Conversing;
    ActIs(t, a, f);
    RefusalTaken(t.peers[a], a, |t.origins|, f);
  }

  // A declined offer: the receiver is free at once and the sender as soon as it has the answer, and
  // nothing but that answer has been sent.
  lemma DeclinedOfferEndsBoth(w: World, a: Id, b: Id, size: nat, e: Event, f: Event)
    requires FileStage(3, w, a, b, size) && e.ok && !e.timedOut && !e.accepted && !f.timedOut
    ensures var m := Message(FileAsk, e.sendTime, b, a, FileReply(0)); var v := Do(w, Act(b, e));
      && v.inFlight == multiset{m} && |v.peers| == |w.peers| && FileIdle(v.peers[b])
      && var u := Do(Do(v, Deliver(m)), Act(a, f));
         |u.peers| == |w.peers| && FileIdle(u.peers[a]) && FileIdle(u.peers[b]) && u.inFlight == multiset{}
         && u.sent == w.sent + {m}
  {
    hide Do, FileStage, FileIdle;
    OfferIsDeclined(w, a, b, size, e);
    RefusalArrives(w, Do(w, Act(b, e)), a, b, size, Message(FileAsk, e.sendTime, b, a, FileReply(0)), f);
  }
}
