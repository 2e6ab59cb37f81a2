/** What each stretch of one client comes to, in terms of what its caller has: the messages that
    are waiting, the stored conversations, the user list and what the environment decides. */
module Effects {
  import opened Prelude
  import opened Padding
  import opened Crypto
  import opened Protocol

  // -------- What a message that has been waited for holds --------

  // The session keys that the answer to an invite leads to, if it is one.
  function KeysIn(m: Message, secret: nat, ok: bool): Option<Keys> {
    if m.flag == ExchangeKeys && m.body.Size() == KEY_SIZE && m.body.PublicKeyBody? && ok
    then Some(ClientSessionKeys(secret, m.body.key)) else None
  }

  // The streams that the invited client's header leads to, if the message holds one.
  function StreamsIn(m: Message, keys: Keys, header: nat, ok: bool): Option<Streams> {
    if m.flag == ExchangeHeaders && m.body.Size() == SingleEncryptedSize(HEADER_SIZE) && m.body.HeaderBody?
       && Open(keys.serverKey, m.body.box).Some? && ok
    then Some(InviterStreams(keys, Open(keys.serverKey, m.body.box).value, header)) else None
  }

  // The session keys and the encoder that the inviter's key leads to, if the message holds one.
  function EncoderIn(m: Message, own: nat, header: nat, ok: bool): Option<(Keys, StreamState)> {
    if m.flag == ExchangeKeysDone && m.body.Size() == KEY_SIZE && m.body.PublicKeyBody? && ok then
      var keys := ServerSessionKeys(own, m.body.key);
      Some((keys, StreamState(keys.serverKey, header, 0)))
    else None
  }

  // The streams that the inviter's header completes, if the message holds one.
  function CompletedIn(m: Message, keys: Keys, encryption: StreamState, ok: bool): Option<Streams> {
    if m.flag == ExchangeHeadersDone && m.body.Size() == SingleEncryptedSize(HEADER_SIZE) && m.body.HeaderBody?
       && Open(keys.clientKey, m.body.box).Some? && ok
    then Some(Streams(StreamState(keys.clientKey, Open(keys.clientKey, m.body.box).value, 0), encryption)) else None
  }

  // Whoever waits in vain gives up, or waits on.
  lemma NothingTaken(p: Peer, self: Id, secret: nat, e: Event)
    ensures e.timedOut ==> Awaited(p, self, secret, e) == Failed(p)
    ensures !e.timedOut && p.setupMessages == [] ==> Awaited(p, self, secret, e) == Only(p)
  {
    hide Popped;
  }

  // Otherwise the oldest message decides.
  function Rest(p: Peer): Peer
    requires p.setupMessages != []
  {
    p.(setupMessages := p.setupMessages[1..])
  }

  lemma KeyTaken(p: Peer, self: Id, secret: nat, e: Event)
    requires p.phase.CreateAwaitKey? && !e.timedOut && p.setupMessages != []
    ensures Awaited(p, self, secret, e) ==
      match KeysIn(p.setupMessages[0], secret, e.ok)
      case None => Failed(Rest(p))
      case Some(keys) =>
        Effect(Rest(p).(phase := CreateSendKey(p.phase.to, keys)), None, Some(Inviter(self, p.phase.to)), None)
  {
  }

  lemma HeaderTaken(p: Peer, self: Id, secret: nat, e: Event)
    requires p.phase.CreateAwaitHeader? && !e.timedOut && p.setupMessages != []
    ensures Awaited(p, self, secret, e) ==
      match StreamsIn(p.setupMessages[0], p.phase.keys, e.header, e.ok)
      case None => Failed(Rest(p))
      case Some(streams) => Only(Rest(p).(phase := CreateSendHeader(p.phase.to, p.phase.keys, streams)))
  {
  }

  lemma AnswerTaken(p: Peer, self: Id, secret: nat, e: Event)
    requires p.phase.ReplyAwaitKey? && !e.timedOut && p.setupMessages != []
    ensures Awaited(p, self, secret, e) ==
      match EncoderIn(p.setupMessages[0], p.phase.secret, e.header, e.ok)
      case None => Failed(Rest(p))
      case Some(made) => Only(Rest(p).(phase := ReplySendHeader(p.phase.from, made.0, made.1)))
  {
  }

  lemma LastHeaderTaken(p: Peer, self: Id, secret: nat, e: Event)
    requires p.phase.ReplyAwaitHeader? && !e.timedOut && p.setupMessages != []
    ensures var from, keys := p.phase.from, p.phase.keys;
      Awaited(p, self, secret, e) ==
      match CompletedIn(p.setupMessages[0], keys, p.phase.encryption, e.ok)
      case None => Failed(Rest(p))
      case Some(streams) => Effect(Stored(Finished(Rest(p)).(toUserId := from), from, streams), None, None,
                                   Some(Session(Invited(self, from), keys, streams)))
  {
    hide Stored;
  }

  // The same for the queue of file messages.
  lemma NoFileTaken(p: Peer, e: Event)
    ensures e.timedOut ==> FileAwaited(p, e) == Only(FileFinished(p))
    ensures !e.timedOut && p.fileMessages == [] ==> FileAwaited(p, e) == Only(p)
  {
    hide FilePopped;
  }

  function RestOfFile(p: Peer): Peer
    requires p.fileMessages != []
  {
    p.(fileMessages := p.fileMessages[1..])
  }

  lemma FileAnswerTaken(p: Peer, e: Event)
    requires p.phase.FileAwaitAnswer? && !e.timedOut && p.fileMessages != []
    ensures var m, q := p.fileMessages[0], RestOfFile(p);
      FileAwaited(p, e) == Only(
        if m.flag != FileAsk || m.body.Size() != INT_SIZE || m.body != FileReply(p.phase.fileSize) then FileFinished(q)
        else q.(phase := FileSendChunk(p.phase.to, 0)))
  {
  }

  lemma FileMessageTaken(p: Peer, e: Event)
    requires p.phase.FileAwaitChunk? && !e.timedOut && p.fileMessages != []
    ensures var m, q := p.fileMessages[0], RestOfFile(p);
      FileAwaited(p, e) == Only(
        if m.flag == File && m.body.FileChunk? && !ChunkOk(q, p.phase.from, m.body.text) then q.(phase := Aborted) else q)
  {
    hide ChunkOk;
  }

  // -------- What a send comes to --------

  // What is sent goes to the partner; a failed send gives the slot back; streams that are returned
  // are stored, and their encoder is the one whose header has been sent.
  predicate SentWell(p: Peer, self: Id, e: Event, effect: Effect) {
    var q, sent := effect.peer, effect.sent;
    && (sent.Some? <==> e.ok)
    && (sent.Some? ==> sent.value.from == self)
    && (sent.Some? && p.phase.Creating() ==> sent.value.to == p.phase.to)
    && (sent.Some? && p.phase.Replying() ==> sent.value.to == p.phase.from)
    && (q.phase.Free? ==> !q.settingUpConversation && q.setupMessages == [])
    && (!q.phase.Free? && !q.phase.Aborted? ==> q.settingUpConversation == p.settingUpConversation)
    && (!e.ok ==> q.phase.Free?)
    && q == p.(settingUpConversation := q.settingUpConversation, setupMessages := q.setupMessages, phase := q.phase,
               conversations := q.conversations)
    && (e.ok && !p.phase.CreateSendHeader? ==> q.phase.CreateAwaitKey? || q.phase.CreateAwaitHeader? || q.phase.Replying())
    && (effect.built.Some? <==> e.ok && p.phase.CreateSendHeader?)
    && (q.phase.Aborted? <==> effect.built.Some? && p.phase.to in p.conversations)
    && (effect.built.None? ==> q.conversations == p.conversations)
    && (effect.built.Some? ==> sent.Some? && ReturnedWell(q, sent.value, effect.built.value))
  }

  predicate ReturnedWell(q: Peer, m: Message, session: Session) {
    && m.body.HeaderBody?
    && Open(session.keys.clientKey, m.body.box) == Some(session.streams.encryption.header)
    && (q.phase.Free? ==>
          session.origin.partner in q.conversations && q.conversations[session.origin.partner] == session.streams)
  }

  lemma SendingMeans(p: Peer, self: Id, secret: nat, e: Event)
    requires p.phase.CreateSendInvite? || p.phase.CreateSendKey? || p.phase.CreateSendHeader?
          || p.phase.ReplySendKey? || p.phase.ReplySendHeader?
    ensures SentWell(p, self, e, Acted(p, self, secret, e))
  {
    hide Begun, Awaited, FileAwaited, ChunkSent;
  }

  lemma FileAskIs(p: Peer, self: Id, secret: nat, e: Event)
    requires p.phase.FileSendInvite? || p.phase.FileSendReply?
    ensures !e.ok ==> Acted(p, self, secret, e) == Only(FileFinished(p))
    ensures e.ok && p.phase.FileSendInvite? ==>
      var to, size := p.phase.to, p.phase.fileSize;
      Acted(p, self, secret, e)
        == Sent(p.(phase := FileAwaitAnswer(to, size)), Message(FileAsk, e.sendTime, self, to, FileInvite(size)))
    ensures e.ok && p.phase.FileSendReply? ==>
      var from, size := p.phase.from, p.phase.fileSize;
      Acted(p, self, secret, e)
        == Sent(p.(phase := FileAwaitChunk(from)), Message(FileAsk, e.sendTime, self, from, FileReply(size)))
  {
    hide Begun, Awaited, FileAwaited, ChunkSent;
  }

  // -------- What sending a text comes to --------

  function SealedIn(streams: Streams, text: seq<byte>): Option<Ciphertext> {
    var padded := Padded(text, PADDING_BLOCK);
    if EncryptedSize(|padded|) > MAX_BODY_SIZE then None else Some(Ciphertext(streams.encryption, padded))
  }

  predicate Sendable(p: Peer, self: Id, text: seq<byte>, e: Event) {
    text != [] && |text| <= MaxTextSize() && CanAddRow(p, RowKey(e.rowTime, self, p.toUserId))
  }

  function WithRow(p: Peer, key: RowKey, text: seq<byte>): Peer {
    p.(rows := p.rows[key := text])
  }

  lemma NotSendable(p: Peer, self: Id, text: seq<byte>, e: Event)
    requires !Sendable(p, self, text, e)
    ensures SentText(p, self, text, e) == Abort(p)
  {
  }

  lemma SentTextIs(p: Peer, self: Id, text: seq<byte>, e: Event)
    requires Sendable(p, self, text, e)
    ensures var q, sealed := WithRow(p, RowKey(e.rowTime, self, p.toUserId), text), SealedIn(p.conversations[p.toUserId], text);
      SentText(p, self, text, e) == if sealed.None? then Abort(q) else Effect(q, Outgoing(p, self, e, sealed.value), None, None)
  {
  }

  function Outgoing(p: Peer, self: Id, e: Event, sealed: Ciphertext): Option<Message> {
    if e.ok then Some(Message(Proceed, e.sendTime, self, p.toUserId, TextBody(sealed))) else None
  }

  // -------- What receiving one comes to --------

  // The text inside, if it decrypts to whole blocks and carries a padding.
  ghost function OpenedIn(streams: Streams, received: Ciphertext): Option<seq<byte>> {
    var padded := Pull(streams.decryption, received);
    if padded.None? || |padded.value| % PADDING_BLOCK != 0 then None else Unpad(padded.value, PADDING_BLOCK)
  }

  lemma ReceivedIs(p: Peer, timestamp: nat, from: Id, received: Ciphertext)
    requires from in p.users && 0 < |received.plain| <= MaxUnencryptedSize() && from in p.conversations
    ensures var text, key := OpenedIn(p.conversations[from], received), RowKey(timestamp, from, from);
      Received(p, timestamp, from, received) ==
        if text.None? || text.value == [] || key in p.rows then p.(phase := Aborted) else WithRow(p, key, text.value)
  {
    hide Unpad;
  }

  lemma NotReceived(p: Peer, timestamp: nat, from: Id, received: Ciphertext)
    ensures p.users == {} ==> Received(p, timestamp, from, received) == p.(phase := Aborted)
    ensures p.users != {} && from !in p.users ==> Received(p, timestamp, from, received) == p
    ensures from in p.users && !(0 < |received.plain| <= MaxUnencryptedSize()) ==>
              Received(p, timestamp, from, received) == p.(phase := Aborted)
    ensures from in p.users && 0 < |received.plain| <= MaxUnencryptedSize() && from !in p.conversations ==>
              Received(p, timestamp, from, received) == p
  {
    hide Unpad;
  }

  // -------- What an action comes to --------

  lemma BegunIs(p: Peer, self: Id, action: Action, secret: nat, e: Event)
    ensures Begun(p, self, action, secret, e) ==
      match action
      case StartConversation(id) => Only(Started(p, id))
      case DeleteConversation(id) => Only(Forgotten(p, id))
      case ReplyToInvite(from) => RepliedToInvite(Forgotten(p, from), self, from, secret, e)
      case SendText(text) => SentText(p, self, text, e)
      case ProcessReceived(timestamp, from, received) => Only(Received(p, timestamp, from, received))
      case BeginFileExchange(size) => Only(FileBegun(p, size))
      case ReplyToFileInvite(from, size) => RepliedToFileInvite(p, self, from, size, e)
  {
    hide Forgotten, RepliedToInvite, SentText, Received, RepliedToFileInvite;
  }

  function Started(p: Peer, id: Id): Peer {
    if id in p.conversations then p
    else if p.settingUpConversation || p.exchangingFile then p.(phase := Aborted)
    else p.(settingUpConversation := true, setupMessages := [], phase := CreateSendInvite(id))
  }

  function FileBegun(p: Peer, fileSize: nat): Peer {
    if p.settingUpConversation || p.exchangingFile then p.(phase := Aborted)
    else p.(exchangingFile := true, fileMessages := [], phase := FileSendInvite(p.toUserId, fileSize))
  }

  // -------- Hearing a message --------

  // Whom the handlers of invites and offers listen to.
  predicate Idling(p: Peer) {
    !p.settingUpConversation && !p.exchangingFile
  }

  predicate OffersFile(m: Message) {
    m.flag == FileAsk && m.body.Size() == FILE_INVITE_SIZE
  }

  predicate BelongsToSetUp(m: Message) {
    (m.flag == ExchangeKeys && !m.body.Invite?) || m.flag in {ExchangeKeysDone, ExchangeHeaders, ExchangeHeadersDone}
  }

  // The action that a message gives rise to.
  function Arising(p: Peer, m: Message): seq<Action> {
    if m.flag == ExchangeKeys && m.body.Invite? && Idling(p) then [ReplyToInvite(m.from)]
    else if OffersFile(m) && m.body.FileInvite? && m.body.fileSize > 0 && Idling(p) then
      [ReplyToFileInvite(m.from, m.body.fileSize)]
    else if m.flag == Proceed && m.body.TextBody? then [ProcessReceived(m.timestamp, m.from, m.body.text)]
    else []
  }

  // Every message joins the queue of the operation that it belongs to, at the back. An invite or an
  // offer that is heard takes its slot and is answered by the action thread; while one of the slots
  // is taken it is not heard. Only a malformed offer to an idle client fails an assertion. Nothing
  // that is stored is touched.
  predicate HeardWell(p: Peer, q: Peer, m: Message) {
    && q.setupMessages == p.setupMessages + (if BelongsToSetUp(m) then [m] else [])
    && q.fileMessages == p.fileMessages + (if m.flag == File || (m.flag == FileAsk && !OffersFile(m)) then [m] else [])
    && q.actions == p.actions + Arising(p, m)
    && (q.settingUpConversation <==> p.settingUpConversation || (m.flag == ExchangeKeys && m.body.Invite? && Idling(p)))
    && (q.exchangingFile <==>
          p.exchangingFile || (OffersFile(m) && m.body.FileInvite? && m.body.fileSize > 0 && Idling(p)))
    && (q.phase == if OffersFile(m) && !(m.body.FileInvite? && m.body.fileSize > 0) && Idling(p) then Aborted else p.phase)
    && q.users == p.users && q.toUserId == p.toUserId && q.conversations == p.conversations && q.rows == p.rows
  }

  lemma InviteHeardWell(p: Peer, m: Message)
    requires !p.phase.Aborted? && (m.flag == ExchangeKeys || m.flag == FileAsk)
    ensures HeardWell(p, Listened(p, m), m)
  {
  }

  lemma HearingMeans(p: Peer, m: Message)
    ensures if p.phase.Aborted? then Listened(p, m) == p else HeardWell(p, Listened(p, m), m)
  {
    if !p.phase.Aborted? && (m.flag == ExchangeKeys || m.flag == FileAsk) {
      InviteHeardWell(p, m);
      hide Listened;
    }
  }

  // -------- Answering an invite or an offer --------

  // What answering an invite comes to. It fails an assertion exactly without a user list or, for a
  // listed user, without the slot. Otherwise an unlisted user is ignored, a late answer ends the
  // set-up, a denial ends it and is sent, and only an answer that is in time and accepts goes on.
  predicate AnsweredWell(p: Peer, self: Id, from: Id, secret: nat, e: Event, effect: Effect) {
    var q := effect.peer;
    var due := from in p.users && p.settingUpConversation && !p.exchangingFile;
    && (q.phase.Aborted? <==> p.users == {} || (from in p.users && !due))
    && (p.users != {} && from !in p.users ==> effect == Effect(p, None, None, None))
    && (effect.sent == Some(Message(ExchangeKeys, e.sendTime, self, from, Denial)) <==>
          due && !e.timedOut && !e.accepted && e.ok)
    && (effect.sent.Some? ==> effect.sent == Some(Message(ExchangeKeys, e.sendTime, self, from, Denial)))
    && (effect.drawn == Some(Invited(self, from)) <==> due && !e.timedOut && e.accepted)
    && (effect.drawn.Some? <==> q.phase == ReplySendKey(from, secret))
    && (q.phase.Free? || q.phase.Aborted? || q.phase == ReplySendKey(from, secret))
    && (due ==> q.setupMessages == [] && (q.settingUpConversation <==> !q.phase.Free?))
    && (!due ==> effect.drawn.None? && q.settingUpConversation == p.settingUpConversation)
    && effect.built.None?
    && q == p.(settingUpConversation := q.settingUpConversation, setupMessages := q.setupMessages, phase := q.phase)
  }

  lemma AnsweringMeans(p: Peer, self: Id, from: Id, secret: nat, e: Event)
    requires p.phase.Free?
    ensures AnsweredWell(p, self, from, secret, e, RepliedToInvite(p, self, from, secret, e))
  {
  }

  // The same for an offer. A denial carries the size 0, and nothing is sent yet when it is accepted.
  predicate OfferAnsweredWell(p: Peer, self: Id, from: Id, size: nat, e: Event, effect: Effect) {
    var q := effect.peer;
    var due := from in p.users && p.exchangingFile && !p.settingUpConversation;
    && (q.phase.Aborted? <==> p.users == {} || (from in p.users && !due))
    && (p.users != {} && from !in p.users ==> effect == Effect(p, None, None, None))
    && (effect.sent == Some(Message(FileAsk, e.sendTime, self, from, FileReply(0))) <==>
          due && !e.timedOut && !e.accepted && e.ok)
    && (effect.sent.Some? ==> effect.sent == Some(Message(FileAsk, e.sendTime, self, from, FileReply(0))))
    && (q.phase == FileSendReply(from, size) <==> due && !e.timedOut && e.accepted)
    && (q.phase.Free? || q.phase.Aborted? || q.phase == FileSendReply(from, size))
    && (due ==> q.fileMessages == [] && (q.exchangingFile <==> !q.phase.Free?))
    && (!due ==> q.exchangingFile == p.exchangingFile)
    && effect.drawn.None? && effect.built.None?
    && q == p.(exchangingFile := q.exchangingFile, fileMessages := q.fileMessages, phase := q.phase)
  }

  lemma AnsweringOfferMeans(p: Peer, self: Id, from: Id, size: nat, e: Event)
    requires p.phase.Free?
    ensures OfferAnsweredWell(p, self, from, size, e, RepliedToFileInvite(p, self, from, size, e))
  {
  }

  // -------- Starting a set-up or an exchange --------

  // A partner that there is a conversation with is not invited again, and starting while a slot is
  // taken fails an assertion.
  predicate StartedWell(p: Peer, id: Id, q: Peer) {
    && (id in p.conversations ==> q == p)
    && (id !in p.conversations && !Idling(p) ==> q == p.(phase := Aborted))
    && (id !in p.conversations && Idling(p) ==>
          && q == p.(settingUpConversation := true, setupMessages := [], phase := q.phase)
          && q.phase == CreateSendInvite(id))
  }

  // A file is offered to whoever the partner is at that time.
  predicate FileBegunWell(p: Peer, fileSize: nat, q: Peer) {
    && (!Idling(p) ==> q == p.(phase := Aborted))
    && (Idling(p) ==>
          && q == p.(exchangingFile := true, fileMessages := [], phase := q.phase)
          && q.phase == FileSendInvite(p.toUserId, fileSize))
  }

  lemma StartingMeans(p: Peer, self: Id, id: Id, fileSize: nat, secret: nat, e: Event)
    requires p.phase.Free?
    ensures var effect := Begun(p, self, StartConversation(id), secret, e);
      effect == Effect(effect.peer, None, None, None) && StartedWell(p, id, effect.peer)
    ensures var effect := Begun(p, self, BeginFileExchange(fileSize), secret, e);
      effect == Effect(effect.peer, None, None, None) && FileBegunWell(p, fileSize, effect.peer)
  {
    hide Forgotten, RepliedToInvite, SentText, Received, RepliedToFileInvite;
  }

  // -------- Waiting in a set-up --------

  // The message that a waiting set-up goes on with.
  predicate GoesOnWith(phase: Phase, m: Message) {
    match phase
    case CreateAwaitKey(_) => m.flag == ExchangeKeys && m.body.PublicKeyBody?
    case CreateAwaitHeader(_, keys) => m.flag == ExchangeHeaders && m.body.HeaderBody? && m.body.box.key == keys.serverKey
    case ReplyAwaitKey(_, _) => m.flag == ExchangeKeysDone && m.body.PublicKeyBody?
    case ReplyAwaitHeader(_, keys, _) =>
      m.flag == ExchangeHeadersDone && m.body.HeaderBody? && m.body.box.key == keys.clientKey
    case _ => false
  }

  // A wait goes on exactly while it is in time and nothing has come. Its first message decides: the
  // set-up continues if that is what it waits for and libsodium does its part, and is over otherwise.
  predicate WaitedWell(p: Peer, e: Event, effect: Effect) {
    var q := effect.peer;
    var taken := !e.timedOut && p.setupMessages != [];
    var fits := taken && GoesOnWith(p.phase, p.setupMessages[0]) && e.ok;
    && effect.sent.None?
    && (!e.timedOut && p.setupMessages == [] ==> effect == Effect(p, None, None, None))
    && (e.timedOut || (taken && !fits) ==>
          && effect == Effect(q, None, None, None)
          && q == p.(settingUpConversation := false, setupMessages := [], phase := Free))
    && (fits ==>
          && (p.phase.CreateAwaitKey? ==> q.phase.CreateSendKey?)
          && (p.phase.CreateAwaitHeader? ==> q.phase.CreateSendHeader?)
          && (p.phase.ReplyAwaitKey? ==> q.phase.ReplySendHeader?)
          && (p.phase.ReplyAwaitHeader? ==>
               && effect.built.Some? && q.toUserId == p.phase.from
               && (q.phase == if p.phase.from in p.conversations then Aborted else Free))
          && (!p.phase.ReplyAwaitHeader? ==>
               q == p.(setupMessages := p.setupMessages[1..], phase := q.phase) && effect.built.None?))
  }

  lemma KeyWaitMeans(p: Peer, self: Id, secret: nat, e: Event)
    requires p.phase.CreateAwaitKey? || p.phase.ReplyAwaitKey?
    ensures WaitedWell(p, e, Awaited(p, self, secret, e))
  {
    hide ClientSessionKeys, ServerSessionKeys;
  }

  lemma HeaderWaitMeans(p: Peer, self: Id, secret: nat, e: Event)
    requires p.phase.CreateAwaitHeader? || p.phase.ReplyAwaitHeader?
    ensures WaitedWell(p, e, Awaited(p, self, secret, e))
  {
  }

  lemma WaitingMeans(p: Peer, self: Id, secret: nat, e: Event)
    requires p.phase.CreateAwaitKey? || p.phase.CreateAwaitHeader? || p.phase.ReplyAwaitKey? || p.phase.ReplyAwaitHeader?
    ensures WaitedWell(p, e, Awaited(p, self, secret, e))
  {
    if p.phase.CreateAwaitKey? || p.phase.ReplyAwaitKey? {
      KeyWaitMeans(p, self, secret, e);
    } else {
      HeaderWaitMeans(p, self, secret, e);
    }
    hide Awaited, WaitedWell;
  }

  // -------- Texts --------

  // What sending a text comes to. It can be stored if it is new and the partner has a conversation, and
  // only then, and it can be sent if it is stored and has at most 135 bytes. What is sent unpads to
  // it, under the stored encoder.
  predicate TextSentWell(p: Peer, self: Id, text: seq<byte>, e: Event, effect: Effect) {
    var q := effect.peer;
    var key := RowKey(e.rowTime, self, p.toUserId);
    var storable := 0 < |text| <= 136 && p.toUserId in p.conversations && key !in p.rows;
    && q == p.(rows := if storable then p.rows[key := text] else p.rows, phase := q.phase)
    && (q.phase == if storable && |text| <= 135 then p.phase else Aborted)
    && (effect.sent.Some? <==> storable && |text| <= 135 && e.ok)
    && (effect.sent.Some? ==>
          effect.sent.value == Message(Proceed, e.sendTime, self, p.toUserId, TextBody(
            Ciphertext(p.conversations[p.toUserId].encryption, Padded(text, PADDING_BLOCK)))))
    && effect.drawn.None? && effect.built.None?
  }

  lemma SendingTextMeans(p: Peer, self: Id, text: seq<byte>, e: Event)
    requires p.phase.Free?
    ensures TextSentWell(p, self, text, e, SentText(p, self, text, e))
  {
    LargestPayloadIsTight(|text|, MaxUnencryptedSize(), PADDING_BLOCK);
    PaddedHasItsMarker(text, PADDING_BLOCK);
  }

  // What a received text comes to. It is stored if and only if it is the padded form of something
  // that is not empty, sealed in the state that the stored decoder is in, and new. It is dropped
  // without a trace if its sender is not listed or has no conversation.
  predicate Stores(p: Peer, timestamp: nat, from: Id, received: Ciphertext, text: seq<byte>) {
    && from in p.users && from in p.conversations && |received.plain| <= MaxUnencryptedSize()
    && text != [] && received == Ciphertext(p.conversations[from].decryption, Padded(text, PADDING_BLOCK))
    && RowKey(timestamp, from, from) !in p.rows
  }

  predicate Drops(p: Peer, from: Id, received: Ciphertext) {
    && p.users != {}
    && (from in p.users ==> 0 < |received.plain| <= MaxUnencryptedSize() && from !in p.conversations)
  }

  ghost predicate TextReceivedWell(p: Peer, timestamp: nat, from: Id, received: Ciphertext, q: Peer) {
    && (forall text :: Stores(p, timestamp, from, received, text) ==>
          q == p.(rows := p.rows[RowKey(timestamp, from, from) := text]))
    && (Drops(p, from, received) ==> q == p)
    && (!Drops(p, from, received) && (forall text :: !Stores(p, timestamp, from, received, text)) ==>
          q == p.(phase := Aborted))
  }

  lemma ReceivingTextMeans(p: Peer, timestamp: nat, from: Id, received: Ciphertext)
    requires p.phase.Free?
    ensures TextReceivedWell(p, timestamp, from, received, Received(p, timestamp, from, received))
  {
    NotReceived(p, timestamp, from, received);
    if from in p.users && 0 < |received.plain| <= MaxUnencryptedSize() && from in p.conversations {
      ReceivedIs(p, timestamp, from, received);
      OpenedExactly(p.conversations[from], received);
      var inside := OpenedIn(p.conversations[from], received);
      assert inside.Some? && inside.value != [] && RowKey(timestamp, from, from) !in p.rows ==>
        Stores(p, timestamp, from, received, inside.value);
    }
    forall text | Stores(p, timestamp, from, received, text)
      ensures received.plain != []
    {
      PaddedHasItsMarker(text, PADDING_BLOCK);
    }
    hide Received, OpenedIn, Padded;
  }

  lemma OpenedExactly(streams: Streams, received: Ciphertext)
    ensures forall text :: OpenedIn(streams, received) == Some(text)
              <==> received == Ciphertext(streams.decryption, Padded(text, PADDING_BLOCK))
  {
    forall text
      ensures OpenedIn(streams, received) == Some(text)
          <==> received == Ciphertext(streams.decryption, Padded(text, PADDING_BLOCK))
    {
      PaddingIsUnique(received.plain, text, PADDING_BLOCK);
      hide Unpad, Padded;
    }
  }

  // -------- Files --------

  // What waiting in an exchange comes to. The sender goes on with the echo of the file's size and with
  // nothing else. The receiver takes messages until its deadline; a chunk that does not fit the body
  // or its decoder's state fails an assertion, and everything else is passed over.
  predicate FileWaitedWell(p: Peer, e: Event, q: Peer) {
    var taken := !e.timedOut && p.fileMessages != [];
    && (!e.timedOut && p.fileMessages == [] ==> q == p)
    && (e.timedOut ==> q == p.(exchangingFile := false, fileMessages := [], phase := Free))
    && (taken && p.phase.FileAwaitAnswer? ==>
          if p.fileMessages[0].flag == FileAsk && p.fileMessages[0].body == FileReply(p.phase.fileSize) then
            q == p.(fileMessages := p.fileMessages[1..], phase := q.phase) && q.phase == FileSendChunk(p.phase.to, 0)
          else q == p.(exchangingFile := false, fileMessages := [], phase := Free))
    && (taken && p.phase.FileAwaitChunk? ==>
          && q == p.(fileMessages := p.fileMessages[1..], phase := q.phase)
          && q.phase == if Refuses(p, p.phase.from, p.fileMessages[0]) then Aborted else p.phase)
  }

  // A chunk without a size, of more than a body holds, or in another state than the decoder's.
  predicate Refuses(p: Peer, from: Id, m: Message) {
    m.flag == File && m.body.FileChunk? &&
    (|| m.body.text.plain == [] || |m.body.text.plain| > MaxUnencryptedSize()
     || from !in p.conversations || m.body.text.state != p.conversations[from].decryption)
  }

  lemma FileWaitingMeans(p: Peer, e: Event)
    requires p.phase.FileAwaitAnswer? || p.phase.FileAwaitChunk?
    ensures FileAwaited(p, e) == Effect(FileAwaited(p, e).peer, None, None, None)
    ensures FileWaitedWell(p, e, FileAwaited(p, e).peer)
  {
  }

  // What a turn of the sending loop comes to. A read that yields nothing ends the exchange after the
  // first chunk and fails an assertion before it, and so does a partner without a conversation. What is read
  // otherwise, cut to what a body holds, is sent under the stored encoder.
  predicate ChunkSentWell(p: Peer, self: Id, e: Event, effect: Effect)
    requires p.phase.FileSendChunk?
  {
    var q, to, index := effect.peer, p.phase.to, p.phase.index;
    var ready := e.read != [] && p.toUserId in p.conversations;
    && (q.phase.Aborted? <==> if e.read == [] then index == 0 else !ready)
    && (q.phase.Free? <==> if e.read == [] then index > 0 else ready && !e.ok)
    && (effect.sent.Some? <==> ready && e.ok)
    && (effect.sent.Some? ==>
          && q == p.(phase := q.phase) && q.phase == FileSendChunk(to, index + 1)
          && effect.sent.value == Message(File, e.sendTime, self, to, FileChunk(
               Ciphertext(p.conversations[p.toUserId].encryption, e.read[..Min(|e.read|, MaxUnencryptedSize())]))))
    && (q.phase.Free? ==> q == p.(exchangingFile := false, fileMessages := [], phase := Free))
    && effect.drawn.None? && effect.built.None?
  }

  lemma ChunkSendingMeans(p: Peer, self: Id, e: Event)
    requires p.phase.FileSendChunk?
    ensures ChunkSentWell(p, self, e, ChunkSent(p, self, e))
  {
  }
}
