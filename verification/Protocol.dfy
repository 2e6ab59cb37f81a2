/** One client as a state machine: what the listening thread does with a message and
    what the action thread does between two waits of src/net.c and src/logic.c. */
module Protocol {
  import opened Prelude
  import opened Padding
  import opened Crypto
  import Wire

  type Id = nat

  const INVITE_ASK: nat := 1
  const INVITE_DENY: nat := 2
  const MAX_BODY_SIZE: nat := Wire.MAX_MESSAGE_BODY_SIZE
  const MAX_FILENAME_SIZE: nat := MAX_BODY_SIZE - 40
  const FILE_INVITE_SIZE: nat := INT_SIZE + HASH_SIZE + INT_SIZE + MAX_FILENAME_SIZE
  const MAX_FILE_SIZE: nat := 20 * 1024 * 1024

  function MaxUnencryptedSize(): nat {
    MAX_BODY_SIZE - EncryptedSize(0)
  }

  // logicMaxMessagePlainPayloadSize
  function MaxTextSize(): nat {
    (MaxUnencryptedSize() / PADDING_BLOCK) * PADDING_BLOCK
  }

  datatype Flag =
    | Proceed
    | ExchangeKeys
    | ExchangeKeysDone
    | ExchangeHeaders
    | ExchangeHeadersDone
    | FileAsk
    | File

  datatype Body =
    | Invite
    | Denial
    | PublicKeyBody(key: PublicKey)
    | HeaderBody(box: SealedHeader)
    | TextBody(text: Ciphertext)
    | FileInvite(fileSize: nat)
    | FileReply(fileSize: nat)
    | FileChunk(text: Ciphertext)
  {
    function Size(): nat {
      match this
      case Invite => INVITE_ASK
      case Denial => INVITE_DENY
      case PublicKeyBody(_) => KEY_SIZE
      case HeaderBody(_) => SingleEncryptedSize(HEADER_SIZE)
      case TextBody(text) => text.Size()
      case FileInvite(_) => FILE_INVITE_SIZE
      case FileReply(_) => INT_SIZE
      case FileChunk(text) => text.Size()
    }
  }

  datatype Message = Message(flag: Flag, timestamp: nat, from: Id, to: Id, body: Body)

  // The functions waiting in the lifecycle queue for the action thread.
  datatype Action =
    | StartConversation(id: Id)
    | DeleteConversation(id: Id)
    | ReplyToInvite(from: Id)
    | SendText(text: seq<byte>)
    | ProcessReceived(timestamp: nat, from: Id, received: Ciphertext)
    | BeginFileExchange(fileSize: nat)
    | ReplyToFileInvite(from: Id, fileSize: nat)

  // Where the action thread is. A Send phase is about to send, an Await phase is blocked
  // in queueWaitAndPop. Create phases are netCreateConversation's, Reply phases are
  // netReplyToConversationSetUpInvite's, and the File phases belong to netBeginFileExchange
  // and, the last two, to netReplyToFileExchangeInvite.
  datatype Phase =
    | Free
    | CreateSendInvite(to: Id)
    | CreateAwaitKey(to: Id)
    | CreateSendKey(to: Id, keys: Keys)
    | CreateAwaitHeader(to: Id, keys: Keys)
    | CreateSendHeader(to: Id, keys: Keys, streams: Streams)
    | ReplySendKey(from: Id, secret: nat)
    | ReplyAwaitKey(from: Id, secret: nat)
    | ReplySendHeader(from: Id, keys: Keys, encryption: StreamState)
    | ReplyAwaitHeader(from: Id, keys: Keys, encryption: StreamState)
    | FileSendInvite(to: Id, fileSize: nat)
    | FileAwaitAnswer(to: Id, fileSize: nat)
    | FileSendChunk(to: Id, index: nat)
    | FileSendReply(from: Id, fileSize: nat)
    | FileAwaitChunk(from: Id)
    | Aborted // an assertion of the source has failed
  {
    predicate Creating() {
      CreateSendInvite? || CreateAwaitKey? || CreateSendKey? || CreateAwaitHeader? || CreateSendHeader?
    }

    predicate Replying() {
      ReplySendKey? || ReplyAwaitKey? || ReplySendHeader? || ReplyAwaitHeader?
    }

    predicate Exchanging() {
      FileSendInvite? || FileAwaitAnswer? || FileSendChunk? || FileSendReply? || FileAwaitChunk?
    }
  }

  // The primary key of the message table.
  datatype RowKey = RowKey(timestamp: nat, from: Id, conversation: Id)

  datatype Peer = Peer(
    settingUpConversation: bool,
    exchangingFile: bool,
    setupMessages: seq<Message>,
    fileMessages: seq<Message>,
    actions: seq<Action>,
    phase: Phase,
    users: set<Id>,
    toUserId: Id,
    conversations: map<Id, Streams>,
    rows: map<RowKey, seq<byte>>)

  // What the environment decides in one step: whether a send or a libsodium call succeeds,
  // whether a deadline has passed, the user's answer to a dialog, clocks, random bytes and
  // what a read from a file yields.
  datatype Event = Event(
    ok: bool, timedOut: bool, accepted: bool, rowTime: nat, sendTime: nat, header: nat, read: seq<byte>)

  datatype Origin =
    | Inviter(peer: Id, partner: Id)
    | Invited(peer: Id, partner: Id)

  // Streams that a handshake function has returned.
  datatype Session = Session(origin: Origin, keys: Keys, streams: Streams)

  // What one step of the action thread leaves behind. A drawn origin takes the next
  // secret number; built is the session that has just been returned.
  datatype Effect = Effect(peer: Peer, sent: Option<Message>, drawn: Option<Origin>, built: Option<Session>)

  function Only(p: Peer): Effect {
    Effect(p, None, None, None)
  }

  function Abort(p: Peer): Effect {
    Only(p.(phase := Aborted))
  }

  // finishSettingUpConversation, and back to the lifecycle queue
  function Finished(p: Peer): Peer {
    p.(setupMessages := [], settingUpConversation := false, phase := Free)
  }

  // finishFileExchanging, and back to the lifecycle queue
  function FileFinished(p: Peer): Peer {
    p.(fileMessages := [], exchangingFile := false, phase := Free)
  }

  function Failed(p: Peer): Effect {
    Only(Finished(p))
  }

  // -------- The conversation store --------

  // Rows go with their conversation.
  function Forgotten(p: Peer, id: Id): Peer {
    p.(conversations := p.conversations - {id},
       rows := map k | k in p.rows && k.conversation != id :: p.rows[k])
  }

  // databaseAddConversation; a second row for one user violates the key of the table.
  function Stored(p: Peer, id: Id, streams: Streams): Peer {
    if id in p.conversations then p.(phase := Aborted) else p.(conversations := p.conversations[id := streams])
  }

  // databaseAddMessage; the row needs its conversation and a key of its own.
  predicate CanAddRow(p: Peer, key: RowKey) {
    key.conversation in p.conversations && key !in p.rows
  }

  // -------- The listening thread: processMessage --------

  function Listened(p: Peer, m: Message): Peer {
    if p.phase.Aborted? then p
    else match m.flag
      case ExchangeKeys =>
        if m.body.Size() == INVITE_ASK then
          if p.settingUpConversation || p.exchangingFile then p
          else p.(settingUpConversation := true, actions := p.actions + [ReplyToInvite(m.from)])
        else Queued(p, m)
      case ExchangeKeysDone => Queued(p, m)
      case ExchangeHeaders => Queued(p, m)
      case ExchangeHeadersDone => Queued(p, m)
      case FileAsk =>
        if m.body.Size() != FILE_INVITE_SIZE then p.(fileMessages := p.fileMessages + [m])
        else if p.settingUpConversation || p.exchangingFile then p
        else if !m.body.FileInvite? || m.body.fileSize == 0 then p.(phase := Aborted)
        else p.(exchangingFile := true, actions := p.actions + [ReplyToFileInvite(m.from, m.body.fileSize)])
      case File => p.(fileMessages := p.fileMessages + [m])
      case Proceed =>
        if m.body.TextBody? then
          p.(actions := p.actions + [ProcessReceived(m.timestamp, m.from, m.body.text)])
        else p
  }

  function Queued(p: Peer, m: Message): Peer {
    p.(setupMessages := p.setupMessages + [m])
  }

  // -------- The action thread --------

  ghost function Acted(p: Peer, self: Id, secret: nat, e: Event): Effect {
    match p.phase
    case Free =>
      if p.actions == [] then Only(p)
      else Begun(p.(actions := p.actions[1..]), self, p.actions[0], secret, e)
    case CreateSendInvite(to) =>
      if !e.ok then Failed(p)
      else Sent(p.(phase := CreateAwaitKey(to)), Message(ExchangeKeys, e.sendTime, self, to, Invite))
    case CreateAwaitKey(to) => Awaited(p, self, secret, e)
    case CreateSendKey(to, keys) =>
      if !e.ok then Failed(p)
      else Sent(p.(phase := CreateAwaitHeader(to, keys)),
                Message(ExchangeKeysDone, e.sendTime, self, to, PublicKeyBody(keys.clientKey.client)))
    case CreateAwaitHeader(_, _) => Awaited(p, self, secret, e)
    case CreateSendHeader(to, keys, streams) =>
      if !e.ok then Failed(p)
      else Effect(Stored(Finished(p), to, streams),
                  Some(Message(ExchangeHeadersDone, e.sendTime, self, to,
                               HeaderBody(SealedHeader(keys.clientKey, streams.encryption.header)))),
                  None, Some(Session(Inviter(self, to), keys, streams)))
    case ReplySendKey(from, own) =>
      if !e.ok then Failed(p)
      else Sent(p.(phase := ReplyAwaitKey(from, own)),
                Message(ExchangeKeys, e.sendTime, self, from, PublicKeyBody(Pub(own))))
    case ReplyAwaitKey(_, _) => Awaited(p, self, secret, e)
    case ReplySendHeader(from, keys, encryption) =>
      if !e.ok then Failed(p)
      else Sent(p.(phase := ReplyAwaitHeader(from, keys, encryption)),
                Message(ExchangeHeaders, e.sendTime, self, from,
                        HeaderBody(SealedHeader(keys.serverKey, encryption.header))))
    case ReplyAwaitHeader(_, _, _) => Awaited(p, self, secret, e)
    case FileSendInvite(to, size) =>
      if !e.ok then Only(FileFinished(p))
      else Sent(p.(phase := FileAwaitAnswer(to, size)), Message(FileAsk, e.sendTime, self, to, FileInvite(size)))
    case FileAwaitAnswer(_, _) => FileAwaited(p, e)
    case FileSendChunk(_, _) => ChunkSent(p, self, e)
    case FileSendReply(from, size) =>
      if !e.ok then Only(FileFinished(p))
      else Sent(p.(phase := FileAwaitChunk(from)), Message(FileAsk, e.sendTime, self, from, FileReply(size)))
    case FileAwaitChunk(_) => FileAwaited(p, e)
    case Aborted => Only(p)
  }

  function Sent(p: Peer, m: Message): Effect {
    Effect(p, Some(m), None, None)
  }

  // queueWaitAndPop: the deadline, or the first message, or more waiting.
  ghost function Awaited(p: Peer, self: Id, secret: nat, e: Event): Effect {
    if e.timedOut then Failed(p)
    else if p.setupMessages == [] then Only(p)
    else Popped(p.(setupMessages := p.setupMessages[1..]), self, p.setupMessages[0], secret, e)
  }

  // What the blocked function does with the message it was waiting for.
  ghost function Popped(p: Peer, self: Id, m: Message, secret: nat, e: Event): Effect {
    match p.phase
    case CreateAwaitKey(to) =>
      if m.flag != ExchangeKeys || m.body.Size() != KEY_SIZE || !m.body.PublicKeyBody? || !e.ok then Failed(p)
      else Effect(p.(phase := CreateSendKey(to, ClientSessionKeys(secret, m.body.key))),
                  None, Some(Inviter(self, to)), None)
    case CreateAwaitHeader(to, keys) =>
      if m.flag != ExchangeHeaders || m.body.Size() != SingleEncryptedSize(HEADER_SIZE) || !m.body.HeaderBody? then Failed(p)
      else
        var header := Open(keys.serverKey, m.body.box);
        if header.None? || !e.ok then Failed(p)
        else Only(p.(phase := CreateSendHeader(to, keys, InviterStreams(keys, header.value, e.header))))
    case ReplyAwaitKey(from, own) =>
      if m.flag != ExchangeKeysDone || m.body.Size() != KEY_SIZE || !m.body.PublicKeyBody? || !e.ok then Failed(p)
      else
        var keys := ServerSessionKeys(own, m.body.key);
        Only(p.(phase := ReplySendHeader(from, keys, StreamState(keys.serverKey, e.header, 0))))
    case ReplyAwaitHeader(from, keys, encryption) =>
      if m.flag != ExchangeHeadersDone || m.body.Size() != SingleEncryptedSize(HEADER_SIZE) || !m.body.HeaderBody? then Failed(p)
      else
        var header := Open(keys.clientKey, m.body.box);
        if header.None? || !e.ok then Failed(p)
        else
          var streams := Streams(StreamState(keys.clientKey, header.value, 0), encryption);
          Effect(Stored(Finished(p).(toUserId := from), from, streams),
                 None, None, Some(Session(Invited(self, from), keys, streams)))
    case _ => Only(p)
  }

  // queueWaitAndPop on the other queue. A wait that ends without a chunk in time ends the exchange.
  function FileAwaited(p: Peer, e: Event): Effect {
    if e.timedOut then Only(FileFinished(p))
    else if p.fileMessages == [] then Only(p)
    else Only(FilePopped(p.(fileMessages := p.fileMessages[1..]), p.fileMessages[0]))
  }

  function FilePopped(p: Peer, m: Message): Peer {
    match p.phase
    case FileAwaitAnswer(to, size) =>
      if m.flag != FileAsk || m.body.Size() != INT_SIZE || m.body != FileReply(size) then FileFinished(p)
      else p.(phase := FileSendChunk(to, 0))
    case FileAwaitChunk(from) =>
      if m.flag != File || !m.body.FileChunk? then p
      else if ChunkOk(p, from, m.body.text) then p
      else p.(phase := Aborted)
    case _ => p
  }

  // The assertions of nextFileChunkReceiver.
  predicate ChunkOk(p: Peer, from: Id, text: Ciphertext) {
    && 0 < |text.plain| <= MaxUnencryptedSize()
    && from in p.conversations && Pull(p.conversations[from].decryption, text).Some?
  }

  // nextFileChunkSupplier and the send of its chunk, or the end of the file. A read yields no
  // more than was asked for.
  function ChunkSent(p: Peer, self: Id, e: Event): Effect
    requires p.phase.FileSendChunk?
  {
    var piece := e.read[..Min(|e.read|, MaxUnencryptedSize())];
    if piece == [] then
      if p.phase.index == 0 then Abort(p) else Only(FileFinished(p))
    else if p.toUserId !in p.conversations then Abort(p)
    else if !e.ok then Only(FileFinished(p))
    else
      var chunk := Ciphertext(p.conversations[p.toUserId].encryption, piece);
      Sent(p.(phase := FileSendChunk(p.phase.to, p.phase.index + 1)),
           Message(File, e.sendTime, self, p.phase.to, FileChunk(chunk)))
  }

  // The first step of the action that has just left the lifecycle queue.
  ghost function Begun(p: Peer, self: Id, action: Action, secret: nat, e: Event): Effect {
    match action
    case StartConversation(id) =>
      if id in p.conversations then Only(p)
      else if p.settingUpConversation || p.exchangingFile then Abort(p)
      else Only(p.(settingUpConversation := true, setupMessages := [], phase := CreateSendInvite(id)))
    case DeleteConversation(id) => Only(Forgotten(p, id))
    case ReplyToInvite(from) => RepliedToInvite(Forgotten(p, from), self, from, secret, e)
    case SendText(text) => SentText(p, self, text, e)
    case ProcessReceived(timestamp, from, received) => Only(Received(p, timestamp, from, received))
    case BeginFileExchange(size) =>
      if p.settingUpConversation || p.exchangingFile then Abort(p)
      else Only(p.(exchangingFile := true, fileMessages := [], phase := FileSendInvite(p.toUserId, size)))
    case ReplyToFileInvite(from, size) => RepliedToFileInvite(p, self, from, size, e)
  }

  // replyToConversationSetUpInvite once the old conversation is gone. An unlisted user
  // gets no reply, and the slot that the listener took for the invite stays taken.
  function RepliedToInvite(p: Peer, self: Id, from: Id, secret: nat, e: Event): Effect {
    if p.users == {} then Abort(p)
    else if from !in p.users then Only(p)
    else if !p.settingUpConversation || p.exchangingFile then Abort(p)
    else if e.timedOut then Failed(p)
    else if !e.accepted then
      Effect(Finished(p),
             if e.ok then Some(Message(ExchangeKeys, e.sendTime, self, from, Denial)) else None,
             None, None)
    else
      Effect(p.(setupMessages := [], phase := ReplySendKey(from, secret)), None, Some(Invited(self, from)), None)
  }

  // replyToFileExchangeRequest and netReplyToFileExchangeInvite up to an accepting reply. An
  // unlisted user gets no reply here either.
  function RepliedToFileInvite(p: Peer, self: Id, from: Id, size: nat, e: Event): Effect {
    if p.users == {} then Abort(p)
    else if from !in p.users then Only(p)
    else if p.settingUpConversation || !p.exchangingFile then Abort(p)
    else if e.timedOut then Only(FileFinished(p))
    else if !e.accepted then
      Effect(FileFinished(p),
             if e.ok then Some(Message(FileAsk, e.sendTime, self, from, FileReply(0))) else None,
             None, None)
    else Only(p.(fileMessages := [], phase := FileSendReply(from, size)))
  }

  // sendMessage
  function SentText(p: Peer, self: Id, text: seq<byte>, e: Event): Effect {
    var key := RowKey(e.rowTime, self, p.toUserId);
    if text == [] || |text| > MaxTextSize() || !CanAddRow(p, key) then Abort(p)
    else
      var padded := Padded(text, PADDING_BLOCK);
      if EncryptedSize(|padded|) > MAX_BODY_SIZE then Abort(p.(rows := p.rows[key := text]))
      else
        var sealed := Ciphertext(p.conversations[p.toUserId].encryption, padded);
        Effect(p.(rows := p.rows[key := text]),
               if e.ok then Some(Message(Proceed, e.sendTime, self, p.toUserId, TextBody(sealed))) else None,
               None, None)
  }

  // processReceivedMessage
  ghost function Received(p: Peer, timestamp: nat, from: Id, received: Ciphertext): Peer {
    var key := RowKey(timestamp, from, from);
    if p.users == {} then p.(phase := Aborted)
    else if from !in p.users then p
    else if !(0 < |received.plain| <= MaxUnencryptedSize()) then p.(phase := Aborted)
    else if from !in p.conversations then p
    else
      var padded := Pull(p.conversations[from].decryption, received);
      if padded.None? || |padded.value| % PADDING_BLOCK != 0 then p.(phase := Aborted)
      else
        var text := Unpad(padded.value, PADDING_BLOCK);
        if text.None? || text.value == [] || !CanAddRow(p, key) then p.(phase := Aborted)
        else p.(rows := p.rows[key := text.value])
  }
}
