/** The client itself: the singletons of src/net.c, src/logic.c and src/database/database.c as one
    object over the queues and the list of src/collections. Its methods are the stretches of code
    between two waits, and each is proved to be the step of the state machine in Protocol. */
module Client {
  import opened Prelude
  import opened Padding
  import opened Crypto
  import opened Protocol
  import opened Effects
  import opened Queue
  import opened List
  import Users

  function Ids(users: seq<Users.User>): set<Id> {
    set user | user in users :: user.id
  }

  // The conversation is gone with its messages.
  predicate Gone(p: Peer, id: Id) {
    id !in p.conversations && forall k :: k in p.rows ==> k.conversation != id
  }

  class Client {
    const self: Id
    var settingUpConversation: bool
    var exchangingFile: bool
    const setupMessages: Queue<Message>
    const fileMessages: Queue<Message>
    const actions: Queue<Action>
    var phase: Phase
    const usersList: List<Users.User>
    var toUserId: Id
    var conversations: map<Id, Streams>
    var rows: map<RowKey, seq<byte>>

    constructor (self: Id)
      ensures this.self == self && Valid()
      ensures fresh(setupMessages) && fresh(fileMessages) && fresh(actions) && fresh(usersList)
      ensures Value() == Peer(false, false, [], [], [], Free, {}, 0, map[], map[])
    {
      this.self := self;
      settingUpConversation, exchangingFile := false, false;
      setupMessages := new Queue();
      fileMessages := new Queue();
      actions := new Queue();
      usersList := new List();
      phase, toUserId := Free, 0;
      conversations, rows := map[], map[];
    }

    ghost predicate Valid()
      reads this, setupMessages, fileMessages, actions, usersList, usersList.values
    {
      && setupMessages.Valid() && fileMessages.Valid() && actions.Valid() && setupMessages != fileMessages
      && usersList.Valid() && Users.Ascending(Users.UserIds(usersList.Contents()))
    }

    ghost function Value(): Peer
      reads this, setupMessages, fileMessages, actions, usersList
      reads setupMessages.values, fileMessages.values, actions.values, usersList.values
      requires Valid()
    {
      Peer(settingUpConversation, exchangingFile, setupMessages.Contents(), fileMessages.Contents(),
           actions.Contents(), phase, Ids(usersList.Contents()), toUserId, conversations, rows)
    }

    // -------- The listening thread --------

    // processConversationSetUpMessage: an invite is heard only while the slot is free.
    method ProcessConversationSetUpMessage(m: Message)
      requires Valid() && !Value().phase.Aborted? && m.flag == ExchangeKeys && m.body.Size() == INVITE_ASK
      modifies this, actions
      ensures Valid() && Value() == Listened(old(Value()), m)
    {
      if settingUpConversation || exchangingFile {
        return;
      }
      settingUpConversation := true;
      actions.Push(ReplyToInvite(m.from));
    }

    // processFileExchangeRequestMessage: so is the offer of a file.
    method ProcessFileExchangeRequestMessage(m: Message)
      requires Valid() && !Value().phase.Aborted? && m.flag == FileAsk && m.body.Size() == FILE_INVITE_SIZE
      modifies this, actions
      ensures Valid() && Value() == Listened(old(Value()), m)
    {
      if settingUpConversation || exchangingFile {
        return;
      }
      if !m.body.FileInvite? || m.body.fileSize == 0 {
        phase := Aborted;
        return;
      }
      exchangingFile := true;
      actions.Push(ReplyToFileInvite(m.from, m.body.fileSize));
    }

    method QueueForSetUp(m: Message)
      requires Valid()
      modifies setupMessages
      ensures Valid() && Value() == Queued(old(Value()), m)
    {
      setupMessages.Push(m);
    }

    method QueueForFile(m: Message)
      requires Valid()
      modifies fileMessages
      ensures Valid() && Value() == old(Value()).(fileMessages := old(Value()).fileMessages + [m])
    {
      fileMessages.Push(m);
    }

    // onMessageReceived
    method OnMessageReceived(m: Message)
      requires Valid() && m.body.TextBody?
      modifies actions
      ensures Valid()
      ensures Value() == old(Value()).(
                actions := old(Value()).actions + [ProcessReceived(m.timestamp, m.from, m.body.text)])
    {
      actions.Push(ProcessReceived(m.timestamp, m.from, m.body.text));
    }

    // processMessage. Every message joins the queue that it belongs to, and an invite or an offer is heard
    // only while both slots are free.
    method ProcessMessage(m: Message)
      requires Valid() && !Value().phase.Aborted?
      modifies this, setupMessages, fileMessages, actions
      ensures Valid() && Value() == Listened(old(Value()), m)
      ensures HeardWell(old(Value()), Value(), m)
    {
      HearingMeans(Value(), m);
      hide Value, Valid, HeardWell;
      match m.flag {
        case ExchangeKeys =>
          if m.body.Size() == INVITE_ASK {
            ProcessConversationSetUpMessage(m);
          } else {
            QueueForSetUp(m);
          }
        case FileAsk =>
          if m.body.Size() == FILE_INVITE_SIZE {
            ProcessFileExchangeRequestMessage(m);
          } else {
            QueueForFile(m);
          }
        case File =>
          QueueForFile(m);
        case Proceed =>
          if m.body.TextBody? {
            OnMessageReceived(m);
          }
        case _ =>
          QueueForSetUp(m);
      }
    }

    // -------- Parts of the blocking operations --------

    // finishSettingUpConversation
    method FinishSettingUpConversation()
      requires Valid()
      modifies this, setupMessages
      ensures Valid() && Value() == Finished(old(Value()))
    {
      setupMessages.Clear();
      settingUpConversation := false;
      phase := Free;
    }

    // finishFileExchanging
    method FinishFileExchanging()
      requires Valid()
      modifies this, fileMessages
      ensures Valid() && Value() == FileFinished(old(Value()))
    {
      fileMessages.Clear();
      exchangingFile := false;
      phase := Free;
    }

    // The action thread goes on to its next send or wait.
    method Enter(next: Phase)
      requires Valid()
      modifies this`phase
      ensures Valid() && Value() == old(Value()).(phase := next)
    {
      phase := next;
    }

    method ClearSetupMessages()
      requires Valid()
      modifies setupMessages
      ensures Valid() && Value() == old(Value()).(setupMessages := [])
    {
      setupMessages.Clear();
    }

    method ClearFileMessages()
      requires Valid()
      modifies fileMessages
      ensures Valid() && Value() == old(Value()).(fileMessages := [])
    {
      fileMessages.Clear();
    }

    // One poll of queueWaitAndPop: nothing when the deadline has passed, and waiting on when nothing has come.
    method Poll(queue: Queue<Message>, e: Event) returns (m: Option<Message>, waiting: bool)
      requires queue.Valid()
      modifies queue
      ensures queue.Valid() && (waiting <==> !e.timedOut && old(queue.Contents()) == [])
      ensures m == if e.timedOut || waiting then None else Some(old(queue.Contents())[0])
      ensures queue.Contents() == if m.Some? then old(queue.Contents())[1..] else old(queue.Contents())
    {
      m, waiting := None, false;
      if e.timedOut {
        return;
      }
      if queue.size == 0 {
        waiting := true;
      } else {
        ghost var all := queue.Contents();
        var popped := queue.Pop();
        assert all == [popped] + queue.Contents();
        m := Some(popped);
      }
    }

    method PollSetup(e: Event) returns (m: Option<Message>, waiting: bool)
      requires Valid()
      modifies setupMessages
      ensures Valid()
      ensures var all := old(Value()).setupMessages;
        && (waiting <==> !e.timedOut && all == [])
        && m == (if e.timedOut || waiting then None else Some(all[0]))
        && Value() == if m.Some? then old(Value()).(setupMessages := all[1..]) else old(Value())
    {
      m, waiting := Poll(setupMessages, e);
    }

    method PollFile(e: Event) returns (m: Option<Message>, waiting: bool)
      requires Valid()
      modifies fileMessages
      ensures Valid()
      ensures var all := old(Value()).fileMessages;
        && (waiting <==> !e.timedOut && all == [])
        && m == (if e.timedOut || waiting then None else Some(all[0]))
        && Value() == if m.Some? then old(Value()).(fileMessages := all[1..]) else old(Value())
    {
      m, waiting := Poll(fileMessages, e);
    }

    // findUser: none when the list is empty, which the source asserts it is not.
    method IsListed(id: Id) returns (listed: Option<bool>)
      requires Valid()
      ensures listed == if Value().users == {} then None else Some(id in Value().users)
    {
      ghost var users := usersList.Contents();
      if usersList.size == 0 {
        assert users == [];
        return None;
      }
      assert users[0] in users && users[0].id in Ids(users);
      var user := Users.FindIn(usersList, id);
      Users.LookupFinds(users, id);
      listed := Some(user.Some?);
    }

    // -------- The conversation store --------

    // databaseAddConversation: a conversation that exists is not replaced.
    method AddConversation(id: Id, streams: Streams)
      requires Valid()
      modifies this
      ensures Valid() && Value() == Stored(old(Value()), id, streams)
      ensures var store, before := Value().conversations, old(Value()).conversations;
        && id in store && (Value().phase == if id in before then Aborted else old(Value()).phase)
        && (forall c :: c in before ==> c in store && store[c] == before[c])
        && (forall c :: c in store && c !in before ==> c == id && store[c] == streams)
    {
      if id in conversations {
        phase := Aborted;
      } else {
        conversations := conversations[id := streams];
      }
    }

    // The same for callers that know no more than the step.
    method StoreConversation(id: Id, streams: Streams)
      requires Valid()
      modifies this
      ensures Valid() && Value() == Stored(old(Value()), id, streams)
    {
      AddConversation(id, streams);
    }

    // databaseRemoveConversation and databaseRemoveMessages: the conversation goes with its messages
    // and takes nothing else along.
    method RemoveConversation(id: Id)
      requires Valid()
      modifies this
      ensures Valid() && Value() == Forgotten(old(Value()), id)
      ensures var p, q := old(Value()), Value();
        && Gone(q, id)
        && (forall c :: c in p.conversations && c != id ==> c in q.conversations && q.conversations[c] == p.conversations[c])
        && (forall k :: k in p.rows && k.conversation != id ==> k in q.rows && q.rows[k] == p.rows[k])
        && q.conversations.Keys <= p.conversations.Keys && q.rows.Keys <= p.rows.Keys
    {
      conversations := conversations - {id};
      rows := map k | k in rows && k.conversation != id :: rows[k];
    }

    method StoreAndTurnTo(id: Id, streams: Streams)
      requires Valid()
      modifies this
      ensures Valid() && Value() == Stored(old(Value()).(toUserId := id), id, streams)
    {
      toUserId := id;
      StoreConversation(id, streams);
    }

    // -------- Conversation set-ups --------

    static method AnsweredKeys(m: Message, secret: nat, ok: bool) returns (keys: Option<Keys>)
      ensures keys == KeysIn(m, secret, ok)
    {
      if m.flag != ExchangeKeys || m.body.Size() != KEY_SIZE || !m.body.PublicKeyBody? || !ok {
        return None;
      }
      var cryptoKeys := new CryptoKeys();
      cryptoKeys.ExchangeKeys(secret, m.body.key);
      keys := Some(cryptoKeys.Value());
    }

    // netCreateConversation from its first wait to its second send
    method TakeKey(secret: nat, e: Event) returns (drawn: Option<Origin>)
      requires Valid() && phase.CreateAwaitKey?
      modifies this, setupMessages
      ensures Valid() && Effect(Value(), None, drawn, None) == Awaited(old(Value()), self, secret, e)
    {
      drawn := None;
      var at := phase;
      assert Value().phase == at;
      NothingTaken(Value(), self, secret, e);
      if !e.timedOut && setupMessages.size > 0 {
        KeyTaken(Value(), self, secret, e);
      }
      hide Value, Valid, Ids, Awaited, KeysIn;
      var m, waiting := PollSetup(e);
      if waiting {
        return;
      }
      if m.None? {
        FinishSettingUpConversation();
        return;
      }
      var keys := AnsweredKeys(m.value, secret, e.ok);
      if keys.None? {
        FinishSettingUpConversation();
      } else {
        drawn := Some(Inviter(self, at.to));
        Enter(CreateSendKey(at.to, keys.value));
      }
    }

    static method AnsweredStreams(m: Message, keys: Keys, header: nat, ok: bool) returns (streams: Option<Streams>)
      ensures streams == StreamsIn(m, keys, header, ok)
    {
      if m.flag != ExchangeHeaders || m.body.Size() != SingleEncryptedSize(HEADER_SIZE) || !m.body.HeaderBody? {
        return None;
      }
      var serverHeader := Open(keys.serverKey, m.body.box);
      if serverHeader.None? || !ok {
        return None;
      }
      var coderStreams := new CoderStreams();
      var _ := coderStreams.InitializeCoderStreams(keys, serverHeader.value, header);
      streams := Some(coderStreams.Value());
    }

    // netCreateConversation from its second wait to its last send
    method TakeHeader(secret: nat, e: Event)
      requires Valid() && phase.CreateAwaitHeader?
      modifies this, setupMessages
      ensures Valid() && Only(Value()) == Awaited(old(Value()), self, secret, e)
    {
      var at := phase;
      assert Value().phase == at;
      NothingTaken(Value(), self, secret, e);
      if !e.timedOut && setupMessages.size > 0 {
        HeaderTaken(Value(), self, secret, e);
      }
      hide Value, Valid, Ids, Awaited, StreamsIn;
      var m, waiting := PollSetup(e);
      if waiting {
        return;
      }
      if m.None? {
        FinishSettingUpConversation();
        return;
      }
      var streams := AnsweredStreams(m.value, at.keys, e.header, e.ok);
      if streams.None? {
        FinishSettingUpConversation();
      } else {
        Enter(CreateSendHeader(at.to, at.keys, streams.value));
      }
    }

    static method KeysAndEncoder(m: Message, own: nat, header: nat, ok: bool) returns (made: Option<(Keys, StreamState)>)
      ensures made == EncoderIn(m, own, header, ok)
    {
      if m.flag != ExchangeKeysDone || m.body.Size() != KEY_SIZE || !m.body.PublicKeyBody? || !ok {
        return None;
      }
      var cryptoKeys := new CryptoKeys();
      var _ := cryptoKeys.GenerateKeyPairAsServer(own);
      cryptoKeys.ExchangeKeysAsServer(m.body.key);
      var streams := new CoderStreams();
      var _ := streams.CreateEncoderAsServer(cryptoKeys.Value(), header);
      made := Some((cryptoKeys.Value(), streams.clientEncryptionState));
    }

    // netReplyToConversationSetUpInvite from its first wait to its second send
    method TakeAnswer(secret: nat, e: Event)
      requires Valid() && phase.ReplyAwaitKey?
      modifies this, setupMessages
      ensures Valid() && Only(Value()) == Awaited(old(Value()), self, secret, e)
    {
      var at := phase;
      assert Value().phase == at;
      NothingTaken(Value(), self, secret, e);
      if !e.timedOut && setupMessages.size > 0 {
        AnswerTaken(Value(), self, secret, e);
      }
      hide Value, Valid, Ids, Awaited, EncoderIn;
      var m, waiting := PollSetup(e);
      if waiting {
        return;
      }
      if m.None? {
        FinishSettingUpConversation();
        return;
      }
      var made := KeysAndEncoder(m.value, at.secret, e.header, e.ok);
      if made.None? {
        FinishSettingUpConversation();
      } else {
        Enter(ReplySendHeader(at.from, made.value.0, made.value.1));
      }
    }

    static method CompletedStreams(m: Message, keys: Keys, encryption: StreamState, ok: bool) returns (streams: Option<Streams>)
      ensures streams == CompletedIn(m, keys, encryption, ok)
    {
      if m.flag != ExchangeHeadersDone || m.body.Size() != SingleEncryptedSize(HEADER_SIZE) || !m.body.HeaderBody? {
        return None;
      }
      var header := Open(keys.clientKey, m.body.box);
      if header.None? || !ok {
        return None;
      }
      var coderStreams := new CoderStreams();
      coderStreams.clientEncryptionState := encryption;
      coderStreams.CreateDecoderStreamAsServer(keys, header.value);
      streams := Some(coderStreams.Value());
    }

    // netReplyToConversationSetUpInvite from its second wait to the stored conversation
    method TakeLastHeader(secret: nat, e: Event) returns (built: Option<Session>)
      requires Valid() && phase.ReplyAwaitHeader?
      modifies this, setupMessages
      ensures Valid() && Effect(Value(), None, None, built) == Awaited(old(Value()), self, secret, e)
    {
      built := None;
      var at := phase;
      assert Value().phase == at;
      NothingTaken(Value(), self, secret, e);
      if !e.timedOut && setupMessages.size > 0 {
        LastHeaderTaken(Value(), self, secret, e);
      }
      hide Value, Valid, Ids, Awaited, CompletedIn, Stored;
      var m, waiting := PollSetup(e);
      if waiting {
        return;
      }
      if m.None? {
        FinishSettingUpConversation();
        return;
      }
      var streams := CompletedStreams(m.value, at.keys, at.encryption, e.ok);
      FinishSettingUpConversation();
      if streams.Some? {
        StoreAndTurnTo(at.from, streams.value);
        built := Some(Session(Invited(self, at.from), at.keys, streams.value));
      }
    }

    // The sends between the waits, up to the next one. What is sent goes to the partner; a failed
    // send gives the slot back; streams that are returned are the ones that are stored.
    method SendAndWait(secret: nat, e: Event) returns (sent: Option<Message>, built: Option<Session>)
      requires Valid()
      requires phase.CreateSendInvite? || phase.CreateSendKey? || phase.CreateSendHeader?
            || phase.ReplySendKey? || phase.ReplySendHeader?
      modifies this, setupMessages
      ensures Valid() && Effect(Value(), sent, None, built) == Acted(old(Value()), self, secret, e)
      ensures SentWell(old(Value()), self, e, Effect(Value(), sent, None, built))
    {
      SendingMeans(Value(), self, secret, e);
      assert Value().phase == phase;
      hide Value, Valid, Acted, SentWell;
      sent, built := SendOrFinish(secret, e);
    }

    method SendOrFinish(secret: nat, e: Event) returns (sent: Option<Message>, built: Option<Session>)
      requires Valid()
      requires phase.CreateSendInvite? || phase.CreateSendKey? || phase.CreateSendHeader?
            || phase.ReplySendKey? || phase.ReplySendHeader?
      modifies this, setupMessages
      ensures Valid() && Effect(Value(), sent, None, built) == Acted(old(Value()), self, secret, e)
    {
      sent, built := None, None;
      var at := phase;
      assert Value().phase == at;
      hide Value, Valid, Ids, Begun, Awaited, FileAwaited, ChunkSent;
      if !e.ok {
        FinishSettingUpConversation();
        return;
      }
      match at {
        case CreateSendInvite(to) =>
          sent := Some(Message(ExchangeKeys, e.sendTime, self, to, Invite));
          Enter(CreateAwaitKey(to));
        case CreateSendKey(to, keys) =>
          sent := Some(Message(ExchangeKeysDone, e.sendTime, self, to, PublicKeyBody(keys.clientKey.client)));
          Enter(CreateAwaitHeader(to, keys));
        case CreateSendHeader(to, keys, streams) =>
          sent := Some(Message(ExchangeHeadersDone, e.sendTime, self, to,
                               HeaderBody(SealedHeader(keys.clientKey, streams.encryption.header))));
          FinishSettingUpConversation();
          built := Some(Session(Inviter(self, to), keys, streams));
          StoreConversation(to, streams);
        case ReplySendKey(from, own) =>
          sent := Some(Message(ExchangeKeys, e.sendTime, self, from, PublicKeyBody(Pub(own))));
          Enter(ReplyAwaitKey(from, own));
        case ReplySendHeader(from, keys, encryption) =>
          sent := Some(Message(ExchangeHeaders, e.sendTime, self, from,
                               HeaderBody(SealedHeader(keys.serverKey, encryption.header))));
          Enter(ReplyAwaitHeader(from, keys, encryption));
      }
    }

    // replyToConversationSetUpInvite, into netReplyToConversationSetUpInvite up to its first send. The
    // old conversation is gone in every case. Only a listed user is answered, and the slot is given
    // back exactly with an answer that is late or a denial.
    method ReplyToConversationSetUpInvite(from: Id, secret: nat, e: Event)
      returns (sent: Option<Message>, drawn: Option<Origin>)
      requires Valid() && Value().phase.Free?
      modifies this, setupMessages
      ensures Valid()
      ensures Effect(Value(), sent, drawn, None) == RepliedToInvite(Forgotten(old(Value()), from), self, from, secret, e)
      ensures var p, q := old(Value()), Value();
        && Gone(q, from)
        && (sent == Some(Message(ExchangeKeys, e.sendTime, self, from, Denial)) <==>
              from in p.users && p.settingUpConversation && !p.exchangingFile && !e.timedOut && !e.accepted && e.ok)
        && (sent.Some? ==> sent == Some(Message(ExchangeKeys, e.sendTime, self, from, Denial)))
        && (q.phase == ReplySendKey(from, secret) <==>
              from in p.users && p.settingUpConversation && !p.exchangingFile && !e.timedOut && e.accepted)
        && (drawn == Some(Invited(self, from)) <==> q.phase == ReplySendKey(from, secret))
        && (drawn.Some? ==> q.settingUpConversation && q.setupMessages == [])
        && (q.phase.Free? && p.settingUpConversation ==> (q.settingUpConversation <==> from !in p.users))
    {
      RemoveConversation(from);
      AnsweringMeans(Value(), self, from, secret, e);
      sent, drawn := AnswerInvite(from, secret, e);
      hide Value, Valid, RepliedToInvite;
    }

    method AnswerInvite(from: Id, secret: nat, e: Event) returns (sent: Option<Message>, drawn: Option<Origin>)
      requires Valid() && Value().phase.Free?
      modifies this, setupMessages
      ensures Valid()
      ensures Effect(Value(), sent, drawn, None) == RepliedToInvite(old(Value()), self, from, secret, e)
    {
      sent, drawn := None, None;
      var listed := IsListed(from);
      var setting, exchanging := settingUpConversation, exchangingFile;
      assert setting == Value().settingUpConversation && exchanging == Value().exchangingFile;
      hide Value, Valid, Ids;
      if listed.None? {
        Enter(Aborted);
        return;
      }
      if !listed.value {
        return;
      }
      if !setting || exchanging {
        Enter(Aborted);
        return;
      }
      ClearSetupMessages();
      if e.timedOut {
        FinishSettingUpConversation();
        return;
      }
      if !e.accepted {
        FinishSettingUpConversation();
        sent := if e.ok then Some(Message(ExchangeKeys, e.sendTime, self, from, Denial)) else None;
        return;
      }
      drawn := Some(Invited(self, from));
      Enter(ReplySendKey(from, secret));
    }

    // -------- Text messages --------

    // A text as it is sent: padded and encrypted with streams loaded for it, if it fits.
    static method SealText(streams: Streams, text: seq<byte>) returns (sealed: Option<Ciphertext>)
      requires text != []
      ensures sealed == SealedIn(streams, text)
    {
      var padded := AddPadding(text, PADDING_BLOCK);
      if EncryptedSize(|padded|) > MAX_BODY_SIZE {
        return None;
      }
      assert padded != [];
      var coderStreams := new CoderStreams.FromStates(streams);
      var text := coderStreams.Encrypt(padded);
      sealed := Some(text);
    }

    // databaseAddMessage, once its key has been found new
    method AddMessage(key: RowKey, text: seq<byte>)
      requires Valid()
      modifies this`rows
      ensures Valid() && Value() == WithRow(old(Value()), key, text)
    {
      rows := rows[key := text];
    }

    // sendMessage
    method SendMessage(text: seq<byte>, e: Event) returns (sent: Option<Message>)
      requires Valid()
      modifies this
      ensures Valid() && Effect(Value(), sent, None, None) == SentText(old(Value()), self, text, e)
    {
      sent := None;
      ghost var p := Value();
      var key := RowKey(e.rowTime, self, toUserId);
      var partner, store := toUserId, conversations;
      var sendable := text != [] && |text| <= MaxTextSize() && partner in store && key !in rows;
      assert sendable == Sendable(p, self, text, e) && partner == p.toUserId && store == p.conversations;
      assert sendable ==> partner in store;
      hide Value, Valid, Ids, SentText, SealedIn, Sendable, MaxTextSize, WithRow;
      if !sendable {
        NotSendable(p, self, text, e);
        Enter(Aborted);
        return;
      }
      SentTextIs(p, self, text, e);
      AddMessage(key, text);
      var sealed := SealText(store[partner], text);
      if sealed.None? {
        Enter(Aborted);
      } else {
        sent := if e.ok then Some(Message(Proceed, e.sendTime, self, partner, TextBody(sealed.value))) else None;
      }
    }

    // A text as it has been received, decrypted with streams loaded for it.
    static method OpenText(streams: Streams, received: Ciphertext) returns (text: Option<seq<byte>>)
      requires received.plain != []
      ensures text == OpenedIn(streams, received)
    {
      var coderStreams := new CoderStreams.FromStates(streams);
      var padded := coderStreams.Decrypt(received);
      if padded.None? || |padded.value| % PADDING_BLOCK != 0 {
        return None;
      }
      text := RemovePadding(padded.value, PADDING_BLOCK);
    }

    // processReceivedMessage from the decryption on
    method ReceiveText(timestamp: nat, from: Id, received: Ciphertext)
      requires Valid()
      requires from in Value().users && 0 < |received.plain| <= MaxUnencryptedSize() && from in Value().conversations
      modifies this
      ensures Valid() && Value() == Received(old(Value()), timestamp, from, received)
    {
      ReceivedIs(Value(), timestamp, from, received);
      var store, messages := conversations, rows;
      assert store == Value().conversations && messages == Value().rows;
      hide Value, Valid, Ids, Received, OpenedIn, MaxUnencryptedSize, WithRow;
      var text := OpenText(store[from], received);
      var key := RowKey(timestamp, from, from);
      if text.None? || text.value == [] || key in messages {
        Enter(Aborted);
      } else {
        AddMessage(key, text.value);
      }
    }

    // processReceivedMessage
    method ProcessReceivedMessage(timestamp: nat, from: Id, received: Ciphertext)
      requires Valid()
      modifies this
      ensures Valid() && Value() == Received(old(Value()), timestamp, from, received)
    {
      var listed := IsListed(from);
      hide Ids, Received, OpenedIn, MaxUnencryptedSize, WithRow;
      if listed == Some(true) && 0 < |received.plain| <= MaxUnencryptedSize() && from in conversations {
        ReceiveText(timestamp, from, received);
        return;
      }
      NotReceived(Value(), timestamp, from, received);
      if listed.None? || (listed.value && !(0 < |received.plain| <= MaxUnencryptedSize())) {
        Enter(Aborted);
      }
    }

    // -------- File exchanges --------

    // replyToFileExchangeRequest, into netReplyToFileExchangeInvite up to an accepting reply
    method ReplyToFileExchangeRequest(from: Id, fileSize: nat, e: Event) returns (sent: Option<Message>)
      requires Valid() && Value().phase.Free?
      modifies this, fileMessages
      ensures Valid()
      ensures Effect(Value(), sent, None, None) == RepliedToFileInvite(old(Value()), self, from, fileSize, e)
      ensures OfferAnsweredWell(old(Value()), self, from, fileSize, e, Effect(Value(), sent, None, None))
    {
      AnsweringOfferMeans(Value(), self, from, fileSize, e);
      hide OfferAnsweredWell;
      sent := None;
      var listed := IsListed(from);
      var setting, exchanging := settingUpConversation, exchangingFile;
      assert setting == Value().settingUpConversation && exchanging == Value().exchangingFile;
      hide Value, Valid, Ids;
      if listed.None? {
        Enter(Aborted);
        return;
      }
      if !listed.value {
        return;
      }
      if setting || !exchanging {
        Enter(Aborted);
        return;
      }
      ClearFileMessages();
      if e.timedOut {
        FinishFileExchanging();
        return;
      }
      if !e.accepted {
        FinishFileExchanging();
        sent := if e.ok then Some(Message(FileAsk, e.sendTime, self, from, FileReply(0))) else None;
        return;
      }
      Enter(FileSendReply(from, fileSize));
    }

    // The invite of netBeginFileExchange or the reply of netReplyToFileExchangeInvite
    method SendFileAsk(secret: nat, e: Event) returns (sent: Option<Message>)
      requires Valid() && (phase.FileSendInvite? || phase.FileSendReply?)
      modifies this, fileMessages
      ensures Valid() && Effect(Value(), sent, None, None) == Acted(old(Value()), self, secret, e)
    {
      sent := None;
      var at := phase;
      assert Value().phase == at;
      FileAskIs(Value(), self, secret, e);
      hide Value, Valid, Ids, Acted;
      if !e.ok {
        FinishFileExchanging();
        return;
      }
      match at {
        case FileSendInvite(to, size) =>
          sent := Some(Message(FileAsk, e.sendTime, self, to, FileInvite(size)));
          Enter(FileAwaitAnswer(to, size));
        case FileSendReply(from, size) =>
          sent := Some(Message(FileAsk, e.sendTime, self, from, FileReply(size)));
          Enter(FileAwaitChunk(from));
      }
    }

    // netBeginFileExchange's wait
    method TakeFileAnswer(e: Event)
      requires Valid() && phase.FileAwaitAnswer?
      modifies this, fileMessages
      ensures Valid() && Only(Value()) == FileAwaited(old(Value()), e)
    {
      var at := phase;
      assert Value().phase == at;
      NoFileTaken(Value(), e);
      if !e.timedOut && fileMessages.size > 0 {
        FileAnswerTaken(Value(), e);
      }
      hide Value, Valid, Ids, FileAwaited;
      var m, waiting := PollFile(e);
      if waiting {
        return;
      }
      if m.None? || m.value.flag != FileAsk || m.value.body.Size() != INT_SIZE || m.value.body != FileReply(at.fileSize) {
        FinishFileExchanging();
      } else {
        Enter(FileSendChunk(at.to, 0));
      }
    }

    // One turn of netReplyToFileExchangeInvite's loop
    method TakeFileMessage(e: Event)
      requires Valid() && phase.FileAwaitChunk?
      modifies this, fileMessages
      ensures Valid() && Only(Value()) == FileAwaited(old(Value()), e)
    {
      var at := phase;
      assert Value().phase == at;
      NoFileTaken(Value(), e);
      if !e.timedOut && fileMessages.size > 0 {
        FileMessageTaken(Value(), e);
      }
      hide Value, Valid, Ids, FileAwaited, ChunkOk;
      var m, waiting := PollFile(e);
      if waiting {
        return;
      }
      if m.None? {
        FinishFileExchanging();
        return;
      }
      if m.value.flag == File && m.value.body.FileChunk? {
        ReceiveChunk(at.from, m.value.body.text);
      }
    }

    // nextFileChunkReceiver, apart from what it does with the file
    method TakeChunk(from: Id, text: Ciphertext) returns (ok: bool)
      requires Valid()
      ensures ok <==> ChunkOk(Value(), from, text)
    {
      if !(0 < |text.plain| <= MaxUnencryptedSize()) || from !in conversations {
        return false;
      }
      var streams := new CoderStreams.FromStates(conversations[from]);
      var piece := streams.Decrypt(text);
      ok := piece.Some?;
    }

    method ReceiveChunk(from: Id, text: Ciphertext)
      requires Valid()
      modifies this
      ensures Valid()
      ensures var p := old(Value()); Value() == if ChunkOk(p, from, text) then p else p.(phase := Aborted)
    {
      var ok := TakeChunk(from, text);
      if !ok {
        Enter(Aborted);
      }
    }

    // nextFileChunkSupplier and the send of its chunk
    method SendChunk(e: Event) returns (sent: Option<Message>)
      requires Valid() && phase.FileSendChunk?
      modifies this, fileMessages
      ensures Valid() && Effect(Value(), sent, None, None) == ChunkSent(old(Value()), self, e)
    {
      sent := None;
      var at, store, partner := phase, conversations, toUserId;
      assert at == Value().phase && store == Value().conversations && partner == Value().toUserId;
      hide Value, Valid, Ids, Begun, Awaited, FileAwaited;
      var piece := e.read[..Min(|e.read|, MaxUnencryptedSize())];
      if piece == [] {
        if at.index == 0 {
          Enter(Aborted);
        } else {
          FinishFileExchanging();
        }
        return;
      }
      if partner !in store {
        Enter(Aborted);
        return;
      }
      var streams := new CoderStreams.FromStates(store[partner]);
      var sealed := streams.Encrypt(piece);
      if !e.ok {
        FinishFileExchanging();
        return;
      }
      sent := Some(Message(File, e.sendTime, self, at.to, FileChunk(sealed)));
      Enter(FileSendChunk(at.to, at.index + 1));
    }

    // -------- The action thread --------

    method NextAction() returns (action: Action)
      requires Valid() && actions.size > 0
      modifies actions
      ensures Valid() && [action] + Value().actions == old(Value()).actions
      ensures Value() == old(Value()).(actions := old(Value()).actions[1..])
    {
      ghost var all := actions.Contents();
      action := actions.Pop();
      assert all == [action] + actions.Contents() && actions.Contents() == all[1..];
    }

    // deleteConversation
    method ForgetConversation(id: Id)
      requires Valid()
      modifies this
      ensures Valid() && Value() == Forgotten(old(Value()), id)
    {
      RemoveConversation(id);
    }

    // startConversation, into netCreateConversation up to its first send
    method StartConversation(id: Id)
      requires Valid()
      modifies this, setupMessages
      ensures Valid()
      ensures Value() == Started(old(Value()), id)
    {
      if id in conversations {
        return;
      }
      if settingUpConversation || exchangingFile {
        phase := Aborted;
        return;
      }
      setupMessages.Clear();
      settingUpConversation, phase := true, CreateSendInvite(id);
    }

    // beginFileExchange, into netBeginFileExchange up to its first send
    method BeginFileExchange(fileSize: nat)
      requires Valid()
      modifies this, fileMessages
      ensures Valid()
      ensures Value() == FileBegun(old(Value()), fileSize)
    {
      if settingUpConversation || exchangingFile {
        phase := Aborted;
        return;
      }
      fileMessages.Clear();
      exchangingFile, phase := true, FileSendInvite(toUserId, fileSize);
    }

    // The lifecycle queue's oldest action, and no other, up to its first wait or its end.
    method Begin(secret: nat, e: Event) returns (sent: Option<Message>, drawn: Option<Origin>)
      requires Valid() && phase.Free? && actions.size > 0
      modifies this, setupMessages, fileMessages, actions
      ensures Valid()
      ensures var p := old(Value());
        Effect(Value(), sent, drawn, None) == Begun(p.(actions := p.actions[1..]), self, p.actions[0], secret, e)
    {
      sent, drawn := None, None;
      assert Value().phase.Free? && Value().actions != [];
      var action := NextAction();
      BegunIs(Value(), self, action, secret, e);
      hide Value, Valid, Ids, Begun, Started, FileBegun, Received, SentText, RepliedToInvite, RepliedToFileInvite, Forgotten, Gone;
      match action {
        case StartConversation(id) => StartConversation(id);
        case DeleteConversation(id) => ForgetConversation(id);
        case ReplyToInvite(from) => sent, drawn := ReplyToConversationSetUpInvite(from, secret, e);
        case SendText(text) => sent := SendMessage(text, e);
        case ProcessReceived(timestamp, from, received) => ProcessReceivedMessage(timestamp, from, received);
        case BeginFileExchange(size) => BeginFileExchange(size);
        case ReplyToFileInvite(from, size) => sent := ReplyToFileExchangeRequest(from, size, e);
      }
    }

    // One stretch of the action thread, wherever it stands.
    method Act(secret: nat, e: Event) returns (sent: Option<Message>, drawn: Option<Origin>, built: Option<Session>)
      requires Valid()
      modifies this, setupMessages, fileMessages, actions
      ensures Valid() && Effect(Value(), sent, drawn, built) == Acted(old(Value()), self, secret, e)
    {
      sent, drawn, built := None, None, None;
      assert Value().phase == phase && (Value().actions == [] <==> actions.size == 0);
      hide Value, Valid, Ids, Begun, Awaited, FileAwaited, ChunkSent;
      match phase {
        case Free => if actions.size > 0 { sent, drawn := Begin(secret, e); }
        case CreateAwaitKey(_) => drawn := TakeKey(secret, e);
        case CreateAwaitHeader(_, _) => TakeHeader(secret, e);
        case ReplyAwaitKey(_, _) => TakeAnswer(secret, e);
        case ReplyAwaitHeader(_, _, _) => built := TakeLastHeader(secret, e);
        case FileSendInvite(_, _) => sent := SendFileAsk(secret, e);
        case FileSendReply(_, _) => sent := SendFileAsk(secret, e);
        case FileAwaitAnswer(_, _) => TakeFileAnswer(e);
        case FileAwaitChunk(_) => TakeFileMessage(e);
        case FileSendChunk(_, _) => sent := SendChunk(e);
        case Aborted =>
        case _ => sent, built := SendAndWait(secret, e);
      }
    }
  }
}
