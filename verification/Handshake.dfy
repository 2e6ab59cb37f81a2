/** What every run of the conversation handshake keeps, for any number of clients. */
module Handshake {
  import opened Prelude
  import opened Crypto
  import opened Protocol
  import opened World

  // -------- Vocabulary --------

  function ClientSecret(keys: Keys): nat {
    keys.clientKey.client.secret
  }

  function ServerSecret(keys: Keys): nat {
    keys.clientKey.server.secret
  }

  // The pair a session key belongs to.
  function KeysAround(key: SessionKey): Keys {
    ClientSessionKeys(key.client.secret, key.server)
  }

  predicate IsPublicKey(m: Message, flag: Flag, secret: nat) {
    m.flag == flag && m.body == PublicKeyBody(Pub(secret))
  }

  predicate IsHeader(m: Message, flag: Flag, key: SessionKey) {
    m.flag == flag && m.body.HeaderBody? && m.body.box.key == key
  }

  ghost predicate KeySent(sent: set<Message>, secret: nat) {
    exists m :: m in sent && IsPublicKey(m, ExchangeKeysDone, secret)
  }

  ghost predicate HeadersSent(sent: set<Message>, keys: Keys) {
    exists m :: m in sent && IsHeader(m, ExchangeHeaders, keys.serverKey)
  }

  ghost predicate DoneSent(sent: set<Message>, keys: Keys) {
    exists m :: m in sent && IsHeader(m, ExchangeHeadersDone, keys.clientKey)
  }

  // No header has been sent for this secret of an invited client.
  ghost predicate Unused(sent: set<Message>, secret: nat) {
    forall m :: m in sent && m.flag == ExchangeHeaders && m.body.HeaderBody? ==> m.body.box.key.server != Pub(secret)
  }

  ghost predicate OriginIs(origins: seq<Origin>, secret: nat, origin: Origin) {
    secret < |origins| && origins[secret] == origin
  }

  predicate Other(count: nat, self: Id, id: Id) {
    id < count && id != self
  }

  // The header that one client has sent another under a key.
  ghost predicate HeaderSentWith(sent: set<Message>, from: Id, to: Id, key: SessionKey, header: nat) {
    exists m :: m in sent && IsHeader(m, ExchangeHeaders, key) && m.from == from && m.to == to && m.body.box.header == header
  }

  ghost predicate InviterBuilt(built: set<Session>, from: Id, to: Id, keys: Keys, header: nat) {
    exists a :: a in built && a.origin == Inviter(from, to) && a.keys == keys
           && a.streams.encryption == StreamState(keys.clientKey, header, 0)
  }

  // The secret that its own client drew for a session.
  function OwnSecret(b: Session): nat {
    if b.origin.Inviter? then ClientSecret(b.keys) else ServerSecret(b.keys)
  }

  // No session has been returned yet for this secret.
  ghost predicate Unbuilt(built: set<Session>, secret: nat) {
    forall b :: b in built ==> OwnSecret(b) != secret
  }

  ghost predicate SessionsUnique(built: set<Session>) {
    forall a, b :: a in built && b in built && OwnSecret(a) == OwnSecret(b) ==> a == b
  }

  // -------- Where messages and sessions come from --------

  ghost predicate MessageOk(w: World, m: Message) {
    && m.from < |w.peers|
    && match m.flag
       case Proceed => m.body.TextBody?
       case FileAsk => m.body.FileInvite? || m.body.FileReply?
       case File => m.body.FileChunk?
       case ExchangeKeys =>
         && Other(|w.peers|, m.from, m.to)
         && (m.body.Invite? || m.body.Denial?
             || (m.body.PublicKeyBody? && OriginIs(w.origins, m.body.key.secret, Invited(m.from, m.to))))
       case ExchangeKeysDone =>
         m.body.PublicKeyBody? && OriginIs(w.origins, m.body.key.secret, Inviter(m.from, m.to))
       case ExchangeHeaders =>
         && m.body.HeaderBody?
         && var keys := KeysAround(m.body.box.key);
         && m.body.box.key == keys.serverKey
         && OriginIs(w.origins, ServerSecret(keys), Invited(m.from, m.to))
         && KeySent(w.sent, ClientSecret(keys))
         && ClientSecret(keys) < |w.origins| && w.origins[ClientSecret(keys)].partner == m.from
       case ExchangeHeadersDone =>
         && m.body.HeaderBody?
         && var keys := KeysAround(m.body.box.key);
         && m.body.box.key == keys.clientKey
         && OriginIs(w.origins, ClientSecret(keys), Inviter(m.from, m.to))
         && OriginIs(w.origins, ServerSecret(keys), Invited(m.to, m.from))
         && HeadersSent(w.sent, keys)
         && InviterBuilt(w.built, m.from, m.to, keys, m.body.box.header)
  }

  ghost predicate HeadersUnique(sent: set<Message>) {
    forall m, n, key :: m in sent && n in sent && IsHeader(m, ExchangeHeaders, key) && IsHeader(n, ExchangeHeaders, key)
                   ==> m.body.box.header == n.body.box.header
  }

  ghost predicate SessionOk(w: World, b: Session) {
    && OriginIs(w.origins, OwnSecret(b), b.origin)
    && b.keys == KeysAround(b.keys.clientKey)
    && match b.origin
       case Inviter(peer, partner) =>
         && b.streams == InviterStreams(b.keys, b.streams.decryption.header, b.streams.encryption.header)
         && HeaderSentWith(w.sent, partner, peer, b.keys.serverKey, b.streams.decryption.header)
       case Invited(_, _) => Answered(w.built, b)
  }

  // An inviter session of the partner has returned the mirror image of this one.
  ghost predicate Answered(built: set<Session>, b: Session) {
    exists a :: a in built && a.origin == Inviter(b.origin.partner, b.origin.peer)
           && a.keys == b.keys && Mirrored(a.streams, b.streams)
  }

  // -------- What one client's phase says --------

  ghost predicate CreatorKeys(w: World, self: Id, to: Id, keys: Keys) {
    && Other(|w.peers|, self, to)
    && keys == KeysAround(keys.clientKey)
    && OriginIs(w.origins, ClientSecret(keys), Inviter(self, to)) && Unbuilt(w.built, ClientSecret(keys))
    && ServerSecret(keys) < |w.origins| && w.origins[ServerSecret(keys)].Invited? && w.origins[ServerSecret(keys)].partner == self
  }

  ghost predicate ReplierKeys(w: World, self: Id, from: Id, keys: Keys) {
    && Other(|w.peers|, self, from)
    && keys == KeysAround(keys.clientKey)
    && OriginIs(w.origins, ServerSecret(keys), Invited(self, from)) && Unbuilt(w.built, ServerSecret(keys))
    && KeySent(w.sent, ClientSecret(keys))
    && ClientSecret(keys) < |w.origins| && w.origins[ClientSecret(keys)].partner == self
  }

  ghost predicate PhaseOk(w: World, self: Id, p: Peer) {
    match p.phase
    case CreateSendInvite(to) => Other(|w.peers|, self, to)
    case CreateAwaitKey(to) => Other(|w.peers|, self, to)
    case CreateSendKey(to, keys) => CreatorKeys(w, self, to, keys) && !KeySent(w.sent, ClientSecret(keys))
    case CreateAwaitHeader(to, keys) => CreatorKeys(w, self, to, keys) && !DoneSent(w.sent, keys)
    case CreateSendHeader(to, keys, streams) =>
      && CreatorKeys(w, self, to, keys) && !DoneSent(w.sent, keys)
      && streams == InviterStreams(keys, streams.decryption.header, streams.encryption.header)
      && HeaderSentWith(w.sent, to, self, keys.serverKey, streams.decryption.header)
    case ReplySendKey(from, secret) =>
      && Other(|w.peers|, self, from) && OriginIs(w.origins, secret, Invited(self, from))
      && Unused(w.sent, secret) && Unbuilt(w.built, secret)
    case ReplyAwaitKey(from, secret) =>
      && Other(|w.peers|, self, from) && OriginIs(w.origins, secret, Invited(self, from))
      && Unused(w.sent, secret) && Unbuilt(w.built, secret)
    case ReplySendHeader(from, keys, encryption) =>
      && ReplierKeys(w, self, from, keys) && Unused(w.sent, ServerSecret(keys))
      && encryption == StreamState(keys.serverKey, encryption.header, 0)
    case ReplyAwaitHeader(from, keys, encryption) =>
      && ReplierKeys(w, self, from, keys)
      && encryption == StreamState(keys.serverKey, encryption.header, 0)
      && HeaderSentWith(w.sent, self, from, keys.serverKey, encryption.header)
    case _ => true
  }

  // What has reached a client came from the others.
  ghost predicate InboxOk(w: World, self: Id, p: Peer) {
    && (forall m :: m in p.setupMessages ==> m in w.sent && m.to == self)
    && (forall a :: a in p.actions ==>
          (a.StartConversation? ==> Other(|w.peers|, self, a.id)) && (a.ReplyToInvite? ==> Other(|w.peers|, self, a.from)))
    && (forall u :: u in p.users ==> Other(|w.peers|, self, u))
  }

  ghost predicate PeerOk(w: World, i: Id)
    requires i < |w.peers|
  {
    var p := w.peers[i];
    && PhaseOk(w, i, p)
    && InboxOk(w, i, p)
    && (p.phase.Creating() ==> p.phase.to !in p.conversations)
    && (p.phase.Replying() ==> p.phase.from !in p.conversations)
  }

  // -------- What two clients keep between them --------

  // A creator of the conversation whose partner has answered with headers.
  ghost predicate HeadersReady(w: World, p: Peer, to: Id) {
    (p.phase.CreateAwaitHeader? || p.phase.CreateSendHeader?) && p.phase.to == to && HeadersSent(w.sent, p.phase.keys)
  }

  // A replier whose partner has finished.
  ghost predicate DoneReady(w: World, p: Peer, from: Id) {
    p.phase.ReplyAwaitHeader? && p.phase.from == from && DoneSent(w.sent, p.phase.keys)
  }

  ghost predicate StoreAwaits(sent: set<Message>, p: Peer, q: Peer, r: Id)
    requires q.phase.ReplyAwaitHeader?
  {
    r in p.conversations ==>
      forall m :: m in sent && IsHeader(m, ExchangeHeadersDone, q.phase.keys.clientKey) ==>
        p.conversations[r] == InviterStreams(q.phase.keys, q.phase.encryption.header, m.body.box.header)
  }

  ghost predicate PairOk(w: World, i: Id, r: Id)
    requires i < |w.peers| && r < |w.peers|
  {
    var p, q := w.peers[i], w.peers[r];
    // the inviter cannot complete while the invited still holds an older conversation
    && (HeadersReady(w, p, r) ==> i !in q.conversations)
    // nor while the invited could still complete another one with the same inviter
    && !(HeadersReady(w, p, r) && DoneReady(w, q, i))
    && !(DoneReady(w, p, r) && DoneReady(w, q, i))
    && !(HeadersReady(w, p, r) && HeadersReady(w, q, i))
    // what the inviter holds when the invited is about to complete is that very session
    && (DoneReady(w, q, i) ==> StoreAwaits(w.sent, p, q, r))
    && PairedStores(p, q, i, r)
  }

  ghost predicate PairedStores(p: Peer, q: Peer, i: Id, r: Id) {
    r in p.conversations && i in q.conversations ==> Mirrored(p.conversations[r], q.conversations[i])
  }

  ghost predicate Inv(w: World) {
    && (forall m :: m in w.inFlight ==> m in w.sent)
    && (forall m :: m in w.sent ==> MessageOk(w, m))
    && HeadersUnique(w.sent) && SessionsUnique(w.built)
    && (forall b :: b in w.built ==> SessionOk(w, b))
    && (forall i :: 0 <= i < |w.peers| ==> PeerOk(w, i))
    && (forall i, r :: 0 <= i < |w.peers| && 0 <= r < |w.peers| && i != r ==> PairOk(w, i, r))
  }

  // The parts of the invariant, one at a time.

  lemma InvPeer(w: World, i: Id)
    requires Inv(w) && i < |w.peers|
    ensures PeerOk(w, i)
    ensures forall m :: m in w.inFlight ==> m in w.sent
  {
    hide PeerOk, PairOk, SessionOk, MessageOk, HeadersUnique, SessionsUnique;
  }

  lemma InvMessage(w: World, m: Message)
    requires Inv(w) && m in w.sent
    ensures MessageOk(w, m)
  {
    hide PeerOk, PairOk, SessionOk, MessageOk, HeadersUnique, SessionsUnique;
  }

  lemma InvPair(w: World, i: Id, r: Id)
    requires Inv(w) && i < |w.peers| && r < |w.peers| && i != r
    ensures PeerOk(w, i) && PeerOk(w, r) && PairOk(w, i, r) && PairOk(w, r, i)
    ensures HeadersUnique(w.sent) && SessionsUnique(w.built)
  {
    hide PeerOk, PairOk, SessionOk, MessageOk, HeadersUnique, SessionsUnique;
  }

  lemma InvSession(w: World, b: Session)
    requires Inv(w) && b in w.built
    ensures SessionOk(w, b)
  {
    hide PeerOk, PairOk, SessionOk, MessageOk, HeadersUnique, SessionsUnique;
  }

  lemma InvSessions(w: World)
    requires Inv(w)
    ensures SessionsUnique(w.built) && HeadersUnique(w.sent)
  {
    hide PeerOk, PairOk, SessionOk, MessageOk, HeadersUnique, SessionsUnique;
  }

  // The next secret has left no trace.
  lemma NextSecret(w: World)
    requires Inv(w)
    ensures Unused(w.sent, |w.origins|) && Unbuilt(w.built, |w.origins|) && !KeySent(w.sent, |w.origins|)
  {
    hide PeerOk, PairOk, HeadersUnique, SessionsUnique;
    forall b | b in w.built ensures OwnSecret(b) != |w.origins| {
      assert SessionOk(w, b);
    }
    forall m | m in w.sent ensures MessageOk(w, m) {
    }
  }

  // -------- One step and everything it does not touch --------

  // Client i has taken a step that sent at most one message of its own.
  ghost predicate StepBy(w: World, v: World, i: Id, sent: Option<Message>) {
    && i < |w.peers| == |v.peers|
    && (forall j :: 0 <= j < |w.peers| && j != i ==> v.peers[j] == w.peers[j])
    && v.sent == w.sent + (if sent.Some? then {sent.value} else {})
    && (forall m :: m in v.inFlight ==> m in v.sent)
    && w.origins <= v.origins
    && w.built <= v.built
    && (sent.Some? ==> sent.value.from == i && MessageOk(v, sent.value))
    && (forall b :: b in v.built && b !in w.built ==> OriginIs(v.origins, OwnSecret(b), b.origin) && b.origin.peer == i)
  }

  lemma MessageStays(w: World, v: World, i: Id, sent: Option<Message>, m: Message)
    requires StepBy(w, v, i, sent) && MessageOk(w, m)
    ensures MessageOk(v, m)
  {
  }

  lemma SessionStays(w: World, v: World, i: Id, sent: Option<Message>, b: Session)
    requires StepBy(w, v, i, sent) && SessionOk(w, b)
    ensures SessionOk(v, b)
  {
  }

  // Only its own client sends the messages that a phase rules out.
  lemma OtherCreatorStays(w: World, v: World, i: Id, sent: Option<Message>, j: Id)
    requires StepBy(w, v, i, sent) && j < |w.peers| && j != i && PhaseOk(w, j, w.peers[j]) && w.peers[j].phase.Creating()
    ensures PhaseOk(v, j, w.peers[j])
  {
  }

  lemma OtherReplierStays(w: World, v: World, i: Id, sent: Option<Message>, j: Id)
    requires StepBy(w, v, i, sent) && j < |w.peers| && j != i && PhaseOk(w, j, w.peers[j]) && !w.peers[j].phase.Creating()
    ensures PhaseOk(v, j, w.peers[j])
  {
  }

  lemma OtherPeerStays(w: World, v: World, i: Id, sent: Option<Message>, j: Id)
    requires Inv(w) && StepBy(w, v, i, sent) && j < |w.peers| && j != i
    ensures PeerOk(v, j)
  {
    hide SessionOk, HeadersUnique, SessionsUnique, PairOk, Inv;
    InvPeer(w, j);
    if w.peers[j].phase.Creating() {
      OtherCreatorStays(w, v, i, sent, j);
    } else {
      OtherReplierStays(w, v, i, sent, j);
    }
    hide PhaseOk, StepBy;
  }

  // Headers and final headers reach only the client that they concern.
  lemma ReadinessStays(w: World, v: World, i: Id, sent: Option<Message>, j: Id, k: Id)
    requires Inv(w) && StepBy(w, v, i, sent) && j < |w.peers| && j != i
    ensures HeadersReady(v, w.peers[j], k) && !HeadersReady(w, w.peers[j], k) ==>
              k == i && sent.Some? && IsHeader(sent.value, ExchangeHeaders, w.peers[j].phase.keys.serverKey)
    ensures DoneReady(v, w.peers[j], k) && !DoneReady(w, w.peers[j], k) ==>
              k == i && sent.Some? && IsHeader(sent.value, ExchangeHeadersDone, w.peers[j].phase.keys.clientKey)
  {
    assert PeerOk(w, j);
  }

  lemma OtherPairStays(w: World, v: World, i: Id, sent: Option<Message>, j: Id, k: Id)
    requires Inv(w) && StepBy(w, v, i, sent)
    requires j < |w.peers| && k < |w.peers| && j != k && j != i && k != i
    ensures PairOk(v, j, k)
  {
    hide SessionOk, HeadersUnique, SessionsUnique, Inv;
    InvPair(w, j, k);
    ReadinessStays(w, v, i, sent, j, k);
    ReadinessStays(w, v, i, sent, k, j);
  }

  // What is left to show after a step of client i: its own phase, its pairs and the news.
  lemma FrameRule(w: World, v: World, i: Id, sent: Option<Message>)
    requires Inv(w) && StepBy(w, v, i, sent)
    requires PeerOk(v, i) && HeadersUnique(v.sent) && SessionsUnique(v.built)
    requires forall b :: b in v.built && b !in w.built ==> SessionOk(v, b)
    requires forall r :: 0 <= r < |w.peers| && r != i ==> PairOk(v, i, r) && PairOk(v, r, i)
    ensures Inv(v)
  {
    forall m | m in v.sent ensures MessageOk(v, m) {
      if m in w.sent {
        MessageStays(w, v, i, sent, m);
      }
    }
    forall b | b in v.built ensures SessionOk(v, b) {
      if b in w.built {
        SessionStays(w, v, i, sent, b);
      }
    }
    forall j | 0 <= j < |v.peers| ensures PeerOk(v, j) {
      if j != i {
        OtherPeerStays(w, v, i, sent, j);
      }
    }
    forall j, k | 0 <= j < |v.peers| && 0 <= k < |v.peers| && j != k ensures PairOk(v, j, k) {
      if j != i && k != i {
        OtherPairStays(w, v, i, sent, j, k);
      }
    }
  }

  // -------- Steps that complete nothing --------

  predicate Plain(m: Message) {
    m.flag != ExchangeHeaders && m.flag != ExchangeHeadersDone
  }

  // A client in this phase has come no nearer to a completion.
  ghost predicate NoNearer(before: Phase, after: Phase, sent: set<Message>) {
    || after == before
    || !(after.CreateAwaitHeader? || after.CreateSendHeader? || after.ReplyAwaitHeader?)
    || (after.CreateAwaitHeader? && !HeadersSent(sent, after.keys))
    || (after.CreateSendHeader? && before == CreateAwaitHeader(after.to, after.keys))
  }

  // The client sends no header, comes no nearer to a completion and stores nothing.
  ghost predicate Quiet(w: World, v: World, i: Id, sent: Option<Message>) {
    && StepBy(w, v, i, sent) && v.built == w.built && (sent.Some? ==> Plain(sent.value))
    && var p, q := w.peers[i], v.peers[i];
       && NoNearer(p.phase, q.phase, v.sent)
       && q.conversations.Keys <= p.conversations.Keys
       && forall c :: c in q.conversations ==> q.conversations[c] == p.conversations[c]
  }

  lemma NoNearerReady(w: World, v: World, i: Id, sent: Option<Message>, r: Id)
    requires Quiet(w, v, i, sent)
    ensures HeadersReady(v, v.peers[i], r) ==> HeadersReady(w, w.peers[i], r)
    ensures DoneReady(v, v.peers[i], r) ==> DoneReady(w, w.peers[i], r) && v.peers[i].phase == w.peers[i].phase
  {
  }

  lemma QuietPair(w: World, v: World, i: Id, sent: Option<Message>, r: Id)
    requires Quiet(w, v, i, sent) && r < |w.peers| && r != i
    requires PairOk(w, i, r) && PairOk(w, r, i) && PeerOk(w, r) && Inv(w)
    ensures PairOk(v, i, r) && PairOk(v, r, i)
  {
    hide Inv, PeerOk;
    NoNearerReady(w, v, i, sent, r);
    ReadinessStays(w, v, i, sent, r, i);
  }

  lemma QuietStep(w: World, v: World, i: Id, sent: Option<Message>)
    requires Inv(w) && Quiet(w, v, i, sent) && PeerOk(v, i)
    ensures Inv(v)
  {
    hide Inv, PairOk, PeerOk, SessionOk, MessageOk, HeadersReady, DoneReady;
    UniqueStays(w, v, i, sent);
    forall r | 0 <= r < |w.peers| && r != i ensures PairOk(v, i, r) && PairOk(v, r, i) {
      InvPair(w, i, r);
      QuietPair(w, v, i, sent, r);
    }
    hide HeadersUnique, SessionsUnique;
    FrameRule(w, v, i, sent);
  }

  // No new header, no new session.
  lemma UniqueStays(w: World, v: World, i: Id, sent: Option<Message>)
    requires Inv(w) && Quiet(w, v, i, sent)
    ensures HeadersUnique(v.sent) && SessionsUnique(v.built)
  {
    hide PairOk, PeerOk, SessionOk, MessageOk;
  }

  // -------- The three steps that complete something --------

  // The invited client sends its header.
  ghost predicate SendsHeader(w: World, v: World, i: Id, m: Message) {
    && Inv(w) && StepBy(w, v, i, Some(m)) && v.built == w.built
    && w.peers[i].phase.ReplySendHeader?
    && (var p := w.peers[i].phase;
        && v.peers[i].phase == ReplyAwaitHeader(p.from, p.keys, p.encryption)
        && IsHeader(m, ExchangeHeaders, p.keys.serverKey)
        && m.to == p.from && m.body.box.header == p.encryption.header)
    && v.peers[i].conversations == w.peers[i].conversations && InboxOk(v, i, v.peers[i])
  }

  lemma NotDoneBeforeHeaders(w: World, v: World, i: Id, m: Message)
    requires SendsHeader(w, v, i, m)
    ensures !DoneSent(v.sent, w.peers[i].phase.keys)
  {
    hide Inv, PairOk, SessionOk, HeadersUnique, SessionsUnique;
    InvPeer(w, i);
    var keys := w.peers[i].phase.keys;
    if d :| d in v.sent && IsHeader(d, ExchangeHeadersDone, keys.clientKey) {
      InvMessage(w, d);
    }
  }

  lemma HeaderPairFrom(w: World, v: World, i: Id, m: Message, r: Id)
    requires SendsHeader(w, v, i, m) && r < |w.peers| && r != i
    ensures PairOk(v, i, r)
  {
    hide PeerOk, MessageOk, SessionOk, Inv;
    InvPair(w, i, r);
    ReadinessStays(w, v, i, Some(m), r, i);
    NotDoneBeforeHeaders(w, v, i, m);
  }

  // A header that an inviter has been waiting for comes from whom it has invited.
  lemma HeaderConcerns(w: World, v: World, i: Id, m: Message, r: Id)
    requires SendsHeader(w, v, i, m) && r < |w.peers| && r != i
    requires HeadersReady(v, w.peers[r], i) && !HeadersReady(w, w.peers[r], i)
    ensures w.peers[i].phase.from == r && w.peers[i].phase.keys == w.peers[r].phase.keys
    ensures r !in w.peers[i].conversations
  {
    hide Inv, PairOk, SessionOk, MessageOk, HeadersUnique, SessionsUnique;
    InvPeer(w, i);
    InvPeer(w, r);
    ReadinessStays(w, v, i, Some(m), r, i);
    hide StepBy, InboxOk;
  }

  lemma HeaderPairTo(w: World, v: World, i: Id, m: Message, r: Id)
    requires SendsHeader(w, v, i, m) && r < |w.peers| && r != i
    ensures PairOk(v, r, i)
  {
    hide Inv, SessionOk, HeadersUnique, SessionsUnique, StoreAwaits, MessageOk, Mirrored;
    InvPair(w, i, r);
    if HeadersReady(v, w.peers[r], i) && !HeadersReady(w, w.peers[r], i) {
      HeaderConcerns(w, v, i, m, r);
    }
    ReadinessStays(w, v, i, Some(m), r, i);
    NotDoneBeforeHeaders(w, v, i, m);
    assert !DoneReady(v, v.peers[i], r) && !HeadersReady(v, v.peers[i], r);
    assert HeadersReady(v, w.peers[r], i) ==> r !in v.peers[i].conversations;
    hide HeadersReady, DoneReady, PeerOk, IsHeader;
  }

  lemma SentHeaderUnique(w: World, v: World, i: Id, m: Message)
    requires SendsHeader(w, v, i, m)
    ensures HeadersUnique(v.sent) && SessionsUnique(v.built)
  {
    hide Inv, SessionOk, PairOk, MessageOk;
    InvPeer(w, i);
    InvSessions(w);
  }

  lemma HeaderStep(w: World, v: World, i: Id, m: Message)
    requires SendsHeader(w, v, i, m)
    ensures Inv(v)
  {
    hide Inv, SessionOk, MessageOk, PairOk, SessionsUnique;
    InvPeer(w, i);
    forall r | 0 <= r < |w.peers| && r != i ensures PairOk(v, i, r) && PairOk(v, r, i) {
      HeaderPairFrom(w, v, i, m, r);
      HeaderPairTo(w, v, i, m, r);
    }
    SentHeaderUnique(w, v, i, m);
    assert PeerOk(v, i);
    hide PeerOk, HeadersUnique;
    FrameRule(w, v, i, Some(m));
  }

  // The inviter sends its header and stores the conversation.
  ghost predicate Creates(w: World, v: World, i: Id, m: Message) {
    && Inv(w) && StepBy(w, v, i, Some(m))
    && w.peers[i].phase.CreateSendHeader? && v.peers[i].phase == Free
    && (var p := w.peers[i].phase;
        && v.peers[i].conversations == w.peers[i].conversations[p.to := p.streams]
        && v.built == w.built + {Session(Inviter(i, p.to), p.keys, p.streams)}
        && IsHeader(m, ExchangeHeadersDone, p.keys.clientKey)
        && m.to == p.to && m.body.box.header == p.streams.encryption.header)
    && InboxOk(v, i, v.peers[i])
  }

  // The streams just stored are those that the partner's last wait is for.
  lemma CreatedAwaits(w: World, v: World, i: Id, m: Message, r: Id)
    requires Creates(w, v, i, m) && r < |w.peers| && r != i
    requires DoneReady(v, w.peers[r], i) && !DoneReady(w, w.peers[r], i)
    ensures StoreAwaits(v.sent, v.peers[i], w.peers[r], r)
  {
    hide Inv, SessionOk, MessageOk, SessionsUnique, PairOk;
    InvPeer(w, i);
    InvPeer(w, r);
    InvSessions(w);
    ReadinessStays(w, v, i, Some(m), r, i);
    assert w.peers[r].phase.keys == w.peers[i].phase.keys;
  }

  // And streams stored earlier are still the ones that an earlier wait is for.
  lemma CreatedStillAwaits(w: World, v: World, i: Id, m: Message, r: Id)
    requires Creates(w, v, i, m) && r < |w.peers| && r != i && DoneReady(w, w.peers[r], i)
    requires PairOk(w, i, r) && PeerOk(w, i)
    ensures StoreAwaits(v.sent, v.peers[i], w.peers[r], r)
  {
    hide Inv, SessionOk, MessageOk, SessionsUnique, HeadersUnique;
    assert w.peers[r].phase.keys != w.peers[i].phase.keys;
    assert HeadersReady(w, w.peers[i], w.peers[i].phase.to);
  }

  lemma CreatedPairFrom(w: World, v: World, i: Id, m: Message, r: Id)
    requires Creates(w, v, i, m) && r < |w.peers| && r != i
    ensures PairOk(v, i, r)
  {
    hide Inv, SessionOk, MessageOk, HeadersUnique, SessionsUnique, StoreAwaits;
    InvPair(w, i, r);
    assert HeadersReady(w, w.peers[i], w.peers[i].phase.to);
    if DoneReady(w, w.peers[r], i) {
      CreatedStillAwaits(w, v, i, m, r);
    } else if DoneReady(v, w.peers[r], i) {
      CreatedAwaits(w, v, i, m, r);
    }
  }

  lemma CreatedPairTo(w: World, v: World, i: Id, m: Message, r: Id)
    requires Creates(w, v, i, m) && r < |w.peers| && r != i
    ensures PairOk(v, r, i)
  {
    hide Inv, SessionOk, MessageOk, HeadersUnique, SessionsUnique;
    InvPair(w, i, r);
    assert HeadersReady(w, w.peers[i], w.peers[i].phase.to);
  }

  lemma CreatedHeaders(w: World, v: World, i: Id, m: Message)
    requires Creates(w, v, i, m)
    ensures HeadersUnique(v.sent)
  {
    hide PairOk, PeerOk, SessionOk, MessageOk, SessionsUnique;
  }

  lemma CreatedFree(w: World, v: World, i: Id, m: Message)
    requires Creates(w, v, i, m)
    ensures PeerOk(v, i)
  {
    hide Inv, PairOk, SessionOk, MessageOk, HeadersUnique, SessionsUnique;
  }

  lemma CreatedSessions(w: World, v: World, i: Id, m: Message)
    requires Creates(w, v, i, m)
    ensures SessionsUnique(v.built)
  {
    hide Inv, PairOk, SessionOk, MessageOk, HeadersUnique;
    InvPeer(w, i);
    InvSessions(w);
  }

  lemma CreatedSession(w: World, v: World, i: Id, m: Message)
    requires Creates(w, v, i, m)
    ensures forall b :: b in v.built && b !in w.built ==> SessionOk(v, b)
  {
    hide Inv, PairOk, MessageOk, HeadersUnique, SessionsUnique;
    InvPeer(w, i);
  }

  lemma CreatedStep(w: World, v: World, i: Id, m: Message)
    requires Creates(w, v, i, m)
    ensures Inv(v)
  {
    CreatedHeaders(w, v, i, m);
    CreatedFree(w, v, i, m);
    CreatedSessions(w, v, i, m);
    CreatedSession(w, v, i, m);
    hide Inv, PairOk, SessionOk, HeadersUnique, SessionsUnique, PeerOk;
    forall r | 0 <= r < |w.peers| && r != i ensures PairOk(v, i, r) && PairOk(v, r, i) {
      CreatedPairFrom(w, v, i, m, r);
      CreatedPairTo(w, v, i, m, r);
    }
    FrameRule(w, v, i, Some(m));
  }

  // The invited client takes the last header and stores the conversation.
  ghost predicate Completes(w: World, v: World, i: Id, m: Message) {
    && Inv(w) && StepBy(w, v, i, None)
    && w.peers[i].phase.ReplyAwaitHeader? && v.peers[i].phase == Free && m in w.sent
    && (var p := w.peers[i].phase;
        && IsHeader(m, ExchangeHeadersDone, p.keys.clientKey)
        && var streams := InvitedStreams(p.keys, p.encryption.header, m.body.box.header);
        && v.peers[i].conversations == w.peers[i].conversations[p.from := streams]
        && v.built == w.built + {Session(Invited(i, p.from), p.keys, streams)})
    && InboxOk(v, i, v.peers[i])
  }

  lemma CompletedPair(w: World, v: World, i: Id, m: Message, r: Id)
    requires Completes(w, v, i, m) && r < |w.peers| && r != i
    ensures PairOk(v, i, r)
  {
    hide Inv, MessageOk, SessionOk, HeadersUnique, SessionsUnique;
    InvPair(w, i, r);
    assert DoneReady(w, w.peers[i], w.peers[i].phase.from);
  }

  lemma CompletedPairBack(w: World, v: World, i: Id, m: Message, r: Id)
    requires Completes(w, v, i, m) && r < |w.peers| && r != i
    ensures PairOk(v, r, i)
  {
    hide Inv, MessageOk, SessionOk, HeadersUnique, SessionsUnique;
    InvPair(w, i, r);
    assert DoneReady(w, w.peers[i], w.peers[i].phase.from);
  }

  lemma CompletedSession(w: World, v: World, i: Id, m: Message)
    requires Completes(w, v, i, m)
    ensures forall b :: b in v.built && b !in w.built ==> SessionOk(v, b)
  {
    hide Inv, PairOk, SessionsUnique;
    InvPeer(w, i);
    InvMessage(w, m);
    InvSessions(w);
    var p := w.peers[i].phase;
    var a :| a in w.built && a.origin == Inviter(p.from, i) && a.keys == p.keys
             && a.streams.encryption == StreamState(p.keys.clientKey, m.body.box.header, 0);
    InvSession(w, a);
  }

  lemma CompletedUnique(w: World, v: World, i: Id, m: Message)
    requires Completes(w, v, i, m)
    ensures HeadersUnique(v.sent) && SessionsUnique(v.built) && PeerOk(v, i)
  {
    hide PairOk, SessionOk, MessageOk;
    assert PeerOk(w, i);
  }

  lemma RepliedStep(w: World, v: World, i: Id, m: Message)
    requires Completes(w, v, i, m)
    ensures Inv(v)
  {
    hide Inv, PairOk, SessionOk, HeadersUnique, SessionsUnique, PeerOk;
    CompletedSession(w, v, i, m);
    CompletedUnique(w, v, i, m);
    forall r | 0 <= r < |w.peers| && r != i ensures PairOk(v, i, r) && PairOk(v, r, i) {
      CompletedPair(w, v, i, m, r);
      CompletedPairBack(w, v, i, m, r);
    }
    FrameRule(w, v, i, None);
  }

  // -------- Every step of the action thread --------

  // Nothing new in the queues or the user list.
  ghost predicate Inbox(q: Peer, p: Peer) {
    && (forall m :: m in q.setupMessages ==> m in p.setupMessages)
    && (forall a :: a in q.actions ==> a in p.actions)
    && q.users == p.users
  }

  // What a step of the action thread changes.
  lemma ActIs(w: World, i: Id, e: Event)
    requires i < |w.peers|
    ensures var effect := Acted(w.peers[i], i, |w.origins|, e); var v := Do(w, Act(i, e));
      && v.peers == w.peers[i := effect.peer]
      && v.inFlight == w.inFlight + (if effect.sent.Some? then multiset{effect.sent.value} else multiset{})
      && v.sent == w.sent + (if effect.sent.Some? then {effect.sent.value} else {})
      && v.origins == w.origins + (if effect.drawn.Some? then [effect.drawn.value] else [])
      && v.built == w.built + (if effect.built.Some? then {effect.built.value} else {})
  {
    hide Acted;
  }

  lemma ActStep(w: World, i: Id, e: Event)
    requires Inv(w) && i < |w.peers|
    requires var effect := Acted(w.peers[i], i, |w.origins|, e); var v := Do(w, Act(i, e));
      && (effect.sent.Some? ==> effect.sent.value.from == i && MessageOk(v, effect.sent.value))
      && (effect.built.Some? ==>
            OriginIs(v.origins, OwnSecret(effect.built.value), effect.built.value.origin) && effect.built.value.origin.peer == i)
    ensures StepBy(w, Do(w, Act(i, e)), i, Acted(w.peers[i], i, |w.origins|, e).sent)
  {
    hide Inv, Acted, Do, MessageOk, PeerOk;
    ActIs(w, i, e);
    InvPeer(w, i);
  }

  // A step that sends no header and completes nothing.
  lemma PlainAct(w: World, i: Id, e: Event)
    requires Inv(w) && i < |w.peers|
    requires var effect := Acted(w.peers[i], i, |w.origins|, e); var v, q, p := Do(w, Act(i, e)), effect.peer, w.peers[i];
      && effect.built.None? && i < |v.peers| && PeerOk(v, i)
      && (effect.sent.Some? ==> Plain(effect.sent.value) && effect.sent.value.from == i && MessageOk(v, effect.sent.value))
      && NoNearer(p.phase, q.phase, v.sent)
      && q.conversations.Keys <= p.conversations.Keys
      && forall c :: c in q.conversations ==> q.conversations[c] == p.conversations[c]
    ensures Inv(Do(w, Act(i, e)))
  {
    hide Inv, Acted, Do, PeerOk, MessageOk;
    ActStep(w, i, e);
    ActIs(w, i, e);
    hide NoNearer, Plain, StepBy;
    QuietStep(w, Do(w, Act(i, e)), i, Acted(w.peers[i], i, |w.origins|, e).sent);
  }

  // Where a send leads when it succeeds, and what it sends.
  function AfterSend(phase: Phase): Phase
    requires phase.CreateSendInvite? || phase.CreateSendKey? || phase.ReplySendKey? || phase.ReplySendHeader?
  {
    match phase
    case CreateSendInvite(to) => CreateAwaitKey(to)
    case CreateSendKey(to, keys) => CreateAwaitHeader(to, keys)
    case ReplySendKey(from, secret) => ReplyAwaitKey(from, secret)
    case ReplySendHeader(from, keys, encryption) => ReplyAwaitHeader(from, keys, encryption)
  }

  function SentBy(phase: Phase, self: Id, time: nat): Message
    requires phase.CreateSendInvite? || phase.CreateSendKey? || phase.ReplySendKey? || phase.ReplySendHeader?
  {
    match phase
    case CreateSendInvite(to) => Message(ExchangeKeys, time, self, to, Invite)
    case CreateSendKey(to, keys) => Message(ExchangeKeysDone, time, self, to, PublicKeyBody(keys.clientKey.client))
    case ReplySendKey(from, secret) => Message(ExchangeKeys, time, self, from, PublicKeyBody(Pub(secret)))
    case ReplySendHeader(from, keys, encryption) =>
      Message(ExchangeHeaders, time, self, from, HeaderBody(SealedHeader(keys.serverKey, encryption.header)))
  }

  lemma SentOn(p: Peer, self: Id, secret: nat, e: Event)
    requires p.phase.CreateSendInvite? || p.phase.CreateSendKey? || p.phase.ReplySendKey? || p.phase.ReplySendHeader?
    ensures var effect := Acted(p, self, secret, e); var q := effect.peer;
      && effect == Effect(q, effect.sent, None, None) && Inbox(q, p) && q.conversations == p.conversations
      && (if e.ok then q.phase == AfterSend(p.phase) && effect.sent == Some(SentBy(p.phase, self, e.sendTime))
          else q.phase == Free && effect.sent.None?)
  {
    hide Begun, Awaited, FileAwaited, ChunkSent;
  }

  lemma SendInviteKeeps(w: World, i: Id, e: Event)
    requires Inv(w) && i < |w.peers| && w.peers[i].phase.CreateSendInvite?
    ensures Inv(Do(w, Act(i, e)))
  {
    hide Inv, Acted, Do;
    ActIs(w, i, e);
    InvPeer(w, i);
    SentOn(w.peers[i], i, |w.origins|, e);
    PlainAct(w, i, e);
  }

  // Nobody answers a key that has not been sent.
  lemma NotYetAnswered(w: World, keys: Keys)
    requires Inv(w) && keys == KeysAround(keys.clientKey) && !KeySent(w.sent, ClientSecret(keys))
    ensures !HeadersSent(w.sent, keys) && !DoneSent(w.sent, keys)
  {
    hide PairOk, PeerOk, SessionOk, HeadersUnique, SessionsUnique;
  }

  lemma CreatorSendsKey(w: World, i: Id, e: Event)
    requires Inv(w) && i < |w.peers| && w.peers[i].phase.CreateSendKey?
    ensures Inv(Do(w, Act(i, e)))
  {
    hide Inv, Acted, Do;
    ActIs(w, i, e);
    InvPeer(w, i);
    SentOn(w.peers[i], i, |w.origins|, e);
    NotYetAnswered(w, w.peers[i].phase.keys);
    PlainAct(w, i, e);
  }

  lemma SentLastHeader(p: Peer, self: Id, secret: nat, e: Event)
    requires p.phase.CreateSendHeader? && p.phase.to !in p.conversations
    ensures var effect := Acted(p, self, secret, e); var q := effect.peer;
      && effect.drawn == None && q.phase == Free && Inbox(q, p)
      && (!e.ok ==> effect == Only(q) && q.conversations == p.conversations)
      && (e.ok ==>
            && effect.built == Some(Session(Inviter(self, p.phase.to), p.phase.keys, p.phase.streams))
            && effect.sent == Some(Message(ExchangeHeadersDone, e.sendTime, self, p.phase.to,
                 HeaderBody(SealedHeader(p.phase.keys.clientKey, p.phase.streams.encryption.header))))
            && q.conversations == p.conversations[p.phase.to := p.phase.streams])
  {
    hide Begun, FileAwaited, ChunkSent;
  }

  // The header that the inviter sends last is in order.
  lemma LastHeaderOk(w: World, i: Id, e: Event)
    requires Inv(w) && i < |w.peers| && w.peers[i].phase.CreateSendHeader? && e.ok
    ensures Acted(w.peers[i], i, |w.origins|, e).sent.Some?
    ensures MessageOk(Do(w, Act(i, e)), Acted(w.peers[i], i, |w.origins|, e).sent.value)
  {
    hide Acted, Inv, Do, PairOk, SessionOk, HeadersUnique, SessionsUnique;
    ActIs(w, i, e);
    InvPeer(w, i);
    var p := w.peers[i];
    SentLastHeader(p, i, |w.origins|, e);
    var header :| header in w.sent && IsHeader(header, ExchangeHeaders, p.phase.keys.serverKey);
    InvMessage(w, header);
  }

  lemma CreatorFinishes(w: World, i: Id, e: Event)
    requires Inv(w) && i < |w.peers| && w.peers[i].phase.CreateSendHeader?
    ensures Inv(Do(w, Act(i, e)))
  {
    hide Acted, Inv, Do, PairOk, SessionOk, MessageOk, HeadersUnique, SessionsUnique;
    ActIs(w, i, e);
    InvPeer(w, i);
    var p := w.peers[i];
    SentLastHeader(p, i, |w.origins|, e);
    if e.ok {
      LastHeaderOk(w, i, e);
      ActStep(w, i, e);
      hide StepBy, PhaseOk;
      CreatedStep(w, Do(w, Act(i, e)), i, Acted(p, i, |w.origins|, e).sent.value);
    } else {
      PlainAct(w, i, e);
    }
  }

  lemma ReplierSendsKey(w: World, i: Id, e: Event)
    requires Inv(w) && i < |w.peers| && w.peers[i].phase.ReplySendKey?
    ensures Inv(Do(w, Act(i, e)))
  {
    hide Inv, Acted, Do;
    ActIs(w, i, e);
    InvPeer(w, i);
    SentOn(w.peers[i], i, |w.origins|, e);
    PlainAct(w, i, e);
  }

  lemma FirstHeaderOk(w: World, i: Id, e: Event)
    requires Inv(w) && i < |w.peers| && w.peers[i].phase.ReplySendHeader? && e.ok
    ensures Acted(w.peers[i], i, |w.origins|, e).sent.Some?
    ensures MessageOk(Do(w, Act(i, e)), Acted(w.peers[i], i, |w.origins|, e).sent.value)
  {
    hide Inv, Acted, Do, PairOk, SessionOk, HeadersUnique, SessionsUnique;
    ActIs(w, i, e);
    InvPeer(w, i);
    SentOn(w.peers[i], i, |w.origins|, e);
  }

  lemma ReplierSendsHeader(w: World, i: Id, e: Event)
    requires Inv(w) && i < |w.peers| && w.peers[i].phase.ReplySendHeader?
    ensures Inv(Do(w, Act(i, e)))
  {
    hide Inv, Acted, Do, PairOk, SessionOk, MessageOk, HeadersUnique, SessionsUnique;
    ActIs(w, i, e);
    InvPeer(w, i);
    SentOn(w.peers[i], i, |w.origins|, e);
    if e.ok {
      FirstHeaderOk(w, i, e);
      ActStep(w, i, e);
      hide StepBy, PhaseOk;
      HeaderStep(w, Do(w, Act(i, e)), i, Acted(w.peers[i], i, |w.origins|, e).sent.value);
    } else {
      PlainAct(w, i, e);
    }
  }

  // A file exchange touches nothing but its own flag and queue.
  predicate FileEffect(p: Peer, self: Id, effect: Effect) {
    var q := effect.peer;
    && q == p.(exchangingFile := q.exchangingFile, fileMessages := q.fileMessages, phase := q.phase)
    && (q.phase.Exchanging() || q.phase.Free? || q.phase.Aborted?)
    && (q.phase.Exchanging() ==> q.exchangingFile == p.exchangingFile)
    && (q.phase.Free? ==> !q.exchangingFile && q.fileMessages == [])
    && effect.drawn.None? && effect.built.None?
    && (effect.sent.Some? ==>
          var m := effect.sent.value;
          && m.from == self
          && (if m.flag == File then m.body.FileChunk? else m.flag == FileAsk && (m.body.FileInvite? || m.body.FileReply?)))
  }

  lemma FileWaitEffect(p: Peer, self: Id, e: Event)
    requires p.phase.Exchanging()
    ensures FileEffect(p, self, FileAwaited(p, e))
  {
    hide ChunkOk;
  }

  lemma ChunkEffect(p: Peer, self: Id, e: Event)
    requires p.phase.FileSendChunk?
    ensures FileEffect(p, self, ChunkSent(p, self, e))
  {
  }

  lemma AskEffect(p: Peer, self: Id, secret: nat, e: Event)
    requires p.phase.FileSendInvite? || p.phase.FileSendReply? || p.phase.Aborted?
    ensures FileEffect(p, self, Acted(p, self, secret, e))
  {
    hide FileAwaited, ChunkSent, Begun, Awaited;
  }

  lemma FileActed(p: Peer, self: Id, secret: nat, e: Event)
    requires p.phase.Exchanging() || p.phase.Aborted?
    ensures FileEffect(p, self, Acted(p, self, secret, e))
  {
    if p.phase.FileAwaitAnswer? || p.phase.FileAwaitChunk? {
      FileWaitEffect(p, self, e);
      assert Acted(p, self, secret, e) == FileAwaited(p, e);
      hide Acted, FileAwaited;
    } else if p.phase.FileSendChunk? {
      ChunkEffect(p, self, e);
      assert Acted(p, self, secret, e) == ChunkSent(p, self, e);
      hide Acted, ChunkSent;
    } else {
      AskEffect(p, self, secret, e);
      hide Acted;
    }
  }

  lemma FileKeeps(w: World, i: Id, e: Event)
    requires Inv(w) && i < |w.peers| && (w.peers[i].phase.Exchanging() || w.peers[i].phase.Aborted?)
    ensures Inv(Do(w, Act(i, e)))
  {
    hide Inv, Acted, Do;
    ActIs(w, i, e);
    InvPeer(w, i);
    FileActed(w.peers[i], i, |w.origins|, e);
    PlainAct(w, i, e);
  }

  // A popped public key, and the pair drawn to answer it.
  lemma TakenKey(p: Peer, self: Id, secret: nat, e: Event)
    requires p.phase.CreateAwaitKey?
    ensures var effect := Acted(p, self, secret, e); var q := effect.peer.phase;
      && effect == Effect(effect.peer, None, effect.drawn, None)
      && Inbox(effect.peer, p) && effect.peer.conversations == p.conversations
      && (q == p.phase || q == Free || q.CreateSendKey?)
      && (!q.CreateSendKey? ==> effect.drawn == None)
      && (q.CreateSendKey? ==>
            && effect.drawn == Some(Inviter(self, p.phase.to))
            && p.setupMessages != [] && p.setupMessages[0].flag == ExchangeKeys && p.setupMessages[0].body.PublicKeyBody?
            && q == CreateSendKey(p.phase.to, ClientSessionKeys(secret, p.setupMessages[0].body.key)))
  {
    hide Begun, FileAwaited, ChunkSent;
  }

  lemma CreatorTakesKey(w: World, i: Id, e: Event)
    requires Inv(w) && i < |w.peers| && w.peers[i].phase.CreateAwaitKey?
    ensures Inv(Do(w, Act(i, e)))
  {
    hide Acted, Inv, Do;
    ActIs(w, i, e);
    InvPeer(w, i);
    var p := w.peers[i];
    TakenKey(p, i, |w.origins|, e);
    if Do(w, Act(i, e)).peers[i].phase.CreateSendKey? {
      NextSecret(w);
      assert p.setupMessages[0] in w.sent;
      InvMessage(w, p.setupMessages[0]);
    }
    PlainAct(w, i, e);
  }

  // The received header is the one the inviter's decoder starts from.
  lemma TakenHeader(p: Peer, self: Id, secret: nat, e: Event)
    requires p.phase.CreateAwaitHeader?
    ensures var effect := Acted(p, self, secret, e); var q := effect.peer.phase;
      && effect == Only(effect.peer)
      && Inbox(effect.peer, p) && effect.peer.conversations == p.conversations
      && (q == p.phase || q == Free || q.CreateSendHeader?)
      && (q.CreateSendHeader? ==>
            && p.setupMessages != [] && q.to == p.phase.to && q.keys == p.phase.keys
            && var m := p.setupMessages[0];
            && IsHeader(m, ExchangeHeaders, q.keys.serverKey)
            && q.streams == InviterStreams(q.keys, m.body.box.header, e.header))
  {
    hide Begun, FileAwaited, ChunkSent;
  }

  lemma TakenHeaderOk(w: World, i: Id, e: Event)
    requires Inv(w) && i < |w.peers| && w.peers[i].phase.CreateAwaitHeader?
    ensures i < |Do(w, Act(i, e)).peers| && PhaseOk(Do(w, Act(i, e)), i, Do(w, Act(i, e)).peers[i])
  {
    hide Acted, Inv, Do, PairOk;
    ActIs(w, i, e);
    InvPeer(w, i);
    var v, p := Do(w, Act(i, e)), w.peers[i];
    TakenHeader(p, i, |w.origins|, e);
    var q := v.peers[i];
    if q.phase.CreateSendHeader? {
      var m := p.setupMessages[0];
      assert m in w.sent && m.to == i;
      InvMessage(w, m);
      assert HeaderSentWith(v.sent, p.phase.to, i, p.phase.keys.serverKey, q.phase.streams.decryption.header);
    }
  }

  lemma CreatorTakesHeader(w: World, i: Id, e: Event)
    requires Inv(w) && i < |w.peers| && w.peers[i].phase.CreateAwaitHeader?
    ensures Inv(Do(w, Act(i, e)))
  {
    hide Acted, Inv, Do, MessageOk, PairOk;
    ActIs(w, i, e);
    InvPeer(w, i);
    TakenHeader(w.peers[i], i, |w.origins|, e);
    TakenHeaderOk(w, i, e);
    hide PhaseOk;
    PlainAct(w, i, e);
  }

  // The inviter's public key, and the pair and encoder made from it.
  lemma TakenAnswer(p: Peer, self: Id, secret: nat, e: Event)
    requires p.phase.ReplyAwaitKey?
    ensures var effect := Acted(p, self, secret, e); var q := effect.peer.phase;
      && effect == Only(effect.peer)
      && Inbox(effect.peer, p) && effect.peer.conversations == p.conversations
      && (q == p.phase || q == Free || q.ReplySendHeader?)
      && (q.ReplySendHeader? ==>
            && p.setupMessages != [] && p.setupMessages[0].flag == ExchangeKeysDone && p.setupMessages[0].body.PublicKeyBody?
            && q.from == p.phase.from && q.keys == ServerSessionKeys(p.phase.secret, p.setupMessages[0].body.key)
            && q.encryption == StreamState(q.keys.serverKey, e.header, 0))
  {
    hide Begun, FileAwaited, ChunkSent;
  }

  lemma ReplierTakesKey(w: World, i: Id, e: Event)
    requires Inv(w) && i < |w.peers| && w.peers[i].phase.ReplyAwaitKey?
    ensures Inv(Do(w, Act(i, e)))
  {
    hide Acted, Inv, Do;
    ActIs(w, i, e);
    InvPeer(w, i);
    var p := w.peers[i];
    TakenAnswer(p, i, |w.origins|, e);
    if Do(w, Act(i, e)).peers[i].phase.ReplySendHeader? {
      var m := p.setupMessages[0];
      assert m in w.sent && IsPublicKey(m, ExchangeKeysDone, m.body.key.secret);
      InvMessage(w, m);
      KeyAgreement(m.body.key.secret, p.phase.secret);
    }
    PlainAct(w, i, e);
  }

  // Everything the invited client can do with the last message.
  lemma TakenLastHeader(p: Peer, self: Id, secret: nat, e: Event)
    requires p.phase.ReplyAwaitHeader? && p.phase.from !in p.conversations
    ensures var effect := Acted(p, self, secret, e); var q := effect.peer;
      && effect == Effect(q, None, None, effect.built)
      && Inbox(q, p)
      && (effect.built.None? ==> q.conversations == p.conversations && (q.phase == p.phase || q.phase == Free))
      && (effect.built.Some? ==>
            && p.setupMessages != [] && q.phase == Free
            && var m := p.setupMessages[0];
            && IsHeader(m, ExchangeHeadersDone, p.phase.keys.clientKey)
            && var streams := Streams(StreamState(p.phase.keys.clientKey, m.body.box.header, 0), p.phase.encryption);
            && q.conversations == p.conversations[p.phase.from := streams]
            && effect.built == Some(Session(Invited(self, p.phase.from), p.phase.keys, streams)))
  {
    hide Begun, FileAwaited, ChunkSent;
  }

  lemma ReplierFinishes(w: World, i: Id, e: Event)
    requires Inv(w) && i < |w.peers| && w.peers[i].phase.ReplyAwaitHeader?
    ensures Inv(Do(w, Act(i, e)))
  {
    hide Acted, Inv, Do, PairOk, SessionOk, HeadersUnique, SessionsUnique;
    ActIs(w, i, e);
    InvPeer(w, i);
    var p := w.peers[i];
    TakenLastHeader(p, i, |w.origins|, e);
    if Acted(p, i, |w.origins|, e).built.None? {
      PlainAct(w, i, e);
    } else {
      ActStep(w, i, e);
      hide StepBy, PhaseOk;
      RepliedStep(w, Do(w, Act(i, e)), i, p.setupMessages[0]);
    }
  }

  lemma ReceivedChangesRows(p: Peer, timestamp: nat, from: Id, received: Ciphertext)
    requires p.phase.Free?
    ensures var q := Received(p, timestamp, from, received);
      (q.phase.Free? || q.phase.Aborted?) && q == p.(phase := q.phase, rows := q.rows)
  {
  }

  lemma SentTextChangesRows(p: Peer, self: Id, text: seq<byte>, e: Event)
    requires p.phase.Free?
    ensures var effect := SentText(p, self, text, e); var q := effect.peer;
      && (q.phase.Free? || q.phase.Aborted?) && q == p.(phase := q.phase, rows := q.rows)
      && effect.built.None? && effect.drawn.None?
      && (effect.sent.Some? ==>
            effect.sent.value.from == self && effect.sent.value.flag == Proceed && effect.sent.value.body.TextBody?)
  {
  }

  // An action leaves the handshake alone unless it is the reply to an invite.
  ghost predicate ActionOk(p: Peer, self: Id, secret: nat, effect: Effect) {
    var q := effect.peer;
    && effect.built.None? && Inbox(q, p)
    && (effect.sent.Some? ==>
          && effect.sent.value.from == self
          && (effect.sent.value.body.TextBody? ==> effect.sent.value.flag == Proceed)
          && (effect.sent.value.body.FileReply? ==> effect.sent.value.flag == FileAsk)
          && (!effect.sent.value.body.TextBody? && !effect.sent.value.body.FileReply? ==>
                && effect.sent.value.flag == ExchangeKeys && effect.sent.value.body == Denial
                && p.actions != [] && p.actions[0] == ReplyToInvite(effect.sent.value.to)))
    && (q.phase.CreateSendInvite? ==>
          p.actions != [] && p.actions[0] == StartConversation(q.phase.to) && q.phase.to !in q.conversations)
    && (q.phase.ReplySendKey? ==>
          && p.actions != [] && p.actions[0] == ReplyToInvite(q.phase.from) && q.phase.from !in q.conversations
          && q.phase.secret == secret && effect.drawn == Some(Invited(self, q.phase.from)))
    && (!q.phase.ReplySendKey? ==> effect.drawn.None?)
    && (q.phase.Free? || q.phase.CreateSendInvite? || q.phase.ReplySendKey? || q.phase.FileSendInvite?
        || q.phase.FileSendReply? || q.phase.Aborted?)
    && q.conversations.Keys <= p.conversations.Keys
    && (forall c :: c in q.conversations ==> q.conversations[c] == p.conversations[c])
  }

  lemma TextActionOk(p: Peer, self: Id, secret: nat, e: Event)
    requires p.phase.Free? && p.actions != [] && (p.actions[0].SendText? || p.actions[0].ProcessReceived?)
    ensures ActionOk(p, self, secret, Begun(p.(actions := p.actions[1..]), self, p.actions[0], secret, e))
  {
    var rest := p.(actions := p.actions[1..]);
    match p.actions[0] {
      case ProcessReceived(timestamp, from, received) => ReceivedChangesRows(rest, timestamp, from, received);
      case SendText(text) => SentTextChangesRows(rest, self, text, e);
    }
    hide Received, SentText;
  }

  lemma ReplyActionOk(p: Peer, self: Id, secret: nat, e: Event)
    requires p.phase.Free? && p.actions != [] && p.actions[0].ReplyToInvite?
    ensures ActionOk(p, self, secret, Begun(p.(actions := p.actions[1..]), self, p.actions[0], secret, e))
  {
    hide Received, SentText, RepliedToFileInvite;
  }

  lemma FileActionOk(p: Peer, self: Id, secret: nat, e: Event)
    requires p.phase.Free? && p.actions != [] && (p.actions[0].ReplyToFileInvite? || p.actions[0].BeginFileExchange?)
    ensures ActionOk(p, self, secret, Begun(p.(actions := p.actions[1..]), self, p.actions[0], secret, e))
  {
    hide Received, SentText, RepliedToInvite;
  }

  lemma ConversationActionOk(p: Peer, self: Id, secret: nat, e: Event)
    requires p.phase.Free? && p.actions != [] && (p.actions[0].StartConversation? || p.actions[0].DeleteConversation?)
    ensures ActionOk(p, self, secret, Begun(p.(actions := p.actions[1..]), self, p.actions[0], secret, e))
  {
    hide Received, SentText, RepliedToInvite, RepliedToFileInvite;
  }

  lemma BegunAction(p: Peer, self: Id, secret: nat, e: Event)
    requires p.phase.Free?
    ensures ActionOk(p, self, secret, Acted(p, self, secret, e))
  {
    if p.actions != [] {
      assert Acted(p, self, secret, e) == Begun(p.(actions := p.actions[1..]), self, p.actions[0], secret, e);
      hide Acted, Begun;
      match p.actions[0] {
        case SendText(_) => TextActionOk(p, self, secret, e);
        case ProcessReceived(_, _, _) => TextActionOk(p, self, secret, e);
        case ReplyToInvite(_) => ReplyActionOk(p, self, secret, e);
        case ReplyToFileInvite(_, _) => FileActionOk(p, self, secret, e);
        case BeginFileExchange(_) => FileActionOk(p, self, secret, e);
        case _ => ConversationActionOk(p, self, secret, e);
      }
      hide ActionOk;
    }
  }

  lemma BeginKeeps(w: World, i: Id, e: Event)
    requires Inv(w) && i < |w.peers| && w.peers[i].phase.Free?
    ensures Inv(Do(w, Act(i, e)))
  {
    hide Acted, Inv, Do;
    ActIs(w, i, e);
    InvPeer(w, i);
    var p := w.peers[i];
    BegunAction(p, i, |w.origins|, e);
    NextSecret(w);
    assert p.actions != [] ==> p.actions[0] in p.actions;
    PlainAct(w, i, e);
  }

  lemma ActKeeps(w: World, i: Id, e: Event)
    requires Inv(w) && i < |w.peers|
    ensures Inv(Do(w, Act(i, e)))
  {
    var p := w.peers[i];
    match p.phase {
      case Free =>
        BeginKeeps(w, i, e);
      case CreateSendInvite(_) => SendInviteKeeps(w, i, e);
      case CreateAwaitKey(_) => CreatorTakesKey(w, i, e);
      case CreateSendKey(_, _) => CreatorSendsKey(w, i, e);
      case CreateAwaitHeader(_, _) => CreatorTakesHeader(w, i, e);
      case CreateSendHeader(_, _, _) => CreatorFinishes(w, i, e);
      case ReplySendKey(_, _) => ReplierSendsKey(w, i, e);
      case ReplyAwaitKey(_, _) => ReplierTakesKey(w, i, e);
      case ReplySendHeader(_, _, _) => ReplierSendsHeader(w, i, e);
      case ReplyAwaitHeader(_, _, _) => ReplierFinishes(w, i, e);
      case _ => FileKeeps(w, i, e);
    }
  }

  // -------- Every step, every run --------

  // Hearing a message or the user only adds to the queues.
  ghost predicate Heard(w: World, self: Id, p: Peer, q: Peer) {
    && (q.phase == p.phase || q.phase == Aborted) && q.conversations == p.conversations && q.users == p.users
    && (forall m :: m in q.setupMessages ==> m in p.setupMessages || (m in w.sent && m.to == self))
    && (forall a :: a in q.actions && a !in p.actions ==>
          (a.StartConversation? ==> Other(|w.peers|, self, a.id)) && (a.ReplyToInvite? ==> Other(|w.peers|, self, a.from)))
  }

  // What is heard joins one queue, and what is asked for the lifecycle queue.
  predicate Grows(p: Peer, q: Peer) {
    && (q.phase == p.phase || q.phase == Aborted) && q.conversations == p.conversations && q.users == p.users
    && (q.setupMessages == p.setupMessages || |q.setupMessages| == |p.setupMessages| + 1)
    && (q.actions == p.actions || |q.actions| == |p.actions| + 1)
    && p.setupMessages <= q.setupMessages && p.actions <= q.actions
  }

  // What joins the lifecycle queue with a message.
  predicate GrowsBy(p: Peer, q: Peer, m: Message) {
    && Grows(p, q)
    && (q.setupMessages != p.setupMessages ==> q.setupMessages[|p.setupMessages|] == m)
    && (q.actions != p.actions ==>
          var a := q.actions[|p.actions|];
          !a.StartConversation? && (a.ReplyToInvite? ==> a.from == m.from && m.flag == ExchangeKeys))
  }

  lemma InviteGrows(p: Peer, m: Message)
    requires m.flag == ExchangeKeys || m.flag == FileAsk
    ensures GrowsBy(p, Listened(p, m), m)
  {
  }

  lemma ListenedGrows(p: Peer, m: Message)
    ensures GrowsBy(p, Listened(p, m), m)
  {
    if m.flag == ExchangeKeys || m.flag == FileAsk {
      InviteGrows(p, m);
      hide Listened;
    }
  }

  predicate GrowsFor(p: Peer, q: Peer) {
    && Grows(p, q) && q.setupMessages == p.setupMessages
    && (q.actions != p.actions ==>
          var a := q.actions[|p.actions|];
          !a.ReplyToInvite? && (a.StartConversation? ==> a.id in p.users))
  }

  lemma ConversationGrows(p: Peer, request: Request)
    requires request.StartWith? || request.ContinueWith? || request.DeleteWith?
    ensures GrowsFor(p, Requested(p, request))
  {
  }

  lemma RequestedGrows(p: Peer, request: Request)
    ensures GrowsFor(p, Requested(p, request))
  {
    if request.StartWith? || request.ContinueWith? || request.DeleteWith? {
      ConversationGrows(p, request);
      hide Requested, GrowsFor;
    }
  }

  lemma HeardMessage(w: World, p: Peer, m: Message)
    requires m in w.sent && MessageOk(w, m)
    ensures Heard(w, m.to, p, Listened(p, m))
  {
    ListenedGrows(p, m);
    hide Listened;
    var q := Listened(p, m);
    assert forall x :: x in q.setupMessages ==> x in p.setupMessages || x == m;
    assert forall a :: a in q.actions ==> a in p.actions || (q.actions != p.actions && a == q.actions[|p.actions|]);
  }

  lemma HeardRequest(w: World, self: Id, p: Peer, request: Request)
    requires InboxOk(w, self, p)
    ensures Heard(w, self, p, Requested(p, request))
  {
    RequestedGrows(p, request);
    hide Requested;
    var q := Requested(p, request);
    assert forall a :: a in q.actions ==> a in p.actions || (q.actions != p.actions && a == q.actions[|p.actions|]);
  }

  lemma DeliverKeeps(w: World, m: Message)
    requires Inv(w) && m in w.inFlight && m.to < |w.peers|
    ensures Inv(Do(w, Deliver(m)))
  {
    hide Listened, Inv;
    InvPeer(w, m.to);
    InvMessage(w, m);
    HeardMessage(w, w.peers[m.to], m);
    QuietStep(w, Do(w, Deliver(m)), m.to, None);
  }

  lemma AskKeeps(w: World, id: Id, request: Request)
    requires Inv(w) && id < |w.peers|
    ensures Inv(Do(w, Ask(id, request)))
  {
    hide Requested, Inv;
    InvPeer(w, id);
    HeardRequest(w, id, w.peers[id], request);
    QuietStep(w, Do(w, Ask(id, request)), id, None);
  }

  lemma UsersKeep(w: World, id: Id, users: set<Id>)
    requires Inv(w) && id < |w.peers|
    ensures Inv(Do(w, UsersChanged(id, users)))
  {
    hide Inv;
    InvPeer(w, id);
    QuietStep(w, Do(w, UsersChanged(id, users)), id, None);
  }

  lemma StepKeeps(w: World, step: Step)
    requires Inv(w)
    ensures Inv(Do(w, step))
  {
    hide Inv, Acted, Listened, Requested;
    match step {
      case Deliver(m) => if m in w.inFlight && m.to < |w.peers| { DeliverKeeps(w, m); }
      case Lose(m) => LoseKeeps(w, m);
      case Act(id, e) => if id < |w.peers| { ActKeeps(w, id, e); }
      case Ask(id, request) => if id < |w.peers| { AskKeeps(w, id, request); }
      case UsersChanged(id, users) => if id < |w.peers| { UsersKeep(w, id, users); }
    }
  }

  lemma LostPeerOk(w: World, inFlight: multiset<Message>, i: Id)
    requires i < |w.peers| && PeerOk(w, i)
    ensures PeerOk(w.(inFlight := inFlight), i)
  {
  }

  lemma LoseKeeps(w: World, m: Message)
    requires Inv(w)
    ensures Inv(Do(w, Lose(m)))
  {
    if w.peers != [] {
      hide Inv, PeerOk;
      InvPeer(w, 0);
      assert Do(w, Lose(m)) == w.(inFlight := w.inFlight - multiset{m});
      hide Do;
      LostPeerOk(w, w.inFlight - multiset{m}, 0);
      hide MessageOk, HeadersReady, DoneReady;
      QuietStep(w, Do(w, Lose(m)), 0, None);
    }
  }

  lemma {:induction false} RunKeeps(w: World, steps: seq<Step>)
    requires Inv(w)
    ensures Inv(Run(w, steps))
  {
    hide Inv, Do;
    if steps == [] {
    } else {
      RunKeeps(w, steps[..|steps| - 1]);
      StepKeeps(Run(w, steps[..|steps| - 1]), steps[|steps| - 1]);
    }
  }

  lemma InitialInv(w: World)
    requires Initial(w)
    ensures Inv(w)
  {
    forall i | 0 <= i < |w.peers| ensures PeerOk(w, i) {
      assert Fresh(w.peers[i]);
    }
  }

  // -------- The results --------

  // Agreement: whatever was lost, delayed or reordered and whoever gave up, streams that an
  // invited client has returned belong to an inviter session of exactly the client that it
  // replied to, with the same keys, each encoder being in the state of the other's decoder.
  lemma Agreement(w: World, steps: seq<Step>, b: Session)
    requires Initial(w) && b in Run(w, steps).built && b.origin.Invited?
    ensures Answered(Run(w, steps).built, b)
  {
    InitialInv(w);
    RunKeeps(w, steps);
    assert SessionOk(Run(w, steps), b);
  }

  // No inviter session answers for two: one invited session per inviter session.
  lemma AgreementIsInjective(w: World, steps: seq<Step>, b: Session, c: Session)
    requires Initial(w) && b in Run(w, steps).built && c in Run(w, steps).built && b.keys == c.keys
    requires b.origin.Invited? && c.origin.Invited?
    ensures b == c
  {
    InitialInv(w);
    RunKeeps(w, steps);
    hide Run;
  }

  // The other direction: an inviter returns streams only after its partner has sent it, under
  // the same keys, the header that its decoder is built from.
  lemma InviterHasPartner(w: World, steps: seq<Step>, b: Session)
    requires Initial(w) && b in Run(w, steps).built && b.origin.Inviter?
    ensures HeaderSentWith(Run(w, steps).sent, b.origin.partner, b.origin.peer, b.keys.serverKey, b.streams.decryption.header)
    ensures b.streams == InviterStreams(b.keys, b.streams.decryption.header, b.streams.encryption.header)
  {
    InitialInv(w);
    RunKeeps(w, steps);
    assert SessionOk(Run(w, steps), b);
  }

  // Whenever two clients hold a conversation with each other, their stored streams fit.
  lemma StoresArePaired(w: World, steps: seq<Step>, i: Id, r: Id)
    requires Initial(w) && i < |w.peers| && r < |w.peers| && i != r
    ensures |Run(w, steps).peers| == |w.peers|
    ensures PairedStores(Run(w, steps).peers[i], Run(w, steps).peers[r], i, r)
  {
    InitialInv(w);
    RunKeeps(w, steps);
    PeersStay(w, steps);
    assert PairOk(Run(w, steps), i, r);
  }

  lemma PeersStayInStep(w: World, step: Step)
    ensures |Do(w, step).peers| == |w.peers|
  {
    hide Acted, Listened, Requested;
  }

  lemma {:induction false} PeersStay(w: World, steps: seq<Step>)
    ensures |Run(w, steps).peers| == |w.peers|
  {
    hide Do;
    if steps != [] {
      PeersStay(w, steps[..|steps| - 1]);
      PeersStayInStep(Run(w, steps[..|steps| - 1]), steps[|steps| - 1]);
    }
  }
}
