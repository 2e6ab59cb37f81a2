/** How a conversation handshake ends between two clients when nothing goes wrong: with fitting
    streams on both sides. */
module Completion {
  import opened Prelude
  import opened Crypto
  import opened Protocol
  import opened World
  import opened Handshake

  // -------- Fault-free runs --------

  // The action thread has something to do other than wait.
  predicate Ready(p: Peer) {
    match p.phase
    case Free => p.actions != []
    case CreateAwaitKey(_) => p.setupMessages != []
    case CreateAwaitHeader(_, _) => p.setupMessages != []
    case ReplyAwaitKey(_, _) => p.setupMessages != []
    case ReplyAwaitHeader(_, _, _) => p.setupMessages != []
    case FileAwaitAnswer(_, _) => p.fileMessages != []
    case FileAwaitChunk(_) => p.fileMessages != []
    case Aborted => false
    case _ => true
  }

  // Nothing is lost, nobody is too late, no call fails and every invite is accepted.
  predicate FaultFree(w: World, step: Step) {
    match step
    case Deliver(m) => m in w.inFlight
    case Act(id, e) => id < |w.peers| && Ready(w.peers[id]) && e.ok && !e.timedOut && e.accepted
    case _ => false
  }

  // Runs in which no user asks for anything.
  predicate NoRequests(steps: seq<Step>) {
    forall k :: 0 <= k < |steps| ==> !steps[k].Ask?
  }

  lemma NothingRequested()
    ensures NoRequests([])
  {
  }

  lemma NothingMoreRequested(step: Step, rest: seq<Step>)
    requires !step.Ask? && NoRequests(rest)
    ensures NoRequests([step] + rest)
  {
  }

  ghost predicate FaultFreeRun(w: World, steps: seq<Step>) {
    forall k :: 0 <= k < |steps| ==> FaultFree(Run(w, steps[..k]), steps[k])
  }

  // A queue loses nothing but the message that the waiting operation takes from it.
  predicate NothingDiscarded(w: World, v: World, step: Step) {
    step.Act? && step.id < |w.peers| == |v.peers| ==>
      var before, after := w.peers[step.id].setupMessages, v.peers[step.id].setupMessages;
      after == before || (before != [] && after == before[1..])
  }

  // -------- The sixteen stages --------

  predicate Is(p: Peer, busy: bool, phase: Phase, actions: seq<Action>, inbox: seq<Message>) {
    && p.settingUpConversation == busy && !p.exchangingFile
    && p.phase == phase && p.actions == actions && p.setupMessages == inbox
  }

  predicate Idle(p: Peer) {
    Is(p, false, Free, [], [])
  }

  ghost predicate InFlight(w: World, flag: Flag, from: Id, to: Id, body: Body) {
    exists t :: w.inFlight == multiset{Message(flag, t, from, to, body)}
  }

  predicate Holding(p: Peer, busy: bool, phase: Phase, flag: Flag, from: Id, to: Id, body: Body) {
    |p.setupMessages| == 1 && p.setupMessages[0].(timestamp := 0) == Message(flag, 0, from, to, body)
    && Is(p, busy, phase, [], p.setupMessages)
  }

  // Nobody else has anything to do.
  ghost predicate OthersRest(w: World, a: Id, b: Id) {
    forall k :: 0 <= k < |w.peers| && k != a && k != b ==> !Ready(w.peers[k])
  }

  // Client a invites client b.
  ghost predicate Stage(n: nat, w: World, a: Id, b: Id) {
    && a < |w.peers| && b < |w.peers| && a != b && OthersRest(w, a, b)
    && var p, q := w.peers[a], w.peers[b];
    && b in p.users && a in q.users
    && (n < 14 ==> b !in p.conversations)
    && (4 <= n < 16 ==> a !in q.conversations)
    && (n in {0, 1, 3, 4, 6, 7, 9, 10, 12, 13, 15, 16} ==> w.inFlight == multiset{})
    && match n
       case 0 => Is(p, false, Free, [StartConversation(b)], []) && Idle(q)
       case 1 => Is(p, true, CreateSendInvite(b), [], []) && Idle(q)
       case 2 => Is(p, true, CreateAwaitKey(b), [], []) && Idle(q) && InFlight(w, ExchangeKeys, a, b, Invite)
       case 3 => Is(p, true, CreateAwaitKey(b), [], []) && Is(q, true, Free, [ReplyToInvite(a)], [])
       case 4 => Is(p, true, CreateAwaitKey(b), [], []) && q.phase.ReplySendKey? && Is(q, true, ReplySendKey(a, q.phase.secret), [], [])
       case 5 =>
         && Is(p, true, CreateAwaitKey(b), [], []) && q.phase.ReplyAwaitKey? && Is(q, true, ReplyAwaitKey(a, q.phase.secret), [], [])
         && InFlight(w, ExchangeKeys, b, a, PublicKeyBody(Pub(q.phase.secret)))
       case 6 =>
         && q.phase.ReplyAwaitKey? && Is(q, true, ReplyAwaitKey(a, q.phase.secret), [], [])
         && Holding(p, true, CreateAwaitKey(b), ExchangeKeys, b, a, PublicKeyBody(Pub(q.phase.secret)))
       case 7 =>
         && q.phase.ReplyAwaitKey? && Is(q, true, ReplyAwaitKey(a, q.phase.secret), [], [])
         && Creates(p, q.phase.secret) && Is(p, true, CreateSendKey(b, p.phase.keys), [], [])
       case 8 =>
         && q.phase.ReplyAwaitKey? && Is(q, true, ReplyAwaitKey(a, q.phase.secret), [], [])
         && Creates(p, q.phase.secret) && Is(p, true, CreateAwaitHeader(b, p.phase.keys), [], [])
         && InFlight(w, ExchangeKeysDone, a, b, PublicKeyBody(p.phase.keys.clientKey.client))
       case 9 =>
         && q.phase.ReplyAwaitKey?
         && Creates(p, q.phase.secret) && Is(p, true, CreateAwaitHeader(b, p.phase.keys), [], [])
         && Holding(q, true, ReplyAwaitKey(a, q.phase.secret), ExchangeKeysDone, a, b, PublicKeyBody(p.phase.keys.clientKey.client))
       case 10 => AgreeingKeys(p, q, a, b) && q.phase.ReplySendHeader?
       case 11 =>
         && AgreeingKeys(p, q, a, b) && q.phase.ReplyAwaitHeader?
         && InFlight(w, ExchangeHeaders, b, a, HeaderBody(SealedHeader(q.phase.keys.serverKey, q.phase.encryption.header)))
       case 12 =>
         && p.phase.CreateAwaitHeader? && q.phase.ReplyAwaitHeader? && p.phase.keys == q.phase.keys
         && Is(q, true, ReplyAwaitHeader(a, q.phase.keys, q.phase.encryption), [], [])
         && q.phase.encryption == StreamState(q.phase.keys.serverKey, q.phase.encryption.header, 0)
         && Holding(p, true, CreateAwaitHeader(b, p.phase.keys), ExchangeHeaders, b, a,
                    HeaderBody(SealedHeader(q.phase.keys.serverKey, q.phase.encryption.header)))
       case 13 =>
         && q.phase.ReplyAwaitHeader? && Is(q, true, ReplyAwaitHeader(a, q.phase.keys, q.phase.encryption), [], [])
         && p.phase.CreateSendHeader? && Is(p, true, CreateSendHeader(b, q.phase.keys, p.phase.streams), [], [])
         && Fits(p.phase.streams, q)
       case 14 =>
         && q.phase.ReplyAwaitHeader? && Is(q, true, ReplyAwaitHeader(a, q.phase.keys, q.phase.encryption), [], [])
         && Idle(p) && b in p.conversations && Fits(p.conversations[b], q)
         && InFlight(w, ExchangeHeadersDone, a, b,
                     HeaderBody(SealedHeader(q.phase.keys.clientKey, p.conversations[b].encryption.header)))
       case 15 =>
         && q.phase.ReplyAwaitHeader? && Idle(p) && b in p.conversations && Fits(p.conversations[b], q)
         && Holding(q, true, ReplyAwaitHeader(a, q.phase.keys, q.phase.encryption), ExchangeHeadersDone, a, b,
                    HeaderBody(SealedHeader(q.phase.keys.clientKey, p.conversations[b].encryption.header)))
       case 16 =>
         && Idle(p) && Idle(q) && b in p.conversations && a in q.conversations
         && Mirrored(p.conversations[b], q.conversations[a])
       case _ => false
  }

  predicate Creates(p: Peer, secret: nat) {
    (p.phase.CreateSendKey? || p.phase.CreateAwaitHeader?)
    && p.phase.keys == ClientSessionKeys(p.phase.keys.clientKey.client.secret, Pub(secret))
  }

  predicate AgreeingKeys(p: Peer, q: Peer, a: Id, b: Id) {
    && p.phase.CreateAwaitHeader? && (q.phase.ReplySendHeader? || q.phase.ReplyAwaitHeader?)
    && Is(p, true, CreateAwaitHeader(b, q.phase.keys), [], [])
    && q.phase.from == a && Is(q, true, q.phase, [], [])
    && q.phase.encryption == StreamState(q.phase.keys.serverKey, q.phase.encryption.header, 0)
  }

  // The inviter's streams fit what the invited client still waits to complete.
  predicate Fits(streams: Streams, q: Peer)
    requires q.phase.ReplyAwaitHeader?
  {
    && q.phase.encryption == StreamState(q.phase.keys.serverKey, q.phase.encryption.header, 0)
    && streams.decryption == q.phase.encryption
    && streams.encryption == StreamState(q.phase.keys.clientKey, streams.encryption.header, 0)
  }

  ghost predicate Advances(n: nat, w: World, a: Id, b: Id, step: Step) {
    Stage(n + 1, Do(w, step), a, b) && NothingDiscarded(w, Do(w, step), step)
  }

  // What a delivery and a step of the action thread do here.

  lemma DeliverIs(w: World, m: Message)
    requires m in w.inFlight && m.to < |w.peers|
    ensures Do(w, Deliver(m)) == w.(
              inFlight := w.inFlight - multiset{m}, peers := w.peers[m.to := Listened(w.peers[m.to], m)])
  {
    hide Listened;
  }

  lemma InviteHeard(p: Peer, m: Message)
    requires m.flag == ExchangeKeys && m.body == Invite
    requires !p.phase.Aborted? && !p.settingUpConversation && !p.exchangingFile
    ensures Listened(p, m) == p.(settingUpConversation := true, actions := p.actions + [ReplyToInvite(m.from)])
  {
  }

  lemma AnswerHeard(p: Peer, m: Message)
    requires !p.phase.Aborted?
    requires (m.flag == ExchangeKeys && m.body.PublicKeyBody?) || m.flag in {ExchangeKeysDone, ExchangeHeaders, ExchangeHeadersDone}
    ensures Listened(p, m) == Queued(p, m)
  {
  }

  lemma Starts(p: Peer, self: Id, secret: nat, e: Event)
    requires p.phase.Free? && |p.actions| == 1 && p.actions[0].StartConversation?
    requires p.actions[0].id !in p.conversations && !p.settingUpConversation && !p.exchangingFile
    ensures Acted(p, self, secret, e) == Only(p.(settingUpConversation := true, setupMessages := [], actions := [],
                                                 phase := CreateSendInvite(p.actions[0].id)))
  {
  }

  lemma Accepts(p: Peer, self: Id, secret: nat, e: Event)
    requires p.phase.Free? && |p.actions| == 1 && p.actions[0].ReplyToInvite? && p.actions[0].from in p.users
    requires p.settingUpConversation && !p.exchangingFile && !e.timedOut && e.accepted
    ensures var from := p.actions[0].from;
      Acted(p, self, secret, e) == Effect(
        Forgotten(p, from).(actions := [], setupMessages := [], phase := ReplySendKey(from, secret)),
        None, Some(Invited(self, from)), None)
  {
    hide Awaited, FileAwaited, ChunkSent, SentText, Received, RepliedToFileInvite;
  }

  lemma SendsOn(p: Peer, self: Id, secret: nat, e: Event)
    requires p.phase.CreateSendInvite? || p.phase.CreateSendKey? || p.phase.ReplySendKey? || p.phase.ReplySendHeader?
    requires e.ok
    ensures Acted(p, self, secret, e) == Sent(p.(phase := AfterSend(p.phase)), SentBy(p.phase, self, e.sendTime))
  {
    hide Begun, Awaited, FileAwaited, ChunkSent;
  }

  lemma TakesKey(p: Peer, self: Id, secret: nat, e: Event)
    requires p.phase.CreateAwaitKey? && |p.setupMessages| == 1 && e.ok && !e.timedOut
    requires p.setupMessages[0].flag == ExchangeKeys && p.setupMessages[0].body.PublicKeyBody?
    ensures var keys := ClientSessionKeys(secret, p.setupMessages[0].body.key);
      Acted(p, self, secret, e) == Effect(p.(setupMessages := [], phase := CreateSendKey(p.phase.to, keys)),
                                          None, Some(Inviter(self, p.phase.to)), None)
  {
    hide Begun, FileAwaited, ChunkSent, ClientSessionKeys;
  }

  lemma TakesAnswer(p: Peer, self: Id, secret: nat, e: Event)
    requires p.phase.ReplyAwaitKey? && |p.setupMessages| == 1 && e.ok && !e.timedOut
    requires p.setupMessages[0].flag == ExchangeKeysDone && p.setupMessages[0].body.PublicKeyBody?
    ensures var keys := ServerSessionKeys(p.phase.secret, p.setupMessages[0].body.key);
      Acted(p, self, secret, e) == Only(p.(setupMessages := [],
        phase := ReplySendHeader(p.phase.from, keys, StreamState(keys.serverKey, e.header, 0))))
  {
    hide Begun, FileAwaited, ChunkSent, ServerSessionKeys;
  }

  lemma TakesHeader(p: Peer, self: Id, secret: nat, e: Event)
    requires p.phase.CreateAwaitHeader? && |p.setupMessages| == 1 && e.ok && !e.timedOut
    requires IsHeader(p.setupMessages[0], ExchangeHeaders, p.phase.keys.serverKey)
    ensures var streams := InviterStreams(p.phase.keys, p.setupMessages[0].body.box.header, e.header);
      Acted(p, self, secret, e) == Only(p.(setupMessages := [], phase := CreateSendHeader(p.phase.to, p.phase.keys, streams)))
  {
    hide Begun, FileAwaited, ChunkSent;
  }

  lemma Finishes(p: Peer, self: Id, secret: nat, e: Event)
    requires p.phase.CreateSendHeader? && e.ok && p.phase.to !in p.conversations
    ensures var to, keys, streams := p.phase.to, p.phase.keys, p.phase.streams;
      Acted(p, self, secret, e) == Effect(
        Finished(p).(conversations := p.conversations[to := streams]),
        Some(Message(ExchangeHeadersDone, e.sendTime, self, to, HeaderBody(SealedHeader(keys.clientKey, streams.encryption.header)))),
        None, Some(Session(Inviter(self, to), keys, streams)))
  {
    hide Begun, Awaited, FileAwaited, ChunkSent;
  }

  lemma TakesLastHeader(p: Peer, self: Id, secret: nat, e: Event)
    requires p.phase.ReplyAwaitHeader? && |p.setupMessages| == 1 && e.ok && !e.timedOut && p.phase.from !in p.conversations
    requires IsHeader(p.setupMessages[0], ExchangeHeadersDone, p.phase.keys.clientKey)
    ensures var from, keys := p.phase.from, p.phase.keys;
      var streams := Streams(StreamState(keys.clientKey, p.setupMessages[0].body.box.header, 0), p.phase.encryption);
      Acted(p, self, secret, e) == Effect(
        Finished(p).(toUserId := from, conversations := p.conversations[from := streams]),
        None, None, Some(Session(Invited(self, from), keys, streams)))
  {
    hide Begun, FileAwaited, ChunkSent;
  }

  lemma Stage0(w: World, a: Id, b: Id, step: Step)
    requires Stage(0, w, a, b) && FaultFree(w, step)
    ensures Advances(0, w, a, b, step)
  {
    hide Do, Acted, Listened;
    assert step.Act? && step.id == a;
    ActIs(w, a, step.e);
    Starts(w.peers[a], a, |w.origins|, step.e);
  }

  lemma Stage1(w: World, a: Id, b: Id, step: Step)
    requires Stage(1, w, a, b) && FaultFree(w, step)
    ensures Advances(1, w, a, b, step)
  {
    hide Do, Acted, Listened;
    assert step.Act? && step.id == a;
    ActIs(w, a, step.e);
    SendsOn(w.peers[a], a, |w.origins|, step.e);
  }

  lemma Stage2(w: World, a: Id, b: Id, step: Step)
    requires Stage(2, w, a, b) && FaultFree(w, step)
    ensures Advances(2, w, a, b, step)
  {
    hide Do, Acted, Listened;
    var m :| w.inFlight == multiset{m};
    assert step == Deliver(m) && m.to == b;
    DeliverIs(w, m);
    InviteHeard(w.peers[b], m);
  }

  lemma Stage3(w: World, a: Id, b: Id, step: Step)
    requires Stage(3, w, a, b) && FaultFree(w, step)
    ensures Advances(3, w, a, b, step)
  {
    hide Do, Acted, Listened;
    assert step.Act? && step.id == b;
    ActIs(w, b, step.e);
    Accepts(w.peers[b], b, |w.origins|, step.e);
  }

  lemma Stage4(w: World, a: Id, b: Id, step: Step)
    requires Stage(4, w, a, b) && FaultFree(w, step)
    ensures Advances(4, w, a, b, step)
  {
    hide Do, Acted, Listened;
    assert step.Act? && step.id == b;
    ActIs(w, b, step.e);
    SendsOn(w.peers[b], b, |w.origins|, step.e);
  }

  lemma Stage5(w: World, a: Id, b: Id, step: Step)
    requires Stage(5, w, a, b) && FaultFree(w, step)
    ensures Advances(5, w, a, b, step)
  {
    hide Do, Acted, Listened;
    var m :| w.inFlight == multiset{m};
    assert step == Deliver(m) && m.to == a;
    DeliverIs(w, m);
    AnswerHeard(w.peers[a], m);
  }

  lemma Stage6(w: World, a: Id, b: Id, step: Step)
    requires Stage(6, w, a, b) && FaultFree(w, step)
    ensures Advances(6, w, a, b, step)
  {
    hide Do, Acted, Listened;
    assert step.Act? && step.id == a;
    ActIs(w, a, step.e);
    TakesKey(w.peers[a], a, |w.origins|, step.e);
  }

  lemma Stage7(w: World, a: Id, b: Id, step: Step)
    requires Stage(7, w, a, b) && FaultFree(w, step)
    ensures Advances(7, w, a, b, step)
  {
    hide Do, Acted, Listened;
    assert step.Act? && step.id == a;
    ActIs(w, a, step.e);
    SendsOn(w.peers[a], a, |w.origins|, step.e);
  }

  lemma Stage8(w: World, a: Id, b: Id, step: Step)
    requires Stage(8, w, a, b) && FaultFree(w, step)
    ensures Advances(8, w, a, b, step)
  {
    hide Do, Acted, Listened;
    var m :| w.inFlight == multiset{m};
    assert step == Deliver(m) && m.to == b;
    DeliverIs(w, m);
    AnswerHeard(w.peers[b], m);
  }

  lemma Stage9(w: World, a: Id, b: Id, step: Step)
    requires Stage(9, w, a, b) && FaultFree(w, step)
    ensures Advances(9, w, a, b, step)
  {
    hide Do, Acted, Listened;
    assert step.Act? && step.id == b;
    ActIs(w, b, step.e);
    TakesAnswer(w.peers[b], b, |w.origins|, step.e);
  }

  lemma Stage10(w: World, a: Id, b: Id, step: Step)
    requires Stage(10, w, a, b) && FaultFree(w, step)
    ensures Advances(10, w, a, b, step)
  {
    hide Do, Acted, Listened;
    assert step.Act? && step.id == b;
    ActIs(w, b, step.e);
    SendsOn(w.peers[b], b, |w.origins|, step.e);
  }

  lemma Stage11(w: World, a: Id, b: Id, step: Step)
    requires Stage(11, w, a, b) && FaultFree(w, step)
    ensures Advances(11, w, a, b, step)
  {
    hide Do, Acted, Listened;
    var m :| w.inFlight == multiset{m};
    assert step == Deliver(m) && m.to == a;
    DeliverIs(w, m);
    AnswerHeard(w.peers[a], m);
  }

  lemma Stage12(w: World, a: Id, b: Id, step: Step)
    requires Stage(12, w, a, b) && FaultFree(w, step)
    ensures Advances(12, w, a, b, step)
  {
    hide Do, Acted, Listened;
    assert step.Act? && step.id == a;
    ActIs(w, a, step.e);
    TakesHeader(w.peers[a], a, |w.origins|, step.e);
  }

  lemma Stage13(w: World, a: Id, b: Id, step: Step)
    requires Stage(13, w, a, b) && FaultFree(w, step)
    ensures Advances(13, w, a, b, step)
  {
    hide Do, Acted, Listened;
    assert step.Act? && step.id == a;
    ActIs(w, a, step.e);
    Finishes(w.peers[a], a, |w.origins|, step.e);
  }

  lemma Stage14(w: World, a: Id, b: Id, step: Step)
    requires Stage(14, w, a, b) && FaultFree(w, step)
    ensures Advances(14, w, a, b, step)
  {
    hide Do, Acted, Listened;
    var m :| w.inFlight == multiset{m};
    assert step == Deliver(m) && m.to == b;
    DeliverIs(w, m);
    AnswerHeard(w.peers[b], m);
  }

  lemma Stage15(w: World, a: Id, b: Id, step: Step)
    requires Stage(15, w, a, b) && FaultFree(w, step)
    ensures Advances(15, w, a, b, step)
  {
    hide Do, Acted, Listened, Forgotten;
    assert step.Act? && step.id == b;
    ActIs(w, b, step.e);
    TakesLastHeader(w.peers[b], b, |w.origins|, step.e);
    var v := Do(w, step);
    assert v.peers[a] == w.peers[a] && v.inFlight == multiset{};
    assert Idle(v.peers[b]) && Mirrored(v.peers[a].conversations[b], v.peers[b].conversations[a]);
  }

  lemma Stage16(w: World, a: Id, b: Id, step: Step)
    requires Stage(16, w, a, b)
    ensures !FaultFree(w, step)
  {
  }

  lemma StageAdvances(n: nat, w: World, a: Id, b: Id, step: Step)
    requires Stage(n, w, a, b) && FaultFree(w, step)
    ensures n < 16 && Advances(n, w, a, b, step)
  {
    hide Do, FaultFree;
    if n == 0 { Stage0(w, a, b, step); }
    else if n == 1 { Stage1(w, a, b, step); }
    else if n == 2 { Stage2(w, a, b, step); }
    else if n == 3 { Stage3(w, a, b, step); }
    else if n == 4 { Stage4(w, a, b, step); }
    else if n == 5 { Stage5(w, a, b, step); }
    else if n == 6 { Stage6(w, a, b, step); }
    else if n == 7 { Stage7(w, a, b, step); }
    else if n == 8 { Stage8(w, a, b, step); }
    else if n == 9 { Stage9(w, a, b, step); }
    else if n == 10 { Stage10(w, a, b, step); }
    else if n == 11 { Stage11(w, a, b, step); }
    else if n == 12 { Stage12(w, a, b, step); }
    else if n == 13 { Stage13(w, a, b, step); }
    else if n == 14 { Stage14(w, a, b, step); }
    else if n == 15 { Stage15(w, a, b, step); }
    else { Stage16(w, a, b, step); }
  }

  lemma StageBound(n: nat, w: World, a: Id, b: Id)
    requires Stage(n, w, a, b)
    ensures n <= 16
  {
  }

  // Before the last stage somebody can always take the next step.
  lemma StageIsNotStuck(n: nat, w: World, a: Id, b: Id)
    requires Stage(n, w, a, b) && n < 16
    ensures exists step :: FaultFree(w, step)
  {
    var e := Event(true, false, true, 0, 0, 0, []);
    if n in {2, 5, 8, 11, 14} {
      var m :| m in w.inFlight;
      assert FaultFree(w, Deliver(m));
    } else if n in {0, 1, 6, 7, 12, 13} {
      assert FaultFree(w, Act(a, e));
    } else {
      assert FaultFree(w, Act(b, e));
    }
  }

  // Completeness: however the clients and the network are scheduled, a run without faults goes
  // on until both clients have stored fitting streams and freed their slots, sixteen steps
  // after the invite is asked for, and no message that somebody waits for is ever cleared from a queue.
  lemma {:induction false} FaultFreeRunsComplete(w: World, a: Id, b: Id, n: nat, steps: seq<Step>)
    requires Stage(n, w, a, b) && FaultFreeRun(w, steps)
    ensures n + |steps| <= 16 && Stage(n + |steps|, Run(w, steps), a, b)
    ensures n + |steps| < 16 ==> exists step :: FaultFree(Run(w, steps), step)
    ensures steps != [] ==> NothingDiscarded(Run(w, steps[..|steps| - 1]), Run(w, steps), steps[|steps| - 1])
  {
    hide Do, FaultFree, Stage, NothingDiscarded;
    StageBound(n, w, a, b);
    if steps != [] {
      var before := steps[..|steps| - 1];
      assert forall k :: 0 <= k < |before| ==> before[..k] == steps[..k] && before[k] == steps[k];
      FaultFreeRunsComplete(w, a, b, n, before);
      StageAdvances(n + |before|, Run(w, before), a, b, steps[|steps| - 1]);
    }
    if n + |steps| < 16 {
      StageIsNotStuck(n + |steps|, Run(w, steps), a, b);
    }
  }

  lemma BuiltStaysInStep(w: World, step: Step)
    ensures w.built <= Do(w, step).built
  {
    hide Acted, Listened, Requested;
  }

  lemma {:induction false} BuiltStays(w: World, steps: seq<Step>)
    ensures w.built <= Run(w, steps).built
  {
    hide Do;
    if steps != [] {
      BuiltStays(w, steps[..|steps| - 1]);
      BuiltStaysInStep(Run(w, steps[..|steps| - 1]), steps[|steps| - 1]);
    }
  }

  // The inviter's last send returns streams that no session before has had.
  lemma LastSendBuilds(w: World, a: Id, b: Id, step: Step)
    requires Inv(w) && Stage(13, w, a, b) && FaultFree(w, step)
    ensures exists session :: session in Do(w, step).built && session !in w.built
  {
    hide Inv, Acted, Do;
    InvPeer(w, a);
    var p := w.peers[a];
    assert step.Act? && step.id == a;
    ActIs(w, a, step.e);
    Finishes(p, a, |w.origins|, step.e);
    var session := Session(Inviter(a, b), p.phase.keys, p.phase.streams);
    assert OwnSecret(session) == ClientSecret(p.phase.keys);
    assert session in Do(w, step).built;
  }

  lemma OneStageOn(w: World, a: Id, b: Id, n: nat) returns (step: Step)
    requires Inv(w) && Stage(n, w, a, b) && n < 16
    ensures !step.Ask? && Inv(Do(w, step)) && Stage(n + 1, Do(w, step), a, b)
    ensures w.built <= Do(w, step).built && (n == 13 ==> w.built != Do(w, step).built)
  {
    hide Stage, Do, Inv;
    StageIsNotStuck(n, w, a, b);
    step :| FaultFree(w, step);
    assert !step.Ask?;
    StageAdvances(n, w, a, b, step);
    StepKeeps(w, step);
    BuiltStaysInStep(w, step);
    if n == 13 {
      LastSendBuilds(w, a, b, step);
    }
  }

  // From every stage there is a run to the last one, and it builds something new.
  lemma {:induction false} SomeRunCompletes(w: World, a: Id, b: Id, n: nat) returns (steps: seq<Step>)
    requires Inv(w) && Stage(n, w, a, b)
    ensures NoRequests(steps) && Stage(16, Run(w, steps), a, b)
    ensures n <= 13 ==> Run(w, steps).built != w.built
    decreases 16 - n
  {
    hide Stage, Do, Inv, Run, NoRequests;
    StageBound(n, w, a, b);
    if n == 16 {
      steps := [];
      AtOnce(w);
      NothingRequested();
    } else {
      var step := OneStageOn(w, a, b, n);
      var rest := SomeRunCompletes(Do(w, step), a, b, n + 1);
      steps := [step] + rest;
      NothingMoreRequested(step, rest);
      RunFirst(w, step, rest);
      BuiltStays(Do(w, step), rest);
    }
  }
}
