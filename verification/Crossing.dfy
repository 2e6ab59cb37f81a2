/** Handshakes that come to nothing: invites that cross, and invites that are declined. */
module Crossing {
  import opened Prelude
  import opened Crypto
  import opened Protocol
  import opened World
  import opened Handshake
  import opened Completion

  // -------- Worlds in which no handshake can succeed any more --------

  // What is sent before an inviter's last header.
  predicate Early(m: Message) {
    || (m.flag == ExchangeKeys && (m.body.Denial? || m.body.Invite? || m.body.PublicKeyBody?))
    || m.flag == ExchangeKeysDone || m.flag == ExchangeHeaders
  }

  predicate IsKey(m: Message) {
    m.flag == ExchangeKeys && m.body.PublicKeyBody?
  }

  predicate IsInvite(m: Message) {
    m.flag == ExchangeKeys && m.body == Invite
  }

  predicate EarlyPeer(p: Peer) {
    && !p.phase.CreateSendInvite? && !p.phase.CreateSendHeader? && !p.phase.Exchanging()
    && (forall a :: a in p.actions ==> a.ReplyToInvite?)
    && (forall m :: m in p.setupMessages ==> Early(m) && !IsInvite(m))
  }

  predicate DenialFirst(p: Peer) {
    p.setupMessages != [] && p.setupMessages[0].flag == ExchangeKeys && p.setupMessages[0].body.Denial?
  }

  // Client i waits for a key from client r, and none from there is on its way or can be sent to it any
  // more. A key from anybody else would be taken too, for nobody checks where one comes from.
  ghost predicate Unanswered(w: World, i: Id, r: Id)
    requires i < |w.peers|
  {
    && (forall m :: m in w.inFlight && m.from == i && m.to == r ==> !IsInvite(m))
    && (forall m :: m in w.inFlight && m.to == i && IsKey(m) ==> m.from != r)
    && (forall m :: m in w.peers[i].setupMessages && IsKey(m) ==> m.from != r)
    && (r < |w.peers| ==>
          ReplyToInvite(i) !in w.peers[r].actions
          && !(w.peers[r].phase.ReplySendKey? && w.peers[r].phase.from == i))
  }

  // Client i has taken a key from somebody else than whom it has invited.
  ghost predicate Astray(w: World, phase: Phase) {
    (phase.CreateSendKey? || phase.CreateAwaitHeader?) ==>
      ServerSecret(phase.keys) < |w.origins| && w.origins[ServerSecret(phase.keys)].peer != phase.to
  }

  ghost predicate Hopeless(w: World, i: Id)
    requires i < |w.peers|
  {
    && EarlyPeer(w.peers[i]) && Astray(w, w.peers[i].phase)
    && (w.peers[i].phase.CreateAwaitKey? ==> DenialFirst(w.peers[i]) || Unanswered(w, i, w.peers[i].phase.to))
  }

  ghost predicate Dead(w: World) {
    && (forall i :: 0 <= i < |w.peers| ==> Hopeless(w, i))
    && (forall m :: m in w.inFlight ==> Early(m))
  }

  // -------- One step of such a client --------

  // A header that has gone astray opens nothing.
  predicate NoHeader(p: Peer) {
    p.phase.CreateAwaitHeader? && p.setupMessages != [] ==>
      !IsHeader(p.setupMessages[0], ExchangeHeaders, p.phase.keys.serverKey)
  }

  predicate EarlySend(p: Peer, self: Id, m: Message) {
    Early(m) && !IsInvite(m) && m.from == self && (IsKey(m) ==> p.phase.ReplySendKey? && m.to == p.phase.from)
  }

  predicate KeyIsTaken(p: Peer, secret: nat, next: Phase)
    requires next.CreateSendKey?
  {
    && p.phase == CreateAwaitKey(next.to) && p.setupMessages != [] && IsKey(p.setupMessages[0])
    && next.keys == ClientSessionKeys(secret, p.setupMessages[0].body.key)
  }

  predicate EarlyEffect(p: Peer, self: Id, secret: nat, effect: Effect) {
    var q := effect.peer;
    && EarlyPeer(q) && effect.built.None? && q.conversations.Keys <= p.conversations.Keys
    && (forall m :: m in q.setupMessages ==> m in p.setupMessages)
    && (forall a :: a in q.actions ==> a in p.actions)
    && (effect.sent.Some? ==> EarlySend(p, self, effect.sent.value))
    && (q.phase.CreateAwaitKey? ==> q == p)
    && (q.phase.ReplySendKey? ==> q.phase == p.phase || ReplyToInvite(q.phase.from) in p.actions)
    && (q.phase.CreateAwaitHeader? ==> q.phase == p.phase || p.phase == CreateSendKey(q.phase.to, q.phase.keys))
    && (q.phase.CreateSendKey? ==> q.phase == p.phase || KeyIsTaken(p, secret, q.phase))
  }

  lemma EarlyReply(p: Peer, self: Id, from: Id, secret: nat, e: Event)
    requires EarlyPeer(p) && p.phase.Free?
    ensures var effect := RepliedToInvite(p, self, from, secret, e); var q := effect.peer;
      && EarlyPeer(q) && effect.built.None? && q.conversations == p.conversations && q.actions == p.actions
      && (q.setupMessages == p.setupMessages || q.setupMessages == [])
      && (effect.sent.Some? ==> EarlySend(p, self, effect.sent.value))
      && (q.phase.Free? || q.phase.Aborted? || q.phase == ReplySendKey(from, secret))
  {
  }

  lemma EarlyBegin(p: Peer, self: Id, secret: nat, e: Event)
    requires EarlyPeer(p) && p.phase.Free?
    ensures EarlyEffect(p, self, secret, Acted(p, self, secret, e))
  {
    if p.actions == [] {
      assert Acted(p, self, secret, e) == Only(p);
      hide Acted;
    } else {
      assert p.actions[0] in p.actions;
      var rest, from := p.(actions := p.actions[1..]), p.actions[0].from;
      BegunReply(p, self, secret, e);
      hide Acted;
      ForgetsOnly(rest, from);
      hide Forgotten;
      EarlyReply(Forgotten(rest, from), self, from, secret, e);
      hide RepliedToInvite;
    }
  }

  lemma BegunReply(p: Peer, self: Id, secret: nat, e: Event)
    requires p.phase.Free? && p.actions != [] && p.actions[0].ReplyToInvite?
    ensures var from := p.actions[0].from;
      Acted(p, self, secret, e) == RepliedToInvite(Forgotten(p.(actions := p.actions[1..]), from), self, from, secret, e)
  {
    hide RepliedToInvite, Forgotten;
  }

  lemma ForgetsOnly(p: Peer, id: Id)
    ensures var q := Forgotten(p, id);
      && id !in q.conversations && q == p.(conversations := q.conversations, rows := q.rows)
      && q.conversations.Keys <= p.conversations.Keys
  {
  }

  lemma KeepsWaiting(p: Peer, self: Id, secret: nat, e: Event)
    requires p.phase.CreateAwaitKey? && Acted(p, self, secret, e).peer.phase.CreateAwaitKey?
    ensures Acted(p, self, secret, e).peer == p
  {
    hide Begun, FileAwaited, ChunkSent;
  }

  // A wait that ends, or takes what it finds.
  lemma EarlyWait(p: Peer, self: Id, secret: nat, e: Event)
    requires EarlyPeer(p) && NoHeader(p)
    requires p.phase.CreateAwaitKey? || p.phase.CreateAwaitHeader? || p.phase.ReplyAwaitKey?
    ensures EarlyEffect(p, self, secret, Acted(p, self, secret, e))
  {
    if p.phase.CreateAwaitKey? {
      TakenKey(p, self, secret, e);
      if Acted(p, self, secret, e).peer.phase.CreateAwaitKey? {
        KeepsWaiting(p, self, secret, e);
      }
    } else if p.phase.CreateAwaitHeader? {
      TakenHeader(p, self, secret, e);
    } else {
      TakenAnswer(p, self, secret, e);
    }
    hide Acted, ClientSessionKeys, ServerSessionKeys;
  }

  lemma EarlyLastWait(p: Peer, self: Id, secret: nat, e: Event)
    requires EarlyPeer(p) && p.phase.ReplyAwaitHeader? && p.phase.from !in p.conversations
    ensures EarlyEffect(p, self, secret, Acted(p, self, secret, e))
  {
    TakenLastHeader(p, self, secret, e);
    if p.setupMessages != [] {
      assert p.setupMessages[0] in p.setupMessages;
    }
    hide Acted;
  }

  lemma EarlyAct(p: Peer, self: Id, secret: nat, e: Event)
    requires EarlyPeer(p) && NoHeader(p) && (p.phase.Replying() ==> p.phase.from !in p.conversations)
    ensures EarlyEffect(p, self, secret, Acted(p, self, secret, e))
  {
    hide EarlyEffect, NoHeader;
    if p.phase.Free? {
      EarlyBegin(p, self, secret, e);
    } else if p.phase.Aborted? {
      EarlyAborted(p, self, secret, e);
    } else if p.phase.CreateAwaitKey? || p.phase.CreateAwaitHeader? || p.phase.ReplyAwaitKey? {
      EarlyWait(p, self, secret, e);
    } else if p.phase.ReplyAwaitHeader? {
      EarlyLastWait(p, self, secret, e);
    } else {
      EarlySends(p, self, secret, e);
    }
    hide Acted;
  }

  lemma EarlyAborted(p: Peer, self: Id, secret: nat, e: Event)
    requires EarlyPeer(p) && p.phase.Aborted?
    ensures EarlyEffect(p, self, secret, Acted(p, self, secret, e))
  {
    assert Acted(p, self, secret, e) == Only(p);
    hide Acted;
  }

  lemma EarlySends(p: Peer, self: Id, secret: nat, e: Event)
    requires EarlyPeer(p) && (p.phase.CreateSendKey? || p.phase.ReplySendKey? || p.phase.ReplySendHeader?)
    ensures EarlyEffect(p, self, secret, Acted(p, self, secret, e))
  {
    SentOn(p, self, secret, e);
    hide Acted;
  }

  predicate EarlyHeard(p: Peer, q: Peer, m: Message) {
    && EarlyPeer(q) && q.phase == p.phase && q.conversations == p.conversations
    && (forall a :: a in q.actions ==> a in p.actions || (IsInvite(m) && a == ReplyToInvite(m.from)))
    && (q.setupMessages == p.setupMessages || (!IsInvite(m) && q.setupMessages == p.setupMessages + [m]))
  }

  lemma EarlyListen(p: Peer, m: Message)
    requires EarlyPeer(p) && Early(m)
    ensures EarlyHeard(p, Listened(p, m), m)
  {
  }

  // -------- And what it comes to in the world --------

  ghost predicate StaysDead(w: World, v: World) {
    && Dead(v) && v.built == w.built && |v.peers| == |w.peers|
    && forall i :: 0 <= i < |w.peers| ==> v.peers[i].conversations.Keys <= w.peers[i].conversations.Keys
  }

  // A client that has gone astray is sent no header: whoever could make one has not got its key.
  lemma AstrayHearsNothing(w: World, i: Id)
    requires Inv(w) && i < |w.peers| && Astray(w, w.peers[i].phase)
    ensures NoHeader(w.peers[i])
  {
    hide Inv;
    InvPeer(w, i);
    var p := w.peers[i];
    if p.phase.CreateAwaitHeader? && p.setupMessages != [] {
      var m := p.setupMessages[0];
      assert m in p.setupMessages;
      InvMessage(w, m);
    }
  }

  // The client that acts: a key that it takes is not from whom it has invited.
  lemma ActorStaysHopeless(w: World, id: Id, e: Event)
    requires Inv(w) && Dead(w) && id < |w.peers|
    ensures var effect := Acted(w.peers[id], id, |w.origins|, e);
      EarlyEffect(w.peers[id], id, |w.origins|, effect) && Astray(Do(w, Act(id, e)), effect.peer.phase)
  {
    hide Inv, Acted, Do, EarlyPeer;
    InvPeer(w, id);
    var p := w.peers[id];
    assert Hopeless(w, id);
    AstrayHearsNothing(w, id);
    EarlyAct(p, id, |w.origins|, e);
    ActIs(w, id, e);
    var q := Acted(p, id, |w.origins|, e).peer;
    if q.phase.CreateSendKey? && q.phase != p.phase {
      var m := p.setupMessages[0];
      assert m in p.setupMessages && m.from != q.phase.to;
      InvMessage(w, m);
    }
    hide NoHeader;
  }

  // The others: what it sends or begins gives none of them the key that it waits for.
  lemma OthersStayHopeless(w: World, id: Id, e: Event, i: Id)
    requires Dead(w) && id < |w.peers| && i < |w.peers|
    requires EarlyEffect(w.peers[id], id, |w.origins|, Acted(w.peers[id], id, |w.origins|, e))
    requires i == id ==> Astray(Do(w, Act(id, e)), Acted(w.peers[id], id, |w.origins|, e).peer.phase)
    ensures |Do(w, Act(id, e)).peers| == |w.peers| && Hopeless(Do(w, Act(id, e)), i)
  {
    hide Acted, Do, EarlyPeer, Early, KeyIsTaken;
    ActIs(w, id, e);
    assert Hopeless(w, i) && Hopeless(w, id);
  }

  lemma DeadAct(w: World, id: Id, e: Event)
    requires Inv(w) && Dead(w) && id < |w.peers|
    ensures StaysDead(w, Do(w, Act(id, e)))
  {
    hide Inv, Acted, Do, EarlyPeer, Early, Hopeless, Astray, KeyIsTaken;
    ActorStaysHopeless(w, id, e);
    ActIs(w, id, e);
    forall i | 0 <= i < |w.peers|
      ensures Hopeless(Do(w, Act(id, e)), i)
    {
      OthersStayHopeless(w, id, e, i);
    }
  }

  // A loss or a new user list changes nothing that matters here.
  lemma ElsewhereIs(w: World, step: Step)
    requires step.Lose? || step.UsersChanged?
    ensures var v := Do(w, step);
      && |v.peers| == |w.peers| && v.built == w.built && v.origins == w.origins
      && (forall m :: m in v.inFlight ==> m in w.inFlight)
      && forall i :: 0 <= i < |w.peers| ==> v.peers[i] == w.peers[i].(users := v.peers[i].users)
  {
    hide Acted, Listened, Requested;
  }

  lemma UsersDoNotMatter(p: Peer, users: set<Id>)
    ensures EarlyPeer(p) ==> EarlyPeer(p.(users := users))
    ensures WaitingPeer(p) ==> WaitingPeer(p.(users := users))
  {
  }

  lemma DeadElsewhere(w: World, step: Step)
    requires Dead(w) && (step.Lose? || step.UsersChanged?)
    ensures StaysDead(w, Do(w, step))
  {
    ElsewhereIs(w, step);
    hide Do, Early, EarlyPeer, WaitingPeer;
    var v := Do(w, step);
    forall i | 0 <= i < |w.peers|
      ensures Hopeless(v, i) && v.peers[i].conversations.Keys <= w.peers[i].conversations.Keys
    {
      assert Hopeless(w, i);
      UsersDoNotMatter(w.peers[i], v.peers[i].users);
    }
  }

  // A message that is heard: an invite reaches none whose sender depends on it, and neither does a key.
  lemma HearerStaysHopeless(w: World, v: World, m: Message, i: Id)
    requires Dead(w) && m in w.inFlight && m.to < |w.peers| && i < |w.peers|
    requires |v.peers| == |w.peers|
    requires v == w.(inFlight := w.inFlight - multiset{m}, peers := w.peers[m.to := v.peers[m.to]])
    requires EarlyHeard(w.peers[m.to], v.peers[m.to], m)
    ensures Hopeless(v, i)
  {
    hide EarlyPeer, Early;
    assert Hopeless(w, i) && Hopeless(w, m.to);
  }

  lemma DeadDeliver(w: World, m: Message)
    requires Dead(w) && m in w.inFlight && m.to < |w.peers|
    ensures StaysDead(w, Do(w, Deliver(m)))
  {
    DeliverIs(w, m);
    assert Hopeless(w, m.to);
    hide Listened, Do;
    EarlyListen(w.peers[m.to], m);
    var v := Do(w, Deliver(m));
    hide Early, EarlyPeer, Astray;
    forall i | 0 <= i < |w.peers|
      ensures Hopeless(v, i)
    {
      HearerStaysHopeless(w, v, m, i);
    }
    hide Hopeless;
  }

  lemma DeadStep(w: World, step: Step)
    requires Inv(w) && Dead(w) && !step.Ask?
    ensures StaysDead(w, Do(w, step))
  {
    hide Inv, Acted, Listened, Requested, Hopeless, Early;
    match step {
      case Deliver(m) => if m in w.inFlight && m.to < |w.peers| { DeadDeliver(w, m); }
      case Act(id, e) => if id < |w.peers| { DeadAct(w, id, e); }
      case _ => DeadElsewhere(w, step);
    }
  }

  lemma {:induction false} DeadRun(w: World, steps: seq<Step>)
    requires Inv(w) && Dead(w) && NoRequests(steps)
    ensures StaysDead(w, Run(w, steps))
  {
    hide Do, Dead, Inv;
    if steps != [] {
      var before := steps[..|steps| - 1];
      DeadRun(w, before);
      RunKeeps(w, before);
      DeadStep(Run(w, before), steps[|steps| - 1]);
    }
  }

  // -------- Waiting for an answer --------

  // Free, or waiting for the answer to an invite.
  predicate WaitingPeer(p: Peer) {
    && (p.phase.Free? || p.phase.CreateAwaitKey?) && p.actions == []
    && p.settingUpConversation == p.phase.CreateAwaitKey? && !p.exchangingFile
    && (forall m :: m in p.setupMessages ==> m.flag == ExchangeKeys && m.body == Denial)
  }

  // Everybody is, and only invites and denials are on their way.
  ghost predicate Calm(w: World) {
    && (forall i :: 0 <= i < |w.peers| ==> WaitingPeer(w.peers[i]))
    && (forall m :: m in w.inFlight ==> m.flag == ExchangeKeys && (m.body == Denial || m.body == Invite))
  }

  // The invite of a client that still waits for its addressee and has heard no denial.
  ghost predicate Pending(w: World, m: Message) {
    && m in w.inFlight && m.body == Invite && m.from < |w.peers|
    && w.peers[m.from].phase == CreateAwaitKey(m.to) && w.peers[m.from].setupMessages == []
  }

  lemma NothingPendingIsDead(w: World)
    requires Inv(w) && Calm(w) && forall m :: !Pending(w, m)
    ensures Dead(w)
  {
    hide Inv;
    forall i | 0 <= i < |w.peers|
      ensures Hopeless(w, i)
    {
      InvPeer(w, i);
      assert WaitingPeer(w.peers[i]);
      if w.peers[i].phase.CreateAwaitKey? && w.peers[i].setupMessages != [] {
        assert w.peers[i].setupMessages[0] in w.peers[i].setupMessages;
      }
      forall m | m in w.inFlight && m.from == i && w.peers[i].phase == CreateAwaitKey(m.to)
        ensures IsInvite(m) ==> w.peers[i].setupMessages != []
      {
        assert !Pending(w, m);
      }
      assert w.peers[i].phase.CreateAwaitKey? && w.peers[i].phase.to < |w.peers| ==> WaitingPeer(w.peers[w.peers[i].phase.to]);
    }
  }

  // -------- From a pending invite to a conversation --------

  // The network can lose everything else.
  lemma {:induction false} LoseTheRest(w: World, m: Message) returns (steps: seq<Step>)
    requires m in w.inFlight
    ensures NoRequests(steps) && Run(w, steps) == w.(inFlight := multiset{m})
    decreases |w.inFlight|
  {
    hide Acted, Listened, Requested;
    if w.inFlight == multiset{m} {
      steps := [];
    } else {
      var others := w.inFlight - multiset{m};
      assert w.inFlight == others + multiset{m};
      var x :| x in others;
      var next := Do(w, Lose(x));
      assert next == w.(inFlight := w.inFlight - multiset{x});
      var rest := LoseTheRest(next, m);
      steps := [Lose(x)] + rest;
      RunFirst(w, Lose(x), rest);
    }
  }

  lemma ListedOnly(w: World, id: Id, other: Id)
    requires id < |w.peers| && other < |w.peers| && id != other
    ensures Do(w, UsersChanged(id, {other})) == w.(peers := w.peers[id := w.peers[id].(users := {other})])
  {
    hide Acted, Listened, Requested;
    assert Others({other}, |w.peers|, id) == {other};
  }

  lemma WaitEnds(p: Peer, self: Id, secret: nat, e: Event)
    requires p.phase.CreateAwaitKey? && e.timedOut
    ensures Acted(p, self, secret, e) == Only(Finished(p))
  {
    hide Popped, Begun, FileAwaited, ChunkSent;
  }

  // A client whose wait has ended, or that has not been waiting.
  function Rested(p: Peer): Peer {
    if p.phase.CreateAwaitKey? then Finished(p) else p
  }

  lemma RestedIs(p: Peer)
    requires WaitingPeer(p)
    ensures WaitingPeer(Rested(p)) && Rested(p).phase.Free? && !Ready(Rested(p)) && Rested(p).users == p.users
  {
  }

  lemma OneRests(w: World, k: Id, e: Event)
    requires k < |w.peers| && w.peers[k].phase.CreateAwaitKey? && e.timedOut
    ensures Do(w, Act(k, e)) == w.(peers := w.peers[k := Rested(w.peers[k])])
  {
    WaitEnds(w.peers[k], k, |w.origins|, e);
    hide Acted;
    assert w.built + {} == w.built && w.sent + {} == w.sent && w.origins + [] == w.origins
        && w.inFlight + multiset{} == w.inFlight;
  }

  // The waits of everybody but one client end.
  lemma {:induction false} OthersStopWaiting(w: World, a: Id, count: nat) returns (steps: seq<Step>)
    requires count <= |w.peers| && forall i :: 0 <= i < |w.peers| ==> WaitingPeer(w.peers[i])
    ensures NoRequests(steps)
    ensures var v := Run(w, steps);
      && v == w.(peers := v.peers) && |v.peers| == |w.peers|
      && forall i :: 0 <= i < |w.peers| ==> v.peers[i] == if i < count && i != a then Rested(w.peers[i]) else w.peers[i]
  {
    hide Do, WaitingPeer, Rested;
    if count == 0 {
      steps := [];
      AtOnce(w);
    } else {
      var k := count - 1;
      steps := OthersStopWaiting(w, a, k);
      var v := Run(w, steps);
      if k != a && w.peers[k].phase.CreateAwaitKey? {
        var e := Event(true, true, true, 0, 0, 0, []);
        OneRests(v, k, e);
        RunOn(w, steps, Act(k, e));
        steps := steps + [Act(k, e)];
      } else if k != a {
        RestedAlready(w.peers[k]);
      }
    }
  }

  lemma RestedAlready(p: Peer)
    requires !p.phase.CreateAwaitKey?
    ensures Rested(p) == p
  {
  }

  // Everybody else's waits end, and the two know each other.
  lemma MakeRoom(w: World, a: Id, b: Id) returns (steps: seq<Step>)
    requires Calm(w) && a < |w.peers| && b < |w.peers| && a != b
    ensures NoRequests(steps)
    ensures var v := Run(w, steps);
      && v == w.(peers := v.peers) && |v.peers| == |w.peers| && OthersRest(v, a, b)
      && v.peers[a] == w.peers[a].(users := {b})
      && v.peers[b] == Rested(w.peers[b]).(users := {a})
  {
    hide Run, Do, WaitingPeer, Rested, Ready;
    steps := OthersStopWaiting(w, a, |w.peers|);
    var t := Run(w, steps);
    forall k | 0 <= k < |w.peers| && k != a
      ensures !Ready(t.peers[k])
    {
      assert WaitingPeer(w.peers[k]);
      RestedIs(w.peers[k]);
    }
    ListedOnly(t, a, b);
    var u := Do(t, UsersChanged(a, {b}));
    ListedOnly(u, b, a);
    RunOn(w, steps, UsersChanged(a, {b}));
    RunOn(w, steps + [UsersChanged(a, {b})], UsersChanged(b, {a}));
    steps := steps + [UsersChanged(a, {b})] + [UsersChanged(b, {a})];
  }

  // The invite is heard and accepted.
  lemma InviteAccepted(w: World, a: Id, b: Id, m: Message, e: Event)
    requires a < |w.peers| && b < |w.peers| && a != b && OthersRest(w, a, b) && e.accepted && !e.timedOut
    requires m.flag == ExchangeKeys && m.from == a && m.to == b && m.body == Invite && w.inFlight == multiset{m}
    requires Is(w.peers[a], true, CreateAwaitKey(b), [], []) && b in w.peers[a].users && b !in w.peers[a].conversations
    requires Is(w.peers[b], false, Free, [], w.peers[b].setupMessages) && a in w.peers[b].users
    ensures Stage(4, Do(Do(w, Deliver(m)), Act(b, e)), a, b)
  {
    hide Do, Acted, Listened, Ready;
    var q := w.peers[b];
    DeliverIs(w, m);
    InviteHeard(q, m);
    var v := Do(w, Deliver(m));
    ActIs(v, b, e);
    Accepts(v.peers[b], b, |v.origins|, e);
    hide Forgotten;
    ForgetsOnly(q, a);
  }

  lemma PendingBetween(w: World, m: Message)
    requires Inv(w) && Calm(w) && Pending(w, m)
    ensures m in w.inFlight && m.flag == ExchangeKeys && m.body == Invite
    ensures m.from < |w.peers| && m.to < |w.peers| && m.from != m.to
    ensures Is(w.peers[m.from], true, CreateAwaitKey(m.to), [], []) && m.to !in w.peers[m.from].conversations
    ensures var q := Rested(w.peers[m.to]); Is(q, false, Free, [], q.setupMessages)
  {
    InvPeer(w, m.from);
    hide Inv;
    assert WaitingPeer(w.peers[m.from]) && WaitingPeer(w.peers[m.to]);
  }

  // Four kinds of steps and it is accepted.
  lemma PendingIsAccepted(w: World, m: Message) returns (steps: seq<Step>)
    requires Inv(w) && Calm(w) && Pending(w, m)
    ensures NoRequests(steps) && Stage(4, Run(w, steps), m.from, m.to)
  {
    hide Inv, Run, Do, Stage, Calm, Pending, Rested, Ready;
    PendingBetween(w, m);
    var a, b := m.from, m.to;
    var e := Event(true, false, true, 0, 0, 0, []);
    var first := MakeRoom(w, a, b);
    var u := Run(w, first);
    var second := LoseTheRest(u, m);
    var v := Run(u, second);
    InviteAccepted(v, a, b, m, e);
    RunThrough(w, first, second);
    RunOn(w, first + second, Deliver(m));
    RunOn(w, first + second + [Deliver(m)], Act(b, e));
    steps := first + second + [Deliver(m)] + [Act(b, e)];
  }

  // A pending invite is enough for a conversation.
  lemma PendingCanComplete(w: World, m: Message) returns (steps: seq<Step>)
    requires Inv(w) && Calm(w) && Pending(w, m)
    ensures NoRequests(steps) && Stage(16, Run(w, steps), m.from, m.to)
    ensures Run(w, steps).built != w.built
  {
    hide Inv, Run, Stage, Calm, Pending;
    var first := PendingIsAccepted(w, m);
    RunKeeps(w, first);
    var rest := SomeRunCompletes(Run(w, first), m.from, m.to, 4);
    RunThrough(w, first, rest);
    BuiltStays(w, first);
    BuiltStays(Run(w, first), rest);
    steps := first + rest;
  }

  // Exactly when crossed invites come to something. In any reachable world of clients that are free or
  // wait for answers to invites, some run without further requests ends with streams if and only
  // if an invite is still on its way from a client that waits for its addressee and has not
  // been denied. Invites that were meant for somebody else can be answered, but lead nowhere.
  lemma CrossedInvitesExactly(start: World, before: seq<Step>)
    requires Initial(start) && Calm(Run(start, before))
    ensures var w := Run(start, before);
      (exists steps :: NoRequests(steps) && Run(w, steps).built != w.built) <==> exists m :: Pending(w, m)
  {
    var w := Run(start, before);
    InitialInv(start);
    RunKeeps(start, before);
    hide Inv, Run, Do, Calm, Dead, Pending;
    if m :| Pending(w, m) {
      var steps := PendingCanComplete(w, m);
      assert NoRequests(steps) && Run(w, steps).built != w.built;
    } else {
      NothingPendingIsDead(w);
      forall steps | NoRequests(steps)
        ensures Run(w, steps).built == w.built
      {
        DeadRun(w, steps);
      }
    }
  }

  // Both clients wait and both invites are on their way.
  ghost predicate Crossed(w: World, a: Id, b: Id, s: nat, t: nat) {
    && |w.peers| == 2 && a < 2 && b < 2 && a != b
    && Is(w.peers[a], true, CreateAwaitKey(b), [], []) && Is(w.peers[b], true, CreateAwaitKey(a), [], [])
    && w.inFlight == multiset{Message(ExchangeKeys, s, a, b, Invite), Message(ExchangeKeys, t, b, a, Invite)}
  }

  lemma BusyIgnores(p: Peer, m: Message)
    requires m.flag == ExchangeKeys && m.body == Invite && p.settingUpConversation
    ensures Listened(p, m) == p
  {
  }

  lemma CrossedIsCalm(w: World, a: Id, b: Id, s: nat, t: nat)
    requires Crossed(w, a, b, s, t)
    ensures Calm(w)
  {
  }

  lemma CrossedHeard(w: World, a: Id, b: Id, s: nat, t: nat)
    requires Crossed(w, a, b, s, t)
    ensures var m, n := Message(ExchangeKeys, s, a, b, Invite), Message(ExchangeKeys, t, b, a, Invite);
      Do(Do(w, Deliver(m)), Deliver(n)) == w.(inFlight := multiset{})
  {
    var m, n := Message(ExchangeKeys, s, a, b, Invite), Message(ExchangeKeys, t, b, a, Invite);
    assert m in w.inFlight && n in w.inFlight && m != n;
    hide Do, Listened;
    DeliverIs(w, m);
    BusyIgnores(w.peers[b], m);
    assert w.peers[b := w.peers[b]] == w.peers && w.inFlight - multiset{m} == multiset{n};
    var u := Do(w, Deliver(m));
    assert u == w.(inFlight := multiset{n});
    DeliverIs(u, n);
    BusyIgnores(w.peers[a], n);
    assert w.peers[a := w.peers[a]] == w.peers && multiset{n} - multiset{n} == multiset{};
  }

  // Freshly crossed invites are both pending. Once both have been heard by the waiting clients
  // nothing is, and nothing can come of them any more.
  lemma CrossedInvites(w: World, a: Id, b: Id, s: nat, t: nat)
    requires Crossed(w, a, b, s, t)
    ensures var m, n := Message(ExchangeKeys, s, a, b, Invite), Message(ExchangeKeys, t, b, a, Invite);
      && Calm(w) && Pending(w, m) && Pending(w, n)
      && var v := Do(Do(w, Deliver(m)), Deliver(n)); Calm(v) && forall x :: !Pending(v, x)
  {
    CrossedIsCalm(w, a, b, s, t);
    CrossedHeard(w, a, b, s, t);
    hide Do, WaitingPeer;
  }

  // -------- Runs in which nobody gives up too early --------

  // Any number of clients, and the only invites left go to clients that are themselves waiting.
  ghost predicate Barren(w: World) {
    && Calm(w)
    && forall m :: m in w.inFlight && m.to < |w.peers| && m.body == Invite ==> w.peers[m.to].phase.CreateAwaitKey?
  }

  // No wait ends before an invite that is on its way has arrived.
  ghost predicate Timely(w: World, step: Step) {
    step.Act? && step.id < |w.peers| && w.peers[step.id].phase.CreateAwaitKey?
    && !Acted(w.peers[step.id], step.id, |w.origins|, step.e).peer.phase.CreateAwaitKey?
    ==> forall m :: m in w.inFlight && m.to == step.id ==> m.body != Invite
  }

  ghost predicate TimelyRun(w: World, steps: seq<Step>) {
    forall k :: 0 <= k < |steps| ==> Timely(Run(w, steps[..k]), steps[k])
  }

  lemma BarrenAct(p: Peer, self: Id, secret: nat, e: Event)
    requires WaitingPeer(p)
    ensures var effect := Acted(p, self, secret, e); var q := effect.peer;
      && effect == Only(q) && WaitingPeer(q) && q.conversations == p.conversations
      && (q.phase.CreateAwaitKey? ==> p.phase.CreateAwaitKey?)
  {
    if p.setupMessages != [] {
      assert p.setupMessages[0] in p.setupMessages;
    }
    hide FileAwaited, ChunkSent, Begun;
  }

  lemma BarrenListen(p: Peer, m: Message)
    requires WaitingPeer(p) && m.flag == ExchangeKeys
    requires m.body == Denial || (m.body == Invite && p.phase.CreateAwaitKey?)
    ensures WaitingPeer(Listened(p, m)) && Listened(p, m).phase == p.phase && Listened(p, m).conversations == p.conversations
  {
  }

  ghost predicate StaysBarren(w: World, v: World) {
    && Barren(v) && v.built == w.built && |v.peers| == |w.peers|
    && forall i :: 0 <= i < |w.peers| ==> v.peers[i].conversations == w.peers[i].conversations
  }

  lemma BarrenActStep(w: World, id: Id, e: Event)
    requires Barren(w) && Timely(w, Act(id, e)) && id < |w.peers|
    ensures StaysBarren(w, Do(w, Act(id, e)))
  {
    hide Acted, Do, WaitingPeer;
    ActIs(w, id, e);
    BarrenAct(w.peers[id], id, |w.origins|, e);
  }

  lemma BarrenDeliverStep(w: World, m: Message)
    requires Barren(w) && m in w.inFlight && m.to < |w.peers|
    ensures StaysBarren(w, Do(w, Deliver(m)))
  {
    hide Listened, Do, WaitingPeer;
    DeliverIs(w, m);
    BarrenListen(w.peers[m.to], m);
  }

  lemma BarrenElsewhere(w: World, step: Step)
    requires Barren(w) && (step.Lose? || step.UsersChanged?)
    ensures StaysBarren(w, Do(w, step))
  {
    ElsewhereIs(w, step);
    hide Do, WaitingPeer;
    var v := Do(w, step);
    forall i | 0 <= i < |w.peers|
      ensures WaitingPeer(v.peers[i])
    {
      UsersDoNotMatter(w.peers[i], v.peers[i].users);
    }
  }

  lemma BarrenStep(w: World, step: Step)
    requires Barren(w) && Timely(w, step) && !step.Ask?
    ensures StaysBarren(w, Do(w, step))
  {
    hide Acted, Listened, Requested, WaitingPeer, Timely;
    match step {
      case Deliver(m) => if m in w.inFlight && m.to < |w.peers| { BarrenDeliverStep(w, m); }
      case Act(id, e) => if id < |w.peers| { BarrenActStep(w, id, e); }
      case _ => BarrenElsewhere(w, step);
    }
  }

  // A free client holds no slot.
  lemma FreeSlots(w: World, i: Id)
    requires Barren(w) && i < |w.peers|
    ensures w.peers[i].phase.Free? || w.peers[i].phase.CreateAwaitKey?
    ensures w.peers[i].phase.Free? ==> !w.peers[i].settingUpConversation && !w.peers[i].exchangingFile
  {
    assert WaitingPeer(w.peers[i]);
  }

  // In a timely run any number of clients that have invited one another before hearing of the
  // other invites end with nothing: no streams, no new conversation, and a free slot once they
  // stop waiting.
  lemma {:induction false} CrossedInvitesComeToNothing(w: World, steps: seq<Step>)
    requires Barren(w) && NoRequests(steps) && TimelyRun(w, steps)
    ensures StaysBarren(w, Run(w, steps))
    ensures forall i :: 0 <= i < |w.peers| && Run(w, steps).peers[i].phase.Free? ==>
              !Run(w, steps).peers[i].settingUpConversation && !Run(w, steps).peers[i].exchangingFile
  {
    hide Do, Timely, Barren;
    if steps != [] {
      var before := steps[..|steps| - 1];
      assert forall k :: 0 <= k < |before| ==> before[..k] == steps[..k] && before[k] == steps[k];
      CrossedInvitesComeToNothing(w, before);
      BarrenStep(Run(w, before), steps[|steps| - 1]);
    }
    forall i | 0 <= i < |w.peers|
      ensures Run(w, steps).peers[i].phase.Free? ==>
                !Run(w, steps).peers[i].settingUpConversation && !Run(w, steps).peers[i].exchangingFile
    {
      FreeSlots(Run(w, steps), i);
    }
  }

  // -------- Declined invites --------

  // Client b is about to answer an invite, and only denials are on their way. Every other client,
  // the inviter too, is free or waits. Stale denials may lie anywhere, and anything in b's own
  // queue. A stale key could be taken for b's answer, and another invite could be accepted.
  ghost predicate Answering(w: World, a: Id, b: Id) {
    && b < |w.peers|
    && (forall i :: 0 <= i < |w.peers| && i != b ==> WaitingPeer(w.peers[i]))
    && (forall m :: m in w.inFlight ==> m.flag == ExchangeKeys && m.body == Denial)
    && var q := w.peers[b];
       q.phase.Free? && q.actions == [ReplyToInvite(a)] && q.settingUpConversation && !q.exchangingFile && a in q.users
  }

  // The step that declines, or is too late to answer.
  lemma Declined(w: World, a: Id, b: Id, e: Event)
    requires Answering(w, a, b) && (!e.accepted || e.timedOut)
    ensures var v := Do(w, Act(b, e));
      && Barren(v) && v.built == w.built && |v.peers| == |w.peers|
      && (forall m :: m in v.inFlight ==> m.body == Denial)
      && (forall i :: 0 <= i < |w.peers| ==> v.peers[i].conversations.Keys <= w.peers[i].conversations.Keys)
  {
    var q := w.peers[b];
    var effect := Acted(q, b, |w.origins|, e);
    assert q.actions[0] == ReplyToInvite(a) && q.actions[1..] == [];
    assert WaitingPeer(effect.peer) && effect.built.None? && effect.drawn.None?;
    assert effect.sent.Some? ==> effect.sent.value.flag == ExchangeKeys && effect.sent.value.body == Denial;
    assert effect.peer.conversations.Keys <= q.conversations.Keys;
    hide Acted;
  }

  lemma TimelyOn(w: World, steps: seq<Step>, step: Step)
    requires TimelyRun(w, steps) && Timely(Run(w, steps), step)
    ensures TimelyRun(w, steps + [step])
  {
    hide Timely, Run;
    forall k | 0 <= k < |steps + [step]|
      ensures Timely(Run(w, (steps + [step])[..k]), (steps + [step])[k])
    {
      assert (steps + [step])[..k] == steps[..k];
      assert steps[..|steps|] == steps;
    }
  }

  lemma NoInviteIsTimely(w: World, step: Step)
    requires forall m :: m in w.inFlight ==> m.body == Denial
    ensures Timely(w, step)
  {
    hide Acted;
  }

  // Without requests no invite is sent any more, so every run is timely.
  lemma {:induction false} OnlyDenials(w: World, steps: seq<Step>)
    requires Barren(w) && NoRequests(steps) && forall m :: m in w.inFlight ==> m.body == Denial
    ensures TimelyRun(w, steps) && Barren(Run(w, steps)) && forall m :: m in Run(w, steps).inFlight ==> m.body == Denial
  {
    hide Do, Barren, Timely;
    if steps != [] {
      var before, last := steps[..|steps| - 1], steps[|steps| - 1];
      assert steps == before + [last];
      OnlyDenials(w, before);
      hide Run, TimelyRun;
      NoInviteIsTimely(Run(w, before), last);
      BarrenStep(Run(w, before), last);
      FewerInvites(Run(w, before), last);
      TimelyOn(w, before, last);
      RunOn(w, before, last);
    }
  }

  lemma FewerInvites(w: World, step: Step)
    requires Barren(w) && !step.Ask?
    ensures forall m :: m in Do(w, step).inFlight ==> m in w.inFlight
  {
    hide Listened, Acted, Requested, WaitingPeer;
    if step.Act? && step.id < |w.peers| {
      BarrenAct(w.peers[step.id], step.id, |w.origins|, step.e);
    }
  }

  // A declined invite comes to nothing in every continuation, whether or not the denial arrives: no
  // streams, no new conversation, and both slots free once nobody waits.
  lemma DeniedInviteComesToNothing(w: World, a: Id, b: Id, e: Event, steps: seq<Step>)
    requires Answering(w, a, b) && (!e.accepted || e.timedOut) && NoRequests(steps)
    ensures var u := Run(Do(w, Act(b, e)), steps);
      && u.built == w.built && |u.peers| == |w.peers|
      && forall i :: 0 <= i < |w.peers| ==>
           && u.peers[i].conversations.Keys <= w.peers[i].conversations.Keys
           && (u.peers[i].phase.Free? || u.peers[i].phase.CreateAwaitKey?)
           && (u.peers[i].phase.Free? ==> !u.peers[i].settingUpConversation && !u.peers[i].exchangingFile)
  {
    hide Do, Run, Barren, Answering;
    Declined(w, a, b, e);
    var v := Do(w, Act(b, e));
    OnlyDenials(v, steps);
    CrossedInvitesComeToNothing(v, steps);
    forall i | 0 <= i < |w.peers|
      ensures Run(v, steps).peers[i].phase.Free? || Run(v, steps).peers[i].phase.CreateAwaitKey?
    {
      FreeSlots(Run(v, steps), i);
    }
  }

  lemma DeclinesWithDenial(p: Peer, self: Id, from: Id, secret: nat, e: Event)
    requires p.phase.Free? && p.actions == [ReplyToInvite(from)] && from in p.users
    requires p.settingUpConversation && !p.exchangingFile && !e.timedOut && !e.accepted && e.ok
    ensures var effect := Acted(p, self, secret, e);
      effect == Effect(effect.peer, Some(Message(ExchangeKeys, e.sendTime, self, from, Denial)), None, None)
  {
    BegunReply(p, self, secret, e);
    ForgetsOnly(p.(actions := []), from);
    hide Acted, Forgotten;
  }

  lemma DenialHeard(p: Peer, m: Message)
    requires m.flag == ExchangeKeys && m.body == Denial && !p.phase.Aborted?
    ensures Listened(p, m) == p.(setupMessages := p.setupMessages + [m])
  {
  }

  lemma DenialTaken(p: Peer, self: Id, secret: nat, e: Event)
    requires p.phase.CreateAwaitKey? && !e.timedOut && |p.setupMessages| == 1 && p.setupMessages[0].body == Denial
    ensures Acted(p, self, secret, e)
         == Only(p.(settingUpConversation := false, setupMessages := [], phase := Free))
  {
    hide Begun, FileAwaited, ChunkSent;
  }

  // A denial that arrives before the inviter's deadline ends its wait and gives its slot back at once.
  lemma DenialEndsWait(w: World, a: Id, m: Message, f: Event)
    requires a < |w.peers| && w.peers[a].phase.CreateAwaitKey? && w.peers[a].setupMessages == [] && !f.timedOut
    requires m in w.inFlight && m.to == a && m.flag == ExchangeKeys && m.body == Denial
    ensures var u := Do(Do(w, Deliver(m)), Act(a, f));
      && u.inFlight == w.inFlight - multiset{m}
      && u.peers == w.peers[a := w.peers[a].(settingUpConversation := false, phase := Free)]
  {
    hide Do, Acted, Listened;
    var p := w.peers[a];
    DeliverIs(w, m);
    DenialHeard(p, m);
    var v := Do(w, Deliver(m));
    ActIs(v, a, f);
    DenialTaken(v.peers[a], a, |v.origins|, f);
  }

  // Declining in time puts exactly a denial on its way, and whatever else happens without requests, once
  // it arrives at an inviter that still waits with an empty queue that client is free again.
  lemma DenialFreesInviter(w: World, a: Id, b: Id, e: Event, between: seq<Step>, f: Event)
    requires Answering(w, a, b) && !e.timedOut && !e.accepted && e.ok && !f.timedOut
    ensures var m := Message(ExchangeKeys, e.sendTime, b, a, Denial); var v := Do(w, Act(b, e)); var u := Run(v, between);
      && v.inFlight == w.inFlight + multiset{m}
      && (m in u.inFlight && a < |u.peers| && u.peers[a].phase == CreateAwaitKey(b) && u.peers[a].setupMessages == [] ==>
            var t := Do(Do(u, Deliver(m)), Act(a, f));
            && a < |t.peers| && t.peers[a].phase.Free?
            && !t.peers[a].settingUpConversation && t.peers[a].setupMessages == [] && t.inFlight == u.inFlight - multiset{m})
  {
    hide Do, Acted, Run;
    ActIs(w, b, e);
    DeclinesWithDenial(w.peers[b], b, a, |w.origins|, e);
    var m := Message(ExchangeKeys, e.sendTime, b, a, Denial);
    var u := Run(Do(w, Act(b, e)), between);
    if m in u.inFlight && a < |u.peers| && u.peers[a].phase == CreateAwaitKey(b) && u.peers[a].setupMessages == [] {
      DenialEndsWait(u, a, m, f);
    }
  }

  // Right away in particular: no later step is needed than the delivery and the inviter's own.
  lemma DeclineReachesInviter(w: World, a: Id, b: Id, e: Event, f: Event)
    requires Answering(w, a, b) && !e.timedOut && !e.accepted && e.ok && !f.timedOut
    requires a < |w.peers| && a != b && w.peers[a].phase == CreateAwaitKey(b) && w.peers[a].setupMessages == []
    ensures var m := Message(ExchangeKeys, e.sendTime, b, a, Denial); var v := Do(w, Act(b, e));
      && m in v.inFlight
      && Do(Do(v, Deliver(m)), Act(a, f)).peers
         == v.peers[a := w.peers[a].(settingUpConversation := false, phase := Free)]
  {
    hide Do, Acted;
    ActIs(w, b, e);
    DeclinesWithDenial(w.peers[b], b, a, |w.origins|, e);
    DenialEndsWait(Do(w, Act(b, e)), a, Message(ExchangeKeys, e.sendTime, b, a, Denial), f);
  }
}
