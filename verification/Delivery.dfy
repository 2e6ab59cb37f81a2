/** Text messages under a stored conversation. The stored stream states are reloaded for
    every message and never written back, so no message depends on another. */
module Delivery {
  import opened Prelude
  import opened Padding
  import opened Crypto
  import opened Protocol
  import opened World
  import opened Handshake

  // -------- Which texts fit --------

  // The user interface admits texts up to MaxTextSize, yet the longest one cannot be sent:
  // it pads to a whole block more than the assertion on the encrypted size leaves room for.
  lemma TextFits(p: Peer, self: Id, text: seq<byte>, e: Event)
    requires p.phase == Free && text != [] && CanAddRow(p, RowKey(e.rowTime, self, p.toUserId))
    ensures SentText(p, self, text, e).peer.phase == Free <==> |text| <= LargestPayload(MaxUnencryptedSize(), PADDING_BLOCK)
    ensures LargestPayload(MaxUnencryptedSize(), PADDING_BLOCK) == 135 == MaxTextSize() - 1
  {
    LargestPayloadIsTight(|text|, MaxUnencryptedSize(), PADDING_BLOCK);
    PaddedHasItsMarker(text, PADDING_BLOCK);
  }

  // -------- Stored streams --------

  lemma ActedStoreIsFixed(p: Peer, self: Id, secret: nat, e: Event, r: Id)
    requires r in p.conversations && r in Acted(p, self, secret, e).peer.conversations
    ensures Acted(p, self, secret, e).peer.conversations[r] == p.conversations[r]
  {
    if p.phase == Free {
      BegunAction(p, self, secret, e);
    } else if p.phase.Exchanging() || p.phase.Aborted? {
      FileActed(p, self, secret, e);
    } else {
      SetUpStoreIsFixed(p, self, secret, e, r);
    }
    hide Acted;
  }

  lemma SetUpStoreIsFixed(p: Peer, self: Id, secret: nat, e: Event, r: Id)
    requires (p.phase.Creating() || p.phase.Replying()) && r in p.conversations
    requires r in Acted(p, self, secret, e).peer.conversations
    ensures Acted(p, self, secret, e).peer.conversations[r] == p.conversations[r]
  {
    if p.phase.CreateSendHeader? || p.phase.ReplyAwaitHeader? {
      LastSetUpStoreIsFixed(p, self, secret, e, r);
    } else if p.phase.CreateAwaitKey? {
      TakenKey(p, self, secret, e);
    } else if p.phase.CreateAwaitHeader? {
      TakenHeader(p, self, secret, e);
    } else if p.phase.ReplyAwaitKey? {
      TakenAnswer(p, self, secret, e);
    } else {
      SentOn(p, self, secret, e);
    }
    hide Acted;
  }

  lemma LastSetUpStoreIsFixed(p: Peer, self: Id, secret: nat, e: Event, r: Id)
    requires (p.phase.CreateSendHeader? || p.phase.ReplyAwaitHeader?) && r in p.conversations
    requires r in Acted(p, self, secret, e).peer.conversations
    ensures Acted(p, self, secret, e).peer.conversations[r] == p.conversations[r]
  {
    hide Begun, FileAwaited, ChunkSent, Open;
  }

  // No step rewrites a stored conversation: it can only appear or disappear.
  lemma StoredStreamsAreFixed(w: World, step: Step, i: Id, r: Id)
    requires i < |w.peers| && i < |Do(w, step).peers|
    requires r in w.peers[i].conversations && r in Do(w, step).peers[i].conversations
    ensures Do(w, step).peers[i].conversations[r] == w.peers[i].conversations[r]
  {
    hide Acted, Listened, Requested;
    match step {
      case Act(id, e) => if id == i { ActedStoreIsFixed(w.peers[i], i, |w.origins|, e, r); }
      case Deliver(m) => if m.to == i { ListenedStoreIsFixed(w.peers[i], m); }
      case Ask(id, request) => if id == i { RequestedStoreIsFixed(w.peers[i], request); }
      case _ =>
    }
  }

  lemma ListenedStoreIsFixed(p: Peer, m: Message)
    ensures Listened(p, m).conversations == p.conversations
  {
  }

  lemma RequestedStoreIsFixed(p: Peer, request: Request)
    ensures Requested(p, request).conversations == p.conversations
  {
  }

  // The conversation is never deleted on the way.
  ghost predicate Holds(w: World, steps: seq<Step>, i: Id, r: Id) {
    forall k :: 0 <= k <= |steps| ==>
      i < |Run(w, steps[..k]).peers| && r in Run(w, steps[..k]).peers[i].conversations
  }

  lemma {:induction false} StreamsLast(w: World, steps: seq<Step>, i: Id, r: Id)
    requires Holds(w, steps, i, r)
    ensures i < |w.peers| && i < |Run(w, steps).peers|
    ensures r in w.peers[i].conversations && r in Run(w, steps).peers[i].conversations
    ensures Run(w, steps).peers[i].conversations[r] == w.peers[i].conversations[r]
  {
    hide Do;
    assert steps[..|steps|] == steps && steps[..0] == [];
    if steps != [] {
      var before := steps[..|steps| - 1];
      assert forall k :: 0 <= k <= |before| ==> before[..k] == steps[..k];
      assert i < |Run(w, before[..|before|]).peers| && before[..|before|] == before;
      StreamsLast(w, before, i, r);
      StoredStreamsAreFixed(Run(w, before), steps[|steps| - 1], i, r);
    }
  }

  // -------- Delivery --------

  predicate Next(p: Peer, action: Action) {
    p.phase == Free && p.actions != [] && p.actions[0] == action
  }

  lemma SendActs(p: Peer, self: Id, secret: nat, e: Event, text: seq<byte>)
    requires Next(p, SendText(text))
    ensures Acted(p, self, secret, e) == SentText(p.(actions := p.actions[1..]), self, text, e)
  {
  }

  lemma ReceiveActs(p: Peer, self: Id, secret: nat, e: Event, timestamp: nat, from: Id, received: Ciphertext)
    requires Next(p, ProcessReceived(timestamp, from, received))
    ensures Acted(p, self, secret, e) == Only(Received(p.(actions := p.actions[1..]), timestamp, from, received))
  {
  }

  // Client i sends client r a text in world w and gets it away.
  ghost predicate Sends(w: World, i: Id, r: Id, text: seq<byte>, e: Event) {
    && i < |w.peers| && r < |w.peers| && i != r
    && Next(w.peers[i], SendText(text)) && w.peers[i].toUserId == r
    && Acted(w.peers[i], i, |w.origins|, e).sent.Some?
  }

  ghost function TextOf(w: World, i: Id, e: Event): Body
    requires i < |w.peers| && Acted(w.peers[i], i, |w.origins|, e).sent.Some?
  {
    Acted(w.peers[i], i, |w.origins|, e).sent.value.body
  }

  // Client r is about to process that text and has a conversation with its sender.
  ghost predicate Receives(u: World, r: Id, i: Id, timestamp: nat, body: Body) {
    && r < |u.peers| && body.TextBody? && Next(u.peers[r], ProcessReceived(timestamp, i, body.text))
    && i in u.peers[r].users && i in u.peers[r].conversations && RowKey(timestamp, i, i) !in u.peers[r].rows
  }

  lemma DeliveredText(p: Peer, self: Id, text: seq<byte>, e: Event, q: Peer, streams: Streams)
    requires SentText(p, self, text, e).sent.Some? && p.conversations[p.toUserId] == streams
    requires self in q.users && self in q.conversations && Mirrored(streams, q.conversations[self])
    requires RowKey(e.sendTime, self, self) !in q.rows
    ensures var m := SentText(p, self, text, e).sent.value;
      && m.body.TextBody?
      && Received(q, e.sendTime, self, m.body.text) == q.(rows := q.rows[RowKey(e.sendTime, self, self) := text])
  {
    PaddingRoundTrip(text, PADDING_BLOCK);
    PaddedHasItsMarker(text, PADDING_BLOCK);
  }

  lemma StreamsStayPaired(v: World, between: seq<Step>, i: Id, r: Id)
    requires Inv(v) && Holds(v, between, i, r) && i != r
    requires r < |Run(v, between).peers| && i in Run(v, between).peers[r].conversations
    ensures i < |v.peers| && r in v.peers[i].conversations
    ensures Mirrored(v.peers[i].conversations[r], Run(v, between).peers[r].conversations[i])
  {
    hide Inv, Run, Do;
    RunKeeps(v, between);
    StreamsLast(v, between, i, r);
    InvPair(Run(v, between), i, r);
  }

  lemma ReceivedAsSent(w: World, v: World, u: World, i: Id, r: Id, text: seq<byte>, e: Event, f: Event)
    requires Sends(w, i, r, text, e) && v == Do(w, Act(i, e)) && Receives(u, r, i, e.sendTime, TextOf(w, i, e))
    requires r in v.peers[i].conversations && Mirrored(v.peers[i].conversations[r], u.peers[r].conversations[i])
    ensures Do(u, Act(r, f)).peers[r] == u.peers[r].(
      actions := u.peers[r].actions[1..],
      rows := u.peers[r].rows[RowKey(e.sendTime, i, i) := text])
  {
    hide Acted, Received, SentText;
    var p, q := w.peers[i], u.peers[r];
    SendActs(p, i, |w.origins|, e, text);
    SentTextChangesRows(p.(actions := p.actions[1..]), i, text, e);
    ReceiveActs(q, r, |u.origins|, f, e.sendTime, i, TextOf(w, i, e).text);
    DeliveredText(p.(actions := p.actions[1..]), i, text, e, q.(actions := q.actions[1..]), v.peers[i].conversations[r]);
  }

  // A client sends a text in some reachable world. Anything may happen next, to these two
  // clients and to any others, as long as the sender does not delete the conversation. If
  // the receiver then has a conversation with the sender, it stores exactly that text.
  lemma OrderFreeDelivery(
    start: World, before: seq<Step>, i: Id, r: Id, text: seq<byte>, e: Event, between: seq<Step>, f: Event)
    requires Initial(start) && Sends(Run(start, before), i, r, text, e)
    requires Holds(Do(Run(start, before), Act(i, e)), between, i, r)
    requires var u := Run(Do(Run(start, before), Act(i, e)), between);
      Receives(u, r, i, e.sendTime, TextOf(Run(start, before), i, e))
    ensures var u := Run(Do(Run(start, before), Act(i, e)), between);
      Do(u, Act(r, f)).peers[r] == u.peers[r].(
        actions := u.peers[r].actions[1..],
        rows := u.peers[r].rows[RowKey(e.sendTime, i, i) := text])
  {
    hide Inv, Run, Do, Holds, Acted, Initial;
    var w := Run(start, before);
    var v := Do(w, Act(i, e));
    InitialInv(start);
    RunKeeps(start, before);
    StepKeeps(w, Act(i, e));
    StreamsStayPaired(v, between, i, r);
    ReceivedAsSent(w, v, Run(v, between), i, r, text, e, f);
  }

  // -------- File chunks --------

  // Client i, in the conversation with r that it sends a file to, gets a chunk away.
  ghost predicate SendsChunk(w: World, i: Id, r: Id, e: Event) {
    && i < |w.peers| && r < |w.peers| && i != r
    && w.peers[i].phase.FileSendChunk? && w.peers[i].phase.to == r && w.peers[i].toUserId == r
    && Acted(w.peers[i], i, |w.origins|, e).sent.Some?
  }

  lemma ChunkOf(p: Peer, self: Id, secret: nat, e: Event)
    requires p.phase.FileSendChunk? && Acted(p, self, secret, e).sent.Some?
    ensures var effect := Acted(p, self, secret, e); var m := effect.sent.value;
      && effect.peer.conversations == p.conversations && p.toUserId in p.conversations
      && m.flag == File && m.to == p.phase.to && m.body.FileChunk?
      && m.body.text == Ciphertext(p.conversations[p.toUserId].encryption, e.read[..Min(|e.read|, MaxUnencryptedSize())])
      && 0 < |m.body.text.plain| <= MaxUnencryptedSize()
  {
    hide Begun, Awaited, FileAwaited;
  }

  // Each chunk is encrypted with streams that are loaded anew for whoever is then the partner. One
  // that is sent in a reachable world decrypts at the receiver to what was read, in any order and
  // whatever happened in between, as long as the sender keeps its conversation throughout and the
  // receiver has one with the sender.
  lemma ChunkDelivery(start: World, before: seq<Step>, i: Id, r: Id, e: Event, between: seq<Step>)
    requires Initial(start) && SendsChunk(Run(start, before), i, r, e)
    requires Holds(Do(Run(start, before), Act(i, e)), between, i, r)
    requires var u := Run(Do(Run(start, before), Act(i, e)), between);
      r < |u.peers| && i in u.peers[r].conversations
    ensures var w := Run(start, before); var u := Run(Do(w, Act(i, e)), between);
      var m := Acted(w.peers[i], i, |w.origins|, e).sent.value;
      && m.to == r && m.body.FileChunk? && ChunkOk(u.peers[r], i, m.body.text)
      && Pull(u.peers[r].conversations[i].decryption, m.body.text) == Some(e.read[..Min(|e.read|, MaxUnencryptedSize())])
  {
    hide Inv, Run, Do, Holds, Acted, Initial;
    var w := Run(start, before);
    var v := Do(w, Act(i, e));
    InitialInv(start);
    RunKeeps(start, before);
    StepKeeps(w, Act(i, e));
    StreamsStayPaired(v, between, i, r);
    ActIs(w, i, e);
    ChunkOf(w.peers[i], i, |w.origins|, e);
  }
}
