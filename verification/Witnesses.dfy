/** Runs from the start of two clients to the situations that the main results speak of. */
module Witnesses {
  import opened Prelude
  import opened Padding
  import opened Crypto
  import opened Protocol
  import opened World
  import opened Handshake
  import opened Slot
  import opened Delivery
  import opened Completion
  import opened Crossing
  import FileRuns

  // An event in which everything goes well.
  function Well(time: nat): Event {
    Event(true, false, true, time, time, 0, [])
  }

  // -------- Two clients that know each other --------

  ghost predicate Acquainted(w: World) {
    && |w.peers| == 2 && w.inFlight == multiset{} && w.built == {}
    && Fresh(w.peers[0].(users := {})) && w.peers[0].users == {1}
    && Fresh(w.peers[1].(users := {})) && w.peers[1].users == {0}
  }

  lemma FreshStays(p: Peer, users: set<Id>)
    requires Fresh(p)
    ensures Fresh(p.(users := users).(users := {}))
  {
  }

  lemma CanBeAcquainted(w: World) returns (steps: seq<Step>)
    requires Initial(w) && |w.peers| == 2
    ensures Acquainted(Run(w, steps))
  {
    assert Fresh(w.peers[0]) && Fresh(w.peers[1]) && w.inFlight == multiset{} && w.built == {};
    hide Run, Do, Initial, Fresh;
    ListedOnly(w, 0, 1);
    var u := Do(w, UsersChanged(0, {1}));
    ListedOnly(u, 1, 0);
    var v := Do(u, UsersChanged(1, {0}));
    FreshStays(w.peers[0], {1});
    FreshStays(w.peers[1], {0});
    RunFirst(w, UsersChanged(0, {1}), [UsersChanged(1, {0})] + []);
    RunFirst(u, UsersChanged(1, {0}), []);
    AtOnce(v);
    steps := [UsersChanged(0, {1})] + ([UsersChanged(1, {0})] + []);
  }

  // -------- A handshake --------

  lemma StartsHandshake(w: World)
    requires Acquainted(w)
    ensures Stage(0, Do(w, Ask(0, StartWith(1))), 0, 1)
  {
    AskedIs(w, 0, StartWith(1));
    StartIsAsked(w.peers[0], 1);
    hide Do, Requested;
  }

  // Streams are built in some run, so agreement and paired stores speak of something.
  lemma HandshakeIsReachable(w: World) returns (steps: seq<Step>)
    requires Initial(w) && |w.peers| == 2
    ensures |Run(w, steps).peers| == 2 && Stage(16, Run(w, steps), 0, 1) && Run(w, steps).built != {}
  {
    InitialInv(w);
    hide Run, Do, Initial, Inv, Stage, Acquainted;
    var first := CanBeAcquainted(w);
    StartsHandshake(Run(w, first));
    RunOn(w, first, Ask(0, StartWith(1)));
    var asked := first + [Ask(0, StartWith(1))];
    RunKeeps(w, asked);
    var rest := SomeRunCompletes(Run(w, asked), 0, 1, 0);
    RunThrough(w, asked, rest);
    BuiltStays(Run(w, asked), rest);
    steps := asked + rest;
    PeersStay(w, steps);
    assert Run(w, steps).built != Run(w, asked).built && Run(w, asked).built <= Run(w, steps).built;
  }

  // -------- Crossed invites --------

  // A free client asks for a conversation and sends its invite.
  lemma Invites(p: Peer, self: Id, to: Id, secret: nat, e: Event)
    requires Fresh(p.(users := {})) && p.users == {to} && e.ok
    ensures var p1 := Requested(p, StartWith(to));
      var p2 := p1.(settingUpConversation := true, setupMessages := [], actions := [], phase := CreateSendInvite(to));
      && Acted(p1, self, secret, e) == Only(p2)
      && Acted(p2, self, secret, e)
         == Sent(p2.(phase := CreateAwaitKey(to)), Message(ExchangeKeys, e.sendTime, self, to, Invite))
      && Is(p2.(phase := CreateAwaitKey(to)), true, CreateAwaitKey(to), [], [])
  {
    StartIsAsked(p, to);
    Starts(Requested(p, StartWith(to)), self, secret, e);
    hide Requested, Begun, Awaited, FileAwaited, ChunkSent;
  }

  // Client id sends its invite, and nothing else changes.
  lemma SendsInvite(w: World, id: Id, to: Id, e: Event) returns (steps: seq<Step>)
    requires id < |w.peers| && Fresh(w.peers[id].(users := {})) && w.peers[id].users == {to} && e.ok
    ensures var v := Run(w, steps);
      && |v.peers| == |w.peers| && v.built == w.built
      && (forall j :: 0 <= j < |w.peers| && j != id ==> v.peers[j] == w.peers[j])
      && v.inFlight == w.inFlight + multiset{Message(ExchangeKeys, e.sendTime, id, to, Invite)}
      && Is(v.peers[id], true, CreateAwaitKey(to), [], [])
  {
    Invites(w.peers[id], id, to, |w.origins|, e);
    hide Run, Do, Acted, Requested, Fresh;
    AskedIs(w, id, StartWith(to));
    var u := Do(w, Ask(id, StartWith(to)));
    ActIs(u, id, e);
    var v := Do(u, Act(id, e));
    assert v.peers[id] == Acted(u.peers[id], id, |u.origins|, e).peer && v.origins == u.origins;
    ActIs(v, id, e);
    var t := Do(v, Act(id, e));
    RunFirst(w, Ask(id, StartWith(to)), [Act(id, e)] + ([Act(id, e)] + []));
    RunFirst(u, Act(id, e), [Act(id, e)] + []);
    RunFirst(v, Act(id, e), []);
    AtOnce(t);
    steps := [Ask(id, StartWith(to))] + ([Act(id, e)] + ([Act(id, e)] + []));
  }

  // Two invites cross in some run, so the failing half of their equivalence is met.
  lemma CrossedIsReachable(w: World) returns (steps: seq<Step>)
    requires Initial(w) && |w.peers| == 2
    ensures Crossed(Run(w, steps), 0, 1, 0, 0)
  {
    var first := CanBeAcquainted(w);
    var u := Run(w, first);
    assert Acquainted(u);
    hide Run, Initial, Fresh, Is;
    var second := SendsInvite(u, 0, 1, Well(0));
    var v := Run(u, second);
    var third := SendsInvite(v, 1, 0, Well(0));
    RunThrough(w, first, second);
    RunThrough(w, first + second, third);
    steps := first + second + third;
    var m, n := Message(ExchangeKeys, 0, 0, 1, Invite), Message(ExchangeKeys, 0, 1, 0, Invite);
    assert multiset{} + multiset{m} + multiset{n} == multiset{m, n};
  }

  // -------- A text --------

  // There is always a time at which a message of this kind has not come yet.
  lemma {:induction false} UnusedTime(keys: set<RowKey>) returns (time: nat)
    ensures forall k :: k in keys ==> k.timestamp < time
    decreases |keys|
  {
    if keys == {} {
      time := 0;
    } else {
      var k :| k in keys;
      var rest := UnusedTime(keys - {k});
      time := if rest <= k.timestamp then k.timestamp + 1 else rest;
    }
  }

  ghost predicate Talking(w: World) {
    && |w.peers| == 2 && Idle(w.peers[0]) && Idle(w.peers[1]) && w.inFlight == multiset{}
    && 1 in w.peers[0].users && 0 in w.peers[1].users && 1 in w.peers[0].conversations && 0 in w.peers[1].conversations
  }

  // And the first of them is about to send the other a text.
  ghost predicate ToSend(w: World, text: seq<byte>) {
    && |w.peers| == 2 && Is(w.peers[0], false, Free, [SendText(text)], []) && w.peers[0].toUserId == 1
    && Idle(w.peers[1]) && w.inFlight == multiset{}
    && 1 in w.peers[0].conversations && 0 in w.peers[1].users && 0 in w.peers[1].conversations
  }

  lemma AsksToSend(w: World, text: seq<byte>) returns (steps: seq<Step>)
    requires Talking(w) && text != []
    ensures ToSend(Run(w, steps), text)
  {
    hide Run, Do;
    AskedIs(w, 0, ContinueWith(1));
    var u := Do(w, Ask(0, ContinueWith(1)));
    AskedIs(u, 0, Write(text));
    var v := Do(u, Ask(0, Write(text)));
    RunFirst(w, Ask(0, ContinueWith(1)), [Ask(0, Write(text))] + []);
    RunFirst(u, Ask(0, Write(text)), []);
    AtOnce(v);
    steps := [Ask(0, ContinueWith(1))] + ([Ask(0, Write(text))] + []);
    assert [] + [SendText(text)] == [SendText(text)];
  }

  lemma TextIsSent(p: Peer, secret: nat, e: Event, text: seq<byte>)
    requires Is(p, false, Free, [SendText(text)], []) && p.toUserId == 1 && 1 in p.conversations
    requires 0 < |text| <= 135 && RowKey(e.rowTime, 0, 1) !in p.rows && e.ok
    ensures var effect := Acted(p, 0, secret, e);
      && effect.peer == p.(actions := [], rows := p.rows[RowKey(e.rowTime, 0, 1) := text])
      && effect.built.None? && effect.drawn.None? && effect.sent.Some?
      && var m := effect.sent.value; m.flag == Proceed && m.from == 0 && m.to == 1 && m.timestamp == e.sendTime && m.body.TextBody?
  {
    TextFits(p.(actions := []), 0, text, e);
    SendActs(p, 0, secret, e, text);
    hide Acted, Padded;
  }

  lemma TextIsHeard(p: Peer, m: Message)
    requires Idle(p) && m.flag == Proceed && m.body.TextBody?
    ensures Listened(p, m) == p.(actions := [ProcessReceived(m.timestamp, m.from, m.body.text)])
  {
  }

  lemma HoldsForOne(w: World, step: Step, i: Id, r: Id)
    requires i < |w.peers| && r in w.peers[i].conversations
    requires i < |Run(w, [step]).peers| && r in Run(w, [step]).peers[i].conversations
    ensures Holds(w, [step], i, r)
  {
    AtOnce(w);
    hide Run;
    var steps := [step];
    forall k | 0 <= k <= |steps|
      ensures i < |Run(w, steps[..k]).peers| && r in Run(w, steps[..k]).peers[i].conversations
    {
      assert steps[..k] == if k == 0 then [] else steps;
    }
  }

  lemma TextGoesOut(w: World, text: seq<byte>, time: nat)
    requires ToSend(w, text) && 0 < |text| <= 135 && RowKey(time, 0, 1) !in w.peers[0].rows
    ensures Sends(w, 0, 1, text, Well(time))
    ensures var v := Do(w, Act(0, Well(time)));
      var m := Acted(w.peers[0], 0, |w.origins|, Well(time)).sent.value;
      && m.flag == Proceed && m.from == 0 && m.to == 1 && m.timestamp == time && m.body.TextBody?
      && |v.peers| == 2 && v.peers[0].conversations == w.peers[0].conversations && v.peers[1] == w.peers[1]
      && v.inFlight == multiset{m}
  {
    TextIsSent(w.peers[0], |w.origins|, Well(time), text);
    hide Acted, Do;
    ActIs(w, 0, Well(time));
  }

  // From such a world a text can be sent and be about to be processed.
  lemma TextArrives(w: World, text: seq<byte>, time: nat)
    requires ToSend(w, text) && 0 < |text| <= 135
    requires RowKey(time, 0, 1) !in w.peers[0].rows && RowKey(time, 0, 0) !in w.peers[1].rows
    ensures Sends(w, 0, 1, text, Well(time))
    ensures var v := Do(w, Act(0, Well(time)));
      var m := Acted(w.peers[0], 0, |w.origins|, Well(time)).sent.value;
      && Holds(v, [Deliver(m)], 0, 1)
      && Receives(Run(v, [Deliver(m)]), 1, 0, time, TextOf(w, 0, Well(time)))
  {
    TextGoesOut(w, text, time);
    var v := Do(w, Act(0, Well(time)));
    var m := Acted(w.peers[0], 0, |w.origins|, Well(time)).sent.value;
    hide Acted, Listened, Do, Run, Holds, Sends;
    TextIsHeard(v.peers[1], m);
    DeliverIs(v, m);
    AtOnce(v);
    RunOn(v, [], Deliver(m));
    assert [] + [Deliver(m)] == [Deliver(m)];
    HoldsForOne(v, Deliver(m), 0, 1);
  }

  // Then it is stored.
  lemma TextIsStored(w: World, before: seq<Step>, text: seq<byte>) returns (steps: seq<Step>, time: nat)
    requires Initial(w) && ToSend(Run(w, before), text) && 0 < |text| <= 135
    ensures 1 < |Run(w, steps).peers| && RowKey(time, 0, 0) in Run(w, steps).peers[1].rows
    ensures Run(w, steps).peers[1].rows[RowKey(time, 0, 0)] == text
  {
    var v := Run(w, before);
    assert |v.peers| == 2;
    hide Run, Do, Initial, ToSend, Acted, Sends, Receives, Holds, TextOf;
    time := UnusedTime(v.peers[0].rows.Keys + v.peers[1].rows.Keys);
    var e := Well(time);
    TextArrives(v, text, time);
    var between := [Deliver(Acted(v.peers[0], 0, |v.origins|, e).sent.value)];
    OrderFreeDelivery(w, before, 0, 1, text, e, between, e);
    RunOn(w, before, Act(0, e));
    RunThrough(w, before + [Act(0, e)], between);
    RunOn(w, before + [Act(0, e)] + between, Act(1, e));
    steps := before + [Act(0, e)] + between + [Act(1, e)];
    PeersStay(v, [Act(0, e)]);
    PeersStay(w, before);
    PeersStay(w, steps);
  }

  // Every text that fits can be sent and received in some run, so order-free delivery speaks of
  // something.
  lemma DeliveryIsReachable(w: World, text: seq<byte>) returns (steps: seq<Step>, time: nat)
    requires Initial(w) && |w.peers| == 2 && 0 < |text| <= 135
    ensures 1 < |Run(w, steps).peers| && RowKey(time, 0, 0) in Run(w, steps).peers[1].rows
    ensures Run(w, steps).peers[1].rows[RowKey(time, 0, 0)] == text
  {
    var first := HandshakeIsReachable(w);
    HandshakeTalks(Run(w, first));
    hide Stage, Run, Initial, Talking, ToSend;
    var second := AsksToSend(Run(w, first), text);
    RunThrough(w, first, second);
    steps, time := TextIsStored(w, first + second, text);
  }

  lemma HandshakeTalks(w: World)
    requires |w.peers| == 2 && Stage(16, w, 0, 1)
    ensures Talking(w)
  {
  }

  // -------- A file --------

  lemma ChoosesFile(w: World, size: nat) returns (steps: seq<Step>)
    requires |w.peers| == 2 && Stage(16, w, 0, 1) && 0 < size <= MAX_FILE_SIZE
    ensures FileRuns.FileStage(0, Run(w, steps), 0, 1, size)
  {
    hide Run, Do;
    AskedIs(w, 0, ContinueWith(1));
    var u := Do(w, Ask(0, ContinueWith(1)));
    AskedIs(u, 0, ChooseFile(size));
    var v := Do(u, Ask(0, ChooseFile(size)));
    RunFirst(w, Ask(0, ContinueWith(1)), [Ask(0, ChooseFile(size))] + []);
    RunFirst(u, Ask(0, ChooseFile(size)), []);
    AtOnce(v);
    steps := [Ask(0, ContinueWith(1))] + ([Ask(0, ChooseFile(size))] + []);
  }

  // A file of every size that may be chosen can be sent in any pieces, in some run from the start.
  lemma ExchangeIsReachable(w: World, size: nat, pieces: seq<seq<byte>>) returns (before: seq<Step>, steps: seq<Step>)
    requires Initial(w) && |w.peers| == 2 && 0 < size <= MAX_FILE_SIZE && pieces != [] && FileRuns.AllFit(pieces)
    ensures FileRuns.FileStage(0, Run(w, before), 0, 1, size)
    ensures FileRuns.Transferred(Run(w, before), steps, 0, 1, size, pieces)
  {
    hide Stage, Run, Initial, FileRuns.FileStage, FileRuns.Transferred;
    var first := HandshakeIsReachable(w);
    var second := ChoosesFile(Run(w, first), size);
    RunThrough(w, first, second);
    before := first + second;
    steps := FileRuns.EveryFileCanBeSent(Run(w, before), 0, 1, size, pieces);
  }
}
