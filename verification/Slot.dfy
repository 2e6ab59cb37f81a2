/** The one slot that conversation set-ups and file exchanges share. */
module Slot {
  import opened Prelude
  import opened Crypto
  import opened Protocol
  import opened World
  import opened Handshake

  function InviteReplies(actions: seq<Action>): nat {
    if actions == [] then 0
    else (if actions[0].ReplyToInvite? then 1 else 0) + InviteReplies(actions[1..])
  }

  function FileReplies(actions: seq<Action>): nat {
    if actions == [] then 0
    else (if actions[0].ReplyToFileInvite? then 1 else 0) + FileReplies(actions[1..])
  }

  lemma {:induction false} RepliesAppend(actions: seq<Action>, a: Action)
    ensures InviteReplies(actions + [a]) == InviteReplies(actions) + (if a.ReplyToInvite? then 1 else 0)
    ensures FileReplies(actions + [a]) == FileReplies(actions) + (if a.ReplyToFileInvite? then 1 else 0)
  {
    if actions == [] {
      assert [] + [a] == [a];
    } else {
      assert (actions + [a])[1..] == actions[1..] + [a];
      RepliesAppend(actions[1..], a);
    }
  }

  // The operations and waiting replies that account for each flag.
  function SetUps(p: Peer): nat {
    InviteReplies(p.actions) + (if p.phase.Creating() || p.phase.Replying() then 1 else 0)
  }

  function Exchanges(p: Peer): nat {
    FileReplies(p.actions) + (if p.phase.Exchanging() then 1 else 0)
  }

  predicate SlotOk(p: Peer) {
    p.phase.Aborted? ||
    (&& !(p.settingUpConversation && p.exchangingFile)
     && SetUps(p) <= (if p.settingUpConversation then 1 else 0)
     && Exchanges(p) <= (if p.exchangingFile then 1 else 0))
  }

  // The slot is taken and nothing will ever give it back.
  predicate Leaked(p: Peer) {
    !p.phase.Aborted? && (p.settingUpConversation || p.exchangingFile) && SetUps(p) == 0 && Exchanges(p) == 0
  }

  // A slot that is taken for a reply that joins the queue, or not at all.
  ghost predicate HearsSlot(p: Peer, q: Peer) {
    && q.phase == p.phase
    && (if q.actions == p.actions then
          q.settingUpConversation == p.settingUpConversation && q.exchangingFile == p.exchangingFile
        else
          && |q.actions| == |p.actions| + 1 && q.actions == p.actions + [q.actions[|p.actions|]]
          && var a := q.actions[|p.actions|];
            if a.ReplyToInvite? then
              !p.settingUpConversation && !p.exchangingFile && q.settingUpConversation && !q.exchangingFile
            else if a.ReplyToFileInvite? then
              !p.settingUpConversation && !p.exchangingFile && !q.settingUpConversation && q.exchangingFile
            else q.settingUpConversation == p.settingUpConversation && q.exchangingFile == p.exchangingFile)
  }

  lemma HearingKeepsSlot(p: Peer, q: Peer)
    requires SlotOk(p) && HearsSlot(p, q)
    ensures SlotOk(q) && (Leaked(q) <==> Leaked(p))
  {
    if q.actions != p.actions {
      RepliesAppend(p.actions, q.actions[|p.actions|]);
    }
    hide InviteReplies, FileReplies;
  }

  lemma InviteHearsSlot(p: Peer, m: Message)
    requires m.flag == ExchangeKeys || m.flag == FileAsk
    ensures HearsSlot(p, Listened(p, m)) || Listened(p, m).phase.Aborted?
  {
    var q := Listened(p, m);
    if q.actions != p.actions && !q.phase.Aborted? {
      assert q.actions == p.actions + [q.actions[|p.actions|]];
    }
  }

  lemma ListenHearsSlot(p: Peer, m: Message)
    ensures HearsSlot(p, Listened(p, m)) || Listened(p, m).phase.Aborted?
  {
    if m.flag == ExchangeKeys || m.flag == FileAsk {
      InviteHearsSlot(p, m);
      hide Listened, HearsSlot;
    } else if m.flag == Proceed {
      var q := Listened(p, m);
      if q.actions != p.actions && !q.phase.Aborted? {
        assert q.actions == p.actions + [q.actions[|p.actions|]];
      }
    } else {
      assert !p.phase.Aborted? ==> Listened(p, m).actions == p.actions;
    }
  }

  lemma ListenKeepsSlot(p: Peer, m: Message)
    requires SlotOk(p)
    ensures SlotOk(Listened(p, m))
    ensures !Listened(p, m).phase.Aborted? ==> (Leaked(Listened(p, m)) <==> Leaked(p))
  {
    ListenHearsSlot(p, m);
    hide Listened, HearsSlot;
    if !Listened(p, m).phase.Aborted? {
      HearingKeepsSlot(p, Listened(p, m));
    }
  }

  lemma ConversationHearsSlot(p: Peer, request: Request)
    requires request.StartWith? || request.ContinueWith? || request.DeleteWith?
    ensures HearsSlot(p, Requested(p, request)) || Requested(p, request).phase.Aborted?
  {
  }

  lemma RequestHearsSlot(p: Peer, request: Request)
    ensures HearsSlot(p, Requested(p, request)) || Requested(p, request).phase.Aborted?
  {
    if request.StartWith? || request.ContinueWith? || request.DeleteWith? {
      ConversationHearsSlot(p, request);
      hide Requested, HearsSlot;
    }
  }

  lemma RequestKeepsSlot(p: Peer, request: Request)
    requires SlotOk(p)
    ensures SlotOk(Requested(p, request))
    ensures Leaked(p) ==> Leaked(Requested(p, request)) || Requested(p, request).phase.Aborted?
    ensures Leaked(Requested(p, request)) ==> Leaked(p)
  {
    RequestHearsSlot(p, request);
    hide Requested, HearsSlot;
    if !Requested(p, request).phase.Aborted? {
      HearingKeepsSlot(p, Requested(p, request));
    }
  }

  // An invite that is answered by nobody: its sender is not in the user list.
  predicate UnlistedInvite(p: Peer) {
    && p.phase.Free? && p.actions != [] && p.users != {}
    && (p.actions[0].ReplyToInvite? || p.actions[0].ReplyToFileInvite?)
    && p.actions[0].from !in p.users
  }

  ghost predicate SlotStep(p: Peer, q: Peer) {
    && SlotOk(q)
    && (Leaked(p) ==> Leaked(q) || q.phase.Aborted?)
    && (!Leaked(p) ==> (Leaked(q) <==> UnlistedInvite(p)))
  }

  // A set-up that goes on keeps its flag, and one that ends leaves flag and queue clear.
  predicate SetUpEffect(p: Peer, q: Peer) {
    && q.actions == p.actions && q.exchangingFile == p.exchangingFile
    && (|| q.phase.Aborted?
        || (q.phase.Free? && !q.settingUpConversation && q.setupMessages == [])
        || (q.settingUpConversation == p.settingUpConversation && !q.phase.Free?
            && q.phase.Creating() == p.phase.Creating() && q.phase.Replying() == p.phase.Replying()))
  }

  lemma SendingEffect(p: Peer, self: Id, secret: nat, e: Event)
    requires p.phase.CreateSendInvite? || p.phase.CreateSendKey? || p.phase.CreateSendHeader?
          || p.phase.ReplySendKey? || p.phase.ReplySendHeader?
    ensures SetUpEffect(p, Acted(p, self, secret, e).peer)
  {
    hide Begun, Awaited, FileAwaited, ChunkSent;
  }

  lemma CreatorPopped(p: Peer, self: Id, m: Message, secret: nat, e: Event)
    requires p.phase.CreateAwaitKey? || p.phase.CreateAwaitHeader?
    ensures SetUpEffect(p, Popped(p, self, m, secret, e).peer)
  {
    hide ClientSessionKeys, Open;
  }

  lemma ReplierPopped(p: Peer, self: Id, m: Message, secret: nat, e: Event)
    requires p.phase.ReplyAwaitKey? || p.phase.ReplyAwaitHeader?
    ensures SetUpEffect(p, Popped(p, self, m, secret, e).peer)
  {
    hide ServerSessionKeys, Open;
  }

  lemma WaitingEffect(p: Peer, self: Id, secret: nat, e: Event)
    requires p.phase.CreateAwaitKey? || p.phase.CreateAwaitHeader? || p.phase.ReplyAwaitKey? || p.phase.ReplyAwaitHeader?
    ensures SetUpEffect(p, Acted(p, self, secret, e).peer)
  {
    assert Acted(p, self, secret, e) == Awaited(p, self, secret, e);
    hide Acted;
    if p.setupMessages != [] {
      var rest := p.(setupMessages := p.setupMessages[1..]);
      if p.phase.Creating() {
        CreatorPopped(rest, self, p.setupMessages[0], secret, e);
      } else {
        ReplierPopped(rest, self, p.setupMessages[0], secret, e);
      }
    }
    hide Popped;
  }

  lemma SetUpActed(p: Peer, self: Id, secret: nat, e: Event)
    requires p.phase.Creating() || p.phase.Replying()
    ensures SetUpEffect(p, Acted(p, self, secret, e).peer)
  {
    hide Acted, SetUpEffect;
    if p.phase.CreateAwaitKey? || p.phase.CreateAwaitHeader? || p.phase.ReplyAwaitKey? || p.phase.ReplyAwaitHeader? {
      WaitingEffect(p, self, secret, e);
    } else {
      SendingEffect(p, self, secret, e);
    }
  }

  // An operation that goes on or ends keeps the accounts.
  lemma ResumeKeepsSlot(p: Peer, self: Id, secret: nat, e: Event)
    requires SlotOk(p) && !p.phase.Free?
    ensures SlotStep(p, Acted(p, self, secret, e).peer)
  {
    if p.phase.Exchanging() || p.phase.Aborted? {
      FileActed(p, self, secret, e);
    } else {
      SetUpActed(p, self, secret, e);
    }
    if p.phase.Aborted? {
      assert Acted(p, self, secret, e).peer == p;
    }
    hide Acted, InviteReplies, FileReplies;
  }

  lemma SlotStepOf(p: Peer, q: Peer)
    requires SlotOk(p) && p.phase.Free? && p.actions != [] && q.actions == p.actions[1..]
    requires q.phase.Aborted? || (
      var a := p.actions[0];
      if q.phase.Free? then
        (if UnlistedInvite(p) || !(a.ReplyToInvite? || a.ReplyToFileInvite?) then
           q.settingUpConversation == p.settingUpConversation && q.exchangingFile == p.exchangingFile
         else !q.settingUpConversation && !q.exchangingFile)
      else if q.phase.Creating() || q.phase.Replying() then q.settingUpConversation && !q.exchangingFile
      else q.phase.Exchanging() && q.exchangingFile && !q.settingUpConversation)
    requires UnlistedInvite(p) ==> q.phase.Free?
    requires q.phase.Creating() ==> !p.settingUpConversation && !p.exchangingFile
    requires q.phase.FileSendInvite? ==> !p.settingUpConversation && !p.exchangingFile
    requires q.phase.Replying() ==> p.actions[0].ReplyToInvite?
    requires q.phase.Exchanging() && !q.phase.FileSendInvite? ==> p.actions[0].ReplyToFileInvite?
    ensures SlotStep(p, q)
  {
  }

  lemma TextKeepsSlot(p: Peer, self: Id, secret: nat, e: Event)
    requires SlotOk(p) && p.phase.Free? && p.actions != [] && (p.actions[0].SendText? || p.actions[0].ProcessReceived?)
    ensures SlotStep(p, Begun(p.(actions := p.actions[1..]), self, p.actions[0], secret, e).peer)
  {
    var rest := p.(actions := p.actions[1..]);
    match p.actions[0] {
      case ProcessReceived(timestamp, from, received) => ReceivedChangesRows(rest, timestamp, from, received);
      case SendText(text) => SentTextChangesRows(rest, self, text, e);
    }
    hide Received, SentText, SlotStep;
    SlotStepOf(p, Begun(rest, self, p.actions[0], secret, e).peer);
  }

  lemma ReplyKeepsSlot(p: Peer, self: Id, secret: nat, e: Event)
    requires SlotOk(p) && p.phase.Free? && p.actions != [] && (p.actions[0].ReplyToInvite? || p.actions[0].ReplyToFileInvite?)
    ensures SlotStep(p, Begun(p.(actions := p.actions[1..]), self, p.actions[0], secret, e).peer)
  {
    hide SlotStep, SlotOk, Received, SentText;
    SlotStepOf(p, Begun(p.(actions := p.actions[1..]), self, p.actions[0], secret, e).peer);
  }

  lemma StartKeepsSlot(p: Peer, self: Id, secret: nat, e: Event)
    requires SlotOk(p) && p.phase.Free? && p.actions != []
    requires p.actions[0].StartConversation? || p.actions[0].DeleteConversation? || p.actions[0].BeginFileExchange?
    ensures SlotStep(p, Begun(p.(actions := p.actions[1..]), self, p.actions[0], secret, e).peer)
  {
    hide SlotStep, SlotOk, Received, SentText, RepliedToInvite, RepliedToFileInvite;
    SlotStepOf(p, Begun(p.(actions := p.actions[1..]), self, p.actions[0], secret, e).peer);
  }

  lemma BeginKeepsSlot(p: Peer, self: Id, secret: nat, e: Event)
    requires SlotOk(p) && p.phase.Free? && p.actions != []
    ensures SlotStep(p, Acted(p, self, secret, e).peer)
  {
    assert Acted(p, self, secret, e) == Begun(p.(actions := p.actions[1..]), self, p.actions[0], secret, e);
    hide Acted, Begun, SlotStep, SlotOk;
    match p.actions[0] {
      case ProcessReceived(_, _, _) => TextKeepsSlot(p, self, secret, e);
      case SendText(_) => TextKeepsSlot(p, self, secret, e);
      case ReplyToInvite(_) => ReplyKeepsSlot(p, self, secret, e);
      case ReplyToFileInvite(_, _) => ReplyKeepsSlot(p, self, secret, e);
      case _ => StartKeepsSlot(p, self, secret, e);
    }
  }

  lemma IdleKeepsSlot(p: Peer, self: Id, secret: nat, e: Event)
    requires SlotOk(p) && p.phase.Free? && p.actions == []
    ensures SlotStep(p, Acted(p, self, secret, e).peer)
  {
    assert Acted(p, self, secret, e).peer == p;
    hide Acted;
  }

  lemma ActKeepsSlot(p: Peer, self: Id, secret: nat, e: Event)
    requires SlotOk(p)
    ensures SlotStep(p, Acted(p, self, secret, e).peer)
  {
    hide Acted, SlotStep, SlotOk;
    if !p.phase.Free? {
      ResumeKeepsSlot(p, self, secret, e);
    } else if p.actions != [] {
      BeginKeepsSlot(p, self, secret, e);
    } else {
      IdleKeepsSlot(p, self, secret, e);
    }
  }

  // The action thread takes the oldest action when it is free, and only then.
  lemma ActionsTakeTurns(p: Peer, self: Id, secret: nat, e: Event)
    ensures Acted(p, self, secret, e).peer.actions
         == if p.phase.Free? && p.actions != [] then p.actions[1..] else p.actions
  {
    if p.phase.Exchanging() || p.phase.Aborted? {
      FileActed(p, self, secret, e);
    } else if !p.phase.Free? {
      SetUpActed(p, self, secret, e);
    } else {
      FreeActions(p, self, secret, e);
    }
    hide Acted;
  }

  lemma FreeActions(p: Peer, self: Id, secret: nat, e: Event)
    requires p.phase.Free?
    ensures Acted(p, self, secret, e).peer.actions == if p.actions == [] then [] else p.actions[1..]
  {
    if p.actions != [] {
      BegunLeavesActions(p.(actions := p.actions[1..]), self, p.actions[0], secret, e);
    }
    hide Begun;
  }

  lemma BegunLeavesActions(p: Peer, self: Id, action: Action, secret: nat, e: Event)
    requires p.phase.Free?
    ensures Begun(p, self, action, secret, e).peer.actions == p.actions
  {
    match action {
      case ProcessReceived(timestamp, from, received) => ReceivedChangesRows(p, timestamp, from, received);
      case SendText(text) => SentTextChangesRows(p, self, text, e);
      case _ =>
    }
    hide Received, SentText;
  }

  // Every way out of a blocking set-up: its own flag and queue are clear, the other flag is as it was.
  lemma SetUpsReturnClean(p: Peer, self: Id, secret: nat, e: Event)
    requires p.phase.Creating() || p.phase.Replying()
    requires Acted(p, self, secret, e).peer.phase.Free?
    ensures var q := Acted(p, self, secret, e).peer;
      !q.settingUpConversation && q.setupMessages == [] && q.exchangingFile == p.exchangingFile
  {
    hide Acted;
    SetUpActed(p, self, secret, e);
  }

  // And every way out of a blocking file exchange, at either end.
  lemma ExchangesReturnClean(p: Peer, self: Id, secret: nat, e: Event)
    requires p.phase.Exchanging() && Acted(p, self, secret, e).peer.phase.Free?
    ensures var q := Acted(p, self, secret, e).peer;
      !q.exchangingFile && q.fileMessages == [] && q.settingUpConversation == p.settingUpConversation
  {
    hide Acted;
    FileActed(p, self, secret, e);
  }

  // The same for a reply that ends before anything is awaited: too late, or declined.
  lemma RefusalsReturnClean(p: Peer, self: Id, from: Id, size: nat, secret: nat, e: Event)
    requires from in p.users && p.phase.Free?
    ensures var q := RepliedToInvite(p, self, from, secret, e).peer;
      q.phase.Free? ==> !q.settingUpConversation && q.setupMessages == [] && q.exchangingFile == p.exchangingFile
    ensures var q := RepliedToFileInvite(p, self, from, size, e).peer;
      q.phase.Free? ==> !q.exchangingFile && q.fileMessages == [] && q.settingUpConversation == p.settingUpConversation
  {
  }

  // -------- Every run --------

  lemma StepKeepsSlots(w: World, step: Step)
    requires forall i :: 0 <= i < |w.peers| ==> SlotOk(w.peers[i])
    ensures |Do(w, step).peers| == |w.peers|
    ensures forall i :: 0 <= i < |w.peers| ==> SlotOk(Do(w, step).peers[i])
    ensures forall i :: 0 <= i < |w.peers| && Leaked(w.peers[i]) ==>
              Leaked(Do(w, step).peers[i]) || Do(w, step).peers[i].phase.Aborted?
  {
    hide Acted, Listened, Requested, SlotOk, Leaked;
    match step {
      case Deliver(m) => if m.to < |w.peers| { ListenKeepsSlot(w.peers[m.to], m); }
      case Act(id, e) => if id < |w.peers| { ActKeepsSlot(w.peers[id], id, |w.origins|, e); }
      case Ask(id, request) => if id < |w.peers| { RequestKeepsSlot(w.peers[id], request); }
      case UsersChanged(id, users) => if id < |w.peers| { UsersKeepSlot(w.peers[id], Do(w, step).peers[id]); }
      case Lose(_) =>
    }
  }

  lemma UsersKeepSlot(p: Peer, q: Peer)
    requires q == p.(users := q.users)
    ensures SlotOk(p) == SlotOk(q) && Leaked(p) == Leaked(q)
  {
  }

  // In every run no client has both flags set, and each flag is accounted for by at most
  // one operation or waiting reply.
  lemma {:induction false} SlotIsExclusive(w: World, steps: seq<Step>)
    requires Initial(w)
    ensures |Run(w, steps).peers| == |w.peers|
    ensures forall i :: 0 <= i < |w.peers| ==> SlotOk(Run(w, steps).peers[i])
  {
    hide Do;
    if steps == [] {
      assert forall i :: 0 <= i < |w.peers| ==> Fresh(w.peers[i]);
    } else {
      SlotIsExclusive(w, steps[..|steps| - 1]);
      StepKeepsSlots(Run(w, steps[..|steps| - 1]), steps[|steps| - 1]);
    }
  }

  // A leaked slot is never given back, whatever happens: every later set-up and exchange
  // either goes unheard or trips over an assertion.
  lemma {:induction false} LeakIsForever(w: World, before: seq<Step>, after: seq<Step>, i: Id)
    requires Initial(w) && i < |w.peers| && i < |Run(w, before).peers|
    requires Leaked(Run(w, before).peers[i])
    ensures i < |Run(w, before + after).peers|
    ensures var q := Run(w, before + after).peers[i]; Leaked(q) || q.phase.Aborted?
  {
    hide Do;
    if after == [] {
      assert before + after == before;
    } else {
      var shorter := before + after[..|after| - 1];
      LeakIsForever(w, before, after[..|after| - 1], i);
      SlotIsExclusive(w, shorter);
      var v, step := Run(w, shorter), after[|after| - 1];
      assert (before + after)[..|before + after| - 1] == shorter;
      StepKeepsSlots(v, step);
      if v.peers[i].phase.Aborted? {
        AbortedStays(v, step, i);
      }
    }
  }

  // The first client is about to invite the second, which knows only the third.
  function Listing(): seq<Step> {
    [UsersChanged(0, {1})] + ([UsersChanged(1, {2})] + ([Ask(0, StartWith(1))] + []))
  }

  lemma ListedIs(w: World, id: Id, users: set<Id>)
    requires id < |w.peers|
    ensures Do(w, UsersChanged(id, users))
         == w.(peers := w.peers[id := w.peers[id].(users := Others(users, |w.peers|, id))])
  {
    hide Acted, Listened, Requested;
  }

  lemma AskedIs(w: World, id: Id, request: Request)
    requires id < |w.peers|
    ensures Do(w, Ask(id, request)) == w.(peers := w.peers[id := Requested(w.peers[id], request)])
  {
    hide Acted, Listened, Requested;
  }

  lemma StartIsAsked(p: Peer, id: Id)
    requires p.phase == Free && p.actions == [] && id in p.users
    ensures Requested(p, StartWith(id)) == p.(toUserId := id, actions := [StartConversation(id)])
  {
  }

  // What the two are about to do.
  ghost predicate Apart(u: World) {
    && |u.peers| >= 3 && u.inFlight == multiset{}
    && Fresh(u.peers[0].(users := {}, actions := [])) && u.peers[0].actions == [StartConversation(1)]
    && Fresh(u.peers[1].(users := {})) && u.peers[1].users == {2}
  }

  lemma ApartIs(p: Peer, q: Peer, u: World)
    requires Fresh(p) && Fresh(q) && |u.peers| >= 3 && u.inFlight == multiset{}
    requires u.peers[0] == p.(users := {1}, toUserId := 1, actions := [StartConversation(1)])
    requires u.peers[1] == q.(users := {2})
    ensures Apart(u)
  {
  }

  lemma ListedApart(w: World)
    requires Initial(w) && |w.peers| >= 3
    ensures Apart(Run(w, Listing()))
  {
    var p := w.peers[0];
    assert Fresh(p) && Fresh(w.peers[1]) && w.inFlight == multiset{};
    assert Others({1}, |w.peers|, 0) == {1} && Others({2}, |w.peers|, 1) == {2};
    hide Run, Do, Requested, Initial, Fresh;
    var u := Do(w, UsersChanged(0, {1}));
    var v := Do(u, UsersChanged(1, {2}));
    var t := Do(v, Ask(0, StartWith(1)));
    ListedIs(w, 0, {1});
    ListedIs(u, 1, {2});
    AskedIs(v, 0, StartWith(1));
    StartIsAsked(p.(users := {1}), 1);
    RunFirst(w, UsersChanged(0, {1}), [UsersChanged(1, {2})] + ([Ask(0, StartWith(1))] + []));
    RunFirst(u, UsersChanged(1, {2}), [Ask(0, StartWith(1))] + []);
    RunFirst(v, Ask(0, StartWith(1)), []);
    AtOnce(t);
    ApartIs(p, w.peers[1], t);
    hide Apart;
  }

  // The inviter's two steps.
  lemma InvitesOther(p: Peer, secret: nat, e: Event)
    requires Fresh(p.(users := {}, actions := [])) && p.actions == [StartConversation(1)] && e.ok
    ensures var p1 := p.(actions := [], settingUpConversation := true, phase := CreateSendInvite(1));
      && Acted(p, 0, secret, e) == Only(p1)
      && Acted(p1, 0, secret, e) == Sent(p1.(phase := CreateAwaitKey(1)), Message(ExchangeKeys, e.sendTime, 0, 1, Invite))
  {
  }

  // The invited client's two.
  lemma DropsInvite(q: Peer, m: Message, secret: nat, e: Event)
    requires Fresh(q.(users := {})) && q.users == {2} && m.flag == ExchangeKeys && m.from == 0 && m.body == Invite
    ensures Leaked(Acted(Listened(q, m), 1, secret, e).peer)
  {
  }

  // The invite arrives and is dropped without an answer.
  lemma UnlistedInviteLeaks(u: World, e: Event)
    requires Apart(u) && e.ok
    ensures var m := Message(ExchangeKeys, e.sendTime, 0, 1, Invite);
      var q := Do(Do(Do(Do(u, Act(0, e)), Act(0, e)), Deliver(m)), Act(1, e)).peers; |q| >= 3 && Leaked(q[1])
  {
    hide Acted, Listened, Leaked, Fresh;
    var m := Message(ExchangeKeys, e.sendTime, 0, 1, Invite);
    var v := Do(u, Act(0, e));
    InvitesOther(u.peers[0], |u.origins|, e);
    assert v.inFlight == multiset{} && v.peers[1] == u.peers[1] && v.origins == u.origins;
    var t := Do(v, Act(0, e));
    assert t.inFlight == multiset{m} && t.peers[1] == u.peers[1];
    var s := Do(t, Deliver(m));
    assert s.peers[1] == Listened(u.peers[1], m);
    DropsInvite(u.peers[1], m, |s.origins|, e);
  }

  // Three clients are enough for a leak.
  lemma LeakIsReachable(w: World)
    requires Initial(w) && |w.peers| >= 3
    ensures exists steps :: 1 < |Run(w, steps).peers| && Leaked(Run(w, steps).peers[1])
  {
    hide Run, Do, Leaked, Initial, Apart;
    var e := Event(true, false, true, 0, 0, 0, []);
    var m := Message(ExchangeKeys, 0, 0, 1, Invite);
    ListedApart(w);
    UnlistedInviteLeaks(Run(w, Listing()), e);
    RunOn(w, Listing(), Act(0, e));
    var inviting := Listing() + [Act(0, e)];
    RunOn(w, inviting, Act(0, e));
    var invited := inviting + [Act(0, e)];
    RunOn(w, invited, Deliver(m));
    var heard := invited + [Deliver(m)];
    RunOn(w, heard, Act(1, e));
    assert Leaked(Run(w, heard + [Act(1, e)]).peers[1]);
  }

  lemma AbortedStays(w: World, step: Step, i: Id)
    requires i < |w.peers| && w.peers[i].phase.Aborted?
    ensures i < |Do(w, step).peers| && Do(w, step).peers[i].phase.Aborted?
  {
    hide Begun, Popped, FileAwaited, ChunkSent;
  }
}
