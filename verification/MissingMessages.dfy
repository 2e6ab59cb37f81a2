/** Fetching missing messages: one conversation after another, with a counter of fetchers that is
    checked against the queue of conversations still to come. */
module MissingMessages {
  import opened Prelude
  import opened Queue

  datatype Action = FetchUsers | ProcessUsers(ids: seq<nat>) | FetchFrom(id: nat)

  // requested and finished remember what has been asked of the server in this round, and how
  // often the user has been told that the round is over.
  datatype State = State(
    userIdsToFetchMessagesFrom: seq<nat>, missingMessagesFetchers: nat,
    fetchingUsers: bool, fetchingMessages: bool, ignoreUsualMessages: bool,
    actions: seq<Action>, requested: seq<nat>, finished: nat, failed: bool)

  // A reply answers the one request that is out: the server sends none without, and marks the last.
  datatype Event = RunAction | Reply(last: bool) | UpdateClicked

  // netFetchUsers
  function UsersRequested(s: State): State {
    if s.fetchingUsers || s.fetchingMessages then s.(failed := true) else s.(fetchingUsers := true)
  }

  // fetchMissingMessagesFromUser and netFetchMessages
  function Requested(s: State, id: nat): State {
    var counted := s.(missingMessagesFetchers := s.missingMessagesFetchers + 1);
    if s.fetchingUsers || s.fetchingMessages then counted.(failed := true)
    else counted.(fetchingMessages := true, requested := s.requested + [id])
  }

  function Finished(s: State): State {
    s.(ignoreUsualMessages := false, finished := s.finished + 1)
  }

  // processFetchedUsers, given the users with whom a conversation exists
  function Processed(s: State, ids: seq<nat>): State {
    if s.missingMessagesFetchers != 0 then s.(failed := true)
    else
      var begun := s.(userIdsToFetchMessagesFrom := ids, requested := []);
      if ids == [] then Finished(begun) else Requested(begun.(userIdsToFetchMessagesFrom := ids[1..]), ids[0])
  }

  // onNextMessageFetched of both modules
  function Answered(s: State, last: bool): State {
    if !s.fetchingMessages || s.missingMessagesFetchers == 0 then s.(failed := true)
    else if !last then s
    else
      var fewer := s.(missingMessagesFetchers := s.missingMessagesFetchers - 1);
      var ids := s.userIdsToFetchMessagesFrom;
      var next := if ids == [] then fewer
        else fewer.(userIdsToFetchMessagesFrom := ids[1..], actions := s.actions + [FetchFrom(ids[0])]);
      if next.missingMessagesFetchers != |next.userIdsToFetchMessagesFrom| then next.(failed := true)
      else if next.missingMessagesFetchers != 0 then next.(fetchingMessages := false)
      else Finished(next.(userIdsToFetchMessagesFrom := [])).(fetchingMessages := false)
  }

  function Do(s: State, event: Event): State {
    if s.failed then s
    else match event
      case RunAction =>
        if s.actions == [] then s
        else
          var rest := s.(actions := s.actions[1..]);
          (match s.actions[0]
           case FetchUsers => UsersRequested(rest)
           case ProcessUsers(ids) => Processed(rest, ids)
           case FetchFrom(id) => Requested(rest, id))
      case Reply(last) => if s.fetchingMessages then Answered(s, last) else s
      case UpdateClicked =>
        if s.missingMessagesFetchers != 0 then s.(failed := true) else s.(actions := s.actions + [FetchUsers])
  }

  function Run(s: State, events: seq<Event>): State
    decreases |events|
  {
    if events == [] then s else Run(Do(s, events[0]), events[1..])
  }

  // A round about to begin: onUsersFetched has asked for it, and nothing else is under way.
  predicate Ready(s: State, ids: seq<nat>) {
    && !s.failed && s.missingMessagesFetchers == 0 && !s.fetchingUsers && !s.fetchingMessages
    && s.ignoreUsualMessages && s.actions == [ProcessUsers(ids)] && s.finished == 0 && s.requested == []
  }

  // -------- Where a round can be --------

  // The k-th request is out.
  predicate Fetching(s: State, ids: seq<nat>, k: nat) {
    && 1 <= k <= |ids| && k <= 2
    && s.fetchingMessages && s.missingMessagesFetchers == 1 && s.requested == ids[..k]
    && s.userIdsToFetchMessagesFrom == ids[k..] && s.actions == []
    && s.finished == k - 1 && (k == 2 ==> |ids| == 2) && (s.ignoreUsualMessages <==> k == 1)
  }

  // Between the two requests of a round of two.
  predicate Between(s: State, ids: seq<nat>) {
    && |ids| == 2 && !s.fetchingMessages && s.missingMessagesFetchers == 0 && s.requested == ids[..1]
    && s.userIdsToFetchMessagesFrom == [] && s.actions == [FetchFrom(ids[1])]
    && s.finished == 1 && !s.ignoreUsualMessages
  }

  predicate Over(s: State, ids: seq<nat>) {
    && |ids| <= 2 && !s.fetchingMessages && s.missingMessagesFetchers == 0 && s.requested == ids
    && s.userIdsToFetchMessagesFrom == [] && s.actions == []
    && s.finished == (if ids == [] then 1 else |ids|) && !s.ignoreUsualMessages
  }

  predicate Aborted(s: State, ids: seq<nat>) {
    s.failed && |ids| >= 3 && s.requested == ids[..1] && s.missingMessagesFetchers == 0 && s.finished == 0
  }

  predicate OnItsWay(s: State, ids: seq<nat>) {
    if s.failed then Aborted(s, ids)
    else !s.fetchingUsers && (Ready(s, ids) || Fetching(s, ids, 1) || Between(s, ids) || Fetching(s, ids, 2) || Over(s, ids))
  }

  lemma StepKeeps(s: State, ids: seq<nat>, event: Event)
    requires OnItsWay(s, ids) && !event.UpdateClicked?
    ensures OnItsWay(Do(s, event), ids)
  {
    if Ready(s, ids) && ids != [] {
      assert [ids[0]] == ids[..1];
    } else if Fetching(s, ids, 1) && |ids| > 1 {
      assert ids[1..][1..] == ids[2..] && ids[1..][0] == ids[1];
      assert |ids| == 2 ==> ids[2..] == [];
    } else if Between(s, ids) {
      assert ids[..1] + [ids[1]] == ids[..2] && ids[2..] == [];
    } else if Fetching(s, ids, 2) {
      assert ids[..2] == ids;
    }
  }

  predicate NoClicks(events: seq<Event>) {
    forall i :: 0 <= i < |events| ==> !events[i].UpdateClicked?
  }

  lemma {:induction false} RunKeeps(s: State, ids: seq<nat>, events: seq<Event>)
    requires OnItsWay(s, ids) && NoClicks(events)
    ensures OnItsWay(Run(s, events), ids)
    decreases |events|
  {
    if events != [] {
      StepKeeps(s, ids, events[0]);
      RunKeeps(Do(s, events[0]), ids, events[1..]);
    }
  }

  // -------- What holds of every round --------

  // The conversations are asked for in their order and none twice, by one fetcher at a time.
  lemma OrderedOnceEach(s: State, ids: seq<nat>, events: seq<Event>)
    requires Ready(s, ids) && NoClicks(events)
    requires forall i, j :: 0 <= i < j < |ids| ==> ids[i] != ids[j]
    ensures var s' := Run(Do(s, RunAction), events);
      && s'.missingMessagesFetchers <= 1
      && s'.requested <= ids
      && forall i, j :: 0 <= i < j < |s'.requested| ==> s'.requested[i] != s'.requested[j]
  {
    StepKeeps(s, ids, RunAction);
    BegunStaysBegun(Do(s, RunAction), ids, events);
  }

  lemma {:induction false} BegunStaysBegun(s: State, ids: seq<nat>, events: seq<Event>)
    requires OnItsWay(s, ids) && !Ready(s, ids) && NoClicks(events)
    ensures OnItsWay(Run(s, events), ids) && !Ready(Run(s, events), ids)
    decreases |events|
  {
    if events != [] {
      StepKeeps(s, ids, events[0]);
      BegunStaysBegun(Do(s, events[0]), ids, events[1..]);
    }
  }

  function ReplyToFirst(): seq<Event> {
    [RunAction, Reply(true)]
  }

  // With three conversations or more, the check fails as soon as the first has been fetched.
  lemma ThreeAbort(s: State, ids: seq<nat>)
    requires Ready(s, ids) && |ids| >= 3
    ensures Run(s, ReplyToFirst()).failed
  {
    var s1 := Do(s, RunAction);
    StepKeeps(s, ids, RunAction);
    assert Fetching(s1, ids, 1);
    assert ids[1..][1..] == ids[2..];
    assert Do(s1, Reply(true)).failed;
    assert ReplyToFirst()[1..] == [Reply(true)] && ReplyToFirst()[1..][1..] == [];
    assert Run(Do(s1, Reply(true)), []) == Do(s1, Reply(true));
  }

  // The check of the counter against the queue holds through every run of a round if and only
  // if there are at most two conversations.
  lemma CheckHoldsUpToTwo(s: State, ids: seq<nat>)
    requires Ready(s, ids)
    ensures (forall events :: NoClicks(events) ==> !Run(s, events).failed) <==> |ids| <= 2
  {
    if |ids| <= 2 {
      forall events | NoClicks(events)
        ensures !Run(s, events).failed
      {
        RunKeeps(s, ids, events);
      }
    } else {
      ThreeAbort(s, ids);
      assert NoClicks(ReplyToFirst());
    }
  }

  // A round that has come to rest, with no action waiting and no reply to come, has asked for all.
  lemma RestMeansDone(s: State, ids: seq<nat>, events: seq<Event>)
    requires Ready(s, ids) && NoClicks(events) && |ids| <= 2
    ensures var s' := Run(s, events);
      s'.actions == [] && !s'.fetchingMessages ==> s'.requested == ids && s'.finished >= 1 && !s'.ignoreUsualMessages
  {
    RunKeeps(s, ids, events);
  }

  // And every round of at most two can come to rest, from wherever it is.
  lemma RoundCanEnd(s: State, ids: seq<nat>) returns (events: seq<Event>)
    requires OnItsWay(s, ids) && !s.failed && |ids| <= 2
    ensures NoClicks(events)
    ensures var t := Run(s, events);
      && !t.failed && t.requested == ids && t.actions == [] && !t.fetchingMessages && !t.ignoreUsualMessages
      && t.missingMessagesFetchers == 0 && t.userIdsToFetchMessagesFrom == []
    decreases ToGo(s, ids)
  {
    if Over(s, ids) {
      events := [];
    } else {
      var event := if Ready(s, ids) || Between(s, ids) then RunAction else Reply(true);
      StepKeeps(s, ids, event);
      Nearer(s, ids, event);
      var rest := RoundCanEnd(Do(s, event), ids);
      events := [event] + rest;
      assert events[1..] == rest;
    }
  }

  ghost function ToGo(s: State, ids: seq<nat>): nat {
    if Ready(s, ids) then 4 else if Fetching(s, ids, 1) then 3 else if Between(s, ids) then 2
    else if Fetching(s, ids, 2) then 1 else 0
  }

  lemma Nearer(s: State, ids: seq<nat>, event: Event)
    requires OnItsWay(s, ids) && !s.failed && |ids| <= 2 && !Over(s, ids) && OnItsWay(Do(s, event), ids)
    requires event == if Ready(s, ids) || Between(s, ids) then RunAction else Reply(true)
    ensures !Do(s, event).failed && ToGo(Do(s, event), ids) < ToGo(s, ids)
  {
  }

  // -------- The early end of a round of two --------

  // While the second of two conversations is being fetched, the user has been told that it is
  // all over and is then told again; a click on the update button in between aborts the client.
  lemma TwoEndEarly(s: State, a: nat, b: nat)
    requires Ready(s, [a, b])
    ensures var between := Do(Do(s, RunAction), Reply(true));
      && between.finished == 1 && between.requested == [a] && !between.ignoreUsualMessages
      && Do(Do(between, RunAction), Reply(true)).finished == 2
      && !Do(between, UpdateClicked).failed
      && Do(Do(Do(between, UpdateClicked), RunAction), RunAction).failed
  {
    var ids := [a, b];
    var s1 := Do(s, RunAction);
    StepKeeps(s, ids, RunAction);
    assert Fetching(s1, ids, 1);
    var s2 := Do(s1, Reply(true));
    StepKeeps(s1, ids, Reply(true));
    assert Between(s2, ids);
    StepKeeps(s2, ids, RunAction);
    var clicked := Do(s2, UpdateClicked);
    assert clicked.actions == [FetchFrom(b), FetchUsers];
    assert clicked.actions[1..] == [FetchUsers];
  }

  // What a round tells the user is right exactly when there are not two conversations: in every
  // run, once the user has been told that it is over, all of them have been asked for.
  lemma ReportIsRightUnlessTwo(s: State, ids: seq<nat>)
    requires Ready(s, ids)
    ensures (forall events :: NoClicks(events) && Run(s, events).finished > 0 ==> Run(s, events).requested == ids)
            <==> |ids| != 2
  {
    if |ids| == 2 {
      assert ids == [ids[0], ids[1]];
      TwoEndEarly(s, ids[0], ids[1]);
      var events := ReplyToFirst();
      assert events[1..] == [Reply(true)] && events[1..][1..] == [];
      assert Run(s, events) == Do(Do(s, RunAction), Reply(true)) by {
        assert Run(Do(Do(s, RunAction), Reply(true)), []) == Do(Do(s, RunAction), Reply(true));
      }
      assert NoClicks(events);
    } else {
      forall events | NoClicks(events) && Run(s, events).finished > 0
        ensures Run(s, events).requested == ids
      {
        RunKeeps(s, ids, events);
      }
    }
  }

  // -------- Clicks on update during a round --------

  // A click that does no harm: the list of users is fetched when nothing else is.
  predicate Harmless(s: State) {
    && !s.failed && s.missingMessagesFetchers == 0 && !s.fetchingMessages
    && (s.actions == [] || (!s.fetchingUsers && (s.actions == [ProcessUsers([]), FetchUsers] || s.actions == [FetchUsers])))
  }

  lemma {:induction false} HarmlessRun(s: State, events: seq<Event>)
    requires Harmless(s) && NoClicks(events)
    ensures !Run(s, events).failed
    decreases |events|
  {
    if events != [] {
      assert [ProcessUsers([]), FetchUsers][1..] == [FetchUsers] && [FetchUsers][1..] == [];
      assert Harmless(Do(s, events[0]));
      HarmlessRun(Do(s, events[0]), events[1..]);
    }
  }

  function TwoActions(): seq<Event> {
    [RunAction, RunAction]
  }

  lemma ClickFails(s: State, ids: seq<nat>)
    requires OnItsWay(s, ids) && !s.failed && !Over(s, ids) && !(Ready(s, ids) && ids == [])
    ensures NoClicks(TwoActions()) && Run(Do(s, UpdateClicked), TwoActions()).failed
  {
    var t := Do(s, UpdateClicked);
    var u := Do(t, RunAction);
    var v := Do(u, RunAction);
    if Ready(s, ids) || Between(s, ids) {
      assert t.actions[1..] == [FetchUsers];
      assert v.failed;
    }
    assert TwoActions()[1..] == [RunAction] && TwoActions()[1..][1..] == [];
    assert Run(t, TwoActions()) == Run(u, [RunAction]) == Run(v, []) == v;
  }

  // A click on update in the course of a round can abort the client exactly unless the round is
  // over, or about to begin without anything to fetch.
  lemma ClickAbortsExactly(s: State, ids: seq<nat>)
    requires OnItsWay(s, ids) && !s.failed
    ensures (exists events :: NoClicks(events) && Run(Do(s, UpdateClicked), events).failed)
            <==> !(Over(s, ids) || (Ready(s, ids) && ids == []))
  {
    if Over(s, ids) || (Ready(s, ids) && ids == []) {
      var t := Do(s, UpdateClicked);
      assert [ProcessUsers(ids)] + [FetchUsers] == [ProcessUsers(ids), FetchUsers];
      assert Harmless(t);
      forall events | NoClicks(events)
        ensures !Run(t, events).failed
      {
        HarmlessRun(t, events);
      }
    } else {
      ClickFails(s, ids);
    }
  }

  // Once a round is over, a click makes the client ask for the list of users, and for nothing twice: until it
  // has the list, acting on another click fails.
  lemma ClickFetchesUsers(s: State, ids: seq<nat>)
    requires OnItsWay(s, ids) && !s.failed && Over(s, ids)
    ensures var t := Do(Do(s, UpdateClicked), RunAction);
      && !t.failed && t.fetchingUsers && t.actions == [] && t.requested == s.requested
      && Do(Do(t, UpdateClicked), RunAction).failed
  {
    assert Do(s, UpdateClicked).actions == [FetchUsers];
    assert [FetchUsers][1..] == [];
  }

  // -------- The client's fields --------

  // The conversations whose fetches wait in the lifecycle queue.
  function Scheduled(actions: seq<Action>): seq<nat> {
    if actions == [] then []
    else Scheduled(actions[..|actions| - 1]) + (if actions[|actions| - 1].FetchFrom? then [actions[|actions| - 1].id] else [])
  }

  // Moving the first to the lifecycle queue changes nothing.
  lemma ScheduledLater(actions: seq<Action>, ids: seq<nat>)
    ensures ids != [] ==> Scheduled(actions + [FetchFrom(ids[0])]) + ids[1..] == Scheduled(actions) + ids
  {
    if ids != [] {
      var more := actions + [FetchFrom(ids[0])];
      assert more[..|more| - 1] == actions;
    }
  }

  // The begin of a round, case by case.
  lemma ProcessedIs(s: State, ids: seq<nat>)
    ensures s.missingMessagesFetchers == 0 && ids == [] ==>
      Processed(s, ids) == s.(userIdsToFetchMessagesFrom := [], requested := [], ignoreUsualMessages := false, finished := s.finished + 1)
    ensures s.missingMessagesFetchers == 0 && ids != [] ==>
      [ids[0]] + ids[1..] == ids &&
      var asked := s.(userIdsToFetchMessagesFrom := ids[1..], requested := [], missingMessagesFetchers := 1);
      Processed(s, ids) == if s.fetchingUsers || s.fetchingMessages then asked.(failed := true)
                           else asked.(fetchingMessages := true, requested := [ids[0]])
  {
    if ids != [] {
      assert [] + [ids[0]] == [ids[0]];
    }
  }

  // What a reply comes to. It fails exactly by a relation of counter and queue, no conversation is
  // forgotten, and the end is reported exactly with the last message of the last fetcher.
  lemma AnsweringMeans(s: State, last: bool)
    requires !s.failed
    ensures var t, n, f := Answered(s, last), |s.userIdsToFetchMessagesFrom|, s.missingMessagesFetchers;
      && (!t.failed <==> s.fetchingMessages && f > 0 && (last ==> f == if n == 0 then 1 else n))
      && (!t.failed ==>
            && Scheduled(t.actions) + t.userIdsToFetchMessagesFrom == Scheduled(s.actions) + s.userIdsToFetchMessagesFrom
            && (t.finished > s.finished <==> last && f == 1))
  {
    ScheduledLater(s.actions, s.userIdsToFetchMessagesFrom);
    hide Scheduled;
  }

  class Fetcher {
    const userIdsToFetchMessagesFrom: Queue<nat>
    const actions: Queue<Action>
    var missingMessagesFetchers: nat
    var fetchingUsers: bool
    var fetchingMessages: bool
    var ignoreUsualMessages: bool
    ghost var requested: seq<nat>
    ghost var finished: nat

    constructor ()
      ensures Valid() && fresh(userIdsToFetchMessagesFrom) && fresh(actions)
      ensures Value(false) == State([], 0, false, false, false, [], [], 0, false)
    {
      userIdsToFetchMessagesFrom := new Queue();
      actions := new Queue();
      missingMessagesFetchers, fetchingUsers, fetchingMessages, ignoreUsualMessages := 0, false, false, false;
      requested, finished := [], 0;
    }

    ghost predicate Valid()
      reads this, userIdsToFetchMessagesFrom, actions
    {
      userIdsToFetchMessagesFrom.Valid() && actions.Valid()
    }

    ghost function Pending(): seq<nat>
      reads this, userIdsToFetchMessagesFrom, userIdsToFetchMessagesFrom.values
      requires userIdsToFetchMessagesFrom.Valid()
    {
      userIdsToFetchMessagesFrom.Contents()
    }

    ghost function Value(failed: bool): State
      reads this, userIdsToFetchMessagesFrom, userIdsToFetchMessagesFrom.values, actions, actions.values
      requires Valid()
    {
      State(Pending(), missingMessagesFetchers, fetchingUsers, fetchingMessages,
            ignoreUsualMessages, actions.Contents(), requested, finished, failed)
    }

    method FetchMissingMessagesFromUser(id: nat) returns (ok: bool)
      requires Valid()
      modifies this
      ensures Valid() && Value(!ok) == Requested(old(Value(false)), id)
      ensures ok <==> !old(fetchingUsers) && !old(fetchingMessages)
    {
      missingMessagesFetchers := missingMessagesFetchers + 1;
      if fetchingUsers || fetchingMessages {
        return false;
      }
      fetchingMessages := true;
      requested := requested + [id];
      return true;
    }

    // processFetchedUsers, given the ids that it collects. They are all asked for or still to come.
    method ProcessFetchedUsers(ids: seq<nat>) returns (ok: bool)
      requires Valid()
      modifies this, userIdsToFetchMessagesFrom
      ensures Valid() && Value(!ok) == Processed(old(Value(false)), ids)
      ensures ok <==> old(missingMessagesFetchers) == 0 && (ids == [] || (!old(fetchingUsers) && !old(fetchingMessages)))
      ensures ok ==> requested + Pending() == ids && missingMessagesFetchers == |requested| <= 1
      ensures ok ==> (finished > old(finished) <==> requested == [])
    {
      if missingMessagesFetchers != 0 {
        return false;
      }
      ProcessedIs(Value(false), ids);
      hide Processed;
      CollectIds(ids);
      ok := BeginRound();
    }

    method CollectIds(ids: seq<nat>)
      requires Valid()
      modifies userIdsToFetchMessagesFrom
      ensures Valid() && Pending() == ids
    {
      userIdsToFetchMessagesFrom.Clear();
      userIdsToFetchMessagesFrom.PushAll(ids);
      assert [] + ids == ids;
    }

    // The end of processFetchedUsers.
    method BeginRound() returns (ok: bool)
      requires Valid()
      modifies this, userIdsToFetchMessagesFrom
      ensures Valid() && actions.Contents() == old(actions.Contents())
      ensures fetchingUsers == old(fetchingUsers)
      ensures var ids := old(Pending());
        if ids == [] then
          && ok && Pending() == [] && requested == [] && finished == old(finished) + 1 && !ignoreUsualMessages
          && missingMessagesFetchers == old(missingMessagesFetchers) && fetchingMessages == old(fetchingMessages)
        else
          && (ok <==> !old(fetchingUsers) && !old(fetchingMessages))
          && Pending() == ids[1..] && requested == (if ok then [ids[0]] else []) && finished == old(finished)
          && ignoreUsualMessages == old(ignoreUsualMessages)
          && missingMessagesFetchers == old(missingMessagesFetchers) + 1 && fetchingMessages == (ok || old(fetchingMessages))
    {
      requested := [];
      if userIdsToFetchMessagesFrom.size == 0 {
        ignoreUsualMessages, finished := false, finished + 1;
        return true;
      }
      ghost var ids := Pending();
      var id := userIdsToFetchMessagesFrom.Pop();
      assert ids == [id] + Pending();
      ok := FetchMissingMessagesFromUser(id);
    }

    // The next fetch goes to the lifecycle queue.
    method ScheduleNext()
      requires Valid()
      modifies userIdsToFetchMessagesFrom, actions
      ensures Valid()
      ensures var ids, waiting := old(Pending()), old(actions.Contents());
        if ids == [] then Pending() == [] && actions.Contents() == waiting
        else Pending() == ids[1..] && actions.Contents() == waiting + [FetchFrom(ids[0])]
    {
      if userIdsToFetchMessagesFrom.size > 0 {
        ghost var ids := Pending();
        var id := userIdsToFetchMessagesFrom.Pop();
        assert ids == [id] + Pending();
        actions.Push(FetchFrom(id));
      }
    }

    // onNextMessageFetched of both modules
    method OnNextMessageFetched(last: bool) returns (ok: bool)
      requires Valid()
      modifies this, userIdsToFetchMessagesFrom, actions
      ensures Valid() && Value(!ok) == Answered(old(Value(false)), last)
      ensures var fetchers, n := old(missingMessagesFetchers), |old(Pending())|;
        ok <==> old(fetchingMessages) && fetchers > 0 && (last ==> fetchers == if n == 0 then 1 else n)
      ensures ok ==> Scheduled(actions.Contents()) + Pending() == Scheduled(old(actions.Contents())) + old(Pending())
      ensures ok ==> (finished > old(finished) <==> last && old(missingMessagesFetchers) == 1)
    {
      AnsweringMeans(Value(false), last);
      hide Scheduled;
      ok := HandleReply(last);
      hide Answered;
    }

    method HandleReply(last: bool) returns (ok: bool)
      requires Valid()
      modifies this, userIdsToFetchMessagesFrom, actions
      ensures Valid() && Value(!ok) == Answered(old(Value(false)), last)
    {
      if !fetchingMessages || missingMessagesFetchers == 0 {
        return false;
      }
      if !last {
        return true;
      }
      missingMessagesFetchers := missingMessagesFetchers - 1;
      ScheduleNext();
      if missingMessagesFetchers != userIdsToFetchMessagesFrom.size {
        return false;
      }
      if missingMessagesFetchers == 0 {
        userIdsToFetchMessagesFrom.Clear();
        ignoreUsualMessages, finished := false, finished + 1;
      }
      fetchingMessages := false;
      return true;
    }
  }
}
