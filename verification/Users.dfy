/** The list of users: bundles of records from the server, the local list made from them,
    and the search in it. */
module Users {
  import opened Prelude
  import opened Wire
  import opened List
  import opened Queue

  const USERNAME_SIZE: nat := 16
  const USER_INFO_SIZE: nat := INT_SIZE + 1 + USERNAME_SIZE

  // The flag is the byte that the record holds for it.
  datatype UserInfo = UserInfo(id: nat, connected: byte, name: seq<byte>)

  datatype User = User(id: nat, name: seq<byte>, conversationExists: bool, online: bool)

  predicate ValidInfo(info: UserInfo) {
    info.id < UINT_LIMIT && |info.name| == USERNAME_SIZE
  }

  // -------- Records --------

  function Record(info: UserInfo): seq<byte> {
    Encode(info.id, INT_SIZE) + [info.connected] + info.name
  }

  function UnpackInfo(bytes: seq<byte>): UserInfo
    requires |bytes| >= USER_INFO_SIZE
  {
    UserInfo(Decode(bytes[..INT_SIZE]), bytes[INT_SIZE], bytes[INT_SIZE + 1..USER_INFO_SIZE])
  }

  lemma RecordRoundTrip(info: UserInfo, rest: seq<byte>)
    requires ValidInfo(info)
    ensures |Record(info)| == USER_INFO_SIZE
    ensures UnpackInfo(Record(info) + rest) == info
  {
    var bytes := Record(info) + rest;
    assert Power256(INT_SIZE) == UINT_LIMIT;
    DecodeEncode(info.id, INT_SIZE);
    assert bytes[..INT_SIZE] == Encode(info.id, INT_SIZE);
    assert bytes[INT_SIZE + 1..USER_INFO_SIZE] == info.name;
  }

  // Where the fields of a record lie.
  lemma UnpackedRecord(bytes: seq<byte>)
    requires |bytes| == USER_INFO_SIZE
    ensures ValidInfo(UnpackInfo(bytes)) && Record(UnpackInfo(bytes)) == bytes
    ensures var info := UnpackInfo(bytes);
      && info.id == Little(bytes[..4])
      && info.connected == bytes[4] && info.name == bytes[5..21]
  {
    LittleEndian(bytes[..INT_SIZE]);
    assert Power256(INT_SIZE) == UINT_LIMIT;
    EncodeDecode(bytes[..INT_SIZE]);
    assert bytes == bytes[..INT_SIZE] + [bytes[INT_SIZE]] + bytes[INT_SIZE + 1..];
  }

  // The records of a bundle's body.
  function Records(body: seq<byte>): seq<UserInfo> {
    if |body| < USER_INFO_SIZE then [] else [UnpackInfo(body)] + Records(body[USER_INFO_SIZE..])
  }

  function Body(infos: seq<UserInfo>): seq<byte> {
    if infos == [] then [] else Record(infos[0]) + Body(infos[1..])
  }

  lemma RecordsBegin(info: UserInfo, rest: seq<byte>)
    requires ValidInfo(info)
    ensures |Record(info)| == USER_INFO_SIZE && Records(Record(info) + rest) == [info] + Records(rest)
  {
    RecordRoundTrip(info, rest);
    assert (Record(info) + rest)[USER_INFO_SIZE..] == rest;
    hide Record, UnpackInfo;
  }

  // One record more in front of a body.
  lemma BodyBegins(infos: seq<UserInfo>)
    requires infos != [] && ValidInfo(infos[0])
    ensures |Body(infos)| == USER_INFO_SIZE + |Body(infos[1..])|
    ensures Records(Body(infos)) == [infos[0]] + Records(Body(infos[1..]))
  {
    RecordsBegin(infos[0], Body(infos[1..]));
    hide Record, Records, UnpackInfo;
  }

  lemma {:induction false} BodySize(infos: seq<UserInfo>)
    requires forall info :: info in infos ==> ValidInfo(info)
    ensures |Body(infos)| == USER_INFO_SIZE * |infos|
  {
    if infos != [] {
      BodyBegins(infos);
      hide Body, Records;
      BodySize(infos[1..]);
    }
  }

  lemma {:induction false} BodyRoundTrip(infos: seq<UserInfo>)
    requires forall info :: info in infos ==> ValidInfo(info)
    ensures |Body(infos)| == USER_INFO_SIZE * |infos| && Records(Body(infos)) == infos
  {
    BodySize(infos);
    if infos != [] {
      BodyBegins(infos);
      hide Body, Records;
      BodyRoundTrip(infos[1..]);
      assert [infos[0]] + infos[1..] == infos;
    }
  }

  // -------- Bundles --------

  datatype Bundle = Bundle(index: nat, count: nat, body: seq<byte>)

  // Subtraction in C's unsigned: no bundle is the last of none.
  function LastIndex(count: nat): nat {
    if count == 0 then UINT_LIMIT - 1 else count - 1
  }

  // The list under construction, and the finished list if this bundle ends it.
  datatype Fetching = Fetching(infos: seq<UserInfo>, finished: Option<seq<UserInfo>>)

  function Fetched(infos: seq<UserInfo>, bundle: Bundle): Fetching {
    var all := (if bundle.index == 0 then [] else infos) + Records(bundle.body);
    if bundle.index < LastIndex(bundle.count) then Fetching(all, None) else Fetching([], Some(all))
  }

  // One bundle after another, up to the first that finishes a list.
  function FetchedAll(infos: seq<UserInfo>, bundles: seq<Bundle>): Fetching
    decreases |bundles|
  {
    if bundles == [] then Fetching(infos, None)
    else
      var next := Fetched(infos, bundles[0]);
      if next.finished.Some? then next else FetchedAll(next.infos, bundles[1..])
  }

  // A list in pieces, each piece one bundle.
  function Bundles(parts: seq<seq<UserInfo>>, k: nat): seq<Bundle>
    requires k <= |parts|
    decreases |parts| - k
  {
    if k == |parts| then [] else [Bundle(k, |parts|, Body(parts[k]))] + Bundles(parts, k + 1)
  }

  lemma {:induction false} BundlesFrom(parts: seq<seq<UserInfo>>, k: nat, infos: seq<UserInfo>)
    requires k < |parts| && forall i :: 0 <= i < |parts| ==> forall info :: info in parts[i] ==> ValidInfo(info)
    requires k > 0 ==> infos == Concat(parts[..k])
    ensures FetchedAll(infos, Bundles(parts, k)) == Fetching([], Some(Concat(parts)))
    decreases |parts| - k
  {
    BodyRoundTrip(parts[k]);
    assert parts[..k + 1] == parts[..k] + [parts[k]];
    ConcatAppend(parts[..k], parts[k]);
    var bundles := Bundles(parts, k);
    assert bundles[0] == Bundle(k, |parts|, Body(parts[k])) && bundles[1..] == Bundles(parts, k + 1);
    var all := Concat(parts[..k + 1]);
    assert (if k == 0 then [] else infos) + parts[k] == all;
    if k + 1 < |parts| {
      BundlesFrom(parts, k + 1, all);
    } else {
      assert parts[..k + 1] == parts;
    }
  }

  // However a list is cut into bundles, and whatever an earlier fetch has left behind,
  // the fetched list is the original and nothing is left over.
  lemma BundlesJoin(parts: seq<seq<UserInfo>>, leftovers: seq<UserInfo>)
    requires parts != [] && forall i :: 0 <= i < |parts| ==> forall info :: info in parts[i] ==> ValidInfo(info)
    ensures FetchedAll(leftovers, Bundles(parts, 0)) == Fetching([], Some(Concat(parts)))
  {
    BundlesFrom(parts, 0, leftovers);
  }

  // -------- The local list --------

  function Local(info: UserInfo, conversations: set<nat>): User {
    User(info.id, info.name, info.id in conversations, info.connected != 0)
  }

  // Everyone but the current user.
  function Locals(infos: seq<UserInfo>, current: nat, conversations: set<nat>): seq<User> {
    if infos == [] then []
    else
      var last := infos[|infos| - 1];
      Locals(infos[..|infos| - 1], current, conversations) + (if last.id == current then [] else [Local(last, conversations)])
  }

  // The current user's name, if the list has it.
  function OwnName(infos: seq<UserInfo>, current: nat, known: seq<byte>): seq<byte> {
    if infos == [] then known
    else
      var last := infos[|infos| - 1];
      if last.id == current then last.name else OwnName(infos[..|infos| - 1], current, known)
  }

  lemma OneMore(infos: seq<UserInfo>, i: nat, current: nat, conversations: set<nat>, known: seq<byte>)
    requires i < |infos|
    ensures var before, after := Locals(infos[..i], current, conversations), Locals(infos[..i + 1], current, conversations);
      if infos[i].id == current then after == before && OwnName(infos[..i + 1], current, known) == infos[i].name
      else after == before + [Local(infos[i], conversations)]
           && OwnName(infos[..i + 1], current, known) == OwnName(infos[..i], current, known)
  {
    assert infos[..i + 1][..i] == infos[..i];
  }

  // Whom to fetch missing messages from.
  function WithConversation(users: seq<User>): seq<nat> {
    if users == [] then []
    else
      var last := users[|users| - 1];
      WithConversation(users[..|users| - 1]) + (if last.conversationExists then [last.id] else [])
  }

  lemma OneMoreConversation(users: seq<User>, user: User)
    ensures WithConversation(users + [user])
         == WithConversation(users) + (if user.conversationExists then [user.id] else [])
  {
    assert (users + [user])[..|users|] == users;
  }

  // Exactly the users with a conversation, in the order of the list.
  lemma {:induction false} FetchesFromThose(users: seq<User>)
    requires Ascending(UserIds(users))
    ensures Ascending(WithConversation(users))
    ensures forall id :: id in WithConversation(users) <==>
      exists i :: 0 <= i < |users| && users[i].conversationExists && users[i].id == id
  {
    if users != [] {
      var before, last := users[..|users| - 1], users[|users| - 1];
      assert UserIds(before) == UserIds(users)[..|before|];
      FetchesFromThose(before);
      forall id
        ensures id in WithConversation(users) <==>
          exists i :: 0 <= i < |users| && users[i].conversationExists && users[i].id == id
      {
        if i :| 0 <= i < |users| && users[i].conversationExists && users[i].id == id {
          assert i < |before| ==> users[i] == before[i];
        }
        if id in WithConversation(before) {
          var k :| 0 <= k < |before| && before[k].conversationExists && before[k].id == id;
          assert users[k] == before[k];
        }
      }
      var ids, all := WithConversation(before), WithConversation(users);
      forall j | 0 <= j < |ids|
        ensures ids[j] < last.id
      {
        assert ids[j] in ids;
        var k :| 0 <= k < |before| && before[k].conversationExists && before[k].id == ids[j];
        assert UserIds(users)[k] < UserIds(users)[|before|];
      }
      assert forall j :: 0 <= j < |all| ==> all[j] == if j < |ids| then ids[j] else last.id;
    }
  }

  // The current user's name is its own entry's, or stays as it is.
  lemma {:induction false} OwnNameIs(infos: seq<UserInfo>, current: nat, known: seq<byte>)
    requires Ascending(InfoIds(infos))
    ensures forall i :: 0 <= i < |infos| && infos[i].id == current ==> OwnName(infos, current, known) == infos[i].name
    ensures current !in InfoIds(infos) ==> OwnName(infos, current, known) == known
  {
    if infos != [] {
      var before, last := infos[..|infos| - 1], infos[|infos| - 1];
      assert InfoIds(before) == InfoIds(infos)[..|before|];
      assert InfoIds(infos)[|before|] == last.id;
      OwnNameIs(before, current, known);
      forall i | 0 <= i < |infos| && infos[i].id == current
        ensures OwnName(infos, current, known) == infos[i].name
      {
        if i < |before| {
          assert InfoIds(infos)[i] < InfoIds(infos)[|before|] && before[i] == infos[i];
        }
      }
    }
  }

  predicate Ascending(ids: seq<nat>) {
    forall i, j :: 0 <= i < j < |ids| ==> ids[i] < ids[j]
  }

  function InfoIds(infos: seq<UserInfo>): seq<nat> {
    seq(|infos|, i requires 0 <= i < |infos| => infos[i].id)
  }

  function UserIds(users: seq<User>): seq<nat> {
    seq(|users|, i requires 0 <= i < |users| => users[i].id)
  }

  lemma {:induction false} LocalsAreLocal(infos: seq<UserInfo>, current: nat, conversations: set<nat>)
    requires Ascending(InfoIds(infos))
    ensures var users := Locals(infos, current, conversations);
      && Ascending(UserIds(users))
      && forall user :: user in users <==>
           exists i :: 0 <= i < |infos| && infos[i].id != current
             && user == Local(infos[i], conversations)
  {
    if infos != [] {
      var before, last := infos[..|infos| - 1], infos[|infos| - 1];
      assert InfoIds(before) == InfoIds(infos)[..|before|];
      LocalsAreLocal(before, current, conversations);
      var fewer, users := Locals(before, current, conversations), Locals(infos, current, conversations);
      forall i | 0 <= i < |fewer|
        ensures fewer[i].id < last.id
      {
        assert fewer[i] in fewer;
        var k :| 0 <= k < |before| && before[k].id != current && fewer[i] == Local(before[k], conversations);
        assert InfoIds(infos)[k] < InfoIds(infos)[|before|];
      }
      forall i, j | 0 <= i < j < |users|
        ensures UserIds(users)[i] < UserIds(users)[j]
      {
        if j < |fewer| {
          assert UserIds(fewer)[i] < UserIds(fewer)[j];
        }
      }
      forall user
        ensures user in users <==>
          exists i :: 0 <= i < |infos| && infos[i].id != current && user == Local(infos[i], conversations)
      {
        if i :| 0 <= i < |infos| && infos[i].id != current && user == Local(infos[i], conversations) {
          assert i < |before| ==> infos[i] == before[i];
        }
        if user in fewer {
          var k :| 0 <= k < |before| && before[k].id != current && user == Local(before[k], conversations);
          assert infos[k] == before[k];
        }
      }
    }
  }

  // What the local list says of a user.
  predicate Describes(user: User, info: UserInfo, conversations: set<nat>) {
    && user.id == info.id && user.name == info.name
    && (user.conversationExists <==> info.id in conversations) && (user.online <==> info.connected != 0)
  }

  // The local list holds exactly the others, and keeps their order.
  lemma LocalsAreTheOthers(infos: seq<UserInfo>, current: nat, conversations: set<nat>)
    requires Ascending(InfoIds(infos))
    ensures var users := Locals(infos, current, conversations);
      && Ascending(UserIds(users))
      && forall user :: user in users <==>
           exists i :: 0 <= i < |infos| && infos[i].id != current && Describes(user, infos[i], conversations)
  {
    LocalsAreLocal(infos, current, conversations);
    var users := Locals(infos, current, conversations);
    forall user
      ensures user in users <==>
        exists i :: 0 <= i < |infos| && infos[i].id != current && Describes(user, infos[i], conversations)
    {
      assert forall i :: 0 <= i < |infos| ==> (Describes(user, infos[i], conversations) <==> user == Local(infos[i], conversations));
      hide Describes, Local, Locals;
    }
  }

  // -------- Looking a user up --------

  // The first entry with this id.
  function Lookup(users: seq<User>, id: nat): Option<User> {
    if users == [] then None else if users[0].id == id then Some(users[0]) else Lookup(users[1..], id)
  }

  lemma {:induction false} LookupFinds(users: seq<User>, id: nat)
    ensures match Lookup(users, id)
      case Some(user) => user in users && user.id == id
      case None => forall user :: user in users ==> user.id != id
  {
    if users != [] {
      LookupFinds(users[1..], id);
    }
  }

  lemma UniqueIds(users: seq<User>, a: User, b: User)
    requires Ascending(UserIds(users)) && a in users && b in users && a.id == b.id
    ensures a == b
  {
    var i :| 0 <= i < |users| && users[i] == a;
    var j :| 0 <= j < |users| && users[j] == b;
    assert UserIds(users)[i] == UserIds(users)[j];
  }

  lemma SameInfo(infos: seq<UserInfo>, i: nat, k: nat)
    requires Ascending(InfoIds(infos)) && k < |infos|
    ensures i < |infos| && infos[i].id == infos[k].id ==> i == k
  {
    if i < |infos| && infos[i].id == infos[k].id {
      assert InfoIds(infos)[i] == InfoIds(infos)[k];
    }
  }

  // From the server's list to a lookup: exactly the entries of the others are found.
  lemma LookupIsExact(
    parts: seq<seq<UserInfo>>, leftovers: seq<UserInfo>, current: nat, conversations: set<nat>, id: nat, i: nat)
    requires parts != [] && forall k :: 0 <= k < |parts| ==> forall info :: info in parts[k] ==> ValidInfo(info)
    requires Ascending(InfoIds(Concat(parts)))
    ensures var fetched := FetchedAll(leftovers, Bundles(parts, 0)).finished;
      && fetched == Some(Concat(parts))
      && var found := Lookup(Locals(fetched.value, current, conversations), id);
         && (i < |Concat(parts)| && Concat(parts)[i].id == id != current ==>
               found.Some? && Describes(found.value, Concat(parts)[i], conversations))
         && (found.Some? ==> id != current && found.value.id == id && id in InfoIds(Concat(parts)))
  {
    var infos := Concat(parts);
    var users := Locals(infos, current, conversations);
    BundlesJoin(parts, leftovers);
    LocalsAreTheOthers(infos, current, conversations);
    LookupFinds(users, id);
    var found := Lookup(users, id);
    if i < |infos| && infos[i].id == id != current {
      var user := User(id, infos[i].name, id in conversations, infos[i].connected != 0);
      assert Describes(user, infos[i], conversations);
      assert user in users;
      assert InfoIds(infos)[i] == id;
    }
    if found.Some? {
      var k :| 0 <= k < |infos| && infos[k].id != current && Describes(found.value, infos[k], conversations);
      assert InfoIds(infos)[k] == id;
      SameInfo(infos, i, k);
    }
  }

  // The records up to index i have been added to a list.
  predicate Adding(contents: seq<UserInfo>, before: seq<UserInfo>, body: seq<byte>, i: nat) {
    i <= |body| && contents + Records(body[i..]) == before + Records(body)
  }

  lemma AddingBegins(before: seq<UserInfo>, body: seq<byte>)
    ensures Adding(before, before, body, 0)
  {
    assert body[0..] == body;
    hide Records;
  }

  lemma AddingOn(contents: seq<UserInfo>, before: seq<UserInfo>, body: seq<byte>, i: nat)
    requires Adding(contents, before, body, i) && |body| - i >= USER_INFO_SIZE
    ensures Adding(contents + [UnpackInfo(body[i..])], before, body, i + USER_INFO_SIZE)
  {
    var info, rest := UnpackInfo(body[i..]), Records(body[i + USER_INFO_SIZE..]);
    assert body[i..][USER_INFO_SIZE..] == body[i + USER_INFO_SIZE..];
    assert Records(body[i..]) == [info] + rest;
    hide Records, UnpackInfo;
    assert contents + ([info] + rest) == contents + [info] + rest;
  }

  lemma AddingEnds(contents: seq<UserInfo>, before: seq<UserInfo>, body: seq<byte>)
    requires Adding(contents, before, body, |body|)
    ensures contents == before + Records(body)
  {
    assert Records(body[|body|..]) == [];
    hide Records;
  }

  // -------- The client's lists --------

  class Directory {
    const currentUserId: nat
    var fetchingUsers: bool
    var currentUserName: seq<byte>
    const userInfosList: List<UserInfo>
    const usersList: List<User>
    const userIdsToFetchMessagesFrom: Queue<nat>

    ghost predicate Valid()
      reads this, userInfosList, usersList, userIdsToFetchMessagesFrom
    {
      userInfosList.Valid() && usersList.Valid() && userIdsToFetchMessagesFrom.Valid()
    }

    constructor (currentUserId: nat)
      ensures Valid() && this.currentUserId == currentUserId && !fetchingUsers
      ensures fresh(userInfosList) && fresh(usersList) && fresh(userIdsToFetchMessagesFrom)
      ensures userInfosList.Contents() == [] && usersList.Contents() == []
    {
      this.currentUserId := currentUserId;
      fetchingUsers, currentUserName := false, seq(USERNAME_SIZE, _ => 0);
      userInfosList := new List();
      usersList := new List();
      userIdsToFetchMessagesFrom := new Queue();
    }

    // the loop of onNextUsersBundleFetched
    static method AddRecords(list: List<UserInfo>, body: seq<byte>)
      requires list.Valid() && |body| % USER_INFO_SIZE == 0
      modifies list
      ensures list.Valid() && list.Contents() == old(list.Contents()) + Records(body)
    {
      hide UnpackInfo, Adding;
      ghost var before := list.Contents();
      AddingBegins(before, body);
      var i := 0;
      while i < |body|
        invariant i <= |body| && (|body| - i) % USER_INFO_SIZE == 0
        invariant list.Valid() && Adding(list.Contents(), before, body, i)
      {
        AddingOn(list.Contents(), before, body, i);
        var info := UnpackInfo(body[i..]);
        list.AddBack(info);
        i := i + USER_INFO_SIZE;
      }
      AddingEnds(list.Contents(), before, body);
    }

    // onNextUsersBundleFetched, and the copy that onUsersFetched takes of a finished list
    method OnNextUsersBundleFetched(bundle: Bundle) returns (finished: Option<List<UserInfo>>)
      requires Valid() && fetchingUsers
      requires 0 < |bundle.body| <= MAX_MESSAGE_BODY_SIZE && |bundle.body| % USER_INFO_SIZE == 0
      modifies this`fetchingUsers, userInfosList
      ensures Valid() && fetchingUsers == finished.None?
      ensures finished.Some? ==> fresh(finished.value) && finished.value.Valid()
      // a count of 0 makes the index of the last bundle the largest there is
      ensures bundle.count > 0 ==> (finished.Some? <==> bundle.index + 1 >= bundle.count)
      ensures bundle.count == 0 ==> (finished.Some? <==> bundle.index + 1 >= UINT_LIMIT)
      ensures Fetching(userInfosList.Contents(), if finished.Some? then Some(finished.value.Contents()) else None)
           == Fetched(old(userInfosList.Contents()), bundle)
    {
      if bundle.index == 0 {
        userInfosList.Clear();
      }
      AddRecords(userInfosList, bundle.body);
      hide Records;
      finished := None;
      if bundle.index >= LastIndex(bundle.count) {
        var copy := userInfosList.Copy(info => info);
        assert copy.Contents() == userInfosList.Contents();
        finished := Some(copy);
        userInfosList.Clear();
        fetchingUsers := false;
      }
    }

    // one entry of the loop of processFetchedUsers
    method TakeInfo(info: UserInfo, conversations: set<nat>)
      requires Valid()
      modifies this`currentUserName, usersList, userIdsToFetchMessagesFrom
      ensures Valid()
      ensures currentUserName == if info.id == currentUserId then info.name else old(currentUserName)
      ensures var users := old(usersList.Contents());
        usersList.Contents() == if info.id == currentUserId then users else users + [Local(info, conversations)]
      ensures var ids := old(userIdsToFetchMessagesFrom.Contents());
        userIdsToFetchMessagesFrom.Contents() ==
          if info.id != currentUserId && info.id in conversations then ids + [info.id] else ids
    {
      if info.id != currentUserId {
        var user := Local(info, conversations);
        usersList.AddBack(user);
        if user.conversationExists {
          userIdsToFetchMessagesFrom.Push(info.id);
        }
      } else {
        currentUserName := info.name;
      }
    }

    // processFetchedUsers, up to the first fetch of missing messages
    method ProcessFetchedUsers(infos: List<UserInfo>, conversations: set<nat>)
      requires Valid() && infos.Valid() && infos != userInfosList
      modifies this`currentUserName, usersList, userIdsToFetchMessagesFrom
      ensures Valid()
      ensures usersList.Contents() == Locals(infos.Contents(), currentUserId, conversations)
      ensures userIdsToFetchMessagesFrom.Contents() == WithConversation(usersList.Contents())
      ensures currentUserName == OwnName(infos.Contents(), currentUserId, old(currentUserName))
    {
      ghost var all := infos.Contents();
      assert Locals(all[..0], currentUserId, conversations) == [] && WithConversation([]) == [];
      assert OwnName(all[..0], currentUserId, currentUserName) == currentUserName;
      hide Locals, OwnName, WithConversation;
      usersList.Clear();
      userIdsToFetchMessagesFrom.Clear();
      for i := 0 to infos.size
        invariant Valid() && infos.Valid() && infos.Contents() == all
        invariant usersList.Contents() == Locals(all[..i], currentUserId, conversations)
        invariant userIdsToFetchMessagesFrom.Contents() == WithConversation(usersList.Contents())
        invariant currentUserName == OwnName(all[..i], currentUserId, old(currentUserName))
      {
        var info := infos.Get(i);
        OneMore(all, i, currentUserId, conversations, old(currentUserName));
        ghost var users := usersList.Contents();
        OneMoreConversation(users, Local(info, conversations));
        TakeInfo(info, conversations);
        assert infos.Contents() == all;
        assert usersList.Contents() == Locals(all[..i + 1], currentUserId, conversations);
      }
      assert all[..infos.size] == all;
    }

    method FindUser(id: nat) returns (user: Option<User>)
      requires Valid() && usersList.size > 0 && Ascending(UserIds(usersList.Contents()))
      ensures user == Lookup(usersList.Contents(), id)
    {
      user := FindIn(usersList, id);
    }
  }

  // findUser; the source asserts that the list is not empty.
  method FindIn(usersList: List<User>, id: nat) returns (user: Option<User>)
    requires usersList.Valid() && usersList.size > 0 && Ascending(UserIds(usersList.Contents()))
    ensures user == Lookup(usersList.Contents(), id)
  {
    ghost var users := usersList.Contents();
    assert forall i :: 0 <= i < |users| ==> UserIds(users)[i] == users[i].id;
    user := usersList.BinarySearch((user: User) => if id < user.id then -1 else if id > user.id then 1 else 0);
    LookupFinds(users, id);
    if user.Some? && Lookup(users, id).Some? {
      UniqueIds(users, user.value, Lookup(users, id).value);
    }
  }
}
