/** Any number of clients around a server that forwards messages, and every run they can make. */
module World {
  import opened Prelude
  import opened Crypto
  import opened Protocol

  // inFlight holds what the server has not handed on yet. The rest is history that no
  // client reads: everything ever sent, who drew which secret, what handshakes returned.
  datatype World = World(
    peers: seq<Peer>,
    inFlight: multiset<Message>,
    sent: set<Message>,
    origins: seq<Origin>,
    built: set<Session>)

  datatype Request =
    | StartWith(id: Id)
    | ContinueWith(id: Id)
    | DeleteWith(id: Id)
    | Write(text: seq<byte>)
    | ChooseFile(fileSize: nat)

  // Messages are delivered in any order or lost; a client acts, hears its user or has
  // its user list replaced at any time.
  datatype Step =
    | Deliver(m: Message)
    | Lose(m: Message)
    | Act(id: Id, e: Event)
    | Ask(id: Id, request: Request)
    | UsersChanged(id: Id, users: set<Id>)

  // The user interface's side of src/logic.c.
  function Requested(p: Peer, request: Request): Peer {
    if p.phase.Aborted? then p
    else match request
      case StartWith(id) =>
        if id in p.users then p.(toUserId := id, actions := p.actions + [StartConversation(id)])
        else p.(phase := Aborted)
      case ContinueWith(id) =>
        if id in p.users then p.(toUserId := id) else p.(phase := Aborted)
      case DeleteWith(id) => p.(toUserId := id, actions := p.actions + [DeleteConversation(id)])
      case Write(text) => if text == [] then p else p.(actions := p.actions + [SendText(text)])
      case ChooseFile(size) =>
        if p.toUserId !in p.users then p.(phase := Aborted)
        else if size == 0 || size > MAX_FILE_SIZE then p
        else p.(actions := p.actions + [BeginFileExchange(size)])
  }

  // Whom a request is about, if it names somebody.
  predicate IsAbout(request: Request, id: Id) {
    request == StartWith(id) || request == ContinueWith(id) || request == DeleteWith(id)
  }

  function AskedFor(p: Peer, request: Request): seq<Action> {
    match request
    case StartWith(id) => if id in p.users then [StartConversation(id)] else []
    case ContinueWith(_) => []
    case DeleteWith(id) => [DeleteConversation(id)]
    case Write(text) => if text != [] then [SendText(text)] else []
    case ChooseFile(size) => if p.toUserId in p.users && 0 < size <= MAX_FILE_SIZE then [BeginFileExchange(size)] else []
  }

  // What a request comes to: whom it names becomes the partner, and at most one action joins the
  // lifecycle queue. Naming an unlisted user fails an assertion unless it is to delete, and so does choosing
  // a file while the partner is not listed. Empty texts and unfit files are ignored.
  lemma RequestMeans(p: Peer, request: Request)
    requires !p.phase.Aborted?
    ensures var q := Requested(p, request);
      && q == p.(toUserId := q.toUserId, actions := q.actions, phase := q.phase)
      && (forall id: Id :: IsAbout(request, id) && !q.phase.Aborted? ==> q.toUserId == id)
      && (request.Write? || request.ChooseFile? ==> q.toUserId == p.toUserId)
      && (q.phase.Aborted? <==>
            || ((request.StartWith? || request.ContinueWith?) && request.id !in p.users)
            || (request.ChooseFile? && p.toUserId !in p.users))
      && (!q.phase.Aborted? ==> q.phase == p.phase)
      && q.actions == p.actions + AskedFor(p, request)
  {
  }

  // The clients among these ids, other than this one.
  function Others(users: set<Id>, count: nat, self: Id): set<Id> {
    set u | u in users && u < count && u != self
  }

  function Updated(w: World, id: Id, p: Peer): World
    requires id < |w.peers|
  {
    w.(peers := w.peers[id := p])
  }

  function Applied(w: World, id: Id, effect: Effect): World
    requires id < |w.peers|
  {
    w.(peers := w.peers[id := effect.peer],
       inFlight := w.inFlight + (if effect.sent.Some? then multiset{effect.sent.value} else multiset{}),
       sent := w.sent + (if effect.sent.Some? then {effect.sent.value} else {}),
       origins := w.origins + (if effect.drawn.Some? then [effect.drawn.value] else []),
       built := w.built + (if effect.built.Some? then {effect.built.value} else {}))
  }

  // A step that cannot be taken changes nothing, so every list of steps is a run.
  ghost function Do(w: World, step: Step): World {
    match step
    case Deliver(m) =>
      if m in w.inFlight && m.to < |w.peers| then
        Updated(w.(inFlight := w.inFlight - multiset{m}), m.to, Listened(w.peers[m.to], m))
      else w
    case Lose(m) => w.(inFlight := w.inFlight - multiset{m})
    case Act(id, e) =>
      if id < |w.peers| then Applied(w, id, Acted(w.peers[id], id, |w.origins|, e)) else w
    case Ask(id, request) =>
      if id < |w.peers| then Updated(w, id, Requested(w.peers[id], request)) else w
    case UsersChanged(id, users) =>
      if id < |w.peers| then
        Updated(w, id, w.peers[id].(users := Others(users, |w.peers|, id)))
      else w
  }

  ghost function Run(w: World, steps: seq<Step>): World {
    if steps == [] then w else Do(Run(w, steps[..|steps| - 1]), steps[|steps| - 1])
  }

  lemma RunOn(w: World, steps: seq<Step>, step: Step)
    ensures Run(w, steps + [step]) == Do(Run(w, steps), step)
  {
    assert (steps + [step])[..|steps|] == steps;
  }

  lemma {:induction false} RunThrough(w: World, steps: seq<Step>, more: seq<Step>)
    ensures Run(w, steps + more) == Run(Run(w, steps), more)
  {
    hide Do;
    if more == [] {
      assert steps + more == steps;
    } else {
      var before := more[..|more| - 1];
      RunThrough(w, steps, before);
      assert (steps + more)[..|steps + more| - 1] == steps + before;
    }
  }

  lemma AtOnce(w: World)
    ensures Run(w, []) == w
  {
  }

  lemma RunFirst(w: World, step: Step, rest: seq<Step>)
    ensures Run(w, [step] + rest) == Run(Do(w, step), rest)
  {
    RunThrough(w, [step], rest);
    RunOn(w, [], step);
    assert [] + [step] == [step];
    AtOnce(w);
    hide Run, Do;
  }

  // What logicInit and netInit leave, for any number of clients.
  ghost predicate Fresh(p: Peer) {
    && !p.settingUpConversation && !p.exchangingFile
    && p.setupMessages == [] && p.fileMessages == [] && p.actions == [] && p.phase == Free
    && p.users == {} && p.conversations == map[] && p.rows == map[]
  }

  ghost predicate Initial(w: World) {
    && (forall i :: 0 <= i < |w.peers| ==> Fresh(w.peers[i]))
    && w.inFlight == multiset{} && w.sent == {} && w.origins == [] && w.built == {}
  }
}
