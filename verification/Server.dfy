/**
 The signaling server's state and its handlers, cut at every `await`: a `Task`
 is a handler suspended between two awaits, `Start` and `Resume` run one
 segment. An uninterrupted handler (`Handle`) is a task run to its end.
 */
module Server {
  import opened Wrappers
  import opened Allocator

  datatype MAlias = MAlias(id: string, accepting: bool)

  /** A registration id together with the connection it was given to. */
  datatype Peer = Peer(id: string, conn: nat)

  datatype Message =
    | Acknowledgement(id: string, rejected: bool)
    | Greeting(offererId: string, answererId: string)
    | Alias(id: string, alias: string, isSet: bool, clientConnectionId: Option<string>, isConnectionAlias: bool)
    | Accept(boundAlias: string, clientAlias: string)
    | Goodbye(id: string)

  datatype Request =
    | Knock(subnet: string)
    | Bind(id: string, alias: string)
    | Accepting(id: string, alias: string)
    | Shutdown(id: string, alias: string)
    | Connect(id: string, remoteAlias: string, clientConnectionId: string)

  /** What was sent so far, peer by peer and in order. */
  type Mail = map<Peer, seq<Message>>

  datatype State = State(
    clients: map<string, nat>,
    aliases: map<string, MAlias>,
    subnets: Subnets,
    mail: Mail)

  const INITIAL := State(map[], map[], map[], map[])

  // --------------------------------------------------------------- mail

  function Box(mail: Mail, p: Peer): seq<Message> { if p in mail then mail[p] else [] }

  function Deliver(mail: Mail, out: Mail): (after: Mail)
    ensures forall p: Peer :: Box(after, p) == Box(mail, p) + Box(out, p)
  {
    map p | p in mail.Keys + out.Keys :: Box(mail, p) + Box(out, p)
  }

  /** How often a message was sent to a peer. */
  function Count(mail: Mail, p: Peer, m: Message): nat { multiset(Box(mail, p))[m] }

  function Peers(clients: map<string, nat>): set<Peer> { set id | id in clients :: Peer(id, clients[id]) }

  function ToAll(clients: map<string, nat>, msgs: seq<Message>): Mail {
    map p | p in Peers(clients) :: msgs
  }

  function Introductions(clients: map<string, nat>, id: string): Mail {
    map p | p in Peers(clients) && p.id != id :: [Greeting(p.id, id)]
  }

  function Lookup(clients: map<string, nat>, id: string): Option<Peer> {
    if id in clients then Some(Peer(id, clients[id])) else None
  }

  // ----------------------------------------------------------- segments

  /** A handler suspended at an `await`; each constructor names what has been done so far. */
  datatype Task =
    | KnockReceived(conn: nat, subnet: string)
    | KnockCreated(conn: nat, id: string)
    | KnockAcknowledged(conn: nat, id: string)
    | BindChecked(id: string, alias: string)
    | BindClaimed(id: string, alias: string)
    | ShutdownDeleted(id: string, alias: string)
    | ShutdownReleased(id: string, alias: string)
    | ShutdownFreed(id: string, alias: string)
    | ConnectReceived(call: Call)
    | ConnectCreated(call: Call, clientAlias: string)
    | ConnectRefused(call: Call, clientAlias: string, found: Option<Peer>)
    | ConnectReleased(call: Call, clientAlias: string, found: Option<Peer>)
    | ConnectPublished(call: Call, clientAlias: string, client: Peer)
    | ConnectAnnounced(call: Call, clientAlias: string, client: Peer, server: Peer)
    | ConnectAccepted(call: Call, clientAlias: string, client: Peer, server: Peer)

  /** The data of a connect request. */
  datatype Call = Call(id: string, remoteAlias: string, clientConnectionId: string)

  /** The remote alias of a call is registered and its owner is accepting. */
  predicate Accepts(st: State, call: Call) {
    call.remoteAlias in st.aliases && st.aliases[call.remoteAlias].accepting
  }

  datatype Step = Step(st: State, next: Option<Task>, error: Option<Error>)

  function Done(st: State): Step { Step(st, None, None) }

  function Suspend(st: State, task: Task): Step { Step(st, Some(task), None) }

  function Throw(st: State, e: Error): Step { Step(st, None, Some(e)) }

  function Post(st: State, to: Peer, msg: Message): State {
    st.(mail := Deliver(st.mail, map[to := [msg]]))
  }

  /** `send(this.clients.get(id), msg)` as the last act of a handler. */
  function SendLast(st: State, to: Option<Peer>, msg: Message): Step {
    match to
    case Some(p) => Done(Post(st, p, msg))
    case None => Throw(st, ClientClosed)
  }

  function Broadcast(st: State, msg: Message): State {
    st.(mail := Deliver(st.mail, ToAll(st.clients, [msg])))
  }

  /** What a handler does before its first `await`. */
  function Start(st: State, conn: nat, request: Request): Step {
    match request
    case Knock(subnet) => Suspend(st, KnockReceived(conn, subnet))
    case Bind(id, alias) =>
      if alias in st.aliases then SendLast(st, Lookup(st.clients, id), Alias(id, alias, false, None, false))
      else Suspend(st, BindChecked(id, alias))
    case Accepting(id, alias) =>
      if alias in st.aliases && st.aliases[alias].id == id then
        Done(st.(aliases := st.aliases[alias := MAlias(id, true)]))
      else Done(st)
    case Shutdown(id, alias) =>
      if alias in st.aliases && st.aliases[alias].id == id then
        Suspend(st.(aliases := st.aliases - {alias}), ShutdownDeleted(id, alias))
      else SendLast(st, Lookup(st.clients, id), Alias(id, alias, true, None, false))
    case Connect(id, remoteAlias, cid) => Suspend(st, ConnectReceived(Call(id, remoteAlias, cid)))
  }

  /** The alias text of a bind must parse when its subnet is known; other segments ask nothing. */
  predicate Runnable(st: State, task: Task) {
    task.BindChecked? ==> Claimable(st.subnets, task.alias)
  }

  function Rank(task: Task): nat {
    match task
    case KnockReceived(_, _) | ConnectReceived(_) => 6
    case ConnectCreated(_, _) => 5
    case ConnectPublished(_, _, _) => 4
    case KnockCreated(_, _) | ShutdownDeleted(_, _) | ConnectAnnounced(_, _, _, _) => 3
    case ConnectRefused(_, _, _) | ShutdownReleased(_, _) | BindChecked(_, _) => 2
    case _ => 1
  }

  /** What a suspended handler does up to its next `await`. */
  function Resume(st: State, task: Task): Step
    requires Runnable(st, task)
  {
    match task
    case KnockReceived(conn, subnet) =>
      var (subnets, id) := CreateIP(st.subnets, subnet);
      Suspend(st.(subnets := subnets), KnockCreated(conn, id))
    case KnockCreated(conn, id) =>
      var sent := Post(st, Peer(id, conn), Acknowledgement(id, id == REJECTED));
      if id == REJECTED then Done(sent) else Suspend(sent, KnockAcknowledged(conn, id))
    case KnockAcknowledged(conn, id) =>
      Done(st.(mail := Deliver(st.mail, Introductions(st.clients, id)), clients := st.clients[id := conn]))
    case BindChecked(id, alias) =>
      (match ClaimTCP(st.subnets, alias)
       case Err(e) => Throw(st, e)
       case Ok(subnets) => Suspend(st.(subnets := subnets), BindClaimed(id, alias)))
    case BindClaimed(id, alias) =>
      Done(Broadcast(st.(aliases := st.aliases[alias := MAlias(id, false)]), Alias(id, alias, true, None, false)))
    case ShutdownDeleted(id, alias) =>
      Suspend(st.(subnets := RemoveTCP(st.subnets, alias)), ShutdownReleased(id, alias))
    case ShutdownReleased(id, alias) =>
      Suspend(st.(subnets := RemoveIP(st.subnets, alias)), ShutdownFreed(id, alias))
    case ShutdownFreed(id, alias) => Done(Broadcast(st, Alias(id, alias, false, None, false)))
    case ConnectReceived(call) =>
      (match CreateTCP(st.subnets, call.id)
       case Err(e) => Throw(st, e)
       case Ok((subnets, clientAlias)) => Suspend(st.(subnets := subnets), ConnectCreated(call, clientAlias)))
    case ConnectCreated(call, clientAlias) =>
      var found := Lookup(st.clients, call.id);
      if !Accepts(st, call) then
        Suspend(st, ConnectRefused(call, clientAlias, found))
      else
        var published := st.(aliases := st.aliases[clientAlias := MAlias(call.id, false)]);
        (match found
         case None => Throw(published, ClientClosed)
         case Some(p) =>
           Suspend(Post(published, p, Alias(call.id, clientAlias, true, Some(call.clientConnectionId), true)),
                   ConnectPublished(call, clientAlias, p)))
    case ConnectRefused(call, clientAlias, found) =>
      Suspend(st.(subnets := RemoveTCP(st.subnets, clientAlias)), ConnectReleased(call, clientAlias, found))
    case ConnectReleased(call, clientAlias, found) =>
      SendLast(st, found, Alias(call.id, clientAlias, false, Some(call.clientConnectionId), false))
    case ConnectPublished(call, clientAlias, client) =>
      if call.remoteAlias !in st.aliases then Throw(st, UndefinedAlias)
      else
        (match Lookup(st.clients, st.aliases[call.remoteAlias].id)
         case None => Throw(st, ClientClosed)
         case Some(server) =>
           Suspend(Post(st, server, Alias(call.id, clientAlias, true, None, false)),
                   ConnectAnnounced(call, clientAlias, client, server)))
    case ConnectAnnounced(call, clientAlias, client, server) =>
      Suspend(Post(st, server, Accept(call.remoteAlias, clientAlias)),
              ConnectAccepted(call, clientAlias, client, server))
    case ConnectAccepted(call, _, client, server) =>
      Done(Post(st, client, Alias(server.id, call.remoteAlias, true, Some(call.clientConnectionId), false)))
  }

  /** Every segment brings its handler closer to the end, and the next one can always run. */
  lemma ResumeDescends(st: State, task: Task)
    requires Runnable(st, task)
    ensures var step := Resume(st, task);
      step.next.Some? ==> !step.next.value.BindChecked? && Rank(step.next.value) < Rank(task)
  {
    hide CreateIP, CreateTCP, ClaimTCP, RemoveTCP, RemoveIP, Deliver;
  }

  // ---------------------------------------------- uninterrupted handlers

  function RunToEnd(st: State, task: Task): (State, Option<Error>)
    requires Runnable(st, task)
    decreases Rank(task)
  {
    ResumeDescends(st, task);
    var step := Resume(st, task);
    if step.next.None? then (step.st, step.error) else RunToEnd(step.st, step.next.value)
  }

  lemma OneSegment(st: State, task: Task)
    requires Runnable(st, task)
    ensures var step := Resume(st, task);
      RunToEnd(st, task) == if step.next.None? then (step.st, step.error) else RunToEnd(step.st, step.next.value)
  {}

  predicate Handleable(st: State, request: Request) {
    request.Bind? ==> Claimable(st.subnets, request.alias)
  }

  /** A whole handler with nothing in between. */
  function Handle(st: State, conn: nat, request: Request): (State, Option<Error>)
    requires Handleable(st, request)
  {
    var step := Start(st, conn, request);
    if step.next.None? then (step.st, step.error) else RunToEnd(step.st, step.next.value)
  }

  function Owned(aliases: map<string, MAlias>, id: string): set<string> {
    set a | a in aliases && aliases[a].id == id
  }

  /** `order` lists a set without repetition: the insertion order of a JavaScript map. */
  ghost predicate Enumerates<T(!new)>(order: seq<T>, s: set<T>) {
    && (forall i, j | 0 <= i < j < |order| :: order[i] != order[j])
    && (forall x :: x in order <==> x in s)
  }

  function ReleaseAll(subnets: Subnets, order: seq<string>): Subnets {
    if order == [] then subnets
    else ReleaseAll(RemoveTCP(RemoveIP(subnets, order[0]), order[0]), order[1..])
  }

  function Removals(id: string, order: seq<string>): seq<Message> {
    seq(|order|, i requires 0 <= i < |order| => Alias(id, order[i], false, None, false))
  }

  /** A closed connection, treated as one step; `order` lists the aliases its id owns. */
  function Disconnect(st: State, id: string, order: seq<string>): State {
    var clients := st.clients - {id};
    State(
      clients,
      st.aliases - (set a | a in order),
      ReleaseAll(RemoveIP(st.subnets, id), order),
      Deliver(st.mail, ToAll(clients, [Goodbye(id)] + Removals(id, order))))
  }
}
