/**
 The whole system: any number of clients, each on a connection that carries requests
 to the server and messages back in order, and the await-level server between them.
 Clients bind what they like, shut aliases down, and leave.
 */
module Network {
  import opened Wrappers
  import opened Address
  import opened Allocator
  import opened Server
  import opened Interleaving
  import opened Sending
  import opened Client
  import Ids = Greetings

  /** What the server decided about a connect request. */
  datatype Verdict = Granted(alias: string) | Declined

  datatype Asked = Asked(conn: nat, call: Call)

  /**
   `cursors` counts the messages a client has processed, `closed` holds the connections
   that are gone. The last five fields are history: the id issued to a connection, the
   connect calls by connection id and the server's verdicts on them, who was ever
   registered for an alias, and which messages in the mail refuse a shutdown.
   */
  datatype Net = Net(
    world: World,
    users: map<nat, User>,
    inbox: map<nat, seq<Request>>,
    cursors: map<Peer, nat>,
    closed: set<nat>,
    ids: map<nat, string>,
    calls: map<string, Asked>,
    verdicts: map<string, Verdict>,
    ever: set<(string, string)>,
    refusals: set<(Peer, nat)>)

  datatype NetEvent =
    | Open(conn: nat, subnet: string)
    | CallBind(conn: nat, call: nat, alias: string)
    | CallShutdown(conn: nat, call: nat, alias: string)
    | CallAccept(conn: nat, call: nat, alias: string)
    | CallConnect(conn: nat, cid: string, remoteAlias: string)
    | Serve(conn: nat, tid: nat)
    | Work(tid: nat)
    | Read(p: Peer)
    | Hangup(id: string, order: seq<string>)

  const BEGIN := Net(START, map[], map[], map[], {}, map[], map[], map[], {}, {})

  function Inbox(n: Net, conn: nat): seq<Request> { if conn in n.inbox then n.inbox[conn] else [] }

  function ReadCount(n: Net, p: Peer): nat { if p in n.cursors then n.cursors[p] else 0 }

  function Mailbox(n: Net, p: Peer): seq<Message> { Box(n.world.st.mail, p) }

  predicate IsCall(e: NetEvent) { e.CallBind? || e.CallShutdown? || e.CallAccept? || e.CallConnect? }

  /** Clients call once they are acknowledged, with a fresh connection id for every connect. */
  predicate CanCall(n: Net, e: NetEvent)
    requires IsCall(e)
  {
    && e.conn in n.users && n.users[e.conn].isConnected && e.conn !in n.closed
    && match e
       case CallBind(_, call, _) => call !in n.users[e.conn].binds
       case CallShutdown(_, call, _) => call !in n.users[e.conn].shutdowns
       case CallAccept(_, call, _) => call !in n.users[e.conn].accepts
       case CallConnect(_, cid, _) => cid !in n.calls && cid != ""
  }

  ghost predicate CanHappen(n: Net, e: NetEvent) {
    match e
    case Open(conn, subnet) => conn !in n.users && WellFormedSubnet(subnet)
    case Serve(conn, tid) =>
      conn !in n.closed && Inbox(n, conn) != [] && Enabled(n.world, Receive(tid, conn, Inbox(n, conn)[0]))
    case Work(tid) => Enabled(n.world, Proceed(tid))
    case Read(p) => p.conn in n.users && p.conn !in n.closed && ReadCount(n, p) < |Mailbox(n, p)|
    case Hangup(id, order) => Enabled(n.world, Close(id, order))
    case _ => CanCall(n, e)
  }

  /** The server's step of an event. */
  function ServerEvent(n: Net, e: NetEvent): Event
    requires e.Serve? ==> Inbox(n, e.conn) != []
    requires e.Serve? || e.Work? || e.Hangup?
  {
    if e.Serve? then Receive(e.tid, e.conn, Inbox(n, e.conn)[0])
    else if e.Hangup? then Close(e.id, e.order)
    else Proceed(e.tid)
  }

  function Pairs(aliases: map<string, MAlias>): set<(string, string)> { set a | a in aliases :: (a, aliases[a].id) }

  function IssuedBy(n: Net, tid: nat): map<nat, string>
    requires tid in n.world.tasks
  {
    match n.world.tasks[tid]
    case KnockReceived(conn, subnet) => n.ids[conn := CreateIP(n.world.st.subnets, subnet).1]
    case _ => n.ids
  }

  function DecidedBy(n: Net, tid: nat): map<string, Verdict>
    requires tid in n.world.tasks
  {
    match n.world.tasks[tid]
    case ConnectCreated(call, clientAlias) =>
      n.verdicts[call.clientConnectionId := if Accepts(n.world.st, call) then Granted(clientAlias) else Declined]
    case _ => n.verdicts
  }

  /** Where the refusal of a shutdown that is about to be served will be. */
  function RefusalOf(st: State, request: Request): set<(Peer, nat)> {
    match request
    case Shutdown(id, alias) =>
      if (alias in st.aliases && st.aliases[alias].id == id) || id !in st.clients then {}
      else {(Peer(id, st.clients[id]), |Box(st.mail, Peer(id, st.clients[id]))|)}
    case _ => {}
  }

  function RequestOf(u: User, e: NetEvent): Request
    requires IsCall(e)
  {
    match e
    case CallBind(_, _, alias) => Bind(u.id, alias)
    case CallShutdown(_, _, alias) => Shutdown(u.id, alias)
    case CallAccept(_, _, alias) => Accepting(u.id, alias)
    case CallConnect(_, cid, remoteAlias) => Connect(u.id, remoteAlias, cid)
  }

  function Asking(u: User, e: NetEvent): User
    requires IsCall(e)
  {
    match e
    case CallBind(_, call, alias) => AskBind(u, call, alias)
    case CallShutdown(_, call, alias) => AskShutdown(u, call, alias)
    case CallAccept(_, call, alias) => AskAccept(u, call, alias)
    case CallConnect(_, cid, _) => AskConnect(u, cid)
  }

  /** A client puts a request on its line. */
  function Calling(n: Net, e: NetEvent): Net
    requires IsCall(e) && CanCall(n, e)
  {
    var u := n.users[e.conn];
    n.(users := n.users[e.conn := Asking(u, e)],
       inbox := n.inbox[e.conn := Inbox(n, e.conn) + [RequestOf(u, e)]],
       calls := if e.CallConnect? then n.calls[e.cid := Asked(e.conn, Call(u.id, e.remoteAlias, e.cid))] else n.calls)
  }

  /** The server takes its step. */
  ghost function Serving(n: Net, e: NetEvent): Net
    requires (e.Serve? || e.Work? || e.Hangup?) && CanHappen(n, e)
  {
    var w := Next(n.world, ServerEvent(n, e));
    var after := n.(world := w, ever := n.ever + Pairs(w.st.aliases));
    if e.Serve? then
      after.(inbox := n.inbox[e.conn := Inbox(n, e.conn)[1..]],
             refusals := n.refusals + RefusalOf(n.world.st, Inbox(n, e.conn)[0]))
    else if e.Hangup? then after.(closed := n.closed + {n.world.st.clients[e.id]})
    else after.(ids := IssuedBy(n, e.tid), verdicts := DecidedBy(n, e.tid))
  }

  function Reading(n: Net, p: Peer): Net
    requires p.conn in n.users && ReadCount(n, p) < |Mailbox(n, p)|
  {
    var r := ReadCount(n, p);
    n.(users := n.users[p.conn := HandleMessage(n.users[p.conn], Mailbox(n, p)[r])], cursors := n.cursors[p := r + 1])
  }

  ghost function Then(n: Net, e: NetEvent): Net
    requires CanHappen(n, e)
  {
    match e
    case Open(conn, subnet) => n.(users := n.users[conn := FRESH], inbox := n.inbox[conn := [Knock(subnet)]])
    case Serve(_, _) => Serving(n, e)
    case Work(_) => Serving(n, e)
    case Hangup(_, _) => Serving(n, e)
    case Read(p) => Reading(n, p)
    case _ => Calling(n, e)
  }

  ghost predicate NetRun(ns: seq<Net>, es: seq<NetEvent>) {
    && |ns| == |es| + 1 && ns[0] == BEGIN
    && forall k | 0 <= k < |es| :: CanHappen(ns[k], es[k]) && ns[k + 1] == Then(ns[k], es[k])
  }

  // ------------------------------------------------------ the invariants

  /** A connection under the id it was issued. */
  predicate Known(n: Net, p: Peer) { p.conn in n.ids && n.ids[p.conn] == p.id }

  predicate Member(n: Net, p: Peer) { Known(n, p) && p.id != REJECTED }

  /** The alias was registered for the id at some time. */
  predicate Had(n: Net, alias: string, id: string) { (alias, id) in n.ever }

  ghost predicate EverHad(n: Net, alias: string) { exists id: string :: Had(n, alias, id) }

  /** This bind call, or shutdown call, is about that alias under that id. */
  predicate CallBy(n: Net, conn: nat, call: nat, id: string, alias: string, shuts: bool) {
    && conn in n.users && call in CallsOf(n.users[conn], shuts)
    && CallsOf(n.users[conn], shuts)[call].id == id && CallsOf(n.users[conn], shuts)[call].alias == alias
  }

  /** Somebody called bind, or shutdown, on the alias under that id. */
  ghost predicate AskedTo(n: Net, id: string, alias: string, shuts: bool) {
    exists conn: nat, call: nat :: CallBy(n, conn, call, id, alias, shuts)
  }

  /** The request of a suspended handler is the recorded connect call. */
  predicate Recorded(n: Net, call: Call) {
    call.clientConnectionId in n.calls && n.calls[call.clientConnectionId].call == call
  }

  /** The peer that made a connect call. */
  function Caller(asked: Asked): Peer { Peer(asked.call.id, asked.conn) }

  predicate Undecided(n: Net, call: Call) { Recorded(n, call) && call.clientConnectionId !in n.verdicts }

  predicate DeclinedTo(n: Net, call: Call, found: Option<Peer>) {
    && Recorded(n, call)
    && call.clientConnectionId in n.verdicts && n.verdicts[call.clientConnectionId] == Declined
    && (found.Some? ==> found.value.id == call.id && Member(n, found.value))
  }

  predicate GrantedTo(n: Net, call: Call, clientAlias: string, client: Peer) {
    && Recorded(n, call)
    && call.clientConnectionId in n.verdicts && n.verdicts[call.clientConnectionId] == Granted(clientAlias)
    && Had(n, clientAlias, call.id)
    && client.id == call.id && Member(n, client)
  }

  predicate TaskFact(n: Net, task: Task) {
    match task
    case KnockReceived(conn, _) => conn in n.users && conn !in n.ids && Inbox(n, conn) == []
    case KnockCreated(conn, id) => Known(n, Peer(id, conn))
    case KnockAcknowledged(conn, id) => Member(n, Peer(id, conn))
    case BindChecked(_, _) => true
    case BindClaimed(_, _) => true
    case ShutdownDeleted(id, alias) => Had(n, alias, id)
    case ShutdownReleased(id, alias) => Had(n, alias, id)
    case ShutdownFreed(id, alias) => Had(n, alias, id)
    case ConnectReceived(call) => Undecided(n, call)
    case ConnectCreated(call, _) => Undecided(n, call)
    case ConnectRefused(call, _, found) => DeclinedTo(n, call, found)
    case ConnectReleased(call, _, found) => DeclinedTo(n, call, found)
    case ConnectPublished(call, clientAlias, client) => GrantedTo(n, call, clientAlias, client)
    case ConnectAnnounced(call, clientAlias, client, server) =>
      GrantedTo(n, call, clientAlias, client) && Member(n, server) && Had(n, call.remoteAlias, server.id)
    case ConnectAccepted(call, clientAlias, client, server) =>
      GrantedTo(n, call, clientAlias, client) && Member(n, server) && Had(n, call.remoteAlias, server.id)
  }

  /** A request on its way carries its sender's issued id. */
  ghost predicate RequestFact(n: Net, conn: nat, request: Request) {
    match request
    case Knock(subnet) => WellFormedSubnet(subnet) && conn !in n.ids && Inbox(n, conn) == [request]
    case Bind(id, _) => Known(n, Peer(id, conn))
    case Accepting(id, _) => Known(n, Peer(id, conn))
    case Shutdown(id, alias) => Known(n, Peer(id, conn)) && AskedTo(n, id, alias, true)
    case Connect(id, remoteAlias, cid) => Undecided(n, Call(id, remoteAlias, cid)) && n.calls[cid].conn == conn
  }

  /** What a message in a peer's mail says was so at some time. */
  ghost predicate MessageFact(n: Net, p: Peer, j: nat, m: Message) {
    && Known(n, p) && (m.Acknowledgement? || p.id != REJECTED)
    && match m
       case Acknowledgement(id, _) => id == p.id
       case Alias(id, alias, isSet, cid, _) =>
         && (isSet ==> Had(n, alias, id) || (p, j) in n.refusals)
         && (!isSet && cid.None? ==> EverHad(n, alias))
         && (cid.Some? ==> cid.value in n.calls)
       case _ => true
  }

  /** A recorded refusal is in the mail, of a shutdown that was asked for. */
  ghost predicate RefusalFact(n: Net, p: Peer, j: nat) {
    && j < |Mailbox(n, p)| && Mailbox(n, p)[j].Alias? && Mailbox(n, p)[j].id == p.id
    && AskedTo(n, p.id, Mailbox(n, p)[j].alias, true)
  }

  ghost predicate MailInv(n: Net) {
    && (forall p: Peer, j: nat | j < |Mailbox(n, p)| :: MessageFact(n, p, j, Mailbox(n, p)[j]))
    && (forall p: Peer, j: nat | (p, j) in n.refusals :: RefusalFact(n, p, j))
    && Pairs(n.world.st.aliases) <= n.ever
  }

  predicate CallFact(n: Net, k: string) {
    && k in n.calls && k != "" && n.calls[k].call.clientConnectionId == k && Known(n, Caller(n.calls[k]))
  }

  /** The server knows clients by the ids they were issued, and clients their own ids. */
  ghost predicate IdsInv(n: Net) {
    && (forall c | c in n.users && n.users[c].isConnected :: Known(n, Peer(n.users[c].id, c)))
    && n.ids.Keys <= n.users.Keys
    && (forall id | id in n.world.st.clients :: Member(n, Peer(id, n.world.st.clients[id])))
    && (forall k | k in n.calls :: CallFact(n, k))
    && n.verdicts.Keys <= n.calls.Keys
  }

  /** The connect call a suspended handler works on. */
  function CidOf(task: Task): Option<string> {
    match task
    case ConnectReceived(call) => Some(call.clientConnectionId)
    case ConnectCreated(call, _) => Some(call.clientConnectionId)
    case ConnectRefused(call, _, _) => Some(call.clientConnectionId)
    case ConnectReleased(call, _, _) => Some(call.clientConnectionId)
    case ConnectPublished(call, _, _) => Some(call.clientConnectionId)
    case ConnectAnnounced(call, _, _, _) => Some(call.clientConnectionId)
    case ConnectAccepted(call, _, _, _) => Some(call.clientConnectionId)
    case _ => None
  }

  function CidAsked(request: Request): Option<string> {
    if request.Connect? then Some(request.clientConnectionId) else None
  }

  /** A connect call is in one place only: on its way, or in one suspended handler. */
  ghost predicate OnePlace(n: Net) {
    && (forall s, t | s in n.world.tasks && t in n.world.tasks && s != t && CidOf(n.world.tasks[s]).Some? ::
          CidOf(n.world.tasks[s]) != CidOf(n.world.tasks[t]))
    && (forall c, j, t | c in n.inbox && 0 <= j < |n.inbox[c]| && t in n.world.tasks && CidAsked(n.inbox[c][j]).Some? ::
          CidAsked(n.inbox[c][j]) != CidOf(n.world.tasks[t]))
    && (forall c, i, j | c in n.inbox && 0 <= i < j < |n.inbox[c]| && CidAsked(n.inbox[c][i]).Some? ::
          CidAsked(n.inbox[c][i]) != CidAsked(n.inbox[c][j]))
  }

  ghost predicate TasksInv(n: Net) {
    && (forall tid | tid in n.world.tasks :: TaskFact(n, n.world.tasks[tid]))
    && n.inbox.Keys <= n.users.Keys
    && (forall c, j | c in n.inbox && 0 <= j < |n.inbox[c]| :: RequestFact(n, c, n.inbox[c][j]))
    && (forall s, t | s in n.world.tasks && t in n.world.tasks && s != t &&
                      n.world.tasks[s].KnockReceived? && n.world.tasks[t].KnockReceived? ::
          n.world.tasks[s].conn != n.world.tasks[t].conn)
  }

  ghost predicate Inv(n: Net) { IdsInv(n) && TasksInv(n) && OnePlace(n) && MailInv(n) }

  // ------------------------------------------------------------ monotony

  ghost predicate CallsStay(n: Net, n': Net) {
    forall c: nat, k: nat, id: string, alias: string, shuts: bool ::
      CallBy(n, c, k, id, alias, shuts) ==> CallBy(n', c, k, id, alias, shuts)
  }

  /** What only ever grows. */
  ghost predicate Grows(n: Net, n': Net) {
    && (forall c | c in n.ids :: c in n'.ids && n'.ids[c] == n.ids[c])
    && (forall k | k in n.calls :: k in n'.calls && n'.calls[k] == n.calls[k])
    && (forall k | k in n.verdicts :: k in n'.verdicts && n'.verdicts[k] == n.verdicts[k])
    && (forall p: Peer :: Mailbox(n, p) <= Mailbox(n', p))
    && n.users.Keys <= n'.users.Keys
    && n.ever <= n'.ever && n.refusals <= n'.refusals
    && CallsStay(n, n')
  }

  lemma AskedGrows(n: Net, n': Net, id: string, alias: string, shuts: bool)
    requires Grows(n, n') && AskedTo(n, id, alias, shuts)
    ensures AskedTo(n', id, alias, shuts)
  {
    hide Mailbox, CallBy;
    var c: nat, k: nat :| CallBy(n, c, k, id, alias, shuts);
    assert CallBy(n', c, k, id, alias, shuts);
  }

  lemma EverGrows(n: Net, n': Net, alias: string)
    requires n.ever <= n'.ever && EverHad(n, alias)
    ensures EverHad(n', alias)
  {
    var id: string :| Had(n, alias, id);
    assert Had(n', alias, id);
  }

  lemma MessageFactGrows(n: Net, n': Net, p: Peer, j: nat, m: Message)
    requires Grows(n, n') && MessageFact(n, p, j, m)
    ensures MessageFact(n', p, j, m)
  {
    hide Box, EverHad, CallsStay;
    if m.Alias? && !m.isSet && m.clientConnectionId.None? { EverGrows(n, n', m.alias); }
  }

  lemma RefusalFactGrows(n: Net, n': Net, p: Peer, j: nat)
    requires Grows(n, n') && RefusalFact(n, p, j)
    ensures RefusalFact(n', p, j)
  {
    hide Box, CallsStay, AskedTo;
    assert Mailbox(n, p) <= Mailbox(n', p);
    assert Mailbox(n', p)[j] == Mailbox(n, p)[j];
    AskedGrows(n, n', p.id, Mailbox(n, p)[j].alias, true);
  }

  lemma TaskFactGrows(n: Net, n': Net, task: Task)
    requires Grows(n, n') && TaskFact(n, task)
    requires task.KnockReceived? ==> task.conn !in n'.ids && Inbox(n', task.conn) == []
    requires task.ConnectReceived? || task.ConnectCreated? ==> task.call.clientConnectionId !in n'.verdicts
    ensures TaskFact(n', task)
  {
    hide Mailbox, CallsStay;
  }

  lemma RequestFactGrows(n: Net, n': Net, conn: nat, request: Request)
    requires Grows(n, n') && RequestFact(n, conn, request)
    requires request.Knock? ==> conn !in n'.ids && Inbox(n', conn) == [request]
    requires request.Connect? ==> request.clientConnectionId !in n'.verdicts
    ensures RequestFact(n', conn, request)
  {
    hide Mailbox, CallsStay, AskedTo;
    if request.Shutdown? { AskedGrows(n, n', request.id, request.alias, true); }
  }

  /** Mail that was there before: a frame for every step. */
  lemma OldMail(n: Net, n': Net)
    requires MailInv(n) && Grows(n, n')
    ensures forall p: Peer, j: nat | j < |Mailbox(n, p)| :: MessageFact(n', p, j, Mailbox(n', p)[j])
    ensures forall p: Peer, j: nat | (p, j) in n.refusals :: RefusalFact(n', p, j)
  {
    hide MessageFact, RefusalFact, Box, Pairs;
    forall p: Peer, j: nat | j < |Mailbox(n, p)| ensures MessageFact(n', p, j, Mailbox(n', p)[j]) {
      assert Mailbox(n, p) <= Mailbox(n', p) && Mailbox(n', p)[j] == Mailbox(n, p)[j];
      MessageFactGrows(n, n', p, j, Mailbox(n, p)[j]);
    }
    forall p: Peer, j: nat | (p, j) in n.refusals ensures RefusalFact(n', p, j) { RefusalFactGrows(n, n', p, j); }
  }

  // --------------------------------------------------- steps of the server

  lemma ServerMail(n: Net, e: NetEvent, p: Peer)
    requires CanHappen(n, e) && (e.Serve? || e.Work? || e.Hangup?)
    ensures Mailbox(Then(n, e), p) == Mailbox(n, p) + Sent(n.world, ServerEvent(n, e), p)
  {
    hide Next, Sent, Box;
    EventSends(n.world, ServerEvent(n, e), p);
  }

  lemma ServerGrows(n: Net, e: NetEvent)
    requires Inv(n) && CanHappen(n, e) && (e.Serve? || e.Work? || e.Hangup?)
    ensures Grows(n, Then(n, e))
  {
    hide MailInv, OnePlace, IdsInv, RequestFact, Next, CallsStay, Sent, Mailbox, Enabled;
    var n' := Then(n, e);
    forall p: Peer ensures Mailbox(n, p) <= Mailbox(n', p) { ServerMail(n, e, p); }
    if e.Work? {
      assert TaskFact(n, n.world.tasks[e.tid]) by { WorkEnabled(n, e.tid); }
      hide TasksInv;
      HistoryGrows(n, e.tid);
    }
    hide TaskFact, IssuedBy, DecidedBy, Pairs, RefusalOf, Inbox;
    SameShuts(n, n');
  }

  lemma HistoryGrows(n: Net, tid: nat)
    requires tid in n.world.tasks && TaskFact(n, n.world.tasks[tid])
    ensures forall c | c in n.ids :: c in IssuedBy(n, tid) && IssuedBy(n, tid)[c] == n.ids[c]
    ensures forall k | k in n.verdicts :: k in DecidedBy(n, tid) && DecidedBy(n, tid)[k] == n.verdicts[k]
  {
    hide Mailbox, CreateIP;
  }

  lemma WorkEnabled(n: Net, tid: nat)
    requires CanHappen(n, Work(tid))
    ensures tid in n.world.tasks && Runnable(n.world.st, n.world.tasks[tid])
  {}

  lemma SameShuts(n: Net, n': Net)
    requires n'.users == n.users
    ensures CallsStay(n, n')
  {}

  lemma ServerClients(n: Net, e: NetEvent)
    requires Inv(n) && CanHappen(n, e) && (e.Serve? || e.Work? || e.Hangup?)
    ensures forall id | id in Then(n, e).world.st.clients ::
      Member(Then(n, e), Peer(id, Then(n, e).world.st.clients[id]))
  {
    hide MailInv, OnePlace, RequestFact, Next, Grows;
    ServerGrows(n, e);
    Ids.ClientsStep(n.world, ServerEvent(n, e));
    if e.Work? { assert TaskFact(n, n.world.tasks[e.tid]); }
    MembersStay(n, Then(n, e));
  }

  lemma MembersStay(n: Net, n': Net)
    requires Grows(n, n')
    ensures forall p: Peer :: Member(n, p) ==> Member(n', p)
    ensures forall p: Peer :: Known(n, p) ==> Known(n', p)
  {
    hide Mailbox, CallsStay;
  }

  lemma ServerIds(n: Net, e: NetEvent)
    requires Inv(n) && CanHappen(n, e) && (e.Serve? || e.Work? || e.Hangup?)
    ensures IdsInv(Then(n, e))
  {
    hide MailInv, OnePlace, RequestFact, Next, Grows, Member, Known;
    var n' := Then(n, e);
    ServerGrows(n, e);
    ServerClients(n, e);
    MembersStay(n, n');
    if e.Work? { assert TaskFact(n, n.world.tasks[e.tid]); }
    forall k | k in n'.calls ensures CallFact(n', k) { assert CallFact(n, k); }
  }

  // -------------------------------------------------------- the new facts

  /** The step of a suspended handler, spelled out. */
  ghost predicate Worked(n: Net, n': Net, tid: nat) {
    && tid in n.world.tasks && Runnable(n.world.st, n.world.tasks[tid])
    && n'.world.st == Resume(n.world.st, n.world.tasks[tid]).st
    && n'.ids == IssuedBy(n, tid) && n'.verdicts == DecidedBy(n, tid)
    && n'.users == n.users && n'.calls == n.calls && n'.inbox == n.inbox && n'.refusals == n.refusals
    && n'.ever == n.ever + Pairs(n'.world.st.aliases)
    && (forall p: Peer :: Mailbox(n', p) == Mailbox(n, p) + SentByResume(n.world.st, n.world.tasks[tid], p))
  }

  lemma WorkWorks(n: Net, tid: nat)
    requires CanHappen(n, Work(tid))
    ensures Worked(n, Then(n, Work(tid)), tid)
  {
    forall p: Peer
      ensures Mailbox(Then(n, Work(tid)), p) == Mailbox(n, p) + SentByResume(n.world.st, n.world.tasks[tid], p)
    {
      ServerMail(n, Work(tid), p);
    }
    hide Box, SentByResume, Resume;
  }

  lemma HasPair(aliases: map<string, MAlias>, alias: string)
    requires alias in aliases
    ensures (alias, aliases[alias].id) in Pairs(aliases)
  {}

  lemma GrantGrows(n: Net, n': Net, call: Call, clientAlias: string, client: Peer)
    requires Grows(n, n') && GrantedTo(n, call, clientAlias, client)
    ensures GrantedTo(n', call, clientAlias, client)
  {
    hide Mailbox, CallsStay;
  }

  /** Whom a lookup finds is a member. */
  lemma Found(n: Net, n': Net, id: string)
    requires IdsInv(n) && Grows(n, n')
    ensures Lookup(n.world.st.clients, id).Some? ==>
      Lookup(n.world.st.clients, id).value.id == id && Member(n', Lookup(n.world.st.clients, id).value)
  {
    MembersStay(n, n');
    hide Grows, CallFact;
  }

  /** What the resumed handler says next is as its constructor promises. */
  lemma NewTaskFact(n: Net, n': Net, tid: nat)
    requires Worked(n, n', tid) && Grows(n, n') && TaskFact(n, n.world.tasks[tid]) && IdsInv(n)
    requires Pairs(n.world.st.aliases) <= n.ever
    ensures var step := Resume(n.world.st, n.world.tasks[tid]); step.next.Some? ==> TaskFact(n', step.next.value)
  {
    hide IdsInv, Resume, Grows, Pairs, SentByResume, Mailbox, GrantedTo, DeclinedTo, Undecided;
    match n.world.tasks[tid]
    case ConnectCreated(_, _) => CreatedNext(n, n', tid);
    case ConnectPublished(_, _, _) => PublishedNext(n, n', tid);
    case ConnectAnnounced(call, clientAlias, client, server) =>
      GrantGrows(n, n', call, clientAlias, client);
      OtherNext(n, n', tid);
    case _ => OtherNext(n, n', tid);
  }

  lemma CreatedNext(n: Net, n': Net, tid: nat)
    requires Worked(n, n', tid) && Grows(n, n') && IdsInv(n)
    requires n.world.tasks[tid].ConnectCreated? && TaskFact(n, n.world.tasks[tid])
    ensures var step := Resume(n.world.st, n.world.tasks[tid]); step.next.Some? ==> TaskFact(n', step.next.value)
  {
    hide Mailbox, Deliver, Grows, Pairs, SentByResume, IdsInv, Member;
    var ConnectCreated(call, clientAlias) := n.world.tasks[tid];
    Found(n, n', call.id);
    if clientAlias in n'.world.st.aliases { HasPair(n'.world.st.aliases, clientAlias); }
  }

  lemma PublishedNext(n: Net, n': Net, tid: nat)
    requires Worked(n, n', tid) && Grows(n, n') && IdsInv(n) && Pairs(n.world.st.aliases) <= n.ever
    requires n.world.tasks[tid].ConnectPublished? && TaskFact(n, n.world.tasks[tid])
    ensures var step := Resume(n.world.st, n.world.tasks[tid]); step.next.Some? ==> TaskFact(n', step.next.value)
  {
    hide Mailbox, Deliver, Grows, Pairs, SentByResume, IdsInv, Member, GrantedTo;
    var ConnectPublished(call, clientAlias, client) := n.world.tasks[tid];
    GrantGrows(n, n', call, clientAlias, client);
    if call.remoteAlias in n.world.st.aliases {
      Found(n, n', n.world.st.aliases[call.remoteAlias].id);
      HasPair(n.world.st.aliases, call.remoteAlias);
    }
  }

  lemma OtherNext(n: Net, n': Net, tid: nat)
    requires Worked(n, n', tid) && Grows(n, n') && TaskFact(n, n.world.tasks[tid])
    requires !n.world.tasks[tid].ConnectCreated? && !n.world.tasks[tid].ConnectPublished?
    requires n.world.tasks[tid].ConnectAnnounced? ==>
      GrantedTo(n', n.world.tasks[tid].call, n.world.tasks[tid].clientAlias, n.world.tasks[tid].client)
    ensures var step := Resume(n.world.st, n.world.tasks[tid]); step.next.Some? ==> TaskFact(n', step.next.value)
  {
    hide CreateIP, CreateTCP, ClaimTCP, RemoveTCP, RemoveIP, Mailbox, Deliver, Pairs, SentByResume, CallsStay,
         GrantedTo;
  }

  lemma PeerIsMember(n: Net, n': Net, p: Peer)
    requires IdsInv(n) && Grows(n, n') && p in Peers(n.world.st.clients)
    ensures Member(n', p)
  {
    MembersStay(n, n');
    hide Grows, CallFact;
  }

  lemma NewMessageFact(n: Net, n': Net, tid: nat, p: Peer, j: nat)
    requires Worked(n, n', tid) && Grows(n, n') && TaskFact(n, n.world.tasks[tid])
    requires IdsInv(n)
    requires SentByResume(n.world.st, n.world.tasks[tid], p) != []
    ensures var sent := SentByResume(n.world.st, n.world.tasks[tid], p); |sent| == 1 && MessageFact(n', p, j, sent[0])
  {
    hide Mailbox, Grows, Pairs, IdsInv, Resume;
    var task, st := n.world.tasks[tid], n.world.st;
    MembersStay(n, n');
    if p in Peers(st.clients) { PeerIsMember(n, n', p); }
    match task
    case BindClaimed(_, _) => ClaimedSays(n, n', tid);
    case ShutdownFreed(id, alias) => HadStays(n, n', alias, id); assert EverHad(n', alias);
    case ConnectCreated(call, _) => Found(n, n', call.id); ClaimedSays(n, n', tid);
    case ConnectPublished(call, clientAlias, _) =>
      HadStays(n, n', clientAlias, call.id);
      if call.remoteAlias in st.aliases { Found(n, n', st.aliases[call.remoteAlias].id); }
    case ConnectAccepted(call, _, _, server) => HadStays(n, n', call.remoteAlias, server.id);
    case _ =>
  }

  /** A segment that registers an alias puts it on record. */
  lemma ClaimedSays(n: Net, n': Net, tid: nat)
    requires Worked(n, n', tid)
    ensures n.world.tasks[tid].BindClaimed? ==> Had(n', n.world.tasks[tid].alias, n.world.tasks[tid].id)
    ensures n.world.tasks[tid].ConnectCreated? && Accepts(n.world.st, n.world.tasks[tid].call) ==>
      Had(n', n.world.tasks[tid].clientAlias, n.world.tasks[tid].call.id)
  {
    hide CreateIP, CreateTCP, ClaimTCP, RemoveTCP, RemoveIP, Mailbox, Deliver, SentByResume, Pairs;
    var task, st' := n.world.tasks[tid], n'.world.st;
    if task.BindClaimed? { HasPair(st'.aliases, task.alias); }
    if task.ConnectCreated? && Accepts(n.world.st, task.call) { HasPair(st'.aliases, task.clientAlias); }
  }

  lemma HadStays(n: Net, n': Net, alias: string, id: string)
    requires Grows(n, n') && Had(n, alias, id)
    ensures Had(n', alias, id)
  {}

  /** The answer to a request that is settled at once: a refused bind or shutdown. */
  lemma NewReplyFact(n: Net, n': Net, conn: nat, request: Request, p: Peer, j: nat)
    requires IdsInv(n) && Grows(n, n') && Pairs(n.world.st.aliases) <= n.ever
    requires n'.refusals == n.refusals + RefusalOf(n.world.st, request) && j == |Mailbox(n, p)|
    requires SentByStart(n.world.st, request, p) != []
    ensures var sent := SentByStart(n.world.st, request, p); |sent| == 1 && MessageFact(n', p, j, sent[0])
  {
    hide Box, Grows, Pairs;
    PeerFound(n, n', request);
    if request.Bind? {
      HasPair(n.world.st.aliases, request.alias);
      assert Had(n, request.alias, n.world.st.aliases[request.alias].id);
      HadStays(n, n', request.alias, n.world.st.aliases[request.alias].id);
    }
    hide IdsInv;
  }

  lemma PeerFound(n: Net, n': Net, request: Request)
    requires IdsInv(n) && Grows(n, n')
    ensures request.Bind? ==> forall p | Lookup(n.world.st.clients, request.id) == Some(p) :: Member(n', p)
    ensures request.Shutdown? ==> forall p | Lookup(n.world.st.clients, request.id) == Some(p) :: Member(n', p)
  {
    hide Grows, IdsInv;
    if request.Bind? { Found(n, n', request.id); }
    if request.Shutdown? { Found(n, n', request.id); }
  }

  // ------------------------------------------------------- the work step

  lemma NextTask(st: State, task: Task)
    requires Runnable(st, task)
    ensures var step := Resume(st, task);
      step.next.Some? ==> CidOf(step.next.value) == CidOf(task) && !step.next.value.KnockReceived?
  {
    hide CreateIP, CreateTCP, ClaimTCP, RemoveTCP, RemoveIP, Deliver;
  }

  lemma WorkTask(n: Net, n': Net, tid: nat, t: nat)
    requires Worked(n, n', tid) && Grows(n, n') && TasksInv(n) && OnePlace(n) && t in n.world.tasks && t != tid
    ensures TaskFact(n', n.world.tasks[t])
  {
    hide Grows, Mailbox, Resume, SentByResume, RequestFact, Pairs;
    assert TaskFact(n, n.world.tasks[t]) && TaskFact(n, n.world.tasks[tid]);
    TaskFactGrows(n, n', n.world.tasks[t]);
  }

  lemma WorkRequest(n: Net, n': Net, tid: nat, c: nat, j: nat)
    requires Worked(n, n', tid) && Grows(n, n') && TasksInv(n) && OnePlace(n) && c in n.inbox && j < |n.inbox[c]|
    ensures RequestFact(n', c, n.inbox[c][j])
  {
    hide Grows, Mailbox, Resume, SentByResume, Pairs, AskedTo;
    assert RequestFact(n, c, n.inbox[c][j]) && TaskFact(n, n.world.tasks[tid]);
    RequestFactGrows(n, n', c, n.inbox[c][j]);
  }

  lemma WorkTasks(n: Net, n': Net, tid: nat)
    requires Worked(n, n', tid) && Grows(n, n') && TasksInv(n) && OnePlace(n) && IdsInv(n)
    requires Pairs(n.world.st.aliases) <= n.ever
    requires var step := Resume(n.world.st, n.world.tasks[tid]);
      n'.world.tasks == if step.next.Some? then n.world.tasks[tid := step.next.value] else n.world.tasks - {tid}
    ensures TasksInv(n') && OnePlace(n')
  {
    hide IdsInv;
    WorkPlaces(n, n', tid);
    NextTask(n.world.st, n.world.tasks[tid]);
    assert TaskFact(n, n.world.tasks[tid]);
    NewTaskFact(n, n', tid);
    hide Grows, Resume, SentByResume, TaskFact, RequestFact, CidOf, CidAsked, Pairs;
    forall t | t in n'.world.tasks ensures TaskFact(n', n'.world.tasks[t]) {
      if t != tid { WorkTask(n, n', tid, t); }
    }
    forall c, j | c in n'.inbox && 0 <= j < |n'.inbox[c]| ensures RequestFact(n', c, n'.inbox[c][j]) {
      WorkRequest(n, n', tid, c, j);
    }
    hide OnePlace, Worked;
  }

  lemma WorkPlaces(n: Net, n': Net, tid: nat)
    requires Worked(n, n', tid) && OnePlace(n)
    requires var step := Resume(n.world.st, n.world.tasks[tid]);
      n'.world.tasks == if step.next.Some? then n.world.tasks[tid := step.next.value] else n.world.tasks - {tid}
    ensures OnePlace(n')
  {
    NextTask(n.world.st, n.world.tasks[tid]);
    hide Resume, SentByResume, CidOf, CidAsked, Pairs, Mailbox;
  }

  lemma WorkMail(n: Net, n': Net, tid: nat)
    requires Worked(n, n', tid) && Grows(n, n') && TaskFact(n, n.world.tasks[tid]) && IdsInv(n) && MailInv(n)
    ensures MailInv(n')
  {
    hide Grows, Mailbox, Resume, SentByResume, MessageFact, RefusalFact, IdsInv, TaskFact;
    OldMail(n, n');
    forall p: Peer, j: nat | j < |Mailbox(n', p)| ensures MessageFact(n', p, j, Mailbox(n', p)[j]) {
      if j >= |Mailbox(n, p)| {
        NewMessageFact(n, n', tid, p, j);
      }
    }
  }

  lemma WorkedTasks(n: Net, tid: nat)
    requires CanHappen(n, Work(tid))
    ensures var step := Resume(n.world.st, n.world.tasks[tid]);
      Then(n, Work(tid)).world.tasks ==
        if step.next.Some? then n.world.tasks[tid := step.next.value] else n.world.tasks - {tid}
  {
    hide Resume;
  }

  lemma WorkKeeps(n: Net, tid: nat)
    requires Inv(n) && CanHappen(n, Work(tid))
    ensures Inv(Then(n, Work(tid)))
  {
    hide Next, IdsInv, OnePlace, Grows, Resume, Mailbox, RequestFact, MessageFact, RefusalFact, Worked, Pairs, Then;
    var n' := Then(n, Work(tid));
    ServerGrows(n, Work(tid));
    ServerIds(n, Work(tid));
    WorkWorks(n, tid);
    assert TaskFact(n, n.world.tasks[tid]);
    WorkedTasks(n, tid);
    WorkTasks(n, n', tid);
    WorkMail(n, n', tid);
  }

  // ------------------------------------------------------ the serve step

  /** A new handler starts; its request leaves the line. */
  ghost predicate Served(n: Net, n': Net, conn: nat, tid: nat) {
    && Inbox(n, conn) != [] && tid !in n.world.tasks
    && n'.ids == n.ids && n'.verdicts == n.verdicts && n'.users == n.users && n'.calls == n.calls
    && n'.inbox == n.inbox[conn := Inbox(n, conn)[1..]]
    && n'.ever == n.ever + Pairs(n'.world.st.aliases)
    && n'.refusals == n.refusals + RefusalOf(n.world.st, Inbox(n, conn)[0])
    && var step := Start(n.world.st, conn, Inbox(n, conn)[0]);
       n'.world.tasks == (if step.next.Some? then n.world.tasks[tid := step.next.value] else n.world.tasks)
       && n'.world.st == step.st
  }

  lemma StartTask(n: Net, n': Net, conn: nat, tid: nat)
    requires Served(n, n', conn, tid) && TasksInv(n) && conn in n.users && Pairs(n.world.st.aliases) <= n.ever
    ensures var request := Inbox(n, conn)[0];
      var step := Start(n.world.st, conn, request);
      step.next.Some? ==>
        && TaskFact(n', step.next.value) && CidOf(step.next.value) == CidAsked(request)
        && (step.next.value.KnockReceived? ==> request.Knock? && step.next.value.conn == conn)
  {
    hide Deliver, Pairs, AskedTo, RefusalOf;
    var request, st := Inbox(n, conn)[0], n.world.st;
    assert RequestFact(n, conn, n.inbox[conn][0]);
    if request.Shutdown? && request.alias in st.aliases { HasPair(st.aliases, request.alias); }
  }

  lemma ServeRequest(n: Net, n': Net, conn: nat, tid: nat, c: nat, j: nat)
    requires Served(n, n', conn, tid) && Grows(n, n') && TasksInv(n) && c in n'.inbox && j < |n'.inbox[c]|
    ensures RequestFact(n', c, n'.inbox[c][j])
  {
    hide Grows, Start, Pairs, RefusalOf, AskedTo, TaskFact;
    var i := if c == conn then j + 1 else j;
    assert RequestFact(n, c, n.inbox[c][i]);
    RequestFactGrows(n, n', c, n.inbox[c][i]);
  }

  lemma ServeInbox(n: Net, n': Net, conn: nat, tid: nat)
    requires Served(n, n', conn, tid) && Grows(n, n') && TasksInv(n)
    ensures forall c, j | c in n'.inbox && 0 <= j < |n'.inbox[c]| :: RequestFact(n', c, n'.inbox[c][j])
  {
    hide Grows, Start, RequestFact, Served, TasksInv;
    forall c, j | c in n'.inbox && 0 <= j < |n'.inbox[c]| ensures RequestFact(n', c, n'.inbox[c][j]) {
      ServeRequest(n, n', conn, tid, c, j);
    }
  }

  lemma ServePlaces(n: Net, n': Net, conn: nat, tid: nat)
    requires Served(n, n', conn, tid) && TasksInv(n) && OnePlace(n) && conn in n.users
      && Pairs(n.world.st.aliases) <= n.ever
    ensures OnePlace(n')
  {
    hide Start, Pairs, AskedTo, RefusalOf;
    StartTask(n, n', conn, tid);
    var request := Inbox(n, conn)[0];
    assert RequestFact(n, conn, n.inbox[conn][0]);
    forall c, j, t | c in n'.inbox && 0 <= j < |n'.inbox[c]| && t in n'.world.tasks && CidAsked(n'.inbox[c][j]).Some?
      ensures CidAsked(n'.inbox[c][j]) != CidOf(n'.world.tasks[t])
    {
      var i := if c == conn then j + 1 else j;
      assert n'.inbox[c][j] == n.inbox[c][i] && RequestFact(n, c, n.inbox[c][i]);
    }
  }

  lemma ServeTask(n: Net, n': Net, conn: nat, tid: nat, t: nat)
    requires Served(n, n', conn, tid) && Grows(n, n') && TasksInv(n) && conn in n.users && t in n'.world.tasks
    requires Pairs(n.world.st.aliases) <= n.ever
    ensures TaskFact(n', n'.world.tasks[t])
  {
    hide Grows, Start, Pairs, RefusalOf, RequestFact;
    StartTask(n, n', conn, tid);
    if t != tid {
      assert TaskFact(n, n.world.tasks[t]);
      TaskFactGrows(n, n', n.world.tasks[t]);
    }
  }

  lemma ServeKnocks(n: Net, n': Net, conn: nat, tid: nat, s: nat, t: nat)
    requires Served(n, n', conn, tid) && TasksInv(n) && conn in n.users && Pairs(n.world.st.aliases) <= n.ever
    requires s in n'.world.tasks && t in n'.world.tasks && s != t
    requires n'.world.tasks[s].KnockReceived? && n'.world.tasks[t].KnockReceived?
    ensures n'.world.tasks[s].conn != n'.world.tasks[t].conn
  {
    hide Start, Pairs, RefusalOf, AskedTo;
    StartTask(n, n', conn, tid);
    assert RequestFact(n, conn, n.inbox[conn][0]);
    assert s != tid ==> TaskFact(n, n.world.tasks[s]);
    assert t != tid ==> TaskFact(n, n.world.tasks[t]);
  }

  lemma ServeTasks(n: Net, n': Net, conn: nat, tid: nat)
    requires Served(n, n', conn, tid) && Grows(n, n') && TasksInv(n) && conn in n.users
      && Pairs(n.world.st.aliases) <= n.ever
    ensures TasksInv(n')
  {
    ServeInbox(n, n', conn, tid);
    hide Pairs;
    forall t | t in n'.world.tasks ensures TaskFact(n', n'.world.tasks[t]) {
      ServeTask(n, n', conn, tid, t);
    }
    forall s, t | s in n'.world.tasks && t in n'.world.tasks && s != t && n'.world.tasks[s].KnockReceived? &&
                  n'.world.tasks[t].KnockReceived?
      ensures n'.world.tasks[s].conn != n'.world.tasks[t].conn
    {
      ServeKnocks(n, n', conn, tid, s, t);
    }
    hide Grows, Start, TaskFact, RequestFact, Served;
  }

  lemma ServeServes(n: Net, conn: nat, tid: nat)
    requires CanHappen(n, Serve(conn, tid))
    ensures Served(n, Then(n, Serve(conn, tid)), conn, tid)
  {
    hide Start, Pairs, RefusalOf;
  }

  lemma ServeMail(n: Net, n': Net, conn: nat, tid: nat)
    requires Served(n, n', conn, tid) && Grows(n, n') && IdsInv(n) && MailInv(n)
    requires RequestFact(n, conn, Inbox(n, conn)[0])
    requires forall p: Peer :: Mailbox(n', p) == Mailbox(n, p) + SentByStart(n.world.st, Inbox(n, conn)[0], p)
    ensures MailInv(n')
  {
    hide Grows, Box, Start, SentByStart, MessageFact, RefusalFact, IdsInv, RequestFact, Pairs, RefusalOf;
    var request := Inbox(n, conn)[0];
    OldMail(n, n');
    forall p: Peer, j: nat | j < |Mailbox(n', p)| ensures MessageFact(n', p, j, Mailbox(n', p)[j]) {
      if j >= |Mailbox(n, p)| {
        AtMostOneReply(n.world.st, request, p);
        NewReplyFact(n, n', conn, request, p, j);
      }
    }
    forall p: Peer, j: nat | (p, j) in n'.refusals ensures RefusalFact(n', p, j) {
      if (p, j) !in n.refusals { NewRefusal(n, n', conn, request, p, j); }
    }
  }

  lemma AtMostOneReply(st: State, request: Request, p: Peer)
    ensures |SentByStart(st, request, p)| <= 1
  {}

  lemma NewRefusal(n: Net, n': Net, conn: nat, request: Request, p: Peer, j: nat)
    requires (p, j) in RefusalOf(n.world.st, request) && RequestFact(n, conn, request) && Grows(n, n')
    requires Mailbox(n', p) == Mailbox(n, p) + SentByStart(n.world.st, request, p)
    ensures RefusalFact(n', p, j)
  {
    hide Box, Grows, AskedTo;
    AskedGrows(n, n', request.id, request.alias, true);
  }

  lemma ServeKeeps(n: Net, conn: nat, tid: nat)
    requires Inv(n) && CanHappen(n, Serve(conn, tid))
    ensures Inv(Then(n, Serve(conn, tid)))
  {
    hide IdsInv, OnePlace, Grows, Start, MessageFact, RefusalFact, Next, Box, TaskFact, RequestFact, Pairs, Served,
         Then;
    var n' := Then(n, Serve(conn, tid));
    ServerGrows(n, Serve(conn, tid));
    ServerIds(n, Serve(conn, tid));
    ServeServes(n, conn, tid);
    assert RequestFact(n, conn, n.inbox[conn][0]);
    ServeTasks(n, n', conn, tid);
    ServePlaces(n, n', conn, tid);
    forall p: Peer ensures Mailbox(n', p) == Mailbox(n, p) + SentByStart(n.world.st, Inbox(n, conn)[0], p) {
      ServerMail(n, Serve(conn, tid), p);
    }
    ServeMail(n, n', conn, tid);
  }

  // ------------------------------------------------- a closed connection

  lemma RemovalHad(n: Net, id: string, order: seq<string>, m: Message)
    requires Enumerates(order, Owned(n.world.st.aliases, id)) && Pairs(n.world.st.aliases) <= n.ever
    requires m in Removals(id, order)
    ensures m.Alias? && !m.isSet && m.clientConnectionId.None? && Had(n, m.alias, id)
  {
    var i :| 0 <= i < |order| && m == Removals(id, order)[i];
    assert order[i] in Owned(n.world.st.aliases, id);
    HasPair(n.world.st.aliases, order[i]);
  }

  lemma FarewellFact(n: Net, n': Net, id: string, order: seq<string>, p: Peer, j: nat, m: Message)
    requires IdsInv(n) && Grows(n, n') && p in Peers(n.world.st.clients - {id})
    requires Enumerates(order, Owned(n.world.st.aliases, id)) && Pairs(n.world.st.aliases) <= n.ever
    requires m in [Goodbye(id)] + Removals(id, order)
    ensures MessageFact(n', p, j, m)
  {
    hide Grows, Pairs, Removals;
    PeerIsMember(n, n', p);
    if m in Removals(id, order) {
      RemovalHad(n, id, order, m);
      HadStays(n, n', m.alias, id);
    }
    hide IdsInv;
  }

  lemma HangupMail(n: Net, n': Net, id: string, order: seq<string>)
    requires Grows(n, n') && IdsInv(n) && MailInv(n) && Enumerates(order, Owned(n.world.st.aliases, id))
    requires n'.refusals == n.refusals && n'.ever == n.ever + Pairs(n'.world.st.aliases)
    requires forall p: Peer :: Mailbox(n', p) == Mailbox(n, p) +
               if p in Peers(n.world.st.clients - {id}) then [Goodbye(id)] + Removals(id, order) else []
    ensures MailInv(n')
  {
    hide Grows, Box, MessageFact, RefusalFact, IdsInv, Pairs, Removals;
    OldMail(n, n');
    forall p: Peer, j: nat | j < |Mailbox(n', p)| ensures MessageFact(n', p, j, Mailbox(n', p)[j]) {
      if j >= |Mailbox(n, p)| {
        FarewellFact(n, n', id, order, p, j, Mailbox(n', p)[j]);
      }
    }
  }

  /** A step that leaves requests, handlers, ids and verdicts alone. */
  lemma SameTasks(n: Net, n': Net)
    requires TasksInv(n) && OnePlace(n) && Grows(n, n')
    requires n'.world.tasks == n.world.tasks && n'.inbox == n.inbox && n'.ids == n.ids && n'.verdicts == n.verdicts
    ensures TasksInv(n') && OnePlace(n')
  {
    forall t | t in n'.world.tasks ensures TaskFact(n', n'.world.tasks[t]) {
      assert TaskFact(n, n.world.tasks[t]);
      TaskFactGrows(n, n', n.world.tasks[t]);
    }
    forall c, j | c in n'.inbox && 0 <= j < |n'.inbox[c]| ensures RequestFact(n', c, n'.inbox[c][j]) {
      assert RequestFact(n, c, n.inbox[c][j]);
      RequestFactGrows(n, n', c, n.inbox[c][j]);
    }
    hide Grows, TaskFact, RequestFact, CidOf, CidAsked;
  }

  lemma HangupKeeps(n: Net, id: string, order: seq<string>)
    requires Inv(n) && CanHappen(n, Hangup(id, order))
    ensures Inv(Then(n, Hangup(id, order)))
  {
    hide IdsInv, OnePlace, TasksInv, Grows, Box, MessageFact, RefusalFact, Removals, Pairs, Disconnect;
    var n' := Then(n, Hangup(id, order));
    ServerGrows(n, Hangup(id, order));
    ServerIds(n, Hangup(id, order));
    SameTasks(n, n');
    forall p: Peer
      ensures Mailbox(n', p) == Mailbox(n, p) +
                if p in Peers(n.world.st.clients - {id}) then [Goodbye(id)] + Removals(id, order) else []
    {
      ServerMail(n, Hangup(id, order), p);
    }
    HangupMail(n, n', id, order);
  }

  // ------------------------------------------------------ client events

  lemma QuietGrows(n: Net, n': Net)
    requires n'.world == n.world && n'.ids == n.ids && n'.verdicts == n.verdicts
    requires n'.ever == n.ever && n'.refusals == n.refusals
    requires n.users.Keys <= n'.users.Keys
    requires forall k | k in n.calls :: k in n'.calls && n'.calls[k] == n.calls[k]
    requires CallsStay(n, n')
    ensures Grows(n, n')
  {
    hide CallsStay, Box;
  }

  lemma QuietMail(n: Net, n': Net)
    requires MailInv(n) && Grows(n, n') && n'.world == n.world && n'.ever == n.ever && n'.refusals == n.refusals
    ensures MailInv(n')
  {
    hide Grows, MessageFact, RefusalFact, Box, Pairs;
    OldMail(n, n');
  }

  /** One request is put on the line of a client; nothing else that handlers see changes. */
  lemma QuietTasks(n: Net, n': Net, conn: nat, request: Request)
    requires TasksInv(n) && OnePlace(n) && Grows(n, n') && n'.world == n.world
    requires n'.ids == n.ids && n'.verdicts == n.verdicts
    requires n'.inbox == n.inbox[conn := Inbox(n, conn) + [request]] && conn in n'.users
    requires RequestFact(n', conn, request) && (conn in n.ids || conn !in n.users)
    requires CidAsked(request).Some? ==> CidAsked(request).value !in n.calls
    ensures TasksInv(n') && OnePlace(n')
  {
    forall t | t in n'.world.tasks ensures TaskFact(n', n'.world.tasks[t]) {
      assert TaskFact(n, n.world.tasks[t]);
      TaskFactGrows(n, n', n.world.tasks[t]);
    }
    forall c, j | c in n'.inbox && 0 <= j < |n'.inbox[c]| ensures RequestFact(n', c, n'.inbox[c][j]) {
      if c != conn || j < |Inbox(n, conn)| {
        assert RequestFact(n, c, n.inbox[c][j]);
        RequestFactGrows(n, n', c, n.inbox[c][j]);
      }
    }
    QuietPlaces(n, n', conn, request);
    hide Grows, TaskFact, RequestFact;
  }

  lemma QuietPlaces(n: Net, n': Net, conn: nat, request: Request)
    requires TasksInv(n) && OnePlace(n) && n'.world == n.world
    requires n'.inbox == n.inbox[conn := Inbox(n, conn) + [request]]
    requires CidAsked(request).Some? ==> CidAsked(request).value !in n.calls
    ensures OnePlace(n')
  {
    forall t | t in n.world.tasks && CidOf(n.world.tasks[t]).Some? ensures CidOf(n.world.tasks[t]).value in n.calls {
      assert TaskFact(n, n.world.tasks[t]);
    }
    forall c, j | c in n.inbox && 0 <= j < |n.inbox[c]| && CidAsked(n.inbox[c][j]).Some?
      ensures CidAsked(n.inbox[c][j]).value in n.calls
    {
      assert RequestFact(n, c, n.inbox[c][j]);
    }
    hide TaskFact, RequestFact, CidOf, CidAsked;
  }

  lemma CallShuts(n: Net, e: NetEvent)
    requires IsCall(e) && CanCall(n, e)
    ensures CallsStay(n, Calling(n, e))
    ensures e.CallShutdown? ==> CallBy(Calling(n, e), e.conn, e.call, n.users[e.conn].id, e.alias, true)
    ensures e.CallBind? ==> CallBy(Calling(n, e), e.conn, e.call, n.users[e.conn].id, e.alias, false)
  {}

  lemma CallGrows(n: Net, e: NetEvent)
    requires IsCall(e) && CanCall(n, e)
    ensures Grows(n, Calling(n, e))
  {
    CallShuts(n, e);
    hide CallsStay, Asking, RequestOf;
    QuietGrows(n, Calling(n, e));
  }

  lemma CallSends(n: Net, e: NetEvent)
    requires IdsInv(n) && IsCall(e) && CanCall(n, e)
    ensures RequestFact(Calling(n, e), e.conn, RequestOf(n.users[e.conn], e)) && e.conn in n.ids
    ensures CidAsked(RequestOf(n.users[e.conn], e)).Some? ==> CidAsked(RequestOf(n.users[e.conn], e)).value !in n.calls
  {
    hide CallsStay, CallFact;
    if e.CallShutdown? { CallShuts(n, e); }
  }

  lemma CallIds(n: Net, e: NetEvent)
    requires IdsInv(n) && IsCall(e) && CanCall(n, e)
    ensures IdsInv(Calling(n, e))
  {
    var n', u := Calling(n, e), n.users[e.conn];
    assert Known(n, Peer(u.id, e.conn));
    forall c | c in n'.users && n'.users[c].isConnected ensures Known(n', Peer(n'.users[c].id, c)) {
      assert c in n.users && n.users[c].isConnected && n.users[c].id == n'.users[c].id;
    }
    forall k | k in n'.calls ensures CallFact(n', k) {
      assert k in n.calls ==> CallFact(n, k);
    }
    hide Asking, RequestOf;
  }

  lemma CallKeeps(n: Net, e: NetEvent)
    requires Inv(n) && IsCall(e) && CanCall(n, e)
    ensures Inv(Calling(n, e))
  {
    hide TasksInv, OnePlace, MailInv, IdsInv, Grows, RequestFact, Asking, RequestOf;
    var n' := Calling(n, e);
    CallGrows(n, e);
    QuietMail(n, n');
    CallSends(n, e);
    CallIds(n, e);
    QuietTasks(n, n', e.conn, RequestOf(n.users[e.conn], e));
  }

  lemma OpenGrows(n: Net, e: NetEvent)
    requires e.Open? && CanHappen(n, e)
    ensures Grows(n, Then(n, e))
  {
    OpenShuts(n, e);
    hide CallsStay;
    QuietGrows(n, Then(n, e));
  }

  lemma OpenShuts(n: Net, e: NetEvent)
    requires e.Open? && CanHappen(n, e)
    ensures CallsStay(n, Then(n, e))
  {}

  lemma OpenIds(n: Net, e: NetEvent)
    requires IdsInv(n) && e.Open? && CanHappen(n, e)
    ensures IdsInv(Then(n, e)) && e.conn !in n.ids
  {
    var n' := Then(n, e);
    forall c | c in n'.users && n'.users[c].isConnected ensures Known(n', Peer(n'.users[c].id, c)) {
      assert c in n.users && n.users[c] == n'.users[c];
    }
    forall k | k in n'.calls ensures CallFact(n', k) { assert CallFact(n, k); }
  }

  lemma OpenKeeps(n: Net, e: NetEvent)
    requires Inv(n) && CanHappen(n, e) && e.Open?
    ensures Inv(Then(n, e))
  {
    hide MailInv, OnePlace, IdsInv, Grows, Mailbox;
    var n' := Then(n, e);
    OpenGrows(n, e);
    QuietMail(n, n');
    OpenIds(n, e);
    assert e.conn !in n.inbox && Inbox(n, e.conn) + [Knock(e.subnet)] == [Knock(e.subnet)];
    hide TasksInv;
    QuietTasks(n, n', e.conn, Knock(e.subnet));
  }

  lemma ReadShuts(n: Net, p: Peer)
    requires CanHappen(n, Read(p))
    ensures CallsStay(n, Then(n, Read(p)))
  {
    hide Box, HandleMessage, CallsOf;
    HeardCalls(n.users[p.conn], Mailbox(n, p)[ReadCount(n, p)]);
  }

  lemma HeardCalls(u: User, m: Message)
    ensures forall k: nat, shuts: bool | k in CallsOf(u, shuts) ::
      var before, after := CallsOf(u, shuts), CallsOf(HandleMessage(u, m), shuts);
      k in after && after[k].id == before[k].id && after[k].alias == before[k].alias
  {
    hide NotifyConnect, NotifyAccept, OnAlias;
  }

  lemma ReadGrows(n: Net, p: Peer)
    requires CanHappen(n, Read(p))
    ensures Grows(n, Then(n, Read(p)))
  {
    ReadShuts(n, p);
    hide CallsStay, HandleMessage, Box;
    QuietGrows(n, Then(n, Read(p)));
  }

  lemma ReadIds(n: Net, p: Peer)
    requires IdsInv(n) && MailInv(n) && CanHappen(n, Read(p))
    ensures IdsInv(Then(n, Read(p)))
  {
    hide Box, Pairs, RefusalFact, EverHad, HandleMessage;
    var n' := Then(n, Read(p));
    var m := Mailbox(n, p)[ReadCount(n, p)];
    assert MessageFact(n, p, ReadCount(n, p), m);
    hide MailInv;
    HeardId(n.users[p.conn], m);
    forall c | c in n'.users && n'.users[c].isConnected ensures Known(n', Peer(n'.users[c].id, c)) {
      assert c != p.conn ==> n'.users[c] == n.users[c];
    }
    forall k | k in n'.calls ensures CallFact(n', k) { assert CallFact(n, k); }
    hide MessageFact;
  }

  lemma HeardId(u: User, m: Message)
    ensures var u' := HandleMessage(u, m);
      if m.Acknowledgement? then u'.id == m.id && u'.isConnected else u'.id == u.id && u'.isConnected == u.isConnected
  {
    hide NotifyAlias, NotifyAccept, NotifyConnect, OnAlias;
  }

  lemma ReadKeeps(n: Net, p: Peer)
    requires Inv(n) && CanHappen(n, Read(p))
    ensures Inv(Then(n, Read(p)))
  {
    hide OnePlace, TasksInv, IdsInv, MailInv, Grows, Box, HandleMessage;
    var n' := Then(n, Read(p));
    ReadGrows(n, p);
    ReadIds(n, p);
    QuietMail(n, n');
    SameTasks(n, n');
  }

  /** Every step keeps every message and request on its way true of the history. */
  lemma ThenKeeps(n: Net, e: NetEvent)
    requires Inv(n) && CanHappen(n, e)
    ensures Inv(Then(n, e)) && Grows(n, Then(n, e))
  {
    hide Inv, Grows;
    match e
    case Open(_, _) => OpenKeeps(n, e); OpenGrows(n, e);
    case Serve(conn, tid) => ServeKeeps(n, conn, tid); ServerGrows(n, e);
    case Work(tid) => WorkKeeps(n, tid); ServerGrows(n, e);
    case Hangup(id, order) => HangupKeeps(n, id, order); ServerGrows(n, e);
    case Read(p) => ReadKeeps(n, p); ReadGrows(n, p);
    case _ => CallKeeps(n, e); CallGrows(n, e);
  }

  // ------------------------------------------------------ lines are in order

  /** What an event puts on the line of a connection. */
  function Put(n: Net, e: NetEvent, conn: nat): seq<Request> {
    if e.Open? && e.conn == conn then [Knock(e.subnet)]
    else if IsCall(e) && e.conn == conn && conn in n.users then [RequestOf(n.users[conn], e)]
    else []
  }

  /** What the server receives from it. */
  function Taken(n: Net, e: NetEvent, conn: nat): seq<Request> {
    if e.Serve? && e.conn == conn && Inbox(n, conn) != [] then [Inbox(n, conn)[0]] else []
  }

  /** All that was put on a line so far, in order, and all that was received from it. */
  function PutOn(ns: seq<Net>, es: seq<NetEvent>, k: nat, conn: nat): seq<Request>
    requires k <= |es| && k <= |ns|
  {
    if k == 0 then [] else PutOn(ns, es, k - 1, conn) + Put(ns[k - 1], es[k - 1], conn)
  }

  function TakenOff(ns: seq<Net>, es: seq<NetEvent>, k: nat, conn: nat): seq<Request>
    requires k <= |es| && k <= |ns|
  {
    if k == 0 then [] else TakenOff(ns, es, k - 1, conn) + Taken(ns[k - 1], es[k - 1], conn)
  }

  /** Requests reach the server in the order in which they were made, each once. */
  lemma {:induction false} LinesInOrder(ns: seq<Net>, es: seq<NetEvent>, k: nat, conn: nat)
    requires NetRun(ns, es) && k < |ns|
    ensures PutOn(ns, es, k, conn) == TakenOff(ns, es, k, conn) + Inbox(ns[k], conn)
    ensures conn !in ns[k].users ==> Inbox(ns[k], conn) == []
  {
    hide Then, CanHappen, Put, Taken, Inbox;
    if k > 0 {
      LinesInOrder(ns, es, k - 1, conn);
      LineStep(ns[k - 1], es[k - 1], conn);
      var off, before, put := TakenOff(ns, es, k - 1, conn), Inbox(ns[k - 1], conn), Put(ns[k - 1], es[k - 1], conn);
      assert off + before + put == off + (before + put);
      assert off + Taken(ns[k - 1], es[k - 1], conn) + Inbox(ns[k], conn) ==
        off + (Taken(ns[k - 1], es[k - 1], conn) + Inbox(ns[k], conn));
    } else {
      LineAtFirst(conn);
    }
  }

  lemma LineAtFirst(conn: nat)
    ensures Inbox(BEGIN, conn) == []
  {}

  lemma LineStep(n: Net, e: NetEvent, conn: nat)
    requires CanHappen(n, e) && (conn !in n.users ==> Inbox(n, conn) == [])
    ensures conn !in Then(n, e).users ==> Inbox(Then(n, e), conn) == []
    ensures Inbox(n, conn) + Put(n, e, conn) == Taken(n, e, conn) + Inbox(Then(n, e), conn)
  {
    hide HandleMessage, Asking, RequestOf, Next, RefusalOf;
  }
}
