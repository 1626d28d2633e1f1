/**
 Accept ordering, for clients that bind on their own address: when `accept` returns,
 the listener knows whose the alias is, exactly unless one of a few steps withdrew it
 between its announcement and the Accept; and when none of them can have come.
 */
module Ordering {
  import opened Wrappers
  import opened Address
  import opened Allocator
  import opened Server
  import opened Interleaving
  import opened Addresses
  import opened Client
  import opened Network
  import opened Promises
  import opened Calm
  import opened Accepting

  ghost predicate OwnBinds(ns: seq<Net>, es: seq<NetEvent>)
    requires NetRun(ns, es)
  {
    forall k | 0 <= k < |es| :: es[k].CallBind? ==> ReadIp(es[k].alias) == ReadIp(ns[k].users[es[k].conn].id)
  }

  // ------------------------------------------------------ ids and addresses

  predicate Canonical(id: string) { ReadIp(id).Some? && PrintIp(ReadIp(id).value) == id }

  /** An id as the server gives it out. */
  predicate Genuine(id: string) { id == REJECTED || Canonical(id) }

  lemma RejectedReadsAsNothing()
    ensures ReadIp(REJECTED) == None
  {
    SplitWithout(REJECTED, '.');
  }

  /** One address, one id. */
  lemma SameId(id: string, other: string)
    requires Genuine(id) && Canonical(other) && ReadIp(id) == ReadIp(other)
    ensures id == other
  {
    RejectedReadsAsNothing();
    hide ReadIp, PrintIp;
  }

  predicate BinderGenuine(task: Task) { task.BindChecked? || task.BindClaimed? ==> Genuine(task.id) }

  ghost predicate HomeInv(n: Net) {
    && Orderly(n.world) && Home(n.world)
    && (forall c | c in n.ids :: Genuine(n.ids[c]))
    && (forall t | t in n.world.tasks :: BinderGenuine(n.world.tasks[t]))
    && (forall c, j | c in n.inbox && 0 <= j < |n.inbox[c]| :: OwnRequest(n.inbox[c][j]))
  }

  predicate OwnRequest(request: Request) { request.Bind? ==> ReadIp(request.alias) == ReadIp(request.id) }

  lemma IssuedGenuine(n: Net, tid: nat)
    requires Orderly(n.world) && tid in n.world.tasks && (forall c | c in n.ids :: Genuine(n.ids[c]))
    ensures forall c | c in IssuedBy(n, tid) :: Genuine(IssuedBy(n, tid)[c])
  {
    hide CreateIP, ReadIp, PrintIp, Tidy;
    var task := n.world.tasks[tid];
    if task.KnockReceived? { CreateIPEffect(n.world.st.subnets, task.subnet); }
  }

  lemma BinderResumes(st: State, task: Task)
    requires Runnable(st, task) && BinderGenuine(task)
    ensures Resume(st, task).next.Some? ==> BinderGenuine(Resume(st, task).next.value)
  {
    hide Genuine, CreateIP, CreateTCP, ClaimTCP, RemoveTCP, RemoveIP, Deliver;
  }

  lemma BinderStarts(st: State, conn: nat, request: Request)
    requires request.Bind? ==> Genuine(request.id)
    ensures Start(st, conn, request).next.Some? ==> BinderGenuine(Start(st, conn, request).next.value)
  {
    hide Genuine;
  }

  lemma ServerHome(n: Net, e: NetEvent)
    requires Inv(n) && HomeInv(n) && CanHappen(n, e) && ByServer(e)
    ensures HomeInv(Then(n, e))
  {
    hide Orderly, Home, Genuine, OnePlace, MailInv, IdsInv, Resume, Start, OwnRequest, IssuedBy, RefusalOf, Pairs;
    var event := ServerEvent(n, e);
    if e.Serve? {
      var request := n.inbox[e.conn][0];
      assert RequestFact(n, e.conn, request) && OwnRequest(request);
      BinderStarts(n.world.st, e.conn, request);
    }
    if e.Work? { IssuedGenuine(n, e.tid); BinderResumes(n.world.st, n.world.tasks[e.tid]); }
    assert OwnAddress(event) by { if e.Serve? { OwnEvent(event); } }
    OrderlyStep(n.world, event);
    HomeStep(n.world, event);
    hide OwnAddress, RequestFact, TaskFact, BinderGenuine;
  }

  lemma OwnEvent(e: Event)
    requires e.Receive? && OwnRequest(e.request)
    ensures OwnAddress(e)
  {}

  lemma ClientHome(n: Net, e: NetEvent)
    requires HomeInv(n) && CanHappen(n, e) && !ByServer(e)
    requires e.CallBind? ==> ReadIp(e.alias) == ReadIp(n.users[e.conn].id)
    ensures HomeInv(Then(n, e))
  {
    hide Orderly, Home, Genuine, BinderGenuine, Asking, HandleMessage, Mailbox, ReadIp;
  }

  lemma {:induction false} HomeAlways(ns: seq<Net>, es: seq<NetEvent>, k: nat)
    requires NetRun(ns, es) && OwnBinds(ns, es) && k < |ns|
    ensures HomeInv(ns[k]) && Inv(ns[k])
  {
    hide Everything, HomeInv, Then, CanHappen, Inv;
    Always(ns, es, k);
    NowEverything(ns[k]);
    if k == 0 {
      BeginHome();
    } else {
      HomeAlways(ns, es, k - 1);
      if ByServer(es[k - 1]) { ServerHome(ns[k - 1], es[k - 1]); } else { ClientHome(ns[k - 1], es[k - 1]); }
    }
  }

  lemma BeginHome()
    ensures HomeInv(BEGIN)
  {}

  // ------------------------------------------------------------ withdrawals

  /**
   The steps that take the alias of a call back from a listener: the answer to a refused
   connect that had been given the alias before; the refusal of a bind of the alias; the
   end of a shutdown of it; the refusal of a shutdown of it by somebody else, which says
   it is theirs; and its owner leaving.
   */
  ghost predicate Withdraws(n: Net, e: NetEvent, call: Call, alias: string, p: Peer)
    requires CanHappen(n, e)
  {
    var st := n.world.st;
    match e
    case Serve(conn, _) =>
      (match Inbox(n, conn)[0]
       case Bind(id, a) => a == alias && a in st.aliases && Lookup(st.clients, id) == Some(p)
       case Shutdown(id, a) =>
         a == alias && !(a in st.aliases && st.aliases[a].id == id) && Lookup(st.clients, id) == Some(p)
           && id != call.id
       case _ => false)
    case Work(t) =>
      t in n.world.tasks &&
      (match n.world.tasks[t]
       case ConnectReleased(_, a, found) => a == alias && found == Some(p)
       case ShutdownFreed(_, a) => a == alias && p in Peers(st.clients)
       case _ => false)
    case Hangup(id, order) => alias in order && p in Peers(st.clients - {id})
    case _ => false
  }

  /**
   The steps that tell a listener again that the alias is the caller's: the end of a bind
   of it; the refusal of a shutdown of it, to the caller; a grant of it to the caller; its
   announcement; and, to a client that connected to it, the answer that names its owner.
   */
  ghost predicate Reassures(n: Net, e: NetEvent, call: Call, alias: string, p: Peer)
    requires CanHappen(n, e)
  {
    var st := n.world.st;
    match e
    case Serve(conn, _) =>
      (match Inbox(n, conn)[0]
       case Shutdown(id, a) =>
         a == alias && !(a in st.aliases && st.aliases[a].id == id) && Lookup(st.clients, id) == Some(p)
           && id == call.id
       case _ => false)
    case Work(t) =>
      t in n.world.tasks &&
      (match n.world.tasks[t]
       case BindClaimed(id, a) => a == alias && id == call.id && p in Peers(st.clients)
       case ConnectCreated(c, a) =>
         a == alias && c.id == call.id && Accepts(st, c) && Lookup(st.clients, c.id) == Some(p)
       case ConnectPublished(c, a, _) =>
         a == alias && c.id == call.id && c.remoteAlias in st.aliases
           && Lookup(st.clients, st.aliases[c.remoteAlias].id) == Some(p)
       case ConnectAccepted(c, _, client, server) => c.remoteAlias == alias && server.id == call.id && client == p
       case _ => false)
    case _ => false
  }

  /** These are all the steps that tell the peer that the alias is the caller's. */
  lemma ReassuresIff(n: Net, e: NetEvent, call: Call, alias: string, p: Peer)
    requires CanHappen(n, e)
    ensures Reassures(n, e, call, alias, p) <==> Tells(n, e, p, alias) == Some(Some(call.id))
  {
    hide Peers, Enabled;
  }

  /** The id an alias message of a resumed handler names. */
  function Named(task: Task): Option<string> {
    match task
    case BindClaimed(id, _) => Some(id)
    case ConnectCreated(call, _) => Some(call.id)
    case ConnectReleased(call, _, _) => Some(call.id)
    case ConnectPublished(call, _, _) => Some(call.id)
    case ConnectAccepted(_, _, _, server) => Some(server.id)
    case _ => None
  }

  lemma TellerGenuine(n: Net, task: Task)
    requires HomeInv(n) && Inv(n) && TaskFact(n, task) && BinderGenuine(task)
    ensures Named(task).Some? ==> Genuine(Named(task).value)
  {
    hide HomeInv, Inv, Genuine;
    match task
    case ConnectCreated(c, _) => CallerGenuine(n, c);
    case ConnectReleased(c, _, _) => CallerGenuine(n, c);
    case ConnectPublished(c, _, _) => CallerGenuine(n, c);
    case ConnectAccepted(_, _, _, server) => KnownGenuine(n, server);
    case _ =>
  }

  /** Who can be told what by a resumed handler, on own addresses. */
  lemma ResumeTellsOwner(n: Net, t: nat, call: Call, alias: string, p: Peer)
    requires HomeInv(n) && Inv(n) && t in n.world.tasks && Canonical(call.id) && ReadIp(alias) == ReadIp(call.id)
    ensures var said := SaysAtResume(n.world.st, n.world.tasks[t], p, alias);
      var task := n.world.tasks[t];
      && (said.Some? && said.value.Some? ==> said.value.value == call.id)
      && (said == Some(None) ==>
            (task.ConnectReleased? && p.id == call.id == task.call.id) || (task.ShutdownFreed? && task.alias == alias))
  {
    hide ReadIp, PrintIp, OnePlace, MailInv, Orderly, RequestFact, OwnRequest, SaysAtResume, Canonical, Genuine;
    var task := n.world.tasks[t];
    assert AtHome(task) && TaskFact(n, task) && BinderGenuine(task);
    TellerGenuine(n, task);
    assert task.ConnectReleased? && task.found.Some? ==> task.found.value.id == task.call.id;
    hide HomeInv, Inv, BinderGenuine, TaskFact;
    TellsOwner(n.world.st, task, call, alias, p);
  }

  lemma TellsOwner(st: State, task: Task, call: Call, alias: string, p: Peer)
    requires AtHome(task) && Canonical(call.id) && ReadIp(alias) == ReadIp(call.id)
    requires Named(task).Some? ==> Genuine(Named(task).value)
    requires task.ConnectReleased? && task.found.Some? ==> task.found.value.id == task.call.id
    ensures var said := SaysAtResume(st, task, p, alias);
      && (said.Some? && said.value.Some? ==> said.value.value == call.id)
      && (said == Some(None) ==>
            (task.ConnectReleased? && p.id == call.id == task.call.id) || (task.ShutdownFreed? && task.alias == alias))
  {
    hide ReadIp, Canonical, Genuine, Accepts, Peers;
    if Named(task).Some? && ReadIp(Named(task).value) == ReadIp(call.id) { SameId(Named(task).value, call.id); }
  }

  lemma KnownGenuine(n: Net, p: Peer)
    requires HomeInv(n) && Known(n, p)
    ensures Genuine(p.id)
  {
    hide Orderly, Home, Genuine;
  }

  lemma CallerGenuine(n: Net, call: Call)
    requires HomeInv(n) && Inv(n) && Recorded(n, call)
    ensures Genuine(call.id)
  {
    assert CallFact(n, call.clientConnectionId);
    KnownGenuine(n, Caller(n.calls[call.clientConnectionId]));
    hide Genuine, HomeInv, Inv;
  }

  /** Who can be told what by an answer at once, on own addresses. */
  lemma StartTellsOwner(n: Net, conn: nat, call: Call, alias: string, p: Peer)
    requires HomeInv(n) && Inv(n) && Inbox(n, conn) != [] && Canonical(call.id) && ReadIp(alias) == ReadIp(call.id)
    ensures var request := Inbox(n, conn)[0];
      var said := SaysAtStart(n.world.st, request, p, alias);
      && (said == Some(None) ==> request == Bind(p.id, alias) && p.id == call.id)
      && (said.Some? && said.value.Some? ==> request == Shutdown(p.id, alias) && said.value.value == p.id)
  {
    hide ReadIp, PrintIp, OnePlace, MailInv, Orderly, Home, IdsInv;
    var request := n.inbox[conn][0];
    assert RequestFact(n, conn, request) && OwnRequest(request);
    if request.Bind? {
      KnownGenuine(n, Peer(request.id, conn));
      if request.alias == alias { SameId(request.id, call.id); }
    }
    hide HomeInv, TasksInv;
  }

  lemma LeaverOwns(n: Net, id: string, order: seq<string>, call: Call, alias: string)
    requires HomeInv(n) && Inv(n) && id in n.world.st.clients && Enumerates(order, Owned(n.world.st.aliases, id))
    requires alias in order && Canonical(call.id) && ReadIp(alias) == ReadIp(call.id)
    ensures id == call.id
  {
    hide ReadIp, PrintIp, OnePlace, MailInv, Orderly, TasksInv, CallFact;
    assert alias in Owned(n.world.st.aliases, id);
    KnownGenuine(n, Peer(id, n.world.st.clients[id]));
    SameId(id, call.id);
  }

  /** The withdrawals are the steps that tell the listener anything but whose the alias is; and whose doing they are. */
  lemma WithdrawsIff(n: Net, e: NetEvent, call: Call, alias: string, p: Peer)
    requires HomeInv(n) && Inv(n) && CanHappen(n, e) && Canonical(call.id) && ReadIp(alias) == ReadIp(call.id)
    ensures Withdraws(n, e, call, alias, p) <==>
              Tells(n, e, p, alias).Some? && Tells(n, e, p, alias) != Some(Some(call.id))
    ensures Withdraws(n, e, call, alias, p) ==>
      match e
      case Hangup(id, _) => id == call.id
      case Work(t) => n.world.tasks[t].ShutdownFreed? || (p.id == call.id && n.world.tasks[t].ConnectReleased?)
      case Serve(conn, _) =>
        (Inbox(n, conn)[0] == Bind(p.id, alias) && p.id == call.id) || Inbox(n, conn)[0] == Shutdown(p.id, alias)
      case _ => false
  {
    hide HomeInv, Inv, ReadIp, PrintIp, Canonical, Enumerates, Peers;
    match e
    case Work(t) => ResumeTellsOwner(n, t, call, alias, p);
    case Serve(conn, _) => StartTellsOwner(n, conn, call, alias, p);
    case Hangup(id, order) => if alias in order { LeaverOwns(n, id, order, call, alias); }
    case _ =>
  }

  // --------------------------------------------------------- accept ordering

  /** A withdrawal at step i that nothing before step `end` made good. */
  ghost predicate Standing(ns: seq<Net>, es: seq<NetEvent>, s1: nat, i: nat, end: nat, call: Call, alias: string,
                           p: Peer)
    requires NetRun(ns, es)
  {
    && s1 < i < end <= |es| && Withdraws(ns[i], es[i], call, alias, p)
    && forall j | i < j < end :: !Reassures(ns[j], es[j], call, alias, p)
  }

  lemma {:induction false} LastWordStanding(ns: seq<Net>, es: seq<NetEvent>, s1: nat, end: nat, call: Call,
                                            alias: string, p: Peer)
    requires NetRun(ns, es) && OwnBinds(ns, es) && s1 < end <= |es| && Canonical(call.id)
      && ReadIp(alias) == ReadIp(call.id)
    ensures (LastWord(ns, es, s1, end, p, alias, call.id) == Some(call.id)) <==>
            !exists i: nat :: Standing(ns, es, s1, i, end, call, alias, p)
  {
    hide Then, CanHappen, Withdraws, Reassures, Tells, HomeInv, Inv, Canonical, ReadIp;
    if end > s1 + 1 {
      var last := end - 1;
      LastWordStanding(ns, es, s1, last, call, alias, p);
      HomeAlways(ns, es, last);
      WithdrawsIff(ns[last], es[last], call, alias, p);
      ReassuresIff(ns[last], es[last], call, alias, p);
      if Withdraws(ns[last], es[last], call, alias, p) {
        assert Standing(ns, es, s1, last, end, call, alias, p);
      } else if Reassures(ns[last], es[last], call, alias, p) {
        assert forall i: nat :: Standing(ns, es, s1, i, end, call, alias, p) ==> i < last;
      } else {
        forall i: nat
          ensures Standing(ns, es, s1, i, end, call, alias, p) <==> Standing(ns, es, s1, i, last, call, alias, p)
        {}
      }
    }
  }

  lemma HandlerHome(n: Net, tid: nat)
    requires HomeInv(n) && Inv(n) && tid in n.world.tasks && n.world.tasks[tid].ConnectAnnounced?
    requires ReadIp(n.world.tasks[tid].call.id).Some?
    ensures var task := n.world.tasks[tid]; Canonical(task.call.id) && ReadIp(task.clientAlias) == ReadIp(task.call.id)
  {
    hide ReadIp, PrintIp, OnePlace, MailInv, Orderly, IdsInv, RequestFact;
    var task := n.world.tasks[tid];
    assert TaskFact(n, task) && AtHome(task);
    CallerGenuine(n, task.call);
    RejectedReadsAsNothing();
  }

  /**
   Accept ordering, exactly: when accept returns an alias, the server had registered it
   for a connect call to that bound alias, and the listener knows it as the caller's
   unless, between announcement and Accept, a step withdrew it and none made that good.
   */
  lemma AcceptOrdering(ns: seq<Net>, es: seq<NetEvent>, k: nat, conn: nat, ac: nat, alias: string)
    returns (s1: nat, s2: nat, tid: nat, call: Call, client: Peer, server: Peer)
    requires NetRun(ns, es) && OwnBinds(ns, es) && k < |es| && Returns(ns[k], es[k], conn, ac, alias)
    ensures server.conn == conn && s2 < k && Window(ns, es, s1, s2, tid, call, alias, client, server)
    ensures call.remoteAlias == ns[k].users[conn].accepts[ac].alias
    ensures exists i :: 0 <= i < s2 && Decides(ns[i], es[i], call.clientConnectionId, Granted(alias))
    ensures (Look(ns[k + 1].users[conn].told, alias) == Some(call.id)) <==>
            !exists i: nat :: Standing(ns, es, s1, i, s2, call, alias, server)
    ensures Canonical(call.id) && ReadIp(alias) == ReadIp(call.id)
  {
    hide Then, CanHappen, HomeInv, Inv, Look, Returns, Decides, Standing, LastWord, ReadIp, Canonical;
    s1, s2, tid, call, client, server := AcceptReturns(ns, es, k, conn, ac, alias);
    HomeAlways(ns, es, s2);
    assert tid in ns[s2].world.tasks && ns[s2].world.tasks[tid] == ConnectAnnounced(call, alias, client, server);
    CallReadable(ns, es, s2, tid);
    HandlerHome(ns[s2], tid);
    LastWordStanding(ns, es, s1, s2, call, alias, server);
  }

  /** A call that got an alias was made under a readable id. */
  predicate ReadableCall(task: Task) {
    match task
    case ConnectCreated(call, _) => ReadIp(call.id).Some?
    case ConnectPublished(call, _, _) => ReadIp(call.id).Some?
    case ConnectAnnounced(call, _, _, _) => ReadIp(call.id).Some?
    case _ => true
  }

  lemma ReadableNext(n: Net, e: NetEvent, t: nat)
    requires Orderly(n.world) && (forall s | s in n.world.tasks :: ReadableCall(n.world.tasks[s])) && CanHappen(n, e)
    requires t in Then(n, e).world.tasks
    ensures ReadableCall(Then(n, e).world.tasks[t])
  {
    hide ReadableCall, Resume, Start, HandleMessage, Asking, RequestOf, RefusalOf, Pairs, Disconnect, IssuedBy,
         DecidedBy;
    if e.Serve? { ReadableStart(n.world.st, e.conn, Inbox(n, e.conn)[0]); }
    if e.Work? { ReadableResume(n.world.st, n.world.tasks[e.tid]); }
    hide Orderly;
  }

  lemma ReadableStart(st: State, conn: nat, request: Request)
    ensures Start(st, conn, request).next.Some? ==> ReadableCall(Start(st, conn, request).next.value)
  {
    hide ReadIp, Deliver;
  }

  lemma ReadableResume(st: State, task: Task)
    requires Runnable(st, task) && ReadableCall(task) && Tidy(st.subnets)
    ensures Resume(st, task).next.Some? ==> ReadableCall(Resume(st, task).next.value)
  {
    hide ReadIp, CreateIP, CreateTCP, ClaimTCP, RemoveTCP, RemoveIP, Deliver, Tidy;
    if task.ConnectReceived? && CreateTCP(st.subnets, task.call.id).Ok? { ClientAliasAddress(st, task.call); }
  }

  lemma {:induction false} CallReadable(ns: seq<Net>, es: seq<NetEvent>, k: nat, tid: nat)
    requires NetRun(ns, es) && OwnBinds(ns, es) && k < |ns| && tid in ns[k].world.tasks
    ensures ReadableCall(ns[k].world.tasks[tid])
    decreases k
  {
    hide Then, CanHappen, Orderly, Home, ReadableCall, Inv;
    assert k > 0 by { assert BEGIN.world.tasks == map[]; }
    HomeAlways(ns, es, k - 1);
    var tasks := ns[k - 1].world.tasks;
    forall s | s in tasks ensures ReadableCall(tasks[s]) { CallReadable(ns, es, k - 1, s); }
    ReadableNext(ns[k - 1], es[k - 1], tid);
  }

  // ----------------------------------------------- when nothing can withdraw it

  predicate NobodyShuts(es: seq<NetEvent>) { forall e | e in es :: !e.CallShutdown? }

  ghost predicate ShutFree(n: Net) {
    NoShutdowns(n) && forall t | t in n.world.tasks :: Ids.Calm(n.world.tasks[t])
  }

  lemma ShutFreeStep(n: Net, e: NetEvent)
    requires ShutFree(n) && CanHappen(n, e) && !e.CallShutdown?
    ensures ShutFree(Then(n, e))
  {
    hide Ids.Calm, Resume, Start, HandleMessage, Asking, RefusalOf, Pairs, IssuedBy, DecidedBy;
    if e.Serve? { Ids.StartFrame(n.world.st, e.conn, Inbox(n, e.conn)[0]); }
    if e.Work? { Ids.ResumeClients(n.world.st, n.world.tasks[e.tid]); }
  }

  lemma {:induction false} ShutFreeAlways(ns: seq<Net>, es: seq<NetEvent>, k: nat)
    requires NetRun(ns, es) && NobodyShuts(es) && k < |ns|
    ensures ShutFree(ns[k])
  {
    hide ShutFree, Then, CanHappen;
    if k == 0 {
      NoneAtFirst();
    } else {
      ShutFreeAlways(ns, es, k - 1);
      assert es[k - 1] in es;
      ShutFreeStep(ns[k - 1], es[k - 1]);
    }
  }

  lemma NoneAtFirst()
    ensures ShutFree(BEGIN)
  {}

  /** Without shutdowns: only the caller's leaving, or for a listener that is the caller its own refusals. */
  lemma WithoutShutdowns(n: Net, e: NetEvent, call: Call, alias: string, p: Peer)
    requires HomeInv(n) && Inv(n) && ShutFree(n) && CanHappen(n, e) && Canonical(call.id)
      && ReadIp(alias) == ReadIp(call.id)
    requires Withdraws(n, e, call, alias, p)
    ensures
      || (e.Hangup? && e.id == call.id)
      || (p.id == call.id && e.Work? && e.tid in n.world.tasks && n.world.tasks[e.tid].ConnectReleased?
          && n.world.tasks[e.tid].clientAlias == alias && n.world.tasks[e.tid].found == Some(p))
      || (p.id == call.id && e.Serve? && Inbox(n, e.conn)[0] == Bind(p.id, alias))
  {
    hide HomeInv, Inv, ReadIp, Canonical, Tells;
    WithdrawsIff(n, e, call, alias, p);
    if e.Work? { assert Ids.Calm(n.world.tasks[e.tid]); }
    if e.Serve? { assert !n.inbox[e.conn][0].Shutdown?; }
  }

  /** Another client's accept: told, unless the caller leaves between announcement and Accept. */
  lemma ToldUnlessCallerLeaves(ns: seq<Net>, es: seq<NetEvent>, k: nat, conn: nat, ac: nat, alias: string)
    returns (s1: nat, s2: nat, tid: nat, call: Call, client: Peer, server: Peer)
    requires NetRun(ns, es) && OwnBinds(ns, es) && NobodyShuts(es)
    requires k < |es| && Returns(ns[k], es[k], conn, ac, alias)
    ensures server.conn == conn && s2 < k && Window(ns, es, s1, s2, tid, call, alias, client, server)
    ensures server.id != call.id && (forall i | s1 < i < s2 && es[i].Hangup? :: es[i].id != call.id) ==>
              Look(ns[k + 1].users[conn].told, alias) == Some(call.id)
  {
    hide Then, CanHappen, HomeInv, Inv, Look, Returns, Decides, ReadIp, Canonical, ShutFree, Withdraws, Reassures;
    s1, s2, tid, call, client, server := AcceptOrdering(ns, es, k, conn, ac, alias);
    if server.id != call.id && (forall i | s1 < i < s2 && es[i].Hangup? :: es[i].id != call.id) {
      if i: nat :| Standing(ns, es, s1, i, s2, call, alias, server) {
        HomeAlways(ns, es, i);
        ShutFreeAlways(ns, es, i);
        WithoutShutdowns(ns[i], es[i], call, alias, server);
      }
    }
  }

  /** A refused connect that has given its port back and not said so yet, to this peer. */
  predicate RefusalPending(n: Net, alias: string, p: Peer) {
    exists t :: t in n.world.tasks && n.world.tasks[t].ConnectReleased?
      && n.world.tasks[t].clientAlias == alias && n.world.tasks[t].found == Some(p)
  }

  /** While an alias is registered, no connect that was given it can still give it back. */
  lemma NotBoth(n: Net, t: nat, alias: string, id: string)
    requires CalmInv(n) && Had(n, alias, id) && t in n.world.tasks
    ensures !(n.world.tasks[t].ConnectRefused? && n.world.tasks[t].clientAlias == alias)
  {
    StillOwned(n, alias, id);
    hide Ids.Inv, ReadTcp, Claimed, Tidy;
    var task := n.world.tasks[t];
    assert Own.TaskReadable(task);
    var mine, registered := Own.Holding(n.world, Own.InFlight(t)), Own.Holding(n.world, Own.Registered(alias));
    assert registered == ReadTcp(alias);
    assert mine.Some? ==> mine != registered;
  }

  lemma ReleasedFrom(n: Net, e: NetEvent, t: nat)
    requires CanHappen(n, e) && t in Then(n, e).world.tasks && Then(n, e).world.tasks[t].ConnectReleased?
    ensures t in n.world.tasks
    ensures var after := Then(n, e).world.tasks[t];
      || n.world.tasks[t] == after
      || (n.world.tasks[t].ConnectRefused? && n.world.tasks[t].clientAlias == after.clientAlias)
  {
    hide CreateIP, CreateTCP, ClaimTCP, RemoveTCP, RemoveIP, Deliver, HandleMessage, Asking, RequestOf, RefusalOf,
         Pairs, Disconnect;
  }

  /** A pending refusal of an alias that is registered was pending when it was announced. */
  lemma {:induction false} WasPending(ns: seq<Net>, es: seq<NetEvent>, s: nat, i: nat, t: nat, alias: string,
                                      id: string)
    requires NetRun(ns, es) && Undisturbed(es) && s <= i < |ns| && Had(ns[s], alias, id)
    requires t in ns[i].world.tasks && ns[i].world.tasks[t].ConnectReleased?
      && ns[i].world.tasks[t].clientAlias == alias
    ensures t in ns[s].world.tasks && ns[s].world.tasks[t] == ns[i].world.tasks[t]
    decreases i
  {
    hide Then, CanHappen, CalmInv, GrantsInv, Everything, Inv;
    if i > s {
      CalmAlways(ns, es, i - 1);
      HadSince(ns, es, s, i - 1, alias, id);
      ReleasedFrom(ns[i - 1], es[i - 1], t);
      NotBoth(ns[i - 1], t, alias, id);
      WasPending(ns, es, s, i - 1, t, alias, id);
    }
  }

  lemma {:induction false} HadSince(ns: seq<Net>, es: seq<NetEvent>, s: nat, i: nat, alias: string, id: string)
    requires NetRun(ns, es) && s <= i < |ns| && Had(ns[s], alias, id)
    ensures Had(ns[i], alias, id)
  {
    hide Then, CanHappen, Everything, Inv, Grows;
    if i > s {
      HadSince(ns, es, s, i - 1, alias, id);
      Always(ns, es, i - 1);
      NowEverything(ns[i - 1]);
      ThenKeeps(ns[i - 1], es[i - 1]);
      HadStays(ns[i - 1], ns[i], alias, id);
    }
  }

  /**
   Nobody leaves and nobody shuts down: the listener knows the alias as the caller's. A
   client that connects to itself does too, unless the refusal of another of its connects,
   which had been given that port, was pending at the announcement, or it tries to bind
   the alias in between.
   */
  lemma ToldWhenCalm(ns: seq<Net>, es: seq<NetEvent>, k: nat, conn: nat, ac: nat, alias: string)
    returns (s1: nat, s2: nat, tid: nat, call: Call, client: Peer, server: Peer)
    requires NetRun(ns, es) && OwnBinds(ns, es) && Undisturbed(es)
    requires k < |es| && Returns(ns[k], es[k], conn, ac, alias)
    ensures server.conn == conn && s2 < k && Window(ns, es, s1, s2, tid, call, alias, client, server)
    ensures
      || server.id != call.id
      || (!RefusalPending(ns[s1 + 1], alias, server)
          && forall i | s1 < i < s2 && es[i].Serve? :: Inbox(ns[i], es[i].conn)[0] != Bind(server.id, alias))
      ==> Look(ns[k + 1].users[conn].told, alias) == Some(call.id)
  {
    hide Then, CanHappen, HomeInv, Inv, Look, Returns, Decides, ReadIp, Canonical, ShutFree, Withdraws, Reassures,
         RefusalPending;
    s1, s2, tid, call, client, server := AcceptOrdering(ns, es, k, conn, ac, alias);
    assert NobodyShuts(es);
    if i: nat :| Standing(ns, es, s1, i, s2, call, alias, server) {
      assert es[i] in es;
      HomeAlways(ns, es, i);
      ShutFreeAlways(ns, es, i);
      WithoutShutdowns(ns[i], es[i], call, alias, server);
      if es[i].Work? {
        HomeAlways(ns, es, s1 + 1);
        AnnouncedHad(ns[s1 + 1], tid);
        WasPending(ns, es, s1 + 1, i, es[i].tid, alias, call.id);
        IsPending(ns[s1 + 1], es[i].tid, alias, server);
      }
    }
  }

  lemma IsPending(n: Net, t: nat, alias: string, p: Peer)
    requires t in n.world.tasks && n.world.tasks[t].ConnectReleased?
    requires n.world.tasks[t].clientAlias == alias && n.world.tasks[t].found == Some(p)
    ensures RefusalPending(n, alias, p)
  {}

  lemma AnnouncedHad(n: Net, tid: nat)
    requires Inv(n) && tid in n.world.tasks && n.world.tasks[tid].ConnectAnnounced?
    ensures Had(n, n.world.tasks[tid].clientAlias, n.world.tasks[tid].call.id)
  {
    hide IdsInv, OnePlace, MailInv, RequestFact;
    assert TaskFact(n, n.world.tasks[tid]);
  }
}
