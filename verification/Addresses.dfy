/**
 Addresses over runs: port lists stay free of duplicates whatever happens, and as
 long as binds name the sender's own address, an alias is on its owner's address.
 */
module Addresses {
  import opened Address
  import opened Allocator
  import opened Server
  import opened Interleaving

  /** A bind names an alias on the sender's own address. */
  predicate OwnAddress(e: Event) {
    e.Receive? && e.request.Bind? ==> ReadIp(e.request.alias) == ReadIp(e.request.id)
  }

  // -------------------------------------------------------- tidy in every run

  predicate Sound(task: Task) { task.KnockReceived? ==> WellFormedSubnet(task.subnet) }

  ghost predicate Orderly(w: World) {
    Tidy(w.st.subnets) && forall i | i in w.tasks :: Sound(w.tasks[i])
  }

  lemma {:induction false} ReleaseAllTidy(subnets: Subnets, order: seq<string>)
    requires Tidy(subnets)
    ensures Tidy(ReleaseAll(subnets, order))
  {
    if order != [] {
      RemoveIPEffect(subnets, order[0]);
      RemoveTCPEffect(RemoveIP(subnets, order[0]), order[0]);
      ReleaseAllTidy(RemoveTCP(RemoveIP(subnets, order[0]), order[0]), order[1..]);
    }
  }

  lemma ResumeTidy(st: State, task: Task)
    requires Tidy(st.subnets) && Sound(task) && Runnable(st, task)
    ensures var step := Resume(st, task); Tidy(step.st.subnets) && (step.next.Some? ==> Sound(step.next.value))
  {
    hide ReadIp, ReadTcp, CreateIP, CreateTCP, ClaimTCP, RemoveTCP, RemoveIP, Deliver, Tidy, Has;
    match task
    case KnockReceived(conn, subnet) => CreateIPEffect(st.subnets, subnet);
    case BindChecked(id, alias) => ClaimTCPEffect(st.subnets, alias);
    case ConnectRefused(call, clientAlias, _) => RemoveTCPEffect(st.subnets, clientAlias);
    case ShutdownDeleted(id, alias) => RemoveTCPEffect(st.subnets, alias);
    case ShutdownReleased(id, alias) => RemoveIPEffect(st.subnets, alias);
    case ConnectReceived(call) =>
      if CreateTCP(st.subnets, call.id).Ok? {
        CreateTCPEffect(st.subnets, call.id);
      }
    case _ =>
  }

  lemma StartSound(st: State, conn: nat, request: Request)
    requires request.Knock? ==> WellFormedSubnet(request.subnet)
    ensures var step := Start(st, conn, request);
      step.st.subnets == st.subnets && (step.next.Some? ==> Sound(step.next.value))
  {}

  lemma OrderlyStep(w: World, e: Event)
    requires Orderly(w) && Enabled(w, e)
    ensures Orderly(Next(w, e))
  {
    hide Tidy, Resume, Start, Sound;
    match e
    case Receive(_, conn, request) => StartSound(w.st, conn, request);
    case Proceed(tid) => ResumeTidy(w.st, w.tasks[tid]);
    case Close(id, order) =>
      RemoveIPEffect(w.st.subnets, id);
      ReleaseAllTidy(RemoveIP(w.st.subnets, id), order);
  }

  // ------------------------------------------------- aliases on own addresses

  /** What a suspended handler names is on the address it should be on. */
  predicate AtHome(task: Task) {
    match task
    case BindChecked(id, alias) => ReadIp(alias) == ReadIp(id)
    case BindClaimed(id, alias) => ReadIp(alias) == ReadIp(id)
    case ShutdownDeleted(id, alias) => ReadIp(alias) == ReadIp(id)
    case ShutdownReleased(id, alias) => ReadIp(alias) == ReadIp(id)
    case ShutdownFreed(id, alias) => ReadIp(alias) == ReadIp(id)
    case ConnectCreated(call, clientAlias) => ReadIp(clientAlias) == ReadIp(call.id)
    case ConnectRefused(call, clientAlias, _) => ReadIp(clientAlias) == ReadIp(call.id)
    case ConnectReleased(call, clientAlias, _) => ReadIp(clientAlias) == ReadIp(call.id)
    case ConnectPublished(call, clientAlias, _) => ReadIp(clientAlias) == ReadIp(call.id)
    case ConnectAnnounced(call, clientAlias, _, server) =>
      ReadIp(clientAlias) == ReadIp(call.id) && ReadIp(call.remoteAlias) == ReadIp(server.id)
    case ConnectAccepted(call, clientAlias, _, server) =>
      ReadIp(clientAlias) == ReadIp(call.id) && ReadIp(call.remoteAlias) == ReadIp(server.id)
    case _ => true
  }

  predicate OwnersAtHome(aliases: map<string, MAlias>) { forall a | a in aliases :: ReadIp(a) == ReadIp(aliases[a].id) }

  ghost predicate Home(w: World) {
    OwnersAtHome(w.st.aliases) && forall i | i in w.tasks :: AtHome(w.tasks[i])
  }

  lemma ClientAliasAddress(st: State, call: Call)
    requires Tidy(st.subnets) && CreateTCP(st.subnets, call.id).Ok?
    ensures ReadIp(CreateTCP(st.subnets, call.id).value.1) == ReadIp(call.id) && ReadIp(call.id).Some?
  {
    CreateTCPEffect(st.subnets, call.id);
    var ip := ReadIp(call.id).value;
    var ports := st.subnets[ip.subnet][ip.suffix];
    AliasReadAsIp(Tcp(ip, LowestFree(Elements(ports))));
  }

  lemma StartHome(st: State, conn: nat, request: Request)
    requires OwnersAtHome(st.aliases) && (request.Bind? ==> ReadIp(request.alias) == ReadIp(request.id))
    ensures var step := Start(st, conn, request);
      OwnersAtHome(step.st.aliases) && (step.next.Some? ==> AtHome(step.next.value))
  {
    hide ReadIp;
  }

  lemma ResumeHome(st: State, task: Task)
    requires Tidy(st.subnets) && OwnersAtHome(st.aliases) && AtHome(task) && Runnable(st, task)
    ensures var step := Resume(st, task);
      OwnersAtHome(step.st.aliases) && (step.next.Some? ==> AtHome(step.next.value))
  {
    hide ReadIp, CreateIP, CreateTCP, ClaimTCP, RemoveTCP, RemoveIP, Deliver;
    if task.ConnectReceived? && CreateTCP(st.subnets, task.call.id).Ok? {
      ClientAliasAddress(st, task.call);
    }
  }

  lemma HomeStep(w: World, e: Event)
    requires Orderly(w) && Home(w) && Enabled(w, e) && OwnAddress(e)
    ensures Home(Next(w, e))
  {
    hide Tidy, Resume, Start, AtHome, ReadIp;
    match e
    case Receive(_, conn, request) => StartHome(w.st, conn, request);
    case Proceed(tid) => ResumeHome(w.st, w.tasks[tid]);
    case Close(_, _) =>
  }
}
