/**
 Exclusive ownership: at any moment of any interleaving, a claimed port has
 exactly one holder.
 */
module Ownership {
  import opened Wrappers
  import opened Address
  import opened Allocator
  import opened Server
  import opened Interleaving

  /** Who a port belongs to: a registered alias, or a suspended bind or connect. */
  datatype Holder = Registered(alias: string) | InFlight(tid: nat)

  /** The port a suspended handler has claimed and neither published nor released. */
  function Reserved(task: Task): Option<Tcp> {
    match task
    case BindClaimed(_, alias) => ReadTcp(alias)
    case ConnectCreated(_, clientAlias) => ReadTcp(clientAlias)
    case ConnectRefused(_, clientAlias, _) => ReadTcp(clientAlias)
    case _ => None
  }

  function Holding(w: World, h: Holder): Option<Tcp> {
    match h
    case Registered(alias) => if alias in w.st.aliases then ReadTcp(alias) else None
    case InFlight(tid) => if tid in w.tasks then Reserved(w.tasks[tid]) else None
  }

  ghost predicate Exclusive(w: World) {
    && (forall t: Tcp | Claimed(w.st.subnets, t) :: exists h: Holder :: Holding(w, h) == Some(t))
    && (forall h: Holder :: Holding(w, h).Some? ==> Claimed(w.st.subnets, Holding(w, h).value))
    && (forall h: Holder, g: Holder :: Holding(w, h).Some? && Holding(w, h) == Holding(w, g) ==> h == g)
  }

  /** Suspended handlers that hold a port name it readably; no shutdown is under way. */
  predicate TaskReadable(task: Task) {
    match task
    case BindClaimed(_, alias) => ReadTcp(alias).Some?
    case ConnectCreated(_, clientAlias) => ReadTcp(clientAlias).Some?
    case ConnectRefused(_, clientAlias, _) => ReadTcp(clientAlias).Some?
    case ShutdownDeleted(_, _) | ShutdownReleased(_, _) | ShutdownFreed(_, _) => false
    case KnockReceived(_, subnet) => WellFormedSubnet(subnet)
    case _ => true
  }

  ghost predicate Inv(w: World) {
    && Tidy(w.st.subnets)
    && Exclusive(w)
    && (forall tid | tid in w.tasks :: TaskReadable(w.tasks[tid]))
    && (forall a | a in w.st.aliases :: ReadTcp(a).Some?)
  }

  /** Claims and holders unchanged: nothing to prove but the frame. */
  lemma Unmoved(w: World, w': World)
    requires Exclusive(w) && SameClaims(w.st.subnets, w'.st.subnets)
    requires forall h: Holder :: Holding(w', h) == Holding(w, h)
    ensures Exclusive(w')
  {
    forall t: Tcp | Claimed(w'.st.subnets, t) ensures exists h: Holder :: Holding(w', h) == Some(t) {
      assert Claimed(w.st.subnets, t);
      var h: Holder :| Holding(w, h) == Some(t);
      assert Holding(w', h) == Some(t);
    }
  }

  /** One more port is claimed and the suspended handler `tid` holds it. */
  lemma Acquired(w: World, w': World, tid: nat, t: Tcp)
    requires Exclusive(w) && ClaimsPlus(w.st.subnets, w'.st.subnets, t)
    requires Holding(w, InFlight(tid)) == None && Holding(w', InFlight(tid)) == Some(t)
    requires forall h: Holder | h != InFlight(tid) :: Holding(w', h) == Holding(w, h)
    ensures Exclusive(w')
  {
    forall u: Tcp | Claimed(w'.st.subnets, u) ensures exists h: Holder :: Holding(w', h) == Some(u) {
      if u == t {
        assert Holding(w', InFlight(tid)) == Some(u);
      } else {
        var h: Holder :| Holding(w, h) == Some(u);
        assert Holding(w', h) == Some(u);
      }
    }
  }

  /** The port of the suspended handler passes to the alias that names it. */
  lemma Published(w: World, w': World, tid: nat, alias: string)
    requires Exclusive(w) && w'.st.subnets == w.st.subnets
    requires ReadTcp(alias).Some? && Holding(w, InFlight(tid)) == ReadTcp(alias)
    requires Holding(w', InFlight(tid)) == None && Holding(w', Registered(alias)) == ReadTcp(alias)
    requires forall h: Holder | h != InFlight(tid) && h != Registered(alias) :: Holding(w', h) == Holding(w, h)
    ensures Exclusive(w') && alias !in w.st.aliases
  {
    assert alias in w.st.aliases ==> Holding(w, Registered(alias)) == Holding(w, InFlight(tid));
    forall u: Tcp | Claimed(w'.st.subnets, u) ensures exists h: Holder :: Holding(w', h) == Some(u) {
      var h: Holder :| Holding(w, h) == Some(u);
      var g := if h == InFlight(tid) then Registered(alias) else h;
      assert Holding(w', g) == Some(u);
    }
  }

  /** The port of the suspended handler is released, and nobody else's. */
  lemma Released(w: World, w': World, tid: nat, t: Tcp)
    requires Exclusive(w)
    requires forall u: Tcp :: Claimed(w'.st.subnets, u) <==> Claimed(w.st.subnets, u) && u != t
    requires Holding(w, InFlight(tid)) == Some(t) && Holding(w', InFlight(tid)) == None
    requires forall h: Holder | h != InFlight(tid) :: Holding(w', h) == Holding(w, h)
    ensures Exclusive(w')
  {
    forall u: Tcp | Claimed(w'.st.subnets, u) ensures exists h: Holder :: Holding(w', h) == Some(u) {
      var h: Holder :| Holding(w, h) == Some(u);
      assert Holding(w', h) == Some(u);
    }
    forall h: Holder | Holding(w', h).Some? ensures Claimed(w'.st.subnets, Holding(w', h).value) {
      assert Holding(w, h) != Holding(w, InFlight(tid));
    }
  }

  lemma ReceiveKeeps(w: World, e: Event)
    requires Inv(w) && Enabled(w, e) && e.Receive? && !IsShutdown(e)
    ensures Inv(Next(w, e))
  {
    StartFrame(w.st, e.conn, e.request);
    Settled(w, Next(w, e), e.tid);
  }

  lemma StartFrame(st: State, conn: nat, request: Request)
    requires !request.Shutdown? && (request.Knock? ==> WellFormedSubnet(request.subnet))
    ensures var step := Start(st, conn, request);
      && step.st.subnets == st.subnets && step.st.aliases.Keys == st.aliases.Keys
      && (step.next.Some? ==> Reserved(step.next.value) == None && TaskReadable(step.next.value))
  {}

  /** The segments that neither claim, publish nor release a port. */
  predicate Quiet(st: State, task: Task) {
    match task
    case BindChecked(_, _) | BindClaimed(_, _) | ConnectReceived(_) | ConnectRefused(_, _, _) => false
    case ConnectCreated(call, _) => !Accepts(st, call)
    case _ => true
  }

  lemma QuietFrame(st: State, task: Task)
    requires Tidy(st.subnets) && TaskReadable(task) && Quiet(st, task)
    ensures var step := Resume(st, task);
      && Tidy(step.st.subnets) && SameClaims(st.subnets, step.st.subnets)
      && step.st.aliases.Keys == st.aliases.Keys
      && Reserved(task) == (if step.next.Some? then Reserved(step.next.value) else None)
      && (step.next.Some? ==> TaskReadable(step.next.value))
  {
    if task.KnockReceived? {
      CreateIPEffect(st.subnets, task.subnet);
    }
  }

  /** A segment of `tid` that touches neither claims, nor aliases, nor what `tid` holds. */
  lemma Settled(w: World, w': World, tid: nat)
    requires Inv(w) && Tidy(w'.st.subnets) && SameClaims(w.st.subnets, w'.st.subnets)
    requires w'.st.aliases.Keys == w.st.aliases.Keys
    requires w'.tasks - {tid} == w.tasks - {tid}
    requires tid in w'.tasks ==> TaskReadable(w'.tasks[tid])
    requires Holding(w', InFlight(tid)) == Holding(w, InFlight(tid))
    ensures Inv(w')
  {
    forall i | i in w'.tasks ensures TaskReadable(w'.tasks[i]) {
      if i != tid { assert i in w'.tasks - {tid}; }
    }
    OthersHold(w, w', tid);
    Unmoved(w, w');
  }

  lemma OthersHold(w: World, w': World, tid: nat)
    requires w'.tasks - {tid} == w.tasks - {tid}
    ensures forall h: Holder :: h != InFlight(tid) && h.InFlight? ==> Holding(w', h) == Holding(w, h)
    ensures w'.st.aliases.Keys == w.st.aliases.Keys ==>
      forall h: Holder :: h.Registered? ==> Holding(w', h) == Holding(w, h)
  {
    forall h: Holder | h != InFlight(tid) && h.InFlight? ensures Holding(w', h) == Holding(w, h) {
      assert h.tid in w.tasks - {tid} <==> h.tid in w'.tasks - {tid};
    }
  }

  lemma BindClaims(w: World, tid: nat)
    requires Inv(w) && Enabled(w, Proceed(tid)) && w.tasks[tid].BindChecked?
    ensures Inv(Next(w, Proceed(tid)))
  {
    hide ReadTcp, ReadIp, Exclusive, ClaimTCP, Tidy, SameClaims, ClaimsPlus;
    var w', alias := Next(w, Proceed(tid)), w.tasks[tid].alias;
    ClaimTCPEffect(w.st.subnets, alias);
    if ClaimTCP(w.st.subnets, alias).Ok? {
      OthersHold(w, w', tid);
      Acquired(w, w', tid, ReadTcp(alias).value);
    } else {
      Settled(w, w', tid);
    }
  }

  lemma BindPublishes(w: World, tid: nat)
    requires Inv(w) && Enabled(w, Proceed(tid)) && w.tasks[tid].BindClaimed?
    ensures Inv(Next(w, Proceed(tid)))
    ensures w.tasks[tid].alias !in w.st.aliases
  {
    var w' := Next(w, Proceed(tid));
    OthersHold(w, w', tid);
    Published(w, w', tid, w.tasks[tid].alias);
  }

  lemma CreateFrame(st: State, call: Call)
    requires Tidy(st.subnets) && CreateTCP(st.subnets, call.id).Ok?
    ensures var step := Resume(st, ConnectReceived(call));
      && Tidy(step.st.subnets) && step.st.aliases == st.aliases
      && step.next.Some? && TaskReadable(step.next.value) && Reserved(step.next.value).Some?
      && ClaimsPlus(st.subnets, step.st.subnets, Reserved(step.next.value).value)
  {
    hide ParseIPAddress, ParseTCPAddress, Sort, Scan, PrintTcp;
    CreateTCPEffect(st.subnets, call.id);
  }

  lemma ConnectCreates(w: World, tid: nat)
    requires Inv(w) && Enabled(w, Proceed(tid)) && w.tasks[tid].ConnectReceived?
    ensures Inv(Next(w, Proceed(tid)))
  {
    hide ReadTcp, Exclusive, CreateTCP, Tidy, ClaimsPlus;
    var w', call := Next(w, Proceed(tid)), w.tasks[tid].call;
    if CreateTCP(w.st.subnets, call.id).Ok? {
      CreateFrame(w.st, call);
      OthersHold(w, w', tid);
      Acquired(w, w', tid, Reserved(w'.tasks[tid]).value);
    } else {
      Settled(w, w', tid);
    }
  }

  lemma PublishFrame(st: State, call: Call, clientAlias: string)
    requires Accepts(st, call)
    ensures var step := Resume(st, ConnectCreated(call, clientAlias));
      && step.st.subnets == st.subnets && step.st.aliases == st.aliases[clientAlias := MAlias(call.id, false)]
      && (step.next.Some? ==> TaskReadable(step.next.value) && Reserved(step.next.value) == None)
  {}

  lemma ConnectPublishes(w: World, tid: nat)
    requires Inv(w) && Enabled(w, Proceed(tid)) && w.tasks[tid].ConnectCreated?
    ensures Inv(Next(w, Proceed(tid)))
    ensures Accepts(w.st, w.tasks[tid].call) ==> w.tasks[tid].clientAlias !in w.st.aliases
  {
    hide ReadTcp, Exclusive, Tidy, Deliver, Accepts;
    if Accepts(w.st, w.tasks[tid].call) {
      var w', task := Next(w, Proceed(tid)), w.tasks[tid];
      PublishFrame(w.st, task.call, task.clientAlias);
      OthersHold(w, w', tid);
      Published(w, w', tid, task.clientAlias);
    } else {
      QuietKeeps(w, tid);
    }
  }

  lemma ConnectReleases(w: World, tid: nat)
    requires Inv(w) && Enabled(w, Proceed(tid)) && w.tasks[tid].ConnectRefused?
    ensures Inv(Next(w, Proceed(tid)))
  {
    hide ReadTcp, Exclusive, RemoveTCP, Tidy;
    var w', clientAlias := Next(w, Proceed(tid)), w.tasks[tid].clientAlias;
    RemoveTCPEffect(w.st.subnets, clientAlias);
    OthersHold(w, w', tid);
    Released(w, w', tid, ReadTcp(clientAlias).value);
  }

  lemma QuietKeeps(w: World, tid: nat)
    requires Inv(w) && Enabled(w, Proceed(tid)) && Quiet(w.st, w.tasks[tid])
    ensures Inv(Next(w, Proceed(tid)))
  {
    hide ReadTcp, Exclusive, Resume, Tidy, SameClaims;
    QuietFrame(w.st, w.tasks[tid]);
    Settled(w, Next(w, Proceed(tid)), tid);
  }

  lemma ProceedKeeps(w: World, tid: nat)
    requires Inv(w) && Enabled(w, Proceed(tid))
    ensures Inv(Next(w, Proceed(tid)))
  {
    match w.tasks[tid]
    case BindChecked(_, _) => BindClaims(w, tid);
    case BindClaimed(_, _) => BindPublishes(w, tid);
    case ConnectReceived(_) => ConnectCreates(w, tid);
    case ConnectCreated(_, _) => ConnectPublishes(w, tid);
    case ConnectRefused(_, _, _) => ConnectReleases(w, tid);
    case _ => QuietKeeps(w, tid);
  }

  lemma {:induction false} InvHolds(ws: seq<World>, es: seq<Event>, k: nat)
    requires Run(ws, es) && NoRemovals(es) && k < |ws|
    ensures Inv(ws[k])
  {
    if k > 0 {
      InvHolds(ws, es, k - 1);
      assert es[k - 1] in es;
      if es[k - 1].Receive? { ReceiveKeeps(ws[k - 1], es[k - 1]); } else { ProceedKeeps(ws[k - 1], es[k - 1].tid); }
    }
  }

  /**
   In every state of every run without removals, a port is claimed exactly when
   it has a holder, and then it has only one.
   */
  lemma ExactlyOneHolder(ws: seq<World>, es: seq<Event>, k: nat, t: Tcp)
    requires Run(ws, es) && NoRemovals(es) && k < |ws|
    ensures Claimed(ws[k].st.subnets, t) <==> exists h: Holder :: Holding(ws[k], h) == Some(t)
    ensures forall h: Holder, g: Holder :: Holding(ws[k], h) == Some(t) == Holding(ws[k], g) ==> h == g
    ensures forall ip: Ip | Has(ws[k].st.subnets, ip) :: Distinct(ws[k].st.subnets[ip.subnet][ip.suffix])
  {
    InvHolds(ws, es, k);
  }

  /**
   `aliases.set` never overwrites in handleBind or handleConnect, even when
   several binds of one alias passed the `has` check before any of them claimed.
   */
  lemma SetNeverOverwrites(ws: seq<World>, es: seq<Event>, k: nat)
    requires Run(ws, es) && NoRemovals(es) && k < |es| && es[k].Proceed?
    requires var task := ws[k].tasks[es[k].tid]; task.BindClaimed? || task.ConnectCreated?
    ensures forall a | a in ws[k].st.aliases ::
      a in ws[k + 1].st.aliases && ws[k + 1].st.aliases[a] == ws[k].st.aliases[a]
  {
    hide ReadTcp, Inv, Deliver;
    InvHolds(ws, es, k);
    var tid := es[k].tid;
    if ws[k].tasks[tid].BindClaimed? {
      BindPublishes(ws[k], tid);
    } else {
      ConnectPublishes(ws[k], tid);
    }
  }

  /**
   A refused connect gives back the port it was given and nobody else's, whatever
   ran in between, and touches no alias.
   */
  lemma RefusalReleasesItsOwn(ws: seq<World>, es: seq<Event>, k: nat)
    requires Run(ws, es) && NoRemovals(es) && k < |es| && es[k].Proceed?
    requires ws[k].tasks[es[k].tid].ConnectRefused?
    ensures ws[k + 1].st.aliases == ws[k].st.aliases
    ensures exists t: Tcp ::
      && Holding(ws[k], InFlight(es[k].tid)) == Some(t) && Claimed(ws[k].st.subnets, t)
      && (forall h: Holder :: Holding(ws[k], h) == Some(t) ==> h == InFlight(es[k].tid))
      && (forall u: Tcp :: Claimed(ws[k + 1].st.subnets, u) <==> Claimed(ws[k].st.subnets, u) && u != t)
  {
    hide ReadTcp, Tidy, RemoveTCP;
    InvHolds(ws, es, k);
    var clientAlias := ws[k].tasks[es[k].tid].clientAlias;
    RemoveTCPEffect(ws[k].st.subnets, clientAlias);
    assert Holding(ws[k], InFlight(es[k].tid)) == Some(ReadTcp(clientAlias).value);
  }
}
