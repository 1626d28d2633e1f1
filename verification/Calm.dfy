/**
 Runs in which nothing is removed: no shutdown and no closed connection, binds of any
 alias included. Then what was registered stays registered, ids are never reused,
 and racing clients are told apart.
 */
module Calm {
  import opened Address
  import opened Allocator
  import opened Server
  import opened Interleaving
  import opened Addresses
  import opened Client
  import opened Network
  import opened Promises
  import Own = Ownership

  /** Nobody shuts an alias down and nobody leaves. */
  predicate Undisturbed(es: seq<NetEvent>) { forall e | e in es :: !e.CallShutdown? && !e.Hangup? }

  predicate IssuedOnce(ids: map<nat, string>) {
    forall c, d | c in ids && d in ids && c != d && ids[c] == ids[d] :: ids[c] == REJECTED
  }

  ghost predicate ProperIds(n: Net) {
    forall c | c in n.ids && n.ids[c] != REJECTED :: Ids.Proper(n.world.st.subnets, n.ids[c])
  }

  predicate NoShutdowns(n: Net) { forall c, j | c in n.inbox && 0 <= j < |n.inbox[c]| :: !n.inbox[c][j].Shutdown? }

  ghost predicate CalmInv(n: Net) {
    && Own.Inv(n.world) && Ids.Inv(n.world)
    && IssuedOnce(n.ids) && ProperIds(n) && NoShutdowns(n)
    && n.refusals == {} && n.ever == Pairs(n.world.st.aliases)
  }

  // ----------------------------------------------------- one server step

  lemma ResumeAliases(st: State, task: Task)
    requires Runnable(st, task) && Ids.Calm(task)
    requires task.BindClaimed? ==> task.alias !in st.aliases
    requires task.ConnectCreated? && Accepts(st, task.call) ==> task.clientAlias !in st.aliases
    ensures forall a | a in st.aliases ::
      a in Resume(st, task).st.aliases && Resume(st, task).st.aliases[a] == st.aliases[a]
  {
    hide CreateIP, CreateTCP, ClaimTCP, RemoveTCP, RemoveIP, Deliver, Claimable;
  }

  lemma ProceedAliases(w: World, tid: nat)
    requires Own.Inv(w) && Ids.Inv(w) && Enabled(w, Proceed(tid))
    ensures var after := Next(w, Proceed(tid)).st.aliases;
      forall a | a in w.st.aliases :: a in after && after[a] == w.st.aliases[a]
  {
    hide Own.Inv, Resume, Ids.IdsOk, Tidy, Ids.Calm;
    var task := w.tasks[tid];
    if task.BindClaimed? {
      Own.BindPublishes(w, tid);
    } else if task.ConnectCreated? {
      Own.ConnectPublishes(w, tid);
    }
    ResumeAliases(w.st, task);
  }

  lemma StartAliases(st: State, conn: nat, request: Request)
    requires !request.Shutdown?
    ensures var after := Start(st, conn, request).st.aliases;
      forall a | a in st.aliases :: a in after && after[a].id == st.aliases[a].id
  {}

  lemma AliasesStay(w: World, e: Event)
    requires Own.Inv(w) && Ids.Inv(w) && Enabled(w, e) && !IsShutdown(e) && !e.Close?
    ensures var after := Next(w, e).st.aliases;
      forall a | a in w.st.aliases :: a in after && after[a].id == w.st.aliases[a].id
  {
    hide Own.Inv, Ids.Inv, Resume, Start;
    if e.Proceed? { ProceedAliases(w, e.tid); } else { StartAliases(w.st, e.conn, e.request); }
  }

  lemma WorldStep(w: World, e: Event)
    requires Own.Inv(w) && Ids.Inv(w) && Enabled(w, e) && !IsShutdown(e) && !e.Close?
    ensures Own.Inv(Next(w, e)) && Ids.Inv(Next(w, e)) && Ids.MembersGrow(w.st.subnets, Next(w, e).st.subnets)
  {
    hide Own.Inv, Ids.IdsOk, Tidy, Resume, Start, Ids.MembersGrow;
    Ids.StepKeeps(w, e);
    if e.Receive? {
      Own.ReceiveKeeps(w, e);
      StartSubnets(w.st, e.conn, e.request);
      Ids.SameMembersGrow(w.st.subnets);
    } else {
      Own.ProceedKeeps(w, e.tid);
      Ids.ResumeMembers(w.st, w.tasks[e.tid]);
    }
  }

  lemma StartSubnets(st: State, conn: nat, request: Request)
    ensures Start(st, conn, request).st.subnets == st.subnets
  {}

  lemma PairsGrow(before: map<string, MAlias>, after: map<string, MAlias>)
    requires forall a | a in before :: a in after && after[a].id == before[a].id
    ensures Pairs(before) + Pairs(after) == Pairs(after)
  {
    forall x | x in Pairs(before) ensures x in Pairs(after) { HasPair(after, x.0); }
  }

  /** A newly issued id differs from every id issued before. */
  lemma NewIdDiffers(n: Net, tid: nat)
    requires CalmInv(n) && CanHappen(n, Work(tid)) && n.world.tasks[tid].KnockReceived?
    ensures var id := CreateIP(n.world.st.subnets, n.world.tasks[tid].subnet).1;
      id != REJECTED ==>
        Ids.Proper(Then(n, Work(tid)).world.st.subnets, id) && forall c | c in n.ids :: n.ids[c] != id
  {
    hide Own.Inv, Ids.IdsOk, IssuedOnce, NoShutdowns, Pairs, CreateIP, PrintIp, ReadIp;
    var st, task := n.world.st, n.world.tasks[tid];
    CreateIPEffect(st.subnets, task.subnet);
    Ids.ResumeIssues(st, task);
    hide Tidy, Orderly;
  }

  lemma IssuedOnceMore(ids: map<nat, string>, conn: nat, id: string)
    requires IssuedOnce(ids) && conn !in ids && (id != REJECTED ==> forall c | c in ids :: ids[c] != id)
    ensures IssuedOnce(ids[conn := id])
  {}

  lemma ProperStays(n: Net, n': Net)
    requires ProperIds(n) && Ids.MembersGrow(n.world.st.subnets, n'.world.st.subnets)
    requires forall c | c in n'.ids && c !in n.ids && n'.ids[c] != REJECTED ::
      Ids.Proper(n'.world.st.subnets, n'.ids[c])
    requires forall c | c in n.ids :: c in n'.ids && n'.ids[c] == n.ids[c]
    ensures ProperIds(n')
  {
    hide ReadIp, PrintIp, Has;
    forall c | c in n'.ids && n'.ids[c] != REJECTED ensures Ids.Proper(n'.world.st.subnets, n'.ids[c]) {
      if c in n.ids {
        assert Ids.Proper(n.world.st.subnets, n.ids[c]);
        Ids.ProperGrows(n.world.st.subnets, n'.world.st.subnets, n.ids[c]);
      }
    }
  }

  lemma CalmServer(n: Net, e: NetEvent)
    requires Inv(n) && CalmInv(n) && CanHappen(n, e) && (e.Serve? || e.Work?)
    ensures CalmInv(Then(n, e))
  {
    hide Own.Inv, Ids.Inv, IdsInv, OnePlace, MailInv, Next, Pairs, IssuedOnce, ProperIds, Ids.MembersGrow,
         RequestFact, CreateIP;
    var n', event := Then(n, e), ServerEvent(n, e);
    assert !IsShutdown(event) by { if e.Serve? { assert !n.inbox[e.conn][0].Shutdown?; } }
    WorldStep(n.world, event);
    AliasesStay(n.world, event);
    PairsGrow(n.world.st.aliases, n'.world.st.aliases);
    if e.Work? && n.world.tasks[e.tid].KnockReceived? {
      var task := n.world.tasks[e.tid];
      assert TaskFact(n, task);
      NewIdDiffers(n, e.tid);
      IssuedOnceMore(n.ids, task.conn, CreateIP(n.world.st.subnets, task.subnet).1);
    }
    ProperStays(n, n');
  }

  lemma CalmStep(n: Net, e: NetEvent)
    requires Inv(n) && CalmInv(n) && CanHappen(n, e) && !e.CallShutdown? && !e.Hangup?
    ensures CalmInv(Then(n, e))
  {
    hide CalmInv, Inv, NoShutdowns, Serving, HandleMessage, Asking, Mailbox;
    var n' := Then(n, e);
    if e.Serve? || e.Work? {
      CalmServer(n, e);
    } else {
      if e.Open? {
        assert [] + [Knock(e.subnet)] == [Knock(e.subnet)];
        LineGrows(n, n', e.conn, [], Knock(e.subnet));
      }
      if IsCall(e) {
        assert !RequestOf(n.users[e.conn], e).Shutdown?;
        LineGrows(n, n', e.conn, Inbox(n, e.conn), RequestOf(n.users[e.conn], e));
      }
      QuietCalm(n, n');
    }
  }

  lemma LineGrows(n: Net, n': Net, conn: nat, line: seq<Request>, request: Request)
    requires CalmInv(n) && (line == [] || line == Inbox(n, conn)) && !request.Shutdown?
    requires n'.inbox == n.inbox[conn := line + [request]]
    ensures NoShutdowns(n')
  {
    hide Own.Inv, Ids.Inv, ProperIds, IssuedOnce, Pairs;
  }

  lemma QuietCalm(n: Net, n': Net)
    requires CalmInv(n) && n'.world == n.world && n'.ids == n.ids && n'.ever == n.ever && n'.refusals == n.refusals
    requires n'.inbox == n.inbox || NoShutdowns(n')
    ensures CalmInv(n')
  {
    hide Own.Inv, Ids.Inv, IssuedOnce, Ids.Proper, Pairs;
  }

  // ---------------------------------------------------------- the grants

  /** A granted alias belongs to the caller, and no two calls are granted the same one. */
  ghost predicate GrantsInv(n: Net) {
    && (forall cid | cid in n.verdicts && n.verdicts[cid].Granted? ::
          cid in n.calls && Had(n, n.verdicts[cid].alias, n.calls[cid].call.id))
    && (forall c, d | c in n.verdicts && d in n.verdicts && c != d && n.verdicts[c].Granted? ::
          n.verdicts[c] != n.verdicts[d])
  }

  lemma GrantsSame(n: Net, n': Net)
    requires GrantsInv(n) && Grows(n, n')
    requires forall cid | cid in n'.verdicts && n'.verdicts[cid].Granted? ::
      cid in n.verdicts && n.verdicts[cid] == n'.verdicts[cid]
    ensures GrantsInv(n')
  {
    hide Mailbox, CallsStay;
  }

  lemma GrantsPlus(n: Net, n': Net, cid: string, alias: string)
    requires GrantsInv(n) && Grows(n, n') && cid !in n.verdicts && alias !in n.world.st.aliases
    requires n.ever == Pairs(n.world.st.aliases)
    requires n'.verdicts == n.verdicts[cid := Granted(alias)]
    requires cid in n'.calls && Had(n', alias, n'.calls[cid].call.id)
    ensures GrantsInv(n')
  {
    hide Mailbox, CallsStay;
  }

  lemma GrantsStep(n: Net, e: NetEvent)
    requires Inv(n) && CalmInv(n) && GrantsInv(n) && CanHappen(n, e) && !e.CallShutdown? && !e.Hangup?
    ensures GrantsInv(Then(n, e))
  {
    hide IdsInv, OnePlace, MailInv, Ids.Inv, Mailbox, ReadIp, Own.Inv, Next, Resume, RequestFact, Pairs, GrantsInv,
         HandleMessage, Asking, RequestOf;
    var n' := Then(n, e);
    ThenKeeps(n, e);
    if e.Work? && n.world.tasks[e.tid].ConnectCreated? && Accepts(n.world.st, n.world.tasks[e.tid].call) {
      var task := n.world.tasks[e.tid];
      assert TaskFact(n, task);
      Own.ConnectPublishes(n.world, e.tid);
      WorkWorks(n, e.tid);
      ClaimedSays(n, n', e.tid);
      hide Grows, TasksInv;
      GrantsPlus(n, n', task.call.clientConnectionId, task.clientAlias);
    } else {
      hide Grows, TasksInv;
      GrantsSame(n, n');
    }
  }

  lemma {:induction false} CalmAlways(ns: seq<Net>, es: seq<NetEvent>, k: nat)
    requires NetRun(ns, es) && Undisturbed(es) && k < |ns|
    ensures CalmInv(ns[k]) && GrantsInv(ns[k])
  {
    hide Everything, CalmInv, GrantsInv, Then, CanHappen, Inv;
    if k == 0 {
      BeginCalm();
    } else {
      CalmAlways(ns, es, k - 1);
      Always(ns, es, k - 1);
      NowEverything(ns[k - 1]);
      assert es[k - 1] in es;
      CalmStep(ns[k - 1], es[k - 1]);
      GrantsStep(ns[k - 1], es[k - 1]);
    }
  }

  lemma BeginCalm()
    ensures CalmInv(BEGIN) && GrantsInv(BEGIN)
  {}

  // ---------------------------------------------------------- who wins

  /** In a calm run, what was registered is registered. */
  lemma StillOwned(n: Net, alias: string, id: string)
    requires CalmInv(n) && Had(n, alias, id)
    ensures alias in n.world.st.aliases && n.world.st.aliases[alias].id == id
  {
    hide Own.Inv, Ids.Inv;
  }

  /** A bind promise that is resolved tells who owns the alias now, on which connection. */
  lemma ResolvedOwns(ns: seq<Net>, es: seq<NetEvent>, k: nat, conn: nat, call: nat)
    requires NetRun(ns, es) && Undisturbed(es) && k < |ns|
    requires conn in ns[k].users && call in ns[k].users[conn].binds && ns[k].users[conn].binds[call].promise.Resolved?
    ensures var n, b := ns[k], ns[k].users[conn].binds[call];
      && Member(n, Peer(b.id, conn))
      && b.alias in n.world.st.aliases && n.world.st.aliases[b.alias].id == b.id
  {
    hide Then, CanHappen, Inv, RepliesInv, Own.Inv, Ids.Inv, CalmInv, GrantsInv;
    var n, b := ns[k], ns[k].users[conn].binds[call];
    forall i | 0 <= i < k ensures !Crosses(ns[i], es[i], conn, call) { NoCrossing(ns, es, i, conn, call); }
    ResolvedBind(ns, es, k, conn, call);
    Always(ns, es, k);
    CalmAlways(ns, es, k);
    assert UserFact(n, conn, n.users[conn]) && BindFact(n, conn, b);
    StillOwned(n, b.alias, b.id);
  }

  lemma NoCrossing(ns: seq<Net>, es: seq<NetEvent>, i: nat, conn: nat, call: nat)
    requires NetRun(ns, es) && Undisturbed(es) && i < |es|
    ensures !Crosses(ns[i], es[i], conn, call)
  {
    CalmAlways(ns, es, i);
    hide Own.Inv, Ids.Inv, GrantsInv;
  }

  /**
   Of any number of clients racing to bind one alias, on whatever address it is, at most
   one sees its promise resolve.
   */
  lemma OneBinderWins(ns: seq<Net>, es: seq<NetEvent>, k: nat, c: nat, i: nat, d: nat, j: nat)
    requires NetRun(ns, es) && Undisturbed(es) && k < |ns|
    requires c in ns[k].users && i in ns[k].users[c].binds && ns[k].users[c].binds[i].promise.Resolved?
    requires d in ns[k].users && j in ns[k].users[d].binds && ns[k].users[d].binds[j].promise.Resolved?
    requires ns[k].users[c].binds[i].alias == ns[k].users[d].binds[j].alias
    ensures c == d
  {
    hide NetRun, Own.Inv, Ids.Inv, GrantsInv;
    ResolvedOwns(ns, es, k, c, i);
    ResolvedOwns(ns, es, k, d, j);
    CalmAlways(ns, es, k);
  }

  /** No cross-talk: two connect calls, of one client or of two, never resolve with the same alias. */
  lemma ConnectsDiffer(ns: seq<Net>, es: seq<NetEvent>, k: nat, c: nat, cid: string, d: nat, did: string)
    requires NetRun(ns, es) && Undisturbed(es) && k < |ns| && cid != did
    requires c in ns[k].users && cid in ns[k].users[c].connects && ns[k].users[c].connects[cid].promise.Resolved?
    requires d in ns[k].users && did in ns[k].users[d].connects && ns[k].users[d].connects[did].promise.Resolved?
    ensures ns[k].users[c].connects[cid].promise.value != ns[k].users[d].connects[did].promise.value
  {
    hide ProcessedBy, Tagged, CalmInv, Everything;
    Always(ns, es, k);
    ConnectNow(ns[k], c, cid);
    ConnectNow(ns[k], d, did);
    CalmAlways(ns, es, k);
    hide NetRun;
  }
}
