/** Putting runs of the whole system together from the empty one, and the runs that show a situation can arise. */
module Runs {
  import opened Wrappers
  import opened Address
  import opened Allocator
  import opened Server
  import opened Interleaving
  import opened Sending
  import opened Client
  import opened Network
  import opened Calm

  // ------------------------------------------------------------ composing runs

  ghost predicate Leads(n: Net, es: seq<NetEvent>, n': Net)
    decreases |es|
  {
    if es == [] then n == n' else CanHappen(n, es[0]) && Leads(Then(n, es[0]), es[1..], n')
  }

  lemma LeadsOne(n: Net, e: NetEvent)
    requires CanHappen(n, e)
    ensures Leads(n, [e], Then(n, e))
  {
    hide Then, CanHappen;
    assert [e][1..] == [];
  }

  lemma {:induction false} LeadsTwice(n: Net, a: seq<NetEvent>, n1: Net, b: seq<NetEvent>, n2: Net)
    requires Leads(n, a, n1) && Leads(n1, b, n2)
    ensures Leads(n, a + b, n2)
    decreases |a|
  {
    hide Then, CanHappen;
    if a == [] {
      assert a + b == b;
    } else {
      LeadsTwice(Then(n, a[0]), a[1..], n1, b, n2);
      assert (a + b)[1..] == a[1..] + b;
    }
  }

  lemma AndThen(n: Net, es: seq<NetEvent>, n1: Net, e: NetEvent)
    requires Leads(n, es, n1) && CanHappen(n1, e)
    ensures Leads(n, es + [e], Then(n1, e))
  {
    hide Then, CanHappen;
    LeadsOne(n1, e);
    LeadsTwice(n, es, n1, [e], Then(n1, e));
  }

  /** The states of a run. */
  lemma {:induction false} States(n: Net, es: seq<NetEvent>, n': Net) returns (ns: seq<Net>)
    requires Leads(n, es, n')
    ensures |ns| == |es| + 1 && ns[0] == n && ns[|es|] == n'
    ensures forall k | 0 <= k < |es| :: CanHappen(ns[k], es[k]) && ns[k + 1] == Then(ns[k], es[k])
    decreases |es|
  {
    hide Then, CanHappen;
    if es == [] {
      ns := [n];
    } else {
      var rest := States(Then(n, es[0]), es[1..], n');
      ns := [n] + rest;
      forall k | 0 <= k < |es| ensures CanHappen(ns[k], es[k]) && ns[k + 1] == Then(ns[k], es[k]) {
        if k > 0 {
          assert es[1..][k - 1] == es[k] && rest[k - 1] == ns[k] && rest[k] == ns[k + 1];
        }
      }
    }
  }

  // ------------------------------------------------------------ single steps

  /** What a resumed handler leaves alone, and what it changes. */
  lemma WorkStep(n: Net, tid: nat)
    requires tid in n.world.tasks && Runnable(n.world.st, n.world.tasks[tid])
    ensures CanHappen(n, Work(tid))
    ensures var n', step := Then(n, Work(tid)), Resume(n.world.st, n.world.tasks[tid]);
      && n'.world.st == step.st
      && n'.world.tasks == (if step.next.Some? then n.world.tasks[tid := step.next.value] else n.world.tasks - {tid})
      && n'.users == n.users && n'.inbox == n.inbox && n'.cursors == n.cursors && n'.closed == n.closed
      && n'.calls == n.calls
  {
    hide Resume, IssuedBy, DecidedBy, Pairs;
  }

  lemma ServeStep(n: Net, conn: nat, tid: nat)
    requires conn !in n.closed && Inbox(n, conn) != [] && tid !in n.world.tasks
    requires Inbox(n, conn)[0].Knock? ==> WellFormedSubnet(Inbox(n, conn)[0].subnet)
    ensures CanHappen(n, Serve(conn, tid))
    ensures var n', step := Then(n, Serve(conn, tid)), Start(n.world.st, conn, Inbox(n, conn)[0]);
      && n'.world.st == step.st
      && n'.world.tasks == (if step.next.Some? then n.world.tasks[tid := step.next.value] else n.world.tasks)
      && n'.users == n.users && n'.inbox == n.inbox[conn := Inbox(n, conn)[1..]]
      && n'.cursors == n.cursors && n'.closed == n.closed && n'.calls == n.calls
  {
    hide Start, RefusalOf, Pairs, WellFormedSubnet;
  }

  lemma ReadStep(n: Net, p: Peer)
    requires p.conn in n.users && p.conn !in n.closed && ReadCount(n, p) < |Mailbox(n, p)|
    ensures CanHappen(n, Read(p))
    ensures var n' := Then(n, Read(p));
      && n'.world == n.world && n'.inbox == n.inbox && n'.closed == n.closed && n'.calls == n.calls
      && n'.users == n.users[p.conn := HandleMessage(n.users[p.conn], Mailbox(n, p)[ReadCount(n, p)])]
      && n'.cursors == n.cursors[p := ReadCount(n, p) + 1]
  {
    hide HandleMessage, Box;
  }

  lemma CallStep(n: Net, e: NetEvent)
    requires IsCall(e) && CanCall(n, e)
    ensures CanHappen(n, e)
    ensures var n', u := Then(n, e), n.users[e.conn];
      && n'.world == n.world && n'.closed == n.closed && n'.cursors == n.cursors
      && n'.users == n.users[e.conn := Asking(u, e)]
      && n'.inbox == n.inbox[e.conn := Inbox(n, e.conn) + [RequestOf(u, e)]]
      && (e.CallConnect? ==> n'.calls == n.calls[e.cid := Asked(e.conn, Call(u.id, e.remoteAlias, e.cid))])
      && (!e.CallConnect? ==> n'.calls == n.calls)
  {
    hide Asking, RequestOf;
  }

  // -------------------------------------------------------------- an arrival

  /** The first suffix of a subnet nobody knocked on yet. */
  lemma FirstAddress(subnets: Subnets, subnet: string)
    requires WellFormedSubnet(subnet) && subnet !in subnets
    ensures CreateIP(subnets, subnet) == (subnets[subnet := map[0 := []]], PrintIp(Ip(subnet, 0)))
    ensures PrintIp(Ip(subnet, 0)) != REJECTED && ReadIp(PrintIp(Ip(subnet, 0))) == Some(Ip(subnet, 0))
  {
    var none: set<nat> := {};
    assert LowestFree(none) == 0;
    RejectedIsNoAddress(subnet, 0);
    IpRoundTrip(Ip(subnet, 0));
    hide LowestFree;
    var members: Members := map[];
    assert subnets[subnet := members][subnet := map[0 := []]] == subnets[subnet := map[0 := []]];
  }

  /** Nobody waits for anything, and this connection is unused. */
  predicate Quiet(n: Net) { n.world.tasks == map[] && n.closed == {} }

  predicate Unused(n: Net, p: Peer) { p.conn !in n.users && ReadCount(n, p) == 0 && Mailbox(n, p) == [] }

  function Arrival(c: nat, subnet: string): seq<NetEvent> {
    [Open(c, subnet), Serve(c, 0), Work(0), Work(0), Work(0), Read(Peer(PrintIp(Ip(subnet, 0)), c))]
  }

  /** Who was registered before is greeted, and who is not registered gets nothing. */
  ghost predicate OthersGreeted(n: Net, c: nat, id: string, n': Net) {
    forall q: Peer | q.conn != c ::
      && ReadCount(n', q) == ReadCount(n, q)
      && (q.id !in n.world.st.clients ==> Mailbox(n', q) == Mailbox(n, q))
      && (q in Peers(n.world.st.clients) && q.id != id ==> Mailbox(n', q) == Mailbox(n, q) + [Greeting(q.id, id)])
  }

  /** An accepted knock greets the others; before and after it nobody else is sent anything. */
  lemma AreGreeted(n: Net, c: nat, subnet: string, id: string, n2: Net, n3: Net, n': Net)
    requires n2.world.st == n.world.st && n2.cursors == n.cursors && Knocked(n2, c, subnet, id, n3)
    requires n'.world == n3.world && n'.cursors == n3.cursors[Peer(id, c) := 1]
    ensures OthersGreeted(n, c, id, n')
  {
    hide Box, Peers;
  }

  /** A client knocks on a new subnet and gets its first address. */
  lemma Arrives(n: Net, c: nat, subnet: string) returns (n': Net)
    requires Quiet(n) && WellFormedSubnet(subnet) && subnet !in n.world.st.subnets
    requires Unused(n, Peer(PrintIp(Ip(subnet, 0)), c))
    ensures var id := PrintIp(Ip(subnet, 0));
      && Leads(n, Arrival(c, subnet), n') && Quiet(n')
      && n'.world.st.clients == n.world.st.clients[id := c] && n'.world.st.aliases == n.world.st.aliases
      && n'.world.st.subnets == n.world.st.subnets[subnet := map[0 := []]]
      && n'.users == n.users[c := FRESH.(id := id, isConnected := true)]
      && n'.inbox == n.inbox[c := []] && n'.calls == n.calls
      && ReadCount(n', Peer(id, c)) == 1 && |Mailbox(n', Peer(id, c))| == 1
    ensures OthersGreeted(n, c, PrintIp(Ip(subnet, 0)), n')
  {
    hide CreateIP, HandleMessage, Leads, PrintIp, CanHappen, Then, Box, WellFormedSubnet, OthersGreeted, Arrival;
    var id := PrintIp(Ip(subnet, 0));
    var p := Peer(id, c);
    FirstAddress(n.world.st.subnets, subnet);
    var n2 := KnockServed(n, c, subnet);
    var n3 := Knocks(n2, c, subnet, id);
    ReadStep(n3, p);
    AckHeard(id);
    n' := Then(n3, Read(p));
    AreGreeted(n, c, subnet, id, n2, n3, n');
    assert n'.users == n.users[c := FRESH.(id := id, isConnected := true)];
    ArrivalLeads(n, c, subnet, n2, n3);
  }

  lemma ArrivalLeads(n: Net, c: nat, subnet: string, n2: Net, n3: Net)
    requires Leads(n, [Open(c, subnet)] + [Serve(c, 0)], n2)
    requires Leads(n2, [Work(0), Work(0), Work(0)], n3) && CanHappen(n3, Read(Peer(PrintIp(Ip(subnet, 0)), c)))
    ensures Leads(n, Arrival(c, subnet), Then(n3, Read(Peer(PrintIp(Ip(subnet, 0)), c))))
  {
    hide Leads, CanHappen, Then, PrintIp;
    var read := Read(Peer(PrintIp(Ip(subnet, 0)), c));
    LeadsTwice(n, [Open(c, subnet)] + [Serve(c, 0)], n2, [Work(0), Work(0), Work(0)], n3);
    AndThen(n, [Open(c, subnet)] + [Serve(c, 0)] + [Work(0), Work(0), Work(0)], n3, read);
    assert [Open(c, subnet)] + [Serve(c, 0)] + [Work(0), Work(0), Work(0)] + [read] == Arrival(c, subnet);
  }

  /** A connection opens and its knock is received. */
  lemma KnockServed(n: Net, c: nat, subnet: string) returns (n2: Net)
    requires Quiet(n) && WellFormedSubnet(subnet) && c !in n.users
    ensures Leads(n, [Open(c, subnet)] + [Serve(c, 0)], n2) && n2.world.tasks == map[0 := KnockReceived(c, subnet)]
    ensures n2.world.st == n.world.st && n2.users == n.users[c := FRESH] && n2.inbox == n.inbox[c := []]
    ensures n2.cursors == n.cursors && n2.closed == n.closed && n2.calls == n.calls
  {
    hide Leads, CanHappen, Then, Start, Box, WellFormedSubnet;
    var n1 := Opens(n, c, subnet);
    ServeStep(n1, c, 0);
    KnockStarts(n1.world.st, c, subnet);
    n2 := Then(n1, Serve(c, 0));
    var line := Inbox(n1, c);
    assert line == [Knock(subnet)] && line[1..] == [];
    AndThen(n, [Open(c, subnet)], n1, Serve(c, 0));
  }

  lemma KnockStarts(st: State, c: nat, subnet: string)
    ensures Start(st, c, Knock(subnet)) == Suspend(st, KnockReceived(c, subnet))
  {}

  lemma Opens(n: Net, c: nat, subnet: string) returns (n1: Net)
    requires WellFormedSubnet(subnet) && c !in n.users
    ensures CanHappen(n, Open(c, subnet)) && n1 == Then(n, Open(c, subnet)) && Leads(n, [Open(c, subnet)], n1)
    ensures n1 == n.(users := n.users[c := FRESH], inbox := n.inbox[c := [Knock(subnet)]])
  {
    hide WellFormedSubnet;
    n1 := Then(n, Open(c, subnet));
    LeadsOne(n, Open(c, subnet));
  }

  lemma AckHeard(id: string)
    ensures HandleMessage(FRESH, Acknowledgement(id, false)) == FRESH.(id := id, isConnected := true)
  {}

  /** What an accepted knock changes, and what it leaves alone. */
  ghost predicate Knocked(n: Net, c: nat, subnet: string, id: string, n': Net) {
    && n'.world.tasks == map[] && n'.world.st.clients == n.world.st.clients[id := c]
    && n'.world.st.aliases == n.world.st.aliases
    && n'.world.st.subnets == n.world.st.subnets[subnet := map[0 := []]]
    && n'.users == n.users && n'.inbox == n.inbox && n'.cursors == n.cursors && n'.closed == n.closed
    && n'.calls == n.calls
    && Mailbox(n', Peer(id, c)) == [Acknowledgement(id, false)]
    && (forall q: Peer | q.conn != c && q.id !in n.world.st.clients :: Mailbox(n', q) == Mailbox(n, q))
    && (forall q: Peer | q.conn != c && q in Peers(n.world.st.clients) && q.id != id ::
          Mailbox(n', q) == Mailbox(n, q) + [Greeting(q.id, id)])
  }

  /** The three segments of an accepted knock. */
  lemma Knocks(n: Net, c: nat, subnet: string, id: string) returns (n': Net)
    requires n.world.tasks == map[0 := KnockReceived(c, subnet)] && id != REJECTED
    requires CreateIP(n.world.st.subnets, subnet) == (n.world.st.subnets[subnet := map[0 := []]], id)
    requires Mailbox(n, Peer(id, c)) == []
    ensures Leads(n, [Work(0), Work(0), Work(0)], n') && Knocked(n, c, subnet, id, n')
  {
    hide CreateIP, Leads, CanHappen, Then, Resume, Box, SentByResume, Peers;
    WorkStep(n, 0);
    IssueSegment(n.world.st, c, subnet);
    var n1 := Then(n, Work(0));
    LeadsOne(n, Work(0));
    WorkStep(n1, 0);
    AckSegment(n1.world.st, c, id);
    var n2 := Then(n1, Work(0));
    AndThen(n, [Work(0)], n1, Work(0));
    WorkStep(n2, 0);
    RegisterSegment(n2.world.st, c, id);
    n' := Then(n2, Work(0));
    AndThen(n, [Work(0)] + [Work(0)], n2, Work(0));
    assert [Work(0)] + [Work(0)] + [Work(0)] == [Work(0), Work(0), Work(0)];
    forall q: Peer
      ensures q == Peer(id, c) ==> Mailbox(n', q) == [Acknowledgement(id, false)]
      ensures q.conn != c && q.id !in n.world.st.clients ==> Mailbox(n', q) == Mailbox(n, q)
      ensures q.conn != c && q in Peers(n.world.st.clients) && q.id != id ==>
        Mailbox(n', q) == Mailbox(n, q) + [Greeting(q.id, id)]
    {
      ServerMail(n, Work(0), q);
      ServerMail(n1, Work(0), q);
      ServerMail(n2, Work(0), q);
      KnockSends(n.world.st, n1.world.st, n2.world.st, c, subnet, id, q);
    }
  }

  lemma IssueSegment(st: State, c: nat, subnet: string)
    ensures var step := Resume(st, KnockReceived(c, subnet));
      && step.next == Some(KnockCreated(c, CreateIP(st.subnets, subnet).1))
      && step.st == st.(subnets := CreateIP(st.subnets, subnet).0)
  {
    hide CreateIP;
  }

  lemma AckSegment(st: State, c: nat, id: string)
    requires id != REJECTED
    ensures var step := Resume(st, KnockCreated(c, id));
      && step.next == Some(KnockAcknowledged(c, id))
      && step.st.clients == st.clients && step.st.aliases == st.aliases && step.st.subnets == st.subnets
  {
    hide Deliver;
  }

  lemma RegisterSegment(st: State, c: nat, id: string)
    ensures var step := Resume(st, KnockAcknowledged(c, id));
      && step.next == None
      && step.st.clients == st.clients[id := c] && step.st.aliases == st.aliases && step.st.subnets == st.subnets
  {
    hide Deliver, Introductions;
  }

  lemma KnockSends(st: State, st1: State, st2: State, c: nat, subnet: string, id: string, q: Peer)
    requires st1.clients == st.clients && st2.clients == st.clients && id != REJECTED
    ensures SentByResume(st, KnockReceived(c, subnet), q) == []
    ensures SentByResume(st1, KnockCreated(c, id), q) == if q == Peer(id, c) then [Acknowledgement(id, false)] else []
    ensures q.id !in st.clients || q.id == id ==> SentByResume(st2, KnockAcknowledged(c, id), q) == []
    ensures q in Peers(st.clients) && q.id != id ==>
      SentByResume(st2, KnockAcknowledged(c, id), q) == [Greeting(q.id, id)]
  {}

  // ---------------------------------------------------------- racing binders

  /** A bind call reaches the server while nobody has the alias. */
  lemma BindReaches(n: Net, c: nat, call: nat, tid: nat, alias: string) returns (n': Net)
    requires c in n.users && n.users[c].isConnected && c !in n.closed && call !in n.users[c].binds
    requires Inbox(n, c) == [] && tid !in n.world.tasks && alias !in n.world.st.aliases
    ensures Leads(n, [CallBind(c, call, alias), Serve(c, tid)], n')
    ensures n'.world.st == n.world.st && n'.world.tasks == n.world.tasks[tid := BindChecked(n.users[c].id, alias)]
    ensures n'.users == n.users[c := AskBind(n.users[c], call, alias)] && n'.inbox == n.inbox[c := []]
    ensures n'.closed == n.closed && n'.cursors == n.cursors && n'.calls == n.calls
  {
    hide Leads, CanHappen, Then, Box, Start;
    var e := CallBind(c, call, alias);
    CallStep(n, e);
    var n1 := Then(n, e);
    LeadsOne(n, e);
    var line := Inbox(n1, c);
    assert line == [Bind(n.users[c].id, alias)] && line[1..] == [];
    ServeStep(n1, c, tid);
    BindStarts(n1.world.st, c, n.users[c].id, alias);
    n' := Then(n1, Serve(c, tid));
    AndThen(n, [e], n1, Serve(c, tid));
    assert [e] + [Serve(c, tid)] == [e, Serve(c, tid)];
  }

  lemma BindStarts(st: State, c: nat, id: string, alias: string)
    requires alias !in st.aliases
    ensures Start(st, c, Bind(id, alias)) == Suspend(st, BindChecked(id, alias))
  {}

  lemma ArrivalCalm(c: nat, subnet: string)
    ensures Undisturbed(Arrival(c, subnet))
  {}

  lemma NothingSent(p: Peer)
    ensures Unused(BEGIN, p) && Quiet(BEGIN)
  {}

  /** Two clients on different subnets, both acknowledged, and nothing else. */
  ghost predicate BothHere(n: Net, s: string, t: string, c: nat, d: nat) {
    && Quiet(n) && n.calls == map[]
    && n.users == map[c := FRESH.(id := PrintIp(Ip(s, 0)), isConnected := true),
                      d := FRESH.(id := PrintIp(Ip(t, 0)), isConnected := true)]
    && n.inbox == map[c := [], d := []] && n.world.st.aliases == map[]
    && n.world.st.clients == map[PrintIp(Ip(s, 0)) := c, PrintIp(Ip(t, 0)) := d]
    && n.world.st.subnets == map[s := map[0 := []], t := map[0 := []]]
  }

  lemma TwoArrive(s: string, t: string, c: nat, d: nat) returns (n: Net)
    requires WellFormedSubnet(s) && WellFormedSubnet(t) && s != t && c != d
    ensures Leads(BEGIN, Arrival(c, s) + Arrival(d, t), n) && BothHere(n, s, t, c, d)
  {
    hide Leads, CanHappen, Then, Box, WellFormedSubnet, PrintIp, Mailbox, ReadCount;
    var q := Peer(PrintIp(Ip(t, 0)), d);
    NothingSent(Peer(PrintIp(Ip(s, 0)), c));
    NothingSent(q);
    var n1 := Arrives(BEGIN, c, s);
    assert Unused(n1, q);
    n := Arrives(n1, d, t);
    LeadsTwice(BEGIN, Arrival(c, s), n1, Arrival(d, t), n);
  }

  /**
   The race arises: from the empty system, two clients on different addresses get to
   bind one alias at the same time, and both of their handlers have found it free.
   */
  lemma RacingBinders(s: string, t: string, c: nat, d: nat, alias: string) returns (ns: seq<Net>, es: seq<NetEvent>)
    requires WellFormedSubnet(s) && WellFormedSubnet(t) && s != t && c != d
    ensures NetRun(ns, es) && Undisturbed(es)
    ensures var n := ns[|es|];
      && c in n.users && 0 in n.users[c].binds && n.users[c].binds[0].promise.Pending?
      && n.users[c].binds[0].alias == alias
      && d in n.users && 0 in n.users[d].binds && n.users[d].binds[0].promise.Pending?
      && n.users[d].binds[0].alias == alias
      && n.world.tasks == map[0 := BindChecked(n.users[c].id, alias), 1 := BindChecked(n.users[d].id, alias)]
      && n.users[c].id != n.users[d].id
  {
    hide Leads, CanHappen, Then, Box, WellFormedSubnet, PrintIp, Arrival;
    ArrivalCalm(c, s);
    ArrivalCalm(d, t);
    var n2 := TwoArrive(s, t, c, d);
    var n3 := BindReaches(n2, c, 0, 0, alias);
    LeadsTwice(BEGIN, Arrival(c, s) + Arrival(d, t), n2, [CallBind(c, 0, alias), Serve(c, 0)], n3);
    var n4 := BindReaches(n3, d, 0, 1, alias);
    es := Arrival(c, s) + Arrival(d, t) + [CallBind(c, 0, alias), Serve(c, 0)] + [CallBind(d, 0, alias), Serve(d, 1)];
    LeadsTwice(BEGIN, Arrival(c, s) + Arrival(d, t) + [CallBind(c, 0, alias), Serve(c, 0)], n3,
               [CallBind(d, 0, alias), Serve(d, 1)], n4);
    ns := States(BEGIN, es, n4);
    DifferentIds(s, t);
  }

  lemma DifferentIds(s: string, t: string)
    requires WellFormedSubnet(s) && WellFormedSubnet(t) && s != t
    ensures PrintIp(Ip(s, 0)) != PrintIp(Ip(t, 0))
  {
    IpRoundTrip(Ip(s, 0));
    IpRoundTrip(Ip(t, 0));
  }

  // ---------------------------------------------------------------- hosting

  /** The alias a host binds: port 1 of its address, so that port 0 stays free. */
  function HostAlias(subnet: string): string { PrintTcp(Tcp(Ip(subnet, 0), 1)) }

  function HostId(subnet: string): string { PrintIp(Ip(subnet, 0)) }

  /** The claim of the host's alias on an address without ports. */
  lemma HostClaims(subnets: Subnets, subnet: string)
    requires WellFormedSubnet(subnet) && subnet in subnets && subnets[subnet] == map[0 := []]
    ensures Claimable(subnets, HostAlias(subnet))
    ensures ClaimTCP(subnets, HostAlias(subnet)) == Ok(subnets[subnet := map[0 := [1]]])
    ensures ReadIp(HostAlias(subnet)) == ReadIp(HostId(subnet))
  {
    var t := Tcp(Ip(subnet, 0), 1);
    TcpRoundTrip(t);
    AliasReadAsIp(t);
    hide PrintTcp, PrintIp, ReadIp;
    ClaimsPort(subnets, HostAlias(subnet), t);
    assert SetPorts(subnets, Ip(subnet, 0), [1]) == subnets[subnet := map[0 := [1]]] by {
      var members: Members := map[0 := []];
      assert members[0 := [1]] == map[0 := [1]];
    }
  }

  lemma ClaimsPort(subnets: Subnets, alias: string, t: Tcp)
    requires ReadTcp(alias) == Some(t) && Has(subnets, t.ip) && subnets[t.ip.subnet][t.ip.suffix] == []
    ensures Claimable(subnets, alias) && ClaimTCP(subnets, alias) == Ok(SetPorts(subnets, t.ip, [t.port]))
  {
    assert [] + [t.port] == [t.port];
    hide SetPorts, Split, Join, ParseInt;
  }

  function Hosting(c: nat, subnet: string): seq<NetEvent> {
    [CallBind(c, 0, HostAlias(subnet)), Serve(c, 0), Work(0), Work(0), Read(Peer(HostId(subnet), c)),
     CallAccept(c, 0, HostAlias(subnet)), Serve(c, 0)]
  }

  /** A client that just arrived, and has read its mail. */
  predicate Settled(n: Net, c: nat, subnet: string) {
    && Quiet(n) && c in n.users && n.users[c] == FRESH.(id := HostId(subnet), isConnected := true)
    && Lookup(n.world.st.clients, HostId(subnet)) == Some(Peer(HostId(subnet), c))
    && c in n.inbox && n.inbox[c] == []
    && ReadCount(n, Peer(HostId(subnet), c)) == |Mailbox(n, Peer(HostId(subnet), c))|
    && n.world.st.aliases == map[] && subnet in n.world.st.subnets && n.world.st.subnets[subnet] == map[0 := []]
  }

  /** A settled client has bound its alias and read its mail; the others got nothing. */
  ghost predicate Bound(n: Net, c: nat, subnet: string, n': Net) {
    && Quiet(n') && n'.world.st.clients == n.world.st.clients
    && n'.world.st.subnets == n.world.st.subnets[subnet := map[0 := [1]]]
    && n'.users.Keys == n.users.Keys && n'.inbox == n.inbox && n'.calls == n.calls
    && c in n'.users && n'.users[c].id == HostId(subnet) && n'.users[c].isConnected
    && (var p := Peer(HostId(subnet), c); ReadCount(n', p) == |Mailbox(n', p)|)
    && (forall q: Peer | q.conn != c :: ReadCount(n', q) == ReadCount(n, q))
    && (forall q: Peer | q.id !in n.world.st.clients :: Mailbox(n', q) == Mailbox(n, q))
  }

  /** It binds its alias, hears of it, and waits for connections. */
  lemma Hosts(n: Net, c: nat, subnet: string) returns (n': Net)
    requires Settled(n, c, subnet) && WellFormedSubnet(subnet)
    ensures Leads(n, Hosting(c, subnet), n') && Bound(n, c, subnet, n')
    ensures n'.world.st.aliases == map[HostAlias(subnet) := MAlias(HostId(subnet), true)]
    ensures n'.users[c].accepts == map[0 := AcceptCall(HostAlias(subnet), Pending)]
  {
    hide Leads, CanHappen, Then, Box, HostAlias, HostId, WellFormedSubnet;
    var b, id := HostAlias(subnet), HostId(subnet);
    var n3 := HostBinds(n, c, subnet);
    n' := AsksToAccept(n3, c, id, b);
    LeadsTwice(n, [CallBind(c, 0, b), Serve(c, 0)] + [Work(0), Work(0), Read(Peer(id, c))], n3,
               [CallAccept(c, 0, b), Serve(c, 0)], n');
    assert [CallBind(c, 0, b), Serve(c, 0)] + [Work(0), Work(0), Read(Peer(id, c))] + [CallAccept(c, 0, b), Serve(c, 0)]
        == Hosting(c, subnet);
  }

  lemma HostBinds(n: Net, c: nat, subnet: string) returns (n': Net)
    requires Settled(n, c, subnet) && WellFormedSubnet(subnet)
    ensures var b, id := HostAlias(subnet), HostId(subnet);
      && Leads(n, [CallBind(c, 0, b), Serve(c, 0)] + [Work(0), Work(0), Read(Peer(id, c))], n')
      && n'.world.st.aliases == map[b := MAlias(id, false)]
    ensures Bound(n, c, subnet, n') && n'.users[c].accepts == map[]
  {
    hide Leads, CanHappen, Then, Box, HostAlias, HostId, WellFormedSubnet, HandleMessage, Claimable, ClaimTCP, Bound;
    var b, id := HostAlias(subnet), HostId(subnet);
    var n1 := BindReaches(n, c, 0, 0, b);
    HostClaims(n.world.st.subnets, subnet);
    n' := Registers(n1, c, subnet, id, b);
    AliasLeaves(n1.users[c], Alias(id, b, true, None, false));
    IsBound(n, c, subnet, n1, n');
    LeadsTwice(n, [CallBind(c, 0, b), Serve(c, 0)], n1, [Work(0), Work(0), Read(Peer(id, c))], n');
  }

  lemma IsBound(n: Net, c: nat, subnet: string, n1: Net, n': Net)
    requires Settled(n, c, subnet) && n1.world.st == n.world.st && n1.cursors == n.cursors && n1.calls == n.calls
    requires n1.users == n.users[c := AskBind(n.users[c], 0, HostAlias(subnet))] && n1.inbox == n.inbox[c := []]
    requires Registered(n1, c, subnet, HostId(subnet), HostAlias(subnet), n')
    requires n'.users[c].id == n1.users[c].id && n'.users[c].isConnected == n1.users[c].isConnected
    requires n'.users[c].accepts == n1.users[c].accepts
    ensures Bound(n, c, subnet, n') && n'.users[c].accepts == map[]
  {
    hide Box, HostAlias, HostId, HandleMessage;
    assert n'.inbox == n.inbox;
    assert n'.users.Keys == n.users.Keys;
  }

  /** What a client's own calls and an alias message have nothing to do with. */
  lemma AliasLeaves(u: User, m: Message)
    requires !m.Accept? && !m.Acknowledgement?
    ensures var u' := HandleMessage(u, m); u'.id == u.id && u'.isConnected == u.isConnected && u'.accepts == u.accepts
  {
    hide NotifyAlias, NotifyConnect, OnAlias;
  }

  lemma ClaimSegment(st: State, id: string, alias: string, subnets: Subnets)
    requires Claimable(st.subnets, alias) && ClaimTCP(st.subnets, alias) == Ok(subnets)
    ensures Resume(st, BindChecked(id, alias)) == Suspend(st.(subnets := subnets), BindClaimed(id, alias))
  {
    hide ClaimTCP, Claimable;
  }

  lemma PublishSegment(st: State, id: string, alias: string)
    ensures var step := Resume(st, BindClaimed(id, alias));
      && step.next == None && step.st.clients == st.clients && step.st.subnets == st.subnets
      && step.st.aliases == st.aliases[alias := MAlias(id, false)]
  {
    hide Deliver, ToAll;
  }

  lemma BindSends(st: State, st1: State, id: string, alias: string, q: Peer)
    ensures SentByResume(st, BindChecked(id, alias), q) == []
    ensures q.id !in st1.clients ==> SentByResume(st1, BindClaimed(id, alias), q) == []
    ensures Lookup(st1.clients, q.id) == Some(q) ==>
      SentByResume(st1, BindClaimed(id, alias), q) == [Alias(id, alias, true, None, false)]
  {}

  /** The alias is claimed, published and known to its owner; who is not registered got nothing. */
  ghost predicate Registered(n: Net, c: nat, subnet: string, id: string, b: string, n': Net) {
    && Quiet(n') && n'.world.st.clients == n.world.st.clients && n'.world.st.aliases == map[b := MAlias(id, false)]
    && n'.world.st.subnets == n.world.st.subnets[subnet := map[0 := [1]]]
    && c in n.users && n'.users == n.users[c := HandleMessage(n.users[c], Alias(id, b, true, None, false))]
    && n'.inbox == n.inbox && n'.calls == n.calls
    && ReadCount(n', Peer(id, c)) == |Mailbox(n', Peer(id, c))|
    && (forall q: Peer | q.conn != c :: ReadCount(n', q) == ReadCount(n, q))
    && (forall q: Peer | q.id !in n.world.st.clients :: Mailbox(n', q) == Mailbox(n, q))
  }

  /** The claim, the publication, and the client hearing of it. */
  lemma Registers(n: Net, c: nat, subnet: string, id: string, b: string) returns (n': Net)
    requires n.world.tasks == map[0 := BindChecked(id, b)] && n.closed == {} && n.world.st.aliases == map[]
    requires subnet in n.world.st.subnets && Claimable(n.world.st.subnets, b)
    requires ClaimTCP(n.world.st.subnets, b) == Ok(n.world.st.subnets[subnet := map[0 := [1]]])
    requires Lookup(n.world.st.clients, id) == Some(Peer(id, c)) && c in n.users
    requires ReadCount(n, Peer(id, c)) == |Mailbox(n, Peer(id, c))|
    ensures Leads(n, [Work(0), Work(0), Read(Peer(id, c))], n') && Registered(n, c, subnet, id, b, n')
  {
    hide Leads, CanHappen, Then, Box, HandleMessage, Resume, Claimable, ClaimTCP, SentByResume;
    var p := Peer(id, c);
    ClaimSegment(n.world.st, id, b, n.world.st.subnets[subnet := map[0 := [1]]]);
    assert Runnable(n.world.st, BindChecked(id, b));
    WorkStep(n, 0);
    var n1 := Then(n, Work(0));
    LeadsOne(n, Work(0));
    PublishSegment(n1.world.st, id, b);
    WorkStep(n1, 0);
    var n2 := Then(n1, Work(0));
    AndThen(n, [Work(0)], n1, Work(0));
    forall q: Peer
      ensures q == p ==> Mailbox(n2, q) == Mailbox(n, q) + [Alias(id, b, true, None, false)]
      ensures q.id !in n.world.st.clients ==> Mailbox(n2, q) == Mailbox(n, q)
    {
      ServerMail(n, Work(0), q);
      ServerMail(n1, Work(0), q);
      BindSends(n.world.st, n1.world.st, id, b, q);
    }
    ReadStep(n2, p);
    n' := Then(n2, Read(p));
    AndThen(n, [Work(0)] + [Work(0)], n2, Read(p));
    assert [Work(0)] + [Work(0)] + [Read(p)] == [Work(0), Work(0), Read(p)];
  }

  lemma AcceptingStarts(st: State, c: nat, id: string, b: string)
    requires b in st.aliases && st.aliases[b].id == id
    ensures Start(st, c, Accepting(id, b)) == Done(st.(aliases := st.aliases[b := MAlias(id, true)]))
  {}

  /** A client with an alias of its own asks for connections to it. */
  ghost predicate AsksAccept(n: Net, c: nat, id: string, b: string, n': Net)
    requires c in n.users
  {
    && Quiet(n') && n'.world.st == n.world.st.(aliases := map[b := MAlias(id, true)])
    && n'.users == n.users[c := AskAccept(n.users[c], 0, b)] && n'.inbox == n.inbox && n'.cursors == n.cursors
    && n'.calls == n.calls
  }

  /** The accept call reaches the server. */
  lemma AsksToAccept(n: Net, c: nat, id: string, b: string) returns (n': Net)
    requires Quiet(n) && c in n.users && n.users[c].id == id && n.users[c].isConnected && n.users[c].accepts == map[]
    requires c in n.inbox && n.inbox[c] == [] && n.world.st.aliases == map[b := MAlias(id, false)]
    ensures Leads(n, [CallAccept(c, 0, b), Serve(c, 0)], n') && AsksAccept(n, c, id, b, n')
  {
    hide Leads, CanHappen, Then, Box, Start;
    var e := CallAccept(c, 0, b);
    CallStep(n, e);
    var n1 := Then(n, e);
    LeadsOne(n, e);
    var line := Inbox(n1, c);
    assert line == [Accepting(id, b)] && line[1..] == [];
    AcceptingStarts(n1.world.st, c, id, b);
    ServeStep(n1, c, 0);
    n' := Then(n1, Serve(c, 0));
    assert n'.inbox == n.inbox;
    AndThen(n, [e], n1, Serve(c, 0));
    assert [e] + [Serve(c, 0)] == [e, Serve(c, 0)];
  }

  // -------------------------------------------------------------- connecting

  /** A connect call reaches the server. */
  lemma ConnectReaches(n: Net, c: nat, cid: string, remoteAlias: string, tid: nat) returns (n': Net)
    requires c in n.users && n.users[c].isConnected && c !in n.closed && cid !in n.calls && cid != ""
    requires c in n.inbox && n.inbox[c] == [] && tid !in n.world.tasks
    ensures Leads(n, [CallConnect(c, cid, remoteAlias), Serve(c, tid)], n')
    ensures var call := Call(n.users[c].id, remoteAlias, cid);
      && n'.world == World(n.world.st, n.world.tasks[tid := ConnectReceived(call)])
      && n'.users == n.users[c := AskConnect(n.users[c], cid)] && n'.inbox == n.inbox
      && n'.closed == n.closed && n'.cursors == n.cursors && n'.calls == n.calls[cid := Asked(c, call)]
  {
    hide Leads, CanHappen, Then, Box, Start;
    var e := CallConnect(c, cid, remoteAlias);
    CallStep(n, e);
    var n1 := Then(n, e);
    LeadsOne(n, e);
    var line := Inbox(n1, c);
    assert line == [Connect(n.users[c].id, remoteAlias, cid)] && line[1..] == [];
    ConnectStarts(n1.world.st, c, n.users[c].id, remoteAlias, cid);
    ServeStep(n1, c, tid);
    n' := Then(n1, Serve(c, tid));
    assert n'.inbox == n.inbox;
    AndThen(n, [e], n1, Serve(c, tid));
    assert [e] + [Serve(c, tid)] == [e, Serve(c, tid)];
  }

  lemma ConnectStarts(st: State, c: nat, id: string, remoteAlias: string, cid: string)
    ensures Start(st, c, Connect(id, remoteAlias, cid)) == Suspend(st, ConnectReceived(Call(id, remoteAlias, cid)))
  {}

  /** Port 0 of an address with port 1 taken. */
  lemma FirstPort(subnets: Subnets, subnet: string, ports: seq<nat>)
    requires WellFormedSubnet(subnet) && subnet in subnets && subnets[subnet] == map[0 := ports]
      && (ports == [1] || ports == [])
    ensures CreateTCP(subnets, HostId(subnet)).Ok?
    ensures CreateTCP(subnets, HostId(subnet)).value.1 == PrintTcp(Tcp(Ip(subnet, 0), 0))
  {
    IpRoundTrip(Ip(subnet, 0));
    assert Sort(ports) == ports by { if ports == [1] { assert ports[1..] == []; } }
    assert Scan(ports, 0) == 0;
    hide ReadIp, PrintIp, PrintTcp;
    LocatesIp(subnets, HostId(subnet), Ip(subnet, 0));
  }

  lemma LocatesIp(subnets: Subnets, id: string, ip: Ip)
    requires ReadIp(id) == Some(ip) && Has(subnets, ip)
    ensures Locate(subnets, id) == Ok(ip)
  {}
}
