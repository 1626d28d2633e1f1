/**
 Registry and allocator agree. The server keeps three maps linked by address
 text; the specification keeps one table, keyed by what the text means, and
 computes the allocator from it. Over every run of uninterrupted handlers and
 closing connections the server simulates the table, message for message.
 */
module Agreement {
  import opened Wrappers
  import opened Address
  import opened Allocator
  import opened Server
  import opened Atomic

  // ------------------------------------------------------- the one table

  /** Who is online on which connection; which aliases are bound and accepting. */
  datatype Table = Table(online: map<Ip, nat>, bound: map<Tcp, bool>, mail: Mail)

  const EMPTY := Table(map[], map[], map[])

  /** The address an alias text is the canonical spelling of. */
  function Meaning(alias: string): Option<Tcp> {
    var t := ReadTcp(alias);
    if t.Some? && WellFormedSubnet(t.value.ip.subnet) && PrintTcp(t.value) == alias then t else None
  }

  function IpMeaning(id: string): Option<Ip> {
    var ip := ReadIp(id);
    if ip.Some? && WellFormedSubnet(ip.value.subnet) && PrintIp(ip.value) == id then ip else None
  }

  function OnlinePeers(tb: Table): set<Peer> { set ip | ip in tb.online :: Peer(PrintIp(ip), tb.online[ip]) }

  function Everyone(tb: Table, msgs: seq<Message>): Mail { map p | p in OnlinePeers(tb) :: msgs }

  function PeerAt(tb: Table, ip: Ip): Peer
    requires ip in tb.online
  {
    Peer(PrintIp(ip), tb.online[ip])
  }

  function SuffixesOnline(tb: Table, subnet: string): set<nat> {
    set ip | ip in tb.online && ip.subnet == subnet :: ip.suffix
  }

  function PortsBound(tb: Table, ip: Ip): set<nat> { set t | t in tb.bound && t.ip == ip :: t.port }

  function SpecGreetings(tb: Table, id: string): Mail { map p | p in OnlinePeers(tb) :: [Greeting(p.id, id)] }

  function SpecKnock(tb: Table, conn: nat, subnet: string): Table {
    var suffix := LowestFree(SuffixesOnline(tb, subnet));
    if suffix > 255 then tb.(mail := Deliver(tb.mail, map[Peer("-1", conn) := [Acknowledgement("-1", true)]]))
    else
      var id := PrintIp(Ip(subnet, suffix));
      var acked := Deliver(tb.mail, map[Peer(id, conn) := [Acknowledgement(id, false)]]);
      Table(tb.online[Ip(subnet, suffix) := conn], tb.bound,
            Deliver(acked, SpecGreetings(tb, id)))
  }

  function SpecBind(tb: Table, t: Tcp): Table
    requires t.ip in tb.online
  {
    var id, alias := PrintIp(t.ip), PrintTcp(t);
    if t in tb.bound then tb.(mail := Deliver(tb.mail, map[PeerAt(tb, t.ip) := [Alias(id, alias, false, None, false)]]))
    else tb.(bound := tb.bound[t := false],
             mail := Deliver(tb.mail, Everyone(tb, [Alias(id, alias, true, None, false)])))
  }

  function SpecAccepting(tb: Table, id: string, alias: string): Table {
    var t := Meaning(alias);
    if t.Some? && t.value in tb.bound && PrintIp(t.value.ip) == id then tb.(bound := tb.bound[t.value := true]) else tb
  }

  function SpecConnect(tb: Table, ip: Ip, remoteAlias: string, cid: string): Table
    requires ip in tb.online
  {
    var id, t := PrintIp(ip), Tcp(ip, LowestFree(PortsBound(tb, ip)));
    var remote := Meaning(remoteAlias);
    if remote.None? || remote.value !in tb.bound || !tb.bound[remote.value] then
      tb.(mail := Deliver(tb.mail, map[PeerAt(tb, ip) := [Alias(id, PrintTcp(t), false, Some(cid), false)]]))
    else if remote.value.ip !in tb.online then tb
    else
      tb.(bound := tb.bound[t := false],
          mail := AcceptedMail(tb.mail, Call(id, remoteAlias, cid), PrintTcp(t), PeerAt(tb, ip),
            PeerAt(tb, remote.value.ip)))
  }

  function SpecLeave(tb: Table, ip: Ip, order: seq<string>): Table {
    var rest := tb.(online := tb.online - {ip}, bound := map t | t in tb.bound && t.ip != ip :: tb.bound[t]);
    rest.(mail := Deliver(tb.mail, Everyone(rest, [Goodbye(PrintIp(ip))] + Removals(PrintIp(ip), order))))
  }

  // ------------------------------------------------------ the simulation

  ghost predicate ClientsAgree(st: State, tb: Table) {
    && (forall ip: Ip :: ip in tb.online <==> Has(st.subnets, ip))
    && (forall id: string :: id in st.clients <==> IpMeaning(id).Some? && IpMeaning(id).value in tb.online)
    && (forall id | id in st.clients :: st.clients[id] == tb.online[IpMeaning(id).value])
  }

  ghost predicate AliasesAgree(st: State, tb: Table) {
    && (forall t: Tcp :: t in tb.bound <==> Claimed(st.subnets, t))
    && (forall a: string :: a in st.aliases <==> Meaning(a).Some? && Meaning(a).value in tb.bound)
    && (forall a | a in st.aliases ::
          st.aliases[a] == MAlias(PrintIp(Meaning(a).value.ip), tb.bound[Meaning(a).value]))
  }

  /**
   Suffix n of subnet s has a member exactly when client s.n is connected; its
   ports are, without duplicates, exactly the ports of the aliases on s.n, all
   owned by s.n; the same messages were sent.
   */
  ghost predicate Agrees(st: State, tb: Table) {
    Tidy(st.subnets) && ClientsAgree(st, tb) && AliasesAgree(st, tb) && st.mail == tb.mail
  }

  lemma MeaningOf(t: Tcp)
    requires WellFormedSubnet(t.ip.subnet)
    ensures Meaning(PrintTcp(t)) == Some(t) && IpMeaning(PrintIp(t.ip)) == Some(t.ip)
    ensures ReadTcp(PrintTcp(t)) == Some(t) && ReadIp(PrintIp(t.ip)) == Some(t.ip) == ReadIp(PrintTcp(t))
  {
    TcpRoundTrip(t);
    AliasReadAsIp(t);
  }

  lemma IpMeaningOf(ip: Ip)
    requires WellFormedSubnet(ip.subnet)
    ensures IpMeaning(PrintIp(ip)) == Some(ip) && ReadIp(PrintIp(ip)) == Some(ip)
  {
    MeaningOf(Tcp(ip, 0));
  }

  lemma OnlineClient(st: State, tb: Table, ip: Ip)
    requires Tidy(st.subnets) && ClientsAgree(st, tb) && ip in tb.online
    ensures WellFormedSubnet(ip.subnet) && Lookup(st.clients, PrintIp(ip)) == Some(PeerAt(tb, ip))
      && Has(st.subnets, ip)
  {
    IpMeaningOf(ip);
  }

  lemma SamePeers(st: State, tb: Table)
    requires Tidy(st.subnets) && ClientsAgree(st, tb)
    ensures Peers(st.clients) == OnlinePeers(tb)
  {
    hide ReadIp, PrintIp;
    forall p: Peer ensures p in Peers(st.clients) <==> p in OnlinePeers(tb) {
      if p in Peers(st.clients) {
        var ip := IpMeaning(p.id).value;
        assert p == Peer(PrintIp(ip), tb.online[ip]);
      }
      if p in OnlinePeers(tb) {
        var ip :| ip in tb.online && p == Peer(PrintIp(ip), tb.online[ip]);
        OnlineClient(st, tb, ip);
      }
    }
  }

  lemma ClientsPlus(st: State, tb: Table, after: State, spec: Table, ip: Ip, conn: nat)
    requires ClientsAgree(st, tb) && WellFormedSubnet(ip.subnet) && ip !in tb.online
    requires after.clients == st.clients[PrintIp(ip) := conn] && spec.online == tb.online[ip := conn]
    requires forall i: Ip :: Has(after.subnets, i) <==> Has(st.subnets, i) || i == ip
    ensures ClientsAgree(after, spec) && PrintIp(ip) !in st.clients
  {
    hide ReadIp, PrintIp;
    IpMeaningOf(ip);
  }

  lemma ClientsSame(st: State, tb: Table, after: State, spec: Table)
    requires ClientsAgree(st, tb) && SameMembers(st.subnets, after.subnets)
    requires after.clients == st.clients && spec.online == tb.online
    ensures ClientsAgree(after, spec)
  {
    hide ReadIp, PrintIp, IpMeaning;
  }

  lemma AliasesSame(st: State, tb: Table, after: State, spec: Table)
    requires AliasesAgree(st, tb) && SameClaims(st.subnets, after.subnets)
    requires after.aliases == st.aliases && spec.bound == tb.bound
    ensures AliasesAgree(after, spec)
  {
    hide PrintIp, Meaning, Claimed;
  }

  lemma AliasesPlus(st: State, tb: Table, after: State, spec: Table, t: Tcp)
    requires AliasesAgree(st, tb) && WellFormedSubnet(t.ip.subnet) && ClaimsPlus(st.subnets, after.subnets, t)
    requires after.aliases == st.aliases[PrintTcp(t) := MAlias(PrintIp(t.ip), false)]
    requires spec.bound == tb.bound[t := false]
    ensures AliasesAgree(after, spec) && PrintTcp(t) !in st.aliases
  {
    hide ReadTcp, PrintIp, PrintTcp, Claimed;
    MeaningOf(t);
  }

  lemma SameSuffixes(st: State, tb: Table, subnet: string)
    requires ClientsAgree(st, tb)
    ensures FreeSuffix(st.subnets, subnet) == LowestFree(SuffixesOnline(tb, subnet))
  {
    hide ReadIp, PrintIp, Split, LowestFree;
    var keys := if subnet in st.subnets then st.subnets[subnet].Keys else {};
    forall k: nat ensures k in keys <==> k in SuffixesOnline(tb, subnet) {
      assert Has(st.subnets, Ip(subnet, k)) <==> k in keys;
    }
    assert keys == SuffixesOnline(tb, subnet);
  }

  lemma KnockRejected(st: State, tb: Table, conn: nat, subnet: string)
    requires Agrees(st, tb) && WellFormedSubnet(subnet) && FreeSuffix(st.subnets, subnet) > MAX_SUFFIX
    ensures var (after, error) := Handle(st, conn, Knock(subnet));
      error == None && Agrees(after, SpecKnock(tb, conn, subnet))
  {
    hide ReadIp, ReadTcp, PrintIp, PrintTcp, Handle, Deliver, LowestFree, FreeSuffix, CreateIP, WellFormedSubnet;
    KnockRuns(st, conn, subnet);
    CreateIPEffect(st.subnets, subnet);
    SameSuffixes(st, tb, subnet);
    var after, spec := Handle(st, conn, Knock(subnet)).0, SpecKnock(tb, conn, subnet);
    AliasesSame(st, tb, after, spec);
    assert ClientsAgree(after, spec);
  }

  lemma SameGreetings(st: State, tb: Table, id: string)
    requires Tidy(st.subnets) && ClientsAgree(st, tb) && id !in st.clients
    ensures Introductions(st.clients, id) == SpecGreetings(tb, id)
  {
    hide ClientsAgree, Tidy;
    SamePeers(st, tb);
    assert forall p | p in Peers(st.clients) :: p.id in st.clients;
  }

  lemma KnockAccepted(st: State, tb: Table, conn: nat, subnet: string)
    requires Agrees(st, tb) && WellFormedSubnet(subnet) && FreeSuffix(st.subnets, subnet) <= MAX_SUFFIX
    ensures var (after, error) := Handle(st, conn, Knock(subnet));
      error == None && Agrees(after, SpecKnock(tb, conn, subnet))
  {
    hide ReadIp, ReadTcp, PrintIp, PrintTcp, Handle, Deliver, LowestFree, FreeSuffix, CreateIP, WellFormedSubnet,
         Introductions, SpecGreetings, SuffixesOnline;
    KnockRuns(st, conn, subnet);
    CreateIPEffect(st.subnets, subnet);
    SameSuffixes(st, tb, subnet);
    var ip := Ip(subnet, FreeSuffix(st.subnets, subnet));
    var after, spec := Handle(st, conn, Knock(subnet)).0, SpecKnock(tb, conn, subnet);
    AliasesSame(st, tb, after, spec);
    assert ip !in tb.online;
    ClientsPlus(st, tb, after, spec, ip, conn);
    SameGreetings(st, tb, PrintIp(ip));
  }

  lemma BindTaken(st: State, tb: Table, conn: nat, t: Tcp)
    requires Agrees(st, tb) && t.ip in tb.online && t in tb.bound
    ensures var request := Bind(PrintIp(t.ip), PrintTcp(t));
      Handleable(st, request) && Handle(st, conn, request).1 == None &&
      Agrees(Handle(st, conn, request).0, SpecBind(tb, t))
  {
    hide ReadIp, ReadTcp, PrintIp, PrintTcp, Handle, Deliver, WellFormedSubnet, Meaning;
    OnlineClient(st, tb, t.ip);
    MeaningOf(t);
    BindRuns(st, conn, PrintIp(t.ip), PrintTcp(t));
    var after := Handle(st, conn, Bind(PrintIp(t.ip), PrintTcp(t))).0;
    ClientsSame(st, tb, after, SpecBind(tb, t));
    AliasesSame(st, tb, after, SpecBind(tb, t));
  }

  lemma NotClaimed(st: State, tb: Table, t: Tcp)
    requires AliasesAgree(st, tb)
    ensures Claimed(st.subnets, t) <==> t in tb.bound
  {
    hide Meaning, PrintIp;
  }

  lemma ClaimFresh(st: State, tb: Table, t: Tcp)
    requires Agrees(st, tb) && t.ip in tb.online && t !in tb.bound
    ensures Claimable(st.subnets, PrintTcp(t)) && ClaimTCP(st.subnets, PrintTcp(t)).Ok?
    ensures var after := ClaimTCP(st.subnets, PrintTcp(t)).value;
      Tidy(after) && SameMembers(st.subnets, after) && ClaimsPlus(st.subnets, after, t)
  {
    hide PrintIp, PrintTcp, Tidy, ClientsAgree, AliasesAgree, Meaning, IpMeaning, ClaimsPlus;
    OnlineClient(st, tb, t.ip);
    MeaningOf(t);
    NotClaimed(st, tb, t);
    ClaimTCPEffect(st.subnets, PrintTcp(t));
    hide ReadTcp, ClaimTCP;
  }

  lemma BindFresh(st: State, tb: Table, conn: nat, t: Tcp)
    requires Agrees(st, tb) && t.ip in tb.online && t !in tb.bound
    ensures var request := Bind(PrintIp(t.ip), PrintTcp(t));
      Handleable(st, request) && Handle(st, conn, request).1 == None &&
      Agrees(Handle(st, conn, request).0, SpecBind(tb, t))
  {
    hide ReadIp, ReadTcp, PrintIp, PrintTcp, Handle, Deliver, WellFormedSubnet, ClaimTCP, OnlinePeers;
    OnlineClient(st, tb, t.ip);
    MeaningOf(t);
    ClaimFresh(st, tb, t);
    BindRuns(st, conn, PrintIp(t.ip), PrintTcp(t));
    SamePeers(st, tb);
    var after := Handle(st, conn, Bind(PrintIp(t.ip), PrintTcp(t))).0;
    ClientsSame(st, tb, after, SpecBind(tb, t));
    AliasesPlus(st, tb, after, SpecBind(tb, t), t);
  }

  lemma AcceptingAliases(st: State, tb: Table, after: State, spec: Table, id: string, alias: string)
    requires AliasesAgree(st, tb) && after.subnets == st.subnets && spec == SpecAccepting(tb, id, alias)
    requires after.aliases ==
      if alias in st.aliases && st.aliases[alias].id == id then st.aliases[alias := MAlias(id, true)] else st.aliases
    ensures AliasesAgree(after, spec)
  {
    hide ReadTcp, PrintIp, PrintTcp, Claimed;
  }

  lemma AcceptingSimulates(st: State, tb: Table, conn: nat, id: string, alias: string)
    requires Agrees(st, tb)
    ensures Handle(st, conn, Accepting(id, alias)).1 == None
    ensures Agrees(Handle(st, conn, Accepting(id, alias)).0, SpecAccepting(tb, id, alias))
  {
    hide ReadIp, ReadTcp, PrintIp, PrintTcp, WellFormedSubnet, Claimed, ClientsAgree, IpMeaning, Tidy;
    var after, spec := Handle(st, conn, Accepting(id, alias)).0, SpecAccepting(tb, id, alias);
    ClientsSame(st, tb, after, spec);
    AcceptingAliases(st, tb, after, spec, id, alias);
  }

  /** A connecting client is offered the least port no alias on its address has. */
  lemma Offer(st: State, tb: Table, ip: Ip)
    requires Agrees(st, tb) && ip in tb.online
    ensures CreateTCP(st.subnets, PrintIp(ip)).Ok?
    ensures var (after, alias) := CreateTCP(st.subnets, PrintIp(ip)).value;
      var t := Tcp(ip, LowestFree(PortsBound(tb, ip)));
      alias == PrintTcp(t) && Tidy(after) && SameMembers(st.subnets, after) && ClaimsPlus(st.subnets, after, t)
  {
    hide PrintIp, PrintTcp, CreateTCP, LowestFree, ClaimsPlus, SameMembers;
    OnlineClient(st, tb, ip);
    IpMeaningOf(ip);
    Creates(st.subnets, PrintIp(ip), ip);
    hide ReadIp, Meaning, IpMeaning;
    CreateTCPEffect(st.subnets, PrintIp(ip));
    BoundPorts(st, tb, ip);
  }

  /** A member's address gets a port. */
  lemma Creates(subnets: Subnets, id: string, ip: Ip)
    requires ReadIp(id) == Some(ip) && Has(subnets, ip)
    ensures CreateTCP(subnets, id).Ok?
  {
    hide Sort, Scan, SetPorts, PrintTcp;
  }

  lemma BoundPorts(st: State, tb: Table, ip: Ip)
    requires AliasesAgree(st, tb) && Has(st.subnets, ip)
    ensures Elements(st.subnets[ip.subnet][ip.suffix]) == PortsBound(tb, ip)
  {
    hide PrintIp, PrintTcp, Meaning;
    var ports := st.subnets[ip.subnet][ip.suffix];
    forall p: nat ensures p in Elements(ports) <==> p in PortsBound(tb, ip) {
      assert Tcp(ip, p) in tb.bound <==> Claimed(st.subnets, Tcp(ip, p));
    }
  }

  predicate SpecAcceptable(tb: Table, remoteAlias: string) {
    Meaning(remoteAlias).Some? && Meaning(remoteAlias).value in tb.bound && tb.bound[Meaning(remoteAlias).value]
  }

  lemma ConnectRefused(st: State, tb: Table, conn: nat, ip: Ip, remoteAlias: string, cid: string)
    requires Agrees(st, tb) && ip in tb.online && !SpecAcceptable(tb, remoteAlias)
    ensures var (after, error) := Handle(st, conn, Connect(PrintIp(ip), remoteAlias, cid));
      error == None && Agrees(after, SpecConnect(tb, ip, remoteAlias, cid))
  {
    hide ReadIp, ReadTcp, PrintIp, PrintTcp, Handle, Deliver, WellFormedSubnet, CreateTCP, LowestFree, PortsBound;
    hide ClientsAgree, Claimed, IpMeaning;
    var call := Call(PrintIp(ip), remoteAlias, cid);
    OnlineClient(st, tb, ip);
    Offer(st, tb, ip);
    RefusedConnectIsNeutral(st, conn, call);
    var after, spec := Handle(st, conn, ConnectRequest(call)).0, SpecConnect(tb, ip, remoteAlias, cid);
    ClientsSame(st, tb, after, spec);
    AliasesSame(st, tb, after, spec);
  }

  /** The listener the table names is the one the server finds. */
  lemma Listener(st: State, tb: Table, remoteAlias: string)
    requires Agrees(st, tb) && SpecAcceptable(tb, remoteAlias)
    ensures remoteAlias in st.aliases && st.aliases[remoteAlias].accepting
    ensures var remote := Meaning(remoteAlias).value;
      st.aliases[remoteAlias].id == PrintIp(remote.ip) && remote.ip in tb.online
  {
    hide Meaning, PrintIp, IpMeaning;
    assert Claimed(st.subnets, Meaning(remoteAlias).value);
  }

  lemma ConnectAccepted(st: State, tb: Table, conn: nat, ip: Ip, remoteAlias: string, cid: string)
    requires Agrees(st, tb) && ip in tb.online && SpecAcceptable(tb, remoteAlias)
    ensures var (after, error) := Handle(st, conn, Connect(PrintIp(ip), remoteAlias, cid));
      error == None && Agrees(after, SpecConnect(tb, ip, remoteAlias, cid))
  {
    hide ReadIp, ReadTcp, PrintIp, PrintTcp, Handle, Deliver, WellFormedSubnet, CreateTCP, LowestFree, PortsBound;
    hide IpMeaning, Meaning, AcceptedMail, ClientsAgree, AliasesAgree, Tidy;
    var call := Call(PrintIp(ip), remoteAlias, cid);
    var t, remote := Tcp(ip, LowestFree(PortsBound(tb, ip))), Meaning(remoteAlias).value;
    Listener(st, tb, remoteAlias);
    OnlineClient(st, tb, ip);
    OnlineClient(st, tb, remote.ip);
    Offer(st, tb, ip);
    FreshAlias(st, tb, t);
    AcceptanceRuns(st, conn, call);
    var after, spec := Handle(st, conn, ConnectRequest(call)).0, SpecConnect(tb, ip, remoteAlias, cid);
    ClientsSame(st, tb, after, spec);
    AliasesPlus(st, tb, after, spec, t);
  }

  lemma FreshAlias(st: State, tb: Table, t: Tcp)
    requires AliasesAgree(st, tb) && WellFormedSubnet(t.ip.subnet) && !Claimed(st.subnets, t)
    ensures PrintTcp(t) !in st.aliases
  {
    hide PrintTcp, PrintIp, ReadTcp, ReadIp;
    MeaningOf(t);
  }

  // ---------------------------------------------------- closing connections

  lemma {:induction false} NothingToRelease(subnets: Subnets, order: seq<string>, ip: Ip)
    requires !Has(subnets, ip)
    requires forall a | a in order :: Meaning(a).Some? && Meaning(a).value.ip == ip
    ensures ReleaseAll(subnets, order) == subnets
  {
    if order != [] {
      MeaningOf(Meaning(order[0]).value);
      assert order[0] in order && forall a | a in order[1..] :: a in order;
      NothingToRelease(subnets, order[1..], ip);
    }
  }

  /** Owning an alias and having it on one's address are the same thing. */
  lemma OwnedHere(st: State, tb: Table, ip: Ip, a: string)
    requires Agrees(st, tb) && ip in tb.online
    ensures a in Owned(st.aliases, PrintIp(ip)) <==> a in st.aliases && Meaning(a).value.ip == ip
  {
    hide ReadIp, ReadTcp, PrintIp;
    OnlineClient(st, tb, ip);
    IpMeaningOf(ip);
    if a in st.aliases {
      OwnerIp(st, tb, a);
    }
  }

  lemma LeaveClients(st: State, tb: Table, ip: Ip, after: State, spec: Table)
    requires Tidy(st.subnets) && ClientsAgree(st, tb) && ip in tb.online
    requires after.clients == st.clients - {PrintIp(ip)} && spec.online == tb.online - {ip}
    requires forall i: Ip :: Has(after.subnets, i) <==> Has(st.subnets, i) && i != ip
    ensures ClientsAgree(after, spec)
  {
    hide ReadIp, PrintIp, Has, Tidy;
    OnlineClient(st, tb, ip);
    IpMeaningOf(ip);
  }

  lemma LeaveAliases(st: State, tb: Table, ip: Ip, order: seq<string>, after: State, spec: Table)
    requires AliasesAgree(st, tb)
    requires after.aliases == st.aliases - (set a | a in order)
    requires forall a: string :: a in order <==> a in st.aliases && Meaning(a).value.ip == ip
    requires spec.bound == map t | t in tb.bound && t.ip != ip :: tb.bound[t]
    requires forall t: Tcp :: Claimed(after.subnets, t) <==> Claimed(st.subnets, t) && t.ip != ip
    ensures AliasesAgree(after, spec)
  {
    hide ReadIp, ReadTcp, PrintIp, Claimed;
  }

  lemma LeaveSimulates(st: State, tb: Table, ip: Ip, order: seq<string>)
    requires Agrees(st, tb) && ip in tb.online && Enumerates(order, Owned(st.aliases, PrintIp(ip)))
    ensures Agrees(Disconnect(st, PrintIp(ip), order), SpecLeave(tb, ip, order))
  {
    hide ReadIp, ReadTcp, PrintIp, PrintTcp, Deliver, Removals, Meaning, WellFormedSubnet, Claimed;
    var after, spec := Disconnect(st, PrintIp(ip), order), SpecLeave(tb, ip, order);
    OnlineClient(st, tb, ip);
    IpMeaningOf(ip);
    RemoveIPEffect(st.subnets, PrintIp(ip));
    forall a: string ensures a in order <==> a in st.aliases && Meaning(a).value.ip == ip {
      OwnedHere(st, tb, ip, a);
    }
    NothingToRelease(RemoveIP(st.subnets, PrintIp(ip)), order, ip);
    LeaveClients(st, tb, ip, after, spec);
    LeaveAliases(st, tb, ip, order, after, spec);
    SamePeers(after, spec);
  }

  lemma OwnerIp(st: State, tb: Table, a: string)
    requires Agrees(st, tb) && a in st.aliases
    ensures IpMeaning(st.aliases[a].id) == Some(Meaning(a).value.ip)
  {
    IpMeaningOf(Meaning(a).value.ip);
  }

  // -------------------------------------------------------- whole runs

  datatype Act = Ask(conn: nat, request: Request) | Leave(id: string, order: seq<string>)

  /**
   Subnets are well-formed; senders are connected; a bind names the canonical
   spelling of an alias on the sender's own address; nobody shuts an alias down.
   */
  ghost predicate Fair(st: State, act: Act) {
    match act
    case Ask(_, Knock(subnet)) => WellFormedSubnet(subnet)
    case Ask(_, Bind(id, alias)) =>
      id in st.clients && Meaning(alias).Some? && PrintIp(Meaning(alias).value.ip) == id
    case Ask(_, Accepting(_, _)) => true
    case Ask(_, Shutdown(_, _)) => false
    case Ask(_, Connect(id, _, _)) => id in st.clients
    case Leave(id, order) => id in st.clients && Enumerates(order, Owned(st.aliases, id))
  }

  predicate Doable(st: State, act: Act) { act.Ask? ==> Handleable(st, act.request) }

  /** One uninterrupted handler, or one closed connection. */
  function Do(st: State, act: Act): (State, Option<Error>)
    requires Doable(st, act)
  {
    match act
    case Ask(conn, request) => Handle(st, conn, request)
    case Leave(id, order) => (Disconnect(st, id, order), None)
  }

  function SpecDo(tb: Table, act: Act): Table {
    match act
    case Ask(conn, Knock(subnet)) => SpecKnock(tb, conn, subnet)
    case Ask(_, Accepting(id, alias)) => SpecAccepting(tb, id, alias)
    case Ask(_, Shutdown(_, _)) => tb
    case Ask(_, Bind(_, alias)) =>
      var t := Meaning(alias);
      if t.Some? && t.value.ip in tb.online then SpecBind(tb, t.value) else tb
    case Ask(_, Connect(id, remoteAlias, cid)) =>
      var ip := IpMeaning(id);
      if ip.Some? && ip.value in tb.online then SpecConnect(tb, ip.value, remoteAlias, cid) else tb
    case Leave(id, order) =>
      var ip := IpMeaning(id);
      if ip.Some? then SpecLeave(tb, ip.value, order) else tb
  }

  /** One step: the server does not throw and stays in agreement with the table. */
  lemma Simulates(st: State, tb: Table, act: Act)
    requires Agrees(st, tb) && Fair(st, act)
    ensures Doable(st, act) && Do(st, act).1 == None && Agrees(Do(st, act).0, SpecDo(tb, act))
  {
    hide Handle, Agrees, SpecBind, SpecConnect, SpecLeave, SpecKnock, SpecAccepting, ReadIp, ReadTcp, Disconnect;
    match act
    case Ask(conn, Knock(subnet)) =>
      if FreeSuffix(st.subnets, subnet) > MAX_SUFFIX { KnockRejected(st, tb, conn, subnet); }
      else { KnockAccepted(st, tb, conn, subnet); }
    case Ask(conn, Bind(id, alias)) =>
      var t := Meaning(alias).value;
      SenderOnline(st, tb, id);
      IpMeaningOf(t.ip);
      if t in tb.bound { BindTaken(st, tb, conn, t); } else { BindFresh(st, tb, conn, t); }
    case Ask(conn, Accepting(id, alias)) => AcceptingSimulates(st, tb, conn, id, alias);
    case Ask(conn, Connect(id, remoteAlias, cid)) =>
      SenderOnline(st, tb, id);
      var ip := IpMeaning(id).value;
      if SpecAcceptable(tb, remoteAlias) { ConnectAccepted(st, tb, conn, ip, remoteAlias, cid); }
      else { ConnectRefused(st, tb, conn, ip, remoteAlias, cid); }
    case Leave(id, order) =>
      SenderOnline(st, tb, id);
      LeaveSimulates(st, tb, IpMeaning(id).value, order);
  }

  lemma SenderOnline(st: State, tb: Table, id: string)
    requires Agrees(st, tb) && id in st.clients
    ensures IpMeaning(id).Some? && IpMeaning(id).value in tb.online && PrintIp(IpMeaning(id).value) == id
  {}

  ghost predicate FairRun(sts: seq<State>, acts: seq<Act>) {
    && |sts| == |acts| + 1 && sts[0] == INITIAL
    && forall k | 0 <= k < |acts| ::
         Fair(sts[k], acts[k]) && Doable(sts[k], acts[k]) && sts[k + 1] == Do(sts[k], acts[k]).0
  }

  function TableAfter(acts: seq<Act>): Table {
    if acts == [] then EMPTY else SpecDo(TableAfter(acts[..|acts| - 1]), acts[|acts| - 1])
  }

  /** Over every fair run the server simulates the one table, message for message. */
  lemma {:induction false} RunSimulates(sts: seq<State>, acts: seq<Act>, k: nat)
    requires FairRun(sts, acts) && k < |sts|
    ensures Agrees(sts[k], TableAfter(acts[..k]))
  {
    hide Agrees, Fair, Do, SpecDo;
    if k == 0 {
      EmptyAgrees();
    } else {
      RunSimulates(sts, acts, k - 1);
      Simulates(sts[k - 1], TableAfter(acts[..k - 1]), acts[k - 1]);
      assert acts[..k][..k - 1] == acts[..k - 1];
    }
  }

  lemma EmptyAgrees()
    ensures Agrees(INITIAL, EMPTY)
  {}

  /** No handler of a fair run throws: no claim or create fails, no client is missing. */
  lemma NothingThrows(sts: seq<State>, acts: seq<Act>, k: nat)
    requires FairRun(sts, acts) && k < |acts|
    ensures Do(sts[k], acts[k]).1 == None
  {
    RunSimulates(sts, acts, k);
    Simulates(sts[k], TableAfter(acts[..k]), acts[k]);
  }

  /**
   In every state of a fair run: a member exists exactly for each connected
   client; its ports are without duplicates and exactly those of the registered
   aliases on its address, each owned by that client.
   */
  lemma RegistryAgrees(sts: seq<State>, acts: seq<Act>, k: nat)
    requires FairRun(sts, acts) && k < |sts|
    ensures forall ip: Ip :: Has(sts[k].subnets, ip) <==> WellFormedSubnet(ip.subnet) && PrintIp(ip) in sts[k].clients
    ensures forall t: Tcp :: Claimed(sts[k].subnets, t) <==>
      WellFormedSubnet(t.ip.subnet) && PrintTcp(t) in sts[k].aliases
    ensures forall t: Tcp | Claimed(sts[k].subnets, t) ::
              sts[k].aliases[PrintTcp(t)].id == PrintIp(t.ip) && PrintIp(t.ip) in sts[k].clients
    ensures forall a | a in sts[k].aliases :: Meaning(a).Some?
    ensures forall ip: Ip | Has(sts[k].subnets, ip) :: Distinct(sts[k].subnets[ip.subnet][ip.suffix])
  {
    hide ReadIp, ReadTcp, PrintIp, PrintTcp, TableAfter;
    var st, tb := sts[k], TableAfter(acts[..k]);
    RunSimulates(sts, acts, k);
    forall ip: Ip ensures Has(st.subnets, ip) <==> WellFormedSubnet(ip.subnet) && PrintIp(ip) in st.clients {
      if WellFormedSubnet(ip.subnet) { IpMeaningOf(ip); }
    }
    forall t: Tcp ensures Claimed(st.subnets, t) <==> WellFormedSubnet(t.ip.subnet) && PrintTcp(t) in st.aliases {
      if WellFormedSubnet(t.ip.subnet) { MeaningOf(t); }
    }
    forall t: Tcp | Claimed(st.subnets, t)
      ensures st.aliases[PrintTcp(t)].id == PrintIp(t.ip) && PrintIp(t.ip) in st.clients
    {
      MeaningOf(t);
    }
  }

  lemma OwnerConnected(sts: seq<State>, acts: seq<Act>, k: nat, a: string)
    requires FairRun(sts, acts) && k < |sts| && a in sts[k].aliases
    ensures sts[k].aliases[a].id in sts[k].clients
  {
    hide ReadIp, ReadTcp, PrintIp, PrintTcp;
    RegistryAgrees(sts, acts, k);
    var t := Meaning(a).value;
    assert Claimed(sts[k].subnets, t);
  }

  /** When every client has left, no alias, no member and no claim remains. */
  lemma NothingRemains(sts: seq<State>, acts: seq<Act>, k: nat)
    requires FairRun(sts, acts) && k < |sts| && sts[k].clients == map[]
    ensures sts[k].aliases == map[] && forall ip: Ip :: !Has(sts[k].subnets, ip)
  {
    hide ReadIp, ReadTcp, PrintIp, PrintTcp, FairRun;
    RegistryAgrees(sts, acts, k);
    if sts[k].aliases != map[] {
      var a :| a in sts[k].aliases;
      OwnerConnected(sts, acts, k, a);
    }
  }
}
