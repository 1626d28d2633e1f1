/**
 What removals do: who owns what in every run, shutdowns and foreign binds
 included; what a closed connection removes and announces; what a shutdown
 really frees.
 */
module Removal {
  import opened Wrappers
  import opened Address
  import opened Allocator
  import opened Server
  import opened Atomic
  import opened Agreement

  // ---------------------------------------------------------- live owners

  predicate OwnersLive(st: State) { forall a | a in st.aliases :: st.aliases[a].id in st.clients }

  /** The sender of a bind or connect is connected; nothing else is asked of a request. */
  ghost predicate LiveSender(st: State, act: Act) {
    match act
    case Ask(_, Bind(id, alias)) => id in st.clients && Claimable(st.subnets, alias)
    case Ask(_, Connect(id, _, _)) => id in st.clients
    case Ask(_, _) => true
    case Leave(id, order) => Enumerates(order, Owned(st.aliases, id))
  }

  lemma ConnectShape(st: State, conn: nat, call: Call)
    requires OwnersLive(st) && call.id in st.clients
    ensures var (after, error) := Handle(st, conn, ConnectRequest(call));
      && after.clients == st.clients
      && (forall a | a in after.aliases ::
            (a in st.aliases && after.aliases[a] == st.aliases[a]) || after.aliases[a].id == call.id)
      && (error == None || CreateTCP(st.subnets, call.id) == Err(error.value))
  {
    hide CreateTCP, Handle, Deliver, RemoveTCP, AcceptedMail;
    if CreateTCP(st.subnets, call.id).Err? {
      FailedCreateRuns(st, conn, call);
    } else if Accepts(st, call) {
      AcceptanceRuns(st, conn, call);
      var alias := CreateTCP(st.subnets, call.id).value.1;
      assert Handle(st, conn, ConnectRequest(call)).0.aliases == st.aliases[alias := MAlias(call.id, false)];
    } else {
      RefusalRuns(st, conn, call);
    }
  }

  lemma LiveStep(st: State, act: Act)
    requires OwnersLive(st) && LiveSender(st, act)
    ensures OwnersLive(Do(st, act).0)
  {
    hide Handle, Deliver, CreateIP, ClaimTCP, RemoveIP, RemoveTCP, Claimable, ReleaseAll;
    match act
    case Ask(conn, Knock(subnet)) => KnockRuns(st, conn, subnet);
    case Ask(conn, Bind(id, alias)) => BindRuns(st, conn, id, alias);
    case Ask(conn, Accepting(id, alias)) => AcceptingRuns(st, conn, id, alias);
    case Ask(conn, Shutdown(id, alias)) => ShutdownRuns(st, conn, id, alias);
    case Ask(conn, Connect(id, remoteAlias, cid)) => ConnectShape(st, conn, Call(id, remoteAlias, cid));
    case Leave(id, order) => DisconnectOwned(st, id, order);
  }

  lemma AcceptingRuns(st: State, conn: nat, id: string, alias: string)
    ensures Handle(st, conn, Accepting(id, alias)) ==
      if alias in st.aliases && st.aliases[alias].id == id then
        (st.(aliases := st.aliases[alias := MAlias(id, true)]), None)
      else (st, None)
  {}

  ghost predicate LiveRun(sts: seq<State>, acts: seq<Act>) {
    && |sts| == |acts| + 1 && sts[0] == INITIAL
    && forall k | 0 <= k < |acts| ::
         LiveSender(sts[k], acts[k]) && Doable(sts[k], acts[k]) && sts[k + 1] == Do(sts[k], acts[k]).0
  }

  /** In every run of uninterrupted handlers every registered alias has a connected owner. */
  lemma {:induction false} OwnersAlwaysLive(sts: seq<State>, acts: seq<Act>, k: nat)
    requires LiveRun(sts, acts) && k < |sts|
    ensures OwnersLive(sts[k])
  {
    if k > 0 {
      OwnersAlwaysLive(sts, acts, k - 1);
      LiveStep(sts[k - 1], acts[k - 1]);
    }
  }

  /** So a connect that was given a port always runs to its end: its listener has a connection. */
  lemma ConnectFindsListener(sts: seq<State>, acts: seq<Act>, k: nat)
    requires LiveRun(sts, acts) && k < |acts| && acts[k].Ask? && acts[k].request.Connect?
    requires CreateTCP(sts[k].subnets, acts[k].request.id).Ok?
    ensures Do(sts[k], acts[k]).1 == None
  {
    hide CreateTCP, Handle;
    OwnersAlwaysLive(sts, acts, k);
    var request := acts[k].request;
    ConnectShape(sts[k], acts[k].conn, Call(request.id, request.remoteAlias, request.clientConnectionId));
  }

  // --------------------------------------------------- closed connections

  /** Exactly the aliases of the closed id are removed. */
  lemma DisconnectOwned(st: State, id: string, order: seq<string>)
    requires Enumerates(order, Owned(st.aliases, id))
    ensures var after := Disconnect(st, id, order);
      && after.clients == st.clients - {id}
      && (forall a: string :: a in after.aliases <==> a in st.aliases && st.aliases[a].id != id)
      && (forall a | a in after.aliases :: after.aliases[a] == st.aliases[a])
  {
    hide ReleaseAll, RemoveIP, Deliver;
    forall a: string ensures a in order <==> a in st.aliases && st.aliases[a].id == id {
      assert a in order <==> a in Owned(st.aliases, id);
    }
  }

  /** Releasing a list of aliases drops the members and the ports they name, each and no other. */
  lemma {:induction false} ReleaseFrees(subnets: Subnets, order: seq<string>, ip: Ip, t: Tcp)
    requires Tidy(subnets)
    ensures var after := ReleaseAll(subnets, order);
      && Tidy(after)
      && (Has(after, ip) <==> Has(subnets, ip) && forall a | a in order :: ReadIp(a) != Some(ip))
      && (Claimed(after, t) <==>
            Claimed(subnets, t) && forall a | a in order :: ReadIp(a) != Some(t.ip) && ReadTcp(a) != Some(t))
  {
    hide ReadIp, ReadTcp, RemoveIP, RemoveTCP, Tidy, Has, Claimed;
    if order != [] {
      RemoveIPEffect(subnets, order[0]);
      RemoveTCPEffect(RemoveIP(subnets, order[0]), order[0]);
      ReleaseFrees(RemoveTCP(RemoveIP(subnets, order[0]), order[0]), order[1..], ip, t);
      assert forall a :: a in order <==> a == order[0] || a in order[1..];
    }
  }

  /**
   A closed connection frees its own address, the addresses of all aliases its id owned,
   foreign ones included, and the ports on them; nothing else is freed or claimed.
   */
  lemma DisconnectFrees(st: State, id: string, order: seq<string>, ip: Ip, t: Tcp)
    requires Tidy(st.subnets) && Enumerates(order, Owned(st.aliases, id))
    ensures var after := Disconnect(st, id, order).subnets;
      && Tidy(after)
      && (Has(after, ip) <==>
            Has(st.subnets, ip) && ReadIp(id) != Some(ip)
            && forall a | a in st.aliases && st.aliases[a].id == id :: ReadIp(a) != Some(ip))
      && (Claimed(after, t) <==>
            Claimed(st.subnets, t) && ReadIp(id) != Some(t.ip)
            && forall a | a in st.aliases && st.aliases[a].id == id :: ReadIp(a) != Some(t.ip) && ReadTcp(a) != Some(t))
  {
    hide ReadIp, ReadTcp, RemoveIP, RemoveTCP, Tidy, Has, Claimed, ReleaseAll, Deliver;
    RemoveIPEffect(st.subnets, id);
    ReleaseFrees(RemoveIP(st.subnets, id), order, ip, t);
    forall a: string ensures a in order <==> a in st.aliases && st.aliases[a].id == id {
      assert a in order <==> a in Owned(st.aliases, id);
    }
  }

  lemma {:induction false} RemovalCount(id: string, order: seq<string>, a: string)
    ensures multiset(Removals(id, order))[Alias(id, a, false, None, false)] == multiset(order)[a]
  {
    if order != [] {
      RemovalCount(id, order[1..], a);
      assert order == [order[0]] + order[1..];
      assert Removals(id, order) == [Alias(id, order[0], false, None, false)] + Removals(id, order[1..]);
    }
  }

  lemma {:induction false} OnceEach(order: seq<string>, a: string)
    requires forall i, j | 0 <= i < j < |order| :: order[i] != order[j]
    ensures multiset(order)[a] == if a in order then 1 else 0
  {
    if order != [] {
      assert order == [order[0]] + order[1..];
      OnceEach(order[1..], a);
      assert order[0] !in order[1..];
    }
  }

  lemma FarewellBox(st: State, id: string, order: seq<string>, p: Peer)
    ensures Box(Disconnect(st, id, order).mail, p) ==
      Box(st.mail, p) + if p in Peers(st.clients) && p.id != id then [Goodbye(id)] + Removals(id, order) else []
  {
    hide ReleaseAll, RemoveIP, Removals;
    PeerKnown(st.clients - {id}, p);
    PeerKnown(st.clients, p);
  }

  lemma FarewellOrder(box: seq<Message>, id: string, order: seq<string>)
    ensures var after, n := box + ([Goodbye(id)] + Removals(id, order)), |box|;
      && |after| == n + 1 + |order| && after[..n] == box && after[n] == Goodbye(id)
      && forall i | 0 <= i < |order| :: after[n + 1 + i] == Alias(id, order[i], false, None, false)
  {}

  lemma PeerKnown(clients: map<string, nat>, p: Peer)
    ensures p in Peers(clients) <==> p.id in clients && clients[p.id] == p.conn
  {}

  /**
   A closed connection sends each remaining client the Goodbye and then the removals in
   the order of the aliases: one for each alias its id owned and none for any other.
   Nobody else is sent anything.
   */
  lemma DisconnectAnnounces(st: State, id: string, order: seq<string>, p: Peer, a: string)
    requires Enumerates(order, Owned(st.aliases, id))
    ensures var after := Disconnect(st, id, order);
      var remains := p in Peers(st.clients) && p.id != id;
      && Count(after.mail, p, Goodbye(id)) == Count(st.mail, p, Goodbye(id)) + (if remains then 1 else 0)
      && Count(after.mail, p, Alias(id, a, false, None, false)) ==
           Count(st.mail, p, Alias(id, a, false, None, false))
             + (if remains && a in Owned(st.aliases, id) then 1 else 0)
      && (!remains ==> Box(after.mail, p) == Box(st.mail, p))
      && (remains ==>
            var n := |Box(st.mail, p)|;
            && |Box(after.mail, p)| == n + 1 + |order| && Box(after.mail, p)[..n] == Box(st.mail, p)
            && Box(after.mail, p)[n] == Goodbye(id)
            && forall i | 0 <= i < |order| :: Box(after.mail, p)[n + 1 + i] == Alias(id, order[i], false, None, false))
  {
    hide Disconnect, Box, Peers;
    RemovalCount(id, order, a);
    OnceEach(order, a);
    assert a in order <==> a in Owned(st.aliases, id);
    assert multiset(Removals(id, order))[Goodbye(id)] == 0 by { assert Goodbye(id) !in Removals(id, order); }
    FarewellBox(st, id, order, p);
    FarewellOrder(Box(st.mail, p), id, order);
    hide Removals, Enumerates, Owned;
  }

  // ------------------------------------------------------------ shutdowns

  predicate AllClaimed(st: State) {
    forall a | a in st.aliases :: Meaning(a).Some? && Claimed(st.subnets, Meaning(a).value)
  }

  ghost predicate AllRegistered(st: State) { forall t: Tcp :: Claimed(st.subnets, t) ==> PrintTcp(t) in st.aliases }

  /** Another alias is registered on the address of this one. */
  predicate HasSibling(st: State, alias: string) {
    exists b :: b in st.aliases && b != alias && ReadIp(b) == ReadIp(alias)
  }

  lemma FreedClaims(st: State, alias: string)
    requires Tidy(st.subnets) && Meaning(alias).Some?
    ensures var after := RemoveIP(RemoveTCP(st.subnets, alias), alias);
      var ip := Meaning(alias).value.ip;
      && Tidy(after)
      && (forall i: Ip :: Has(after, i) <==> Has(st.subnets, i) && i != ip)
      && (forall t: Tcp :: Claimed(after, t) <==> Claimed(st.subnets, t) && t.ip != ip)
  {
    MeaningOf(Meaning(alias).value);
    hide ReadIp, ReadTcp, PrintTcp, RemoveTCP, RemoveIP;
    RemoveTCPEffect(st.subnets, alias);
    RemoveIPEffect(RemoveTCP(st.subnets, alias), alias);
  }

  lemma RegisteredClaims(st: State, tb: Table, b: string)
    requires Agrees(st, tb) && b in st.aliases
    ensures Meaning(b).Some? && Claimed(st.subnets, Meaning(b).value) && ReadIp(b) == Some(Meaning(b).value.ip)
    ensures PrintTcp(Meaning(b).value) == b
  {
    hide ReadIp, ReadTcp, PrintIp, Claimed;
    MeaningOf(Meaning(b).value);
  }

  lemma StillRegistered(st: State, tb: Table, alias: string, after: State)
    requires Agrees(st, tb) && alias in st.aliases && after.aliases == st.aliases - {alias}
    requires forall t: Tcp :: Claimed(after.subnets, t) <==> Claimed(st.subnets, t) && t.ip != Meaning(alias).value.ip
    ensures AllRegistered(after)
  {
    hide ReadIp, ReadTcp, PrintIp, PrintTcp, Meaning, IpMeaning;
    forall t: Tcp | Claimed(after.subnets, t) ensures PrintTcp(t) in after.aliases {
      assert t in tb.bound;
      assert Has(st.subnets, t.ip);
      MeaningOf(t);
    }
  }

  lemma StillClaimed(st: State, tb: Table, alias: string, after: State)
    requires Agrees(st, tb) && alias in st.aliases && after.aliases == st.aliases - {alias}
    requires forall t: Tcp :: Claimed(after.subnets, t) <==> Claimed(st.subnets, t) && t.ip != Meaning(alias).value.ip
    ensures AllClaimed(after) <==> !HasSibling(st, alias)
  {
    hide ReadIp, ReadTcp, PrintIp, PrintTcp, Claimed, Agrees, Meaning;
    forall b | b in st.aliases
      ensures Meaning(b).Some? && Claimed(st.subnets, Meaning(b).value) && ReadIp(b) == Some(Meaning(b).value.ip)
    {
      RegisteredClaims(st, tb, b);
    }
    if HasSibling(st, alias) {
      var b :| b in st.aliases && b != alias && ReadIp(b) == ReadIp(alias);
      assert b in after.aliases && !Claimed(after.subnets, Meaning(b).value);
    }
  }

  /**
   An accepted shutdown frees the whole address of the alias, although its client
   stays connected: every registered alias still has its port claimed exactly when
   no other alias is registered on that address. Every claimed port still has a
   registered alias.
   */
  lemma ShutdownEffect(st: State, tb: Table, conn: nat, id: string, alias: string)
    requires Agrees(st, tb) && alias in st.aliases && st.aliases[alias].id == id
    ensures var after := Handle(st, conn, Shutdown(id, alias)).0;
      && after.clients == st.clients && id in after.clients
      && after.aliases == st.aliases - {alias}
      && (forall i: Ip :: Has(after.subnets, i) <==> Has(st.subnets, i) && Some(i) != IpMeaning(id))
      && AllRegistered(after)
      && (AllClaimed(after) <==> !HasSibling(st, alias))
  {
    hide ReadIp, ReadTcp, PrintIp, PrintTcp, RemoveIP, RemoveTCP, Handle, Deliver, AllRegistered, AllClaimed,
         HasSibling, Claimed, Has;
    ShutdownRuns(st, conn, id, alias);
    FreedClaims(st, alias);
    OwnerIp(st, tb, alias);
    var after := Handle(st, conn, Shutdown(id, alias)).0;
    StillRegistered(st, tb, alias, after);
    StillClaimed(st, tb, alias, after);
    OwnerOnline(st, tb, alias);
  }

  lemma OwnerOnline(st: State, tb: Table, alias: string)
    requires Agrees(st, tb) && alias in st.aliases
    ensures st.aliases[alias].id in st.clients
  {
    OwnerIp(st, tb, alias);
    RegisteredClaims(st, tb, alias);
    OnlineClient(st, tb, Meaning(alias).value.ip);
  }

  /**
   After an accepted shutdown the next knock on that subnet is issued the id of
   the client that is still connected, and replaces its connection, exactly when
   every lower suffix was taken.
   */
  lemma ShutdownReissues(st: State, tb: Table, conn: nat, id: string, alias: string, newcomer: nat)
    requires Agrees(st, tb) && alias in st.aliases && st.aliases[alias].id == id
    requires IpMeaning(id).Some? && IpMeaning(id).value.suffix <= MAX_SUFFIX
    ensures var ip := IpMeaning(id).value;
      var shut := Handle(st, conn, Shutdown(id, alias)).0;
      var issued := CreateIP(shut.subnets, ip.subnet).1;
      && (issued == id <==> ip.suffix < FreeSuffix(st.subnets, ip.subnet))
      && (issued == id ==> Handle(shut, newcomer, Knock(ip.subnet)).0.clients == st.clients[id := newcomer])
  {
    hide ReadTcp, PrintTcp, RemoveIP, RemoveTCP, Handle, Deliver, CreateIP, FreeSuffix, HasSibling, AllClaimed,
         AllRegistered, Tidy, Claimed, SameClaims, SameMembers;
    var ip := IpMeaning(id).value;
    var shut := Handle(st, conn, Shutdown(id, alias)).0;
    ShutdownEffect(st, tb, conn, id, alias);
    ShutdownRuns(st, conn, id, alias);
    FreedClaims(st, alias);
    CreateIPEffect(shut.subnets, ip.subnet);
    KnockRuns(shut, newcomer, ip.subnet);
    var n, m := FreeSuffix(shut.subnets, ip.subnet), FreeSuffix(st.subnets, ip.subnet);
    FreeSuffixIsFree(shut.subnets, ip.subnet);
    FreeSuffixIsFree(st.subnets, ip.subnet);
    assert ip.suffix < n ==> Has(shut.subnets, Ip(ip.subnet, ip.suffix));
    assert m < n ==> Has(shut.subnets, Ip(ip.subnet, m));
    assert n < m ==> Has(st.subnets, Ip(ip.subnet, n));
  }

  /**
   The shortest run to it, on any subnet: one client knocks, binds and shuts its
   alias down; the next client to knock gets the same id while the first is
   connected, and the server loses the first connection.
   */
  lemma ReissueRun(subnet: string, port: nat, first: nat, second: nat)
    requires WellFormedSubnet(subnet)
    ensures var id := PrintIp(Ip(subnet, 0));
      var alias := PrintTcp(Tcp(Ip(subnet, 0), port));
      var knocked := Handle(INITIAL, first, Knock(subnet)).0;
      && Handleable(knocked, Bind(id, alias))
      && var bound := Handle(knocked, first, Bind(id, alias)).0;
      && var shut := Handle(bound, first, Shutdown(id, alias)).0;
      && shut.clients == map[id := first]
      && Handle(shut, second, Knock(subnet)).0.clients == map[id := second]
  {
    hide ReadIp, ReadTcp, PrintIp, PrintTcp, Handle, Agrees, Deliver, Claimable, LowestFree;
    var ip := Ip(subnet, 0);
    var id, t := PrintIp(ip), Tcp(ip, port);
    EmptyAgrees();
    Simulates(INITIAL, EMPTY, Ask(first, Knock(subnet)));
    MeaningOf(t);
    var knocked, tb1 := Handle(INITIAL, first, Knock(subnet)).0, SpecKnock(EMPTY, first, subnet);
    assert SuffixesOnline(EMPTY, subnet) == {} && LowestFree({}) == 0;
    assert tb1.online == map[ip := first] && tb1.bound == map[];
    KnownClient(knocked, tb1, ip);
    var bind := Ask(first, Bind(id, PrintTcp(t)));
    Simulates(knocked, tb1, bind);
    var bound, tb2 := Handle(knocked, first, bind.request).0, SpecDo(tb1, bind);
    assert tb2.online == tb1.online && tb2.bound == map[t := false];
    KnownClient(bound, tb2, ip);
    KnownAlias(bound, tb2, t);
    ShutdownReissues(bound, tb2, first, id, PrintTcp(t), second);
    ShutdownEffect(bound, tb2, first, id, PrintTcp(t));
    NextSuffix(bound, tb2, ip);
    OnlyClient(bound, tb2, ip);
  }

  lemma KnownClient(st: State, tb: Table, ip: Ip)
    requires Agrees(st, tb) && ip in tb.online
    ensures PrintIp(ip) in st.clients && st.clients[PrintIp(ip)] == tb.online[ip]
  {
    OnlineClient(st, tb, ip);
  }

  lemma KnownAlias(st: State, tb: Table, t: Tcp)
    requires Agrees(st, tb) && t in tb.bound && WellFormedSubnet(t.ip.subnet)
    ensures PrintTcp(t) in st.aliases && st.aliases[PrintTcp(t)].id == PrintIp(t.ip)
  {
    MeaningOf(t);
  }

  lemma NextSuffix(st: State, tb: Table, ip: Ip)
    requires Agrees(st, tb) && ip in tb.online && ip.suffix == 0
    ensures FreeSuffix(st.subnets, ip.subnet) > 0
  {
    FreeSuffixIsFree(st.subnets, ip.subnet);
    assert Has(st.subnets, ip);
  }

  lemma OnlyClient(st: State, tb: Table, ip: Ip)
    requires Agrees(st, tb) && ip in tb.online && tb.online.Keys == {ip}
    ensures st.clients == map[PrintIp(ip) := tb.online[ip]]
  {
    hide ReadIp, PrintIp, AliasesAgree;
    OnlineClient(st, tb, ip);
    forall id | id in st.clients ensures id == PrintIp(ip) {
      assert IpMeaning(id).value == ip;
    }
  }
}
