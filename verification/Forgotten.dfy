/**
 Two runs in which `accept` returns an alias that the listener was told to forget: a
 client connects to its own alias while another of its connects is being refused, and
 a caller leaves between the announcement of its alias and the Accept.
 */
module Forgotten {
  import opened Wrappers
  import opened Address
  import opened Allocator
  import opened Server
  import opened Interleaving
  import opened Sending
  import opened Client
  import opened Atomic
  import opened Network
  import opened Calm
  import opened Accepting
  import opened Ordering
  import opened Runs

  /**
   Two connects of one client were received: `refused` to an alias nobody accepts on,
   `granted` to the client's own accepting alias.
   */
  ghost predicate TwoConnects(w: World, p: Peer, t1: nat, refused: Call, t2: nat, granted: Call) {
    && t1 != t2 && t1 in w.tasks && t2 in w.tasks
    && w.tasks[t1] == ConnectReceived(refused) && w.tasks[t2] == ConnectReceived(granted)
    && refused.id == granted.id == p.id
    && Tidy(w.st.subnets) && CreateTCP(w.st.subnets, p.id).Ok?
    && Lookup(w.st.clients, p.id) == Some(p)
    && !Accepts(w.st, refused) && Accepts(w.st, granted)
    && w.st.aliases[granted.remoteAlias].id == p.id
    && CreateTCP(w.st.subnets, p.id).value.1 !in w.st.aliases
  }

  /** Resumes the named handlers one after the other. */
  ghost predicate Resumed(w: World, tids: seq<nat>, w': World)
    decreases |tids|
  {
    if tids == [] then w == w'
    else Enabled(w, Proceed(tids[0])) && Resumed(Next(w, Proceed(tids[0])), tids[1..], w')
  }

  /** The four messages the client gets, in this order. */
  function Confusing(p: Peer, alias: string, refused: Call, granted: Call): seq<Message> {
    [Alias(p.id, alias, true, Some(granted.clientConnectionId), true), Alias(p.id, alias, true, None, false),
     Alias(p.id, alias, false, Some(refused.clientConnectionId), false), Accept(granted.remoteAlias, alias)]
  }

  /** One resumption, as a step of the handler. */
  lemma ResumeOne(w: World, t: nat, rest: seq<nat>, w': World)
    requires t in w.tasks && Runnable(w.st, w.tasks[t])
    requires Resumed(Next(w, Proceed(t)), rest, w')
    ensures Resumed(w, [t] + rest, w')
  {
    assert ([t] + rest)[1..] == rest;
  }

  lemma ResumeThree(w: World, t: nat, w1: World, w2: World, w3: World)
    requires Enabled(w, Proceed(t)) && w1 == Next(w, Proceed(t))
    requires Enabled(w1, Proceed(t)) && w2 == Next(w1, Proceed(t))
    requires Enabled(w2, Proceed(t)) && w3 == Next(w2, Proceed(t))
    ensures Resumed(w, [t, t, t], w3)
  {
    hide Next, Runnable;
    assert Resumed(w3, [], w3);
    ResumeOne(w2, t, [], w3);
    ResumeOne(w1, t, [t], w3);
    ResumeOne(w, t, [t, t], w3);
    assert [t] + [t, t] == [t, t, t] && [t] + [t] == [t, t] && [t] + [] == [t];
  }

  /** The refused connect runs until only its answer is left: its port is free again. */
  function AfterRelease(w: World, p: Peer, t1: nat, refused: Call): World
    requires CreateTCP(w.st.subnets, p.id).Ok?
  {
    var (subnets, alias) := CreateTCP(w.st.subnets, p.id).value;
    World(w.st.(subnets := RemoveTCP(subnets, alias)), w.tasks[t1 := ConnectReleased(refused, alias, Some(p))])
  }

  lemma Refuses(w: World, p: Peer, t1: nat, refused: Call)
    requires t1 in w.tasks && w.tasks[t1] == ConnectReceived(refused) && refused.id == p.id
    requires CreateTCP(w.st.subnets, p.id).Ok? && Lookup(w.st.clients, p.id) == Some(p) && !Accepts(w.st, refused)
    ensures Resumed(w, [t1, t1, t1], AfterRelease(w, p, t1, refused))
  {
    hide CreateTCP, RemoveTCP;
    var (subnets, alias) := CreateTCP(w.st.subnets, p.id).value;
    var w1 := Next(w, Proceed(t1));
    var w2 := Next(w1, Proceed(t1));
    var w3 := Next(w2, Proceed(t1));
    assert w2.tasks[t1] == ConnectRefused(refused, alias, Some(p));
    assert w3.tasks == AfterRelease(w, p, t1, refused).tasks;
    ResumeThree(w, t1, w1, w2, w3);
  }

  /** A received connect to an accepting alias, and what it finds. */
  ghost predicate Grantable(w: World, p: Peer, q: Peer, t2: nat, granted: Call, alias: string) {
    && t2 in w.tasks && w.tasks[t2] == ConnectReceived(granted) && granted.id == p.id
    && CreateTCP(w.st.subnets, p.id).Ok? && CreateTCP(w.st.subnets, p.id).value.1 == alias
    && Lookup(w.st.clients, p.id) == Some(p) && Accepts(w.st, granted) && alias !in w.st.aliases
    && Lookup(w.st.clients, w.st.aliases[granted.remoteAlias].id) == Some(q)
  }

  /** The alias is registered for the caller and announced to the listener. */
  ghost predicate Announced(w: World, p: Peer, q: Peer, t2: nat, granted: Call, alias: string, w': World) {
    && w'.tasks == w.tasks[t2 := ConnectAnnounced(granted, alias, p, q)]
    && w'.st.clients == w.st.clients && w'.st.aliases == w.st.aliases[alias := MAlias(p.id, false)]
    && Box(w'.st.mail, q) == Box(w.st.mail, q)
         + (if p == q then [Alias(p.id, alias, true, Some(granted.clientConnectionId), true)] else [])
         + [Alias(p.id, alias, true, None, false)]
  }

  /** A granted connect, up to its announcement to the listener. */
  lemma Announces(w: World, p: Peer, q: Peer, t2: nat, granted: Call, alias: string) returns (w': World)
    requires Grantable(w, p, q, t2, granted, alias)
    ensures Resumed(w, [t2, t2, t2], w') && Announced(w, p, q, t2, granted, alias, w')
  {
    hide CreateTCP, Deliver, Box;
    var w1 := Next(w, Proceed(t2));
    assert w1.tasks[t2] == ConnectCreated(granted, alias);
    var w2 := Next(w1, Proceed(t2));
    assert w2.tasks[t2] == ConnectPublished(granted, alias, p);
    assert w2.st.aliases[granted.remoteAlias].id == q.id;
    w' := Next(w2, Proceed(t2));
    assert w'.tasks == w.tasks[t2 := ConnectAnnounced(granted, alias, p, q)];
    ResumeThree(w, t2, w1, w2, w');
    TwoPosts(w.st.mail, p, Alias(p.id, alias, true, Some(granted.clientConnectionId), true),
             q, Alias(p.id, alias, true, None, false));
  }

  lemma TwoPosts(mail: Mail, p: Peer, first: Message, q: Peer, second: Message)
    ensures Box(Deliver(Deliver(mail, map[p := [first]]), map[q := [second]]), q)
         == Box(mail, q) + (if p == q then [first] else []) + [second]
  {}

  lemma {:induction false} ResumedTwice(w: World, a: seq<nat>, w1: World, b: seq<nat>, w2: World)
    requires Resumed(w, a, w1) && Resumed(w1, b, w2)
    ensures Resumed(w, a + b, w2)
    decreases |a|
  {
    hide Next, Enabled;
    if a == [] {
      assert a + b == b;
    } else {
      ResumedTwice(Next(w, Proceed(a[0])), a[1..], w1, b, w2);
      assert (a + b)[1..] == a[1..] + b;
    }
  }

  /** The released port is the next one offered. */
  lemma SameOfferAfterRelease(w: World, p: Peer, t1: nat, refused: Call)
    requires Tidy(w.st.subnets) && CreateTCP(w.st.subnets, p.id).Ok?
    ensures var after := AfterRelease(w, p, t1, refused).st.subnets;
      CreateTCP(after, p.id).Ok? && CreateTCP(after, p.id).value.1 == CreateTCP(w.st.subnets, p.id).value.1
  {
    hide PrintTcp, ReadTcp, Tidy;
    var (subnets, alias) := CreateTCP(w.st.subnets, p.id).value;
    CreateTCPEffect(w.st.subnets, p.id);
    RemoveTCPEffect(subnets, alias);
    var after := RemoveTCP(subnets, alias);
    Locates(w.st.subnets, after, p.id);
    hide CreateTCP, RemoveTCP;
    assert SameClaims(w.st.subnets, after);
    SameOffer(w.st.subnets, after, p.id);
  }

  /**
   Refusal, release, the other connect up to its announcement, the refusal's answer,
   then the accept: the client is told of its alias and told to forget it before it
   hears that the alias was accepted.
   */
  lemma RemovalOvertakesAccept(w: World, p: Peer, t1: nat, refused: Call, t2: nat, granted: Call) returns (w': World)
    requires TwoConnects(w, p, t1, refused, t2, granted)
    ensures Resumed(w, [t1, t1, t1] + [t2, t2, t2] + [t1, t2], w')
    ensures Box(w'.st.mail, p) == Box(w.st.mail, p)
      + Confusing(p, CreateTCP(w.st.subnets, p.id).value.1, refused, granted)
  {
    var alias := CreateTCP(w.st.subnets, p.id).value.1;
    hide CreateTCP, Deliver, RemoveTCP, Tidy, Box, Resumed;
    var w3 := AfterRelease(w, p, t1, refused);
    Refuses(w, p, t1, refused);
    SameOfferAfterRelease(w, p, t1, refused);
    var w6 := Announces(w3, p, p, t2, granted, alias);
    ResumedTwice(w, [t1, t1, t1], w3, [t2, t2, t2], w6);
    w' := Answers(w6, p, t1, refused, t2, granted, alias);
    ResumedTwice(w, [t1, t1, t1] + [t2, t2, t2], w6, [t1, t2], w');
    Concatenated(Box(w.st.mail, p), Alias(p.id, alias, true, Some(granted.clientConnectionId), true),
                 Alias(p.id, alias, true, None, false),
                 Alias(p.id, alias, false, Some(refused.clientConnectionId), false),
                 Accept(granted.remoteAlias, alias));
  }

  lemma Concatenated(box: seq<Message>, a: Message, b: Message, c: Message, d: Message)
    ensures box + [a] + [b] + [c, d] == box + [a, b, c, d]
  {}

  lemma Answers(w: World, p: Peer, t1: nat, refused: Call, t2: nat, granted: Call, alias: string) returns (w': World)
    requires t1 != t2 && t1 in w.tasks && w.tasks[t1] == ConnectReleased(refused, alias, Some(p)) && refused.id == p.id
    requires t2 in w.tasks && w.tasks[t2] == ConnectAnnounced(granted, alias, p, p)
    ensures Resumed(w, [t1, t2], w')
    ensures Box(w'.st.mail, p) == Box(w.st.mail, p) +
      [Alias(p.id, alias, false, Some(refused.clientConnectionId), false), Accept(granted.remoteAlias, alias)]
  {
    hide Deliver, Box;
    var w1 := Next(w, Proceed(t1));
    w' := Next(w1, Proceed(t2));
    assert Resumed(w', [], w');
    ResumeOne(w1, t2, [], w');
    ResumeOne(w, t1, [t2], w');
    assert [t1] + [t2] == [t1, t2] && [t2] + [] == [t2];
    PostsAdd(w.st.mail, p, Alias(p.id, alias, false, Some(refused.clientConnectionId), false),
      Accept(granted.remoteAlias, alias));
  }

  lemma PostsAdd(mail: Mail, p: Peer, first: Message, second: Message)
    ensures Box(Deliver(Deliver(mail, map[p := [first]]), map[p := [second]]), p) == Box(mail, p) + [first, second]
  {}

  // ------------------------------------------------- the same in the whole system

  function Works(tids: seq<nat>): seq<NetEvent> { seq(|tids|, i requires 0 <= i < |tids| => Work(tids[i])) }

  /** Resuming handlers of the server, as a run of the whole system. */
  lemma {:induction false} Lifts(n: Net, tids: seq<nat>, w': World) returns (n': Net)
    requires Resumed(n.world, tids, w')
    ensures Leads(n, Works(tids), n') && n'.world == w'
    ensures n'.users == n.users && n'.inbox == n.inbox && n'.cursors == n.cursors && n'.closed == n.closed
      && n'.calls == n.calls
    decreases |tids|
  {
    hide Next, Leads, Then, Works;
    if tids == [] {
      n' := n;
      NoWorks(n);
    } else {
      var n1 := Then(n, Work(tids[0]));
      WorkLifts(n, tids[0]);
      LeadsOne(n, Work(tids[0]));
      n' := Lifts(n1, tids[1..], w');
      LeadsTwice(n, [Work(tids[0])], n1, Works(tids[1..]), n');
      WorksCons(tids);
    }
  }

  lemma NoWorks(n: Net)
    ensures Leads(n, Works([]), n)
  {}

  lemma WorksCons(tids: seq<nat>)
    requires tids != []
    ensures Works(tids) == [Work(tids[0])] + Works(tids[1..])
  {}

  lemma WorkLifts(n: Net, tid: nat)
    requires Enabled(n.world, Proceed(tid))
    ensures CanHappen(n, Work(tid))
    ensures var n' := Then(n, Work(tid));
      && n'.world == Next(n.world, Proceed(tid))
      && n'.users == n.users && n'.inbox == n.inbox && n'.cursors == n.cursors && n'.closed == n.closed
      && n'.calls == n.calls
  {
    hide Next, IssuedBy, DecidedBy, Pairs;
  }

  /** A client reads the next message, knowing what it is. */
  lemma ReadsThis(n: Net, p: Peer, box: seq<Message>, r: nat) returns (n': Net)
    requires p.conn in n.users && p.conn !in n.closed && Mailbox(n, p) == box && ReadCount(n, p) == r < |box|
    ensures CanHappen(n, Read(p)) && n' == Then(n, Read(p)) && Leads(n, [Read(p)], n')
    ensures n'.world == n.world && n'.closed == n.closed && Mailbox(n', p) == box && ReadCount(n', p) == r + 1
    ensures n'.users == n.users[p.conn := HandleMessage(n.users[p.conn], box[r])]
  {
    hide Leads, Box, HandleMessage, Then, CanHappen;
    ReadStep(n, p);
    n' := Then(n, Read(p));
    LeadsOne(n, Read(p));
  }

  function Reads(p: Peer, count: nat): seq<NetEvent> { seq(count, _ => Read(p)) }

  function HandleAll(u: User, msgs: seq<Message>): User
    decreases |msgs|
  {
    if msgs == [] then u else HandleAll(HandleMessage(u, msgs[0]), msgs[1..])
  }

  lemma NoReads(n: Net, p: Peer)
    ensures Leads(n, Reads(p, 0), n)
  {}

  /** Nothing but alias messages so far: the accept call still waits. */
  lemma {:induction false} StillWaits(u: User, msgs: seq<Message>)
    requires forall m | m in msgs :: !m.Accept? && !m.Acknowledgement?
    ensures HandleAll(u, msgs).accepts == u.accepts
    decreases |msgs|
  {
    hide HandleMessage;
    if msgs != [] {
      assert msgs[0] in msgs && forall m | m in msgs[1..] :: m in msgs;
      AliasLeaves(u, msgs[0]);
      StillWaits(HandleMessage(u, msgs[0]), msgs[1..]);
    }
  }

  /** Told, whatever came before, and then told to forget. */
  lemma {:induction false} ForgetsLast(u: User, msgs: seq<Message>, m: Message)
    requires m.Alias? && !m.isSet
    ensures m.alias !in HandleAll(u, msgs + [m]).told
    decreases |msgs|
  {
    hide NotifyAlias, NotifyConnect, NotifyAccept;
    if msgs == [] {
      assert HandleAll(u, [m]) == HandleAll(HandleMessage(u, m), []);
      assert msgs + [m] == [m];
    } else {
      assert (msgs + [m])[1..] == msgs[1..] + [m];
      ForgetsLast(HandleMessage(u, msgs[0]), msgs[1..], m);
    }
  }

  /** Reading a mail whose last two messages withdraw the alias and accept it. */
  lemma AcceptsForgotten(n: Net, p: Peer, msgs: seq<Message>, removal: Message, bound: string) returns (n1: Net)
    requires p.conn in n.users && p.conn !in n.closed && ReadCount(n, p) <= |Mailbox(n, p)|
    requires removal.Alias? && !removal.isSet
    requires Mailbox(n, p)[ReadCount(n, p)..] == msgs + [removal] + [Accept(bound, removal.alias)]
    requires forall m | m in msgs :: !m.Accept? && !m.Acknowledgement?
    requires n.users[p.conn].accepts == map[0 := AcceptCall(bound, Pending)]
    ensures Leads(n, Reads(p, |msgs| + 1), n1) && CanHappen(n1, Read(p))
    ensures Returns(n1, Read(p), p.conn, 0, removal.alias) && removal.alias !in Then(n1, Read(p)).users[p.conn].told
  {
    hide Leads, Box, HandleMessage, HandleAll, Then, CanHappen, Returns;
    var all, r := Mailbox(n, p), ReadCount(n, p);
    var shorter := msgs + [removal];
    n1 := ReadsUpTo(n, p, all, r, shorter);
    StillWaits(n.users[p.conn], shorter);
    ForgetsLast(n.users[p.conn], msgs, removal);
    assert all[r + |shorter|] == Accept(bound, removal.alias) by {
      assert all[r..][|shorter|] == Accept(bound, removal.alias);
    }
    ReadStep(n1, p);
    LastRead(n1, p, bound, removal.alias);
  }

  lemma {:induction false} ReadsUpTo(n: Net, p: Peer, box: seq<Message>, r: nat, msgs: seq<Message>) returns (n': Net)
    requires p.conn in n.users && p.conn !in n.closed && Mailbox(n, p) == box && ReadCount(n, p) == r
    requires r + |msgs| <= |box| && box[r..r + |msgs|] == msgs
    ensures Leads(n, Reads(p, |msgs|), n') && n'.world == n.world && n'.closed == n.closed
    ensures Mailbox(n', p) == box && ReadCount(n', p) == r + |msgs|
    ensures n'.users == n.users[p.conn := HandleAll(n.users[p.conn], msgs)]
    decreases |msgs|
  {
    hide Leads, Box, HandleMessage, Then, CanHappen;
    if msgs == [] {
      n' := n;
      NoReads(n, p);
      assert n.users[p.conn := n.users[p.conn]] == n.users;
    } else {
      assert box[r] == msgs[0] && box[r + 1..r + |msgs|] == msgs[1..];
      var n1 := ReadsThis(n, p, box, r);
      n' := ReadsUpTo(n1, p, box, r + 1, msgs[1..]);
      LeadsTwice(n, [Read(p)], n1, Reads(p, |msgs| - 1), n');
      assert Reads(p, |msgs|) == [Read(p)] + Reads(p, |msgs| - 1);
    }
  }

  lemma LastRead(n: Net, p: Peer, bound: string, alias: string)
    requires p.conn in n.users && p.conn !in n.closed && ReadCount(n, p) < |Mailbox(n, p)|
    requires Mailbox(n, p)[ReadCount(n, p)] == Accept(bound, alias)
    requires n.users[p.conn].accepts == map[0 := AcceptCall(bound, Pending)] && alias !in n.users[p.conn].told
    ensures CanHappen(n, Read(p)) && Returns(n, Read(p), p.conn, 0, alias)
    ensures alias !in Then(n, Read(p)).users[p.conn].told
  {
    hide NotifyAlias, NotifyConnect, Box;
  }

  // --------------------------------------------------------------- the two runs

  /** Two runs in a row pass through the state between them. */
  lemma {:induction false} PassesThrough(ns: seq<Net>, es: seq<NetEvent>, n: Net, a: seq<NetEvent>, n1: Net)
    requires |ns| == |es| + 1 && ns[0] == n && a <= es && Leads(n, a, n1)
    requires forall k | 0 <= k < |es| :: CanHappen(ns[k], es[k]) && ns[k + 1] == Then(ns[k], es[k])
    ensures ns[|a|] == n1
    decreases |a|
  {
    hide CanHappen, Then;
    if a != [] {
      var tail, rest := ns[1..], es[1..];
      forall k | 0 <= k < |rest| ensures CanHappen(tail[k], rest[k]) && tail[k + 1] == Then(tail[k], rest[k]) {
        assert tail[k] == ns[k + 1] && rest[k] == es[k + 1] && tail[k + 1] == ns[k + 2];
      }
      PassesThrough(tail, rest, Then(n, a[0]), a[1..], n1);
    }
  }

  /** A run that ends with the read that makes the accept return. */
  lemma EndsReturning(a: seq<NetEvent>, n1: Net, c: nat, subnet: string, b: seq<NetEvent>, n6: Net, p: Peer,
                      alias: string)
    returns (ns: seq<Net>, es: seq<NetEvent>)
    requires Leads(BEGIN, a, n1) && c in n1.users && n1.users[c].id == HostId(subnet) && WellFormedSubnet(subnet)
    requires Leads(n1, [CallBind(c, 0, HostAlias(subnet))] + b, n6) && CanHappen(n6, Read(p))
    requires forall e | e in a + b :: !e.CallBind?
    requires Returns(n6, Read(p), c, 0, alias) && alias !in Then(n6, Read(p)).users[c].told
    ensures NetRun(ns, es) && OwnBinds(ns, es) && es == a + [CallBind(c, 0, HostAlias(subnet))] + b + [Read(p)]
    ensures var k := |es| - 1;
      && Returns(ns[k], es[k], c, 0, alias) && c in ns[k + 1].users
      && alias !in ns[k + 1].users[c].told
  {
    hide CanHappen, Then, Leads, HostAlias, HostId, WellFormedSubnet, Returns;
    var bind := [CallBind(c, 0, HostAlias(subnet))];
    LeadsTwice(BEGIN, a, n1, bind + b, n6);
    AndThen(BEGIN, a + (bind + b), n6, Read(p));
    es := a + bind + b + [Read(p)];
    assert a + (bind + b) + [Read(p)] == es;
    ns := States(BEGIN, es, Then(n6, Read(p)));
    PassesThrough(ns, es, BEGIN, a, n1);
    PassesThrough(ns, es, BEGIN, a + (bind + b), n6);
    assert es[|a|] == bind[0] && es[|es| - 1] == Read(p);
    OwnHost(subnet);
    OneBind(a, bind[0], b, Read(p));
    ReturnsHere(n6, Read(p), c, alias);
  }

  lemma OneBind(a: seq<NetEvent>, bind: NetEvent, b: seq<NetEvent>, last: NetEvent)
    requires !last.CallBind? && forall e | e in a + b :: !e.CallBind?
    ensures var es := a + [bind] + b + [last]; forall k | 0 <= k < |es| && es[k].CallBind? :: k == |a|
  {
    var es := a + [bind] + b + [last];
    forall k | 0 <= k < |es| && k != |a| ensures !es[k].CallBind? {
      if k < |a| {
        assert es[k] == a[k] && a[k] in a + b;
      } else if k < |es| - 1 {
        assert es[k] == b[k - |a| - 1] && b[k - |a| - 1] in a + b;
      }
    }
  }

  lemma ReturnsHere(n: Net, e: NetEvent, c: nat, alias: string)
    requires CanHappen(n, e) && Returns(n, e, c, 0, alias)
    ensures c in Then(n, e).users
  {}

  lemma OwnHost(subnet: string)
    requires WellFormedSubnet(subnet)
    ensures ReadIp(HostAlias(subnet)) == ReadIp(HostId(subnet))
  {
    AliasReadAsIp(Tcp(Ip(subnet, 0), 1));
  }

  lemma TidySolo(subnets: Subnets, subnet: string, ports: seq<nat>)
    requires WellFormedSubnet(subnet) && subnets == map[subnet := map[0 := ports]] && |ports| <= 1
    ensures Tidy(subnets)
  {}

  /** The port of a host and the first one are different, and no alias is empty. */
  lemma PortsDiffer(s: string, t: string)
    requires WellFormedSubnet(s) && WellFormedSubnet(t)
    ensures PrintTcp(Tcp(Ip(t, 0), 0)) != HostAlias(s) && HostAlias(s) != ""
  {
    if PrintTcp(Tcp(Ip(t, 0), 0)) == HostAlias(s) { TcpInjective(Tcp(Ip(t, 0), 0), Tcp(Ip(s, 0), 1)); }
    assert |HostAlias(s)| > 0;
  }

  lemma IsSettled(n: Net, c: nat, subnet: string)
    requires Quiet(n) && n.users == map[c := FRESH.(id := HostId(subnet), isConnected := true)]
    requires n.world.st.clients == map[HostId(subnet) := c] && n.world.st.aliases == map[]
    requires n.world.st.subnets == map[subnet := map[0 := []]] && n.inbox == map[c := []]
    requires ReadCount(n, Peer(HostId(subnet), c)) == |Mailbox(n, Peer(HostId(subnet), c))|
    ensures Settled(n, c, subnet)
  {
    hide Box;
  }

  /** The only client hosts an alias, has read its mail and waits for connections. */
  ghost predicate Waiting(n: Net, c: nat, subnet: string) {
    && Quiet(n) && n.users.Keys == {c} && n.users[c].id == HostId(subnet) && n.users[c].isConnected
    && n.users[c].accepts == map[0 := AcceptCall(HostAlias(subnet), Pending)]
    && n.inbox == map[c := []] && n.calls == map[]
    && n.world.st.clients == map[HostId(subnet) := c] && n.world.st.subnets == map[subnet := map[0 := [1]]]
    && n.world.st.aliases == map[HostAlias(subnet) := MAlias(HostId(subnet), true)]
    && (var p := Peer(HostId(subnet), c); ReadCount(n, p) == |Mailbox(n, p)|)
  }

  /** A host that has arrived and waits for connections. */
  lemma OneHosts(c: nat, subnet: string) returns (n1: Net, n: Net)
    requires WellFormedSubnet(subnet)
    ensures Leads(BEGIN, Arrival(c, subnet), n1) && Leads(n1, Hosting(c, subnet), n) && Waiting(n, c, subnet)
    ensures c in n1.users && n1.users[c].id == HostId(subnet)
    ensures forall q: Peer | q.conn != c && q.id != HostId(subnet) :: ReadCount(n, q) == 0 && Mailbox(n, q) == []
  {
    hide Leads, CanHappen, Then, Box, WellFormedSubnet, PrintIp, HostAlias, Arrival, Hosting, Mailbox, ReadCount;
    forall q: Peer ensures Unused(BEGIN, q) { NothingSent(q); }
    NothingSent(Peer(HostId(subnet), c));
    n1 := Arrives(BEGIN, c, subnet);
    IsSettled(n1, c, subnet);
    n := Hosts(n1, c, subnet);
    forall q: Peer | q.conn != c && q.id != HostId(subnet) ensures ReadCount(n, q) == 0 && Mailbox(n, q) == [] {
      assert Unused(BEGIN, q);
      assert ReadCount(n1, q) == ReadCount(BEGIN, q) && Mailbox(n1, q) == Mailbox(BEGIN, q);
    }
  }

  lemma HostingStarts(c: nat, subnet: string)
    ensures Hosting(c, subnet) == [CallBind(c, 0, HostAlias(subnet))] + Hosting(c, subnet)[1..]
    ensures forall e | e in Hosting(c, subnet)[1..] :: !e.CallBind? && !e.CallShutdown? && !e.Hangup?
    ensures forall e | e in Arrival(c, subnet) :: !e.CallBind? && !e.CallShutdown? && !e.Hangup?
  {}

  /** The host's calls: to an alias nobody has, and to its own. */
  function SelfCalls(c: nat, subnet: string): seq<NetEvent> {
    [CallConnect(c, "x", ""), Serve(c, 1)] + [CallConnect(c, "y", HostAlias(subnet)), Serve(c, 2)]
  }

  function BothReceived(subnet: string): map<nat, Task> {
    map[1 := ConnectReceived(Call(HostId(subnet), "", "x")),
        2 := ConnectReceived(Call(HostId(subnet), HostAlias(subnet), "y"))]
  }

  lemma SelfConnects(c: nat, subnet: string, n: Net) returns (n': Net)
    requires WellFormedSubnet(subnet) && Waiting(n, c, subnet)
    ensures Leads(n, SelfCalls(c, subnet), n') && n'.world == World(n.world.st, BothReceived(subnet))
    ensures n'.users.Keys == {c} && n'.users[c].accepts == n.users[c].accepts && n'.closed == {}
      && n'.cursors == n.cursors
  {
    hide Leads, CanHappen, Then, Box, WellFormedSubnet, PrintIp, HostAlias, HostId;
    var n1 := ConnectReaches(n, c, "x", "", 1);
    n' := ConnectReaches(n1, c, "y", HostAlias(subnet), 2);
    LeadsTwice(n, [CallConnect(c, "x", ""), Serve(c, 1)], n1,
               [CallConnect(c, "y", HostAlias(subnet)), Serve(c, 2)], n');
  }

  /** The two connects of the host are two that compete for its first port. */
  lemma SelfCompetes(w: World, c: nat, subnet: string)
    requires WellFormedSubnet(subnet) && w.tasks == BothReceived(subnet)
    requires w.st.clients == map[HostId(subnet) := c] && w.st.subnets == map[subnet := map[0 := [1]]]
    requires w.st.aliases == map[HostAlias(subnet) := MAlias(HostId(subnet), true)]
    ensures var id := HostId(subnet);
      && TwoConnects(w, Peer(id, c), 1, Call(id, "", "x"), 2, Call(id, HostAlias(subnet), "y"))
      && CreateTCP(w.st.subnets, id).value.1 == PrintTcp(Tcp(Ip(subnet, 0), 0))
  {
    hide WellFormedSubnet, PrintTcp, HostAlias, HostId, CreateTCP, Tidy;
    PortsDiffer(subnet, subnet);
    FirstPort(w.st.subnets, subnet, [1]);
    TidySolo(w.st.subnets, subnet, [1]);
  }

  /** The server's part of the race, from the two connect requests on. */
  lemma SelfRace(c: nat, subnet: string, n: Net, box: seq<Message>) returns (n': Net)
    requires WellFormedSubnet(subnet) && n.closed == {} && c in n.users
    requires n.world.tasks == BothReceived(subnet) && n.world.st.clients == map[HostId(subnet) := c]
    requires n.world.st.subnets == map[subnet := map[0 := [1]]]
    requires n.world.st.aliases == map[HostAlias(subnet) := MAlias(HostId(subnet), true)]
    requires Mailbox(n, Peer(HostId(subnet), c)) == box && ReadCount(n, Peer(HostId(subnet), c)) == |box|
    ensures Leads(n, Works([1, 1, 1] + [2, 2, 2] + [1, 2]), n')
    ensures n'.users == n.users && n'.closed == {} && ReadCount(n', Peer(HostId(subnet), c)) == |box|
    ensures var id, b, a := HostId(subnet), HostAlias(subnet), PrintTcp(Tcp(Ip(subnet, 0), 0));
      Mailbox(n', Peer(id, c)) == box + ([Alias(id, a, true, Some("y"), true), Alias(id, a, true, None, false)]
                                          + [Alias(id, a, false, Some("x"), false)] + [Accept(b, a)])
  {
    hide Leads, CanHappen, Then, Box, WellFormedSubnet, PrintTcp, HostAlias, HostId, Works, Resumed, TwoConnects,
         CreateTCP;
    var id, b, a := HostId(subnet), HostAlias(subnet), PrintTcp(Tcp(Ip(subnet, 0), 0));
    SelfCompetes(n.world, c, subnet);
    var w := RemovalOvertakesAccept(n.world, Peer(id, c), 1, Call(id, "", "x"), 2, Call(id, b, "y"));
    n' := Lifts(n, [1, 1, 1] + [2, 2, 2] + [1, 2], w);
  }

  /** What happens after the host waits. */
  function Racing(c: nat, subnet: string): seq<NetEvent> {
    SelfCalls(c, subnet) + Works([1, 1, 1] + [2, 2, 2] + [1, 2]) + Reads(Peer(HostId(subnet), c), 3)
  }

  lemma RacingBinds(c: nat, subnet: string)
    ensures forall e | e in Racing(c, subnet) :: !e.CallBind? && !e.CallShutdown? && !e.Hangup?
  {
    OnlyWork([1, 1, 1] + [2, 2, 2] + [1, 2], Peer(HostId(subnet), c), 3);
    hide Works, Reads, HostAlias, HostId;
  }

  lemma Races(c: nat, subnet: string, n: Net) returns (n': Net)
    requires WellFormedSubnet(subnet) && Waiting(n, c, subnet)
    ensures var p, alias := Peer(HostId(subnet), c), PrintTcp(Tcp(Ip(subnet, 0), 0));
      && Leads(n, Racing(c, subnet), n') && CanHappen(n', Read(p))
      && Returns(n', Read(p), c, 0, alias) && alias !in Then(n', Read(p)).users[c].told
  {
    hide Leads, CanHappen, Then, Box, WellFormedSubnet, PrintIp, PrintTcp, HostAlias, HostId, Works, Reads, Returns;
    var id, b, a := HostId(subnet), HostAlias(subnet), PrintTcp(Tcp(Ip(subnet, 0), 0));
    var p := Peer(id, c);
    var n4 := SelfConnects(c, subnet, n);
    var n5 := SelfRace(c, subnet, n4, Mailbox(n, p));
    var told := [Alias(id, a, true, Some("y"), true), Alias(id, a, true, None, false)];
    n' := AcceptsForgotten(n5, p, told, Alias(id, a, false, Some("x"), false), b);
    var connects := SelfCalls(c, subnet);
    var tids := [1, 1, 1] + [2, 2, 2] + [1, 2];
    LeadsTwice(n, connects, n4, Works(tids), n5);
    LeadsTwice(n, connects + Works(tids), n5, Reads(p, 3), n');
  }

  /**
   From the empty system: a client hosts an alias, connects to a missing alias and to its
   own, and its accept returns the alias of its own connect just after it was told to
   forget it, although nobody left, nobody shut down and every bind was on the own address.
   */
  lemma SelfConnectRun(c: nat, subnet: string) returns (ns: seq<Net>, es: seq<NetEvent>)
    requires WellFormedSubnet(subnet)
    ensures NetRun(ns, es) && OwnBinds(ns, es) && Undisturbed(es) && es != []
    ensures var k, alias := |es| - 1, PrintTcp(Tcp(Ip(subnet, 0), 0));
      Returns(ns[k], es[k], c, 0, alias) && c in ns[k + 1].users && alias !in ns[k + 1].users[c].told
  {
    hide Leads, CanHappen, Then, Box, WellFormedSubnet, PrintIp, PrintTcp, HostAlias, HostId, Arrival, Hosting,
         Racing, Returns;
    var n1, n2 := OneHosts(c, subnet);
    var n3 := Races(c, subnet, n2);
    LeadsTwice(n1, Hosting(c, subnet), n2, Racing(c, subnet), n3);
    HostingStarts(c, subnet);
    RacingBinds(c, subnet);
    var rest := Hosting(c, subnet)[1..] + Racing(c, subnet);
    assert Hosting(c, subnet) + Racing(c, subnet) == [CallBind(c, 0, HostAlias(subnet))] + rest;
    ns, es := EndsReturning(Arrival(c, subnet), n1, c, subnet, rest, n3, Peer(HostId(subnet), c),
      PrintTcp(Tcp(Ip(subnet, 0), 0)));
  }

  lemma OnlyWork(tids: seq<nat>, p: Peer, count: nat)
    ensures forall e | e in Works(tids) :: e.Work?
    ensures forall e | e in Reads(p, count) :: e.Read?
  {}

  // ----------------------------------------------------- the caller who leaves

  /** A granted connect was announced, and only the Accept is left to send. */
  ghost predicate AtAccept(n: Net, p: Peer, q: Peer, call: Call, a: string) {
    && n.world.tasks == map[0 := ConnectAnnounced(call, a, p, q)] && a != call.remoteAlias && p.id != q.id
    && Lookup(n.world.st.clients, p.id) == Some(p) && Lookup(n.world.st.clients, q.id) == Some(q)
    && n.world.st.aliases == map[call.remoteAlias := MAlias(q.id, true), a := MAlias(p.id, false)] && n.closed == {}
  }

  /** A granted caller leaves before its handler goes on: what the listener is sent. */
  lemma LeavesBefore(n: Net, p: Peer, q: Peer, call: Call, a: string) returns (n': Net)
    requires AtAccept(n, p, q, call, a)
    ensures Leads(n, [Hangup(p.id, [a]), Work(0)], n')
    ensures n'.users == n.users && n'.cursors == n.cursors && n'.closed == {p.conn}
    ensures Mailbox(n', q) == Mailbox(n, q) + [Goodbye(p.id), Alias(p.id, a, false, None, false)]
      + [Accept(call.remoteAlias, a)]
  {
    hide Leads, Then, Box, Resume, Disconnect, Pairs;
    var hangup := Hangup(p.id, [a]);
    assert Owned(n.world.st.aliases, p.id) == {a};
    assert Enumerates([a], Owned(n.world.st.aliases, p.id));
    assert CanHappen(n, hangup);
    HangupStep(n, hangup);
    var n1 := Then(n, hangup);
    LeadsOne(n, hangup);
    WorkStep(n1, 0);
    n' := Then(n1, Work(0));
    AndThen(n, [hangup], n1, Work(0));
    assert [hangup] + [Work(0)] == [hangup, Work(0)];
    ServerMail(n, hangup, q);
    ServerMail(n1, Work(0), q);
    Farewell(n.world.st, p.id, a, q);
    AcceptSends(n1.world.st, call, a, p, q);
  }

  lemma HangupStep(n: Net, e: NetEvent)
    requires e.Hangup? && CanHappen(n, e)
    ensures var n' := Then(n, e);
      && n'.world.tasks == n.world.tasks && n'.users == n.users && n'.cursors == n.cursors
      && n'.closed == n.closed + {n.world.st.clients[e.id]}
  {}

  lemma Farewell(st: State, id: string, a: string, q: Peer)
    requires Lookup(st.clients, q.id) == Some(q) && q.id != id
    ensures q in Peers(st.clients - {id})
    ensures [Goodbye(id)] + Removals(id, [a]) == [Goodbye(id), Alias(id, a, false, None, false)]
  {
    var rest := st.clients - {id};
    assert q.id in rest && Peer(q.id, rest[q.id]) == q;
  }

  lemma AcceptSends(st: State, call: Call, a: string, p: Peer, q: Peer)
    ensures Runnable(st, ConnectAnnounced(call, a, p, q))
    ensures SentByResume(st, ConnectAnnounced(call, a, p, q), q) == [Accept(call.remoteAlias, a)]
  {}

  /** What the host is sent when a second client arrives and connects, and has not read. */
  ghost predicate HostTold(n: Net, c: nat, s: string, t: string, n': Net) {
    var q, a := Peer(HostId(s), c), PrintTcp(Tcp(Ip(t, 0), 0));
    && ReadCount(n', q) == ReadCount(n, q)
    && Mailbox(n', q) == Mailbox(n, q) + [Greeting(HostId(s), HostId(t)), Alias(HostId(t), a, true, None, false)]
  }

  /** The second client has arrived, and its connect call to the host was received. */
  ghost predicate OtherCalls(n: Net, c: nat, s: string, d: nat, t: string, n': Net) {
    var q := Peer(HostId(s), c);
    && n'.world.tasks == map[0 := ConnectReceived(Call(HostId(t), HostAlias(s), "y"))] && n'.closed == {}
    && n'.world.st.clients == map[HostId(s) := c, HostId(t) := d]
    && n'.world.st.aliases == map[HostAlias(s) := MAlias(HostId(s), true)]
    && t in n'.world.st.subnets && n'.world.st.subnets[t] == map[0 := []]
    && c in n.users && n'.users.Keys == {c, d} && n'.users[c] == n.users[c] && ReadCount(n', q) == ReadCount(n, q)
    && Mailbox(n', q) == Mailbox(n, q) + [Greeting(HostId(s), HostId(t))]
  }

  lemma OtherArrives(c: nat, s: string, d: nat, t: string, n: Net) returns (n': Net)
    requires WellFormedSubnet(s) && WellFormedSubnet(t) && s != t && c != d
    requires Waiting(n, c, s) && Unused(n, Peer(HostId(t), d))
    ensures Leads(n, Arrival(d, t) + [CallConnect(d, "y", HostAlias(s)), Serve(d, 0)], n')
      && OtherCalls(n, c, s, d, t, n')
  {
    hide Leads, CanHappen, Then, Box, WellFormedSubnet, PrintIp, HostAlias, Arrival;
    DifferentIds(s, t);
    var n1 := Arrives(n, d, t);
    n' := ConnectReaches(n1, d, "y", HostAlias(s), 0);
    LeadsTwice(n, Arrival(d, t), n1, [CallConnect(d, "y", HostAlias(s)), Serve(d, 0)], n');
    HostGreeted(n.world.st, c, s);
  }

  lemma HostGreeted(st: State, c: nat, s: string)
    requires st.clients == map[HostId(s) := c]
    ensures Peer(HostId(s), c) in Peers(st.clients)
  {
    assert HostId(s) in st.clients;
  }

  lemma OtherGrantable(c: nat, s: string, d: nat, t: string, n: Net, n1: Net)
    requires WellFormedSubnet(s) && WellFormedSubnet(t) && HostId(s) != HostId(t) && OtherCalls(n, c, s, d, t, n1)
    ensures Grantable(n1.world, Peer(HostId(t), d), Peer(HostId(s), c), 0, Call(HostId(t), HostAlias(s), "y"),
                      PrintTcp(Tcp(Ip(t, 0), 0)))
  {
    hide WellFormedSubnet, PrintTcp, HostAlias, HostId, CreateTCP, Mailbox, ReadCount;
    PortsDiffer(s, t);
    FirstPort(n1.world.st.subnets, t, []);
  }

  /** The state of the server once the announcement is made. */
  lemma OtherAtAccept(c: nat, s: string, d: nat, t: string, n: Net, n1: Net, n': Net)
    requires WellFormedSubnet(s) && WellFormedSubnet(t) && HostId(s) != HostId(t) && OtherCalls(n, c, s, d, t, n1)
    requires var call, a := Call(HostId(t), HostAlias(s), "y"), PrintTcp(Tcp(Ip(t, 0), 0));
      Announced(n1.world, Peer(HostId(t), d), Peer(HostId(s), c), 0, call, a, n'.world) && n'.closed == n1.closed
    ensures AtAccept(n', Peer(HostId(t), d), Peer(HostId(s), c), Call(HostId(t), HostAlias(s), "y"),
      PrintTcp(Tcp(Ip(t, 0), 0)))
  {
    hide WellFormedSubnet, PrintTcp, HostAlias, HostId, Mailbox, ReadCount, AtAccept;
    PortsDiffer(s, t);
    IsAtAccept(n1, Peer(HostId(t), d), Peer(HostId(s), c), Call(HostId(t), HostAlias(s), "y"),
      PrintTcp(Tcp(Ip(t, 0), 0)), n');
  }

  lemma IsAtAccept(n: Net, p: Peer, q: Peer, call: Call, a: string, n': Net)
    requires p.id != q.id && a != call.remoteAlias && n'.closed == n.closed == {} && n.world.tasks.Keys == {0}
    requires n.world.st.clients == map[q.id := q.conn, p.id := p.conn]
    requires n.world.st.aliases == map[call.remoteAlias := MAlias(q.id, true)] && call.id == p.id
    requires Announced(n.world, p, q, 0, call, a, n'.world)
    ensures AtAccept(n', p, q, call, a)
  {
    hide Box;
    assert n'.world.tasks == map[0 := ConnectAnnounced(call, a, p, q)];
    assert n'.world.st.aliases == map[call.remoteAlias := MAlias(q.id, true), a := MAlias(p.id, false)];
  }

  /** The mail of the host once the announcement is made. */
  lemma OtherTold(c: nat, s: string, d: nat, t: string, n: Net, n1: Net, n': Net)
    requires HostId(s) != HostId(t) && OtherCalls(n, c, s, d, t, n1) && n'.cursors == n1.cursors
    requires var call, a := Call(HostId(t), HostAlias(s), "y"), PrintTcp(Tcp(Ip(t, 0), 0));
      Announced(n1.world, Peer(HostId(t), d), Peer(HostId(s), c), 0, call, a, n'.world)
    ensures HostTold(n, c, s, t, n')
  {
    hide PrintTcp, HostAlias, HostId, Box;
    var q, a := Peer(HostId(s), c), PrintTcp(Tcp(Ip(t, 0), 0));
    OneByOne(Mailbox(n, q), Greeting(HostId(s), HostId(t)), Alias(HostId(t), a, true, None, false));
  }

  /** The handler of that call runs up to the announcement. */
  lemma OtherAnnounced(c: nat, s: string, d: nat, t: string, n: Net, n1: Net) returns (n': Net)
    requires WellFormedSubnet(s) && WellFormedSubnet(t) && HostId(s) != HostId(t) && OtherCalls(n, c, s, d, t, n1)
    ensures Leads(n1, Works([0, 0, 0]), n')
    ensures AtAccept(n', Peer(HostId(t), d), Peer(HostId(s), c), Call(HostId(t), HostAlias(s), "y"),
      PrintTcp(Tcp(Ip(t, 0), 0)))
    ensures n'.users == n1.users && HostTold(n, c, s, t, n')
  {
    hide Leads, WellFormedSubnet, PrintTcp, HostAlias, HostId, Works, Resumed, Grantable, Box, Announced, OtherCalls,
         AtAccept, HostTold;
    var p, q, a := Peer(HostId(t), d), Peer(HostId(s), c), PrintTcp(Tcp(Ip(t, 0), 0));
    var call := Call(HostId(t), HostAlias(s), "y");
    OtherGrantable(c, s, d, t, n, n1);
    var w := Announces(n1.world, p, q, 0, call, a);
    n' := Lifts(n1, [0, 0, 0], w);
    OtherAtAccept(c, s, d, t, n, n1, n');
    OtherTold(c, s, d, t, n, n1, n');
  }

  /** A second client arrives and connects to the host: up to the announcement. */
  lemma OtherConnects(c: nat, s: string, d: nat, t: string, n: Net) returns (n': Net)
    requires WellFormedSubnet(s) && WellFormedSubnet(t) && s != t && c != d
    requires Waiting(n, c, s) && Unused(n, Peer(HostId(t), d))
    ensures Leads(n, Arrival(d, t) + [CallConnect(d, "y", HostAlias(s)), Serve(d, 0)] + Works([0, 0, 0]), n')
    ensures AtAccept(n', Peer(HostId(t), d), Peer(HostId(s), c), Call(HostId(t), HostAlias(s), "y"),
      PrintTcp(Tcp(Ip(t, 0), 0)))
    ensures n'.users.Keys == {c, d} && n'.users[c] == n.users[c] && HostTold(n, c, s, t, n')
  {
    hide Leads, WellFormedSubnet, PrintTcp, HostAlias, HostId, Arrival, Works, AtAccept, HostTold, Waiting;
    DifferentHosts(s, t);
    var n1 := OtherArrives(c, s, d, t, n);
    n' := OtherAnnounced(c, s, d, t, n, n1);
    LeadsTwice(n, Arrival(d, t) + [CallConnect(d, "y", HostAlias(s)), Serve(d, 0)], n1, Works([0, 0, 0]), n');
  }

  lemma OneByOne(box: seq<Message>, a: Message, b: Message)
    ensures box + [a] + [] + [b] == box + [a, b]
  {}

  /** What happens after the host waits. */
  function Leaving(c: nat, s: string, d: nat, t: string): seq<NetEvent> {
    Arrival(d, t) + [CallConnect(d, "y", HostAlias(s)), Serve(d, 0)] + Works([0, 0, 0])
      + [Hangup(HostId(t), [PrintTcp(Tcp(Ip(t, 0), 0))]), Work(0)] + Reads(Peer(HostId(s), c), 4)
  }

  lemma LeavingBinds(c: nat, s: string, d: nat, t: string)
    ensures forall e | e in Leaving(c, s, d, t) :: !e.CallBind? && !e.CallShutdown?
  {
    HostingStarts(d, t);
    OnlyWork([0, 0, 0], Peer(HostId(s), c), 4);
    hide Arrival, Works, Reads, HostAlias, HostId, PrintTcp;
  }

  lemma Leaves(c: nat, s: string, d: nat, t: string, n: Net) returns (n': Net)
    requires WellFormedSubnet(s) && WellFormedSubnet(t) && s != t && c != d
    requires Waiting(n, c, s) && Unused(n, Peer(HostId(t), d))
    ensures var q, alias := Peer(HostId(s), c), PrintTcp(Tcp(Ip(t, 0), 0));
      && Leads(n, Leaving(c, s, d, t), n') && CanHappen(n', Read(q))
      && Returns(n', Read(q), c, 0, alias) && alias !in Then(n', Read(q)).users[c].told
  {
    hide Leads, CanHappen, Then, Box, WellFormedSubnet, PrintIp, PrintTcp, HostAlias, HostId, Arrival, Works, Reads,
         Returns;
    var p, q, a, b := Peer(HostId(t), d), Peer(HostId(s), c), PrintTcp(Tcp(Ip(t, 0), 0)), HostAlias(s);
    DifferentHosts(s, t);
    PortsDiffer(s, t);
    var n3 := OtherConnects(c, s, d, t, n);
    var n4 := LeavesBefore(n3, p, q, Call(HostId(t), b, "y"), a);
    var told := [Greeting(q.id, p.id), Alias(p.id, a, true, None, false), Goodbye(p.id)];
    var removal := Alias(p.id, a, false, None, false);
    assert Mailbox(n4, q) == Mailbox(n, q) + (told + [removal] + [Accept(b, a)]);
    n' := AcceptsForgotten(n4, q, told, removal, b);
    var first := Arrival(d, t) + [CallConnect(d, "y", b), Serve(d, 0)] + Works([0, 0, 0]);
    LeadsTwice(n, first, n3, [Hangup(p.id, [a]), Work(0)], n4);
    LeadsTwice(n, first + [Hangup(p.id, [a]), Work(0)], n4, Reads(q, 4), n');
  }

  /**
   From the empty system: another client connects and leaves while its handler is between
   the announcement and the Accept, and the host's accept returns an alias that is gone.
   */
  lemma CallerLeavesRun(c: nat, s: string, d: nat, t: string) returns (ns: seq<Net>, es: seq<NetEvent>)
    requires WellFormedSubnet(s) && WellFormedSubnet(t) && s != t && c != d
    ensures NetRun(ns, es) && OwnBinds(ns, es) && NobodyShuts(es) && es != []
    ensures var k, alias := |es| - 1, PrintTcp(Tcp(Ip(t, 0), 0));
      Returns(ns[k], es[k], c, 0, alias) && c in ns[k + 1].users && alias !in ns[k + 1].users[c].told
  {
    hide Leads, CanHappen, Then, Box, WellFormedSubnet, PrintIp, PrintTcp, HostAlias, HostId, Arrival, Hosting,
         Leaving, Returns;
    DifferentHosts(s, t);
    var n1, n2 := OneHosts(c, s);
    var n3 := Leaves(c, s, d, t, n2);
    LeadsTwice(n1, Hosting(c, s), n2, Leaving(c, s, d, t), n3);
    HostingStarts(c, s);
    LeavingBinds(c, s, d, t);
    var rest := Hosting(c, s)[1..] + Leaving(c, s, d, t);
    assert Hosting(c, s) + Leaving(c, s, d, t) == [CallBind(c, 0, HostAlias(s))] + rest;
    ns, es := EndsReturning(Arrival(c, s), n1, c, s, rest, n3, Peer(HostId(s), c), PrintTcp(Tcp(Ip(t, 0), 0)));
  }

  lemma DifferentHosts(s: string, t: string)
    requires WellFormedSubnet(s) && WellFormedSubnet(t) && s != t
    ensures HostId(s) != HostId(t)
  {
    DifferentIds(s, t);
  }
}
