/**
 Uninterrupted handlers in closed form, and what follows for one handler alone:
 a refused connect changes nothing, and a second one is offered the same port.
 */
module Atomic {
  import opened Wrappers
  import opened Address
  import opened Allocator
  import opened Server

  lemma KnockRuns(st: State, conn: nat, subnet: string)
    ensures Handle(st, conn, Knock(subnet)) ==
      var subnets, id := CreateIP(st.subnets, subnet).0, CreateIP(st.subnets, subnet).1;
      var sent := Post(st.(subnets := subnets), Peer(id, conn), Acknowledgement(id, id == REJECTED));
      if id == REJECTED then (sent, None)
      else (sent.(mail := Deliver(sent.mail, Introductions(st.clients, id)), clients := st.clients[id := conn]), None)
  {
    hide CreateIP, Deliver;
    var id := CreateIP(st.subnets, subnet).1;
    var st1 := st.(subnets := CreateIP(st.subnets, subnet).0);
    var st2 := Post(st1, Peer(id, conn), Acknowledgement(id, id == REJECTED));
    assert RunToEnd(st, KnockReceived(conn, subnet)) == RunToEnd(st1, KnockCreated(conn, id));
    assert id != REJECTED ==> RunToEnd(st1, KnockCreated(conn, id)) == RunToEnd(st2, KnockAcknowledged(conn, id));
  }

  lemma BindRuns(st: State, conn: nat, id: string, alias: string)
    requires Claimable(st.subnets, alias)
    ensures Handle(st, conn, Bind(id, alias)) ==
      if alias in st.aliases then
        (match Lookup(st.clients, id)
         case None => (st, Some(ClientClosed))
         case Some(p) => (Post(st, p, Alias(id, alias, false, None, false)), None))
      else
        match ClaimTCP(st.subnets, alias)
        case Err(e) => (st, Some(e))
        case Ok(subnets) =>
          (Broadcast(st.(subnets := subnets, aliases := st.aliases[alias := MAlias(id, false)]),
                     Alias(id, alias, true, None, false)), None)
  {
    hide ClaimTCP, Deliver;
    if alias !in st.aliases && ClaimTCP(st.subnets, alias).Ok? {
      var st1 := st.(subnets := ClaimTCP(st.subnets, alias).value);
      assert RunToEnd(st, BindChecked(id, alias)) == RunToEnd(st1, BindClaimed(id, alias));
    }
  }

  lemma ShutdownRuns(st: State, conn: nat, id: string, alias: string)
    ensures Handle(st, conn, Shutdown(id, alias)) ==
      if alias in st.aliases && st.aliases[alias].id == id then
        (Broadcast(st.(aliases := st.aliases - {alias}, subnets := RemoveIP(RemoveTCP(st.subnets, alias), alias)),
                   Alias(id, alias, false, None, false)), None)
      else
        match Lookup(st.clients, id)
        case None => (st, Some(ClientClosed))
        case Some(p) => (Post(st, p, Alias(id, alias, true, None, false)), None)
  {
    hide RemoveIP, RemoveTCP, Deliver;
    if alias in st.aliases && st.aliases[alias].id == id {
      var st1 := st.(aliases := st.aliases - {alias});
      var st2 := st1.(subnets := RemoveTCP(st.subnets, alias));
      assert RunToEnd(st1, ShutdownDeleted(id, alias)) == RunToEnd(st2, ShutdownReleased(id, alias));
    }
  }

  function ConnectRequest(call: Call): Request { Connect(call.id, call.remoteAlias, call.clientConnectionId) }

  /** Only the reply is left of a refused connect: the port was created and released. */
  lemma RefusalRuns(st: State, conn: nat, call: Call)
    requires CreateTCP(st.subnets, call.id).Ok? && !Accepts(st, call) && call.id in st.clients
    ensures Handle(st, conn, ConnectRequest(call)) ==
      var subnets, alias := CreateTCP(st.subnets, call.id).value.0, CreateTCP(st.subnets, call.id).value.1;
      (Post(st.(subnets := RemoveTCP(subnets, alias)), Peer(call.id, st.clients[call.id]),
            Alias(call.id, alias, false, Some(call.clientConnectionId), false)), None)
  {
    hide CreateTCP, RemoveTCP, Deliver;
    var (subnets, alias) := CreateTCP(st.subnets, call.id).value;
    var st1 := st.(subnets := subnets);
    var st2 := st.(subnets := RemoveTCP(subnets, alias));
    var found := Lookup(st.clients, call.id);
    assert RunToEnd(st, ConnectReceived(call)) == RunToEnd(st1, ConnectCreated(call, alias));
    assert RunToEnd(st1, ConnectCreated(call, alias)) == RunToEnd(st1, ConnectRefused(call, alias, found));
    assert RunToEnd(st1, ConnectRefused(call, alias, found)) == RunToEnd(st2, ConnectReleased(call, alias, found));
  }

  /** What an accepted connect sends, in order: to the client, twice to the listener, to the client. */
  function AcceptedMail(mail: Mail, call: Call, clientAlias: string, client: Peer, server: Peer): Mail {
    var mail1 := Deliver(mail, map[client := [Alias(call.id, clientAlias, true, Some(call.clientConnectionId), true)]]);
    var mail2 := Deliver(mail1, map[server := [Alias(call.id, clientAlias, true, None, false)]]);
    var mail3 := Deliver(mail2, map[server := [Accept(call.remoteAlias, clientAlias)]]);
    Deliver(mail3, map[client := [Alias(server.id, call.remoteAlias, true, Some(call.clientConnectionId), false)]])
  }

  lemma PublishedResumes(st: State, call: Call, alias: string, client: Peer, server: Peer)
    requires call.remoteAlias in st.aliases && Lookup(st.clients, st.aliases[call.remoteAlias].id) == Some(server)
    ensures Resume(st, ConnectPublished(call, alias, client)) ==
      Suspend(Post(st, server, Alias(call.id, alias, true, None, false)), ConnectAnnounced(call, alias, client, server))
  {
    hide Post, CreateIP, CreateTCP, ClaimTCP, RemoveIP, RemoveTCP, Deliver, Broadcast;
  }

  lemma AnnouncedResumes(st: State, call: Call, alias: string, client: Peer, server: Peer)
    ensures Resume(st, ConnectAnnounced(call, alias, client, server)) ==
      Suspend(Post(st, server, Accept(call.remoteAlias, alias)), ConnectAccepted(call, alias, client, server))
    ensures Resume(st, ConnectAccepted(call, alias, client, server)) ==
      Done(Post(st, client, Alias(server.id, call.remoteAlias, true, Some(call.clientConnectionId), false)))
  {
    hide Post, CreateIP, CreateTCP, ClaimTCP, RemoveIP, RemoveTCP, Deliver, Broadcast;
  }

  /** A registered client alias is announced and accepted, and the caller told. */
  lemma AnnouncementRuns(st: State, call: Call, alias: string, client: Peer, server: Peer)
    requires call.remoteAlias in st.aliases && Lookup(st.clients, st.aliases[call.remoteAlias].id) == Some(server)
    ensures
      var announced := Post(st, server, Alias(call.id, alias, true, None, false));
      var accepted := Post(announced, server, Accept(call.remoteAlias, alias));
      RunToEnd(st, ConnectPublished(call, alias, client)) ==
        (Post(accepted, client, Alias(server.id, call.remoteAlias, true, Some(call.clientConnectionId), false)), None)
  {
    hide Post, RunToEnd, Resume;
    var announced := Post(st, server, Alias(call.id, alias, true, None, false));
    PublishedResumes(st, call, alias, client, server);
    OneSegment(st, ConnectPublished(call, alias, client));
    AnnouncedResumes(announced, call, alias, client, server);
    OneSegment(announced, ConnectAnnounced(call, alias, client, server));
    var accepted := Post(announced, server, Accept(call.remoteAlias, alias));
    AnnouncedResumes(accepted, call, alias, client, server);
    OneSegment(accepted, ConnectAccepted(call, alias, client, server));
  }

  /** Who owns the remote alias once the connecting client's own alias is registered. */
  function ListenerOf(st: State, call: Call): string
    requires CreateTCP(st.subnets, call.id).Ok? && Accepts(st, call)
  {
    if CreateTCP(st.subnets, call.id).value.1 == call.remoteAlias then call.id else st.aliases[call.remoteAlias].id
  }

  lemma AcceptanceRuns(st: State, conn: nat, call: Call)
    requires CreateTCP(st.subnets, call.id).Ok? && Accepts(st, call) && call.id in st.clients
    requires ListenerOf(st, call) in st.clients
    ensures Handle(st, conn, ConnectRequest(call)) ==
      var subnets, alias := CreateTCP(st.subnets, call.id).value.0, CreateTCP(st.subnets, call.id).value.1;
      var owner := ListenerOf(st, call);
      (st.(subnets := subnets,
           aliases := st.aliases[alias := MAlias(call.id, false)],
           mail := AcceptedMail(st.mail, call, alias, Peer(call.id, st.clients[call.id]),
             Peer(owner, st.clients[owner]))),
       None)
  {
    hide CreateTCP, Deliver;
    var (subnets, alias) := CreateTCP(st.subnets, call.id).value;
    var client := Peer(call.id, st.clients[call.id]);
    var st1 := st.(subnets := subnets);
    var st2 := Post(st1.(aliases := st.aliases[alias := MAlias(call.id, false)]), client,
                    Alias(call.id, alias, true, Some(call.clientConnectionId), true));
    assert Handle(st, conn, ConnectRequest(call)) == RunToEnd(st, ConnectReceived(call));
    hide RunToEnd, Handle;
    OneSegment(st, ConnectReceived(call));
    OneSegment(st1, ConnectCreated(call, alias));
    AnnouncementRuns(st2, call, alias, client, Peer(ListenerOf(st, call), st.clients[ListenerOf(st, call)]));
  }

  lemma FailedCreateRuns(st: State, conn: nat, call: Call)
    requires CreateTCP(st.subnets, call.id).Err?
    ensures Handle(st, conn, ConnectRequest(call)) == (st, Some(CreateTCP(st.subnets, call.id).error))
  {
    hide CreateTCP;
  }

  /** A granted connect whose client or whose listener is gone: what it leaves behind. */
  lemma GrantedRuns(st: State, call: Call, subnets: Subnets, alias: string)
    requires Accepts(st, call)
    ensures var st1 := st.(subnets := subnets);
      var st2 := st1.(aliases := st.aliases[alias := MAlias(call.id, false)]);
      var owner := if alias == call.remoteAlias then call.id else st.aliases[call.remoteAlias].id;
      var (after, error) := RunToEnd(st1, ConnectCreated(call, alias));
      && after.clients == st.clients && after.subnets == subnets && after.aliases == st2.aliases
      && (error == None <==> call.id in st.clients && owner in st.clients)
      && (error != None ==> error == Some(ClientClosed))
      && (call.id !in st.clients ==> after == st2)
      && (call.id in st.clients && owner !in st.clients ==>
            after == Post(st2, Peer(call.id, st.clients[call.id]),
                          Alias(call.id, alias, true, Some(call.clientConnectionId), true)))
  {
    hide Post, RunToEnd, Resume;
    var st1 := st.(subnets := subnets);
    var st2 := st1.(aliases := st.aliases[alias := MAlias(call.id, false)]);
    CreatedResumes(st1, call, alias);
    OneSegment(st1, ConnectCreated(call, alias));
    if call.id in st.clients {
      var client := Peer(call.id, st.clients[call.id]);
      GrantedOn(st2, call, alias, client, Alias(call.id, alias, true, Some(call.clientConnectionId), true));
    }
  }

  lemma PostKeeps(st: State, p: Peer, m: Message)
    ensures var after := Post(st, p, m);
      after.clients == st.clients && after.aliases == st.aliases && after.subnets == st.subnets
  {}

  lemma GrantedOn(st: State, call: Call, alias: string, client: Peer, told: Message)
    requires call.remoteAlias in st.aliases
    ensures var owner, sent := st.aliases[call.remoteAlias].id, Post(st, client, told);
      var (after, error) := RunToEnd(sent, ConnectPublished(call, alias, client));
      && after.clients == st.clients && after.subnets == st.subnets && after.aliases == st.aliases
      && (if owner in st.clients then error == None else error == Some(ClientClosed) && after == sent)
  {
    hide Post, RunToEnd, Resume;
    var owner, sent := st.aliases[call.remoteAlias].id, Post(st, client, told);
    PostKeeps(st, client, told);
    OneSegment(sent, ConnectPublished(call, alias, client));
    if owner in st.clients {
      var server := Peer(owner, st.clients[owner]);
      AnnouncementRuns(sent, call, alias, client, server);
      var announced := Post(sent, server, Alias(call.id, alias, true, None, false));
      PostKeeps(sent, server, Alias(call.id, alias, true, None, false));
      PostKeeps(announced, server, Accept(call.remoteAlias, alias));
      PostKeeps(Post(announced, server, Accept(call.remoteAlias, alias)), client,
                Alias(server.id, call.remoteAlias, true, Some(call.clientConnectionId), false));
    } else {
      ListenerGone(sent, call, alias, client);
    }
  }

  lemma ListenerGone(st: State, call: Call, alias: string, client: Peer)
    requires call.remoteAlias in st.aliases && st.aliases[call.remoteAlias].id !in st.clients
    ensures Resume(st, ConnectPublished(call, alias, client)) == Throw(st, ClientClosed)
  {
    hide Post, CreateIP, CreateTCP, ClaimTCP, RemoveIP, RemoveTCP, Deliver, Broadcast;
  }

  /**
   When a connect throws, for every server state: its id names no member; or its client
   is gone; or it is granted and the listener is gone. A grant that fails leaves its alias
   registered and its port claimed.
   */
  lemma ConnectThrowsIff(st: State, conn: nat, call: Call)
    ensures var (after, error) := Handle(st, conn, ConnectRequest(call));
      match CreateTCP(st.subnets, call.id)
      case Err(e) => error == Some(e) && after == st
      case Ok((subnets, alias)) =>
        var owner := if alias == call.remoteAlias then call.id
                     else if call.remoteAlias in st.aliases then st.aliases[call.remoteAlias].id else "";
        && (error != None ==> error == Some(ClientClosed))
        && (error == None <==> call.id in st.clients && (Accepts(st, call) ==> owner in st.clients))
        && after.clients == st.clients
        && (Accepts(st, call) ==>
              after.aliases == st.aliases[alias := MAlias(call.id, false)] && after.subnets == subnets)
        && (!Accepts(st, call) ==> after.aliases == st.aliases && after.subnets == RemoveTCP(subnets, alias))
        && (error != None && !(Accepts(st, call) && call.id in st.clients) ==> after.mail == st.mail)
  {
    hide CreateTCP, RemoveTCP, Deliver, Post;
    match CreateTCP(st.subnets, call.id)
    case Err(e) => FailedCreateRuns(st, conn, call);
    case Ok((subnets, alias)) =>
      StartsConnect(st, conn, call, subnets, alias);
      if Accepts(st, call) {
        GrantedRuns(st, call, subnets, alias);
      } else if call.id in st.clients {
        RefusalRuns(st, conn, call);
        PostKeeps(st.(subnets := RemoveTCP(subnets, alias)), Peer(call.id, st.clients[call.id]),
                  Alias(call.id, alias, false, Some(call.clientConnectionId), false));
      } else {
        RefusedUnheard(st, call, subnets, alias);
      }
      hide RunToEnd, Handle;
  }

  lemma StartsConnect(st: State, conn: nat, call: Call, subnets: Subnets, alias: string)
    requires CreateTCP(st.subnets, call.id) == Ok((subnets, alias))
    ensures Handle(st, conn, ConnectRequest(call)) == RunToEnd(st.(subnets := subnets), ConnectCreated(call, alias))
  {
    hide CreateTCP;
    OneSegment(st, ConnectReceived(call));
  }

  lemma RefusedUnheard(st: State, call: Call, subnets: Subnets, alias: string)
    requires !Accepts(st, call) && call.id !in st.clients
    ensures RunToEnd(st.(subnets := subnets), ConnectCreated(call, alias)) ==
      (st.(subnets := RemoveTCP(subnets, alias)), Some(ClientClosed))
  {
    hide CreateTCP, RemoveTCP, Deliver;
    var st1, st2 := st.(subnets := subnets), st.(subnets := RemoveTCP(subnets, alias));
    OneSegment(st1, ConnectCreated(call, alias));
    OneSegment(st1, ConnectRefused(call, alias, None));
    OneSegment(st2, ConnectReleased(call, alias, None));
  }

  lemma CreatedResumes(st: State, call: Call, alias: string)
    requires Accepts(st, call)
    ensures var st' := st.(aliases := st.aliases[alias := MAlias(call.id, false)]);
      Resume(st, ConnectCreated(call, alias)) ==
        if call.id !in st.clients then Throw(st', ClientClosed)
        else
          var client := Peer(call.id, st.clients[call.id]);
          Suspend(Post(st', client, Alias(call.id, alias, true, Some(call.clientConnectionId), true)),
                  ConnectPublished(call, alias, client))
  {
    hide Post, CreateIP, CreateTCP, ClaimTCP, RemoveIP, RemoveTCP, Deliver, Broadcast;
  }

  /** Same members and same claims on duplicate-free lists: the same port comes next. */
  lemma SameOffer(a: Subnets, b: Subnets, id: string)
    requires Tidy(a) && Tidy(b) && SameMembers(a, b) && SameClaims(a, b)
    requires CreateTCP(a, id).Ok? && CreateTCP(b, id).Ok?
    ensures CreateTCP(a, id).value.1 == CreateTCP(b, id).value.1
  {
    hide CreateTCP, ReadIp, PrintTcp;
    CreateTCPEffect(a, id);
    CreateTCPEffect(b, id);
    var ip := ReadIp(id).value;
    forall p: nat ensures p in a[ip.subnet][ip.suffix] <==> p in b[ip.subnet][ip.suffix] {
      assert Claimed(a, Tcp(ip, p)) <==> Claimed(b, Tcp(ip, p));
    }
    assert Elements(a[ip.subnet][ip.suffix]) == Elements(b[ip.subnet][ip.suffix]);
  }

  lemma Locates(a: Subnets, b: Subnets, id: string)
    requires CreateTCP(a, id).Ok? && SameMembers(a, b)
    ensures CreateTCP(b, id).Ok?
  {
    hide Sort, Scan, PrintTcp;
    assert Has(b, ReadIp(id).value);
  }

  /**
   A refused connect is neutral: registry, members and claims are as before, only
   the refusal is sent, and the next connect of that client is offered the same port.
   */
  lemma RefusedConnectIsNeutral(st: State, conn: nat, call: Call)
    requires Tidy(st.subnets) && CreateTCP(st.subnets, call.id).Ok? && !Accepts(st, call) && call.id in st.clients
    ensures var (after, error) := Handle(st, conn, ConnectRequest(call));
      var alias := CreateTCP(st.subnets, call.id).value.1;
      && error == None
      && after.aliases == st.aliases && after.clients == st.clients
      && Tidy(after.subnets) && SameMembers(st.subnets, after.subnets) && SameClaims(st.subnets, after.subnets)
      && after.mail == Deliver(st.mail, map[Peer(call.id, st.clients[call.id]) :=
                                              [Alias(call.id, alias, false, Some(call.clientConnectionId), false)]])
      && CreateTCP(after.subnets, call.id).Ok? && CreateTCP(after.subnets, call.id).value.1 == alias
  {
    hide Handle, ReadTcp, PrintTcp, Deliver, Tidy;
    RefusalRuns(st, conn, call);
    CreateTCPEffect(st.subnets, call.id);
    var (subnets, alias) := CreateTCP(st.subnets, call.id).value;
    RemoveTCPEffect(subnets, alias);
    var after := RemoveTCP(subnets, alias);
    Locates(st.subnets, after, call.id);
    hide CreateTCP, RemoveTCP;
    assert SameClaims(st.subnets, after);
    SameOffer(st.subnets, after, call.id);
  }

  /**
   When a segment throws, whatever ran before it: the claim or the port it needs is not to
   be had; the client it has to answer is gone; or between two segments of a connect the
   remote alias, or its owner, has gone.
   */
  lemma ThrowsIff(st: State, task: Task)
    requires Runnable(st, task)
    ensures var error := Resume(st, task).error;
      match task
      case BindChecked(_, alias) =>
        && (error == None <==> ClaimTCP(st.subnets, alias).Ok?)
        && (error != None ==> ClaimTCP(st.subnets, alias) == Err(error.value))
      case ConnectReceived(call) =>
        && (error == None <==> CreateTCP(st.subnets, call.id).Ok?)
        && (error != None ==> CreateTCP(st.subnets, call.id) == Err(error.value))
      case ConnectCreated(call, _) =>
        (error == None <==> !Accepts(st, call) || call.id in st.clients) && error in {None, Some(ClientClosed)}
      case ConnectReleased(_, _, found) => (error == None <==> found.Some?) && error in {None, Some(ClientClosed)}
      case ConnectPublished(call, _, _) =>
        && (error == Some(UndefinedAlias) <==> call.remoteAlias !in st.aliases)
        && (error == Some(ClientClosed) <==>
              call.remoteAlias in st.aliases && st.aliases[call.remoteAlias].id !in st.clients)
        && error in {None, Some(UndefinedAlias), Some(ClientClosed)}
      case _ => error == None
    ensures Resume(st, task).error != None ==> Resume(st, task).next == None && Resume(st, task).st.mail == st.mail
  {
    hide CreateIP, CreateTCP, ClaimTCP, RemoveTCP, RemoveIP, Deliver, Claimable;
  }
}
