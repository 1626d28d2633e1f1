/**
 The signaling server as the object it is: three maps updated in place by the five
 allocator operations and the handlers, with their loops. Every operation is tied
 to the function of the state that the theorems are about.
 */
module SignalingServer {
  import opened Wrappers
  import opened Address
  import opened Allocator
  import opened Server

  // ------------------------------------------- loops that change nothing

  /** `sort((a, b) => a - b)` */
  method SortNumbers(numbers: seq<nat>) returns (sorted: seq<nat>)
    ensures sorted == Sort(numbers)
  {
    sorted := [];
    var i := |numbers|;
    while i > 0
      invariant 0 <= i <= |numbers|
      invariant sorted == Sort(numbers[i..])
    {
      i := i - 1;
      sorted := InsertNumber(numbers[i], sorted);
    }
    assert numbers[0..] == numbers;
  }

  lemma InsertPasses(x: nat, sorted: seq<nat>, k: nat)
    requires k < |sorted| && sorted[k] < x
    ensures sorted[..k] + Insert(x, sorted[k..]) == sorted[..k + 1] + Insert(x, sorted[k + 1..])
  {
    var rest := sorted[k..];
    assert rest[1..] == sorted[k + 1..];
    assert Insert(x, rest) == [sorted[k]] + Insert(x, rest[1..]);
    assert sorted[..k + 1] == sorted[..k] + [sorted[k]];
  }

  method InsertNumber(x: nat, sorted: seq<nat>) returns (longer: seq<nat>)
    ensures longer == Insert(x, sorted)
  {
    var k := 0;
    while k < |sorted| && sorted[k] < x
      invariant 0 <= k <= |sorted|
      invariant Insert(x, sorted) == sorted[..k] + Insert(x, sorted[k..])
    {
      InsertPasses(x, sorted, k);
      k := k + 1;
    }
    longer := sorted[..k] + [x] + sorted[k..];
  }

  /** The `res(index)` loop: every gap is reported, only the first report counts. */
  method FirstGap(numbers: seq<nat>) returns (gap: nat)
    ensures gap == Scan(numbers, 0)
  {
    var settled := false;
    gap := 0;
    for index := 0 to |numbers|
      invariant if settled then gap == Scan(numbers, 0) else Scan(numbers, 0) == Scan(numbers, index)
    {
      if numbers[index] != index && !settled {
        gap, settled := index, true;
      }
    }
    if !settled {
      gap := |numbers|;
    }
  }

  /** `Array.from(map.keys())`, in some order. */
  method KeysOf(members: Members) returns (keys: seq<nat>)
    ensures Distinct(keys) && Elements(keys) == members.Keys
  {
    keys := [];
    var left := members.Keys;
    while left != {}
      invariant Distinct(keys) && left <= members.Keys
      invariant forall k :: k in keys <==> k in members.Keys - left
    {
      var k :| k in left;
      assert k !in keys;
      left := left - {k};
      keys := keys + [k];
    }
  }

  // -------------------------------------------------- mail sent in a loop

  lemma DeliverMore(mail: Mail, out: Mail, p: Peer, msgs: seq<Message>)
    requires p !in out
    ensures Deliver(Deliver(mail, out), map[p := msgs]) == Deliver(mail, out[p := msgs])
  {
    var once, more: Mail := Deliver(mail, out), out[p := msgs];
    var twice := Deliver(once, map[p := msgs]);
    assert twice.Keys == Deliver(mail, more).Keys;
    forall q | q in twice ensures twice[q] == Deliver(mail, more)[q] {
      assert twice[q] == Box(once, q) + Box(map[p := msgs], q);
      assert Box(once, q) == Box(mail, q) + Box(out, q);
      if q == p { assert Box(once, q) == Box(mail, q); }
    }
  }

  lemma DeliverNothing(mail: Mail)
    ensures Deliver(mail, map[]) == mail
  {
    var same := Deliver(mail, map[]);
    forall p | p in same ensures same[p] == mail[p] { assert same[p] == Box(mail, p) + []; }
  }

  /** One message for each client of a set. */
  function ToSome(clients: map<string, nat>, ids: set<string>, msg: Message): Mail
    requires ids <= clients.Keys
  {
    map p | p in Peers(clients) && p.id in ids :: [msg]
  }

  lemma ToSomeMore(clients: map<string, nat>, ids: set<string>, id: string, msg: Message)
    requires ids <= clients.Keys && id in clients && id !in ids
    ensures Peer(id, clients[id]) !in ToSome(clients, ids, msg)
    ensures ToSome(clients, ids + {id}, msg) == ToSome(clients, ids, msg)[Peer(id, clients[id]) := [msg]]
  {}

  lemma BoxTwice(mail: Mail, first: Mail, second: Mail, all: Mail, p: Peer)
    requires Box(all, p) == Box(first, p) + Box(second, p)
    ensures Box(Deliver(Deliver(mail, first), second), p) == Box(Deliver(mail, all), p)
  {
    hide Deliver, Box;
    assert Box(mail, p) + Box(first, p) + Box(second, p) == Box(mail, p) + (Box(first, p) + Box(second, p));
  }

  lemma DeliverTwice(mail: Mail, first: Mail, second: Mail, all: Mail)
    requires first.Keys == second.Keys == all.Keys
    requires forall p: Peer :: Box(all, p) == Box(first, p) + Box(second, p)
    ensures Deliver(Deliver(mail, first), second) == Deliver(mail, all)
  {
    var twice, both := Deliver(Deliver(mail, first), second), Deliver(mail, all);
    assert twice.Keys == both.Keys;
    forall p | p in twice ensures twice[p] == both[p] {
      BoxTwice(mail, first, second, all, p);
      hide Deliver;
      assert twice[p] == Box(twice, p) && both[p] == Box(both, p);
    }
  }

  lemma ToSomeAll(clients: map<string, nat>, msg: Message)
    ensures ToSome(clients, clients.Keys - clients.Keys, msg) == map[]
    ensures ToSome(clients, clients.Keys - {}, msg) == ToAll(clients, [msg])
  {}

  lemma ToAllMore(mail: Mail, clients: map<string, nat>, msgs: seq<Message>, msg: Message)
    ensures Deliver(Deliver(mail, ToAll(clients, msgs)), ToAll(clients, [msg])) ==
      Deliver(mail, ToAll(clients, msgs + [msg]))
  {
    hide Peers;
    DeliverTwice(mail, ToAll(clients, msgs), ToAll(clients, [msg]), ToAll(clients, msgs + [msg]));
  }

  // ------------------------------------------------------------ the class

  class SignalingServer {
    var clients: map<string, nat>
    var aliases: map<string, MAlias>
    var subnets: Subnets
    var mail: Mail

    constructor ()
      ensures View() == INITIAL
    {
      clients, aliases, subnets, mail := map[], map[], map[], map[];
    }

    function View(): State
      reads this
    {
      State(clients, aliases, subnets, mail)
    }

    // ------------------------------------------------ the five operations

    method CreateIPAddress(subnet: string) returns (id: string)
      modifies `subnets
      ensures (subnets, id) == CreateIP(old(subnets), subnet)
    {
      if subnet !in subnets {
        subnets := subnets[subnet := map[]];
      }
      var existingMembers := KeysOf(subnets[subnet]);
      ScanIsLowestFree(existingMembers);
      existingMembers := SortNumbers(existingMembers);
      var newSuffix := FirstGap(existingMembers);
      if newSuffix > MAX_SUFFIX {
        return REJECTED;
      }
      var members: Members := subnets[subnet][newSuffix := []];
      subnets := subnets[subnet := members];
      return ToIPAddress(subnet, newSuffix);
    }

    method CreateTCPAddress(ipAddress: string) returns (created: Result<string, Error>)
      modifies `subnets
      ensures match CreateTCP(old(subnets), ipAddress)
        case Err(e) => created == Err(e) && subnets == old(subnets)
        case Ok(made) => created == Ok(made.1) && subnets == made.0
    {
      var (subnet, suffix) := ParseIPAddress(ipAddress);
      if subnet !in subnets {
        return Err(SubnetDoesNotExist);
      }
      if suffix.None? || suffix.value !in subnets[subnet] {
        return Err(SuffixDoesNotExist);
      }
      var ip := Ip(subnet, suffix.value);
      var existingPorts := SortNumbers(subnets[subnet][ip.suffix]);
      subnets := SetPorts(subnets, ip, existingPorts);
      var newPort := FirstGap(existingPorts);
      subnets := SetPorts(subnets, ip, existingPorts + [newPort]);
      SetPortsTwice(old(subnets), ip, existingPorts, existingPorts + [newPort]);
      return Ok(ToTCPAddress(ToIPAddress(subnet, ip.suffix), newPort));
    }

    method ClaimTCPAddress(tcpAddress: string) returns (error: Option<Error>)
      requires Claimable(subnets, tcpAddress)
      modifies `subnets
      ensures match ClaimTCP(old(subnets), tcpAddress)
        case Err(e) => error == Some(e) && subnets == old(subnets)
        case Ok(after) => error == None && subnets == after
    {
      var (ipAddress, port) := ParseTCPAddress(tcpAddress);
      var (subnet, suffix) := ParseIPAddress(ipAddress);
      if subnet !in subnets {
        return Some(SubnetDoesNotExist);
      }
      var ip := Ip(subnet, suffix.value);
      ghost var ports := if ip.suffix in subnets[subnet] then subnets[subnet][ip.suffix] else [];
      if ip.suffix !in subnets[subnet] {
        subnets := SetPorts(subnets, ip, []);
      }
      if port.value in subnets[subnet][ip.suffix] {
        return Some(PortAlreadyAllocated);
      }
      SetPortsTwice(old(subnets), ip, [], ports + [port.value]);
      subnets := SetPorts(subnets, ip, subnets[subnet][ip.suffix] + [port.value]);
      return None;
    }

    method RemoveIPAddress(ipAddress: string)
      modifies `subnets
      ensures subnets == RemoveIP(old(subnets), ipAddress)
    {
      var (subnet, suffix) := ParseIPAddress(ipAddress);
      if subnet in subnets {
        if suffix.Some? && suffix.value in subnets[subnet] {
          subnets := subnets[subnet := subnets[subnet] - {suffix.value}];
        }
      }
    }

    method RemoveTCPAddress(tcpAddress: string)
      modifies `subnets
      ensures subnets == RemoveTCP(old(subnets), tcpAddress)
    {
      var (ipAddress, port) := ParseTCPAddress(tcpAddress);
      var (subnet, suffix) := ParseIPAddress(ipAddress);
      if subnet in subnets {
        if suffix.Some? && suffix.value in subnets[subnet] {
          var ports := subnets[subnet][suffix.value];
          if port.Some? {
            ports := FilterOut(ports, port.value);
          }
          SetPortsSame(subnets, Ip(subnet, suffix.value));
          subnets := SetPorts(subnets, Ip(subnet, suffix.value), ports);
        }
      }
    }

    // ------------------------------------------------------------ sending

    method Send(to: Option<Peer>, msg: Message) returns (error: Option<Error>)
      modifies `mail
      ensures match to
        case Some(p) => error == None && mail == Deliver(old(mail), map[p := [msg]])
        case None => error == Some(ClientClosed) && mail == old(mail)
    {
      match to
      case None => return Some(ClientClosed);
      case Some(p) =>
        mail := Deliver(mail, map[p := [msg]]);
        return None;
    }

    /** `clients.forEach((client) => send(client, msg))` */
    method SendToAll(msg: Message)
      modifies `mail
      ensures mail == Deliver(old(mail), ToAll(clients, [msg]))
    {
      hide Deliver, ToSome;
      var left := clients.Keys;
      DeliverNothing(mail);
      ToSomeAll(clients, msg);
      while left != {}
        invariant left <= clients.Keys
        invariant mail == Deliver(old(mail), ToSome(clients, clients.Keys - left, msg))
      {
        var id :| id in left;
        var p := Peer(id, clients[id]);
        ToSomeMore(clients, clients.Keys - left, id, msg);
        DeliverMore(old(mail), ToSome(clients, clients.Keys - left, msg), p, [msg]);
        assert clients.Keys - (left - {id}) == clients.Keys - left + {id};
        mail := Deliver(mail, map[p := [msg]]);
        left := left - {id};
      }
    }

    /** Every client but the new one is told to offer itself to the new one. */
    method Greet(newId: string)
      modifies `mail
      ensures mail == Deliver(old(mail), Introductions(clients, newId))
    {
      var left := clients.Keys;
      ghost var out: Mail := map[];
      DeliverNothing(mail);
      while left != {}
        invariant left <= clients.Keys
        invariant forall p :: p in out <==> p in Peers(clients) && p.id !in left && p.id != newId
        invariant forall p | p in out :: out[p] == [Greeting(p.id, newId)]
        invariant mail == Deliver(old(mail), out)
      {
        var id :| id in left;
        left := left - {id};
        if id != newId {
          var p := Peer(id, clients[id]);
          DeliverMore(old(mail), out, p, [Greeting(id, newId)]);
          mail := Deliver(mail, map[p := [Greeting(id, newId)]]);
          out := out[p := [Greeting(id, newId)]];
        }
      }
      assert out == Introductions(clients, newId);
    }

    // ----------------------------------------------------------- handlers

    method HandleKnock(conn: nat, subnet: string)
      modifies this
      ensures (View(), None) == Handle(old(View()), conn, Knock(subnet))
    {
      hide CreateIP, Deliver, Introductions;
      ghost var goal := Handle(View(), conn, Knock(subnet));
      assert goal == RunToEnd(View(), KnockReceived(conn, subnet));
      var id := CreateIPAddress(subnet);
      assert goal == RunToEnd(View(), KnockCreated(conn, id));
      if id != REJECTED {
        var _ := Send(Some(Peer(id, conn)), Acknowledgement(id, false));
      } else {
        var _ := Send(Some(Peer(id, conn)), Acknowledgement(id, true));
        return;
      }
      assert goal == RunToEnd(View(), KnockAcknowledged(conn, id));
      Greet(id);
      clients := clients[id := conn];
    }

    method HandleBind(conn: nat, id: string, alias: string) returns (error: Option<Error>)
      requires Claimable(subnets, alias)
      modifies this
      ensures (View(), error) == Handle(old(View()), conn, Bind(id, alias))
    {
      hide ClaimTCP, Deliver, ToAll;
      ghost var goal := Handle(View(), conn, Bind(id, alias));
      if alias in aliases {
        error := Send(Lookup(clients, id), Alias(id, alias, false, None, false));
      } else {
        assert goal == RunToEnd(View(), BindChecked(id, alias));
        error := ClaimTCPAddress(alias);
        if error.Some? {
          return;
        }
        assert goal == RunToEnd(View(), BindClaimed(id, alias));
        aliases := aliases[alias := MAlias(id, false)];
        SendToAll(Alias(id, alias, true, None, false));
      }
    }

    method HandleAccepting(conn: nat, id: string, alias: string)
      modifies `aliases
      ensures (View(), None) == Handle(old(View()), conn, Accepting(id, alias))
    {
      if alias in aliases && aliases[alias].id == id {
        aliases := aliases[alias := MAlias(id, true)];
      }
    }

    method HandleShutdown(conn: nat, id: string, alias: string) returns (error: Option<Error>)
      modifies this
      ensures (View(), error) == Handle(old(View()), conn, Shutdown(id, alias))
    {
      hide RemoveIP, RemoveTCP, Deliver, ToAll;
      ghost var goal := Handle(View(), conn, Shutdown(id, alias));
      if alias in aliases && aliases[alias].id == id {
        aliases := aliases - {alias};
        assert goal == RunToEnd(View(), ShutdownDeleted(id, alias));
        RemoveTCPAddress(alias);
        assert goal == RunToEnd(View(), ShutdownReleased(id, alias));
        RemoveIPAddress(alias);
        assert goal == RunToEnd(View(), ShutdownFreed(id, alias));
        SendToAll(Alias(id, alias, false, None, false));
        error := None;
      } else {
        error := Send(Lookup(clients, id), Alias(id, alias, true, None, false));
      }
    }

    method HandleConnect(conn: nat, id: string, remoteAlias: string, clientConnectionId: string)
      returns (error: Option<Error>)
      modifies this
      ensures (View(), error) == Handle(old(View()), conn, Connect(id, remoteAlias, clientConnectionId))
    {
      hide CreateTCP, RemoveTCP, Deliver;
      var call := Call(id, remoteAlias, clientConnectionId);
      ghost var goal := Handle(View(), conn, Connect(id, remoteAlias, clientConnectionId));
      assert goal == RunToEnd(View(), ConnectReceived(call));
      var created := CreateTCPAddress(id);
      if created.Err? {
        return Some(created.error);
      }
      var clientAlias := created.value;
      assert goal == RunToEnd(View(), ConnectCreated(call, clientAlias));
      var client := Lookup(clients, id);
      if remoteAlias !in aliases || !aliases[remoteAlias].accepting {
        assert goal == RunToEnd(View(), ConnectRefused(call, clientAlias, client));
        RemoveTCPAddress(clientAlias);
        assert goal == RunToEnd(View(), ConnectReleased(call, clientAlias, client));
        error := Send(client, Alias(id, clientAlias, false, Some(clientConnectionId), false));
      } else {
        error := AcceptConnect(call, clientAlias, client);
      }
    }

    /** The accepting branch of handleConnect. */
    method AcceptConnect(call: Call, clientAlias: string, client: Option<Peer>) returns (error: Option<Error>)
      requires Accepts(View(), call) && client == Lookup(clients, call.id)
      modifies `aliases, `mail
      ensures (View(), error) == RunToEnd(old(View()), ConnectCreated(call, clientAlias))
    {
      hide Deliver, RunToEnd, CreateIP, CreateTCP, ClaimTCP, RemoveIP, RemoveTCP, ToAll, Introductions, Broadcast;
      ghost var goal := RunToEnd(View(), ConnectCreated(call, clientAlias));
      OneSegment(View(), ConnectCreated(call, clientAlias));
      aliases := aliases[clientAlias := MAlias(call.id, false)];
      error := Send(client, Alias(call.id, clientAlias, true, Some(call.clientConnectionId), true));
      if error.Some? {
        return;
      }
      assert goal == RunToEnd(View(), ConnectPublished(call, clientAlias, client.value));
      error := Announce(call, clientAlias, client.value);
    }

    /** From the announcement to the listener on. */
    method Announce(call: Call, clientAlias: string, client: Peer) returns (error: Option<Error>)
      requires call.remoteAlias in aliases
      modifies `mail
      ensures (View(), error) == RunToEnd(old(View()), ConnectPublished(call, clientAlias, client))
    {
      hide Deliver, RunToEnd, CreateIP, CreateTCP, ClaimTCP, RemoveIP, RemoveTCP, ToAll, Introductions, Broadcast;
      ghost var goal := RunToEnd(View(), ConnectPublished(call, clientAlias, client));
      OneSegment(View(), ConnectPublished(call, clientAlias, client));
      var serverId := aliases[call.remoteAlias].id;
      var server := Lookup(clients, serverId);
      error := Send(server, Alias(call.id, clientAlias, true, None, false));
      if error.Some? {
        return;
      }
      assert goal == RunToEnd(View(), ConnectAnnounced(call, clientAlias, client, server.value));
      OneSegment(View(), ConnectAnnounced(call, clientAlias, client, server.value));
      error := Send(server, Accept(call.remoteAlias, clientAlias));
      assert goal == RunToEnd(View(), ConnectAccepted(call, clientAlias, client, server.value));
      OneSegment(View(), ConnectAccepted(call, clientAlias, client, server.value));
      error := Send(Some(client), Alias(serverId, call.remoteAlias, true, Some(call.clientConnectionId), false));
    }

    /** The close handler of a registered client; `order` is the order of its aliases in the map. */
    method HandleClose(id: string) returns (order: seq<string>)
      modifies this
      ensures Enumerates(order, Owned(old(aliases), id))
      ensures View() == Disconnect(old(View()), id, order)
    {
      clients := clients - {id};
      RemoveIPAddress(id);
      order := TakeOwned(id);
      SendToAll(Goodbye(id));
      ghost var freed := subnets;
      assert [Goodbye(id)] + Removals(id, order[..0]) == [Goodbye(id)];
      assert order[0..] == order;
      for i := 0 to |order|
        invariant clients == old(clients) - {id} && aliases == old(aliases) - (set a | a in order)
        invariant ReleaseAll(freed, order) == ReleaseAll(subnets, order[i..])
        invariant mail == Deliver(old(mail), ToAll(clients, [Goodbye(id)] + Removals(id, order[..i])))
      {
        RemovalsMore(id, order, i);
        ToAllMore(old(mail), clients, [Goodbye(id)] + Removals(id, order[..i]),
          Alias(id, order[i], false, None, false));
        assert order[i..][1..] == order[i + 1..];
        RemoveIPAddress(order[i]);
        RemoveTCPAddress(order[i]);
        SendToAll(Alias(id, order[i], false, None, false));
      }
      assert order[..|order|] == order;
    }

    /** Deletes the aliases of an id, one by one. */
    method TakeOwned(id: string) returns (order: seq<string>)
      modifies `aliases
      ensures Enumerates(order, Owned(old(aliases), id))
      ensures aliases == old(aliases) - (set a | a in order)
    {
      order := [];
      var left := aliases.Keys;
      while left != {}
        invariant left <= old(aliases).Keys
        invariant Enumerates(order, Owned(old(aliases), id) - left)
        invariant aliases == old(aliases) - (set a | a in order)
      {
        var alias :| alias in left;
        left := left - {alias};
        if aliases[alias].id == id {
          order := order + [alias];
          aliases := aliases - {alias};
        }
      }
    }
  }

  /** A suspended handler runs one segment, then what is left of it. */
  lemma SetPortsSame(subnets: Subnets, ip: Ip)
    requires Has(subnets, ip)
    ensures SetPorts(subnets, ip, subnets[ip.subnet][ip.suffix]) == subnets
  {
    var members := subnets[ip.subnet];
    assert members[ip.suffix := members[ip.suffix]] == members;
  }

  lemma RemovalsMore(id: string, order: seq<string>, i: nat)
    requires i < |order|
    ensures [Goodbye(id)] + Removals(id, order[..i + 1]) ==
      [Goodbye(id)] + Removals(id, order[..i]) + [Alias(id, order[i], false, None, false)]
  {}
}
