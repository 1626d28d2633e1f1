/** Which messages an event sends to which peer: at most one, except when a connection closes. */
module Sending {
  import opened Wrappers
  import opened Address
  import opened Allocator
  import opened Server
  import opened Interleaving

  function OneTo(to: Option<Peer>, p: Peer, m: Message): seq<Message> { if to == Some(p) then [m] else [] }

  function SentByStart(st: State, request: Request, p: Peer): seq<Message> {
    match request
    case Bind(id, alias) =>
      if alias in st.aliases then OneTo(Lookup(st.clients, id), p, Alias(id, alias, false, None, false)) else []
    case Shutdown(id, alias) =>
      if alias in st.aliases && st.aliases[alias].id == id then []
      else OneTo(Lookup(st.clients, id), p, Alias(id, alias, true, None, false))
    case _ => []
  }

  function SentByResume(st: State, task: Task, p: Peer): seq<Message> {
    match task
    case KnockCreated(conn, id) => OneTo(Some(Peer(id, conn)), p, Acknowledgement(id, id == REJECTED))
    case KnockAcknowledged(conn, id) => if p in Peers(st.clients) && p.id != id then [Greeting(p.id, id)] else []
    case BindClaimed(id, alias) => if p in Peers(st.clients) then [Alias(id, alias, true, None, false)] else []
    case ShutdownFreed(id, alias) => if p in Peers(st.clients) then [Alias(id, alias, false, None, false)] else []
    case ConnectCreated(call, clientAlias) =>
      if Accepts(st, call) then
        OneTo(Lookup(st.clients, call.id), p, Alias(call.id, clientAlias, true, Some(call.clientConnectionId), true))
      else []
    case ConnectReleased(call, clientAlias, found) =>
      OneTo(found, p, Alias(call.id, clientAlias, false, Some(call.clientConnectionId), false))
    case ConnectPublished(call, clientAlias, _) =>
      if call.remoteAlias in st.aliases then
        OneTo(Lookup(st.clients, st.aliases[call.remoteAlias].id), p, Alias(call.id, clientAlias, true, None, false))
      else []
    case ConnectAnnounced(call, clientAlias, _, server) =>
      OneTo(Some(server), p, Accept(call.remoteAlias, clientAlias))
    case ConnectAccepted(call, _, client, server) =>
      OneTo(Some(client), p, Alias(server.id, call.remoteAlias, true, Some(call.clientConnectionId), false))
    case _ => []
  }

  lemma PostBox(st: State, to: Peer, m: Message, p: Peer)
    ensures Box(Post(st, to, m).mail, p) == Box(st.mail, p) + OneTo(Some(to), p, m)
  {}

  lemma BroadcastBox(st: State, m: Message, p: Peer)
    ensures Box(Broadcast(st, m).mail, p) == Box(st.mail, p) + if p in Peers(st.clients) then [m] else []
  {}

  lemma GreetBox(st: State, id: string, p: Peer)
    ensures Box(Deliver(st.mail, Introductions(st.clients, id)), p) ==
      Box(st.mail, p) + if p in Peers(st.clients) && p.id != id then [Greeting(p.id, id)] else []
  {}

  lemma StartSends(st: State, conn: nat, request: Request, p: Peer)
    ensures Box(Start(st, conn, request).st.mail, p) == Box(st.mail, p) + SentByStart(st, request, p)
  {
    hide Deliver, Box;
    forall to: Peer, m: Message ensures Box(Post(st, to, m).mail, p) == Box(st.mail, p) + OneTo(Some(to), p, m) {
      PostBox(st, to, m, p);
    }
  }

  lemma ResumeSends(st: State, task: Task, p: Peer)
    requires Runnable(st, task)
    ensures Box(Resume(st, task).st.mail, p) == Box(st.mail, p) + SentByResume(st, task, p)
  {
    hide CreateIP, CreateTCP, ClaimTCP, RemoveTCP, RemoveIP, Deliver, Box, Post, Broadcast, ReadTcp, Introductions;
    forall s: State, to: Peer, m: Message
      ensures Box(Post(s, to, m).mail, p) == Box(s.mail, p) + OneTo(Some(to), p, m)
    {
      PostBox(s, to, m, p);
    }
    forall s: State, m: Message
      ensures Box(Broadcast(s, m).mail, p) == Box(s.mail, p) + if p in Peers(s.clients) then [m] else []
    {
      BroadcastBox(s, m, p);
    }
    if task.KnockAcknowledged? { GreetBox(st, task.id, p); }
  }

  function Sent(w: World, e: Event, p: Peer): seq<Message> {
    match e
    case Receive(_, _, request) => SentByStart(w.st, request, p)
    case Proceed(tid) => if tid in w.tasks then SentByResume(w.st, w.tasks[tid], p) else []
    case Close(id, order) =>
      if p in Peers(w.st.clients - {id}) then [Goodbye(id)] + Removals(id, order) else []
  }

  /** The mail of a peer grows by exactly what the event sends it. */
  lemma EventSends(w: World, e: Event, p: Peer)
    requires Enabled(w, e)
    ensures Box(Next(w, e).st.mail, p) == Box(w.st.mail, p) + Sent(w, e, p)
  {
    match e
    case Receive(_, conn, request) => StartSends(w.st, conn, request, p);
    case Proceed(tid) => ResumeSends(w.st, w.tasks[tid], p);
    case Close(id, order) =>
  }
}
