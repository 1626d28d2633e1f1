/**
 What the listener knows when `accept` returns: the server announces the connecting
 client's alias before it sends the Accept, and this module says exactly what has to
 come in between for the announcement to be lost.
 */
module Accepting {
  import opened Wrappers
  import opened Allocator
  import opened Server
  import opened Interleaving
  import opened Sending
  import opened Client
  import opened Network
  import opened Promises

  // ------------------------------------------ what a listener is told of an alias

  function Look(told: map<string, string>, alias: string): Option<string> {
    if alias in told then Some(told[alias]) else None
  }

  function SaysAtStart(st: State, request: Request, p: Peer, alias: string): Option<Option<string>> {
    match request
    case Bind(id, a) => if a == alias && a in st.aliases && Lookup(st.clients, id) == Some(p) then Some(None) else None
    case Shutdown(id, a) =>
      if a == alias && !(a in st.aliases && st.aliases[a].id == id) && Lookup(st.clients, id) == Some(p)
        then Some(Some(id))
      else None
    case _ => None
  }

  function SaysAtResume(st: State, task: Task, p: Peer, alias: string): Option<Option<string>> {
    match task
    case BindClaimed(id, a) => if a == alias && p in Peers(st.clients) then Some(Some(id)) else None
    case ShutdownFreed(_, a) => if a == alias && p in Peers(st.clients) then Some(None) else None
    case ConnectCreated(call, a) =>
      if a == alias && Accepts(st, call) && Lookup(st.clients, call.id) == Some(p) then Some(Some(call.id)) else None
    case ConnectReleased(_, a, found) => if a == alias && found == Some(p) then Some(None) else None
    case ConnectPublished(call, a, _) =>
      if a == alias && call.remoteAlias in st.aliases && Lookup(st.clients, st.aliases[call.remoteAlias].id) == Some(p)
      then Some(Some(call.id)) else None
    case ConnectAccepted(call, _, client, server) =>
      if call.remoteAlias == alias && client == p then Some(Some(server.id)) else None
    case _ => None
  }

  /** What a step of the server tells a peer about an alias: nothing, that it is gone, or whose it is. */
  function Says(w: World, e: Event, p: Peer, alias: string): Option<Option<string>> {
    match e
    case Receive(_, _, request) => SaysAtStart(w.st, request, p, alias)
    case Proceed(tid) => if tid in w.tasks then SaysAtResume(w.st, w.tasks[tid], p, alias) else None
    case Close(id, order) => if alias in order && p in Peers(w.st.clients - {id}) then Some(None) else None
  }

  function Heard(prior: Option<string>, said: Option<Option<string>>): Option<string> {
    if said.Some? then said.value else prior
  }

  lemma TellingSnoc(box: seq<Message>, m: Message)
    ensures Telling(box + [m]) == if m.Alias? then OnAlias(Telling(box), m.id, m.alias, m.isSet) else Telling(box)
  {
    assert (box + [m])[..|box|] == box;
  }

  lemma RemovalsSnoc(id: string, order: seq<string>)
    requires order != []
    ensures Removals(id, order) ==
      Removals(id, order[..|order| - 1]) + [Alias(id, order[|order| - 1], false, None, false)]
  {}

  lemma {:induction false} RemovalsTell(box: seq<Message>, id: string, order: seq<string>, alias: string)
    ensures Look(Telling(box + Removals(id, order)), alias) == if alias in order then None
      else Look(Telling(box), alias)
  {
    if order == [] {
      assert box + Removals(id, order) == box;
    } else {
      hide Telling, Removals;
      var init, last := order[..|order| - 1], order[|order| - 1];
      RemovalsTell(box, id, init, alias);
      RemovalsSnoc(id, order);
      assert box + Removals(id, order) == box + Removals(id, init) + [Alias(id, last, false, None, false)];
      TellingSnoc(box + Removals(id, init), Alias(id, last, false, None, false));
      assert order == init + [last];
    }
  }

  /** A single message, or none. */
  lemma OneTells(box: seq<Message>, sent: seq<Message>, alias: string)
    requires |sent| <= 1
    ensures Look(Telling(box + sent), alias) ==
      if sent != [] && sent[0].Alias? && sent[0].alias == alias then (if sent[0].isSet then Some(sent[0].id) else None)
      else Look(Telling(box), alias)
  {
    if sent == [] {
      assert box + sent == box;
    } else {
      assert sent == [sent[0]];
      TellingSnoc(box, sent[0]);
    }
  }

  lemma StartSays(st: State, request: Request, p: Peer, alias: string)
    ensures var sent := SentByStart(st, request, p);
      && |sent| <= 1
      && SaysAtStart(st, request, p, alias) ==
           if sent != [] && sent[0].Alias? && sent[0].alias == alias
             then Some(if sent[0].isSet then Some(sent[0].id) else None)
           else None
  {}

  lemma ResumeSays(st: State, task: Task, p: Peer, alias: string)
    ensures var sent := SentByResume(st, task, p);
      && |sent| <= 1
      && SaysAtResume(st, task, p, alias) ==
           if sent != [] && sent[0].Alias? && sent[0].alias == alias
             then Some(if sent[0].isSet then Some(sent[0].id) else None)
           else None
  {}

  lemma CloseTells(box: seq<Message>, id: string, order: seq<string>, alias: string)
    ensures Look(Telling(box + ([Goodbye(id)] + Removals(id, order))), alias)
         == if alias in order then None else Look(Telling(box), alias)
  {
    TellingSnoc(box, Goodbye(id));
    RemovalsTell(box + [Goodbye(id)], id, order, alias);
    assert box + ([Goodbye(id)] + Removals(id, order)) == box + [Goodbye(id)] + Removals(id, order);
  }

  /** After a step of the server, the peer's mail tells of the alias what the step said, or what it told before. */
  lemma SaysIs(w: World, e: Event, p: Peer, box: seq<Message>, alias: string)
    ensures Look(Telling(box + Sent(w, e, p)), alias) == Heard(Look(Telling(box), alias), Says(w, e, p, alias))
  {
    hide Telling, SentByStart, SentByResume, SaysAtStart, SaysAtResume, Removals, Look;
    match e
    case Receive(_, _, request) => StartSays(w.st, request, p, alias); OneTells(box, Sent(w, e, p), alias);
    case Proceed(tid) =>
      if tid in w.tasks { ResumeSays(w.st, w.tasks[tid], p, alias); }
      OneTells(box, Sent(w, e, p), alias);
    case Close(id, order) =>
      CloseTells(box, id, order, alias);
      OneTells(box, [], alias);
  }

  predicate ByServer(e: NetEvent) { e.Serve? || e.Work? || e.Hangup? }

  /** What an event tells a peer about an alias. */
  ghost function Tells(n: Net, e: NetEvent, p: Peer, alias: string): Option<Option<string>>
    requires CanHappen(n, e)
  {
    if ByServer(e) then Says(n.world, ServerEvent(n, e), p, alias) else None
  }

  lemma TellsIs(n: Net, e: NetEvent, p: Peer, alias: string)
    requires CanHappen(n, e)
    ensures Look(Telling(Mailbox(Then(n, e), p)), alias) ==
      Heard(Look(Telling(Mailbox(n, p)), alias), Tells(n, e, p, alias))
  {
    if ByServer(e) {
      hide Telling, Sent, Says, Then, Box, CanHappen, ServerEvent;
      ServerMail(n, e, p);
      SaysIs(n.world, ServerEvent(n, e), p, Mailbox(n, p), alias);
    } else {
      hide Telling, HandleMessage, Asking, RequestOf;
    }
  }

  // -------------------------------------------------- from announcement to Accept

  /**
   The handler `tid` announces the alias of a call to the listener at step s1 and sends
   the Accept at step s2.
   */
  ghost predicate Window(ns: seq<Net>, es: seq<NetEvent>, s1: nat, s2: nat, tid: nat, call: Call, alias: string,
                         client: Peer, server: Peer)
    requires NetRun(ns, es)
  {
    && s1 < s2 < |es| && es[s1] == Work(tid) && es[s2] == Work(tid)
    && tid in ns[s1].world.tasks && ns[s1].world.tasks[tid] == ConnectPublished(call, alias, client)
    && call.remoteAlias in ns[s1].world.st.aliases
    && Lookup(ns[s1].world.st.clients, ns[s1].world.st.aliases[call.remoteAlias].id) == Some(server)
    && forall i | s1 < i <= s2 ::
         tid in ns[i].world.tasks && ns[i].world.tasks[tid] == ConnectAnnounced(call, alias, client, server)
  }

  /** What the listener was told last about the alias, since the announcement. */
  ghost function LastWord(ns: seq<Net>, es: seq<NetEvent>, s1: nat, i: nat, p: Peer, alias: string,
                          id: string): Option<string>
    requires NetRun(ns, es) && s1 < i <= |es|
  {
    if i == s1 + 1 then Some(id)
    else Heard(LastWord(ns, es, s1, i - 1, p, alias, id), Tells(ns[i - 1], es[i - 1], p, alias))
  }

  lemma {:induction false} LastWordIs(ns: seq<Net>, es: seq<NetEvent>, s1: nat, s2: nat, tid: nat, call: Call,
                                      alias: string, client: Peer, server: Peer, i: nat)
    requires NetRun(ns, es) && Window(ns, es, s1, s2, tid, call, alias, client, server) && s1 < i <= s2
    ensures Look(Telling(Mailbox(ns[i], server)), alias) == LastWord(ns, es, s1, i, server, alias, call.id)
  {
    hide Telling, Mailbox, Then, Look;
    TellsIs(ns[i - 1], es[i - 1], server, alias);
    if i > s1 + 1 {
      LastWordIs(ns, es, s1, s2, tid, call, alias, client, server, i - 1);
    }
  }

  /** A handler about to send its Accept has announced the alias before, and nothing else since. */
  lemma {:induction false} Since(ns: seq<Net>, es: seq<NetEvent>, i: nat, tid: nat) returns (s1: nat)
    requires NetRun(ns, es) && i < |ns| && tid in ns[i].world.tasks && ns[i].world.tasks[tid].ConnectAnnounced?
    ensures s1 < i && es[s1] == Work(tid) && tid in ns[s1].world.tasks
    ensures var ConnectAnnounced(call, alias, client, server) := ns[i].world.tasks[tid];
      && ns[s1].world.tasks[tid] == ConnectPublished(call, alias, client)
      && call.remoteAlias in ns[s1].world.st.aliases
      && Lookup(ns[s1].world.st.clients, ns[s1].world.st.aliases[call.remoteAlias].id) == Some(server)
    ensures forall x | s1 < x <= i :: tid in ns[x].world.tasks && ns[x].world.tasks[tid] == ns[i].world.tasks[tid]
  {
    hide Then, CanHappen;
    assert i > 0 by { assert BEGIN.world.tasks == map[]; }
    Before(ns[i - 1], es[i - 1], tid);
    if tid in ns[i - 1].world.tasks && ns[i - 1].world.tasks[tid] == ns[i].world.tasks[tid] {
      s1 := Since(ns, es, i - 1, tid);
    } else {
      s1 := i - 1;
    }
  }

  lemma Before(n: Net, e: NetEvent, tid: nat)
    requires CanHappen(n, e) && tid in Then(n, e).world.tasks && Then(n, e).world.tasks[tid].ConnectAnnounced?
    ensures tid in n.world.tasks
    ensures var ConnectAnnounced(call, alias, client, server) := Then(n, e).world.tasks[tid];
      || n.world.tasks[tid] == Then(n, e).world.tasks[tid]
      || (e == Work(tid) && n.world.tasks[tid] == ConnectPublished(call, alias, client)
          && call.remoteAlias in n.world.st.aliases
          && Lookup(n.world.st.clients, n.world.st.aliases[call.remoteAlias].id) == Some(server))
  {
    hide CreateIP, CreateTCP, ClaimTCP, RemoveTCP, RemoveIP, Deliver, HandleMessage, Asking, RequestOf, RefusalOf,
         Pairs, Disconnect;
  }

  lemma EmptyAtFirst(p: Peer)
    ensures Mailbox(BEGIN, p) == []
  {}

  /** Step s put the message at place j of a mail as it is at k; the mail before that step is a part of it. */
  ghost predicate SentAt(ns: seq<Net>, s: nat, p: Peer, j: nat, k: nat)
    requires s + 1 < |ns| && k < |ns| && j < |Mailbox(ns[k], p)|
  {
    && |Mailbox(ns[s], p)| <= j < |Mailbox(ns[s + 1], p)|
    && Mailbox(ns[s + 1], p)[j] == Mailbox(ns[k], p)[j]
    && Mailbox(ns[s], p) == Mailbox(ns[k], p)[..|Mailbox(ns[s], p)|]
  }

  /** When a message was sent. */
  lemma {:induction false} SentWhen(ns: seq<Net>, es: seq<NetEvent>, k: nat, p: Peer, j: nat) returns (s: nat)
    requires NetRun(ns, es) && k < |ns| && j < |Mailbox(ns[k], p)|
    ensures s < k && SentAt(ns, s, p, j, k)
  {
    hide Then, CanHappen, Everything, Grows, Inv, Box;
    EmptyAtFirst(p);
    assert k > 0;
    Always(ns, es, k - 1);
    NowEverything(ns[k - 1]);
    ThenKeeps(ns[k - 1], es[k - 1]);
    Prefix(ns[k - 1], ns[k], p);
    if j < |Mailbox(ns[k - 1], p)| {
      s := SentWhen(ns, es, k - 1, p, j);
    } else {
      s := k - 1;
    }
  }

  lemma Prefix(n: Net, n': Net, p: Peer)
    requires Grows(n, n')
    ensures Mailbox(n, p) <= Mailbox(n', p)
  {}

  lemma AcceptSentBy(n: Net, e: NetEvent, p: Peer, j: nat)
    requires CanHappen(n, e) && |Mailbox(n, p)| <= j < |Mailbox(Then(n, e), p)| && Mailbox(Then(n, e), p)[j].Accept?
    ensures e.Work? && e.tid in n.world.tasks && n.world.tasks[e.tid].ConnectAnnounced?
    ensures var task, m := n.world.tasks[e.tid], Mailbox(Then(n, e), p)[j];
      task.server == p && j == |Mailbox(n, p)| && m == Accept(task.call.remoteAlias, task.clientAlias)
  {
    hide Then, Next, Enabled, Box, HandleMessage, Removals;
    assert ByServer(e) by { if !ByServer(e) { SilentClients(n, e, p); } }
    ServerMail(n, e, p);
    AcceptIn(n.world, ServerEvent(n, e), p, j - |Mailbox(n, p)|);
  }

  lemma SilentClients(n: Net, e: NetEvent, p: Peer)
    requires CanHappen(n, e) && !ByServer(e)
    ensures Mailbox(Then(n, e), p) == Mailbox(n, p)
  {
    hide HandleMessage, Asking, RequestOf;
  }

  lemma AcceptIn(w: World, e: Event, p: Peer, i: nat)
    requires i < |Sent(w, e, p)| && Sent(w, e, p)[i].Accept?
    ensures e.Proceed? && e.tid in w.tasks && w.tasks[e.tid].ConnectAnnounced? && w.tasks[e.tid].server == p && i == 0
    ensures Sent(w, e, p)[i] == Accept(w.tasks[e.tid].call.remoteAlias, w.tasks[e.tid].clientAlias)
  {}

  // --------------------------------------------------------- accept returns

  /** At this step the pending accept call returns the alias. */
  ghost predicate Returns(n: Net, e: NetEvent, conn: nat, call: nat, alias: string)
    requires CanHappen(n, e)
  {
    && conn in n.users && call in n.users[conn].accepts && n.users[conn].accepts[call].promise.Pending?
    && conn in Then(n, e).users && call in Then(n, e).users[conn].accepts
    && Then(n, e).users[conn].accepts[call].promise == Resolved(alias)
  }

  lemma ReturnsByReading(n: Net, e: NetEvent, conn: nat, call: nat, alias: string)
    requires CanHappen(n, e) && Returns(n, e, conn, call, alias)
    ensures e.Read? && e.p.conn == conn
    ensures Mailbox(n, e.p)[ReadCount(n, e.p)] == Accept(n.users[conn].accepts[call].alias, alias)
    ensures Then(n, e).users[conn].told == n.users[conn].told
  {
    hide HandleMessage, Asking, RequestOf, Box, Serving;
    match e
    case Open(_, _) =>
    case Serve(_, _) => ServingUsers(n, e);
    case Work(_) => ServingUsers(n, e);
    case Hangup(_, _) => ServingUsers(n, e);
    case Read(p) => if p.conn == conn { AcceptHeard(n.users[conn], Mailbox(n, p)[ReadCount(n, p)], call, alias); }
    case _ => AskingAccepts(n.users[e.conn], e, call);
  }

  lemma AcceptHeard(u: User, m: Message, call: nat, alias: string)
    requires call in u.accepts && u.accepts[call].promise.Pending?
    requires call in HandleMessage(u, m).accepts && HandleMessage(u, m).accepts[call].promise == Resolved(alias)
    ensures m == Accept(u.accepts[call].alias, alias) && HandleMessage(u, m).told == u.told
  {
    hide NotifyAlias, NotifyConnect, OnAlias;
  }

  lemma AskingAccepts(u: User, e: NetEvent, call: nat)
    requires IsCall(e) && call in u.accepts && call in Asking(u, e).accepts
    requires Asking(u, e).accepts[call].promise.Resolved?
    ensures u.accepts[call].promise.Resolved?
  {}

  /**
   In every run: when accept returns an alias, the server had registered it for a
   connect call to that bound alias, had announced it to the listener and then sent the
   Accept; and what the listener knows of the alias is exactly what it was told last
   between the two.
   */
  lemma AcceptReturns(ns: seq<Net>, es: seq<NetEvent>, k: nat, conn: nat, ac: nat, alias: string)
    returns (s1: nat, s2: nat, tid: nat, call: Call, client: Peer, server: Peer)
    requires NetRun(ns, es) && k < |es| && Returns(ns[k], es[k], conn, ac, alias)
    ensures server.conn == conn && s2 < k && Window(ns, es, s1, s2, tid, call, alias, client, server)
    ensures Known(ns[k], server) && call.remoteAlias == ns[k].users[conn].accepts[ac].alias
    ensures exists i :: 0 <= i < s2 && Decides(ns[i], es[i], call.clientConnectionId, Granted(alias))
    ensures Recorded(ns[s2], call)
    ensures Look(ns[k + 1].users[conn].told, alias) == LastWord(ns, es, s1, s2, server, alias, call.id)
  {
    hide Then, CanHappen, Telling, Look, Inv, RepliesInv, UsersInv, MessageFact, Decides;
    var n, e := ns[k], es[k];
    ReturnsByReading(n, e, conn, ac, alias);
    server := e.p;
    var j := ReadCount(n, server);
    Always(ns, es, k);
    ReadingNow(n, e);
    s2 := SentWhen(ns, es, k, server, j);
    AcceptSentBy(ns[s2], es[s2], server, j);
    tid := es[s2].tid;
    s1 := Since(ns, es, s2, tid);
    var task := ns[s2].world.tasks[tid];
    call, client := task.call, task.client;
    assert Mailbox(n, server)[..j] == Mailbox(ns[s2], server);
    LastWordIs(ns, es, s1, s2, tid, call, alias, client, server, s2);
    Always(ns, es, s2);
    WasGranted(ns[s2], tid);
    WasDecided(ns, es, s2, call.clientConnectionId);
    hide Everything, Mailbox;
  }

  lemma ReadingNow(n: Net, e: NetEvent)
    requires Everything(n) && e.Read? && CanHappen(n, e)
    ensures ReadCount(n, e.p) < |Mailbox(n, e.p)| && Known(n, e.p)
    ensures n.users[e.p.conn].told == Telling(Mailbox(n, e.p)[..ReadCount(n, e.p)])
  {
    hide IdsInv, TasksInv, OnePlace, RepliesInv, Telling, Box, Pairs, RefusalFact, BindFact, AcceptFact, ConnectFact;
    assert UserFact(n, e.p.conn, n.users[e.p.conn]);
    assert MessageFact(n, e.p, ReadCount(n, e.p), Mailbox(n, e.p)[ReadCount(n, e.p)]);
    hide EverHad;
  }

  lemma WasGranted(n: Net, tid: nat)
    requires Everything(n) && tid in n.world.tasks && n.world.tasks[tid].ConnectAnnounced?
    ensures var task := n.world.tasks[tid];
      var cid := task.call.clientConnectionId;
      Recorded(n, task.call) && cid in n.verdicts && n.verdicts[cid] == Granted(task.clientAlias)
  {
    hide IdsInv, OnePlace, MailInv, RepliesInv, UsersInv, RequestFact;
    assert TaskFact(n, n.world.tasks[tid]);
  }
}
