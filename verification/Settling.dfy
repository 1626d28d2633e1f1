/**
 What settles a bind, a shutdown or an accept call: exactly which message its client
 processes; and for bind and shutdown the step of the server that sent it, and whether
 that step came after the call. A message about the alias that was still unread when the
 call was made can settle it as well.
 */
module Settling {
  import opened Wrappers
  import opened Allocator
  import opened Server
  import opened Interleaving
  import opened Sending
  import opened Client
  import opened Network
  import opened Promises
  import opened Accepting

  // ------------------------------------------- what is sent about one's own alias

  /** A message that the listeners of bind and shutdown on this id and alias hear. */
  predicate News(m: Message, id: string, alias: string, isSet: bool) {
    m.Alias? && m.id == id && m.alias == alias && m.isSet == isSet && m.clientConnectionId == None
  }

  /** The end of a bind: the alias is registered for the id and everybody is told. */
  ghost predicate Publishes(n: Net, e: NetEvent, id: string, alias: string) {
    e.Work? && e.tid in n.world.tasks && n.world.tasks[e.tid] == BindClaimed(id, alias)
  }

  /** The client alias of a connect of this id to an alias of its own is announced. */
  ghost predicate AnnouncesToCaller(n: Net, e: NetEvent, id: string, alias: string) {
    && e.Work? && e.tid in n.world.tasks && n.world.tasks[e.tid].ConnectPublished?
    && var task := n.world.tasks[e.tid];
    && task.call.id == id && task.clientAlias == alias
    && task.call.remoteAlias in n.world.st.aliases && n.world.st.aliases[task.call.remoteAlias].id == id
  }

  /** A shutdown of an alias that is not the sender's is refused. */
  ghost predicate RefusesShutdown(n: Net, e: NetEvent, id: string, alias: string) {
    && e.Serve? && Inbox(n, e.conn) != [] && Inbox(n, e.conn)[0] == Shutdown(id, alias)
    && !(alias in n.world.st.aliases && n.world.st.aliases[alias].id == id)
  }

  /** A shutdown takes the alias back from its owner. */
  ghost predicate TakesBack(n: Net, e: NetEvent, id: string, alias: string) {
    && e.Serve? && Inbox(n, e.conn) != [] && Inbox(n, e.conn)[0] == Shutdown(id, alias)
    && alias in n.world.st.aliases && n.world.st.aliases[alias].id == id
  }

  /** The end of a shutdown: everybody is told. */
  ghost predicate EndsShutdown(n: Net, e: NetEvent, id: string, alias: string) {
    e.Work? && e.tid in n.world.tasks && n.world.tasks[e.tid] == ShutdownFreed(id, alias)
  }

  /** A bind of a registered alias is refused. */
  ghost predicate RefusesBind(n: Net, e: NetEvent, id: string, alias: string) {
    && e.Serve? && Inbox(n, e.conn) != [] && Inbox(n, e.conn)[0] == Bind(id, alias) && alias in n.world.st.aliases
  }

  /** The steps that tell a client that an alias is its own, and those that tell it that it is not. */
  ghost predicate Tidings(n: Net, e: NetEvent, id: string, alias: string, isSet: bool) {
    if isSet then Publishes(n, e, id, alias) || AnnouncesToCaller(n, e, id, alias) || RefusesShutdown(n, e, id, alias)
    else EndsShutdown(n, e, id, alias) || RefusesBind(n, e, id, alias)
  }

  lemma NewsIn(n: Net, e: NetEvent, p: Peer, i: nat, alias: string, isSet: bool)
    requires CanHappen(n, e) && ByServer(e)
    requires i < |Sent(n.world, ServerEvent(n, e), p)|
      && News(Sent(n.world, ServerEvent(n, e), p)[i], p.id, alias, isSet)
    ensures Tidings(n, e, p.id, alias, isSet)
  {
    hide Enumerates, Runnable;
  }

  lemma NewsSentBy(n: Net, e: NetEvent, p: Peer, j: nat, alias: string, isSet: bool)
    requires CanHappen(n, e) && |Mailbox(n, p)| <= j < |Mailbox(Then(n, e), p)|
    requires News(Mailbox(Then(n, e), p)[j], p.id, alias, isSet)
    ensures ByServer(e) && Tidings(n, e, p.id, alias, isSet)
  {
    hide Then, Next, Enabled, Box, News, Tidings, Sent;
    assert ByServer(e) by { if !ByServer(e) { SilentClients(n, e, p); } }
    ServerMail(n, e, p);
    NewsIn(n, e, p, j - |Mailbox(n, p)|, alias, isSet);
  }

  // -------------------------------------------------------- the calls of a client

  predicate Makes(e: NetEvent, conn: nat, call: nat, alias: string, shuts: bool) {
    e == if shuts then CallShutdown(conn, call, alias) else CallBind(conn, call, alias)
  }

  /** The client processes news of its alias. */
  ghost predicate Hears(n: Net, e: NetEvent, p: Peer, alias: string, isSet: bool) {
    && e == Read(p) && ReadCount(n, p) < |Mailbox(n, p)|
    && News(Mailbox(n, p)[ReadCount(n, p)], p.id, alias, isSet)
  }

  /** A message settles the call it is for: a bind is granted what a shutdown is refused. */
  lemma CallHears(u: User, m: Message, call: nat, shuts: bool)
    requires call in CallsOf(u, shuts) && (m.Alias? && !ForConnect(m) ==> m.clientConnectionId == None)
    ensures call in CallsOf(HandleMessage(u, m), shuts)
    ensures var c, c' := CallsOf(u, shuts)[call], CallsOf(HandleMessage(u, m), shuts)[call];
      && c'.id == c.id && c'.alias == c.alias
      && (!c.promise.Pending? ==> c'.promise == c.promise)
      && (c'.promise != c.promise ==> !c'.promise.Pending? && News(m, c.id, c.alias, c'.promise.Resolved? != shuts))
  {
    hide NotifyConnect, NotifyAccept, OnAlias;
  }

  lemma AskingKeeps(u: User, e: NetEvent, call: nat, shuts: bool)
    requires IsCall(e) && call in CallsOf(u, shuts)
    requires e.CallBind? ==> e.call !in u.binds
    requires e.CallShutdown? ==> e.call !in u.shutdowns
    ensures call in CallsOf(Asking(u, e), shuts) && CallsOf(Asking(u, e), shuts)[call] == CallsOf(u, shuts)[call]
  {}

  function PromiseOf(n: Net, p: Peer, call: nat, alias: string, shuts: bool): Promise<()>
    requires CallBy(n, p.conn, call, p.id, alias, shuts)
  {
    CallsOf(n.users[p.conn], shuts)[call].promise
  }

  lemma CallRead(n: Net, p: Peer, call: nat, alias: string, shuts: bool)
    requires Inv(n) && CanHappen(n, Read(p)) && CallBy(n, p.conn, call, p.id, alias, shuts)
    ensures CallBy(Then(n, Read(p)), p.conn, call, p.id, alias, shuts)
    ensures var before := PromiseOf(n, p, call, alias, shuts);
      var after := PromiseOf(Then(n, Read(p)), p, call, alias, shuts);
      && (!before.Pending? ==> after == before)
      && (after != before ==> !after.Pending? && Hears(n, Read(p), p, alias, after.Resolved? != shuts))
  {
    hide HandleMessage, CallsOf, Box, News, Inv;
    HeardIsTrue(n, p);
    CallHears(n.users[p.conn], Mailbox(n, p)[ReadCount(n, p)], call, shuts);
  }

  /** A step changes nothing about a call unless its client hears news of the alias. */
  lemma CallKept(n: Net, e: NetEvent, p: Peer, call: nat, alias: string, shuts: bool)
    requires Inv(n) && CanHappen(n, e) && Known(n, p) && CallBy(n, p.conn, call, p.id, alias, shuts)
    ensures CallBy(Then(n, e), p.conn, call, p.id, alias, shuts)
    ensures var before, after := PromiseOf(n, p, call, alias, shuts), PromiseOf(Then(n, e), p, call, alias, shuts);
      && (!before.Pending? ==> after == before)
      && (after != before ==> !after.Pending? && Hears(n, e, p, alias, after.Resolved? != shuts))
  {
    hide CallsOf, Mailbox, Then, Hears, Inv, Known;
    if e.Read? && e.p.conn == p.conn {
      ReadByHolder(n, e.p, p);
      CallRead(n, p, call, alias, shuts);
    } else if IsCall(e) && e.conn == p.conn {
      OwnCall(n, e, p.conn);
      AskingKeeps(n.users[p.conn], e, call, shuts);
    } else {
      SameUser(n, e, p.conn);
    }
  }

  /** News settles every pending call of its alias: a bind as it says, a shutdown the other way. */
  lemma NewsSettles(n: Net, p: Peer, call: nat, alias: string, shuts: bool, isSet: bool)
    requires CanHappen(n, Read(p)) && CallBy(n, p.conn, call, p.id, alias, shuts)
    requires PromiseOf(n, p, call, alias, shuts).Pending? && Hears(n, Read(p), p, alias, isSet)
    ensures CallBy(Then(n, Read(p)), p.conn, call, p.id, alias, shuts)
    ensures PromiseOf(Then(n, Read(p)), p, call, alias, shuts) == if isSet != shuts then Resolved(()) else Rejected
  {
    hide Box, OnAlias;
    MessageSettles(n.users[p.conn], Mailbox(n, p)[ReadCount(n, p)], call, shuts, isSet);
    hide HandleMessage, News;
  }

  lemma MessageSettles(u: User, m: Message, call: nat, shuts: bool, isSet: bool)
    requires call in CallsOf(u, shuts) && CallsOf(u, shuts)[call].promise.Pending?
    requires News(m, CallsOf(u, shuts)[call].id, CallsOf(u, shuts)[call].alias, isSet)
    ensures call in CallsOf(HandleMessage(u, m), shuts)
    ensures CallsOf(HandleMessage(u, m), shuts)[call] ==
      CallsOf(u, shuts)[call].(promise := if isSet != shuts then Resolved(()) else Rejected)
  {
    hide OnAlias, NotifyConnect, NotifyAccept;
  }

  /** A connection reads the mail of the id it was issued. */
  lemma ReadByHolder(n: Net, q: Peer, p: Peer)
    requires Inv(n) && CanHappen(n, Read(q)) && Known(n, p) && q.conn == p.conn
    ensures q == p
  {
    HeardIsTrue(n, q);
    hide Inv;
  }

  lemma OwnCall(n: Net, e: NetEvent, conn: nat)
    requires IsCall(e) && CanHappen(n, e) && e.conn == conn
    ensures conn in n.users && conn in Then(n, e).users && Then(n, e).users[conn] == Asking(n.users[conn], e)
    ensures e.CallBind? ==> e.call !in n.users[conn].binds
    ensures e.CallShutdown? ==> e.call !in n.users[conn].shutdowns
  {
    hide Asking, RequestOf;
  }

  /** What neither calls nor reads stays as it is. */
  lemma SameUser(n: Net, e: NetEvent, conn: nat)
    requires CanHappen(n, e) && conn in n.users && !(e.Read? && e.p.conn == conn) && !(IsCall(e) && e.conn == conn)
    ensures conn in Then(n, e).users && Then(n, e).users[conn] == n.users[conn]
  {
    hide HandleMessage, Asking, RequestOf, Mailbox, Serving;
    if ByServer(e) { ServingUsers(n, e); }
  }

  lemma HeardIsTrue(n: Net, p: Peer)
    requires Inv(n) && CanHappen(n, Read(p))
    ensures var m := Mailbox(n, p)[ReadCount(n, p)]; m.Alias? && !ForConnect(m) ==> m.clientConnectionId == None
    ensures Known(n, p)
  {
    hide IdsInv, TasksInv, OnePlace, Box, EverHad, RefusalFact;
    assert MessageFact(n, p, ReadCount(n, p), Mailbox(n, p)[ReadCount(n, p)]);
    TagsAreFull(n, p, ReadCount(n, p), Mailbox(n, p)[ReadCount(n, p)]);
  }

  lemma CallBegins(n: Net, e: NetEvent, conn: nat, call: nat, alias: string, shuts: bool)
    requires Inv(n) && CanHappen(n, e) && Makes(e, conn, call, alias, shuts)
    ensures conn in n.users && Known(n, Peer(n.users[conn].id, conn))
    ensures CallBy(Then(n, e), conn, call, n.users[conn].id, alias, shuts)
    ensures PromiseOf(Then(n, e), Peer(n.users[conn].id, conn), call, alias, shuts).Pending?
  {
    hide TasksInv, OnePlace, MailInv, CallFact, RequestOf;
  }

  // ------------------------------------------------------------- over a whole run

  lemma {:induction false} KnownSince(ns: seq<Net>, es: seq<NetEvent>, i: nat, k: nat, p: Peer)
    requires NetRun(ns, es) && i <= k < |ns| && Known(ns[i], p)
    ensures Known(ns[k], p)
  {
    hide Then, CanHappen, Everything, Inv, Grows, Known;
    if i < k {
      KnownSince(ns, es, i, k - 1, p);
      Always(ns, es, k - 1);
      NowEverything(ns[k - 1]);
      ThenKeeps(ns[k - 1], es[k - 1]);
      MembersStay(ns[k - 1], ns[k]);
    }
  }

  lemma {:induction false} MailSince(ns: seq<Net>, es: seq<NetEvent>, i: nat, k: nat, p: Peer)
    requires NetRun(ns, es) && i <= k < |ns|
    ensures Mailbox(ns[i], p) <= Mailbox(ns[k], p) && ReadCount(ns[i], p) <= ReadCount(ns[k], p)
  {
    hide Then, CanHappen, Everything, Inv, Grows, Box;
    if i < k {
      MailSince(ns, es, i, k - 1, p);
      Always(ns, es, k - 1);
      NowEverything(ns[k - 1]);
      ThenKeeps(ns[k - 1], es[k - 1]);
      Prefix(ns[k - 1], ns[k], p);
      CountGrows(ns[k - 1], es[k - 1], p);
    }
  }

  lemma CountGrows(n: Net, e: NetEvent, p: Peer)
    requires CanHappen(n, e)
    ensures ReadCount(n, p) <= ReadCount(Then(n, e), p)
  {
    hide Asking, RequestOf, HandleMessage, Box, Next;
  }

  /** A call that is settled heard news of its alias after it was made. */
  lemma {:induction false} SettledByNews(ns: seq<Net>, es: seq<NetEvent>, k0: nat, k: nat, conn: nat, call: nat,
                                         alias: string, shuts: bool)
    requires NetRun(ns, es) && k0 < k < |ns| && Makes(es[k0], conn, call, alias, shuts)
    ensures conn in ns[k0].users && CallBy(ns[k], conn, call, ns[k0].users[conn].id, alias, shuts)
    ensures var p := Peer(ns[k0].users[conn].id, conn);
      var promise := PromiseOf(ns[k], p, call, alias, shuts);
      !promise.Pending? ==> exists r :: k0 < r < k && Hears(ns[r], es[r], p, alias, promise.Resolved? != shuts)
    decreases k
  {
    hide Then, CanHappen, Everything, Inv, Hears, Known, CallBy, PromiseOf;
    Always(ns, es, k0);
    NowEverything(ns[k0]);
    CallBegins(ns[k0], es[k0], conn, call, alias, shuts);
    if k > k0 + 1 {
      SettledByNews(ns, es, k0, k - 1, conn, call, alias, shuts);
      var p := Peer(ns[k0].users[conn].id, conn);
      Always(ns, es, k - 1);
      NowEverything(ns[k - 1]);
      KnownSince(ns, es, k0, k - 1, p);
      CallKept(ns[k - 1], es[k - 1], p, call, alias, shuts);
    }
  }

  /** The first news of the alias that the client processes after a call. */
  ghost predicate FirstNews(ns: seq<Net>, es: seq<NetEvent>, k0: nat, r: nat, p: Peer, alias: string, isSet: bool)
    requires r < |es| && |ns| == |es| + 1
  {
    && k0 < r && Hears(ns[r], es[r], p, alias, isSet)
    && forall q, other | k0 < q < r :: !Hears(ns[q], es[q], p, alias, other)
  }

  /**
   Exactly when and how a bind or a shutdown call is settled, in every run: it waits while
   its client processes no news of the alias under its id; the first such news decides it.
   */
  lemma {:induction false} SettledExactly(ns: seq<Net>, es: seq<NetEvent>, k0: nat, k: nat, conn: nat, call: nat,
                                          alias: string, shuts: bool)
    requires NetRun(ns, es) && k0 < k < |ns| && Makes(es[k0], conn, call, alias, shuts)
    ensures conn in ns[k0].users && CallBy(ns[k], conn, call, ns[k0].users[conn].id, alias, shuts)
    ensures var p := Peer(ns[k0].users[conn].id, conn);
      var promise := PromiseOf(ns[k], p, call, alias, shuts);
      && (promise.Pending? <==> forall r, isSet | k0 < r < k :: !Hears(ns[r], es[r], p, alias, isSet))
      && (forall r, isSet | k0 < r < k && FirstNews(ns, es, k0, r, p, alias, isSet) ::
            promise == if isSet != shuts then Resolved(()) else Rejected)
    decreases k
  {
    hide Then, CanHappen, Everything, Inv, Hears, Known, CallBy, PromiseOf;
    Always(ns, es, k0);
    NowEverything(ns[k0]);
    CallBegins(ns[k0], es[k0], conn, call, alias, shuts);
    if k > k0 + 1 {
      SettledExactly(ns, es, k0, k - 1, conn, call, alias, shuts);
      var p := Peer(ns[k0].users[conn].id, conn);
      Always(ns, es, k - 1);
      NowEverything(ns[k - 1]);
      KnownSince(ns, es, k0, k - 1, p);
      CallKept(ns[k - 1], es[k - 1], p, call, alias, shuts);
      if PromiseOf(ns[k - 1], p, call, alias, shuts).Pending? {
        NewsDecides(ns[k - 1], es[k - 1], p, call, alias, shuts);
      }
    }
  }

  lemma NewsDecides(n: Net, e: NetEvent, p: Peer, call: nat, alias: string, shuts: bool)
    requires CanHappen(n, e) && CallBy(n, p.conn, call, p.id, alias, shuts)
      && PromiseOf(n, p, call, alias, shuts).Pending?
    requires CallBy(Then(n, e), p.conn, call, p.id, alias, shuts)
    ensures forall isSet | Hears(n, e, p, alias, isSet) ::
      PromiseOf(Then(n, e), p, call, alias, shuts) == if isSet != shuts then Resolved(()) else Rejected
  {
    hide Then, CanHappen, Hears, CallBy, PromiseOf;
    forall isSet | Hears(n, e, p, alias, isSet)
      ensures PromiseOf(Then(n, e), p, call, alias, shuts) == if isSet != shuts then Resolved(()) else Rejected
    {
      HearsByReading(n, e, p, alias, isSet);
      NewsSettles(n, p, call, alias, shuts, isSet);
    }
  }

  lemma HearsByReading(n: Net, e: NetEvent, p: Peer, alias: string, isSet: bool)
    requires Hears(n, e, p, alias, isSet)
    ensures e == Read(p)
  {}

  // ---------------------------------------------------------------- accept calls

  /** The client processes an Accept for this bound alias. */
  predicate HearsAccept(n: Net, e: NetEvent, conn: nat, bound: string, alias: string) {
    && e.Read? && e.p.conn == conn && ReadCount(n, e.p) < |Mailbox(n, e.p)|
    && Mailbox(n, e.p)[ReadCount(n, e.p)] == Accept(bound, alias)
  }

  predicate AcceptBy(n: Net, conn: nat, call: nat, bound: string) {
    conn in n.users && call in n.users[conn].accepts && n.users[conn].accepts[call].alias == bound
  }

  function ReturnOf(n: Net, conn: nat, call: nat, bound: string): Promise<string>
    requires AcceptBy(n, conn, call, bound)
  {
    n.users[conn].accepts[call].promise
  }

  lemma AcceptStep(n: Net, e: NetEvent, conn: nat, call: nat, bound: string)
    requires CanHappen(n, e) && AcceptBy(n, conn, call, bound)
    ensures AcceptBy(Then(n, e), conn, call, bound)
    ensures var before, after := ReturnOf(n, conn, call, bound), ReturnOf(Then(n, e), conn, call, bound);
      && (!before.Pending? ==> after == before)
      && (forall x | before.Pending? && HearsAccept(n, e, conn, bound, x) :: after == Resolved(x))
      && ((forall x :: !HearsAccept(n, e, conn, bound, x)) ==> after == before)
  {
    hide Mailbox, Then, HandleMessage, Asking;
    if e.Read? && e.p.conn == conn {
      var m := Mailbox(n, e.p)[ReadCount(n, e.p)];
      MessageReturns(n.users[conn], m, call);
      ReadUser(n, e.p);
      if m.Accept? && m.boundAlias == bound { assert HearsAccept(n, e, conn, bound, m.clientAlias); }
    } else if IsCall(e) && e.conn == conn {
      OwnCall(n, e, conn);
      AskingReturns(n.users[conn], e, call);
      OwnAccept(n, e);
    } else {
      SameUser(n, e, conn);
    }
  }

  lemma ReadUser(n: Net, p: Peer)
    requires CanHappen(n, Read(p))
    ensures ReadCount(n, p) < |Mailbox(n, p)| && p.conn in n.users && p.conn in Then(n, Read(p)).users
    ensures Then(n, Read(p)).users[p.conn] == HandleMessage(n.users[p.conn], Mailbox(n, p)[ReadCount(n, p)])
  {
    hide HandleMessage, Box;
  }

  lemma MessageReturns(u: User, m: Message, call: nat)
    requires call in u.accepts
    ensures var after := HandleMessage(u, m).accepts;
      && call in after
      && after[call] == if m.Accept? && u.accepts[call] == AcceptCall(m.boundAlias, Pending)
                        then AcceptCall(m.boundAlias, Resolved(m.clientAlias)) else u.accepts[call]
  {
    hide OnAlias, NotifyConnect, NotifyAlias;
  }

  lemma OwnAccept(n: Net, e: NetEvent)
    requires IsCall(e) && CanHappen(n, e)
    ensures e.CallAccept? ==> e.call !in n.users[e.conn].accepts
  {}

  lemma AskingReturns(u: User, e: NetEvent, call: nat)
    requires IsCall(e) && call in u.accepts
    ensures (e.CallAccept? ==> e.call !in u.accepts) ==>
      call in Asking(u, e).accepts && Asking(u, e).accepts[call] == u.accepts[call]
  {}

  lemma AcceptBegins(n: Net, e: NetEvent, conn: nat, call: nat, bound: string)
    requires CanHappen(n, e) && e == CallAccept(conn, call, bound)
    ensures AcceptBy(Then(n, e), conn, call, bound) && ReturnOf(Then(n, e), conn, call, bound).Pending?
  {}

  ghost predicate FirstAccept(ns: seq<Net>, es: seq<NetEvent>, k0: nat, r: nat, conn: nat, bound: string, alias: string)
    requires r < |es| && |ns| == |es| + 1
  {
    && k0 < r && HearsAccept(ns[r], es[r], conn, bound, alias)
    && forall q, other | k0 < q < r :: !HearsAccept(ns[q], es[q], conn, bound, other)
  }

  /**
   Exactly when accept returns, and what: it waits while its client processes no Accept
   for the bound alias, and returns the client alias of the first one.
   */
  lemma {:induction false} ReturnsExactly(ns: seq<Net>, es: seq<NetEvent>, k0: nat, k: nat, conn: nat, call: nat,
                                          bound: string)
    requires NetRun(ns, es) && k0 < k < |ns| && es[k0] == CallAccept(conn, call, bound)
    ensures AcceptBy(ns[k], conn, call, bound)
    ensures var promise := ReturnOf(ns[k], conn, call, bound);
      && (promise.Pending? <==> forall r, x | k0 < r < k :: !HearsAccept(ns[r], es[r], conn, bound, x))
      && (forall r, x | k0 < r < k && FirstAccept(ns, es, k0, r, conn, bound, x) :: promise == Resolved(x))
    decreases k
  {
    hide Then, CanHappen, HearsAccept, AcceptBy, ReturnOf;
    AcceptBegins(ns[k0], es[k0], conn, call, bound);
    if k > k0 + 1 {
      ReturnsExactly(ns, es, k0, k - 1, conn, call, bound);
      AcceptStep(ns[k - 1], es[k - 1], conn, call, bound);
    }
  }

  /** News of the alias that the client has been sent and has not processed. */
  ghost predicate Unread(n: Net, p: Peer, alias: string, isSet: bool) {
    exists j :: ReadCount(n, p) <= j < |Mailbox(n, p)| && News(Mailbox(n, p)[j], p.id, alias, isSet)
  }

  /** News heard after a state was unread in it or has been sent since. */
  lemma HeardFrom(ns: seq<Net>, es: seq<NetEvent>, k0: nat, r: nat, p: Peer, alias: string, isSet: bool)
    requires NetRun(ns, es) && k0 < r < |es| && Hears(ns[r], es[r], p, alias, isSet)
    ensures Unread(ns[k0], p, alias, isSet) || exists s :: k0 <= s < r && Tidings(ns[s], es[s], p.id, alias, isSet)
    ensures exists s :: 0 <= s < r && Tidings(ns[s], es[s], p.id, alias, isSet)
  {
    hide Then, CanHappen, Box, Tidings, News;
    var j := ReadCount(ns[r], p);
    var s := SentWhen(ns, es, r, p, j);
    NewsSentBy(ns[s], es[s], p, j, alias, isSet);
    if s < k0 {
      MailSince(ns, es, s + 1, k0, p);
      MailSince(ns, es, k0, r, p);
      assert Mailbox(ns[k0], p)[j] == Mailbox(ns[r], p)[j];
    }
  }

  // ------------------------------------------------------------------ the theorems

  lemma PublishedNow(n: Net, e: NetEvent, id: string, alias: string)
    requires CanHappen(n, e) && Publishes(n, e, id, alias)
    ensures alias in Then(n, e).world.st.aliases && Then(n, e).world.st.aliases[alias].id == id
  {
    hide Deliver, ToAll;
  }

  /**
   In every run, a bind call that resolves tells the client that the alias was registered
   for it at a state after the call, unless news to that effect was unread when it called,
   a shutdown of it by the client is refused, or the client connects to itself. One that
   is rejected tells that somebody had the alias at a state after the call, unless news
   was unread or a shutdown by the client ends.
   */
  lemma FreshBind(ns: seq<Net>, es: seq<NetEvent>, k0: nat, k: nat, conn: nat, call: nat, alias: string)
    requires NetRun(ns, es) && k0 < k < |ns| && es[k0] == CallBind(conn, call, alias)
    ensures conn in ns[k0].users && conn in ns[k].users && call in ns[k].users[conn].binds
    ensures var b, id := ns[k].users[conn].binds[call], ns[k0].users[conn].id;
      && b.id == id && b.alias == alias
      && (b.promise.Resolved? && !Unread(ns[k0], Peer(id, conn), alias, true)
          && (forall s | k0 < s < k ::
                !RefusesShutdown(ns[s], es[s], id, alias) && !AnnouncesToCaller(ns[s], es[s], id, alias)) ==>
            exists i :: k0 < i <= k && alias in ns[i].world.st.aliases && ns[i].world.st.aliases[alias].id == id)
      && (b.promise.Rejected? && !Unread(ns[k0], Peer(id, conn), alias, false)
          && (forall s | k0 < s < k :: !EndsShutdown(ns[s], es[s], id, alias)) ==>
            exists i :: k0 < i < k && alias in ns[i].world.st.aliases)
  {
    hide Then, CanHappen, Hears, Unread;
    SettledByNews(ns, es, k0, k, conn, call, alias, false);
    var b, id := ns[k].users[conn].binds[call], ns[k0].users[conn].id;
    if !b.promise.Pending? {
      var r :| k0 < r < k && Hears(ns[r], es[r], Peer(id, conn), alias, b.promise.Resolved?);
      HeardFrom(ns, es, k0, r, Peer(id, conn), alias, b.promise.Resolved?);
      if s :| k0 <= s < r && Tidings(ns[s], es[s], id, alias, b.promise.Resolved?) {
        if Publishes(ns[s], es[s], id, alias) {
          PublishedNow(ns[s], es[s], id, alias);
          assert ns[s + 1] == Then(ns[s], es[s]);
        }
      }
    }
  }

  predicate ShutsDown(task: Task, id: string, alias: string) {
    task in {ShutdownDeleted(id, alias), ShutdownReleased(id, alias), ShutdownFreed(id, alias)}
  }

  /** The handler of a shutdown under way took the alias back before. */
  lemma {:induction false} WasTakenBack(ns: seq<Net>, es: seq<NetEvent>, k: nat, tid: nat, id: string, alias: string)
    requires NetRun(ns, es) && k < |ns| && tid in ns[k].world.tasks
    requires ShutsDown(ns[k].world.tasks[tid], id, alias)
    ensures exists i :: 0 <= i < k && TakesBack(ns[i], es[i], id, alias)
  {
    hide Then, CanHappen, TakesBack;
    assert k > 0 by { assert BEGIN.world.tasks == map[]; }
    ShutdownBefore(ns[k - 1], es[k - 1], tid, id, alias);
    if !TakesBack(ns[k - 1], es[k - 1], id, alias) {
      WasTakenBack(ns, es, k - 1, tid, id, alias);
    }
  }

  lemma ShutdownBefore(n: Net, e: NetEvent, tid: nat, id: string, alias: string)
    requires CanHappen(n, e) && tid in Then(n, e).world.tasks && ShutsDown(Then(n, e).world.tasks[tid], id, alias)
    ensures TakesBack(n, e, id, alias) || (tid in n.world.tasks && ShutsDown(n.world.tasks[tid], id, alias))
  {
    hide Start, Resume, HandleMessage, Asking, RequestOf, RefusalOf, Pairs, Disconnect, IssuedBy, DecidedBy, ShutsDown;
    if e.Serve? { ShutdownStarts(n.world.st, e.conn, Inbox(n, e.conn)[0], id, alias); }
    if e.Work? { ShutdownResumes(n.world.st, n.world.tasks[e.tid], id, alias); }
  }

  lemma ShutdownStarts(st: State, conn: nat, request: Request, id: string, alias: string)
    ensures var next := Start(st, conn, request).next;
      next.Some? && ShutsDown(next.value, id, alias) ==>
        request == Shutdown(id, alias) && alias in st.aliases && st.aliases[alias].id == id
  {
    hide Deliver;
  }

  lemma ShutdownResumes(st: State, task: Task, id: string, alias: string)
    requires Runnable(st, task)
    ensures var next := Resume(st, task).next;
      next.Some? && ShutsDown(next.value, id, alias) ==> ShutsDown(task, id, alias)
  {
    hide CreateIP, CreateTCP, ClaimTCP, RemoveTCP, RemoveIP, Deliver;
  }

  /**
   In every run, a shutdown call that resolves tells the client that the server took the
   alias back from its id and finished the shutdown after the call, unless news was unread
   or a bind of the alias by the client is refused meanwhile. One that is rejected tells
   that the alias was not the client's at a state after the call, unless news was unread,
   a bind of the alias by the client ends, or the client connects to itself.
   */
  lemma ShutdownAgreement(ns: seq<Net>, es: seq<NetEvent>, k0: nat, k: nat, conn: nat, call: nat, alias: string)
    requires NetRun(ns, es) && k0 < k < |ns| && es[k0] == CallShutdown(conn, call, alias)
    ensures conn in ns[k0].users && conn in ns[k].users && call in ns[k].users[conn].shutdowns
    ensures var c, id := ns[k].users[conn].shutdowns[call], ns[k0].users[conn].id;
      && c.id == id && c.alias == alias
      && (c.promise.Resolved? && !Unread(ns[k0], Peer(id, conn), alias, false)
          && (forall s | k0 < s < k :: !RefusesBind(ns[s], es[s], id, alias)) ==>
            exists i, s :: 0 <= i < s && k0 < s < k && TakesBack(ns[i], es[i], id, alias)
              && EndsShutdown(ns[s], es[s], id, alias))
      && (c.promise.Rejected? && !Unread(ns[k0], Peer(id, conn), alias, true)
          && (forall s | k0 < s < k ::
                !Publishes(ns[s], es[s], id, alias) && !AnnouncesToCaller(ns[s], es[s], id, alias)) ==>
            exists i :: k0 < i < k && !(alias in ns[i].world.st.aliases && ns[i].world.st.aliases[alias].id == id))
  {
    hide Then, CanHappen, Hears, Unread, TakesBack;
    SettledByNews(ns, es, k0, k, conn, call, alias, true);
    var c, id := ns[k].users[conn].shutdowns[call], ns[k0].users[conn].id;
    if !c.promise.Pending? {
      var r :| k0 < r < k && Hears(ns[r], es[r], Peer(id, conn), alias, !c.promise.Resolved?);
      HeardFrom(ns, es, k0, r, Peer(id, conn), alias, !c.promise.Resolved?);
      if s :| k0 <= s < r && Tidings(ns[s], es[s], id, alias, !c.promise.Resolved?) {
        if EndsShutdown(ns[s], es[s], id, alias) { WasTakenBack(ns, es, s, es[s].tid, id, alias); }
      }
    }
  }

  // -------------------------------------------------- what a client can know of itself

  /** The bind or shutdown call a handler works for: id, alias, and which of the two. */
  function About(task: Task): Option<(string, string, bool)> {
    match task
    case BindChecked(id, alias) => Some((id, alias, false))
    case BindClaimed(id, alias) => Some((id, alias, false))
    case ShutdownDeleted(id, alias) => Some((id, alias, true))
    case ShutdownReleased(id, alias) => Some((id, alias, true))
    case ShutdownFreed(id, alias) => Some((id, alias, true))
    case _ => None
  }

  function AboutRequest(request: Request): Option<(string, string, bool)> {
    match request
    case Bind(id, alias) => Some((id, alias, false))
    case Shutdown(id, alias) => Some((id, alias, true))
    case _ => None
  }

  ghost predicate WasAsked(n: Net, about: Option<(string, string, bool)>) {
    about.Some? ==> AskedTo(n, about.value.0, about.value.1, about.value.2)
  }

  /** Requests and handlers of bind and shutdown go back to calls. */
  ghost predicate AskedInv(n: Net) {
    && (forall t | t in n.world.tasks :: WasAsked(n, About(n.world.tasks[t])))
    && (forall c, j | c in n.inbox && 0 <= j < |n.inbox[c]| :: WasAsked(n, AboutRequest(n.inbox[c][j])))
  }

  lemma StartAbout(st: State, conn: nat, request: Request)
    ensures var next := Start(st, conn, request).next;
      next.Some? && About(next.value).Some? ==> About(next.value) == AboutRequest(request)
  {
    hide Deliver;
  }

  lemma ResumeAbout(st: State, task: Task)
    requires Runnable(st, task)
    ensures var next := Resume(st, task).next;
      next.Some? && About(next.value).Some? ==> About(next.value) == About(task)
  {
    hide CreateIP, CreateTCP, ClaimTCP, RemoveTCP, RemoveIP, Deliver;
  }

  lemma WasAskedGrows(n: Net, n': Net, about: Option<(string, string, bool)>)
    requires Grows(n, n') && WasAsked(n, about)
    ensures WasAsked(n', about)
  {
    hide Grows, AskedTo;
    if about.Some? { AskedGrows(n, n', about.value.0, about.value.1, about.value.2); }
  }

  lemma AskedTask(n: Net, e: NetEvent, t: nat)
    requires AskedInv(n) && CanHappen(n, e) && Grows(n, Then(n, e)) && t in Then(n, e).world.tasks
    ensures WasAsked(Then(n, e), About(Then(n, e).world.tasks[t]))
  {
    hide Grows, WasAsked, Start, Resume, HandleMessage, Asking, RequestOf, RefusalOf, Pairs, Disconnect, About,
         AboutRequest;
    var n' := Then(n, e);
    if t in n.world.tasks { WasAskedGrows(n, n', About(n.world.tasks[t])); }
    if e.Serve? {
      var request := n.inbox[e.conn][0];
      StartAbout(n.world.st, e.conn, request);
      WasAskedGrows(n, n', AboutRequest(request));
      NoneAsked(n', About(n'.world.tasks[t]));
    }
    if e.Work? {
      ResumeAbout(n.world.st, n.world.tasks[e.tid]);
      NoneAsked(n', About(n'.world.tasks[t]));
    }
  }

  lemma NoneAsked(n: Net, about: Option<(string, string, bool)>)
    ensures about == None ==> WasAsked(n, about)
  {}

  lemma AskedRequest(n: Net, e: NetEvent, c: nat, j: nat)
    requires AskedInv(n) && CanHappen(n, e) && Grows(n, Then(n, e)) && c in Then(n, e).inbox
      && j < |Then(n, e).inbox[c]|
    ensures WasAsked(Then(n, e), AboutRequest(Then(n, e).inbox[c][j]))
  {
    hide Grows, WasAsked, Next, HandleMessage, Asking, RequestOf, RefusalOf, Pairs, AboutRequest;
    var n', request := Then(n, e), Then(n, e).inbox[c][j];
    if e.Open? && e.conn == c {
      OtherAsked(n', request);
    } else if IsCall(e) && e.conn == c && j == |Inbox(n, c)| {
      CallAsked(n, e);
    } else {
      var i := if e.Serve? && e.conn == c then j + 1 else j;
      WasAskedGrows(n, n', AboutRequest(n.inbox[c][i]));
    }
  }

  lemma OtherAsked(n: Net, request: Request)
    ensures !request.Bind? && !request.Shutdown? ==> WasAsked(n, AboutRequest(request))
  {}

  lemma CallAsked(n: Net, e: NetEvent)
    requires IsCall(e) && CanCall(n, e)
    ensures WasAsked(Calling(n, e), AboutRequest(RequestOf(n.users[e.conn], e)))
  {
    hide CallsStay, CallBy;
    CallShuts(n, e);
  }

  lemma {:induction false} AskedAlways(ns: seq<Net>, es: seq<NetEvent>, k: nat)
    requires NetRun(ns, es) && k < |ns|
    ensures AskedInv(ns[k])
  {
    hide Then, CanHappen, Everything, Inv, Grows, WasAsked;
    if k > 0 {
      AskedAlways(ns, es, k - 1);
      Always(ns, es, k - 1);
      NowEverything(ns[k - 1]);
      ThenKeeps(ns[k - 1], es[k - 1]);
      forall t | t in ns[k].world.tasks ensures WasAsked(ns[k], About(ns[k].world.tasks[t])) {
        AskedTask(ns[k - 1], es[k - 1], t);
      }
      forall c, j | c in ns[k].inbox && 0 <= j < |ns[k].inbox[c]|
        ensures WasAsked(ns[k], AboutRequest(ns[k].inbox[c][j]))
      {
        AskedRequest(ns[k - 1], es[k - 1], c, j);
      }
    }
  }

  /** A client of this id has called connect on an alias that was registered for the id. */
  ghost predicate ConnectsToItself(n: Net, id: string) {
    exists cid :: cid in n.calls && n.calls[cid].call.id == id && Had(n, n.calls[cid].call.remoteAlias, id)
  }

  /** Tidings of an alias go back to calls made under its id. */
  lemma TidingsWereAsked(n: Net, e: NetEvent, id: string, alias: string, isSet: bool)
    requires Inv(n) && AskedInv(n) && CanHappen(n, e) && Tidings(n, e, id, alias, isSet)
    ensures AskedTo(n, id, alias, false) || AskedTo(n, id, alias, true) || ConnectsToItself(n, id)
    ensures EndsShutdown(n, e, id, alias) || RefusesShutdown(n, e, id, alias) ==> AskedTo(n, id, alias, true)
    ensures AnnouncesToCaller(n, e, id, alias) ==> ConnectsToItself(n, id)
  {
    hide IdsInv, OnePlace, AskedTo, RequestFact, Box, Pairs;
    if e.Work? {
      var task := n.world.tasks[e.tid];
      assert TaskFact(n, task) && WasAsked(n, About(task));
      if AnnouncesToCaller(n, e, id, alias) { HasPair(n.world.st.aliases, task.call.remoteAlias); }
    } else {
      assert WasAsked(n, AboutRequest(n.inbox[e.conn][0]));
    }
  }

  lemma {:induction false} StaysAsked(ns: seq<Net>, es: seq<NetEvent>, i: nat, k: nat, id: string, alias: string)
    requires NetRun(ns, es) && i <= k < |ns|
    ensures forall shuts | AskedTo(ns[i], id, alias, shuts) :: AskedTo(ns[k], id, alias, shuts)
    ensures ConnectsToItself(ns[i], id) ==> ConnectsToItself(ns[k], id)
  {
    hide Then, CanHappen, Everything, Inv, Grows, AskedTo, ConnectsToItself;
    if i < k {
      StaysAsked(ns, es, i, k - 1, id, alias);
      Always(ns, es, k - 1);
      NowEverything(ns[k - 1]);
      ThenKeeps(ns[k - 1], es[k - 1]);
      forall shuts | AskedTo(ns[k - 1], id, alias, shuts) ensures AskedTo(ns[k], id, alias, shuts) {
        AskedGrows(ns[k - 1], ns[k], id, alias, shuts);
      }
      if ConnectsToItself(ns[k - 1], id) { ConnectsGrows(ns[k - 1], ns[k], id); }
    }
  }

  lemma ConnectsGrows(n: Net, n': Net, id: string)
    requires Grows(n, n') && ConnectsToItself(n, id)
    ensures ConnectsToItself(n', id)
  {
    hide Mailbox, CallsStay;
    var cid :| cid in n.calls && n.calls[cid].call.id == id && Had(n, n.calls[cid].call.remoteAlias, id);
    assert cid in n'.calls && Had(n', n'.calls[cid].call.remoteAlias, id);
  }

  /** Unread news was sent before. */
  lemma UnreadFrom(ns: seq<Net>, es: seq<NetEvent>, k: nat, p: Peer, alias: string, isSet: bool)
    requires NetRun(ns, es) && k < |ns| && Unread(ns[k], p, alias, isSet)
    ensures exists s :: 0 <= s < k && Tidings(ns[s], es[s], p.id, alias, isSet)
  {
    hide Then, CanHappen, Box, Tidings, News;
    var j :| ReadCount(ns[k], p) <= j < |Mailbox(ns[k], p)| && News(Mailbox(ns[k], p)[j], p.id, alias, isSet);
    var s := SentWhen(ns, es, k, p, j);
    NewsSentBy(ns[s], es[s], p, j, alias, isSet);
  }

  /** All that was ever said about an alias under an id goes back to calls under that id. */
  lemma SaidWasAsked(ns: seq<Net>, es: seq<NetEvent>, s: nat, k: nat, id: string, alias: string, isSet: bool)
    requires NetRun(ns, es) && s <= k < |ns| && s < |es| && Tidings(ns[s], es[s], id, alias, isSet)
    ensures AskedTo(ns[k], id, alias, false) || AskedTo(ns[k], id, alias, true) || ConnectsToItself(ns[k], id)
    ensures EndsShutdown(ns[s], es[s], id, alias) || RefusesShutdown(ns[s], es[s], id, alias) ==>
      AskedTo(ns[k], id, alias, true)
    ensures AnnouncesToCaller(ns[s], es[s], id, alias) ==> ConnectsToItself(ns[k], id)
  {
    hide Then, CanHappen, Everything, Inv, AskedInv, AskedTo, ConnectsToItself, Tidings, EndsShutdown, RefusesShutdown,
         AnnouncesToCaller;
    Always(ns, es, s);
    NowEverything(ns[s]);
    AskedAlways(ns, es, s);
    TidingsWereAsked(ns[s], es[s], id, alias, isSet);
    StaysAsked(ns, es, s, k, id, alias);
  }

  /**
   What the client can see to itself: the first bind of an alias under its id, with no
   shutdown of that alias called and no connect to an alias of its own, resolves only if
   the alias is registered for it after the call, and is rejected only if somebody has it
   after the call.
   */
  lemma FirstBind(ns: seq<Net>, es: seq<NetEvent>, k0: nat, k: nat, conn: nat, call: nat, alias: string)
    requires NetRun(ns, es) && k0 < k < |ns| && es[k0] == CallBind(conn, call, alias) && conn in ns[k0].users
    requires var id := ns[k0].users[conn].id;
      !AskedTo(ns[k0], id, alias, false) && !AskedTo(ns[k], id, alias, true) && !ConnectsToItself(ns[k], id)
    ensures conn in ns[k].users && call in ns[k].users[conn].binds
    ensures var b, id := ns[k].users[conn].binds[call], ns[k0].users[conn].id;
      && (b.promise.Resolved? ==>
            exists i :: k0 < i <= k && alias in ns[i].world.st.aliases && ns[i].world.st.aliases[alias].id == id)
      && (b.promise.Rejected? ==> exists i :: k0 < i < k && alias in ns[i].world.st.aliases)
  {
    hide Then, CanHappen, Tidings, AskedTo, ConnectsToItself, Unread, EndsShutdown, RefusesShutdown, AnnouncesToCaller;
    var id := ns[k0].users[conn].id;
    StaysAsked(ns, es, k0, k, id, alias);
    forall isSet: bool ensures !Unread(ns[k0], Peer(id, conn), alias, isSet) {
      if Unread(ns[k0], Peer(id, conn), alias, isSet) {
        UnreadFrom(ns, es, k0, Peer(id, conn), alias, isSet);
        var s :| 0 <= s < k0 && Tidings(ns[s], es[s], id, alias, isSet);
        SaidWasAsked(ns, es, s, k0, id, alias, isSet);
      }
    }
    forall s | k0 < s < k
      ensures !RefusesShutdown(ns[s], es[s], id, alias) && !AnnouncesToCaller(ns[s], es[s], id, alias)
      ensures !EndsShutdown(ns[s], es[s], id, alias)
    {
      AreTidings(ns[s], es[s], id, alias);
      if Tidings(ns[s], es[s], id, alias, true) { SaidWasAsked(ns, es, s, k, id, alias, true); }
      if Tidings(ns[s], es[s], id, alias, false) { SaidWasAsked(ns, es, s, k, id, alias, false); }
    }
    FreshBind(ns, es, k0, k, conn, call, alias);
  }

  lemma AreTidings(n: Net, e: NetEvent, id: string, alias: string)
    ensures RefusesShutdown(n, e, id, alias) || AnnouncesToCaller(n, e, id, alias) ==> Tidings(n, e, id, alias, true)
    ensures EndsShutdown(n, e, id, alias) ==> Tidings(n, e, id, alias, false)
  {}
}
