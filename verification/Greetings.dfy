/**
 Client ids under interleaved knocks and closing connections, and the greetings
 that follow from them: any two clients registered at the same time have exactly
 one Greeting between them.
 */
module Greetings {
  import opened Wrappers
  import opened Address
  import opened Allocator
  import opened Server
  import opened Interleaving
  import opened Addresses
  import opened Sending

  /** No shutdowns; and either nobody leaves, or everybody binds on the own address. */
  ghost predicate Admissible(es: seq<Event>) {
    && (forall e | e in es :: !IsShutdown(e))
    && ((forall e | e in es :: !e.Close?) || (forall e | e in es :: OwnAddress(e)))
  }

  /** The id a suspended knock was issued and has not registered yet. */
  function Issued(task: Task): Option<string> {
    match task
    case KnockCreated(_, id) => if id == REJECTED then None else Some(id)
    case KnockAcknowledged(_, id) => Some(id)
    case _ => None
  }

  /** An id as the server prints it, with a live member behind it. */
  predicate Proper(subnets: Subnets, id: string) {
    ReadIp(id).Some? && PrintIp(ReadIp(id).value) == id && Has(subnets, ReadIp(id).value)
  }

  /** No shutdown is under way. */
  predicate Calm(task: Task) { !task.ShutdownDeleted? && !task.ShutdownReleased? && !task.ShutdownFreed? }

  ghost predicate IdsOk(w: World) {
    && (forall id | id in w.st.clients :: Proper(w.st.subnets, id))
    && (forall i | i in w.tasks && Issued(w.tasks[i]).Some? ::
          Proper(w.st.subnets, Issued(w.tasks[i]).value) && Issued(w.tasks[i]).value !in w.st.clients)
    && (forall i, j | i in w.tasks && j in w.tasks && i != j && Issued(w.tasks[i]).Some? ::
          Issued(w.tasks[i]) != Issued(w.tasks[j]))
  }

  ghost predicate Inv(w: World) { Orderly(w) && IdsOk(w) && forall i | i in w.tasks :: Calm(w.tasks[i]) }

  ghost predicate MembersGrow(a: Subnets, b: Subnets) { forall ip: Ip :: Has(a, ip) ==> Has(b, ip) }

  // ---------------------------------------------------- segments, framed

  lemma StartFrame(st: State, conn: nat, request: Request)
    requires !request.Shutdown?
    ensures var step := Start(st, conn, request);
      && step.st.subnets == st.subnets && step.st.clients == st.clients
      && (step.next.Some? ==> Calm(step.next.value) && Issued(step.next.value) == None)
  {}

  lemma ResumeMembers(st: State, task: Task)
    requires Tidy(st.subnets) && Sound(task) && Calm(task) && Runnable(st, task)
    ensures MembersGrow(st.subnets, Resume(st, task).st.subnets)
  {
    hide ReadIp, ReadTcp, CreateIP, CreateTCP, ClaimTCP, RemoveTCP, RemoveIP, Deliver, ToAll, Introductions,
         LowestFree, Distinct, PrintIp, PrintTcp;
    match task
    case KnockReceived(conn, subnet) => CreateIPEffect(st.subnets, subnet);
    case BindChecked(id, alias) => ClaimTCPEffect(st.subnets, alias);
    case ConnectRefused(call, clientAlias, _) => RemoveTCPEffect(st.subnets, clientAlias);
    case ConnectReceived(call) =>
      if CreateTCP(st.subnets, call.id).Ok? {
        CreateTCPEffect(st.subnets, call.id);
      }
    case _ =>
  }

  lemma ResumeClients(st: State, task: Task)
    requires Runnable(st, task)
    ensures Resume(st, task).st.clients ==
      if task.KnockAcknowledged? then st.clients[task.id := task.conn] else st.clients
    ensures task.KnockAcknowledged? ==> Resume(st, task).next == None
    ensures Calm(task) && Resume(st, task).next.Some? ==> Calm(Resume(st, task).next.value)
  {
    hide CreateIP, CreateTCP, ClaimTCP, RemoveTCP, RemoveIP, Deliver;
  }

  /** A segment passes on the id it was issued, or issues a new one without a member so far. */
  lemma ResumeIssues(st: State, task: Task)
    requires Tidy(st.subnets) && Sound(task) && Runnable(st, task)
    ensures var step := Resume(st, task);
      step.next.Some? && Issued(step.next.value).Some? ==>
        || Issued(step.next.value) == Issued(task)
        || (Proper(step.st.subnets, Issued(step.next.value).value)
            && !Has(st.subnets, ReadIp(Issued(step.next.value).value).value))
  {
    hide ReadIp, CreateIP, CreateTCP, ClaimTCP, RemoveTCP, RemoveIP, Deliver;
    if task.KnockReceived? {
      CreateIPEffect(st.subnets, task.subnet);
    }
  }

  // --------------------------------------------------------- the id law

  lemma ProperGrows(a: Subnets, b: Subnets, id: string)
    requires Proper(a, id) && MembersGrow(a, b)
    ensures Proper(b, id)
  {}

  /** A segment that registers nobody: ids survive, and a newly issued one is new. */
  lemma IdsGrow(w: World, w': World, tid: nat)
    requires IdsOk(w) && w'.st.clients == w.st.clients && MembersGrow(w.st.subnets, w'.st.subnets)
    requires w'.tasks - {tid} == w.tasks - {tid}
    requires tid in w'.tasks && Issued(w'.tasks[tid]).Some? ==>
      || (tid in w.tasks && Issued(w'.tasks[tid]) == Issued(w.tasks[tid]))
      || (Proper(w'.st.subnets, Issued(w'.tasks[tid]).value)
          && !Has(w.st.subnets, ReadIp(Issued(w'.tasks[tid]).value).value))
    ensures IdsOk(w')
  {
    forall i | i in w'.tasks && i != tid ensures i in w.tasks && w'.tasks[i] == w.tasks[i] {
      assert i in w'.tasks - {tid};
    }
  }

  /** The registering segment: the id moves from the suspended knock to `clients`. */
  lemma IdsRegister(w: World, w': World, tid: nat)
    requires IdsOk(w) && tid in w.tasks && w.tasks[tid].KnockAcknowledged?
    requires w'.tasks == w.tasks - {tid} && w'.st.subnets == w.st.subnets
    requires w'.st.clients == w.st.clients[w.tasks[tid].id := w.tasks[tid].conn]
    ensures IdsOk(w') && w.tasks[tid].id !in w.st.clients
  {
    assert Issued(w.tasks[tid]) == Some(w.tasks[tid].id);
    forall i | i in w'.tasks && Issued(w'.tasks[i]).Some? ensures Issued(w'.tasks[i]).value !in w'.st.clients {
      assert Issued(w.tasks[i]) != Issued(w.tasks[tid]);
    }
  }

  lemma {:induction false} ReleaseAllMembers(subnets: Subnets, order: seq<string>, ip: Option<Ip>)
    requires Tidy(subnets) && forall a | a in order :: ReadIp(a) == ip
    ensures Tidy(ReleaseAll(subnets, order))
    ensures forall i: Ip :: Has(ReleaseAll(subnets, order), i) <==> Has(subnets, i) && (order == [] || ip != Some(i))
  {
    if order != [] {
      var a, rest := order[0], order[1..];
      RemoveIPEffect(subnets, a);
      RemoveTCPEffect(RemoveIP(subnets, a), a);
      assert forall b | b in rest :: b in order;
      ReleaseAllMembers(RemoveTCP(RemoveIP(subnets, a), a), rest, ip);
    }
  }

  lemma CloseMembers(st: State, id: string, order: seq<string>)
    requires Tidy(st.subnets) && Enumerates(order, Owned(st.aliases, id)) && OwnersAtHome(st.aliases)
    ensures var after := Disconnect(st, id, order).subnets;
      forall i: Ip :: Has(after, i) <==> Has(st.subnets, i) && ReadIp(id) != Some(i)
  {
    RemoveIPEffect(st.subnets, id);
    forall a | a in order ensures ReadIp(a) == ReadIp(id) { assert a in Owned(st.aliases, id); }
    ReleaseAllMembers(RemoveIP(st.subnets, id), order, ReadIp(id));
  }

  lemma CloseKeeps(w: World, e: Event)
    requires Inv(w) && Home(w) && Enabled(w, e) && e.Close?
    ensures Inv(Next(w, e))
  {
    hide ReadIp, PrintIp, Tidy, AtHome, OwnersAtHome, ReleaseAll, RemoveIP, Calm;
    OrderlyStep(w, e);
    CloseMembers(w.st, e.id, e.order);
    hide Orderly, Enabled, Home;
    var w' := Next(w, e);
    forall id | Proper(w.st.subnets, id) && id != e.id ensures Proper(w'.st.subnets, id) {}
  }

  lemma StepKeeps(w: World, e: Event)
    requires Inv(w) && Enabled(w, e) && !IsShutdown(e) && (e.Close? ==> Home(w))
    ensures Inv(Next(w, e))
    ensures e.Proceed? && w.tasks[e.tid].KnockAcknowledged? ==> w.tasks[e.tid].id !in w.st.clients
  {
    hide IdsOk, Tidy, MembersGrow, Issued, Calm, Resume, Start, Proper;
    var w' := Next(w, e);
    OrderlyStep(w, e);
    match e
    case Receive(tid, conn, request) =>
      StartFrame(w.st, conn, request);
      SameMembersGrow(w.st.subnets);
      IdsGrow(w, w', tid);
    case Proceed(tid) =>
      var task := w.tasks[tid];
      ResumeMembers(w.st, task);
      ResumeClients(w.st, task);
      ResumeIssues(w.st, task);
      if task.KnockAcknowledged? {
        RegisterFrame(w.st, task);
        IdsRegister(w, w', tid);
      } else {
        IdsGrow(w, w', tid);
      }
    case Close(_, _) => CloseKeeps(w, e);
  }

  lemma SameMembersGrow(subnets: Subnets)
    ensures MembersGrow(subnets, subnets)
  {}

  lemma RegisterFrame(st: State, task: Task)
    requires task.KnockAcknowledged?
    ensures Resume(st, task).st.subnets == st.subnets && Resume(st, task).next == None
  {}

  lemma {:induction false} InvHolds(ws: seq<World>, es: seq<Event>, k: nat)
    requires Run(ws, es) && Admissible(es) && k < |ws|
    ensures Inv(ws[k])
    ensures (exists e :: e in es && e.Close?) ==> Home(ws[k])
  {
    if k > 0 {
      InvHolds(ws, es, k - 1);
      var w, e := ws[k - 1], es[k - 1];
      assert e in es;
      StepKeeps(w, e);
      if Home(w) && OwnAddress(e) { HomeStep(w, e); }
    }
  }

  /** Two clients, or a client and a knock still under way, never share an id. */
  lemma IdsAreUnique(ws: seq<World>, es: seq<Event>, k: nat)
    requires Run(ws, es) && Admissible(es) && k < |ws|
    ensures forall i | i in ws[k].tasks && Issued(ws[k].tasks[i]).Some? ::
      Issued(ws[k].tasks[i]).value !in ws[k].st.clients
    ensures forall i, j | i in ws[k].tasks && j in ws[k].tasks && i != j && Issued(ws[k].tasks[i]).Some? ::
              Issued(ws[k].tasks[i]) != Issued(ws[k].tasks[j])
  {
    InvHolds(ws, es, k);
  }

  // ------------------------------------------------------ the greetings

  /** The event registers the id `y`. */
  predicate Registers(w: World, e: Event, y: string) {
    e.Proceed? && e.tid in w.tasks && w.tasks[e.tid].KnockAcknowledged? && w.tasks[e.tid].id == y
  }

  /** One greeting from the registering step for each client registered before. */
  predicate Greets(w: World, e: Event, p: Peer, x: string, y: string) {
    Registers(w, e, y) && p in Peers(w.st.clients) && p.id == x && x != y
  }

  /** Only the step that registers `y` sends Greeting(x, y): one, to the registered `x`. */
  lemma StepGreetings(w: World, e: Event, p: Peer, x: string, y: string)
    requires Enabled(w, e)
    ensures Count(Next(w, e).st.mail, p, Greeting(x, y)) ==
              Count(w.st.mail, p, Greeting(x, y)) + (if Greets(w, e, p, x, y) then 1 else 0)
  {
    hide Next, Box;
    EventSends(w, e, p);
    if e.Close? {
      assert Greeting(x, y) !in [Goodbye(e.id)] + Removals(e.id, e.order);
    }
    assert multiset(Sent(w, e, p))[Greeting(x, y)] == if Greets(w, e, p, x, y) then 1 else 0;
  }

  lemma StepGreetingsAll(w: World, e: Event, x: string, y: string)
    requires Enabled(w, e)
    ensures forall p: Peer :: Count(Next(w, e).st.mail, p, Greeting(x, y)) ==
              Count(w.st.mail, p, Greeting(x, y)) + (if Greets(w, e, p, x, y) then 1 else 0)
  {
    forall p: Peer
      ensures Count(Next(w, e).st.mail, p, Greeting(x, y)) ==
              Count(w.st.mail, p, Greeting(x, y)) + (if Greets(w, e, p, x, y) then 1 else 0)
    {
      StepGreetings(w, e, p, x, y);
    }
  }

  /**
   `late` registered at step j while `early` was registered, both stayed until i,
   and from j to i exactly one Greeting was sent between them: to `early`, naming
   it as the offerer and `late` as the answerer.
   */
  ghost predicate GreetedBetween(ws: seq<World>, es: seq<Event>, j: nat, i: nat, early: string, late: string)
    requires Run(ws, es)
  {
    && j < i < |ws|
    && early in ws[j].st.clients && Registers(ws[j], es[j], late)
    && early in ws[i].st.clients && late in ws[i].st.clients && early != late
    && ws[i].st.clients[early] == ws[j].st.clients[early]
    && (forall p: Peer :: Count(ws[i].st.mail, p, Greeting(early, late)) ==
          Count(ws[j].st.mail, p, Greeting(early, late)) + (if p == Peer(early, ws[j].st.clients[early]) then 1 else 0))
    && (forall p: Peer :: Count(ws[i].st.mail, p, Greeting(late, early)) ==
         Count(ws[j].st.mail, p, Greeting(late, early)))
  }

  lemma ClientsStep(w: World, e: Event)
    requires Enabled(w, e)
    ensures Next(w, e).st.clients ==
      match e
      case Proceed(tid) =>
        if w.tasks[tid].KnockAcknowledged? then w.st.clients[w.tasks[tid].id := w.tasks[tid].conn] else w.st.clients
      case Close(id, _) => w.st.clients - {id}
      case Receive(_, _, _) => w.st.clients
  {
    match e
    case Receive(_, conn, request) =>
    case Proceed(tid) => ResumeClients(w.st, w.tasks[tid]);
    case Close(_, _) =>
  }

  lemma GreetedStart(ws: seq<World>, es: seq<Event>, i: nat, early: string, late: string)
    requires Run(ws, es) && Admissible(es) && i < |es|
    requires Registers(ws[i], es[i], late) && early in ws[i].st.clients
    ensures GreetedBetween(ws, es, i, i + 1, early, late)
  {
    hide Inv, Count, Home;
    InvHolds(ws, es, i);
    assert es[i] in es;
    StepKeeps(ws[i], es[i]);
    ClientsStep(ws[i], es[i]);
    StepGreetingsAll(ws[i], es[i], early, late);
    StepGreetingsAll(ws[i], es[i], late, early);
  }

  lemma GreetedExtends(ws: seq<World>, es: seq<Event>, j: nat, i: nat, early: string, late: string)
    requires Run(ws, es) && Admissible(es) && i + 1 < |ws| && GreetedBetween(ws, es, j, i, early, late)
    requires early in ws[i + 1].st.clients && late in ws[i + 1].st.clients
    ensures GreetedBetween(ws, es, j, i + 1, early, late)
  {
    hide Inv, Count, Home;
    InvHolds(ws, es, i);
    assert es[i] in es;
    StepKeeps(ws[i], es[i]);
    ClientsStep(ws[i], es[i]);
    StepGreetingsAll(ws[i], es[i], early, late);
    StepGreetingsAll(ws[i], es[i], late, early);
  }

  /**
   Any two clients registered at the same time have exactly one Greeting between
   them since the later of them registered: in every run of interleaved handlers and
   closing connections without shutdowns, where binds on foreign addresses and closed
   connections do not come together.
   */
  lemma {:induction false} PairwiseGreeting(ws: seq<World>, es: seq<Event>, i: nat, x: string, y: string)
    requires Run(ws, es) && Admissible(es) && i < |ws|
    requires x in ws[i].st.clients && y in ws[i].st.clients && x != y
    ensures exists j: nat :: j < i && (GreetedBetween(ws, es, j, i, x, y) || GreetedBetween(ws, es, j, i, y, x))
  {
    assert i > 0;
    var w, e := ws[i - 1], es[i - 1];
    InvHolds(ws, es, i - 1);
    assert e in es;
    ClientsStep(w, e);
    if x in w.st.clients && y in w.st.clients {
      PairwiseGreeting(ws, es, i - 1, x, y);
      var j: nat :| j < i - 1 && (GreetedBetween(ws, es, j, i - 1, x, y) || GreetedBetween(ws, es, j, i - 1, y, x));
      if GreetedBetween(ws, es, j, i - 1, x, y) {
        GreetedExtends(ws, es, j, i - 1, x, y);
      } else {
        GreetedExtends(ws, es, j, i - 1, y, x);
      }
    } else if x in w.st.clients {
      GreetedStart(ws, es, i - 1, x, y);
    } else {
      GreetedStart(ws, es, i - 1, y, x);
    }
  }

  // ---------------------------------------------------------- the total

  predicate Registration(w: World, e: Event) {
    e.Proceed? && e.tid in w.tasks && w.tasks[e.tid].KnockAcknowledged?
  }

  /** Accepted knocks among the first k events. */
  function Registrations(ws: seq<World>, es: seq<Event>, k: nat): nat
    requires k <= |es| < |ws|
  {
    if k == 0 then 0 else Registrations(ws, es, k - 1) + if Registration(ws[k - 1], es[k - 1]) then 1 else 0
  }

  /** Greetings in a peer's mail. */
  function GreetingsIn(box: seq<Message>): nat {
    if box == [] then 0 else GreetingsIn(box[..|box| - 1]) + if box[|box| - 1].Greeting? then 1 else 0
  }

  /** Greetings in the mail of a set of peers. */
  ghost function AllGreetings(mail: Mail, ps: set<Peer>): nat {
    if ps == {} then 0
    else
      var p :| p in ps;
      GreetingsIn(Box(mail, p)) + AllGreetings(mail, ps - {p})
  }

  lemma {:induction false} GreetingsInBoth(a: seq<Message>, b: seq<Message>)
    ensures GreetingsIn(a + b) == GreetingsIn(a) + GreetingsIn(b)
  {
    if b == [] {
      assert a + b == a;
    } else {
      GreetingsInBoth(a, b[..|b| - 1]);
      assert (a + b)[..|a + b| - 1] == a + b[..|b| - 1];
    }
  }

  lemma {:induction false} NoGreetings(box: seq<Message>)
    requires forall m | m in box :: !m.Greeting?
    ensures GreetingsIn(box) == 0
  {
    if box != [] {
      assert box[|box| - 1] in box && forall m | m in box[..|box| - 1] :: m in box;
      NoGreetings(box[..|box| - 1]);
    }
  }

  lemma {:induction false} AnyPeerFirst(mail: Mail, ps: set<Peer>, p: Peer)
    requires p in ps
    ensures AllGreetings(mail, ps) == GreetingsIn(Box(mail, p)) + AllGreetings(mail, ps - {p})
    decreases |ps|
  {
    hide Box, GreetingsIn;
    var q :| q in ps && AllGreetings(mail, ps) == GreetingsIn(Box(mail, q)) + AllGreetings(mail, ps - {q});
    if q != p {
      AnyPeerFirst(mail, ps - {q}, p);
      AnyPeerFirst(mail, ps - {p}, q);
      assert ps - {q} - {p} == ps - {p} - {q};
    }
  }

  /** Each peer of `greeted` gets one Greeting more. */
  lemma {:induction false} MoreGreetings(mail: Mail, after: Mail, ps: set<Peer>, greeted: set<Peer>)
    requires greeted <= ps
    requires forall p | p in ps ::
      GreetingsIn(Box(after, p)) == GreetingsIn(Box(mail, p)) + if p in greeted then 1 else 0
    ensures AllGreetings(after, ps) == AllGreetings(mail, ps) + |greeted|
    decreases |ps|
  {
    hide Box, GreetingsIn;
    if ps == {} {
      assert greeted == {};
    } else {
      var p :| p in ps;
      AnyPeerFirst(mail, ps, p);
      AnyPeerFirst(after, ps, p);
      MoreGreetings(mail, after, ps - {p}, greeted - {p});
      if p !in greeted { assert greeted - {p} == greeted; }
    }
  }

  lemma {:induction false} PeersSize(clients: map<string, nat>)
    ensures |Peers(clients)| == |clients|
    decreases |clients|
  {
    if clients != map[] {
      var id :| id in clients;
      var rest := clients - {id};
      PeersSize(rest);
      forall p: Peer ensures p in Peers(clients) <==> p in Peers(rest) || p == Peer(id, clients[id]) {
        assert p in Peers(clients) ==> p.id in clients && p.conn == clients[p.id];
        assert p in Peers(rest) ==> p.id in rest && p.conn == rest[p.id];
        assert p.id in rest && p.conn == rest[p.id] ==> p in Peers(rest);
      }
      assert Peers(clients) == Peers(rest) + {Peer(id, clients[id])};
      assert Peer(id, clients[id]) !in Peers(rest);
      assert clients.Keys == rest.Keys + {id};
      assert |clients.Keys| == |rest.Keys| + 1;
    }
  }

  /** Only a registration sends Greetings: one to each client registered before. */
  lemma StepGreets(w: World, e: Event, p: Peer)
    requires Enabled(w, e) && (Registration(w, e) ==> w.tasks[e.tid].id !in w.st.clients)
    ensures GreetingsIn(Box(Next(w, e).st.mail, p)) ==
      GreetingsIn(Box(w.st.mail, p)) + if Registration(w, e) && p in Peers(w.st.clients) then 1 else 0
  {
    hide Next, Box, Sent, Peers, Enabled;
    EventSends(w, e, p);
    GreetingsInBoth(Box(w.st.mail, p), Sent(w, e, p));
    SentGreets(w, e, p);
    if !(Registration(w, e) && p in Peers(w.st.clients)) {
      NoGreetings(Sent(w, e, p));
    }
  }

  lemma SentGreets(w: World, e: Event, p: Peer)
    requires Registration(w, e) ==> w.tasks[e.tid].id !in w.st.clients
    ensures Registration(w, e) && p in Peers(w.st.clients) ==> Sent(w, e, p) == [Greeting(p.id, w.tasks[e.tid].id)]
    ensures !(Registration(w, e) && p in Peers(w.st.clients)) ==> forall m | m in Sent(w, e, p) :: !m.Greeting?
  {}

  lemma StepTotal(w: World, e: Event, ps: set<Peer>)
    requires Inv(w) && Enabled(w, e) && !IsShutdown(e) && !e.Close?
    requires forall p: Peer :: Box(Next(w, e).st.mail, p) != [] ==> p in ps
    ensures forall p: Peer :: Box(w.st.mail, p) != [] ==> p in ps
    ensures |Next(w, e).st.clients| == |w.st.clients| + if Registration(w, e) then 1 else 0
    ensures AllGreetings(Next(w, e).st.mail, ps) ==
      AllGreetings(w.st.mail, ps) + if Registration(w, e) then |w.st.clients| else 0
  {
    hide Inv, Next, Enabled, GreetingsIn, Box, Sent, AllGreetings;
    StepKeeps(w, e);
    var greeted := if Registration(w, e) then Peers(w.st.clients) else {};
    forall p: Peer
      ensures Box(w.st.mail, p) != [] ==> Box(Next(w, e).st.mail, p) != []
      ensures GreetingsIn(Box(Next(w, e).st.mail, p)) == GreetingsIn(Box(w.st.mail, p)) + if p in greeted then 1 else 0
      ensures p in greeted ==> Box(Next(w, e).st.mail, p) != []
    {
      EventSends(w, e, p);
      StepGreets(w, e, p);
      if p in greeted { GreetedHasMail(w, e, p); }
    }
    MoreGreetings(w.st.mail, Next(w, e).st.mail, ps, greeted);
    PeersSize(w.st.clients);
    OneMoreClient(w, e);
  }

  lemma OneMoreClient(w: World, e: Event)
    requires Enabled(w, e) && !e.Close? && (Registration(w, e) ==> w.tasks[e.tid].id !in w.st.clients)
    ensures |Next(w, e).st.clients| == |w.st.clients| + if Registration(w, e) then 1 else 0
  {
    hide Next;
    ClientsStep(w, e);
    if Registration(w, e) {
      var id, conn := w.tasks[e.tid].id, w.tasks[e.tid].conn;
      var after := w.st.clients[id := conn];
      assert after.Keys == w.st.clients.Keys + {id};
      assert |after| == |after.Keys| == |w.st.clients.Keys| + 1;
    }
  }

  /** Over any set of peers that includes everybody who got mail. */
  lemma {:induction false} TotalOver(ws: seq<World>, es: seq<Event>, k: nat, ps: set<Peer>)
    requires Run(ws, es) && NoRemovals(es) && k <= |es|
    requires forall p: Peer :: Box(ws[k].st.mail, p) != [] ==> p in ps
    ensures var n := Registrations(ws, es, k);
      |ws[k].st.clients| == n && 2 * AllGreetings(ws[k].st.mail, ps) == n * (n - 1)
  {
    hide Inv, Next, Enabled, Home, AllGreetings;
    if k == 0 {
      NoMail(ps);
    } else {
      assert es[k - 1] in es;
      InvHolds(ws, es, k - 1);
      StepTotal(ws[k - 1], es[k - 1], ps);
      TotalOver(ws, es, k - 1, ps);
      var n, s := Registrations(ws, es, k - 1), AllGreetings(ws[k - 1].st.mail, ps);
      assert 2 * (s + n) == (n + 1) * n;
    }
  }

  lemma {:induction false} NoMail(ps: set<Peer>)
    ensures AllGreetings(map[], ps) == 0
    decreases |ps|
  {
    if ps != {} {
      var p :| p in ps;
      AnyPeerFirst(map[], ps, p);
      NoMail(ps - {p});
    }
  }

  lemma GreetedHasMail(w: World, e: Event, p: Peer)
    requires Enabled(w, e) && Registration(w, e) && w.tasks[e.tid].id !in w.st.clients && p in Peers(w.st.clients)
    ensures Box(Next(w, e).st.mail, p) != []
  {
    hide Next, Box, Sent, Peers, Enabled;
    EventSends(w, e, p);
    SentGreets(w, e, p);
  }

  /** n accepted knocks and nothing removed: n clients, and n(n-1)/2 Greetings in the mail. */
  lemma GreetingTotal(ws: seq<World>, es: seq<Event>, k: nat)
    requires Run(ws, es) && NoRemovals(es) && k <= |es|
    ensures var n := Registrations(ws, es, k);
      |ws[k].st.clients| == n && 2 * AllGreetings(ws[k].st.mail, ws[k].st.mail.Keys) == n * (n - 1)
  {
    TotalOver(ws, es, k, ws[k].st.mail.Keys);
  }
}
