/**
 What the promises of connect and bind mean, end to end: over every run of any
 number of clients, the lines between them and the await-level server, shutdowns and
 closed connections included.
 */
module Promises {
  import opened Wrappers
  import opened Allocator
  import opened Server
  import opened Interleaving
  import opened Sending
  import opened Client
  import opened Network

  // ------------------------------------- the two messages of a connect call

  /** The replies to a connect call so far, in order. */
  function Replies(n: Net, cid: string): seq<Message>
    requires cid in n.calls
  {
    Tagged(Mailbox(n, Caller(n.calls[cid])), cid)
  }

  /** No verdict, no reply; a refusal at most once; a grant as the connection alias, then the remote alias. */
  predicate ReplyShape(verdicts: map<string, Verdict>, cid: string, replies: seq<Message>) {
    && (forall m | m in replies :: m.Alias?)
    && if cid !in verdicts then replies == []
       else
         match verdicts[cid]
         case Declined => |replies| <= 1 && (|replies| == 1 ==> !replies[0].isSet)
         case Granted(alias) =>
           && |replies| <= 2
           && (|replies| >= 1 ==> replies[0].isSet && replies[0].isConnectionAlias && replies[0].alias == alias)
           && (|replies| == 2 ==> replies[1].isSet && !replies[1].isConnectionAlias)
  }

  /** Where a handler sends its replies; once the id was given away it need not be the caller. */
  function RepliesTo(task: Task): Option<Peer> {
    match task
    case ConnectPublished(_, _, client) => Some(client)
    case ConnectAnnounced(_, _, client, _) => Some(client)
    case ConnectAccepted(_, _, client, _) => Some(client)
    case _ => None
  }

  /** How many replies the suspended handler of a call has sent to the caller. */
  function RepliesSent(task: Task, caller: Peer): nat { if RepliesTo(task) == Some(caller) then 1 else 0 }

  ghost predicate RepliesInv(n: Net) {
    && (forall cid | cid in n.calls :: ReplyShape(n.verdicts, cid, Replies(n, cid)))
    && (forall t | t in n.world.tasks && CidOf(n.world.tasks[t]).Some? && CidOf(n.world.tasks[t]).value in n.calls ::
          |Replies(n, CidOf(n.world.tasks[t]).value)|
            == RepliesSent(n.world.tasks[t], Caller(n.calls[CidOf(n.world.tasks[t]).value])))
  }

  /** The reply a resumed handler sends to the caller it works for. */
  function ReplySent(st: State, task: Task, caller: Peer): seq<Message> {
    match task
    case ConnectCreated(_, _) => SentByResume(st, task, caller)
    case ConnectReleased(_, _, _) => SentByResume(st, task, caller)
    case ConnectAccepted(_, _, _, _) => SentByResume(st, task, caller)
    case _ => []
  }

  /** A resumed handler tags only the call it works for. */
  lemma TagsItsOwn(st: State, task: Task, p: Peer, cid: string)
    requires cid != ""
    ensures Tagged(SentByResume(st, task, p), cid) == if CidOf(task) == Some(cid) then ReplySent(st, task, p) else []
  {
    var sent := SentByResume(st, task, p);
    if sent != [] {
      TaggedOne(sent[0], cid);
      assert sent == [sent[0]];
    }
  }

  lemma TaggedOne(m: Message, cid: string)
    ensures Tagged([m], cid) == if ForConnect(m) && m.clientConnectionId.value == cid then [m] else []
  {
    TaggedSnoc([], m, cid);
    assert [] + [m] == [m];
  }

  lemma {:induction false} TaggedAppend(box: seq<Message>, sent: seq<Message>, cid: string)
    ensures Tagged(box + sent, cid) == Tagged(box, cid) + Tagged(sent, cid)
  {
    if sent == [] {
      assert box + sent == box;
    } else {
      hide ForConnect;
      var init, last := sent[..|sent| - 1], sent[|sent| - 1];
      TaggedAppend(box, init, cid);
      assert box + sent == (box + init) + [last] && sent == init + [last];
      TaggedSnoc(box + init, last, cid);
      TaggedSnoc(init, last, cid);
      hide Tagged;
    }
  }

  lemma WorkReplies(n: Net, n': Net, tid: nat, cid: string)
    requires Worked(n, n', tid) && cid in n.calls && cid != ""
    ensures var task := n.world.tasks[tid];
      Replies(n', cid) == Replies(n, cid) +
        if CidOf(task) == Some(cid) then ReplySent(n.world.st, task, Caller(n.calls[cid])) else []
  {
    hide Tagged, Box, Resume, Pairs;
    var p := Caller(n.calls[cid]);
    TagsItsOwn(n.world.st, n.world.tasks[tid], p, cid);
    TaggedAppend(Mailbox(n, p), SentByResume(n.world.st, n.world.tasks[tid], p), cid);
  }

  /** The reply of a segment to the caller, and whom the next segment will reply to. */
  lemma ReplyOf(n: Net, tid: nat, cid: string, caller: Peer)
    requires tid in n.world.tasks && TaskFact(n, n.world.tasks[tid])
    requires Runnable(n.world.st, n.world.tasks[tid])
    requires CidOf(n.world.tasks[tid]) == Some(cid)
    ensures var task, st := n.world.tasks[tid], n.world.st;
      var sent, next := ReplySent(st, task, caller), Resume(st, task).next;
      match task
      case ConnectCreated(call, clientAlias) =>
        if next.Some? && RepliesTo(next.value) == Some(caller)
        then Accepts(st, call) && sent == [Alias(call.id, clientAlias, true, Some(cid), true)]
        else sent == []
      case ConnectReleased(call, clientAlias, _) =>
        next == None && (sent == [] || sent == [Alias(call.id, clientAlias, false, Some(cid), false)])
      case ConnectAccepted(call, _, client, server) =>
        && next == None
        && sent == if client == caller then [Alias(server.id, call.remoteAlias, true, Some(cid), false)] else []
      case _ => sent == [] && (next.Some? ==> RepliesTo(next.value) == RepliesTo(task))
  {
    hide CreateTCP, RemoveTCP, Deliver, Box, TaskFact;
  }

  lemma VerdictOf(n: Net, tid: nat, cid: string)
    requires tid in n.world.tasks && TaskFact(n, n.world.tasks[tid]) && CidOf(n.world.tasks[tid]) == Some(cid)
    ensures var task, verdicts := n.world.tasks[tid], DecidedBy(n, tid);
      match task
      case ConnectReceived(_) => cid !in verdicts && cid !in n.verdicts
      case ConnectCreated(call, clientAlias) =>
        && cid !in n.verdicts && cid in verdicts
        && verdicts[cid] == if Accepts(n.world.st, call) then Granted(clientAlias) else Declined
      case ConnectRefused(_, _, _) =>
        cid in n.verdicts && cid in verdicts && verdicts[cid] == n.verdicts[cid] == Declined
      case ConnectReleased(_, _, _) =>
        cid in n.verdicts && cid in verdicts && verdicts[cid] == n.verdicts[cid] == Declined
      case ConnectPublished(_, alias, _) =>
        cid in n.verdicts && cid in verdicts && verdicts[cid] == n.verdicts[cid] == Granted(alias)
      case ConnectAnnounced(_, alias, _, _) =>
        cid in n.verdicts && cid in verdicts && verdicts[cid] == n.verdicts[cid] == Granted(alias)
      case ConnectAccepted(_, alias, _, _) =>
        cid in n.verdicts && cid in verdicts && verdicts[cid] == n.verdicts[cid] == Granted(alias)
      case _ => true
  {
    hide Mailbox;
  }

  /** Shapes grow as the verdicts allow. */
  lemma ShapeGrows(before: map<string, Verdict>, after: map<string, Verdict>, cid: string, prior: seq<Message>,
                   sent: seq<Message>)
    requires ReplyShape(before, cid, prior) && cid in after && (cid in before ==> after[cid] == before[cid])
    requires
      || sent == []
      || (prior == [] && |sent| == 1 && sent[0].Alias? && !sent[0].isSet && after[cid] == Declined)
      || (prior == [] && |sent| == 1 && sent[0].Alias? && sent[0].isSet && sent[0].isConnectionAlias
           && after[cid] == Granted(sent[0].alias))
      || (|prior| == 1 && |sent| == 1 && sent[0].Alias? && sent[0].isSet && !sent[0].isConnectionAlias
           && after[cid].Granted?)
    ensures ReplyShape(after, cid, prior + sent)
  {}

  /** The call of the resumed handler: its replies keep their shape. */
  lemma OwnReplies(n: Net, n': Net, tid: nat, cid: string)
    requires Worked(n, n', tid) && IdsInv(n) && TaskFact(n, n.world.tasks[tid]) && RepliesInv(n)
    requires CidOf(n.world.tasks[tid]) == Some(cid) && cid in n.calls
    ensures ReplyShape(n'.verdicts, cid, Replies(n', cid))
    ensures var step := Resume(n.world.st, n.world.tasks[tid]);
      step.next.Some? ==> |Replies(n', cid)| == RepliesSent(step.next.value, Caller(n.calls[cid]))
  {
    hide Replies, ReplySent, Resume, Accepts, SentByResume, Mailbox, ReplyShape, Pairs, TaskFact;
    var task, prior, caller := n.world.tasks[tid], Replies(n, cid), Caller(n.calls[cid]);
    var sent := ReplySent(n.world.st, task, caller);
    assert cid != "" by { assert CallFact(n, cid); }
    WorkReplies(n, n', tid, cid);
    assert ReplyShape(n.verdicts, cid, prior) && |prior| == RepliesSent(task, caller);
    hide RepliesInv, IdsInv;
    ReplyOf(n, tid, cid, caller);
    VerdictOf(n, tid, cid);
    if task.ConnectReceived? {
      Unheard(n.verdicts, n'.verdicts, cid, prior);
    } else {
      ShapeGrows(n.verdicts, n'.verdicts, cid, prior, sent);
    }
  }

  lemma Unheard(before: map<string, Verdict>, after: map<string, Verdict>, cid: string, prior: seq<Message>)
    requires cid !in before && cid !in after && ReplyShape(before, cid, prior)
    ensures ReplyShape(after, cid, prior + []) && prior + [] == prior
  {}

  /** A call the resumed handler does not work for. */
  lemma OtherReplies(n: Net, n': Net, tid: nat, cid: string)
    requires Worked(n, n', tid) && IdsInv(n) && TaskFact(n, n.world.tasks[tid]) && RepliesInv(n) && cid in n.calls
    requires CidOf(n.world.tasks[tid]) != Some(cid)
    ensures Replies(n', cid) == Replies(n, cid) && ReplyShape(n'.verdicts, cid, Replies(n', cid))
  {
    hide Box, Resume, SentByResume, Accepts, Pairs, TaskFact;
    assert cid != "" by { assert CallFact(n, cid); }
    WorkReplies(n, n', tid, cid);
    assert ReplyShape(n.verdicts, cid, Replies(n, cid));
    hide IdsInv, RepliesInv, Replies, ReplySent, Mailbox;
  }

  lemma WorkShape(n: Net, n': Net, tid: nat, cid: string)
    requires Worked(n, n', tid) && IdsInv(n) && TaskFact(n, n.world.tasks[tid]) && RepliesInv(n) && cid in n.calls
    ensures ReplyShape(n'.verdicts, cid, Replies(n', cid))
    ensures CidOf(n.world.tasks[tid]) != Some(cid) ==> Replies(n', cid) == Replies(n, cid)
  {
    hide Replies, IdsInv, TaskFact, RepliesInv, ReplyShape, Resume, SentByResume;
    if CidOf(n.world.tasks[tid]) == Some(cid) { OwnReplies(n, n', tid, cid); } else { OtherReplies(n, n', tid, cid); }
  }

  lemma WorkCount(n: Net, n': Net, tid: nat, t: nat, cid: string)
    requires Worked(n, n', tid) && IdsInv(n) && TaskFact(n, n.world.tasks[tid]) && RepliesInv(n) && OnePlace(n)
    requires cid in n.calls && t in n'.world.tasks && CidOf(n'.world.tasks[t]) == Some(cid)
    requires var step := Resume(n.world.st, n.world.tasks[tid]);
      n'.world.tasks == if step.next.Some? then n.world.tasks[tid := step.next.value] else n.world.tasks - {tid}
    ensures |Replies(n', cid)| == RepliesSent(n'.world.tasks[t], Caller(n.calls[cid]))
  {
    hide Replies, IdsInv, TaskFact, Resume, SentByResume;
    NextTask(n.world.st, n.world.tasks[tid]);
    if t == tid {
      OwnReplies(n, n', tid, cid);
    } else {
      assert CidOf(n.world.tasks[t]) != CidOf(n.world.tasks[tid]);
      OtherReplies(n, n', tid, cid);
    }
  }

  lemma WorkRepliesInv(n: Net, tid: nat)
    requires Inv(n) && RepliesInv(n) && CanHappen(n, Work(tid))
    ensures RepliesInv(Then(n, Work(tid)))
  {
    hide IdsInv, OnePlace, MailInv, Replies, ReplyShape, Resume, TaskFact, RequestFact, Worked, RepliesInv;
    var n' := Then(n, Work(tid));
    WorkWorks(n, tid);
    WorkedTasks(n, tid);
    assert TaskFact(n, n.world.tasks[tid]);
    hide Then, TasksInv, CanHappen;
    WorkCalls(n, n', tid);
    forall cid | cid in n.calls ensures ReplyShape(n'.verdicts, cid, Replies(n', cid)) {
      WorkShape(n, n', tid, cid);
    }
    forall t | t in n'.world.tasks && CidOf(n'.world.tasks[t]).Some? && CidOf(n'.world.tasks[t]).value in n.calls
      ensures var cid := CidOf(n'.world.tasks[t]).value;
        |Replies(n', cid)| == RepliesSent(n'.world.tasks[t], Caller(n.calls[cid]))
    {
      WorkCount(n, n', tid, t, CidOf(n'.world.tasks[t]).value);
    }
    IsRepliesInv(n');
  }

  lemma WorkCalls(n: Net, n': Net, tid: nat)
    requires Worked(n, n', tid)
    ensures n'.calls == n.calls && n'.users == n.users
  {}

  lemma IsRepliesInv(n: Net)
    requires forall cid | cid in n.calls :: ReplyShape(n.verdicts, cid, Replies(n, cid))
    requires forall t | t in n.world.tasks && CidOf(n.world.tasks[t]).Some?
      && CidOf(n.world.tasks[t]).value in n.calls ::
      |Replies(n, CidOf(n.world.tasks[t]).value)|
        == RepliesSent(n.world.tasks[t], Caller(n.calls[CidOf(n.world.tasks[t]).value]))
    ensures RepliesInv(n)
  {
    hide Replies, ReplyShape, RepliesSent;
  }

  /** Nothing tagged was sent to anybody. */
  lemma SameReplies(n: Net, n': Net)
    requires RepliesInv(n) && n'.calls == n.calls && n'.verdicts == n.verdicts
    requires forall cid | cid in n.calls :: Replies(n', cid) == Replies(n, cid)
    requires forall t | t in n'.world.tasks && CidOf(n'.world.tasks[t]).Some?
      && CidOf(n'.world.tasks[t]).value in n.calls ::
      (t in n.world.tasks && n'.world.tasks[t] == n.world.tasks[t]) ||
      (RepliesTo(n'.world.tasks[t]) == None && CidOf(n'.world.tasks[t]).value !in n.verdicts)
    ensures RepliesInv(n')
  {
    hide Replies;
    forall t | t in n'.world.tasks && CidOf(n'.world.tasks[t]).Some? && CidOf(n'.world.tasks[t]).value in n.calls
      ensures var cid := CidOf(n'.world.tasks[t]).value;
        |Replies(n', cid)| == RepliesSent(n'.world.tasks[t], Caller(n'.calls[cid]))
    {
      var cid := CidOf(n'.world.tasks[t]).value;
      assert ReplyShape(n.verdicts, cid, Replies(n, cid));
    }
  }

  /** What a newly started handler and a closed connection send is not tagged. */
  lemma NotTagged(n: Net, e: NetEvent, p: Peer, cid: string)
    requires CanHappen(n, e) && (e.Serve? || e.Hangup?)
    ensures Tagged(Sent(n.world, ServerEvent(n, e), p), cid) == []
  {
    hide Next, Enabled, Peers;
    var sent := Sent(n.world, ServerEvent(n, e), p);
    forall m | m in sent ensures !ForConnect(m) {}
    TaggedNone(sent, cid);
  }

  lemma UntaggedReplies(n: Net, e: NetEvent, cid: string)
    requires CanHappen(n, e) && (e.Serve? || e.Hangup?) && cid in n.calls
    ensures cid in Then(n, e).calls && Replies(Then(n, e), cid) == Replies(n, cid)
  {
    hide Tagged, Sent, Box, Next, Enabled, RefusalOf;
    var p := Caller(n.calls[cid]);
    ServerMail(n, e, p);
    NotTagged(n, e, p, cid);
    TaggedAppend(Mailbox(n, p), Sent(n.world, ServerEvent(n, e), p), cid);
  }

  lemma ServerRepliesInv(n: Net, e: NetEvent)
    requires Inv(n) && RepliesInv(n) && CanHappen(n, e) && (e.Serve? || e.Hangup?)
    ensures RepliesInv(Then(n, e))
  {
    hide RepliesInv, MailInv, IdsInv, OnePlace, Tagged, Sent, Box, Replies;
    var n' := Then(n, e);
    forall cid | cid in n.calls ensures Replies(n', cid) == Replies(n, cid) { UntaggedReplies(n, e, cid); }
    if e.Serve? { assert RequestFact(n, e.conn, n.inbox[e.conn][0]); }
    hide TaskFact;
    SameReplies(n, n');
  }

  /** A fresh connection id tags nothing yet. */
  lemma NothingTagged(n: Net, p: Peer, cid: string)
    requires MailInv(n) && cid !in n.calls
    ensures Tagged(Mailbox(n, p), cid) == []
  {
    hide EverHad, Pairs, RefusalFact;
    forall m | m in Mailbox(n, p) && ForConnect(m) ensures m.clientConnectionId.value != cid {
      var j :| 0 <= j < |Mailbox(n, p)| && Mailbox(n, p)[j] == m;
      assert MessageFact(n, p, j, Mailbox(n, p)[j]);
    }
    TaggedNone(Mailbox(n, p), cid);
  }

  lemma ConnectRepliesInv(n: Net, e: NetEvent)
    requires Inv(n) && RepliesInv(n) && e.CallConnect? && CanCall(n, e)
    ensures RepliesInv(Calling(n, e))
  {
    hide OnePlace, MailInv, ReplyShape, Tagged, Box, RequestFact, TaskFact, Asking, RequestOf, CallFact, Known;
    var n' := Calling(n, e);
    NothingTagged(n, Caller(n'.calls[e.cid]), e.cid);
    assert Replies(n', e.cid) == [];
    NoTaskYet(n, e.cid);
    assert e.cid !in n.verdicts;
    hide TasksInv, IdsInv;
    assert forall cid | cid in n.calls :: Replies(n', cid) == Replies(n, cid);
    assert ReplyShape(n'.verdicts, e.cid, []) by { EmptyShape(n'.verdicts, e.cid); }
  }

  lemma EmptyShape(verdicts: map<string, Verdict>, cid: string)
    requires cid !in verdicts
    ensures ReplyShape(verdicts, cid, [])
  {}

  lemma NoTaskYet(n: Net, cid: string)
    requires TasksInv(n) && cid !in n.calls
    ensures forall t | t in n.world.tasks :: CidOf(n.world.tasks[t]) != Some(cid)
  {
    forall t | t in n.world.tasks ensures CidOf(n.world.tasks[t]) != Some(cid) {
      assert TaskFact(n, n.world.tasks[t]);
    }
  }

  lemma ClientRepliesInv(n: Net, e: NetEvent)
    requires RepliesInv(n) && CanHappen(n, e) && !e.Serve? && !e.Work? && !e.Hangup? && !e.CallConnect?
    ensures RepliesInv(Then(n, e))
  {
    hide Tagged, Box, CidOf, ReplyShape, HandleMessage, Asking, RequestOf;
    SameReplies(n, Then(n, e));
  }

  lemma RepliesStep(n: Net, e: NetEvent)
    requires Inv(n) && RepliesInv(n) && CanHappen(n, e)
    ensures RepliesInv(Then(n, e))
  {
    hide Inv, RepliesInv;
    match e
    case Serve(_, _) => ServerRepliesInv(n, e);
    case Hangup(_, _) => ServerRepliesInv(n, e);
    case Work(tid) => WorkRepliesInv(n, tid);
    case CallConnect(_, _, _) => ConnectRepliesInv(n, e);
    case _ => ClientRepliesInv(n, e);
  }

  // ------------------------------------------------------ what clients know

  /** The part of its mail a client has processed. */
  function Processed(n: Net, p: Peer): seq<Message> {
    if ReadCount(n, p) <= |Mailbox(n, p)| then Mailbox(n, p)[..ReadCount(n, p)] else Mailbox(n, p)
  }

  /** The mail a client on this connection has processed. */
  function ProcessedBy(n: Net, conn: nat): seq<Message> {
    if conn in n.ids then Processed(n, Peer(n.ids[conn], conn)) else []
  }

  /** The listener of a connect call after the tagged messages of a mailbox. */
  function HeardIn(box: seq<Message>, cid: string): ConnectCall {
    TaggedAre(box, cid);
    HearAll(Tagged(box, cid))
  }

  ghost predicate BindFact(n: Net, conn: nat, b: AliasCall) {
    && Known(n, Peer(b.id, conn)) && (!b.promise.Pending? ==> b.id != REJECTED)
    && (b.promise.Rejected? ==> EverHad(n, b.alias))
  }

  predicate AcceptFact(n: Net, conn: nat, a: AcceptCall) {
    a.promise.Resolved? ==> Accept(a.alias, a.promise.value) in ProcessedBy(n, conn)
  }

  predicate ConnectFact(n: Net, conn: nat, cid: string, call: ConnectCall) {
    && cid in n.calls && n.calls[cid].conn == conn
    && call == HeardIn(ProcessedBy(n, conn), cid)
  }

  ghost predicate UserFact(n: Net, conn: nat, u: User) {
    && (forall c | c in u.binds :: BindFact(n, conn, u.binds[c]))
    && (forall c | c in u.accepts :: AcceptFact(n, conn, u.accepts[c]))
    && (forall cid | cid in u.connects :: ConnectFact(n, conn, cid, u.connects[cid]))
    && u.told == Telling(ProcessedBy(n, conn))
  }

  ghost predicate UsersInv(n: Net) {
    && (forall p: Peer :: ReadCount(n, p) <= |Mailbox(n, p)|)
    && (forall c | c in n.users :: UserFact(n, c, n.users[c]))
  }

  lemma ProcessedSame(n: Net, n': Net, conn: nat)
    requires MailInv(n) && Grows(n, n')
    requires forall p: Peer :: ReadCount(n, p) <= |Mailbox(n, p)|
    requires forall p: Peer | p.conn == conn :: ReadCount(n', p) == ReadCount(n, p)
    ensures ProcessedBy(n', conn) == ProcessedBy(n, conn)
  {
    hide Box, CallsStay, MessageFact, RefusalFact, Pairs;
    if conn in n'.ids {
      var p := Peer(n'.ids[conn], conn);
      assert Mailbox(n, p) <= Mailbox(n', p);
      if conn !in n.ids && Mailbox(n, p) != [] { MailedIsKnown(n, p); }
    }
  }

  lemma MailedIsKnown(n: Net, p: Peer)
    requires MailInv(n) && Mailbox(n, p) != []
    ensures Known(n, p)
  {
    assert MessageFact(n, p, 0, Mailbox(n, p)[0]);
  }

  /** What a client knows stays true while it processes nothing. */
  lemma UserFactGrows(n: Net, n': Net, conn: nat, u: User)
    requires MailInv(n) && Grows(n, n') && UserFact(n, conn, u)
    requires forall p: Peer :: ReadCount(n, p) <= |Mailbox(n, p)|
    requires forall p: Peer | p.conn == conn :: ReadCount(n', p) == ReadCount(n, p)
    ensures UserFact(n', conn, u)
  {
    ProcessedSame(n, n', conn);
    MembersStay(n, n');
    hide HeardIn, MailInv, Mailbox, CallsStay, ReadCount, ProcessedBy, Telling, EverHad, Known;
    forall c | c in u.binds ensures BindFact(n', conn, u.binds[c]) {
      assert BindFact(n, conn, u.binds[c]);
      if u.binds[c].promise.Rejected? { EverGrows(n, n', u.binds[c].alias); }
    }
  }

  lemma HeardSnoc(box: seq<Message>, m: Message, cid: string)
    ensures HeardIn(box + [m], cid) ==
      if ForConnect(m) && m.clientConnectionId.value == cid then Hear(HeardIn(box, cid), m) else HeardIn(box, cid)
  {
    TaggedSnoc(box, m, cid);
    TaggedAre(box, cid);
    if ForConnect(m) && m.clientConnectionId.value == cid {
      var all := Tagged(box, cid) + [m];
      assert all[..|all| - 1] == Tagged(box, cid);
    } else {
      assert Tagged(box, cid) + [] == Tagged(box, cid);
    }
  }

  /** The step of a client that processes one message of its mail. */
  ghost predicate ReadsNext(n: Net, n': Net, p: Peer, m: Message) {
    && p.conn in n.users && MessageFact(n, p, ReadCount(n, p), m)
    && n' == n.(users := n.users[p.conn := HandleMessage(n.users[p.conn], m)],
               cursors := n.cursors[p := ReadCount(n, p) + 1])
    && ProcessedBy(n', p.conn) == ProcessedBy(n, p.conn) + [m]
  }

  lemma ReadsOne(n: Net, p: Peer)
    requires CanHappen(n, Read(p)) && MessageFact(n, p, ReadCount(n, p), Mailbox(n, p)[ReadCount(n, p)])
    ensures ReadsNext(n, Then(n, Read(p)), p, Mailbox(n, p)[ReadCount(n, p)])
  {
    assert Known(n, p);
    hide MessageFact, Box, HandleMessage;
    var r := ReadCount(n, p);
    assert Mailbox(n, p)[..r + 1] == Mailbox(n, p)[..r] + [Mailbox(n, p)[r]];
  }

  /** A tag is never empty. */
  lemma TagsAreFull(n: Net, p: Peer, j: nat, m: Message)
    requires IdsInv(n) && MessageFact(n, p, j, m)
    ensures m.Alias? && !ForConnect(m) ==> m.clientConnectionId == None
  {
    if m.Alias? && m.clientConnectionId.Some? { assert CallFact(n, m.clientConnectionId.value); }
  }

  lemma CountsStay(n: Net, n': Net)
    requires n'.world == n.world && n'.cursors == n.cursors
    requires forall p: Peer :: ReadCount(n, p) <= |Mailbox(n, p)|
    ensures forall p: Peer :: ReadCount(n', p) <= |Mailbox(n', p)|
  {
    hide Box;
    forall p: Peer ensures ReadCount(n', p) <= |Mailbox(n', p)| { assert ReadCount(n, p) <= |Mailbox(n, p)|; }
  }

  lemma ReadBinds(n: Net, n': Net, p: Peer, m: Message)
    requires ReadsNext(n, n', p, m) && UserFact(n, p.conn, n.users[p.conn]) && IdsInv(n)
    ensures var u := HandleMessage(n.users[p.conn], m); forall c | c in u.binds :: BindFact(n', p.conn, u.binds[c])
  {
    TagsAreFull(n, p, ReadCount(n, p), m);
    hide IdsInv, ProcessedBy, AcceptFact, ConnectFact, Telling, NotifyAccept, NotifyConnect, OnAlias, EverHad;
    var binds, u := n.users[p.conn].binds, HandleMessage(n.users[p.conn], m);
    forall c | c in u.binds ensures BindFact(n', p.conn, u.binds[c]) {
      assert c in binds && BindFact(n, p.conn, binds[c]);
      if EverHad(n, u.binds[c].alias) { EverGrows(n, n', u.binds[c].alias); }
    }
  }

  lemma ReadAccepts(n: Net, n': Net, p: Peer, m: Message)
    requires ReadsNext(n, n', p, m) && UserFact(n, p.conn, n.users[p.conn])
    ensures var u := HandleMessage(n.users[p.conn], m);
      forall c | c in u.accepts :: AcceptFact(n', p.conn, u.accepts[c])
  {
    hide ProcessedBy, BindFact, ConnectFact, Telling, NotifyAlias, NotifyConnect, OnAlias, MessageFact;
  }

  lemma ReadConnects(n: Net, n': Net, p: Peer, m: Message)
    requires ReadsNext(n, n', p, m) && UserFact(n, p.conn, n.users[p.conn])
    ensures var u := HandleMessage(n.users[p.conn], m);
      forall cid | cid in u.connects :: ConnectFact(n', p.conn, cid, u.connects[cid])
  {
    hide HeardIn, ProcessedBy, BindFact, AcceptFact, Telling, NotifyAlias, NotifyAccept, OnAlias, MessageFact;
    var u := HandleMessage(n.users[p.conn], m);
    forall cid | cid in u.connects ensures ConnectFact(n', p.conn, cid, u.connects[cid]) {
      assert ConnectFact(n, p.conn, cid, n.users[p.conn].connects[cid]);
      HeardSnoc(ProcessedBy(n, p.conn), m, cid);
    }
  }

  lemma ReadTold(n: Net, n': Net, p: Peer, m: Message)
    requires ReadsNext(n, n', p, m) && UserFact(n, p.conn, n.users[p.conn])
    ensures HandleMessage(n.users[p.conn], m).told == Telling(ProcessedBy(n', p.conn))
  {
    hide ProcessedBy, BindFact, AcceptFact, ConnectFact, NotifyAlias, NotifyAccept, NotifyConnect, OnAlias, MessageFact;
    var box := ProcessedBy(n, p.conn) + [m];
    assert box[..|box| - 1] == ProcessedBy(n, p.conn);
  }

  lemma ReadUsers(n: Net, p: Peer)
    requires Inv(n) && UsersInv(n) && CanHappen(n, Read(p))
    ensures UsersInv(Then(n, Read(p)))
  {
    hide IdsInv, TasksInv, OnePlace, UserFact, Box, HandleMessage, Grows, MessageFact, RefusalFact, Pairs, ProcessedBy;
    var n', m := Then(n, Read(p)), Mailbox(n, p)[ReadCount(n, p)];
    ReadGrows(n, p);
    assert MessageFact(n, p, ReadCount(n, p), m);
    ReadsOne(n, p);
    ReadBinds(n, n', p, m);
    ReadAccepts(n, n', p, m);
    ReadConnects(n, n', p, m);
    ReadTold(n, n', p, m);
    AllFacts(n', p.conn, n'.users[p.conn]);
    forall q: Peer ensures ReadCount(n', q) <= |Mailbox(n', q)| { assert ReadCount(n, q) <= |Mailbox(n, q)|; }
    forall c | c in n'.users ensures UserFact(n', c, n'.users[c]) {
      if c != p.conn { UserFactGrows(n, n', c, n.users[c]); }
    }
  }

  lemma AllFacts(n: Net, conn: nat, u: User)
    requires forall c | c in u.binds :: BindFact(n, conn, u.binds[c])
    requires forall c | c in u.accepts :: AcceptFact(n, conn, u.accepts[c])
    requires forall cid | cid in u.connects :: ConnectFact(n, conn, cid, u.connects[cid])
    requires u.told == Telling(ProcessedBy(n, conn))
    ensures UserFact(n, conn, u)
  {
    hide BindFact, AcceptFact, ConnectFact, Telling, ProcessedBy;
  }

  /** The server's steps: nobody processes anything. */
  lemma ServerUsers(n: Net, e: NetEvent)
    requires Inv(n) && UsersInv(n) && CanHappen(n, e) && (e.Serve? || e.Work? || e.Hangup?)
    ensures UsersInv(Then(n, e))
  {
    hide IdsInv, TasksInv, OnePlace, UserFact, Box, Grows, MailInv, Next, ServerEvent;
    var n' := Then(n, e);
    ServerGrows(n, e);
    GrowingBoxes(n, n');
    forall c | c in n'.users ensures UserFact(n', c, n'.users[c]) { UserFactGrows(n, n', c, n.users[c]); }
  }

  lemma GrowingBoxes(n: Net, n': Net)
    requires Grows(n, n')
    ensures forall p: Peer :: |Mailbox(n, p)| <= |Mailbox(n', p)|
  {
    hide Box, CallsStay;
    forall p: Peer ensures |Mailbox(n, p)| <= |Mailbox(n', p)| { assert Mailbox(n, p) <= Mailbox(n', p); }
  }

  /** Nothing tagged by a fresh connection id has been processed. */
  lemma NothingHeard(n: Net, conn: nat, cid: string)
    requires MailInv(n) && cid !in n.calls
    ensures HeardIn(ProcessedBy(n, conn), cid) == UNANSWERED
  {
    if conn in n.ids {
      var p := Peer(n.ids[conn], conn);
      NothingTagged(n, p, cid);
      hide MailInv;
      if ReadCount(n, p) <= |Mailbox(n, p)| { TaggedPrefix(Mailbox(n, p), ReadCount(n, p), cid); }
    }
  }

  lemma AskingFacts(n: Net, e: NetEvent)
    requires IdsInv(n) && MailInv(n) && IsCall(e) && CanCall(n, e)
    requires UserFact(Calling(n, e), e.conn, n.users[e.conn])
    ensures UserFact(Calling(n, e), e.conn, Asking(n.users[e.conn], e))
  {
    hide UserFact, MailInv, HeardIn, ProcessedBy;
    var n', u := Calling(n, e), n.users[e.conn];
    assert Known(n', Peer(u.id, e.conn)) by { assert Known(n, Peer(u.id, e.conn)); }
    match e
    case CallConnect(conn, cid, _) =>
      NothingHeard(n, conn, cid);
      SameProcessed(n, n', conn);
      AskedConnect(n', conn, u, cid);
    case CallBind(conn, call, alias) => AskedBind(n', conn, u, call, alias);
    case CallAccept(conn, call, alias) => AskedAccept(n', conn, u, call, alias);
    case CallShutdown(conn, call, alias) => AskedShutdown(n', conn, u, call, alias);
  }

  lemma SameProcessed(n: Net, n': Net, conn: nat)
    requires n'.world == n.world && n'.cursors == n.cursors && n'.ids == n.ids
    ensures ProcessedBy(n', conn) == ProcessedBy(n, conn)
  {}

  lemma AskedBind(n: Net, conn: nat, u: User, call: nat, alias: string)
    requires UserFact(n, conn, u) && Known(n, Peer(u.id, conn))
    ensures UserFact(n, conn, AskBind(u, call, alias))
  {
    hide Known, AcceptFact, ConnectFact, Telling, ProcessedBy;
  }

  lemma AskedShutdown(n: Net, conn: nat, u: User, call: nat, alias: string)
    requires UserFact(n, conn, u)
    ensures UserFact(n, conn, AskShutdown(u, call, alias))
  {
    hide BindFact, AcceptFact, ConnectFact, Telling, ProcessedBy;
  }

  lemma AskedAccept(n: Net, conn: nat, u: User, call: nat, alias: string)
    requires UserFact(n, conn, u)
    ensures UserFact(n, conn, AskAccept(u, call, alias))
  {
    hide BindFact, ConnectFact, Telling, ProcessedBy;
  }

  lemma AskedConnect(n: Net, conn: nat, u: User, cid: string)
    requires UserFact(n, conn, u) && ConnectFact(n, conn, cid, UNANSWERED)
    ensures UserFact(n, conn, AskConnect(u, cid))
  {
    hide BindFact, AcceptFact, ConnectFact, Telling, ProcessedBy;
  }

  lemma CallUsers(n: Net, e: NetEvent)
    requires Inv(n) && UsersInv(n) && IsCall(e) && CanCall(n, e)
    ensures UsersInv(Calling(n, e))
  {
    hide TasksInv, OnePlace, UserFact, Box, Grows, MailInv, IdsInv, Asking, RequestOf;
    var n' := Calling(n, e);
    CallGrows(n, e);
    CountsStay(n, n');
    forall c | c in n.users ensures UserFact(n', c, n.users[c]) { UserFactGrows(n, n', c, n.users[c]); }
    AskingFacts(n, e);
  }

  lemma OpenUsers(n: Net, e: NetEvent)
    requires Inv(n) && UsersInv(n) && e.Open? && CanHappen(n, e)
    ensures UsersInv(Then(n, e))
  {
    hide TasksInv, OnePlace, UserFact, Box, Grows, MailInv, CallsStay;
    var n' := Then(n, e);
    OpenGrows(n, e);
    CountsStay(n, n');
    forall c | c in n.users ensures UserFact(n', c, n.users[c]) { UserFactGrows(n, n', c, n.users[c]); }
    FreshFact(n', e.conn);
  }

  lemma FreshFact(n: Net, conn: nat)
    requires conn !in n.ids
    ensures UserFact(n, conn, FRESH)
  {}

  lemma UsersStep(n: Net, e: NetEvent)
    requires Inv(n) && UsersInv(n) && CanHappen(n, e)
    ensures UsersInv(Then(n, e))
  {
    hide Inv, UsersInv;
    match e
    case Open(_, _) => OpenUsers(n, e);
    case Serve(_, _) => ServerUsers(n, e);
    case Work(_) => ServerUsers(n, e);
    case Hangup(_, _) => ServerUsers(n, e);
    case Read(p) => ReadUsers(n, p);
    case _ => CallUsers(n, e);
  }

  // ------------------------------------------------------------ every run

  ghost predicate Everything(n: Net) { Inv(n) && RepliesInv(n) && UsersInv(n) }

  lemma {:induction false} Always(ns: seq<Net>, es: seq<NetEvent>, k: nat)
    requires NetRun(ns, es) && k < |ns|
    ensures Everything(ns[k])
  {
    hide Inv, RepliesInv, UsersInv, Then, CanHappen;
    if k == 0 {
      BeginEverything();
    } else {
      Always(ns, es, k - 1);
      ThenKeeps(ns[k - 1], es[k - 1]);
      RepliesStep(ns[k - 1], es[k - 1]);
      UsersStep(ns[k - 1], es[k - 1]);
    }
  }

  lemma BeginEverything()
    ensures Everything(BEGIN)
  {}

  // -------------------------------------------------------------- connect

  lemma {:induction false} HeardShape(verdicts: map<string, Verdict>, cid: string, replies: seq<Message>,
                                      heard: seq<Message>)
    requires ReplyShape(verdicts, cid, replies) && heard <= replies
    ensures forall m | m in heard :: m.Alias?
    ensures var promise := HearAll(heard).promise;
      && (promise.Resolved? <==> |heard| == 2)
      && (promise.Resolved? ==> cid in verdicts && verdicts[cid] == Granted(promise.value))
      && (promise.Rejected? <==> |heard| == 1 && cid in verdicts && verdicts[cid] == Declined)
  {
    forall m | m in heard ensures m.Alias? {
      var i :| 0 <= i < |heard| && heard[i] == m;
      assert replies[i] == m;
    }
    if |heard| == 1 {
      HearTwo(heard[0], heard[0]);
      assert heard == [heard[0]];
    } else if |heard| == 2 {
      HearTwo(heard[0], heard[1]);
      assert heard == [heard[0], heard[1]];
    }
  }

  /** At this step the server decided the call: it registered the alias for the caller, or turned it down. */
  ghost predicate Decides(n: Net, e: NetEvent, cid: string, verdict: Verdict)
    requires CanHappen(n, e)
  {
    && e.Work? && e.tid in n.world.tasks && cid in n.calls && cid !in n.verdicts
    && match verdict
       case Granted(alias) =>
         && n.world.tasks[e.tid] == ConnectCreated(n.calls[cid].call, alias) && Accepts(n.world.st, n.calls[cid].call)
         && alias in Then(n, e).world.st.aliases && Then(n, e).world.st.aliases[alias].id == n.calls[cid].call.id
       case Declined =>
         n.world.tasks[e.tid].ConnectCreated? && n.world.tasks[e.tid].call == n.calls[cid].call
         && !Accepts(n.world.st, n.calls[cid].call)
  }

  lemma DecidedNow(n: Net, e: NetEvent, cid: string)
    requires Inv(n) && CanHappen(n, e) && cid !in n.verdicts && cid in Then(n, e).verdicts
    ensures Decides(n, e, cid, Then(n, e).verdicts[cid])
  {
    hide IdsInv, OnePlace, MailInv, Asking, RequestOf, HandleMessage, RequestFact, RefusalOf;
    if e.Work? {
      var task := n.world.tasks[e.tid];
      assert TaskFact(n, task);
      if task.ConnectCreated? && Accepts(n.world.st, task.call) { Publishes(n.world.st, task.call, task.clientAlias); }
      hide Resume;
    }
  }

  lemma Publishes(st: State, call: Call, clientAlias: string)
    requires Accepts(st, call)
    ensures Resume(st, ConnectCreated(call, clientAlias)).st.aliases ==
      st.aliases[clientAlias := MAlias(call.id, false)]
  {}

  lemma {:induction false} WasDecided(ns: seq<Net>, es: seq<NetEvent>, k: nat, cid: string)
    requires NetRun(ns, es) && k < |ns| && cid in ns[k].verdicts
    ensures exists i :: 0 <= i < k && Decides(ns[i], es[i], cid, ns[k].verdicts[cid])
  {
    hide Everything, Inv, Then, CanHappen, Decides;
    assert k > 0 by { assert BEGIN.verdicts == map[]; }
    var n, e := ns[k - 1], es[k - 1];
    Always(ns, es, k - 1);
    NowEverything(n);
    if cid in n.verdicts {
      WasDecided(ns, es, k - 1, cid);
      ThenKeeps(n, e);
      VerdictStays(n, Then(n, e), cid);
    } else {
      DecidedNow(n, e, cid);
    }
  }

  lemma NowEverything(n: Net)
    requires Everything(n)
    ensures Inv(n) && RepliesInv(n) && UsersInv(n)
  {}

  lemma VerdictStays(n: Net, n': Net, cid: string)
    requires Grows(n, n') && cid in n.verdicts
    ensures cid in n'.verdicts && n'.verdicts[cid] == n.verdicts[cid]
  {}

  /**
   End to end, in every run: the promise of a connect call resolves exactly when its
   client has processed both replies, and then with the alias the server registered
   for that very call and client; it is rejected exactly when the client has processed
   the refusal of that call. So it is never both.
   */
  lemma ConnectEndToEnd(ns: seq<Net>, es: seq<NetEvent>, k: nat, conn: nat, cid: string)
    requires NetRun(ns, es) && k < |ns|
    requires conn in ns[k].users && cid in ns[k].users[conn].connects
    ensures var n := ns[k];
      && cid in n.calls && n.calls[cid].conn == conn
      && var promise, processed := n.users[conn].connects[cid].promise, |Tagged(ProcessedBy(n, conn), cid)|;
      && (promise.Resolved? <==> processed == 2)
      && (promise.Resolved? ==> exists i :: 0 <= i < k && Decides(ns[i], es[i], cid, Granted(promise.value)))
      && (promise.Rejected? <==> processed == 1 && cid in n.verdicts && n.verdicts[cid] == Declined)
      && (promise.Rejected? ==> exists i :: 0 <= i < k && Decides(ns[i], es[i], cid, Declined))
  {
    hide Decides, NetRun;
    var n := ns[k];
    Always(ns, es, k);
    ConnectNow(n, conn, cid);
    if cid in n.verdicts { WasDecided(ns, es, k, cid); }
    hide Everything, Tagged, ProcessedBy;
  }

  lemma ConnectNow(n: Net, conn: nat, cid: string)
    requires Everything(n) && conn in n.users && cid in n.users[conn].connects
    ensures cid in n.calls && n.calls[cid].conn == conn
    ensures var promise, processed := n.users[conn].connects[cid].promise, |Tagged(ProcessedBy(n, conn), cid)|;
      && (promise.Resolved? <==> processed == 2)
      && (promise.Resolved? ==> cid in n.verdicts && n.verdicts[cid] == Granted(promise.value))
      && (promise.Rejected? <==> processed == 1 && cid in n.verdicts && n.verdicts[cid] == Declined)
  {
    hide TasksInv, OnePlace, MailInv, BindFact, AcceptFact, Telling, ReplyShape, Box;
    assert UserFact(n, conn, n.users[conn]);
    assert ConnectFact(n, conn, cid, n.users[conn].connects[cid]);
    assert CallFact(n, cid);
    var p := Caller(n.calls[cid]);
    assert p == Peer(n.ids[conn], conn);
    assert ReplyShape(n.verdicts, cid, Replies(n, cid));
    TaggedPrefix(Mailbox(n, p), ReadCount(n, p), cid);
    HeardShape(n.verdicts, cid, Replies(n, cid), Tagged(ProcessedBy(n, conn), cid));
    hide Inv, RepliesInv, UsersInv, Tagged;
  }

  // ----------------------------------------------------------------- bind

  lemma EverGrew(n: Net, e: NetEvent, alias: string, id: string)
    requires CanHappen(n, e) && Had(Then(n, e), alias, id) && !Had(n, alias, id)
    ensures var aliases := Then(n, e).world.st.aliases; alias in aliases && aliases[alias].id == id
  {
    hide Next, HandleMessage, Asking, RequestOf, RefusalOf;
  }

  /** Whoever is on record for an alias was its registered owner in some state. */
  lemma {:induction false} WasRegistered(ns: seq<Net>, es: seq<NetEvent>, k: nat, alias: string, id: string)
    requires NetRun(ns, es) && k < |ns| && Had(ns[k], alias, id)
    ensures exists i :: 0 <= i <= k && alias in ns[i].world.st.aliases && ns[i].world.st.aliases[alias].id == id
  {
    hide Then, CanHappen;
    assert k > 0 by { assert BEGIN.ever == {}; }
    if Had(ns[k - 1], alias, id) {
      WasRegistered(ns, es, k - 1, alias, id);
    } else {
      EverGrew(ns[k - 1], es[k - 1], alias, id);
    }
  }

  /** A client processes the refusal of a shutdown while its bind of the same alias is pending. */
  ghost predicate Crosses(n: Net, e: NetEvent, conn: nat, call: nat) {
    && e.Read? && e.p.conn == conn && (e.p, ReadCount(n, e.p)) in n.refusals
    && ReadCount(n, e.p) < |Mailbox(n, e.p)|
    && conn in n.users && call in n.users[conn].binds && n.users[conn].binds[call].promise.Pending?
    && var m := Mailbox(n, e.p)[ReadCount(n, e.p)];
       m.Alias? && m.isSet && m.alias == n.users[conn].binds[call].alias && m.id == n.users[conn].binds[call].id
         && m.clientConnectionId == None
  }

  /** A bind stays as it is, or is settled by a message that is true of the history or a crossing refusal. */
  lemma BindStep(n: Net, e: NetEvent, conn: nat, call: nat)
    requires Inv(n) && CanHappen(n, e) && conn in n.users && call in n.users[conn].binds
    ensures var n', b := Then(n, e), n.users[conn].binds[call];
      && conn in n'.users && call in n'.users[conn].binds
      && var b' := n'.users[conn].binds[call];
      && b'.id == b.id && b'.alias == b.alias
      && (!b.promise.Pending? ==> b'.promise == b.promise)
      && (b.promise.Pending? && b'.promise.Resolved? ==> Had(n, b.alias, b.id) || Crosses(n, e, conn, call))
      && (Crosses(n, e, conn, call) ==> b'.promise.Resolved?)
  {
    hide IdsInv, TasksInv, OnePlace, Box, Pairs, RefusalFact, MessageFact, RequestOf, Serving;
    if e.Read? && e.p.conn == conn {
      var j := ReadCount(n, e.p);
      assert MessageFact(n, e.p, j, Mailbox(n, e.p)[j]);
      TagsAreFull(n, e.p, j, Mailbox(n, e.p)[j]);
      hide Inv;
      BindHears(n, e.p, j, Mailbox(n, e.p)[j], n.users[conn], call);
      hide HandleMessage;
    } else {
      hide HandleMessage, Inv;
      if e.Serve? || e.Work? || e.Hangup? { ServingUsers(n, e); }
    }
  }

  lemma ServingUsers(n: Net, e: NetEvent)
    requires (e.Serve? || e.Work? || e.Hangup?) && CanHappen(n, e)
    ensures Then(n, e).users == n.users
  {}

  lemma BindHears(n: Net, p: Peer, j: nat, m: Message, u: User, call: nat)
    requires MessageFact(n, p, j, m) && call in u.binds
    requires m.Alias? && !ForConnect(m) ==> m.clientConnectionId == None
    ensures var b := u.binds[call];
      var heard := m.Alias? && m.clientConnectionId == None && m.id == b.id && m.alias == b.alias;
      && call in HandleMessage(u, m).binds
      && var b' := HandleMessage(u, m).binds[call];
      && b'.id == b.id && b'.alias == b.alias
      && (!b.promise.Pending? ==> b'.promise == b.promise)
      && (b.promise.Pending? && b'.promise.Resolved? ==>
           heard && m.isSet && (Had(n, b.alias, b.id) || (p, j) in n.refusals))
      && (b.promise.Pending? && heard && m.isSet ==> b'.promise.Resolved?)
  {
    hide NotifyConnect, NotifyAccept, OnAlias, Known, EverHad;
  }

  /** A bind call that was just made is pending. */
  lemma BindMade(n: Net, e: NetEvent, conn: nat, call: nat)
    requires CanHappen(n, e) && conn in Then(n, e).users && call in Then(n, e).users[conn].binds
    requires !(conn in n.users && call in n.users[conn].binds)
    ensures Then(n, e).users[conn].binds[call].promise.Pending?
  {
    hide Next, NotifyConnect, NotifyAccept, OnAlias, Box, RequestOf, RefusalOf;
    if e.Serve? || e.Work? || e.Hangup? { ServingUsers(n, e); }
    hide Serving;
  }

  lemma {:induction false} ResolvedBind(ns: seq<Net>, es: seq<NetEvent>, k: nat, conn: nat, call: nat)
    requires NetRun(ns, es) && k < |ns| && conn in ns[k].users && call in ns[k].users[conn].binds
    requires ns[k].users[conn].binds[call].promise.Resolved?
    requires forall i | 0 <= i < k :: !Crosses(ns[i], es[i], conn, call)
    ensures Had(ns[k], ns[k].users[conn].binds[call].alias, ns[k].users[conn].binds[call].id)
  {
    hide Everything, Inv, UsersInv, Then, CanHappen, Crosses, Grows;
    assert k > 0 by { assert BEGIN.users == map[]; }
    var n, e := ns[k - 1], es[k - 1];
    Always(ns, es, k - 1);
    NowEverything(n);
    ThenKeeps(n, e);
    if conn in n.users && call in n.users[conn].binds {
      var b := n.users[conn].binds[call];
      BindStep(n, e, conn, call);
      if !b.promise.Pending? { ResolvedBind(ns, es, k - 1, conn, call); }
      HadStays(n, Then(n, e), b.alias, b.id);
    } else {
      BindMade(n, e, conn, call);
    }
  }

  /**
   In every run, a bind promise resolves only if the server had registered the alias
   for that client, unless the refusal of a shutdown of the same alias crosses the
   bind; it is rejected only if somebody had registered the alias.
   */
  lemma BindAgreement(ns: seq<Net>, es: seq<NetEvent>, k: nat, conn: nat, call: nat)
    requires NetRun(ns, es) && k < |ns| && conn in ns[k].users && call in ns[k].users[conn].binds
    ensures var b := ns[k].users[conn].binds[call];
      && Known(ns[k], Peer(b.id, conn))
      && (b.promise.Resolved? && (forall i | 0 <= i < k :: !Crosses(ns[i], es[i], conn, call)) ==>
            exists i :: 0 <= i <= k && b.alias in ns[i].world.st.aliases && ns[i].world.st.aliases[b.alias].id == b.id)
      && (b.promise.Rejected? ==> exists i :: 0 <= i <= k && b.alias in ns[i].world.st.aliases)
  {
    hide Crosses, Then, CanHappen;
    var n, b := ns[k], ns[k].users[conn].binds[call];
    Always(ns, es, k);
    assert UserFact(n, conn, n.users[conn]) && BindFact(n, conn, b);
    hide Everything;
    if b.promise.Rejected? {
      var id: string :| Had(n, b.alias, id);
      WasRegistered(ns, es, k, b.alias, id);
    }
    if b.promise.Resolved? && (forall i | 0 <= i < k :: !Crosses(ns[i], es[i], conn, call)) {
      ResolvedBind(ns, es, k, conn, call);
      WasRegistered(ns, es, k, b.alias, b.id);
    }
  }

  /** A crossing resolves the bind, and comes from a shutdown call of that alias under that id. */
  lemma CrossingResolves(ns: seq<Net>, es: seq<NetEvent>, k: nat, conn: nat, call: nat)
    requires NetRun(ns, es) && k < |es| && Crosses(ns[k], es[k], conn, call)
    ensures conn in ns[k + 1].users && call in ns[k + 1].users[conn].binds
    ensures ns[k + 1].users[conn].binds[call].promise.Resolved?
    ensures AskedTo(ns[k], ns[k].users[conn].binds[call].id, ns[k].users[conn].binds[call].alias, true)
  {
    var n, e := ns[k], es[k];
    Always(ns, es, k);
    NowEverything(n);
    BindStep(n, e, conn, call);
    assert RefusalFact(n, e.p, ReadCount(n, e.p));
    hide Everything, Inv, RepliesInv, UsersInv, Then, CanHappen, AskedTo;
  }
}
