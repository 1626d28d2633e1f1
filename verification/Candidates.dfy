/** Candidates are conserved: applied plus queued is what was received. */
module Candidates {
  import opened Wrappers
  import opened TransportState

  lemma {:induction false} WithoutCounts(queue: seq<string>, candidate: string, x: string)
    ensures multiset(Without(queue, candidate))[x] == if x == candidate then 0 else multiset(queue)[x]
  {
    if queue != [] {
      WithoutCounts(queue[1..], candidate, x);
      assert queue == [queue[0]] + queue[1..];
    }
  }

  lemma HeadIsMember(queue: seq<string>)
    ensures queue == [] || queue[0] in queue
  {}

  /** Flushing with the remote description set: in order, and the entry keeps only what was not flushed. */
  lemma {:induction false} FlushReady(t: Transport, id: string, entries: seq<string>, x: string)
    requires Ready(t, id)
    ensures var t' := FlushAll(t, id, entries);
      && Ready(t', id) && Applied(t', id) == Applied(t, id) + entries
      && multiset(Queued(t', id))[x] == (if x in entries then 0 else multiset(Queued(t, id))[x])
  {
    if entries != [] {
      var init, last := entries[..|entries| - 1], entries[|entries| - 1];
      assert entries == init + [last];
      FlushReady(t, id, init, x);
      FlushOneReady(FlushAll(t, id, init), id, last, x);
      hide FlushOne, Ready, Applied, Queued;
      assert x in entries <==> x in init || x == last;
    }
  }

  lemma FlushOneReady(t: Transport, id: string, candidate: string, x: string)
    requires Ready(t, id)
    ensures var t' := FlushOne(t, id, candidate);
      && Ready(t', id) && Applied(t', id) == Applied(t, id) + [candidate]
      && multiset(Queued(t', id))[x] == (if x == candidate then 0 else multiset(Queued(t, id))[x])
  {
    WithoutCounts(Queued(t, id), candidate, x);
    hide Without;
  }

  /**
   The flush loop, which filters the entry while it iterates the old array, applies
   the queued candidates in order, duplicates included, and leaves the queue empty.
   */
  lemma FlushApplies(t: Transport, id: string)
    requires Ready(t, id)
    ensures var t' := AddQueuedCandidates(t, id);
      Applied(t', id) == Applied(t, id) + Queued(t, id) && Queued(t', id) == []
  {
    var t' := AddQueuedCandidates(t, id);
    forall x: string ensures x !in Queued(t', id) {
      FlushReady(t, id, Queued(t, id), x);
      assert x in Queued(t', id) <==> multiset(Queued(t', id))[x] > 0;
      assert x in Queued(t, id) <==> multiset(Queued(t, id))[x] > 0;
    }
    HeadIsMember(Queued(t', id));
    FlushReady(t, id, Queued(t, id), "");
  }

  /** Flushing without a remote description: the entry is rotated, each candidate kept once. */
  lemma {:induction false} FlushNotReady(t: Transport, id: string, entries: seq<string>, x: string)
    requires !Ready(t, id)
    ensures var t' := FlushAll(t, id, entries);
      && !Ready(t', id) && t'.applied == t.applied
      && multiset(Queued(t', id))[x] == if x in entries then 1 else multiset(Queued(t, id))[x]
  {
    if entries != [] {
      var init, last := entries[..|entries| - 1], entries[|entries| - 1];
      assert entries == init + [last];
      FlushNotReady(t, id, init, x);
      WithoutCounts(Queued(FlushAll(t, id, init), id), last, x);
    }
  }

  /**
   A flush conserves candidates exactly when the remote description is set or no
   candidate is queued twice.
   */
  lemma FlushConservesIff(t: Transport, id: string)
    ensures var t' := AddQueuedCandidates(t, id);
      multiset(Applied(t', id)) + multiset(Queued(t', id)) == multiset(Applied(t, id)) + multiset(Queued(t, id))
        <==> Ready(t, id) || forall x | x in Queued(t, id) :: multiset(Queued(t, id))[x] == 1
  {
    var t' := AddQueuedCandidates(t, id);
    if Ready(t, id) {
      FlushApplies(t, id);
    } else {
      forall x: string
        ensures multiset(Queued(t', id))[x] == if x in Queued(t, id) then 1 else multiset(Queued(t, id))[x]
        ensures t'.applied == t.applied
      {
        FlushNotReady(t, id, Queued(t, id), x);
      }
      FlushNotReady(t, id, Queued(t, id), "");
      hide AddQueuedCandidates, Queued, Ready;
      CountsDecide(multiset(Applied(t, id)), Queued(t, id), multiset(Queued(t', id)));
    }
  }

  lemma CountsDecide(applied: multiset<string>, queue: seq<string>, after: multiset<string>)
    requires forall x: string :: after[x] == if x in queue then 1 else multiset(queue)[x]
    ensures applied + after == applied + multiset(queue) <==> forall x | x in queue :: multiset(queue)[x] == 1
  {
    if x :| x in queue && multiset(queue)[x] != 1 {
      assert (applied + after)[x] != (applied + multiset(queue))[x];
    } else {
      assert forall x: string :: after[x] == multiset(queue)[x];
      assert after == multiset(queue);
    }
  }

  // ------------------------------------------------------------ whole runs

  /** A call of handleOffer or handleAnswer under way, before or after the remote description was set. */
  datatype Handler = Describing(id: string) | Described(id: string)

  datatype Session = Session(t: Transport, handlers: map<nat, Handler>)

  const OPENED := Session(EMPTY, map[])

  datatype Happening =
    | OfferCame(tid: nat, remoteId: string, localId: string, channel: nat)
    | AnswerCame(tid: nat, id: string)
    | Proceed(tid: nat)
    | Plain(change: Change)

  /** No shutdown and no lost connection; descriptions and flushes are steps of the two handlers. */
  predicate CanGo(s: Session, h: Happening) {
    match h
    case OfferCame(tid, _, _, _) => tid !in s.handlers
    case AnswerCame(tid, _) => tid !in s.handlers
    case Proceed(tid) => tid in s.handlers
    case Plain(c) => !c.Stopped? && !c.Lost? && !c.RemoteSet? && !c.Flush? && !c.Offered?
  }

  function ChangeOf(s: Session, h: Happening): Option<Change>
    requires CanGo(s, h)
  {
    match h
    case OfferCame(_, remoteId, localId, channel) => Some(Offered(remoteId, localId, channel))
    case AnswerCame(_, _) => None
    case Proceed(tid) =>
      (match s.handlers[tid]
       case Describing(id) => Some(RemoteSet(id))
       case Described(id) => Some(Flush(id)))
    case Plain(c) => Some(c)
  }

  /** An offer for an open connection and an answer without a connection throw before they wait. */
  function HandlersAfter(s: Session, h: Happening): map<nat, Handler>
    requires CanGo(s, h)
  {
    match h
    case OfferCame(tid, remoteId, _, _) =>
      if Connected(s.t, remoteId) then s.handlers else s.handlers[tid := Describing(remoteId)]
    case AnswerCame(tid, id) => if id in s.t.connections then s.handlers[tid := Describing(id)] else s.handlers
    case Proceed(tid) =>
      if s.handlers[tid].Describing? then s.handlers[tid := Described(s.handlers[tid].id)] else s.handlers - {tid}
    case Plain(_) => s.handlers
  }

  function Go(s: Session, h: Happening): Session
    requires CanGo(s, h)
  {
    var change := ChangeOf(s, h);
    Session(if change.Some? then Apply(s.t, change.value) else s.t, HandlersAfter(s, h))
  }

  ghost predicate SessionRun(ss: seq<Session>, hs: seq<Happening>) {
    && |ss| == |hs| + 1 && ss[0] == OPENED
    && forall k | 0 <= k < |hs| :: CanGo(ss[k], hs[k]) && ss[k + 1] == Go(ss[k], hs[k])
  }

  /** The candidates received for an id so far, in order. */
  function Received(hs: seq<Happening>, id: string): seq<string> {
    if hs == [] then []
    else
      var last := hs[|hs| - 1];
      Received(hs[..|hs| - 1], id) + if last.Plain? then NewCandidate(last.change, id) else []
  }

  /** A flush finds the remote description set. */
  predicate Steady(t: Transport, c: Change) {
    match c
    case Stopped(_) | Lost(_) => false
    case Flush(id) => Ready(t, id)
    case _ => true
  }

  predicate AllOpen(t: Transport) { forall r | r in t.connections :: !t.connections[r].closed }

  /** What a change other than a candidate or a flush leaves alone. */
  lemma OtherChange(t: Transport, c: Change, id: string)
    requires Steady(t, c) && AllOpen(t) && !c.Candidate? && !c.Flush?
    ensures var t' := Apply(t, c);
      AllOpen(t') && (Ready(t, id) ==> Ready(t', id)) && t'.candidates == t.candidates && t'.applied == t.applied
  {
    hide HandleCandidate, AddQueuedCandidates, Queue, HasQueue, HasChannel, AddDataChannel, AddQueueMessages, Push;
    match c
    case Offer(r, l, channel) =>
      ConfigureFrame(t, r, l, channel);
      ConfigureFrame(t.(connections := t.connections[r := Link(false, false)]), r, l, channel);
    case Offered(r, l, channel) => ConfigureFrame(t, r, l, channel);
    case Incoming(r, l, channel) => ConfigureFrame(t, r, l, channel);
    case Arrived(r, l, packet) => QueueFrame(t, r, l, Queue(t, r, l) + [packet]); PushIs(t, r, l, packet);
    case Taken(r, l) => if Queue(t, r, l) != [] { QueueFrame(t, r, l, Queue(t, r, l)[1..]); }
    case _ =>
  }

  lemma PushIs(t: Transport, r: string, l: string, packet: Packet)
    ensures Push(t, r, l, packet) in {None, Some(t), Some(AddQueueMessages(t, r, l, Queue(t, r, l) + [packet]))}
  {}

  lemma QueueFrame(t: Transport, r: string, l: string, packets: seq<Packet>)
    ensures var t' := AddQueueMessages(t, r, l, packets);
      t'.connections == t.connections && t'.candidates == t.candidates && t'.applied == t.applied
  {}

  lemma ConfigureFrame(t: Transport, r: string, l: string, channel: nat)
    ensures var t' := Configure(t, r, l, channel);
      t'.connections == t.connections && t'.candidates == t.candidates && t'.applied == t.applied
  {}

  lemma FlushChange(t: Transport, flushed: string, id: string)
    requires Ready(t, flushed)
    ensures var t' := AddQueuedCandidates(t, flushed);
      && t'.connections == t.connections
      && (Queued(t, id) == [] ==> Queued(t', id) == [])
      && multiset(Applied(t', id)) + multiset(Queued(t', id)) == multiset(Applied(t, id)) + multiset(Queued(t, id))
  {
    FlushAllFrame(t, flushed, Queued(t, flushed));
    if flushed == id { FlushApplies(t, id); } else { FlushElsewhere(t, flushed, Queued(t, flushed), id, ""); }
  }

  lemma OneMore(a: seq<string>, q: seq<string>, b: seq<string>, r: seq<string>, candidate: string)
    requires (b == a + [candidate] && r == q) || (b == a && r == q + [candidate])
    ensures multiset(b) + multiset(r) == multiset(a) + multiset(q) + multiset{candidate}
  {}

  lemma CandidateChange(t: Transport, received: string, candidate: string, id: string)
    ensures var t' := HandleCandidate(t, received, candidate);
      && t'.connections == t.connections
      && (Ready(t, id) && Queued(t, id) == [] ==> Queued(t', id) == [])
      && multiset(Applied(t', id)) + multiset(Queued(t', id)) ==
           multiset(Applied(t, id)) + multiset(Queued(t, id))
             + (if received == id then multiset{candidate} else multiset{})
  {
    hide HandleCandidate, Applied, Queued, Ready;
    var t' := HandleCandidate(t, received, candidate);
    CandidateEffect(t, received, candidate, id);
    if received == id { OneMore(Applied(t, id), Queued(t, id), Applied(t', id), Queued(t', id), candidate); }
  }

  function NewCandidate(c: Change, id: string): seq<string> {
    if c.Candidate? && c.id == id then [c.candidate] else []
  }

  lemma CandidateStep(t: Transport, c: Change, id: string)
    requires Steady(t, c) && AllOpen(t)
    ensures var t' := Apply(t, c);
      && AllOpen(t')
      && (Ready(t, id) ==> Ready(t', id))
      && (Ready(t, id) && Queued(t, id) == [] ==> Queued(t', id) == [])
      && multiset(Applied(t', id)) + multiset(Queued(t', id)) ==
           multiset(Applied(t, id)) + multiset(Queued(t, id)) + multiset(NewCandidate(c, id))
  {
    hide AddQueuedCandidates, HandleCandidate, GetOffer, HandleOffer, Configure, Push, Shift;
    match c
    case Flush(flushed) => FlushChange(t, flushed, id);
    case Candidate(received, candidate) => CandidateChange(t, received, candidate, id);
    case _ => OtherChange(t, c, id);
  }

  /** Handlers have a connection, and once past the description it is set. */
  predicate HandlersOk(s: Session) {
    forall tid | tid in s.handlers ::
      match s.handlers[tid]
      case Describing(id) => id in s.t.connections
      case Described(id) => Ready(s.t, id)
  }

  lemma ConnectionsStay(t: Transport, c: Change, id: string)
    requires Steady(t, c) && AllOpen(t)
    ensures id in t.connections ==> id in Apply(t, c).connections
    ensures Ready(t, id) ==> Ready(Apply(t, c), id)
  {
    if c.Candidate? {
      CandidateChange(t, c.id, c.candidate, id);
    } else if c.Flush? {
      FlushAllFrame(t, c.id, Queued(t, c.id));
    } else {
      OtherChange(t, c, id);
      hide HandleCandidate, AddQueuedCandidates, Queue, HasQueue, HasChannel, AddDataChannel, AddQueueMessages, Push;
    }
  }

  lemma SessionStep(s: Session, h: Happening)
    requires AllOpen(s.t) && HandlersOk(s) && CanGo(s, h)
    ensures AllOpen(Go(s, h).t) && HandlersOk(Go(s, h))
    ensures ChangeOf(s, h).Some? ==> Steady(s.t, ChangeOf(s, h).value)
  {
    var s' := Go(s, h);
    if ChangeOf(s, h).Some? {
      var c := ChangeOf(s, h).value;
      CandidateStep(s.t, c, "");
      forall id: string
        ensures id in s.t.connections ==> id in s'.t.connections
        ensures Ready(s.t, id) ==> Ready(s'.t, id)
      {
        ConnectionsStay(s.t, c, id);
      }
      if h.OfferCame? && !Connected(s.t, h.remoteId) { OfferConnects(s.t, c); }
      if h.Proceed? { DescribedReady(s.t, s.handlers[h.tid].id); }
    }
    hide Apply, Ready, AllOpen;
  }

  lemma OfferConnects(t: Transport, c: Change)
    requires c.Offered? && !Connected(t, c.remoteId)
    ensures c.remoteId in Apply(t, c).connections
  {}

  lemma DescribedReady(t: Transport, id: string)
    ensures id in t.connections ==> Ready(Apply(t, RemoteSet(id)), id)
  {}

  /**
   In every run without shutdowns and lost connections, for every id, duplicates
   included: applied and queued candidates are those received; and a flush always
   finds the remote description set.
   */
  lemma {:induction false} Conservation(ss: seq<Session>, hs: seq<Happening>, k: nat, id: string)
    requires SessionRun(ss, hs) && k < |ss|
    ensures multiset(Applied(ss[k].t, id)) + multiset(Queued(ss[k].t, id)) == multiset(Received(hs[..k], id))
    ensures AllOpen(ss[k].t) && HandlersOk(ss[k])
  {
    hide Applied, Queued, AllOpen, HandlersOk, Apply, Steady, Ready;
    if k == 0 {
      NothingYet(id);
    } else {
      Conservation(ss, hs, k - 1, id);
      var s, h := ss[k - 1], hs[k - 1];
      SessionStep(s, h);
      if ChangeOf(s, h).Some? { CandidateStep(s.t, ChangeOf(s, h).value, id); }
      assert hs[..k][..k - 1] == hs[..k - 1];
      ReceivedOf(s, h, id);
    }
  }

  lemma NothingYet(id: string)
    ensures Applied(OPENED.t, id) == [] && Queued(OPENED.t, id) == [] && AllOpen(OPENED.t) && HandlersOk(OPENED)
  {}

  lemma ReceivedOf(s: Session, h: Happening, id: string)
    requires CanGo(s, h)
    ensures var change := ChangeOf(s, h);
      (if change.Some? then NewCandidate(change.value, id) else []) ==
        (if h.Plain? then NewCandidate(h.change, id) else [])
  {}

  /** The flush of an id, at the end of a handler. */
  predicate Flushes(s: Session, h: Happening, id: string) {
    h.Proceed? && h.tid in s.handlers && s.handlers[h.tid] == Described(id)
  }

  /** Once flushed, a queue stays empty: everything later is applied at once. */
  lemma {:induction false} StaysFlushed(ss: seq<Session>, hs: seq<Happening>, j: nat, k: nat, id: string)
    requires SessionRun(ss, hs) && j < k < |ss|
    requires Flushes(ss[j], hs[j], id)
    ensures Ready(ss[k].t, id) && Queued(ss[k].t, id) == []
    ensures multiset(Applied(ss[k].t, id)) == multiset(Received(hs[..k], id))
  {
    hide Applied, AllOpen, Apply, Received;
    Conservation(ss, hs, k, id);
    Conservation(ss, hs, k - 1, id);
    var s, h := ss[k - 1], hs[k - 1];
    SessionStep(s, h);
    if j == k - 1 {
      FlushLeaves(s.t, id);
    } else {
      StaysFlushed(ss, hs, j, k - 1, id);
      if ChangeOf(s, h).Some? { CandidateStep(s.t, ChangeOf(s, h).value, id); }
    }
  }

  lemma QuietChange(t: Transport, c: Change, id: string)
    requires Steady(t, c) && AllOpen(t) && c != Flush(id) && NewCandidate(c, id) == []
    ensures Applied(Apply(t, c), id) == Applied(t, id) && Queued(Apply(t, c), id) == Queued(t, id)
  {
    hide GetOffer, HandleOffer, Configure, Push, Shift;
    match c
    case Flush(flushed) => FlushElsewhere(t, flushed, Queued(t, flushed), id, "");
    case Candidate(received, candidate) => CandidateEffect(t, received, candidate, id);
    case _ => OtherChange(t, c, id);
  }

  /** What a step that is not the flush of this id does to its candidates. */
  lemma InOrderStep(s: Session, h: Happening, id: string)
    requires AllOpen(s.t) && HandlersOk(s) && CanGo(s, h) && !Flushes(s, h, id)
    ensures var came := if h.Plain? then NewCandidate(h.change, id) else [];
      && Applied(Go(s, h).t, id) == Applied(s.t, id) + (if Ready(s.t, id) then came else [])
      && Queued(Go(s, h).t, id) == Queued(s.t, id) + (if Ready(s.t, id) then [] else came)
  {
    hide Applied, Queued, Apply, HandleCandidate, AllOpen, HandlersOk, Ready;
    SessionStep(s, h);
    if ChangeOf(s, h).Some? {
      var c := ChangeOf(s, h).value;
      ReceivedOf(s, h, id);
      if NewCandidate(c, id) == [] { QuietChange(s.t, c, id); } else { TakesCandidate(s.t, c, id); }
    }
  }

  lemma TakesCandidate(t: Transport, c: Change, id: string)
    requires NewCandidate(c, id) != []
    ensures NewCandidate(c, id) == [c.candidate]
    ensures Applied(Apply(t, c), id) == Applied(t, id) + (if Ready(t, id) then [c.candidate] else [])
    ensures Queued(Apply(t, c), id) == Queued(t, id) + (if Ready(t, id) then [] else [c.candidate])
  {
    CandidateEffect(t, c.id, c.candidate, id);
    hide HandleCandidate, Applied, Queued;
  }

  /** The remote description, once set, stays set. */
  lemma StaysReady(s: Session, h: Happening, id: string)
    requires AllOpen(s.t) && HandlersOk(s) && CanGo(s, h) && Ready(s.t, id)
    ensures Ready(Go(s, h).t, id)
  {
    hide Apply, AllOpen, HandlersOk, Ready;
    SessionStep(s, h);
    if ChangeOf(s, h).Some? { ConnectionsStay(s.t, ChangeOf(s, h).value, id); }
  }

  /** The candidates that came between two points of a run. */
  function CameBetween(hs: seq<Happening>, i: nat, k: nat, id: string): seq<string>
    requires i <= k <= |hs|
  {
    Received(hs[i..k], id)
  }

  lemma CameSnoc(hs: seq<Happening>, i: nat, k: nat, id: string)
    requires i < k <= |hs|
    ensures CameBetween(hs, i, k, id) ==
      CameBetween(hs, i, k - 1, id) + if hs[k - 1].Plain? then NewCandidate(hs[k - 1].change, id) else []
  {
    assert hs[i..k][..k - 1 - i] == hs[i..k - 1];
  }

  /** One step of a run, and what holds before it. */
  lemma RunStep(ss: seq<Session>, hs: seq<Happening>, k: nat)
    requires SessionRun(ss, hs) && k < |hs|
    ensures CanGo(ss[k], hs[k]) && ss[k + 1] == Go(ss[k], hs[k]) && AllOpen(ss[k].t) && HandlersOk(ss[k])
  {
    hide AllOpen, HandlersOk, Go, CanGo;
    Conservation(ss, hs, k, "");
  }

  lemma RunLength(ss: seq<Session>, hs: seq<Happening>)
    requires SessionRun(ss, hs)
    ensures |ss| == |hs| + 1
  {}

  lemma StartOf(ss: seq<Session>, hs: seq<Happening>, id: string)
    requires SessionRun(ss, hs)
    ensures Applied(ss[0].t, id) == [] && Queued(ss[0].t, id) == [] && CameBetween(hs, 0, 0, id) == []
  {
    NothingYet(id);
  }

  /** Until the remote description is set, candidates wait in the order in which they came. */
  lemma {:induction false} WaitsInOrder(ss: seq<Session>, hs: seq<Happening>, k: nat, id: string)
    requires SessionRun(ss, hs) && k < |ss| && !Ready(ss[k].t, id)
    ensures Applied(ss[k].t, id) == [] && Queued(ss[k].t, id) == CameBetween(hs, 0, k, id)
  {
    hide Applied, Queued, Go, AllOpen, HandlersOk, Ready, CanGo, SessionRun, CameBetween, NewCandidate, Flushes;
    RunLength(ss, hs);
    if k == 0 {
      StartOf(ss, hs, id);
    } else {
    var s, h := ss[k - 1], hs[k - 1];
      RunStep(ss, hs, k - 1);
      if Ready(s.t, id) { StaysReady(s, h, id); }
      WaitsInOrder(ss, hs, k - 1, id);
      if Flushes(s, h, id) { FlushesReady(s, h, id); }
      InOrderStep(s, h, id);
      CameSnoc(hs, 0, k, id);
    }
  }

  lemma FlushesReady(s: Session, h: Happening, id: string)
    requires HandlersOk(s) && Flushes(s, h, id)
    ensures Ready(s.t, id)
  {}

  /** The first step after which the remote description of an id is set. */
  predicate Describes(ss: seq<Session>, d: nat, id: string) {
    d + 1 < |ss| && !Ready(ss[d].t, id) && Ready(ss[d + 1].t, id)
  }

  /** From then to the flush, those that wait keep waiting and the others are applied as they come. */
  lemma {:induction false} AppliesInOrder(ss: seq<Session>, hs: seq<Happening>, d: nat, k: nat, id: string)
    requires SessionRun(ss, hs) && Describes(ss, d, id) && d < k < |ss|
    requires forall i | d < i < k :: !Flushes(ss[i], hs[i], id)
    ensures Queued(ss[k].t, id) == CameBetween(hs, 0, d, id)
    ensures Applied(ss[k].t, id) == CameBetween(hs, d, k, id) && Ready(ss[k].t, id)
    decreases k
  {
    hide Applied, Queued, Go, AllOpen, HandlersOk, Ready, CanGo, SessionRun, CameBetween, NewCandidate, Flushes;
    RunLength(ss, hs);
    var s, h := ss[k - 1], hs[k - 1];
    RunStep(ss, hs, k - 1);
    CameSnoc(hs, d, k, id);
    if k == d + 1 {
      WaitsInOrder(ss, hs, d, id);
      SetsRemote(s, h, id);
      NoneBetween(hs, d, id);
      InOrderStep(s, h, id);
    } else {
      AppliesInOrder(ss, hs, d, k - 1, id);
      StaysReady(s, h, id);
      InOrderStep(s, h, id);
    }
  }

  /** The step that sets a remote description is no candidate and no flush. */
  lemma SetsRemote(s: Session, h: Happening, id: string)
    requires HandlersOk(s) && CanGo(s, h) && !Ready(s.t, id) && Ready(Go(s, h).t, id)
    ensures !Flushes(s, h, id) && (h.Plain? ==> NewCandidate(h.change, id) == [])
  {
    if h.Plain? && h.change.Candidate? { CandidateEffect(s.t, h.change.id, h.change.candidate, id); }
  }

  /**
   The order over a whole run: those that came before the remote description was set are
   applied together by the first flush, in their order, behind those that came between;
   whatever comes later is applied as it comes.
   */
  lemma {:induction false} FlushedInOrder(ss: seq<Session>, hs: seq<Happening>, d: nat, f: nat, k: nat, id: string)
    requires SessionRun(ss, hs) && Describes(ss, d, id) && d < f < k < |ss| && Flushes(ss[f], hs[f], id)
    requires forall i | d < i < f :: !Flushes(ss[i], hs[i], id)
    ensures Queued(ss[k].t, id) == []
    ensures Applied(ss[k].t, id) == CameBetween(hs, d, f, id) + CameBetween(hs, 0, d, id) + CameBetween(hs, f, k, id)
    decreases k
  {
    hide Applied, Queued, Go, AllOpen, HandlersOk, Ready, CanGo, SessionRun, CameBetween, NewCandidate, Flushes;
    RunLength(ss, hs);
    var s, h := ss[k - 1], hs[k - 1];
    RunStep(ss, hs, k - 1);
    StaysFlushed(ss, hs, f, k, id);
    CameSnoc(hs, f, k, id);
    NoneBetween(hs, f, id);
    if k == f + 1 {
      AppliesInOrder(ss, hs, d, f, id);
      FlushStep(s, h, id);
    } else {
      FlushedInOrder(ss, hs, d, f, k - 1, id);
      StaysFlushed(ss, hs, f, k - 1, id);
      if Flushes(s, h, id) { FlushStep(s, h, id); } else { InOrderStep(s, h, id); }
    }
  }

  lemma NoneBetween(hs: seq<Happening>, i: nat, id: string)
    requires i <= |hs|
    ensures CameBetween(hs, i, i, id) == []
  {}

  lemma FlushStep(s: Session, h: Happening, id: string)
    requires AllOpen(s.t) && HandlersOk(s) && CanGo(s, h) && Flushes(s, h, id)
    ensures Applied(Go(s, h).t, id) == Applied(s.t, id) + Queued(s.t, id) && Queued(Go(s, h).t, id) == [] && !h.Plain?
  {
    FlushesReady(s, h, id);
    FlushApplies(s.t, id);
    hide AddQueuedCandidates, Applied, Queued;
  }

  /** A handler came: an offer from a peer without an open connection, or an answer from one with a connection. */
  predicate Comes(s: Session, h: Happening, tid: nat, id: string) {
    || (h.OfferCame? && h.tid == tid && h.remoteId == id && !Connected(s.t, id))
    || (h == AnswerCame(tid, id) && id in s.t.connections)
  }

  /** Every handler under way came before. */
  lemma {:induction false} HandlerCame(ss: seq<Session>, hs: seq<Happening>, k: nat, tid: nat)
    requires SessionRun(ss, hs) && k < |ss| && tid in ss[k].handlers
    ensures exists a :: 0 <= a < k && Comes(ss[a], hs[a], tid, ss[k].handlers[tid].id)
  {
    hide Connected, Apply;
    if k > 0 {
      var s, h := ss[k - 1], hs[k - 1];
      if !Comes(s, h, tid, ss[k].handlers[tid].id) {
        HandlerCame(ss, hs, k - 1, tid);
      }
    }
  }

  /** A remote description is set by such a handler only: an offer to an open connection sets none. */
  lemma DescribedBy(ss: seq<Session>, hs: seq<Happening>, d: nat, id: string)
    requires SessionRun(ss, hs) && Describes(ss, d, id)
    ensures hs[d].Proceed? && hs[d].tid in ss[d].handlers && ss[d].handlers[hs[d].tid] == Describing(id)
    ensures exists a :: 0 <= a < d && Comes(ss[a], hs[a], hs[d].tid, id)
  {
    var s, h := ss[d], hs[d];
    RunStep(ss, hs, d);
    if ChangeOf(s, h).Some? { SetsOnlyNamed(s.t, ChangeOf(s, h).value, id); }
    HandlerCame(ss, hs, d, h.tid);
  }

  lemma SetsOnlyNamed(t: Transport, c: Change, id: string)
    requires !Ready(t, id) && Ready(Apply(t, c), id)
    ensures c == RemoteSet(id)
  {
    hide FlushAll, Configure, HandleCandidate;
    if Named(c) != id { Elsewhere(t, c, id, ""); }
    match c
    case Offer(r, l, channel) => OfferEffect(t, r, l, channel, l);
    case Offered(r, l, channel) => OfferedEffect(t, r, l, channel, l);
    case Incoming(r, l, channel) => ConfigureEffect(t, r, l, channel, l);
    case Candidate(i, candidate) => CandidateEffect(t, i, candidate, id);
    case Flush(i) => FlushAllFrame(t, i, Queued(t, i));
    case Arrived(r, l, packet) => PushEffect(t, r, l, packet, l);
    case Taken(r, l) => ShiftEffect(t, r, l, l);
    case _ =>
  }

  lemma FlushLeaves(t: Transport, id: string)
    requires Ready(t, id)
    ensures Ready(Apply(t, Flush(id)), id) && Queued(Apply(t, Flush(id)), id) == []
  {
    FlushApplies(t, id);
    FlushAllFrame(t, id, Queued(t, id));
  }
}
