/**
 Message delivery: "queue, emit, once, shift". An arriving message is queued and an
 emit is started, which remembers the listeners of that moment and later calls
 those still registered; recv takes the queue head, or listens once and shifts the
 queue when it is resumed.
 */
module Delivery {
  import opened TransportState

  datatype Key = Key(remoteId: string, localId: string)

  /** A pending emit: the listeners when it started, and its message. */
  datatype Emit = Emit(listeners: set<nat>, packet: Packet)

  /**
   The event queue of one key: pending emits in order, registered listeners, and
   woken receivers not yet resumed. `returned` and `received` are history.
   */
  datatype Lane = Lane(
    emits: seq<Emit>,
    waiting: set<nat>,
    woken: map<nat, Packet>,
    returned: seq<Packet>,
    received: seq<Packet>)

  const QUIET := Lane([], {}, map[], [], [])

  /** `next` is the identity the next listener will get. */
  datatype Inlet = Inlet(t: Transport, lanes: map<Key, Lane>, next: nat)

  const FIRST := Inlet(EMPTY, map[], 0)

  datatype Step =
    | Arrive(key: Key, packet: Packet)
    | Fire(key: Key)
    | Recv(key: Key)
    | Resume(key: Key, listener: nat)
    | Other(change: Change)

  function LaneOf(w: Inlet, key: Key): Lane { if key in w.lanes then w.lanes[key] else QUIET }

  function QueueOf(w: Inlet, key: Key): seq<Packet> { Queue(w.t, key.remoteId, key.localId) }

  /** Other changes are anything but arrivals, receptions and shutdowns, which have steps of their own or none. */
  predicate CanStep(w: Inlet, s: Step) {
    match s
    case Arrive(_, _) => true
    case Fire(key) => LaneOf(w, key).emits != []
    case Recv(_) => true
    case Resume(key, listener) => listener in LaneOf(w, key).woken
    case Other(c) => !c.Arrived? && !c.Taken? && !c.Stopped?
  }

  /** The listeners of an emit that are still registered when it is carried out. */
  function Called(emit: Emit, lane: Lane): set<nat> { emit.listeners * lane.waiting }

  function StepTo(w: Inlet, s: Step): Inlet
    requires CanStep(w, s)
  {
    match s
    case Arrive(key, packet) =>
      var lane := LaneOf(w, key);
      (match Push(w.t, key.remoteId, key.localId, packet)
       case None => w
       case Some(t) =>
         w.(t := t,
            lanes := w.lanes[key := lane.(emits := lane.emits + [Emit(lane.waiting, packet)],
                                            received := lane.received + [packet])]))
    case Fire(key) =>
      var lane := LaneOf(w, key);
      var emit := lane.emits[0];
      var called := Called(emit, lane);
      w.(lanes := w.lanes[key := lane.(
           emits := lane.emits[1..],
           waiting := lane.waiting - called,
           woken := map l | l in lane.woken.Keys + called :: if l in called then emit.packet else lane.woken[l])])
    case Recv(key) =>
      var lane, queue := LaneOf(w, key), QueueOf(w, key);
      if queue != [] then
        w.(t := Shift(w.t, key.remoteId, key.localId),
           lanes := w.lanes[key := lane.(returned := lane.returned + [queue[0]])])
      else w.(lanes := w.lanes[key := lane.(waiting := lane.waiting + {w.next})], next := w.next + 1)
    case Resume(key, listener) =>
      var lane := LaneOf(w, key);
      w.(t := Shift(w.t, key.remoteId, key.localId),
         lanes := w.lanes[key := lane.(woken := lane.woken - {listener},
                                             returned := lane.returned + [lane.woken[listener]])])
    case Other(c) => w.(t := Apply(w.t, c))
  }

  ghost predicate InletRun(ws: seq<Inlet>, ss: seq<Step>) {
    && |ws| == |ss| + 1 && ws[0] == FIRST
    && forall k | 0 <= k < |ss| :: CanStep(ws[k], ss[k]) && ws[k + 1] == StepTo(ws[k], ss[k])
  }

  /** No recv of this key starts while another one of it is outstanding. */
  ghost predicate OneAtATime(ws: seq<Inlet>, ss: seq<Step>, key: Key)
    requires InletRun(ws, ss)
  {
    forall k | 0 <= k < |ss| :: ss[k] == Recv(key) ==> Idle(LaneOf(ws[k], key))
  }

  predicate Idle(lane: Lane) { lane.waiting == {} && lane.woken == map[] }

  // ---------------------------------------------------------- the invariant

  /** Identities already given out. */
  ghost predicate OldListeners(lane: Lane, next: nat) {
    && (forall l | l in lane.waiting :: l < next)
    && (forall i, l | 0 <= i < |lane.emits| && l in lane.emits[i].listeners :: l < next)
  }

  /**
   A waiting listener: the emits of the queued messages, and only those, know it;
   they are the last ones pending, in queue order.
   */
  ghost predicate Awaiting(lane: Lane, queue: seq<Packet>, listener: nat) {
    var stale := |lane.emits| - |queue|;
    && lane.waiting == {listener} && lane.woken == map[] && stale >= 0
    && (forall i | 0 <= i < stale :: listener !in lane.emits[i].listeners)
    && (forall i | stale <= i < |lane.emits| :: listener in lane.emits[i].listeners)
    && (forall i | stale <= i < |lane.emits| :: lane.emits[i].packet == queue[i - stale])
  }

  /** A woken receiver holds the queue head. */
  ghost predicate Woken(lane: Lane, queue: seq<Packet>, listener: nat) {
    && lane.waiting == {} && lane.woken.Keys == {listener}
    && queue != [] && lane.woken[listener] == queue[0]
  }

  ghost predicate LaneInv(lane: Lane, queue: seq<Packet>, next: nat) {
    && OldListeners(lane, next)
    && lane.returned + queue == lane.received
    && (Idle(lane) || exists l: nat :: Awaiting(lane, queue, l) || Woken(lane, queue, l))
  }

  ghost predicate InletInv(w: Inlet, key: Key) {
    Coupled(w.t) && LaneInv(LaneOf(w, key), QueueOf(w, key), w.next)
  }

  lemma ArriveLane(lane: Lane, queue: seq<Packet>, next: nat, packet: Packet)
    requires LaneInv(lane, queue, next)
    ensures LaneInv(lane.(emits := lane.emits + [Emit(lane.waiting, packet)], received := lane.received + [packet]),
                    queue + [packet], next)
  {
    var after := lane.(emits := lane.emits + [Emit(lane.waiting, packet)], received := lane.received + [packet]);
    if !Idle(lane) {
      var l: nat :| Awaiting(lane, queue, l) || Woken(lane, queue, l);
      assert Awaiting(after, queue + [packet], l) || Woken(after, queue + [packet], l);
    }
  }

  lemma FireLane(lane: Lane, queue: seq<Packet>, next: nat)
    requires LaneInv(lane, queue, next) && lane.emits != []
    ensures var called := Called(lane.emits[0], lane);
      LaneInv(lane.(emits := lane.emits[1..],
                    waiting := lane.waiting - called,
                    woken := map l | l in lane.woken.Keys + called ::
                      if l in called then lane.emits[0].packet else lane.woken[l]),
              queue, next)
  {
    var called := Called(lane.emits[0], lane);
    var after := lane.(emits := lane.emits[1..],
                       waiting := lane.waiting - called,
                       woken := map l | l in lane.woken.Keys + called ::
                         if l in called then lane.emits[0].packet else lane.woken[l]);
    if Idle(lane) {
      assert Idle(after);
    } else {
      var l: nat :| Awaiting(lane, queue, l) || Woken(lane, queue, l);
      if Awaiting(lane, queue, l) && |lane.emits| == |queue| {
        assert l in lane.emits[0].listeners;
        assert called == {l};
        assert Woken(after, queue, l);
      } else if Awaiting(lane, queue, l) {
        assert called == {};
        assert after.woken == map[];
        assert Awaiting(after, queue, l);
      } else {
        assert called == {};
        assert Woken(after, queue, l);
      }
    }
  }

  lemma RecvLane(lane: Lane, queue: seq<Packet>, next: nat)
    requires LaneInv(lane, queue, next) && Idle(lane)
    ensures queue != [] ==> LaneInv(lane.(returned := lane.returned + [queue[0]]), queue[1..], next)
    ensures queue == [] ==> LaneInv(lane.(waiting := lane.waiting + {next}), queue, next + 1)
  {
    if queue == [] {
      assert Awaiting(lane.(waiting := lane.waiting + {next}), queue, next);
    } else {
      assert queue == [queue[0]] + queue[1..];
      assert Idle(lane.(returned := lane.returned + [queue[0]]));
    }
  }

  lemma ResumeLane(lane: Lane, queue: seq<Packet>, next: nat, listener: nat)
    requires LaneInv(lane, queue, next) && listener in lane.woken
    ensures queue != [] && lane.woken[listener] == queue[0]
    ensures LaneInv(lane.(woken := lane.woken - {listener}, returned := lane.returned + [lane.woken[listener]]),
      queue[1..], next)
  {
    var l: nat :| Awaiting(lane, queue, l) || Woken(lane, queue, l);
    assert l == listener;
    assert queue == [queue[0]] + queue[1..];
    assert Idle(lane.(woken := lane.woken - {listener}, returned := lane.returned + [lane.woken[listener]]));
  }

  lemma NextGrows(lane: Lane, queue: seq<Packet>, next: nat, more: nat)
    requires LaneInv(lane, queue, next) && next <= more
    ensures LaneInv(lane, queue, more)
  {
    if !Idle(lane) {
      var l: nat :| Awaiting(lane, queue, l) || Woken(lane, queue, l);
    }
  }

  /** What a step does to the queue of a key. */
  lemma QueueAfter(w: Inlet, s: Step, key: Key)
    requires CanStep(w, s) && Coupled(w.t)
    ensures var w' := StepTo(w, s);
      && Coupled(w'.t)
      && QueueOf(w', key) ==
           match s
           case Arrive(k, packet) =>
             if k == key && HasChannel(w.t, key.remoteId, key.localId) then QueueOf(w, key) + [packet]
             else QueueOf(w, key)
           case Recv(k) => if k == key && QueueOf(w, key) != [] then QueueOf(w, key)[1..] else QueueOf(w, key)
           case Resume(k, _) => if k == key && QueueOf(w, key) != [] then QueueOf(w, key)[1..] else QueueOf(w, key)
           case _ => QueueOf(w, key)
  {
    match s
    case Arrive(k, packet) => CoupledStep(w.t, Arrived(k.remoteId, k.localId, packet));
    case Recv(k) => CoupledStep(w.t, Taken(k.remoteId, k.localId));
    case Resume(k, _) => CoupledStep(w.t, Taken(k.remoteId, k.localId));
    case Other(c) =>
      CoupledStep(w.t, c);
      OtherQueue(w.t, c, key.remoteId, key.localId);
    case _ =>
  }

  lemma OtherQueue(t: Transport, c: Change, r: string, l: string)
    requires !c.Arrived? && !c.Taken? && !c.Stopped?
    ensures Queue(Apply(t, c), r, l) == Queue(t, r, l)
  {
    match c
    case Offer(ri, li, channel) =>
      ConfigureKeepsQueues(t, ri, li, channel, r, l);
      ConfigureKeepsQueues(t.(connections := t.connections[ri := Link(false, false)]), ri, li, channel, r, l);
    case Offered(ri, li, channel) => ConfigureKeepsQueues(t, ri, li, channel, r, l);
    case Incoming(name, li, channel) => ConfigureKeepsQueues(t, name, li, channel, r, l);
    case Flush(id) => FlushAllFrame(t, id, Queued(t, id));
    case _ =>
  }

  lemma InletStep(w: Inlet, s: Step, key: Key)
    requires InletInv(w, key) && CanStep(w, s) && (s == Recv(key) ==> Idle(LaneOf(w, key)))
    ensures InletInv(StepTo(w, s), key)
  {
    hide LaneInv, Coupled, Apply, Shift, Queue, HasChannel, HasQueue;
    var lane, queue := LaneOf(w, key), QueueOf(w, key);
    QueueAfter(w, s, key);
    match s
    case Arrive(k, packet) => if k == key { ArriveLane(lane, queue, w.next, packet); }
    case Fire(k) => if k == key { FireLane(lane, queue, w.next); }
    case Recv(k) =>
      NextGrows(lane, queue, w.next, w.next + 1);
      if k == key { RecvLane(lane, queue, w.next); }
    case Resume(k, listener) => if k == key { ResumeLane(lane, queue, w.next, listener); }
    case Other(_) =>
  }

  lemma {:induction false} InletHolds(ws: seq<Inlet>, ss: seq<Step>, k: nat, key: Key)
    requires InletRun(ws, ss) && OneAtATime(ws, ss, key) && k < |ws|
    ensures InletInv(ws[k], key)
  {
    if k > 0 {
      InletHolds(ws, ss, k - 1, key);
      InletStep(ws[k - 1], ss[k - 1], key);
    }
  }

  /**
   Exactly once and in order: in every state of every run in which recv calls of a
   key do not overlap, what recv returned followed by what is queued is what was
   received, and a woken receiver holds the head of the queue.
   */
  lemma ExactlyOnceInOrder(ws: seq<Inlet>, ss: seq<Step>, k: nat, key: Key)
    requires InletRun(ws, ss) && OneAtATime(ws, ss, key) && k < |ws|
    ensures LaneOf(ws[k], key).returned + QueueOf(ws[k], key) == LaneOf(ws[k], key).received
    ensures forall l | l in LaneOf(ws[k], key).woken ::
              QueueOf(ws[k], key) != [] && LaneOf(ws[k], key).woken[l] == QueueOf(ws[k], key)[0]
  {
    InletHolds(ws, ss, k, key);
  }

  /**
   No wakeup is lost: while a receiver waits and a message is queued, a pending emit
   will call that receiver with the head of the queue; every emit before it will
   not call anybody.
   */
  lemma NoLostWakeup(ws: seq<Inlet>, ss: seq<Step>, k: nat, key: Key, listener: nat)
    requires InletRun(ws, ss) && OneAtATime(ws, ss, key) && k < |ws|
    requires listener in LaneOf(ws[k], key).waiting && QueueOf(ws[k], key) != []
    ensures var lane, queue := LaneOf(ws[k], key), QueueOf(ws[k], key);
      exists i :: 0 <= i < |lane.emits|
        && lane.emits[i].packet == queue[0] && Called(lane.emits[i], lane) == {listener}
        && forall j | 0 <= j < i :: Called(lane.emits[j], lane) == {}
  {
    InletHolds(ws, ss, k, key);
    var lane, queue := LaneOf(ws[k], key), QueueOf(ws[k], key);
    var l: nat :| Awaiting(lane, queue, l) || Woken(lane, queue, l);
    var stale := |lane.emits| - |queue|;
    assert listener in lane.emits[stale].listeners && lane.emits[stale].packet == queue[0];
    assert Called(lane.emits[stale], lane) == {listener};
    forall j | 0 <= j < stale ensures Called(lane.emits[j], lane) == {} {
      assert listener !in lane.emits[j].listeners;
    }
  }

  /**
   Two overlapping recv calls of one key are both woken by the same emit: from any
   state with a channel, an empty queue and nothing pending, the next message is
   returned twice.
   */
  lemma OverlapDuplicates(w: Inlet, key: Key, packet: Packet)
    requires HasChannel(w.t, key.remoteId, key.localId) && HasQueue(w.t, key.remoteId, key.localId)
    requires QueueOf(w, key) == [] && Idle(LaneOf(w, key)) && LaneOf(w, key).emits == []
    ensures var w2 := StepTo(StepTo(w, Recv(key)), Recv(key));
      var w3 := StepTo(w2, Arrive(key, packet));
      && CanStep(w3, Fire(key))
      && var w4 := StepTo(w3, Fire(key));
      && CanStep(w4, Resume(key, w.next))
      && var w5 := StepTo(w4, Resume(key, w.next));
      && CanStep(w5, Resume(key, w.next + 1))
      && var w6 := StepTo(w5, Resume(key, w.next + 1));
      && LaneOf(w6, key).returned == LaneOf(w, key).returned + [packet, packet]
      && LaneOf(w6, key).received == LaneOf(w, key).received + [packet]
  {
    hide Shift;
    var w1 := StepTo(w, Recv(key));
    var w2 := StepTo(w1, Recv(key));
    assert LaneOf(w2, key).waiting == {w.next, w.next + 1};
    var w3 := StepTo(w2, Arrive(key, packet));
    assert LaneOf(w3, key).emits == [Emit({w.next, w.next + 1}, packet)];
    var w4 := StepTo(w3, Fire(key));
    assert LaneOf(w4, key).woken == map[w.next := packet, w.next + 1 := packet];
  }
}
