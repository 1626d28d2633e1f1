/** The transporter's four maps and the operations on them, as functions. */
module TransportState {
  import opened Wrappers

  type Packet = seq<bv8>

  /** A peer connection, as far as this model sees it. */
  datatype Link = Link(closed: bool, remoteSet: bool)

  /** `applied` is history: the candidates handed to addIceCandidate, by connection id. */
  datatype Transport = Transport(
    connections: map<string, Link>,
    channels: map<string, map<string, nat>>,
    messages: map<string, map<string, seq<Packet>>>,
    candidates: map<string, seq<string>>,
    applied: map<string, seq<string>>)

  const EMPTY := Transport(map[], map[], map[], map[], map[])

  predicate HasChannel(t: Transport, remoteId: string, localId: string) {
    remoteId in t.channels && localId in t.channels[remoteId]
  }

  /** The channel registered for a pair. */
  function ChannelOf(t: Transport, remoteId: string, localId: string): Option<nat> {
    if HasChannel(t, remoteId, localId) then Some(t.channels[remoteId][localId]) else None
  }

  predicate HasQueue(t: Transport, remoteId: string, localId: string) {
    remoteId in t.messages && localId in t.messages[remoteId]
  }

  function Queue(t: Transport, remoteId: string, localId: string): seq<Packet> {
    if HasQueue(t, remoteId, localId) then t.messages[remoteId][localId] else []
  }

  function AddDataChannel(t: Transport, remoteId: string, localId: string, channel: nat): Transport {
    var inner := if remoteId in t.channels then t.channels[remoteId] else map[];
    t.(channels := t.channels[remoteId := inner[localId := channel]])
  }

  function AddQueueMessages(t: Transport, remoteId: string, localId: string, packets: seq<Packet>): Transport {
    var inner := if remoteId in t.messages then t.messages[remoteId] else map[];
    t.(messages := t.messages[remoteId := inner[localId := packets]])
  }

  /** dataChannelConfiguration: register the channel, keep a non-empty queue, else start one. */
  function Configure(t: Transport, remoteId: string, localId: string, channel: nat): Transport {
    var added := AddDataChannel(t, remoteId, localId, channel);
    AddQueueMessages(added, remoteId, localId, Queue(t, remoteId, localId))
  }

  predicate Connected(t: Transport, id: string) { id in t.connections && !t.connections[id].closed }

  /** getOffer up to its first await: an open connection only gets a missing channel. */
  function GetOffer(t: Transport, remoteId: string, localId: string, channel: nat): Transport {
    if Connected(t, remoteId) then
      if HasChannel(t, remoteId, localId) then t else Configure(t, remoteId, localId, channel)
    else Configure(t.(connections := t.connections[remoteId := Link(false, false)]), remoteId, localId, channel)
  }

  /** handleOffer up to its first await. */
  function HandleOffer(t: Transport, remoteId: string, localId: string, channel: nat): Transport {
    if Connected(t, remoteId) then
      if HasChannel(t, remoteId, localId) then t else Configure(t, remoteId, localId, channel)
    else t.(connections := t.connections[remoteId := Link(false, false)])
  }

  /** setRemoteDescription took effect. */
  function SetRemote(t: Transport, id: string): Transport {
    if id in t.connections then t.(connections := t.connections[id := t.connections[id].(remoteSet := true)]) else t
  }

  /** The synchronous part of queueAndEmitMessage; None stands for ChannelDoesNotExistError. */
  function Push(t: Transport, remoteId: string, localId: string, packet: Packet): Option<Transport> {
    if !HasChannel(t, remoteId, localId) then None
    else if !HasQueue(t, remoteId, localId) then Some(t)
    else Some(AddQueueMessages(t, remoteId, localId, Queue(t, remoteId, localId) + [packet]))
  }

  /** `.shift()` on the queue, if there is one. */
  function Shift(t: Transport, remoteId: string, localId: string): Transport {
    if Queue(t, remoteId, localId) == [] then t
    else AddQueueMessages(t, remoteId, localId, Queue(t, remoteId, localId)[1..])
  }

  predicate Ready(t: Transport, id: string) { id in t.connections && t.connections[id].remoteSet }

  function Queued(t: Transport, id: string): seq<string> { if id in t.candidates then t.candidates[id] else [] }

  function Applied(t: Transport, id: string): seq<string> { if id in t.applied then t.applied[id] else [] }

  function HandleCandidate(t: Transport, id: string, candidate: string): Transport {
    if Ready(t, id) then t.(applied := t.applied[id := Applied(t, id) + [candidate]])
    else t.(candidates := t.candidates[id := Queued(t, id) + [candidate]])
  }

  /** One round of the flush loop: the map entry is filtered, then the candidate is handled. */
  function FlushOne(t: Transport, id: string, candidate: string): Transport {
    HandleCandidate(t.(candidates := t.candidates[id := Without(Queued(t, id), candidate)]), id, candidate)
  }

  /** The flush loop over the array it started with. */
  function FlushAll(t: Transport, id: string, entries: seq<string>): Transport {
    if entries == [] then t else FlushOne(FlushAll(t, id, entries[..|entries| - 1]), id, entries[|entries| - 1])
  }

  function AddQueuedCandidates(t: Transport, id: string): Transport { FlushAll(t, id, Queued(t, id)) }

  function Shutdown(t: Transport, id: string): Transport {
    Transport(t.connections - {id}, t.channels - {id}, t.messages - {id}, t.candidates - {id}, t.applied)
  }

  lemma ConfigureKeepsQueues(t: Transport, remoteId: string, localId: string, channel: nat, r: string, l: string)
    ensures Queue(Configure(t, remoteId, localId, channel), r, l) == Queue(t, r, l)
  {}

  // ----------------------------------------------- channels and their queues

  /** A pair has a registered channel exactly when it has a queue. */
  ghost predicate Coupled(t: Transport) {
    forall r: string, l: string :: HasChannel(t, r, l) <==> HasQueue(t, r, l)
  }

  datatype Change =
    | Offer(remoteId: string, localId: string, channel: nat)
    | Offered(remoteId: string, localId: string, channel: nat)
    | Incoming(name: string, localId: string, channel: nat)
    | RemoteSet(id: string)
    | Candidate(id: string, candidate: string)
    | Flush(id: string)
    | Arrived(remoteId: string, localId: string, packet: Packet)
    | Taken(remoteId: string, localId: string)
    | Lost(id: string)
    | Stopped(id: string)

  function Apply(t: Transport, c: Change): Transport {
    match c
    case Offer(r, l, channel) => GetOffer(t, r, l, channel)
    case Offered(r, l, channel) => HandleOffer(t, r, l, channel)
    case Incoming(name, l, channel) => Configure(t, name, l, channel)
    case RemoteSet(id) => SetRemote(t, id)
    case Candidate(id, candidate) => HandleCandidate(t, id, candidate)
    case Flush(id) => AddQueuedCandidates(t, id)
    case Arrived(r, l, packet) => (match Push(t, r, l, packet) case Some(pushed) => pushed case None => t)
    case Taken(r, l) => Shift(t, r, l)
    case Lost(id) =>
      if id in t.connections then t.(connections := t.connections[id := t.connections[id].(closed := true)]) else t
    case Stopped(id) => Shutdown(t, id)
  }

  function ApplyAll(changes: seq<Change>): Transport {
    if changes == [] then EMPTY else Apply(ApplyAll(changes[..|changes| - 1]), changes[|changes| - 1])
  }

  lemma {:induction false} FlushAllFrame(t: Transport, id: string, entries: seq<string>)
    ensures var t' := FlushAll(t, id, entries);
      t'.channels == t.channels && t'.messages == t.messages && t'.connections == t.connections
  {
    if entries != [] {
      FlushAllFrame(t, id, entries[..|entries| - 1]);
    }
  }

  lemma ConfigureCoupled(t: Transport, remoteId: string, localId: string, channel: nat)
    requires Coupled(t)
    ensures Coupled(Configure(t, remoteId, localId, channel))
  {
    var t' := Configure(t, remoteId, localId, channel);
    forall r: string, l: string ensures HasChannel(t', r, l) <==> HasQueue(t', r, l) {
      assert HasChannel(t, r, l) <==> HasQueue(t, r, l);
    }
  }

  lemma StoppedCoupled(t: Transport, id: string)
    requires Coupled(t)
    ensures Coupled(Shutdown(t, id))
  {
    forall r: string, l: string ensures HasChannel(Shutdown(t, id), r, l) <==> HasQueue(Shutdown(t, id), r, l) {
      assert HasChannel(t, r, l) <==> HasQueue(t, r, l);
    }
  }

  /** The same channels and the same queues, whatever is in them. */
  lemma SameKeysCoupled(t: Transport, t': Transport)
    requires Coupled(t) && t'.channels == t.channels
    requires forall r: string, l: string :: HasQueue(t', r, l) <==> HasQueue(t, r, l)
    ensures Coupled(t')
  {
    forall r: string, l: string ensures HasChannel(t', r, l) <==> HasQueue(t', r, l) {
      assert HasChannel(t, r, l) <==> HasQueue(t, r, l);
    }
  }

  lemma CoupledStep(t: Transport, c: Change)
    requires Coupled(t)
    ensures Coupled(Apply(t, c))
  {
    match c
    case Offer(r, l, channel) =>
      ConfigureCoupled(t, r, l, channel);
      var linked := t.(connections := t.connections[r := Link(false, false)]);
      SameKeysCoupled(t, linked);
      ConfigureCoupled(linked, r, l, channel);
    case Offered(r, l, channel) =>
      ConfigureCoupled(t, r, l, channel);
      SameKeysCoupled(t, t.(connections := t.connections[r := Link(false, false)]));
    case Incoming(name, l, channel) => ConfigureCoupled(t, name, l, channel);
    case Flush(id) => FlushAllFrame(t, id, Queued(t, id)); SameKeysCoupled(t, Apply(t, c));
    case Stopped(id) => StoppedCoupled(t, id);
    case _ => SameKeysCoupled(t, Apply(t, c));
  }

  /**
   In every reachable state a pair has a channel exactly when it has a queue; so a
   message that passes the channel check is always queued.
   */
  lemma {:induction false} ChannelIffQueue(changes: seq<Change>, r: string, l: string, packet: Packet)
    ensures HasChannel(ApplyAll(changes), r, l) <==> HasQueue(ApplyAll(changes), r, l)
    ensures Coupled(ApplyAll(changes))
    ensures var t, pushed := ApplyAll(changes), Push(ApplyAll(changes), r, l, packet);
      pushed.Some? ==> Queue(pushed.value, r, l) == Queue(t, r, l) + [packet]
  {
    if changes != [] {
      ChannelIffQueue(changes[..|changes| - 1], r, l, packet);
      CoupledStep(ApplyAll(changes[..|changes| - 1]), changes[|changes| - 1]);
    }
  }

  // ------------------------------------------------- what each operation does

  /**
   A candidate is applied at once with a remote description, after what was applied
   before; without one it waits behind what was queued before. Nothing else moves.
   */
  lemma CandidateEffect(t: Transport, received: string, candidate: string, id: string)
    ensures var t' := HandleCandidate(t, received, candidate);
      && t'.connections == t.connections && t'.channels == t.channels && t'.messages == t.messages
      && (received == id && Ready(t, id) ==>
            Applied(t', id) == Applied(t, id) + [candidate] && Queued(t', id) == Queued(t, id))
      && (received == id && !Ready(t, id) ==>
            Applied(t', id) == Applied(t, id) && Queued(t', id) == Queued(t, id) + [candidate])
      && (received != id ==> Applied(t', id) == Applied(t, id) && Queued(t', id) == Queued(t, id))
  {}

  /** The connection id an operation is about. */
  function Named(c: Change): string {
    match c
    case Offer(r, _, _) => r
    case Offered(r, _, _) => r
    case Incoming(name, _, _) => name
    case RemoteSet(id) => id
    case Candidate(id, _) => id
    case Flush(id) => id
    case Arrived(r, _, _) => r
    case Taken(r, _) => r
    case Lost(id) => id
    case Stopped(id) => id
  }

  function LinkOf(t: Transport, id: string): Option<Link> {
    if id in t.connections then Some(t.connections[id]) else None
  }

  /** Connection, channel, queue and candidates of an id are as they were. */
  predicate Unmoved(t: Transport, t': Transport, r: string, l: string) {
    && LinkOf(t', r) == LinkOf(t, r) && ChannelOf(t', r, l) == ChannelOf(t, r, l)
    && (HasQueue(t', r, l) <==> HasQueue(t, r, l)) && Queue(t', r, l) == Queue(t, r, l)
    && Queued(t', r) == Queued(t, r) && Applied(t', r) == Applied(t, r)
  }

  lemma ConfigureElsewhere(t: Transport, remoteId: string, localId: string, channel: nat, r: string, l: string)
    requires r != remoteId
    ensures Unmoved(t, Configure(t, remoteId, localId, channel), r, l)
  {}

  lemma ConnectsElsewhere(t: Transport, remoteId: string, link: Link, r: string, l: string)
    requires r != remoteId
    ensures Unmoved(t, t.(connections := t.connections[remoteId := link]), r, l)
  {}

  lemma QueueElsewhere(t: Transport, remoteId: string, localId: string, packets: seq<Packet>, r: string, l: string)
    requires r != remoteId
    ensures Unmoved(t, AddQueueMessages(t, remoteId, localId, packets), r, l)
  {}

  lemma CandidateElsewhere(t: Transport, id: string, candidate: string, r: string, l: string)
    requires r != id
    ensures Unmoved(t, HandleCandidate(t, id, candidate), r, l)
  {}

  lemma StoppedElsewhere(t: Transport, id: string, r: string, l: string)
    requires r != id
    ensures Unmoved(t, Shutdown(t, id), r, l)
  {}

  lemma {:induction false} FlushElsewhere(t: Transport, id: string, entries: seq<string>, r: string, l: string)
    requires r != id
    ensures Unmoved(t, FlushAll(t, id, entries), r, l)
  {
    if entries != [] {
      var init, last := entries[..|entries| - 1], entries[|entries| - 1];
      FlushElsewhere(t, id, init, r, l);
      var before := FlushAll(t, id, init);
      var filtered := before.(candidates := before.candidates[id := Without(Queued(before, id), last)]);
      CandidateElsewhere(filtered, id, last, r, l);
      hide FlushAll, Without, HandleCandidate;
    }
  }

  /** No operation touches connection, channels, queues or candidates of another id. */
  lemma Elsewhere(t: Transport, c: Change, r: string, l: string)
    requires r != Named(c)
    ensures Unmoved(t, Apply(t, c), r, l)
  {
    hide FlushAll, Configure, AddQueueMessages, HandleCandidate, Shutdown, HasQueue, Queue, HasChannel, LinkOf,
         Queued, Applied;
    match c
    case Offer(remoteId, localId, channel) =>
      ConfigureElsewhere(t, remoteId, localId, channel, r, l);
      ConnectsElsewhere(t, remoteId, Link(false, false), r, l);
      var linked := t.(connections := t.connections[remoteId := Link(false, false)]);
      ConfigureElsewhere(linked, remoteId, localId, channel, r, l);
    case Offered(remoteId, localId, channel) =>
      ConfigureElsewhere(t, remoteId, localId, channel, r, l);
      ConnectsElsewhere(t, remoteId, Link(false, false), r, l);
    case Incoming(name, localId, channel) => ConfigureElsewhere(t, name, localId, channel, r, l);
    case RemoteSet(id) =>
      if id in t.connections { ConnectsElsewhere(t, id, t.connections[id].(remoteSet := true), r, l); }
    case Candidate(id, candidate) => CandidateElsewhere(t, id, candidate, r, l);
    case Flush(id) => FlushElsewhere(t, id, Queued(t, id), r, l);
    case Arrived(remoteId, localId, packet) =>
      QueueElsewhere(t, remoteId, localId, Queue(t, remoteId, localId) + [packet], r, l);
    case Taken(remoteId, localId) =>
      if Queue(t, remoteId, localId) != [] {
        QueueElsewhere(t, remoteId, localId, Queue(t, remoteId, localId)[1..], r, l);
      }
    case Lost(id) => if id in t.connections { ConnectsElsewhere(t, id, t.connections[id].(closed := true), r, l); }
    case Stopped(id) => StoppedElsewhere(t, id, r, l);
  }

  /** A configured channel is the one registered; queues keep what was in them. */
  lemma ConfigureEffect(t: Transport, remoteId: string, localId: string, channel: nat, l: string)
    ensures var t' := Configure(t, remoteId, localId, channel);
      && ChannelOf(t', remoteId, l) == (if l == localId then Some(channel) else ChannelOf(t, remoteId, l))
      && Queue(t', remoteId, l) == Queue(t, remoteId, l)
      && t'.connections == t.connections && t'.candidates == t.candidates && t'.applied == t.applied
  {}

  /**
   An offer to a peer without an open connection makes one, without a remote description,
   and registers the channel; with an open one it registers the channel only if it is missing.
   */
  lemma OfferEffect(t: Transport, remoteId: string, localId: string, channel: nat, l: string)
    ensures var t' := GetOffer(t, remoteId, localId, channel);
      && LinkOf(t', remoteId) == (if Connected(t, remoteId) then LinkOf(t, remoteId) else Some(Link(false, false)))
      && Connected(t', remoteId) && (Ready(t', remoteId) <==> Connected(t, remoteId) && Ready(t, remoteId))
      && ChannelOf(t', remoteId, l) ==
           (if l != localId || (Connected(t, remoteId) && HasChannel(t, remoteId, localId))
            then ChannelOf(t, remoteId, l) else Some(channel))
      && Queue(t', remoteId, l) == Queue(t, remoteId, l)
      && t'.candidates == t.candidates && t'.applied == t.applied
  {
    ConfigureEffect(t, remoteId, localId, channel, l);
    ConfigureEffect(t.(connections := t.connections[remoteId := Link(false, false)]), remoteId, localId, channel, l);
    hide Configure;
  }

  /** A received offer does the same, but a new connection gets no channel yet. */
  lemma OfferedEffect(t: Transport, remoteId: string, localId: string, channel: nat, l: string)
    ensures var t' := HandleOffer(t, remoteId, localId, channel);
      && LinkOf(t', remoteId) == (if Connected(t, remoteId) then LinkOf(t, remoteId) else Some(Link(false, false)))
      && Connected(t', remoteId) && (Ready(t', remoteId) <==> Connected(t, remoteId) && Ready(t, remoteId))
      && ChannelOf(t', remoteId, l) ==
           (if l == localId && Connected(t, remoteId) && !HasChannel(t, remoteId, localId)
            then Some(channel) else ChannelOf(t, remoteId, l))
      && Queue(t', remoteId, l) == Queue(t, remoteId, l)
      && t'.candidates == t.candidates && t'.applied == t.applied
  {
    ConfigureEffect(t, remoteId, localId, channel, l);
    hide Configure;
  }

  /** A remote description is set on the connection, if there is one, and closes nothing. */
  lemma RemoteSetEffect(t: Transport, id: string)
    ensures var t' := SetRemote(t, id);
      && (Ready(t', id) <==> id in t.connections) && (Connected(t', id) <==> Connected(t, id))
      && t'.channels == t.channels && t'.messages == t.messages && t'.candidates == t.candidates
           && t'.applied == t.applied
  {}

  /** A lost connection is closed, and stays on record until the shutdown that follows. */
  lemma LostEffect(t: Transport, id: string)
    ensures var t' := Apply(t, Lost(id));
      && !Connected(t', id) && (id in t'.connections <==> id in t.connections)
      && t'.channels == t.channels && t'.messages == t.messages
      && t'.candidates == t.candidates && t'.applied == t.applied
  {}

  /** A message is queued behind the others of its pair exactly when the pair has a channel and a queue. */
  lemma PushEffect(t: Transport, remoteId: string, localId: string, packet: Packet, l: string)
    ensures Push(t, remoteId, localId, packet).Some? <==> HasChannel(t, remoteId, localId)
    ensures HasChannel(t, remoteId, localId) ==>
      var t' := Push(t, remoteId, localId, packet).value;
      && Queue(t', remoteId, l) == Queue(t, remoteId, l) +
           (if l == localId && HasQueue(t, remoteId, localId) then [packet] else [])
      && t'.connections == t.connections && t'.channels == t.channels
      && t'.candidates == t.candidates && t'.applied == t.applied
  {}

  /** The head of a queue is taken, if there is one. */
  lemma ShiftEffect(t: Transport, remoteId: string, localId: string, l: string)
    ensures var t' := Shift(t, remoteId, localId);
      && Queue(t', remoteId, l) ==
           (if l == localId && Queue(t, remoteId, l) != [] then Queue(t, remoteId, l)[1..] else Queue(t, remoteId, l))
      && (HasQueue(t', remoteId, l) <==> HasQueue(t, remoteId, l))
      && t'.connections == t.connections && t'.channels == t.channels
      && t'.candidates == t.candidates && t'.applied == t.applied
  {}

  /** A shutdown leaves nothing of its id but the history. */
  lemma ShutdownEffect(t: Transport, id: string, l: string)
    ensures var t' := Shutdown(t, id);
      && LinkOf(t', id) == None && !Connected(t', id) && !Ready(t', id)
      && ChannelOf(t', id, l) == None && !HasQueue(t', id, l) && Queue(t', id, l) == []
      && id !in t'.candidates && Queued(t', id) == [] && t'.applied == t.applied
  {}

  /** So the next offer makes a new connection, and candidates wait again. */
  lemma StartsAfresh(t: Transport, id: string, localId: string, channel: nat, candidate: string)
    ensures !Connected(Shutdown(t, id), id)
    ensures var t' := GetOffer(Shutdown(t, id), id, localId, channel);
      && LinkOf(t', id) == Some(Link(false, false)) && ChannelOf(t', id, localId) == Some(channel)
      && Queue(t', id, localId) == [] && Queued(HandleCandidate(t', id, candidate), id) == [candidate]
      && Applied(HandleCandidate(t', id, candidate), id) == Applied(t, id)
  {
    ShutdownEffect(t, id, localId);
    OfferEffect(Shutdown(t, id), id, localId, channel, localId);
    var t' := GetOffer(Shutdown(t, id), id, localId, channel);
    CandidateEffect(t', id, candidate, id);
    hide GetOffer, Shutdown, HandleCandidate;
  }
}
