/**
 The transporter as the object it is: four maps updated in place, and the flush loop
 that rewrites a queue entry while it iterates the array that was in it.
 */
module Transporter {
  import opened Wrappers
  import opened TransportState
  import Candidates

  class Transporter {
    var connections: map<string, Link>
    var channels: map<string, map<string, nat>>
    var queuedMessages: map<string, map<string, seq<Packet>>>
    var queuedCandidates: map<string, seq<string>>
    var applied: map<string, seq<string>>

    constructor ()
      ensures View() == EMPTY
    {
      connections, channels, queuedMessages, queuedCandidates, applied := map[], map[], map[], map[], map[];
    }

    function View(): Transport
      reads this
    {
      Transport(connections, channels, queuedMessages, queuedCandidates, applied)
    }

    // ----------------------------------------------------------- channels

    method AddDataChannel(remoteId: string, localId: string, channel: nat)
      modifies `channels
      ensures View() == TransportState.AddDataChannel(old(View()), remoteId, localId, channel)
      ensures ChannelOf(View(), remoteId, localId) == Some(channel)
    {
      if remoteId !in channels {
        channels := channels[remoteId := map[]];
      }
      var inner: map<string, nat> := channels[remoteId][localId := channel];
      channels := channels[remoteId := inner];
    }

    method AddQueueMessages(remoteId: string, localId: string, msgs: seq<Packet>)
      modifies `queuedMessages
      ensures View() == TransportState.AddQueueMessages(old(View()), remoteId, localId, msgs)
    {
      if remoteId !in queuedMessages {
        queuedMessages := queuedMessages[remoteId := map[]];
      }
      queuedMessages := queuedMessages[remoteId := queuedMessages[remoteId][localId := msgs]];
    }

    /** A new channel keeps a non-empty queue and starts an empty one otherwise. */
    method DataChannelConfiguration(remoteId: string, localId: string, channel: nat)
      modifies `channels, `queuedMessages
      ensures View() == Configure(old(View()), remoteId, localId, channel)
      ensures ChannelOf(View(), remoteId, localId) == Some(channel)
      ensures Queue(View(), remoteId, localId) == Queue(old(View()), remoteId, localId)
    {
      ConfigureEffect(View(), remoteId, localId, channel, localId);
      AddDataChannel(remoteId, localId, channel);
      if remoteId in queuedMessages && localId in queuedMessages[remoteId] && |queuedMessages[remoteId][localId]| != 0 {
        var values := queuedMessages[remoteId][localId];
        AddQueueMessages(remoteId, localId, values);
      } else {
        AddQueueMessages(remoteId, localId, []);
      }
    }

    /** Up to the first await; the result says whether a new connection was made. */
    method StartOffer(remoteId: string, localId: string, channel: nat) returns (made: bool)
      modifies this
      ensures View() == GetOffer(old(View()), remoteId, localId, channel)
      ensures made <==> !Connected(old(View()), remoteId)
      ensures Coupled(old(View())) ==> Coupled(View())
      ensures HasChannel(View(), remoteId, localId) && Connected(View(), remoteId)
      ensures made ==> !Ready(View(), remoteId) && ChannelOf(View(), remoteId, localId) == Some(channel)
      ensures forall r: string, l: string :: Queue(View(), r, l) == Queue(old(View()), r, l)
      ensures forall r: string, l: string | r != remoteId :: Unmoved(old(View()), View(), r, l)
    {
      OfferMade(View(), remoteId, localId, channel);
      hide Configure, Coupled, Queue, Unmoved, Ready;
      if remoteId in connections && !connections[remoteId].closed {
        if remoteId !in channels || localId !in channels[remoteId] {
          DataChannelConfiguration(remoteId, localId, channel);
        }
        return false;
      }
      connections := connections[remoteId := Link(false, false)];
      DataChannelConfiguration(remoteId, localId, channel);
      return true;
    }

    method StartAnswer(remoteId: string, localId: string, channel: nat) returns (made: bool)
      modifies this
      ensures View() == HandleOffer(old(View()), remoteId, localId, channel)
      ensures made <==> !Connected(old(View()), remoteId)
      ensures Coupled(old(View())) ==> Coupled(View())
      ensures (made || HasChannel(View(), remoteId, localId)) && Connected(View(), remoteId)
      ensures made ==> !Ready(View(), remoteId) && View().channels == old(View()).channels
      ensures forall r: string, l: string :: Queue(View(), r, l) == Queue(old(View()), r, l)
      ensures forall r: string, l: string | r != remoteId :: Unmoved(old(View()), View(), r, l)
    {
      AnswerMade(View(), remoteId, localId, channel);
      hide Configure, Coupled, Queue, Unmoved, Ready;
      if remoteId in connections && !connections[remoteId].closed {
        if remoteId !in channels || localId !in channels[remoteId] {
          DataChannelConfiguration(remoteId, localId, channel);
        }
        return false;
      }
      connections := connections[remoteId := Link(false, false)];
      return true;
    }

    // ----------------------------------------------------------- messages

    /** Up to the emit; the result says whether there is a channel. */
    method QueueMessage(remoteId: string, localId: string, msg: Packet) returns (found: bool)
      requires Coupled(View())
      modifies `queuedMessages
      ensures match Push(old(View()), remoteId, localId, msg)
        case Some(t) => found && View() == t
          && Queue(t, remoteId, localId) == Queue(old(View()), remoteId, localId) + [msg]
        case None => !found && View() == old(View())
      ensures Coupled(View())
    {
      CoupledStep(View(), Arrived(remoteId, localId, msg));
      found := remoteId in channels && localId in channels[remoteId];
      if found {
        assert HasQueue(View(), remoteId, localId) by { assert HasChannel(View(), remoteId, localId); }
        var messages := queuedMessages[remoteId][localId] + [msg];
        queuedMessages := queuedMessages[remoteId := queuedMessages[remoteId][localId := messages]];
      }
    }

    /** The head of the queue, if any; without one, the caller waits. */
    method TakeQueued(remoteId: string, localId: string) returns (msg: Option<Packet>)
      modifies `queuedMessages
      ensures msg == var queue := Queue(old(View()), remoteId, localId); if queue == [] then None else Some(queue[0])
      ensures View() == Shift(old(View()), remoteId, localId)
      ensures var queue := Queue(old(View()), remoteId, localId);
        Queue(View(), remoteId, localId) == if queue == [] then [] else queue[1..]
    {
      ShiftEffect(View(), remoteId, localId, localId);
      if remoteId in queuedMessages && localId in queuedMessages[remoteId] && |queuedMessages[remoteId][localId]| != 0 {
        var messages := queuedMessages[remoteId][localId];
        queuedMessages := queuedMessages[remoteId := queuedMessages[remoteId][localId := messages[1..]]];
        return Some(messages[0]);
      }
      return None;
    }

    // --------------------------------------------------------- candidates

    method HandleCandidate(id: string, candidate: string)
      modifies `queuedCandidates, `applied
      ensures View() == TransportState.HandleCandidate(old(View()), id, candidate)
      ensures Applied(View(), id) == Applied(old(View()), id) + (if Ready(old(View()), id) then [candidate] else [])
      ensures Queued(View(), id) == Queued(old(View()), id) + (if Ready(old(View()), id) then [] else [candidate])
      ensures forall r: string, l: string | r != id :: Unmoved(old(View()), View(), r, l)
    {
      hide Applied, Queued, Unmoved;
      CandidateEffect(View(), id, candidate, id);
      forall r: string, l: string | r != id
        ensures Unmoved(View(), TransportState.HandleCandidate(View(), id, candidate), r, l)
      {
        CandidateElsewhere(View(), id, candidate, r, l);
      }
      QueuedOrNone(View(), id);
      if id in connections && connections[id].remoteSet {
        applied := applied[id := Applied(View(), id) + [candidate]];
      } else {
        if id !in queuedCandidates {
          queuedCandidates := queuedCandidates[id := []];
        }
        queuedCandidates := queuedCandidates[id := queuedCandidates[id] + [candidate]];
      }
    }

    /** The loop runs over the array it found; the map entry is replaced in every round. */
    method AddQueuedCandidates(id: string)
      modifies `queuedCandidates, `applied
      ensures View() == TransportState.AddQueuedCandidates(old(View()), id)
      ensures Ready(old(View()), id) ==>
                Queued(View(), id) == [] && Applied(View(), id) == Applied(old(View()), id) + Queued(old(View()), id)
    {
      hide FlushAll, Without;
      if Ready(View(), id) {
        Candidates.FlushApplies(View(), id);
      }
      FlushNone(View(), id);
      if id !in queuedCandidates {
        return;
      }
      var entries := queuedCandidates[id];
      for i := 0 to |entries|
        invariant id in queuedCandidates
        invariant View() == FlushAll(old(View()), id, entries[..i])
      {
        var candidate := entries[i];
        FlushMore(old(View()), id, entries, i);
        var kept := FilterOut(queuedCandidates[id], candidate);
        queuedCandidates := queuedCandidates[id := kept];
        HandleCandidate(id, candidate);
      }
      assert entries[..|entries|] == entries;
    }

    method Shutdown(id: string)
      modifies this
      ensures View() == TransportState.Shutdown(old(View()), id)
      ensures Coupled(old(View())) ==> Coupled(View())
      ensures !Connected(View(), id) && !Ready(View(), id) && Queued(View(), id) == [] && LinkOf(View(), id) == None
      ensures forall l: string :: ChannelOf(View(), id, l) == None && Queue(View(), id, l) == []
      ensures forall r: string, l: string | r != id :: Unmoved(old(View()), View(), r, l)
      ensures View().applied == old(View()).applied
    {
      hide Coupled, HasChannel, ChannelOf, HasQueue, Queue, Connected, Ready, Queued, LinkOf, Unmoved;
      ShutdownDone(View(), id);
      NothingToDelete(connections, id);
      NothingToDelete(channels, id);
      NothingToDelete(queuedCandidates, id);
      NothingToDelete(queuedMessages, id);
      if id in connections {
        connections := connections - {id};
      }
      if id in channels {
        channels := channels - {id};
      }
      if id in queuedCandidates {
        queuedCandidates := queuedCandidates - {id};
      }
      if id in queuedMessages {
        queuedMessages := queuedMessages - {id};
      }
    }
  }

  lemma NothingToDelete<V>(entries: map<string, V>, id: string)
    ensures id !in entries ==> entries - {id} == entries
  {}

  lemma QueuedOrNone(t: Transport, id: string)
    ensures Queued(t, id) == if id in t.candidates then t.candidates[id] else []
  {}

  lemma FlushNone(t: Transport, id: string)
    ensures FlushAll(t, id, []) == t
  {}

  lemma FlushMore(t: Transport, id: string, entries: seq<string>, i: nat)
    requires i < |entries|
    ensures FlushAll(t, id, entries[..i + 1]) == FlushOne(FlushAll(t, id, entries[..i]), id, entries[i])
  {
    assert entries[..i + 1][..i] == entries[..i];
  }

  lemma OfferMade(t: Transport, remoteId: string, localId: string, channel: nat)
    ensures var after := GetOffer(t, remoteId, localId, channel);
      && (Coupled(t) ==> Coupled(after))
      && HasChannel(after, remoteId, localId) && Connected(after, remoteId)
      && (!Connected(t, remoteId) ==> !Ready(after, remoteId) && ChannelOf(after, remoteId, localId) == Some(channel))
      && (forall r: string, l: string :: Queue(after, r, l) == Queue(t, r, l))
      && (forall r: string, l: string | r != remoteId :: Unmoved(t, after, r, l))
  {
    var change := Offer(remoteId, localId, channel);
    if Coupled(t) { CoupledStep(t, change); }
    OfferEffect(t, remoteId, localId, channel, localId);
    forall r: string, l: string
      ensures Queue(Apply(t, change), r, l) == Queue(t, r, l)
      ensures r != remoteId ==> Unmoved(t, Apply(t, change), r, l)
    {
      OfferEffect(t, remoteId, localId, channel, l);
      if r != remoteId { Elsewhere(t, change, r, l); }
    }
    hide GetOffer, Coupled, Unmoved;
  }

  lemma AnswerMade(t: Transport, remoteId: string, localId: string, channel: nat)
    ensures var after := HandleOffer(t, remoteId, localId, channel);
      && (Coupled(t) ==> Coupled(after))
      && (!Connected(t, remoteId) || HasChannel(after, remoteId, localId)) && Connected(after, remoteId)
      && (!Connected(t, remoteId) ==> !Ready(after, remoteId) && after.channels == t.channels)
      && (forall r: string, l: string :: Queue(after, r, l) == Queue(t, r, l))
      && (forall r: string, l: string | r != remoteId :: Unmoved(t, after, r, l))
  {
    var change := Offered(remoteId, localId, channel);
    if Coupled(t) { CoupledStep(t, change); }
    OfferedEffect(t, remoteId, localId, channel, localId);
    forall r: string, l: string
      ensures Queue(Apply(t, change), r, l) == Queue(t, r, l)
      ensures r != remoteId ==> Unmoved(t, Apply(t, change), r, l)
    {
      OfferedEffect(t, remoteId, localId, channel, l);
      if r != remoteId { Elsewhere(t, change, r, l); }
    }
    hide Coupled, Unmoved, Configure;
  }

  lemma ShutdownDone(t: Transport, id: string)
    ensures var after := TransportState.Shutdown(t, id);
      && (Coupled(t) ==> Coupled(after))
      && !Connected(after, id) && !Ready(after, id) && Queued(after, id) == [] && LinkOf(after, id) == None
      && (forall l: string :: ChannelOf(after, id, l) == None && Queue(after, id, l) == [])
      && (forall r: string, l: string | r != id :: Unmoved(t, after, r, l))
      && after.applied == t.applied
  {
    if Coupled(t) { CoupledStep(t, Stopped(id)); }
    forall r: string, l: string
      ensures ChannelOf(TransportState.Shutdown(t, id), id, l) == None
        && Queue(TransportState.Shutdown(t, id), id, l) == []
      ensures r != id ==> Unmoved(t, TransportState.Shutdown(t, id), r, l)
    {
      ShutdownEffect(t, id, l);
      if r != id { StoppedElsewhere(t, id, r, l); }
    }
    ShutdownEffect(t, id, "");
    hide Coupled, Unmoved, TransportState.Shutdown;
  }
}
