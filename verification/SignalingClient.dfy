/**
 The signaling client as the object it is: its fields, its registered listeners, and
 the loops with which an emit calls them.
 */
module SignalingClient {
  import opened Server
  import opened Client

  /** Calls the waiting listeners of a key, each of them once. */
  method Settle(calls: map<nat, AliasCall>, owner: string, alias: string, granted: bool)
    returns (settled: map<nat, AliasCall>)
    ensures settled == NotifyAlias(calls, owner, alias, granted)
    ensures settled.Keys == calls.Keys
    ensures forall c | c in calls && calls[c] == AliasCall(owner, alias, Pending) ::
      settled[c] == AliasCall(owner, alias, if granted then Resolved(()) else Rejected)
    ensures forall c | c in calls && calls[c] != AliasCall(owner, alias, Pending) :: settled[c] == calls[c]
  {
    settled := calls;
    var left := calls.Keys;
    while left != {}
      invariant left <= settled.Keys == calls.Keys
      invariant forall c | c in left :: settled[c] == calls[c]
      invariant forall c | c in settled && c !in left :: settled[c] == NotifyAlias(calls, owner, alias, granted)[c]
    {
      var c :| c in left;
      left := left - {c};
      var waiting := settled[c];
      if waiting.promise.Pending? && waiting.id == owner && waiting.alias == alias {
        settled := settled[c := AliasCall(owner, alias, if granted then Resolved(()) else Rejected)];
      }
    }
  }

  class SignalingClient {
    var id: string
    var isConnected: bool
    var isBinded: bool
    var binds: map<nat, AliasCall>
    var shutdowns: map<nat, AliasCall>
    var accepts: map<nat, AcceptCall>
    var connects: map<string, ConnectCall>
    var told: map<string, string>
    var outbox: seq<Request>

    constructor ()
      ensures View() == FRESH && outbox == [] && !isBinded
    {
      id, isConnected, isBinded := "", false, false;
      binds, shutdowns, accepts, connects, told, outbox := map[], map[], map[], map[], map[], [];
    }

    function View(): User
      reads this
    {
      User(id, isConnected, binds, shutdowns, accepts, connects, told)
    }

    // ------------------------------------------------------------- calls

    /** `call` stands for the promise returned. */
    method Bind(call: nat, alias: string)
      requires call !in binds
      modifies `isBinded, `binds, `outbox
      ensures isBinded && View() == AskBind(old(View()), call, alias)
      ensures outbox == old(outbox) + [Request.Bind(id, alias)]
      ensures call in binds && binds[call] == AliasCall(id, alias, Pending) && id == old(id)
      ensures forall c | c in old(binds) :: c in binds && binds[c] == old(binds)[c]
    {
      isBinded := true;
      binds := binds[call := AliasCall(id, alias, Pending)];
      outbox := outbox + [Request.Bind(id, alias)];
    }

    method Shutdown(call: nat, alias: string)
      requires call !in shutdowns
      modifies `shutdowns, `outbox
      ensures View() == AskShutdown(old(View()), call, alias)
      ensures outbox == old(outbox) + [Request.Shutdown(id, alias)]
      ensures call in shutdowns && shutdowns[call] == AliasCall(id, alias, Pending) && id == old(id)
      ensures forall c | c in old(shutdowns) :: c in shutdowns && shutdowns[c] == old(shutdowns)[c]
    {
      shutdowns := shutdowns[call := AliasCall(id, alias, Pending)];
      outbox := outbox + [Request.Shutdown(id, alias)];
    }

    method Accept(call: nat, alias: string)
      requires call !in accepts
      modifies `accepts, `outbox
      ensures View() == AskAccept(old(View()), call, alias)
      ensures outbox == old(outbox) + [Accepting(id, alias)]
      ensures call in accepts && accepts[call] == AcceptCall(alias, Pending) && id == old(id)
      ensures forall c | c in old(accepts) :: c in accepts && accepts[c] == old(accepts)[c]
    {
      accepts := accepts[call := AcceptCall(alias, Pending)];
      outbox := outbox + [Accepting(id, alias)];
    }

    /** `clientConnectionId` is the fresh identifier made for this call. */
    method Connect(clientConnectionId: string, remoteAlias: string)
      requires clientConnectionId !in connects
      modifies `connects, `outbox
      ensures View() == AskConnect(old(View()), clientConnectionId)
      ensures outbox == old(outbox) + [Request.Connect(id, remoteAlias, clientConnectionId)]
      ensures clientConnectionId in connects && connects[clientConnectionId] == ConnectCall(0, "", Pending)
        && id == old(id)
      ensures forall c | c in old(connects) :: c in connects && connects[c] == old(connects)[c]
    {
      connects := connects[clientConnectionId := ConnectCall(0, "", Pending)];
      outbox := outbox + [Request.Connect(id, remoteAlias, clientConnectionId)];
    }

    // ------------------------------------------------------------- emits

    /** The listener of a connect call: it counts, remembers its alias, and settles its promise. */
    method NotifyConnection(clientConnectionId: string, isSet: bool, newAlias: string, isConnectionAlias: bool)
      modifies `connects
      ensures connects == NotifyConnect(old(connects), clientConnectionId, isSet, newAlias, isConnectionAlias)
      ensures forall c | c in old(connects) && (c != clientConnectionId || !old(connects)[c].promise.Pending?) ::
                c in connects && connects[c].promise == old(connects)[c].promise
      ensures clientConnectionId in old(connects) ==>
        var before := old(connects)[clientConnectionId];
        && clientConnectionId in connects
        && var after := connects[clientConnectionId];
        && after.count == before.count + (if isSet then 1 else 0)
        && after.alias == (if isSet && isConnectionAlias then newAlias else before.alias)
        && (before.promise.Pending? ==>
              after.promise == if !isSet then Rejected else if after.count >= 2 then Resolved(after.alias) else Pending)
    {
      if clientConnectionId !in connects {
        return;
      }
      var ConnectCall(i, alias, promise) := connects[clientConnectionId];
      if isSet {
        i := i + 1;
        if isConnectionAlias {
          alias := newAlias;
        }
        if i >= 2 && promise.Pending? {
          promise := Resolved(alias);
        }
      } else if promise.Pending? {
        promise := Rejected;
      }
      connects := connects[clientConnectionId := ConnectCall(i, alias, promise)];
    }

    /** One emit: bind and shutdown listen on the same key and read the message in opposite ways. */
    method NotifyBindAndShutdown(owner: string, alias: string, isSet: bool)
      modifies `binds, `shutdowns
      ensures binds == NotifyAlias(old(binds), owner, alias, isSet)
      ensures shutdowns == NotifyAlias(old(shutdowns), owner, alias, !isSet)
      ensures binds.Keys == old(binds).Keys
      ensures forall c | c in binds ::
                binds[c] == if old(binds)[c] == AliasCall(owner, alias, Pending)
                         then AliasCall(owner, alias, if isSet then Resolved(()) else Rejected)
                         else old(binds)[c]
      ensures shutdowns.Keys == old(shutdowns).Keys
      ensures forall c | c in shutdowns ::
                shutdowns[c] == if old(shutdowns)[c] == AliasCall(owner, alias, Pending)
                         then AliasCall(owner, alias, if isSet then Rejected else Resolved(()))
                         else old(shutdowns)[c]
    {
      binds := Settle(binds, owner, alias, isSet);
      shutdowns := Settle(shutdowns, owner, alias, !isSet);
    }

    method NotifyAccepts(boundAlias: string, clientAlias: string)
      modifies `accepts
      ensures accepts == NotifyAccept(old(accepts), boundAlias, clientAlias)
      ensures accepts.Keys == old(accepts).Keys
      ensures forall c | c in accepts ::
                accepts[c] == if old(accepts)[c] == AcceptCall(boundAlias, Pending)
                              then AcceptCall(boundAlias, Resolved(clientAlias))
                              else old(accepts)[c]
    {
      var left := accepts.Keys;
      while left != {}
        invariant left <= accepts.Keys == old(accepts).Keys
        invariant forall c | c in left :: accepts[c] == old(accepts)[c]
        invariant forall c | c in accepts && c !in left ::
          accepts[c] == NotifyAccept(old(accepts), boundAlias, clientAlias)[c]
      {
        var c :| c in left;
        left := left - {c};
        if accepts[c].promise.Pending? && accepts[c].alias == boundAlias {
          accepts := accepts[c := AcceptCall(boundAlias, Resolved(clientAlias))];
        }
      }
    }

    method Told(owner: string, alias: string, isSet: bool)
      modifies `told
      ensures told == OnAlias(old(told), owner, alias, isSet)
    {
      if isSet {
        told := told[alias := owner];
      } else {
        told := told - {alias};
      }
    }

    /** One message, processed to its end. */
    method HandleOperation(operation: Message)
      modifies this
      ensures View() == HandleMessage(old(View()), operation)
      ensures outbox == old(outbox) && isBinded == old(isBinded)
    {
      match operation
      case Acknowledgement(issued, _) =>
        id := issued;
        isConnected := true;
      case Alias(owner, alias, isSet, clientConnectionId, isConnectionAlias) =>
        if clientConnectionId.Some? && clientConnectionId.value != "" {
          NotifyConnection(clientConnectionId.value, isSet, alias, isConnectionAlias);
        } else {
          NotifyBindAndShutdown(owner, alias, isSet);
        }
        Told(owner, alias, isSet);
      case Accept(boundAlias, clientAlias) =>
        NotifyAccepts(boundAlias, clientAlias);
      case Greeting(_, _) =>
      case Goodbye(_) =>
    }
  }
}
