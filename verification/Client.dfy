/**
 The signaling client's promise protocol. `bind`, `shutdown` and `accept` wait once
 for a keyed event, `connect` keeps a listener that counts two tagged messages. A
 message is processed to its end before the next one: emit, the listeners it
 wakes, then `onAlias`.
 */
module Client {
  import opened Wrappers
  import opened Server

  datatype Promise<+T> = Pending | Resolved(value: T) | Rejected

  /** A `bind` or `shutdown` call: the key it waits on and its promise. */
  datatype AliasCall = AliasCall(id: string, alias: string, promise: Promise<()>)

  /** An `accept` call: the alias it waits on and the client alias it returned. */
  datatype AcceptCall = AcceptCall(alias: string, promise: Promise<string>)

  /** A `connect` call: what its listener has captured (`i` and `alias`) and its promise. */
  datatype ConnectCall = ConnectCall(count: nat, alias: string, promise: Promise<string>)

  /** `told` is what `onAlias` has reported so far: alias to owner, removals applied. */
  datatype User = User(
    id: string,
    isConnected: bool,
    binds: map<nat, AliasCall>,
    shutdowns: map<nat, AliasCall>,
    accepts: map<nat, AcceptCall>,
    connects: map<string, ConnectCall>,
    told: map<string, string>)

  const FRESH := User("", false, map[], map[], map[], map[], map[])

  const UNANSWERED := ConnectCall(0, "", Pending)

  // ---------------------------------------------------------------- calls

  /** The bind calls of a client, or its shutdown calls. */
  function CallsOf(u: User, shuts: bool): map<nat, AliasCall> { if shuts then u.shutdowns else u.binds }

  function AskBind(u: User, call: nat, alias: string): User {
    u.(binds := u.binds[call := AliasCall(u.id, alias, Pending)])
  }

  function AskShutdown(u: User, call: nat, alias: string): User {
    u.(shutdowns := u.shutdowns[call := AliasCall(u.id, alias, Pending)])
  }

  function AskAccept(u: User, call: nat, alias: string): User {
    u.(accepts := u.accepts[call := AcceptCall(alias, Pending)])
  }

  function AskConnect(u: User, cid: string): User { u.(connects := u.connects[cid := UNANSWERED]) }

  // ------------------------------------------------------------ listeners

  /** The `once` listeners of bind, or of shutdown, on the key of (id, alias). */
  function NotifyAlias(calls: map<nat, AliasCall>, id: string, alias: string, granted: bool): map<nat, AliasCall> {
    map c | c in calls ::
      if calls[c].promise.Pending? && calls[c].id == id && calls[c].alias == alias then
        calls[c].(promise := if granted then Resolved(()) else Rejected)
      else calls[c]
  }

  /** The `once` listeners of accept on the key of boundAlias. */
  function NotifyAccept(accepts: map<nat, AcceptCall>, boundAlias: string, clientAlias: string): map<nat, AcceptCall> {
    map c | c in accepts ::
      if accepts[c].promise.Pending? && accepts[c].alias == boundAlias then
        accepts[c].(promise := Resolved(clientAlias))
      else accepts[c]
  }

  /** The `on` listener of connect: it stays, but a settled promise does not change. */
  function OnConnection(call: ConnectCall, isSet: bool, alias: string, isConnectionAlias: bool): ConnectCall {
    if isSet then
      var count := call.count + 1;
      var captured := if isConnectionAlias then alias else call.alias;
      ConnectCall(count, captured, if call.promise.Pending? && count >= 2 then Resolved(captured) else call.promise)
    else call.(promise := if call.promise.Pending? then Rejected else call.promise)
  }

  function NotifyConnect(connects: map<string, ConnectCall>, cid: string, isSet: bool, alias: string,
                         isConnectionAlias: bool): map<string, ConnectCall> {
    if cid in connects then connects[cid := OnConnection(connects[cid], isSet, alias, isConnectionAlias)] else connects
  }

  function OnAlias(told: map<string, string>, id: string, alias: string, isSet: bool): map<string, string> {
    if isSet then told[alias := id] else told - {alias}
  }

  /** `data.clientConnectionId` is present and truthy. */
  predicate ForConnect(m: Message) { m.Alias? && m.clientConnectionId.Some? && m.clientConnectionId.value != "" }

  function HandleMessage(u: User, m: Message): User {
    match m
    case Acknowledgement(id, _) => u.(id := id, isConnected := true)
    case Greeting(_, _) => u
    case Goodbye(_) => u
    case Alias(id, alias, isSet, cid, isConnectionAlias) =>
      var told := OnAlias(u.told, id, alias, isSet);
      if ForConnect(m) then
        u.(connects := NotifyConnect(u.connects, cid.value, isSet, alias, isConnectionAlias), told := told)
      else
        u.(binds := NotifyAlias(u.binds, id, alias, isSet),
           shutdowns := NotifyAlias(u.shutdowns, id, alias, !isSet),
           told := told)
    case Accept(boundAlias, clientAlias) => u.(accepts := NotifyAccept(u.accepts, boundAlias, clientAlias))
  }

  /** An empty connection id counts as none: the message is for bind and shutdown. */
  lemma EmptyIsNone(u: User, id: string, alias: string, isSet: bool, isConnectionAlias: bool)
    ensures HandleMessage(u, Alias(id, alias, isSet, Some(""), isConnectionAlias)) ==
      HandleMessage(u, Alias(id, alias, isSet, None, isConnectionAlias))
    ensures HandleMessage(u, Alias(id, alias, isSet, None, isConnectionAlias)).connects == u.connects
  {}

  /** What `onAlias` has reported after a mailbox was processed. */
  function Telling(box: seq<Message>): map<string, string> {
    if box == [] then map[]
    else
      var told, m := Telling(box[..|box| - 1]), box[|box| - 1];
      if m.Alias? then OnAlias(told, m.id, m.alias, m.isSet) else told
  }

  // ---------------------------------------- what one connect listener sees

  /** The messages of a connection id, in order. */
  function Tagged(box: seq<Message>, cid: string): seq<Message> {
    if box == [] then []
    else
      var last := box[|box| - 1];
      Tagged(box[..|box| - 1], cid) + if ForConnect(last) && last.clientConnectionId.value == cid then [last] else []
  }

  function Hear(call: ConnectCall, m: Message): ConnectCall
    requires m.Alias?
  {
    OnConnection(call, m.isSet, m.alias, m.isConnectionAlias)
  }

  /** The listener after a sequence of alias messages. */
  function HearAll(msgs: seq<Message>): ConnectCall
    requires forall m | m in msgs :: m.Alias?
  {
    if msgs == [] then UNANSWERED else Hear(HearAll(msgs[..|msgs| - 1]), msgs[|msgs| - 1])
  }

  lemma {:induction false} TaggedAre(box: seq<Message>, cid: string)
    ensures forall m | m in Tagged(box, cid) :: m in box && ForConnect(m) && m.clientConnectionId.value == cid
  {
    if box != [] {
      TaggedAre(box[..|box| - 1], cid);
    }
  }

  lemma TaggedSnoc(box: seq<Message>, m: Message, cid: string)
    ensures Tagged(box + [m], cid) ==
      Tagged(box, cid) + if ForConnect(m) && m.clientConnectionId.value == cid then [m] else []
  {
    assert (box + [m])[..|box|] == box;
  }

  lemma {:induction false} TaggedPrefix(box: seq<Message>, n: nat, cid: string)
    requires n <= |box|
    ensures Tagged(box[..n], cid) <= Tagged(box, cid)
  {
    if n < |box| {
      TaggedPrefix(box[..|box| - 1], n, cid);
      assert box[..|box| - 1][..n] == box[..n];
    } else {
      assert box[..n] == box;
    }
  }

  lemma {:induction false} TaggedNone(box: seq<Message>, cid: string)
    requires forall m | m in box && ForConnect(m) :: m.clientConnectionId.value != cid
    ensures Tagged(box, cid) == []
  {
    if box != [] {
      TaggedNone(box[..|box| - 1], cid);
    }
  }

  /** A granted connect resolves with the connection alias, whichever message comes first. */
  lemma EitherOrder(first: Message, second: Message)
    requires first.Alias? && first.isSet && first.isConnectionAlias
    requires second.Alias? && second.isSet && !second.isConnectionAlias
    ensures HearAll([first, second]).promise == Resolved(first.alias) == HearAll([second, first]).promise
  {
    HearTwo(first, second);
    HearTwo(second, first);
  }

  lemma HearTwo(first: Message, second: Message)
    requires first.Alias? && second.Alias?
    ensures HearAll([first, second]) == Hear(Hear(UNANSWERED, first), second)
      && HearAll([first]) == Hear(UNANSWERED, first)
  {
    assert [first][..0] == [];
    assert HearAll([first]) == Hear(HearAll([]), first);
    assert [first, second][..1] == [first];
  }
}
