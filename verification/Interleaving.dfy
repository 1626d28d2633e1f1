/**
 The await-level machine: any number of suspended handlers, resumed in any
 order, over one server state. A closed connection is one step.
 */
module Interleaving {
  import opened Address
  import opened Server

  datatype World = World(st: State, tasks: map<nat, Task>)

  datatype Event =
    | Receive(tid: nat, conn: nat, request: Request)
    | Proceed(tid: nat)
    | Close(id: string, order: seq<string>)

  const START := World(INITIAL, map[])

  /** Knocked subnets are well-formed; a claim in a known subnet names numbers. */
  ghost predicate Enabled(w: World, e: Event) {
    match e
    case Receive(tid, conn, request) => tid !in w.tasks && (request.Knock? ==> WellFormedSubnet(request.subnet))
    case Proceed(tid) => tid in w.tasks && Runnable(w.st, w.tasks[tid])
    case Close(id, order) => id in w.st.clients && Enumerates(order, Owned(w.st.aliases, id))
  }

  function StepOf(w: World, e: Event): Step
    requires match e
      case Receive(tid, _, _) => true
      case Proceed(tid) => tid in w.tasks && Runnable(w.st, w.tasks[tid])
      case Close(_, _) => true
  {
    match e
    case Receive(_, conn, request) => Start(w.st, conn, request)
    case Proceed(tid) => Resume(w.st, w.tasks[tid])
    case Close(id, order) => Done(Disconnect(w.st, id, order))
  }

  ghost function Next(w: World, e: Event): World
    requires Enabled(w, e)
  {
    var step := StepOf(w, e);
    match e
    case Receive(tid, _, _) =>
      World(step.st, if step.next.Some? then w.tasks[tid := step.next.value] else w.tasks)
    case Proceed(tid) =>
      World(step.st, if step.next.Some? then w.tasks[tid := step.next.value] else w.tasks - {tid})
    case Close(_, _) => World(step.st, w.tasks)
  }

  /** A run from the empty server: every state and every event of it. */
  ghost predicate Run(ws: seq<World>, es: seq<Event>) {
    && |ws| == |es| + 1
    && ws[0] == START
    && forall k | 0 <= k < |es| :: Enabled(ws[k], es[k]) && ws[k + 1] == Next(ws[k], es[k])
  }

  predicate IsShutdown(e: Event) { e.Receive? && e.request.Shutdown? }

  /** Neither a shutdown nor a closed connection. */
  predicate NoRemovals(es: seq<Event>) { forall e | e in es :: !IsShutdown(e) && !e.Close? }
}
