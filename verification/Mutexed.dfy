/**
 The handlers and the allocator's mutex in one machine. A handler that needs the
 allocator waits for the lock; createIPAddress and createTCPAddress are suspended once
 more while they hold it, half done, and other handlers run meanwhile. Every run of this
 machine is a run of the await-level one, in which an operation is a single step.
 */
module Mutexed {
  import opened Wrappers
  import opened Address
  import opened Allocator
  import opened Server
  import opened Interleaving
  import opened Addresses
  import Lock = Locking

  /** The operation a suspended handler asks for. */
  function OpOf(task: Task): Option<Lock.Op> {
    match task
    case KnockReceived(_, subnet) => Some(Lock.CreateIPOp(subnet))
    case BindChecked(_, alias) => Some(Lock.ClaimOp(alias))
    case ShutdownDeleted(_, alias) => Some(Lock.RemoveTCPOp(alias))
    case ShutdownReleased(_, alias) => Some(Lock.RemoveIPOp(alias))
    case ConnectReceived(call) => Some(Lock.CreateTCPOp(call.id))
    case ConnectRefused(_, clientAlias, _) => Some(Lock.RemoveTCPOp(clientAlias))
    case _ => None
  }

  /** How the handler goes on once its operation is done. */
  function GoesOn(st: State, task: Task, outcome: Lock.Outcome): Step {
    match outcome
    case Threw(e) => Throw(st, e)
    case Returned(text) =>
      (match task
       case KnockReceived(conn, _) => Suspend(st, KnockCreated(conn, text))
       case ConnectReceived(call) => Suspend(st, ConnectCreated(call, text))
       case _ => Done(st))
    case Completed =>
      (match task
       case BindChecked(id, alias) => Suspend(st, BindClaimed(id, alias))
       case ShutdownDeleted(id, alias) => Suspend(st, ShutdownReleased(id, alias))
       case ShutdownReleased(id, alias) => Suspend(st, ShutdownFreed(id, alias))
       case ConnectRefused(call, clientAlias, found) => Suspend(st, ConnectReleased(call, clientAlias, found))
       case _ => Done(st))
  }

  // --------------------------------------------------------------- the machine

  /** The handler that holds the lock, suspended at the inner await. */
  datatype Held = Held(tid: nat, thread: Lock.Thread)

  /** The world's subnets are the real ones, half done while the lock is held. */
  datatype Guarded = Guarded(world: World, holder: Option<Held>)

  const FREE := Guarded(START, None)

  /** `Acquire` runs an operation up to its inner await, or to its end without one; `Write` finishes it. */
  datatype Move = Other(e: Event) | Acquire(tid: nat) | Write(tid: nat)

  /** One thread of the allocator's own machine. */
  function Alone(subnets: Subnets, tid: nat, thread: Lock.Thread): Lock.Machine {
    Lock.Machine(subnets, if thread.Chosen? then Some(tid) else None, map[tid := thread], [])
  }

  ghost predicate Possible(g: Guarded, m: Move) {
    match m
    case Other(e) =>
      Enabled(g.world, e) && (e.Proceed? ==> OpOf(g.world.tasks[e.tid]) == None) && (e.Close? ==> g.holder == None)
    case Acquire(tid) => g.holder == None && Enabled(g.world, Proceed(tid)) && OpOf(g.world.tasks[tid]).Some?
    case Write(tid) =>
      g.holder.Some? && g.holder.value.tid == tid && tid in g.world.tasks && g.holder.value.thread.Chosen?
  }

  /** The allocator's part of a move. */
  function Operated(g: Guarded, m: Move): Lock.Machine
    requires !m.Other? && m.tid in g.world.tasks
    requires m.Acquire? ==> OpOf(g.world.tasks[m.tid]).Some? && Runnable(g.world.st, g.world.tasks[m.tid])
    requires m.Write? ==> g.holder.Some? && g.holder.value.thread.Chosen?
  {
    var subnets := g.world.st.subnets;
    if m.Acquire? then
      Lock.Next(Alone(subnets, m.tid, Lock.Waiting(OpOf(g.world.tasks[m.tid]).value)), Lock.Acquire(m.tid))
    else Lock.Next(Alone(subnets, m.tid, g.holder.value.thread), Lock.Write(m.tid))
  }

  /** The handler of a finished operation goes on; one that is not finished keeps the lock. */
  function Settled(g: Guarded, tid: nat, after: Lock.Machine): Guarded
    requires tid in g.world.tasks && tid in after.threads
  {
    var st, thread := g.world.st.(subnets := after.subnets), after.threads[tid];
    if thread.Finished? then
      var step := GoesOn(st, g.world.tasks[tid], thread.outcome);
      var tasks := if step.next.Some? then g.world.tasks[tid := step.next.value] else g.world.tasks - {tid};
      Guarded(World(step.st, tasks), None)
    else Guarded(World(st, g.world.tasks), Some(Held(tid, thread)))
  }

  lemma OperatedThreads(g: Guarded, m: Move)
    requires Possible(g, m) && !m.Other?
    ensures m.tid in Operated(g, m).threads
  {
    hide Lock.Apply, Locate, EnsureSubnet, SetPorts, Sort, Scan, LowestFree;
  }

  ghost function Moved(g: Guarded, m: Move): Guarded
    requires Possible(g, m)
  {
    match m
    case Other(e) => g.(world := Next(g.world, e))
    case _ => OperatedThreads(g, m); Settled(g, m.tid, Operated(g, m))
  }

  ghost predicate GuardedRun(gs: seq<Guarded>, ms: seq<Move>) {
    && |gs| == |ms| + 1 && gs[0] == FREE
    && forall k | 0 <= k < |ms| :: Possible(gs[k], ms[k]) && gs[k + 1] == Moved(gs[k], ms[k])
  }

  // ------------------------------------------------------------- the simulation

  /** The world in which an unfinished operation has not happened. */
  function Visible(g: Guarded): World {
    if g.holder.Some? && g.holder.value.thread.Chosen?
    then g.world.(st := g.world.st.(subnets := g.holder.value.thread.before))
    else g.world
  }

  /** A move that nobody else sees: getting the lock, up to the inner await. */
  ghost predicate Silent(g: Guarded, m: Move)
    requires Possible(g, m)
  {
    m.Acquire? && Moved(g, m).holder.Some?
  }

  function Seen(m: Move): Event { if m.Other? then m.e else Proceed(m.tid) }

  ghost predicate GuardInv(g: Guarded) {
    && Orderly(Visible(g))
    && (g.holder.Some? ==>
          var tid, thread := g.holder.value.tid, g.holder.value.thread;
          && thread.Chosen? && tid in g.world.tasks && OpOf(g.world.tasks[tid]) == Some(thread.op)
          && Lock.LockInv(Alone(g.world.st.subnets, tid, thread)))
  }

  /** The atomic segment of a handler is its operation, and then going on with the outcome. */
  lemma ResumeIsOperation(st: State, task: Task)
    requires Runnable(st, task) && OpOf(task).Some?
    ensures Lock.Applicable(st.subnets, OpOf(task).value)
    ensures var (subnets, outcome) := Lock.Apply(st.subnets, OpOf(task).value);
      Resume(st, task) == GoesOn(st.(subnets := subnets), task, outcome)
  {
    hide CreateIP, CreateTCP, ClaimTCP, RemoveTCP, RemoveIP, Deliver, Claimable;
  }

  /** What does not use the allocator neither reads nor changes it. */
  lemma ResumeElsewhere(st: State, task: Task, subnets: Subnets)
    requires Runnable(st, task) && OpOf(task) == None
    ensures Runnable(st.(subnets := subnets), task)
    ensures var step, step' := Resume(st, task), Resume(st.(subnets := subnets), task);
      step'.st == step.st.(subnets := subnets) && step'.next == step.next && step.st.subnets == st.subnets
  {
    hide CreateIP, CreateTCP, ClaimTCP, RemoveTCP, RemoveIP, Deliver, Claimable, ToAll, Introductions;
  }

  lemma StartElsewhere(st: State, conn: nat, request: Request, subnets: Subnets)
    ensures var step, step' := Start(st, conn, request), Start(st.(subnets := subnets), conn, request);
      step'.st == step.st.(subnets := subnets) && step'.next == step.next && step.st.subnets == st.subnets
  {
    hide Deliver;
  }

  /** Other handlers' steps, while the lock is held or not. */
  lemma OtherMove(g: Guarded, e: Event)
    requires GuardInv(g) && Possible(g, Other(e))
    ensures Enabled(Visible(g), e) && Visible(Moved(g, Other(e))) == Next(Visible(g), e)
    ensures Moved(g, Other(e)).holder.Some? ==>
      var g' := Moved(g, Other(e));
      && g'.holder == g.holder && g'.world.st.subnets == g.world.st.subnets
      && g.holder.value.tid in g'.world.tasks && g'.world.tasks[g.holder.value.tid] == g.world.tasks[g.holder.value.tid]
  {
    hide Orderly, Resume, Start, Lock.LockInv, Disconnect, Runnable;
    if g.holder.Some? {
      var before := g.holder.value.thread.before;
      match e
      case Receive(_, conn, request) => StartElsewhere(g.world.st, conn, request, before);
      case Proceed(tid) => ResumeElsewhere(g.world.st, g.world.tasks[tid], before);
    }
  }

  /** The lock machine with one thread, when that thread gets the lock. */
  lemma AcquiredAlone(subnets: Subnets, tid: nat, op: Lock.Op)
    requires Tidy(subnets) && Lock.Applicable(subnets, op) && (op.CreateIPOp? ==> WellFormedSubnet(op.subnet))
    ensures var after := Lock.Next(Alone(subnets, tid, Lock.Waiting(op)), Lock.Acquire(tid));
      && tid in after.threads
      && (if after.threads[tid].Finished? then
            (after.subnets, after.threads[tid].outcome) == Lock.Apply(subnets, op)
          else
            after.threads[tid].Chosen? && after.threads[tid].op == op && after.threads[tid].before == subnets
            && Lock.LockInv(Alone(after.subnets, tid, after.threads[tid])))
  {
    var m := Alone(subnets, tid, Lock.Waiting(op));
    assert Lock.LockInv(m);
    Lock.AcquireStep(m, tid);
    hide Lock.Apply, Locate, EnsureSubnet, SetPorts, Sort, Scan, LowestFree;
  }

  lemma AcquireMove(g: Guarded, tid: nat)
    requires GuardInv(g) && Possible(g, Acquire(tid))
    ensures Enabled(Visible(g), Proceed(tid)) && Visible(g) == g.world
    ensures var g' := Moved(g, Acquire(tid));
      if Silent(g, Acquire(tid)) then GuardInv(g') && Visible(g') == Visible(g)
      else g'.holder == None && g'.world == Next(Visible(g), Proceed(tid))
  {
    hide Lock.Next, Lock.LockInv, Tidy, Resume, GoesOn, Lock.Apply, Lock.Applicable, Runnable;
    var task := g.world.tasks[tid];
    ResumeIsOperation(g.world.st, task);
    assert Sound(task);
    AcquiredAlone(g.world.st.subnets, tid, OpOf(task).value);
  }

  lemma WriteMove(g: Guarded, tid: nat)
    requires GuardInv(g) && Possible(g, Write(tid))
    ensures Enabled(Visible(g), Proceed(tid))
    ensures Moved(g, Write(tid)).holder == None && Moved(g, Write(tid)).world == Next(Visible(g), Proceed(tid))
  {
    hide Lock.Next, Lock.LockInv, Tidy, Resume, GoesOn, Lock.Apply, Claimable;
    var task, thread := g.world.tasks[tid], g.holder.value.thread;
    Lock.WriteIsAtomic(Alone(g.world.st.subnets, tid, thread), tid);
    ResumeIsOperation(Visible(g).st, task);
  }

  /** A move is seen as one step of the await-level machine, or not seen. */
  lemma MoveIsStep(g: Guarded, m: Move)
    requires GuardInv(g) && Possible(g, m)
    ensures GuardInv(Moved(g, m))
    ensures if Silent(g, m) then Visible(Moved(g, m)) == Visible(g)
            else Enabled(Visible(g), Seen(m)) && Visible(Moved(g, m)) == Next(Visible(g), Seen(m))
  {
    hide Orderly, Lock.LockInv, Enabled, Next, Moved;
    if m.Other? {
      OtherMove(g, m.e);
      OrderlyStep(Visible(g), m.e);
    } else if m.Write? {
      WriteMove(g, m.tid);
      OrderlyStep(Visible(g), Seen(m));
    } else {
      AcquireMove(g, m.tid);
      if !Silent(g, m) { OrderlyStep(Visible(g), Seen(m)); }
    }
  }

  /** The events of the await-level machine that the moves of a run are seen as. */
  ghost function Shown(gs: seq<Guarded>, ms: seq<Move>, k: nat): seq<Event>
    requires GuardedRun(gs, ms) && k <= |ms|
  {
    if k == 0 then []
    else Shown(gs, ms, k - 1) + if Silent(gs[k - 1], ms[k - 1]) then [] else [Seen(ms[k - 1])]
  }

  /**
   Every run with the mutex, handlers and half-done operations interleaved at every await,
   is seen as a run of the await-level machine: the same events in the same order without
   the silent moves, ending in the same clients, aliases, mail and handlers, and in the
   same members and ports whenever the lock is free.
   */
  lemma {:induction false} SimulatesAwaits(gs: seq<Guarded>, ms: seq<Move>, k: nat) returns (ws: seq<World>)
    requires GuardedRun(gs, ms) && k <= |ms|
    ensures Run(ws, Shown(gs, ms, k)) && ws[|ws| - 1] == Visible(gs[k])
    ensures GuardInv(gs[k]) && (gs[k].holder == None ==> Visible(gs[k]) == gs[k].world)
  {
    hide Enabled, Next, Possible, Moved, Seen;
    if k == 0 {
      ws := [START];
      FreeAtFirst();
    } else {
      var prior := SimulatesAwaits(gs, ms, k - 1);
      MoveIsStep(gs[k - 1], ms[k - 1]);
      if Silent(gs[k - 1], ms[k - 1]) {
        ws := prior;
        assert Shown(gs, ms, k) == Shown(gs, ms, k - 1);
      } else {
        ws := prior + [Visible(gs[k])];
        OneMore(prior, Shown(gs, ms, k - 1), Seen(ms[k - 1]));
      }
    }
  }

  lemma OneMore(ws: seq<World>, es: seq<Event>, e: Event)
    requires Run(ws, es) && Enabled(ws[|ws| - 1], e)
    ensures Run(ws + [Next(ws[|ws| - 1], e)], es + [e])
  {
    hide Enabled, Next;
  }

  lemma FreeAtFirst()
    ensures GuardInv(FREE) && Visible(FREE) == START && Run([START], [])
  {}
}
