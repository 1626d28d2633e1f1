/**
 The allocator under its mutex. createIPAddress and createTCPAddress await once
 more between choosing a free number and writing it, with the lock held; the
 other three operations run through once they have the lock. Any number of
 operations wait; the machine refines one whose operations are atomic.
 */
module Locking {
  import opened Wrappers
  import opened Address
  import opened Allocator

  datatype Op =
    | CreateIPOp(subnet: string)
    | CreateTCPOp(ipAddress: string)
    | ClaimOp(tcpAddress: string)
    | RemoveIPOp(ipAddress: string)
    | RemoveTCPOp(tcpAddress: string)

  datatype Outcome = Returned(text: string) | Completed | Threw(error: Error)

  /** What a waiting operation is modelled for when it gets the lock. */
  predicate Applicable(subnets: Subnets, op: Op) { op.ClaimOp? ==> Claimable(subnets, op.tcpAddress) }

  /** The atomic operation. */
  function Apply(subnets: Subnets, op: Op): (Subnets, Outcome)
    requires Applicable(subnets, op)
  {
    match op
    case CreateIPOp(subnet) => (CreateIP(subnets, subnet).0, Returned(CreateIP(subnets, subnet).1))
    case CreateTCPOp(ipAddress) =>
      (match CreateTCP(subnets, ipAddress)
       case Ok((after, alias)) => (after, Returned(alias))
       case Err(e) => (subnets, Threw(e)))
    case ClaimOp(tcpAddress) =>
      (match ClaimTCP(subnets, tcpAddress)
       case Ok(after) => (after, Completed)
       case Err(e) => (subnets, Threw(e)))
    case RemoveIPOp(ipAddress) => (RemoveIP(subnets, ipAddress), Completed)
    case RemoveTCPOp(tcpAddress) => (RemoveTCP(subnets, tcpAddress), Completed)
  }

  // --------------------------------------------------------- the machine

  /** `Chosen` is suspended at the inner await; `before` is history: what it found when it got the lock. */
  datatype Thread = Waiting(op: Op) | Chosen(op: Op, number: nat, before: Subnets) | Finished(outcome: Outcome)

  /** `log` is history: completed operations with what they returned, in order of completion. */
  datatype Machine = Machine(
    subnets: Subnets,
    holder: Option<nat>,
    threads: map<nat, Thread>,
    log: seq<(Op, Outcome)>)

  const START := Machine(map[], None, map[], [])

  datatype Event = Begin(tid: nat, op: Op) | Acquire(tid: nat) | Write(tid: nat)

  predicate Enabled(m: Machine, e: Event) {
    match e
    case Begin(tid, op) => tid !in m.threads && (op.CreateIPOp? ==> WellFormedSubnet(op.subnet))
    case Acquire(tid) =>
      m.holder == None && tid in m.threads && m.threads[tid].Waiting? && Applicable(m.subnets, m.threads[tid].op)
    case Write(tid) => m.holder == Some(tid)
  }

  function Finish(m: Machine, tid: nat, op: Op, subnets: Subnets, outcome: Outcome): Machine {
    Machine(subnets, None, m.threads[tid := Finished(outcome)], m.log + [(op, outcome)])
  }

  function Next(m: Machine, e: Event): Machine
    requires Enabled(m, e)
  {
    match e
    case Begin(tid, op) => m.(threads := m.threads[tid := Waiting(op)])
    case Acquire(tid) =>
      var op := m.threads[tid].op;
      (match op
       case CreateIPOp(subnet) =>
         var ensured := EnsureSubnet(m.subnets, subnet);
         m.(subnets := ensured, holder := Some(tid),
            threads := m.threads[tid := Chosen(op, LowestFree(ensured[subnet].Keys), m.subnets)])
       case CreateTCPOp(ipAddress) =>
         (match Locate(m.subnets, ipAddress)
          case Err(e) => Finish(m, tid, op, m.subnets, Threw(e))
          case Ok(ip) =>
            var sorted := Sort(m.subnets[ip.subnet][ip.suffix]);
            m.(subnets := SetPorts(m.subnets, ip, sorted), holder := Some(tid),
               threads := m.threads[tid := Chosen(op, Scan(sorted, 0), m.subnets)]))
       case _ => Finish(m, tid, op, Apply(m.subnets, op).0, Apply(m.subnets, op).1))
    case Write(tid) =>
      if tid !in m.threads || !m.threads[tid].Chosen? then m
      else
        var Chosen(op, number, _) := m.threads[tid];
        (match op
         case CreateIPOp(subnet) =>
           if number > MAX_SUFFIX then Finish(m, tid, op, m.subnets, Returned(REJECTED))
           else if subnet !in m.subnets then m
           else Finish(m, tid, op, SetPorts(m.subnets, Ip(subnet, number), []), Returned(ToIPAddress(subnet, number)))
         case CreateTCPOp(ipAddress) =>
           (match Locate(m.subnets, ipAddress)
            case Err(_) => m
            case Ok(ip) =>
              Finish(m, tid, op, SetPorts(m.subnets, ip, m.subnets[ip.subnet][ip.suffix] + [number]),
                     Returned(PrintTcp(Tcp(ip, number)))))
         case _ => m)
  }

  ghost predicate Run(ms: seq<Machine>, es: seq<Event>) {
    && |ms| == |es| + 1 && ms[0] == START
    && forall k | 0 <= k < |es| :: Enabled(ms[k], es[k]) && ms[k + 1] == Next(ms[k], es[k])
  }

  // ------------------------------------------------------- the refinement

  /** What the allocator looks like to everyone else: an unfinished operation has not happened. */
  function Abstract(m: Machine): Subnets {
    if m.holder.Some? && m.holder.value in m.threads && m.threads[m.holder.value].Chosen?
    then m.threads[m.holder.value].before
    else m.subnets
  }

  /** What the holder of the lock has done so far, and the number it has chosen. */
  predicate HalfWay(subnets: Subnets, thread: Thread) {
    thread.Chosen? &&
    match thread.op
    case CreateIPOp(subnet) =>
      && WellFormedSubnet(subnet)
      && subnets == EnsureSubnet(thread.before, subnet) && thread.number == FreeSuffix(thread.before, subnet)
    case CreateTCPOp(ipAddress) =>
      && Locate(thread.before, ipAddress).Ok?
      && var ip := Locate(thread.before, ipAddress).value;
      && var sorted := Sort(thread.before[ip.subnet][ip.suffix]);
      && subnets == SetPorts(thread.before, ip, sorted) && thread.number == Scan(sorted, 0)
    case _ => false
  }

  ghost predicate LockInv(m: Machine) {
    && Tidy(m.subnets) && Tidy(Abstract(m))
    && (m.holder.Some? ==> m.holder.value in m.threads && HalfWay(m.subnets, m.threads[m.holder.value]))
    && (forall tid | tid in m.threads && m.threads[tid].Waiting? && m.threads[tid].op.CreateIPOp? ::
          WellFormedSubnet(m.threads[tid].op.subnet))
  }

  /** The operations of a log, one after the other, each returning what the log says. */
  ghost predicate Replays(log: seq<(Op, Outcome)>, subnets: Subnets) {
    if log == [] then subnets == map[]
    else
      var (op, outcome) := log[|log| - 1];
      exists before: Subnets :: Replays(log[..|log| - 1], before) && Applicable(before, op)
        && Apply(before, op) == (subnets, outcome)
  }

  lemma ApplyTidy(subnets: Subnets, op: Op)
    requires Tidy(subnets) && Applicable(subnets, op) && (op.CreateIPOp? ==> WellFormedSubnet(op.subnet))
    ensures Tidy(Apply(subnets, op).0)
  {
    match op
    case CreateIPOp(subnet) => CreateIPEffect(subnets, subnet);
    case CreateTCPOp(ipAddress) => if CreateTCP(subnets, ipAddress).Ok? { CreateTCPEffect(subnets, ipAddress); }
    case ClaimOp(tcpAddress) => ClaimTCPEffect(subnets, tcpAddress);
    case RemoveIPOp(ipAddress) => RemoveIPEffect(subnets, ipAddress);
    case RemoveTCPOp(tcpAddress) => RemoveTCPEffect(subnets, tcpAddress);
  }

  /** The number chosen before the inner await is still free at the write. */
  lemma StillFree(m: Machine)
    requires LockInv(m) && m.holder.Some?
    ensures var thread := m.threads[m.holder.value];
      match thread.op
      case CreateIPOp(subnet) => subnet in m.subnets && IsLowestFree(thread.number, m.subnets[subnet].Keys)
      case CreateTCPOp(ipAddress) =>
        && Locate(m.subnets, ipAddress).Ok?
        && var ip := Locate(m.subnets, ipAddress).value;
           IsLowestFree(thread.number, Elements(m.subnets[ip.subnet][ip.suffix]))
      case _ => false
  {
    var thread := m.threads[m.holder.value];
    if thread.op.CreateTCPOp? {
      var ip := Locate(thread.before, thread.op.ipAddress).value;
      var ports := thread.before[ip.subnet][ip.suffix];
      assert Has(thread.before, ip);
      ScanIsLowestFree(ports);
      SortKeeps(ports);
    }
  }

  /** The write completes exactly the atomic operation on what the holder found. */
  lemma WriteIsAtomic(m: Machine, tid: nat)
    requires LockInv(m) && m.holder == Some(tid)
    ensures var thread, m' := m.threads[tid], Next(m, Write(tid));
      && Applicable(thread.before, thread.op)
      && m'.holder == None && m'.threads == m.threads[tid := Finished(Apply(thread.before, thread.op).1)]
      && m'.subnets == Apply(thread.before, thread.op).0
      && m'.log == m.log + [(thread.op, Apply(thread.before, thread.op).1)]
  {
    hide Split, ParseInt, Sort, Scan, LowestFree;
    var thread, m' := m.threads[tid], Next(m, Write(tid));
    match thread.op
    case CreateIPOp(subnet) =>
      assert m'.subnets == CreateIP(thread.before, subnet).0;
    case CreateTCPOp(ipAddress) =>
      var ip := Locate(thread.before, ipAddress).value;
      var sorted := Sort(thread.before[ip.subnet][ip.suffix]);
      assert Locate(m.subnets, ipAddress) == Ok(ip) && m.subnets[ip.subnet][ip.suffix] == sorted;
      SetPortsTwice(thread.before, ip, sorted, sorted + [thread.number]);
      assert m'.subnets == SetPorts(thread.before, ip, sorted + [thread.number]);
  }

  lemma ReplayMore(log: seq<(Op, Outcome)>, before: Subnets, op: Op)
    requires Replays(log, before) && Applicable(before, op)
    ensures Replays(log + [(op, Apply(before, op).1)], Apply(before, op).0)
  {
    var more := log + [(op, Apply(before, op).1)];
    assert more[..|more| - 1] == log && more[|more| - 1] == (op, Apply(before, op).1);
    assert Replays(more[..|more| - 1], before);
  }

  /** Getting the lock: either nothing has happened yet, or a whole operation has. */
  lemma AcquireStep(m: Machine, tid: nat)
    requires LockInv(m) && Enabled(m, Acquire(tid))
    ensures var op, m' := m.threads[tid].op, Next(m, Acquire(tid));
      && LockInv(m')
      && (m'.holder == Some(tid) ==> Abstract(m') == Abstract(m) && m'.log == m.log)
      && (m'.holder == None ==>
            Abstract(m') == Apply(m.subnets, op).0 && m'.log == m.log + [(op, Apply(m.subnets, op).1)])
  {
    hide Split, ParseInt, Sort, Scan, LowestFree, RemoveIP, RemoveTCP, ClaimTCP, Claimable;
    var op, m' := m.threads[tid].op, Next(m, Acquire(tid));
    match op
    case CreateIPOp(subnet) => EnsureSubnetEffect(m.subnets, subnet);
    case CreateTCPOp(ipAddress) =>
      if Locate(m.subnets, ipAddress).Ok? {
        var ip := Locate(m.subnets, ipAddress).value;
        assert Has(m.subnets, ip);
        SortKeeps(m.subnets[ip.subnet][ip.suffix]);
        SetPortsEffect(m.subnets, ip, Sort(m.subnets[ip.subnet][ip.suffix]));
      }
    case _ => ApplyTidy(m.subnets, op);
  }

  lemma Step(m: Machine, e: Event)
    requires LockInv(m) && Enabled(m, e) && Replays(m.log, Abstract(m))
    ensures LockInv(Next(m, e)) && Replays(Next(m, e).log, Abstract(Next(m, e)))
  {
    hide HalfWay, Apply, Tidy;
    match e
    case Begin(tid, op) =>
    case Acquire(tid) =>
      AcquireStep(m, tid);
      if Next(m, e).holder == None { ReplayMore(m.log, m.subnets, m.threads[tid].op); }
    case Write(tid) =>
      var thread := m.threads[tid];
      WriteIsAtomic(m, tid);
      HolderOp(m, tid);
      ApplyTidy(thread.before, thread.op);
      ReplayMore(m.log, thread.before, thread.op);
  }

  lemma HolderOp(m: Machine, tid: nat)
    requires LockInv(m) && m.holder == Some(tid)
    ensures m.threads[tid].Chosen? && (m.threads[tid].op.CreateIPOp? ==> WellFormedSubnet(m.threads[tid].op.subnet))
  {}

  /**
   In every run, with any number of operations under way, what everyone else sees
   is the result of the completed operations run atomically, in order, each with
   the outcome it really had; and no port list ever holds a duplicate, not even
   between the choice and the write.
   */
  lemma {:induction false} RefinesAtomic(ms: seq<Machine>, es: seq<Event>, k: nat)
    requires Run(ms, es) && k < |ms|
    ensures LockInv(ms[k]) && Replays(ms[k].log, Abstract(ms[k]))
    ensures forall ip: Ip | Has(ms[k].subnets, ip) :: Distinct(ms[k].subnets[ip.subnet][ip.suffix])
  {
    if k > 0 {
      RefinesAtomic(ms, es, k - 1);
      Step(ms[k - 1], es[k - 1]);
    }
  }
}
