/** One pool of the broker: its queue behind a mutex and condition variable, its
    workers, the submitters and the drain and cancel signals, as an interleaved
    transition system. Every action is one atomic step of the source; everything
    between `mu.Lock` and `mu.Unlock` that only the lock protects is one step. */
module Pools {
  import opened Jobs
  import opened PriorityQueues
  import opened Workers

  datatype Pool = Pool(
    kind: Kind,
    queue: seq<JobItem>,      // the stable list the heap refines
    seqNo: nat,
    lock: Option<nat>,        // worker inside a multi-step critical section of pop
    pcs: seq<Pc>,
    active: int, idle: int, completed: nat, errors: nat,
    draining: bool, cancelled: bool,
    inflight: set<Job>,       // Submits past the draining check, before their push
    // history
    pushed: seq<Job>, popped: seq<Job>, closed: seq<Job>,
    announced: seq<Job>,      // ReadyCh closings
    heard: set<Job>,          // jobs whose listening wait succeeded
    rejected: nat, untallied: nat,
    gaveUp: bool,             // some pop has returned false
    lastEmpty: nat,           // |pushed| when pop last found the queue empty and returned false
    flagAt: nat,              // |pushed| when draining was set
    atFlag: set<Job>,         // inflight when draining was set
    drainWoke: bool,          // Drain's broadcast has happened
    cancelWoke: bool,
    straggler: Option<nat>)   // worker between its draining check and Wait at that broadcast

  /** `conns` workers, as Start leaves them. */
  function Init(kind: Kind, conns: nat): Pool {
    Pool(kind, [], 0, None, seq(conns, _ => if kind.Tts? then Popping(Entering) else Arming),
         0, 0, 0, 0, false, false, {}, [], [], [], [], {}, 0, 0, false, 0, 0, {}, false, false, None)
  }

  datatype Action =
    | PassDrainCheck(job: Job)               // Submit read draining == false
    | Push(job: Job, wake: Option<nat>)      // push: append, Signal one sleeper
    | Acquire(w: nat)                        // pop: lock, test Len, pop if non-empty
    | LookCancel(w: nat)                     // pop: ctx.Err()
    | LookDrain(w: nat)                      // pop: draining.Load()
    | Park(w: nat)                           // pop: cond.Wait releases the lock
    | Work(w: nat, op: Op)                   // any step outside pop
    | SetDraining | DrainBroadcast
    | Cancel | CancelBroadcast

  predicate IsAsleep(s: Pool, w: nat) {
    w < |s.pcs| && s.pcs[w] == Popping(Asleep)
  }

  ghost predicate SomeAsleep(s: Pool) {
    exists w: nat :: IsAsleep(s, w)
  }

  /** What a step outside pop needs from this pool's shared state; waits on the session
      itself (listening, connection errors, jobDone, timeouts) may end at any time here. */
  predicate WorkGuard(s: Pool, pc: Pc, op: Op) {
    match op
    case SeeCtx => s.cancelled
    case Quit => if pc.Dialing? then s.cancelled else pc.Deciding? && (!pc.dropped || s.cancelled || s.draining)
    case Reconnect => !s.draining
    case GotJob(_) | GotFalse => false
    case _ => true
  }

  ghost predicate Enabled(s: Pool, a: Action) {
    match a
    case PassDrainCheck(j) => !s.draining && j !in s.inflight && j !in s.pushed
    case Push(j, wake) =>
      j in s.inflight && s.lock == None
      && (if wake.Some? then IsAsleep(s, wake.value) else !SomeAsleep(s))
    case Acquire(w) => w < |s.pcs| && s.lock == None && (s.pcs[w] == Popping(Entering) || s.pcs[w] == Popping(Woken))
    case LookCancel(w) => w < |s.pcs| && s.pcs[w] == Popping(SawEmpty)
    case LookDrain(w) => w < |s.pcs| && s.pcs[w] == Popping(SawNoCancel)
    case Park(w) => w < |s.pcs| && s.pcs[w] == Popping(Parking)
    case Work(w, op) => w < |s.pcs| && WorkGuard(s, s.pcs[w], op) && Goto(s.kind, s.pcs[w], op).Some?
    case SetDraining => !s.draining
    case DrainBroadcast => s.draining && !s.drainWoke
    case Cancel => !s.cancelled
    case CancelBroadcast => s.cancelled && !s.cancelWoke
  }

  function Wakened(pc: Pc): Pc {
    if pc == Popping(Asleep) then Popping(Woken) else pc
  }

  function WakeAll(pcs: seq<Pc>): (r: seq<Pc>)
    ensures |r| == |pcs|
    ensures forall i | 0 <= i < |pcs| :: r[i] == Wakened(pcs[i])
  {
    seq(|pcs|, i requires 0 <= i < |pcs| => Wakened(pcs[i]))
  }

  /** pop returned false to `w`: the queue is empty and the lock is released. */
  function GiveUp(s: Pool, w: nat): Pool
    requires w < |s.pcs|
  {
    s.(lock := None, gaveUp := true, lastEmpty := |s.pushed|,
       pcs := s.pcs[w := if s.kind.Tts? then Exited else PopFailed])
  }

  function DoWork(s: Pool, w: nat, op: Op): Pool
    requires w < |s.pcs| && Goto(s.kind, s.pcs[w], op).Some?
  {
    var pc := s.pcs[w];
    s.(pcs := s.pcs[w := Goto(s.kind, pc, op).value],
       active := s.active + ActiveDelta(pc),
       idle := s.idle + IdleDelta(pc),
       completed := s.completed + Flag(CountsCompleted(pc)),
       errors := s.errors + Flag(CountsError(pc)),
       closed := if ClosesResult(pc) then s.closed + [pc.job] else s.closed,
       announced := if pc.Announcing? && pc.job.hasReady then s.announced + [pc.job] else s.announced,
       heard := if op.SeeListening? && pc.AwaitingListening? then s.heard + {pc.job} else s.heard,
       rejected := s.rejected + Flag(pc.Rejecting?),
       untallied := s.untallied + Flag(ClosesUntallied(pc)))
  }

  function Step(s: Pool, a: Action): Pool
    requires Enabled(s, a)
  {
    match a
    case PassDrainCheck(j) => s.(inflight := s.inflight + {j})
    case Push(j, wake) =>
      s.(inflight := s.inflight - {j},
         seqNo := s.seqNo + 1,
         queue := Enqueue(s.queue, JobItem(j, j.priority, s.seqNo + 1)),
         pushed := s.pushed + [j],
         pcs := if wake.Some? then s.pcs[wake.value := Popping(Woken)] else s.pcs)
    case Acquire(w) =>
      if s.queue != [] then
        s.(queue := s.queue[1..], popped := s.popped + [s.queue[0].job],
           pcs := s.pcs[w := Checking(s.queue[0].job)])
      else
        s.(lock := Some(w), pcs := s.pcs[w := Popping(SawEmpty)])
    case LookCancel(w) =>
      if s.cancelled then GiveUp(s, w) else s.(pcs := s.pcs[w := Popping(SawNoCancel)])
    case LookDrain(w) =>
      if s.draining then GiveUp(s, w) else s.(pcs := s.pcs[w := Popping(Parking)])
    case Park(w) => s.(lock := None, pcs := s.pcs[w := Popping(Asleep)])
    case Work(w, op) => DoWork(s, w, op)
    case SetDraining => s.(draining := true, flagAt := |s.pushed|, atFlag := s.inflight)
    case DrainBroadcast =>
      s.(drainWoke := true, pcs := WakeAll(s.pcs),
         straggler := if s.lock.Some? && s.lock.value < |s.pcs| && s.pcs[s.lock.value] == Popping(Parking)
                      then s.lock else None)
    case Cancel => s.(cancelled := true)
    case CancelBroadcast => s.(cancelWoke := true, pcs := WakeAll(s.pcs))
  }

  // ---------- Runs ----------

  ghost predicate ValidRun(s: Pool, run: seq<Action>)
    decreases run
  {
    run == [] || (Enabled(s, run[0]) && ValidRun(Step(s, run[0]), run[1..]))
  }

  ghost function Exec(s: Pool, run: seq<Action>): Pool
    requires ValidRun(s, run)
    decreases run
  {
    if run == [] then s else Exec(Step(s, run[0]), run[1..])
  }

  // ---------- Counting over workers ----------

  datatype What = InJob | Idling | IsWoken | Pending | Effort

  /** Steps a worker can still take before it must pop again or has exited. */
  function Rank(pc: Pc): nat {
    match pc
    case Exited => 0
    case Popping(SawNoCancel) => 10
    case Popping(SawEmpty) => 11
    case Popping(Entering) | Popping(Woken) => 12
    case Popping(Asleep) => 13
    case Popping(Parking) => 14
    case Deciding(_) => 1
    case HangingUp(_) => 2
    case JoiningReader(_) => 3
    case Cancelling(_) => 4
    case PopFailed => 5
    case Rejecting(_) | TtsClose(_, _) => 15
    case TtsSend(_, _) => 16
    case TtsCount(_, _) => 17
    case TtsLeave(_, _) => 18
    case TtsCall(_) => 19
    case TtsEnter(_) => 20
    case EnteringIdle => 13
    case LeavingActive(_) => 14
    case Closing(_, _) => 15
    case Tallying(_, _) => 16
    case AwaitingCallbacks(_, _) => 17
    case Clearing(_, _) => 18
    case Signalling(_, _) => 19
    case Apologising(_, _) => 16
    case JoiningAudio(_) => 20
    case Selecting(_) => 21
    case Spawning(_) => 22
    case Wiring(_) => 23
    case Recapturing(_) => 24
    case Writing(_) => 25
    case Resetting(_) => 26
    case Announcing(_) => 27
    case AwaitingListening(_) => 28
    case EnteringActive(_) => 29
    case LeavingIdle(_) => 30
    case Checking(_) => 31
    case Capturing => 13
    case GoingIdle => 14
    case Arming => 15
    case Dialing => 16
  }

  function Weight(what: What, kind: Kind, pc: Pc): nat {
    match what
    case InJob => Flag(InJobPhase(pc))
    case Idling => Flag(InWaitingPhase(kind, pc))
    case IsWoken => Flag(pc == Popping(Woken))
    case Pending => Flag(Unaccounted(pc))
    case Effort => Rank(pc)
  }

  function Sum(what: What, kind: Kind, pcs: seq<Pc>): nat {
    if pcs == [] then 0 else Weight(what, kind, pcs[0]) + Sum(what, kind, pcs[1..])
  }

  lemma {:induction false} SumUpdate(what: What, kind: Kind, pcs: seq<Pc>, w: nat, pc: Pc)
    requires w < |pcs|
    ensures Sum(what, kind, pcs[w := pc]) == Sum(what, kind, pcs) - Weight(what, kind, pcs[w]) + Weight(what, kind, pc)
  {
    if w == 0 {
      assert pcs[w := pc][1..] == pcs[1..];
    } else {
      assert pcs[w := pc][1..] == pcs[1..][w - 1 := pc];
      SumUpdate(what, kind, pcs[1..], w - 1, pc);
    }
  }

  lemma {:induction false} SumWakeAll(what: What, kind: Kind, pcs: seq<Pc>)
    requires !what.IsWoken?
    ensures if what.Effort? then Sum(what, kind, WakeAll(pcs)) <= Sum(what, kind, pcs)
            else Sum(what, kind, WakeAll(pcs)) == Sum(what, kind, pcs)
  {
    if pcs != [] {
      assert WakeAll(pcs)[1..] == WakeAll(pcs[1..]);
      SumWakeAll(what, kind, pcs[1..]);
    }
  }

  /** A sum of zero-or-one weights: it cannot exceed the number of workers, and reaches it only if all count. */
  lemma {:induction false} SumOfFlags(what: What, kind: Kind, pcs: seq<Pc>)
    requires !what.Effort?
    ensures Sum(what, kind, pcs) <= |pcs|
    ensures Sum(what, kind, pcs) == |pcs| <==> forall w | 0 <= w < |pcs| :: Weight(what, kind, pcs[w]) == 1
    ensures Sum(what, kind, pcs) == 0 <==> forall w | 0 <= w < |pcs| :: Weight(what, kind, pcs[w]) == 0
  {
    if pcs != [] {
      var t := pcs[1..];
      SumOfFlags(what, kind, t);
      assert forall w | 0 <= w < |t| :: t[w] == pcs[w + 1];
      assert forall w | 0 < w < |pcs| :: pcs[w] == t[w - 1];
    }
  }

  lemma {:induction false} DisjointPhases(kind: Kind, pcs: seq<Pc>)
    ensures Sum(InJob, kind, pcs) + Sum(Idling, kind, pcs) <= |pcs|
  {
    if pcs != [] {
      DisjointPhases(kind, pcs[1..]);
    }
  }

  // ---------- Jobs in workers' hands ----------

  function HeldOf(pc: Pc): multiset<Job> {
    if Held(pc).Some? then multiset{Held(pc).value} else multiset{}
  }

  function Union(ms: seq<multiset<Job>>): multiset<Job> {
    if ms == [] then multiset{} else ms[0] + Union(ms[1..])
  }

  function HeldList(pcs: seq<Pc>): (r: seq<multiset<Job>>)
    ensures |r| == |pcs|
    ensures forall i | 0 <= i < |pcs| :: r[i] == HeldOf(pcs[i])
  {
    seq(|pcs|, i requires 0 <= i < |pcs| => HeldOf(pcs[i]))
  }

  function HeldJobs(pcs: seq<Pc>): multiset<Job> {
    Union(HeldList(pcs))
  }

  lemma {:induction false} UnionUpdate(ms: seq<multiset<Job>>, w: nat, m: multiset<Job>)
    requires w < |ms|
    ensures ms[w] <= Union(ms)
    ensures Union(ms[w := m]) == Union(ms) - ms[w] + m
  {
    if w == 0 {
      assert ms[w := m][1..] == ms[1..];
    } else {
      assert ms[w := m][1..] == ms[1..][w - 1 := m];
      UnionUpdate(ms[1..], w - 1, m);
    }
  }

  lemma HeldUpdate(pcs: seq<Pc>, w: nat, pc: Pc)
    requires w < |pcs|
    ensures HeldOf(pcs[w]) <= HeldJobs(pcs)
    ensures HeldJobs(pcs[w := pc]) == HeldJobs(pcs) - HeldOf(pcs[w]) + HeldOf(pc)
  {
    assert HeldList(pcs[w := pc]) == HeldList(pcs)[w := HeldOf(pc)];
    UnionUpdate(HeldList(pcs), w, HeldOf(pc));
  }

  lemma HeldWakeAll(pcs: seq<Pc>)
    ensures HeldJobs(WakeAll(pcs)) == HeldJobs(pcs)
  {
    assert HeldList(WakeAll(pcs)) == HeldList(pcs);
  }

  /** Two different workers holding the same job would count it twice. */
  lemma HeldTwice(pcs: seq<Pc>, v: nat, w: nat)
    requires v < |pcs| && w < |pcs| && v != w && Held(pcs[v]).Some? && Held(pcs[v]) == Held(pcs[w])
    ensures HeldJobs(pcs)[Held(pcs[v]).value] >= 2
  {
    var j := Held(pcs[v]).value;
    HeldUpdate(pcs, v, Exited);
    HeldUpdate(pcs[v := Exited], w, Exited);
    assert HeldOf(pcs[v])[j] == 1 && HeldOf(pcs[v := Exited][w])[j] == 1;
  }
}
