/** What every step of a pool keeps: mutual exclusion, the slot and outcome books, the
    place of every job, and enough wake-ups. */
module PoolSafety {
  import opened Jobs
  import opened PriorityQueues
  import opened Workers
  import opened Pools

  // ---------- What a step outside pop does to one worker ----------

  predicate InCritical(pc: Pc) {
    pc == Popping(SawEmpty) || pc == Popping(SawNoCancel) || pc == Popping(Parking)
  }

  lemma GotoControl(kind: Kind, pc: Pc, op: Op)
    requires OfKind(kind, pc) && !pc.Popping? && Goto(kind, pc, op).Some?
    ensures var next := Goto(kind, pc, op).value;
      OfKind(kind, next) && !InCritical(next) && (next.Popping? ==> next == Popping(Entering))
  {
  }

  lemma GotoKeepsActive(kind: Kind, pc: Pc, op: Op)
    requires OfKind(kind, pc) && !pc.Popping? && Goto(kind, pc, op).Some?
    ensures Flag(InJobPhase(Goto(kind, pc, op).value)) == Flag(InJobPhase(pc)) + ActiveDelta(pc)
  {
  }

  lemma GotoKeepsIdle(kind: Kind, pc: Pc, op: Op)
    requires OfKind(kind, pc) && !pc.Popping? && Goto(kind, pc, op).Some?
    ensures Flag(InWaitingPhase(kind, Goto(kind, pc, op).value)) == Flag(InWaitingPhase(kind, pc)) + IdleDelta(pc)
  {
  }

  lemma GotoKeepsOutcomes(kind: Kind, pc: Pc, op: Op)
    requires !pc.Popping? && Goto(kind, pc, op).Some?
    ensures Flag(Unaccounted(pc)) == Flag(Unaccounted(Goto(kind, pc, op).value))
              + Flag(CountsCompleted(pc)) + Flag(CountsError(pc)) + Flag(pc.Rejecting?) + Flag(ClosesUntallied(pc))
  {
  }

  lemma WorkOutsidePop(s: Pool, w: nat, op: Op)
    requires Enabled(s, Work(w, op))
    ensures w < |s.pcs| && !s.pcs[w].Popping? && Goto(s.kind, s.pcs[w], op).Some?
  {
  }

  /** Actions inside pop. */
  predicate InPop(a: Action) {
    a.Acquire? || a.LookCancel? || a.LookDrain? || a.Park?
  }

  /** Actions on flags and sleepers only. */
  predicate IsSignal(a: Action) {
    a.PassDrainCheck? || a.SetDraining? || a.DrainBroadcast? || a.Cancel? || a.CancelBroadcast?
  }

  // ---------- Mutual exclusion ----------

  ghost predicate Locking(s: Pool) {
    && (forall w | 0 <= w < |s.pcs| :: OfKind(s.kind, s.pcs[w]))
    && (s.lock.Some? ==> s.lock.value < |s.pcs| && s.queue == [])
    && (forall w: nat | w < |s.pcs| :: InCritical(s.pcs[w]) <==> s.lock == Some(w))
  }

  lemma LockingPush(s: Pool, j: Job, wake: Option<nat>)
    requires Enabled(s, Push(j, wake)) && Locking(s)
    ensures Locking(Step(s, Push(j, wake)))
  {
    hide DoWork, Goto, WorkGuard, Enqueue;
  }

  lemma PopKinds(kind: Kind)
    ensures forall wait :: OfKind(kind, Popping(wait))
    ensures forall j :: OfKind(kind, Checking(j))
    ensures OfKind(kind, Exited) && OfKind(Stt, PopFailed)
  {
  }

  lemma LockingAcquire(s: Pool, w: nat)
    requires Enabled(s, Acquire(w)) && Locking(s)
    ensures Locking(Step(s, Acquire(w)))
  {
    hide DoWork, Goto, WorkGuard, WakeAll, Enqueue, OfKind, GiveUp;
    PopKinds(s.kind);
  }

  lemma LockingGiveUp(s: Pool, w: nat)
    requires w < |s.pcs| && InCritical(s.pcs[w]) && Locking(s)
    ensures Locking(GiveUp(s, w))
  {
    hide OfKind;
    PopKinds(s.kind);
  }

  lemma LockingLook(s: Pool, a: Action)
    requires InPop(a) && !a.Acquire? && Enabled(s, a) && Locking(s)
    ensures Locking(Step(s, a))
  {
    hide DoWork, Goto, WorkGuard, WakeAll, Enqueue, OfKind, GiveUp;
    PopKinds(s.kind);
    LockingGiveUp(s, a.w);
  }

  lemma LockingWork(s: Pool, w: nat, op: Op)
    requires Enabled(s, Work(w, op)) && Locking(s)
    ensures Locking(Step(s, Work(w, op)))
  {
    hide Goto, WorkGuard, ActiveDelta, IdleDelta, CountsCompleted, CountsError, ClosesResult, ClosesUntallied,
         OfKind, WakeAll, Enqueue, GiveUp;
    WorkOutsidePop(s, w, op);
    GotoControl(s.kind, s.pcs[w], op);
  }

  lemma LockingSignal(s: Pool, a: Action)
    requires IsSignal(a) && Enabled(s, a) && Locking(s)
    ensures Locking(Step(s, a))
  {
    hide DoWork, Goto, WorkGuard, GiveUp, Enqueue;
  }

  lemma LockingStep(s: Pool, a: Action)
    requires Enabled(s, a) && Locking(s)
    ensures Locking(Step(s, a))
  {
    hide Enabled, Step, Locking;
    match a {
      case Push(j, wake) => LockingPush(s, j, wake);
      case Work(w, op) => LockingWork(s, w, op);
      case Acquire(w) => LockingAcquire(s, w);
      case _ => if InPop(a) { LockingLook(s, a); } else { LockingSignal(s, a); }
    }
  }

  // ---------- Sums ----------

  /** The one worker an action moves, if any. */
  function Mover(a: Action): Option<nat> {
    match a
    case Push(_, wake) => wake
    case Acquire(w) => Some(w)
    case LookCancel(w) => Some(w)
    case LookDrain(w) => Some(w)
    case Park(w) => Some(w)
    case Work(w, _) => Some(w)
    case _ => None
  }

  /** How an action changes a sum over the workers. */
  lemma SumStep(what: What, s: Pool, a: Action)
    requires Enabled(s, a) && !what.IsWoken? && !what.Effort?
    ensures var t := Step(s, a);
      && t.kind == s.kind && |t.pcs| == |s.pcs|
      && (Mover(a).Some? ==> Mover(a).value < |s.pcs|)
      && Sum(what, s.kind, t.pcs) == Sum(what, s.kind, s.pcs)
           + (if Mover(a).None? then 0
              else Weight(what, s.kind, t.pcs[Mover(a).value]) - Weight(what, s.kind, s.pcs[Mover(a).value]))
  {
    hide Goto, WorkGuard, Weight, Sum, ActiveDelta, IdleDelta, CountsCompleted, CountsError, ClosesResult,
         ClosesUntallied, WakeAll, Enqueue;
    var t := Step(s, a);
    if Mover(a).Some? {
      var w := Mover(a).value;
      assert w < |s.pcs| && t.pcs == s.pcs[w := t.pcs[w]];
      SumUpdate(what, s.kind, s.pcs, w, t.pcs[w]);
    } else if a.DrainBroadcast? || a.CancelBroadcast? {
      SumWakeAll(what, s.kind, s.pcs);
    }
  }

  /** pop returning false moves one worker, and touches no counter and no list. */
  lemma GiveUpFrame(s: Pool, w: nat)
    requires w < |s.pcs|
    ensures var t := GiveUp(s, w);
      && t.active == s.active && t.idle == s.idle && t.completed == s.completed && t.errors == s.errors
      && t.rejected == s.rejected && t.untallied == s.untallied
      && t.queue == s.queue && t.seqNo == s.seqNo && t.pushed == s.pushed
      && t.announced == s.announced && t.heard == s.heard && t.popped == s.popped && t.closed == s.closed
      && t.pcs == s.pcs[w := if s.kind.Tts? then Exited else PopFailed]
  {
  }

  lemma QuietCounters(s: Pool, a: Action)
    requires Enabled(s, a) && !a.Work?
    ensures var t := Step(s, a);
      && t.active == s.active && t.idle == s.idle && t.completed == s.completed && t.errors == s.errors
      && t.rejected == s.rejected && t.untallied == s.untallied
  {
    hide Goto, WorkGuard, DoWork, WakeAll, Enqueue, GiveUp;
    if a.LookCancel? || a.LookDrain? {
      GiveUpFrame(s, a.w);
    }
  }

  /** Actions other than Work touch no counter; the worker they move is inside pop, and
      leaves it with a job exactly when it finds one. */
  lemma QuietStep(s: Pool, a: Action)
    requires Enabled(s, a) && !a.Work?
    ensures var t := Step(s, a);
      && t.active == s.active && t.idle == s.idle && t.completed == s.completed && t.errors == s.errors
      && t.rejected == s.rejected && t.untallied == s.untallied
    ensures Mover(a).Some? ==> Mover(a).value < |s.pcs| == |Step(s, a).pcs| && s.pcs[Mover(a).value].Popping?
    ensures Mover(a).Some? ==>
      var pc := Step(s, a).pcs[Mover(a).value];
      if a.Acquire? && s.queue != [] then pc == Checking(s.queue[0].job)
      else pc.Popping? || (!a.Push? && !a.Acquire? && pc == if s.kind.Tts? then Exited else PopFailed)
  {
    hide Goto, WorkGuard, DoWork, WakeAll, Enqueue, GiveUp;
    QuietCounters(s, a);
    if a.LookCancel? || a.LookDrain? {
      GiveUpFrame(s, a.w);
    }
  }

  lemma WorkStep(s: Pool, w: nat, op: Op)
    requires Enabled(s, Work(w, op))
    ensures var t, pc := Step(s, Work(w, op)), s.pcs[w];
      && Goto(s.kind, pc, op).Some? && t.pcs == s.pcs[w := Goto(s.kind, pc, op).value]
      && t.kind == s.kind && t.queue == s.queue && t.seqNo == s.seqNo
      && t.pushed == s.pushed && t.popped == s.popped && t.inflight == s.inflight
      && t.active == s.active + ActiveDelta(pc) && t.idle == s.idle + IdleDelta(pc)
      && t.completed == s.completed + Flag(CountsCompleted(pc))
      && t.errors == s.errors + Flag(CountsError(pc))
      && t.rejected == s.rejected + Flag(pc.Rejecting?)
      && t.untallied == s.untallied + Flag(ClosesUntallied(pc))
      && (ClosesResult(pc) ==> Held(pc) == Some(pc.job))
      && t.closed == if ClosesResult(pc) then s.closed + [pc.job] else s.closed
  {
    hide Goto, WorkGuard, WakeAll, Enqueue, GiveUp, ActiveDelta, IdleDelta, CountsCompleted, CountsError,
         ClosesUntallied;
  }

  // ---------- Slots ----------

  /** `active` and `idle` are the numbers of workers in those phases. */
  ghost predicate SlotBooks(s: Pool) {
    && s.active == Sum(InJob, s.kind, s.pcs)
    && s.idle == Sum(Idling, s.kind, s.pcs)
  }

  lemma SlotStep(s: Pool, a: Action)
    requires Enabled(s, a) && Locking(s) && SlotBooks(s)
    ensures SlotBooks(Step(s, a))
  {
    hide Goto, WorkGuard, DoWork, Step, Sum, Rank, ActiveDelta, IdleDelta, CountsCompleted, CountsError,
         ClosesResult, ClosesUntallied, OfKind;
    SumStep(InJob, s, a);
    SumStep(Idling, s, a);
    if a.Work? {
      WorkOutsidePop(s, a.w, a.op);
      WorkStep(s, a.w, a.op);
      assert OfKind(s.kind, s.pcs[a.w]);
      GotoKeepsActive(s.kind, s.pcs[a.w], a.op);
      GotoKeepsIdle(s.kind, s.pcs[a.w], a.op);
    } else {
      QuietStep(s, a);
    }
  }

  // ---------- Outcomes ----------

  /** Every pushed job is queued, in hand, or in exactly one of the outcome counts. */
  ghost predicate OutcomeBooks(s: Pool) {
    |s.pushed| == |s.queue| + Sum(Pending, s.kind, s.pcs) + s.completed + s.errors + s.rejected + s.untallied
  }

  lemma QueueLengths(s: Pool, a: Action)
    requires Enabled(s, a)
    ensures var t := Step(s, a);
      && |t.pushed| == |s.pushed| + (if a.Push? then 1 else 0)
      && |t.queue| == |s.queue| + (if a.Push? then 1 else if a.Acquire? && s.queue != [] then -1 else 0)
  {
    hide Goto, WorkGuard, WakeAll, DoWork, GiveUp;
    if a.LookCancel? || a.LookDrain? {
      GiveUpFrame(s, a.w);
    }
    if a.Work? {
      WorkOutsidePop(s, a.w, a.op);
      WorkStep(s, a.w, a.op);
    }
  }

  lemma OutcomeStep(s: Pool, a: Action)
    requires Enabled(s, a) && OutcomeBooks(s)
    ensures OutcomeBooks(Step(s, a))
  {
    hide Goto, WorkGuard, DoWork, Step, Sum, Rank, ActiveDelta, IdleDelta, CountsCompleted, CountsError,
         ClosesResult, ClosesUntallied, OfKind, Enabled;
    SumStep(Pending, s, a);
    QueueLengths(s, a);
    if a.Work? {
      WorkOutsidePop(s, a.w, a.op);
      WorkStep(s, a.w, a.op);
      GotoKeepsOutcomes(s.kind, s.pcs[a.w], a.op);
    } else {
      QuietStep(s, a);
    }
  }

  // ---------- Places ----------

  /** The jobs in the queue, with multiplicity. */
  function QueueJobs(q: seq<JobItem>): multiset<Job> {
    if q == [] then multiset{} else multiset{q[0].job} + QueueJobs(q[1..])
  }

  lemma {:induction false} EnqueueJobs(q: seq<JobItem>, x: JobItem)
    ensures QueueJobs(Enqueue(q, x)) == QueueJobs(q) + multiset{x.job}
  {
    if q == [] || q[0].pri < x.pri {
      assert ([x] + q)[1..] == q;
    } else {
      EnqueueJobs(q[1..], x);
      assert Enqueue(q, x)[1..] == Enqueue(q[1..], x);
    }
  }

  /** What was pushed is queued or popped; what was popped is in hand or closed. */
  ghost predicate Accounts(s: Pool) {
    && multiset(s.pushed) == QueueJobs(s.queue) + multiset(s.popped)
    && multiset(s.popped) == HeldJobs(s.pcs) + multiset(s.closed)
  }

  /** Each accepted job is in exactly one place: the queue, one worker's hands, or closed. */
  ghost predicate Places(s: Pool) {
    && Distinct(s.pushed)
    && (forall j | j in s.inflight :: j !in s.pushed)
    && Accounts(s)
  }

  lemma AddBoth(p: multiset<Job>, q: multiset<Job>, r: multiset<Job>, x: multiset<Job>)
    requires p == q + r
    ensures p + x == (q + x) + r
  {
  }

  /** The worker an action moves inside pop holds nothing before or after. */
  lemma EmptyHanded(pcs: seq<Pc>, w: nat, wait: Wait)
    requires w < |pcs| && pcs[w].Popping?
    ensures HeldJobs(pcs[w := Popping(wait)]) == HeldJobs(pcs)
    ensures HeldJobs(pcs[w := Exited]) == HeldJobs(pcs)
    ensures HeldJobs(pcs[w := PopFailed]) == HeldJobs(pcs)
  {
    hide HeldJobs, HeldOf;
    HeldUpdate(pcs, w, Popping(wait));
    HeldUpdate(pcs, w, Exited);
    HeldUpdate(pcs, w, PopFailed);
    NothingInPop(pcs[w], wait);
    RemoveNothing(HeldJobs(pcs));
  }

  lemma NothingInPop(pc: Pc, wait: Wait)
    ensures pc.Popping? ==> HeldOf(pc) == multiset{}
    ensures HeldOf(Popping(wait)) == HeldOf(Exited) == HeldOf(PopFailed) == multiset{}
  {
  }

  lemma RemoveNothing(m: multiset<Job>)
    ensures m - multiset{} + multiset{} == m
  {
  }

  lemma TakesJob(pcs: seq<Pc>, w: nat, j: Job)
    requires w < |pcs| && pcs[w].Popping?
    ensures HeldJobs(pcs[w := Checking(j)]) == HeldJobs(pcs) + multiset{j}
  {
    hide HeldJobs;
    HeldUpdate(pcs, w, Checking(j));
    assert HeldOf(pcs[w]) == multiset{} && HeldOf(Checking(j)) == multiset{j};
  }

  lemma AccountsPush(s: Pool, j: Job, wake: Option<nat>)
    requires Enabled(s, Push(j, wake)) && Accounts(s)
    ensures Accounts(Step(s, Push(j, wake)))
  {
    hide DoWork, Goto, WorkGuard, Enqueue, QueueJobs, HeldJobs, WakeAll;
    EnqueueJobs(s.queue, JobItem(j, j.priority, s.seqNo + 1));
    if wake.Some? {
      EmptyHanded(s.pcs, wake.value, Woken);
    }
    AddBoth(multiset(s.pushed), QueueJobs(s.queue), multiset(s.popped), multiset{j});
    assert multiset(s.pushed + [j]) == multiset(s.pushed) + multiset{j};
  }

  lemma AccountsPop(s: Pool, w: nat)
    requires Enabled(s, Acquire(w)) && Accounts(s) && s.queue != []
    ensures Accounts(Step(s, Acquire(w)))
  {
    hide DoWork, Goto, WorkGuard, Enqueue, HeldJobs, QueueJobs, WakeAll, GiveUp;
    var j := s.queue[0].job;
    TakesJob(s.pcs, w, j);
    AddBoth(multiset(s.popped), HeldJobs(s.pcs), multiset(s.closed), multiset{j});
    assert multiset(s.popped + [j]) == multiset(s.popped) + multiset{j};
    QueueHead(s.queue);
  }

  lemma QueueHead(q: seq<JobItem>)
    requires q != []
    ensures forall r :: QueueJobs(q) + r == QueueJobs(q[1..]) + (r + multiset{q[0].job})
  {
  }

  lemma AccountsWork(s: Pool, w: nat, op: Op)
    requires Enabled(s, Work(w, op)) && Accounts(s)
    ensures Accounts(Step(s, Work(w, op)))
  {
    hide Goto, WorkGuard, DoWork, Enabled, Step, ActiveDelta, IdleDelta, CountsCompleted, CountsError,
         ClosesUntallied, Held, QueueJobs, HeldJobs;
    WorkOutsidePop(s, w, op);
    var t, pc := Step(s, Work(w, op)), s.pcs[w];
    WorkStep(s, w, op);
    GotoKeepsJob(s.kind, pc, op);
    HeldUpdate(s.pcs, w, Goto(s.kind, pc, op).value);
    if ClosesResult(pc) {
      assert multiset(s.closed + [pc.job]) == multiset(s.closed) + multiset{pc.job};
      assert HeldJobs(s.pcs) == HeldJobs(t.pcs) + multiset{pc.job};
    } else {
      assert HeldJobs(s.pcs) == HeldJobs(t.pcs);
    }
  }

  lemma AccountsWait(s: Pool, a: Action)
    requires Enabled(s, a) && Accounts(s) && InPop(a) && !(a.Acquire? && s.queue != [])
    ensures Accounts(Step(s, a))
  {
    hide Goto, WorkGuard, DoWork, QueueJobs, HeldJobs, WakeAll, Enqueue;
    forall wait ensures HeldJobs(s.pcs[a.w := Popping(wait)]) == HeldJobs(s.pcs) {
      EmptyHanded(s.pcs, a.w, wait);
    }
    EmptyHanded(s.pcs, a.w, Asleep);
  }

  lemma AccountsSignal(s: Pool, a: Action)
    requires Enabled(s, a) && Accounts(s) && IsSignal(a)
    ensures Accounts(Step(s, a))
  {
    hide Goto, WorkGuard, DoWork, QueueJobs, HeldJobs, GiveUp, Enqueue;
    HeldWakeAll(s.pcs);
  }

  lemma AccountsStep(s: Pool, a: Action)
    requires Enabled(s, a) && Accounts(s)
    ensures Accounts(Step(s, a))
  {
    hide Enabled, Step, Accounts;
    match a {
      case Push(j, wake) => AccountsPush(s, j, wake);
      case Work(w, op) => AccountsWork(s, w, op);
      case Acquire(w) => if s.queue != [] { AccountsPop(s, w); } else { AccountsWait(s, a); }
      case _ => if IsSignal(a) { AccountsSignal(s, a); } else { AccountsWait(s, a); }
    }
  }

  lemma PlacesStep(s: Pool, a: Action)
    requires Enabled(s, a) && Places(s)
    ensures Places(Step(s, a))
  {
    hide Goto, WorkGuard, Accounts, ActiveDelta, IdleDelta, CountsCompleted, CountsError, ClosesResult,
         ClosesUntallied, WakeAll, Enqueue;
    AccountsStep(s, a);
  }

  /** Exactly one place, spelled out for one job; so it is popped and closed at most once. */
  lemma OnePlace(s: Pool, j: Job)
    requires Places(s)
    ensures QueueJobs(s.queue)[j] + HeldJobs(s.pcs)[j] + multiset(s.closed)[j] == if j in s.pushed then 1 else 0
    ensures Distinct(s.popped) && Distinct(s.closed)
  {
    hide QueueJobs, HeldJobs;
    DistinctCount(s.pushed, j);
    assert j in s.pushed <==> j in multiset(s.pushed);
    forall x ensures multiset(s.popped)[x] <= 1 && multiset(s.closed)[x] <= 1 {
      DistinctCount(s.pushed, x);
      assert multiset(s.pushed)[x] == QueueJobs(s.queue)[x] + HeldJobs(s.pcs)[x] + multiset(s.closed)[x];
      assert multiset(s.popped)[x] == HeldJobs(s.pcs)[x] + multiset(s.closed)[x];
    }
    CountDistinct(s.popped);
    CountDistinct(s.closed);
  }

  lemma NotPoppedYet(s: Pool)
    requires Places(s) && s.queue != []
    ensures s.queue[0].job !in s.popped
  {
    hide HeldJobs;
    var j := s.queue[0].job;
    DistinctCount(s.pushed, j);
    assert QueueJobs(s.queue)[j] >= 1;
    assert multiset(s.popped)[j] == 0;
  }

  lemma HeldIsPopped(s: Pool, w: nat)
    requires Places(s) && w < |s.pcs| && Held(s.pcs[w]).Some?
    ensures Held(s.pcs[w]).value in s.popped
  {
    hide HeldJobs, QueueJobs;
    HeldUpdate(s.pcs, w, Exited);
    assert Held(s.pcs[w]).value in HeldOf(s.pcs[w]);
    assert Held(s.pcs[w]).value in multiset(s.popped);
  }

  /** No two workers hold the same job. */
  lemma SoleHolder(s: Pool, v: nat, w: nat)
    requires Places(s) && v < |s.pcs| && w < |s.pcs| && v != w && Held(s.pcs[v]).Some?
    ensures Held(s.pcs[w]) != Held(s.pcs[v])
  {
    hide HeldJobs, QueueJobs, Held;
    var j := Held(s.pcs[v]).value;
    DistinctCount(s.pushed, j);
    assert multiset(s.pushed)[j] == QueueJobs(s.queue)[j] + HeldJobs(s.pcs)[j] + multiset(s.closed)[j];
    if Held(s.pcs[w]) == Held(s.pcs[v]) {
      HeldTwice(s.pcs, v, w);
    }
  }

  // ---------- ReadyCh ----------

  predicate BeforeAnnouncing(pc: Pc) {
    pc.Checking? || pc.Rejecting? || pc.LeavingIdle? || pc.EnteringActive? || pc.AwaitingListening? || pc.Announcing?
  }

  /** ReadyCh is closed at most once, and only after the listening wait succeeded. */
  ghost predicate Announcements(s: Pool) {
    && Distinct(s.announced)
    && (forall j | j in s.announced :: j in s.heard && j in s.popped)
    && (forall w | 0 <= w < |s.pcs| :: s.pcs[w].Announcing? ==> s.pcs[w].job in s.heard)
    && (forall w | 0 <= w < |s.pcs| :: BeforeAnnouncing(s.pcs[w]) ==> s.pcs[w].job !in s.announced)
  }

  lemma GotoTowardsAnnouncing(kind: Kind, pc: Pc, op: Op)
    requires !pc.Popping? && Goto(kind, pc, op).Some?
    ensures var next := Goto(kind, pc, op).value;
      && (BeforeAnnouncing(next) ==> BeforeAnnouncing(pc) && next.job == pc.job && !pc.Announcing?)
      && (next.Announcing? ==> pc.AwaitingListening? && op.SeeListening?)
      && (pc.Announcing? ==> !BeforeAnnouncing(next) && Held(pc) == Some(pc.job))
  {
  }

  lemma AnnounceWork(s: Pool, w: nat, op: Op)
    requires Enabled(s, Work(w, op)) && Places(s) && Announcements(s)
    ensures Announcements(Step(s, Work(w, op)))
  {
    hide Goto, WorkGuard, Accounts, Held, ActiveDelta, IdleDelta, CountsCompleted, CountsError, ClosesResult,
         ClosesUntallied, WakeAll, Enqueue, GiveUp;
    var t, pc := Step(s, Work(w, op)), s.pcs[w];
    WorkOutsidePop(s, w, op);
    GotoTowardsAnnouncing(s.kind, pc, op);
    if pc.Announcing? {
      HeldIsPopped(s, w);
      forall v: nat | v < |t.pcs| && BeforeAnnouncing(t.pcs[v]) ensures t.pcs[v].job !in t.announced {
        if v != w {
          SoleHolder(s, w, v);
          EarlyHolder(s.pcs[v]);
        }
      }
    }
  }

  lemma EarlyHolder(pc: Pc)
    requires BeforeAnnouncing(pc)
    ensures Held(pc) == Some(pc.job)
  {
  }

  /** Outside Work, a worker only moves within pop, out of it, or to a fresh job. */
  lemma QuietHistory(s: Pool, a: Action)
    requires Enabled(s, a) && !a.Work?
    ensures var t := Step(s, a);
      && t.announced == s.announced && t.heard == s.heard && |t.pcs| == |s.pcs|
      && (t.popped == s.popped || (a.Acquire? && s.queue != [] && t.popped == s.popped + [s.queue[0].job]))
  {
    hide Goto, WorkGuard, DoWork, Enqueue, GiveUp;
    if a.LookCancel? || a.LookDrain? {
      GiveUpFrame(s, a.w);
    }
  }

  lemma QuietFrame(s: Pool, a: Action)
    requires Enabled(s, a) && !a.Work?
    ensures |Step(s, a).pcs| == |s.pcs|
    ensures forall v: nat | v < |s.pcs| ::
      var pc := Step(s, a).pcs[v];
      pc == s.pcs[v] || pc.Popping? || pc.Exited? || pc.PopFailed?
      || (a.Acquire? && s.queue != [] && pc == Checking(s.queue[0].job))
  {
    hide Goto, WorkGuard, DoWork, Enqueue, GiveUp;
    if a.LookCancel? || a.LookDrain? {
      GiveUpFrame(s, a.w);
    }
  }

  lemma AnnounceElse(s: Pool, a: Action)
    requires Enabled(s, a) && !a.Work? && Announcements(s)
    requires a.Acquire? && s.queue != [] ==> s.queue[0].job !in s.popped
    ensures Announcements(Step(s, a))
  {
    hide Enabled, Step;
    QuietHistory(s, a);
    QuietFrame(s, a);
  }

  lemma AnnounceStep(s: Pool, a: Action)
    requires Enabled(s, a) && Places(s) && Announcements(s)
    ensures Announcements(Step(s, a))
  {
    hide Enabled, Step, Places, Announcements;
    if a.Work? {
      AnnounceWork(s, a.w, a.op);
    } else {
      if s.queue != [] {
        NotPoppedYet(s);
      }
      AnnounceElse(s, a);
    }
  }

  // ---------- Wake-ups ----------

  /** If a worker sleeps unsignalled, every queued job has a signalled worker on its way. */
  ghost predicate EnoughAwake(s: Pool) {
    SomeAsleep(s) ==> |s.queue| <= Sum(IsWoken, s.kind, s.pcs)
  }

  lemma WakeWork(s: Pool, w: nat, op: Op)
    requires Enabled(s, Work(w, op)) && Locking(s) && EnoughAwake(s)
    ensures EnoughAwake(Step(s, Work(w, op)))
  {
    hide Goto, WorkGuard, DoWork, Enabled, Step, Sum, ActiveDelta, IdleDelta, CountsCompleted, CountsError,
         ClosesResult, ClosesUntallied, OfKind;
    var t := Step(s, Work(w, op));
    WorkOutsidePop(s, w, op);
    WorkStep(s, w, op);
    assert OfKind(s.kind, s.pcs[w]);
    GotoControl(s.kind, s.pcs[w], op);
    SumUpdate(IsWoken, s.kind, s.pcs, w, t.pcs[w]);
    forall v: nat | IsAsleep(t, v) ensures IsAsleep(s, v) {
      assert v != w;
    }
  }

  lemma WakePop(s: Pool, w: nat)
    requires Enabled(s, Acquire(w)) && EnoughAwake(s)
    ensures EnoughAwake(Step(s, Acquire(w)))
  {
    hide Goto, WorkGuard, DoWork, Sum, WakeAll, GiveUp, Enqueue;
    var t := Step(s, Acquire(w));
    SumUpdate(IsWoken, s.kind, s.pcs, w, t.pcs[w]);
    assert t.pcs == s.pcs[w := t.pcs[w]];
    forall v: nat | IsAsleep(t, v) ensures IsAsleep(s, v) {
      assert v != w;
    }
  }

  lemma WakePush(s: Pool, j: Job, wake: Option<nat>)
    requires Enabled(s, Push(j, wake)) && EnoughAwake(s)
    ensures EnoughAwake(Step(s, Push(j, wake)))
  {
    hide Goto, WorkGuard, DoWork, Sum, WakeAll, GiveUp;
    var t := Step(s, Push(j, wake));
    if wake.Some? {
      SumUpdate(IsWoken, s.kind, s.pcs, wake.value, Popping(Woken));
      assert SomeAsleep(s);
    } else {
      forall v: nat | IsAsleep(t, v) ensures IsAsleep(s, v) {
      }
    }
  }

  lemma WakeElse(s: Pool, a: Action)
    requires Enabled(s, a) && Locking(s) && EnoughAwake(s) && !a.Push? && !a.Work? && !a.Acquire?
    ensures EnoughAwake(Step(s, a))
  {
    hide Goto, WorkGuard, DoWork, Sum, Enqueue, OfKind;
    var t := Step(s, a);
    if InPop(a) {
      assert s.lock == Some(a.w);
      assert t.queue == [];
    } else if a.DrainBroadcast? || a.CancelBroadcast? {
      assert !SomeAsleep(t);
    } else {
      forall v: nat | IsAsleep(t, v) ensures IsAsleep(s, v) {
      }
    }
  }

  lemma WakeStep(s: Pool, a: Action)
    requires Enabled(s, a) && Locking(s) && EnoughAwake(s)
    ensures EnoughAwake(Step(s, a))
  {
    hide Enabled, Step, Locking, EnoughAwake;
    match a {
      case Push(j, wake) => WakePush(s, j, wake);
      case Acquire(w) => WakePop(s, w);
      case Work(w, op) => WakeWork(s, w, op);
      case _ => WakeElse(s, a);
    }
  }

  // ---------- Dispatch order ----------

  /** The queue is in dispatch order, and each item is the push its sequence number names. */
  ghost predicate DispatchBooks(s: Pool) {
    && s.seqNo == |s.pushed|
    && Ordered(s.queue)
    && forall x | x in s.queue :: IsPush(s.pushed, x)
  }

  ghost predicate IsPush(pushed: seq<Job>, x: JobItem) {
    1 <= x.seqNo <= |pushed| && pushed[x.seqNo - 1] == x.job && x.pri == x.job.priority
  }

  lemma DispatchPush(s: Pool, j: Job, wake: Option<nat>)
    requires Enabled(s, Push(j, wake)) && DispatchBooks(s)
    ensures DispatchBooks(Step(s, Push(j, wake)))
  {
    hide Goto, WorkGuard, DoWork, Enqueue, WakeAll, GiveUp, Ordered;
    var x := JobItem(j, j.priority, s.seqNo + 1);
    EnqueueOrdered(s.queue, x);
    forall y | y in Enqueue(s.queue, x) ensures IsPush(s.pushed + [j], y) {
      assert y in multiset(Enqueue(s.queue, x));
      assert y in s.queue || y == x;
    }
  }

  /** No other action puts anything in the queue. */
  lemma QueueFrame(s: Pool, a: Action)
    requires Enabled(s, a) && !a.Push?
    ensures var t := Step(s, a);
      && t.pushed == s.pushed && t.seqNo == s.seqNo
      && t.queue == if a.Acquire? && s.queue != [] then s.queue[1..] else s.queue
  {
    hide Goto, WorkGuard, WakeAll, Enqueue, DoWork, GiveUp, Held, ClosesResult, ActiveDelta, IdleDelta,
         CountsCompleted, CountsError, ClosesUntallied;
    if a.LookCancel? || a.LookDrain? {
      GiveUpFrame(s, a.w);
    }
    if a.Work? {
      WorkOutsidePop(s, a.w, a.op);
      WorkStep(s, a.w, a.op);
    }
  }

  lemma DispatchStep(s: Pool, a: Action)
    requires Enabled(s, a) && DispatchBooks(s)
    ensures DispatchBooks(Step(s, a))
  {
    hide Enabled, Step;
    if a.Push? {
      DispatchPush(s, a.job, a.wake);
    } else {
      QueueFrame(s, a);
    }
  }

  // ---------- All of it, over every run ----------

  ghost predicate Safe(s: Pool) {
    && Locking(s) && SlotBooks(s) && OutcomeBooks(s) && Places(s) && Announcements(s) && EnoughAwake(s)
    && DispatchBooks(s)
  }

  lemma {:induction false} FreshSums(kind: Kind, pcs: seq<Pc>)
    requires forall w | 0 <= w < |pcs| :: pcs[w] == if kind.Tts? then Popping(Entering) else Arming
    ensures Sum(InJob, kind, pcs) == 0 && Sum(Idling, kind, pcs) == 0 && Sum(Pending, kind, pcs) == 0
    ensures HeldJobs(pcs) == multiset{}
  {
    hide Rank;
    if pcs != [] {
      FreshSums(kind, pcs[1..]);
      assert HeldList(pcs)[1..] == HeldList(pcs[1..]);
    }
  }

  lemma InitSafe(kind: Kind, conns: nat)
    ensures Safe(Init(kind, conns)) && |Init(kind, conns).pcs| == conns && Init(kind, conns).kind == kind
  {
    hide Sum, HeldJobs, Goto;
    FreshSums(kind, Init(kind, conns).pcs);
  }

  lemma SafeStep(s: Pool, a: Action)
    requires Enabled(s, a) && Safe(s)
    ensures Safe(Step(s, a)) && Step(s, a).kind == s.kind && |Step(s, a).pcs| == |s.pcs|
  {
    hide Enabled, Step, Locking, SlotBooks, OutcomeBooks, Places, Announcements, EnoughAwake, DispatchBooks, Sum,
         Weight;
    DispatchStep(s, a);
    LockingStep(s, a);
    SlotStep(s, a);
    OutcomeStep(s, a);
    PlacesStep(s, a);
    AnnounceStep(s, a);
    WakeStep(s, a);
    SumStep(InJob, s, a);
  }

  lemma {:induction false} SafeAlong(s: Pool, run: seq<Action>)
    requires Safe(s) && ValidRun(s, run)
    ensures Safe(Exec(s, run)) && Exec(s, run).kind == s.kind && |Exec(s, run).pcs| == |s.pcs|
    decreases run
  {
    hide Enabled, Step, Safe;
    if run != [] {
      SafeStep(s, run[0]);
      SafeAlong(Step(s, run[0]), run[1..]);
    }
  }
}
