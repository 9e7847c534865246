/** What Drain guarantees of a pool, and when it cannot end. */
module PoolDrain {
  import opened Jobs
  import opened PriorityQueues
  import opened Workers
  import opened Pools
  import opened PoolSafety

  // ---------- The invariant behind it ----------

  ghost predicate AllExited(s: Pool) {
    forall w | 0 <= w < |s.pcs| :: s.pcs[w] == Exited
  }

  ghost predicate SomeExited(s: Pool) {
    exists w :: 0 <= w < |s.pcs| && s.pcs[w] == Exited
  }

  /** What is queued after some pop has returned false was pushed after its empty check. */
  ghost predicate LateBooks(s: Pool) {
    && s.lastEmpty <= |s.pushed|
    && (s.gaveUp ==> QueueJobs(s.queue) <= multiset(s.pushed[s.lastEmpty..]))
  }

  /** The last empty check: once all TTS workers are gone, exactly what was pushed before it was popped. */
  ghost predicate ExitBooks(s: Pool) {
    && s.lastEmpty <= |s.pushed|
    && (s.kind.Tts? && |s.pcs| > 0 && AllExited(s) ==> multiset(s.popped) == multiset(s.pushed[..s.lastEmpty]))
  }

  /** After the flag only Submits that were already past the check push. */
  ghost predicate FlagBooks(s: Pool) {
    && s.flagAt <= |s.pushed|
    && (s.draining ==> s.inflight <= s.atFlag && forall i | s.flagAt <= i < |s.pushed| :: s.pushed[i] in s.atFlag)
    && (s.gaveUp && !s.cancelled ==> s.draining && s.flagAt <= s.lastEmpty)
    && (s.kind.Tts? && SomeExited(s) ==> s.gaveUp)
  }

  /** After Drain's broadcast only the straggler can be on its way to sleep, or asleep. */
  ghost predicate StragglerBooks(s: Pool) {
    s.drainWoke ==>
      && s.draining
      && forall w: nat | w < |s.pcs| && (s.pcs[w] == Popping(Parking) || s.pcs[w] == Popping(Asleep)) ::
           s.straggler == Some(w)
  }

  /** A straggler is on its way to sleep, or asleep, until a late push or a cancellation wakes it. */
  ghost predicate StrandedBooks(s: Pool) {
    s.drainWoke && s.straggler.Some? && !s.cancelled && s.atFlag == {} ==>
      && s.straggler.value < |s.pcs|
      && (s.pcs[s.straggler.value] == Popping(Parking) || s.pcs[s.straggler.value] == Popping(Asleep))
  }

  /** The STT program points that lead out without a dropped connection. */
  predicate LeavesClean(pc: Pc) {
    match pc
    case PopFailed => true
    case Cancelling(d) => !d
    case JoiningReader(d) => !d
    case HangingUp(d) => !d
    case Deciding(d) => !d
    case Apologising(_, e) => CtxEnding(e)
    case Signalling(_, e) => CtxEnding(e)
    case Clearing(_, e) => CtxEnding(e)
    case AwaitingCallbacks(_, e) => CtxEnding(e)
    case Tallying(_, e) => CtxEnding(e)
    case Closing(_, e) => CtxEnding(e)
    case LeavingActive(e) => CtxEnding(e)
    case _ => false
  }

  predicate CtxEnding(e: Ending) {
    e.Cancelled? || e.CancelledBeforeStart?
  }

  /** Without a cancellation a worker leaves that way only after its pop has returned false. */
  ghost predicate CleanBooks(s: Pool) {
    !s.cancelled && !s.gaveUp ==> forall w | 0 <= w < |s.pcs| :: !LeavesClean(s.pcs[w])
  }

  lemma TtsWorkStays(pc: Pc, op: Op)
    requires OfKind(Tts, pc) && Goto(Tts, pc, op).Some? && !pc.Popping?
    ensures Goto(Tts, pc, op).value != Exited && pc != Exited
  {
  }

  lemma ExitedWorker(s: Pool, w: nat, op: Op)
    requires Enabled(s, Work(w, op)) && Locking(s) && s.kind.Tts?
    ensures s.pcs[w] != Exited && Step(s, Work(w, op)).pcs[w] != Exited && |Step(s, Work(w, op)).pcs| == |s.pcs|
    ensures Step(s, Work(w, op)).pcs == s.pcs[w := Step(s, Work(w, op)).pcs[w]]
  {
    hide Goto, WorkGuard, DoWork, Enabled, Step, ActiveDelta, IdleDelta, CountsCompleted, CountsError,
         ClosesResult, ClosesUntallied, OfKind, Held;
    WorkOutsidePop(s, w, op);
    WorkStep(s, w, op);
    assert OfKind(s.kind, s.pcs[w]);
    TtsWorkStays(s.pcs[w], op);
  }

  lemma WorkKeepsDrain(s: Pool, w: nat, op: Op)
    requires Enabled(s, Work(w, op))
    ensures var t := Step(s, Work(w, op));
      && t.draining == s.draining && t.cancelled == s.cancelled
      && t.drainWoke == s.drainWoke && t.straggler == s.straggler
      && t.gaveUp == s.gaveUp && t.lastEmpty == s.lastEmpty && t.flagAt == s.flagAt && t.atFlag == s.atFlag
  {
    hide Goto, WorkGuard, ActiveDelta, IdleDelta, CountsCompleted, CountsError, ClosesResult, ClosesUntallied;
  }

  lemma ExitGiveUp(s: Pool, w: nat)
    requires w < |s.pcs| && s.queue == [] && Accounts(s)
    ensures ExitBooks(GiveUp(s, w))
  {
    assert QueueJobs(s.queue) == multiset{};
    assert s.pushed[..|s.pushed|] == s.pushed;
  }

  lemma ExitWork(s: Pool, w: nat, op: Op)
    requires Enabled(s, Work(w, op)) && Locking(s) && ExitBooks(s)
    ensures ExitBooks(Step(s, Work(w, op)))
  {
    hide Goto, WorkGuard, DoWork, Enabled, Step, ActiveDelta, IdleDelta, CountsCompleted, CountsError,
         ClosesResult, ClosesUntallied, OfKind, Held;
    WorkOutsidePop(s, w, op);
    WorkStep(s, w, op);
    WorkKeepsDrain(s, w, op);
    if s.kind.Tts? {
      ExitedWorker(s, w, op);
    }
  }

  lemma ExitElse(s: Pool, a: Action)
    requires Enabled(s, a) && !a.Work? && Locking(s) && Accounts(s) && ExitBooks(s)
    ensures ExitBooks(Step(s, a))
  {
    hide Goto, WorkGuard, DoWork, Enqueue, OfKind, Accounts, GiveUp;
    var t := Step(s, a);
    if (a.LookCancel? && s.cancelled) || (a.LookDrain? && s.draining) {
      ExitGiveUp(s, a.w);
    } else {
      StillThere(s, a);
      assert t.pushed[..s.lastEmpty] == s.pushed[..s.lastEmpty];
    }
  }

  /** Workers only exit by giving up. */
  lemma StillThere(s: Pool, a: Action)
    requires Enabled(s, a) && !a.Work? && !(a.LookCancel? && s.cancelled) && !(a.LookDrain? && s.draining)
    ensures forall v | 0 <= v < |s.pcs| && v < |Step(s, a).pcs| && Step(s, a).pcs[v] == Exited :: s.pcs[v] == Exited
    ensures |Step(s, a).pcs| == |s.pcs|
  {
    hide Goto, WorkGuard, DoWork, Enqueue, GiveUp;
  }

  lemma LateWork(s: Pool, w: nat, op: Op)
    requires Enabled(s, Work(w, op)) && LateBooks(s)
    ensures LateBooks(Step(s, Work(w, op)))
  {
    hide Goto, WorkGuard, DoWork, Enabled, Step, ActiveDelta, IdleDelta, CountsCompleted, CountsError,
         ClosesResult, ClosesUntallied, Held, QueueJobs;
    WorkStep(s, w, op);
    WorkKeepsDrain(s, w, op);
  }

  lemma LatePush(s: Pool, j: Job, wake: Option<nat>)
    requires Enabled(s, Push(j, wake)) && LateBooks(s)
    ensures LateBooks(Step(s, Push(j, wake)))
  {
    hide Goto, WorkGuard, DoWork, Enqueue, QueueJobs, WakeAll;
    EnqueueJobs(s.queue, JobItem(j, j.priority, s.seqNo + 1));
    assert (s.pushed + [j])[s.lastEmpty..] == s.pushed[s.lastEmpty..] + [j];
  }

  lemma LateElse(s: Pool, a: Action)
    requires Enabled(s, a) && !a.Work? && !a.Push? && Locking(s) && LateBooks(s)
    ensures LateBooks(Step(s, a))
  {
    hide Goto, WorkGuard, DoWork, Enqueue, OfKind, WakeAll;
    assert QueueJobs([]) == multiset{};
    assert s.queue != [] ==> QueueJobs(s.queue[1..]) <= QueueJobs(s.queue);
  }

  lemma LateStep(s: Pool, a: Action)
    requires Enabled(s, a) && Locking(s) && LateBooks(s)
    ensures LateBooks(Step(s, a))
  {
    hide Enabled, Step, Locking, LateBooks;
    match a {
      case Work(w, op) => LateWork(s, w, op);
      case Push(j, wake) => LatePush(s, j, wake);
      case _ => LateElse(s, a);
    }
  }

  lemma GotoLeavesClean(kind: Kind, pc: Pc, op: Op)
    requires !pc.Popping? && Goto(kind, pc, op).Some? && LeavesClean(Goto(kind, pc, op).value)
    ensures LeavesClean(pc) || op.SeeCtx?
  {
  }

  lemma CleanStep(s: Pool, a: Action)
    requires Enabled(s, a) && CleanBooks(s)
    ensures CleanBooks(Step(s, a))
  {
    hide Enabled, Step, Goto, LeavesClean, WorkGuard;
    if a.Work? {
      CleanWork(s, a.w, a.op);
    } else {
      CleanElse(s, a);
    }
  }

  lemma CleanWork(s: Pool, w: nat, op: Op)
    requires Enabled(s, Work(w, op)) && CleanBooks(s)
    ensures CleanBooks(Step(s, Work(w, op)))
  {
    hide Goto, LeavesClean, DoWork, Step, ActiveDelta, IdleDelta, CountsCompleted, CountsError,
         ClosesResult, ClosesUntallied, Held;
    WorkOutsidePop(s, w, op);
    WorkStep(s, w, op);
    WorkKeepsDrain(s, w, op);
    if LeavesClean(Goto(s.kind, s.pcs[w], op).value) {
      GotoLeavesClean(s.kind, s.pcs[w], op);
    }
  }

  lemma CleanElse(s: Pool, a: Action)
    requires Enabled(s, a) && !a.Work? && CleanBooks(s)
    ensures CleanBooks(Step(s, a))
  {
    hide Goto, WorkGuard, DoWork, Enqueue, LeavesClean;
    PopIsNotClean();
  }

  lemma PopIsNotClean()
    ensures forall wait :: !LeavesClean(Popping(wait))
    ensures forall j :: !LeavesClean(Checking(j))
  {
  }

  lemma FlagWork(s: Pool, w: nat, op: Op)
    requires Enabled(s, Work(w, op)) && Locking(s) && FlagBooks(s)
    ensures FlagBooks(Step(s, Work(w, op)))
  {
    hide Goto, WorkGuard, DoWork, Enabled, Step, ActiveDelta, IdleDelta, CountsCompleted, CountsError,
         ClosesResult, ClosesUntallied, OfKind, Held;
    var t := Step(s, Work(w, op));
    WorkOutsidePop(s, w, op);
    WorkStep(s, w, op);
    WorkKeepsDrain(s, w, op);
    if s.kind.Tts? {
      ExitedWorker(s, w, op);
      forall v | 0 <= v < |t.pcs| && t.pcs[v] == Exited ensures s.pcs[v] == Exited {
      }
    }
  }

  lemma FlagElse(s: Pool, a: Action)
    requires Enabled(s, a) && !a.Work? && FlagBooks(s)
    ensures FlagBooks(Step(s, a))
  {
    hide Goto, WorkGuard, DoWork, Enqueue, WakeAll, FlagBooks, GiveUp;
    if (a.LookCancel? && s.cancelled) || (a.LookDrain? && s.draining) {
      FlagGiveUp(s, a.w);
    } else {
      FlagRest(s, a);
    }
  }

  lemma FlagGiveUp(s: Pool, w: nat)
    requires w < |s.pcs| && FlagBooks(s) && (s.cancelled || s.draining)
    ensures FlagBooks(GiveUp(s, w))
  {
  }

  lemma FlagRest(s: Pool, a: Action)
    requires Enabled(s, a) && !a.Work? && FlagBooks(s)
    requires !(a.LookCancel? && s.cancelled) && !(a.LookDrain? && s.draining)
    ensures FlagBooks(Step(s, a))
  {
    hide Goto, WorkGuard, DoWork, Enqueue, WakeAll, GiveUp;
    StillThere(s, a);
  }

  lemma StragglerWork(s: Pool, w: nat, op: Op)
    requires Enabled(s, Work(w, op)) && Locking(s) && StragglerBooks(s)
    ensures StragglerBooks(Step(s, Work(w, op)))
  {
    hide Goto, WorkGuard, DoWork, Enabled, Step, ActiveDelta, IdleDelta, CountsCompleted, CountsError,
         ClosesResult, ClosesUntallied, OfKind, Held;
    WorkOutsidePop(s, w, op);
    WorkStep(s, w, op);
    WorkKeepsDrain(s, w, op);
    assert OfKind(s.kind, s.pcs[w]);
    GotoControl(s.kind, s.pcs[w], op);
  }

  lemma StragglerElse(s: Pool, a: Action)
    requires Enabled(s, a) && !a.Work? && Locking(s) && StragglerBooks(s)
    ensures StragglerBooks(Step(s, a))
  {
    hide Goto, WorkGuard, DoWork, Enqueue, OfKind;
  }

  lemma StrandedWork(s: Pool, w: nat, op: Op)
    requires Enabled(s, Work(w, op)) && StrandedBooks(s)
    ensures StrandedBooks(Step(s, Work(w, op)))
  {
    hide Goto, WorkGuard, DoWork, Enabled, Step, ActiveDelta, IdleDelta, CountsCompleted, CountsError,
         ClosesResult, ClosesUntallied, Held;
    WorkOutsidePop(s, w, op);
    WorkStep(s, w, op);
    WorkKeepsDrain(s, w, op);
  }

  lemma StrandedElse(s: Pool, a: Action)
    requires Enabled(s, a) && !a.Work? && Locking(s) && FlagBooks(s) && StragglerBooks(s) && StrandedBooks(s)
    ensures StrandedBooks(Step(s, a))
  {
    hide Goto, WorkGuard, DoWork, Enqueue, OfKind;
  }

  ghost predicate DrainBooks(s: Pool) {
    && Safe(s) && ExitBooks(s) && LateBooks(s) && FlagBooks(s)
    && StragglerBooks(s) && StrandedBooks(s) && CleanBooks(s)
  }

  lemma DrainStep(s: Pool, a: Action)
    requires Enabled(s, a) && DrainBooks(s)
    ensures DrainBooks(Step(s, a)) && Step(s, a).kind == s.kind && |Step(s, a).pcs| == |s.pcs|
  {
    hide Enabled, Step, Locking, SlotBooks, OutcomeBooks, Accounts, Announcements, EnoughAwake, ExitBooks,
         LateBooks, FlagBooks, StragglerBooks, StrandedBooks, CleanBooks;
    SafeStep(s, a);
    LateStep(s, a);
    CleanStep(s, a);
    if a.Work? {
      ExitWork(s, a.w, a.op);
      FlagWork(s, a.w, a.op);
      StragglerWork(s, a.w, a.op);
      StrandedWork(s, a.w, a.op);
    } else {
      ExitElse(s, a);
      FlagElse(s, a);
      StragglerElse(s, a);
      StrandedElse(s, a);
    }
  }

  lemma {:induction false} DrainBooksAlong(s: Pool, run: seq<Action>)
    requires DrainBooks(s) && ValidRun(s, run)
    ensures DrainBooks(Exec(s, run)) && Exec(s, run).kind == s.kind && |Exec(s, run).pcs| == |s.pcs|
    decreases run
  {
    hide Enabled, Step, DrainBooks;
    if run != [] {
      DrainStep(s, run[0]);
      DrainBooksAlong(Step(s, run[0]), run[1..]);
    }
  }

  lemma InitDrainBooks(kind: Kind, conns: nat)
    ensures DrainBooks(Init(kind, conns)) && |Init(kind, conns).pcs| == conns && Init(kind, conns).kind == kind
  {
    hide Safe, Goto;
    InitSafe(kind, conns);
  }

  lemma Reached(kind: Kind, conns: nat, run: seq<Action>)
    requires ValidRun(Init(kind, conns), run)
    ensures var s := Exec(Init(kind, conns), run);
      DrainBooks(s) && s.kind == kind && |s.pcs| == conns
  {
    hide DrainBooks, Init;
    InitDrainBooks(kind, conns);
    DrainBooksAlong(Init(kind, conns), run);
  }

  // ---------- What a nil return means ----------

  lemma ExitedHoldNothing(s: Pool)
    requires AllExited(s)
    ensures HeldJobs(s.pcs) == multiset{}
  {
    forall w | 0 <= w < |s.pcs| ensures HeldOf(s.pcs[w]) == multiset{} {
    }
    EmptyUnion(HeldList(s.pcs));
  }

  lemma {:induction false} EmptyUnion(ms: seq<multiset<Job>>)
    requires forall i | 0 <= i < |ms| :: ms[i] == multiset{}
    ensures Union(ms) == multiset{}
  {
    if ms != [] {
      EmptyUnion(ms[1..]);
    }
  }

  lemma ExitedFree(s: Pool)
    requires AllExited(s) && SlotBooks(s)
    ensures s.active == 0 && s.idle == 0
  {
    SumOfFlags(InJob, s.kind, s.pcs);
    SumOfFlags(Idling, s.kind, s.pcs);
  }

  /** Drain returns nil when every worker has exited. In a TTS pool with at least one worker
      that means: every job pushed before the last worker's empty check is closed, and what
      is left in the queue is exactly what was pushed after it. */
  lemma NilDrainLeavesOnlyLatePushes(conns: nat, run: seq<Action>)
    requires conns > 0 && ValidRun(Init(Tts, conns), run)
    requires AllExited(Exec(Init(Tts, conns), run))
    ensures var s := Exec(Init(Tts, conns), run);
      && s.lastEmpty <= |s.pushed|
      && multiset(s.closed) == multiset(s.pushed[..s.lastEmpty])
      && QueueJobs(s.queue) == multiset(s.pushed[s.lastEmpty..])
      && s.active == 0 && s.idle == 0
  {
    var s := Exec(Init(Tts, conns), run);
    Reached(Tts, conns, run);
    ExitedHoldNothing(s);
    ExitedFree(s);
    hide HeldJobs, QueueJobs, Init, Enabled, Step, Exec, ValidRun;
    assert s.pushed == s.pushed[..s.lastEmpty] + s.pushed[s.lastEmpty..];
    assert multiset(s.pushed) == multiset(s.pushed[..s.lastEmpty]) + multiset(s.pushed[s.lastEmpty..]);
    assert multiset(s.popped) == multiset(s.closed);
    assert QueueJobs(s.queue) == multiset(s.pushed) - multiset(s.popped);
  }

  lemma NoJobs(q: seq<JobItem>)
    requires forall j :: j !in QueueJobs(q)
    ensures q == []
  {
    var m := QueueJobs(q);
    assert q != [] ==> m[q[0].job] >= 1;
    assert forall j :: j !in m && m[j] == 0;
  }

  /** If ctx was not cancelled and some pop returned false, as it has in a TTS pool whose workers
      have all exited, every job left behind came from a Submit that had passed the draining check
      before the flag was set and pushed after the last empty check; with no such Submit in flight,
      nothing is left and every accepted job's channel is closed. */
  lemma NilDrainWithoutCancel(kind: Kind, conns: nat, run: seq<Action>)
    requires conns > 0 && ValidRun(Init(kind, conns), run)
    requires AllExited(Exec(Init(kind, conns), run)) && !Exec(Init(kind, conns), run).cancelled
    requires kind.Tts? || Exec(Init(kind, conns), run).gaveUp
    ensures var s := Exec(Init(kind, conns), run);
      && s.draining && s.flagAt <= s.lastEmpty <= |s.pushed|
      && (forall j | j in QueueJobs(s.queue) :: j in s.atFlag && j in s.pushed[s.lastEmpty..])
      && (s.atFlag == {} ==> s.queue == [] && multiset(s.closed) == multiset(s.pushed))
  {
    hide Exec, ValidRun, Init, Safe, ExitBooks, StragglerBooks, StrandedBooks, CleanBooks;
    Reached(kind, conns, run);
    LeftBehind(Exec(Init(kind, conns), run));
  }

  lemma LeftBehind(s: Pool)
    requires DrainBooks(s) && AllExited(s) && !s.cancelled && |s.pcs| > 0 && (s.kind.Tts? || s.gaveUp)
    ensures s.draining && s.flagAt <= s.lastEmpty <= |s.pushed|
    ensures forall j | j in QueueJobs(s.queue) :: j in s.atFlag && j in s.pushed[s.lastEmpty..]
    ensures s.atFlag == {} ==> s.queue == [] && multiset(s.closed) == multiset(s.pushed)
  {
    hide HeldJobs, Locking, SlotBooks, OutcomeBooks, Announcements, EnoughAwake, ExitBooks, StragglerBooks,
         StrandedBooks, CleanBooks;
    assert s.pcs[0] == Exited;
    var late := s.pushed[s.lastEmpty..];
    forall j | j in QueueJobs(s.queue) ensures j in s.atFlag && j in late {
      assert j in multiset(late);
      var i :| 0 <= i < |late| && late[i] == j;
      assert s.pushed[s.lastEmpty + i] == j;
    }
    if s.atFlag == {} {
      assert forall j :: j !in QueueJobs(s.queue);
      NoJobs(s.queue);
      ExitedHoldNothing(s);
      assert QueueJobs([]) == multiset{};
    }
  }

  /** The condition is exact for STT: if no pop returned false and ctx was not cancelled, every
      worker that exits does so after its connection dropped, whatever is still queued. */
  lemma OtherwiseExitsByDropping(conns: nat, run: seq<Action>, a: Action, w: nat)
    requires ValidRun(Init(Stt, conns), run)
    ensures var s := Exec(Init(Stt, conns), run);
      Exits(s, a, w) && !s.gaveUp && !s.cancelled ==> s.pcs[w] == Deciding(true) && a == Work(w, Quit)
  {
    hide Exec, ValidRun, Init, Safe, ExitBooks, LateBooks, FlagBooks, StragglerBooks, StrandedBooks, Exits;
    Reached(Stt, conns, run);
    var s := Exec(Init(Stt, conns), run);
    if Exits(s, a, w) && !s.gaveUp && !s.cancelled {
      DropsOut(s, a, w);
    }
  }

  /** Action `a` is possible and by it worker `w` returns. */
  ghost predicate Exits(s: Pool, a: Action, w: nat) {
    Enabled(s, a) && w < |s.pcs| && w < |Step(s, a).pcs| && s.pcs[w] != Exited && Step(s, a).pcs[w] == Exited
  }

  lemma DropsOut(s: Pool, a: Action, w: nat)
    requires s.kind.Stt? && CleanBooks(s) && !s.gaveUp && !s.cancelled && Exits(s, a, w)
    ensures s.pcs[w] == Deciding(true) && a == Work(w, Quit)
  {
    hide Goto, DoWork, ActiveDelta, IdleDelta, CountsCompleted, CountsError, ClosesResult, ClosesUntallied, Enqueue;
    if a.Work? {
      WorkOutsidePop(s, a.w, a.op);
      WorkStep(s, a.w, a.op);
      if w == a.w {
        SttExits(s.pcs[w], a.op);
      }
    }
  }

  lemma SttExits(pc: Pc, op: Op)
    requires !pc.Popping? && Goto(Stt, pc, op) == Some(Exited)
    ensures op == Quit && (pc.Deciding? || pc.Dialing?)
  {
  }

  // ---------- Progress after the flag ----------

  /** Work left: two dozen steps per job at most, and what the workers have begun. */
  function Remaining(s: Pool): nat {
    21 * |s.inflight| + 20 * |s.queue| + Sum(Effort, s.kind, s.pcs)
  }

  /** dialSTT could not connect and will try again; it does not look at draining. */
  predicate FailedDial(s: Pool, a: Action) {
    a.Work? && a.w < |s.pcs| && s.pcs[a.w] == Dialing && a.op == Failed
  }

  lemma GotoDescendsTts(kind: Kind, pc: Pc, op: Op)
    requires (Shared(pc) || TtsOnly(pc)) && !pc.Popping? && Goto(kind, pc, op).Some?
    ensures Rank(Goto(kind, pc, op).value) < Rank(pc)
  {
  }

  lemma GotoDescendsStt(kind: Kind, pc: Pc, op: Op)
    requires !Shared(pc) && !TtsOnly(pc) && !op.Reconnect? && Goto(kind, pc, op).Some?
    requires !(pc.Dialing? && op.Failed?)
    ensures Rank(Goto(kind, pc, op).value) < Rank(pc)
  {
    hide Goto, Rank, Shared, TtsOnly;
    if Rank(pc) >= 20 {
      DescendsToSelect(kind, pc, op);
    } else {
      DescendsToPop(kind, pc, op);
    }
  }

  lemma DescendsToSelect(kind: Kind, pc: Pc, op: Op)
    requires Rank(pc) >= 20 && !Shared(pc) && !TtsOnly(pc) && Goto(kind, pc, op).Some?
    ensures Rank(Goto(kind, pc, op).value) < Rank(pc)
  {
  }

  lemma DescendsToPop(kind: Kind, pc: Pc, op: Op)
    requires Rank(pc) < 20 && !Shared(pc) && !TtsOnly(pc) && !op.Reconnect? && Goto(kind, pc, op).Some?
    requires !(pc.Dialing? && op.Failed?)
    ensures Rank(Goto(kind, pc, op).value) < Rank(pc)
  {
  }

  lemma RemainingWork(s: Pool, w: nat, op: Op)
    requires Enabled(s, Work(w, op)) && s.draining && !FailedDial(s, Work(w, op))
    ensures Remaining(Step(s, Work(w, op))) < Remaining(s)
  {
    hide Goto, DoWork, Step, ActiveDelta, IdleDelta, CountsCompleted, CountsError, ClosesResult,
         ClosesUntallied, Rank, Sum, Held;
    WorkOutsidePop(s, w, op);
    WorkStep(s, w, op);
    if Shared(s.pcs[w]) || TtsOnly(s.pcs[w]) {
      GotoDescendsTts(s.kind, s.pcs[w], op);
    } else {
      GotoDescendsStt(s.kind, s.pcs[w], op);
    }
    SumUpdate(Effort, s.kind, s.pcs, w, Goto(s.kind, s.pcs[w], op).value);
  }

  lemma RemainingPush(s: Pool, j: Job, wake: Option<nat>)
    requires Enabled(s, Push(j, wake))
    ensures Remaining(Step(s, Push(j, wake))) < Remaining(s)
  {
    hide Goto, DoWork, WorkGuard, Sum, WakeAll, GiveUp;
    assert |s.inflight - {j}| == |s.inflight| - 1;
    if wake.Some? {
      SumUpdate(Effort, s.kind, s.pcs, wake.value, Popping(Woken));
    }
  }

  lemma RemainingPop(s: Pool, a: Action)
    requires Enabled(s, a) && InPop(a) && s.draining
    ensures Remaining(Step(s, a)) < Remaining(s)
  {
    hide Goto, DoWork, WorkGuard, Sum, WakeAll, Enqueue;
    var t := Step(s, a);
    SumUpdate(Effort, s.kind, s.pcs, a.w, t.pcs[a.w]);
    assert t.pcs == s.pcs[a.w := t.pcs[a.w]];
  }

  /** Once draining, every action of a worker or submitter uses up some of the work left, except
      a failed dial, which leaves the pool as it was; the signals that remain create no work. */
  lemma RemainingShrinks(s: Pool, a: Action)
    requires Enabled(s, a) && s.draining
    ensures Step(s, a).draining
    ensures if FailedDial(s, a) then Step(s, a) == s
            else if IsSignal(a) then Remaining(Step(s, a)) <= Remaining(s)
            else Remaining(Step(s, a)) < Remaining(s)
  {
    hide Goto, WorkGuard, ActiveDelta, IdleDelta, CountsCompleted, CountsError, ClosesResult, ClosesUntallied,
         Sum, Rank, Remaining, Enqueue, WakeAll, FailedDial;
    match a {
      case Work(w, op) => if FailedDial(s, a) { DialAgain(s, a); } else { RemainingWork(s, w, op); }
      case Push(j, wake) =>
        NoDial(s, a);
        RemainingPush(s, j, wake);
      case _ =>
        NoDial(s, a);
        if IsSignal(a) { RemainingSignal(s, a); } else { RemainingPop(s, a); }
    }
  }

  lemma NoDial(s: Pool, a: Action)
    ensures !a.Work? ==> !FailedDial(s, a)
  {
  }

  lemma DialAgain(s: Pool, a: Action)
    requires FailedDial(s, a)
    ensures Enabled(s, a) && Step(s, a) == s
  {
    assert s.pcs[a.w := Dialing] == s.pcs;
  }

  lemma RemainingSignal(s: Pool, a: Action)
    requires Enabled(s, a) && s.draining && IsSignal(a)
    ensures Remaining(Step(s, a)) <= Remaining(s)
  {
    hide Goto, WorkGuard, DoWork, Sum, Rank, Enqueue, GiveUp;
    SumWakeAll(Effort, s.kind, s.pcs);
  }

  /** Actions of workers and submitters, failed dials aside. */
  ghost function Moves(s: Pool, run: seq<Action>): nat
    requires ValidRun(s, run)
    decreases run
  {
    if run == [] then 0
    else Flag(!IsSignal(run[0]) && !FailedDial(s, run[0])) + Moves(Step(s, run[0]), run[1..])
  }

  /** After the flag, workers and submitters together can act only so often, failed dials aside. */
  lemma {:induction false} DrainEnds(s: Pool, run: seq<Action>)
    requires s.draining && ValidRun(s, run)
    ensures Moves(s, run) + Remaining(Exec(s, run)) <= Remaining(s)
    decreases run
  {
    hide Enabled, Step, Remaining, FailedDial;
    if run != [] {
      RemainingShrinks(s, run[0]);
      DrainEnds(Step(s, run[0]), run[1..]);
    }
  }

  /** A TTS worker never dials, so a TTS pool has no exception. */
  lemma TtsNeverDials(conns: nat, run: seq<Action>, a: Action)
    requires ValidRun(Init(Tts, conns), run)
    ensures !FailedDial(Exec(Init(Tts, conns), run), a)
  {
    hide Exec, ValidRun, Init, ExitBooks, LateBooks, FlagBooks, StragglerBooks, StrandedBooks, CleanBooks;
    Reached(Tts, conns, run);
    NotDialing(Exec(Init(Tts, conns), run), a);
  }

  lemma NotDialing(s: Pool, a: Action)
    requires Locking(s) && s.kind.Tts?
    ensures !FailedDial(s, a)
  {
    if a.Work? && a.w < |s.pcs| {
      assert OfKind(s.kind, s.pcs[a.w]);
    }
  }

  // ---------- The one worker Drain can strand ----------

  /** After Drain's broadcast at most one worker of the queue can be asleep, and only the one
      that was between its draining check and Wait when the broadcast went out. */
  lemma AtMostOneStraggler(kind: Kind, conns: nat, run: seq<Action>, v: nat, w: nat)
    requires ValidRun(Init(kind, conns), run)
    requires var s := Exec(Init(kind, conns), run); s.drainWoke && IsAsleep(s, v) && IsAsleep(s, w)
    ensures v == w && Exec(Init(kind, conns), run).straggler == Some(v)
  {
    Reached(kind, conns, run);
    hide Safe, ExitBooks, FlagBooks, Init, Exec, ValidRun;
    var s := Exec(Init(kind, conns), run);
    assert s.straggler == Some(v) && s.straggler == Some(w);
  }

  /** Nothing can happen any more, short of cancelling ctx. */
  ghost predicate Quiescent(s: Pool) {
    forall a :: Enabled(s, a) ==> a.Cancel? || a.CancelBroadcast?
  }

  lemma TtsHasNext(pc: Pc)
    requires OfKind(Tts, pc) && !pc.Popping? && pc != Exited
    ensures Goto(Tts, pc, if pc.TtsCall? then CallReturned(true) else Next).Some?
  {
  }

  /** A TTS worker that is neither asleep nor gone can act, itself or once the lock holder has. */
  lemma TtsCanMove(s: Pool, w: nat) returns (a: Action)
    requires Locking(s) && s.kind.Tts? && w < |s.pcs|
    requires s.lock.Some? || (s.pcs[w] != Exited && s.pcs[w] != Popping(Asleep))
    ensures Enabled(s, a) && !a.Cancel? && !a.CancelBroadcast?
  {
    hide Goto, OfKind;
    if s.lock.Some? {
      var v := s.lock.value;
      assert InCritical(s.pcs[v]);
      a := if s.pcs[v] == Popping(SawEmpty) then LookCancel(v)
           else if s.pcs[v] == Popping(SawNoCancel) then LookDrain(v) else Park(v);
    } else if s.pcs[w].Popping? {
      assert !InCritical(s.pcs[w]) && s.pcs[w] == Popping(s.pcs[w].wait);
      assert s.pcs[w].wait == Entering || s.pcs[w].wait == Woken;
      a := Acquire(w);
    } else {
      assert OfKind(s.kind, s.pcs[w]);
      TtsHasNext(s.pcs[w]);
      a := Work(w, if s.pcs[w].TtsCall? then CallReturned(true) else Next);
    }
  }

  lemma SubmitCanPush(s: Pool, j: Job) returns (a: Action)
    requires j in s.inflight && s.lock == None
    ensures Enabled(s, a) && a.Push?
  {
    hide Goto, WorkGuard;
    if SomeAsleep(s) {
      var v: nat :| IsAsleep(s, v);
      a := Push(j, Some(v));
    } else {
      a := Push(j, None);
    }
  }

  /** How a drained TTS pool comes to rest: either every worker has exited and Drain can
      return nil, or exactly the straggler sleeps on an empty queue for ever, every accepted
      job is closed, and only Drain's own deadline can end it. Unless ctx is cancelled or a Submit
      was past the draining check when the flag was set, all exit if and only if no worker stood
      between its draining check and Wait when Drain broadcast. */
  lemma DrainOutcome(conns: nat, run: seq<Action>)
    requires conns > 0 && ValidRun(Init(Tts, conns), run)
    requires var s := Exec(Init(Tts, conns), run); s.drainWoke && Quiescent(s)
    ensures var s := Exec(Init(Tts, conns), run);
      && s.inflight == {}
      && (AllExited(s) || exists w: nat :: AtRest(s, w))
      && (!s.cancelled && s.atFlag == {} ==> (AllExited(s) <==> s.straggler == None))
  {
    var s := Exec(Init(Tts, conns), run);
    Reached(Tts, conns, run);
    hide Init, Exec, ValidRun, Enabled, Step, Safe;
    AsleepOrGone(s);
    if s.inflight != {} {
      var j :| j in s.inflight;
      var a := SubmitCanPush(s, j);
    }
    if !AllExited(s) {
      var w: nat :| w < conns && s.pcs[w] != Exited;
      RestAtSleep(s, w);
    }
  }

  /** Only worker `w` is left, asleep on an empty queue, with every accepted job closed. */
  ghost predicate AtRest(s: Pool, w: nat) {
    && IsAsleep(s, w) && s.straggler == Some(w) && s.queue == []
    && (forall v | 0 <= v < |s.pcs| && v != w :: s.pcs[v] == Exited)
    && multiset(s.closed) == multiset(s.pushed)
  }

  lemma AsleepOrGone(s: Pool)
    requires DrainBooks(s) && s.kind.Tts? && Quiescent(s) && |s.pcs| > 0
    ensures s.lock == None
    ensures forall w: nat | w < |s.pcs| :: s.pcs[w] == Exited || s.pcs[w] == Popping(Asleep)
  {
    hide Enabled;
    if s.lock.Some? {
      var a := TtsCanMove(s, 0);
    }
    forall w: nat | w < |s.pcs| ensures s.pcs[w] == Exited || s.pcs[w] == Popping(Asleep) {
      if s.pcs[w] != Exited && s.pcs[w] != Popping(Asleep) {
        var a := TtsCanMove(s, w);
      }
    }
  }

  lemma RestAtSleep(s: Pool, w: nat)
    requires DrainBooks(s) && s.drainWoke && IsAsleep(s, w)
    requires forall v: nat | v < |s.pcs| :: s.pcs[v] == Exited || s.pcs[v] == Popping(Asleep)
    ensures AtRest(s, w)
  {
    hide Locking, SlotBooks, OutcomeBooks, Announcements, ExitBooks, FlagBooks, HeldJobs, Sum;
    SleepersIdle(s);
    assert SomeAsleep(s);
    assert QueueJobs(s.queue) == multiset{};
  }

  lemma SleepersIdle(s: Pool)
    requires forall v: nat | v < |s.pcs| :: s.pcs[v] == Exited || s.pcs[v] == Popping(Asleep)
    ensures Sum(IsWoken, s.kind, s.pcs) == 0 && HeldJobs(s.pcs) == multiset{}
  {
    hide Rank;
    SumOfFlags(IsWoken, s.kind, s.pcs);
    forall v | 0 <= v < |s.pcs| ensures HeldOf(s.pcs[v]) == multiset{} {
    }
    EmptyUnion(HeldList(s.pcs));
  }
}
