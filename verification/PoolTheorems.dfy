/** The pool's guarantees over every run. */
module PoolTheorems {
  import opened Jobs
  import opened PriorityQueues
  import opened Workers
  import opened Pools
  import opened PoolSafety
  import opened PoolDrain
  import Routing

  // ---------- Every run ----------

  /** `active` and `idle` never lie: they count the workers in those phases, fit the
      configured slots, and are back at zero once every worker has exited. */
  lemma SlotAccounting(kind: Kind, conns: nat, run: seq<Action>)
    requires ValidRun(Init(kind, conns), run)
    ensures var s := Exec(Init(kind, conns), run);
      && s.active == Sum(InJob, kind, s.pcs) && s.idle == Sum(Idling, kind, s.pcs)
      && 0 <= s.active && 0 <= s.idle && s.active + s.idle <= conns
      && (AllExited(s) ==> s.active == 0 && s.idle == 0)
  {
    var s := Exec(Init(kind, conns), run);
    Reached(kind, conns, run);
    DisjointPhases(kind, s.pcs);
    if AllExited(s) {
      ExitedFree(s);
    }
  }

  /** The pool as routing sees it. */
  function LoadOf(name: string, service: string, conns: nat, s: Pool): Routing.Load {
    Routing.Load(name, service, conns, s.active, |s.queue|)
  }

  /** Routing finds it congested exactly when every configured slot is processing a job and work
      is queued. */
  lemma CongestedMeansFull(kind: Kind, conns: nat, run: seq<Action>, name: string, service: string)
    requires ValidRun(Init(kind, conns), run)
    ensures var s := Exec(Init(kind, conns), run);
      && |s.pcs| == conns
      && (Routing.IsCongested(LoadOf(name, service, conns, s)) <==>
            (forall w | 0 <= w < |s.pcs| :: InJobPhase(s.pcs[w])) && s.queue != [])
  {
    var s := Exec(Init(kind, conns), run);
    Reached(kind, conns, run);
    SumOfFlags(InJob, kind, s.pcs);
    assert forall w | 0 <= w < |s.pcs| :: Weight(InJob, kind, s.pcs[w]) == 1 <==> InJobPhase(s.pcs[w]);
  }

  /** No job waits on a sleeper nobody woke. */
  lemma NoLostWakeUp(kind: Kind, conns: nat, run: seq<Action>, w: nat)
    requires ValidRun(Init(kind, conns), run) && IsAsleep(Exec(Init(kind, conns), run), w)
    ensures var s := Exec(Init(kind, conns), run);
      |s.queue| <= Sum(IsWoken, kind, s.pcs)
  {
    Reached(kind, conns, run);
  }

  /** Each accepted job is queued, in one worker's hands or closed; it is popped and its
      ResultCh closed at most once, and no two workers ever hold it. */
  lemma JobConservation(kind: Kind, conns: nat, run: seq<Action>, j: Job)
    requires ValidRun(Init(kind, conns), run)
    ensures var s := Exec(Init(kind, conns), run);
      && QueueJobs(s.queue)[j] + HeldJobs(s.pcs)[j] + multiset(s.closed)[j] == (if j in s.pushed then 1 else 0)
      && Distinct(s.popped) && Distinct(s.closed)
      && (forall v, w | 0 <= v < w < |s.pcs| && Held(s.pcs[v]).Some? :: Held(s.pcs[v]) != Held(s.pcs[w]))
  {
    var s := Exec(Init(kind, conns), run);
    Reached(kind, conns, run);
    OnePlace(s, j);
    forall v, w | 0 <= v < w < |s.pcs| && Held(s.pcs[v]).Some? ensures Held(s.pcs[v]) != Held(s.pcs[w]) {
      SoleHolder(s, v, w);
    }
  }

  /** In a concurrent pool too, a pop takes the highest-priority queued job, and among those the
      one pushed first. */
  lemma PopsInDispatchOrder(kind: Kind, conns: nat, run: seq<Action>, w: nat)
    requires ValidRun(Init(kind, conns), run) && Enabled(Exec(Init(kind, conns), run), Acquire(w))
    requires Exec(Init(kind, conns), run).queue != []
    ensures var s := Exec(Init(kind, conns), run); var t, j := Step(s, Acquire(w)), s.queue[0].job;
      && t.popped == s.popped + [j] && t.queue == s.queue[1..]
      && exists i :: 0 <= i < |s.pushed| && s.pushed[i] == j && AllAfter(s, i, t.queue)
  {
    hide Exec, ValidRun, Init, ExitBooks, LateBooks, FlagBooks, StragglerBooks, StrandedBooks, CleanBooks,
         Locking, SlotBooks, OutcomeBooks, Places, Announcements, EnoughAwake;
    Reached(kind, conns, run);
    HeadIsNext(Exec(Init(kind, conns), run));
  }

  ghost predicate AllAfter(s: Pool, i: nat, queue: seq<JobItem>)
    requires i < |s.pushed|
  {
    forall x | x in queue :: DispatchedAfter(s, i, x.job)
  }

  /** Job `k` was pushed with a lower priority than the i-th push, or the same one and later. */
  ghost predicate DispatchedAfter(s: Pool, i: nat, k: Job)
    requires i < |s.pushed|
  {
    exists m :: 0 <= m < |s.pushed| && s.pushed[m] == k
      && (k.priority < s.pushed[i].priority || (k.priority == s.pushed[i].priority && i < m))
  }

  lemma HeadIsNext(s: Pool)
    requires DispatchBooks(s) && s.queue != []
    ensures exists i :: 0 <= i < |s.pushed| && s.pushed[i] == s.queue[0].job && AllAfter(s, i, s.queue[1..])
  {
    assert IsPush(s.pushed, s.queue[0]);
    var i := s.queue[0].seqNo - 1;
    assert s.pushed[i] == s.queue[0].job;
    forall x | x in s.queue[1..] ensures DispatchedAfter(s, i, x.job) {
      assert IsPush(s.pushed, x);
      assert Less(s.queue[0], x);
      assert s.pushed[x.seqNo - 1] == x.job;
    }
  }

  /** ReadyCh is closed at most once, only for a job some worker popped, and only after
      that worker's wait for the listening state succeeded. */
  lemma ReadyOnceAndAfterListening(kind: Kind, conns: nat, run: seq<Action>)
    requires ValidRun(Init(kind, conns), run)
    ensures var s := Exec(Init(kind, conns), run);
      Distinct(s.announced) && forall j | j in s.announced :: j in s.heard && j in s.popped
  {
    Reached(kind, conns, run);
  }

  /** The books balance: pushed = queued + in hand and undecided + completed + errors +
      wrong payload + the STT endings the code does not tally. */
  lemma OutcomeAccounting(kind: Kind, conns: nat, run: seq<Action>)
    requires ValidRun(Init(kind, conns), run)
    ensures var s := Exec(Init(kind, conns), run);
      |s.pushed| == |s.queue| + Sum(Pending, kind, s.pcs) + s.completed + s.errors + s.rejected + s.untallied
  {
    Reached(kind, conns, run);
  }

  /** The worker will find out that it need not wait: it has seen the empty queue, and the checks
      before Wait have not yet passed the flag that is set. */
  predicate NeedNotWait(s: Pool, w: nat) {
    w < |s.pcs| &&
    ((s.pcs[w] == Popping(SawEmpty) && (s.cancelled || s.draining)) || (s.pcs[w] == Popping(SawNoCancel) && s.draining))
  }

  /** pop has just returned false. */
  predicate ReturnedFalse(s: Pool, w: nat) {
    w < |s.pcs| && s.pcs[w] == if s.kind.Tts? then Exited else PopFailed
  }

  lemma NeedNotWaitStep(s: Pool, a: Action, w: nat)
    requires Enabled(s, a) && NeedNotWait(s, w)
    ensures NeedNotWait(Step(s, a), w) || ReturnedFalse(Step(s, a), w)
  {
    hide DoWork, WorkGuard, Enqueue, Goto, Step;
    match a
    case Work(v, op) =>
      WorkOutsidePop(s, v, op);
      OthersWork(s, v, op);
    case _ => PopStep(s, a, w);
  }

  lemma PopStep(s: Pool, a: Action, w: nat)
    requires Enabled(s, a) && NeedNotWait(s, w) && !a.Work?
    ensures NeedNotWait(Step(s, a), w) || ReturnedFalse(Step(s, a), w)
  {
    hide DoWork, WorkGuard, Enqueue, Goto;
  }

  lemma OthersWork(s: Pool, w: nat, op: Op)
    requires Enabled(s, Work(w, op))
    ensures var t := Step(s, Work(w, op));
      && t.kind == s.kind && t.cancelled == s.cancelled && t.draining == s.draining && |t.pcs| == |s.pcs|
      && forall v: nat | v < |s.pcs| && v != w :: t.pcs[v] == s.pcs[v]
  {
    hide Goto, WorkGuard, DoWork, Enabled, Step, ActiveDelta, IdleDelta, CountsCompleted, CountsError,
         ClosesResult, ClosesUntallied, Held;
    WorkOutsidePop(s, w, op);
    WorkStep(s, w, op);
    WorkKeepsDrain(s, w, op);
  }

  /** Up to the point where pop returns false, if it comes to it, the worker is never past its checks. */
  ghost predicate NeverWaits(s: Pool, run: seq<Action>, w: nat)
    requires ValidRun(s, run)
    decreases run
  {
    ReturnedFalse(s, w) || (NeedNotWait(s, w) && (run == [] || NeverWaits(Step(s, run[0]), run[1..], w)))
  }

  /** Once ctx is cancelled or the pool drains, a worker that saw the empty queue leaves pop with
      false before it can wait, whatever the others do. */
  lemma {:induction false} StoppedPopNeverWaits(s: Pool, run: seq<Action>, w: nat)
    requires ValidRun(s, run) && NeedNotWait(s, w)
    ensures NeverWaits(s, run, w)
    decreases run
  {
    hide Enabled, Step, NeedNotWait, ReturnedFalse;
    if run != [] {
      NeedNotWaitStep(s, run[0], w);
      if !ReturnedFalse(Step(s, run[0]), w) {
        StoppedPopNeverWaits(Step(s, run[0]), run[1..], w);
      }
    }
  }

  /** Either broadcast signals every sleeper. */
  lemma BroadcastsSignalAll(s: Pool, a: Action, w: nat)
    requires Enabled(s, a) && (a.DrainBroadcast? || a.CancelBroadcast?) && w < |s.pcs|
    ensures |Step(s, a).pcs| == |s.pcs|
    ensures Step(s, a).pcs[w] == if IsAsleep(s, w) then Popping(Woken) else s.pcs[w]
  {
    hide Goto, WorkGuard, DoWork, Enqueue, GiveUp;
  }

  /** A worker of either kind returns only while the pool drains or ctx is cancelled. */
  lemma ExitsOnlyWhenAsked(kind: Kind, conns: nat, run: seq<Action>, a: Action, w: nat)
    requires ValidRun(Init(kind, conns), run)
    ensures var s := Exec(Init(kind, conns), run); Exits(s, a, w) ==> s.cancelled || s.draining
  {
    hide ValidRun, Exec, Init, ExitBooks, LateBooks, StragglerBooks, StrandedBooks,
         SlotBooks, OutcomeBooks, Places, Announcements, EnoughAwake, DispatchBooks, Exits;
    Reached(kind, conns, run);
    var s := Exec(Init(kind, conns), run);
    if Exits(s, a, w) {
      if kind.Tts? {
        LeavesByGivingUp(s, a, w);
      } else if !s.gaveUp && !s.cancelled {
        DropsOut(s, a, w);
        QuitsWhenAsked(s, w);
      }
    }
  }

  lemma QuitsWhenAsked(s: Pool, w: nat)
    requires Exits(s, Work(w, Quit), w) && s.pcs[w] == Deciding(true)
    ensures s.cancelled || s.draining
  {
    hide DoWork;
  }

  /** A TTS worker returns only at an instant when its queue is empty, holding the queue lock. */
  lemma ExitsOnlyWhenEmpty(conns: nat, run: seq<Action>, a: Action, w: nat)
    requires ValidRun(Init(Tts, conns), run)
    ensures var s := Exec(Init(Tts, conns), run);
      Exits(s, a, w) ==> s.queue == [] && s.lock == Some(w) && (s.cancelled || s.draining)
  {
    hide ValidRun, Exec, Init, ExitBooks, LateBooks, FlagBooks, StragglerBooks, StrandedBooks, CleanBooks,
         SlotBooks, OutcomeBooks, Places, Announcements, EnoughAwake, DispatchBooks, Exits;
    Reached(Tts, conns, run);
    var s := Exec(Init(Tts, conns), run);
    if Exits(s, a, w) {
      LeavesByGivingUp(s, a, w);
    }
  }

  lemma LeavesByGivingUp(s: Pool, a: Action, w: nat)
    requires s.kind.Tts? && Locking(s) && Exits(s, a, w)
    ensures s.queue == [] && s.lock == Some(w) && (s.cancelled || s.draining)
  {
    hide Goto, WorkGuard, Held, ActiveDelta, IdleDelta, CountsCompleted, CountsError, ClosesResult,
         ClosesUntallied, Enqueue;
    if a.Work? {
      ExitedWorker(s, a.w, a.op);
    }
  }

  lemma {:induction false} TtsTalliesAll(s: Pool, run: seq<Action>)
    requires s.kind.Tts? && Locking(s) && ValidRun(s, run)
    ensures Exec(s, run).untallied == s.untallied
    decreases run
  {
    hide Enabled, Step, Locking;
    if run != [] {
      LockingStep(s, run[0]);
      TtsStepTallies(s, run[0]);
      TtsTalliesAll(Step(s, run[0]), run[1..]);
    }
  }

  lemma TtsStepTallies(s: Pool, a: Action)
    requires Enabled(s, a) && s.kind.Tts? && Locking(s)
    ensures Step(s, a).untallied == s.untallied && Step(s, a).kind == s.kind
  {
    hide Goto, WorkGuard, DoWork, Step, Enabled, Enqueue, ActiveDelta, IdleDelta, CountsCompleted, CountsError,
         ClosesResult, Sum, Weight, Held;
    if a.Work? {
      WorkOutsidePop(s, a.w, a.op);
      WorkStep(s, a.w, a.op);
      assert OfKind(s.kind, s.pcs[a.w]);
    } else {
      QuietStep(s, a);
      SumStep(InJob, s, a);
    }
  }

  /** For TTS nothing escapes the four counts. */
  lemma TtsOutcomeAccounting(conns: nat, run: seq<Action>)
    requires ValidRun(Init(Tts, conns), run)
    ensures var s := Exec(Init(Tts, conns), run);
      |s.pushed| == |s.queue| + Sum(Pending, Tts, s.pcs) + s.completed + s.errors + s.rejected
  {
    OutcomeAccounting(Tts, conns, run);
    InitDrainBooks(Tts, conns);
    TtsTalliesAll(Init(Tts, conns), run);
  }

  // ---------- Wrong payloads ----------

  predicate RightPayload(kind: Kind, j: Job) {
    if kind.Tts? then j.payload.TtsPayload? else j.payload.SttPayload?
  }

  /** Past the type assertion a worker works on jobs of its own kind and only closes the others. */
  predicate Fits(kind: Kind, pc: Pc) {
    pc.Checking? || Held(pc) == None || (pc.Rejecting? <==> !RightPayload(kind, Held(pc).value))
  }

  lemma GotoFits(kind: Kind, pc: Pc, op: Op)
    requires !pc.Popping? && Goto(kind, pc, op).Some? && Fits(kind, pc)
    ensures Fits(kind, Goto(kind, pc, op).value)
  {
    hide Goto, Held, RightPayload;
    GotoKeepsJob(kind, pc, op);
    if pc.Checking? {
      CheckedFits(kind, pc, op);
    } else {
      OnlyCheckRejects(kind, pc, op);
    }
  }

  lemma CheckedFits(kind: Kind, pc: Pc, op: Op)
    requires pc.Checking? && Goto(kind, pc, op).Some?
    ensures Fits(kind, Goto(kind, pc, op).value)
  {
  }

  lemma OnlyCheckRejects(kind: Kind, pc: Pc, op: Op)
    requires !pc.Popping? && !pc.Checking? && Goto(kind, pc, op).Some?
    ensures !Goto(kind, pc, op).value.Rejecting? && !Goto(kind, pc, op).value.Checking?
    ensures pc.Rejecting? ==> ClosesResult(pc)
  {
  }

  ghost predicate AllFit(s: Pool) {
    forall w | 0 <= w < |s.pcs| :: Fits(s.kind, s.pcs[w])
  }

  lemma AllFitStep(s: Pool, a: Action)
    requires Enabled(s, a) && AllFit(s)
    ensures AllFit(Step(s, a)) && Step(s, a).kind == s.kind
  {
    hide Enabled, Step, Goto, WorkGuard, DoWork, Fits, ActiveDelta, IdleDelta, CountsCompleted, CountsError,
         ClosesResult, ClosesUntallied, Held;
    SumStep(InJob, s, a);
    if a.Work? {
      WorkOutsidePop(s, a.w, a.op);
      WorkStep(s, a.w, a.op);
      GotoFits(s.kind, s.pcs[a.w], a.op);
    } else {
      QuietFrame(s, a);
      PopFits(s.kind);
      forall w: nat | w < |Step(s, a).pcs| ensures Fits(s.kind, Step(s, a).pcs[w]) {
        var pc := Step(s, a).pcs[w];
        assert pc.Popping? ==> pc == Popping(pc.wait);
      }
    }
  }

  lemma PopFits(kind: Kind)
    ensures forall wait :: Fits(kind, Popping(wait))
    ensures forall j :: Fits(kind, Checking(j))
    ensures Fits(kind, Exited) && Fits(kind, PopFailed)
  {
  }

  lemma {:induction false} AllFitAlong(s: Pool, run: seq<Action>)
    requires ValidRun(s, run) && AllFit(s)
    ensures AllFit(Exec(s, run)) && Exec(s, run).kind == s.kind
    decreases run
  {
    hide Enabled, Step, AllFit;
    if run != [] {
      AllFitStep(s, run[0]);
      AllFitAlong(Step(s, run[0]), run[1..]);
    }
  }

  /** On every run a worker only ever closes, unserved, a job of the wrong kind, and never serves
      one: past the type assertion it rejects its job if and only if the payload is not its kind's. */
  lemma RejectsExactlyWrongPayloads(kind: Kind, conns: nat, run: seq<Action>, w: nat)
    requires ValidRun(Init(kind, conns), run)
    ensures var s := Exec(Init(kind, conns), run);
      w < |s.pcs| && Held(s.pcs[w]).Some? && !s.pcs[w].Checking? ==>
        (s.pcs[w].Rejecting? <==>
           if kind.Tts? then !Held(s.pcs[w]).value.payload.TtsPayload? else !Held(s.pcs[w]).value.payload.SttPayload?)
  {
    hide Exec, ValidRun, Held;
    FreshFit(kind, conns);
    AllFitAlong(Init(kind, conns), run);
  }

  lemma FreshFit(kind: Kind, conns: nat)
    ensures AllFit(Init(kind, conns)) && Init(kind, conns).kind == kind
  {
  }
}
