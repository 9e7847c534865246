/** What becomes of an STT job, over every run of a pool: the worker's last select says how the job
    ended, and that alone decides the counters, ReadyCh, and whether the connection is kept. */
module SttOutcomes {
  import opened Jobs
  import opened PriorityQueues
  import opened Workers
  import opened Pools
  import opened PoolSafety
  import opened PoolDrain

  // ---------- What a worker saw ----------

  /** The event that ends a job: a branch of the wait for the listening state, a failed
      StartRecognition, or a branch of the select. */
  function Saw(pc: Pc, op: Op): Option<Ending> {
    match (pc, op)
    case (AwaitingListening(_), SeeConnErr) => Some(LostBeforeStart)
    case (AwaitingListening(_), SeeCtx) => Some(CancelledBeforeStart)
    case (Resetting(_), Failed) => Some(StartFailed)
    case (Writing(_), Failed) => Some(StartFailed)
    case (Selecting(_), SeeJobDone) => Some(Completed)
    case (Selecting(_), SeeTimeout) => Some(TimedOut)
    case (Selecting(_), SeeConnErr) => Some(ConnDropped)
    case (Selecting(_), SeeCtx) => Some(Cancelled)
    case _ => None
  }

  /** A job whose ResultCh was closed by a worker that had last seen `saw`. */
  datatype Ended = Ended(job: Job, saw: Option<Ending>)

  /** What the workers saw last, and the jobs ended so far. */
  datatype Log = Log(seen: map<nat, Ending>, ends: seq<Ended>)

  function LastSeen(log: Log, w: nat): Option<Ending> {
    if w in log.seen then Some(log.seen[w]) else None
  }

  function Note(s: Pool, a: Action, log: Log): Log {
    if !a.Work? || a.w >= |s.pcs| then log
    else
      var pc := s.pcs[a.w];
      Log(if Saw(pc, a.op).Some? then log.seen[a.w := Saw(pc, a.op).value] else log.seen,
          if pc.Closing? then log.ends + [Ended(pc.job, LastSeen(log, a.w))] else log.ends)
  }

  ghost function LogFrom(s: Pool, run: seq<Action>, log: Log): Log
    requires ValidRun(s, run)
    decreases run
  {
    if run == [] then log else LogFrom(Step(s, run[0]), run[1..], Note(s, run[0], log))
  }

  ghost function LogOf(conns: nat, run: seq<Action>): Log
    requires ValidRun(Init(Stt, conns), run)
  {
    LogFrom(Init(Stt, conns), run, Log(map[], []))
  }

  // ---------- The program keeps to it ----------

  /** The ending a worker is winding up. */
  function EndOf(pc: Pc): Option<Ending> {
    match pc
    case JoiningAudio(_) => Some(Completed)
    case Apologising(_, e) => Some(e)
    case Signalling(_, e) => Some(e)
    case Clearing(_, e) => Some(e)
    case AwaitingCallbacks(_, e) => Some(e)
    case Tallying(_, e) => Some(e)
    case Closing(_, e) => Some(e)
    case LeavingActive(e) => Some(e)
    case EnteringIdle => Some(Completed)
    case _ => None
  }

  /** On the way out of a connection that will be dialed again. */
  predicate WillRedial(pc: Pc) {
    || pc == Cancelling(true) || pc == JoiningReader(true) || pc == HangingUp(true)
    || pc == Deciding(true) || pc == Dialing
  }

  predicate IsDrop(e: Ending) {
    e == TimedOut || e == ConnDropped || e == LostBeforeStart || e == StartFailed
  }

  lemma GotoEnds(pc: Pc, op: Op)
    requires !pc.Popping? && Goto(Stt, pc, op).Some?
    ensures var next := Goto(Stt, pc, op).value;
      && (EndOf(next).Some? ==> EndOf(next) == if Saw(pc, op).Some? then Saw(pc, op) else EndOf(pc))
      && (Saw(pc, op).Some? ==> EndOf(next) == Saw(pc, op))
      && (next.Apologising? ==> Saw(pc, op).Some? && (next.end.LostBeforeStart? || next.end.StartFailed?))
  {
  }

  lemma GotoRedials(pc: Pc, op: Op)
    requires !pc.Popping? && Goto(Stt, pc, op).Some?
    ensures var next := Goto(Stt, pc, op).value;
      WillRedial(next) ==> Saw(pc, op) == None && (WillRedial(pc) || (pc.LeavingActive? && IsDrop(pc.end)))
  {
  }

  ghost predicate SeenBooks(s: Pool, log: Log) {
    && (forall w: nat | w < |s.pcs| :: EndOf(s.pcs[w]).Some? ==> LastSeen(log, w) == EndOf(s.pcs[w]))
    && (forall w: nat | w < |s.pcs| :: WillRedial(s.pcs[w]) ==>
          LastSeen(log, w).Some? && IsDrop(LastSeen(log, w).value))
    && (forall w: nat | w < |s.pcs| :: s.pcs[w].Apologising? ==>
          s.pcs[w].end.LostBeforeStart? || s.pcs[w].end.StartFailed?)
  }

  lemma SeenWork(s: Pool, w: nat, op: Op, log: Log)
    requires Enabled(s, Work(w, op)) && s.kind.Stt? && SeenBooks(s, log)
    ensures SeenBooks(Step(s, Work(w, op)), Note(s, Work(w, op), log))
  {
    hide Goto, WorkGuard, DoWork, Enabled, Step, ActiveDelta, IdleDelta, CountsCompleted, CountsError, ClosesResult,
         ClosesUntallied, Held, Saw, EndOf, IsDrop, WillRedial;
    WorkOutsidePop(s, w, op);
    WorkStep(s, w, op);
    GotoEnds(s.pcs[w], op);
    GotoRedials(s.pcs[w], op);
    LeavingEnds(s.pcs[w]);
  }

  lemma LeavingEnds(pc: Pc)
    ensures pc.LeavingActive? || pc.Closing? ==> EndOf(pc) == Some(pc.end)
  {
  }

  lemma PopEnds()
    ensures forall wait :: EndOf(Popping(wait)) == None && !WillRedial(Popping(wait))
    ensures forall j :: EndOf(Checking(j)) == None && !WillRedial(Checking(j))
    ensures EndOf(Exited) == None && EndOf(PopFailed) == None && !WillRedial(Exited) && !WillRedial(PopFailed)
  {
  }

  lemma SeenElse(s: Pool, a: Action, log: Log)
    requires Enabled(s, a) && !a.Work? && SeenBooks(s, log)
    ensures SeenBooks(Step(s, a), Note(s, a, log))
  {
    hide Enabled, Step, EndOf, WillRedial, IsDrop;
    QuietFrame(s, a);
    PopEnds();
    forall w: nat | w < |Step(s, a).pcs|
      ensures EndOf(Step(s, a).pcs[w]).Some? || WillRedial(Step(s, a).pcs[w]) ==> Step(s, a).pcs[w] == s.pcs[w]
    {
      var pc := Step(s, a).pcs[w];
      assert pc.Popping? ==> pc == Popping(pc.wait);
    }
  }

  // ---------- The counters ----------

  datatype Tally = Success | Failure | Silent

  /** Which counter an ending belongs to. */
  function TallyOf(e: Ending): Tally {
    if e == Completed then Success else if e == TimedOut || e == ConnDropped then Failure else Silent
  }

  function Ends(ends: seq<Ended>, t: Tally): nat {
    if ends == [] then 0
    else Ends(ends[..|ends| - 1], t) + Flag(ends[|ends| - 1].saw.Some? && TallyOf(ends[|ends| - 1].saw.value) == t)
  }

  /** Workers that have counted their job and not yet closed it. */
  function Counted(pcs: seq<Pc>, t: Tally): nat {
    if pcs == [] then 0 else Flag(pcs[0].Closing? && TallyOf(pcs[0].end) == t) + Counted(pcs[1..], t)
  }

  lemma {:induction false} CountedUpdate(pcs: seq<Pc>, w: nat, pc: Pc, t: Tally)
    requires w < |pcs|
    ensures Counted(pcs[w := pc], t) == Counted(pcs, t)
      - Flag(pcs[w].Closing? && TallyOf(pcs[w].end) == t) + Flag(pc.Closing? && TallyOf(pc.end) == t)
  {
    if w == 0 {
      assert pcs[w := pc][1..] == pcs[1..];
    } else {
      assert pcs[w := pc][1..] == pcs[1..][w - 1 := pc];
      CountedUpdate(pcs[1..], w - 1, pc, t);
    }
  }

  /** Moving workers in and out of pop counts nothing. */
  lemma {:induction false} CountedSame(pcs: seq<Pc>, qcs: seq<Pc>, t: Tally)
    requires |pcs| == |qcs|
    requires forall w | 0 <= w < |pcs| :: qcs[w] == pcs[w] || (!pcs[w].Closing? && !qcs[w].Closing?)
    ensures Counted(qcs, t) == Counted(pcs, t)
  {
    if pcs != [] {
      CountedSame(pcs[1..], qcs[1..], t);
    }
  }

  ghost predicate TallyBooks(s: Pool, log: Log) {
    && s.completed == Ends(log.ends, Success) + Counted(s.pcs, Success)
    && s.errors == Ends(log.ends, Failure) + Counted(s.pcs, Failure)
    && s.untallied == Ends(log.ends, Silent)
  }

  lemma GotoCounts(pc: Pc, op: Op)
    requires OfKind(Stt, pc) && !pc.Popping? && Goto(Stt, pc, op).Some?
    requires pc.Apologising? ==> pc.end.LostBeforeStart? || pc.end.StartFailed?
    ensures var next := Goto(Stt, pc, op).value;
      && Flag(CountsCompleted(pc)) == Flag(next.Closing? && TallyOf(next.end) == Success)
      && Flag(CountsError(pc)) == Flag(next.Closing? && TallyOf(next.end) == Failure)
  {
  }

  lemma ClosesCount(pc: Pc)
    ensures Flag(ClosesUntallied(pc)) == Flag(pc.Closing? && TallyOf(pc.end) == Silent)
  {
  }

  lemma EndsSnoc(ends: seq<Ended>, e: Ended, t: Tally)
    ensures Ends(ends + [e], t) == Ends(ends, t) + Flag(e.saw.Some? && TallyOf(e.saw.value) == t)
  {
    assert (ends + [e])[..|ends|] == ends;
  }

  lemma TallyWork(s: Pool, w: nat, op: Op, log: Log)
    requires Enabled(s, Work(w, op)) && s.kind.Stt? && Locking(s) && SeenBooks(s, log) && TallyBooks(s, log)
    ensures TallyBooks(Step(s, Work(w, op)), Note(s, Work(w, op), log))
  {
    hide Goto, WorkGuard, DoWork, Enabled, Step, ActiveDelta, IdleDelta, CountsCompleted, CountsError, ClosesResult,
         ClosesUntallied, Held, Saw, EndOf, OfKind, TallyOf, Ends, Counted;
    WorkOutsidePop(s, w, op);
    var pc := s.pcs[w];
    WorkStep(s, w, op);
    assert OfKind(s.kind, pc);
    GotoCounts(pc, op);
    ClosesCount(pc);
    LeavingEnds(pc);
    forall t: Tally
      ensures Counted(Step(s, Work(w, op)).pcs, t) == Counted(s.pcs, t)
        - Flag(pc.Closing? && TallyOf(pc.end) == t)
        + Flag(Goto(Stt, pc, op).value.Closing? && TallyOf(Goto(Stt, pc, op).value.end) == t)
      ensures Ends(Note(s, Work(w, op), log).ends, t) == Ends(log.ends, t) + Flag(pc.Closing? && TallyOf(pc.end) == t)
    {
      CountedUpdate(s.pcs, w, Goto(Stt, pc, op).value, t);
      if pc.Closing? {
        EndsSnoc(log.ends, Ended(pc.job, LastSeen(log, w)), t);
      }
    }
  }

  lemma TallyElse(s: Pool, a: Action, log: Log)
    requires Enabled(s, a) && !a.Work? && TallyBooks(s, log)
    ensures TallyBooks(Step(s, a), Note(s, a, log))
  {
    hide Enabled, Step, Ends, Counted;
    QuietCounters(s, a);
    QuietFrame(s, a);
    PopMoves(s, a);
    forall t: Tally ensures Counted(Step(s, a).pcs, t) == Counted(s.pcs, t) {
      CountedSame(s.pcs, Step(s, a).pcs, t);
    }
  }

  /** Actions other than Work move only workers inside pop. */
  lemma PopMoves(s: Pool, a: Action)
    requires Enabled(s, a) && !a.Work?
    ensures |Step(s, a).pcs| == |s.pcs|
    ensures forall v: nat | v < |s.pcs| :: Step(s, a).pcs[v] == s.pcs[v] || s.pcs[v].Popping?
  {
    hide Goto, WorkGuard, DoWork, Enqueue, GiveUp;
    if a.LookCancel? || a.LookDrain? {
      GiveUpFrame(s, a.w);
    }
  }

  // ---------- ReadyCh ----------

  predicate EarlyEnd(e: Ending) {
    e == LostBeforeStart || e == CancelledBeforeStart
  }

  /** The worker has got past close(ReadyCh) with its job. */
  predicate PastReady(pc: Pc) {
    pc.Resetting? || pc.Writing? || pc.Recapturing? || pc.Wiring? || pc.Spawning? || pc.Selecting? || pc.JoiningAudio?
    || ((pc.Apologising? || pc.Signalling? || pc.Clearing? || pc.AwaitingCallbacks? || pc.Tallying? || pc.Closing?)
        && !EarlyEnd(pc.end))
  }

  /** ... or gives the job up without. */
  predicate WithoutReady(pc: Pc) {
    (pc.Apologising? || pc.Signalling? || pc.Clearing? || pc.AwaitingCallbacks? || pc.Tallying? || pc.Closing?)
    && EarlyEnd(pc.end)
  }

  lemma GotoReady(pc: Pc, op: Op)
    requires OfKind(Stt, pc) && !pc.Popping? && Goto(Stt, pc, op).Some?
    ensures var next := Goto(Stt, pc, op).value;
      && (PastReady(next) ==> (PastReady(pc) || pc.Announcing?) && next.job == pc.job)
      && (WithoutReady(next) ==> (WithoutReady(pc) || pc.AwaitingListening?) && next.job == pc.job)
  {
  }

  lemma ReadyHolds(pc: Pc)
    ensures PastReady(pc) || WithoutReady(pc) || pc.Announcing? || pc.AwaitingListening? || pc.Closing? ==>
      Held(pc) == Some(pc.job)
    ensures pc.Closing? ==> PastReady(pc) || WithoutReady(pc)
    ensures pc.AwaitingListening? ==> BeforeAnnouncing(pc)
  {
  }

  ghost predicate ReadyBooks(s: Pool, log: Log) {
    && (forall w: nat | w < |s.pcs| :: PastReady(s.pcs[w]) && s.pcs[w].job.hasReady ==> s.pcs[w].job in s.announced)
    && (forall w: nat | w < |s.pcs| :: WithoutReady(s.pcs[w]) ==> s.pcs[w].job !in s.announced)
    && (forall e | e in log.ends :: ReadyFits(s, e))
  }

  ghost predicate ReadyFits(s: Pool, e: Ended) {
    && e.job in s.closed && e.saw.Some?
    && (e.job.hasReady ==> (e.job in s.announced <==> !EarlyEnd(e.saw.value)))
  }

  /** A job in a worker's hands is not closed. */
  lemma HeldIsOpen(s: Pool, w: nat)
    requires Places(s) && w < |s.pcs| && Held(s.pcs[w]).Some?
    ensures Held(s.pcs[w]).value !in s.closed
  {
    hide HeldJobs, QueueJobs;
    var j := Held(s.pcs[w]).value;
    DistinctCount(s.pushed, j);
    HeldUpdate(s.pcs, w, Exited);
    assert multiset(s.pushed)[j] == QueueJobs(s.queue)[j] + HeldJobs(s.pcs)[j] + multiset(s.closed)[j];
    assert j in HeldOf(s.pcs[w]);
  }

  lemma WorkAnnounces(s: Pool, w: nat, op: Op)
    requires Enabled(s, Work(w, op))
    ensures w < |s.pcs|
    ensures Step(s, Work(w, op)).announced ==
      if s.pcs[w].Announcing? && s.pcs[w].job.hasReady then s.announced + [s.pcs[w].job] else s.announced
  {
    hide Goto, WorkGuard, ActiveDelta, IdleDelta, CountsCompleted, CountsError, ClosesResult, ClosesUntallied;
  }

  lemma ReadyWork(s: Pool, w: nat, op: Op, log: Log)
    requires Enabled(s, Work(w, op)) && s.kind.Stt? && Locking(s) && Places(s) && Announcements(s)
    requires SeenBooks(s, log) && ReadyBooks(s, log)
    ensures ReadyBooks(Step(s, Work(w, op)), Note(s, Work(w, op), log))
  {
    hide Goto, WorkGuard, DoWork, Enabled, Step, ActiveDelta, IdleDelta, CountsCompleted, CountsError, ClosesResult,
         ClosesUntallied, Held, Saw, EndOf, OfKind, Accounts, BeforeAnnouncing, EarlyEnd;
    WorkOutsidePop(s, w, op);
    var t, pc := Step(s, Work(w, op)), s.pcs[w];
    WorkStep(s, w, op);
    WorkAnnounces(s, w, op);
    assert OfKind(s.kind, pc);
    GotoReady(pc, op);
    ReadyHolds(pc);
    LeavingEnds(pc);
    ClosingCloses(pc);
    if pc.Announcing? || pc.Closing? {
      HeldIsOpen(s, w);
    }
    forall v: nat | v < |t.pcs| && v != w && WithoutReady(t.pcs[v]) ensures t.pcs[v].job !in t.announced {
      ReadyHolds(s.pcs[v]);
      if pc.Announcing? {
        SoleHolder(s, w, v);
      }
    }
    ClosingEnd(pc);
  }

  lemma ClosingCloses(pc: Pc)
    ensures pc.Closing? ==> ClosesResult(pc)
  {
  }

  lemma ClosingEnd(pc: Pc)
    ensures pc.Closing? ==> (PastReady(pc) <==> !EarlyEnd(pc.end)) && (WithoutReady(pc) <==> EarlyEnd(pc.end))
  {
  }

  lemma ReadyElse(s: Pool, a: Action, log: Log)
    requires Enabled(s, a) && !a.Work? && ReadyBooks(s, log)
    ensures ReadyBooks(Step(s, a), Note(s, a, log))
  {
    hide Enabled, Step, PastReady, WithoutReady, EarlyEnd;
    QuietHistory(s, a);
    QuietFrame(s, a);
    QuietClosed(s, a);
    PopReady();
    forall w: nat | w < |Step(s, a).pcs|
      ensures PastReady(Step(s, a).pcs[w]) || WithoutReady(Step(s, a).pcs[w]) ==> Step(s, a).pcs[w] == s.pcs[w]
    {
      var pc := Step(s, a).pcs[w];
      assert pc.Popping? ==> pc == Popping(pc.wait);
    }
  }

  lemma PopReady()
    ensures forall wait :: !PastReady(Popping(wait)) && !WithoutReady(Popping(wait))
    ensures forall j :: !PastReady(Checking(j)) && !WithoutReady(Checking(j))
    ensures !PastReady(Exited) && !WithoutReady(Exited) && !PastReady(PopFailed) && !WithoutReady(PopFailed)
  {
  }

  lemma QuietClosed(s: Pool, a: Action)
    requires Enabled(s, a) && !a.Work?
    ensures Step(s, a).closed == s.closed
  {
    hide Goto, WorkGuard, DoWork, Enqueue, GiveUp;
    if a.LookCancel? || a.LookDrain? {
      GiveUpFrame(s, a.w);
    }
  }

  // ---------- Over every run ----------

  ghost predicate StoryBooks(s: Pool, log: Log) {
    s.kind.Stt? && Safe(s) && SeenBooks(s, log) && TallyBooks(s, log) && ReadyBooks(s, log)
  }

  lemma StoryStep(s: Pool, a: Action, log: Log)
    requires Enabled(s, a) && StoryBooks(s, log)
    ensures StoryBooks(Step(s, a), Note(s, a, log))
  {
    hide Enabled, Step, Note, Locking, SlotBooks, OutcomeBooks, Places, Announcements, EnoughAwake, DispatchBooks,
         SeenBooks, TallyBooks, ReadyBooks;
    SafeStep(s, a);
    if a.Work? {
      SeenWork(s, a.w, a.op, log);
      TallyWork(s, a.w, a.op, log);
      ReadyWork(s, a.w, a.op, log);
    } else {
      SeenElse(s, a, log);
      TallyElse(s, a, log);
      ReadyElse(s, a, log);
    }
  }

  lemma {:induction false} StoryAlong(s: Pool, run: seq<Action>, log: Log)
    requires ValidRun(s, run) && StoryBooks(s, log)
    ensures StoryBooks(Exec(s, run), LogFrom(s, run, log))
    decreases run
  {
    hide Enabled, Step, Note, StoryBooks;
    if run != [] {
      StoryStep(s, run[0], log);
      StoryAlong(Step(s, run[0]), run[1..], Note(s, run[0], log));
    }
  }

  lemma {:induction false} NothingCounted(pcs: seq<Pc>, t: Tally)
    requires forall w | 0 <= w < |pcs| :: pcs[w] == Arming
    ensures Counted(pcs, t) == 0
  {
    if pcs != [] {
      NothingCounted(pcs[1..], t);
    }
  }

  lemma StoryStarts(conns: nat)
    ensures StoryBooks(Init(Stt, conns), Log(map[], []))
  {
    hide Safe, Goto;
    InitSafe(Stt, conns);
    NothingCounted(Init(Stt, conns).pcs, Success);
    NothingCounted(Init(Stt, conns).pcs, Failure);
  }

  lemma Story(conns: nat, run: seq<Action>)
    requires ValidRun(Init(Stt, conns), run)
    ensures StoryBooks(Exec(Init(Stt, conns), run), LogOf(conns, run))
  {
    hide StoryBooks, Init, Exec, ValidRun, LogFrom;
    StoryStarts(conns);
    StoryAlong(Init(Stt, conns), run, Log(map[], []));
  }

  /** `completed` counts the jobs ended by their own jobDone and `errors` those ended by a timeout or
      a dropped connection during recognition, each from its tally on; everything else is silent. */
  lemma CountersByEnding(conns: nat, run: seq<Action>)
    requires ValidRun(Init(Stt, conns), run)
    ensures var s := Exec(Init(Stt, conns), run); var ends := LogOf(conns, run).ends;
      && s.completed == Ends(ends, Success) + Counted(s.pcs, Success)
      && s.errors == Ends(ends, Failure) + Counted(s.pcs, Failure)
      && s.untallied == Ends(ends, Silent)
  {
    hide Init, Exec, ValidRun, LogOf, Safe, SeenBooks, ReadyBooks;
    Story(conns, run);
  }

  /** A job's ReadyCh was closed exactly if it got past the wait for the listening state: a closed
      job was announced unless the connection was lost or ctx cancelled during that wait. */
  lemma ReadyByEnding(conns: nat, run: seq<Action>, e: Ended)
    requires ValidRun(Init(Stt, conns), run) && e in LogOf(conns, run).ends
    ensures var s := Exec(Init(Stt, conns), run);
      && e.job in s.closed && e.saw.Some?
      && (e.job.hasReady ==>
            (e.job in s.announced <==> e.saw != Some(LostBeforeStart) && e.saw != Some(CancelledBeforeStart)))
  {
    hide Init, Exec, ValidRun, LogOf, Safe, SeenBooks, TallyBooks;
    Story(conns, run);
  }

  /** A worker gives up its connection to dial again only if the last thing it saw was a timeout, a
      dropped connection or a failed start; in particular never after a completed job. */
  lemma RedialsOnlyAfterDrop(conns: nat, run: seq<Action>, w: nat)
    requires ValidRun(Init(Stt, conns), run)
    ensures var s := Exec(Init(Stt, conns), run); var saw := LastSeen(LogOf(conns, run), w);
      w < |s.pcs| && WillRedial(s.pcs[w]) ==>
        saw == Some(TimedOut) || saw == Some(ConnDropped) || saw == Some(LostBeforeStart) || saw == Some(StartFailed)
  {
    hide Init, Exec, ValidRun, LogOf, Safe, TallyBooks, ReadyBooks;
    Story(conns, run);
  }
}
