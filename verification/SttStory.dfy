/** How each job on one STT connection ended, over every run and for any server, and what a
    completed job leaves of the connection. */
module SttStory {
  import opened Jobs
  import opened Workers
  import opened SttSessions
  import opened SttSafety
  import opened SttWire
  import opened Outcomes = SttOutcomes

  // ---------- History ----------

  /** What the worker saw last, and the jobs ended so far. */
  datatype Past = Past(seen: Option<Ending>, ends: seq<Ended>)

  function Remember(s: Session, a: Action, p: Past): Past {
    if !a.Worker? then p
    else Past(if Saw(s.pc, a.op).Some? then Saw(s.pc, a.op) else p.seen,
              if s.pc.Closing? then p.ends + [Ended(s.pc.job, p.seen)] else p.ends)
  }

  ghost function PastFrom(s: Session, run: seq<Action>, p: Past): Past
    requires ValidRun(s, run)
    decreases run
  {
    if run == [] then p else PastFrom(Step(s, run[0]), run[1..], Remember(s, run[0], p))
  }

  ghost function PastOf(run: seq<Action>): Past
    requires ValidRun(Init(), run)
  {
    PastFrom(Init(), run, Past(None, []))
  }

  // ---------- What each ending goes with ----------

  /** The worker put an error result of its own on the job's ResultCh. */
  ghost predicate Apologised(s: Session, j: Job) {
    exists d | d in s.sent :: d.FromWorker? && d.job == j
  }

  predicate Excused(e: Ending) {
    e == LostBeforeStart || e == StartFailed
  }

  predicate NeverStarted(e: Ending) {
    e == LostBeforeStart || e == CancelledBeforeStart
  }

  predicate Recognised(e: Ending) {
    e == Completed || e == TimedOut || e == ConnDropped || e == Cancelled
  }

  ghost predicate StoryOf(s: Session, e: Ended) {
    && e.job in s.closed && e.saw.Some?
    && (Apologised(s, e.job) <==> Excused(e.saw.value))
    && (e.job in s.completed <==> e.saw.value == Completed)
    && (NeverStarted(e.saw.value) ==> e.job !in s.starts)
    && (Recognised(e.saw.value) ==> e.job in s.starts)
  }

  /** The tail of the program: which endings each point allows. */
  predicate GoodEnd(pc: Pc) {
    && (pc.Apologising? ==> Excused(pc.end))
    && (pc.Signalling? || pc.Clearing? || pc.AwaitingCallbacks? || pc.Tallying? ==> Recognised(pc.end))
  }

  predicate InTail(pc: Pc) {
    pc.JoiningAudio? || pc.Signalling? || pc.Clearing? || pc.AwaitingCallbacks? || pc.Tallying?
    || (pc.Closing? && Recognised(pc.end))
  }

  predicate WithoutStart(pc: Pc) {
    (pc.Apologising? || pc.Closing?) && NeverStarted(pc.end)
  }

  /** Where the step to Closing with this ending comes from. */
  predicate ClosesFrom(pc: Pc, e: Ending) {
    || ((pc.Apologising? || pc.Tallying?) && e == pc.end)
    || (pc.AwaitingCallbacks? && e == Cancelled)
    || (pc.AwaitingListening? && e == CancelledBeforeStart)
  }

  lemma GotoTail(pc: Pc, op: Op)
    requires Goto(Stt, pc, op).Some? && GoodEnd(pc)
    ensures var next := Goto(Stt, pc, op).value;
      && GoodEnd(next)
      && (pc.Apologising? || pc.Tallying? ==> next == Closing(pc.job, pc.end))
      && (next.Closing? ==> next.job == pc.job && ClosesFrom(pc, next.end))
  {
  }

  lemma GotoStarts(pc: Pc, op: Op)
    requires Goto(Stt, pc, op).Some? && GoodEnd(pc)
    ensures var next := Goto(Stt, pc, op).value;
      && (InTail(next) ==> (InTail(pc) || pc.Selecting?) && next.job == pc.job)
      && (WithoutStart(next) ==> (WithoutStart(pc) || pc.AwaitingListening?) && next.job == pc.job)
  {
  }

  ghost predicate Current(s: Session) {
    && GoodEnd(s.pc)
    && (forall j | j in s.completed :: j in s.popped)
    && (Held(s.pc).Some? ==>
          var j := Held(s.pc).value;
          && (Apologised(s, j) <==> s.pc.Closing? && Excused(s.pc.end))
          && (j in s.completed <==> s.pc.Closing? && s.pc.end == Completed))
    && (InTail(s.pc) ==> s.pc.job in s.starts)
    && (WithoutStart(s.pc) ==> s.pc.job !in s.starts)
  }

  ghost predicate PastBooks(s: Session, p: Past) {
    && (EndOf(s.pc).Some? ==> p.seen == EndOf(s.pc))
    && (forall e | e in p.ends :: StoryOf(s, e))
  }

  lemma TailHolds(pc: Pc)
    ensures GoodPlace(pc) || pc.Closing? || pc.Apologising? || pc.Tallying? ==> Held(pc) == Some(pc.job)
    ensures pc.Selecting? || pc.AwaitingListening? || pc.Resetting? ==> Held(pc) == Some(pc.job)
    ensures pc.Selecting? ==> Started(pc)
    ensures pc.AwaitingListening? ==> BeforeStart(pc)
    ensures pc.Popping? ==> Held(pc) == None && !GoodPlace(pc)
  {
  }

  predicate GoodPlace(pc: Pc) {
    InTail(pc) || WithoutStart(pc)
  }

  lemma SendsApology(s: Session, op: Op)
    requires Enabled(s, Worker(op))
    ensures var t := WorkerStep(s, op);
      forall j :: Apologised(t, j) <==> Apologised(s, j) || (s.pc.Apologising? && j == s.pc.job)
  {
    hide Goto, WorkerGuard, Buffered;
    var t := WorkerStep(s, op);
    forall j ensures Apologised(t, j) <==> Apologised(s, j) || (s.pc.Apologising? && j == s.pc.job) {
      if s.pc.Apologising? {
        assert FromWorker(s.pc.job, s.pc.end) in t.sent;
      }
    }
  }

  lemma CurrentWorker(s: Session, op: Op)
    requires Enabled(s, Worker(op)) && Channels(s) && OnlyPopped(s) && Ownership(s) && Current(s)
    ensures Current(WorkerStep(s, op))
  {
    hide Goto, WorkerGuard, Held, Buffered, Distinct, InTail, WithoutStart, GoodEnd, Started, BeforeStart, Apologised,
         Excused;
    var next := Goto(Stt, s.pc, op).value;
    GotoTail(s.pc, op);
    GotoStarts(s.pc, op);
    TailHolds(s.pc);
    TailHolds(next);
    SendsApology(s, op);
    StartEnds(s.pc);
    NotYet(s);
    if s.pc.Popping? {
      PopHolds(s.pc, op);
      FreshlyPopped(s, op);
    } else {
      GotoKeepsJob(Stt, s.pc, op);
      GetsNoJob(s.pc, op);
      ClosingOnly(s.pc);
    }
  }

  lemma StartEnds(pc: Pc)
    ensures pc.Resetting? || pc.Writing? ==> !InTail(pc) && !WithoutStart(pc)
    ensures pc.Apologising? && GoodEnd(pc) ==> Excused(pc.end) && pc.end != Completed
    ensures pc.Tallying? && GoodEnd(pc) ==> !Excused(pc.end)
    ensures !Excused(Cancelled) && !Excused(CancelledBeforeStart)
  {
  }

  /** Nothing that is not popped has been apologised for. */
  lemma NotYet(s: Session)
    requires OnlyPopped(s)
    ensures forall j | Apologised(s, j) :: j in s.popped
  {
  }

  lemma FreshlyPopped(s: Session, op: Op)
    requires Enabled(s, Worker(op)) && s.pc.Popping?
    ensures op.GotJob? ==> op.job !in s.popped
    ensures var next := Goto(Stt, s.pc, op).value;
      !next.Closing? && !next.Apologising? && !next.Tallying? && !InTail(next) && !WithoutStart(next)
  {
  }

  lemma GetsNoJob(pc: Pc, op: Op)
    requires Goto(Stt, pc, op).Some? && !pc.Popping?
    ensures !op.GotJob?
  {
  }

  lemma ClosingOnly(pc: Pc)
    ensures pc.Closing? ==> ClosesResult(pc)
    ensures pc.Apologising? || pc.Tallying? ==> !ClosesResult(pc)
  {
  }

  lemma PastWorker(s: Session, op: Op, p: Past)
    requires Enabled(s, Worker(op)) && Channels(s) && Ownership(s) && Current(s) && PastBooks(s, p)
    ensures PastBooks(WorkerStep(s, op), Remember(s, Worker(op), p))
  {
    hide Goto, WorkerGuard, Held, Buffered, Distinct, InTail, WithoutStart, GoodEnd, Started, BeforeStart, Apologised,
         Excused, NeverStarted, Recognised, Saw, EndOf;
    TailHolds(s.pc);
    SendsApology(s, op);
    ClosingStory(s.pc);
    LeavingEnds(s.pc);
    if s.pc.Popping? {
      PopSees(s.pc, op);
    } else {
      GotoEnds(s.pc, op);
    }
  }

  lemma ClosingStory(pc: Pc)
    ensures pc.Closing? ==> (InTail(pc) <==> Recognised(pc.end)) && (WithoutStart(pc) <==> NeverStarted(pc.end))
  {
  }

  lemma PopSees(pc: Pc, op: Op)
    requires pc.Popping? && Goto(Stt, pc, op).Some?
    ensures Saw(pc, op) == None && EndOf(Goto(Stt, pc, op).value) == None
  {
  }

  /** The reader, the audio goroutine, the submitter and the server decide none of this. */
  lemma OthersFrame(s: Session, a: Action)
    requires Enabled(s, a) && !a.Worker?
    ensures var t := Step(s, a);
      && t.pc == s.pc && t.popped == s.popped && t.closed == s.closed && t.completed == s.completed
      && t.starts == s.starts
      && (t.sent == s.sent || exists d :: t.sent == s.sent + [d] && d.FromServer?)
  {
    hide Goto, WorkerGuard, WorkerStep, AudioGuard, NextReader, Room, Buffered;
    if a.ReaderDoes? && a.r.SendResult? {
      assert Step(s, a).sent == s.sent + [FromServer(s.reader.job, s.reader.msg)];
    }
  }

  lemma SameApologies(s: Session, t: Session)
    requires t.sent == s.sent || exists d :: t.sent == s.sent + [d] && d.FromServer?
    ensures forall j :: Apologised(t, j) <==> Apologised(s, j)
  {
  }

  lemma OthersStep(s: Session, a: Action, p: Past)
    requires Enabled(s, a) && !a.Worker? && Current(s) && PastBooks(s, p)
    ensures Current(Step(s, a)) && PastBooks(Step(s, a), Remember(s, a, p))
  {
    hide Enabled, Step, Held, Apologised, InTail, WithoutStart, GoodEnd, Excused, NeverStarted, Recognised, EndOf;
    OthersFrame(s, a);
    SameApologies(s, Step(s, a));
  }

  ghost predicate Told(s: Session, p: Past) {
    Sound(s) && Current(s) && PastBooks(s, p)
  }

  lemma ToldStep(s: Session, a: Action, p: Past)
    requires Enabled(s, a) && Told(s, p)
    ensures Told(Step(s, a), Remember(s, a, p))
  {
    hide Enabled, WorkerStep, ReaderStep, AudioStep, Callbacks, Channels, OnlyPopped, Completions, WireBooks, Handshake,
         Ownership, Current, PastBooks, SttPc, Remember, PreWire, Untouched;
    SoundStep(s, a);
    if a.Worker? {
      CurrentWorker(s, a.op);
      PastWorker(s, a.op, p);
    } else {
      OthersStep(s, a, p);
    }
  }

  lemma {:induction false} ToldAlong(s: Session, run: seq<Action>, p: Past)
    requires ValidRun(s, run) && Told(s, p)
    ensures Told(Exec(s, run), PastFrom(s, run, p))
    decreases run
  {
    hide Enabled, Step, Told, Remember;
    if run != [] {
      ToldStep(s, run[0], p);
      ToldAlong(Step(s, run[0]), run[1..], Remember(s, run[0], p));
    }
  }

  lemma ToldStarts()
    ensures Told(Init(), Past(None, []))
  {
    hide Sound, Goto;
    InitSound();
  }

  /** How each closed job ended. The worker's own error result is on its ResultCh exactly if the
      connection was lost before the start or the start failed; it is counted completed exactly if
      the worker saw its jobDone; a start was written for no job lost or cancelled before it, and
      for every job ended by the select. */
  lemma EachJobsStory(run: seq<Action>, e: Ended)
    requires ValidRun(Init(), run) && e in PastOf(run).ends
    ensures var s := Exec(Init(), run);
      && e.job in s.closed && e.saw.Some?
      && (Apologised(s, e.job) <==> e.saw == Some(LostBeforeStart) || e.saw == Some(StartFailed))
      && (e.job in s.completed <==> e.saw == Some(Completed))
      && (e.saw == Some(LostBeforeStart) || e.saw == Some(CancelledBeforeStart) ==> e.job !in s.starts)
      && (e.saw == Some(Completed) || e.saw == Some(TimedOut) ==> e.job in s.starts)
      && (e.saw == Some(ConnDropped) || e.saw == Some(Cancelled) ==> e.job in s.starts)
  {
    hide Exec, ValidRun, PastFrom, Sound, Current, Init, Apologised;
    ToldStarts();
    ToldAlong(Init(), run, Past(None, []));
  }

  // ---------- A completed job keeps its connection ----------

  /** The worker's only possible action leads to `t`. */
  ghost predicate OnlyWayOn(s: Session, t: Session) {
    && (forall op :: Enabled(s, Worker(op)) <==> op == Next)
    && Enabled(s, Worker(Next)) && Step(s, Worker(Next)) == t
  }

  /** Right after a completed job's ResultCh was closed the worker's only way on is, in two steps, to
      pop again, with the connection, its reader and the captured listening channel as they were. */
  lemma CompletedJobKeepsConnection(s: Session)
    requires Sound(s) && s.pc == LeavingActive(Completed)
    ensures var t := s.(pc := EnteringIdle); var u := s.(pc := Popping(Entering));
      OnlyWayOn(s, t) && OnlyWayOn(t, u) && u.connected
  {
    hide Safe, Handshake, Ownership, Track, QuietPc, Goto, WorkerStep, Enabled, Step;
    forall op ensures Enabled(s, Worker(op)) <==> op == Next {
      LeavesActive(s, op);
    }
    forall op ensures Enabled(s.(pc := EnteringIdle), Worker(op)) <==> op == Next {
      EntersIdle(s.(pc := EnteringIdle), op);
    }
    LeavesActive(s, Next);
    EntersIdle(s.(pc := EnteringIdle), Next);
  }

  lemma LeavesActive(s: Session, op: Op)
    requires s.pc == LeavingActive(Completed)
    ensures Enabled(s, Worker(op)) <==> op == Next
    ensures Step(s, Worker(Next)) == s.(pc := EnteringIdle)
  {
    hide Goto;
    OnlyNext(op);
    OnlyNext(Next);
  }

  lemma EntersIdle(s: Session, op: Op)
    requires s.pc == EnteringIdle
    ensures Enabled(s, Worker(op)) <==> op == Next
    ensures Step(s, Worker(Next)) == s.(pc := Popping(Entering))
  {
    hide Goto;
    OnlyNext(op);
    OnlyNext(Next);
  }

  lemma OnlyNext(op: Op)
    ensures Goto(Stt, LeavingActive(Completed), op) == if op == Next then Some(EnteringIdle) else None
    ensures Goto(Stt, EnteringIdle, op) == if op == Next then Some(Popping(Entering)) else None
  {
  }
}
