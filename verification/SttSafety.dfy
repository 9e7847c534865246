/** What holds in every interleaving on one STT connection, whatever the server sends. */
module SttSafety {
  import opened Jobs
  import opened Workers
  import opened SttSessions

  // ---------- Callbacks ----------

  /** The callbacks are wired to the worker's job. */
  predicate WiredPc(pc: Pc) {
    pc.Spawning? || pc.Selecting? || pc.JoiningAudio? || pc.Signalling? || pc.Clearing?
  }

  predicate InCallback(r: Reader) {
    r.Calling? || r.Called? || r.Releasing?
  }

  /** A callback in flight is counted by cbWg and belongs to the job the worker still holds open. */
  ghost predicate Callbacks(s: Session) {
    && (s.cb.Some? <==> WiredPc(s.pc))
    && (s.cb.Some? ==> Held(s.pc) == s.cb)
    && s.wg == Flag(InCallback(s.reader))
    && (s.reader.NotStarted? <==> s.pc.Arming?)
    && (InCallback(s.reader) ==> (WiredPc(s.pc) || s.pc.AwaitingCallbacks?) && Held(s.pc) == Some(s.reader.job))
  }

  lemma GotoWired(pc: Pc, op: Op)
    requires Goto(Stt, pc, op).Some?
    ensures var next := Goto(Stt, pc, op).value;
      && (WiredPc(next) <==> pc.Wiring? || (WiredPc(pc) && !pc.Clearing?))
      && (next.AwaitingCallbacks? <==> pc.Clearing?)
      && (next.Arming? ==> pc.Dialing?)
      && (WiredPc(pc) || pc.Wiring? ==> Held(next) == Held(pc) == Some(pc.job))
  {
  }

  lemma CallbacksWorker(s: Session, op: Op)
    requires Enabled(s, Worker(op)) && Callbacks(s)
    ensures Callbacks(Step(s, Worker(op)))
  {
    hide Goto, Held, Room;
    GotoWired(s.pc, op);
  }

  lemma CallbacksReader(s: Session, r: ReaderAct)
    requires ReaderGuard(s, r) && Callbacks(s)
    ensures Callbacks(ReaderStep(s, r))
  {
    hide Held, Room, Buffered;
  }

  /** The audio goroutine, the submitter, ctx and the server. */
  predicate IsRest(a: Action) {
    !a.Worker? && !a.ReaderDoes?
  }

  /** They leave the reader, the callbacks and the books of the job alone. */
  lemma RestFrame(s: Session, a: Action)
    requires Enabled(s, a) && IsRest(a)
    ensures var t := Step(s, a);
      && t.pc == s.pc && t.cb == s.cb && t.wg == s.wg && t.reader == s.reader && t.done == s.done && t.sent == s.sent
      && t.popped == s.popped && t.closed == s.closed && t.completed == s.completed && t.panicked == s.panicked
      && s.drained <= t.drained && (a.Receive? || t.buffered == s.buffered)
      && (t.audio.AudioDone? ==> t.audio.job in t.drained || t.audio == s.audio)
  {
    hide Goto, WorkerGuard, WorkerStep, ReaderStep, ReaderGuard, Room, Buffered;
  }

  lemma CallbacksRest(s: Session, a: Action)
    requires Enabled(s, a) && IsRest(a) && Callbacks(s)
    ensures Callbacks(Step(s, a))
  {
    hide Goto, Held, Enabled, Step;
    RestFrame(s, a);
  }

  // ---------- ResultCh is never used after it is closed ----------

  ghost predicate Channels(s: Session) {
    && !s.panicked
    && Distinct(s.popped) && Distinct(s.closed)
    && (forall j | j in s.closed :: j in s.popped)
    && (Held(s.pc).Some? ==> Held(s.pc).value in s.popped && Held(s.pc).value !in s.closed)
  }

  lemma ChannelsWorker(s: Session, op: Op)
    requires Enabled(s, Worker(op)) && Channels(s)
    ensures Channels(Step(s, Worker(op)))
  {
    hide Held, ClosesResult, Goto, Room;
    JobPcs(s.pc);
    if op.GotJob? {
      OnlyPopGets(s.pc, op);
    }
    if s.pc.Popping? {
      PopHolds(s.pc, op);
    } else {
      GotoKeepsJob(Stt, s.pc, op);
    }
  }

  lemma PopHolds(pc: Pc, op: Op)
    requires pc.Popping? && Goto(Stt, pc, op).Some?
    ensures op.GotJob? || op.GotFalse?
    ensures Held(Goto(Stt, pc, op).value) == if op.GotJob? then Some(op.job) else None
  {
  }

  lemma OnlyPopGets(pc: Pc, op: Op)
    requires Goto(Stt, pc, op).Some? && op.GotJob?
    ensures pc.Popping?
  {
  }

  lemma JobPcs(pc: Pc)
    ensures pc.Apologising? ==> Held(pc) == Some(pc.job)
    ensures pc.Rejecting? || pc.Closing? <==> ClosesResult(pc) && !pc.TtsClose?
  {
  }

  lemma ChannelsReader(s: Session, r: ReaderAct)
    requires ReaderGuard(s, r) && Callbacks(s) && Channels(s)
    ensures Channels(ReaderStep(s, r))
  {
    hide Held, Room, Buffered, Distinct;
  }

  lemma ChannelsRest(s: Session, a: Action)
    requires Enabled(s, a) && IsRest(a) && Channels(s)
    ensures Channels(Step(s, a))
  {
    hide Goto, Held, Enabled, Step, Distinct;
    RestFrame(s, a);
  }

  // ---------- Untouched jobs ----------

  /** Nothing has been sent, signalled or buffered for the job yet. */
  ghost predicate Untouched(s: Session, j: Job) {
    Buffered(s, j) == 0 && j !in s.done && forall d | d in s.sent :: d.job != j
  }

  /** From the pop to the wiring of callbacks, and on the two early failure paths. */
  predicate PreWire(pc: Pc) {
    pc.Checking? || pc.Rejecting? || pc.LeavingIdle? || pc.EnteringActive? || pc.AwaitingListening?
    || pc.Announcing? || pc.Resetting? || pc.Writing? || pc.Recapturing? || pc.Wiring? || pc.Apologising?
  }

  ghost predicate Fresh(s: Session) {
    && OnlyPopped(s)
    && (PreWire(s.pc) ==> Untouched(s, s.pc.job))
  }

  lemma GotoPreWire(pc: Pc, op: Op)
    requires Goto(Stt, pc, op).Some?
    ensures var next := Goto(Stt, pc, op).value;
      PreWire(next) ==> if pc.Popping? then op.GotJob? && next.job == op.job
                        else PreWire(pc) && next.job == pc.job && !pc.Apologising?
  {
  }

  /** Whatever has been touched was popped. */
  ghost predicate OnlyPopped(s: Session) {
    && (forall d | d in s.sent :: d.job in s.popped)
    && (forall j | j in s.done || j in s.buffered :: j in s.popped)
    && (forall j | j in s.popped :: j.capacity > 0)
  }

  lemma OnlyPoppedWorker(s: Session, op: Op)
    requires Enabled(s, Worker(op)) && Channels(s) && OnlyPopped(s)
    ensures OnlyPopped(WorkerStep(s, op))
  {
    hide Goto, Held, Distinct, Room, Buffered;
    HeldJob(s.pc);
    if op.GotJob? {
      OnlyPopGets(s.pc, op);
    }
  }

  lemma FreshWorker(s: Session, op: Op)
    requires Enabled(s, Worker(op)) && Channels(s) && Fresh(s)
    ensures Fresh(WorkerStep(s, op))
  {
    hide Goto, Held, Distinct, Room;
    OnlyPoppedWorker(s, op);
    GotoPreWire(s.pc, op);
    SignalsLate(s.pc);
    if op.GotJob? {
      OnlyPopGets(s.pc, op);
    }
  }

  lemma SignalsLate(pc: Pc)
    ensures pc.Signalling? ==> !PreWire(pc)
  {
  }

  lemma HeldJob(pc: Pc)
    ensures PreWire(pc) || WiredPc(pc) ==> Held(pc) == Some(pc.job)
  {
  }

  /** The reader touches only the job whose callback is in flight. */
  lemma FreshReader(s: Session, r: ReaderAct)
    requires ReaderGuard(s, r) && Callbacks(s) && Channels(s) && Fresh(s)
    ensures Fresh(ReaderStep(s, r))
  {
    hide Held, Room, Distinct, NextReader;
    HeldJob(s.pc);
  }

  lemma FreshRest(s: Session, a: Action)
    requires Enabled(s, a) && IsRest(a) && Fresh(s)
    ensures Fresh(Step(s, a))
  {
    hide Goto, WorkerGuard, WorkerStep, ReaderStep, ReaderGuard, Room, AudioStep;
    RestFrame(s, a);
  }

  // ---------- `completed` ----------

  /** A final result has been sent on the job's ResultCh. */
  ghost predicate FinalSent(s: Session, j: Job) {
    exists m: Msg :: IsFinal(m) && FromServer(j, m) in s.sent
  }

  predicate AtSelect(pc: Pc) {
    pc.Spawning? || pc.Selecting? || pc.JoiningAudio?
  }

  /** The worker is winding up a job it takes to be completed. */
  predicate EndsCompleted(pc: Pc) {
    (pc.Signalling? || pc.Clearing? || pc.AwaitingCallbacks? || pc.Tallying? || pc.Closing?) && pc.end.Completed?
  }

  ghost predicate Completions(s: Session) {
    && (AtSelect(s.pc) && s.pc.job in s.done ==> FinalSent(s, s.pc.job))
    && (s.pc.JoiningAudio? ==> s.pc.job in s.done)
    && (s.pc.Clearing? || s.pc.AwaitingCallbacks? ==> s.pc.job in s.done)
    && (AtSelect(s.pc) && s.reader.Called? && IsFinal(s.reader.msg) ==> FinalSent(s, s.reader.job))
    && (EndsCompleted(s.pc) ==> FinalSent(s, s.pc.job) && s.pc.job in s.drained)
    && (forall j | j in s.completed :: FinalSent(s, j) && j in s.drained)
    && (s.audio.AudioDone? ==> s.audio.job in s.drained)
  }

  lemma FinalSentGrows(s: Session, t: Session)
    requires forall d | d in s.sent :: d in t.sent
    ensures forall j | FinalSent(s, j) :: FinalSent(t, j)
  {
  }

  lemma GotoCompletes(pc: Pc, op: Op)
    requires Goto(Stt, pc, op).Some?
    ensures var next := Goto(Stt, pc, op).value;
      && (AtSelect(next) ==> (pc.Wiring? || AtSelect(pc)) && next.job == pc.job)
      && (next.JoiningAudio? ==> pc.Selecting? && op.SeeJobDone?)
      && (next.Clearing? ==> pc.Signalling? && next.job == pc.job)
      && (next.AwaitingCallbacks? ==> pc.Clearing? && next.job == pc.job)
      && (EndsCompleted(next) ==> (EndsCompleted(pc) || pc.JoiningAudio? || pc.Apologising?) && next.job == pc.job)
      && (pc.Apologising? && EndsCompleted(next) ==> pc.end.Completed?)
  {
  }

  /** A point of the STT program; its own error result is for jobs that never got a recognition session. */
  predicate SttPc(pc: Pc) {
    !TtsOnly(pc) && (pc.Apologising? ==> pc.end.LostBeforeStart? || pc.end.StartFailed?)
  }

  lemma GotoSttPc(pc: Pc, op: Op)
    requires Goto(Stt, pc, op).Some? && SttPc(pc)
    ensures SttPc(Goto(Stt, pc, op).value)
  {
  }

  lemma CompletionsWorker(s: Session, op: Op)
    requires Enabled(s, Worker(op)) && Callbacks(s) && Fresh(s) && SttPc(s.pc) && Completions(s)
    ensures Completions(Step(s, Worker(op)))
  {
    hide Goto, Held, FinalSent, Room;
    GotoCompletes(s.pc, op);
    FinalSentGrows(s, Step(s, Worker(op)));
  }

  lemma SendsFinal(s: Session)
    requires ReaderGuard(s, SendResult)
    ensures IsFinal(s.reader.msg) ==> FinalSent(ReaderStep(s, SendResult), s.reader.job)
  {
    hide NextReader;
    assert FromServer(s.reader.job, s.reader.msg) in ReaderStep(s, SendResult).sent;
  }

  lemma CompletionsReader(s: Session, r: ReaderAct)
    requires ReaderGuard(s, r) && Callbacks(s) && Completions(s)
    ensures Completions(ReaderStep(s, r))
  {
    hide Held, Room, FinalSent, Buffered;
    FinalSentGrows(s, ReaderStep(s, r));
    if r.SendResult? {
      SendsFinal(s);
    }
    HeldJob(s.pc);
  }

  lemma CompletionsRest(s: Session, a: Action)
    requires Enabled(s, a) && IsRest(a) && Completions(s)
    ensures Completions(Step(s, a))
  {
    hide Goto, Enabled, Step, FinalSent;
    RestFrame(s, a);
    FinalSentGrows(s, Step(s, a));
  }

  // ---------- All of it, over every run ----------

  ghost predicate Safe(s: Session) {
    Callbacks(s) && Channels(s) && Fresh(s) && SttPc(s.pc) && Completions(s)
  }

  lemma SafeStep(s: Session, a: Action)
    requires Enabled(s, a) && Safe(s)
    ensures Safe(Step(s, a))
  {
    hide Goto, Callbacks, Channels, Fresh, Completions, WorkerGuard, ReaderGuard, AudioGuard, NextReader, SttPc;
    match a {
      case Worker(op) =>
        GotoSttPc(s.pc, op);
        CallbacksWorker(s, op);
        ChannelsWorker(s, op);
        FreshWorker(s, op);
        CompletionsWorker(s, op);
      case ReaderDoes(r) =>
        CallbacksReader(s, r);
        ChannelsReader(s, r);
        FreshReader(s, r);
        CompletionsReader(s, r);
      case _ =>
        CallbacksRest(s, a);
        ChannelsRest(s, a);
        FreshRest(s, a);
        CompletionsRest(s, a);
        RestFrame(s, a);
    }
  }

  lemma {:induction false} SafeAlong(s: Session, run: seq<Action>)
    requires Safe(s) && ValidRun(s, run)
    ensures Safe(Exec(s, run))
    decreases run
  {
    hide Enabled, Step, Safe;
    if run != [] {
      SafeStep(s, run[0]);
      SafeAlong(Step(s, run[0]), run[1..]);
    }
  }

  lemma InitSafe()
    ensures Safe(Init())
  {
  }

  lemma Reached(run: seq<Action>)
    requires ValidRun(Init(), run)
    ensures Safe(Exec(Init(), run))
  {
    InitSafe();
    SafeAlong(Init(), run);
  }
}
