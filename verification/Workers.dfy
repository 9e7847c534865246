/** The two worker loops of the broker as programs over program counters: `Goto`
    is the control flow, one atomic action of the source per step. What a step does to
    shared state is read off the counter it leaves. */
module Workers {
  import opened Jobs

  datatype Kind = Tts | Stt

  /** Where a worker stands inside `pop`. From `SawEmpty` to `Parking` it holds the queue lock. */
  datatype Wait = Entering | SawEmpty | SawNoCancel | Parking | Asleep | Woken

  /** How an STT job that passed the payload check ended. */
  datatype Ending =
    | Completed | TimedOut | ConnDropped | Cancelled
    | LostBeforeStart | CancelledBeforeStart | StartFailed

  /** The caller reconnects after these. */
  predicate Dropped(end: Ending) {
    end.TimedOut? || end.ConnDropped? || end.LostBeforeStart? || end.StartFailed?
  }

  /** Each constructor names the action about to happen. */
  datatype Pc =
    | Popping(wait: Wait)
    | Checking(job: Job)            // payload type assertion
    | Rejecting(job: Job)           // close(ResultCh) on the wrong payload type
    | Exited
    // TTS
    | TtsEnter(job: Job)            // active.Add(1)
    | TtsCall(job: Job)             // SynthesizeWithOptions
    | TtsLeave(job: Job, ok: bool)  // active.Add(-1)
    | TtsCount(job: Job, ok: bool)  // completed/errors.Add(1)
    | TtsSend(job: Job, ok: bool)   // the one send on ResultCh
    | TtsClose(job: Job, ok: bool)  // close(ResultCh)
    // STT
    | Dialing
    | Arming                        // start the reader goroutine
    | GoingIdle                     // idle.Add(1)
    | Capturing                     // listeningCh := cli.ListeningCh()
    | LeavingIdle(job: Job)         // idle.Add(-1)
    | EnteringActive(job: Job)      // active.Add(1)
    | AwaitingListening(job: Job)   // select on listeningCh / connErrCh / ctx
    | Announcing(job: Job)          // close(ReadyCh) unless nil
    | Resetting(job: Job)           // StartRecognition: connected check, fresh listeningCh
    | Writing(job: Job)             // StartRecognition: write the start payload
    | Recapturing(job: Job)         // listeningCh = cli.ListeningCh()
    | Wiring(job: Job)              // cbResult, cbError = ...
    | Spawning(job: Job)            // start the audio goroutine
    | Selecting(job: Job)           // select on jobDone / timeout / connErrCh / ctx
    | JoiningAudio(job: Job)        // <-audioDone
    | Apologising(job: Job, end: Ending)        // the worker's own error result
    | Signalling(job: Job, end: Ending)         // clearCallbacks: close jobDone
    | Clearing(job: Job, end: Ending)           // clearCallbacks: nil the callbacks
    | AwaitingCallbacks(job: Job, end: Ending)  // clearCallbacks: cbWg.Wait()
    | Tallying(job: Job, end: Ending)           // completed/errors.Add(1)
    | Closing(job: Job, end: Ending)            // close(ResultCh)
    | LeavingActive(end: Ending)                // active.Add(-1)
    | EnteringIdle                              // idle.Add(1)
    | PopFailed                                 // idle.Add(-1) after pop returned false
    | Cancelling(dropped: bool)                 // cancelRead()
    | JoiningReader(dropped: bool)              // <-readDone
    | HangingUp(dropped: bool)                  // cli.Close()
    | Deciding(dropped: bool)                   // reconnect or return

  /** `Next` is the action named by the counter; the others pick a branch. */
  datatype Op =
    | Next | Failed
    | GotJob(job: Job) | GotFalse
    | CallReturned(ok: bool)
    | SeeListening | SeeConnErr | SeeCtx | SeeJobDone | SeeTimeout
    | Reconnect | Quit

  function Goto(kind: Kind, pc: Pc, op: Op): Option<Pc> {
    match (pc, op)
    case (Popping(_), GotJob(j)) => Some(Checking(j))
    case (Popping(_), GotFalse) => Some(if kind.Tts? then Exited else PopFailed)
    case (Checking(j), Next) =>
      if kind.Tts? then Some(if j.payload.TtsPayload? then TtsEnter(j) else Rejecting(j))
      else Some(if j.payload.SttPayload? then LeavingIdle(j) else Rejecting(j))
    case (Rejecting(_), Next) => Some(Popping(Entering))
    case (TtsEnter(j), Next) => Some(TtsCall(j))
    case (TtsCall(j), CallReturned(ok)) => Some(TtsLeave(j, ok))
    case (TtsLeave(j, ok), Next) => Some(TtsCount(j, ok))
    case (TtsCount(j, ok), Next) => Some(TtsSend(j, ok))
    case (TtsSend(j, ok), Next) => Some(TtsClose(j, ok))
    case (TtsClose(_, _), Next) => Some(Popping(Entering))
    case (Dialing, Next) => Some(Arming)
    case (Dialing, Failed) => Some(Dialing)  // dialSTT tries again, draining or not
    case (Dialing, Quit) => Some(Exited)
    case (Arming, Next) => Some(GoingIdle)
    case (GoingIdle, Next) => Some(Capturing)
    case (Capturing, Next) => Some(Popping(Entering))
    case (LeavingIdle(j), Next) => Some(EnteringActive(j))
    case (EnteringActive(j), Next) => Some(AwaitingListening(j))
    case (AwaitingListening(j), SeeListening) => Some(Announcing(j))
    case (AwaitingListening(j), SeeConnErr) => Some(Apologising(j, LostBeforeStart))
    case (AwaitingListening(j), SeeCtx) => Some(Closing(j, CancelledBeforeStart))
    case (Announcing(j), Next) => Some(Resetting(j))
    case (Resetting(j), Next) => Some(Writing(j))
    case (Resetting(j), Failed) => Some(Apologising(j, StartFailed))
    case (Writing(j), Next) => Some(Recapturing(j))
    case (Writing(j), Failed) => Some(Apologising(j, StartFailed))
    case (Recapturing(j), Next) => Some(Wiring(j))
    case (Wiring(j), Next) => Some(Spawning(j))
    case (Spawning(j), Next) => Some(Selecting(j))
    case (Selecting(j), SeeJobDone) => Some(JoiningAudio(j))
    case (Selecting(j), SeeTimeout) => Some(Signalling(j, TimedOut))
    case (Selecting(j), SeeConnErr) => Some(Signalling(j, ConnDropped))
    case (Selecting(j), SeeCtx) => Some(Signalling(j, Cancelled))
    case (JoiningAudio(j), Next) => Some(Signalling(j, Completed))
    case (Apologising(j, e), Next) => Some(Closing(j, e))
    case (Signalling(j, e), Next) => Some(Clearing(j, e))
    case (Clearing(j, e), Next) => Some(AwaitingCallbacks(j, e))
    case (AwaitingCallbacks(j, e), Next) => Some(if e.Cancelled? then Closing(j, e) else Tallying(j, e))
    case (Tallying(j, e), Next) => Some(Closing(j, e))
    case (Closing(_, e), Next) => Some(LeavingActive(e))
    case (LeavingActive(e), Next) => Some(if e.Completed? then EnteringIdle else Cancelling(Dropped(e)))
    case (EnteringIdle, Next) => Some(Popping(Entering))
    case (PopFailed, Next) => Some(Cancelling(false))
    case (Cancelling(d), Next) => Some(JoiningReader(d))
    case (JoiningReader(d), Next) => Some(HangingUp(d))
    case (HangingUp(d), Next) => Some(Deciding(d))
    case (Deciding(_), Quit) => Some(Exited)
    case (Deciding(d), Reconnect) => if d then Some(Dialing) else None
    case _ => None
  }

  predicate TtsOnly(pc: Pc) {
    pc.TtsEnter? || pc.TtsCall? || pc.TtsLeave? || pc.TtsCount? || pc.TtsSend? || pc.TtsClose?
  }

  predicate Shared(pc: Pc) {
    pc.Popping? || pc.Checking? || pc.Rejecting? || pc.Exited?
  }

  predicate OfKind(kind: Kind, pc: Pc) {
    Shared(pc) || (kind.Tts? <==> TtsOnly(pc))
  }

  /** The job a worker has popped and not yet closed. */
  function Held(pc: Pc): Option<Job> {
    match pc
    case Popping(_) | Exited | Dialing | Arming | GoingIdle | Capturing | LeavingActive(_) | EnteringIdle
       | PopFailed | Cancelling(_) | JoiningReader(_) | HangingUp(_) | Deciding(_) => None
    case _ => Some(pc.job)
  }

  /** The worker is processing a job: a TTS call, or an STT job past the payload check. */
  predicate InJobPhase(pc: Pc) {
    match pc
    case TtsCall(_) | TtsLeave(_, _) => true
    case AwaitingListening(_) | Announcing(_) | Resetting(_) | Writing(_) | Recapturing(_) | Wiring(_)
       | Spawning(_) | Selecting(_) | JoiningAudio(_) => true
    case Apologising(_, _) | Signalling(_, _) | Clearing(_, _) | AwaitingCallbacks(_, _)
       | Tallying(_, _) | Closing(_, _) | LeavingActive(_) => true
    case _ => false
  }

  /** The STT session is connected and waiting for a job it will stream. */
  predicate InWaitingPhase(kind: Kind, pc: Pc) {
    kind.Stt? && (pc.Capturing? || pc.Popping? || pc.Checking? || pc.Rejecting? || pc.LeavingIdle? || pc.PopFailed?)
  }

  function Flag(b: bool): nat {
    if b then 1 else 0
  }

  /** `active.Add` performed by a step leaving `pc`. */
  function ActiveDelta(pc: Pc): int {
    if pc.TtsEnter? || pc.EnteringActive? then 1
    else if pc.TtsLeave? || pc.LeavingActive? then -1
    else 0
  }

  /** `idle.Add` performed by a step leaving `pc`. */
  function IdleDelta(pc: Pc): int {
    if pc.GoingIdle? || pc.EnteringIdle? then 1
    else if pc.LeavingIdle? || pc.PopFailed? then -1
    else 0
  }

  predicate CountsCompleted(pc: Pc) {
    (pc.TtsCount? && pc.ok) || (pc.Tallying? && pc.end.Completed?)
  }

  predicate CountsError(pc: Pc) {
    (pc.TtsCount? && !pc.ok) || (pc.Tallying? && (pc.end.TimedOut? || pc.end.ConnDropped?))
  }

  /** close(ResultCh) is the step leaving `pc`. */
  predicate ClosesResult(pc: Pc) {
    pc.Rejecting? || pc.TtsClose? || pc.Closing?
  }

  /** Endings the code adds to neither counter. */
  predicate Untallied(end: Ending) {
    end.Cancelled? || end.LostBeforeStart? || end.CancelledBeforeStart? || end.StartFailed?
  }

  predicate ClosesUntallied(pc: Pc) {
    pc.Closing? && Untallied(pc.end)
  }

  /** The worker holds a job whose outcome no counter shows yet. */
  predicate Unaccounted(pc: Pc) {
    Held(pc).Some? && !pc.TtsSend? && !pc.TtsClose? && ((pc.Closing? || pc.Apologising?) ==> Untallied(pc.end))
  }

  /** A step outside pop keeps the job in hand until it closes the job's ResultCh. */
  lemma GotoKeepsJob(kind: Kind, pc: Pc, op: Op)
    requires !pc.Popping? && Goto(kind, pc, op).Some?
    ensures if ClosesResult(pc) then Held(pc) == Some(pc.job) && Held(Goto(kind, pc, op).value) == None
            else Held(Goto(kind, pc, op).value) == Held(pc)
  {
  }
}
