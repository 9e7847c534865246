/** One STT connection: the worker of runArmedSession, the reader goroutine, the per-job
    audio goroutine and the server, interleaved step by step. */
module SttSessions {
  import opened Jobs
  import opened Workers

  /** What the server sends; `sess` says which start a message answers. */
  datatype Msg =
    | ResultMsg(sess: nat, text: string, final: bool)
    | ErrorMsg(sess: nat, code: int)
    | ListeningMsg(sess: nat)
    | OtherMsg                        // malformed, or nothing the client acts on

  datatype Reader =
    | NotStarted
    | Reading
    | Handling(msg: Msg)              // onResult / onError: about to lock cbMu
    | Calling(job: Job, msg: Msg)     // in the callback's select, cbWg held
    | Called(job: Job, msg: Msg)      // after the select
    | Releasing(job: Job)             // about to cbWg.Done
    | Marking(msg: Msg)               // listening: about to lock c.mu
    | Fetching(msg: Msg)              // listening: about to read c.listeningCh
    | ClosingCh(msg: Msg, ch: nat)    // listening: about to close it
    | Stopped

  datatype Audio = NoAudio | Streaming(job: Job) | Stopping(job: Job) | AudioDone(job: Job)

  /** Writes attempted on the connection, and listening channels closed by the reader. */
  datatype Event =
    | WroteStart(sess: nat) | WroteChunk | WroteStop | WroteClose
    | HeardListening(ch: nat, sess: nat)

  /** A send on a job's ResultCh. */
  datatype Delivery = FromServer(job: Job, msg: Msg) | FromWorker(job: Job, end: Ending)

  datatype Session = Session(
    pc: Pc,
    // stt.Client: listening channels are numbered; Connect makes 0, each start the next
    connected: bool, cur: nat, shut: set<nat>,
    captured: nat,            // the worker's listeningCh
    starts: seq<Job>,         // starts[k-1] is the job of the k-th StartRecognition
    // reader, audio goroutine, server
    reader: Reader, connErr: bool, readCancelled: bool,
    audio: Audio,
    inbox: seq<Msg>,          // sent by the server, not yet read
    served: nat,              // starts the server may have seen
    settled: nat,             // sessions the server has answered with listening
    // per-job state
    cb: Option<Job>,          // the job cbResult and cbError are wired to
    wg: int,                  // cbWg
    done: set<Job>,           // jobDone channels closed
    sent: seq<Delivery>, buffered: map<Job, nat>,
    closed: seq<Job>, popped: seq<Job>, completed: seq<Job>,
    drained: set<Job>,        // jobs whose audio goroutine has finished
    events: seq<Event>,
    ctx: bool,                // cancelled
    panicked: bool)           // send on, or close of, a closed ResultCh

  /** Just after Connect: channel 0 is pre-closed. */
  function Init(): Session {
    Session(Arming, true, 0, {0}, 0, [], NotStarted, false, false, NoAudio, [], 0, 0,
            None, 0, {}, [], map[], [], [], [], {}, [], false, false)
  }

  function Buffered(s: Session, j: Job): nat {
    if j in s.buffered then s.buffered[j] else 0
  }

  /** There is room in the job's ResultCh. */
  predicate Room(s: Session, j: Job) {
    Buffered(s, j) < j.capacity
  }

  /** StartRecognition holds c.mu from its connected check to the end of its write. */
  predicate ClientFree(s: Session) {
    !s.pc.Writing?
  }

  datatype ReaderAct =
    | Take | ReadFails(err: bool)
    | LockCallback | SendResult | SkipResult | Finish | Release
    | Mark | Fetch | CloseCh

  datatype AudioAct = Chunk(ok: bool) | EndOfAudio | SendStop

  datatype Action =
    | Worker(op: Op)
    | ReaderDoes(r: ReaderAct)                          // ReadMessages and the callbacks it runs
    | AudioDoes(x: AudioAct)                            // the job's audio goroutine
    | Receive(job: Job)                                 // the submitter drains ResultCh
    | CancelCtx
    | ServerSends(msg: Msg)

  /** What the worker's next action waits for. */
  predicate WorkerGuard(s: Session, op: Op) {
    match s.pc
    case Popping(_) => op.GotFalse? || (op.GotJob? && op.job !in s.popped && op.job.capacity > 0)
    case AwaitingListening(_) =>
      if op.SeeListening? then s.captured in s.shut else if op.SeeConnErr? then s.connErr else s.ctx
    case Resetting(_) => op.Failed? <==> !s.connected
    case Selecting(j) =>
      if op.SeeJobDone? then j in s.done else if op.SeeConnErr? then s.connErr else op.SeeTimeout? || s.ctx
    case JoiningAudio(j) => s.audio == AudioDone(j)
    case Apologising(j, _) => Room(s, j)
    case AwaitingCallbacks(_, _) => s.wg == 0
    case JoiningReader(_) => s.reader == Stopped
    case Deciding(_) | Dialing | Exited => false        // a new connection is a new session
    case _ => true
  }

  predicate ReaderGuard(s: Session, r: ReaderAct) {
    match r
    case Take => s.reader.Reading? && s.inbox != []
    case ReadFails(_) => s.reader.Reading?
    case LockCallback => s.reader.Handling?
    case SendResult => s.reader.Calling? && (Room(s, s.reader.job) || s.reader.job in s.closed)
    case SkipResult => s.reader.Calling? && s.reader.job in s.done
    case Finish => s.reader.Called?
    case Release => s.reader.Releasing?
    case Mark => s.reader.Marking? && ClientFree(s)
    case Fetch => s.reader.Fetching?
    case CloseCh => s.reader.ClosingCh?
  }

  predicate AudioGuard(s: Session, x: AudioAct) {
    match x
    case Chunk(_) => s.audio.Streaming? && ClientFree(s)
    case EndOfAudio => s.audio.Streaming?
    case SendStop => s.audio.Stopping? && ClientFree(s)
  }

  predicate Enabled(s: Session, a: Action) {
    match a
    case Worker(op) => Goto(Stt, s.pc, op).Some? && WorkerGuard(s, op)
    case ReaderDoes(r) => ReaderGuard(s, r)
    case AudioDoes(x) => AudioGuard(s, x)
    case Receive(j) => Buffered(s, j) > 0
    case CancelCtx => !s.ctx
    case ServerSends(_) => true
  }

  /** The worker takes the action its counter names; each field lists the counters that touch it. */
  function WorkerStep(s: Session, op: Op): Session
    requires Goto(Stt, s.pc, op).Some?
  {
    var pc := s.pc;
    s.(pc := Goto(Stt, pc, op).value,
       popped := if op.GotJob? then s.popped + [op.job] else s.popped,
       // stt.Client
       captured := if pc.Capturing? || pc.Recapturing? then s.cur else s.captured,
       cur := if pc.Resetting? && !op.Failed? then s.cur + 1 else s.cur,
       starts := if pc.Resetting? && !op.Failed? then s.starts + [pc.job] else s.starts,
       served := if pc.Writing? then |s.starts| else s.served,
       connected := s.connected && !pc.HangingUp?,
       events := if pc.Writing? then s.events + [WroteStart(s.cur)]
                 else if pc.HangingUp? && s.connected then s.events + [WroteClose] else s.events,
       // goroutines
       reader := if pc.Arming? then Reading else s.reader,
       audio := if pc.Spawning? then Streaming(pc.job) else s.audio,
       connErr := s.connErr && !op.SeeConnErr?,
       readCancelled := s.readCancelled || pc.Cancelling?,
       // callbacks and jobDone
       cb := if pc.Wiring? then Some(pc.job) else if pc.Clearing? then None else s.cb,
       done := if pc.Signalling? then s.done + {pc.job} else s.done,
       // ResultCh
       sent := if pc.Apologising? then s.sent + [FromWorker(pc.job, pc.end)] else s.sent,
       buffered := if pc.Apologising? then s.buffered[pc.job := Buffered(s, pc.job) + 1] else s.buffered,
       closed := if pc.Rejecting? || pc.Closing? then s.closed + [pc.job] else s.closed,
       panicked := s.panicked || ((pc.Rejecting? || pc.Closing? || pc.Apologising?) && pc.job in s.closed),
       completed := if pc.Tallying? && pc.end.Completed? then s.completed + [pc.job] else s.completed)
  }

  /** The reader dispatches the message it just read. */
  function Dispatch(msg: Msg): Reader {
    match msg
    case ResultMsg(_, text, _) => if text != "" then Handling(msg) else Reading
    case ErrorMsg(_, _) => Handling(msg)
    case ListeningMsg(_) => Marking(msg)
    case OtherMsg => Reading
  }

  function NextReader(s: Session, r: ReaderAct): Reader
    requires ReaderGuard(s, r)
  {
    match r
    case Take => Dispatch(s.inbox[0])
    case ReadFails(_) => Stopped
    case LockCallback => if s.cb.Some? then Calling(s.cb.value, s.reader.msg) else Reading
    case SendResult => Called(s.reader.job, s.reader.msg)
    case SkipResult => Called(s.reader.job, s.reader.msg)
    case Finish => Releasing(s.reader.job)
    case Release => Reading
    case Mark => Fetching(s.reader.msg)
    case Fetch => ClosingCh(s.reader.msg, s.cur)
    case CloseCh => Reading
  }

  predicate IsFinal(msg: Msg) {
    msg.ResultMsg? && msg.final
  }

  function SessOf(msg: Msg): nat {
    if msg.OtherMsg? then 0 else msg.sess
  }

  function ReaderStep(s: Session, r: ReaderAct): Session
    requires ReaderGuard(s, r)
  {
    s.(reader := NextReader(s, r),
       inbox := if r.Take? then s.inbox[1..] else s.inbox,
       connErr := s.connErr || (r.ReadFails? && r.err && !s.readCancelled),
       wg := s.wg + (if r.LockCallback? && s.cb.Some? then 1 else if r.Release? then -1 else 0),
       sent := if r.SendResult? then s.sent + [FromServer(s.reader.job, s.reader.msg)] else s.sent,
       buffered := if r.SendResult? then s.buffered[s.reader.job := Buffered(s, s.reader.job) + 1] else s.buffered,
       panicked := s.panicked || (r.SendResult? && s.reader.job in s.closed),
       done := if r.Finish? && IsFinal(s.reader.msg) then s.done + {s.reader.job} else s.done,
       shut := if r.CloseCh? then s.shut + {s.reader.ch} else s.shut,
       events := if r.CloseCh? then s.events + [HeardListening(s.reader.ch, SessOf(s.reader.msg))] else s.events)
  }

  function AudioStep(s: Session, x: AudioAct): Session
    requires AudioGuard(s, x)
  {
    s.(audio := if x.SendStop? then AudioDone(s.audio.job)
                else if x.Chunk? && x.ok && s.connected then s.audio
                else Stopping(s.audio.job),
       drained := if x.SendStop? then s.drained + {s.audio.job} else s.drained,
       events := if !s.connected || x.EndOfAudio? then s.events
                 else s.events + [if x.SendStop? then WroteStop else WroteChunk])
  }

  function Step(s: Session, a: Action): Session
    requires Enabled(s, a)
  {
    match a
    case Worker(op) => WorkerStep(s, op)
    case ReaderDoes(r) => ReaderStep(s, r)
    case AudioDoes(x) => AudioStep(s, x)
    case Receive(j) => s.(buffered := s.buffered[j := Buffered(s, j) - 1])
    case CancelCtx => s.(ctx := true)
    case ServerSends(msg) =>
      s.(inbox := s.inbox + [msg], settled := if msg.ListeningMsg? then s.settled + 1 else s.settled)
  }

  // ---------- Runs ----------

  ghost predicate ValidRun(s: Session, run: seq<Action>)
    decreases run
  {
    run == [] || (Enabled(s, run[0]) && ValidRun(Step(s, run[0]), run[1..]))
  }

  ghost function Exec(s: Session, run: seq<Action>): Session
    requires ValidRun(s, run)
    decreases run
  {
    if run == [] then s else Exec(Step(s, run[0]), run[1..])
  }

  /** A server that answers each start it may have seen with that session's results and
      errors and then exactly one listening message, one session after the other. */
  predicate HonestMsg(s: Session, msg: Msg) {
    match msg
    case OtherMsg => true
    case _ => msg.sess == s.settled + 1 <= s.served
  }

  ghost predicate HonestRun(s: Session, run: seq<Action>)
    requires ValidRun(s, run)
    decreases run
  {
    run == [] || ((run[0].ServerSends? ==> HonestMsg(s, run[0].msg)) && HonestRun(Step(s, run[0]), run[1..]))
  }
}
