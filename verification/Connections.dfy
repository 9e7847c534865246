/** One streaming client connection: the handler loop of handleWS or Stream, its result
    goroutines, and the broker's answers, interleaved. The two handlers share this state;
    `Step` says where they differ. */
module Connections {
  import opened Jobs
  import opened Routing

  datatype Transport = WebSocket | Grpc

  type Chunk = Bytes

  datatype Message =
    | Start(service: string, sessionType: string, pool: string, priority: int, text: string, voice: Voice)
    | Audio(chunk: Chunk)
    | Stop
    | Other  // bad JSON, or an unknown type

  type Answer = Result<SubmitResult, SubmitError>

  datatype Handler =
    | Idle                    // in Recv
    | Submitting(job: Job)    // in broker.Submit
    | Arming                  // about to jobActive.Store(true)
    | Gone                    // returned
    | Panicked                // sent on a closed audio channel

  /** What has happened to a job: ResultCh closed, then jobActive.Store(false), then "done". */
  datatype Phase = Running | Closed | Cleared | Finished

  /** A Submit the broker accepted. `watched`: it has a result goroutine. */
  datatype Accepted = Accepted(
    job: Job, answer: SubmitResult, oriented: bool, audio: Option<nat>, phase: Phase, watched: bool)

  datatype Channel = Channel(sent: seq<Chunk>, closed: bool)

  datatype Conn = Conn(
    at: Handler,
    active: bool,             // jobActive
    cur: Option<nat>,         // curAudioCh
    closer: Option<nat>,      // the channel closeAudio closes; None if it is nil or does nothing
    session: bool, sticky: string,
    channels: seq<Channel>,   // one per stt start, in order
    jobs: seq<Accepted>,      // in order
    submits: nat,
    hung: bool)               // conn.Close() was called: nothing more is received

  datatype Action =
    | Receive(msg: Message, room: bool)  // `room`: the audio channel's buffer is not full
    | Respond(answer: Answer)            // Submit returns
    | Arm                                // jobActive.Store(true)
    | CloseResult(k: nat)                // the broker closes job k's ResultCh
    | Clear(k: nat)                      // its result goroutine: jobActive.Store(false)
    | Finish(k: nat)                     // ... then "done"
    | HangUp                             // the client is gone: Recv fails

  function Init(): Conn {
    Conn(Idle, false, None, None, false, "", [], [], 0, false)
  }

  predicate Known(service: string) {
    service == "stt" || service == "tts"
  }

  predicate Settled(x: Accepted) {
    x.phase.Cleared? || x.phase.Finished?
  }

  /** closeAudio(), guarded by its sync.Once. */
  function CloseAudio(c: Conn): Conn {
    if c.closer.Some? && c.closer.value < |c.channels| then
      c.(channels := c.channels[c.closer.value := c.channels[c.closer.value].(closed := true)])
    else c
  }

  /** Return, running the deferred closeAudio. */
  function Leave(c: Conn): Conn {
    CloseAudio(c).(at := Gone)
  }

  /** The pool a start asks the broker for. */
  function ChosenPool(sticky: string, m: Message): string
    requires m.Start?
  {
    if m.pool == "" && sticky != "" then sticky else m.pool
  }

  /** A start message, up to the call of Submit. */
  function Begin(t: Transport, c: Conn, m: Message): Conn
    requires m.Start?
  {
    if c.active then c
    else
      var d := c.(session := c.session || m.sessionType != "");
      var pool := ChosenPool(c.sticky, m);
      if m.service == "stt" then
        d.(channels := c.channels + [Channel([], false)], cur := Some(|c.channels|), closer := Some(|c.channels|),
           at := Submitting(Job(c.submits, "stt", pool, m.priority, SttPayload, true, 32)))
      else if m.service == "tts" then
        if m.text == "" then d
        else d.(cur := None, closer := None,
                at := Submitting(Job(c.submits, "tts", pool, m.priority, TtsPayload(m.text, m.voice), false, 32)))
      else if t.WebSocket? then
        d.(cur := None, closer := None,
           at := Submitting(Job(c.submits, m.service, pool, m.priority, NoPayload, false, 32)))
      else
        d.(at := Submitting(Job(c.submits, m.service, "", 0, NoPayload, false, 32)))
  }

  function Hear(c: Conn, chunk: Chunk, room: bool): Conn {
    if !c.active || c.cur.None? || c.cur.value >= |c.channels| then c
    else
      var n := c.cur.value;
      if c.channels[n].closed then c.(at := Panicked)
      else if room then c.(channels := c.channels[n := c.channels[n].(sent := c.channels[n].sent + [chunk])])
      else c
  }

  /** Submit returns, up to Store(true) or the next Recv. */
  function Answered(t: Transport, c: Conn, a: Answer): Conn
    requires c.at.Submitting?
  {
    var d := c.(submits := c.submits + 1);
    if a.Err? then
      if c.session then d.(at := Idle) else Leave(d)
    else if Known(c.at.job.service) then
      d.(at := Arming, sticky := if c.session && c.sticky == "" then a.value.pool else c.sticky,
         jobs := c.jobs + [Accepted(c.at.job, a.value, c.session, c.cur, Running, true)])
    else
      // the handler closes ResultCh itself and starts no goroutine
      var e := d.(jobs := c.jobs + [Accepted(c.at.job, a.value, c.session, None, Closed, false)]);
      if t.WebSocket? then e.(at := Arming) else if c.session then e.(at := Idle) else Leave(e)
  }

  predicate Enabled(c: Conn, a: Action) {
    match a
    case Receive(_, _) => c.at.Idle? && !c.hung
    case Respond(_) => c.at.Submitting?
    case Arm => c.at.Arming?
    case CloseResult(k) => k < |c.jobs| && c.jobs[k].phase.Running?
    case Clear(k) => k < |c.jobs| && c.jobs[k].phase.Closed? && c.jobs[k].watched
    case Finish(k) => k < |c.jobs| && c.jobs[k].phase.Cleared?
    case HangUp => c.at.Idle?
  }

  function SetPhase(jobs: seq<Accepted>, k: nat, p: Phase): seq<Accepted>
    requires k < |jobs|
  {
    jobs[k := jobs[k].(phase := p)]
  }

  function Step(t: Transport, c: Conn, a: Action): Conn
    requires Enabled(c, a)
  {
    match a
    case Receive(m, room) =>
      (match m
       case Start(_, _, _, _, _, _) => Begin(t, c, m)
       case Audio(chunk) => Hear(c, chunk, room)
       case Stop => if c.active then CloseAudio(c) else c
       case Other => c)
    case Respond(answer) => Answered(t, c, answer)
    case Arm => c.(active := true, at := Idle)
    case CloseResult(k) => c.(jobs := SetPhase(c.jobs, k, Closed))
    case Clear(k) => c.(jobs := SetPhase(c.jobs, k, Cleared), active := false)
    case Finish(k) =>
      // a short-lived WebSocket is closed by its result goroutine
      c.(jobs := SetPhase(c.jobs, k, Finished), hung := c.hung || (t.WebSocket? && !c.jobs[k].oriented))
    case HangUp => Leave(c)
  }

  /** Submit refuses any service but the two the broker can start. */
  predicate Refuses(c: Conn, a: Action) {
    a.Respond? && c.at.Submitting? && !Known(c.at.job.service) ==> a.answer.Err?
  }

  predicate IsRun(t: Transport, c: Conn, run: seq<Action>)
    decreases |run|
  {
    run == [] || (Enabled(c, run[0]) && Refuses(c, run[0]) && IsRun(t, Step(t, c, run[0]), run[1..]))
  }

  function Exec(t: Transport, c: Conn, run: seq<Action>): Conn
    requires IsRun(t, c, run)
    decreases |run|
  {
    if run == [] then c else Exec(t, Step(t, c, run[0]), run[1..])
  }

  lemma {:induction false} RunSplit(t: Transport, c: Conn, run: seq<Action>, bs: seq<Action>)
    ensures IsRun(t, c, run + bs) <==> IsRun(t, c, run) && IsRun(t, Exec(t, c, run), bs)
    ensures IsRun(t, c, run + bs) ==> Exec(t, c, run + bs) == Exec(t, Exec(t, c, run), bs)
    decreases |run|
  {
    hide Step, Enabled, Refuses;
    if run == [] {
      assert run + bs == bs;
    } else {
      assert (run + bs)[0] == run[0] && (run + bs)[1..] == run[1..] + bs;
      if Enabled(c, run[0]) {
        RunSplit(t, Step(t, c, run[0]), run[1..], bs);
      }
    }
  }

  // ---------- At most one job in flight ----------

  ghost predicate AllSettled(c: Conn) {
    forall k | 0 <= k < |c.jobs| :: Settled(c.jobs[k])
  }

  /** Every job but the newest is over, and the flag never understates that. */
  ghost predicate OneAtATime(c: Conn) {
    && (forall k | 0 <= k < |c.jobs| - 1 :: Settled(c.jobs[k]))
    && (forall k | 0 <= k < |c.jobs| :: c.jobs[k].watched)
    && (c.at.Submitting? ==> !c.active && AllSettled(c))
    && (c.at.Arming? ==> !c.active && c.jobs != [])
    && (c.at.Idle? && !c.active ==> AllSettled(c))
    && (c.active ==> c.jobs != [])
  }

  /** The audio variables belong to the newest job. */
  ghost predicate AudioBooks(c: Conn) {
    && (c.cur.Some? ==> c.cur.value < |c.channels|)
    && (c.closer.Some? ==> c.closer.value < |c.channels|)
    && (forall k | 0 <= k < |c.jobs| :: c.jobs[k].audio.Some? ==> c.jobs[k].audio.value < |c.channels|)
    && (c.at.Submitting? && Known(c.at.job.service) ==>
          c.closer == c.cur && (c.cur.Some? <==> c.at.job.service == "stt"))
    && (c.at.Arming? || c.active ==>
          c.jobs != [] && c.closer == c.cur == c.jobs[|c.jobs| - 1].audio)
    && (forall k | 0 <= k < |c.jobs| :: c.jobs[k].audio.Some? <==> c.jobs[k].job.service == "stt")
  }

  lemma OneAtATimeStep(t: Transport, c: Conn, a: Action)
    requires OneAtATime(c) && Enabled(c, a) && Refuses(c, a)
    ensures OneAtATime(Step(t, c, a))
  {
    hide ChosenPool;
  }

  lemma BeginBooks(t: Transport, c: Conn, m: Message)
    requires AudioBooks(c) && m.Start? && c.at.Idle?
    ensures AudioBooks(Begin(t, c, m))
  {
    hide ChosenPool;
  }

  lemma AnsweredBooks(t: Transport, c: Conn, a: Answer)
    requires AudioBooks(c) && c.at.Submitting? && !c.active && (Known(c.at.job.service) || a.Err?)
    ensures AudioBooks(Answered(t, c, a))
  {
  }

  lemma PhaseBooks(c: Conn, d: Conn, k: nat, p: Phase)
    requires AudioBooks(c) && k < |c.jobs| && (d.active ==> c.active)
    requires d == c.(jobs := SetPhase(c.jobs, k, p), active := d.active, hung := d.hung)
    ensures AudioBooks(d)
  {
    assert forall i | 0 <= i < |d.jobs| :: d.jobs[i].audio == c.jobs[i].audio && d.jobs[i].job == c.jobs[i].job;
  }

  lemma AudioBooksStep(t: Transport, c: Conn, a: Action)
    requires OneAtATime(c) && AudioBooks(c) && Enabled(c, a) && Refuses(c, a)
    ensures AudioBooks(Step(t, c, a))
  {
    var d := Step(t, c, a);
    match a
    case Receive(m, _) =>
      if m.Start? {
        BeginBooks(t, c, m);
      } else {
        assert d == c.(at := d.at, channels := d.channels) && |d.channels| == |c.channels|;
      }
    case Respond(answer) => AnsweredBooks(t, c, answer);
    case CloseResult(k) => PhaseBooks(c, d, k, Closed);
    case Clear(k) => PhaseBooks(c, d, k, Cleared);
    case Finish(k) => PhaseBooks(c, d, k, Finished);
    case _ =>
  }

  lemma {:induction false} SafeAlong(t: Transport, c: Conn, run: seq<Action>)
    requires OneAtATime(c) && AudioBooks(c) && IsRun(t, c, run)
    ensures OneAtATime(Exec(t, c, run)) && AudioBooks(Exec(t, c, run))
    decreases |run|
  {
    hide OneAtATime, AudioBooks, Step, Enabled, Refuses;
    if run != [] {
      OneAtATimeStep(t, c, run[0]);
      AudioBooksStep(t, c, run[0]);
      SafeAlong(t, Step(t, c, run[0]), run[1..]);
    }
  }
}
