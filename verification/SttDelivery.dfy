/** What must happen on one STT connection, for any server: every message the client acts on is
    delivered, skipped or unwired, in order, and every closed job ended as the worker saw it end. */
module SttDelivery {
  import opened Jobs
  import opened Workers
  import opened SttSessions
  import opened SttSafety
  import opened SttWire
  import opened SttTheorems
  import Outcomes = SttOutcomes

  // ---------- Messages ----------

  /** What the reader did with a message: sent it on a job's ResultCh, skipped it because the
      job's jobDone was closed, or found no callback wired. */
  datatype Fate = Delivered(job: Job, msg: Msg) | Skipped(job: Job, msg: Msg) | Unwired(msg: Msg)

  /** Messages the server sent, those the reader took, and what became of them. */
  datatype Journal = Journal(posted: seq<Msg>, read: seq<Msg>, fates: seq<Fate>)

  function Record(s: Session, a: Action, n: Journal): Journal
    requires Enabled(s, a)
  {
    match a
    case ServerSends(m) => n.(posted := n.posted + [m])
    case ReaderDoes(r) =>
      (match r
       case Take => n.(read := n.read + [s.inbox[0]])
       case LockCallback => if s.cb.None? then n.(fates := n.fates + [Unwired(s.reader.msg)]) else n
       case SendResult => n.(fates := n.fates + [Delivered(s.reader.job, s.reader.msg)])
       case SkipResult => n.(fates := n.fates + [Skipped(s.reader.job, s.reader.msg)])
       case _ => n)
    case _ => n
  }

  ghost function JournalFrom(s: Session, run: seq<Action>, n: Journal): Journal
    requires ValidRun(s, run)
    decreases run
  {
    if run == [] then n else JournalFrom(Step(s, run[0]), run[1..], Record(s, run[0], n))
  }

  ghost function JournalOf(run: seq<Action>): Journal
    requires ValidRun(Init(), run)
  {
    JournalFrom(Init(), run, Journal([], [], []))
  }

  /** The client hands on error messages and results with a text, and nothing else. */
  predicate HandsOn(m: Msg) {
    m.ErrorMsg? || (m.ResultMsg? && m.text != "")
  }

  function HandedOn(ms: seq<Msg>): seq<Msg> {
    if ms == [] then []
    else HandedOn(ms[..|ms| - 1]) + (if HandsOn(ms[|ms| - 1]) then [ms[|ms| - 1]] else [])
  }

  function Messages(fates: seq<Fate>): (r: seq<Msg>)
    ensures |r| == |fates|
  {
    seq(|fates|, i requires 0 <= i < |fates| => fates[i].msg)
  }

  function Deliveries(fates: seq<Fate>): seq<Delivery> {
    if fates == [] then []
    else
      var f := fates[|fates| - 1];
      Deliveries(fates[..|fates| - 1]) + (if f.Delivered? then [FromServer(f.job, f.msg)] else [])
  }

  /** The server's messages among those on the jobs' ResultCh. */
  function ServerPart(sent: seq<Delivery>): seq<Delivery> {
    if sent == [] then []
    else ServerPart(sent[..|sent| - 1]) + (if sent[|sent| - 1].FromServer? then [sent[|sent| - 1]] else [])
  }

  /** Taken, and nothing done with it yet. */
  function Undecided(r: Reader): seq<Msg> {
    match r
    case Handling(m) => [m]
    case Calling(_, m) => [m]
    case _ => []
  }

  ghost predicate JournalBooks(s: Session, n: Journal) {
    && n.posted == n.read + s.inbox
    && HandedOn(n.read) == Messages(n.fates) + Undecided(s.reader)
    && ServerPart(s.sent) == Deliveries(n.fates)
    && (forall f | f in n.fates && f.Skipped? :: f.job in s.done)
  }

  lemma Snocs(ms: seq<Msg>, m: Msg, fates: seq<Fate>, f: Fate, sent: seq<Delivery>, d: Delivery)
    ensures HandedOn(ms + [m]) == HandedOn(ms) + (if HandsOn(m) then [m] else [])
    ensures Messages(fates + [f]) == Messages(fates) + [f.msg]
    ensures Deliveries(fates + [f]) == Deliveries(fates) + (if f.Delivered? then [FromServer(f.job, f.msg)] else [])
    ensures ServerPart(sent + [d]) == ServerPart(sent) + (if d.FromServer? then [d] else [])
  {
    assert (ms + [m])[..|ms|] == ms && (fates + [f])[..|fates|] == fates && (sent + [d])[..|sent|] == sent;
  }

  lemma JournalReader(s: Session, r: ReaderAct, n: Journal)
    requires ReaderGuard(s, r) && JournalBooks(s, n)
    ensures JournalBooks(ReaderStep(s, r), Record(s, ReaderDoes(r), n))
  {
    hide HandedOn, Messages, Deliveries, ServerPart, Room, Buffered;
    var t, m := ReaderStep(s, r), Record(s, ReaderDoes(r), n);
    if r.Take? {
      Snocs(n.read, s.inbox[0], [], Unwired(s.inbox[0]), [], FromServer(Nobody(), s.inbox[0]));
      assert s.inbox == [s.inbox[0]] + s.inbox[1..];
      assert n.read + s.inbox == (n.read + [s.inbox[0]]) + s.inbox[1..];
    } else if r.LockCallback? || r.SendResult? || r.SkipResult? {
      var msg := s.reader.msg;
      var j := if r.LockCallback? then Nobody() else s.reader.job;
      var f := if r.LockCallback? then Unwired(msg) else if r.SendResult? then Delivered(j, msg) else Skipped(j, msg);
      Snocs([], msg, n.fates, f, s.sent, FromServer(j, msg));
      assert Messages(n.fates) + [msg] == Messages(n.fates) + [msg] + [];
    }
  }

  function Nobody(): Job {
    Job(0, "", "", 0, NoPayload, false, 0)
  }

  lemma JournalRest(s: Session, a: Action, n: Journal)
    requires Enabled(s, a) && IsRest(a) && JournalBooks(s, n)
    ensures JournalBooks(Step(s, a), Record(s, a, n))
  {
    hide HandedOn, Messages, Deliveries, ServerPart, Goto, WorkerGuard, ReaderGuard, WorkerStep, ReaderStep, Buffered,
         AudioGuard;
    RestFrame(s, a);
    if a.ServerSends? {
      assert n.read + s.inbox + [a.msg] == n.read + (s.inbox + [a.msg]);
    }
  }

  lemma JournalWorker(s: Session, op: Op, n: Journal)
    requires Enabled(s, Worker(op)) && JournalBooks(s, n) && Callbacks(s)
    ensures JournalBooks(Step(s, Worker(op)), n)
  {
    hide HandedOn, Messages, Deliveries, ServerPart, Goto, WorkerGuard, Buffered, Held, WiredPc;
    Snocs([], OtherMsg, [], Unwired(OtherMsg), s.sent, FromWorker(Nobody(), Completed));
    if s.pc.Apologising? {
      Snocs([], OtherMsg, [], Unwired(OtherMsg), s.sent, FromWorker(s.pc.job, s.pc.end));
    }
  }

  lemma JournalStep(s: Session, a: Action, n: Journal)
    requires Enabled(s, a) && Sound(s) && JournalBooks(s, n)
    ensures JournalBooks(Step(s, a), Record(s, a, n))
  {
    hide Goto, Step, WorkerStep, ReaderStep, AudioStep, WorkerGuard, AudioGuard, JournalBooks, Callbacks, Channels,
         Fresh, Completions, WireBooks, Handshake, Ownership;
    match a
    case Worker(op) => JournalWorker(s, op, n);
    case ReaderDoes(r) =>
      JournalReader(s, r, n);
      StepReads(s, r);
    case _ => JournalRest(s, a, n);
  }

  lemma StepReads(s: Session, r: ReaderAct)
    requires ReaderGuard(s, r)
    ensures Enabled(s, ReaderDoes(r)) && Step(s, ReaderDoes(r)) == ReaderStep(s, r)
  {
    hide ReaderStep, ReaderGuard;
  }

  lemma {:induction false} JournalAlong(s: Session, run: seq<Action>, n: Journal)
    requires ValidRun(s, run) && Sound(s) && JournalBooks(s, n)
    ensures JournalBooks(Exec(s, run), JournalFrom(s, run, n))
    decreases run
  {
    hide Enabled, Step, Record, JournalBooks, Sound;
    if run != [] {
      SoundStep(s, run[0]);
      JournalStep(s, run[0], n);
      JournalAlong(Step(s, run[0]), run[1..], Record(s, run[0], n));
    }
  }

  /** Message conservation, in order, over every run and for any server. What the server sent is what
      the reader took and what is still unread. Of what it took, exactly the error messages and the
      results with a text were handed on, one after the other, except one in hand; each was sent on
      the ResultCh of the job wired then, or skipped after that job's jobDone closed, or met no wired
      callback. And the server's part of all that was ever sent on a ResultCh is exactly the former. */
  lemma MessagesAreConserved(run: seq<Action>)
    requires ValidRun(Init(), run)
    ensures var s, n := Exec(Init(), run), JournalOf(run);
      && n.posted == n.read + s.inbox
      && HandedOn(n.read) == Messages(n.fates) + Undecided(s.reader)
      && ServerPart(s.sent) == Deliveries(n.fates)
      && (forall f | f in n.fates && f.Skipped? :: f.job in s.done)
  {
    hide Exec, ValidRun, JournalFrom, HandedOn, Messages, Deliveries, ServerPart, Sound;
    InitSound();
    assert JournalBooks(Init(), Journal([], [], [])) by {
      EmptyJournal();
    }
    JournalAlong(Init(), run, Journal([], [], []));
  }

  lemma EmptyJournal()
    ensures HandedOn([]) == [] && Messages([]) == [] && Deliveries([]) == [] && ServerPart([]) == []
  {
  }

  /** No callback is wired exactly while the worker is not between wiring a job's callbacks and
      clearing them; so no message that arrives while a job is served is lost. */
  lemma UnwiredOnlyBetweenJobs(run: seq<Action>)
    requires ValidRun(Init(), run)
    ensures var s := Exec(Init(), run);
      && (s.cb.None? <==> !WiredPc(s.pc))
      && (s.pc.Spawning? || s.pc.Selecting? || s.pc.JoiningAudio? ==> s.cb == Some(s.pc.job))
  {
    hide Exec, ValidRun, WireBooks, Handshake, Ownership, Channels, Fresh, Completions;
    SoundFrom(run);
    HeldJob(Exec(Init(), run).pc);
  }

  /** While a job is served and its ResultCh has room, an error or a result with a text at the head
      of the inbox, of whatever session, is on the job's ResultCh three reader steps later. A final
      result then closes jobDone with the next, and the worker can go on. */
  lemma DeliveredInThreeSteps(s: Session)
    requires Sound(s) && s.pc.Selecting? && s.reader == Reading && Room(s, s.pc.job)
    requires s.inbox != [] && HandsOn(s.inbox[0])
    ensures ReaderGuard(s, Take)
    ensures var s1 := ReaderStep(s, Take);
      && ReaderGuard(s1, LockCallback)
      && var s2 := ReaderStep(s1, LockCallback);
         && ReaderGuard(s2, SendResult)
         && var s3 := ReaderStep(s2, SendResult);
            && s3.sent == s.sent + [FromServer(s.pc.job, s.inbox[0])]
            && s3.inbox == s.inbox[1..] && s3.pc == s.pc && !s3.panicked
            && ReaderGuard(s3, Finish)
            && var s4 := ReaderStep(s3, Finish);
               (s.inbox[0].ResultMsg? && s.inbox[0].final ==> Enabled(s4, Worker(SeeJobDone)))
  {
    hide WireBooks, Handshake, Ownership, Fresh, Completions, Goto;
    SelectWired(s);
    SeesJobDone(s.pc.job);
  }

  lemma SelectWired(s: Session)
    requires Callbacks(s) && Channels(s) && s.pc.Selecting?
    ensures s.cb == Some(s.pc.job) && s.pc.job !in s.closed && !s.panicked
  {
    HeldJob(s.pc);
  }

  lemma SeesJobDone(j: Job)
    ensures Goto(Stt, Selecting(j), SeeJobDone).Some? && Goto(Stt, Selecting(j), SeeConnErr).Some?
    ensures Goto(Stt, AwaitingListening(j), SeeConnErr).Some?
  {
  }

  /** A read error reaches the worker, at its select or its wait for the listening state, exactly
      unless the worker had itself cancelled the read; a normal closure never does. */
  lemma DropIsNoticed(s: Session, err: bool)
    requires s.reader == Reading && (s.pc.Selecting? || s.pc.AwaitingListening?)
    ensures ReaderGuard(s, ReadFails(err))
    ensures var t := ReaderStep(s, ReadFails(err));
      t.reader == Stopped && (Enabled(t, Worker(SeeConnErr)) <==> s.connErr || (err && !s.readCancelled))
  {
    hide Goto;
    SeesJobDone(s.pc.job);
  }
}
