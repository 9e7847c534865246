/** The guarantees of one STT connection over every run: for any server, and, for a server
    that answers each start with its results and then one listening message, attribution. */
module SttTheorems {
  import opened Jobs
  import opened Workers
  import opened SttSessions
  import opened SttSafety
  import opened SttWire

  // ---------- Any server ----------

  /** No callback sends on, and nobody closes, a closed ResultCh; each is closed at most once.
      A callback in flight is counted by cbWg, and its job's channel is open and still held by the worker. */
  lemma NoSendOnClosedChannel(run: seq<Action>)
    requires ValidRun(Init(), run)
    ensures var s := Exec(Init(), run);
      && !s.panicked && Distinct(s.closed)
      && s.wg == Flag(InCallback(s.reader))
      && (InCallback(s.reader) ==> s.reader.job !in s.closed && Held(s.pc) == Some(s.reader.job))
  {
    SoundFrom(run);
    hide Exec, ValidRun, Init, WireBooks, Handshake, Ownership, Completions, Fresh, Held, WiredPc;
  }

  /** `completed` is only counted for a job that got a final result on its ResultCh and whose
      audio goroutine has finished. */
  lemma CompletedIsSound(run: seq<Action>, j: Job)
    requires ValidRun(Init(), run) && j in Exec(Init(), run).completed
    ensures FinalSent(Exec(Init(), run), j) && j in Exec(Init(), run).drained
  {
    SoundFrom(run);
  }

  /** Every write attempted is a prefix of (start chunk* stop)*, or such a prefix and the close
      frame; each start after the first was written after the reader had closed the listening
      channel that the start before it had made. */
  lemma WireAlternates(run: seq<Action>)
    requires ValidRun(Init(), run)
    ensures var s := Exec(Init(), run);
      StartsFollow(s.events) && AlternatingWrites(s)
  {
    hide Exec, ValidRun, Init, Safe, StartsFollow, WireBooks, Ownership;
    SoundFrom(run);
    Alternates(Exec(Init(), run));
  }

  /** All writes but a final close frame are whole rounds, or whole rounds and part of the next. */
  ghost predicate AlternatingWrites(s: Session) {
    exists front, m: nat ::
      && m + Flag(s.pc.Writing?) == |s.starts|
      && (Whole(front, m) || Partial(front, m))
      && Writes(s.events) == front + (if s.connected then [] else [WroteClose])
  }

  lemma Alternates(s: Session)
    requires WireBooks(s) && Handshake(s)
    ensures AlternatingWrites(s)
  {
    hide Whole, Partial, Writes, StartsFollow, Heard, Synced, QuietPc, OpenPc, Gone, Track;
    TrackMeans(s.events);
    var w := Writes(s.events);
    var m := Track(s.events).n;
    if s.connected {
      assert w == w + [];
      assert Whole(w, m) || Partial(w, m);
    } else {
      var front :| w == front + [WroteClose] && (Whole(front, m) || Partial(front, m));
    }
  }

  /** Once Close has cleared `connected`, no action writes anything any more. */
  lemma NothingAfterClose(s: Session, a: Action)
    requires Sound(s) && Enabled(s, a) && !s.connected
    ensures Writes(Step(s, a).events) == Writes(s.events) && !Step(s, a).connected
  {
    hide Goto, Safe, Handshake, Ownership, NextReader, Buffered, Room;
    if a.ReaderDoes? && a.r.CloseCh? {
      var e := HeardListening(s.reader.ch, SessOf(s.reader.msg));
      assert (s.events + [e])[..|s.events|] == s.events;
    }
  }

  // ---------- Progress ----------

  /** The error result the worker itself sends always finds room: its ResultCh is untouched. */
  lemma WorkerNeverBlocksOnItsOwnResult(run: seq<Action>)
    requires ValidRun(Init(), run) && Exec(Init(), run).pc.Apologising?
    ensures Enabled(Exec(Init(), run), Worker(Next))
  {
    SoundFrom(run);
    var s := Exec(Init(), run);
    hide Exec, ValidRun, Init, WireBooks, Handshake, Ownership, Completions, Callbacks;
    HeldJob(s.pc);
  }

  /** What the reader does next to get out of a callback. */
  function WayOut(r: Reader): seq<ReaderAct> {
    match r
    case Calling(_, _) => [SkipResult, Finish, Release]
    case Called(_, _) => [Finish, Release]
    case Releasing(_) => [Release]
    case _ => []
  }

  /** While the worker sits in cbWg.Wait, jobDone releases whatever callback is in flight,
      even on a full ResultCh nobody reads: three reader actions at most, and Wait returns. */
  lemma ClearCallbacksCannotDeadlock(s: Session, acts: seq<ReaderAct>) returns (t: Session)
    requires Sound(s) && s.pc.AwaitingCallbacks? && acts == WayOut(s.reader)
    ensures ReaderRun(s, acts, t) && |acts| <= 3
    ensures t.pc == s.pc && Enabled(t, Worker(Next))
    decreases |acts|
  {
    hide WireBooks, Handshake, Ownership, Channels, Fresh, Buffered, Room, FinalSent;
    if acts == [] {
      t := s;
    } else {
      HeldAwaiting(s.pc);
      var next := ReaderStep(s, acts[0]);
      SoundStep(s, ReaderDoes(acts[0]));
      t := ClearCallbacksCannotDeadlock(next, acts[1..]);
    }
  }

  lemma HeldAwaiting(pc: Pc)
    requires pc.AwaitingCallbacks?
    ensures Held(pc) == Some(pc.job)
  {
  }

  /** The reader takes `acts` one after the other, from `s` to `t`. */
  ghost predicate ReaderRun(s: Session, acts: seq<ReaderAct>, t: Session)
    decreases acts
  {
    if acts == [] then s == t else ReaderGuard(s, acts[0]) && ReaderRun(ReaderStep(s, acts[0]), acts[1..], t)
  }

  /** ... and what it does next to end once the worker waits for it. */
  function WayToStop(r: Reader): seq<ReaderAct> {
    match r
    case Reading => [ReadFails(true)]
    case Handling(_) => [LockCallback, ReadFails(true)]
    case Marking(_) => [Mark, Fetch, CloseCh, ReadFails(true)]
    case Fetching(_) => [Fetch, CloseCh, ReadFails(true)]
    case ClosingCh(_, _) => [CloseCh, ReadFails(true)]
    case _ => []
  }

  /** After cancelRead the join of the reader cannot deadlock either: no callback is in flight,
      so a failing read ends it after at most the message in hand. */
  lemma JoinReaderCannotDeadlock(s: Session, acts: seq<ReaderAct>) returns (t: Session)
    requires Sound(s) && s.pc.JoiningReader? && acts == WayToStop(s.reader)
    ensures ReaderRun(s, acts, t) && t.pc == s.pc && Enabled(t, Worker(Next))
    decreases |acts|
  {
    hide WireBooks, Handshake, Ownership, Channels, Fresh, Buffered, Room, Completions;
    if acts == [] {
      t := s;
    } else {
      var next := ReaderStep(s, acts[0]);
      SoundStep(s, ReaderDoes(acts[0]));
      t := JoinReaderCannotDeadlock(next, acts[1..]);
    }
  }

  // ---------- An honest server ----------

  /** The message the reader is working on. */
  function InHand(r: Reader): seq<Msg> {
    match r
    case Handling(m) => [m]
    case Calling(_, m) => [m]
    case Called(_, m) => [m]
    case Marking(m) => [m]
    case Fetching(m) => [m]
    case ClosingCh(m, _) => [m]
    case _ => []
  }

  /** Sent by the server and not yet dealt with, in order. */
  function Flight(s: Session): seq<Msg> {
    InHand(s.reader) + s.inbox
  }

  predicate Silent(ms: seq<Msg>) {
    forall m | m in ms :: m.OtherMsg?
  }

  /** All messages under way answer start k; a listening message is the last of them, and there
      is none yet unless the session is settled. */
  ghost predicate Answers(ms: seq<Msg>, k: nat, settled: bool) {
    && (forall m | m in ms :: m.OtherMsg? || m.sess == k)
    && (forall i | 0 <= i < |ms| && ms[i].ListeningMsg? :: settled && Silent(ms[i + 1..]))
  }

  ghost predicate HonestBooks(s: Session) {
    && s.served + Flag(s.pc.Writing?) == s.cur
    && s.settled <= s.served
    && (if s.cur in s.shut then s.settled == s.cur && Silent(Flight(s))
        else s.cur > 0 && s.cur - 1 <= s.settled && Answers(Flight(s), s.cur, s.settled == s.cur))
    && (forall m | m in InHand(s.reader) :: !m.OtherMsg?)
    && (s.reader.Handling? || s.reader.Calling? || s.reader.Called? ==> !s.reader.msg.ListeningMsg?)
    && (s.reader.Marking? || s.reader.Fetching? || s.reader.ClosingCh? ==> s.reader.msg.ListeningMsg?)
    && (s.reader.ClosingCh? ==> s.reader.ch == s.cur)
  }

  /** Every server result on a job's ResultCh came from that job's recognition session, and
      every listening message closed the channel of its own session. */
  ghost predicate Attributed(s: Session) {
    && (forall d | d in s.sent && d.FromServer? ::
          !d.msg.OtherMsg? && 1 <= d.msg.sess <= |s.starts| && s.starts[d.msg.sess - 1] == d.job)
    && (forall e | e in s.events && e.HeardListening? :: e.ch == e.sess)
  }

  lemma HonestWorker(s: Session, op: Op)
    requires Enabled(s, Worker(op)) && SttPc(s.pc) && Handshake(s) && HonestBooks(s)
    requires s.pc.Arming? ==> s.reader.NotStarted?
    ensures HonestBooks(WorkerStep(s, op))
  {
    hide Goto, StartsFollow, Heard, Silent, Answers, Buffered, Room, QuietPc, Synced, SttPc, Gone, Held;
    StillHere(s, op);
    GotoQuiet(s.pc, op);
    if InHand(s.reader) != [] {
      HandIsCurrent(s);
    }
    if s.pc.Resetting? {
      SilentAnswers(Flight(s), s.cur + 1);
    }
  }

  lemma AttributedWorker(s: Session, op: Op)
    requires Enabled(s, Worker(op)) && Attributed(s)
    ensures Attributed(WorkerStep(s, op))
  {
    hide Goto, Held, Buffered, Room, WorkerGuard;
  }

  lemma SilentAnswers(ms: seq<Msg>, k: nat)
    requires Silent(ms)
    ensures Answers(ms, k, false)
  {
    assert forall i | 0 <= i < |ms| :: ms[i] in ms;
  }

  lemma TailAnswers(ms: seq<Msg>, k: nat, settled: bool)
    requires ms != [] && Answers(ms, k, settled)
    ensures Answers(ms[1..], k, settled)
    ensures ms[0].ListeningMsg? ==> settled && Silent(ms[1..])
  {
    var t := ms[1..];
    forall i | 0 <= i < |t| && t[i].ListeningMsg? ensures settled && Silent(t[i + 1..]) {
      assert ms[i + 1] == t[i] && ms[i + 2..] == t[i + 1..];
    }
  }

  lemma AnswersSnoc(ms: seq<Msg>, k: nat, settled: bool, m: Msg)
    requires Answers(ms, k, settled)
    requires m.OtherMsg? || (m.sess == k && !settled)
    ensures Answers(ms + [m], k, settled || m.ListeningMsg?)
  {
    var t := ms + [m];
    forall i | 0 <= i < |t| && t[i].ListeningMsg? ensures (settled || m.ListeningMsg?) && Silent(t[i + 1..]) {
      if i < |ms| {
        assert t[i] == ms[i] && t[i + 1..] == ms[i + 1..] + [m];
      } else {
        assert t[i + 1..] == [];
      }
    }
  }

  lemma StartedHolds(pc: Pc)
    ensures WiredPc(pc) || pc.AwaitingCallbacks? ==> Started(pc) && Held(pc) == Some(pc.job)
  {
  }

  /** The reader either keeps its message or is done with the first one under way. */
  lemma FlightAfterReader(s: Session, r: ReaderAct)
    requires ReaderGuard(s, r)
    ensures var t := ReaderStep(s, r);
      if r.CloseCh? || r.Finish? || (r.Take? && Dispatch(s.inbox[0]).Reading?) || (r.LockCallback? && s.cb.None?)
      then Flight(s) != [] && Flight(t) == Flight(s)[1..]
      else Flight(t) == Flight(s)
  {
    hide Room, Buffered;
  }

  /** What the reader has in hand answers the latest start. */
  lemma HandIsCurrent(s: Session)
    requires HonestBooks(s) && InHand(s.reader) != []
    ensures s.cur !in s.shut && s.cur > 0 && SessOf(s.reader.msg) == s.cur
    ensures Flight(s) != [] && Flight(s)[0] == s.reader.msg
  {
    assert InHand(s.reader) == [s.reader.msg];
    assert s.reader.msg in Flight(s) && s.reader.msg in InHand(s.reader);
  }

  lemma HonestReader(s: Session, r: ReaderAct)
    requires ReaderGuard(s, r) && Callbacks(s) && Handshake(s) && Ownership(s) && HonestBooks(s)
    ensures HonestBooks(ReaderStep(s, r))
  {
    hide Callbacks, Handshake, Ownership, Buffered, Room, Flight, Silent, Answers;
    FlightAfterReader(s, r);
    if InHand(s.reader) != [] {
      HandIsCurrent(s);
    }
    if Flight(s) != [] {
      if s.cur in s.shut {
        SilentTail(Flight(s));
      } else {
        TailAnswers(Flight(s), s.cur, s.settled == s.cur);
      }
    }
    if r.Take? {
      HeadInFlight(s);
    }
  }

  lemma SilentTail(ms: seq<Msg>)
    requires ms != [] && Silent(ms)
    ensures Silent(ms[1..])
  {
  }

  lemma HeadInFlight(s: Session)
    requires s.inbox != []
    ensures Silent(Flight(s)) ==> s.inbox[0].OtherMsg?
  {
    assert s.inbox[0] in Flight(s);
  }

  lemma AttributedReader(s: Session, r: ReaderAct)
    requires ReaderGuard(s, r) && Callbacks(s) && Handshake(s) && Ownership(s) && HonestBooks(s) && Attributed(s)
    ensures Attributed(ReaderStep(s, r))
  {
    hide WiredPc, Started, Held, BeforeStart, Synced, StartsFollow, Heard, Flight, Silent, Answers, Buffered,
         Room, NextReader;
    if InHand(s.reader) != [] {
      HandIsCurrent(s);
      StartedHolds(s.pc);
    }
  }

  lemma HonestServer(s: Session, msg: Msg)
    requires HonestMsg(s, msg) && HonestBooks(s)
    ensures HonestBooks(Step(s, ServerSends(msg)))
  {
    hide Silent, Answers, WorkerStep, ReaderStep, AudioStep, ReaderGuard, AudioGuard, WorkerGuard, Goto;
    assert InHand(s.reader) + (s.inbox + [msg]) == Flight(s) + [msg];
    if s.cur in s.shut {
      SilentSnoc(Flight(s), msg);
    } else {
      AnswersSnoc(Flight(s), s.cur, s.settled == s.cur, msg);
    }
  }

  lemma SilentSnoc(ms: seq<Msg>, m: Msg)
    requires Silent(ms)
    ensures m.OtherMsg? ==> Silent(ms + [m])
  {
  }

  ghost predicate Honest(s: Session) {
    Sound(s) && HonestBooks(s) && Attributed(s)
  }

  lemma HonestStep(s: Session, a: Action)
    requires Enabled(s, a) && Honest(s) && (a.ServerSends? ==> HonestMsg(s, a.msg))
    ensures Honest(Step(s, a))
  {
    hide Goto, WireBooks, Handshake, Ownership, HonestBooks, Attributed, Callbacks, Channels, Fresh, Completions, SttPc,
         WorkerStep, ReaderStep, AudioStep, WorkerGuard, ReaderGuard, AudioGuard, HonestMsg;
    SoundStep(s, a);
    match a {
      case Worker(op) => ArmingUnstarted(s); HonestWorker(s, op); AttributedWorker(s, op);
      case ReaderDoes(r) => HonestReader(s, r); AttributedReader(s, r);
      case ServerSends(msg) => HonestServer(s, msg); AttributedRest(s, a);
      case _ => HonestRest(s, a); AttributedRest(s, a);
    }
  }

  lemma ArmingUnstarted(s: Session)
    requires Callbacks(s)
    ensures s.pc.Arming? ==> s.reader.NotStarted?
  {
    hide WiredPc, Held;
  }

  lemma HonestRest(s: Session, a: Action)
    requires Enabled(s, a) && HonestBooks(s) && (a.AudioDoes? || a.Receive? || a.CancelCtx?)
    ensures HonestBooks(Step(s, a))
  {
    hide Goto, Silent, Answers, WorkerStep, ReaderStep, ReaderGuard, AudioGuard, WorkerGuard, Buffered;
  }

  lemma AttributedRest(s: Session, a: Action)
    requires Enabled(s, a) && Attributed(s) && (a.AudioDoes? || a.Receive? || a.CancelCtx? || a.ServerSends?)
    ensures Attributed(Step(s, a))
  {
    hide Goto, WorkerStep, ReaderStep, ReaderGuard, AudioGuard, WorkerGuard, Buffered;
  }

  lemma {:induction false} HonestAlong(s: Session, run: seq<Action>)
    requires Honest(s) && ValidRun(s, run) && HonestRun(s, run)
    ensures Honest(Exec(s, run))
    decreases run
  {
    hide Enabled, Step, Honest, HonestMsg;
    if run != [] {
      HonestStep(s, run[0]);
      HonestAlong(Step(s, run[0]), run[1..]);
    }
  }

  lemma InitHonest()
    ensures Honest(Init())
  {
    hide Sound, HonestBooks, Attributed;
    InitSound();
    InitBooks();
  }

  lemma InitBooks()
    ensures HonestBooks(Init()) && Attributed(Init())
  {
    hide Goto;
    assert Flight(Init()) == [];
  }

  /** Result attribution: with an honest server, over any run of jobs on one connection, each
      server result or error delivered on a job's ResultCh answers that job's own start, each
      job has one start at most, and each start waited for the listening message of the one before. */
  lemma ResultsReachTheirOwnJob(run: seq<Action>, j: Job, m: Msg)
    requires ValidRun(Init(), run) && HonestRun(Init(), run)
    requires FromServer(j, m) in Exec(Init(), run).sent
    ensures var s := Exec(Init(), run);
      && !m.OtherMsg? && 1 <= m.sess <= |s.starts| && s.starts[m.sess - 1] == j
      && (forall k | 0 <= k < |s.starts| && s.starts[k] == j :: k + 1 == m.sess)
      && StartsFollow(s.events) && (forall e | e in s.events && e.HeardListening? :: e.ch == e.sess)
  {
    hide Enabled, Step, Safe, WireBooks, HonestBooks, Init, HonestRun, StartsFollow;
    InitHonest();
    HonestAlong(Init(), run);
  }

  /** Attribution really rests on the server: wherever a job is being served and the reader is
      idle, one result that answers any other start lands on this job's ResultCh. */
  lemma LateResultIsMisattributed(s: Session, m: Msg) returns (run: seq<Action>)
    requires Honest(s) && s.pc.Selecting? && s.reader == Reading && s.inbox == [] && Room(s, s.pc.job)
    requires m.ResultMsg? && m.text != "" && m.sess != s.cur
    ensures ValidRun(s, run) && FromServer(s.pc.job, m) in Exec(s, run).sent && !Attributed(Exec(s, run))
  {
    hide Goto, WireBooks, HonestBooks, Channels, Fresh, Completions, Attributed, WorkerGuard, WorkerStep;
    StartedHolds(s.pc);
    var s1 := Step(s, ServerSends(m));
    var s2 := Step(s1, ReaderDoes(Take));
    var s3 := Step(s2, ReaderDoes(LockCallback));
    var s4 := Step(s3, ReaderDoes(SendResult));
    run := [ServerSends(m), ReaderDoes(Take), ReaderDoes(LockCallback), ReaderDoes(SendResult)];
    FourSteps(s, run, s1, s2, s3, s4);
    NotAttributed(s4, s.pc.job, m);
  }

  lemma FourSteps(s: Session, run: seq<Action>, s1: Session, s2: Session, s3: Session, s4: Session)
    requires |run| == 4
    requires Enabled(s, run[0]) && s1 == Step(s, run[0]) && Enabled(s1, run[1]) && s2 == Step(s1, run[1])
    requires Enabled(s2, run[2]) && s3 == Step(s2, run[2]) && Enabled(s3, run[3]) && s4 == Step(s3, run[3])
    ensures ValidRun(s, run) && Exec(s, run) == s4
  {
    hide Enabled, Step;
    assert run[1..][0] == run[1] && run[1..][1..] == run[2..];
    assert run[2..][0] == run[2] && run[2..][1..] == run[3..];
    assert run[3..][0] == run[3] && run[3..][1..] == [];
    assert ValidRun(s3, run[3..]) && Exec(s3, run[3..]) == s4;
    assert ValidRun(s2, run[2..]) && Exec(s2, run[2..]) == s4;
    assert ValidRun(s1, run[1..]) && Exec(s1, run[1..]) == s4;
  }

  lemma NotAttributed(s: Session, j: Job, m: Msg)
    requires FromServer(j, m) in s.sent && Distinct(s.starts) && |s.starts| > 0
    requires s.starts[|s.starts| - 1] == j && SessOf(m) != |s.starts|
    ensures !Attributed(s)
  {
    hide Distinct;
    if Attributed(s) {
      LastOnly(s.starts, m.sess - 1);
    }
  }

  lemma LastOnly(starts: seq<Job>, k: int)
    requires Distinct(starts) && 0 <= k < |starts| - 1
    ensures starts[k] != starts[|starts| - 1]
  {
  }
}
