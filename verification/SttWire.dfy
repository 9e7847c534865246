/** The wire of one STT connection: what is written, in which order, and what each start waits for. */
module SttWire {
  import opened Jobs
  import opened Workers
  import opened SttSessions
  import opened SttSafety

  // ---------- The protocol ----------

  /** Where a connection stands after `n` starts. */
  datatype Line = Between(n: nat) | Open(n: nat) | Hung(n: nat) | Broken

  function Advance(l: Line, e: Event): Line {
    match (l, e)
    case (_, HeardListening(_, _)) => l
    case (Between(n), WroteStart(k)) => if k == n + 1 then Open(k) else Broken
    case (Open(n), WroteChunk) => l
    case (Open(n), WroteStop) => Between(n)
    case (Between(n), WroteClose) => Hung(n)
    case (Open(n), WroteClose) => Hung(n)
    case _ => Broken
  }

  function Track(events: seq<Event>): Line {
    if events == [] then Between(0) else Advance(Track(events[..|events| - 1]), events[|events| - 1])
  }

  lemma TrackSnoc(events: seq<Event>, e: Event)
    ensures Track(events + [e]) == Advance(Track(events), e)
  {
    assert (events + [e])[..|events|] == events;
  }

  /** The writes of `chunks[k-1]` chunks for start k, each round closed by a stop. */
  function Rounds(chunks: seq<nat>): seq<Event> {
    if chunks == [] then []
    else Rounds(chunks[..|chunks| - 1]) + Round(|chunks|, chunks[|chunks| - 1]) + [WroteStop]
  }

  function Round(k: nat, chunks: nat): seq<Event> {
    [WroteStart(k)] + seq(chunks, _ => WroteChunk)
  }

  function Writes(events: seq<Event>): seq<Event> {
    if events == [] then []
    else Writes(events[..|events| - 1]) + (if events[|events| - 1].HeardListening? then [] else [events[|events| - 1]])
  }

  /** `w` is a prefix of (start chunk* stop)* that stops after a stop, or at the beginning. */
  ghost predicate Whole(w: seq<Event>, n: nat) {
    exists chunks: seq<nat> :: |chunks| == n && w == Rounds(chunks)
  }

  /** ... or inside round n. */
  ghost predicate Partial(w: seq<Event>, n: nat) {
    exists chunks: seq<nat>, c: nat :: |chunks| + 1 == n && w == Rounds(chunks) + Round(n, c)
  }

  lemma WholeStart(w: seq<Event>, n: nat)
    requires Whole(w, n)
    ensures Partial(w + [WroteStart(n + 1)], n + 1)
  {
    var chunks :| |chunks| == n && w == Rounds(chunks);
    assert w + [WroteStart(n + 1)] == Rounds(chunks) + Round(n + 1, 0);
  }

  lemma PartialChunk(w: seq<Event>, n: nat)
    requires Partial(w, n)
    ensures Partial(w + [WroteChunk], n)
  {
    var chunks, c: nat :| |chunks| + 1 == n && w == Rounds(chunks) + Round(n, c);
    assert Round(n, c) + [WroteChunk] == Round(n, c + 1);
    assert w + [WroteChunk] == Rounds(chunks) + Round(n, c + 1);
  }

  lemma RoundsSnoc(chunks: seq<nat>, c: nat)
    ensures Rounds(chunks + [c]) == Rounds(chunks) + Round(|chunks| + 1, c) + [WroteStop]
  {
    hide Round;
    assert (chunks + [c])[..|chunks|] == chunks;
  }

  lemma PartialStop(w: seq<Event>, n: nat)
    requires Partial(w, n)
    ensures Whole(w + [WroteStop], n)
  {
    hide Round, Rounds;
    var chunks, c: nat :| |chunks| + 1 == n && w == Rounds(chunks) + Round(n, c);
    RoundsSnoc(chunks, c);
  }

  /** The automaton accepts only prefixes of (start chunk* stop)*, possibly cut off by the
      close frame, with starts numbered 1, 2, 3, ... */
  lemma {:induction false} TrackMeans(events: seq<Event>)
    requires Track(events) != Broken
    ensures match Track(events)
            case Between(n) => Whole(Writes(events), n)
            case Open(n) => Partial(Writes(events), n)
            case Hung(n) => exists w :: Writes(events) == w + [WroteClose] && (Whole(w, n) || Partial(w, n))
  {
    hide Whole, Partial;
    if events == [] {
      assert Whole([], 0) by {
        NoRounds();
      }
    } else {
      var front, e := events[..|events| - 1], events[|events| - 1];
      TrackMeans(front);
      var w := Writes(front);
      match e {
        case HeardListening(_, _) => assert Writes(events) == w;
        case WroteStart(k) => WholeStart(w, k - 1);
        case WroteChunk => PartialChunk(w, Track(front).n);
        case WroteStop => PartialStop(w, Track(front).n);
        case WroteClose => assert Writes(events) == w + [WroteClose];
      }
    }
  }

  lemma NoRounds()
    ensures Whole([], 0)
  {
    assert Rounds([]) == [];
  }

  // ---------- Who may write when ----------

  predicate LiveAudio(a: Audio) {
    a.Streaming? || a.Stopping?
  }

  /** No audio goroutine is running: up to its start, and again once a completed job joined it. */
  predicate QuietPc(pc: Pc) {
    pc.Arming? || pc.GoingIdle? || pc.Capturing? || pc.Popping? || pc.Checking? || pc.Rejecting? || pc.LeavingIdle?
    || pc.EnteringActive? || pc.AwaitingListening? || pc.Announcing? || pc.Resetting? || pc.Writing? || pc.Recapturing?
    || pc.Wiring? || pc.Spawning? || pc.EnteringIdle? || EndsCompleted(pc) || (pc.LeavingActive? && pc.end.Completed?)
  }

  /** A start has been written and the audio goroutine not yet started. */
  predicate OpenPc(pc: Pc) {
    pc.Recapturing? || pc.Wiring? || pc.Spawning?
  }

  /** This connection is finished. */
  predicate Gone(pc: Pc) {
    pc.Deciding? || pc.Dialing? || pc.Exited?
  }

  ghost predicate WireBooks(s: Session) {
    && Track(s.events) != Broken
    && (s.connected <==> !Track(s.events).Hung?)
    && (s.connected <==> !Gone(s.pc))
    && s.cur == Track(s.events).n + Flag(s.pc.Writing?)
    && (QuietPc(s.pc) ==>
          !LiveAudio(s.audio) && if OpenPc(s.pc) then Track(s.events).Open? else Track(s.events).Between?)
    && (s.pc.Selecting? || s.pc.JoiningAudio? ==>
          s.audio != NoAudio && s.audio.job == s.pc.job && (s.audio.AudioDone? ==> Track(s.events).Between?))
    && (LiveAudio(s.audio) && s.connected ==> Track(s.events).Open?)
  }

  lemma GotoQuiet(pc: Pc, op: Op)
    requires Goto(Stt, pc, op).Some? && SttPc(pc) && !Gone(pc)
    ensures var next := Goto(Stt, pc, op).value;
      && (QuietPc(next) ==> QuietPc(pc) || pc.JoiningAudio?)
      && (next.Writing? <==> pc.Resetting? && !op.Failed?)
      && (Gone(next) <==> pc.HangingUp? || Gone(pc))
  {
  }

  lemma GotoOpen(pc: Pc, op: Op)
    requires Goto(Stt, pc, op).Some?
    ensures var next := Goto(Stt, pc, op).value;
      && (OpenPc(next) ==> pc.Writing? || (OpenPc(pc) && !pc.Spawning?))
      && (OpenPc(pc) || pc.Writing? ==> next.Selecting? || next.Apologising? || OpenPc(next))
      && (next.Selecting? ==> pc.Spawning? && next.job == pc.job)
      && (next.JoiningAudio? ==> pc.Selecting? && next.job == pc.job)
  {
  }

  /** Only a StartRecognition that failed, or was never reached, apologises. */
  lemma WireWorker(s: Session, op: Op)
    requires Enabled(s, Worker(op)) && SttPc(s.pc) && WireBooks(s)
    ensures WireBooks(WorkerStep(s, op))
  {
    hide Goto, Track, EndsCompleted, QuietPc, Gone, OpenPc, Buffered, Room, Held;
    StillHere(s, op);
    GotoQuiet(s.pc, op);
    GotoOpen(s.pc, op);
    PcKinds(Goto(Stt, s.pc, op).value);
    TrackSnoc(s.events, WroteStart(s.cur));
    TrackSnoc(s.events, WroteClose);
    PcKinds(s.pc);
  }

  lemma StillHere(s: Session, op: Op)
    requires Enabled(s, Worker(op))
    ensures !Gone(s.pc)
  {
    hide Goto;
  }

  lemma PcKinds(pc: Pc)
    ensures pc.Writing? || pc.Resetting? || pc.Spawning? ==> QuietPc(pc)
    ensures pc.Writing? || pc.Resetting? || pc.HangingUp? ==> !OpenPc(pc) && !Gone(pc)
    ensures OpenPc(pc) ==> QuietPc(pc)
    ensures pc.Spawning? ==> OpenPc(pc)
    ensures pc.Selecting? || pc.JoiningAudio? ==> !Gone(pc) && !QuietPc(pc)
    ensures pc.HangingUp? || pc.Selecting? || pc.Apologising? ==> !QuietPc(pc)
  {
  }

  lemma WireReader(s: Session, r: ReaderAct)
    requires ReaderGuard(s, r) && WireBooks(s)
    ensures WireBooks(ReaderStep(s, r))
  {
    hide Track, QuietPc, Gone, OpenPc, NextReader, Buffered, Room;
    if r.CloseCh? {
      TrackSnoc(s.events, HeardListening(s.reader.ch, SessOf(s.reader.msg)));
    }
  }

  lemma WireAudio(s: Session, x: AudioAct)
    requires AudioGuard(s, x) && WireBooks(s)
    ensures WireBooks(AudioStep(s, x))
  {
    hide Track, QuietPc, Gone, OpenPc;
    PcKinds(s.pc);
    TrackSnoc(s.events, WroteChunk);
    TrackSnoc(s.events, WroteStop);
  }

  lemma WireStep(s: Session, a: Action)
    requires Enabled(s, a) && Safe(s) && WireBooks(s)
    ensures WireBooks(Step(s, a))
  {
    hide Goto, Track, QuietPc, Gone, OpenPc, WorkerStep, ReaderStep, AudioStep, WorkerGuard, ReaderGuard, AudioGuard,
         Callbacks, Channels, Fresh, Completions, Buffered;
    match a {
      case Worker(op) => WireWorker(s, op);
      case ReaderDoes(r) => WireReader(s, r);
      case AudioDoes(x) => WireAudio(s, x);
      case _ =>
    }
  }

  // ---------- What a start waits for ----------

  ghost predicate Heard(events: seq<Event>, ch: nat) {
    exists i :: 0 <= i < |events| && events[i].HeardListening? && events[i].ch == ch
  }

  /** Each start after the first follows the closing of the channel the previous start made. */
  ghost predicate StartsFollow(events: seq<Event>) {
    forall i | 0 <= i < |events| ::
      events[i].WroteStart? && events[i].sess > 1 ==> Heard(events[..i], events[i].sess - 1)
  }

  lemma HeardSnoc(events: seq<Event>, e: Event)
    ensures forall ch | Heard(events, ch) :: Heard(events + [e], ch)
    ensures e.HeardListening? ==> Heard(events + [e], e.ch)
  {
    forall ch | Heard(events, ch) ensures Heard(events + [e], ch) {
      var i :| 0 <= i < |events| && events[i].HeardListening? && events[i].ch == ch;
      assert (events + [e])[i] == events[i];
    }
    assert (events + [e])[|events|] == e;
  }

  lemma FollowSnoc(events: seq<Event>, e: Event)
    requires StartsFollow(events)
    requires e.WroteStart? && e.sess > 1 ==> Heard(events, e.sess - 1)
    ensures StartsFollow(events + [e])
  {
    var all := events + [e];
    forall i | 0 <= i < |all| && all[i].WroteStart? && all[i].sess > 1 ensures Heard(all[..i], all[i].sess - 1) {
      if i < |events| {
        assert all[i] == events[i] && all[..i] == events[..i];
      } else {
        assert all[..i] == events;
      }
    }
  }

  /** The captured channel is the current one: from the capture to the next reset. */
  predicate Synced(pc: Pc) {
    (QuietPc(pc) && !pc.Writing? && !pc.Recapturing?) || pc.Selecting? || pc.JoiningAudio?
  }

  /** From its reset on, the latest start belongs to the worker's job. */
  predicate Started(pc: Pc) {
    pc.Writing? || pc.Recapturing? || pc.Wiring? || WiredPc(pc) || pc.AwaitingCallbacks?
  }

  /** A popped job that has not reached StartRecognition. */
  predicate BeforeStart(pc: Pc) {
    pc.Checking? || pc.LeavingIdle? || pc.EnteringActive? || pc.AwaitingListening? || pc.Announcing? || pc.Resetting?
  }

  ghost predicate Handshake(s: Session) {
    && |s.starts| == s.cur && 0 in s.shut
    && (Synced(s.pc) ==> s.captured == s.cur)
    && (s.pc.Announcing? || s.pc.Resetting? ==> s.cur in s.shut)
    && (s.pc.Writing? ==> s.cur > 0 && s.cur - 1 in s.shut)
    && (s.reader.ClosingCh? ==> s.reader.ch <= s.cur)
    && (forall ch | ch in s.shut :: ch <= s.cur && (ch == 0 || Heard(s.events, ch)))
    && StartsFollow(s.events)
  }

  lemma GotoHandshake(pc: Pc, op: Op)
    requires Goto(Stt, pc, op).Some? && SttPc(pc) && !Gone(pc)
    ensures var next := Goto(Stt, pc, op).value;
      && (Synced(next) ==> Synced(pc) || pc.Recapturing?)
      && (next.Announcing? ==> pc.AwaitingListening? && op.SeeListening?)
      && (next.Resetting? ==> pc.Announcing?)
      && (next.Writing? ==> pc.Resetting? && !op.Failed?)
      && (pc.Resetting? && !op.Failed? ==> next.Writing?)
      && (pc.Resetting? && op.Failed? ==> !Synced(next))
  {
  }

  lemma SyncedPcs(pc: Pc)
    ensures pc.AwaitingListening? || pc.Announcing? || pc.Resetting? ==> Synced(pc)
    ensures pc.Writing? || pc.Recapturing? ==> !Synced(pc)
  {
  }

  lemma HandshakeWorker(s: Session, op: Op)
    requires Enabled(s, Worker(op)) && SttPc(s.pc) && Handshake(s)
    ensures Handshake(WorkerStep(s, op))
  {
    hide Goto, Synced, Heard, StartsFollow, Buffered, Room, Held;
    GotoHandshake(s.pc, op);
    SyncedPcs(s.pc);
    SyncedPcs(Goto(Stt, s.pc, op).value);
    HeardSnoc(s.events, WroteStart(s.cur));
    HeardSnoc(s.events, WroteClose);
    FollowSnoc(s.events, WroteClose);
    if s.pc.Writing? {
      FollowSnoc(s.events, WroteStart(s.cur));
    }
  }

  lemma HandshakeReader(s: Session, r: ReaderAct)
    requires ReaderGuard(s, r) && Handshake(s)
    ensures Handshake(ReaderStep(s, r))
  {
    hide Synced, Heard, StartsFollow, Buffered, Room;
    if r.CloseCh? {
      var e := HeardListening(s.reader.ch, SessOf(s.reader.msg));
      HeardSnoc(s.events, e);
      FollowSnoc(s.events, e);
    }
  }

  lemma HandshakeAudio(s: Session, x: AudioAct)
    requires AudioGuard(s, x) && Handshake(s)
    ensures Handshake(AudioStep(s, x))
  {
    hide Synced, Heard, StartsFollow;
    HeardSnoc(s.events, WroteChunk);
    HeardSnoc(s.events, WroteStop);
    FollowSnoc(s.events, WroteChunk);
    FollowSnoc(s.events, WroteStop);
  }

  // ---------- Which job a start is for ----------

  ghost predicate Ownership(s: Session) {
    && Distinct(s.starts)
    && (forall j | j in s.starts :: j in s.popped)
    && (Started(s.pc) ==> |s.starts| > 0 && s.starts[|s.starts| - 1] == s.pc.job)
    && (BeforeStart(s.pc) ==> s.pc.job in s.popped && s.pc.job !in s.starts)
  }

  lemma GotoStarted(pc: Pc, op: Op)
    requires Goto(Stt, pc, op).Some?
    ensures var next := Goto(Stt, pc, op).value;
      && (Started(next) ==> next.job == pc.job && ((Started(pc) && !pc.Resetting?) || (pc.Resetting? && !op.Failed?)))
      && (pc.Resetting? && !op.Failed? ==> next.Writing? && next.job == pc.job)
  {
  }

  lemma GotoBeforeStart(pc: Pc, op: Op)
    requires Goto(Stt, pc, op).Some?
    ensures var next := Goto(Stt, pc, op).value;
      && (BeforeStart(next) ==>
            if pc.Popping? then op == GotJob(next.job)
            else BeforeStart(pc) && next.job == pc.job && !pc.Resetting?)
      && (op.GotJob? ==> pc.Popping?)
  {
  }

  lemma OwnershipWorker(s: Session, op: Op)
    requires Enabled(s, Worker(op)) && Ownership(s)
    ensures Ownership(WorkerStep(s, op))
  {
    hide Goto, Started, BeforeStart, Buffered, Room, Held;
    GotoStarted(s.pc, op);
    GotoBeforeStart(s.pc, op);
    ResettingIsBeforeStart(s.pc);
    ResettingIsBeforeStart(Goto(Stt, s.pc, op).value);
  }

  lemma ResettingIsBeforeStart(pc: Pc)
    ensures pc.Resetting? ==> BeforeStart(pc) && !Started(pc)
    ensures pc.Writing? ==> Started(pc) && !BeforeStart(pc)
  {
  }

  // ---------- Over every run ----------

  ghost predicate Sound(s: Session) {
    Safe(s) && WireBooks(s) && Handshake(s) && Ownership(s)
  }

  lemma SoundStep(s: Session, a: Action)
    requires Enabled(s, a) && Sound(s)
    ensures Sound(Step(s, a))
  {
    hide Goto, Callbacks, Channels, Fresh, Completions, SttPc, WireBooks, Handshake, Distinct, Started,
         BeforeStart, WorkerStep, NextReader, WorkerGuard, ReaderGuard, AudioGuard, Buffered;
    SafeStep(s, a);
    WireStep(s, a);
    match a {
      case Worker(op) => HandshakeWorker(s, op); OwnershipWorker(s, op);
      case ReaderDoes(r) => HandshakeReader(s, r);
      case AudioDoes(x) => HandshakeAudio(s, x);
      case _ => HandshakeRest(s, a);
    }
  }

  lemma HandshakeRest(s: Session, a: Action)
    requires Enabled(s, a) && Handshake(s) && !a.Worker? && !a.ReaderDoes? && !a.AudioDoes?
    ensures Handshake(Step(s, a))
  {
    hide Goto, Synced, Heard, StartsFollow, WorkerGuard, ReaderGuard, AudioGuard, WorkerStep, ReaderStep,
         AudioStep, Buffered;
  }

  lemma {:induction false} SoundAlong(s: Session, run: seq<Action>)
    requires Sound(s) && ValidRun(s, run)
    ensures Sound(Exec(s, run))
    decreases run
  {
    hide Enabled, Step, Sound;
    if run != [] {
      SoundStep(s, run[0]);
      SoundAlong(Step(s, run[0]), run[1..]);
    }
  }

  lemma InitSound()
    ensures Sound(Init())
  {
    hide Safe, WireBooks, Goto;
    InitSafe();
    InitWire();
  }

  lemma InitWire()
    ensures WireBooks(Init())
  {
    hide Advance, Track;
    NothingWritten();
    var s := Init();
    assert s.pc == Arming && s.connected && s.cur == 0 && s.events == [] && s.audio == NoAudio;
  }

  lemma NothingWritten()
    ensures Track([]) == Between(0)
  {
  }

  lemma SoundFrom(run: seq<Action>)
    requires ValidRun(Init(), run)
    ensures Sound(Exec(Init(), run))
  {
    hide Enabled, Step, Sound, Init;
    InitSound();
    SoundAlong(Init(), run);
  }
}
