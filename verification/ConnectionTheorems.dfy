/** What the streaming handlers guarantee on every run of one connection. */
module ConnectionTheorems {
  import opened Jobs
  import opened Routing
  import opened Connections

  // ---------- One job in flight ----------

  lemma Reachable(t: Transport, run: seq<Action>)
    requires IsRun(t, Init(), run)
    ensures OneAtATime(Exec(t, Init(), run)) && AudioBooks(Exec(t, Init(), run))
  {
    SafeAlong(t, Init(), run);
  }

  /** A start reaches Submit only when every earlier accepted job has had its ResultCh closed
      and its Store(false) done; so at no time are two jobs of one connection in flight. */
  lemma OneJobInFlight(t: Transport, run: seq<Action>, m: Message, room: bool)
    requires IsRun(t, Init(), run)
    ensures var c := Exec(t, Init(), run);
      && (forall i | 0 <= i < |c.jobs| - 1 :: Settled(c.jobs[i]))
      && (m.Start? && Enabled(c, Receive(m, room)) && Step(t, c, Receive(m, room)).at.Submitting? ==> AllSettled(c))
  {
    Reachable(t, run);
  }

  /** The flag is set, no job is in flight. */
  ghost predicate Wedged(c: Conn) {
    c.active && AllSettled(c)
  }

  /** A start reaches Submit exactly when no job is in flight, the connection is not wedged and it
      is not a speech request without text. While a job is in flight or the flag is stuck it changes
      nothing at all; a speech request without text changes nothing but, if it asks for a session and
      there is none, that there is one now. */
  lemma StartIgnored(t: Transport, run: seq<Action>, m: Message, room: bool)
    requires IsRun(t, Init(), run) && Enabled(Exec(t, Init(), run), Receive(m, room)) && m.Start?
    ensures var c := Exec(t, Init(), run); var d := Step(t, c, Receive(m, room));
      && (d.at.Submitting? <==> AllSettled(c) && !Wedged(c) && !(m.service == "tts" && m.text == ""))
      && (!AllSettled(c) || Wedged(c) ==> d == c)
      && (!d.at.Submitting? ==> d == c.(session := d.session))
      && (d.session <==> c.session || (m.sessionType != "" && AllSettled(c) && !Wedged(c)))
  {
    Reachable(t, run);
  }

  /** What Submit's answer leads to. A refusal ends a connection without a session and no other;
      an acceptance records the job that was asked for with the answer it got. */
  lemma AnswerOutcome(t: Transport, run: seq<Action>, a: Answer)
    requires IsRun(t, Init(), run) && Enabled(Exec(t, Init(), run), Respond(a))
    requires Refuses(Exec(t, Init(), run), Respond(a))
    ensures var c := Exec(t, Init(), run); var d := Step(t, c, Respond(a));
      && (a.Err? ==>
            && d.jobs == c.jobs && d.sticky == c.sticky
            && (d.at.Gone? <==> !c.session) && (d.at.Idle? <==> c.session))
      && (a.Ok? ==>
            && d.at.Arming? && |d.jobs| == |c.jobs| + 1 && (forall k | 0 <= k < |c.jobs| :: d.jobs[k] == c.jobs[k])
            && d.jobs[|c.jobs|].job == c.at.job && d.jobs[|c.jobs|].answer == a.value
            && d.jobs[|c.jobs|].oriented == c.session)
  {
    hide Exec, IsRun;
    Reachable(t, run);
  }

  /** Job ids are handed out in order, one per Submit. */
  ghost predicate FreshIds(c: Conn) {
    && (forall i, j | 0 <= i < j < |c.jobs| :: c.jobs[i].job.id < c.jobs[j].job.id)
    && (forall i | 0 <= i < |c.jobs| :: c.jobs[i].job.id < c.submits)
    && (c.at.Submitting? ==> c.at.job.id == c.submits)
  }

  /** A message never touches the list of jobs or the flag. */
  lemma ReceiveFrame(t: Transport, c: Conn, m: Message, room: bool)
    requires Enabled(c, Receive(m, room))
    ensures var d := Step(t, c, Receive(m, room));
      && d.jobs == c.jobs && d.submits == c.submits && d.active == c.active && !d.at.Arming?
      && (d.at.Submitting? ==> d.at.job.id == c.submits)
  {
    hide ChosenPool;
  }

  lemma AnsweredFrame(t: Transport, c: Conn, a: Answer)
    requires c.at.Submitting?
    ensures var d := Answered(t, c, a);
      && d.submits == c.submits + 1 && d.active == c.active && !d.at.Submitting?
      && (a.Err? ==> d.jobs == c.jobs && !d.at.Arming?)
      && (a.Ok? ==> |d.jobs| == |c.jobs| + 1 && d.jobs[|c.jobs|].job == c.at.job && !Settled(d.jobs[|c.jobs|]))
      && (a.Ok? ==> forall k: nat :: k < |c.jobs| ==> d.jobs[k] == c.jobs[k])
      && (Known(c.at.job.service) && a.Ok? ==> d.at.Arming?)
  {
    hide Known, CloseAudio, Leave;
    if a.Ok? {
      var x := Accepted(c.at.job, a.value, c.session, None, Closed, false);
      LeaveFrame(c.(submits := c.submits + 1, jobs := c.jobs + [x]));
    } else {
      LeaveFrame(c.(submits := c.submits + 1));
    }
  }

  lemma LeaveFrame(c: Conn)
    ensures Leave(c).jobs == c.jobs && Leave(c).submits == c.submits && Leave(c).active == c.active && Leave(c).at.Gone?
  {
  }

  lemma FreshIdsStep(t: Transport, c: Conn, a: Action)
    requires FreshIds(c) && Enabled(c, a)
    ensures FreshIds(Step(t, c, a))
  {
    hide Begin, Answered, Hear, Leave, CloseAudio, Known;
    var d := Step(t, c, a);
    match a
    case Receive(m, room) => ReceiveFrame(t, c, m, room);
    case Respond(answer) =>
      AnsweredFrame(t, c, answer);
    case HangUp => LeaveFrame(c);
    case _ => assert forall i | 0 <= i < |c.jobs| :: d.jobs[i].job == c.jobs[i].job;
  }

  lemma {:induction false} FreshIdsAlong(t: Transport, c: Conn, run: seq<Action>)
    requires FreshIds(c) && IsRun(t, c, run)
    ensures FreshIds(Exec(t, c, run))
    decreases |run|
  {
    hide FreshIds, Step, Enabled, Refuses;
    if run != [] {
      FreshIdsStep(t, c, run[0]);
      FreshIdsAlong(t, Step(t, c, run[0]), run[1..]);
    }
  }

  /** No two accepted jobs of a connection are the same job, so each has its own ResultCh; and a
      start of a known service submits a job with the message's service, priority and payload, in
      the pool it names or else the sticky one. */
  lemma EachJobIsNew(t: Transport, run: seq<Action>, m: Message, room: bool)
    requires IsRun(t, Init(), run) && m.Start? && Enabled(Exec(t, Init(), run), Receive(m, room))
    ensures var c := Exec(t, Init(), run); var d := Step(t, c, Receive(m, room));
      && (forall i, j | 0 <= i < j < |c.jobs| :: c.jobs[i].job != c.jobs[j].job)
      && (d.at.Submitting? && Known(m.service) ==>
            && (forall i | 0 <= i < |c.jobs| :: c.jobs[i].job != d.at.job)
            && d.at.job.service == m.service && d.at.job.priority == m.priority
            && d.at.job.payload == (if m.service == "stt" then SttPayload else TtsPayload(m.text, m.voice))
            && d.at.job.capacity == 32 && (d.at.job.hasReady <==> m.service == "stt")
            && (d.at.job.pool == m.pool || (m.pool == "" && d.at.job.pool == c.sticky)))
  {
    hide Exec, IsRun;
    FreshIdsAlong(t, Init(), run);
    var c := Exec(t, Init(), run);
    assert forall i, j | 0 <= i < j < |c.jobs| :: c.jobs[i].job.id < c.jobs[j].job.id;
  }

  // ---------- When the flag sticks ----------

  function Arms(run: seq<Action>): nat {
    if run == [] then 0 else Arms(run[..|run| - 1]) + (if run[|run| - 1] == Arm then 1 else 0)
  }

  /** Some job's Store(false) came before the Store(true) of its own start. */
  ghost predicate Overtaken(run: seq<Action>) {
    exists i, j | 0 <= i < j < |run| :: run[i].Clear? && run[j] == Arm && Arms(run[..j]) == run[i].k
  }

  ghost predicate ClearedIn(run: seq<Action>, k: nat) {
    exists i | 0 <= i < |run| :: run[i] == Clear(k)
  }

  /** The k-th Store(true) is job k's, and the settled jobs are those a Clear names. */
  ghost predicate FlagBooks(c: Conn, run: seq<Action>) {
    && |c.jobs| == Arms(run) + (if c.at.Arming? then 1 else 0)
    && (forall k: nat :: k < |c.jobs| ==> (Settled(c.jobs[k]) <==> ClearedIn(run, k)))
    && (forall k: nat :: ClearedIn(run, k) ==> k < |c.jobs|)
  }

  lemma ClearedInSnoc(run: seq<Action>, a: Action, k: nat)
    ensures ClearedIn(run + [a], k) <==> ClearedIn(run, k) || a == Clear(k)
  {
    if ClearedIn(run, k) {
      var i :| 0 <= i < |run| && run[i] == Clear(k);
      assert (run + [a])[i] == Clear(k);
    }
    if a == Clear(k) {
      assert (run + [a])[|run|] == Clear(k);
    }
  }

  lemma OvertakenSnoc(run: seq<Action>, a: Action)
    ensures Overtaken(run + [a]) <==> Overtaken(run) || (a == Arm && ClearedIn(run, Arms(run)))
  {
    hide Arms;
    var more := run + [a];
    assert forall j | 0 <= j <= |run| :: more[..j] == run[..j];
    assert run[..|run|] == run;
    if Overtaken(run) {
      var i, j :| 0 <= i < j < |run| && run[i].Clear? && run[j] == Arm && Arms(run[..j]) == run[i].k;
      assert more[i].Clear? && more[j] == Arm && Arms(more[..j]) == more[i].k;
    }
    if a == Arm && ClearedIn(run, Arms(run)) {
      var i :| 0 <= i < |run| && run[i] == Clear(Arms(run));
      assert more[i].Clear? && more[|run|] == Arm && Arms(more[..|run|]) == more[i].k;
    }
    if Overtaken(more) {
      var i, j :| 0 <= i < j < |more| && more[i].Clear? && more[j] == Arm && Arms(more[..j]) == more[i].k;
      if j < |run| {
        assert run[i].Clear? && run[j] == Arm && Arms(run[..j]) == run[i].k;
      } else {
        assert run[i] == Clear(Arms(run));
      }
    }
  }

  lemma ArmsSnoc(run: seq<Action>, a: Action)
    ensures Arms(run + [a]) == Arms(run) + (if a == Arm then 1 else 0)
  {
    assert (run + [a])[..|run|] == run;
  }

  /** What a step does to the list of jobs. */
  lemma JobsStep(t: Transport, c: Conn, a: Action)
    requires Enabled(c, a) && Refuses(c, a)
    ensures var d := Step(t, c, a);
      && |c.jobs| <= |d.jobs|
      && |d.jobs| - |c.jobs| ==
           (if d.at.Arming? then 1 else 0) - (if c.at.Arming? then 1 else 0) + (if a == Arm then 1 else 0)
      && (forall k: nat :: k < |c.jobs| ==> (Settled(d.jobs[k]) <==> Settled(c.jobs[k]) || a == Clear(k)))
      && (forall k: nat :: |c.jobs| <= k < |d.jobs| ==> !Settled(d.jobs[k]))
    ensures a.Clear? ==> a.k < |c.jobs|
  {
    hide Begin, Answered, Hear, Leave, CloseAudio, Known;
    var d := Step(t, c, a);
    match a
    case Receive(m, room) => ReceiveFrame(t, c, m, room);
    case Respond(answer) =>
      AnsweredFrame(t, c, answer);
    case HangUp => LeaveFrame(c);
    case _ =>
  }

  lemma FlagBooksStep(t: Transport, c: Conn, run: seq<Action>, a: Action)
    requires FlagBooks(c, run) && Enabled(c, a) && Refuses(c, a)
    ensures FlagBooks(Step(t, c, a), run + [a])
  {
    hide Arms, ClearedIn, Step, Enabled, Refuses, Settled;
    ArmsSnoc(run, a);
    JobsStep(t, c, a);
    forall k: nat ensures ClearedIn(run + [a], k) <==> ClearedIn(run, k) || a == Clear(k) {
      ClearedInSnoc(run, a, k);
    }
    var d := Step(t, c, a);
    assert |d.jobs| == Arms(run + [a]) + (if d.at.Arming? then 1 else 0);
    assert forall k: nat :: ClearedIn(run + [a], k) ==> k < |d.jobs|;
    assert forall k: nat :: k < |d.jobs| ==> (Settled(d.jobs[k]) <==> ClearedIn(run + [a], k));
  }

  /** Only Store(true) sets the flag and only Store(false), of an unsettled job, clears it. */
  lemma FlagStep(t: Transport, c: Conn, a: Action)
    requires Enabled(c, a)
    ensures Step(t, c, a).active == if a == Arm then true else if a.Clear? then false else c.active
    ensures a.Clear? || a.CloseResult? ==> a.k < |c.jobs| && !Settled(c.jobs[a.k])
    ensures a == Arm ==> c.at.Arming? && Step(t, c, a).jobs == c.jobs
    ensures a.Respond? ==> c.at.Submitting?
    ensures Step(t, c, a).at.Arming? ==> c.at.Arming? || a.Respond?
  {
    hide ChosenPool;
  }

  lemma WedgedStep(t: Transport, c: Conn, run: seq<Action>, a: Action)
    requires OneAtATime(c) && FlagBooks(c, run) && Enabled(c, a) && Refuses(c, a)
    ensures Wedged(Step(t, c, a)) <==> Wedged(c) || (a == Arm && ClearedIn(run, Arms(run)))
  {
    hide Arms, ClearedIn, Step, Enabled, Refuses, Settled;
    JobsStep(t, c, a);
    FlagStep(t, c, a);
    var d := Step(t, c, a);
    if a == Arm {
      var last := |c.jobs| - 1;
      assert ClearedIn(run, last) <==> Settled(c.jobs[last]);
    } else if c.active && !a.Clear? {
      assert |d.jobs| == |c.jobs|;
      assert AllSettled(d) <==> AllSettled(c);
    }
  }

  lemma {:induction false} FlagAlong(t: Transport, run: seq<Action>)
    requires IsRun(t, Init(), run)
    ensures FlagBooks(Exec(t, Init(), run), run)
    ensures Wedged(Exec(t, Init(), run)) <==> Overtaken(run)
  {
    hide FlagBooks, Overtaken, Step, Enabled, Refuses, Wedged;
    if run == [] {
      FlagStarts(t);
    } else {
      var past, a := run[..|run| - 1], run[|run| - 1];
      assert run == past + [a];
      RunSplit(t, Init(), past, [a]);
      FlagAlong(t, past);
      Reachable(t, past);
      var c := Exec(t, Init(), past);
      LastStep(t, c, a);
      FlagBooksStep(t, c, past, a);
      WedgedStep(t, c, past, a);
      OvertakenSnoc(past, a);
    }
  }

  lemma FlagStarts(t: Transport)
    ensures FlagBooks(Init(), []) && !Wedged(Init()) && !Overtaken([])
  {
  }

  lemma LastStep(t: Transport, c: Conn, a: Action)
    requires IsRun(t, c, [a])
    ensures Enabled(c, a) && Refuses(c, a) && Exec(t, c, [a]) == Step(t, c, a)
  {
    assert [a][1..] == [];
  }

  /** jobActive sticks at true exactly when some job's Store(false) overtook the Store(true) of
      its own start; and from then on nothing changes that: no later start reaches Submit. */
  lemma WedgedExactlyWhenOvertaken(t: Transport, run: seq<Action>)
    requires IsRun(t, Init(), run)
    ensures Wedged(Exec(t, Init(), run)) <==> Overtaken(run)
  {
    FlagAlong(t, run);
  }

  lemma {:induction false} WedgedForever(t: Transport, c: Conn, run: seq<Action>)
    requires Wedged(c) && OneAtATime(c) && AudioBooks(c) && IsRun(t, c, run)
    ensures var d := Exec(t, c, run);
      Wedged(d) && |d.jobs| == |c.jobs| && d.submits == c.submits && !d.at.Submitting? && !d.at.Arming?
    decreases |run|
  {
    hide Step;
    if run != [] {
      StaysWedged(t, c, run[0]);
      OneAtATimeStep(t, c, run[0]);
      AudioBooksStep(t, c, run[0]);
      WedgedForever(t, Step(t, c, run[0]), run[1..]);
    }
  }

  lemma StaysWedged(t: Transport, c: Conn, a: Action)
    requires Wedged(c) && OneAtATime(c) && Enabled(c, a)
    ensures var d := Step(t, c, a); Wedged(d) && |d.jobs| == |c.jobs| && d.submits == c.submits
  {
  }

  /** A well-formed request for speech. */
  predicate Speaks(m: Message) {
    m.Start? && m.service == "tts" && m.text != ""
  }

  lemma BeginSpeaks(t: Transport, m: Message, a: Answer)
    requires Speaks(m) && a.Ok?
    ensures Enabled(Init(), Receive(m, true)) && Refuses(Init(), Receive(m, true))
    ensures var c := Step(t, Init(), Receive(m, true));
      && Enabled(c, Respond(a)) && Refuses(c, Respond(a))
      && var d := Step(t, c, Respond(a));
         && d.at.Arming? && !d.hung
         && |d.jobs| == 1 && d.jobs[0].phase == Running && d.jobs[0].watched
         && (d.jobs[0].oriented <==> m.sessionType != "")
  {
    hide ChosenPool;
    var c := Step(t, Init(), Receive(m, true));
    assert c.at.Submitting? && c.at.job.service == "tts" && c.jobs == [] && !c.hung;
    assert Known("tts");
  }

  /** On a fresh connection any speech job that is over before its start has finished wedges it. */
  lemma ConnectionCanWedge(t: Transport, m: Message, a: Answer)
    requires Speaks(m) && a.Ok?
    ensures var run := [Receive(m, true), Respond(a), CloseResult(0), Clear(0), Arm];
      IsRun(t, Init(), run) && Wedged(Exec(t, Init(), run))
  {
    hide IsRun, Exec, Step;
    var run := [Receive(m, true), Respond(a), CloseResult(0), Clear(0), Arm];
    BeginSpeaks(t, m, a);
    var c1 := Step(t, Init(), run[0]);
    OneStep(t, Init(), run);
    OneStep(t, c1, run[1..]);
    OvertakenJob(t, Step(t, c1, run[1]));
    assert run[1..][1..] == [CloseResult(0), Clear(0), Arm];
  }

  lemma OvertakenJob(t: Transport, c: Conn)
    requires c.at.Arming? && |c.jobs| == 1 && c.jobs[0].phase == Running && c.jobs[0].watched
    ensures var run := [CloseResult(0), Clear(0), Arm]; IsRun(t, c, run) && Wedged(Exec(t, c, run))
  {
    var run := [CloseResult(0), Clear(0), Arm];
    var c3 := Step(t, c, run[0]);
    var c4 := Step(t, c3, run[1]);
    OneStep(t, c, run);
    OneStep(t, c3, run[1..]);
    OneStep(t, c4, run[1..][1..]);
  }

  lemma OneStep(t: Transport, c: Conn, run: seq<Action>)
    requires run != [] && Enabled(c, run[0]) && Refuses(c, run[0])
    ensures IsRun(t, c, run) <==> IsRun(t, Step(t, c, run[0]), run[1..])
    ensures IsRun(t, c, run) ==> Exec(t, c, run) == Exec(t, Step(t, c, run[0]), run[1..])
  {
  }

  // ---------- Audio ----------

  /** A frame joins the newest job's channel or none; that job is an STT job and, unless the
      connection is wedged, in flight. The send panics exactly when that channel was closed by stop. */
  lemma AudioGoesToTheJobInFlight(t: Transport, run: seq<Action>, chunk: Chunk, room: bool)
    requires IsRun(t, Init(), run) && Enabled(Exec(t, Init(), run), Receive(Audio(chunk), room))
    ensures var c := Exec(t, Init(), run); var d := Step(t, c, Receive(Audio(chunk), room));
      d == c || (c.jobs != [] && TakesFrame(c, d, c.jobs[|c.jobs| - 1], chunk))
    ensures var c := Exec(t, Init(), run); var d := Step(t, c, Receive(Audio(chunk), room));
      && (d == c ==> !c.active || !room || (c.jobs != [] ==> c.jobs[|c.jobs| - 1].job.service != "stt"))
      && (d != c && !d.at.Panicked? ==> room)
  {
    hide Exec, IsRun, Begin, Answered, CloseAudio, Leave, TakesFrame;
    Reachable(t, run);
    FrameTaken(Exec(t, Init(), run), chunk, room);
  }

  lemma FrameTaken(c: Conn, chunk: Chunk, room: bool)
    requires OneAtATime(c) && AudioBooks(c) && c.at.Idle?
    ensures var d := Hear(c, chunk, room);
      && (d == c || (c.jobs != [] && TakesFrame(c, d, c.jobs[|c.jobs| - 1], chunk)))
      && (d == c ==> !c.active || !room || (c.jobs != [] ==> c.jobs[|c.jobs| - 1].job.service != "stt"))
      && (d != c && !d.at.Panicked? ==> room)
  {
    hide Wedged, Settled, AllSettled;
    if c.active && c.cur.Some? {
      NewestSettled(c);
      var n := c.cur.value;
      if room && !c.channels[n].closed {
        assert |Hear(c, chunk, room).channels[n].sent| == |c.channels[n].sent| + 1;
      }
    }
  }

  lemma NewestSettled(c: Conn)
    requires OneAtATime(c) && c.active
    ensures c.jobs != [] && (Settled(c.jobs[|c.jobs| - 1]) ==> Wedged(c))
  {
  }

  ghost predicate TakesFrame(c: Conn, d: Conn, x: Accepted, chunk: Chunk) {
    && x.job.service == "stt"
    && (Settled(x) ==> Wedged(c))
    && x.audio.Some? && x.audio.value < |c.channels|
    && var ch := c.channels[x.audio.value];
       if ch.closed then d == c.(at := Panicked)
       else d == c.(channels := c.channels[x.audio.value := Channel(ch.sent + [chunk], false)])
  }

  /** A stop closes the newest job's audio channel, if it is an STT job, and changes nothing else;
      without a job in flight it does that only on a wedged connection. */
  lemma StopClosesTheJobInFlight(t: Transport, run: seq<Action>, room: bool)
    requires IsRun(t, Init(), run) && Enabled(Exec(t, Init(), run), Receive(Stop, room))
    ensures var c := Exec(t, Init(), run); var d := Step(t, c, Receive(Stop, room));
      if c.active && c.jobs != [] && c.jobs[|c.jobs| - 1].job.service == "stt"
      then ClosesAudio(c, d, c.jobs[|c.jobs| - 1])
      else d == c
  {
    hide Exec, IsRun, Begin, Answered, Hear, Leave, Wedged, AllSettled, Settled;
    Reachable(t, run);
    var c := Exec(t, Init(), run);
    if c.active {
      NewestSettled(c);
    }
  }

  ghost predicate ClosesAudio(c: Conn, d: Conn, x: Accepted) {
    && (Settled(x) ==> Wedged(c))
    && x.audio.Some? && x.audio.value < |c.channels|
    && d == c.(channels := c.channels[x.audio.value := Channel(c.channels[x.audio.value].sent, true)])
  }

  /** The handler is gone and a job still in flight: its audio is over. */
  ghost predicate ExitBooks(c: Conn) {
    (c.at.Gone? || c.at.Panicked?) && c.jobs != [] ==>
      var x := c.jobs[|c.jobs| - 1];
      !Settled(x) && x.audio.Some? && x.audio.value < |c.channels| ==> c.channels[x.audio.value].closed
  }

  lemma ExitBooksStep(t: Transport, c: Conn, a: Action)
    requires OneAtATime(c) && AudioBooks(c) && ExitBooks(c) && Enabled(c, a) && Refuses(c, a)
    ensures ExitBooks(Step(t, c, a))
  {
    hide ChosenPool;
  }

  lemma {:induction false} ExitBooksAlong(t: Transport, c: Conn, run: seq<Action>)
    requires OneAtATime(c) && AudioBooks(c) && ExitBooks(c) && IsRun(t, c, run)
    ensures ExitBooks(Exec(t, c, run))
    decreases |run|
  {
    hide OneAtATime, AudioBooks, ExitBooks, Step, Enabled, Refuses;
    if run != [] {
      OneAtATimeStep(t, c, run[0]);
      AudioBooksStep(t, c, run[0]);
      ExitBooksStep(t, c, run[0]);
      ExitBooksAlong(t, Step(t, c, run[0]), run[1..]);
    }
  }

  /** However the handler ends, an STT job it leaves in flight has its audio channel closed, so
      the broker's audio goroutine can finish. */
  lemma ExitClosesAudio(t: Transport, run: seq<Action>, k: nat)
    requires IsRun(t, Init(), run) && k < |Exec(t, Init(), run).jobs|
    ensures var c := Exec(t, Init(), run);
      (c.at.Gone? || c.at.Panicked?) && !Settled(c.jobs[k]) && c.jobs[k].job.service == "stt" ==>
        c.jobs[k].audio.Some? && c.jobs[k].audio.value < |c.channels| && c.channels[c.jobs[k].audio.value].closed
  {
    Reachable(t, run);
    ExitBooksAlong(t, Init(), run);
  }

  // ---------- Which audio channels end up closed ----------

  /** A stop was received while the flag was set and closeAudio closed channel `n`. */
  ghost predicate StoppedIn(t: Transport, run: seq<Action>, n: nat) {
    exists i | 0 <= i < |run| :: run[i].Receive? && run[i].msg.Stop? && WouldClose(t, run[..i], n)
  }

  ghost predicate WouldClose(t: Transport, run: seq<Action>, n: nat) {
    IsRun(t, Init(), run) && Exec(t, Init(), run).active && Exec(t, Init(), run).closer == Some(n)
  }

  lemma StoppedSnoc(t: Transport, run: seq<Action>, a: Action, n: nat)
    ensures StoppedIn(t, run + [a], n) <==>
      StoppedIn(t, run, n) || (a.Receive? && a.msg.Stop? && WouldClose(t, run, n))
  {
    hide WouldClose;
    var more := run + [a];
    assert forall i | 0 <= i <= |run| :: more[..i] == run[..i];
    assert run[..|run|] == run && more[|run|] == a;
    if StoppedIn(t, run, n) {
      var i :| 0 <= i < |run| && run[i].Receive? && run[i].msg.Stop? && WouldClose(t, run[..i], n);
      assert more[i] == run[i];
    }
    if StoppedIn(t, more, n) {
      var i :| 0 <= i < |more| && more[i].Receive? && more[i].msg.Stop? && WouldClose(t, more[..i], n);
      assert i < |run| ==> run[i] == more[i];
    }
  }

  /** How one step closes channels: by a stop, or by the handler's deferred closeAudio. */
  ghost predicate ClosesOnly(c: Conn, d: Conn, a: Action, n: nat)
    requires n < |d.channels|
  {
    d.channels[n].closed <==>
      || (n < |c.channels| && c.channels[n].closed)
      || (a.Receive? && a.msg.Stop? && c.active && c.closer == Some(n))
      || (d.at.Gone? && d.closer == Some(n))
  }

  lemma CloserCloses(c: Conn, n: nat)
    requires AudioBooks(c)
    ensures var d := CloseAudio(c);
      && d == c.(channels := d.channels) && |d.channels| == |c.channels|
      && (n < |c.channels| ==> (d.channels[n].closed <==> c.channels[n].closed || c.closer == Some(n)))
    ensures Leave(c) == CloseAudio(c).(at := Gone)
  {
  }

  /** Neither a start nor a frame closes a channel. */
  lemma ReceiveOpens(t: Transport, c: Conn, m: Message, room: bool, n: nat)
    requires c.at.Idle? && (m.Start? || m.Audio?)
    ensures var d := if m.Start? then Begin(t, c, m) else Hear(c, m.chunk, room);
      && |c.channels| <= |d.channels| && !d.at.Gone?
      && (n < |d.channels| ==> (d.channels[n].closed <==> n < |c.channels| && c.channels[n].closed))
      && (d.closer == c.closer || d.closer == None || d.closer == Some(|c.channels|))
  {
    hide ChosenPool;
  }

  lemma AnsweredCloses(t: Transport, c: Conn, a: Answer)
    requires c.at.Submitting?
    ensures var d := Answered(t, c, a);
      && d.closer == c.closer
      && d.channels == (if d.at.Gone? then CloseAudio(c) else c).channels
  {
    hide Known;
  }

  lemma ClosedStep(t: Transport, c: Conn, a: Action, n: nat)
    requires AudioBooks(c) && Enabled(c, a) && n < |Step(t, c, a).channels|
    requires c.at.Gone? && c.closer == Some(n) && n < |c.channels| ==> c.channels[n].closed
    ensures ClosesOnly(c, Step(t, c, a), a, n)
  {
    hide Begin, Hear, Answered, CloseAudio, Leave, AudioBooks;
    CloserCloses(c, n);
    match a
    case Receive(m, room) =>
      if m.Start? || m.Audio? {
        ReceiveOpens(t, c, m, room, n);
      }
    case Respond(answer) => AnsweredCloses(t, c, answer);
    case _ =>
  }

  lemma CloserStep(t: Transport, c: Conn, a: Action)
    requires AudioBooks(c) && Enabled(c, a)
    ensures var d := Step(t, c, a);
      && |c.channels| <= |d.channels|
      && (c.at.Gone? ==> d.at.Gone? && d.channels == c.channels)
      && (d.closer == c.closer || d.closer == None || d.closer == Some(|c.channels|))
      && (c.at.Gone? || d.at.Gone? ==> d.closer == c.closer)
  {
    hide Begin, Hear, Answered, CloseAudio, Leave, AudioBooks;
    CloserCloses(c, 0);
    match a
    case Receive(m, room) =>
      if m.Start? || m.Audio? {
        ReceiveOpens(t, c, m, room, 0);
      }
    case Respond(answer) => AnsweredCloses(t, c, answer);
    case _ =>
  }

  ghost predicate ClosedBooks(t: Transport, run: seq<Action>)
    requires IsRun(t, Init(), run)
  {
    var c := Exec(t, Init(), run);
    && (forall n: nat :: n < |c.channels| ==>
          (c.channels[n].closed <==> StoppedIn(t, run, n) || (c.at.Gone? && c.closer == Some(n))))
    && (forall n: nat :: StoppedIn(t, run, n) ==> n < |c.channels|)
  }

  lemma ClosedBooksStep(t: Transport, past: seq<Action>, a: Action)
    requires IsRun(t, Init(), past) && IsRun(t, Init(), past + [a]) && ClosedBooks(t, past)
    ensures ClosedBooks(t, past + [a])
  {
    hide IsRun, Exec, Step, Enabled, Refuses, StoppedIn, OneAtATime;
    var c := Exec(t, Init(), past);
    RunSplit(t, Init(), past, [a]);
    LastStep(t, c, a);
    Reachable(t, past);
    CloserStep(t, c, a);
    var d := Step(t, c, a);
    forall n: nat
      ensures n < |d.channels| ==>
        (d.channels[n].closed <==> StoppedIn(t, past + [a], n) || (d.at.Gone? && d.closer == Some(n)))
      ensures StoppedIn(t, past + [a], n) ==> n < |d.channels|
    {
      StoppedSnoc(t, past, a, n);
      if n < |d.channels| {
        ClosedStep(t, c, a, n);
      }
    }
  }

  lemma {:induction false} ClosedBooksAlong(t: Transport, run: seq<Action>)
    requires IsRun(t, Init(), run)
    ensures ClosedBooks(t, run)
  {
    hide ClosedBooks, IsRun;
    if run == [] {
      ClosedBooksStart(t);
    } else {
      var past, a := run[..|run| - 1], run[|run| - 1];
      assert run == past + [a];
      RunSplit(t, Init(), past, [a]);
      ClosedBooksAlong(t, past);
      ClosedBooksStep(t, past, a);
    }
  }

  lemma ClosedBooksStart(t: Transport)
    ensures IsRun(t, Init(), []) && ClosedBooks(t, [])
  {
  }

  /** An audio channel is closed exactly when a stop was received while it was the one closeAudio
      closes and the flag was set, or the handler returned with closeAudio still closing it. */
  lemma AudioClosedExactly(t: Transport, run: seq<Action>, n: nat)
    requires IsRun(t, Init(), run) && n < |Exec(t, Init(), run).channels|
    ensures var c := Exec(t, Init(), run);
      c.channels[n].closed <==> StoppedIn(t, run, n) || (c.at.Gone? && c.closer == Some(n))
  {
    ClosedBooksAlong(t, run);
  }

  /** So a channel not stopped before a later start replaces closeAudio stays open for ever,
      whatever follows: the audio goroutine of a job that ended without a stop never finishes. */
  lemma {:induction false} OpenForever(t: Transport, c: Conn, run: seq<Action>, n: nat)
    requires OneAtATime(c) && AudioBooks(c) && IsRun(t, c, run)
    requires n < |c.channels| && !c.channels[n].closed && c.closer != Some(n)
    ensures var d := Exec(t, c, run); n < |d.channels| && !d.channels[n].closed
    decreases |run|
  {
    hide Step, Enabled, Refuses, OneAtATime, AudioBooks;
    if run != [] {
      var d := Step(t, c, run[0]);
      OneAtATimeStep(t, c, run[0]);
      AudioBooksStep(t, c, run[0]);
      CloserStep(t, c, run[0]);
      ClosedStep(t, c, run[0], n);
      OpenForever(t, d, run[1..], n);
    }
  }
}
