/** handleWS and Stream, compared on the same messages, answers and job completions. */
module Transports {
  import opened Jobs
  import opened Routing
  import opened Connections
  import opened ConnectionTheorems

  predicate UnknownSubmit(c: Conn) {
    c.at.Submitting? && !Known(c.at.job.service)
  }

  predicate AudioMatters(c: Conn) {
    c.active || c.at.Arming? || (c.at.Submitting? && Known(c.at.job.service))
  }

  /** The two handlers' states agree on everything a client or the broker can see: the
      fields of a doomed Submit, the closed flags of finished jobs and `hung` aside. */
  ghost predicate Agree(w: Conn, g: Conn) {
    && (w.at == g.at || (UnknownSubmit(w) && UnknownSubmit(g)))
    && w.active == g.active && w.session == g.session && w.sticky == g.sticky
    && w.jobs == g.jobs && w.submits == g.submits
    && |w.channels| == |g.channels|
    && (forall n | 0 <= n < |w.channels| :: w.channels[n].sent == g.channels[n].sent)
    && (AudioMatters(w) ==>
          && w.cur == g.cur && w.closer == g.closer
          && (w.cur.Some? && w.cur.value < |w.channels| ==> w.channels[w.cur.value] == g.channels[w.cur.value]))
  }

  lemma CloseAgrees(w: Conn, g: Conn)
    requires Agree(w, g) && AudioBooks(w) && (w.at.Idle? || w.at.Submitting?)
    ensures Agree(CloseAudio(w), CloseAudio(g)) && Agree(Leave(w), Leave(g))
  {
  }

  lemma BeginAgrees(w: Conn, g: Conn, m: Message)
    requires Agree(w, g) && AudioBooks(w) && m.Start? && w.at.Idle?
    ensures Agree(Begin(WebSocket, w, m), Begin(Grpc, g, m))
  {
    hide ChosenPool, AudioBooks;
    var v, h := Begin(WebSocket, w, m), Begin(Grpc, g, m);
    if !w.active && m.service == "stt" {
      assert forall n | 0 <= n < |v.channels| :: v.channels[n].sent == h.channels[n].sent;
    }
  }

  lemma HearAgrees(w: Conn, g: Conn, chunk: Chunk, room: bool)
    requires Agree(w, g) && AudioBooks(w) && w.at.Idle?
    ensures Agree(Hear(w, chunk, room), Hear(g, chunk, room))
  {
  }

  lemma AnsweredAgrees(w: Conn, g: Conn, a: Answer)
    requires Agree(w, g) && AudioBooks(w) && w.at.Submitting? && !w.active && (Known(w.at.job.service) || a.Err?)
    ensures Agree(Answered(WebSocket, w, a), Answered(Grpc, g, a))
  {
    hide Known, CloseAudio, Leave, AudioBooks;
    CountIgnored(w);
    CloseAgrees(w.(submits := w.submits + 1), g.(submits := g.submits + 1));
  }

  lemma CountIgnored(c: Conn)
    requires AudioBooks(c)
    ensures AudioBooks(c.(submits := c.submits + 1))
  {
  }

  lemma SamePossibilities(w: Conn, g: Conn, a: Action)
    requires Agree(w, g) && !g.hung
    ensures Enabled(w, a) <==> Enabled(g, a) && !(a.Receive? && w.hung)
    ensures Refuses(w, a) <==> Refuses(g, a)
  {
  }

  lemma AgreeStep(w: Conn, g: Conn, a: Action)
    requires Agree(w, g) && OneAtATime(w) && AudioBooks(w)
    requires Enabled(w, a) && Refuses(w, a) && Enabled(g, a)
    ensures Agree(Step(WebSocket, w, a), Step(Grpc, g, a))
  {
    hide Begin, Hear, Answered, CloseAudio, Known, OneAtATime, AudioBooks;
    match a
    case Receive(m, room) =>
      BeginIfStart(w, g, m);
      HearIfAudio(w, g, m, room);
      CloseAgrees(w, g);
    case Respond(answer) => RespondAgrees(w, g, answer);
    case HangUp => CloseAgrees(w, g);
    case _ =>
  }

  lemma BeginIfStart(w: Conn, g: Conn, m: Message)
    requires Agree(w, g) && AudioBooks(w) && w.at.Idle?
    ensures m.Start? ==> Agree(Begin(WebSocket, w, m), Begin(Grpc, g, m))
  {
    if m.Start? {
      BeginAgrees(w, g, m);
    }
  }

  lemma HearIfAudio(w: Conn, g: Conn, m: Message, room: bool)
    requires Agree(w, g) && AudioBooks(w) && w.at.Idle?
    ensures m.Audio? ==> Agree(Hear(w, m.chunk, room), Hear(g, m.chunk, room))
  {
    if m.Audio? {
      HearAgrees(w, g, m.chunk, room);
    }
  }

  lemma RespondAgrees(w: Conn, g: Conn, a: Answer)
    requires Agree(w, g) && AudioBooks(w) && OneAtATime(w) && w.at.Submitting? && Refuses(w, Respond(a))
    ensures Agree(Answered(WebSocket, w, a), Answered(Grpc, g, a))
  {
    AnsweredAgrees(w, g, a);
  }

  // ---------- Short-lived jobs ----------

  /** A job submitted without a session was done with. */
  ghost predicate ShortJobDone(c: Conn, run: seq<Action>) {
    exists i | 0 <= i < |run| :: run[i].Finish? && run[i].k < |c.jobs| && !c.jobs[run[i].k].oriented
  }

  /** Nothing is received once such a job is done with. */
  ghost predicate ShortJobsEndIt(c: Conn, run: seq<Action>) {
    forall i, j | 0 <= i < j < |run| && run[i].Finish? && run[j].Receive? ::
      run[i].k < |c.jobs| ==> c.jobs[run[i].k].oriented
  }

  /** Jobs are only added, and keep whether they had a session. */
  ghost predicate Extends(c: Conn, d: Conn) {
    |c.jobs| <= |d.jobs| && forall k | 0 <= k < |c.jobs| :: d.jobs[k].oriented == c.jobs[k].oriented
  }

  /** A handler closes its own connection only as a WebSocket, when a short-lived job is done with. */
  lemma HungStep(t: Transport, c: Conn, a: Action)
    requires Enabled(c, a)
    ensures var d := Step(t, c, a);
      && Extends(c, d)
      && (a.Finish? ==> a.k < |c.jobs|)
      && (d.hung <==> c.hung || (t.WebSocket? && a.Finish? && !c.jobs[a.k].oriented))
  {
    hide Begin, Hear, Answered, Leave, CloseAudio;
    match a
    case Receive(m, room) =>
      ReceiveFrame(t, c, m, room);
      ReceiveKeepsHung(t, c, m, room);
    case Respond(answer) => AnsweredKeepsHung(t, c, answer);
    case HangUp => LeaveKeepsHung(c);
    case _ =>
  }

  lemma ReceiveKeepsHung(t: Transport, c: Conn, m: Message, room: bool)
    requires Enabled(c, Receive(m, room))
    ensures Step(t, c, Receive(m, room)).hung == c.hung
  {
    hide ChosenPool;
  }

  lemma AnsweredKeepsHung(t: Transport, c: Conn, a: Answer)
    requires c.at.Submitting?
    ensures Answered(t, c, a).hung == c.hung && Extends(c, Answered(t, c, a))
  {
  }

  lemma LeaveKeepsHung(c: Conn)
    ensures Leave(c).hung == c.hung && Leave(c).jobs == c.jobs
  {
  }

  /** Every Finish so far names a job there is. */
  ghost predicate FinishesNamed(c: Conn, run: seq<Action>) {
    forall i | 0 <= i < |run| :: run[i].Finish? ==> run[i].k < |c.jobs|
  }

  lemma DoneSnoc(c: Conn, d: Conn, run: seq<Action>, a: Action)
    requires Extends(c, d) && FinishesNamed(c, run) && (a.Finish? ==> a.k < |c.jobs|)
    ensures FinishesNamed(d, run + [a])
    ensures ShortJobDone(d, run + [a]) <==> ShortJobDone(c, run) || (a.Finish? && !c.jobs[a.k].oriented)
    ensures ShortJobsEndIt(d, run + [a]) <==> ShortJobsEndIt(c, run) && !(a.Receive? && ShortJobDone(c, run))
  {
    var more := run + [a];
    assert forall i | 0 <= i < |run| :: more[i] == run[i];
    assert more[|run|] == a;
    if ShortJobDone(c, run) {
      var i :| 0 <= i < |run| && run[i].Finish? && run[i].k < |c.jobs| && !c.jobs[run[i].k].oriented;
      assert more[i].Finish?;
    }
    if a.Finish? {
      assert more[|run|].Finish?;
    }
    if i :| 0 <= i < |more| && more[i].Finish? && more[i].k < |d.jobs| && !d.jobs[more[i].k].oriented {
      assert i < |run| ==> run[i].Finish?;
    }
    if ShortJobsEndIt(c, run) && !(a.Receive? && ShortJobDone(c, run)) {
      forall i, j | 0 <= i < j < |more| && more[i].Finish? && more[j].Receive?
        ensures more[i].k < |d.jobs| ==> d.jobs[more[i].k].oriented
      {
        assert run[i].Finish? && (j < |run| ==> run[j].Receive?);
      }
    }
    if ShortJobsEndIt(d, more) {
      assert a.Receive? ==> more[|run|].Receive?;
      forall i, j | 0 <= i < j < |run| && run[i].Finish? && run[j].Receive?
        ensures run[i].k < |c.jobs| ==> c.jobs[run[i].k].oriented
      {
        assert more[i].Finish? && more[j].Receive?;
      }
    }
  }

  /** What holds of the two states after a run both can make. */
  ghost predicate Matched(run: seq<Action>) {
    && IsRun(WebSocket, Init(), run) && IsRun(Grpc, Init(), run)
    && var w, g := Exec(WebSocket, Init(), run), Exec(Grpc, Init(), run);
       && Agree(w, g) && !g.hung && FinishesNamed(g, run)
       && (w.hung <==> ShortJobDone(g, run)) && ShortJobsEndIt(g, run)
  }

  lemma MatchedStep(past: seq<Action>, a: Action)
    requires Matched(past)
    ensures IsRun(WebSocket, Init(), past + [a]) <==>
      IsRun(Grpc, Init(), past + [a]) && ShortJobsEndIt(Exec(Grpc, Init(), past + [a]), past + [a])
    ensures IsRun(WebSocket, Init(), past + [a]) ==> Matched(past + [a])
  {
    hide Agree, Step, Enabled, Refuses, IsRun, Exec, ShortJobDone, ShortJobsEndIt, FinishesNamed, Extends,
         OneAtATime, AudioBooks;
    var w, g := Exec(WebSocket, Init(), past), Exec(Grpc, Init(), past);
    Reachable(WebSocket, past);
    SamePossibilities(w, g, a);
    RunSplit(WebSocket, Init(), past, [a]);
    RunSplit(Grpc, Init(), past, [a]);
    LastAction(WebSocket, w, a);
    LastAction(Grpc, g, a);
    if IsRun(Grpc, Init(), past + [a]) {
      HungStep(Grpc, g, a);
      DoneSnoc(g, Step(Grpc, g, a), past, a);
      if IsRun(WebSocket, Init(), past + [a]) {
        HungStep(WebSocket, w, a);
        AgreeStep(w, g, a);
        SameJobs(w, g);
      }
    }
  }

  lemma SameJobs(w: Conn, g: Conn)
    requires Agree(w, g)
    ensures w.jobs == g.jobs
  {
  }

  /** A run cut short is no longer than what ShortJobsEndIt says of the whole. */
  lemma EndsItBefore(past: seq<Action>, a: Action)
    requires IsRun(Grpc, Init(), past + [a]) && IsRun(Grpc, Init(), past)
    requires ShortJobsEndIt(Exec(Grpc, Init(), past + [a]), past + [a])
    ensures ShortJobsEndIt(Exec(Grpc, Init(), past), past)
  {
    hide IsRun, Exec, Step, Enabled;
    var g := Exec(Grpc, Init(), past);
    RunSplit(Grpc, Init(), past, [a]);
    LastAction(Grpc, g, a);
    HungStep(Grpc, g, a);
    var more := past + [a];
    forall i, j | 0 <= i < j < |past| && past[i].Finish? && past[j].Receive?
      ensures past[i].k < |g.jobs| ==> g.jobs[past[i].k].oriented
    {
      assert more[i].Finish? && more[j].Receive? && more[i] == past[i];
    }
  }

  lemma {:induction false} MatchedAlong(run: seq<Action>)
    ensures IsRun(WebSocket, Init(), run) <==>
      IsRun(Grpc, Init(), run) && ShortJobsEndIt(Exec(Grpc, Init(), run), run)
    ensures IsRun(WebSocket, Init(), run) ==> Matched(run)
    decreases |run|
  {
    hide Matched, ShortJobsEndIt, IsRun, Exec;
    if run == [] {
      MatchedStart();
    } else {
      var past, a := run[..|run| - 1], run[|run| - 1];
      assert run == past + [a];
      MatchedAlong(past);
      RunSplit(WebSocket, Init(), past, [a]);
      RunSplit(Grpc, Init(), past, [a]);
      if IsRun(WebSocket, Init(), past) {
        MatchedStep(past, a);
      } else if IsRun(Grpc, Init(), run) && ShortJobsEndIt(Exec(Grpc, Init(), run), run) {
        EndsItBefore(past, a);
      }
    }
  }

  lemma MatchedStart()
    ensures Matched([])
    ensures IsRun(WebSocket, Init(), []) && IsRun(Grpc, Init(), []) && ShortJobsEndIt(Exec(Grpc, Init(), []), [])
  {
  }

  // ---------- The comparison ----------

  function Submits(c: Conn): seq<Job> {
    seq(|c.jobs|, k requires 0 <= k < |c.jobs| => c.jobs[k].job)
  }

  /** What a client or the broker can tell the two states apart by is the same. */
  ghost predicate LookAlike(w: Conn, g: Conn) {
    && Submits(w) == Submits(g) && w.jobs == g.jobs
    && w.sticky == g.sticky && w.active == g.active && w.session == g.session
    && |w.channels| == |g.channels|
    && forall n | 0 <= n < |w.channels| :: w.channels[n].sent == g.channels[n].sent
  }

  /** With sessions or without: what the WebSocket handler can do is exactly what the gRPC handler
      can do without receiving anything once a short-lived job is done with; and after any such run
      both have made the same accepted Submits (service, pool, priority, payload) and hold the same
      sticky pool, jobActive flag and audio on every channel. */
  lemma TransportsAgree(run: seq<Action>)
    ensures IsRun(WebSocket, Init(), run) <==>
      IsRun(Grpc, Init(), run) && ShortJobsEndIt(Exec(Grpc, Init(), run), run)
    ensures IsRun(WebSocket, Init(), run) ==>
      LookAlike(Exec(WebSocket, Init(), run), Exec(Grpc, Init(), run))
  {
    hide IsRun, Exec, ShortJobsEndIt, FinishesNamed, ShortJobDone;
    MatchedAlong(run);
  }

  // ---------- Session-oriented connections ----------

  /** The first start of the connection opens a session. */
  predicate SessionFirst(run: seq<Action>) {
    run == [] ||
    (if run[0].Receive? && run[0].msg.Start? then run[0].msg.sessionType != "" else SessionFirst(run[1..]))
  }

  /** Every job so far had a session, and the next will, if none has been handled yet, only if it opens one. */
  ghost predicate InSession(c: Conn) {
    && (c.session || (c.jobs == [] && !c.active && !c.at.Submitting? && !c.at.Arming?))
    && forall k | 0 <= k < |c.jobs| :: c.jobs[k].oriented
  }

  lemma InSessionStep(c: Conn, a: Action)
    requires InSession(c) && Enabled(c, a)
    requires c.session || (a.Receive? && a.msg.Start? ==> a.msg.sessionType != "")
    ensures InSession(Step(Grpc, c, a))
    ensures c.session || (a.Receive? && a.msg.Start?) ==> Step(Grpc, c, a).session
  {
    hide ChosenPool, Known;
  }

  lemma {:induction false} InSessionAlong(c: Conn, run: seq<Action>)
    requires InSession(c) && IsRun(Grpc, c, run) && (c.session || SessionFirst(run))
    ensures InSession(Exec(Grpc, c, run))
    decreases |run|
  {
    hide InSession, Step, Enabled, Refuses;
    if run != [] {
      InSessionStep(c, run[0]);
      InSessionAlong(Step(Grpc, c, run[0]), run[1..]);
    }
  }

  /** So on a connection that is session-oriented from its first start the two handlers have
      exactly the same runs. */
  lemma SessionsAgree(run: seq<Action>)
    requires SessionFirst(run)
    ensures IsRun(WebSocket, Init(), run) <==> IsRun(Grpc, Init(), run)
    ensures IsRun(WebSocket, Init(), run) ==>
      LookAlike(Exec(WebSocket, Init(), run), Exec(Grpc, Init(), run))
  {
    hide IsRun, Exec, LookAlike, SessionFirst;
    TransportsAgree(run);
    if IsRun(Grpc, Init(), run) {
      InSessionAlong(Init(), run);
    }
  }

  /** Without a session they differ: after its first job a WebSocket connection is closed, and
      a gRPC stream accepts another. */
  lemma ShortLivedConnectionsDiffer(m: Message, a: Answer)
    requires Speaks(m) && m.sessionType == "" && a.Ok?
    ensures var again := WholeJob(m, a) + [Receive(m, true)];
      && IsRun(WebSocket, Init(), WholeJob(m, a)) && !IsRun(WebSocket, Init(), again)
      && IsRun(Grpc, Init(), again) && Exec(Grpc, Init(), again).at.Submitting?
  {
    hide Exec;
    var job, more := WholeJob(m, a), Receive(m, true);
    OneShortJob(WebSocket, m, a);
    OneShortJob(Grpc, m, a);
    RunSplit(WebSocket, Init(), job, [more]);
    RunSplit(Grpc, Init(), job, [more]);
    LastAction(Grpc, Exec(Grpc, Init(), job), more);
    LastAction(WebSocket, Exec(WebSocket, Init(), job), more);
  }

  lemma LastAction(t: Transport, c: Conn, a: Action)
    ensures IsRun(t, c, [a]) <==> Enabled(c, a) && Refuses(c, a)
    ensures IsRun(t, c, [a]) ==> Exec(t, c, [a]) == Step(t, c, a)
  {
    assert [a][1..] == [];
  }

  /** One accepted job from start to "done", without interference. */
  function WholeJob(m: Message, a: Answer): seq<Action> {
    [Receive(m, true), Respond(a), Arm, CloseResult(0), Clear(0), Finish(0)]
  }

  lemma OneShortJob(t: Transport, m: Message, a: Answer)
    requires Speaks(m) && m.sessionType == "" && a.Ok?
    ensures IsRun(t, Init(), WholeJob(m, a))
    ensures var c := Exec(t, Init(), WholeJob(m, a)); c.at.Idle? && !c.active && c.hung == t.WebSocket?
  {
    hide IsRun, Exec, Step;
    var job := WholeJob(m, a);
    BeginSpeaks(t, m, a);
    var c2 := Step(t, Step(t, Init(), job[0]), job[1]);
    RestOfJob(t, c2);
    OneStep(t, Init(), job);
    OneStep(t, Step(t, Init(), job[0]), job[1..]);
    assert job[1..][1..] == [Arm, CloseResult(0), Clear(0), Finish(0)];
  }

  /** A job accepted on a fresh connection and left alone runs to its end. */
  lemma RestOfJob(t: Transport, c: Conn)
    requires c.at.Arming? && |c.jobs| == 1 && c.jobs[0].phase == Running && c.jobs[0].watched
    requires !c.jobs[0].oriented && !c.hung
    ensures var run := [Arm, CloseResult(0), Clear(0), Finish(0)];
      IsRun(t, c, run) && var d := Exec(t, c, run); d.at.Idle? && !d.active && d.hung == t.WebSocket?
  {
    var run := [Arm, CloseResult(0), Clear(0), Finish(0)];
    var c3 := Step(t, c, run[0]);
    var c4 := Step(t, c3, run[1]);
    var c5 := Step(t, c4, run[2]);
    OneStep(t, c, run);
    OneStep(t, c3, run[1..]);
    OneStep(t, c4, run[1..][1..]);
    OneStep(t, c5, run[1..][1..][1..]);
  }
}
