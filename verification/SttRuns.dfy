/** One STT connection serving job after job: for any jobs there is a run, with an honest server,
    that completes them all without leaving the connection. */
module SttRuns {
  import opened Jobs
  import opened Workers
  import opened SttSessions
  import opened SttSafety
  import opened SttWire

  // ---------- Runs built step by step ----------

  /** `run` leads from `s` to `t`, and the server is honest along it. */
  ghost predicate Leads(s: Session, run: seq<Action>, t: Session) {
    ValidRun(s, run) && HonestRun(s, run) && Exec(s, run) == t
  }

  lemma Nothing(s: Session)
    ensures Leads(s, [], s)
  {
  }

  lemma One(s: Session, a: Action)
    requires Enabled(s, a) && (a.ServerSends? ==> HonestMsg(s, a.msg))
    ensures Leads(s, [a], Step(s, a))
  {
    hide Enabled, Step, HonestMsg;
    assert [a][0] == a && [a][1..] == [];
    var t := Step(s, a);
    assert ValidRun(t, []) && HonestRun(t, []) && Exec(t, []) == t;
  }

  lemma {:induction false} Concat(s: Session, first: seq<Action>, t: Session, second: seq<Action>, u: Session)
    requires Leads(s, first, t) && Leads(t, second, u)
    ensures Leads(s, first + second, u)
    decreases first
  {
    hide Enabled, Step, HonestMsg;
    if first == [] {
      assert first + second == second;
    } else {
      assert (first + second)[0] == first[0] && (first + second)[1..] == first[1..] + second;
      Concat(Step(s, first[0]), first[1..], t, second, u);
    }
  }

  lemma Extend(s: Session, run: seq<Action>, t: Session, a: Action) returns (longer: seq<Action>)
    requires Leads(s, run, t) && Enabled(t, a) && (a.ServerSends? ==> HonestMsg(t, a.msg))
    ensures Leads(s, longer, Step(t, a))
  {
    hide Enabled, Step, Leads, HonestMsg;
    One(t, a);
    longer := run + [a];
    Concat(s, run, t, [a], Step(t, a));
  }

  // ---------- Steps of the worker ----------

  /** Program points whose step changes nothing but the counter. */
  predicate Plain(pc: Pc, op: Op) {
    (op == Next && (pc.Checking? || pc.LeavingIdle? || pc.EnteringActive? || pc.Announcing? || pc.GoingIdle?
                    || pc.JoiningAudio? || pc.AwaitingCallbacks? || pc.LeavingActive? || pc.EnteringIdle?))
    || (op == SeeListening && pc.AwaitingListening?) || (op == SeeJobDone && pc.Selecting?)
  }

  lemma PlainStep(s: Session, op: Op, next: Pc)
    requires Plain(s.pc, op) && Goto(Stt, s.pc, op) == Some(next) && WorkerGuard(s, op)
    ensures Enabled(s, Worker(op)) && Step(s, Worker(op)) == s.(pc := next)
  {
    hide Goto, WorkerGuard;
  }

  lemma Pops(s: Session, j: Job)
    requires s.pc == Popping(Entering) && j !in s.popped && j.capacity > 0
    ensures Enabled(s, Worker(GotJob(j)))
    ensures Step(s, Worker(GotJob(j))) == s.(pc := Checking(j), popped := s.popped + [j])
  {
  }

  lemma Resets(s: Session, j: Job)
    requires s.pc == Resetting(j) && s.connected
    ensures Enabled(s, Worker(Next))
    ensures Step(s, Worker(Next)) == s.(pc := Writing(j), cur := s.cur + 1, starts := s.starts + [j])
  {
  }

  lemma WritesStart(s: Session, j: Job)
    requires s.pc == Writing(j)
    ensures Enabled(s, Worker(Next))
    ensures Step(s, Worker(Next)) ==
      s.(pc := Recapturing(j), served := |s.starts|, events := s.events + [WroteStart(s.cur)])
  {
  }

  lemma Wires(s: Session, j: Job)
    requires s.pc == Recapturing(j)
    ensures Enabled(s, Worker(Next))
    ensures var t := Step(s, Worker(Next));
      && t == s.(pc := Wiring(j), captured := s.cur)
      && Enabled(t, Worker(Next))
      && Step(t, Worker(Next)) == s.(pc := Spawning(j), captured := s.cur, cb := Some(j))
  {
    RecaptureGoto(j);
    hide Goto;
  }

  lemma RecaptureGoto(j: Job)
    ensures Goto(Stt, Recapturing(j), Next) == Some(Wiring(j)) && Goto(Stt, Wiring(j), Next) == Some(Spawning(j))
    ensures Goto(Stt, Spawning(j), Next) == Some(Selecting(j))
  {
  }

  lemma Spawns(s: Session, j: Job)
    requires s.pc == Spawning(j)
    ensures Enabled(s, Worker(Next)) && Step(s, Worker(Next)) == s.(pc := Selecting(j), audio := Streaming(j))
  {
    RecaptureGoto(j);
    hide Goto;
  }

  lemma StartGotos(j: Job)
    requires j.payload.SttPayload?
    ensures Goto(Stt, Checking(j), Next) == Some(LeavingIdle(j))
    ensures Goto(Stt, LeavingIdle(j), Next) == Some(EnteringActive(j))
    ensures Goto(Stt, EnteringActive(j), Next) == Some(AwaitingListening(j))
  {
  }

  lemma ReadyGotos(j: Job)
    ensures Goto(Stt, AwaitingListening(j), SeeListening) == Some(Announcing(j))
    ensures Goto(Stt, Announcing(j), Next) == Some(Resetting(j))
  {
  }

  lemma EndGotos(j: Job)
    ensures Goto(Stt, Selecting(j), SeeJobDone) == Some(JoiningAudio(j))
    ensures Goto(Stt, JoiningAudio(j), Next) == Some(Signalling(j, Completed))
    ensures Goto(Stt, AwaitingCallbacks(j, Completed), Next) == Some(Tallying(j, Completed))
  {
  }

  lemma LastGotos()
    ensures Goto(Stt, LeavingActive(Completed), Next) == Some(EnteringIdle)
    ensures Goto(Stt, EnteringIdle, Next) == Some(Popping(Entering))
  {
  }

  // ---------- Between two jobs ----------

  /** The worker is about to pop on a connection where everything before is over. */
  ghost predicate Waiting(s: Session) {
    && s.pc == Popping(Entering) && s.reader == Reading && s.connected && s.inbox == []
    && s.captured == s.cur && s.cur in s.shut && s.cb == None && s.wg == 0
    && s.served == s.cur == s.settled == |s.starts|
  }

  /** `s` with job `j` of start `s.cur + 1` at the worker's select, its audio streaming. */
  function Serving(s: Session, j: Job): Session {
    s.(pc := Selecting(j), popped := s.popped + [j], cur := s.cur + 1, captured := s.cur + 1,
       starts := s.starts + [j], served := s.served + 1, events := s.events + [WroteStart(s.cur + 1)],
       cb := Some(j), audio := Streaming(j))
  }

  lemma ReachesWait(s: Session, j: Job) returns (run: seq<Action>)
    requires s.pc == Popping(Entering) && j !in s.popped && j.capacity > 0 && j.payload.SttPayload?
    ensures Leads(s, run, s.(pc := AwaitingListening(j), popped := s.popped + [j]))
  {
    hide Enabled, Step, Leads, Goto;
    StartGotos(j);
    Nothing(s);
    Pops(s, j);
    run := Extend(s, [], s, Worker(GotJob(j)));
    var t := s.(pc := Checking(j), popped := s.popped + [j]);
    PlainStep(t, Next, LeavingIdle(j));
    run := Extend(s, run, t, Worker(Next));
    t := t.(pc := LeavingIdle(j));
    PlainStep(t, Next, EnteringActive(j));
    run := Extend(s, run, t, Worker(Next));
    t := t.(pc := EnteringActive(j));
    PlainStep(t, Next, AwaitingListening(j));
    run := Extend(s, run, t, Worker(Next));
  }

  lemma ReachesReset(s: Session, j: Job) returns (run: seq<Action>)
    requires s.pc == AwaitingListening(j) && s.captured in s.shut
    ensures Leads(s, run, s.(pc := Resetting(j)))
  {
    hide Enabled, Step, Leads, Goto;
    ReadyGotos(j);
    Nothing(s);
    PlainStep(s, SeeListening, Announcing(j));
    run := Extend(s, [], s, Worker(SeeListening));
    var t := s.(pc := Announcing(j));
    PlainStep(t, Next, Resetting(j));
    run := Extend(s, run, t, Worker(Next));
  }

  lemma ReachesSelect(s: Session, j: Job) returns (run: seq<Action>)
    requires s.pc == Resetting(j) && s.connected && s.cur == |s.starts|
    ensures Leads(s, run, s.(pc := Selecting(j), cur := s.cur + 1, captured := s.cur + 1, starts := s.starts + [j],
                             served := s.cur + 1, events := s.events + [WroteStart(s.cur + 1)],
                             cb := Some(j), audio := Streaming(j)))
  {
    hide Enabled, Step, Leads, Goto;
    Nothing(s);
    Resets(s, j);
    run := Extend(s, [], s, Worker(Next));
    var t := s.(pc := Writing(j), cur := s.cur + 1, starts := s.starts + [j]);
    WritesStart(t, j);
    run := Extend(s, run, t, Worker(Next));
    t := t.(pc := Recapturing(j), served := s.cur + 1, events := s.events + [WroteStart(s.cur + 1)]);
    Wires(t, j);
    run := Extend(s, run, t, Worker(Next));
    run := Extend(s, run, t.(pc := Wiring(j), captured := s.cur + 1), Worker(Next));
    t := t.(pc := Spawning(j), captured := s.cur + 1, cb := Some(j));
    Spawns(t, j);
    run := Extend(s, run, t, Worker(Next));
  }

  lemma StartsJob(s: Session, j: Job) returns (run: seq<Action>)
    requires Waiting(s) && j !in s.popped && j.capacity > 0 && j.payload.SttPayload?
    ensures Leads(s, run, Serving(s, j))
  {
    hide Leads;
    run := ReachesWait(s, j);
    var t := s.(pc := AwaitingListening(j), popped := s.popped + [j]);
    var more := ReachesReset(t, j);
    var u := t.(pc := Resetting(j));
    Concat(s, run, t, more, u);
    run := run + more;
    more := ReachesSelect(u, j);
    Concat(s, run, u, more, Serving(s, j));
    run := run + more;
  }

  // ---------- The audio goroutine ----------

  function Chunks(n: nat): seq<Event> {
    seq(n, _ => WroteChunk)
  }

  lemma StreamsOne(s: Session, j: Job)
    requires s.audio == Streaming(j) && s.connected && !s.pc.Writing?
    ensures Enabled(s, AudioDoes(Chunk(true)))
    ensures Step(s, AudioDoes(Chunk(true))) == s.(events := s.events + [WroteChunk])
  {
    hide Goto;
  }

  /** A chunk that cannot be sent, like the end of the audio, leads to stop and to nothing else. */
  lemma StopsStreaming(s: Session, j: Job, x: AudioAct)
    requires s.audio == Streaming(j) && s.connected && !s.pc.Writing? && (x == EndOfAudio || x == Chunk(false))
    ensures Enabled(s, AudioDoes(x))
    ensures var t := Step(s, AudioDoes(x));
      && t == s.(audio := Stopping(j), events := if x.EndOfAudio? then s.events else s.events + [WroteChunk])
      && (forall y :: Enabled(t, AudioDoes(y)) <==> y == SendStop)
      && Step(t, AudioDoes(SendStop)) ==
           t.(audio := AudioDone(j), drained := s.drained + {j}, events := t.events + [WroteStop])
  {
    hide Goto;
  }

  lemma {:induction false} Streams(s: Session, j: Job, n: nat) returns (run: seq<Action>)
    requires s.audio == Streaming(j) && s.connected && !s.pc.Writing?
    ensures Leads(s, run, s.(events := s.events + Chunks(n)))
  {
    hide Leads, Enabled, Step;
    if n == 0 {
      Nothing(s);
      run := [];
      assert s.events + Chunks(0) == s.events;
    } else {
      run := Streams(s, j, n - 1);
      var t := s.(events := s.events + Chunks(n - 1));
      StreamsOne(t, j);
      run := Extend(s, run, t, AudioDoes(Chunk(true)));
      assert s.events + Chunks(n) == t.events + [WroteChunk];
    }
  }

  lemma FinishesAudio(s: Session, j: Job, n: nat) returns (run: seq<Action>)
    requires s.audio == Streaming(j) && s.connected && !s.pc.Writing?
    ensures Leads(s, run, s.(audio := AudioDone(j), drained := s.drained + {j},
                             events := s.events + Chunks(n) + [WroteStop]))
  {
    hide Leads, Enabled, Step;
    run := Streams(s, j, n);
    var t := s.(events := s.events + Chunks(n));
    StopsStreaming(t, j, EndOfAudio);
    run := Extend(s, run, t, AudioDoes(EndOfAudio));
    run := Extend(s, run, t.(audio := Stopping(j)), AudioDoes(SendStop));
  }

  // ---------- The reader ----------

  lemma ServerAnswers(s: Session, m: Msg)
    requires s.inbox == [] && s.reader == Reading
    requires (m.ResultMsg? || m.ListeningMsg?) && m.sess == s.settled + 1 <= s.served
    ensures HonestMsg(s, m) && Enabled(s, ServerSends(m))
    ensures var t := Step(s, ServerSends(m));
      && t == s.(inbox := [m], settled := if m.ListeningMsg? then s.settled + 1 else s.settled)
      && Enabled(t, ReaderDoes(Take))
      && Step(t, ReaderDoes(Take)) == t.(inbox := [], reader := Dispatch(m))
  {
    hide Goto;
    assert [] + [m] == [m] && [m][1..] == [];
  }

  lemma HandsOver(s: Session, j: Job, m: Msg)
    requires s.reader == Handling(m) && s.cb == Some(j) && IsFinal(m)
    requires j !in s.closed && j !in s.buffered && j.capacity > 0
    ensures Enabled(s, ReaderDoes(LockCallback))
    ensures var t := Step(s, ReaderDoes(LockCallback));
      && t == s.(reader := Calling(j, m), wg := s.wg + 1)
      && Enabled(t, ReaderDoes(SendResult))
      && Step(t, ReaderDoes(SendResult)) == t.(reader := Called(j, m), sent := s.sent + [FromServer(j, m)],
                                               buffered := s.buffered[j := 1])
  {
    hide Goto;
  }

  lemma LetsGo(s: Session, j: Job, m: Msg)
    requires s.reader == Called(j, m) && IsFinal(m)
    ensures Enabled(s, ReaderDoes(Finish))
    ensures var t := Step(s, ReaderDoes(Finish));
      && t == s.(reader := Releasing(j), done := s.done + {j})
      && Enabled(t, ReaderDoes(Release))
      && Step(t, ReaderDoes(Release)) == t.(reader := Reading, wg := s.wg - 1)
  {
    hide Goto;
  }

  lemma Listens(s: Session, m: Msg)
    requires s.reader == Marking(m) && m.ListeningMsg? && !s.pc.Writing?
    ensures Enabled(s, ReaderDoes(Mark))
    ensures var t := Step(s, ReaderDoes(Mark));
      && t == s.(reader := Fetching(m))
      && Enabled(t, ReaderDoes(Fetch))
      && var u := Step(t, ReaderDoes(Fetch));
         && u == s.(reader := ClosingCh(m, s.cur))
         && Enabled(u, ReaderDoes(CloseCh))
         && Step(u, ReaderDoes(CloseCh)) ==
              s.(reader := Reading, shut := s.shut + {s.cur}, events := s.events + [HeardListening(s.cur, m.sess)])
  {
    hide Goto;
  }

  /** The server's final result reaches the job and closes its jobDone. */
  lemma Recognises(s: Session, j: Job, m: Msg) returns (run: seq<Action>)
    requires s.inbox == [] && s.reader == Reading && s.cb == Some(j) && s.wg == 0
    requires IsFinal(m) && m.text != "" && m.sess == s.settled + 1 <= s.served
    requires j !in s.closed && j !in s.buffered && j.capacity > 0
    ensures Leads(s, run, s.(sent := s.sent + [FromServer(j, m)], buffered := s.buffered[j := 1], done := s.done + {j}))
  {
    hide Leads, Enabled, Step, HonestMsg;
    Nothing(s);
    ServerAnswers(s, m);
    run := Extend(s, [], s, ServerSends(m));
    run := Extend(s, run, s.(inbox := [m]), ReaderDoes(Take));
    var t := s.(reader := Handling(m));
    HandsOver(t, j, m);
    run := Extend(s, run, t, ReaderDoes(LockCallback));
    run := Extend(s, run, t.(reader := Calling(j, m), wg := 1), ReaderDoes(SendResult));
    t := t.(reader := Called(j, m), wg := 1, sent := s.sent + [FromServer(j, m)], buffered := s.buffered[j := 1]);
    LetsGo(t, j, m);
    run := Extend(s, run, t, ReaderDoes(Finish));
    run := Extend(s, run, t.(reader := Releasing(j), done := s.done + {j}), ReaderDoes(Release));
  }

  lemma GoesBackToListening(s: Session) returns (run: seq<Action>)
    requires s.inbox == [] && s.reader == Reading && !s.pc.Writing? && s.cur == s.settled + 1 <= s.served
    ensures Leads(s, run, s.(settled := s.cur, shut := s.shut + {s.cur},
                             events := s.events + [HeardListening(s.cur, s.cur)]))
  {
    hide Leads, Enabled, Step, HonestMsg;
    var m := ListeningMsg(s.cur);
    Nothing(s);
    ServerAnswers(s, m);
    run := Extend(s, [], s, ServerSends(m));
    run := Extend(s, run, s.(inbox := [m], settled := s.cur), ReaderDoes(Take));
    var t := s.(reader := Marking(m), settled := s.cur);
    Listens(t, m);
    run := Extend(s, run, t, ReaderDoes(Mark));
    run := Extend(s, run, t.(reader := Fetching(m)), ReaderDoes(Fetch));
    run := Extend(s, run, t.(reader := ClosingCh(m, s.cur)), ReaderDoes(CloseCh));
  }

  // ---------- The end of the job ----------

  lemma ClearsCallbacks(s: Session, j: Job)
    requires s.pc == Signalling(j, Completed)
    ensures Enabled(s, Worker(Next))
    ensures var t := Step(s, Worker(Next));
      && t == s.(pc := Clearing(j, Completed), done := s.done + {j})
      && Enabled(t, Worker(Next))
      && Step(t, Worker(Next)) == t.(pc := AwaitingCallbacks(j, Completed), cb := None)
  {
    ClearGotos(j);
    hide Goto;
  }

  lemma ClearGotos(j: Job)
    ensures Goto(Stt, Signalling(j, Completed), Next) == Some(Clearing(j, Completed))
    ensures Goto(Stt, Clearing(j, Completed), Next) == Some(AwaitingCallbacks(j, Completed))
  {
  }

  lemma TalliesAndCloses(s: Session, j: Job)
    requires s.pc == Tallying(j, Completed) && j !in s.closed
    ensures Enabled(s, Worker(Next))
    ensures var t := Step(s, Worker(Next));
      && t == s.(pc := Closing(j, Completed), completed := s.completed + [j])
      && Enabled(t, Worker(Next))
      && Step(t, Worker(Next)) == t.(pc := LeavingActive(Completed), closed := s.closed + [j])
  {
    TallyGotos(j);
    hide Goto;
  }

  lemma TallyGotos(j: Job)
    ensures Goto(Stt, Tallying(j, Completed), Next) == Some(Closing(j, Completed))
    ensures Goto(Stt, Closing(j, Completed), Next) == Some(LeavingActive(Completed))
  {
  }

  lemma JoinsAudio(s: Session, j: Job) returns (run: seq<Action>)
    requires s.pc == Selecting(j) && j in s.done && s.audio == AudioDone(j)
    ensures Leads(s, run, s.(pc := Signalling(j, Completed)))
  {
    hide Leads, Enabled, Step, Goto;
    EndGotos(j);
    Nothing(s);
    PlainStep(s, SeeJobDone, JoiningAudio(j));
    run := Extend(s, [], s, Worker(SeeJobDone));
    var t := s.(pc := JoiningAudio(j));
    PlainStep(t, Next, Signalling(j, Completed));
    run := Extend(s, run, t, Worker(Next));
  }

  lemma Clears(s: Session, j: Job) returns (run: seq<Action>)
    requires s.pc == Signalling(j, Completed) && j in s.done
    ensures Leads(s, run, s.(pc := AwaitingCallbacks(j, Completed), cb := None))
  {
    hide Leads, Enabled, Step, Goto;
    Nothing(s);
    ClearsCallbacks(s, j);
    assert s.done + {j} == s.done;
    run := Extend(s, [], s, Worker(Next));
    run := Extend(s, run, s.(pc := Clearing(j, Completed)), Worker(Next));
  }

  lemma Closes(s: Session, j: Job) returns (run: seq<Action>)
    requires s.pc == AwaitingCallbacks(j, Completed) && s.wg == 0 && j !in s.closed
    ensures Leads(s, run, s.(pc := LeavingActive(Completed), completed := s.completed + [j], closed := s.closed + [j]))
  {
    hide Leads, Enabled, Step, Goto;
    EndGotos(j);
    Nothing(s);
    PlainStep(s, Next, Tallying(j, Completed));
    run := Extend(s, [], s, Worker(Next));
    var t := s.(pc := Tallying(j, Completed));
    TalliesAndCloses(t, j);
    run := Extend(s, run, t, Worker(Next));
    run := Extend(s, run, t.(pc := Closing(j, Completed), completed := s.completed + [j]), Worker(Next));
  }

  lemma PopsAgain(s: Session) returns (run: seq<Action>)
    requires s.pc == LeavingActive(Completed)
    ensures Leads(s, run, s.(pc := Popping(Entering)))
  {
    hide Leads, Enabled, Step, Goto;
    LastGotos();
    Nothing(s);
    PlainStep(s, Next, EnteringIdle);
    run := Extend(s, [], s, Worker(Next));
    var t := s.(pc := EnteringIdle);
    PlainStep(t, Next, Popping(Entering));
    run := Extend(s, run, t, Worker(Next));
  }

  lemma CompletesJob(s: Session, j: Job) returns (run: seq<Action>)
    requires s.pc == Selecting(j) && j in s.done && s.audio == AudioDone(j) && s.wg == 0 && j !in s.closed
    ensures Leads(s, run, s.(pc := Popping(Entering), cb := None,
                             completed := s.completed + [j], closed := s.closed + [j]))
  {
    hide Leads;
    run := JoinsAudio(s, j);
    var t := s.(pc := Signalling(j, Completed));
    var more := Clears(t, j);
    var u := t.(pc := AwaitingCallbacks(j, Completed), cb := None);
    Concat(s, run, t, more, u);
    run, t := run + more, u;
    more := Closes(t, j);
    u := t.(pc := LeavingActive(Completed), completed := s.completed + [j], closed := s.closed + [j]);
    Concat(s, run, t, more, u);
    run, t := run + more, u;
    more := PopsAgain(t);
    Concat(s, run, t, more, t.(pc := Popping(Entering)));
    run := run + more;
  }

  // ---------- Whole jobs ----------

  /** `s` after job `j` was recognised from `n` chunks as `text`. */
  function Served(s: Session, j: Job, n: nat, text: string): Session {
    var k := s.cur + 1;
    s.(popped := s.popped + [j], cur := k, captured := k, starts := s.starts + [j], served := k, settled := k,
       shut := s.shut + {k}, audio := AudioDone(j), drained := s.drained + {j}, done := s.done + {j},
       sent := s.sent + [FromServer(j, ResultMsg(k, text, true))], buffered := s.buffered[j := 1],
       completed := s.completed + [j], closed := s.closed + [j],
       events := s.events + [WroteStart(k)] + Chunks(n) + [WroteStop] + [HeardListening(k, k)])
  }

  lemma ServesJob(s: Session, j: Job, n: nat, text: string) returns (run: seq<Action>)
    requires Waiting(s) && j !in s.popped && j !in s.closed && j !in s.buffered
    requires j.capacity > 0 && j.payload.SttPayload? && text != ""
    ensures Leads(s, run, Served(s, j, n, text)) && Waiting(Served(s, j, n, text))
  {
    hide Leads;
    var k := s.cur + 1;
    run := StartsJob(s, j);
    var t := Serving(s, j);
    var more := FinishesAudio(t, j, n);
    var u := t.(audio := AudioDone(j), drained := s.drained + {j}, events := t.events + Chunks(n) + [WroteStop]);
    Concat(s, run, t, more, u);
    run, t := run + more, u;
    var m := ResultMsg(k, text, true);
    more := Recognises(t, j, m);
    u := t.(sent := s.sent + [FromServer(j, m)], buffered := s.buffered[j := 1], done := s.done + {j});
    Concat(s, run, t, more, u);
    run, t := run + more, u;
    more := GoesBackToListening(t);
    u := t.(settled := k, shut := s.shut + {k}, events := t.events + [HeardListening(k, k)]);
    Concat(s, run, t, more, u);
    run, t := run + more, u;
    more := CompletesJob(t, j);
    u := t.(pc := Popping(Entering), cb := None, completed := s.completed + [j], closed := s.closed + [j]);
    Concat(s, run, t, more, u);
    run := run + more;
  }

  lemma {:induction false} WritesOf(events: seq<Event>, more: seq<Event>)
    requires forall e | e in more :: !e.HeardListening?
    ensures Writes(events + more) == Writes(events) + more
  {
    if more == [] {
      assert events + more == events;
    } else {
      var front := more[..|more| - 1];
      WritesOf(events, front);
      assert (events + more)[..|events + more| - 1] == events + front;
    }
  }

  lemma WritesOfRound(events: seq<Event>, k: nat, n: nat, chunks: seq<nat>)
    requires Writes(events) == Rounds(chunks) && k == |chunks| + 1
    ensures Writes(events + [WroteStart(k)] + Chunks(n) + [WroteStop] + [HeardListening(k, k)]) == Rounds(chunks + [n])
  {
    hide Writes, Rounds, Round;
    var round := [WroteStart(k)] + Chunks(n) + [WroteStop];
    WritesOf(events, round);
    RoundIs(k, n);
    RoundsSnoc(chunks, n);
    assert events + [WroteStart(k)] + Chunks(n) + [WroteStop] == events + round;
    WritesListening(events + round, k);
  }

  lemma RoundIs(k: nat, n: nat)
    ensures Round(k, n) == [WroteStart(k)] + Chunks(n)
  {
  }

  lemma WritesListening(events: seq<Event>, k: nat)
    ensures Writes(events + [HeardListening(k, k)]) == Writes(events)
  {
    assert (events + [HeardListening(k, k)])[..|events|] == events;
  }

  /** The final results of the jobs, each from its own session. */
  function Results(jobs: seq<Job>, texts: seq<string>): seq<Delivery>
    requires |jobs| == |texts|
  {
    seq(|jobs|, i requires 0 <= i < |jobs| => FromServer(jobs[i], ResultMsg(i + 1, texts[i], true)))
  }

  /** The connection after it has completed exactly these jobs. */
  ghost predicate AllDone(s: Session, jobs: seq<Job>, texts: seq<string>, chunks: seq<nat>)
    requires |jobs| == |texts| == |chunks|
  {
    && Waiting(s) && s.cur == |jobs|
    && s.popped == jobs && s.starts == jobs && s.completed == jobs && s.closed == jobs
    && s.sent == Results(jobs, texts) && Writes(s.events) == Rounds(chunks)
    && (forall j | j in s.buffered :: j in jobs)
  }

  lemma CompletedMore(s: Session, jobs: seq<Job>, texts: seq<string>, chunks: seq<nat>, j: Job, text: string, n: nat)
    requires |jobs| == |texts| == |chunks| && AllDone(s, jobs, texts, chunks)
    requires Waiting(Served(s, j, n, text))
    ensures AllDone(Served(s, j, n, text), jobs + [j], texts + [text], chunks + [n])
  {
    hide Writes, Rounds, Waiting;
    SameCount(s);
    WritesOfRound(s.events, s.cur + 1, n, chunks);
    assert Results(jobs + [j], texts + [text]) ==
           Results(jobs, texts) + [FromServer(j, ResultMsg(s.cur + 1, text, true))];
  }

  lemma SameCount(s: Session)
    requires Waiting(s)
    ensures s.cur == |s.starts|
  {
  }

  /** For any jobs, any number of audio chunks each and any results there is a run on one connection,
      with an honest server, that completes every job, in order, on the session that is its own,
      writes exactly one round per job, and is ready for the next. */
  lemma {:induction false} OneConnectionServesMany(jobs: seq<Job>, texts: seq<string>, chunks: seq<nat>)
      returns (run: seq<Action>)
    requires |jobs| == |texts| == |chunks| && Distinct(jobs) && forall i | 0 <= i < |texts| :: texts[i] != ""
    requires forall j | j in jobs :: j.capacity > 0 && j.payload.SttPayload?
    ensures ValidRun(Init(), run) && HonestRun(Init(), run)
    ensures AllDone(Exec(Init(), run), jobs, texts, chunks)
    decreases |jobs|
  {
    hide ValidRun, HonestRun, Exec, Waiting, AllDone, Enabled, Step;
    if jobs == [] {
      run := Arms();
    } else {
      var n := |jobs| - 1;
      var j, text, c := jobs[n], texts[n], chunks[n];
      assert forall i | 0 <= i < n :: texts[..n][i] == texts[i];
      run := OneConnectionServesMany(jobs[..n], texts[..n], chunks[..n]);
      var s := Exec(Init(), run);
      AllOthers(s, jobs, texts[..n], chunks[..n]);
      var more := ServesJob(s, j, c, text);
      CompletedMore(s, jobs[..n], texts[..n], chunks[..n], j, text, c);
      Reads(run, s);
      Concat(Init(), run, s, more, Served(s, j, c, text));
      run := run + more;
      assert jobs == jobs[..n] + [j] && texts == texts[..n] + [text] && chunks == chunks[..n] + [c];
    }
  }

  lemma Reads(run: seq<Action>, s: Session)
    requires ValidRun(Init(), run) && HonestRun(Init(), run) && Exec(Init(), run) == s
    ensures Leads(Init(), run, s)
  {
  }

  lemma AllOthers(s: Session, jobs: seq<Job>, texts: seq<string>, chunks: seq<nat>)
    requires jobs != [] && |jobs| == |texts| + 1 == |chunks| + 1 && Distinct(jobs)
    requires AllDone(s, jobs[..|jobs| - 1], texts, chunks)
    ensures var j := jobs[|jobs| - 1]; Waiting(s) && j !in s.popped && j !in s.closed && j !in s.buffered
  {
    hide Writes, Rounds;
  }

  /** The connection comes up: the reader starts and the pre-closed channel is captured. */
  lemma Arms() returns (run: seq<Action>)
    ensures ValidRun(Init(), run) && HonestRun(Init(), run) && AllDone(Exec(Init(), run), [], [], [])
  {
    hide Enabled, Step, Leads;
    var s := Init();
    Nothing(s);
    ArmsReader(s);
    run := Extend(s, [], s, Worker(Next));
    var t := s.(pc := GoingIdle, reader := Reading);
    run := Extend(s, run, t, Worker(Next));
    t := t.(pc := Capturing);
    run := Extend(s, run, t, Worker(Next));
    t := t.(pc := Popping(Entering), captured := 0);
    assert Writes([]) == [] && Rounds([]) == [] && Results([], []) == [];
    LeadsMeans(s, run, t);
  }

  lemma LeadsMeans(s: Session, run: seq<Action>, t: Session)
    requires Leads(s, run, t)
    ensures ValidRun(s, run) && HonestRun(s, run) && Exec(s, run) == t
  {
  }

  lemma ArmsReader(s: Session)
    requires s.pc == Arming
    ensures Enabled(s, Worker(Next))
    ensures var t := s.(pc := GoingIdle, reader := Reading);
      && Step(s, Worker(Next)) == t && Enabled(t, Worker(Next))
      && var u := t.(pc := Capturing);
         && Step(t, Worker(Next)) == u && Enabled(u, Worker(Next))
         && Step(u, Worker(Next)) == u.(pc := Popping(Entering), captured := s.cur)
  {
    hide Goto;
    ArmGotos();
  }

  lemma ArmGotos()
    ensures Goto(Stt, Arming, Next) == Some(GoingIdle) && Goto(Stt, GoingIdle, Next) == Some(Capturing)
    ensures Goto(Stt, Capturing, Next) == Some(Popping(Entering))
  {
  }
}
