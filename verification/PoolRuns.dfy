/** Runs of a pool that show where its drain guarantees end, for any number of workers. */
module PoolRuns {
  import opened Jobs
  import opened PriorityQueues
  import opened Workers
  import opened Pools
  import opened PoolSafety
  import opened PoolDrain

  // ---------- Runs built step by step ----------

  /** `run` leads from `s` to `t`. */
  ghost predicate Leads(s: Pool, run: seq<Action>, t: Pool) {
    ValidRun(s, run) && Exec(s, run) == t
  }

  lemma Nothing(s: Pool)
    ensures Leads(s, [], s)
  {
  }

  lemma One(s: Pool, a: Action)
    requires Enabled(s, a)
    ensures Leads(s, [a], Step(s, a))
  {
    hide Enabled, Step;
    assert [a][0] == a && [a][1..] == [];
    var t := Step(s, a);
    assert ValidRun(t, []) && Exec(t, []) == t;
  }

  lemma {:induction false} Concat(s: Pool, first: seq<Action>, t: Pool, second: seq<Action>, u: Pool)
    requires Leads(s, first, t) && Leads(t, second, u)
    ensures Leads(s, first + second, u)
    decreases first
  {
    hide Enabled, Step;
    if first == [] {
      assert first + second == second;
    } else {
      assert (first + second)[1..] == first[1..] + second;
      Concat(Step(s, first[0]), first[1..], t, second, u);
    }
  }

  lemma Extend(s: Pool, run: seq<Action>, t: Pool, a: Action) returns (longer: seq<Action>)
    requires Leads(s, run, t) && Enabled(t, a)
    ensures Leads(s, longer, Step(t, a))
  {
    hide Enabled, Step, Leads;
    One(t, a);
    longer := run + [a];
    Concat(s, run, t, [a], Step(t, a));
  }

  // ---------- One worker inside pop, the queue empty ----------

  lemma SeesEmpty(s: Pool, w: nat)
    requires w < |s.pcs| && s.pcs[w] == Popping(Entering) && s.lock == None && s.queue == []
    ensures Enabled(s, Acquire(w))
    ensures Step(s, Acquire(w)) == s.(lock := Some(w), pcs := s.pcs[w := Popping(SawEmpty)])
  {
    hide Goto, DoWork, GiveUp, WorkGuard, Enqueue, WakeAll;
  }

  lemma SeesNoCancel(s: Pool, w: nat)
    requires w < |s.pcs| && s.pcs[w] == Popping(SawEmpty) && !s.cancelled
    ensures Enabled(s, LookCancel(w)) && Step(s, LookCancel(w)) == s.(pcs := s.pcs[w := Popping(SawNoCancel)])
  {
    hide Goto, DoWork, GiveUp, WorkGuard, Enqueue, WakeAll;
  }

  lemma SeesDraining(s: Pool, w: nat)
    requires w < |s.pcs| && s.pcs[w] == Popping(SawNoCancel)
    ensures Enabled(s, LookDrain(w))
    ensures Step(s, LookDrain(w)) == if s.draining then GiveUp(s, w) else s.(pcs := s.pcs[w := Popping(Parking)])
  {
    hide Goto, DoWork, GiveUp, WorkGuard, Enqueue, WakeAll;
  }

  lemma Parks(s: Pool, w: nat)
    requires w < |s.pcs| && s.pcs[w] == Popping(Parking)
    ensures Enabled(s, Park(w)) && Step(s, Park(w)) == s.(lock := None, pcs := s.pcs[w := Popping(Asleep)])
  {
    hide Goto, DoWork, GiveUp, WorkGuard, Enqueue, WakeAll;
  }

  lemma SetsFlag(s: Pool)
    requires !s.draining
    ensures Enabled(s, SetDraining)
    ensures Step(s, SetDraining) == s.(draining := true, flagAt := |s.pushed|, atFlag := s.inflight)
  {
    hide Goto, DoWork, GiveUp, WorkGuard, Enqueue, WakeAll;
  }

  lemma Broadcasts(s: Pool, w: nat)
    requires s.lock == Some(w) && w < |s.pcs| && s.pcs[w] == Popping(Parking) && s.draining && !s.drainWoke
    requires forall v | 0 <= v < |s.pcs| :: s.pcs[v] != Popping(Asleep)
    ensures Enabled(s, DrainBroadcast) && Step(s, DrainBroadcast) == s.(drainWoke := true, straggler := Some(w))
  {
    hide Goto, DoWork, GiveUp, WorkGuard, Enqueue;
    assert WakeAll(s.pcs) == s.pcs;
  }

  // ---------- A TTS worker that sleeps through the drain ----------

  /** Worker `w` looks into the empty queue and is about to wait. */
  lemma AboutToWait(s: Pool, w: nat) returns (run: seq<Action>)
    requires w < |s.pcs| && s.pcs[w] == Popping(Entering)
    requires s.lock == None && s.queue == [] && !s.draining && !s.cancelled
    ensures Leads(s, run, s.(lock := Some(w), pcs := s.pcs[w := Popping(Parking)]))
  {
    hide Enabled, Step, Leads;
    Nothing(s);
    SeesEmpty(s, w);
    run := Extend(s, [], s, Acquire(w));
    var t := s.(lock := Some(w), pcs := s.pcs[w := Popping(SawEmpty)]);
    SeesNoCancel(t, w);
    run := Extend(s, run, t, LookCancel(w));
    t := s.(lock := Some(w), pcs := s.pcs[w := Popping(SawNoCancel)]);
    assert s.pcs[w := Popping(SawEmpty)][w := Popping(SawNoCancel)] == s.pcs[w := Popping(SawNoCancel)];
    SeesDraining(t, w);
    run := Extend(s, run, t, LookDrain(w));
    assert s.pcs[w := Popping(SawNoCancel)][w := Popping(Parking)] == s.pcs[w := Popping(Parking)];
  }

  /** It waits only after Drain has set the flag and broadcast. */
  lemma ParkBehindBroadcast(s: Pool, w: nat) returns (run: seq<Action>)
    requires s.lock == Some(w) && w < |s.pcs| && s.pcs[w] == Popping(Parking)
    requires forall v | 0 <= v < |s.pcs| :: s.pcs[v] != Popping(Asleep)
    requires !s.draining && !s.drainWoke
    ensures Leads(s, run, s.(lock := None, pcs := s.pcs[w := Popping(Asleep)], draining := true,
                             flagAt := |s.pushed|, atFlag := s.inflight, drainWoke := true, straggler := Some(w)))
  {
    hide Enabled, Step, Leads;
    Nothing(s);
    SetsFlag(s);
    run := Extend(s, [], s, SetDraining);
    var t := s.(draining := true, flagAt := |s.pushed|, atFlag := s.inflight);
    Broadcasts(t, w);
    run := Extend(s, run, t, DrainBroadcast);
    t := t.(drainWoke := true, straggler := Some(w));
    Parks(t, w);
    run := Extend(s, run, t, Park(w));
  }

  lemma EmptyHandedExit(s: Pool, w: nat) returns (run: seq<Action>)
    requires w < |s.pcs| && s.pcs[w] == Popping(Entering)
    requires s.kind.Tts? && s.lock == None && s.queue == [] && s.draining && !s.cancelled
    ensures Leads(s, run, s.(gaveUp := true, lastEmpty := |s.pushed|, pcs := s.pcs[w := Exited]))
  {
    hide Enabled, Step, Leads;
    Nothing(s);
    SeesEmpty(s, w);
    run := Extend(s, [], s, Acquire(w));
    var t := s.(lock := Some(w), pcs := s.pcs[w := Popping(SawEmpty)]);
    SeesNoCancel(t, w);
    run := Extend(s, run, t, LookCancel(w));
    t := s.(lock := Some(w), pcs := s.pcs[w := Popping(SawNoCancel)]);
    assert s.pcs[w := Popping(SawEmpty)][w := Popping(SawNoCancel)] == s.pcs[w := Popping(SawNoCancel)];
    SeesDraining(t, w);
    run := Extend(s, run, t, LookDrain(w));
    assert s.pcs[w := Popping(SawNoCancel)][w := Exited] == s.pcs[w := Exited];
  }

  /** Workers from `k` on find the drained queue empty and exit. */
  lemma {:induction false} RestExit(s: Pool, k: nat) returns (run: seq<Action>, t: Pool)
    requires 1 <= k <= |s.pcs| && s.pcs[0] == Popping(Asleep)
    requires forall v | 1 <= v < k :: s.pcs[v] == Exited
    requires forall v | k <= v < |s.pcs| :: s.pcs[v] == Popping(Entering)
    requires s.kind.Tts? && s.lock == None && s.queue == [] && s.draining && !s.cancelled
    ensures Leads(s, run, t) && |t.pcs| == |s.pcs| && t.pcs[0] == Popping(Asleep)
    ensures forall v | 1 <= v < |t.pcs| :: t.pcs[v] == Exited
    ensures t == s.(gaveUp := t.gaveUp, lastEmpty := t.lastEmpty, pcs := t.pcs)
    decreases |s.pcs| - k
  {
    hide Leads;
    if k == |s.pcs| {
      Nothing(s);
      run, t := [], s;
    } else {
      run := EmptyHandedExit(s, k);
      var u := s.(gaveUp := true, lastEmpty := |s.pushed|, pcs := s.pcs[k := Exited]);
      var more;
      more, t := RestExit(u, k + 1);
      Concat(s, run, u, more, t);
      run := run + more;
    }
  }

  /** Why "at most one straggler" is not "none", for any number of workers: Drain broadcasts
      without the queue lock, so a worker can fall asleep right after it, all others exit, and
      then nothing but cancelling ctx is left. */
  lemma DrainCanStrandAWorker(conns: nat) returns (run: seq<Action>)
    requires conns > 0
    ensures ValidRun(Init(Tts, conns), run)
    ensures var s := Exec(Init(Tts, conns), run);
      && s.drainWoke && !s.cancelled && s.pushed == [] && s.inflight == {} && AtRest(s, 0)
      && (forall a :: Enabled(s, a) ==> a == Cancel)
  {
    hide Goto, DoWork, Step, Enabled;
    var s := Init(Tts, conns);
    run := AboutToWait(s, 0);
    var t := s.(lock := Some(0), pcs := s.pcs[0 := Popping(Parking)]);
    var more := ParkBehindBroadcast(t, 0);
    var u := t.(lock := None, pcs := t.pcs[0 := Popping(Asleep)], draining := true,
                flagAt := |t.pushed|, atFlag := t.inflight, drainWoke := true, straggler := Some(0));
    Concat(s, run, t, more, u);
    run := run + more;
    var last, v := RestExit(u, 1);
    Concat(s, run, u, last, v);
    run := run + last;
    forall a | Enabled(v, a) ensures a == Cancel {
      RestingCannotAct(v, a);
    }
  }

  lemma RestingCannotAct(s: Pool, a: Action)
    requires Enabled(s, a) && s.drainWoke && s.draining && !s.cancelled && s.inflight == {}
    requires forall v | 0 <= v < |s.pcs| :: s.pcs[v] == Popping(Asleep) || s.pcs[v] == Exited
    ensures a == Cancel
  {
    hide DoWork;
  }

  // ---------- Paths through the worker program ----------

  /** The worker leaves program point `pc` by `ops`, one after the other. */
  ghost predicate Path(kind: Kind, pc: Pc, ops: seq<Op>, end: Pc)
    decreases ops
  {
    if ops == [] then pc == end
    else !pc.Popping? && Goto(kind, pc, ops[0]).Some? && Path(kind, Goto(kind, pc, ops[0]).value, ops[1..], end)
  }

  /** Nothing that one worker's path leaves alone has changed but what its steps count. */
  ghost predicate SameAround(s: Pool, t: Pool) {
    && t.kind == s.kind && t.queue == s.queue && t.pushed == s.pushed && t.inflight == s.inflight
    && t.lock == s.lock && t.draining == s.draining && t.cancelled == s.cancelled
    && t.gaveUp == s.gaveUp && t.atFlag == s.atFlag
  }

  /** Such a path is a run of the pool, as long as it waits for no cancellation or decision. */
  lemma {:induction false} PathRuns(s: Pool, w: nat, ops: seq<Op>, end: Pc) returns (run: seq<Action>, t: Pool)
    requires w < |s.pcs| && Path(s.kind, s.pcs[w], ops, end)
    requires forall op | op in ops :: op != SeeCtx && op != Quit && op != Reconnect
    ensures Leads(s, run, t) && t.pcs == s.pcs[w := end] && SameAround(s, t)
    decreases ops
  {
    hide Goto, Step, Enabled, ActiveDelta, IdleDelta, CountsCompleted, CountsError, ClosesResult, ClosesUntallied,
         Held, Leads;
    if ops == [] {
      Nothing(s);
      run, t := [], s;
    } else {
      var op := ops[0];
      assert op in ops;
      PathStep(s, w, op);
      One(s, Work(w, op));
      var u := Step(s, Work(w, op));
      WorkStep(s, w, op);
      assert forall o | o in ops[1..] :: o in ops;
      var rest;
      rest, t := PathRuns(u, w, ops[1..], end);
      Concat(s, [Work(w, op)], u, rest, t);
      run := [Work(w, op)] + rest;
    }
  }

  lemma PathStep(s: Pool, w: nat, op: Op)
    requires w < |s.pcs| && !s.pcs[w].Popping? && Goto(s.kind, s.pcs[w], op).Some?
    requires op != SeeCtx && op != Quit && op != Reconnect
    ensures Enabled(s, Work(w, op)) && SameAround(s, Step(s, Work(w, op)))
  {
    hide ActiveDelta, IdleDelta, CountsCompleted, CountsError, ClosesResult, ClosesUntallied, Enqueue, WakeAll, GiveUp;
  }

  lemma ArmPath()
    ensures Path(Stt, Arming, [Next, Next, Next], Popping(Entering))
  {
    assert [Next, Next, Next][1..] == [Next, Next];
    assert [Next, Next][1..] == [Next];
    assert [Next][1..] == [];
  }

  function DropOps(): seq<Op> {
    [Next, Next, Next, SeeConnErr, Next, Next, Next, Next, Next, Next]
  }

  lemma DropPath(j: Job)
    requires j.payload.SttPayload?
    ensures Path(Stt, Checking(j), DropOps(), Deciding(true))
  {
    hide Goto;
    DropGotos(j);
    LeaveGotos(j);
    HangUpGotos();
    var ops := DropOps();
    assert Path(Stt, Deciding(true), ops[10..], Deciding(true));
    PathCons(Stt, HangingUp(true), ops, 9, Deciding(true), Deciding(true));
    PathCons(Stt, JoiningReader(true), ops, 8, HangingUp(true), Deciding(true));
    PathCons(Stt, Cancelling(true), ops, 7, JoiningReader(true), Deciding(true));
    PathCons(Stt, LeavingActive(LostBeforeStart), ops, 6, Cancelling(true), Deciding(true));
    PathCons(Stt, Closing(j, LostBeforeStart), ops, 5, LeavingActive(LostBeforeStart), Deciding(true));
    PathCons(Stt, Apologising(j, LostBeforeStart), ops, 4, Closing(j, LostBeforeStart), Deciding(true));
    PathCons(Stt, AwaitingListening(j), ops, 3, Apologising(j, LostBeforeStart), Deciding(true));
    PathCons(Stt, EnteringActive(j), ops, 2, AwaitingListening(j), Deciding(true));
    PathCons(Stt, LeavingIdle(j), ops, 1, EnteringActive(j), Deciding(true));
    PathCons(Stt, Checking(j), ops, 0, LeavingIdle(j), Deciding(true));
    assert ops[0..] == ops;
  }

  lemma DropGotos(j: Job)
    requires j.payload.SttPayload?
    ensures Goto(Stt, Checking(j), Next) == Some(LeavingIdle(j))
    ensures Goto(Stt, LeavingIdle(j), Next) == Some(EnteringActive(j))
    ensures Goto(Stt, EnteringActive(j), Next) == Some(AwaitingListening(j))
    ensures Goto(Stt, AwaitingListening(j), SeeConnErr) == Some(Apologising(j, LostBeforeStart))
    ensures Goto(Stt, Apologising(j, LostBeforeStart), Next) == Some(Closing(j, LostBeforeStart))
  {
  }

  lemma LeaveGotos(j: Job)
    ensures Goto(Stt, Closing(j, LostBeforeStart), Next) == Some(LeavingActive(LostBeforeStart))
    ensures Goto(Stt, LeavingActive(LostBeforeStart), Next) == Some(Cancelling(true))
  {
  }

  lemma HangUpGotos()
    ensures Goto(Stt, Cancelling(true), Next) == Some(JoiningReader(true))
    ensures Goto(Stt, JoiningReader(true), Next) == Some(HangingUp(true))
    ensures Goto(Stt, HangingUp(true), Next) == Some(Deciding(true))
  {
  }

  lemma PathCons(kind: Kind, pc: Pc, ops: seq<Op>, i: nat, next: Pc, end: Pc)
    requires i < |ops| && !pc.Popping? && Goto(kind, pc, ops[i]) == Some(next) && Path(kind, next, ops[i + 1..], end)
    ensures Path(kind, pc, ops[i..], end)
  {
    hide Goto;
    assert ops[i..][1..] == ops[i + 1..];
  }

  // ---------- STT workers that all leave with work queued ----------

  /** The first `k` workers are at `done`, the others at `todo`. */
  ghost predicate Sweep(s: Pool, k: nat, done: Pc, todo: Pc) {
    && k <= |s.pcs|
    && (forall v | 0 <= v < k :: s.pcs[v] == done)
    && (forall v | k <= v < |s.pcs| :: s.pcs[v] == todo)
  }

  lemma {:induction false} ArmAll(s: Pool, k: nat) returns (run: seq<Action>, t: Pool)
    requires s.kind.Stt? && Sweep(s, k, Popping(Entering), Arming)
    ensures Leads(s, run, t) && |t.pcs| == |s.pcs| && Sweep(t, |t.pcs|, Popping(Entering), Arming) && SameAround(s, t)
    decreases |s.pcs| - k
  {
    hide Leads, Path;
    if k == |s.pcs| {
      Nothing(s);
      run, t := [], s;
    } else {
      ArmPath();
      var u;
      run, u := PathRuns(s, k, [Next, Next, Next], Popping(Entering));
      var more;
      more, t := ArmAll(u, k + 1);
      Concat(s, run, u, more, t);
      run := run + more;
    }
  }

  /** A submit and its push with no sleeper around. */
  lemma Pushes(s: Pool, j: Job)
    requires forall v | 0 <= v < |s.pcs| :: s.pcs[v] != Popping(Asleep)
    requires s.lock == None && s.inflight == {} && !s.draining && j !in s.pushed
    ensures Enabled(s, PassDrainCheck(j)) && Step(s, PassDrainCheck(j)) == s.(inflight := {j})
    ensures var t := s.(inflight := {j});
      && Enabled(t, Push(j, None))
      && Step(t, Push(j, None)) ==
           s.(seqNo := s.seqNo + 1, queue := Enqueue(s.queue, JobItem(j, j.priority, s.seqNo + 1)),
              pushed := s.pushed + [j])
  {
    hide Goto, DoWork, GiveUp, WorkGuard, Enqueue, WakeAll;
    assert {j} - {j} == {};
  }

  ghost predicate SttQueue(s: Pool) {
    forall x | x in s.queue :: x.job.payload.SttPayload?
  }

  /** Submit jobs[k..] to a pool whose workers are all about to enter pop. */
  lemma {:induction false} PushJobs(s: Pool, jobs: seq<Job>, k: nat) returns (run: seq<Action>, t: Pool)
    requires Distinct(jobs) && k <= |jobs| && s.pushed == jobs[..k]
    requires forall j | j in jobs :: j.payload.SttPayload?
    requires Sweep(s, |s.pcs|, Popping(Entering), Arming) && s.lock == None && s.inflight == {} && !s.draining
    requires |s.queue| == k && SttQueue(s)
    ensures Leads(s, run, t) && t.pushed == jobs && |t.queue| == |jobs| && SttQueue(t)
    ensures t == s.(seqNo := t.seqNo, queue := t.queue, pushed := t.pushed)
    decreases |jobs| - k
  {
    hide Leads, Enabled, Step, Enqueue;
    if k == |jobs| {
      Nothing(s);
      run, t := [], s;
      assert jobs[..k] == jobs;
    } else {
      var j := jobs[k];
      assert j !in s.pushed;
      Pushes(s, j);
      Nothing(s);
      run := Extend(s, [], s, PassDrainCheck(j));
      run := Extend(s, run, s.(inflight := {j}), Push(j, None));
      var x := JobItem(j, j.priority, s.seqNo + 1);
      var u := s.(seqNo := s.seqNo + 1, queue := Enqueue(s.queue, x), pushed := s.pushed + [j]);
      forall y | y in u.queue ensures y.job.payload.SttPayload? {
        assert y in multiset(u.queue);
        assert y in s.queue || y == x;
      }
      assert jobs[..k + 1] == jobs[..k] + [j];
      var more;
      more, t := PushJobs(u, jobs, k + 1);
      Concat(s, run, u, more, t);
      run := run + more;
    }
  }

  lemma Pops(s: Pool, w: nat)
    requires w < |s.pcs| && s.pcs[w] == Popping(Entering) && s.lock == None && s.queue != []
    ensures Enabled(s, Acquire(w))
    ensures var j := s.queue[0].job;
      Step(s, Acquire(w)) == s.(queue := s.queue[1..], popped := s.popped + [j], pcs := s.pcs[w := Checking(j)])
  {
    hide Goto, DoWork, GiveUp, WorkGuard, Enqueue, WakeAll;
  }

  /** Each worker from `k` on pops a job and loses its connection. */
  lemma {:induction false} DropAll(s: Pool, k: nat) returns (run: seq<Action>, t: Pool)
    requires s.kind.Stt? && Sweep(s, k, Deciding(true), Popping(Entering)) && s.lock == None
    requires |s.queue| >= |s.pcs| - k && SttQueue(s)
    ensures Leads(s, run, t) && |t.pcs| == |s.pcs| && Sweep(t, |t.pcs|, Deciding(true), Popping(Entering))
    ensures |t.queue| == |s.queue| - (|s.pcs| - k) && SameAround(s.(queue := t.queue), t)
    decreases |s.pcs| - k
  {
    hide Leads, Enabled, Step, Path, Goto;
    if k == |s.pcs| {
      Nothing(s);
      run, t := [], s;
    } else {
      Pops(s, k);
      var j := s.queue[0].job;
      assert s.queue[0] in s.queue;
      Nothing(s);
      run := Extend(s, [], s, Acquire(k));
      var u := Step(s, Acquire(k));
      DropPath(j);
      var drop, v := PathRuns(u, k, DropOps(), Deciding(true));
      Concat(s, run, u, drop, v);
      var more;
      more, t := DropAll(v, k + 1);
      Concat(s, run + drop, v, more, t);
      run := run + drop + more;
    }
  }

  lemma Quits(s: Pool, w: nat)
    requires w < |s.pcs| && s.pcs[w] == Deciding(true) && s.draining
    ensures Enabled(s, Work(w, Quit))
    ensures Step(s, Work(w, Quit)) == s.(pcs := s.pcs[w := Exited])
  {
    hide GiveUp, WakeAll, Enqueue;
  }

  lemma {:induction false} QuitAll(s: Pool, k: nat) returns (run: seq<Action>, t: Pool)
    requires s.draining && Sweep(s, k, Exited, Deciding(true))
    ensures Leads(s, run, t) && |t.pcs| == |s.pcs| && Sweep(t, |t.pcs|, Exited, Deciding(true)) && SameAround(s, t)
    decreases |s.pcs| - k
  {
    hide Leads, Enabled, Step;
    if k == |s.pcs| {
      Nothing(s);
      run, t := [], s;
    } else {
      Quits(s, k);
      Nothing(s);
      run := Extend(s, [], s, Work(k, Quit));
      var u := s.(pcs := s.pcs[k := Exited]);
      var more;
      more, t := QuitAll(u, k + 1);
      Concat(s, run, u, more, t);
      run := run + more;
    }
  }

  /** The condition of PoolDrain.NilDrainWithoutCancel cannot be dropped for STT: with any number
      of workers and any jobs beyond one each, every worker can leave after a dropped connection
      and Drain return nil with all the other jobs still queued. */
  lemma SttDrainCanLeaveJobs(conns: nat, jobs: seq<Job>) returns (run: seq<Action>)
    requires conns > 0 && Distinct(jobs) && |jobs| >= conns && forall j | j in jobs :: j.payload.SttPayload?
    ensures ValidRun(Init(Stt, conns), run)
    ensures var s := Exec(Init(Stt, conns), run);
      && AllExited(s) && s.draining && !s.cancelled && !s.gaveUp && s.atFlag == {}
      && s.pushed == jobs && |s.queue| == |jobs| - conns
  {
    hide Leads, Step, Enabled, Distinct;
    var s := Init(Stt, conns);
    assert jobs[..0] == [];
    var t, u, more;
    run, t := ArmAll(s, 0);
    more, u := PushJobs(t, jobs, 0);
    Concat(s, run, t, more, u);
    run, t := run + more, u;
    more, u := DropAll(t, 0);
    Concat(s, run, t, more, u);
    run, t := run + more, u;
    SetsFlag(t);
    run := Extend(s, run, t, SetDraining);
    t := t.(draining := true, flagAt := |t.pushed|, atFlag := t.inflight);
    more, u := QuitAll(t, 0);
    Concat(s, run, t, more, u);
    run := run + more;
    Reads(s, run, u);
  }

  lemma Reads(s: Pool, run: seq<Action>, t: Pool)
    requires Leads(s, run, t)
    ensures ValidRun(s, run) && Exec(s, run) == t
  {
  }

  // ---------- An STT worker that dials for ever ----------

  lemma Redials(s: Pool, w: nat)
    requires s.kind.Stt? && w < |s.pcs| && s.pcs[w] == Deciding(true) && !s.draining
    ensures Enabled(s, Work(w, Reconnect)) && Step(s, Work(w, Reconnect)) == s.(pcs := s.pcs[w := Dialing])
  {
    hide GiveUp, WakeAll, Enqueue;
  }

  lemma {:induction false} FailedDials(s: Pool, w: nat, n: nat) returns (run: seq<Action>)
    requires w < |s.pcs| && s.pcs[w] == Dialing
    ensures Leads(s, run, s) && |run| == n && forall a | a in run :: FailedDial(s, a)
  {
    hide Leads, Enabled, Step;
    if n == 0 {
      Nothing(s);
      run := [];
    } else {
      var more := FailedDials(s, w, n - 1);
      DialAgain(s, Work(w, Failed));
      One(s, Work(w, Failed));
      run := [Work(w, Failed)] + more;
      Concat(s, [Work(w, Failed)], s, more, s);
    }
  }

  /** The exception in PoolDrain.DrainEnds is real: a worker that decided to reconnect just before
      the flag keeps dialing, any number of times, until ctx is cancelled or the endpoint answers. */
  lemma SttDrainCanDialForever(j: Job, n: nat) returns (before: seq<Action>, dials: seq<Action>)
    requires j.payload.SttPayload?
    ensures ValidRun(Init(Stt, 1), before) && ValidRun(Exec(Init(Stt, 1), before), dials) && |dials| == n
    ensures var s := Exec(Init(Stt, 1), before);
      && s.draining && !s.cancelled && s.inflight == {} && s.queue == []
      && Exec(s, dials) == s && forall a | a in dials :: FailedDial(s, a)
  {
    hide Leads, Step, Enabled;
    var s := Init(Stt, 1);
    assert [j][..0] == [];
    var t, u, more;
    before, t := ArmAll(s, 0);
    more, u := PushJobs(t, [j], 0);
    Concat(s, before, t, more, u);
    before, t := before + more, u;
    more, u := DropAll(t, 0);
    Concat(s, before, t, more, u);
    before, t := before + more, u;
    Redials(t, 0);
    before := Extend(s, before, t, Work(0, Reconnect));
    t := t.(pcs := t.pcs[0 := Dialing]);
    SetsFlag(t);
    before := Extend(s, before, t, SetDraining);
    t := t.(draining := true, flagAt := |t.pushed|, atFlag := t.inflight);
    dials := FailedDials(t, 0, n);
    Reads(s, before, t);
    Reads(t, dials, t);
  }
}
