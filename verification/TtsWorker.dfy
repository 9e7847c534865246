/** The TTS worker's loop as one uninterrupted worker of a draining pool runs it, tied on one
    side to the queue it empties and on the other to the step-by-step worker program. */
module TtsWorkers {
  import opened Jobs
  import opened PriorityQueues
  import opened Workers

  /** A pool's counters, and the ResultCh closed, in order. */
  datatype Books = Books(active: int, completed: int, errors: int, closed: seq<Job>)

  /** The books after one job whose synthesis call answers `ok`. */
  function Served(b: Books, job: Job, ok: bool): Books {
    if !job.payload.TtsPayload? then b.(closed := b.closed + [job])
    else b.(completed := b.completed + Flag(ok), errors := b.errors + Flag(!ok), closed := b.closed + [job])
  }

  function ServedAll(b: Books, jobs: seq<Job>, answers: Job -> bool): Books
    decreases |jobs|
  {
    if jobs == [] then b else ServedAll(Served(b, jobs[0], answers(jobs[0])), jobs[1..], answers)
  }

  class TtsPool {
    const queue: PriorityQueue
    var active: int
    var completed: int
    var errors: int
    var closed: seq<Job>      // ResultCh closings

    constructor ()
      ensures fresh(queue) && queue.Valid() && queue.order == [] && queue.seqNo == 0 && Now() == Books(0, 0, 0, [])
    {
      queue := new PriorityQueue();
      active, completed, errors, closed := 0, 0, 0, [];
    }

    function Now(): Books
      reads this
    {
      Books(active, completed, errors, closed)
    }

    /** One job, start to finish. */
    method Serve(job: Job, ok: bool)
      modifies this
      ensures Now() == Served(old(Now()), job, ok)
    {
      if !job.payload.TtsPayload? {
        closed := closed + [job];
        return;
      }
      active := active + 1;
      // SynthesizeWithOptions
      active := active - 1;
      if !ok {
        errors := errors + 1;
      } else {
        completed := completed + 1;
      }
      closed := closed + [job];
    }

    /** Pop until the drained queue is empty; `answers` is the backend. */
    method RunWorker(answers: Job -> bool)
      requires queue.Valid()
      modifies this, queue
      ensures queue.Valid() && queue.order == []
      ensures Now() == ServedAll(old(Now()), JobsOf(old(queue.order)), answers)
    {
      hide PriorityQueue.Valid, Served;
      ghost var jobs, k := JobsOf(queue.order), 0;
      while true
        invariant queue.Valid() && k <= |jobs| && JobsOf(queue.order) == jobs[k..]
        invariant ServedAll(Now(), jobs[k..], answers) == ServedAll(old(Now()), jobs, answers)
        decreases |queue.order|
      {
        ghost var before, left := Now(), queue.order;
        var r := queue.TryPop();
        if r == None {
          break;
        }
        var job := r.value;
        assert JobsOf(left)[0] == job && JobsOf(left)[1..] == JobsOf(queue.order);
        var ok := answers(job);
        Serve(job, ok);
        assert jobs[k..][1..] == jobs[k + 1..];
        k := k + 1;
      }
    }
  }

  // ---------- The books, read back ----------

  function Count(jobs: seq<Job>, p: Job -> bool): nat {
    if jobs == [] then 0 else Flag(p(jobs[0])) + Count(jobs[1..], p)
  }

  function Succeeds(answers: Job -> bool): Job -> bool {
    (job: Job) => job.payload.TtsPayload? && answers(job)
  }

  function Fails(answers: Job -> bool): Job -> bool {
    (job: Job) => job.payload.TtsPayload? && !answers(job)
  }

  /** Every job is closed once, in the order served; completed and errors count the TTS jobs the
      backend answered and refused, and active is back where it was. */
  lemma {:induction false} BooksBalance(b: Books, jobs: seq<Job>, answers: Job -> bool)
    ensures ServedAll(b, jobs, answers) ==
      Books(b.active,
            b.completed + Count(jobs, Succeeds(answers)), b.errors + Count(jobs, Fails(answers)),
            b.closed + jobs)
    decreases |jobs|
  {
    if jobs == [] {
      assert b.closed + jobs == b.closed;
    } else {
      BooksBalance(Served(b, jobs[0], answers(jobs[0])), jobs[1..], answers);
      assert b.closed + jobs == b.closed + [jobs[0]] + jobs[1..];
    }
  }

  lemma {:induction false} CountEnqueue(q: seq<JobItem>, x: JobItem, p: Job -> bool)
    ensures Count(JobsOf(Enqueue(q, x)), p) == Count(JobsOf(q), p) + Flag(p(x.job))
  {
    if q == [] || q[0].pri < x.pri {
      assert JobsOf(Enqueue(q, x)) == [x.job] + JobsOf(q);
    } else {
      CountEnqueue(q[1..], x, p);
      assert JobsOf(Enqueue(q, x)) == [q[0].job] + JobsOf(Enqueue(q[1..], x));
      assert JobsOf(q) == [q[0].job] + JobsOf(q[1..]);
    }
  }

  lemma {:induction false} CountLast(jobs: seq<Job>, p: Job -> bool)
    requires jobs != []
    ensures Count(jobs, p) == Count(jobs[..|jobs| - 1], p) + Flag(p(jobs[|jobs| - 1]))
  {
    if |jobs| > 1 {
      CountLast(jobs[1..], p);
      assert jobs[1..][..|jobs| - 2] == jobs[..|jobs| - 1][1..];
    }
  }

  /** Dispatch order does not change how many jobs of a kind there are. */
  lemma {:induction false} CountSorted(jobs: seq<Job>, p: Job -> bool)
    ensures Count(JobsOf(StableOrder(Items(0, jobs))), p) == Count(jobs, p)
    decreases |jobs|
  {
    hide Enqueue;
    if jobs != [] {
      var n := |jobs| - 1;
      CountSorted(jobs[..n], p);
      CountLast(jobs, p);
      ItemsGrow(jobs, n);
      assert jobs[..n + 1] == jobs;
      CountEnqueue(StableOrder(Items(0, jobs[..n])), JobItem(jobs[n], jobs[n].priority, n + 1), p);
    }
  }

  /** A pool filled in some order and then drained by one worker closes the jobs in the stable
      descending-priority sort of that order, and its counters say how many of them the backend
      answered and refused. */
  method FillAndDrain(jobs: seq<Job>, answers: Job -> bool) returns (completed: int, errors: int, closed: seq<Job>)
    ensures closed == JobsOf(StableOrder(Items(0, jobs)))
    ensures IsStableSort(Items(0, jobs), StableOrder(Items(0, jobs)))
    ensures completed == Count(jobs, Succeeds(answers)) && errors == Count(jobs, Fails(answers))
  {
    hide PriorityQueue.Valid, ServedAll, StableOrder, Count;
    var pool := new TtsPool();
    PushAll(pool.queue, jobs);
    pool.RunWorker(answers);
    BooksBalance(Books(0, 0, 0, []), JobsOf(StableOrder(Items(0, jobs))), answers);
    CountSorted(jobs, Succeeds(answers));
    CountSorted(jobs, Fails(answers));
    StableOrderIsStableSort(Items(0, jobs));
    completed, errors, closed := pool.completed, pool.errors, pool.closed;
  }

  // ---------- The same loop, step by step ----------

  /** What the step leaving `pc` does to the books. */
  function Left(b: Books, pc: Pc): Books {
    Books(b.active + ActiveDelta(pc), b.completed + Flag(CountsCompleted(pc)), b.errors + Flag(CountsError(pc)),
          if ClosesResult(pc) then b.closed + [pc.job] else b.closed)
  }

  /** The program and the books after the given branches, if the program allows them. */
  function Walk(pc: Pc, ops: seq<Op>, b: Books): Option<(Pc, Books)>
    decreases |ops|
  {
    if ops == [] then Some((pc, b))
    else match Goto(Tts, pc, ops[0])
      case None => None
      case Some(next) => Walk(next, ops[1..], Left(b, pc))
  }

  function Turn(job: Job, ok: bool): seq<Op> {
    if job.payload.TtsPayload? then [Next, Next, CallReturned(ok), Next, Next, Next, Next] else [Next, Next]
  }

  lemma WalkOne(pc: Pc, ops: seq<Op>, b: Books)
    requires ops != [] && Goto(Tts, pc, ops[0]).Some?
    ensures Walk(pc, ops, b) == Walk(Goto(Tts, pc, ops[0]).value, ops[1..], Left(b, pc))
  {
  }

  /** The stretch of the program a TTS job takes. */
  lemma TtsProgram(job: Job, ok: bool)
    ensures Goto(Tts, Checking(job), Next) == Some(if job.payload.TtsPayload? then TtsEnter(job) else Rejecting(job))
    ensures Goto(Tts, Rejecting(job), Next) == Some(Popping(Entering)) == Goto(Tts, TtsClose(job, ok), Next)
    ensures Goto(Tts, TtsEnter(job), Next) == Some(TtsCall(job))
    ensures Goto(Tts, TtsCall(job), CallReturned(ok)) == Some(TtsLeave(job, ok))
    ensures Goto(Tts, TtsLeave(job, ok), Next) == Some(TtsCount(job, ok))
    ensures Goto(Tts, TtsCount(job, ok), Next) == Some(TtsSend(job, ok))
    ensures Goto(Tts, TtsSend(job, ok), Next) == Some(TtsClose(job, ok))
  {
  }

  lemma TtsLeft(b: Books, job: Job, ok: bool)
    ensures Left(b, Checking(job)) == b == Left(b, TtsCall(job)) == Left(b, TtsSend(job, ok))
    ensures Left(b, Rejecting(job)) == b.(closed := b.closed + [job]) == Left(b, TtsClose(job, ok))
    ensures Left(b, TtsEnter(job)) == b.(active := b.active + 1)
    ensures Left(b, TtsLeave(job, ok)) == b.(active := b.active - 1)
    ensures Left(b, TtsCount(job, ok)) ==
      b.(completed := b.completed + Flag(ok), errors := b.errors + Flag(!ok))
  {
  }

  /** One turn of the loop is one trip of the worker program from a popped job back to pop, with
      the same effect on the counters and on ResultCh. */
  lemma TurnFollowsProgram(job: Job, ok: bool, b: Books)
    ensures Walk(Checking(job), Turn(job, ok), b) == Some((Popping(Entering), Served(b, job, ok)))
  {
    hide Walk, Goto, Left;
    TtsProgram(job, ok);
    var t := Turn(job, ok);
    WalkOne(Checking(job), t, b);
    TtsLeft(b, job, ok);
    if job.payload.TtsPayload? {
      var b1 := b.(active := b.active + 1);
      TtsLeft(b1, job, ok);
      WalkOne(TtsEnter(job), t[1..], b);
      WalkOne(TtsCall(job), t[1..][1..], b1);
      WalkTail(job, ok, b1);
      assert t[1..][1..][1..] == [Next, Next, Next, Next];
    } else {
      WalkOne(Rejecting(job), t[1..], b);
      WalkNone(b.(closed := b.closed + [job]));
      assert t[1..][1..] == [];
    }
  }

  lemma WalkTail(job: Job, ok: bool, b: Books)
    ensures Walk(TtsLeave(job, ok), [Next, Next, Next, Next], b) ==
      Some((Popping(Entering), Books(b.active - 1, b.completed + Flag(ok), b.errors + Flag(!ok), b.closed + [job])))
  {
    hide Walk, Goto, Left;
    TtsProgram(job, ok);
    var t := [Next, Next, Next, Next];
    var b1 := b.(active := b.active - 1);
    var b2 := b1.(completed := b.completed + Flag(ok), errors := b.errors + Flag(!ok));
    TtsLeft(b, job, ok);
    TtsLeft(b1, job, ok);
    TtsLeft(b2, job, ok);
    WalkOne(TtsLeave(job, ok), t, b);
    WalkOne(TtsCount(job, ok), t[1..], b1);
    WalkOne(TtsSend(job, ok), t[1..][1..], b2);
    WalkOne(TtsClose(job, ok), t[1..][1..][1..], b2);
    WalkNone(b2.(closed := b.closed + [job]));
    assert t[1..][1..][1..][1..] == [];
  }

  lemma WalkNone(b: Books)
    ensures Walk(Popping(Entering), [], b) == Some((Popping(Entering), b))
  {
  }
}
