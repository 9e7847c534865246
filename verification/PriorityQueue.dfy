/** The broker's priority queue: a binary heap of job items whose observable
    behaviour is a stable, descending-priority list. */
module PriorityQueues {
  import opened Jobs

  datatype JobItem = JobItem(job: Job, pri: int, seqNo: nat)

  /** Dispatch order: higher priority first, earlier push first within one priority. */
  predicate Less(a: JobItem, b: JobItem) {
    if a.pri != b.pri then a.pri > b.pri else a.seqNo < b.seqNo
  }

  // ---------- The simple queue the heap refines ----------

  /** Insert behind every item of the same or a higher priority. */
  function Enqueue(q: seq<JobItem>, x: JobItem): (r: seq<JobItem>)
    ensures multiset(r) == multiset(q) + multiset{x}
    ensures |r| == |q| + 1
  {
    if q == [] || q[0].pri < x.pri then
      [x] + q
    else
      assert q == [q[0]] + q[1..];
      [q[0]] + Enqueue(q[1..], x)
  }

  ghost predicate Ordered(q: seq<JobItem>) {
    forall i, j | 0 <= i < j < |q| :: Less(q[i], q[j])
  }

  ghost predicate Below(q: seq<JobItem>, bound: nat) {
    forall x | x in q :: x.seqNo < bound
  }

  /** A fresh (largest) sequence number keeps the simple queue in dispatch order. */
  lemma {:induction false} EnqueueOrdered(q: seq<JobItem>, x: JobItem)
    requires Ordered(q) && Below(q, x.seqNo)
    ensures Ordered(Enqueue(q, x))
  {
    if q == [] || q[0].pri < x.pri {
      forall i | 0 <= i < |q| ensures Less(x, q[i]) {
        assert i == 0 || Less(q[0], q[i]);
      }
    } else {
      var t := q[1..];
      assert Ordered(t) && Below(t, x.seqNo);
      EnqueueOrdered(t, x);
      var r := Enqueue(t, x);
      forall y | y in r ensures Less(q[0], y) {
        assert y in multiset(r);
        assert y in t || y == x;
        assert q[0] in q;
      }
    }
  }

  /** Push the items one by one onto an empty simple queue. */
  function StableOrder(s: seq<JobItem>): (r: seq<JobItem>)
  {
    if s == [] then [] else Enqueue(StableOrder(s[..|s| - 1]), s[|s| - 1])
  }

  // ---------- What "stable sort" means, independently ----------

  function WithPriority(s: seq<JobItem>, p: int): (r: seq<JobItem>)
  {
    if s == [] then [] else (if s[0].pri == p then [s[0]] else []) + WithPriority(s[1..], p)
  }

  ghost predicate Descending(s: seq<JobItem>) {
    forall i, j | 0 <= i < j < |s| :: s[i].pri >= s[j].pri
  }

  /** `r` lists `s` by descending priority and keeps push order within each priority. */
  ghost predicate IsStableSort(s: seq<JobItem>, r: seq<JobItem>) {
    Descending(r) && forall p :: WithPriority(r, p) == WithPriority(s, p)
  }

  lemma {:induction false} WithPriorityAppend(s: seq<JobItem>, t: seq<JobItem>, p: int)
    ensures WithPriority(s + t, p) == WithPriority(s, p) + WithPriority(t, p)
  {
    if s == [] {
      assert s + t == t;
    } else {
      assert (s + t)[1..] == s[1..] + t && (s + t)[0] == s[0];
      WithPriorityAppend(s[1..], t, p);
      var head := if s[0].pri == p then [s[0]] else [];
      assert WithPriority(s + t, p) == head + (WithPriority(s[1..], p) + WithPriority(t, p));
      assert WithPriority(s, p) == head + WithPriority(s[1..], p);
    }
  }

  lemma {:induction false} WithPriorityNone(s: seq<JobItem>, p: int)
    ensures WithPriority(s, p) == [] <==> forall x | x in s :: x.pri != p
  {
    if s != [] {
      WithPriorityNone(s[1..], p);
      assert forall x :: x in s <==> x == s[0] || x in s[1..];
    }
  }

  lemma {:induction false} EnqueueStable(q: seq<JobItem>, x: JobItem)
    requires Descending(q)
    ensures Descending(Enqueue(q, x))
    ensures forall p :: WithPriority(Enqueue(q, x), p) == WithPriority(q + [x], p)
  {
    if q == [] || q[0].pri < x.pri {
      forall p ensures WithPriority([x] + q, p) == WithPriority(q + [x], p) {
        WithPriorityAppend([x], q, p);
        WithPriorityAppend(q, [x], p);
        if p == x.pri {
          WithPriorityNone(q, p);
        } else {
          WithPriorityNone([x], p);
        }
      }
    } else {
      var t := q[1..];
      EnqueueStable(t, x);
      var r := Enqueue(t, x);
      forall y | y in r ensures q[0].pri >= y.pri {
        assert y in multiset(r);
        assert y in t || y == x;
      }
      assert q + [x] == [q[0]] + (t + [x]);
      hide Enqueue, WithPriority;
      forall p ensures WithPriority([q[0]] + r, p) == WithPriority(q + [x], p) {
        WithPriorityAppend([q[0]], r, p);
        WithPriorityAppend([q[0]], t + [x], p);
        assert WithPriority(r, p) == WithPriority(t + [x], p);
      }
    }
  }

  lemma {:induction false} StableOrderIsStableSort(s: seq<JobItem>)
    ensures IsStableSort(s, StableOrder(s))
  {
    if s != [] {
      var t, x := s[..|s| - 1], s[|s| - 1];
      assert s == t + [x];
      StableOrderIsStableSort(t);
      EnqueueStable(StableOrder(t), x);
      forall p ensures WithPriority(StableOrder(s), p) == WithPriority(s, p) {
        WithPriorityAppend(StableOrder(t), [x], p);
        WithPriorityAppend(t, [x], p);
      }
    }
  }

  lemma {:induction false} StableSortUnique(a: seq<JobItem>, b: seq<JobItem>)
    requires Descending(a) && Descending(b)
    requires forall p :: WithPriority(a, p) == WithPriority(b, p)
    ensures a == b
  {
    if a == [] || b == [] {
      if a != [] {
        assert a[0] in a;
        WithPriorityNone(b, a[0].pri);
        WithPriorityNone(a, a[0].pri);
      }
      if b != [] {
        assert b[0] in b;
        WithPriorityNone(a, b[0].pri);
        WithPriorityNone(b, b[0].pri);
      }
    } else {
      WithPriorityNone(a, a[0].pri);
      WithPriorityNone(b, a[0].pri);
      WithPriorityNone(a, b[0].pri);
      WithPriorityNone(b, b[0].pri);
      assert a[0] in a && b[0] in b;
      assert a[0].pri == b[0].pri;
      assert WithPriority(a, a[0].pri)[0] == a[0] && WithPriority(b, a[0].pri)[0] == b[0];
      forall p: int ensures WithPriority(a[1..], p) == WithPriority(b[1..], p) {
        assert WithPriority(a, p) == (if a[0].pri == p then [a[0]] else []) + WithPriority(a[1..], p);
        assert WithPriority(b, p) == (if a[0].pri == p then [a[0]] else []) + WithPriority(b[1..], p);
        if a[0].pri == p {
          assert WithPriority(a, p)[1..] == WithPriority(a[1..], p);
          assert WithPriority(b, p)[1..] == WithPriority(b[1..], p);
        } else {
          assert WithPriority(a, p) == WithPriority(a[1..], p);
          assert WithPriority(b, p) == WithPriority(b[1..], p);
        }
      }
      StableSortUnique(a[1..], b[1..]);
    }
  }

  /** The simple queue holds the stable sort of what was pushed, and nothing else is one. */
  lemma StableOrderCharacterised(s: seq<JobItem>, r: seq<JobItem>)
    ensures r == StableOrder(s) <==> IsStableSort(s, r)
  {
    StableOrderIsStableSort(s);
    if IsStableSort(s, r) {
      StableSortUnique(r, StableOrder(s));
    }
  }

  // ---------- The heap ----------

  function Parent(i: nat): nat
    requires i > 0
  {
    (i - 1) / 2
  }

  ghost predicate HeapOrdered(h: seq<JobItem>) {
    forall i | 0 < i < |h| :: !Less(h[i], h[Parent(i)])
  }

  /** Heap order up to position `n`, except between `j` and its parent. */
  ghost predicate HeapBut(h: seq<JobItem>, n: nat, j: nat)
    requires n <= |h|
  {
    && (forall i | 0 < i < n && i != j :: !Less(h[i], h[Parent(i)]))
    && (j > 0 ==> forall i | 0 < i < n && Parent(i) == j && j < n :: !Less(h[i], h[Parent(j)]))
  }

  /** Heap order up to position `n`, except between `j` and its children. */
  ghost predicate HeapBelow(h: seq<JobItem>, n: nat, j: nat)
    requires n <= |h|
  {
    && (forall i | 0 < i < n && Parent(i) != j :: !Less(h[i], h[Parent(i)]))
    && (forall i | 0 < i < n && Parent(i) == j && j > 0 && j < n :: !Less(h[i], h[Parent(j)]))
  }

  lemma {:induction false} RootFirst(h: seq<JobItem>, i: nat)
    requires HeapOrdered(h) && i < |h|
    ensures !Less(h[i], h[0])
  {
    if i > 0 {
      RootFirst(h, Parent(i));
      assert !Less(h[i], h[Parent(i)]);
    }
  }

  /** The root of the heap is the head of the simple queue with the same items. */
  lemma RootIsHead(h: seq<JobItem>, q: seq<JobItem>)
    requires HeapOrdered(h) && Ordered(q) && multiset(h) == multiset(q) && |h| > 0
    ensures |q| == |h| && h[0] == q[0]
  {
    assert |multiset(h)| == |h| && |multiset(q)| == |q|;
    assert h[0] in multiset(q) && q[0] in multiset(h);
    assert forall k | 0 < k < |q| :: Less(q[0], q[k]);
    var m :| 0 <= m < |h| && h[m] == q[0];
    RootFirst(h, m);
  }

  /** After the last item is swapped to the root only the root's edges can be broken. */
  lemma RootReplaced(h: seq<JobItem>)
    requires HeapOrdered(h) && |h| > 0
    ensures HeapBelow(h[0 := h[|h| - 1]][|h| - 1 := h[0]], |h| - 1, 0)
  {
    var n := |h| - 1;
    var g := h[0 := h[n]][n := h[0]];
    forall i | 0 < i < n && Parent(i) != 0 ensures !Less(g[i], g[Parent(i)]) {
      assert g[i] == h[i] && g[Parent(i)] == h[Parent(i)];
    }
  }

  /** An appended item can only be out of order with its own parent. */
  lemma LastAdded(h: seq<JobItem>, q: seq<JobItem>, x: JobItem)
    requires HeapOrdered(h) && Ordered(q) && Below(q, x.seqNo) && multiset(h) == multiset(q)
    ensures HeapBut(h + [x], |h + [x]|, |h|)
    ensures Ordered(Enqueue(q, x)) && Below(Enqueue(q, x), x.seqNo + 1)
    ensures multiset(h + [x]) == multiset(Enqueue(q, x))
  {
    EnqueueOrdered(q, x);
    var g := h + [x];
    forall i | 0 < i < |h| ensures !Less(g[i], g[Parent(i)]) {
      assert g[i] == h[i] && g[Parent(i)] == h[Parent(i)];
    }
    forall y | y in Enqueue(q, x) ensures y.seqNo < x.seqNo + 1 {
      assert y in multiset(Enqueue(q, x));
    }
  }

  lemma FirstPart(h: seq<JobItem>, n: nat)
    requires n <= |h| && forall i | 0 < i < n :: !Less(h[i], h[Parent(i)])
    ensures HeapOrdered(h[..n])
  {
    forall i | 0 < i < n ensures !Less(h[..n][i], h[..n][Parent(i)]) {
      assert h[..n][i] == h[i] && h[..n][Parent(i)] == h[Parent(i)];
    }
  }

  lemma TailOrdered(q: seq<JobItem>, bound: nat)
    requires Ordered(q) && Below(q, bound) && |q| > 0
    ensures Ordered(q[1..]) && Below(q[1..], bound)
  {
  }

  lemma SwapKeeps(h: seq<JobItem>, i: nat, j: nat)
    requires i < |h| && j < |h|
    ensures multiset(h[i := h[j]][j := h[i]]) == multiset(h)
  {
  }

  /** Swapping `j` with a later-dispatched parent moves the one broken edge up. */
  lemma UpStep(h: seq<JobItem>, j: nat)
    requires 0 < j < |h| && HeapBut(h, |h|, j) && Less(h[j], h[Parent(j)])
    ensures HeapBut(h[Parent(j) := h[j]][j := h[Parent(j)]], |h|, Parent(j))
  {
    var p := Parent(j);
    var g := h[p := h[j]][j := h[p]];
    forall i | 0 < i < |h| && i != p ensures !Less(g[i], g[Parent(i)]) {
      if i != j && Parent(i) == p {
        assert !Less(h[i], h[p]);
      }
    }
    if p > 0 {
      forall i | 0 < i < |h| && Parent(i) == p ensures !Less(g[i], g[Parent(p)]) {
        assert !Less(h[p], h[Parent(p)]);
        assert i == j || !Less(h[i], h[p]);
      }
    }
  }

  /** Swapping `i` with its earlier-dispatched child `j` moves the broken node down. */
  lemma DownStep(h: seq<JobItem>, n: nat, i: nat, j: nat)
    requires n <= |h| && i < n && HeapBelow(h, n, i)
    requires j < n && j > 0 && Parent(j) == i && Less(h[j], h[i])
    requires forall c | 0 < c < n && Parent(c) == i :: !Less(h[c], h[j])
    ensures HeapBelow(h[i := h[j]][j := h[i]], n, j)
    ensures h[i := h[j]][j := h[i]][n..] == h[n..]
  {
    var g := h[i := h[j]][j := h[i]];
    forall c | 0 < c < n && Parent(c) != j ensures !Less(g[c], g[Parent(c)]) {
      if Parent(c) == i {
        assert !Less(h[c], h[j]);
      } else if c == i {
        assert !Less(h[j], h[Parent(i)]);
      } else {
        assert !Less(h[c], h[Parent(c)]);
      }
    }
    forall c | 0 < c < n && Parent(c) == j ensures !Less(g[c], g[i]) {
      assert !Less(h[c], h[Parent(c)]);
    }
  }

  class PriorityQueue {
    var h: seq<JobItem>
    var seqNo: nat
    ghost var order: seq<JobItem>  // the simple queue

    ghost predicate Valid()
      reads this
    {
      && HeapOrdered(h)
      && Ordered(order)
      && multiset(h) == multiset(order)
      && Below(order, seqNo + 1)
    }

    constructor ()
      ensures Valid() && order == [] && seqNo == 0
    {
      h := [];
      seqNo := 0;
      order := [];
    }

    method Swap(i: nat, j: nat)
      requires i < |h| && j < |h|
      modifies this`h
      ensures h == old(h)[i := old(h)[j]][j := old(h)[i]]
      ensures multiset(h) == multiset(old(h))
    {
      SwapKeeps(h, i, j);
      h := h[i := h[j]][j := h[i]];
    }

    /** Sift the item at `j0` towards the root. */
    method Up(j0: nat)
      requires j0 < |h| && HeapBut(h, |h|, j0)
      modifies this`h
      ensures HeapOrdered(h) && multiset(h) == multiset(old(h))
    {
      var j: nat := j0;
      while true
        invariant j < |h| && HeapBut(h, |h|, j)
        invariant multiset(h) == multiset(old(h))
        decreases j
      {
        var i := if j == 0 then 0 else (j - 1) / 2;  // Go truncates (0-1)/2 to 0
        if i == j || !Less(h[j], h[i]) {
          break;
        }
        UpStep(h, j);
        Swap(i, j);
        j := i;
      }
    }

    /** Sift the root down within the first `n` items. */
    method Down(n: nat)
      requires n <= |h| && HeapBelow(h, n, 0)
      modifies this`h
      ensures |h| == |old(h)| && h[n..] == old(h)[n..]
      ensures forall i | 0 < i < n :: !Less(h[i], h[Parent(i)])
      ensures multiset(h) == multiset(old(h))
    {
      var i: nat := 0;
      while true
        invariant |h| == |old(h)| && h[n..] == old(h)[n..]
        invariant HeapBelow(h, n, i)
        invariant multiset(h) == multiset(old(h))
        decreases n - i
      {
        var j1 := 2 * i + 1;
        if j1 >= n {
          break;
        }
        var j := j1;
        var j2 := j1 + 1;
        if j2 < n && Less(h[j2], h[j1]) {
          j := j2;
        }
        assert forall c | 0 < c < n && Parent(c) == i :: c == j1 || c == j2;
        if !Less(h[j], h[i]) {
          break;
        }
        DownStep(h, n, i, j);
        Swap(i, j);
        i := j;
      }
    }

    /** push: always succeeds, never blocks. */
    method Push(job: Job)
      requires Valid()
      modifies this
      ensures Valid() && seqNo == old(seqNo) + 1
      ensures order == Enqueue(old(order), JobItem(job, job.priority, seqNo))
    {
      seqNo := seqNo + 1;
      var x := JobItem(job, job.priority, seqNo);
      LastAdded(h, order, x);
      hide HeapOrdered, HeapBut, Ordered, Enqueue, Below;
      h := h + [x];
      Up(|h| - 1);
      order := Enqueue(order, x);
    }

    /** heap.Pop: swap first and last, sift down, drop the last. */
    method RemoveRoot() returns (x: JobItem)
      requires HeapOrdered(h) && |h| > 0
      modifies this`h
      ensures HeapOrdered(h) && x == old(h)[0]
      ensures multiset(old(h)) == multiset(h) + multiset{x}
    {
      RootReplaced(h);
      hide HeapBelow, HeapOrdered, Less, Parent;
      var n := |h| - 1;
      Swap(0, n);
      Down(n);
      FirstPart(h, n);
      assert h == h[..n] + [h[n]] && h[n] == h[n..][0];
      x := h[n];
      h := h[..n];
    }

    /** The part of pop that runs once the heap is non-empty. */
    method PopHead() returns (job: Job)
      requires Valid() && |h| > 0
      modifies this`h, this`order
      ensures Valid()
      ensures old(order) == [old(order)[0]] + order && job == old(order)[0].job
    {
      RootIsHead(h, order);
      TailOrdered(order, seqNo + 1);
      hide HeapOrdered, Ordered, Below;
      var x := RemoveRoot();
      assert order == [x] + order[1..];
      assert multiset(order[1..]) == multiset(order) - multiset{x} == multiset(h);
      order := order[1..];
      job := x.job;
    }

    method Len() returns (n: nat)
      requires Valid()
      ensures n == |order|
    {
      assert |multiset(h)| == |h| && |multiset(order)| == |order|;
      n := |h|;
    }

    /** pop in drain mode: an empty queue answers (zero, false). */
    method TryPop() returns (r: Option<Job>)
      requires Valid()
      modifies this`h, this`order
      ensures Valid()
      ensures old(order) == [] ==> r == None && order == []
      ensures old(order) != [] ==> r == Some(old(order)[0].job) && old(order) == [old(order)[0]] + order
    {
      var n := Len();
      assert |multiset(h)| == |h| && |multiset(order)| == |order|;
      if n == 0 {
        return None;
      }
      var job := PopHead();
      r := Some(job);
    }
  }

  // ---------- Whole runs ----------

  datatype QueueOp = PushJob(job: Job) | PopJob

  /** The answers a plain stable list gives to the same operations; `n` pushes came before. */
  function Answers(q: seq<JobItem>, n: nat, ops: seq<QueueOp>): seq<Option<Job>>
    decreases ops
  {
    if ops == [] then
      []
    else match ops[0]
      case PushJob(job) => Answers(Enqueue(q, JobItem(job, job.priority, n + 1)), n + 1, ops[1..])
      case PopJob =>
        if q == [] then [None] + Answers(q, n, ops[1..])
        else [Some(q[0].job)] + Answers(q[1..], n, ops[1..])
  }

  /** Over any mix of pushes and pops, the heap answers as the stable list does. */
  method RunOps(ops: seq<QueueOp>) returns (out: seq<Option<Job>>)
    ensures out == Answers([], 0, ops)
  {
    var pq := new PriorityQueue();
    out := [];
    var i := 0;
    while i < |ops|
      invariant 0 <= i <= |ops| && pq.Valid() && fresh(pq)
      invariant out + Answers(pq.order, pq.seqNo, ops[i..]) == Answers([], 0, ops)
    {
      assert ops[i..][1..] == ops[i + 1..];
      ghost var sofar, q := out, pq.order;
      match ops[i] {
        case PushJob(job) =>
          pq.Push(job);
        case PopJob =>
          var r := pq.TryPop();
          out := out + [r];
          assert q != [] ==> q[1..] == pq.order;
          assert out + Answers(pq.order, pq.seqNo, ops[i + 1..])
              == sofar + ([r] + Answers(pq.order, pq.seqNo, ops[i + 1..]));
      }
      i := i + 1;
    }
    assert ops[i..] == [];
  }

  /** The items `jobs` become, numbered in push order after `n` earlier pushes. */
  function Items(n: nat, jobs: seq<Job>): (r: seq<JobItem>)
    ensures |r| == |jobs|
    ensures forall i | 0 <= i < |jobs| :: r[i] == JobItem(jobs[i], jobs[i].priority, n + 1 + i)
  {
    seq(|jobs|, i requires 0 <= i < |jobs| => JobItem(jobs[i], jobs[i].priority, n + 1 + i))
  }

  function JobsOf(q: seq<JobItem>): (r: seq<Job>)
    ensures |r| == |q|
    ensures forall i | 0 <= i < |q| :: r[i] == q[i].job
  {
    seq(|q|, i requires 0 <= i < |q| => q[i].job)
  }

  lemma ItemsGrow(jobs: seq<Job>, i: nat)
    requires i < |jobs|
    ensures StableOrder(Items(0, jobs[..i + 1]))
         == Enqueue(StableOrder(Items(0, jobs[..i])), JobItem(jobs[i], jobs[i].priority, i + 1))
  {
    hide Enqueue;
    var a := Items(0, jobs[..i + 1]);
    assert a[..|a| - 1] == Items(0, jobs[..i]);
  }

  method PushAll(pq: PriorityQueue, jobs: seq<Job>)
    requires pq.Valid() && pq.order == [] && pq.seqNo == 0
    modifies pq
    ensures pq.Valid() && pq.order == StableOrder(Items(0, jobs))
  {
    hide PriorityQueue.Valid;
    hide Enqueue;
    var i := 0;
    while i < |jobs|
      invariant 0 <= i <= |jobs| && pq.Valid() && pq.seqNo == i
      invariant pq.order == StableOrder(Items(0, jobs[..i]))
    {
      pq.Push(jobs[i]);
      ItemsGrow(jobs, i);
      i := i + 1;
    }
    assert jobs[..i] == jobs;
  }

  method EmptyOut(pq: PriorityQueue) returns (out: seq<Job>)
    requires pq.Valid()
    modifies pq
    ensures pq.Valid() && pq.order == []
    ensures out == JobsOf(old(pq.order))
  {
    hide PriorityQueue.Valid;
    ghost var all, k := pq.order, 0;
    out := [];
    var n := pq.Len();
    while n > 0
      invariant pq.Valid() && n == |pq.order| == |all| - k && k <= |all|
      invariant pq.order == all[k..]
      invariant out == JobsOf(all)[..k]
    {
      var r := pq.TryPop();
      assert pq.order == all[k..][1..];
      out := out + [r.value];
      n := n - 1;
      k := k + 1;
    }
  }

  /** Push everything, then empty the heap: the jobs leave in stable-sort order. */
  method HeapSort(jobs: seq<Job>) returns (out: seq<Job>)
    ensures out == JobsOf(StableOrder(Items(0, jobs)))
    ensures IsStableSort(Items(0, jobs), StableOrder(Items(0, jobs)))
  {
    var pq := new PriorityQueue();
    PushAll(pq, jobs);
    out := EmptyOut(pq);
    StableOrderIsStableSort(Items(0, jobs));
  }
}
