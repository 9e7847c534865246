/** Soft pool affinity: a connection's sticky pool and the broker's routing, together. */
module Affinity {
  import opened Jobs
  import opened Routing
  import opened Connections
  import opened ConnectionTheorems

  /** A configuration the broker can start. */
  ghost predicate Startable(cfgs: seq<PoolConfig>) {
    DistinctConfigs(cfgs) && forall i | 0 <= i < |cfgs| :: Known(cfgs[i].service)
  }

  /** The configured pools with their loads at some instant. */
  ghost predicate SnapshotOf(cfgs: seq<PoolConfig>, loads: seq<Load>) {
    && |loads| == |cfgs|
    && forall i | 0 <= i < |cfgs| ::
         PoolConfig(loads[i].name, loads[i].service, loads[i].conns) == cfgs[i]
  }

  ghost predicate Named(cfgs: seq<PoolConfig>, name: string) {
    exists i :: 0 <= i < |cfgs| && cfgs[i].name == name
  }

  /** An answer to Submit is one the broker gives on some snapshot of its configuration. */
  ghost predicate FromBroker(cfgs: seq<PoolConfig>, c: Conn, a: Action) {
    a.Respond? && c.at.Submitting? ==>
      a.answer == Err(Draining) ||
      exists loads :: SnapshotOf(cfgs, loads) && a.answer == Resolve(loads, c.at.job.service, c.at.job.pool)
  }

  ghost predicate BrokerRun(t: Transport, cfgs: seq<PoolConfig>, c: Conn, run: seq<Action>)
    decreases |run|
  {
    run == [] ||
    (Enabled(c, run[0]) && FromBroker(cfgs, c, run[0]) && BrokerRun(t, cfgs, Step(t, c, run[0]), run[1..]))
  }

  lemma ConfigsAreDistinct(cfgs: seq<PoolConfig>, loads: seq<Load>)
    requires Startable(cfgs) && SnapshotOf(cfgs, loads)
    ensures DistinctNames(loads) && forall i | 0 <= i < |loads| :: Known(loads[i].service)
    ensures forall name :: Configured(loads, name) <==> Named(cfgs, name)
  {
    hide Known;
    forall i, j | 0 <= i < j < |loads| ensures loads[i].name != loads[j].name {
      assert cfgs[i].name != cfgs[j].name;
    }
    forall i | 0 <= i < |loads| ensures loads[i].name != "" && Known(loads[i].service) {
      assert cfgs[i].name != "" && Known(cfgs[i].service);
    }
    forall name ensures Configured(loads, name) <==> Named(cfgs, name) {
      if i :| 0 <= i < |loads| && loads[i].name == name {
        assert cfgs[i].name == name;
      }
      if i :| 0 <= i < |cfgs| && cfgs[i].name == name {
        assert loads[i].name == name;
      }
    }
  }

  /** A broker that started refuses every service but the two it knows. */
  lemma BrokerRefusesUnknown(cfgs: seq<PoolConfig>, c: Conn, a: Action)
    requires Startable(cfgs) && FromBroker(cfgs, c, a)
    ensures Refuses(c, a)
  {
    hide Resolve, Known, DistinctNames;
    if a.Respond? && c.at.Submitting? && !Known(c.at.job.service) && a.answer != Err(Draining) {
      var loads :| SnapshotOf(cfgs, loads) && a.answer == Resolve(loads, c.at.job.service, c.at.job.pool);
      ConfigsAreDistinct(cfgs, loads);
      ResolveMeetsContract(loads, c.at.job.service, c.at.job.pool);
    }
  }

  lemma {:induction false} BrokerRunIsRun(t: Transport, cfgs: seq<PoolConfig>, c: Conn, run: seq<Action>)
    requires Startable(cfgs) && BrokerRun(t, cfgs, c, run)
    ensures IsRun(t, c, run)
    decreases |run|
  {
    hide Startable, FromBroker, Enabled, Refuses, Step;
    if run != [] {
      BrokerRefusesUnknown(cfgs, c, run[0]);
      BrokerRunIsRun(t, cfgs, Step(t, c, run[0]), run[1..]);
    }
  }

  // ---------- The sticky pool ----------

  /** The pool of the first Submit accepted since the session began. */
  function FirstPool(jobs: seq<Accepted>): string {
    if jobs == [] then "" else if jobs[0].oriented then jobs[0].answer.pool else FirstPool(jobs[1..])
  }

  ghost predicate StickyBooks(cfgs: seq<PoolConfig>, c: Conn) {
    && (c.sticky == "" || Named(cfgs, c.sticky))
    && c.sticky == FirstPool(c.jobs)
    && (forall k | 0 <= k < |c.jobs| :: c.jobs[k].answer.pool != "")
    && (!c.session ==> forall k | 0 <= k < |c.jobs| :: !c.jobs[k].oriented)
  }

  lemma {:induction false} FirstPoolSnoc(jobs: seq<Accepted>, x: Accepted)
    requires forall k | 0 <= k < |jobs| :: jobs[k].answer.pool != ""
    ensures FirstPool(jobs + [x]) ==
      if FirstPool(jobs) != "" then FirstPool(jobs) else if x.oriented then x.answer.pool else ""
  {
    if jobs == [] {
      assert jobs + [x] == [x];
      assert [x][1..] == [];
    } else {
      assert (jobs + [x])[1..] == jobs[1..] + [x];
      assert jobs[0].answer.pool != "";
      FirstPoolSnoc(jobs[1..], x);
    }
  }

  lemma {:induction false} FirstPoolPhase(jobs: seq<Accepted>, k: nat, p: Phase)
    requires k < |jobs|
    ensures FirstPool(SetPhase(jobs, k, p)) == FirstPool(jobs)
  {
    var more := SetPhase(jobs, k, p);
    if k == 0 {
      assert more[1..] == jobs[1..];
    } else {
      assert more[1..] == SetPhase(jobs[1..], k - 1, p);
      FirstPoolPhase(jobs[1..], k - 1, p);
    }
  }

  lemma {:induction false} NoneOriented(jobs: seq<Accepted>)
    requires forall k | 0 <= k < |jobs| :: !jobs[k].oriented
    ensures FirstPool(jobs) == ""
  {
    if jobs != [] {
      NoneOriented(jobs[1..]);
    }
  }

  /** The broker only ever answers with a configured pool. */
  lemma AnswerIsNamed(cfgs: seq<PoolConfig>, loads: seq<Load>, service: string, wanted: string)
    requires Startable(cfgs) && SnapshotOf(cfgs, loads)
    ensures var r := Resolve(loads, service, wanted); r.Ok? ==> Named(cfgs, r.value.pool) && r.value.pool != ""
  {
    hide Resolve, FirstLeast, OfService, Known, IsCongested;
    ConfigsAreDistinct(cfgs, loads);
    ResolveMeetsContract(loads, service, wanted);
    var r := Resolve(loads, service, wanted);
    if r.Ok? && LeastOf(loads, service, r.value.pool) {
      LeastIsConfigured(loads, service, r.value.pool);
    }
  }

  lemma LeastIsConfigured(loads: seq<Load>, service: string, name: string)
    requires LeastOf(loads, service, name)
    ensures Configured(loads, name)
  {
    OfServiceMeans(loads, service);
    var own := OfService(loads, service);
    var k: nat :| IsFirstLeast(own, k) && own[k].name == name;
    assert own[k] in own;
  }

  lemma StickyAnswered(t: Transport, cfgs: seq<PoolConfig>, c: Conn, a: Answer)
    requires Startable(cfgs) && StickyBooks(cfgs, c) && c.at.Submitting? && FromBroker(cfgs, c, Respond(a))
    ensures StickyBooks(cfgs, Answered(t, c, a))
  {
    hide Resolve, Known, Startable, FirstPool, Named;
    BrokerRefusesUnknown(cfgs, c, Respond(a));
    if a.Ok? {
      var loads :| SnapshotOf(cfgs, loads) && a == Resolve(loads, c.at.job.service, c.at.job.pool);
      AnswerIsNamed(cfgs, loads, c.at.job.service, c.at.job.pool);
      FirstPoolSnoc(c.jobs, Accepted(c.at.job, a.value, c.session, c.cur, Running, true));
      if !c.session {
        NoneOriented(c.jobs);
      }
    }
  }

  lemma StickyBooksStep(t: Transport, cfgs: seq<PoolConfig>, c: Conn, a: Action)
    requires Startable(cfgs) && StickyBooks(cfgs, c) && Enabled(c, a) && FromBroker(cfgs, c, a)
    ensures StickyBooks(cfgs, Step(t, c, a))
  {
    hide Resolve, Known, Startable, FirstPool, Named, ChosenPool, Answered;
    match a
    case Respond(answer) => StickyAnswered(t, cfgs, c, answer);
    case CloseResult(k) => FirstPoolPhase(c.jobs, k, Closed);
    case Clear(k) => FirstPoolPhase(c.jobs, k, Cleared);
    case Finish(k) => FirstPoolPhase(c.jobs, k, Finished);
    case _ =>
  }

  lemma {:induction false} StickyAlong(t: Transport, cfgs: seq<PoolConfig>, c: Conn, run: seq<Action>)
    requires Startable(cfgs) && StickyBooks(cfgs, c) && BrokerRun(t, cfgs, c, run)
    ensures IsRun(t, c, run) && StickyBooks(cfgs, Exec(t, c, run))
    decreases |run|
  {
    hide Startable, StickyBooks, FromBroker, Enabled, Refuses, Step;
    BrokerRunIsRun(t, cfgs, c, run);
    if run != [] {
      StickyBooksStep(t, cfgs, c, run[0]);
      StickyAlong(t, cfgs, Step(t, c, run[0]), run[1..]);
    }
  }

  /** The sticky pool is the pool of the session's first accepted Submit, a configured one. */
  lemma StickyIsTheFirstPool(t: Transport, cfgs: seq<PoolConfig>, run: seq<Action>)
    requires Startable(cfgs) && BrokerRun(t, cfgs, Init(), run)
    ensures IsRun(t, Init(), run)
    ensures var c := Exec(t, Init(), run);
      c.sticky == FirstPool(c.jobs) && (c.sticky == "" || Named(cfgs, c.sticky))
  {
    StickyAlong(t, cfgs, Init(), run);
  }

  lemma KeepsSticky(t: Transport, c: Conn, a: Action)
    requires Enabled(c, a)
    ensures c.sticky != "" ==> Step(t, c, a).sticky == c.sticky
    ensures c.at.Submitting? && !a.Respond? ==> Step(t, c, a).at == c.at && Step(t, c, a).sticky == c.sticky
  {
    hide ChosenPool, Known;
  }

  /** Once set it never changes, whatever the broker and the client do. */
  lemma {:induction false} StickyNeverChanges(t: Transport, c: Conn, run: seq<Action>)
    requires c.sticky != "" && IsRun(t, c, run)
    ensures Exec(t, c, run).sticky == c.sticky
    decreases |run|
  {
    hide Step, Enabled, Refuses;
    if run != [] {
      KeepsSticky(t, c, run[0]);
      StickyNeverChanges(t, Step(t, c, run[0]), run[1..]);
    }
  }

  lemma {:induction false} SubmitWaits(t: Transport, c: Conn, run: seq<Action>)
    requires c.at.Submitting? && IsRun(t, c, run) && forall i | 0 <= i < |run| :: !run[i].Respond?
    ensures Exec(t, c, run).at == c.at && Exec(t, c, run).sticky == c.sticky
    decreases |run|
  {
    hide Step, Enabled, Refuses;
    if run != [] {
      KeepsSticky(t, c, run[0]);
      SubmitWaits(t, Step(t, c, run[0]), run[1..]);
    }
  }

  /** What the broker may answer to a job of `service` that asks for `sticky`. */
  ghost predicate Affine(loads: seq<Load>, service: string, sticky: string, a: Answer) {
    match a
    case Err(_) => forall i | 0 <= i < |loads| :: loads[i].service != service
    case Ok(SubmitResult(used, warning)) =>
      || (used == sticky && warning == NoWarning)
      || (used != sticky && warning == Redirected(sticky, used)
          && CongestedName(loads, sticky) && LeastOf(loads, service, used))
  }

  lemma StickyAnswer(cfgs: seq<PoolConfig>, loads: seq<Load>, service: string, sticky: string)
    requires Startable(cfgs) && SnapshotOf(cfgs, loads) && sticky != "" && Named(cfgs, sticky)
    ensures Affine(loads, service, sticky, Resolve(loads, service, sticky))
  {
    hide Resolve, LeastOf, CongestedName, Known;
    ConfigsAreDistinct(cfgs, loads);
    ResolveMeetsContract(loads, service, sticky);
  }

  /** On any run against a started broker: once the sticky pool is set, a later start that names
      no pool and reaches Submit goes to it with no warning, or it was congested and the job went
      to a different, least busy pool of its service. "Not found" cannot be answered, and the
      sticky pool stays. */
  lemma SoftAffinity(t: Transport, cfgs: seq<PoolConfig>, before: seq<Action>, m: Message, room: bool,
                     waiting: seq<Action>, loads: seq<Load>)
    requires Startable(cfgs) && BrokerRun(t, cfgs, Init(), before) && IsRun(t, Init(), before)
    requires Exec(t, Init(), before).sticky != ""
    requires m.Start? && m.pool == "" && Known(m.service)
    requires Enabled(Exec(t, Init(), before), Receive(m, room))
    requires Step(t, Exec(t, Init(), before), Receive(m, room)).at.Submitting?
    requires IsRun(t, Step(t, Exec(t, Init(), before), Receive(m, room)), waiting)
    requires forall i | 0 <= i < |waiting| :: !waiting[i].Respond?
    requires SnapshotOf(cfgs, loads)
    ensures var c := Exec(t, Init(), before);
      var d := Exec(t, Step(t, c, Receive(m, room)), waiting);
      && d.at.Submitting? && d.at.job.service == m.service
      && var a := Resolve(loads, d.at.job.service, d.at.job.pool);
         Affine(loads, m.service, c.sticky, a) && Step(t, d, Respond(a)).sticky == c.sticky
  {
    hide BrokerRun, IsRun, Exec, Resolve, Affine, Startable, SnapshotOf;
    StickyAlong(t, cfgs, Init(), before);
    var c := Exec(t, Init(), before);
    SubmitWaits(t, Step(t, c, Receive(m, room)), waiting);
    StickyAnswer(cfgs, loads, m.service, c.sticky);
  }

  /** A named pool's service is never compared with the job's. Where the service has a pool at all,
      a job is answered with a pool of another service exactly when it names such a pool and that
      pool is not congested; so a session whose sticky pool is of one service sends jobs of the
      other to it until it is. */
  lemma LeavesItsService(loads: seq<Load>, service: string, wanted: string)
    requires DistinctNames(loads) && OfService(loads, service) != []
    ensures var r := Resolve(loads, service, wanted);
      && r.Ok?
      && (Foreign(loads, service, r.value.pool) <==>
            exists k :: 0 <= k < |loads| && loads[k].name == wanted && loads[k].service != service
                        && (loads[k].active < loads[k].conns || loads[k].queued == 0))
  {
    hide OfService, FirstLeast, Find, DistinctNames;
    FindMeans(loads, wanted);
    LeastIsOwn(loads, service);
    var own := OfService(loads, service);
    var least := own[FirstLeast(own)].name;
    OneOfThatName(loads, wanted);
    if k :| 0 <= k < |loads| && loads[k].name == wanted && loads[k].service != service && !IsCongested(loads[k]) {
      NotEmpty(loads, k);
    }
  }

  /** The pool of that name serves something else. */
  ghost predicate Foreign(loads: seq<Load>, service: string, name: string) {
    exists k :: 0 <= k < |loads| && loads[k].name == name && loads[k].service != service
  }

  lemma NotEmpty(loads: seq<Load>, k: nat)
    requires DistinctNames(loads) && k < |loads|
    ensures loads[k].name != ""
  {
  }

  lemma OneOfThatName(loads: seq<Load>, name: string)
    requires DistinctNames(loads)
    ensures forall i, j | 0 <= i < |loads| && 0 <= j < |loads| && loads[i].name == name == loads[j].name :: i == j
  {
  }

  lemma LeastIsOwn(loads: seq<Load>, service: string)
    requires DistinctNames(loads) && OfService(loads, service) != []
    ensures var own := OfService(loads, service); !Foreign(loads, service, own[FirstLeast(own)].name)
  {
    OfServiceMeans(loads, service);
    var own := OfService(loads, service);
    var l := own[FirstLeast(own)];
    assert l in own;
    var i :| 0 <= i < |loads| && loads[i] == l;
    OneOfThatName(loads, l.name);
  }
}
