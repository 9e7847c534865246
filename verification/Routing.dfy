/** How the broker picks a pool for a job, and Submit on top of it. */
module Routing {
  import opened Jobs
  import opened PriorityQueues

  datatype PoolConfig = PoolConfig(name: string, service: string, conns: nat)

  /** One pool as routing sees it at one instant. */
  datatype Load = Load(name: string, service: string, conns: nat, active: int, queued: nat)

  datatype Warning =
    | NoWarning
    | NotFound(wanted: string, used: string)     // pool %q not found, routed to %q
    | Redirected(wanted: string, used: string)   // pool %q congested, routed to %q

  datatype SubmitResult = SubmitResult(pool: string, warning: Warning)

  datatype SubmitError = ServiceNotConfigured | Draining

  // ---------- On values ----------

  function OfService(loads: seq<Load>, service: string): seq<Load> {
    if loads == [] then []
    else (if loads[0].service == service then [loads[0]] else []) + OfService(loads[1..], service)
  }

  predicate IsCongested(l: Load) {
    l.active >= l.conns && l.queued > 0
  }

  /** The first pool with the fewest busy sessions. */
  predicate IsFirstLeast(loads: seq<Load>, k: nat) {
    && k < |loads|
    && (forall i | 0 <= i < k :: loads[k].active < loads[i].active)
    && (forall i | k <= i < |loads| :: loads[k].active <= loads[i].active)
  }

  function FirstLeastFrom(loads: seq<Load>, best: nat, i: nat): (k: nat)
    requires best < i <= |loads| && IsFirstLeast(loads[..i], best)
    ensures IsFirstLeast(loads, k)
    decreases |loads| - i
  {
    if i == |loads| then
      assert loads[..i] == loads;
      best
    else
      FirstLeastFrom(loads, if loads[i].active < loads[best].active then i else best, i + 1)
  }

  function FirstLeast(loads: seq<Load>): (k: nat)
    requires loads != []
    ensures IsFirstLeast(loads, k)
  {
    FirstLeastFrom(loads, 0, 1)
  }

  function Find(loads: seq<Load>, name: string): Option<Load> {
    if loads == [] then None else if loads[0].name == name then Some(loads[0]) else Find(loads[1..], name)
  }

  /** The pool a job of `service` naming `wanted` is sent to. */
  function Resolve(loads: seq<Load>, service: string, wanted: string): Result<SubmitResult, SubmitError> {
    var own := OfService(loads, service);
    if own == [] then Err(ServiceNotConfigured)
    else
      var least := own[FirstLeast(own)].name;
      if wanted == "" then Ok(SubmitResult(least, NoWarning))
      else match Find(loads, wanted)
        case None => Ok(SubmitResult(least, NotFound(wanted, least)))
        case Some(named) =>
          if IsCongested(named) && least != wanted then Ok(SubmitResult(least, Redirected(wanted, least)))
          else Ok(SubmitResult(wanted, NoWarning))
  }

  // ---------- The routing contract ----------

  ghost predicate DistinctNames(loads: seq<Load>) {
    && (forall i, j | 0 <= i < j < |loads| :: loads[i].name != loads[j].name)
    && (forall i | 0 <= i < |loads| :: loads[i].name != "")
  }

  /** `name` is the first least busy pool of the service. */
  ghost predicate LeastOf(loads: seq<Load>, service: string, name: string) {
    exists k: nat :: IsFirstLeast(OfService(loads, service), k) && OfService(loads, service)[k].name == name
  }

  ghost predicate Configured(loads: seq<Load>, name: string) {
    exists i :: 0 <= i < |loads| && loads[i].name == name
  }

  /** The pool of that name has no session free and work waiting. */
  ghost predicate CongestedName(loads: seq<Load>, name: string) {
    exists i :: 0 <= i < |loads| && loads[i].name == name && loads[i].active >= loads[i].conns && loads[i].queued > 0
  }

  /** What callers are promised, without saying how the pool is found. */
  ghost predicate Contract(loads: seq<Load>, service: string, wanted: string, r: Result<SubmitResult, SubmitError>) {
    match r
    case Err(e) => e == ServiceNotConfigured && forall i | 0 <= i < |loads| :: loads[i].service != service
    case Ok(SubmitResult(used, warning)) =>
      && (exists i :: 0 <= i < |loads| && loads[i].service == service)
      // a warning exactly when a pool was named and another one was chosen
      && (warning != NoWarning <==> wanted != "" && used != wanted)
      // auto-routes and fallbacks land on the first least busy pool of the job's own service
      && (wanted == "" || used != wanted ==> LeastOf(loads, service, used))
      // a named pool is left only if missing or congested, and the warning says which
      && (warning.NotFound? ==> warning == NotFound(wanted, used) && !Configured(loads, wanted))
      && (warning.Redirected? ==> warning == Redirected(wanted, used) && CongestedName(loads, wanted))
      // a named pool is kept only if it is there, and congested only if none is less busy
      && (wanted != "" && used == wanted ==>
            Configured(loads, wanted) && (CongestedName(loads, wanted) ==> LeastOf(loads, service, wanted)))
  }

  lemma {:induction false} FindMeans(loads: seq<Load>, name: string)
    requires DistinctNames(loads)
    ensures Find(loads, name).Some? <==> Configured(loads, name)
    ensures Find(loads, name).Some? ==> Find(loads, name).value in loads && Find(loads, name).value.name == name
    ensures Find(loads, name).Some? ==> (IsCongested(Find(loads, name).value) <==> CongestedName(loads, name))
  {
    if loads != [] {
      FindMeans(loads[1..], name);
      assert forall i | 0 < i < |loads| :: loads[i] == loads[1..][i - 1];
      if loads[0].name == name {
        assert Configured(loads, name);
      } else {
        assert Configured(loads[1..], name) ==> Configured(loads, name) by {
          if Configured(loads[1..], name) {
            var i :| 0 <= i < |loads[1..]| && loads[1..][i].name == name;
            assert loads[i + 1].name == name;
          }
        }
        assert CongestedName(loads[1..], name) ==> CongestedName(loads, name) by {
          if CongestedName(loads[1..], name) {
            var rest := loads[1..];
            var i :| 0 <= i < |rest| && rest[i].name == name && rest[i].active >= rest[i].conns && rest[i].queued > 0;
            assert loads[i + 1].name == name;
          }
        }
      }
    }
  }

  lemma {:induction false} OfServiceMeans(loads: seq<Load>, service: string)
    ensures OfService(loads, service) == [] <==> forall i | 0 <= i < |loads| :: loads[i].service != service
    ensures forall l :: l in OfService(loads, service) <==> l in loads && l.service == service
  {
    if loads != [] {
      OfServiceMeans(loads[1..], service);
      assert forall l :: l in loads <==> l == loads[0] || l in loads[1..];
      assert forall i | 0 < i < |loads| :: loads[i] == loads[1..][i - 1];
    }
  }

  lemma LeastOfUnique(loads: seq<Load>, service: string, a: string, b: string)
    requires LeastOf(loads, service, a) && LeastOf(loads, service, b)
    ensures a == b
  {
    var own := OfService(loads, service);
    var k: nat :| IsFirstLeast(own, k) && own[k].name == a;
    var m: nat :| IsFirstLeast(own, m) && own[m].name == b;
    assert k == m;
  }

  lemma ResolveMeetsContract(loads: seq<Load>, service: string, wanted: string)
    requires DistinctNames(loads)
    ensures Contract(loads, service, wanted, Resolve(loads, service, wanted))
  {
    hide DistinctNames, FirstLeast, Find, OfService, IsFirstLeast, IsCongested, Configured, CongestedName;
    var own := OfService(loads, service);
    OfServiceMeans(loads, service);
    FindMeans(loads, wanted);
    if own != [] {
      LeastIsLeast(loads, service);
      assert own[0] in own;
    }
  }

  lemma LeastIsLeast(loads: seq<Load>, service: string)
    requires OfService(loads, service) != []
    ensures var own := OfService(loads, service);
      LeastOf(loads, service, own[FirstLeast(own)].name) && Configured(loads, own[FirstLeast(own)].name)
  {
    OfServiceMeans(loads, service);
    var own := OfService(loads, service);
    assert own[FirstLeast(own)] in own;
  }

  lemma CongestedIsConfigured(loads: seq<Load>, name: string)
    ensures CongestedName(loads, name) ==> Configured(loads, name)
  {
  }

  /** The contract fixes the route: on any snapshot with distinct, non-empty pool names it is
      met by what the broker computes and by nothing else. */
  lemma RoutingContract(loads: seq<Load>, service: string, wanted: string, r: Result<SubmitResult, SubmitError>)
    requires DistinctNames(loads)
    ensures Contract(loads, service, wanted, r) <==> r == Resolve(loads, service, wanted)
  {
    ResolveMeetsContract(loads, service, wanted);
    if Contract(loads, service, wanted, r) {
      ContractUnique(loads, service, wanted, r, Resolve(loads, service, wanted));
    }
  }

  lemma ContractUnique(loads: seq<Load>, service: string, wanted: string,
                       a: Result<SubmitResult, SubmitError>, b: Result<SubmitResult, SubmitError>)
    requires Contract(loads, service, wanted, a) && Contract(loads, service, wanted, b)
    ensures a == b
  {
    hide LeastOf, Configured, CongestedName, OfService;
    CongestedIsConfigured(loads, wanted);
    if a.Ok? && b.Ok? {
      var x, y := a.value.pool, b.value.pool;
      if LeastOf(loads, service, x) && LeastOf(loads, service, y) {
        LeastOfUnique(loads, service, x, y);
      }
    }
  }

  // ---------- The broker ----------

  class Pool {
    const cfg: PoolConfig
    const queue: PriorityQueue
    var active: int

    constructor (cfg: PoolConfig)
      ensures this.cfg == cfg && active == 0
      ensures fresh(queue) && queue.Valid() && queue.order == []
    {
      this.cfg := cfg;
      queue := new PriorityQueue();
      active := 0;
    }

    ghost function Now(): Load
      reads this, queue
    {
      Load(cfg.name, cfg.service, cfg.conns, active, |queue.order|)
    }
  }

  ghost function Loads(ps: seq<Pool>): (r: seq<Load>)
    reads ps, set p | p in ps :: p.queue
    ensures |r| == |ps| && forall i | 0 <= i < |ps| :: r[i] == ps[i].Now()
  {
    if ps == [] then [] else [ps[0].Now()] + Loads(ps[1..])
  }

  /** The pools of one service, in configuration order. */
  ghost function Serving(ps: seq<Pool>, service: string): (r: seq<Pool>)
    ensures forall p | p in r :: p in ps
  {
    if ps == [] then []
    else (if ps[0].cfg.service == service then [ps[0]] else []) + Serving(ps[1..], service)
  }

  lemma {:induction false} ServingSnoc(ps: seq<Pool>, p: Pool, service: string)
    ensures Serving(ps + [p], service) == Serving(ps, service) + (if p.cfg.service == service then [p] else [])
  {
    if ps == [] {
      assert ps + [p] == [p];
      assert [p][1..] == [];
    } else {
      var first := if ps[0].cfg.service == service then [ps[0]] else [];
      var last := if p.cfg.service == service then [p] else [];
      ServingSnoc(ps[1..], p, service);
      assert (ps + [p])[1..] == ps[1..] + [p];
      assert first + (Serving(ps[1..], service) + last) == (first + Serving(ps[1..], service)) + last;
    }
  }

  lemma {:induction false} ServingLoads(ps: seq<Pool>, service: string)
    ensures OfService(Loads(ps), service) == Loads(Serving(ps, service))
  {
    if ps != [] {
      ServingLoads(ps[1..], service);
      var rest := Serving(ps[1..], service);
      assert ([ps[0]] + rest)[1..] == rest;
    }
  }

  lemma {:induction false} FindPool(ps: seq<Pool>, p: Pool)
    requires p in ps && forall i, j | 0 <= i < j < |ps| :: ps[i].cfg.name != ps[j].cfg.name
    ensures Find(Loads(ps), p.cfg.name) == Some(p.Now())
  {
    if ps[0] != p {
      assert p in ps[1..];
      FindPool(ps[1..], p);
    }
  }

  lemma {:induction false} FindNone(ps: seq<Pool>, name: string)
    requires forall p | p in ps :: p.cfg.name != name
    ensures Find(Loads(ps), name) == None
  {
    if ps != [] {
      FindNone(ps[1..], name);
    }
  }

  ghost predicate DistinctConfigs(cfgs: seq<PoolConfig>) {
    && (forall i, j | 0 <= i < j < |cfgs| :: cfgs[i].name != cfgs[j].name)
    && (forall i | 0 <= i < |cfgs| :: cfgs[i].name != "")
  }

  /** The two indexes agree with the configured list: by name exactly, by service in order. */
  ghost predicate Wiring(order: seq<Pool>, pools: map<string, Pool>, services: map<string, seq<Pool>>) {
    && (forall i, j | 0 <= i < j < |order| :: order[i].cfg.name != order[j].cfg.name)
    && (forall i, j | 0 <= i < j < |order| :: order[i].queue != order[j].queue)
    && (forall p | p in order :: p.cfg.name != "" && p.cfg.name in pools && pools[p.cfg.name] == p)
    && (forall n | n in pools :: pools[n] in order && pools[n].cfg.name == n)
    && (forall svc :: Listed(services, svc) == Serving(order, svc))
  }

  /** What a lookup of `services` answers; a missing key answers nothing. */
  function Listed(services: map<string, seq<Pool>>, service: string): seq<Pool> {
    if service in services then services[service] else []
  }

  lemma WireOne(order: seq<Pool>, pools: map<string, Pool>, services: map<string, seq<Pool>>, p: Pool)
    requires Wiring(order, pools, services)
    requires p.cfg.name != "" && forall q | q in order :: q.cfg.name != p.cfg.name && q.queue != p.queue
    ensures Wiring(order + [p], pools[p.cfg.name := p],
                   services[p.cfg.service := Listed(services, p.cfg.service) + [p]])
  {
    hide Serving;
    var more := services[p.cfg.service := Listed(services, p.cfg.service) + [p]];
    forall svc ensures Listed(more, svc) == Serving(order + [p], svc) {
      ServingSnoc(order, p, svc);
    }
    forall i, j | 0 <= i < j < |order + [p]|
      ensures (order + [p])[i].cfg.name != (order + [p])[j].cfg.name
      ensures (order + [p])[i].queue != (order + [p])[j].queue
    {
      assert order[i] in order;
    }
  }

  lemma {:induction false} ServingService(ps: seq<Pool>, service: string)
    ensures forall p | p in Serving(ps, service) :: p in ps && p.cfg.service == service
  {
    if ps != [] {
      ServingService(ps[1..], service);
    }
  }

  class Broker {
    var pools: map<string, Pool>
    var services: map<string, seq<Pool>>
    var draining: bool
    ghost var order: seq<Pool>  // as configured

    ghost predicate Valid()
      reads this, order, set p | p in order :: p.queue
    {
      Wiring(order, pools, services) && forall p | p in order :: p.queue.Valid()
    }

    ghost function Snapshot(): seq<Load>
      reads this, order, set p | p in order :: p.queue
    {
      Loads(order)
    }

    /** New: one pool per configuration, found by name and by service. */
    constructor (cfgs: seq<PoolConfig>)
      requires DistinctConfigs(cfgs)
      ensures Valid() && !draining && |order| == |cfgs|
      ensures forall i | 0 <= i < |cfgs| :: order[i].cfg == cfgs[i] && fresh(order[i]) && fresh(order[i].queue)
      ensures forall i | 0 <= i < |cfgs| :: order[i].active == 0 && order[i].queue.order == []
    {
      hide Wiring, Serving, PriorityQueue.Valid;
      pools, services, draining, order := map[], map[], false, [];
      new;
      NothingWired();
      for n := 0 to |cfgs|
        invariant |order| == n && !draining
        invariant Wiring(order, pools, services) && forall p | p in order :: p.queue.Valid()
        invariant forall i | 0 <= i < n :: order[i].cfg == cfgs[i] && fresh(order[i]) && fresh(order[i].queue)
        invariant forall i | 0 <= i < n :: order[i].active == 0 && order[i].queue.order == []
      {
        var p := new Pool(cfgs[n]);
        var service := cfgs[n].service;
        WireOne(order, pools, services, p);
        pools := pools[cfgs[n].name := p];
        services := services[service := (if service in services then services[service] else []) + [p]];
        order := order + [p];
      }
    }

    method LeastLoaded(service: string) returns (best: Pool)
      requires Valid() && service in services && services[service] != []
      ensures best in order && best.cfg.service == service
      ensures var own := OfService(Snapshot(), service); own != [] && best.Now() == own[FirstLeast(own)]
    {
      hide PriorityQueue.Valid, FirstLeast, Loads, OfService, Serving, IsFirstLeast;
      ServingLoads(order, service);
      ServingService(order, service);
      var ps := services[service];
      assert ps == Listed(services, service);
      best := LeastActive(ps);
    }

    /** ... && p.queue.len() > 0, both read at one instant. */
    method CongestionOf(p: Pool) returns (r: bool)
      requires p.queue.Valid()
      ensures r <==> p.active >= p.cfg.conns && p.queue.order != []
    {
      var n := p.queue.Len();
      r := p.active >= p.cfg.conns && n > 0;
    }

    method ResolvePool(job: Job) returns (r: Result<SubmitResult, SubmitError>, target: Option<Pool>)
      requires Valid()
      ensures r == Resolve(Snapshot(), job.service, job.pool)
      ensures target.Some? <==> r.Ok?
      ensures target.Some? ==> target.value in order && target.value.cfg.name == r.value.pool
    {
      hide PriorityQueue.Valid, FirstLeast, Find, IsFirstLeast, Loads, OfService, Serving;
      ServingLoads(order, job.service);
      assert Listed(services, job.service) == Serving(order, job.service);
      if job.service !in services || services[job.service] == [] {
        return Err(ServiceNotConfigured), None;
      }
      var least := LeastLoaded(job.service);
      if job.pool == "" {
        return Ok(SubmitResult(least.cfg.name, NoWarning)), Some(least);
      }
      if job.pool !in pools {
        FindNone(order, job.pool);
        return Ok(SubmitResult(least.cfg.name, NotFound(job.pool, least.cfg.name))), Some(least);
      }
      var named := pools[job.pool];
      FindPool(order, named);
      var full := CongestionOf(named);
      if full && least.cfg.name != named.cfg.name {
        return Ok(SubmitResult(least.cfg.name, Redirected(job.pool, least.cfg.name))), Some(least);
      }
      return Ok(SubmitResult(named.cfg.name, NoWarning)), Some(named);
    }

    /** Submit, run without interruption: the job joins exactly the routed pool's queue. */
    method Submit(job: Job) returns (r: Result<SubmitResult, SubmitError>)
      requires Valid()
      modifies set p | p in order :: p.queue
      ensures Valid() && order == old(order)
      ensures draining ==> r == Err(Draining)
      ensures !draining ==> r == old(Resolve(Snapshot(), job.service, job.pool))
      ensures forall p | p in order :: p.active == old(p.active)
      ensures forall p | p in order && (r.Err? || p.cfg.name != r.value.pool) :: p.queue.order == old(p.queue.order)
      ensures forall p | p in order && r.Ok? && p.cfg.name == r.value.pool ::
        p.queue.order == Enqueue(old(p.queue.order), JobItem(job, job.priority, p.queue.seqNo))
    {
      hide PriorityQueue.Valid, Resolve, Loads, Enqueue;
      if draining {
        return Err(Draining);
      }
      var target;
      r, target := ResolvePool(job);
      if target.Some? {
        var p := target.value;
        Others(order, pools, services, p);
        hide Wiring;
        p.queue.Push(job);
      }
    }
  }

  lemma NothingWired()
    ensures Wiring([], map[], map[])
  {
  }

  lemma Others(order: seq<Pool>, pools: map<string, Pool>, services: map<string, seq<Pool>>, p: Pool)
    requires Wiring(order, pools, services) && p in order
    ensures forall q | q in order && q != p :: q.queue != p.queue && q.cfg.name != p.cfg.name
  {
  }

  /** The loop of leastLoaded. */
  method LeastActive(ps: seq<Pool>) returns (best: Pool)
    requires ps != []
    ensures best in ps && best.Now() == Loads(ps)[FirstLeast(Loads(ps))]
  {
    hide Loads;
    ghost var own := Loads(ps);
    best := ps[0];
    ghost var b: nat := 0;
    assert own[..1] == [own[0]];
    for i := 1 to |ps|
      invariant b < i && best == ps[b] && IsFirstLeast(own[..i], b)
      invariant FirstLeastFrom(own, b, i) == FirstLeast(own)
    {
      assert own[i] == ps[i].Now() && own[b] == best.Now();
      if ps[i].active < best.active {
        best := ps[i];
        b := i;
      }
    }
  }

  /** The broker's route meets the routing contract on its own snapshot. */
  lemma BrokerMeetsContract(b: Broker, job: Job)
    requires b.Valid()
    ensures Contract(b.Snapshot(), job.service, job.pool, Resolve(b.Snapshot(), job.service, job.pool))
  {
    forall i, j | 0 <= i < j < |b.order| ensures b.Snapshot()[i].name != b.Snapshot()[j].name {
      assert b.order[i].cfg.name != b.order[j].cfg.name;
    }
    forall i | 0 <= i < |b.order| ensures b.Snapshot()[i].name != "" {
      assert b.order[i] in b.order;
    }
    ResolveMeetsContract(b.Snapshot(), job.service, job.pool);
  }
}
