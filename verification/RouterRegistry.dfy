// Downstream routers: health status with strike hysteresis and capped backoff.
module RouterRegistry {
  import opened Arithmetic
  import opened Sequences
  import opened Text
  import StableSort

  const ROUTER_UNHEALTHY_STRIKES := 3
  const ROUTER_BACKOFF_CAP := 3600
  const LIVENESS_PATHS := ["/health", "/v1/health", "/api/health"]

  datatype Health = Unknown | Probing | Healthy | Cooldown

  datatype RouterState = RouterState(
    name: string,
    priority: int,
    weight: int,
    healthCheckPath: string,
    health: Health,
    models: seq<string>,
    lastSuccess: Option<int>,
    lastFailure: Option<int>,
    cooldownUntil: Option<int>,
    probesOk: nat,
    failureCount: nat)

  function Fresh(name: string, priority: int, weight: int, path: string): (r: RouterState)
    ensures r.health == Unknown && r.failureCount == 0 && r.probesOk == 0
    ensures r.lastSuccess == r.lastFailure == r.cooldownUntil == None
  {
    RouterState(name, priority, weight, path, Unknown, [], None, None, None, 0, 0)
  }

  // One good probe.
  function OnHealthy(r: RouterState, models: seq<string>, now: int): RouterState {
    var s := r.(models := models, lastSuccess := Some(now), cooldownUntil := None, failureCount := 0);
    match r.health
    case Healthy => s.(probesOk := 0)
    case Probing =>
      if r.probesOk + 1 >= 2 then s.(health := Healthy, probesOk := 0)
      else s.(probesOk := r.probesOk + 1)
    case _ =>
      if r.healthCheckPath in LIVENESS_PATHS then s.(health := Healthy, probesOk := 0)
      else s.(health := Probing, probesOk := 1)
  }

  function Pow2(n: nat): nat {
    if n == 0 then 1 else 2 * Pow2(n - 1)
  }

  // Seconds of cooldown after `failures` consecutive failures.
  function Backoff(failures: nat): int
    requires failures >= ROUTER_UNHEALTHY_STRIKES
  {
    Min(60 * Pow2(Min(failures, 10) - ROUTER_UNHEALTHY_STRIKES), ROUTER_BACKOFF_CAP)
  }

  // One failed probe or request.
  function OnUnhealthy(r: RouterState, now: int): RouterState {
    var n := r.failureCount + 1;
    var s := r.(failureCount := n, lastFailure := Some(now));
    if n < ROUTER_UNHEALTHY_STRIKES then
      if r.health == Healthy then s.(cooldownUntil := None) else s
    else s.(health := Cooldown, cooldownUntil := Some(now + Backoff(n)))
  }

  // The routers in registration order: `self._routers.values()`.
  function InOrder(names: seq<string>, routers: map<string, RouterState>): (rs: seq<RouterState>)
    requires forall n :: n in names ==> n in routers
    ensures |rs| == |names|
    ensures forall i :: 0 <= i < |names| ==> rs[i] == routers[names[i]]
  {
    seq(|names|, i requires 0 <= i < |names| => routers[names[i]])
  }

  function HealthyOnly(rs: seq<RouterState>): (hs: seq<RouterState>)
    ensures forall r :: r in hs <==> r in rs && r.health == Healthy
  {
    if rs == [] then []
    else if rs[0].health == Healthy then [rs[0]] + HealthyOnly(rs[1..])
    else HealthyOnly(rs[1..])
  }

  function ByPriorityThenWeight(): RouterState -> StableSort.Key {
    (r: RouterState) => (r.priority, -r.weight)
  }

  function HealthyRouters(rs: seq<RouterState>): seq<RouterState> {
    StableSort.Sort(ByPriorityThenWeight(), HealthyOnly(rs))
  }

  function Names(rs: seq<RouterState>): (ns: seq<string>)
    ensures |ns| == |rs|
    ensures forall i :: 0 <= i < |rs| ==> ns[i] == rs[i].name
  {
    seq(|rs|, i requires 0 <= i < |rs| => rs[i].name)
  }

  lemma {:induction false} HealthyOnlyJoins(a: seq<RouterState>, b: seq<RouterState>)
    ensures HealthyOnly(a + b) == HealthyOnly(a) + HealthyOnly(b)
  {
    if a == [] {
      assert a + b == b;
    } else {
      assert (a + b)[1..] == a[1..] + b;
      HealthyOnlyJoins(a[1..], b);
    }
  }

  lemma {:induction false} HealthyOnlyDistinct(rs: seq<RouterState>)
    requires Distinct(Names(rs))
    ensures Distinct(Names(HealthyOnly(rs)))
  {
    if rs == [] {
    } else {
      assert forall i :: 0 <= i < |rs[1..]| ==> Names(rs[1..])[i] == Names(rs)[i + 1];
      HealthyOnlyDistinct(rs[1..]);
      var tail := HealthyOnly(rs[1..]);
      forall i | 0 <= i < |tail| ensures tail[i].name != rs[0].name {
        assert tail[i] in rs[1..];
        var k :| 0 <= k < |rs[1..]| && rs[1..][k] == tail[i];
        assert Names(rs)[k + 1] != Names(rs)[0];
      }
    }
  }

  lemma {:induction false} DistinctNamesByMultiset(a: seq<RouterState>, b: seq<RouterState>)
    requires multiset(a) == multiset(b) && Distinct(Names(a))
    ensures Distinct(Names(b))
  {
    forall i, j | 0 <= i < j < |b| ensures b[i].name != b[j].name {
      if b[i].name == b[j].name {
        assert b[i] in multiset(a) && b[j] in multiset(a);
        var p :| 0 <= p < |a| && a[p] == b[i];
        var q :| 0 <= q < |a| && a[q] == b[j];
        assert Names(a)[p] == Names(a)[q];
        assert p == q;
        TwiceIn(b, i, j);
        OnceIn(a, p);
      }
    }
  }

  lemma {:induction false} TwiceIn(b: seq<RouterState>, i: nat, j: nat)
    requires i < j < |b| && b[i] == b[j]
    ensures multiset(b)[b[i]] >= 2
  {
    assert b == b[..j] + [b[j]] + b[j + 1..];
    assert b[..j][i] == b[i];
  }

  lemma {:induction false} OnceIn(a: seq<RouterState>, p: nat)
    requires p < |a| && Distinct(Names(a))
    ensures multiset(a)[a[p]] == 1
  {
    var x := a[p];
    forall i | 0 <= i < |a| && i != p ensures a[i] != x {
      assert Names(a)[i] != Names(a)[p];
    }
    assert a == a[..p] + [x] + a[p + 1..];
    assert x !in a[..p] && x !in a[p + 1..];
  }

  lemma {:induction false} Ascends(hs: seq<RouterState>)
    requires StableSort.Sorted(ByPriorityThenWeight(), hs)
    ensures forall i, j :: 0 <= i < j < |hs| ==>
              hs[i].priority < hs[j].priority || (hs[i].priority == hs[j].priority && hs[i].weight >= hs[j].weight)
  {
    forall i, j | 0 <= i < j < |hs|
      ensures hs[i].priority < hs[j].priority || (hs[i].priority == hs[j].priority && hs[i].weight >= hs[j].weight)
    {
      assert StableSort.KeyLe(ByPriorityThenWeight()(hs[i]), ByPriorityThenWeight()(hs[j]));
    }
  }

  // The selector may rely on: exactly the healthy routers, each once, lowest priority
  // number first, heavier first within a priority, and else in the order they were in.
  lemma {:induction false} HealthyRoutersSpec(rs: seq<RouterState>)
    requires Distinct(Names(rs))
    ensures forall r :: r in HealthyRouters(rs) <==> r in rs && r.health == Healthy
    ensures Distinct(Names(HealthyRouters(rs)))
    ensures var hs := HealthyRouters(rs);
            forall i, j :: 0 <= i < j < |hs| ==>
              hs[i].priority < hs[j].priority || (hs[i].priority == hs[j].priority && hs[i].weight >= hs[j].weight)
    ensures forall k :: StableSort.WithKey(ByPriorityThenWeight(), HealthyRouters(rs), k)
                     == StableSort.WithKey(ByPriorityThenWeight(), HealthyOnly(rs), k)
  {
    StableSort.SortSpec(ByPriorityThenWeight(), HealthyOnly(rs));
    Ascends(HealthyRouters(rs));
    StableSort.SortMembers(ByPriorityThenWeight(), HealthyOnly(rs));
    HealthyOnlyDistinct(rs);
    DistinctNamesByMultiset(HealthyOnly(rs), HealthyRouters(rs));
  }

  class RouterRegistry {
    const names: seq<string>
    var routers: map<string, RouterState>

    ghost predicate Valid()
      reads this
    {
      && Distinct(names)
      && (forall n :: n in routers <==> n in names)
      && (forall n :: n in routers ==> routers[n].name == n)
    }

    // A later configuration entry of the same name replaces an earlier one and
    // keeps its place, as assignment to a dict key does.
    constructor (configs: seq<RouterState>)
      ensures Valid()
      ensures forall n :: n in names <==> exists i :: 0 <= i < |configs| && configs[i].name == n
      ensures forall n :: n in routers ==> routers[n].health == Unknown && routers[n].failureCount == 0
    {
      var ns: seq<string> := [];
      var m: map<string, RouterState> := map[];
      for k := 0 to |configs|
        invariant Distinct(ns)
        invariant forall n :: n in m <==> n in ns
        invariant forall n :: n in m ==> m[n].name == n && m[n].health == Unknown && m[n].failureCount == 0
        invariant forall n :: n in ns <==> exists i :: 0 <= i < k && configs[i].name == n
      {
        var c := configs[k];
        if c.name !in m {
          ns := ns + [c.name];
        }
        m := m[c.name := Fresh(c.name, c.priority, c.weight, c.healthCheckPath)];
      }
      names := ns;
      routers := m;
    }

    ghost function All(): (rs: seq<RouterState>)
      requires Valid()
      reads this
      ensures Names(rs) == names
    {
      InOrder(names, routers)
    }

    function GetHealthyRouters(): (hs: seq<RouterState>)
      requires Valid()
      reads this
      ensures hs == HealthyRouters(All())
      ensures Distinct(Names(hs))
      ensures forall r :: r in hs <==> r.name in routers && routers[r.name] == r && r.health == Healthy
    {
      var rs := InOrder(names, routers);
      assert Names(rs) == names;
      HealthyRoutersSpec(rs);
      assert forall n :: n in names ==> routers[n] in rs by {
        forall n | n in names ensures routers[n] in rs {
          var i :| 0 <= i < |names| && names[i] == n;
          assert rs[i] == routers[n];
        }
      }
      HealthyRouters(rs)
    }

    method MarkHealthy(name: string, models: seq<string>, now: int)
      requires Valid()
      modifies this
      ensures Valid()
      ensures routers == if name in old(routers)
                         then old(routers)[name := OnHealthy(old(routers)[name], models, now)]
                         else old(routers)
    {
      if name !in routers {
        return;
      }
      var r := routers[name].(models := models, lastSuccess := Some(now), cooldownUntil := None, failureCount := 0);
      if r.health == Healthy {
        r := r.(probesOk := 0);
      } else if r.health == Probing {
        r := r.(probesOk := r.probesOk + 1);
        if r.probesOk >= 2 {
          r := r.(health := Healthy, probesOk := 0);
        }
      } else if r.healthCheckPath in LIVENESS_PATHS {
        r := r.(probesOk := 0, health := Healthy);
      } else {
        r := r.(probesOk := 1, health := Probing);
      }
      routers := routers[name := r];
    }

    method MarkUnhealthy(name: string, now: int)
      requires Valid()
      modifies this
      ensures Valid()
      ensures routers == if name in old(routers)
                         then old(routers)[name := OnUnhealthy(old(routers)[name], now)]
                         else old(routers)
    {
      if name !in routers {
        return;
      }
      var r := routers[name];
      r := r.(failureCount := r.failureCount + 1, lastFailure := Some(now));
      if r.failureCount < ROUTER_UNHEALTHY_STRIKES {
        if r.health == Healthy {
          r := r.(cooldownUntil := None);
        }
        routers := routers[name := r];
        return;
      }
      var capped := Min(r.failureCount, 10);
      var backoff := Min(60 * Pow2(capped - ROUTER_UNHEALTHY_STRIKES), ROUTER_BACKOFF_CAP);
      routers := routers[name := r.(health := Cooldown, cooldownUntil := Some(now + backoff))];
    }

    method MarkProbing(name: string)
      requires Valid()
      modifies this
      ensures Valid()
      ensures routers == if name in old(routers)
                         then old(routers)[name := old(routers)[name].(health := Probing)]
                         else old(routers)
    {
      if name in routers {
        routers := routers[name := routers[name].(health := Probing)];
      }
    }

    method RefreshModels(name: string, models: seq<string>)
      requires Valid()
      modifies this
      ensures Valid()
      ensures routers == if name in old(routers)
                         then old(routers)[name := old(routers)[name].(models := models)]
                         else old(routers)
    {
      if name in routers {
        routers := routers[name := routers[name].(models := models)];
      }
    }
  }

  // ---- Whole runs of one router -------------------------------------------

  datatype Event =
    | Up(models: seq<string>, at: int)
    | Down(at: int)
    | Probe
    | Refresh(models: seq<string>)

  function Apply(r: RouterState, e: Event): RouterState {
    match e
    case Up(models, at) => OnHealthy(r, models, at)
    case Down(at) => OnUnhealthy(r, at)
    case Probe => r.(health := Probing)
    case Refresh(models) => r.(models := models)
  }

  function Run(start: RouterState, events: seq<Event>): RouterState {
    if events == [] then start
    else Apply(Run(start, events[..|events| - 1]), events[|events| - 1])
  }

  // Failures since the last success, read off the event history alone.
  function Strikes(events: seq<Event>): nat {
    if events == [] then 0
    else match events[|events| - 1]
      case Up(_, _) => 0
      case Down(_) => Strikes(events[..|events| - 1]) + 1
      case _ => Strikes(events[..|events| - 1])
  }

  // The most recent failure time in the history.
  function LastDown(events: seq<Event>): Option<int> {
    if events == [] then None
    else if events[|events| - 1].Down? then Some(events[|events| - 1].at)
    else LastDown(events[..|events| - 1])
  }

  // Hysteresis over every run: a router the selector sees has had fewer than
  // three failures since its last success, so one or two isolated failures
  // never remove it; and a cooling router waits the backoff of its strikes
  // from its latest failure.
  lemma {:induction false} StrikeHysteresis(start: RouterState, events: seq<Event>)
    requires start.health == Unknown && start.failureCount == 0
    ensures var r := Run(start, events);
      && r.failureCount == Strikes(events)
      && (r.health == Healthy ==> Strikes(events) < ROUTER_UNHEALTHY_STRIKES)
      && (r.health == Cooldown ==>
            && Strikes(events) >= ROUTER_UNHEALTHY_STRIKES
            && LastDown(events).Some?
            && r.cooldownUntil == Some(LastDown(events).value + Backoff(Strikes(events))))
  {
    if events == [] {
    } else {
      StrikeHysteresis(start, events[..|events| - 1]);
    }
  }

  // The latest catalog reported by a good probe or a refresh.
  function LatestModels(events: seq<Event>, start: seq<string>): seq<string> {
    if events == [] then start
    else match events[|events| - 1]
      case Up(models, _) => models
      case Refresh(models) => models
      case _ => LatestModels(events[..|events| - 1], start)
  }

  // The most recent success time in the history.
  function LastUp(events: seq<Event>): Option<int> {
    if events == [] then None
    else if events[|events| - 1].Up? then Some(events[|events| - 1].at)
    else LastUp(events[..|events| - 1])
  }

  // A router's stamps are read off the history: the last success, the last failure, and a
  // deadline exactly from the third failure in a row on.
  lemma {:induction false} StampsAreRead(start: RouterState, events: seq<Event>)
    requires start.failureCount == 0 && start.lastSuccess == start.lastFailure == start.cooldownUntil == None
    ensures var r := Run(start, events);
      && r.failureCount == Strikes(events) && r.lastSuccess == LastUp(events) && r.lastFailure == LastDown(events)
      && (r.cooldownUntil.Some? <==> Strikes(events) >= 3)
      && (Strikes(events) >= 3 ==>
            LastDown(events).Some? && r.cooldownUntil == Some(LastDown(events).value + Backoff(Strikes(events))))
  {
    if events == [] {
    } else {
      var front, e := events[..|events| - 1], events[|events| - 1];
      StampsAreRead(start, front);
      DeadlineStep(Run(start, front), e, Strikes(front), LastDown(front));
    }
  }

  lemma {:induction false} DeadlineStep(r: RouterState, e: Event, strikes: nat, down: Option<int>)
    requires r.failureCount == strikes && (r.cooldownUntil.Some? <==> strikes >= 3)
    requires strikes >= 3 ==> down.Some? && r.cooldownUntil == Some(down.value + Backoff(strikes))
    ensures var q := Apply(r, e);
      && q.lastSuccess == (if e.Up? then Some(e.at) else r.lastSuccess)
      && q.lastFailure == (if e.Down? then Some(e.at) else r.lastFailure)
      && (match e
          case Up(_, _) => q.failureCount == 0 && q.cooldownUntil == None
          case Down(at) =>
            && q.failureCount == strikes + 1
            && q.cooldownUntil == if strikes >= 2 then Some(at + Backoff(strikes + 1)) else None
          case _ => q.failureCount == strikes && q.cooldownUntil == r.cooldownUntil)
  {
  }

  predicate LivenessPath(path: string) {
    path == "/health" || path == "/v1/health" || path == "/api/health"
  }

  // One good probe stands for a router that is being probed: a good one from elsewhere than
  // healthy or a liveness path starts, the second uses it up; nothing else changes it.
  predicate Stands(start: RouterState, events: seq<Event>) {
    if events == [] then false
    else
      var front, e := events[..|events| - 1], events[|events| - 1];
      if !e.Up? then Stands(start, front)
      else match Run(start, front).health
        case Healthy => false
        case Probing => !Stands(start, front)
        case _ => !LivenessPath(start.healthCheckPath)
  }

  lemma {:induction false} StandsIsCounted(start: RouterState, events: seq<Event>)
    requires start.probesOk == 0
    ensures Run(start, events).probesOk == if Stands(start, events) then 1 else 0
    ensures Run(start, events).healthCheckPath == start.healthCheckPath
  {
    if events == [] {
    } else {
      StandsIsCounted(start, events[..|events| - 1]);
    }
  }

  // Over every run: a router becomes healthy exactly on a good probe of a liveness path or
  // on the second standing one; it is being probed exactly from an announced probe or a
  // first good one on; and it cools down exactly from its third failure in a row on.
  lemma {:induction false} HealthChangesIff(start: RouterState, events: seq<Event>)
    requires start.failureCount == 0 && start.probesOk == 0 && events != []
    requires start.lastSuccess == start.lastFailure == start.cooldownUntil == None
    ensures var front, e := events[..|events| - 1], events[|events| - 1];
            var before, after := Run(start, front).health, Run(start, events).health;
            && (before != Healthy && after == Healthy <==>
                  && before != Healthy && e.Up?
                  && if before == Probing then Stands(start, front) else LivenessPath(start.healthCheckPath))
            && (before != Probing && after == Probing <==>
                  && before != Probing
                  && (e.Probe? || (e.Up? && before != Healthy && !LivenessPath(start.healthCheckPath))))
            && (before != Cooldown && after == Cooldown <==> before != Cooldown && e.Down? && Strikes(events) >= 3)
            && (after == Unknown ==> before == Unknown)
  {
    var front := events[..|events| - 1];
    StampsAreRead(start, front);
    StandsIsCounted(start, front);
  }

  // Whether one event leaves or makes a router healthy, and what it changes besides.
  lemma {:induction false} HealthAfter(r: RouterState, e: Event)
    ensures r.health == Healthy ==>
              (Apply(r, e).health != Healthy <==> e.Probe? || (e.Down? && r.failureCount >= 2))
    ensures r.health != Healthy ==>
              (Apply(r, e).health == Healthy <==>
                 e.Up? && if r.health == Probing then r.probesOk >= 1 else r.healthCheckPath in LIVENESS_PATHS)
    ensures Apply(r, e).name == r.name && Apply(r, e).weight == r.weight && Apply(r, e).priority == r.priority
    ensures Apply(r, e).healthCheckPath == r.healthCheckPath
  {
  }

  // Over every run a healthy router stops being healthy exactly when a probe of it is
  // announced or its third failure since the last success comes, and its catalog is the
  // latest one reported.
  lemma {:induction false} LeavesHealthyIff(start: RouterState, events: seq<Event>)
    requires start.health == Unknown && start.failureCount == 0 && events != []
    ensures var before, after := Run(start, events[..|events| - 1]), Run(start, events);
            var e := events[|events| - 1];
            && (before.health == Healthy ==>
                  (after.health != Healthy <==> e.Probe? || (e.Down? && Strikes(events) >= 3)))
            && after.models == LatestModels(events, start.models)
  {
    StrikeHysteresis(start, events[..|events| - 1]);
    ModelsAreLatest(start, events);
  }

  lemma {:induction false} ModelsAreLatest(start: RouterState, events: seq<Event>)
    ensures Run(start, events).models == LatestModels(events, start.models)
  {
    if events == [] {
    } else {
      ModelsAreLatest(start, events[..|events| - 1]);
    }
  }

  function Ups(events: seq<Event>): nat {
    if events == [] then 0
    else Ups(events[..|events| - 1]) + if events[|events| - 1].Up? then 1 else 0
  }

  // Over every run: a router probed through its full catalog is healthy only
  // after two good probes, one probed for liveness only after one.
  lemma {:induction false} PromotionTakesProbes(start: RouterState, events: seq<Event>)
    requires start.health == Unknown && start.probesOk == 0
    ensures var r := Run(start, events);
      && r.probesOk <= 1 && r.probesOk <= Ups(events)
      && (r.health == Healthy ==> Ups(events) >= if start.healthCheckPath in LIVENESS_PATHS then 1 else 2)
      && r.healthCheckPath == start.healthCheckPath
  {
    if events == [] {
    } else {
      PromotionTakesProbes(start, events[..|events| - 1]);
    }
  }

  function Downs(events: seq<Event>): nat {
    if events == [] then 0
    else Downs(events[..|events| - 1]) + if events[|events| - 1].Down? then 1 else 0
  }

  // A probe was announced after the latest failure.
  predicate ProbedSince(events: seq<Event>) {
    events != [] && !events[|events| - 1].Down?
    && (events[|events| - 1].Probe? || ProbedSince(events[..|events| - 1]))
  }

  predicate NoUp(events: seq<Event>) {
    forall i :: 0 <= i < |events| ==> !events[i].Up?
  }

  // Whether the first good probe still stands: fewer than three failures came between,
  // or a probe was announced after them.
  predicate FirstProbeStands(between: seq<Event>) {
    Downs(between) < ROUTER_UNHEALTHY_STRIKES || ProbedSince(between)
  }

  lemma {:induction false} BetweenProbes(r: RouterState, between: seq<Event>)
    requires r.health == Probing && r.probesOk == 1 && r.failureCount == 0 && NoUp(between)
    ensures var q := Run(r, between);
      && q.probesOk == 1 && q.failureCount == Downs(between)
      && q.healthCheckPath == r.healthCheckPath
      && q.health == if FirstProbeStands(between) then Probing else Cooldown
  {
    if between == [] {
    } else {
      BetweenProbes(r, between[..|between| - 1]);
    }
  }

  // The two probes need not be consecutive.  Whatever happens between them, the second
  // promotes a router probed through its full catalog exactly when fewer than three
  // failures came between, or a probe was announced after the last one.
  lemma {:induction false} SecondProbePromotesIff(start: RouterState, first: Event, between: seq<Event>, second: Event)
    requires start.health == Unknown && start.healthCheckPath !in LIVENESS_PATHS
    requires first.Up? && second.Up? && NoUp(between)
    ensures Run(start, [first] + between + [second]).health == Healthy <==> FirstProbeStands(between)
  {
    RunSnoc(start, [], first);
    RunJoin(start, [first], between);
    RunSnoc(start, [first] + between, second);
    BetweenProbes(Run(start, [first]), between);
  }

  lemma {:induction false} RunJoin(start: RouterState, a: seq<Event>, b: seq<Event>)
    ensures Run(start, a + b) == Run(Run(start, a), b)
  {
    if b == [] {
      assert a + b == a;
    } else {
      assert (a + b)[..|a + b| - 1] == a + b[..|b| - 1];
      RunJoin(start, a, b[..|b| - 1]);
    }
  }

  lemma {:induction false} RunSnoc(start: RouterState, events: seq<Event>, e: Event)
    ensures Run(start, events + [e]) == Apply(Run(start, events), e)
  {
    assert (events + [e])[..|events|] == events;
  }

  lemma {:induction false} Pow2Monotone(a: nat, b: nat)
    requires a <= b
    ensures Pow2(a) <= Pow2(b)
    decreases b
  {
    if a < b {
      Pow2Monotone(a, b - 1);
    }
  }

  // Backoff grows with the strikes and stays between a minute and the cap.
  lemma {:induction false} BackoffBounds(a: nat, b: nat)
    requires ROUTER_UNHEALTHY_STRIKES <= a <= b
    ensures 60 <= Backoff(a) <= Backoff(b) <= ROUTER_BACKOFF_CAP
    ensures Backoff(3) == 60 && Backoff(a + 1) == Min(2 * Backoff(a), 3600)
  {
    assert Pow2(6) == 64 && Pow2(7) == 128;
    if a >= 9 {
      Pow2Monotone(6, Min(a, 10) - ROUTER_UNHEALTHY_STRIKES);
    }
    Pow2Monotone(0, Min(a, 10) - ROUTER_UNHEALTHY_STRIKES);
    Pow2Monotone(Min(a, 10) - ROUTER_UNHEALTHY_STRIKES, Min(b, 10) - ROUTER_UNHEALTHY_STRIKES);
  }
}
