// The meta-router: which downstream router serves a request.
module MetaRouter {
  import opened RouterRegistry
  import opened Sequences
  import opened Text
  import Mapper = ModelIdMapper
  import RR = RoundRobin

  datatype Sensitivity = Public | Internal | Sensitive

  datatype Policy = KnownNoTraining | TrainingPossible | Local | UnknownPolicy

  predicate Allowed(policy: Policy, sensitivity: Sensitivity) {
    sensitivity == Public || policy != TrainingPossible
  }

  datatype Eligibility = Routers(routers: seq<RouterState>) | PolicyBlocked | Unavailable

  datatype Selection = Selected(router: RouterState) | PolicyUnavailable | ServiceUnavailable

  // ---- Catalog matching ------------------------------------------------------

  predicate CanonicalServes(table: Mapper.PrefixTable, r: RouterState, canonical: string) {
    Mapper.CanonicalMatch(table, r.models, canonical)
  }

  // Same provider prefix, or the bare model name.
  predicate PrefixMatch(canonical: string, m: string) {
    || (BeforeSlash(canonical) != "" && BeforeSlash(canonical) + "/" <= m)
    || (HasSlash(canonical) && m == AfterSlash(canonical))
  }

  predicate PrefixServes(r: RouterState, canonical: string) {
    exists m :: m in r.models && PrefixMatch(canonical, m)
  }

  predicate KiroServes(r: RouterState, model: string) {
    "kr/" <= model && r.name == "Kiro" && model[3..] in r.models
  }

  predicate Serves(table: Mapper.PrefixTable, r: RouterState, model: string) {
    var canonical := Mapper.Canonical(table, model);
    CanonicalServes(table, r, canonical) || PrefixServes(r, canonical)
  }

  function ByKiro(model: string): RouterState -> bool {
    (r: RouterState) => KiroServes(r, model)
  }

  function ByCanonical(table: Mapper.PrefixTable, canonical: string): RouterState -> bool {
    (r: RouterState) => CanonicalServes(table, r, canonical)
  }

  function ByPrefix(canonical: string): RouterState -> bool {
    (r: RouterState) => PrefixServes(r, canonical)
  }

  function Where(rs: seq<RouterState>, p: RouterState -> bool): (r: seq<RouterState>)
    ensures forall x :: x in r <==> x in rs && p(x)
    ensures |r| <= |rs|
  {
    if rs == [] then []
    else if p(rs[0]) then [rs[0]] + Where(rs[1..], p)
    else Where(rs[1..], p)
  }

  // A filter goes through in order.
  lemma {:induction false} WhereJoins(a: seq<RouterState>, b: seq<RouterState>, p: RouterState -> bool)
    ensures Where(a + b, p) == Where(a, p) + Where(b, p)
  {
    if a == [] {
      assert a + b == b;
    } else {
      assert (a + b)[1..] == a[1..] + b;
      WhereJoins(a[1..], b, p);
    }
  }

  lemma {:induction false} WhereDistinct(rs: seq<RouterState>, p: RouterState -> bool)
    requires Distinct(Names(rs))
    ensures Distinct(Names(Where(rs, p)))
  {
    if rs == [] {
    } else {
      assert forall i :: 0 <= i < |rs| - 1 ==> Names(rs[1..])[i] == Names(rs)[i + 1];
      WhereDistinct(rs[1..], p);
      var tail := Where(rs[1..], p);
      forall i | 0 <= i < |tail| ensures tail[i].name != rs[0].name {
        assert tail[i] in rs[1..];
        var k :| 0 <= k < |rs[1..]| && rs[1..][k] == tail[i];
        assert Names(rs)[k + 1] != Names(rs)[0];
      }
    }
  }

  // `_eligible_routers`: the policy gate, then the routers serving the model.
  function Eligible(table: Mapper.PrefixTable, healthy: seq<RouterState>, model: string,
                    sensitivity: Sensitivity, policy: Policy): (e: Eligibility)
    ensures e.Routers? ==> e.routers != [] && forall r :: r in e.routers ==> r in healthy
  {
    if model != "" && sensitivity != Public && (!Allowed(policy, sensitivity) || healthy == []) then PolicyBlocked
    else if healthy == [] then Unavailable
    else if model == "" then Routers(healthy)
    else ServingModel(table, healthy, model)
  }

  // The Kiro branch, then canonical match, then the provider-prefix fallback.
  function ServingModel(table: Mapper.PrefixTable, healthy: seq<RouterState>, model: string): (e: Eligibility)
    ensures !e.PolicyBlocked?
    ensures e.Routers? ==> e.routers != [] && forall r :: r in e.routers ==> r in healthy
  {
    var canonical := Mapper.Canonical(table, model);
    var kiro := Where(healthy, ByKiro(model));
    var capable := Where(healthy, ByCanonical(table, canonical));
    var serving := Where(healthy, ByPrefix(canonical));
    if "kr/" <= model && kiro != [] then Routers(kiro)
    else if capable != [] then Routers(capable)
    else if serving != [] then Routers(serving)
    else Unavailable
  }

  lemma {:induction false} EligibleDistinct(table: Mapper.PrefixTable, healthy: seq<RouterState>, model: string,
                         sensitivity: Sensitivity, policy: Policy)
    requires Distinct(Names(healthy))
    ensures var e := Eligible(table, healthy, model, sensitivity, policy);
            e.Routers? ==> Distinct(Names(e.routers))
  {
    var canonical := Mapper.Canonical(table, model);
    WhereDistinct(healthy, ByKiro(model));
    WhereDistinct(healthy, ByCanonical(table, canonical));
    WhereDistinct(healthy, ByPrefix(canonical));
  }

  predicate Served(table: Mapper.PrefixTable, healthy: seq<RouterState>, model: string) {
    exists r :: r in healthy && Serves(table, r, model)
  }

  function Kept(table: Mapper.PrefixTable, healthy: seq<RouterState>, models: seq<string>): seq<string> {
    if models == [] then []
    else if Served(table, healthy, models[0]) then [models[0]] + Kept(table, healthy, models[1..])
    else Kept(table, healthy, models[1..])
  }

  lemma {:induction false} KeptMembers(table: Mapper.PrefixTable, healthy: seq<RouterState>, models: seq<string>,
                                       m: string)
    ensures m in Kept(table, healthy, models) <==> m in models && exists r :: r in healthy && Serves(table, r, m)
  {
    if models == [] {
    } else {
      KeptMembers(table, healthy, models[1..], m);
      assert m in models <==> m == models[0] || m in models[1..];
    }
  }

  lemma {:induction false} KeptJoins(table: Mapper.PrefixTable, healthy: seq<RouterState>, a: seq<string>,
                                     b: seq<string>)
    ensures Kept(table, healthy, a + b) == Kept(table, healthy, a) + Kept(table, healthy, b)
  {
    if a == [] {
      assert a + b == b;
    } else {
      assert (a + b)[1..] == a[1..] + b;
      KeptJoins(table, healthy, a[1..], b);
    }
  }

  function Count(m: map<string, nat>, name: string): nat {
    if name in m then m[name] else 0
  }

  function NotIn(exclude: set<string>): RouterState -> bool {
    (r: RouterState) => r.name !in exclude
  }

  function Steady(streaks: map<string, nat>, threshold: int): RouterState -> bool {
    (r: RouterState) => Count(streaks, r.name) < threshold
  }

  // The routers a pick is made from.
  function Pool(eligible: seq<RouterState>, exclude: set<string>, streaks: map<string, nat>,
                threshold: int): seq<RouterState> {
    var open := Where(eligible, NotIn(exclude));
    var steady := Where(open, Steady(streaks, threshold));
    if steady == [] then open else steady
  }

  // A router on a failure streak is in the pool only when every candidate is.
  lemma {:induction false} StreaksAreAvoided(eligible: seq<RouterState>, exclude: set<string>,
                                             streaks: map<string, nat>, threshold: int, r: RouterState)
    ensures r in Pool(eligible, exclude, streaks, threshold)
            <==> && r in eligible && r.name !in exclude
                 && (Count(streaks, r.name) >= threshold ==>
                       forall q :: q in eligible && q.name !in exclude ==> Count(streaks, q.name) >= threshold)
  {
    var open := Where(eligible, NotIn(exclude));
    var steady := Where(open, Steady(streaks, threshold));
    if steady != [] {
      assert steady[0] in open && Count(streaks, steady[0].name) < threshold;
    } else {
      forall q | q in eligible && q.name !in exclude ensures Count(streaks, q.name) >= threshold {
        assert q in open && q !in steady;
      }
    }
  }

  lemma {:induction false} WhereAll(rs: seq<RouterState>, p: RouterState -> bool)
    requires forall r :: r in rs ==> p(r)
    ensures Where(rs, p) == rs
  {
    if rs == [] {
    } else {
      WhereAll(rs[1..], p);
    }
  }

  // What a fallback may answer: a weighted pick among the eligible routers
  // outside `exclude`, and no pick and no change when there is none.
  ghost predicate FallbackResult(e: Eligibility, exclude: set<string>, before: RR.Weights, after: RR.Weights,
                                 s: Selection, pool: seq<RouterState>, b: nat)
  {
    match s
    case Selected(router) =>
      && e.Routers? && pool == Where(e.routers, NotIn(exclude))
      && Distinct(Names(pool)) && RR.Picked(pool, before, after, b) && router == pool[b]
    case PolicyUnavailable => e == PolicyBlocked && after == before
    case ServiceUnavailable =>
      (e == Unavailable || (e.Routers? && Where(e.routers, NotIn(exclude)) == [])) && after == before
  }

  // What a selection may answer: a weighted pick from the pool, or a refusal that
  // changes nothing, exactly when no eligible router is left after the exclusions.
  ghost predicate SelectResult(e: Eligibility, exclude: set<string>, streaks: map<string, nat>, threshold: int,
                               before: RR.Weights, after: RR.Weights, s: Selection, pool: seq<RouterState>, b: nat)
  {
    match s
    case Selected(router) =>
      && e.Routers? && pool == Pool(e.routers, exclude, streaks, threshold)
      && Distinct(Names(pool)) && RR.Picked(pool, before, after, b) && router == pool[b]
    case PolicyUnavailable => e == PolicyBlocked && after == before
    case ServiceUnavailable =>
      (e == Unavailable || (e.Routers? && Where(e.routers, NotIn(exclude)) == [])) && after == before
  }

  ghost predicate SomeOpen(e: Eligibility, exclude: set<string>) {
    e.Routers? && exists r :: r in e.routers && r.name !in exclude
  }

  // A selection succeeds exactly when some eligible router is outside the exclusions, and
  // such a one is selected; the policy is to blame exactly when it gated the request.
  ghost predicate Answered(e: Eligibility, exclude: set<string>, s: Selection) {
    && (s.Selected? <==> SomeOpen(e, exclude))
    && (s.Selected? ==> e.Routers? && s.router in e.routers && s.router.name !in exclude)
    && (s.PolicyUnavailable? <==> e.PolicyBlocked?)
  }

  lemma {:induction false} SelectAnswers(e: Eligibility, exclude: set<string>, streaks: map<string, nat>,
                                         threshold: int, before: RR.Weights, after: RR.Weights,
                                         s: Selection, pool: seq<RouterState>, b: nat)
    requires SelectResult(e, exclude, streaks, threshold, before, after, s, pool, b)
    ensures Answered(e, exclude, s)
  {
    if s.Selected? {
      assert pool[b] in Pool(e.routers, exclude, streaks, threshold);
    }
  }

  lemma {:induction false} FallbackAnswers(e: Eligibility, exclude: set<string>, before: RR.Weights, after: RR.Weights,
                                           s: Selection, pool: seq<RouterState>, b: nat)
    requires FallbackResult(e, exclude, before, after, s, pool, b)
    ensures Answered(e, exclude, s)
  {
    if s.Selected? {
      assert pool[b] in Where(e.routers, NotIn(exclude));
    }
  }

  // The catalogs after registering these routers' models, one after the other.
  function Cataloged(catalogs: map<string, seq<string>>, rs: seq<RouterState>): map<string, seq<string>> {
    if rs == [] then catalogs
    else Cataloged(catalogs, rs[..|rs| - 1])[Mapper.RouterKey(rs[|rs| - 1].name) := rs[|rs| - 1].models]
  }

  // For each router key the last of them counts; other keys keep what they had.
  lemma {:induction false} LastCatalogCounts(catalogs: map<string, seq<string>>, rs: seq<RouterState>, i: int,
                                             key: string)
    requires -1 <= i < |rs| && (i >= 0 ==> Mapper.RouterKey(rs[i].name) == key)
    requires forall j :: i < j < |rs| ==> Mapper.RouterKey(rs[j].name) != key
    ensures var after := Cataloged(catalogs, rs);
            if i >= 0 then key in after && after[key] == rs[i].models
            else if key in catalogs then key in after && after[key] == catalogs[key]
            else key !in after
  {
    if i == |rs| - 1 {
    } else {
      LastCatalogCounts(catalogs, rs[..|rs| - 1], i, key);
    }
  }

  // After raising the first k routers: their new weights, with b the first largest.
  ghost predicate RaisedTo(pool: seq<RouterState>, before: RR.Weights, now: RR.Weights, k: nat, b: nat)
    requires b < k <= |pool|
  {
    && (forall i :: 0 <= i < k ==> RR.At(now, pool[i].name) == RR.Raised(pool, before, i))
    && (forall i :: 0 <= i < k ==> RR.Raised(pool, before, i) <= RR.Raised(pool, before, b))
    && (forall i :: 0 <= i < b ==> RR.Raised(pool, before, i) < RR.Raised(pool, before, b))
    && (forall n :: n !in Names(pool)[..k] ==> RR.At(now, n) == RR.At(before, n))
  }

  lemma {:induction false} RaisedStep(pool: seq<RouterState>, before: RR.Weights, now: RR.Weights, next: RR.Weights,
                                      k: nat, b: nat, best: nat)
    requires Distinct(Names(pool)) && k < |pool|
    requires k == 0 ==> now == before
    requires k > 0 ==> b < k && RaisedTo(pool, before, now, k, b)
    requires next == now[pool[k].name := RR.At(now, pool[k].name) + pool[k].weight]
    requires best == if k == 0 || RR.At(next, pool[k].name) > RR.At(next, pool[b].name) then k else b
    ensures RaisedTo(pool, before, next, k + 1, best)
  {
    var r := pool[k];
    forall i | 0 <= i < k ensures pool[i].name != r.name {
      assert Names(pool)[i] != Names(pool)[k];
    }
    assert Names(pool)[..k + 1] == Names(pool)[..k] + [r.name];
    assert r.name !in Names(pool)[..k];
  }

  lemma {:induction false} PickDone(pool: seq<RouterState>, before: RR.Weights, now: RR.Weights, settled: RR.Weights,
                                    b: nat)
    requires Distinct(Names(pool)) && b < |pool| && RaisedTo(pool, before, now, |pool|, b)
    requires settled == now[pool[b].name := RR.At(now, pool[b].name) - RR.Total(pool)]
    ensures RR.Picked(pool, before, settled, b)
  {
    forall i | 0 <= i < |pool| && i != b ensures pool[i].name != pool[b].name {
      assert Names(pool)[i] != Names(pool)[b];
    }
    assert Names(pool)[..|pool|] == Names(pool);
    assert Names(pool)[b] == pool[b].name;
  }

  // ---- The selector ------------------------------------------------------------

  class MetaRouterSelector {
    const registry: RouterRegistry
    const mapper: Mapper.ModelIdMapper
    const failureThreshold: int
    var currentWeights: RR.Weights
    var successes: map<string, nat>
    var failures: map<string, nat>
    var streaks: map<string, nat>

    // The current weights of all routers ever registered add up to zero.
    ghost predicate Valid()
      reads this, registry, mapper
    {
      && registry.Valid()
      && mapper.prefixes == Mapper.DEFAULT_PREFIXES
      && mapper.explicit == map[]
      && RR.SumAt(registry.names, currentWeights) == 0
    }

    constructor (registry: RouterRegistry, failureThreshold: int)
      requires registry.Valid()
      ensures Valid() && fresh(mapper)
      ensures this.registry == registry && this.failureThreshold == failureThreshold
      ensures currentWeights == map[] && streaks == map[]
    {
      this.registry := registry;
      this.failureThreshold := failureThreshold;
      currentWeights := map[];
      successes := map[];
      failures := map[];
      streaks := map[];
      mapper := new Mapper.ModelIdMapper();
      new;
      RR.SumOfZeros(registry.names, map[]);
    }

    method RegisterCatalogs(rs: seq<RouterState>)
      modifies mapper`catalogs
      ensures mapper.catalogs == Cataloged(old(mapper.catalogs), rs)
    {
      for k := 0 to |rs|
        invariant mapper.catalogs == Cataloged(old(mapper.catalogs), rs[..k])
      {
        assert rs[..k + 1][..k] == rs[..k];
        mapper.RegisterCatalog(rs[k].name, rs[k].models);
      }
      assert rs[..|rs|] == rs;
    }

    method ServableModels(models: seq<string>) returns (out: seq<string>)
      requires Valid()
      modifies mapper`catalogs
      ensures Valid()
      ensures out == Kept(mapper.prefixes, registry.GetHealthyRouters(), models)
      ensures mapper.catalogs == Cataloged(old(mapper.catalogs), registry.GetHealthyRouters())
    {
      var healthy := registry.GetHealthyRouters();
      if healthy == [] {
        KeptOfNone(mapper.prefixes, models);
        return [];
      }
      RegisterCatalogs(healthy);
      var table := mapper.prefixes;
      out := [];
      for k := 0 to |models|
        invariant out + Kept(table, healthy, models[k..]) == Kept(table, healthy, models)
      {
        assert models[k..][1..] == models[k + 1..];
        if Served(table, healthy, models[k]) {
          out := out + [models[k]];
        }
      }
    }

    method EligibleRouters(model: string, sensitivity: Sensitivity, policy: Policy) returns (e: Eligibility)
      requires Valid()
      modifies mapper`catalogs
      ensures Valid()
      ensures e == Eligible(mapper.prefixes, registry.GetHealthyRouters(), model, sensitivity, policy)
      ensures e.Routers? ==> Distinct(Names(e.routers))
      ensures mapper.catalogs == if model == "" || e.PolicyBlocked? then old(mapper.catalogs)
                                 else Cataloged(old(mapper.catalogs), registry.GetHealthyRouters())
    {
      var healthy := registry.GetHealthyRouters();
      EligibleDistinct(mapper.prefixes, healthy, model, sensitivity, policy);
      if model != "" && sensitivity != Public {
        if !Allowed(policy, sensitivity) || healthy == [] {
          return PolicyBlocked;
        }
      }
      if healthy == [] {
        return Unavailable;
      }
      if model != "" {
        e := RoutersServing(healthy, model);
        return;
      }
      return Routers(healthy);
    }

    method RoutersServing(healthy: seq<RouterState>, model: string) returns (e: Eligibility)
      modifies mapper`catalogs
      ensures e == ServingModel(mapper.prefixes, healthy, model)
      ensures mapper.catalogs == Cataloged(old(mapper.catalogs), healthy)
    {
      var canonical := mapper.ToCanonical(model);
      RegisterCatalogs(healthy);
      if "kr/" <= model {
        var kiro := Where(healthy, ByKiro(model));
        if kiro != [] {
          return Routers(kiro);
        }
      }
      var capable := Where(healthy, ByCanonical(mapper.prefixes, canonical));
      if capable != [] {
        return Routers(capable);
      }
      var serving := Where(healthy, ByPrefix(canonical));
      return if serving == [] then Unavailable else Routers(serving);
    }

    // One weighted pick.  Nothing changes for an empty pool.
    method PickWeighted(pool: seq<RouterState>) returns (best: Option<RouterState>, ghost b: nat)
      requires Distinct(Names(pool))
      modifies this`currentWeights
      ensures pool == [] <==> best == None
      ensures best == None ==> currentWeights == old(currentWeights)
      ensures best.Some? ==> RR.Picked(pool, old(currentWeights), currentWeights, b) && best.value == pool[b]
    {
      var total := RR.Total(pool);
      best, b := RaiseAll(pool);
      if best.Some? {
        var settled := currentWeights[best.value.name := RR.At(currentWeights, best.value.name) - total];
        PickDone(pool, old(currentWeights), currentWeights, settled, b);
        currentWeights := settled;
      }
    }

    // Adds every router's weight to its current weight, and finds the first largest.
    method RaiseAll(pool: seq<RouterState>) returns (best: Option<RouterState>, ghost b: nat)
      requires Distinct(Names(pool))
      modifies this`currentWeights
      ensures pool == [] ==> best == None && currentWeights == old(currentWeights)
      ensures pool != [] ==> b < |pool| && best == Some(pool[b])
                             && RaisedTo(pool, old(currentWeights), currentWeights, |pool|, b)
    {
      best := None;
      b := 0;
      for k := 0 to |pool|
        invariant k == 0 ==> best == None && b == 0 && currentWeights == old(currentWeights)
        invariant k > 0 ==> b < k && best == Some(pool[b]) && RaisedTo(pool, old(currentWeights), currentWeights, k, b)
      {
        var r := pool[k];
        ghost var now, first := currentWeights, b;
        currentWeights := currentWeights[r.name := RR.At(currentWeights, r.name) + r.weight];
        if best == None || RR.At(currentWeights, r.name) > RR.At(currentWeights, best.value.name) {
          best, b := Some(r), k;
        }
        RaisedStep(pool, old(currentWeights), now, currentWeights, k, first, b);
      }
    }

    // Raises exactly when no eligible router is left after the exclusions;
    // otherwise one weighted pick from the pool.
    method SelectRouter(model: string, sensitivity: Sensitivity, policy: Policy, exclude: set<string>)
      returns (s: Selection, ghost pool: seq<RouterState>, ghost b: nat)
      requires Valid()
      modifies this`currentWeights, mapper`catalogs
      ensures Valid()
      ensures var e := Eligible(mapper.prefixes, registry.GetHealthyRouters(), model, sensitivity, policy);
              && SelectResult(e, exclude, streaks, failureThreshold, old(currentWeights), currentWeights, s, pool, b)
              && Answered(e, exclude, s)
    {
      pool, b := [], 0;
      var e := EligibleRouters(model, sensitivity, policy);
      if e.PolicyBlocked? {
        return PolicyUnavailable, pool, b;
      }
      if e.Unavailable? {
        return ServiceUnavailable, pool, b;
      }
      s, pool, b := Choose(e.routers, exclude);
      SelectAnswers(e, exclude, streaks, failureThreshold, old(currentWeights), currentWeights, s, pool, b);
    }

    // The exclusions, then the flapping routers unless that drops them all, then the pick.
    method Choose(candidates: seq<RouterState>, exclude: set<string>)
      returns (s: Selection, ghost pool: seq<RouterState>, ghost b: nat)
      requires Valid() && Distinct(Names(candidates))
      requires forall r :: r in candidates ==> r in registry.GetHealthyRouters()
      modifies this`currentWeights
      ensures Valid()
      ensures SelectResult(Routers(candidates), exclude, streaks, failureThreshold,
                           old(currentWeights), currentWeights, s, pool, b)
    {
      pool, b := [], 0;
      var healthy := candidates;
      WhereDistinct(healthy, NotIn(exclude));
      if exclude != {} {
        healthy := Where(healthy, NotIn(exclude));
      } else {
        WhereAll(healthy, NotIn(exclude));
      }
      if healthy == [] {
        return ServiceUnavailable, pool, b;
      }
      WhereDistinct(healthy, Steady(streaks, failureThreshold));
      var steady := Where(healthy, Steady(streaks, failureThreshold));
      if steady != [] {
        healthy := steady;
      }
      var best;
      pool := healthy;
      best, b := PickHealthy(healthy);
      s := Selected(best);
    }

    // A non-empty pool always yields a pick: the last-resort arm is never reached.
    method PickHealthy(pool: seq<RouterState>) returns (router: RouterState, ghost b: nat)
      requires Valid() && pool != [] && Distinct(Names(pool))
      requires forall r :: r in pool ==> r in registry.GetHealthyRouters()
      modifies this`currentWeights
      ensures Valid()
      ensures RR.Picked(pool, old(currentWeights), currentWeights, b) && router == pool[b]
    {
      forall r | r in pool ensures r.name in registry.names {
        assert r in registry.GetHealthyRouters();
      }
      var best;
      best, b := PickWeighted(pool);
      RR.PickConserves(registry.names, pool, old(currentWeights), currentWeights, b);
      router := best.value;
    }

    method OnSuccess(name: string)
      requires Valid()
      modifies this`successes, this`streaks
      ensures Valid()
      ensures successes == old(successes)[name := Count(old(successes), name) + 1]
      ensures streaks == old(streaks)[name := 0]
    {
      successes := successes[name := Count(successes, name) + 1];
      streaks := streaks[name := 0];
    }

    // A failure counts against the router and the registry, and the reply is a
    // fallback that is eligible for the same model and is not that router.
    method OnFailure(name: string, model: string, sensitivity: Sensitivity, policy: Policy, now: int)
      returns (s: Selection, ghost pool: seq<RouterState>, ghost b: nat)
      requires Valid()
      modifies this`failures, this`streaks, this`currentWeights, mapper`catalogs, registry
      ensures Valid()
      ensures failures == old(failures)[name := Count(old(failures), name) + 1]
      ensures streaks == old(streaks)[name := Count(old(streaks), name) + 1]
      ensures registry.routers == if name in old(registry.routers)
                                  then old(registry.routers)[name := OnUnhealthy(old(registry.routers)[name], now)]
                                  else old(registry.routers)
      ensures var e := Eligible(mapper.prefixes, registry.GetHealthyRouters(), model, sensitivity, policy);
              && FallbackResult(e, {name}, old(currentWeights), currentWeights, s, pool, b)
              && Answered(e, {name}, s)
    {
      failures := failures[name := Count(failures, name) + 1];
      streaks := streaks[name := Count(streaks, name) + 1];
      registry.MarkUnhealthy(name, now);
      s, pool, b := Fallback(model, sensitivity, policy, {name});
    }

    method Fallback(model: string, sensitivity: Sensitivity, policy: Policy, exclude: set<string>)
      returns (s: Selection, ghost pool: seq<RouterState>, ghost b: nat)
      requires Valid()
      modifies this`currentWeights, mapper`catalogs
      ensures Valid()
      ensures var e := Eligible(mapper.prefixes, registry.GetHealthyRouters(), model, sensitivity, policy);
              && FallbackResult(e, exclude, old(currentWeights), currentWeights, s, pool, b)
              && Answered(e, exclude, s)
    {
      pool, b := [], 0;
      var e := EligibleRouters(model, sensitivity, policy);
      if e.PolicyBlocked? {
        return PolicyUnavailable, pool, b;
      }
      if e.Unavailable? {
        return ServiceUnavailable, pool, b;
      }
      WhereDistinct(e.routers, NotIn(exclude));
      var healthy := Where(e.routers, NotIn(exclude));
      if healthy == [] {
        return ServiceUnavailable, pool, b;
      }
      var best;
      pool := healthy;
      best, b := PickHealthy(healthy);
      s := Selected(best);
      FallbackAnswers(e, exclude, old(currentWeights), currentWeights, s, pool, b);
    }

    method ModelForRouter(model: string, routerName: string) returns (id: string)
      requires Valid()
      modifies mapper`catalogs
      ensures Valid()
      ensures model == "" ==> id == ""
      ensures model == "" || routerName !in registry.routers ==> mapper.catalogs == old(mapper.catalogs)
      ensures routerName in registry.routers && model != "" ==>
                var r := registry.routers[routerName];
                && mapper.catalogs == old(mapper.catalogs)[Mapper.RouterKey(routerName) := r.models]
                && id == Translated(r, model)
      ensures routerName !in registry.routers ==>
                id == mapper.ToRouterSpecific(Mapper.Canonical(Mapper.DEFAULT_PREFIXES, model), routerName)
    {
      if model == "" {
        return model;
      }
      if routerName in registry.routers {
        var router := registry.routers[routerName];
        mapper.RegisterCatalog(router.name, router.models);
      }
      var canonical := mapper.ToCanonical(model);
      id := mapper.ToRouterSpecific(canonical, routerName);
    }
  }

  lemma {:induction false} KeptOfNone(table: Mapper.PrefixTable, models: seq<string>)
    ensures Kept(table, [], models) == []
  {
    if models == [] {
    } else {
      KeptOfNone(table, models[1..]);
    }
  }

  // ---- Who is eligible -------------------------------------------------------------

  // The router lists a model with the same canonical ID.
  predicate Lists(r: RouterState, model: string) {
    exists m :: m in r.models
      && Mapper.Canonical(Mapper.DEFAULT_PREFIXES, m) == Mapper.Canonical(Mapper.DEFAULT_PREFIXES, model)
  }

  // The Kiro router lists the bare name of a `kr/` model.
  predicate KiroLists(r: RouterState, model: string) {
    "kr/" <= model && r.name == "Kiro" && model[3..] in r.models
  }

  // The router lists some model of the same provider, or the bare model name.
  predicate Neighbours(r: RouterState, model: string) {
    var canonical := Mapper.Canonical(Mapper.DEFAULT_PREFIXES, model);
    exists m :: m in r.models && (|| (BeforeSlash(canonical) != "" && BeforeSlash(canonical) + "/" <= m)
                                  || (HasSlash(canonical) && m == AfterSlash(canonical)))
  }

  ghost predicate SomeHealthy(healthy: seq<RouterState>, p: RouterState -> bool) {
    exists r :: r in healthy && p(r)
  }

  // Whether a healthy router is to be eligible for the model.
  ghost predicate Preferred(healthy: seq<RouterState>, model: string, r: RouterState) {
    if SomeHealthy(healthy, q => KiroLists(q, model)) then KiroLists(r, model)
    else if SomeHealthy(healthy, q => Lists(q, model)) then Lists(r, model)
    else Neighbours(r, model)
  }

  // Once past the policy gate: without a model every healthy router is eligible; with one
  // exactly the Kiro routers that list its bare name, if there are any, else exactly the
  // routers that list it, if there are any, else exactly those that list a neighbour.
  lemma {:induction false} EligibleIff(healthy: seq<RouterState>, model: string, sensitivity: Sensitivity,
                                       policy: Policy, r: RouterState)
    requires !Eligible(Mapper.DEFAULT_PREFIXES, healthy, model, sensitivity, policy).PolicyBlocked?
    ensures var e := Eligible(Mapper.DEFAULT_PREFIXES, healthy, model, sensitivity, policy);
            (e.Routers? && r in e.routers) <==> r in healthy && (model == "" || Preferred(healthy, model, r))
  {
    if model != "" {
      ServingIff(healthy, model, r);
    }
  }

  lemma {:induction false} ServingIff(healthy: seq<RouterState>, model: string, r: RouterState)
    ensures var e := ServingModel(Mapper.DEFAULT_PREFIXES, healthy, model);
            (e.Routers? && r in e.routers) <==> r in healthy && Preferred(healthy, model, r)
  {
    var table := Mapper.DEFAULT_PREFIXES;
    var canonical := Mapper.Canonical(table, model);
    SomeIffWhere(healthy, ByKiro(model), q => KiroLists(q, model));
    SomeIffWhere(healthy, ByCanonical(table, canonical), q => Lists(q, model));
    SomeIffWhere(healthy, ByPrefix(canonical), q => Neighbours(q, model));
  }

  lemma {:induction false} SomeIffWhere(healthy: seq<RouterState>, p: RouterState -> bool, q: RouterState -> bool)
    requires forall r :: p(r) <==> q(r)
    ensures SomeHealthy(healthy, q) <==> Where(healthy, p) != []
  {
    if Where(healthy, p) != [] {
      assert Where(healthy, p)[0] in healthy;
    }
  }

  // ---- The data policy gate --------------------------------------------------------

  // A request for a model is gated exactly when its data is not public and prompts to
  // the model's provider may be trained on; internal and sensitive data fare alike.
  // Past the gate the data makes no difference to who is eligible.
  lemma {:induction false} GateIffTrainingPossible(table: Mapper.PrefixTable, healthy: seq<RouterState>, model: string,
                                                   sensitivity: Sensitivity, policy: Policy)
    requires model != "" && sensitivity != Public && healthy != []
    ensures Eligible(table, healthy, model, sensitivity, policy)
         == if policy == TrainingPossible then PolicyBlocked else Eligible(table, healthy, model, Public, policy)
  {
  }

  // The gate answers exactly for non-public data of a model when its provider may train
  // on prompts or no router is healthy.
  lemma {:induction false} GatedIff(table: Mapper.PrefixTable, healthy: seq<RouterState>, model: string,
                                    sensitivity: Sensitivity, policy: Policy)
    ensures Eligible(table, healthy, model, sensitivity, policy).PolicyBlocked?
       <==> model != "" && sensitivity != Public && (policy == TrainingPossible || healthy == [])
  {
    if healthy != [] && model != "" && sensitivity != Public {
      GateIffTrainingPossible(table, healthy, model, sensitivity, policy);
    }
  }

  // So sensitive data goes to a provider of unknown policy exactly when public data
  // would ...
  lemma {:induction false} SensitiveGoesToUnknown(table: Mapper.PrefixTable, healthy: seq<RouterState>, model: string)
    ensures Eligible(table, healthy, model, Sensitive, UnknownPolicy).Routers?
       <==> Eligible(table, healthy, model, Public, UnknownPolicy).Routers?
  {
    if model != "" && healthy != [] {
      GateIffTrainingPossible(table, healthy, model, Sensitive, UnknownPolicy);
    }
  }

  // ... and "sensitive data requires an explicitly safe or local policy" holds for every
  // policy but that one.
  lemma {:induction false} SafePolicyIffKnown(policy: Policy)
    ensures (Allowed(policy, Sensitive) ==> policy in {KnownNoTraining, Local}) <==> policy != UnknownPolicy
  {
  }

  // ---- The pre-filter equals the selector ----------------------------------------

  // A model served by its bare name also passes the generic catalog tests, so
  // the Kiro branch adds nothing the pre-filter misses.
  lemma {:induction false} KiroPassesPrefilter(r: RouterState, model: string)
    requires KiroServes(r, model)
    ensures Serves(Mapper.DEFAULT_PREFIXES, r, model)
  {
    var table := Mapper.DEFAULT_PREFIXES;
    var bare := model[3..];
    assert model == "kr/" + bare;
    if model in Mapper.ROUTER_LEVEL_IDS {
      assert model[0] == 'k';
      assert model == "kr/auto";
      SlashIndexAt(model, 2);
      assert AfterSlash(model) == bare;
      assert PrefixMatch(model, bare);
    } else {
      Mapper.KiroCanonical(bare);
      assert Mapper.Canonical(table, model) == bare;
      BareMatches(bare);
      if Mapper.Canonical(table, bare) == bare {
        assert CanonicalServes(table, r, bare);
      } else {
        assert PrefixMatch(bare, bare);
      }
    }
  }

  // A bare name is its own canonical form or starts with a provider prefix.
  lemma {:induction false} BareMatches(bare: string)
    ensures Mapper.Canonical(Mapper.DEFAULT_PREFIXES, bare) == bare || PrefixMatch(bare, bare)
  {
    Mapper.DefaultPrefixList();
    Mapper.StripCases(Mapper.AllPrefixes(Mapper.DEFAULT_PREFIXES), bare);
    if Mapper.Canonical(Mapper.DEFAULT_PREFIXES, bare) != bare {
      var p :| p in Mapper.AllPrefixes(Mapper.DEFAULT_PREFIXES) && p <= bare;
      PrefixCut(p, bare);
    }
  }

  lemma {:induction false} PrefixCut(p: string, bare: string)
    requires p in Mapper.SHARED_PREFIXES && p <= bare
    ensures BeforeSlash(bare) != "" && BeforeSlash(bare) + "/" == p
  {
    Mapper.PrefixShape(p);
    Mapper.SlashAfter(p, bare);
  }

  // For every registry state and every non-empty model: the pre-filter keeps
  // the model exactly when selecting a router for it, for public data and
  // without exclusions, does not raise.
  lemma {:induction false} PrefilterEqualsSelector(healthy: seq<RouterState>, models: seq<string>, model: string,
                                                   policy: Policy)
    requires model != "" && model in models
    ensures model in Kept(Mapper.DEFAULT_PREFIXES, healthy, models)
            <==> Eligible(Mapper.DEFAULT_PREFIXES, healthy, model, Public, policy).Routers?
  {
    var table := Mapper.DEFAULT_PREFIXES;
    var canonical := Mapper.Canonical(table, model);
    var kiro := Where(healthy, ByKiro(model));
    var capable := Where(healthy, ByCanonical(table, canonical));
    var serving := Where(healthy, ByPrefix(canonical));
    KeptMembers(table, healthy, models, model);
    if model in Kept(table, healthy, models) {
      var r :| r in healthy && Serves(table, r, model);
      assert r in capable || r in serving;
    }
    if kiro != [] {
      assert kiro[0] in healthy;
      KiroPassesPrefilter(kiro[0], model);
    } else if capable != [] {
      assert capable[0] in healthy;
    } else if serving != [] {
      assert serving[0] in healthy;
    }
  }

  // ---- Translation of the selected router's model ID ------------------------------

  // `model_for_router` with the router's own catalog registered.
  function Translated(r: RouterState, model: string): string {
    var table := Mapper.DEFAULT_PREFIXES;
    Mapper.Specific(table, map[], r.models, Mapper.RouterKey(r.name), Mapper.Canonical(table, model))
  }

  // A router chosen by canonical match or by the Kiro branch gets an ID from
  // its own catalog, unless the canonical ID is one that passes verbatim; then
  // it does exactly when that ID is listed.
  lemma {:induction false} SelectedRouterGetsItsOwnId(healthy: seq<RouterState>, model: string,
                                                      sensitivity: Sensitivity,
                                   policy: Policy, r: RouterState)
    requires model != ""
    requires var e := Eligible(Mapper.DEFAULT_PREFIXES, healthy, model, sensitivity, policy);
             e.Routers? && r in e.routers
    requires CanonicalServes(Mapper.DEFAULT_PREFIXES, r, Mapper.Canonical(Mapper.DEFAULT_PREFIXES, model))
             || KiroServes(r, model)
    ensures var canonical := Mapper.Canonical(Mapper.DEFAULT_PREFIXES, model);
            Translated(r, model) in r.models
            <==> (canonical != "" && canonical !in Mapper.ROUTER_LEVEL_IDS) || canonical in r.models
    ensures var canonical := Mapper.Canonical(Mapper.DEFAULT_PREFIXES, model);
            Translated(r, model) == canonical
            || Mapper.Canonical(Mapper.DEFAULT_PREFIXES, Translated(r, model)) == canonical
  {
    var table := Mapper.DEFAULT_PREFIXES;
    var canonical := Mapper.Canonical(table, model);
    if KiroServes(r, model) && model !in Mapper.ROUTER_LEVEL_IDS {
      assert model == "kr/" + model[3..];
      Mapper.KiroCanonical(model[3..]);
      assert canonical in r.models;
    } else if !KiroServes(r, model) {
      Mapper.TranslationLandsInCatalog(table, r.models, Mapper.RouterKey(r.name), canonical);
    }
  }
}
