// The health registry object: provider and model entries, circuit breakers and
// the global gate, as its methods update them.
module HealthRegistry {
  import opened Sequences
  import opened Text
  import opened Clock
  import opened Cooldown
  import opened HealthEntries
  import CB = CircuitBreaker

  datatype Gate = Gate(reason: string, until: int)

  type Breakers = map<string, CB.Breaker>

  function BreakerOf(breakers: Breakers, p: string, now: int): CB.Breaker {
    if p in breakers then breakers[p] else CB.Fresh(now)
  }

  // What a recorded event does to all breakers.  A release is not filtered by the deny list.
  function Fed(breakers: Breakers, p: string, e: CB.Event): Breakers {
    if Denied(p) && !e.Release? then breakers else breakers[p := CB.Step(BreakerOf(breakers, p, e.at), e)]
  }

  // The breakers after events tagged with provider names.
  function FedAll(events: seq<(string, CB.Event)>): Breakers {
    if events == [] then map[] else Fed(FedAll(Front(events)), Last(events).0, Last(events).1)
  }

  // The registry keeps for every provider the breaker its own events lead to; one under a
  // denied name stays closed and empty.
  lemma {:induction false} BreakersAreRuns(events: seq<(string, CB.Event)>, p: string)
    ensures !Denied(p) ==>
              var own := CB.EventsOf(events, p);
              && (p in FedAll(events) <==> own != [])
              && (p in FedAll(events) ==> FedAll(events)[p] == CB.Run(own[0].at, own))
    ensures Denied(p) && p in FedAll(events) ==>
              var cb := FedAll(events)[p]; cb.state == CB.Closed && cb.failures == [] && cb.rateLimits == []
  {
    CB.BreakersAreIndependent(events, p);
    if Denied(p) {
      DeniedStaysClosed(events, p);
    } else {
      FedLikeAll(events, p);
    }
  }

  lemma {:induction false} FedLikeAll(events: seq<(string, CB.Event)>, p: string)
    requires !Denied(p)
    ensures var fed, all := FedAll(events), CB.RunAll(events);
            if p in all then p in fed && fed[p] == all[p] else p !in fed
  {
    if events == [] {
    } else {
      FedLikeAll(Front(events), p);
    }
  }

  lemma {:induction false} DeniedStaysClosed(events: seq<(string, CB.Event)>, p: string)
    requires Denied(p)
    ensures p in FedAll(events) ==>
              var cb := FedAll(events)[p]; cb.state == CB.Closed && cb.failures == [] && cb.rateLimits == []
  {
    if events == [] {
    } else {
      DeniedStaysClosed(Front(events), p);
    }
  }

  // The gate a gateway-wide error opens.
  function GateFor(t: Table, p: string, info: ErrorInfo, jitter: real, now: int, gate: Option<Gate>): Option<Gate> {
    var v := Calculate(info, FailuresOf(t, p), Absent, jitter, now);
    if v.until.None? then gate else Some(Gate(v.reason + " (" + p + ")", v.until.value))
  }

  // A gateway-wide error shuts the gate as long as it would keep the provider out, and
  // leaves it alone exactly when it locks.
  lemma {:induction false} GateSpec(t: Table, p: string, info: ErrorInfo, jitter: real, now: int, gate: Option<Gate>)
    ensures var e, after := ErrorEntry(t, p, info, jitter, now), GateFor(t, p, info, jitter, now, gate);
            if Locks(info, FailuresOf(t, p)) then after == gate
            else e.until.Some? && after == Some(Gate(ReasonText(e) + " (" + p + ")", e.until.value))
  {
    LocksIff(info, FailuresOf(t, p), Absent, jitter, now);
  }

  // The entry keeps its model or provider out: disabled, being probed, or cooling down
  // without a deadline from 1970 to 2100 that has come.
  predicate Barred(t: Table, key: string, now: int) {
    && key in t
    && match t[key].status
       case Healthy => false
       case Disabled => true
       case Probing => true
       case Cooling => t[key].until.None? || (0 <= t[key].until.value < YEAR_2101 && now < t[key].until.value)
  }

  // One entry: what is left of it, and whether it counts as cleaned.
  method CleanEntry(entry: Entry, now: int) returns (kept: Option<Entry>, counted: bool)
    ensures kept == Clean(entry, now) && counted == Counts(entry, now)
  {
    if Garbage(entry) {
      return None, false;
    }
    if entry.status == Cooling && IsExpired(entry.until, now) {
      var base := BaseErrorType(ReasonText(entry));
      if entry.failures >= MAX_FAILURES && base !in RATE_LIMIT_TYPES {
        return Some(entry.(status := Disabled, reason := Some(base + MAX_FAILURES_SUFFIX), until := None)), true;
      }
      return Some(entry.(status := Probing, reason := Some(base + PROBING_SUFFIX),
                         until := Some(now + PROBING_WINDOW), updatedAt := Some(now))), true;
    }
    if entry.status == Probing && IsExpired(entry.until, now) {
      return None, true;
    }
    return Some(entry), false;
  }

  // The entries outside `todo` are done, the others untouched.
  ghost predicate Swept(t: Table, now: int, todo: set<string>, out: Table, counted: set<string>) {
    && todo <= t.Keys
    && (forall k :: k in out ==> k in t)
    && (forall k :: k in todo ==> k in out && out[k] == t[k])
    && (forall k :: k in t.Keys - todo ==>
          if Clean(t[k], now).Some? then k in out && out[k] == Clean(t[k], now).value else k !in out)
    && (forall k :: k in counted <==> k in t && k !in todo && Counts(t[k], now))
  }

  // cleanup_expired over one of the two tables.
  method Sweep(t: Table, now: int) returns (out: Table, count: nat)
    ensures out == CleanTable(t, now)
    ensures count == CountTable(t, now)
  {
    out, count := t, 0;
    var todo := t.Keys;
    ghost var counted := {};
    while todo != {}
      invariant Swept(t, now, todo, out, counted) && count == |counted|
      decreases todo
    {
      var k :| k in todo;
      todo := todo - {k};
      var kept, counts := CleanEntry(t[k], now);
      if kept.Some? {
        out := out[k := kept.value];
      } else {
        out := out - {k};
      }
      if counts {
        count := count + 1;
        counted := counted + {k};
      }
    }
    assert counted == set k | k in t && Counts(t[k], now);
  }

  class HealthRegistry {
    const aliases: map<string, string>
    var providers: Table
    var models: Table
    var breakers: Breakers
    var gate: Option<Gate>

    ghost predicate Valid()
      reads this
    {
      CanonicalTargets(aliases)
    }

    ghost function State(): Tables
      reads this
    {
      Tables(providers, models)
    }

    constructor (aliases: map<string, string>)
      requires CanonicalTargets(aliases)
      ensures Valid() && this.aliases == aliases
      ensures State() == Run(aliases, []) && breakers == map[] && gate == None
    {
      this.aliases := aliases;
      providers, models, breakers, gate := map[], map[], map[], None;
    }

    function Key(name: string): string {
      Normalize(aliases, name)
    }

    // ---- Circuit breaker ---------------------------------------------------------

    method RecordCbFailure(provider: string, now: int)
      modifies this`breakers
      ensures breakers == Fed(old(breakers), Key(provider), CB.Failure(now, None))
    {
      var p := Key(provider);
      if Denied(p) {
        return;
      }
      var cb := BreakerOf(breakers, p, now);
      cb := cb.(failures := CB.Recent(cb.failures, CB.CB_WINDOW, now));
      cb := cb.(failures := cb.failures + [now], lastFailure := Some(now));
      if cb.state == CB.Closed && |cb.failures| >= CB.CB_FAILURE_THRESHOLD {
        cb := cb.(state := CB.Open, lastChange := now);
      } else if cb.state == CB.HalfOpen {
        cb := cb.(state := CB.Open, lastChange := now, successes := 0, halfOpen := 0);
      }
      breakers := breakers[p := cb];
    }

    method RecordCbSuccess(provider: string, now: int)
      modifies this`breakers
      ensures breakers == Fed(old(breakers), Key(provider), CB.Success(now, None))
    {
      var p := Key(provider);
      if Denied(p) {
        return;
      }
      var cb := BreakerOf(breakers, p, now);
      if cb.state == CB.HalfOpen {
        cb := cb.(successes := cb.successes + 1, halfOpen := if cb.halfOpen > 0 then cb.halfOpen - 1 else 0);
        if cb.successes >= CB.CB_SUCCESS_THRESHOLD {
          cb := cb.(state := CB.Closed, failures := [], successes := 0, lastChange := now);
        }
      } else if cb.state == CB.Closed {
        cb := cb.(failures := CB.Recent(cb.failures, CB.CB_WINDOW, now));
      }
      breakers := breakers[p := cb];
    }

    method CanExecuteCb(provider: string, acquire: bool, now: int) returns (ok: bool)
      modifies this`breakers
      ensures ok == (Denied(Key(provider)) || CB.Admits(BreakerOf(old(breakers), Key(provider), now), now))
      ensures breakers == Fed(old(breakers), Key(provider), CB.Execute(now, acquire, 0))
    {
      var p := Key(provider);
      if Denied(p) {
        return true;
      }
      var cb := BreakerOf(breakers, p, now);
      breakers := breakers[p := cb];
      if cb.state == CB.Closed {
        return true;
      }
      if cb.state == CB.Open {
        if now - cb.lastChange >= CB.CB_OPEN_TIMEOUT {
          cb := cb.(state := CB.HalfOpen, successes := 0, halfOpen := 0, lastChange := now);
          if acquire {
            cb := cb.(halfOpen := cb.halfOpen + 1);
          }
          breakers := breakers[p := cb];
          return true;
        }
        return false;
      }
      if cb.halfOpen >= CB.CB_HALF_OPEN_MAX_REQUESTS {
        return false;
      }
      if acquire {
        breakers := breakers[p := cb.(halfOpen := cb.halfOpen + 1)];
      }
      return true;
    }

    method ReleaseCb(provider: string, now: int)
      modifies this`breakers
      ensures breakers == Fed(old(breakers), Key(provider), CB.Release(now, None))
    {
      var p := Key(provider);
      var cb := BreakerOf(breakers, p, now);
      if cb.state == CB.HalfOpen && cb.halfOpen > 0 {
        cb := cb.(halfOpen := cb.halfOpen - 1);
      }
      breakers := breakers[p := cb];
    }

    method RecordCb429(provider: string, now: int)
      modifies this`breakers
      ensures breakers == Fed(old(breakers), Key(provider), CB.RateLimit(now))
    {
      var p := Key(provider);
      if Denied(p) {
        return;
      }
      var cb := BreakerOf(breakers, p, now);
      cb := cb.(rateLimits := CB.Recent(cb.rateLimits, CB.RATE_WINDOW, now));
      cb := cb.(rateLimits := cb.rateLimits + [now]);
      breakers := breakers[p := cb];
    }

    // In steps of 100 up to 500, and positive exactly from the third recent 429 on.
    function Get429Penalty(provider: string, now: int): (penalty: int)
      reads this
      ensures 0 <= penalty <= 500 && penalty % 100 == 0
      ensures var p := Key(provider);
              penalty > 0 <==>
                p in breakers && |CB.Recent(breakers[p].rateLimits, CB.RATE_WINDOW, now)| >= CB.RATE_THRESHOLD
    {
      var p := Key(provider);
      if p in breakers then CB.Penalty(breakers[p].rateLimits, now) else 0
    }

    // ---- Entries -------------------------------------------------------------------

    function ProbeToken(provider: string): Token
      reads this
    {
      TokenOf(providers, Key(provider))
    }

    // A token that matches pins down the whole entry.
    predicate ProbeTokenMatches(provider: string, token: Token): (matches: bool)
      reads this
      ensures matches ==>
                var p := Key(provider);
                if token.status.None? then p !in providers
                else p in providers && providers[p] == Entry(token.status.value, token.until, token.reason,
                                                             token.failures, token.updatedAt, token.lastProbeAt)
    {
      ProbeToken(provider) == token
    }

    predicate Usable(t: Table, key: string, now: int) {
      key !in t || t[key].status == Healthy || (t[key].status == Cooling && IsExpired(t[key].until, now))
    }

    // A model is available exactly when neither it nor its provider is disabled, probing,
    // or cooling down with the deadline still to come.
    predicate IsModelAvailable(model: string, now: int): (available: bool)
      reads this
      ensures available <==> !Barred(models, model, now) && !Barred(providers, Key(BeforeSlash(model)), now)
    {
      Usable(models, model, now) && Usable(providers, Key(BeforeSlash(model)), now)
    }

    method MarkHealthy(provider: string, model: string, now: int)
      requires Valid()
      modifies this
      ensures Valid()
      ensures State() == Step(aliases, old(State()), Success(now, Key(provider), model))
      ensures breakers == Fed(old(breakers), Key(provider), CB.Success(now, None))
      ensures gate == if Denied(Key(provider)) then old(gate) else None
      ensures !Denied(Key(provider)) && model != "" && Key(BeforeSlash(model)) == Key(provider) ==>
                forall later :: IsModelAvailable(model, later)
    {
      var p := Key(provider);
      NormalizeIdempotent(aliases, provider);
      if Denied(p) {
        return;
      }
      if model != "" {
        models := models[model := HEALTHY_ENTRY];
      }
      providers := providers[p := HEALTHY_ENTRY];
      gate := None;
      RecordCbSuccess(p, now);
    }

    method RecordDisabledProbe(provider: string, now: int)
      modifies this`providers
      ensures State() == Step(aliases, old(State()), ProbeDisabled(now, Key(provider)))
    {
      var p := Key(provider);
      if Denied(p) {
        return;
      }
      if p in providers && providers[p].status == Disabled {
        providers := providers[p := providers[p].(lastProbeAt := Some(now))];
      }
    }

    method MarkError(provider: string, info: ErrorInfo, model: string, jitter: real, now: int)
      requires Valid()
      modifies this
      ensures Valid()
      ensures State() == Step(aliases, old(State()), Error(now, Key(provider), info, model, jitter))
      ensures breakers ==
              if info.global || (!(info.modelSpecific && model != "") && Phantom(aliases, Key(provider)))
              then old(breakers)
              else Fed(old(breakers), Key(provider), CB.Failure(now, None))
      ensures gate ==
              if Denied(Key(provider)) || !info.global then old(gate)
              else GateFor(old(providers), Key(provider), info, jitter, now, old(gate))
    {
      var p := Key(provider);
      NormalizeIdempotent(aliases, provider);
      if Denied(p) {
        return;
      }
      if info.global {
        var v := Calculate(info, FailuresOf(providers, p), Absent, jitter, now);
        if v.until.Some? {
          gate := Some(Gate(v.reason + " (" + p + ")", v.until.value));
        }
        return;
      }
      if info.modelSpecific && model != "" {
        var v := Calculate(info, FailuresOf(models, model), CurrentOf(models, model), jitter, now);
        models := models[model := Entry(if v.permanent then Disabled else Cooling, v.until, Some(v.reason),
                                        v.failures, Some(now), None)];
      } else {
        if Phantom(aliases, p) {
          return;
        }
        var v := Calculate(info, FailuresOf(providers, p), CurrentOf(providers, p), jitter, now);
        providers := providers[p := Entry(if v.permanent then Disabled else Cooling, v.until, Some(v.reason),
                                          v.failures, Some(now), None)];
      }
      RecordCbFailure(p, now);
    }

    method ForceHealthy(provider: string, model: string, now: int)
      requires Valid()
      modifies this
      ensures Valid()
      ensures State() == Step(aliases, old(State()), Force(now, Key(provider), model))
      ensures breakers == Fed(old(breakers), Key(provider), CB.Success(now, None))
      ensures gate == if Denied(Key(provider)) then old(gate) else None
    {
      var p := Key(provider);
      NormalizeIdempotent(aliases, provider);
      if model != "" {
        models := models - {model};
      }
      providers := providers - {p};
      MarkHealthy(p, model, now);
    }

    method CleanupExpired(now: int) returns (count: nat)
      modifies this`providers, this`models
      ensures State() == Step(aliases, old(State()), Cleanup(now))
      ensures count == CountTable(old(providers), now) + CountTable(old(models), now)
    {
      var n, m;
      providers, n := Sweep(providers, now);
      models, m := Sweep(models, now);
      count := n + m;
    }
  }
}
