// What leases that the fallback ladder does not return do to a half-open breaker.
module LeakedLeases {
  import opened Clock
  import opened Sequences
  import opened Text
  import CB = CircuitBreaker
  import FL = FallbackLadder

  datatype Request = Request(rq: FL.Request, env: FL.Script, model: Option<string>)

  function Trace(r: Request): seq<FL.Event> {
    FL.Run(r.rq, r.env, 0, r.model, FL.FRESH).events
  }

  // What one provider's breaker sees of a request: its lease `id`, taken and returned.
  function LeaseEvents(trace: seq<FL.Event>, provider: string, at: int, id: nat): seq<CB.Event> {
    if trace == [] then []
    else
      var x := Last(trace);
      LeaseEvents(Front(trace), provider, at, id)
      + if x == FL.Acquire(provider) then [CB.Execute(at, true, id)]
        else if x == FL.Release(provider) then [CB.Release(at, Some(id))]
        else []
  }

  // The request's deadline passes after it took the provider's lease.
  predicate Expires(r: Request, provider: string) {
    FL.Leaks(r.rq, r.env(0), r.model, provider)
  }

  predicate Refused(r: Request) {
    !FL.LetIn(r.rq, r.env(0), FL.NameOf(r.model))
  }

  lemma {:induction false} LeaseSnoc(trace: seq<FL.Event>, x: FL.Event, provider: string, at: int, id: nat)
    ensures LeaseEvents(trace + [x], provider, at, id)
         == LeaseEvents(trace, provider, at, id)
          + if x == FL.Acquire(provider) then [CB.Execute(at, true, id)]
            else if x == FL.Release(provider) then [CB.Release(at, Some(id))]
            else []
  {
    assert Front(trace + [x]) == trace;
  }

  // An expired request takes the lease and never returns it.
  lemma {:induction false} ExpiredRequestLeaks(r: Request, provider: string, at: int, id: nat)
    requires Expires(r, provider)
    ensures LeaseEvents(Trace(r), provider, at, id) == [CB.Execute(at, true, id)]
  {
    FL.EntersIff(r.rq, r.env(0), r.model);
    var hop, take, head := FL.Hop(FL.NameOf(r.model)), FL.Acquire(provider), FL.Head(504);
    assert Trace(r) == [] + [hop] + [take] + [head];
    LeaseSnoc([], hop, provider, at, id);
    LeaseSnoc([] + [hop], take, provider, at, id);
    LeaseSnoc([] + [hop] + [take], head, provider, at, id);
  }

  // A refused request neither takes nor returns one, so it cannot free the breaker.
  lemma {:induction false} RefusedRequestReturnsNothing(r: Request, provider: string, at: int, id: nat)
    requires Refused(r)
    ensures LeaseEvents(Trace(r), provider, at, id) == []
  {
    FL.EntersIff(r.rq, r.env(0), r.model);
    var hop, head := FL.Hop(FL.NameOf(r.model)), FL.Head(503);
    assert Trace(r) == [] + [hop] + [head];
    LeaseSnoc([], hop, provider, at, id);
    LeaseSnoc([] + [hop], head, provider, at, id);
  }

  // ---- The breaker ------------------------------------------------------------------

  predicate Wedged(cb: CB.Breaker) {
    cb.state == CB.HalfOpen && cb.halfOpen >= CB.CB_HALF_OPEN_MAX_REQUESTS
  }

  // Attempts and rate limits.
  predicate NoOutcome(e: CB.Event) {
    e.Execute? || e.RateLimit?
  }

  // A wedged breaker refuses, and only an outcome, a release or a reload changes that.
  lemma {:induction false} WedgedStaysIff(cb: CB.Breaker, e: CB.Event)
    requires Wedged(cb) && cb.halfOpen == CB.CB_HALF_OPEN_MAX_REQUESTS
    ensures forall now :: !CB.Admits(cb, now)
    ensures Wedged(CB.Step(cb, e)) <==> NoOutcome(e)
  {
  }

  lemma {:induction false} WedgedThroughout(t0: int, events: seq<CB.Event>, later: seq<CB.Event>)
    requires Wedged(CB.Run(t0, events)) && forall i :: 0 <= i < |later| ==> NoOutcome(later[i])
    ensures Wedged(CB.Run(t0, events + later))
  {
    if later == [] {
      assert events + later == events;
    } else {
      assert Front(events + later) == events + Front(later);
      assert Last(events + later) == Last(later);
      WedgedThroughout(t0, events, Front(later));
    }
  }

  lemma {:induction false} RunSnoc(t0: int, events: seq<CB.Event>, e: CB.Event)
    ensures CB.Run(t0, events + [e]) == CB.Step(CB.Run(t0, events), e)
  {
    assert Front(events + [e]) == events;
  }

  // Three requests whose deadline passed, the first once the open breaker was due: each
  // is admitted, and from then on every attempt is refused, whatever attempts and rate
  // limits follow.
  lemma {:induction false} ThreeExpiredRequestsWedge(t0: int, history: seq<CB.Event>, provider: string,
                                                     rs: seq<Request>, at: seq<int>, later: seq<CB.Event>)
    requires CB.Run(t0, history).state == CB.Open && |rs| == |at| == 3
    requires at[0] >= CB.Run(t0, history).lastChange + CB.CB_OPEN_TIMEOUT
    requires forall i :: 0 <= i < 3 ==> Expires(rs[i], provider)
    requires forall i :: 0 <= i < |later| ==> NoOutcome(later[i])
    ensures var one := history + LeaseEvents(Trace(rs[0]), provider, at[0], 0);
            var two := one + LeaseEvents(Trace(rs[1]), provider, at[1], 1);
            var three := two + LeaseEvents(Trace(rs[2]), provider, at[2], 2);
            && CB.Admits(CB.Run(t0, history), at[0])
            && CB.Admits(CB.Run(t0, one), at[1])
            && CB.Admits(CB.Run(t0, two), at[2])
            && forall now :: !CB.Admits(CB.Run(t0, three + later), now)
  {
    ExpiredRequestLeaks(rs[0], provider, at[0], 0);
    ExpiredRequestLeaks(rs[1], provider, at[1], 1);
    ExpiredRequestLeaks(rs[2], provider, at[2], 2);
    ThreeAcquisitionsWedge(t0, history, at, later);
  }

  lemma {:induction false} ThreeAcquisitionsWedge(t0: int, history: seq<CB.Event>, at: seq<int>, later: seq<CB.Event>)
    requires CB.Run(t0, history).state == CB.Open && |at| == 3
    requires at[0] >= CB.Run(t0, history).lastChange + CB.CB_OPEN_TIMEOUT
    requires forall i :: 0 <= i < |later| ==> NoOutcome(later[i])
    ensures var one := history + [CB.Execute(at[0], true, 0)];
            var two := one + [CB.Execute(at[1], true, 1)];
            var three := two + [CB.Execute(at[2], true, 2)];
            && CB.Admits(CB.Run(t0, history), at[0])
            && CB.Admits(CB.Run(t0, one), at[1])
            && CB.Admits(CB.Run(t0, two), at[2])
            && forall now :: !CB.Admits(CB.Run(t0, three + later), now)
  {
    var one := history + [CB.Execute(at[0], true, 0)];
    var two := one + [CB.Execute(at[1], true, 1)];
    RunSnoc(t0, history, CB.Execute(at[0], true, 0));
    RunSnoc(t0, one, CB.Execute(at[1], true, 1));
    RunSnoc(t0, two, CB.Execute(at[2], true, 2));
    WedgedThroughout(t0, two + [CB.Execute(at[2], true, 2)], later);
  }
}
