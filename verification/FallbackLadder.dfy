// The fallback ladder: one request, forwarded to model after model.
module FallbackLadder {
  import opened Text

  const MAX_FALLBACK_RETRIES := 2
  const KIRO := "kr"

  // ---- What a request meets --------------------------------------------------------

  // `policy` holds the models the request's data may be sent to.
  datatype Request = Request(chat: bool, registry: bool, policy: string -> bool)

  // Routing found no router to use, found one, or was refused.
  datatype Route = Direct | Routed | Blocked

  datatype Reply =
    | Delivered(status: nat)
    | EmptyBody
    | HttpFailure(code: nat, access: bool, friendly: bool, readable: bool)
    | ConnectionLost(timedOut: bool)
    | RawTimeout
    | RawOsError
    | Uncaught

  // The second router tried after a failure; `link` when it could be penalised for it.
  datatype Retry = NoRouter | RetryDelivered(status: nat) | RetryFailed(link: bool) | RetryUncaught

  // Everything one hop reads from the outside: the deadline before the call and
  // after it, the breaker, the replies, and the ranked fallback chain.
  datatype Surroundings = Surroundings(
    route: Route, admits: bool, expired: bool, reply: Reply, retry: Retry, late: bool, chain: seq<string>)

  // The handler's per-request fields.
  datatype Progress = Progress(attempts: nat, models: set<string>, providers: set<string>, routerSelected: bool)

  datatype Event =
    | Hop(model: string)
    | Acquire(provider: string)
    | Release(provider: string)
    | Call
    | RetryCall
    | Penalize(primary: bool)
    | Cooldown(model: string, providerWide: bool)
    | Head(status: nat)

  // ---- One hop ------------------------------------------------------------------------

  function NameOf(model: Option<string>): string {
    if model.Some? then model.value else ""
  }

  // The provider whose breaker guards this hop, if any does.
  function Guarded(rq: Request, model: Option<string>): Option<string> {
    if rq.chat && rq.registry && HasSlash(NameOf(model)) && BeforeSlash(NameOf(model)) != KIRO
    then Some(BeforeSlash(NameOf(model)))
    else None
  }

  function Took(lease: Option<string>): seq<Event> {
    if lease.Some? then [Acquire(lease.value)] else []
  }

  function Ended(lease: Option<string>): seq<Event> {
    if lease.Some? then [Release(lease.value)] else []
  }

  datatype Entry = Refused(events: seq<Event>) | Entered(events: seq<Event>)

  predicate Turned(rq: Request, e: Surroundings, model: Option<string>) {
    e.route.Blocked? || (Guarded(rq, model).Some? && !e.admits)
  }

  // Everything before the upstream call is on its way.
  function Enter(rq: Request, e: Surroundings, model: Option<string>): Entry {
    if Turned(rq, e, model) then Refused([Hop(NameOf(model)), Head(503)])
    else
      var start := [Hop(NameOf(model))] + Took(Guarded(rq, model));
      if e.expired then Refused(start + [Head(504)]) else Entered(start + [Call])
  }

  predicate MayFallback(e: Surroundings, p: Progress) {
    p.attempts < MAX_FALLBACK_RETRIES && !e.late
  }

  predicate Eligible(rq: Request, p: Progress, m: string) {
    rq.policy(m) && m !in p.models && BeforeSlash(m) !in p.providers
  }

  function NextModel(rq: Request, chain: seq<string>, p: Progress): (r: Option<string>)
    ensures r.Some? ==> r.value in chain && Eligible(rq, p, r.value)
    ensures r.None? ==> forall m :: m in chain ==> !Eligible(rq, p, m)
  {
    if chain == [] then None
    else if Eligible(rq, p, chain[0]) then Some(chain[0])
    else NextModel(rq, chain[1..], p)
  }

  // The model is spent; after an HTTP error or a timeout so is its provider.
  function Spent(p: Progress, model: string, providerToo: bool): Progress {
    var provider := BeforeSlash(model);
    p.(models := p.models + {model},
       providers := if providerToo && provider != "" then p.providers + {provider} else p.providers)
  }

  datatype Local = Stop(events: seq<Event>, progress: Progress, escaped: bool)
                 | Continue(events: seq<Event>, next: string, progress: Progress)

  // The model to retry with, if the budgets and the chain allow one.
  function Plan(rq: Request, e: Surroundings, model: Option<string>, p: Progress, providerToo: bool)
    : (Option<string>, Progress)
  {
    if model.None? || !MayFallback(e, p) then (None, p)
    else
      var spent := Spent(p, model.value, providerToo);
      var next := NextModel(rq, e.chain, spent);
      if next.None? || next.value == "" then (None, spent)
      else (next, spent.(attempts := p.attempts + 1, routerSelected := true))
  }

  // Retries as planned, or ends the hop with `otherwise`.
  function Ladder(plan: (Option<string>, Progress), before: seq<Event>, otherwise: seq<Event>): Local {
    if plan.0.None? then Stop(before + otherwise, plan.1, false) else Continue(before, plan.0.value, plan.1)
  }

  predicate Retryable(code: nat, access: bool, p: Progress) {
    500 <= code <= 599 || access || code == 429 || (p.routerSelected && 400 <= code <= 499)
  }

  // An unclassified client error of a model the client did not name is hidden.
  function ErrorStatus(code: nat, friendly: bool, p: Progress): nat {
    if !friendly && p.routerSelected && 400 <= code <= 499 then 503 else code
  }

  function TimeoutEvents(rq: Request, model: Option<string>, p: Progress): seq<Event> {
    (if model.Some? && rq.registry then [Cooldown(model.value, p.attempts > 0)] else []) + [Head(504)]
  }

  // The retry through another router, once one was selected.
  function RetryEvents(e: Surroundings): seq<Event> {
    if !e.route.Routed? || e.retry.NoRouter? then []
    else if e.retry.RetryDelivered? then [RetryCall, Head(e.retry.status)]
    else if e.retry.RetryFailed? && e.retry.link then [RetryCall, Penalize(false)]
    else [RetryCall]
  }

  predicate RetryEnds(e: Surroundings) {
    e.route.Routed? && (e.retry.RetryDelivered? || e.retry.RetryUncaught?)
  }

  // From the upstream call to the answer or to the next hop.
  function Act(rq: Request, e: Surroundings, model: Option<string>, p: Progress): Local {
    match e.reply
    case Delivered(status) => Stop([Head(status)], p, false)
    case EmptyBody => Ladder(Plan(rq, e, model, p, false), [], [Head(503)])
    case HttpFailure(code, access, friendly, readable) =>
      if !readable then Stop([], p, true)
      else if RetryEnds(e) then Stop(RetryEvents(e), p, e.retry.RetryUncaught?)
      else if Retryable(code, access, p)
      then Ladder(Plan(rq, e, model, p, true), RetryEvents(e), [Head(ErrorStatus(code, friendly, p))])
      else Stop(RetryEvents(e) + [Head(ErrorStatus(code, friendly, p))], p, false)
    case ConnectionLost(timedOut) =>
      if timedOut then Ladder(Plan(rq, e, model, p, true), [], TimeoutEvents(rq, model, p))
      else
        var tried := (if e.route.Routed? then [Penalize(true)] else []) + RetryEvents(e);
        if RetryEnds(e) then Stop(tried, p, e.retry.RetryUncaught?) else Stop(tried + [Head(503)], p, false)
    case RawTimeout => Ladder(Plan(rq, e, model, p, true), [], TimeoutEvents(rq, model, p))
    case RawOsError => Stop([Head(503)], p, false)
    case Uncaught => Stop([], p, true)
  }

  // ---- The whole request -----------------------------------------------------------------

  datatype Outcome = Outcome(events: seq<Event>, progress: Progress, escaped: bool)

  function Budget(p: Progress): nat {
    if p.attempts < MAX_FALLBACK_RETRIES then MAX_FALLBACK_RETRIES - p.attempts else 0
  }

  type Script = nat -> Surroundings

  // From hop number `h` on; `env` says what each hop meets.
  function Run(rq: Request, env: Script, h: nat, model: Option<string>, p: Progress): Outcome
    decreases Budget(p)
  {
    match Enter(rq, env(h), model)
    case Refused(events) => Outcome(events, p, false)
    case Entered(events) =>
      match Act(rq, env(h), model, p)
      case Stop(more, q, escaped) => Outcome(events + more + Ended(Guarded(rq, model)), q, escaped)
      case Continue(more, next, q) =>
        var rest := Run(rq, env, h + 1, Some(next), q);
        Outcome(events + more + rest.events + Ended(Guarded(rq, model)), rest.progress, rest.escaped)
  }

  const FRESH := Progress(0, {}, {}, false)

  class Handler {
    const rq: Request
    var attempts: nat
    var models: set<string>
    var providers: set<string>
    var routerSelected: bool
    var log: seq<Event>

    constructor (rq: Request, routerSelected: bool)
      ensures this.rq == rq && log == [] && Now() == FRESH.(routerSelected := routerSelected)
    {
      this.rq := rq;
      attempts, models, providers, this.routerSelected := 0, {}, {}, routerSelected;
      log := [];
    }

    ghost function Now(): Progress
      reads this
    {
      Progress(attempts, models, providers, routerSelected)
    }

    method NextFallbackModel(chain: seq<string>) returns (next: Option<string>)
      ensures next == NextModel(rq, chain, Now())
    {
      for i := 0 to |chain|
        invariant NextModel(rq, chain, Now()) == NextModel(rq, chain[i..], Now())
      {
        assert chain[i..][0] == chain[i] && chain[i..][1..] == chain[i + 1..];
        if rq.policy(chain[i]) && chain[i] !in models && BeforeSlash(chain[i]) !in providers {
          return Some(chain[i]);
        }
      }
      return None;
    }

    // Shared by the arms that retry with another model: `retry` is that model.
    method PlanFallback(e: Surroundings, model: Option<string>, providerToo: bool) returns (retry: Option<string>)
      modifies this
      ensures log == old(log)
      ensures (retry, Now()) == Plan(rq, e, model, old(Now()), providerToo)
    {
      if model.None? || attempts >= MAX_FALLBACK_RETRIES || e.late {
        return None;
      }
      models := models + {model.value};
      if providerToo && BeforeSlash(model.value) != "" {
        providers := providers + {BeforeSlash(model.value)};
      }
      assert Now() == Spent(old(Now()), model.value, providerToo);
      var next := NextFallbackModel(e.chain);
      if next.None? || next.value == "" {
        return None;
      }
      attempts, routerSelected := attempts + 1, true;
      return next;
    }

    method OnUpstreamTimeout(e: Surroundings, model: Option<string>) returns (retry: Option<string>)
      modifies this
      ensures (retry, Now()) == Plan(rq, e, model, old(Now()), true)
      ensures log == old(log) + if retry.Some? then [] else TimeoutEvents(rq, model, old(Now()))
    {
      var repeated := attempts > 0;
      retry := PlanFallback(e, model, true);
      if retry.None? {
        if model.Some? && rq.registry {
          log := log + [Cooldown(model.value, repeated)];
        }
        log := log + [Head(504)];
      }
    }

    // The second router: whether it ends the hop, and whether by an exception.
    method TryAnotherRouter(e: Surroundings) returns (ended: bool, escaped: bool)
      modifies this`log
      ensures log == old(log) + RetryEvents(e)
      ensures ended == RetryEnds(e) && (ended ==> escaped == e.retry.RetryUncaught?) && (!ended ==> !escaped)
    {
      if !e.route.Routed? || e.retry.NoRouter? {
        return false, false;
      }
      log := log + [RetryCall];
      match e.retry
      case RetryDelivered(status) =>
        log := log + [Head(status)];
        return true, false;
      case RetryFailed(link) =>
        if link {
          log := log + [Penalize(false)];
        }
        return false, false;
      case RetryUncaught =>
        return true, true;
    }

    method OnHttpError(e: Surroundings, model: Option<string>) returns (retry: Option<string>, escaped: bool)
      requires e.reply.HttpFailure?
      modifies this
      ensures Acted(Act(rq, e, model, old(Now())), old(log), log, retry, escaped, Now())
    {
      if !e.reply.readable {
        return None, true;
      }
      var ended;
      ended, escaped := TryAnotherRouter(e);
      retry := None;
      if ended {
        return;
      }
      retry := RetryOrFail(e, model, e.reply.code, e.reply.access, e.reply.friendly);
    }

    // The error goes to the next model, or to the client.
    method RetryOrFail(e: Surroundings, model: Option<string>, code: nat, access: bool, friendly: bool)
      returns (retry: Option<string>)
      modifies this
      ensures (retry, Now()) == if Retryable(code, access, old(Now())) then Plan(rq, e, model, old(Now()), true)
                                else (None, old(Now()))
      ensures log == old(log) + if retry.Some? then [] else [Head(ErrorStatus(code, friendly, old(Now())))]
    {
      retry := None;
      var shielded := !friendly && routerSelected && 400 <= code <= 499;
      if 500 <= code <= 599 || access || code == 429 || (routerSelected && 400 <= code <= 499) {
        retry := PlanFallback(e, model, true);
      }
      if retry.None? {
        log := log + [Head(if shielded then 503 else code)];
      }
    }

    method OnConnectionLost(e: Surroundings, model: Option<string>) returns (retry: Option<string>, escaped: bool)
      requires e.reply.ConnectionLost?
      modifies this
      ensures Acted(Act(rq, e, model, old(Now())), old(log), log, retry, escaped, Now())
    {
      retry, escaped := None, false;
      if e.reply.timedOut {
        retry := OnUpstreamTimeout(e, model);
        return;
      }
      if e.route.Routed? {
        log := log + [Penalize(true)];
      }
      var ended;
      ended, escaped := TryAnotherRouter(e);
      if !ended {
        log := log + [Head(503)];
      }
    }

    method Upstream(e: Surroundings, model: Option<string>) returns (retry: Option<string>, escaped: bool)
      modifies this
      ensures Acted(Act(rq, e, model, old(Now())), old(log), log, retry, escaped, Now())
    {
      retry, escaped := None, false;
      match e.reply
      case Delivered(status) =>
        log := log + [Head(status)];
      case EmptyBody =>
        retry := PlanFallback(e, model, false);
        if retry.None? {
          log := log + [Head(503)];
        }
      case HttpFailure(_, _, _, _) =>
        retry, escaped := OnHttpError(e, model);
      case ConnectionLost(_) =>
        retry, escaped := OnConnectionLost(e, model);
      case RawTimeout =>
        retry := OnUpstreamTimeout(e, model);
      case RawOsError =>
        log := log + [Head(503)];
      case Uncaught =>
        escaped := true;
    }

    // The gates before the upstream call.
    method Start(e: Surroundings, model: Option<string>) returns (entered: bool, lease: Option<string>)
      modifies this`log
      ensures log == old(log) + Enter(rq, e, model).events
      ensures entered == Enter(rq, e, model).Entered? && lease == Guarded(rq, model)
    {
      lease := Guarded(rq, model);
      log := log + [Hop(NameOf(model))];
      if e.route.Blocked? {
        log := log + [Head(503)];
        return false, lease;
      }
      if lease.Some? {
        if !e.admits {
          log := log + [Head(503)];
          return false, lease;
        }
        log := log + [Acquire(lease.value)];
      }
      if e.expired {
        log := log + [Head(504)];
        return false, lease;
      }
      log := log + [Call];
      return true, lease;
    }

    method Forward(env: Script, h: nat, model: Option<string>) returns (escaped: bool)
      modifies this
      ensures var out := Run(rq, env, h, model, old(Now()));
              log == old(log) + out.events && Now() == out.progress && escaped == out.escaped
      decreases Budget(Now())
    {
      var entered, lease := Start(env(h), model);
      if !entered {
        return false;
      }
      ghost var was, p, entry := old(log), old(Now()), Enter(rq, env(h), model).events;
      ghost var more := Act(rq, env(h), model, p).events;
      var retry;
      retry, escaped := Upstream(env(h), model);
      assert log == was + entry + more;
      ghost var rest := [];
      if retry.Some? {
        ActContinues(rq, env(h), model, p);
        rest := Run(rq, env, h + 1, retry, Now()).events;
        escaped := Forward(env, h + 1, retry);
      }
      if lease.Some? {
        log := log + [Release(lease.value)];
      }
      Regroup(was, entry, more, rest, Ended(lease));
    }
  }

  lemma {:induction false} Regroup(was: seq<Event>, a: seq<Event>, b: seq<Event>, c: seq<Event>, d: seq<Event>)
    ensures was + a + b + c + d == was + (a + b + c + d)
    ensures c == [] ==> was + a + b + c + d == was + (a + b + d)
  {
  }

  // The methods did what the specification of the hop says.
  ghost predicate Acted(l: Local, was: seq<Event>, log: seq<Event>, retry: Option<string>, escaped: bool,
                        now: Progress) {
    match l
    case Stop(es, q, esc) => retry.None? && log == was + es && now == q && escaped == esc
    case Continue(es, next, q) => retry == Some(next) && log == was + es && now == q && !escaped
  }

  // ---- Facts about one hop -----------------------------------------------------------------

  predicate TimesOut(r: Reply) {
    r.RawTimeout? || (r.ConnectionLost? && r.timedOut)
  }

  // A reply that spends the whole provider.
  predicate Failing(r: Reply) {
    r.HttpFailure? || TimesOut(r)
  }

  // What the next hop starts from.
  ghost predicate Follows(rq: Request, e: Surroundings, model: Option<string>, p: Progress, next: string, q: Progress) {
    && model.Some?
    && q.attempts == p.attempts + 1 <= MAX_FALLBACK_RETRIES && q.routerSelected
    && q.models == p.models + {model.value}
    && q.providers == (if Failing(e.reply) && BeforeSlash(model.value) != ""
                       then p.providers + {BeforeSlash(model.value)}
                       else p.providers)
    && rq.policy(next) && next !in q.models && BeforeSlash(next) !in q.providers
  }

  lemma {:induction false} PlanFollows(rq: Request, e: Surroundings, model: Option<string>, p: Progress,
                                       providerToo: bool)
    requires Failing(e.reply) <==> providerToo
    ensures var plan := Plan(rq, e, model, p, providerToo);
            plan.0.Some? ==> Follows(rq, e, model, p, plan.0.value, plan.1)
  {
  }

  lemma {:induction false} ActContinues(rq: Request, e: Surroundings, model: Option<string>, p: Progress)
    ensures var l := Act(rq, e, model, p);
            l.Continue? ==> Follows(rq, e, model, p, l.next, l.progress)
  {
    PlanFollows(rq, e, model, p, Failing(e.reply));
  }

  // ---- When a hop goes on, and where to ------------------------------------------------------

  // The breaker of this provider guards calls for the model.
  predicate GuardedBy(rq: Request, name: string, provider: string) {
    rq.chat && rq.registry && HasSlash(name) && provider == BeforeSlash(name) && provider != "kr"
  }

  predicate LetIn(rq: Request, e: Surroundings, name: string) {
    !e.route.Blocked? && (GuardedBy(rq, name, BeforeSlash(name)) ==> e.admits)
  }

  // The hop makes its upstream call.
  predicate Reaches(rq: Request, e: Surroundings, name: string) {
    LetIn(rq, e, name) && !e.expired
  }

  lemma {:induction false} EntersIff(rq: Request, e: Surroundings, model: Option<string>)
    ensures Enter(rq, e, model).Entered? <==> Reaches(rq, e, NameOf(model))
    ensures Turned(rq, e, model) <==> !LetIn(rq, e, NameOf(model))
    ensures forall provider :: Guarded(rq, model) == Some(provider) <==> GuardedBy(rq, NameOf(model), provider)
  {
  }

  predicate IsClientError(status: nat) {
    400 <= status <= 499
  }

  // The reply leads to a second router, where one can be used.
  predicate Unanswered(r: Reply) {
    (r.HttpFailure? && r.readable) || r == ConnectionLost(false)
  }

  // The second router ended the hop, by an answer or an exception.
  predicate SecondEnds(e: Surroundings) {
    Unanswered(e.reply) && e.route.Routed? && (e.retry.RetryDelivered? || e.retry.RetryUncaught?)
  }

  // Replies after which another model is tried, if one may be: an empty body, a timeout,
  // a server error, a rate limit, an access error, any 4xx of a model the client did not
  // name.
  predicate Replayable(e: Surroundings, selected: bool) {
    || e.reply.EmptyBody?
    || TimesOut(e.reply)
    || (e.reply.HttpFailure? && e.reply.readable && !SecondEnds(e)
        && (500 <= e.reply.code <= 599 || e.reply.code == 429 || e.reply.access
            || (selected && IsClientError(e.reply.code))))
  }

  // Allowed by the data policy, and neither the model nor its provider is spent.
  predicate Open(rq: Request, models: set<string>, providers: set<string>, m: string) {
    rq.policy(m) && m !in models && BeforeSlash(m) !in providers
  }

  // The best-ranked model of the chain that is open.
  ghost predicate Best(rq: Request, chain: seq<string>, models: set<string>, providers: set<string>, m: string) {
    exists i :: BestAt(rq, chain, models, providers, m, i)
  }

  ghost predicate BestAt(rq: Request, chain: seq<string>, models: set<string>, providers: set<string>, m: string,
                         i: int)
  {
    && 0 <= i < |chain| && chain[i] == m && Open(rq, models, providers, m)
    && forall j :: 0 <= j < i ==> !Open(rq, models, providers, chain[j])
  }

  lemma {:induction false} NextIsBest(rq: Request, chain: seq<string>, p: Progress, m: string)
    ensures NextModel(rq, chain, p) == Some(m) <==> Best(rq, chain, p.models, p.providers, m)
  {
    if chain == [] {
    } else if Open(rq, p.models, p.providers, chain[0]) {
      assert BestAt(rq, chain, p.models, p.providers, chain[0], 0);
    } else {
      NextIsBest(rq, chain[1..], p, m);
      BestInTail(rq, chain, p.models, p.providers, m);
    }
  }

  lemma {:induction false} BestInTail(rq: Request, chain: seq<string>, models: set<string>, providers: set<string>,
                                      m: string)
    requires chain != [] && !Open(rq, models, providers, chain[0])
    ensures Best(rq, chain, models, providers, m) <==> Best(rq, chain[1..], models, providers, m)
  {
    if Best(rq, chain[1..], models, providers, m) {
      var i :| BestAt(rq, chain[1..], models, providers, m, i);
      assert BestAt(rq, chain, models, providers, m, i + 1);
    }
    if Best(rq, chain, models, providers, m) {
      var i :| BestAt(rq, chain, models, providers, m, i);
      assert BestAt(rq, chain[1..], models, providers, m, i - 1) by {
        assert forall j :: 0 <= j < i - 1 ==> chain[1..][j] == chain[j + 1];
      }
    }
  }

  // Providers given up on once this hop is over.
  function GivenUp(e: Surroundings, name: string, providers: set<string>): set<string> {
    if Failing(e.reply) && BeforeSlash(name) != "" then providers + {BeforeSlash(name)} else providers
  }

  // A hop goes on to `m` exactly when it reached upstream, the reply can be replayed, the
  // hop and time budgets allow it, and `m` is the best-ranked model left.
  lemma {:induction false} GoesOnToBest(rq: Request, e: Surroundings, model: Option<string>, p: Progress, m: string)
    ensures (Continues(rq, e, model, p) && Act(rq, e, model, p).next == m) <==>
            && Reaches(rq, e, NameOf(model))
            && model.Some? && Replayable(e, p.routerSelected) && p.attempts < 2 && !e.late
            && m != ""
            && Best(rq, e.chain, p.models + {model.value}, GivenUp(e, model.value, p.providers), m)
  {
    EntersIff(rq, e, model);
    PlansBest(rq, e, model, p, m, Failing(e.reply));
    ContinuesAsPlanned(rq, e, model, p);
  }

  lemma {:induction false} PlansBest(rq: Request, e: Surroundings, model: Option<string>, p: Progress, m: string,
                                     providerToo: bool)
    requires providerToo <==> Failing(e.reply)
    ensures Plan(rq, e, model, p, providerToo).0 == Some(m) <==>
              && model.Some? && p.attempts < 2 && !e.late && m != ""
              && Best(rq, e.chain, p.models + {model.value}, GivenUp(e, model.value, p.providers), m)
  {
    if model.Some? {
      NextIsBest(rq, e.chain, Spent(p, model.value, providerToo), m);
    }
  }

  lemma {:induction false} ContinuesAsPlanned(rq: Request, e: Surroundings, model: Option<string>, p: Progress)
    ensures var l, plan := Act(rq, e, model, p), Plan(rq, e, model, p, Failing(e.reply));
            && (l.Continue? <==> Replayable(e, p.routerSelected) && plan.0.Some?)
            && (l.Continue? ==> plan.0 == Some(l.next))
  {
  }

  // While a model is left and the budgets last, the client never sees a server error,
  // a rate limit or an access error, nor any 4xx of a model it did not name; any
  // other error is answered at once.
  lemma {:induction false} ErrorsAreRetried(rq: Request, e: Surroundings, model: Option<string>, p: Progress, m: string)
    requires Reaches(rq, e, NameOf(model)) && e.reply.HttpFailure? && e.reply.readable && !SecondEnds(e)
    requires model.Some? && p.attempts < MAX_FALLBACK_RETRIES && !e.late
    requires m != "" && Best(rq, e.chain, p.models + {model.value}, GivenUp(e, model.value, p.providers), m)
    ensures Continues(rq, e, model, p) <==>
              || 500 <= e.reply.code <= 599 || e.reply.code == 429 || e.reply.access
              || (p.routerSelected && IsClientError(e.reply.code))
  {
    GoesOnToBest(rq, e, model, p, m);
    if Continues(rq, e, model, p) {
      GoesOnToBest(rq, e, model, p, Act(rq, e, model, p).next);
    }
  }

  // ---- Counting events -------------------------------------------------------------------------

  function Tally(es: seq<Event>, f: Event -> bool): nat {
    if es == [] then 0 else Tally(es[..|es| - 1], f) + if f(es[|es| - 1]) then 1 else 0
  }

  lemma {:induction false} TallyJoin(a: seq<Event>, b: seq<Event>, f: Event -> bool)
    ensures Tally(a + b, f) == Tally(a, f) + Tally(b, f)
  {
    if b == [] {
      assert a + b == a;
    } else {
      assert (a + b)[..|a + b| - 1] == a + b[..|b| - 1];
      TallyJoin(a, b[..|b| - 1], f);
    }
  }

  lemma {:induction false} TallyNone(es: seq<Event>, f: Event -> bool)
    requires forall x :: x in es ==> !f(x)
    ensures Tally(es, f) == 0
  {
    if es == [] {
    } else {
      TallyNone(es[..|es| - 1], f);
    }
  }

  lemma {:induction false} TallyOne(x: Event, f: Event -> bool)
    ensures Tally([x], f) == if f(x) then 1 else 0
  {
    assert [x][..0] == [];
  }

  lemma {:induction false} RunTally(rq: Request, env: Script, h: nat, model: Option<string>, p: Progress,
                                    f: Event -> bool)
    requires Enter(rq, env(h), model).Entered?
    ensures Tally(Run(rq, env, h, model, p).events, f)
         == Tally(Enter(rq, env(h), model).events, f)
          + Tally(Act(rq, env(h), model, p).events, f)
          + (match Act(rq, env(h), model, p)
             case Stop(_, _, _) => 0
             case Continue(_, next, q) => Tally(Run(rq, env, h + 1, Some(next), q).events, f))
          + Tally(Ended(Guarded(rq, model)), f)
  {
    var a, b, d := Enter(rq, env(h), model).events, Act(rq, env(h), model, p).events, Ended(Guarded(rq, model));
    TallyJoin(a, b, f);
    match Act(rq, env(h), model, p)
    case Stop(_, _, _) =>
      TallyJoin(a + b, d, f);
    case Continue(_, next, q) =>
      var c := Run(rq, env, h + 1, Some(next), q).events;
      TallyJoin(a + b, c, f);
      TallyJoin(a + b + c, d, f);
  }

  predicate IsHead(x: Event) { x.Head? }

  predicate IsCall(x: Event) { x.Call? || x.RetryCall? }

  function Acquires(provider: string): Event -> bool { x => x == Acquire(provider) }

  function Releases(provider: string): Event -> bool { x => x == Release(provider) }

  // ---- The hops of a request --------------------------------------------------------------------

  // Hop number `hop`, with the model it forwards to and the state it starts in.
  datatype Visit = Visit(hop: nat, model: Option<string>, progress: Progress)

  predicate Continues(rq: Request, e: Surroundings, model: Option<string>, p: Progress) {
    Enter(rq, e, model).Entered? && Act(rq, e, model, p).Continue?
  }

  function Path(rq: Request, env: Script, h: nat, model: Option<string>, p: Progress): (r: seq<Visit>)
    ensures r != [] && r[0] == Visit(h, model, p)
    decreases Budget(p)
  {
    [Visit(h, model, p)] +
    if Continues(rq, env(h), model, p) then
      ActContinues(rq, env(h), model, p);
      Path(rq, env, h + 1, Some(Act(rq, env(h), model, p).next), Act(rq, env(h), model, p).progress)
    else []
  }

  function Last(rq: Request, env: Script, h: nat, model: Option<string>, p: Progress): Visit {
    var path := Path(rq, env, h, model, p);
    path[|path| - 1]
  }

  ghost predicate Leads(rq: Request, env: Script, a: Visit, b: Visit) {
    b.hop == a.hop + 1 && b.model.Some? && Follows(rq, env(a.hop), a.model, a.progress, b.model.value, b.progress)
  }

  ghost predicate Chain(rq: Request, env: Script, path: seq<Visit>) {
    forall i {:trigger path[i]} :: 0 <= i < |path| - 1 ==> Leads(rq, env, path[i], path[i + 1])
  }

  lemma {:induction false} PathChains(rq: Request, env: Script, h: nat, model: Option<string>, p: Progress)
    ensures Chain(rq, env, Path(rq, env, h, model, p))
    decreases Budget(p)
  {
    if Continues(rq, env(h), model, p) {
      var l := Act(rq, env(h), model, p);
      ActContinues(rq, env(h), model, p);
      PathChains(rq, env, h + 1, Some(l.next), l.progress);
      ChainCons(rq, env, Visit(h, model, p), Path(rq, env, h + 1, Some(l.next), l.progress));
    }
  }

  lemma {:induction false} ChainCons(rq: Request, env: Script, v: Visit, path: seq<Visit>)
    requires path != [] && Chain(rq, env, path) && Leads(rq, env, v, path[0])
    ensures Chain(rq, env, [v] + path)
  {
    forall i | 0 <= i < |path| ensures Leads(rq, env, ([v] + path)[i], ([v] + path)[i + 1]) {
      if i > 0 {
        assert Leads(rq, env, path[i - 1], path[i]);
      }
    }
  }

  lemma {:induction false} LastStops(rq: Request, env: Script, h: nat, model: Option<string>, p: Progress)
    ensures var last := Last(rq, env, h, model, p); !Continues(rq, env(last.hop), last.model, last.progress)
    decreases Budget(p)
  {
    if Continues(rq, env(h), model, p) {
      var l := Act(rq, env(h), model, p);
      ActContinues(rq, env(h), model, p);
      LastStops(rq, env, h + 1, Some(l.next), l.progress);
    }
  }

  // Along a chain hops are numbered, and what is spent stays spent.
  lemma {:induction false} ChainGrows(rq: Request, env: Script, path: seq<Visit>, i: nat, j: nat)
    requires Chain(rq, env, path) && i < j < |path|
    ensures path[j].hop == path[i].hop + (j - i) && path[j].progress.routerSelected
    ensures path[j].progress.attempts == path[i].progress.attempts + (j - i)
    ensures path[i].model.Some? && path[j].model.Some?
    ensures path[i].progress.models + {path[i].model.value} <= path[j].progress.models
    ensures path[i + 1].progress.providers <= path[j].progress.providers
    decreases j
  {
    assert Leads(rq, env, path[j - 1], path[j]);
    if i < j - 1 {
      ChainGrows(rq, env, path, i, j - 1);
    }
  }

  // A later hop's model was not used before, its provider not given up on before,
  // and the data policy allows it.
  lemma {:induction false} ChainNeverRepeats(rq: Request, env: Script, path: seq<Visit>, i: nat, j: nat)
    requires Chain(rq, env, path) && i < j < |path|
    ensures path[i].model.Some? && path[j].model.Some?
    ensures path[j].model.value != path[i].model.value && rq.policy(path[j].model.value)
    ensures Failing(env(path[i].hop).reply) && BeforeSlash(path[i].model.value) != ""
            ==> BeforeSlash(path[j].model.value) != BeforeSlash(path[i].model.value)
  {
    ChainGrows(rq, env, path, i, j);
    assert Leads(rq, env, path[i], path[i + 1]);
    assert Leads(rq, env, path[j - 1], path[j]);
    if i < j - 1 {
      ChainGrows(rq, env, path, i, j - 1);
    }
  }

  // ---- One answer ---------------------------------------------------------------------------------

  // An exception no arm of this hop catches.
  predicate Raises(e: Surroundings) {
    || e.reply.Uncaught?
    || (e.reply.HttpFailure? && !e.reply.readable)
    || ((e.reply.HttpFailure? || (e.reply.ConnectionLost? && !e.reply.timedOut))
        && e.route.Routed? && e.retry.RetryUncaught?)
  }

  lemma {:induction false} PairHeads(a: seq<Event>, x: Event)
    ensures Tally(a + [x], IsHead) == Tally(a, IsHead) + if x.Head? then 1 else 0
  {
    TallyJoin(a, [x], IsHead);
    TallyOne(x, IsHead);
  }

  // Whether this hop tries a second router before anything else.
  predicate Detours(e: Surroundings) {
    (e.reply.HttpFailure? && e.reply.readable) || (e.reply.ConnectionLost? && !e.reply.timedOut)
  }

  function Penalty(e: Surroundings): seq<Event> {
    if e.reply.ConnectionLost? && e.route.Routed? then [Penalize(true)] else []
  }

  function Tried(e: Surroundings): seq<Event> {
    if Detours(e) then Penalty(e) + RetryEvents(e) else []
  }

  predicate Answered(e: Surroundings) {
    Detours(e) && e.route.Routed? && e.retry.RetryDelivered?
  }

  // The events of a hop: the detour, then what closes it.
  ghost predicate Shaped(rq: Request, e: Surroundings, model: Option<string>, p: Progress, l: Local,
                         closing: seq<Event>) {
    && l.events == Tried(e) + closing
    && (closing == [] || closing == TimeoutEvents(rq, model, p) || (|closing| == 1 && closing[0].Head?))
    && (closing == [] <==> l.Continue? || Raises(e) || Answered(e))
    && (if l.Stop? then l.escaped <==> Raises(e) else !Raises(e) && !Answered(e))
  }

  lemma {:induction false} HttpShape(rq: Request, e: Surroundings, model: Option<string>, p: Progress)
    returns (closing: seq<Event>)
    requires e.reply.HttpFailure?
    ensures Shaped(rq, e, model, p, Act(rq, e, model, p), closing)
  {
    closing := if Act(rq, e, model, p).Continue? || Raises(e) || Answered(e) then []
               else [Head(ErrorStatus(e.reply.code, e.reply.friendly, p))];
  }

  lemma {:induction false} LostShape(rq: Request, e: Surroundings, model: Option<string>, p: Progress)
    returns (closing: seq<Event>)
    requires e.reply.ConnectionLost? && !e.reply.timedOut
    ensures Shaped(rq, e, model, p, Act(rq, e, model, p), closing)
  {
    closing := if Raises(e) || Answered(e) then [] else [Head(503)];
  }

  lemma {:induction false} SlowShape(rq: Request, e: Surroundings, model: Option<string>, p: Progress)
    returns (closing: seq<Event>)
    requires TimesOut(e.reply)
    ensures Shaped(rq, e, model, p, Act(rq, e, model, p), closing)
  {
    closing := if Act(rq, e, model, p).Continue? then [] else TimeoutEvents(rq, model, p);
  }

  lemma {:induction false} ActShape(rq: Request, e: Surroundings, model: Option<string>, p: Progress)
    returns (closing: seq<Event>)
    ensures Shaped(rq, e, model, p, Act(rq, e, model, p), closing)
  {
    if e.reply.HttpFailure? {
      closing := HttpShape(rq, e, model, p);
    } else if TimesOut(e.reply) {
      closing := SlowShape(rq, e, model, p);
    } else if e.reply.ConnectionLost? {
      closing := LostShape(rq, e, model, p);
    } else {
      closing := PlainShape(rq, e, model, p);
    }
  }

  lemma {:induction false} PlainShape(rq: Request, e: Surroundings, model: Option<string>, p: Progress)
    returns (closing: seq<Event>)
    requires !e.reply.HttpFailure? && !TimesOut(e.reply) && !e.reply.ConnectionLost?
    ensures Shaped(rq, e, model, p, Act(rq, e, model, p), closing)
  {
    closing := Act(rq, e, model, p).events;
  }

  // A hop's own events are neither hops nor leases nor first calls.
  predicate OwnEvent(x: Event) {
    x.RetryCall? || x.Penalize? || x.Cooldown? || x.Head?
  }

  lemma {:induction false} ActOwn(rq: Request, e: Surroundings, model: Option<string>, p: Progress)
    ensures forall x :: x in Act(rq, e, model, p).events ==> OwnEvent(x)
  {
    var closing := ActShape(rq, e, model, p);
    TriedOwn(e);
    assert forall x :: x in closing ==> OwnEvent(x);
  }

  lemma {:induction false} TriedOwn(e: Surroundings)
    ensures forall x :: x in Tried(e) ==> OwnEvent(x)
  {
  }

  lemma {:induction false} TriedTally(e: Surroundings)
    ensures Tally(Tried(e), IsHead) == if Answered(e) then 1 else 0
    ensures Tally(Tried(e), IsCall) <= 1
  {
    if Detours(e) {
      TallyJoin(Penalty(e), RetryEvents(e), IsHead);
      TallyJoin(Penalty(e), RetryEvents(e), IsCall);
      TallyNone(Penalty(e), IsHead);
      TallyNone(Penalty(e), IsCall);
      RetryTally(e);
    }
  }

  lemma {:induction false} RetryTally(e: Surroundings)
    ensures Tally(RetryEvents(e), IsHead) == if e.route.Routed? && e.retry.RetryDelivered? then 1 else 0
    ensures Tally(RetryEvents(e), IsCall) <= 1
  {
    var es := RetryEvents(e);
    if |es| >= 1 {
      TallyOne(RetryCall, IsHead);
      TallyOne(RetryCall, IsCall);
    }
    if |es| == 2 {
      assert es == [RetryCall] + [es[1]];
      TallyJoin([RetryCall], [es[1]], IsHead);
      TallyJoin([RetryCall], [es[1]], IsCall);
      TallyOne(es[1], IsHead);
      TallyOne(es[1], IsCall);
    }
  }

  lemma {:induction false} TimeoutHeads(rq: Request, model: Option<string>, p: Progress)
    ensures Tally(TimeoutEvents(rq, model, p), IsHead) == 1
  {
    if model.Some? && rq.registry {
      PairHeads([Cooldown(model.value, p.attempts > 0)], Head(504));
      TallyOne(Cooldown(model.value, p.attempts > 0), IsHead);
    } else {
      TallyOne(Head(504), IsHead);
    }
  }

  lemma {:induction false} ActHeads(rq: Request, e: Surroundings, model: Option<string>, p: Progress)
    ensures var l := Act(rq, e, model, p);
            && Tally(l.events, IsHead) == (if l.Stop? && !l.escaped then 1 else 0)
            && (if l.Stop? then l.escaped <==> Raises(e) else !Raises(e))
  {
    var closing := ActShape(rq, e, model, p);
    TallyJoin(Tried(e), closing, IsHead);
    TriedTally(e);
    TimeoutHeads(rq, model, p);
    if |closing| == 1 {
      TallyOne(closing[0], IsHead);
      assert closing == [closing[0]];
    }
  }

  lemma {:induction false} EnterHeads(rq: Request, e: Surroundings, model: Option<string>)
    ensures Tally(Enter(rq, e, model).events, IsHead) == if Enter(rq, e, model).Refused? then 1 else 0
  {
    var hop := [Hop(NameOf(model))];
    TallyOne(Hop(NameOf(model)), IsHead);
    PairHeads(hop, Head(503));
    TallyNone(Took(Guarded(rq, model)), IsHead);
    TallyJoin(hop, Took(Guarded(rq, model)), IsHead);
    PairHeads(hop + Took(Guarded(rq, model)), Head(504));
    PairHeads(hop + Took(Guarded(rq, model)), Call);
  }

  predicate LastRaises(rq: Request, env: Script, last: Visit) {
    Reaches(rq, env(last.hop), NameOf(last.model)) && Raises(env(last.hop))
  }

  // One hop's share of the answers, and of the exceptions.
  lemma {:induction false} AnswerStep(rq: Request, env: Script, h: nat, model: Option<string>, p: Progress)
    requires !Continues(rq, env(h), model, p)
    ensures Tally(Run(rq, env, h, model, p).events, IsHead) == if Run(rq, env, h, model, p).escaped then 0 else 1
    ensures Run(rq, env, h, model, p).escaped <==> Reaches(rq, env(h), NameOf(model)) && Raises(env(h))
  {
    EntersIff(rq, env(h), model);
    EnterHeads(rq, env(h), model);
    if Enter(rq, env(h), model).Entered? {
      RunTally(rq, env, h, model, p, IsHead);
      ActHeads(rq, env(h), model, p);
      TallyNone(Ended(Guarded(rq, model)), IsHead);
    }
  }

  lemma {:induction false} NoAnswerYet(rq: Request, env: Script, h: nat, model: Option<string>, p: Progress)
    requires Continues(rq, env(h), model, p)
    ensures Budget(Act(rq, env(h), model, p).progress) < Budget(p)
    ensures Tally(Run(rq, env, h, model, p).events, IsHead)
         == Tally(Run(rq, env, h + 1, Some(Act(rq, env(h), model, p).next), Act(rq, env(h), model, p).progress).events,
                  IsHead)
  {
    ActContinues(rq, env(h), model, p);
    EnterHeads(rq, env(h), model);
    RunTally(rq, env, h, model, p, IsHead);
    ActHeads(rq, env(h), model, p);
    TallyNone(Ended(Guarded(rq, model)), IsHead);
  }

  lemma {:induction false} AnswerCount(rq: Request, env: Script, h: nat, model: Option<string>, p: Progress)
    ensures Tally(Run(rq, env, h, model, p).events, IsHead) == if Run(rq, env, h, model, p).escaped then 0 else 1
    decreases Budget(p)
  {
    if Continues(rq, env(h), model, p) {
      NoAnswerYet(rq, env, h, model, p);
      AnswerCount(rq, env, h + 1, Some(Act(rq, env(h), model, p).next), Act(rq, env(h), model, p).progress);
    } else {
      AnswerStep(rq, env, h, model, p);
    }
  }

  lemma {:induction false} EscapesAtLast(rq: Request, env: Script, h: nat, model: Option<string>, p: Progress)
    ensures Run(rq, env, h, model, p).escaped <==> LastRaises(rq, env, Last(rq, env, h, model, p))
    decreases Budget(p)
  {
    if Continues(rq, env(h), model, p) {
      ActContinues(rq, env(h), model, p);
      EscapesAtLast(rq, env, h + 1, Some(Act(rq, env(h), model, p).next), Act(rq, env(h), model, p).progress);
    } else {
      AnswerStep(rq, env, h, model, p);
    }
  }

  // The client gets exactly one answer, or none when an exception escapes; and one
  // escapes exactly when the last hop reached upstream and raised what no arm catches.
  lemma {:induction false} OneAnswer(rq: Request, env: Script, h: nat, model: Option<string>, p: Progress)
    ensures Tally(Run(rq, env, h, model, p).events, IsHead)
         == if LastRaises(rq, env, Last(rq, env, h, model, p)) then 0 else 1
    ensures Run(rq, env, h, model, p).escaped <==> LastRaises(rq, env, Last(rq, env, h, model, p))
  {
    AnswerCount(rq, env, h, model, p);
    EscapesAtLast(rq, env, h, model, p);
  }

  // ---- The call budget ------------------------------------------------------------------------------

  lemma {:induction false} ShapedCalls(rq: Request, e: Surroundings, model: Option<string>, p: Progress,
                                       l: Local, closing: seq<Event>)
    requires Shaped(rq, e, model, p, l, closing)
    ensures Tally(l.events, IsCall) <= 1
  {
    TallyJoin(Tried(e), closing, IsCall);
    TriedTally(e);
    if |closing| == 1 && closing[0].Head? {
      TallyOne(closing[0], IsCall);
      assert closing == [closing[0]];
    } else {
      TimeoutCalls(rq, model, p);
    }
  }

  lemma {:induction false} TimeoutCalls(rq: Request, model: Option<string>, p: Progress)
    ensures Tally(TimeoutEvents(rq, model, p), IsCall) == 0
  {
    TallyNone(TimeoutEvents(rq, model, p), IsCall);
  }

  lemma {:induction false} ActCalls(rq: Request, e: Surroundings, model: Option<string>, p: Progress)
    ensures Tally(Act(rq, e, model, p).events, IsCall) <= 1
  {
    var closing := ActShape(rq, e, model, p);
    ShapedCalls(rq, e, model, p, Act(rq, e, model, p), closing);
  }

  lemma {:induction false} EnterCalls(rq: Request, e: Surroundings, model: Option<string>)
    ensures Tally(Enter(rq, e, model).events, IsCall) == if Enter(rq, e, model).Entered? then 1 else 0
  {
    var start := [Hop(NameOf(model))] + Took(Guarded(rq, model));
    TallyNone(start, IsCall);
    if Enter(rq, e, model).Entered? {
      TallyJoin(start, [Call], IsCall);
      TallyOne(Call, IsCall);
    } else {
      TallyNone(Enter(rq, e, model).events, IsCall);
    }
  }

  // At most two upstream calls for each hop the budget still allows.
  lemma {:induction false} CallBudget(rq: Request, env: Script, h: nat, model: Option<string>, p: Progress)
    ensures Tally(Run(rq, env, h, model, p).events, IsCall) <= 2 * (1 + Budget(p))
    decreases Budget(p)
  {
    EnterCalls(rq, env(h), model);
    if Enter(rq, env(h), model).Entered? {
      RunTally(rq, env, h, model, p, IsCall);
      ActCalls(rq, env(h), model, p);
      TallyNone(Ended(Guarded(rq, model)), IsCall);
      ActContinues(rq, env(h), model, p);
      match Act(rq, env(h), model, p)
      case Stop(_, _, _) =>
      case Continue(_, next, q) => CallBudget(rq, env, h + 1, Some(next), q);
    }
  }

  // A fresh request makes at most three hops and six upstream calls.
  lemma {:induction false} FreshRequestIsBounded(rq: Request, env: Script, model: Option<string>)
    ensures |Path(rq, env, 0, model, FRESH)| <= 3
    ensures Tally(Run(rq, env, 0, model, FRESH).events, IsCall) <= 6
  {
    PathBudget(rq, env, 0, model, FRESH);
    CallBudget(rq, env, 0, model, FRESH);
  }

  lemma {:induction false} PathBudget(rq: Request, env: Script, h: nat, model: Option<string>, p: Progress)
    ensures |Path(rq, env, h, model, p)| <= 1 + Budget(p)
    decreases Budget(p)
  {
    if Continues(rq, env(h), model, p) {
      ActContinues(rq, env(h), model, p);
      PathBudget(rq, env, h + 1, Some(Act(rq, env(h), model, p).next), Act(rq, env(h), model, p).progress);
    }
  }

  // ---- Breaker leases ----------------------------------------------------------------------------------

  // The deadline ran out between taking the lease and the call: nothing returns it.
  predicate Leaks(rq: Request, e: Surroundings, model: Option<string>, provider: string) {
    LetIn(rq, e, NameOf(model)) && e.expired && GuardedBy(rq, NameOf(model), provider)
  }

  predicate LastLeaks(rq: Request, env: Script, last: Visit, provider: string) {
    Leaks(rq, env(last.hop), last.model, provider)
  }

  lemma {:induction false} EnterLeases(rq: Request, e: Surroundings, model: Option<string>, provider: string)
    ensures Tally(Enter(rq, e, model).events, Acquires(provider))
         == if LetIn(rq, e, NameOf(model)) && GuardedBy(rq, NameOf(model), provider) then 1 else 0
    ensures Tally(Enter(rq, e, model).events, Releases(provider)) == 0
  {
    EntersIff(rq, e, model);
    TallyNone(Enter(rq, e, model).events, Releases(provider));
    var hop, took := [Hop(NameOf(model))], Took(Guarded(rq, model));
    TallyNone(hop, Acquires(provider));
    if Turned(rq, e, model) {
      TallyNone(Enter(rq, e, model).events, Acquires(provider));
    } else {
      TallyJoin(hop, took, Acquires(provider));
      TookTally(Guarded(rq, model), provider);
      var end := if e.expired then Head(504) else Call;
      TallyJoin(hop + took, [end], Acquires(provider));
      TallyOne(end, Acquires(provider));
    }
  }

  lemma {:induction false} TookTally(lease: Option<string>, provider: string)
    ensures Tally(Took(lease), Acquires(provider)) == if lease == Some(provider) then 1 else 0
    ensures Tally(Ended(lease), Releases(provider)) == if lease == Some(provider) then 1 else 0
    ensures Tally(Ended(lease), Acquires(provider)) == 0
  {
    TallyNone(Ended(lease), Acquires(provider));
    if lease.Some? {
      TallyOne(Acquire(lease.value), Acquires(provider));
      TallyOne(Release(lease.value), Releases(provider));
    }
  }

  lemma {:induction false} ActLeases(rq: Request, e: Surroundings, model: Option<string>, p: Progress, provider: string)
    ensures Tally(Act(rq, e, model, p).events, Acquires(provider)) == 0
    ensures Tally(Act(rq, e, model, p).events, Releases(provider)) == 0
  {
    ActOwn(rq, e, model, p);
    TallyNone(Act(rq, e, model, p).events, Acquires(provider));
    TallyNone(Act(rq, e, model, p).events, Releases(provider));
  }

  // Leases of a provider taken and not returned.
  function Outstanding(es: seq<Event>, provider: string): int {
    Tally(es, Acquires(provider)) - Tally(es, Releases(provider))
  }

  lemma {:induction false} LeaseStep(rq: Request, env: Script, h: nat, model: Option<string>, p: Progress,
                                     provider: string)
    requires !Continues(rq, env(h), model, p)
    ensures Outstanding(Run(rq, env, h, model, p).events, provider)
         == if Leaks(rq, env(h), model, provider) then 1 else 0
  {
    EntersIff(rq, env(h), model);
    EnterLeases(rq, env(h), model, provider);
    if Enter(rq, env(h), model).Entered? {
      RunTally(rq, env, h, model, p, Acquires(provider));
      RunTally(rq, env, h, model, p, Releases(provider));
      ActLeases(rq, env(h), model, p, provider);
      TookTally(Guarded(rq, model), provider);
    }
  }

  lemma {:induction false} LeaseKept(rq: Request, env: Script, h: nat, model: Option<string>, p: Progress,
                                     provider: string)
    returns (m: Option<string>, q: Progress)
    requires Continues(rq, env(h), model, p)
    ensures Budget(q) < Budget(p)
    ensures Outstanding(Run(rq, env, h, model, p).events, provider)
         == Outstanding(Run(rq, env, h + 1, m, q).events, provider)
    ensures Last(rq, env, h, model, p) == Last(rq, env, h + 1, m, q)
  {
    var l := Act(rq, env(h), model, p);
    m, q := Some(l.next), l.progress;
    ActContinues(rq, env(h), model, p);
    EnterLeases(rq, env(h), model, provider);
    RunTally(rq, env, h, model, p, Acquires(provider));
    RunTally(rq, env, h, model, p, Releases(provider));
    ActLeases(rq, env(h), model, p, provider);
    TookTally(Guarded(rq, model), provider);
  }

  // Every provider's leases are returned, even when an exception escapes, but for
  // one taken on a last hop whose deadline had passed.
  lemma {:induction false} LeasesReturned(rq: Request, env: Script, h: nat, model: Option<string>, p: Progress,
                                          provider: string)
    ensures Outstanding(Run(rq, env, h, model, p).events, provider)
         == if LastLeaks(rq, env, Last(rq, env, h, model, p), provider) then 1 else 0
    decreases Budget(p)
  {
    if Continues(rq, env(h), model, p) {
      var m, q := LeaseKept(rq, env, h, model, p, provider);
      LeasesReturned(rq, env, h + 1, m, q, provider);
    } else {
      LeaseStep(rq, env, h, model, p, provider);
    }
  }

  // ---- The models tried ------------------------------------------------------------------------------------

  function HopsOf(es: seq<Event>): seq<string> {
    if es == [] then []
    else HopsOf(es[..|es| - 1]) + if es[|es| - 1].Hop? then [es[|es| - 1].model] else []
  }

  lemma {:induction false} HopsJoin(a: seq<Event>, b: seq<Event>)
    ensures HopsOf(a + b) == HopsOf(a) + HopsOf(b)
  {
    if b == [] {
      assert a + b == a;
    } else {
      assert (a + b)[..|a + b| - 1] == a + b[..|b| - 1];
      HopsJoin(a, b[..|b| - 1]);
    }
  }

  lemma {:induction false} NoHops(es: seq<Event>)
    requires forall x :: x in es ==> !x.Hop?
    ensures HopsOf(es) == []
  {
    if es == [] {
    } else {
      NoHops(es[..|es| - 1]);
    }
  }

  function Tries(rq: Request, env: Script, h: nat, model: Option<string>, p: Progress): seq<string> {
    HopsOf(Run(rq, env, h, model, p).events)
  }

  lemma {:induction false} EnterHops(rq: Request, e: Surroundings, model: Option<string>)
    ensures HopsOf(Enter(rq, e, model).events) == [NameOf(model)]
  {
    var es := Enter(rq, e, model).events;
    assert es == [Hop(NameOf(model))] + es[1..];
    assert [Hop(NameOf(model))][..0] == [];
    HopsJoin([Hop(NameOf(model))], es[1..]);
    NoHops(es[1..]);
  }

  lemma {:induction false} QuietJoin(a: seq<Event>, b: seq<Event>, c: seq<Event>, d: seq<Event>)
    requires HopsOf(b) == [] && HopsOf(d) == []
    ensures HopsOf(a + b + c + d) == HopsOf(a) + HopsOf(c)
  {
    HopsJoin(a, b);
    HopsJoin(a + b, c);
    HopsJoin(a + b + c, d);
  }

  lemma {:induction false} ActHops(rq: Request, e: Surroundings, model: Option<string>, p: Progress)
    ensures HopsOf(Act(rq, e, model, p).events) == []
  {
    ActOwn(rq, e, model, p);
    NoHops(Act(rq, e, model, p).events);
  }

  lemma {:induction false} TriesOne(rq: Request, env: Script, h: nat, model: Option<string>, p: Progress)
    requires !Continues(rq, env(h), model, p)
    ensures Tries(rq, env, h, model, p) == [NameOf(model)]
  {
    EnterHops(rq, env(h), model);
    if Enter(rq, env(h), model).Entered? {
      var a, b, d := Enter(rq, env(h), model).events, Act(rq, env(h), model, p).events, Ended(Guarded(rq, model));
      ActHops(rq, env(h), model, p);
      NoHops(d);
      QuietJoin(a, b, [], d);
      assert a + b + [] + d == a + b + d;
    }
  }

  lemma {:induction false} TriesMore(rq: Request, env: Script, h: nat, model: Option<string>, p: Progress)
    requires Continues(rq, env(h), model, p)
    ensures var l := Act(rq, env(h), model, p);
            Tries(rq, env, h, model, p) == [NameOf(model)] + Tries(rq, env, h + 1, Some(l.next), l.progress)
  {
    EnterHops(rq, env(h), model);
    var a, b, d := Enter(rq, env(h), model).events, Act(rq, env(h), model, p).events, Ended(Guarded(rq, model));
    ActHops(rq, env(h), model, p);
    NoHops(d);
    var l := Act(rq, env(h), model, p);
    QuietJoin(a, b, Run(rq, env, h + 1, Some(l.next), l.progress).events, d);
  }

  function Names(path: seq<Visit>): (r: seq<string>)
    ensures |r| == |path| && forall i :: 0 <= i < |path| ==> r[i] == NameOf(path[i].model)
  {
    if path == [] then [] else [NameOf(path[0].model)] + Names(path[1..])
  }

  // The trace shows exactly the hops of the path.
  lemma {:induction false} TriesArePath(rq: Request, env: Script, h: nat, model: Option<string>, p: Progress)
    ensures Tries(rq, env, h, model, p) == Names(Path(rq, env, h, model, p))
    decreases Budget(p)
  {
    if Continues(rq, env(h), model, p) {
      var l := Act(rq, env(h), model, p);
      TriesMore(rq, env, h, model, p);
      ActContinues(rq, env(h), model, p);
      TriesArePath(rq, env, h + 1, Some(l.next), l.progress);
      NamesCons(Visit(h, model, p), Path(rq, env, h + 1, Some(l.next), l.progress));
    } else {
      TriesOne(rq, env, h, model, p);
      NamesCons(Visit(h, model, p), []);
    }
  }

  lemma {:induction false} NamesCons(v: Visit, path: seq<Visit>)
    ensures Names([v] + path) == [NameOf(v.model)] + Names(path)
  {
    assert ([v] + path)[1..] == path;
  }

  // The models of the hops are pairwise distinct and, after the first, allowed by the
  // data policy; after an HTTP error or a timeout at a named provider no later hop
  // returns to that provider.
  lemma {:induction false} HopsNeverRepeat(rq: Request, env: Script, h: nat, model: Option<string>, p: Progress,
                                           i: nat, j: nat)
    requires i < j < |Tries(rq, env, h, model, p)|
    ensures var ms := Tries(rq, env, h, model, p);
            && ms[i] != ms[j] && rq.policy(ms[j])
            && (Failing(env(h + i).reply) && BeforeSlash(ms[i]) != "" ==> BeforeSlash(ms[j]) != BeforeSlash(ms[i]))
  {
    TriesArePath(rq, env, h, model, p);
    PathChains(rq, env, h, model, p);
    NamesNeverRepeat(rq, env, Path(rq, env, h, model, p), h, i, j);
  }

  lemma {:induction false} NamesNeverRepeat(rq: Request, env: Script, path: seq<Visit>, h: nat, i: nat, j: nat)
    requires Chain(rq, env, path) && i < j < |path| && path[0].hop == h
    ensures var ms := Names(path);
            && ms[i] != ms[j] && rq.policy(ms[j])
            && (Failing(env(h + i).reply) && BeforeSlash(ms[i]) != "" ==> BeforeSlash(ms[j]) != BeforeSlash(ms[i]))
  {
    ChainNeverRepeats(rq, env, path, i, j);
    if i > 0 {
      ChainGrows(rq, env, path, 0, i);
    }
  }

  // A provider without a name is never spent, so it can be tried again after it failed.
  lemma {:induction false} NamelessProviderRepeats(rq: Request, env: Script)
    requires forall m :: rq.policy(m)
    requires env(0) == Surroundings(Direct, true, false, HttpFailure(500, false, false, true), NoRouter, false, ["/b"])
    ensures |Tries(rq, env, 0, Some("/a"), FRESH)| >= 2
    ensures var ms := Tries(rq, env, 0, Some("/a"), FRESH);
            ms[0] == "/a" && ms[1] == "/b" && BeforeSlash(ms[0]) == BeforeSlash(ms[1]) && Failing(env(0).reply)
  {
    NamelessGoesOn(rq, env(0));
    TriesMore(rq, env, 0, Some("/a"), FRESH);
    FirstTry(rq, env, 1, Some("/b"), Act(rq, env(0), Some("/a"), FRESH).progress);
  }

  lemma {:induction false} FirstTry(rq: Request, env: Script, h: nat, model: Option<string>, p: Progress)
    ensures Tries(rq, env, h, model, p) != [] && Tries(rq, env, h, model, p)[0] == NameOf(model)
  {
    if Continues(rq, env(h), model, p) {
      TriesMore(rq, env, h, model, p);
    } else {
      TriesOne(rq, env, h, model, p);
    }
  }

  lemma {:induction false} NamelessGoesOn(rq: Request, e: Surroundings)
    requires rq.policy("/b")
    requires e == Surroundings(Direct, true, false, HttpFailure(500, false, false, true), NoRouter, false, ["/b"])
    ensures BeforeSlash("/a") == BeforeSlash("/b") == ""
    ensures Continues(rq, e, Some("/a"), FRESH) && Act(rq, e, Some("/a"), FRESH).next == "/b"
  {
    assert BeforeSlash("/a") == "" && BeforeSlash("/b") == "";
    assert Spent(FRESH, "/a", true) == FRESH.(models := {"/a"});
    assert NextModel(rq, e.chain, Spent(FRESH, "/a", true)) == Some("/b");
  }

  // ---- What the last hop shows ----------------------------------------------------------------------------------

  // Events no hop that goes on can leave behind.
  predicate Closing(x: Event) {
    x.Head? || x == Penalize(true) || x.Cooldown?
  }

  predicate LastShows(rq: Request, env: Script, last: Visit, x: Event) {
    match Enter(rq, env(last.hop), last.model)
    case Refused(events) => x in events
    case Entered(_) => x in Act(rq, env(last.hop), last.model, last.progress).events
  }

  lemma {:induction false} ContinueOpen(rq: Request, e: Surroundings, model: Option<string>, p: Progress, x: Event)
    requires Closing(x) && Act(rq, e, model, p).Continue?
    ensures x !in Act(rq, e, model, p).events
  {
  }

  lemma {:induction false} RunMember(rq: Request, env: Script, h: nat, model: Option<string>, p: Progress, x: Event)
    requires Closing(x) && Enter(rq, env(h), model).Entered?
    ensures x in Run(rq, env, h, model, p).events
       <==> match Act(rq, env(h), model, p)
            case Stop(more, _, _) => x in more
            case Continue(_, next, q) => x in Run(rq, env, h + 1, Some(next), q).events
  {
    assert x !in Ended(Guarded(rq, model));
    assert x !in Enter(rq, env(h), model).events;
    if Act(rq, env(h), model, p).Continue? {
      ContinueOpen(rq, env(h), model, p, x);
    }
  }

  lemma {:induction false} OnlyAtLast(rq: Request, env: Script, h: nat, model: Option<string>, p: Progress, x: Event)
    requires Closing(x)
    ensures x in Run(rq, env, h, model, p).events <==> LastShows(rq, env, Last(rq, env, h, model, p), x)
    decreases Budget(p)
  {
    if Enter(rq, env(h), model).Entered? {
      RunMember(rq, env, h, model, p, x);
      ActContinues(rq, env(h), model, p);
      match Act(rq, env(h), model, p)
      case Stop(_, _, _) =>
      case Continue(_, next, q) => OnlyAtLast(rq, env, h + 1, Some(next), q, x);
    }
  }

  // The last hop starts with as many attempts as hops gone by, and with a model a
  // router chose exactly when a hop went by or that was so from the start.
  lemma {:induction false} LastProgress(rq: Request, env: Script, h: nat, model: Option<string>, p: Progress)
    ensures var last := Last(rq, env, h, model, p);
            && last.hop >= h && last.progress.attempts == p.attempts + (last.hop - h)
            && last.progress.routerSelected == (p.routerSelected || last.hop > h)
  {
    var path := Path(rq, env, h, model, p);
    PathChains(rq, env, h, model, p);
    if |path| > 1 {
      ChainGrows(rq, env, path, 0, |path| - 1);
    }
  }

  // ---- Which answer ----------------------------------------------------------------------------

  // The status the last hop answers with; `selected` when the client did not name the model.
  predicate Answers(rq: Request, e: Surroundings, name: string, selected: bool, status: nat) {
    if !LetIn(rq, e, name) then status == 503
    else if e.expired then status == 504
    else if SecondEnds(e) then e.retry == RetryDelivered(status)
    else match e.reply
      case Delivered(delivered) => status == delivered
      case EmptyBody => status == 503
      case RawOsError => status == 503
      case RawTimeout => status == 504
      case ConnectionLost(timedOut) => status == if timedOut then 504 else 503
      case HttpFailure(code, _, friendly, readable) =>
        readable && status == if !friendly && selected && IsClientError(code) then 503 else code
      case Uncaught => false
  }

  // The client sees a status exactly when it is the one the last hop's surroundings call
  // for: what was delivered, by the first router or the second; the error, unless it is
  // an unclassified 4xx of a model the client did not name; 504 for a deadline or a
  // timeout; 503 for the rest.
  lemma {:induction false} AnswerIs(rq: Request, env: Script, h: nat, model: Option<string>, p: Progress, status: nat)
    ensures var last := Last(rq, env, h, model, p);
            Head(status) in Run(rq, env, h, model, p).events <==>
              Answers(rq, env(last.hop), NameOf(last.model), p.routerSelected || last.hop > h, status)
  {
    OnlyAtLast(rq, env, h, model, p, Head(status));
    LastStops(rq, env, h, model, p);
    LastProgress(rq, env, h, model, p);
    var last := Last(rq, env, h, model, p);
    EntersIff(rq, env(last.hop), last.model);
    if Enter(rq, env(last.hop), last.model).Entered? {
      StatusShown(rq, env(last.hop), last.model, last.progress, status);
    } else {
      RefusalShown(rq, env(last.hop), last.model, status);
    }
  }

  lemma {:induction false} RefusalShown(rq: Request, e: Surroundings, model: Option<string>, status: nat)
    requires Enter(rq, e, model).Refused?
    ensures Head(status) in Enter(rq, e, model).events <==> status == if LetIn(rq, e, NameOf(model)) then 504 else 503
  {
    var events := Enter(rq, e, model).events;
    assert events[|events| - 1] == Head(if LetIn(rq, e, NameOf(model)) then 504 else 503);
    assert forall x :: x in events[..|events| - 1] ==> !x.Head?;
    assert events == events[..|events| - 1] + [events[|events| - 1]];
  }

  lemma {:induction false} StatusShown(rq: Request, e: Surroundings, model: Option<string>, p: Progress, status: nat)
    requires Act(rq, e, model, p).Stop? && Reaches(rq, e, NameOf(model))
    ensures Head(status) in Act(rq, e, model, p).events <==> Answers(rq, e, NameOf(model), p.routerSelected, status)
  {
    if e.reply.HttpFailure? {
      HttpStatus(rq, e, model, p, status);
    } else if TimesOut(e.reply) {
      SlowStatus(rq, e, model, p, status);
    } else if e.reply.ConnectionLost? {
      LostStatus(rq, e, model, p, status);
    }
  }

  lemma {:induction false} SlowStatus(rq: Request, e: Surroundings, model: Option<string>, p: Progress, status: nat)
    requires Act(rq, e, model, p).Stop? && TimesOut(e.reply)
    ensures Head(status) in Act(rq, e, model, p).events <==> status == 504
  {
    assert Act(rq, e, model, p).events == TimeoutEvents(rq, model, p);
  }

  lemma {:induction false} HttpStatus(rq: Request, e: Surroundings, model: Option<string>, p: Progress, status: nat)
    requires Act(rq, e, model, p).Stop? && e.reply.HttpFailure? && Reaches(rq, e, NameOf(model))
    ensures Head(status) in Act(rq, e, model, p).events <==> Answers(rq, e, NameOf(model), p.routerSelected, status)
  {
    if e.reply.readable {
      RetryStatus(e, status);
    }
    if e.reply.readable && !RetryEnds(e) {
      var error := Head(ErrorStatus(e.reply.code, e.reply.friendly, p));
      assert Act(rq, e, model, p).events == RetryEvents(e) + [error];
    }
  }

  lemma {:induction false} RetryStatus(e: Surroundings, status: nat)
    ensures Head(status) in RetryEvents(e) <==> e.route.Routed? && e.retry == RetryDelivered(status)
  {
    if e.route.Routed? && e.retry.RetryDelivered? {
      assert RetryEvents(e)[1] == Head(e.retry.status);
    }
  }

  lemma {:induction false} LostStatus(rq: Request, e: Surroundings, model: Option<string>, p: Progress, status: nat)
    requires Act(rq, e, model, p).Stop? && e.reply == ConnectionLost(false) && Reaches(rq, e, NameOf(model))
    ensures Head(status) in Act(rq, e, model, p).events <==> Answers(rq, e, NameOf(model), p.routerSelected, status)
  {
    RetryStatus(e, status);
    var tried := (if e.route.Routed? then [Penalize(true)] else []) + RetryEvents(e);
    assert Head(status) in tried <==> Head(status) in RetryEvents(e);
    assert Act(rq, e, model, p).events == if RetryEnds(e) then tried else tried + [Head(503)];
  }

  // A 4xx reaches the client exactly when the last hop delivered it, or failed with it
  // and it was classified or the client named the model.
  lemma {:induction false} ClientErrorsShielded(rq: Request, env: Script, h: nat, model: Option<string>, p: Progress,
                                                status: nat)
    requires IsClientError(status)
    ensures var last := Last(rq, env, h, model, p);
            var e := env(last.hop);
            Head(status) in Run(rq, env, h, model, p).events <==>
              && Reaches(rq, e, NameOf(last.model))
              && (|| e.reply == Delivered(status)
                  || (SecondEnds(e) && e.retry == RetryDelivered(status))
                  || (e.reply.HttpFailure? && e.reply.readable && !SecondEnds(e) && e.reply.code == status
                      && (e.reply.friendly || !(p.routerSelected || last.hop > h))))
  {
    AnswerIs(rq, env, h, model, p, status);
  }

  // ---- What is put on hold or penalised -----------------------------------------------------------

  // The last hop puts this model on hold: its whole provider if another model had been
  // given up on, on an earlier hop of this run or before it.
  predicate LastHolds(rq: Request, env: Script, h: nat, p: Progress, last: Visit, model: string, wide: bool) {
    && Reaches(rq, env(last.hop), NameOf(last.model))
    && rq.registry && last.model == Some(model) && TimesOut(env(last.hop).reply)
    && wide == (last.hop > h || p.attempts > 0)
  }

  // The last model that timed out is put on hold, with its whole provider exactly
  // when an earlier model had been given up on.
  lemma {:induction false} TimeoutCooldown(rq: Request, env: Script, h: nat, model: Option<string>, p: Progress,
                                           m: string, wide: bool)
    ensures Cooldown(m, wide) in Run(rq, env, h, model, p).events
       <==> LastHolds(rq, env, h, p, Last(rq, env, h, model, p), m, wide)
  {
    OnlyAtLast(rq, env, h, model, p, Cooldown(m, wide));
    LastStops(rq, env, h, model, p);
    LastProgress(rq, env, h, model, p);
    var last := Last(rq, env, h, model, p);
    EntersIff(rq, env(last.hop), last.model);
    if Enter(rq, env(last.hop), last.model).Entered? {
      CooldownShown(rq, env(last.hop), last.model, last.progress, m, wide);
    }
  }

  lemma {:induction false} CooldownShown(rq: Request, e: Surroundings, model: Option<string>, p: Progress, m: string,
                                         wide: bool)
    requires Act(rq, e, model, p).Stop?
    ensures Cooldown(m, wide) in Act(rq, e, model, p).events
       <==> TimesOut(e.reply) && rq.registry && model == Some(m) && wide == (p.attempts > 0)
  {
    if TimesOut(e.reply) {
      assert Act(rq, e, model, p).events == TimeoutEvents(rq, model, p);
    } else {
      NoCooldown(rq, e, model, p, Cooldown(m, wide));
    }
  }

  lemma {:induction false} NoCooldown(rq: Request, e: Surroundings, model: Option<string>, p: Progress, x: Event)
    requires x.Cooldown? && !TimesOut(e.reply)
    ensures x !in Act(rq, e, model, p).events
  {
  }

  predicate LastUnreachable(rq: Request, env: Script, last: Visit) {
    && Reaches(rq, env(last.hop), NameOf(last.model))
    && env(last.hop).route.Routed? && env(last.hop).reply == ConnectionLost(false)
  }

  // A router is penalised for a lost connection only, never for a slow or failing provider.
  lemma {:induction false} SlowIsNotDead(rq: Request, env: Script, h: nat, model: Option<string>, p: Progress)
    ensures Penalize(true) in Run(rq, env, h, model, p).events
       <==> LastUnreachable(rq, env, Last(rq, env, h, model, p))
  {
    OnlyAtLast(rq, env, h, model, p, Penalize(true));
    LastStops(rq, env, h, model, p);
    var last := Last(rq, env, h, model, p);
    EntersIff(rq, env(last.hop), last.model);
    if Enter(rq, env(last.hop), last.model).Entered? {
      PenaltyShown(rq, env(last.hop), last.model, last.progress);
    }
  }

  lemma {:induction false} PenaltyShown(rq: Request, e: Surroundings, model: Option<string>, p: Progress)
    requires Act(rq, e, model, p).Stop?
    ensures Penalize(true) in Act(rq, e, model, p).events <==> e.route.Routed? && e.reply == ConnectionLost(false)
  {
    var closing := ActShape(rq, e, model, p);
    assert Penalize(true) !in closing;
    PenaltyTried(e);
  }

  lemma {:induction false} PenaltyTried(e: Surroundings)
    ensures Penalize(true) in Tried(e) <==> e.route.Routed? && e.reply == ConnectionLost(false)
  {
    if e.route.Routed? && e.reply == ConnectionLost(false) {
      assert Tried(e)[0] == Penalize(true);
    }
  }

  // ---- What every hop does ----------------------------------------------------------------------

  // One hop's part of the events counted by `f`.
  function Share(rq: Request, env: Script, v: Visit, f: Event -> bool): nat {
    var e := env(v.hop);
    Tally(Enter(rq, e, v.model).events, f)
    + if Enter(rq, e, v.model).Entered?
      then Tally(Act(rq, e, v.model, v.progress).events, f) + Tally(Ended(Guarded(rq, v.model)), f)
      else 0
  }

  function Shares(rq: Request, env: Script, path: seq<Visit>, f: Event -> bool): nat {
    if path == [] then 0 else Share(rq, env, path[0], f) + Shares(rq, env, path[1..], f)
  }

  lemma {:induction false} RunShares(rq: Request, env: Script, h: nat, model: Option<string>, p: Progress,
                                     f: Event -> bool)
    ensures Tally(Run(rq, env, h, model, p).events, f) == Shares(rq, env, Path(rq, env, h, model, p), f)
    decreases Budget(p)
  {
    var v := Visit(h, model, p);
    if Enter(rq, env(h), model).Entered? {
      RunTally(rq, env, h, model, p, f);
    }
    if Continues(rq, env(h), model, p) {
      var l := Act(rq, env(h), model, p);
      ActContinues(rq, env(h), model, p);
      RunShares(rq, env, h + 1, Some(l.next), l.progress, f);
      SharesCons(rq, env, v, Path(rq, env, h + 1, Some(l.next), l.progress), f);
    } else {
      SharesCons(rq, env, v, [], f);
    }
  }

  lemma {:induction false} SharesCons(rq: Request, env: Script, v: Visit, path: seq<Visit>, f: Event -> bool)
    ensures Shares(rq, env, [v] + path, f) == Share(rq, env, v, f) + Shares(rq, env, path, f)
  {
    assert ([v] + path)[1..] == path;
  }

  function Visits(path: seq<Visit>, g: Visit -> bool): nat {
    if path == [] then 0 else (if g(path[0]) then 1 else 0) + Visits(path[1..], g)
  }

  lemma {:induction false} SharesAreVisits(rq: Request, env: Script, path: seq<Visit>, f: Event -> bool,
                                           g: Visit -> bool)
    requires forall v :: Share(rq, env, v, f) == if g(v) then 1 else 0
    ensures Shares(rq, env, path, f) == Visits(path, g)
  {
    if path == [] {
    } else {
      SharesAreVisits(rq, env, path[1..], f, g);
    }
  }

  function TakesLease(rq: Request, env: Script, provider: string): Visit -> bool {
    (v: Visit) => LetIn(rq, env(v.hop), NameOf(v.model)) && GuardedBy(rq, NameOf(v.model), provider)
  }

  function ReturnsLease(rq: Request, env: Script, provider: string): Visit -> bool {
    (v: Visit) => Reaches(rq, env(v.hop), NameOf(v.model)) && GuardedBy(rq, NameOf(v.model), provider)
  }

  function MakesCall(rq: Request, env: Script): Visit -> bool {
    (v: Visit) => Reaches(rq, env(v.hop), NameOf(v.model))
  }

  function TriesSecond(rq: Request, env: Script): Visit -> bool {
    (v: Visit) => && Reaches(rq, env(v.hop), NameOf(v.model)) && Unanswered(env(v.hop).reply)
         && env(v.hop).route.Routed? && !env(v.hop).retry.NoRouter?
  }

  function PenalizesSecond(rq: Request, env: Script): Visit -> bool {
    (v: Visit) => TriesSecond(rq, env)(v) && env(v.hop).retry == RetryFailed(true)
  }

  function Is(x: Event): Event -> bool { y => y == x }

  lemma {:induction false} TakeShare(rq: Request, env: Script, v: Visit, provider: string)
    ensures Share(rq, env, v, Acquires(provider)) == if TakesLease(rq, env, provider)(v) then 1 else 0
    ensures Share(rq, env, v, Releases(provider)) == if ReturnsLease(rq, env, provider)(v) then 1 else 0
  {
    EntersIff(rq, env(v.hop), v.model);
    EnterLeases(rq, env(v.hop), v.model, provider);
    ActLeases(rq, env(v.hop), v.model, v.progress, provider);
    TookTally(Guarded(rq, v.model), provider);
  }

  lemma {:induction false} EnterOnly(rq: Request, e: Surroundings, model: Option<string>, x: Event)
    requires x.Call? || x.RetryCall? || x.Penalize?
    ensures Tally(Enter(rq, e, model).events, Is(x)) == if x.Call? && Enter(rq, e, model).Entered? then 1 else 0
    ensures Tally(Ended(Guarded(rq, model)), Is(x)) == 0
  {
    var start := [Hop(NameOf(model))] + Took(Guarded(rq, model));
    TallyNone(start, Is(x));
    TallyNone(Ended(Guarded(rq, model)), Is(x));
    if Enter(rq, e, model).Entered? {
      TallyJoin(start, [Call], Is(x));
      TallyOne(Call, Is(x));
    } else {
      TallyNone(Enter(rq, e, model).events, Is(x));
    }
  }

  lemma {:induction false} CallShare(rq: Request, env: Script, v: Visit)
    ensures Share(rq, env, v, Is(Call)) == if MakesCall(rq, env)(v) then 1 else 0
  {
    EntersIff(rq, env(v.hop), v.model);
    EnterOnly(rq, env(v.hop), v.model, Call);
    ActOwn(rq, env(v.hop), v.model, v.progress);
    TallyNone(Act(rq, env(v.hop), v.model, v.progress).events, Is(Call));
  }

  lemma {:induction false} SecondShare(rq: Request, env: Script, v: Visit)
    ensures Share(rq, env, v, Is(RetryCall)) == if TriesSecond(rq, env)(v) then 1 else 0
    ensures Share(rq, env, v, Is(Penalize(false))) == if PenalizesSecond(rq, env)(v) then 1 else 0
  {
    var e := env(v.hop);
    EntersIff(rq, e, v.model);
    EnterOnly(rq, e, v.model, RetryCall);
    EnterOnly(rq, e, v.model, Penalize(false));
    ActSecond(rq, e, v.model, v.progress);
  }

  lemma {:induction false} ActSecond(rq: Request, e: Surroundings, model: Option<string>, p: Progress)
    ensures Tally(Act(rq, e, model, p).events, Is(RetryCall))
         == if Unanswered(e.reply) && e.route.Routed? && !e.retry.NoRouter? then 1 else 0
    ensures Tally(Act(rq, e, model, p).events, Is(Penalize(false)))
         == if Unanswered(e.reply) && e.route.Routed? && e.retry == RetryFailed(true) then 1 else 0
  {
    var closing := ActShape(rq, e, model, p);
    ShapedSecond(rq, e, model, p, closing, RetryCall);
    ShapedSecond(rq, e, model, p, closing, Penalize(false));
    RetrySecond(e);
  }

  lemma {:induction false} ShapedSecond(rq: Request, e: Surroundings, model: Option<string>, p: Progress,
                                        closing: seq<Event>, x: Event)
    requires x == RetryCall || x == Penalize(false)
    requires closing == [] || closing == TimeoutEvents(rq, model, p) || (|closing| == 1 && closing[0].Head?)
    ensures Tally(Tried(e) + closing, Is(x)) == if Unanswered(e.reply) then Tally(RetryEvents(e), Is(x)) else 0
  {
    TallyJoin(Tried(e), closing, Is(x));
    TallyNone(closing, Is(x));
    if Unanswered(e.reply) {
      TallyJoin(Penalty(e), RetryEvents(e), Is(x));
      TallyNone(Penalty(e), Is(x));
    }
  }

  lemma {:induction false} RetrySecond(e: Surroundings)
    ensures Tally(RetryEvents(e), Is(RetryCall)) == if e.route.Routed? && !e.retry.NoRouter? then 1 else 0
    ensures Tally(RetryEvents(e), Is(Penalize(false)))
         == if e.route.Routed? && e.retry == RetryFailed(true) then 1 else 0
  {
    var es := RetryEvents(e);
    if |es| >= 1 {
      TallyOne(RetryCall, Is(RetryCall));
      TallyOne(RetryCall, Is(Penalize(false)));
    }
    if |es| == 2 {
      assert es == [RetryCall] + [es[1]];
      TallyJoin([RetryCall], [es[1]], Is(RetryCall));
      TallyJoin([RetryCall], [es[1]], Is(Penalize(false)));
      TallyOne(es[1], Is(RetryCall));
      TallyOne(es[1], Is(Penalize(false)));
    }
  }

  // Over the hops of a request: a lease is taken by each that is let in with a guarded
  // model and returned by each of them that reaches upstream; each that reaches upstream
  // calls it once; a second router is called by each that stays unanswered and has one,
  // and penalised where it failed for a reason of its own.
  lemma {:induction false} HopsAccountForAll(rq: Request, env: Script, h: nat, model: Option<string>, p: Progress,
                                             provider: string)
    ensures var es, path := Run(rq, env, h, model, p).events, Path(rq, env, h, model, p);
            && Tally(es, Acquires(provider)) == Visits(path, TakesLease(rq, env, provider))
            && Tally(es, Releases(provider)) == Visits(path, ReturnsLease(rq, env, provider))
            && Tally(es, Is(Call)) == Visits(path, MakesCall(rq, env))
            && Tally(es, Is(RetryCall)) == Visits(path, TriesSecond(rq, env))
            && Tally(es, Is(Penalize(false))) == Visits(path, PenalizesSecond(rq, env))
  {
    forall v
      ensures Share(rq, env, v, Acquires(provider)) == if TakesLease(rq, env, provider)(v) then 1 else 0
      ensures Share(rq, env, v, Releases(provider)) == if ReturnsLease(rq, env, provider)(v) then 1 else 0
      ensures Share(rq, env, v, Is(Call)) == if MakesCall(rq, env)(v) then 1 else 0
      ensures Share(rq, env, v, Is(RetryCall)) == if TriesSecond(rq, env)(v) then 1 else 0
      ensures Share(rq, env, v, Is(Penalize(false))) == if PenalizesSecond(rq, env)(v) then 1 else 0
    {
      TakeShare(rq, env, v, provider);
      CallShare(rq, env, v);
      SecondShare(rq, env, v);
    }
    Accounted(rq, env, h, model, p, Acquires(provider), TakesLease(rq, env, provider));
    Accounted(rq, env, h, model, p, Releases(provider), ReturnsLease(rq, env, provider));
    Accounted(rq, env, h, model, p, Is(Call), MakesCall(rq, env));
    Accounted(rq, env, h, model, p, Is(RetryCall), TriesSecond(rq, env));
    Accounted(rq, env, h, model, p, Is(Penalize(false)), PenalizesSecond(rq, env));
  }

  lemma {:induction false} Accounted(rq: Request, env: Script, h: nat, model: Option<string>, p: Progress,
                                     f: Event -> bool, g: Visit -> bool)
    requires forall v :: Share(rq, env, v, f) == if g(v) then 1 else 0
    ensures Tally(Run(rq, env, h, model, p).events, f) == Visits(Path(rq, env, h, model, p), g)
  {
    RunShares(rq, env, h, model, p, f);
    SharesAreVisits(rq, env, Path(rq, env, h, model, p), f, g);
  }

  // ---- In which order --------------------------------------------------------------------------

  // A hop opens with its model, its lease and its call.
  function Opening(rq: Request, name: string): seq<Event> {
    [Hop(name)] + (if GuardedBy(rq, name, BeforeSlash(name)) then [Acquire(BeforeSlash(name))] else []) + [Call]
  }

  // Its lease comes back after everything else, later hops included.
  function Ending(rq: Request, name: string): seq<Event> {
    if GuardedBy(rq, name, BeforeSlash(name)) then [Release(BeforeSlash(name))] else []
  }

  // The events of a hop that reaches upstream lie between its opening and its ending,
  // and those of the hops after it lie together right before the ending.
  lemma {:induction false} HopsNest(rq: Request, env: Script, h: nat, model: Option<string>, p: Progress)
    requires Reaches(rq, env(h), NameOf(model))
    ensures var es := Run(rq, env, h, model, p).events;
            var l := Act(rq, env(h), model, p);
            var later := if l.Continue? then Run(rq, env, h + 1, Some(l.next), l.progress).events else [];
            es == Opening(rq, NameOf(model)) + l.events + later + Ending(rq, NameOf(model))
  {
    EntersIff(rq, env(h), model);
    assert Enter(rq, env(h), model).events == Opening(rq, NameOf(model));
    assert Ended(Guarded(rq, model)) == Ending(rq, NameOf(model));
    var l := Act(rq, env(h), model, p);
    if l.Stop? {
      assert Opening(rq, NameOf(model)) + l.events + [] == Opening(rq, NameOf(model)) + l.events;
    }
  }

  // After a response head nothing happens but the return of leases.
  ghost predicate AnswerLast(es: seq<Event>) {
    forall i, j :: 0 <= i < j < |es| && es[i].Head? ==> es[j].Release?
  }

  lemma {:induction false} NothingAfterTheAnswer(rq: Request, env: Script, h: nat, model: Option<string>, p: Progress)
    ensures AnswerLast(Run(rq, env, h, model, p).events)
    decreases Budget(p)
  {
    if Enter(rq, env(h), model).Entered? {
      var before, l := Enter(rq, env(h), model).events, Act(rq, env(h), model, p);
      ActAnswersLast(rq, env(h), model, p);
      if l.Continue? {
        ActContinues(rq, env(h), model, p);
        var rest := Run(rq, env, h + 1, Some(l.next), l.progress).events;
        NothingAfterTheAnswer(rq, env, h + 1, Some(l.next), l.progress);
        AnswerLastJoins(before + l.events, rest);
        ReleaseAtEnd(before + l.events + rest, Guarded(rq, model));
      } else {
        AnswerLastJoins(before, l.events);
        ReleaseAtEnd(before + l.events, Guarded(rq, model));
      }
    }
  }

  ghost predicate NoHead(es: seq<Event>) {
    forall i :: 0 <= i < |es| ==> !es[i].Head?
  }

  lemma {:induction false} AnswerLastJoins(a: seq<Event>, b: seq<Event>)
    requires NoHead(a) && AnswerLast(b)
    ensures AnswerLast(a + b)
  {
    forall i, j | 0 <= i < j < |a + b| && (a + b)[i].Head? ensures (a + b)[j].Release? {
      assert i >= |a| && b[i - |a|].Head?;
    }
  }

  lemma {:induction false} ReleaseAtEnd(es: seq<Event>, lease: Option<string>)
    requires AnswerLast(es)
    ensures AnswerLast(es + Ended(lease))
  {
  }

  lemma {:induction false} ActAnswersLast(rq: Request, e: Surroundings, model: Option<string>, p: Progress)
    ensures var l := Act(rq, e, model, p); AnswerLast(l.events) && (l.Continue? ==> NoHead(l.events))
  {
    var closing := ActShape(rq, e, model, p);
    ShapedAnswersLast(rq, e, model, p, Act(rq, e, model, p), closing);
  }

  lemma {:induction false} ShapedAnswersLast(rq: Request, e: Surroundings, model: Option<string>, p: Progress,
                                             l: Local, closing: seq<Event>)
    requires Shaped(rq, e, model, p, l, closing)
    ensures AnswerLast(l.events) && (l.Continue? ==> NoHead(l.events))
  {
    TriedAnswersLast(e);
    if Answered(e) {
      assert Tried(e) + [] == Tried(e);
    } else {
      AnswerLastJoins(Tried(e), closing);
    }
  }

  lemma {:induction false} TriedAnswersLast(e: Surroundings)
    ensures AnswerLast(Tried(e)) && (!Answered(e) ==> NoHead(Tried(e)))
  {
    if Detours(e) {
      AnswerLastJoins(Penalty(e), RetryEvents(e));
    }
  }
}
