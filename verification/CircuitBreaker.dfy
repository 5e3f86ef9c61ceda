// One provider's circuit breaker, and what holds over every run of it.
module CircuitBreaker {
  import opened Sequences
  import opened Text
  import opened Clock

  const CB_FAILURE_THRESHOLD := 5
  const CB_SUCCESS_THRESHOLD := 3
  const CB_WINDOW := 600 * SECOND
  const CB_OPEN_TIMEOUT := 180 * SECOND
  const CB_HALF_OPEN_MAX_REQUESTS := 3
  const RATE_WINDOW := 600 * SECOND
  const RATE_THRESHOLD := 3

  datatype State = Closed | Open | HalfOpen

  datatype Breaker = Breaker(
    state: State,
    failures: seq<int>,
    successes: nat,
    lastFailure: Option<int>,
    lastChange: int,
    halfOpen: nat,
    rateLimits: seq<int>)

  function Fresh(now: int): Breaker {
    Breaker(Closed, [], 0, None, now, 0, [])
  }

  // The timestamps less than `window` old.
  function Recent(ts: seq<int>, window: int, now: int): seq<int> {
    if ts == [] then []
    else (if ts[0] > now - window then [ts[0]] else []) + Recent(ts[1..], window, now)
  }

  function Prune(cb: Breaker, now: int): Breaker {
    cb.(failures := Recent(cb.failures, CB_WINDOW, now))
  }

  // record_cb_failure
  function OnFailure(cb: Breaker, now: int): Breaker {
    var failures := Recent(cb.failures, CB_WINDOW, now) + [now];
    var b := cb.(failures := failures, lastFailure := Some(now));
    if cb.state == Closed && |failures| >= CB_FAILURE_THRESHOLD then b.(state := Open, lastChange := now)
    else if cb.state == HalfOpen then b.(state := Open, lastChange := now, successes := 0, halfOpen := 0)
    else b
  }

  // record_cb_success
  function OnSuccess(cb: Breaker, now: int): Breaker {
    match cb.state
    case HalfOpen =>
      var b := cb.(successes := cb.successes + 1, halfOpen := if cb.halfOpen > 0 then cb.halfOpen - 1 else 0);
      if b.successes >= CB_SUCCESS_THRESHOLD then b.(state := Closed, failures := [], successes := 0, lastChange := now)
      else b
    case Closed => Prune(cb, now)
    case Open => cb
  }

  // The answer of can_execute_cb ...
  predicate Admits(cb: Breaker, now: int) {
    match cb.state
    case Closed => true
    case Open => now - cb.lastChange >= CB_OPEN_TIMEOUT
    case HalfOpen => cb.halfOpen < CB_HALF_OPEN_MAX_REQUESTS
  }

  // ... and the state it leaves behind.
  function OnExecute(cb: Breaker, acquire: bool, now: int): Breaker {
    if !Admits(cb, now) then cb
    else match cb.state
      case Closed => cb
      case Open => cb.(state := HalfOpen, successes := 0, halfOpen := if acquire then 1 else 0, lastChange := now)
      case HalfOpen => if acquire then cb.(halfOpen := cb.halfOpen + 1) else cb
  }

  // release_cb
  function OnRelease(cb: Breaker): Breaker {
    if cb.state == HalfOpen && cb.halfOpen > 0 then cb.(halfOpen := cb.halfOpen - 1) else cb
  }

  // record_cb_429
  function OnRateLimit(cb: Breaker, now: int): Breaker {
    cb.(rateLimits := Recent(cb.rateLimits, RATE_WINDOW, now) + [now])
  }

  // A restart keeps the breaker but drops the in-flight counters.
  function OnReload(cb: Breaker): Breaker {
    if cb.state == HalfOpen then cb.(successes := 0, halfOpen := 0) else cb
  }

  // get_429_penalty over a list of 429 times.
  function Penalty(ts: seq<int>, now: int): int {
    var count := |Recent(ts, RATE_WINDOW, now)|;
    if count < RATE_THRESHOLD then 0
    else if (count - RATE_THRESHOLD + 1) * 100 < 500 then (count - RATE_THRESHOLD + 1) * 100
    else 500
  }

  // ---- Runs ------------------------------------------------------------------

  // `lease` names the acquired slot that an outcome ends, when there is one.
  datatype Event =
    | Failure(at: int, lease: Option<nat>)
    | Success(at: int, lease: Option<nat>)
    | Release(at: int, lease: Option<nat>)
    | Execute(at: int, acquire: bool, id: nat)
    | RateLimit(at: int)
    | Reload(at: int)

  function Step(cb: Breaker, e: Event): Breaker {
    match e
    case Failure(at, _) => OnFailure(cb, at)
    case Success(at, _) => OnSuccess(cb, at)
    case Release(_, _) => OnRelease(cb)
    case Execute(at, acquire, _) => OnExecute(cb, acquire, at)
    case RateLimit(at) => OnRateLimit(cb, at)
    case Reload(_) => OnReload(cb)
  }

  function Run(t0: int, events: seq<Event>): Breaker {
    if events == [] then Fresh(t0) else Step(Run(t0, Front(events)), Last(events))
  }

  // The breaker just before events[k] (after the first k events).
  function Before(t0: int, events: seq<Event>, k: nat): Breaker
    requires k <= |events|
  {
    Run(t0, events[..k])
  }

  lemma {:induction false} BeforeStep(t0: int, events: seq<Event>, k: nat)
    requires k < |events|
    ensures Before(t0, events, k + 1) == Step(Before(t0, events, k), events[k])
  {
    assert Front(events[..k + 1]) == events[..k];
  }

  ghost predicate Ordered(events: seq<Event>) {
    forall i, j :: 0 <= i < j < |events| ==> events[i].at <= events[j].at
  }

  // events[k] opens the breaker.
  ghost predicate OpensAt(t0: int, events: seq<Event>, k: nat) {
    k < |events| && Before(t0, events, k).state != Open && Before(t0, events, k + 1).state == Open
  }

  // ---- Safety: an open breaker refuses -----------------------------------------

  lemma {:induction false} OpenStep(cb: Breaker, e: Event)
    requires cb.state == Open && e.at < cb.lastChange + CB_OPEN_TIMEOUT
    ensures Step(cb, e).state == Open && Step(cb, e).lastChange == cb.lastChange
  {
  }

  lemma {:induction false} StaysOpen(t0: int, events: seq<Event>, i: nat, k: nat)
    requires Ordered(events) && OpensAt(t0, events, i) && i < k <= |events|
    requires forall j :: i < j < k ==> events[j].at < events[i].at + CB_OPEN_TIMEOUT
    ensures Before(t0, events, k).state == Open && Before(t0, events, k).lastChange == events[i].at
  {
    if k == i + 1 {
      BeforeStep(t0, events, i);
    } else {
      StaysOpen(t0, events, i, k - 1);
      BeforeStep(t0, events, k - 1);
      OpenStep(Before(t0, events, k - 1), events[k - 1]);
    }
  }

  // After opening at time t, every attempt before t + 180 is refused.
  lemma {:induction false} OpenRefuses(t0: int, events: seq<Event>, i: nat, j: nat)
    requires Ordered(events) && OpensAt(t0, events, i) && i < j < |events|
    requires events[j].at < events[i].at + CB_OPEN_TIMEOUT
    ensures !Admits(Before(t0, events, j), events[j].at)
  {
    forall k | i < k < j ensures events[k].at < events[i].at + CB_OPEN_TIMEOUT {
      assert events[k].at <= events[j].at;
    }
    StaysOpen(t0, events, i, j);
  }

  // ---- Safety: closing takes a clean probation -----------------------------------

  function Successes(events: seq<Event>): nat {
    if events == [] then 0
    else (if Last(events).Success? then 1 else 0) + Successes(Front(events))
  }

  // An open breaker remembers when it was opened.
  lemma {:induction false} OpenedWhen(t0: int, events: seq<Event>) returns (o: nat)
    requires Run(t0, events).state == Open
    ensures OpensAt(t0, events, o) && Run(t0, events).lastChange == events[o].at
    ensures forall k :: o < k <= |events| ==> Before(t0, events, k).state == Open
  {
    var n := |events| - 1;
    assert events[..n + 1] == events && events[..n] == Front(events);
    if Run(t0, Front(events)).state == Open {
      o := OpenedWhen(t0, Front(events));
      forall k | o <= k <= n ensures Before(t0, Front(events), k) == Before(t0, events, k) {
        assert Front(events)[..k] == events[..k];
      }
      assert Before(t0, Front(events), o + 1) == Before(t0, events, o + 1);
    } else {
      o := n;
    }
  }

  // A half-open phase: entered at h from open, half-open ever since, with no
  // failure and with at least as many successes as the counter shows.
  ghost predicate PhaseSince(t0: int, events: seq<Event>, h: nat) {
    && h < |events|
    && Before(t0, events, h).state == Open
    && events[h].at - Before(t0, events, h).lastChange >= CB_OPEN_TIMEOUT
    && (forall k :: h < k <= |events| ==> Before(t0, events, k).state == HalfOpen)
    && (forall k :: h < k < |events| ==> !events[k].Failure?)
    && Run(t0, events).successes <= Successes(events[h + 1..])
  }

  lemma {:induction false} PhaseStart(t0: int, events: seq<Event>) returns (h: nat)
    requires Run(t0, events).state == HalfOpen
    ensures PhaseSince(t0, events, h)
  {
    var n := |events| - 1;
    var front := Front(events);
    if Run(t0, front).state == HalfOpen {
      h := PhaseStart(t0, front);
      PhaseExtends(t0, events, h);
    } else {
      h := n;
      assert events[..n + 1] == events && events[..n] == front;
    }
  }

  lemma {:induction false} PhaseExtends(t0: int, events: seq<Event>, h: nat)
    requires Run(t0, events).state == HalfOpen && events != [] && Run(t0, Front(events)).state == HalfOpen
    requires PhaseSince(t0, Front(events), h)
    ensures PhaseSince(t0, events, h)
  {
    var n := |events| - 1;
    var front := Front(events);
    PrefixBefore(t0, events, n);
    assert events[..n] == front && front[h] == events[h];
    assert Before(t0, front, h) == Before(t0, events, h);
    forall k | h < k <= n + 1 ensures Before(t0, events, k).state == HalfOpen {
      if k <= n {
        assert Before(t0, front, k) == Before(t0, events, k);
      } else {
        assert events[..k] == events;
      }
    }
    assert forall k :: h < k < n ==> events[k] == front[k];
    assert Front(events[h + 1..]) == front[h + 1..];
  }

  // The breaker closes again only like this: opened at o, half-open from h on
  // with at least 180 seconds between, at least 3 successes and no failure in
  // between, and the closing event is itself a success.
  lemma {:induction false} ClosesAfterProbation(t0: int, events: seq<Event>) returns (o: nat, h: nat)
    requires events != [] && Ordered(events)
    requires Run(t0, Front(events)).state != Closed && Run(t0, events).state == Closed
    ensures Last(events).Success?
    ensures o < h < |events| - 1
    ensures OpensAt(t0, events, o) && events[h].at >= events[o].at + CB_OPEN_TIMEOUT
    ensures forall k :: o < k <= h ==> Before(t0, events, k).state == Open
    ensures forall k :: h < k < |events| ==> Before(t0, events, k).state == HalfOpen && !events[k].Failure?
    ensures Successes(events[h + 1..]) >= CB_SUCCESS_THRESHOLD
  {
    h := PhaseStart(t0, Front(events));
    CleanProbation(t0, events, h);
    o := OpenedBefore(t0, events, h);
  }

  lemma {:induction false} CleanProbation(t0: int, events: seq<Event>, h: nat)
    requires events != [] && PhaseSince(t0, Front(events), h)
    requires Run(t0, Front(events)).state == HalfOpen && Run(t0, events).state == Closed
    ensures Last(events).Success? && h < |events| - 1
    ensures forall k :: h < k < |events| ==> Before(t0, events, k).state == HalfOpen && !events[k].Failure?
    ensures Successes(events[h + 1..]) >= CB_SUCCESS_THRESHOLD
  {
    var n := |events| - 1;
    var front := Front(events);
    PrefixBefore(t0, events, n);
    assert events[..n] == front;
    assert Front(events[h + 1..]) == front[h + 1..];
    forall k | h < k < |events| ensures Before(t0, events, k).state == HalfOpen && !events[k].Failure? {
      assert Before(t0, front, k) == Before(t0, events, k);
      assert k < n ==> front[k] == events[k];
    }
  }

  lemma {:induction false} OpenedBefore(t0: int, events: seq<Event>, h: nat) returns (o: nat)
    requires events != [] && PhaseSince(t0, Front(events), h)
    ensures o < h && OpensAt(t0, events, o) && events[h].at >= events[o].at + CB_OPEN_TIMEOUT
    ensures forall k :: o < k <= h ==> Before(t0, events, k).state == Open
  {
    PrefixBefore(t0, events, |events| - 1);
    assert events[..|events| - 1] == Front(events) && Front(events)[h] == events[h];
    assert Before(t0, Front(events), h) == Before(t0, events, h);
    o := OpenedWhen(t0, events[..h]);
    PrefixBefore(t0, events, h);
    CarriesOver(t0, events, h, o);
  }

  // A prefix of the run sees the same states.
  lemma {:induction false} PrefixBefore(t0: int, events: seq<Event>, m: nat)
    requires m <= |events|
    ensures forall k :: 0 <= k <= m ==> Before(t0, events[..m], k) == Before(t0, events, k)
  {
    forall k | 0 <= k <= m ensures Before(t0, events[..m], k) == Before(t0, events, k) {
      assert events[..m][..k] == events[..k];
    }
  }

  lemma {:induction false} CarriesOver(t0: int, events: seq<Event>, m: nat, o: nat)
    requires m <= |events| && OpensAt(t0, events[..m], o)
    ensures OpensAt(t0, events, o) && events[..m][o] == events[o]
  {
    PrefixBefore(t0, events, m);
    assert Before(t0, events[..m], o) == Before(t0, events, o);
    assert Before(t0, events[..m], o + 1) == Before(t0, events, o + 1);
  }

  // ---- A half-open slot is never lost -----------------------------------------------

  function EndedLease(e: Event): set<nat> {
    match e
    case Failure(_, Some(id)) => {id}
    case Success(_, Some(id)) => {id}
    case Release(_, Some(id)) => {id}
    case _ => {}
  }

  // Leases taken in the current half-open phase and not ended yet.  A lease
  // may be ended more than once, and ends without a lease are allowed too.
  function Outstanding(t0: int, events: seq<Event>): set<nat> {
    if events == [] then {}
    else
      var before := Run(t0, Front(events));
      var e := Last(events);
      if Step(before, e).state != HalfOpen || e.Reload? then {}
      else
        var kept := if before.state == HalfOpen then Outstanding(t0, Front(events)) - EndedLease(e) else {};
        if e.Execute? && e.acquire && Admits(before, e.at) then kept + {e.id} else kept
  }

  // Every acquisition gets a lease of its own.
  ghost predicate FreshLeases(events: seq<Event>) {
    forall i, j :: 0 <= i < j < |events| && events[i].Execute? && events[j].Execute? ==> events[i].id != events[j].id
  }

  lemma {:induction false} OutstandingWereTaken(t0: int, events: seq<Event>, id: nat)
    requires id in Outstanding(t0, events)
    ensures exists k :: 0 <= k < |events| && events[k].Execute? && events[k].id == id
  {
    if id in Outstanding(t0, Front(events)) {
      OutstandingWereTaken(t0, Front(events), id);
      var k :| 0 <= k < |Front(events)| && Front(events)[k].Execute? && Front(events)[k].id == id;
      assert events[k] == Front(events)[k];
    } else {
      assert events[|events| - 1] == Last(events);
    }
  }

  // In half-open the counter is between 0 and 3 and never exceeds the leases
  // taken in this phase and still out, over every interleaving.
  lemma {:induction false} SlotsMatchLeases(t0: int, events: seq<Event>)
    requires FreshLeases(events)
    ensures var cb := Run(t0, events);
            cb.state == HalfOpen ==>
              cb.halfOpen <= CB_HALF_OPEN_MAX_REQUESTS && cb.halfOpen <= |Outstanding(t0, events)|
  {
    if events == [] {
    } else {
      var front := Front(events);
      var before, e := Run(t0, front), Last(events);
      forall i, j | 0 <= i < j < |front| && front[i].Execute? && front[j].Execute? ensures front[i].id != front[j].id {
        assert events[i] == front[i] && events[j] == front[j];
      }
      SlotsMatchLeases(t0, front);
      if e.Execute? {
        LeaseIsNew(t0, events);
      }
      SlotStep(before, e, Outstanding(t0, front), Outstanding(t0, events));
    }
  }

  lemma {:induction false} LeaseIsNew(t0: int, events: seq<Event>)
    requires events != [] && FreshLeases(events) && Last(events).Execute?
    ensures Last(events).id !in Outstanding(t0, Front(events))
  {
    var front, id := Front(events), Last(events).id;
    if id in Outstanding(t0, front) {
      OutstandingWereTaken(t0, front, id);
      assert false;
    }
  }

  lemma {:induction false} SlotStep(before: Breaker, e: Event, o: set<nat>, o': set<nat>)
    requires before.state == HalfOpen ==> before.halfOpen <= CB_HALF_OPEN_MAX_REQUESTS && before.halfOpen <= |o|
    requires e.Execute? ==> e.id !in o
    requires o' ==
             if Step(before, e).state != HalfOpen || e.Reload? then {}
             else
               var kept := if before.state == HalfOpen then o - EndedLease(e) else {};
               if e.Execute? && e.acquire && Admits(before, e.at) then kept + {e.id} else kept
    ensures Step(before, e).state == HalfOpen ==>
              Step(before, e).halfOpen <= CB_HALF_OPEN_MAX_REQUESTS && Step(before, e).halfOpen <= |o'|
  {
    RemoveAtMostOne(o, EndedLease(e));
    assert EndedLease(e) == {} ==> o - EndedLease(e) == o;
  }

  lemma {:induction false} RemoveAtMostOne(s: set<nat>, t: set<nat>)
    requires |t| <= 1
    ensures |s - t| >= |s| - 1
  {
    assert s == (s - t) + (s * t);
    assert |s * t| <= |t| by {
      assert t == (s * t) + (t - s);
    }
  }

  // With no lease outstanding a half-open breaker lets a probe through.
  lemma {:induction false} IdleBreakerAdmits(t0: int, events: seq<Event>, now: int)
    requires FreshLeases(events)
    requires Run(t0, events).state == HalfOpen && Outstanding(t0, events) == {}
    ensures Admits(Run(t0, events), now)
  {
    SlotsMatchLeases(t0, events);
  }

  // ---- When attempts are admitted -------------------------------------------------------

  lemma {:induction false} NeverOpenedIsClosed(t0: int, events: seq<Event>)
    requires forall k: nat :: !OpensAt(t0, events, k)
    ensures Run(t0, events).state == Closed
  {
    if events == [] {
    } else {
      var n := |events| - 1;
      PrefixBefore(t0, events, n);
      assert events[..n] == Front(events) && events[..n + 1] == events;
      forall k: nat ensures !OpensAt(t0, Front(events), k) {
        if k < n {
          assert !OpensAt(t0, events, k);
          assert Before(t0, Front(events), k) == Before(t0, events, k);
          assert Before(t0, Front(events), k + 1) == Before(t0, events, k + 1);
        }
      }
      NeverOpenedIsClosed(t0, Front(events));
      assert !OpensAt(t0, events, n);
    }
  }

  // A breaker that never opened lets every attempt through.
  lemma {:induction false} NeverOpenedAdmits(t0: int, events: seq<Event>, now: int)
    requires forall k: nat :: !OpensAt(t0, events, k)
    ensures Admits(Run(t0, events), now)
  {
    NeverOpenedIsClosed(t0, events);
  }

  // Opened by event o, not half-open since, and less than 180 seconds ago.
  ghost predicate OpenSince(t0: int, events: seq<Event>, o: nat, now: int) {
    && OpensAt(t0, events, o) && now < events[o].at + 180 * SECOND
    && forall k :: o < k <= |events| ==> Before(t0, events, k).state == Open
  }

  // Half-open slots taken, read off the history: a first attempt opens the phase, others
  // take a slot each, up to three; successes and releases give one back; a restart drops
  // them all.
  function SlotsTaken(t0: int, events: seq<Event>): nat {
    if events == [] then 0
    else
      var before, taken, e := Run(t0, Front(events)).state, SlotsTaken(t0, Front(events)), Last(events);
      match e
      case Execute(_, acquire, _) =>
        if before == Open && Run(t0, events).state == HalfOpen then if acquire then 1 else 0
        else if before == HalfOpen && acquire && taken < 3 then taken + 1
        else taken
      case Success(_, _) => if before == HalfOpen && taken > 0 then taken - 1 else taken
      case Release(_, _) => if before == HalfOpen && taken > 0 then taken - 1 else taken
      case Failure(_, _) => if before == HalfOpen then 0 else taken
      case RateLimit(_) => taken
      case Reload(_) => if before == HalfOpen then 0 else taken
  }

  lemma {:induction false} SlotsAreCounted(t0: int, events: seq<Event>)
    ensures Run(t0, events).halfOpen == SlotsTaken(t0, events)
  {
    if events == [] {
    } else {
      SlotsAreCounted(t0, Front(events));
    }
  }

  // An attempt is refused exactly when the breaker opened less than 180 seconds before
  // and has not been half-open since, or is half-open with three slots taken.
  lemma {:induction false} RefusedIff(t0: int, events: seq<Event>, now: int)
    ensures !Admits(Run(t0, events), now) <==>
              || (exists o: nat :: OpenSince(t0, events, o, now))
              || (Run(t0, events).state == HalfOpen && SlotsTaken(t0, events) >= 3)
  {
    SlotsAreCounted(t0, events);
    assert events[..|events|] == events;
    if Run(t0, events).state == Open {
      var o := OpenedWhen(t0, events);
      if !Admits(Run(t0, events), now) {
        assert OpenSince(t0, events, o, now);
      }
      forall q: nat | OpenSince(t0, events, q, now) ensures !Admits(Run(t0, events), now) {
        SameOpening(t0, events, o, q);
      }
    } else {
      forall o: nat ensures !OpenSince(t0, events, o, now) {
        assert Before(t0, events, |events|).state != Open;
      }
    }
  }

  // The event that opened the breaker for good is the only one.
  lemma {:induction false} SameOpening(t0: int, events: seq<Event>, o: nat, q: nat)
    requires OpensAt(t0, events, o) && OpensAt(t0, events, q)
    requires forall k :: o < k <= |events| ==> Before(t0, events, k).state == Open
    requires forall k :: q < k <= |events| ==> Before(t0, events, k).state == Open
    ensures o == q
  {
  }

  // ---- Every change of state --------------------------------------------------------------

  // Successes since the half-open phase began or the last restart.
  function Streak(t0: int, events: seq<Event>): nat {
    if events == [] || Run(t0, Front(events)).state != HalfOpen then 0
    else match Last(events)
      case Success(_, _) => Streak(t0, Front(events)) + 1
      case Failure(_, _) => 0
      case Reload(_) => 0
      case _ => Streak(t0, Front(events))
  }

  lemma {:induction false} StreakIsCounted(t0: int, events: seq<Event>)
    ensures var cb := Run(t0, events); cb.successes == if cb.state == HalfOpen then Streak(t0, events) else 0
  {
    if events == [] {
    } else {
      StreakIsCounted(t0, Front(events));
    }
  }

  // Failures of the last 600 seconds, the new one included.
  function RecentFailures(t0: int, events: seq<Event>, now: int): nat {
    |Recent(FailureHistory(t0, events) + [now], 600 * SECOND, now)|
  }

  // The breaker opens exactly on the failure that makes five within 600 seconds, or on any
  // failure while half-open; becomes half-open exactly on the first attempt 180 seconds or
  // more after it opened; and closes exactly on the third success of a half-open phase.
  lemma {:induction false} StateChangesIff(t0: int, events: seq<Event>)
    requires Ordered(events) && events != []
    ensures var front, e := Front(events), Last(events);
            var before, after := Run(t0, front).state, Run(t0, events).state;
            && (before != Open && after == Open <==>
                  e.Failure? && (before == HalfOpen || (before == Closed && RecentFailures(t0, front, e.at) == 5)))
            && (before != HalfOpen && after == HalfOpen <==>
                  before == Open && e.Execute? && !exists o: nat :: OpenSince(t0, front, o, e.at))
            && (before != Closed && after == Closed <==>
                  before == HalfOpen && e.Success? && Streak(t0, front) >= 2)
  {
    var front, e := Front(events), Last(events);
    assert front + [e] == events;
    assert front != [] ==> Last(front).at <= e.at;
    StreakIsCounted(t0, front);
    RefusedIff(t0, front, e.at);
    if Run(t0, front).state == Closed && e.Failure? {
      assert forall i :: 0 <= i < |front| ==> front[i] == events[i];
      TripsOnFifth(t0, front, e.at, e.lease);
    }
  }

  function LastFailed(events: seq<Event>): Option<int> {
    if events == [] then None
    else if Last(events).Failure? then Some(Last(events).at)
    else LastFailed(Front(events))
  }

  function LastChanged(t0: int, events: seq<Event>): int {
    if events == [] then t0
    else if Run(t0, events).state != Run(t0, Front(events)).state then Last(events).at
    else LastChanged(t0, Front(events))
  }

  // The stamps are those of the last failure and of the last change of state.
  lemma {:induction false} StampsAreKept(t0: int, events: seq<Event>)
    ensures var cb := Run(t0, events); cb.lastFailure == LastFailed(events) && cb.lastChange == LastChanged(t0, events)
  {
    if events == [] {
    } else {
      StampsAreKept(t0, Front(events));
    }
  }

  // What is remembered stays bounded: after a failure, or a success while closed, no stored
  // failure is 600 seconds old, and after a 429 no stored 429 is.
  lemma {:induction false} OldOnesAreForgotten(t0: int, events: seq<Event>)
    requires events != []
    ensures var before, cb, e := Run(t0, Front(events)), Run(t0, events), Last(events);
            && (e.Failure? || (e.Success? && before.state == Closed) ==>
                  forall x :: x in cb.failures ==> x > e.at - 600 * SECOND)
            && (e.RateLimit? ==> forall x :: x in cb.rateLimits ==> x > e.at - 600 * SECOND)
  {
    var before, e := Run(t0, Front(events)), Last(events);
    NoneOld(before.failures, e.at);
    NoneOld(before.rateLimits, e.at);
  }

  lemma {:induction false} NoneOld(ts: seq<int>, now: int)
    ensures forall x :: x in Recent(ts, 600 * SECOND, now) ==> x > now - 600 * SECOND
  {
    forall x | x in Recent(ts, 600 * SECOND, now) ensures x > now - 600 * SECOND {
      RecentSpec(ts, 600 * SECOND, now, x);
      assert x in multiset(Recent(ts, 600 * SECOND, now));
    }
  }

  // ---- The pruned window agrees with the full history ----------------------------------

  // Every failure since the breaker last became closed, nothing pruned.
  function FailureHistory(t0: int, events: seq<Event>): seq<int> {
    if events == [] then []
    else
      var before := Run(t0, Front(events));
      var e := Last(events);
      if before.state != Closed && Step(before, e).state == Closed then []
      else if e.Failure? then FailureHistory(t0, Front(events)) + [e.at]
      else FailureHistory(t0, Front(events))
  }

  function RateHistory(events: seq<Event>): seq<int> {
    if events == [] then []
    else if Last(events).RateLimit? then RateHistory(Front(events)) + [Last(events).at]
    else RateHistory(Front(events))
  }

  lemma {:induction false} RecentAppend(a: seq<int>, b: seq<int>, window: int, now: int)
    ensures Recent(a + b, window, now) == Recent(a, window, now) + Recent(b, window, now)
  {
    if a == [] {
      assert a + b == b;
    } else {
      assert (a + b)[1..] == a[1..] + b;
      RecentAppend(a[1..], b, window, now);
    }
  }

  // The recent times are those less than the window old, each as often as in the list.
  lemma {:induction false} RecentSpec(ts: seq<int>, window: int, now: int, t: int)
    ensures multiset(Recent(ts, window, now))[t] == if t > now - window then multiset(ts)[t] else 0
  {
    if ts == [] {
    } else {
      RecentSpec(ts[1..], window, now, t);
      assert ts == [ts[0]] + ts[1..];
    }
  }

  // Pruning earlier does not change what is recent later.
  lemma {:induction false} RecentOfRecent(a: seq<int>, window: int, t: int, now: int)
    requires t <= now
    ensures Recent(Recent(a, window, t), window, now) == Recent(a, window, now)
  {
    if a == [] {
    } else {
      RecentOfRecent(a[1..], window, t, now);
      RecentAppend(if a[0] > t - window then [a[0]] else [], Recent(a[1..], window, t), window, now);
    }
  }

  lemma {:induction false} RecentShrinks(a: seq<int>, window: int, now: int)
    ensures |Recent(a, window, now)| <= |a|
  {
    if a == [] {
    } else {
      RecentShrinks(a[1..], window, now);
    }
  }

  // At any later time the pruned list shows the same recent failures as the
  // whole history.
  lemma {:induction false} WindowAgrees(t0: int, events: seq<Event>, now: int)
    requires Ordered(events) && (events != [] ==> Last(events).at <= now)
    ensures Recent(Run(t0, events).failures, CB_WINDOW, now)
            == Recent(FailureHistory(t0, events), CB_WINDOW, now)
  {
    if events == [] {
    } else {
      var front, e := Front(events), Last(events);
      assert front != [] ==> Last(front).at <= e.at;
      WindowAgrees(t0, front, now);
      WindowStep(Run(t0, front), FailureHistory(t0, front), e, now);
    }
  }

  lemma {:induction false} WindowStep(cb: Breaker, history: seq<int>, e: Event, now: int)
    requires Recent(cb.failures, CB_WINDOW, now) == Recent(history, CB_WINDOW, now) && e.at <= now
    ensures Recent(Step(cb, e).failures, CB_WINDOW, now)
         == Recent(if cb.state != Closed && Step(cb, e).state == Closed then []
                   else if e.Failure? then history + [e.at] else history, CB_WINDOW, now)
  {
    RecentOfRecent(cb.failures, CB_WINDOW, e.at, now);
    if e.Failure? {
      RecentAppend(Recent(cb.failures, CB_WINDOW, e.at), [e.at], CB_WINDOW, now);
      RecentAppend(history, [e.at], CB_WINDOW, now);
    }
  }

  lemma {:induction false} ClosedHoldsFew(t0: int, events: seq<Event>)
    ensures Run(t0, events).state == Closed ==> |Run(t0, events).failures| < CB_FAILURE_THRESHOLD
  {
    if events == [] {
    } else {
      ClosedHoldsFew(t0, Front(events));
      RecentShrinks(Run(t0, Front(events)).failures, CB_WINDOW, Last(events).at);
    }
  }

  // A closed breaker trips on exactly the failure that brings the failures of
  // the last 600 seconds, counted over the full history, to 5.
  lemma {:induction false} TripsOnFifth(t0: int, events: seq<Event>, now: int, lease: Option<nat>)
    requires Ordered(events) && (events != [] ==> Last(events).at <= now)
    requires Run(t0, events).state == Closed
    ensures var window := Recent(FailureHistory(t0, events) + [now], CB_WINDOW, now);
      && (Run(t0, events + [Failure(now, lease)]).state == Open <==> |window| == CB_FAILURE_THRESHOLD)
      && |window| <= CB_FAILURE_THRESHOLD
  {
    var e := Failure(now, lease);
    assert Front(events + [e]) == events && Last(events + [e]) == e;
    var cb := Run(t0, events);
    WindowAgrees(t0, events, now);
    ClosedHoldsFew(t0, events);
    RecentShrinks(cb.failures, CB_WINDOW, now);
    RecentAppend(FailureHistory(t0, events), [now], CB_WINDOW, now);
    assert Recent([now], CB_WINDOW, now) == [now];
  }

  // The 429 penalty is the same function of the full 429 history.
  lemma {:induction false} PenaltyAgrees(t0: int, events: seq<Event>, now: int)
    requires Ordered(events) && (events != [] ==> Last(events).at <= now)
    ensures Recent(Run(t0, events).rateLimits, RATE_WINDOW, now) == Recent(RateHistory(events), RATE_WINDOW, now)
    ensures Penalty(Run(t0, events).rateLimits, now) == Penalty(RateHistory(events), now)
  {
    if events == [] {
    } else {
      var front, e := Front(events), Last(events);
      assert front != [] ==> Last(front).at <= e.at;
      PenaltyAgrees(t0, front, now);
      if e.RateLimit? {
        var before := Run(t0, front).rateLimits;
        RecentOfRecent(before, RATE_WINDOW, e.at, now);
        RecentAppend(Recent(before, RATE_WINDOW, e.at), [e.at], RATE_WINDOW, now);
        RecentAppend(RateHistory(front), [e.at], RATE_WINDOW, now);
      }
    }
  }

  // From the third 429 of the last 600 seconds on, each costs 100, up to 500.
  lemma {:induction false} PenaltyIs(t0: int, events: seq<Event>, now: int)
    requires Ordered(events) && (events != [] ==> Last(events).at <= now)
    ensures var n := |Recent(RateHistory(events), 600 * SECOND, now)|;
            Penalty(Run(t0, events).rateLimits, now) == if n < 3 then 0 else if n < 7 then 100 * (n - 2) else 500
  {
    PenaltyAgrees(t0, events, now);
  }

  // ---- Many providers ----------------------------------------------------------------------

  // The breakers of all providers, after events tagged with provider names.
  function RunAll(events: seq<(string, Event)>): map<string, Breaker> {
    if events == [] then map[]
    else
      var before, (p, e) := RunAll(Front(events)), Last(events);
      before[p := Step(if p in before then before[p] else Fresh(e.at), e)]
  }

  function EventsOf(events: seq<(string, Event)>, p: string): seq<Event> {
    if events == [] then []
    else EventsOf(Front(events), p) + (if Last(events).0 == p then [Last(events).1] else [])
  }

  // Providers do not influence each other: each breaker is in the state that
  // its own events alone lead to, from the moment it is first touched.
  lemma {:induction false} BreakersAreIndependent(events: seq<(string, Event)>, p: string)
    ensures p in RunAll(events) <==> EventsOf(events, p) != []
    ensures p in RunAll(events) ==> RunAll(events)[p] == Run(EventsOf(events, p)[0].at, EventsOf(events, p))
  {
    if events == [] {
    } else {
      var own, e := EventsOf(Front(events), p), Last(events).1;
      BreakersAreIndependent(Front(events), p);
      if Last(events).0 == p {
        assert Front(own + [e]) == own && Last(own + [e]) == e;
        assert own == [] ==> Run(e.at, own) == Fresh(e.at);
        assert own != [] ==> EventsOf(events, p)[0] == own[0];
      } else {
        assert EventsOf(events, p) == own;
      }
    }
  }
}
