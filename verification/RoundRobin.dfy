// Smooth weighted round-robin: what one pick does to the current weights, and
// how fair an unbounded run of picks is.
module RoundRobin {
  import opened Arithmetic
  import opened RouterRegistry
  import opened Sequences

  // Current weights by router name; a name never seen counts as 0.
  type Weights = map<string, int>

  function At(m: Weights, name: string): int {
    if name in m then m[name] else 0
  }

  function Total(pool: seq<RouterState>): int {
    if pool == [] then 0 else pool[0].weight + Total(pool[1..])
  }

  // Router i's current weight after every router of the pool got its own added.
  function Raised(pool: seq<RouterState>, before: Weights, i: nat): int
    requires i < |pool|
  {
    At(before, pool[i].name) + pool[i].weight
  }

  // One pick: the first router with the largest raised weight pays the total.
  ghost predicate Picked(pool: seq<RouterState>, before: Weights, after: Weights, b: nat) {
    && b < |pool|
    && (forall i :: 0 <= i < |pool| ==> Raised(pool, before, i) <= Raised(pool, before, b))
    && (forall i :: 0 <= i < b ==> Raised(pool, before, i) < Raised(pool, before, b))
    && (forall i :: 0 <= i < |pool| ==>
          At(after, pool[i].name) == Raised(pool, before, i) - (if i == b then Total(pool) else 0))
    && (forall n :: n !in Names(pool) ==> At(after, n) == At(before, n))
  }

  // ---- Conservation ---------------------------------------------------------

  function SumAt(names: seq<string>, m: Weights): int {
    if names == [] then 0 else At(m, names[0]) + SumAt(names[1..], m)
  }

  // What the pool adds to a name's weight.
  function Contribution(pool: seq<RouterState>, name: string): int {
    if pool == [] then 0
    else (if pool[0].name == name then pool[0].weight else 0) + Contribution(pool[1..], name)
  }

  function SumContribution(names: seq<string>, pool: seq<RouterState>): int {
    if names == [] then 0 else Contribution(pool, names[0]) + SumContribution(names[1..], pool)
  }

  function Spike(names: seq<string>, name: string, v: int): int {
    if names == [] then 0 else (if names[0] == name then v else 0) + Spike(names[1..], name, v)
  }

  lemma {:induction false} SpikeOnce(names: seq<string>, name: string, v: int)
    requires Distinct(names)
    ensures Spike(names, name, v) == if name in names then v else 0
  {
    if names == [] {
    } else {
      SpikeOnce(names[1..], name, v);
    }
  }

  lemma {:induction false} SumContributionSplit(names: seq<string>, pool: seq<RouterState>)
    requires pool != []
    ensures SumContribution(names, pool)
            == Spike(names, pool[0].name, pool[0].weight) + SumContribution(names, pool[1..])
  {
    if names == [] {
    } else {
      SumContributionSplit(names[1..], pool);
    }
  }

  lemma {:induction false} SumContributionEmpty(names: seq<string>)
    ensures SumContribution(names, []) == 0
  {
    if names == [] {
    } else {
      SumContributionEmpty(names[1..]);
    }
  }

  // Everything the pool adds, summed over the names, is the pool's total.
  lemma {:induction false} ContributionsAddUp(names: seq<string>, pool: seq<RouterState>)
    requires Distinct(names)
    requires forall r :: r in pool ==> r.name in names
    ensures SumContribution(names, pool) == Total(pool)
  {
    if pool == [] {
      SumContributionEmpty(names);
    } else {
      SumContributionSplit(names, pool);
      SpikeOnce(names, pool[0].name, pool[0].weight);
      ContributionsAddUp(names, pool[1..]);
    }
  }

  lemma {:induction false} ContributionOutside(pool: seq<RouterState>, name: string)
    requires name !in Names(pool)
    ensures Contribution(pool, name) == 0
  {
    if pool == [] {
    } else {
      assert Names(pool)[0] == pool[0].name;
      forall i | 0 <= i < |pool| - 1 ensures pool[1..][i].name != name {
        assert Names(pool)[i + 1] != name;
      }
      ContributionOutside(pool[1..], name);
    }
  }

  lemma {:induction false} ContributionInside(pool: seq<RouterState>, i: nat)
    requires i < |pool| && Distinct(Names(pool))
    ensures Contribution(pool, pool[i].name) == pool[i].weight
  {
    assert Distinct(Names(pool[1..])) by {
      assert forall k :: 0 <= k < |pool| - 1 ==> Names(pool[1..])[k] == Names(pool)[k + 1];
    }
    if i == 0 {
      forall k | 0 <= k < |pool| - 1 ensures Names(pool[1..])[k] != pool[0].name {
        assert Names(pool)[k + 1] != Names(pool)[0];
      }
      ContributionOutside(pool[1..], pool[0].name);
    } else {
      assert Names(pool)[0] != Names(pool)[i];
      ContributionInside(pool[1..], i - 1);
    }
  }

  // A pick moves weight between names and creates none, whatever the pool.
  lemma {:induction false} PickConserves(names: seq<string>, pool: seq<RouterState>, before: Weights, after: Weights,
                                         b: nat)
    requires Distinct(names) && Distinct(Names(pool))
    requires forall r :: r in pool ==> r.name in names
    requires Picked(pool, before, after, b)
    ensures SumAt(names, after) == SumAt(names, before)
  {
    forall n | n in names
      ensures At(after, n) == At(before, n) + Contribution(pool, n) - (if n == pool[b].name then Total(pool) else 0)
    {
      if n in Names(pool) {
        var i :| 0 <= i < |pool| && Names(pool)[i] == n;
        ContributionInside(pool, i);
        assert i != b ==> Names(pool)[i] != Names(pool)[b];
      } else {
        ContributionOutside(pool, n);
        assert Names(pool)[b] == pool[b].name;
      }
    }
    SumOfChanges(names, pool, before, after, pool[b].name);
    ContributionsAddUp(names, pool);
    SpikeOnce(names, pool[b].name, Total(pool));
    assert pool[b] in pool;
  }

  lemma {:induction false} SumOfChanges(names: seq<string>, pool: seq<RouterState>,
                                        before: Weights, after: Weights, best: string)
    requires forall n :: n in names ==>
               At(after, n) == At(before, n) + Contribution(pool, n) - (if n == best then Total(pool) else 0)
    ensures SumAt(names, after)
            == SumAt(names, before) + SumContribution(names, pool) - Spike(names, best, Total(pool))
  {
    if names == [] {
    } else {
      SumOfChanges(names[1..], pool, before, after, best);
    }
  }

  // ---- Runs over a fixed pool ------------------------------------------------

  // picks[k] is the pick made in state states[k]; every weight starts at 0.
  ghost predicate Run(pool: seq<RouterState>, states: seq<Weights>, picks: seq<nat>) {
    && |states| == |picks| + 1
    && (forall i :: 0 <= i < |pool| ==> At(states[0], pool[i].name) == 0)
    && (forall k :: 0 <= k < |picks| ==> Picked(pool, states[k], states[k + 1], picks[k]))
  }

  ghost predicate WellFormedPool(pool: seq<RouterState>) {
    Distinct(Names(pool)) && forall r :: r in pool ==> r.weight >= 1
  }

  // How often router i was picked.
  function Times(picks: seq<nat>, i: nat): nat {
    multiset(picks)[i]
  }

  lemma {:induction false} TimesSplit(picks: seq<nat>, k: nat, i: nat)
    requires k <= |picks|
    ensures Times(picks, i) == Times(picks[..k], i) + Times(picks[k..], i)
  {
    assert picks == picks[..k] + picks[k..];
  }

  lemma {:induction false} TimesStep(picks: seq<nat>, i: nat)
    requires picks != []
    ensures Times(picks, i) == Times(picks[..|picks| - 1], i) + (if picks[|picks| - 1] == i then 1 else 0)
  {
    assert picks == picks[..|picks| - 1] + [picks[|picks| - 1]];
  }

  lemma {:induction false} RunPrefix(pool: seq<RouterState>, states: seq<Weights>, picks: seq<nat>, k: nat)
    requires Run(pool, states, picks) && k <= |picks|
    ensures Run(pool, states[..k + 1], picks[..k])
  {
  }

  // The ledger: a router's weight is what it was owed minus what it was paid.
  lemma {:induction false} Ledger(pool: seq<RouterState>, states: seq<Weights>, picks: seq<nat>, total: int, i: nat)
    requires Run(pool, states, picks) && i < |pool| && total == Total(pool)
    ensures At(states[|picks|], pool[i].name) == Mul(|picks|, pool[i].weight) - Mul(Times(picks, i), total)
  {
    if picks == [] {
      assert At(states[0], pool[i].name) == 0;
    } else {
      var k := |picks| - 1;
      RunPrefix(pool, states, picks, k);
      Ledger(pool, states[..k + 1], picks[..k], total, i);
      assert Picked(pool, states[k], states[k + 1], picks[k]);
      TimesStep(picks, i);
    }
  }

  lemma {:induction false} SumStaysZero(pool: seq<RouterState>, states: seq<Weights>, picks: seq<nat>)
    requires Run(pool, states, picks) && Distinct(Names(pool))
    ensures SumAt(Names(pool), states[|picks|]) == 0
  {
    if picks == [] {
      SumOfZeros(Names(pool), states[0]);
    } else {
      var k := |picks| - 1;
      RunPrefix(pool, states, picks, k);
      SumStaysZero(pool, states[..k + 1], picks[..k]);
      forall r | r in pool ensures r.name in Names(pool) {
        var i :| 0 <= i < |pool| && pool[i] == r;
        assert Names(pool)[i] == r.name;
      }
      PickConserves(Names(pool), pool, states[k], states[k + 1], picks[k]);
    }
  }

  lemma {:induction false} SumOfZeros(names: seq<string>, m: Weights)
    requires forall n :: n in names ==> At(m, n) == 0
    ensures SumAt(names, m) == 0
  {
    if names == [] {
    } else {
      SumOfZeros(names[1..], m);
    }
  }

  // With weights of at least 1 the largest raised weight is positive.
  lemma {:induction false} SomeRaisedPositive(pool: seq<RouterState>, m: Weights) returns (i: nat)
    requires pool != [] && SumAt(Names(pool), m) + Total(pool) > 0
    ensures i < |pool| && Raised(pool, m, i) > 0
  {
    if Raised(pool, m, 0) > 0 {
      i := 0;
    } else {
      assert Names(pool)[1..] == Names(pool[1..]);
      assert SumAt(Names(pool), m) == At(m, pool[0].name) + SumAt(Names(pool[1..]), m);
      i := SomeRaisedPositive(pool[1..], m);
      i := i + 1;
    }
  }

  lemma {:induction false} TotalPositive(pool: seq<RouterState>)
    requires WellFormedPool(pool)
    ensures Total(pool) >= |pool|
  {
    if pool == [] {
    } else {
      assert WellFormedPool(pool[1..]) by {
        assert forall k :: 0 <= k < |pool| - 1 ==> Names(pool[1..])[k] == Names(pool)[k + 1];
      }
      TotalPositive(pool[1..]);
    }
  }

  // No router is ever in debt by a whole total.
  lemma {:induction false} DebtBound(pool: seq<RouterState>, states: seq<Weights>, picks: seq<nat>, i: nat)
    requires Run(pool, states, picks) && WellFormedPool(pool) && i < |pool|
    ensures At(states[|picks|], pool[i].name) > -Total(pool)
  {
    TotalPositive(pool);
    if picks != [] {
      var k := |picks| - 1;
      RunPrefix(pool, states, picks, k);
      DebtBound(pool, states[..k + 1], picks[..k], i);
      SumStaysZero(pool, states[..k + 1], picks[..k]);
      var p := SomeRaisedPositive(pool, states[k]);
      assert Picked(pool, states[k], states[k + 1], picks[k]);
      assert Raised(pool, states[k], p) <= Raised(pool, states[k], picks[k]);
      assert pool[i] in pool;
    }
  }

  // The others' debts bound a router's credit.
  lemma {:induction false} SumLowerBound(names: seq<string>, m: Weights, low: int)
    requires forall n :: n in names ==> At(m, n) >= low
    ensures SumAt(names, m) >= Mul(|names|, low)
  {
    if names == [] {
    } else {
      SumLowerBound(names[1..], m, low);
    }
  }

  lemma {:induction false} SumWithout(names: seq<string>, m: Weights, i: nat, low: int)
    requires i < |names|
    requires forall n :: n in names ==> At(m, n) >= low
    ensures SumAt(names, m) >= At(m, names[i]) + Mul(|names| - 1, low)
  {
    if i == 0 {
      SumLowerBound(names[1..], m, low);
    } else {
      SumWithout(names[1..], m, i - 1, low);
    }
  }

  // Fairness after every number of picks.  With k picks, weight w of total W
  // and n routers: the router was picked fewer than k*w/W + 1 times, and at
  // least k*w/W - (n-1)(W-1)/W times.
  lemma {:induction false} FairShare(pool: seq<RouterState>, states: seq<Weights>, picks: seq<nat>, total: int, i: nat)
    requires Run(pool, states, picks) && WellFormedPool(pool) && i < |pool| && total == Total(pool)
    ensures (Times(picks, i) - 1) * total < |picks| * pool[i].weight
    ensures |picks| * pool[i].weight - (|pool| - 1) * (total - 1) <= Times(picks, i) * total
  {
    var c := At(states[|picks|], pool[i].name);
    assert c == Mul(|picks|, pool[i].weight) - Mul(Times(picks, i), total) by {
      Ledger(pool, states, picks, total, i);
    }
    assert c > -total by { DebtBound(pool, states, picks, i); }
    assert c + Mul(|pool| - 1, 1 - total) <= 0 by { CreditBound(pool, states, picks, total, i); }
    ShareArithmetic(c, |picks|, pool[i].weight, Times(picks, i), total, |pool|);
  }

  lemma {:induction false} CreditBound(pool: seq<RouterState>, states: seq<Weights>, picks: seq<nat>, total: int,
                                       i: nat)
    requires Run(pool, states, picks) && WellFormedPool(pool) && i < |pool| && total == Total(pool)
    ensures At(states[|picks|], pool[i].name) + Mul(|pool| - 1, 1 - total) <= 0
  {
    forall j | 0 <= j < |pool| ensures At(states[|picks|], pool[j].name) >= 1 - total {
      DebtBound(pool, states, picks, j);
    }
    SumStaysZero(pool, states, picks);
    CreditOfZeroSum(pool, states[|picks|], i, 1 - total);
  }

  lemma {:induction false} CreditOfZeroSum(pool: seq<RouterState>, m: Weights, i: nat, low: int)
    requires i < |pool| && SumAt(Names(pool), m) == 0
    requires forall j :: 0 <= j < |pool| ==> At(m, pool[j].name) >= low
    ensures At(m, pool[i].name) + Mul(|pool| - 1, low) <= 0
  {
    forall n | n in Names(pool) ensures At(m, n) >= low {
      var j :| 0 <= j < |pool| && Names(pool)[j] == n;
      assert At(m, pool[j].name) >= low;
    }
    SumWithout(Names(pool), m, i, low);
  }

  lemma {:induction false} ShareArithmetic(c: int, k: nat, w: int, t: nat, total: int, n: nat)
    requires n > 0
    requires c == Mul(k, w) - Mul(t, total) && c > -total && c + Mul(n - 1, 1 - total) <= 0
    ensures (t - 1) * total < k * w
    ensures k * w - (n - 1) * (total - 1) <= t * total
  {
    MulIsProduct(k, w);
    MulIsProduct(t, total);
    MulIsProduct(n - 1, 1 - total);
    assert (t - 1) * total == t * total - total;
    assert (n - 1) * (1 - total) == -((n - 1) * (total - 1));
  }

  function SumTimes(picks: seq<nat>, n: nat): nat {
    if n == 0 then 0 else SumTimes(picks, n - 1) + Times(picks, n - 1)
  }

  function SumWeights(pool: seq<RouterState>, n: nat): int
    requires n <= |pool|
  {
    if n == 0 then 0 else SumWeights(pool, n - 1) + pool[n - 1].weight
  }

  lemma {:induction false} SumTimesStep(picks: seq<nat>, n: nat)
    requires picks != []
    ensures SumTimes(picks, n)
            == SumTimes(picks[..|picks| - 1], n) + (if picks[|picks| - 1] < n then 1 else 0)
  {
    if n == 0 {
    } else {
      SumTimesStep(picks, n - 1);
      TimesStep(picks, n - 1);
    }
  }

  lemma {:induction false} SumTimesEmpty(n: nat)
    ensures SumTimes([], n) == 0
  {
    if n == 0 {
    } else {
      SumTimesEmpty(n - 1);
    }
  }

  lemma {:induction false} EveryPickCounts(picks: seq<nat>, n: nat)
    requires forall k :: 0 <= k < |picks| ==> picks[k] < n
    ensures SumTimes(picks, n) == |picks|
  {
    if picks == [] {
      SumTimesEmpty(n);
    } else {
      SumTimesStep(picks, n);
      EveryPickCounts(picks[..|picks| - 1], n);
    }
  }

  lemma {:induction false} SumWeightsFrom(pool: seq<RouterState>, n: nat)
    requires n <= |pool|
    ensures SumWeights(pool, n) + Total(pool[n..]) == Total(pool)
  {
    if n > 0 {
      SumWeightsFrom(pool, n - 1);
      assert pool[n - 1..][1..] == pool[n..];
    } else {
      assert pool[0..] == pool;
    }
  }

  // Counts that never exceed the weights and add up to the same sum are equal.
  lemma {:induction false} SqueezeTimes(pool: seq<RouterState>, picks: seq<nat>, n: nat)
    requires n <= |pool|
    requires forall i :: 0 <= i < n ==> Times(picks, i) <= pool[i].weight
    ensures SumTimes(picks, n) <= SumWeights(pool, n)
    ensures SumTimes(picks, n) == SumWeights(pool, n) ==>
              forall i :: 0 <= i < n ==> Times(picks, i) == pool[i].weight
  {
    if n == 0 {
    } else {
      SqueezeTimes(pool, picks, n - 1);
    }
  }

  // One full cycle: after W picks router i was picked exactly w_i times and
  // every current weight is back at zero.
  lemma {:induction false} FullCycle(pool: seq<RouterState>, states: seq<Weights>, picks: seq<nat>)
    requires Run(pool, states, picks) && WellFormedPool(pool) && |picks| == Total(pool)
    ensures forall i :: 0 <= i < |pool| ==> Times(picks, i) == pool[i].weight
    ensures AllZero(pool, states[|picks|])
  {
    forall i | 0 <= i < |pool| ensures Times(picks, i) <= pool[i].weight {
      AtMostWeight(pool, states, picks, i);
    }
    EveryPickInPool(pool, states, picks);
    EveryPickCounts(picks, |pool|);
    SumWeightsFrom(pool, |pool|);
    assert pool[|pool|..] == [];
    SqueezeTimes(pool, picks, |pool|);
    forall i | 0 <= i < |pool| ensures At(states[|picks|], pool[i].name) == 0 {
      Ledger(pool, states, picks, Total(pool), i);
      MulCommutes(|picks|, pool[i].weight);
    }
  }

  ghost predicate AllZero(pool: seq<RouterState>, m: Weights) {
    forall i :: 0 <= i < |pool| ==> At(m, pool[i].name) == 0
  }

  lemma {:induction false} AtMostWeight(pool: seq<RouterState>, states: seq<Weights>, picks: seq<nat>, i: nat)
    requires Run(pool, states, picks) && WellFormedPool(pool) && |picks| == Total(pool) && i < |pool|
    ensures Times(picks, i) <= pool[i].weight
  {
    TotalPositive(pool);
    FairShare(pool, states, picks, Total(pool), i);
    CancelTotal(Times(picks, i) - 1, pool[i].weight, Total(pool));
  }

  lemma {:induction false} EveryPickInPool(pool: seq<RouterState>, states: seq<Weights>, picks: seq<nat>)
    requires Run(pool, states, picks)
    ensures forall k :: 0 <= k < |picks| ==> picks[k] < |pool|
  {
    forall k | 0 <= k < |picks| ensures picks[k] < |pool| {
      assert Picked(pool, states[k], states[k + 1], picks[k]);
    }
  }

  lemma {:induction false} MulCommutes(a: nat, b: nat)
    ensures Mul(a, b) == Mul(b, a)
  {
    MulIsProduct(a, b);
    MulIsProduct(b, a);
  }

  lemma {:induction false} CancelTotal(a: int, b: int, total: int)
    requires a * total < total * b && total >= 0
    ensures a < b
  {
  }

  ghost predicate AgreeOn(pool: seq<RouterState>, a: Weights, b: Weights) {
    forall i :: 0 <= i < |pool| ==> At(a, pool[i].name) == At(b, pool[i].name)
  }

  // The pick depends on the pool's weights only.
  lemma {:induction false} SameWeightsSamePick(pool: seq<RouterState>, a: Weights, a': Weights, p: nat, b: Weights,
                                               b': Weights, q: nat)
    requires Picked(pool, a, a', p) && Picked(pool, b, b', q) && AgreeOn(pool, a, b)
    ensures p == q && AgreeOn(pool, a', b')
  {
    assert Raised(pool, a, p) == Raised(pool, b, p) && Raised(pool, a, q) == Raised(pool, b, q);
  }

  // The sequence of picks repeats itself every W picks.
  lemma {:induction false} Periodic(pool: seq<RouterState>, states: seq<Weights>, picks: seq<nat>, total: nat, k: nat)
    requires Run(pool, states, picks) && WellFormedPool(pool)
    requires total == Total(pool) && total + k <= |picks|
    ensures AgreeOn(pool, states[k], states[total + k])
    ensures total + k < |picks| ==> picks[total + k] == picks[k]
  {
    StatesRepeat(pool, states, picks, total, k);
    if total + k < |picks| {
      SameStep(pool, states, picks, k, total + k);
    }
  }

  lemma {:induction false} StatesRepeat(pool: seq<RouterState>, states: seq<Weights>, picks: seq<nat>, total: nat,
                                        k: nat)
    requires Run(pool, states, picks) && WellFormedPool(pool)
    requires total == Total(pool) && total + k <= |picks|
    ensures AgreeOn(pool, states[k], states[total + k])
  {
    if k == 0 {
      FirstCycle(pool, states, picks, total);
    } else {
      StatesRepeat(pool, states, picks, total, k - 1);
      SameStep(pool, states, picks, k - 1, total + k - 1);
    }
  }

  lemma {:induction false} FirstCycle(pool: seq<RouterState>, states: seq<Weights>, picks: seq<nat>, total: nat)
    requires Run(pool, states, picks) && WellFormedPool(pool)
    requires total == Total(pool) <= |picks|
    ensures AgreeOn(pool, states[0], states[total])
  {
    RunPrefix(pool, states, picks, total);
    FullCycle(pool, states[..total + 1], picks[..total]);
  }

  lemma {:induction false} SameStep(pool: seq<RouterState>, states: seq<Weights>, picks: seq<nat>, j: nat, k: nat)
    requires Run(pool, states, picks) && j < |picks| && k < |picks|
    requires AgreeOn(pool, states[j], states[k])
    ensures picks[j] == picks[k] && AgreeOn(pool, states[j + 1], states[k + 1])
  {
    PickAt(pool, states, picks, j);
    PickAt(pool, states, picks, k);
    SameWeightsSamePick(pool, states[j], states[j + 1], picks[j], states[k], states[k + 1], picks[k]);
  }

  lemma {:induction false} PickAt(pool: seq<RouterState>, states: seq<Weights>, picks: seq<nat>, k: nat)
    requires Run(pool, states, picks) && k < |picks|
    ensures Picked(pool, states[k], states[k + 1], picks[k])
  {
  }

  // No router starves: any W consecutive picks, wherever the window starts,
  // contain router i exactly w_i times.
  lemma {:induction false} EveryWindowIsFair(pool: seq<RouterState>, states: seq<Weights>, picks: seq<nat>,
                                             total: nat, a: nat, i: nat)
    requires Run(pool, states, picks) && WellFormedPool(pool) && i < |pool|
    requires total == Total(pool) && a + total <= |picks|
    ensures Times(picks[a..a + total], i) == pool[i].weight
  {
    TotalPositive(pool);
    LedgerAt(pool, states, picks, total, a, i);
    LedgerAt(pool, states, picks, total, a + total, i);
    Periodic(pool, states, picks, total, a);
    var upTo := picks[..a + total];
    TimesSplit(upTo, a, i);
    assert upTo[..a] == picks[..a] && upTo[a..] == picks[a..a + total];
    WindowArithmetic(a, pool[i].weight, Times(picks[..a], i), Times(picks[a..a + total], i), Times(upTo, i), total);
  }

  lemma {:induction false} LedgerAt(pool: seq<RouterState>, states: seq<Weights>, picks: seq<nat>, total: int, k: nat,
                                    i: nat)
    requires Run(pool, states, picks) && k <= |picks| && i < |pool| && total == Total(pool)
    ensures At(states[k], pool[i].name) == Mul(k, pool[i].weight) - Mul(Times(picks[..k], i), total)
  {
    RunPrefix(pool, states, picks, k);
    Ledger(pool, states[..k + 1], picks[..k], total, i);
  }

  lemma {:induction false} WindowArithmetic(a: nat, w: int, t0: nat, t: nat, t1: nat, total: nat)
    requires total > 0 && t1 == t0 + t
    requires Mul(a, w) - Mul(t0, total) == Mul(a + total, w) - Mul(t1, total)
    ensures t == w
  {
    MulIsProduct(a, w);
    MulIsProduct(t0, total);
    MulIsProduct(a + total, w);
    MulIsProduct(t1, total);
    Cancel(a, w, t0, t, total);
  }

  lemma {:induction false} Cancel(a: int, w: int, t0: int, t: int, total: int)
    requires total > 0
    requires a * w - t0 * total == (a + total) * w - (t0 + t) * total
    ensures t == w
  {
    assert (a + total) * w == a * w + total * w;
    assert (t0 + t) * total == t0 * total + t * total;
    assert (t - w) * total == 0;
  }
}
