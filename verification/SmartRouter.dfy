// Load spreading: among models close to the best score, the provider that was
// selected longest ago.
module SmartRouter {
  import StableSort

  const SPREAD_BAND := 30.0

  datatype Ranked = Ranked(model: string, provider: string, total: real)

  // Selection times by provider; never selected counts as time 0.
  type Times = map<string, int>

  function Lru(last: Times, provider: string): int {
    if provider in last then last[provider] else 0
  }

  // 1 for a provider already used today; every provider is 0 without usage data.
  function Tier(usage: map<string, int>, provider: string): int {
    if provider in usage && usage[provider] > 0 then 1 else 0
  }

  function SortKey(last: Times, usage: map<string, int>): Ranked -> StableSort.Key {
    (r: Ranked) => (Tier(usage, r.provider), Lru(last, r.provider))
  }

  function Within(ranked: seq<Ranked>, limit: real): (band: seq<Ranked>)
    ensures forall r :: r in band <==> r in ranked && r.total <= limit
  {
    if ranked == [] then []
    else if ranked[0].total <= limit then [ranked[0]] + Within(ranked[1..], limit)
    else Within(ranked[1..], limit)
  }

  // The ranking stays in order.
  lemma {:induction false} WithinJoins(a: seq<Ranked>, b: seq<Ranked>, limit: real)
    ensures Within(a + b, limit) == Within(a, limit) + Within(b, limit)
  {
    if a == [] {
      assert a + b == b;
    } else {
      assert (a + b)[1..] == a[1..] + b;
      WithinJoins(a[1..], b, limit);
    }
  }

  function Band(ranked: seq<Ranked>): (band: seq<Ranked>)
    requires ranked != []
    ensures forall r :: r in band <==> r in ranked && r.total <= ranked[0].total + 30.0
  {
    Within(ranked, ranked[0].total + SPREAD_BAND)
  }

  // chosen is the first member of the band with the smallest key.
  ghost predicate FirstLeast(band: seq<Ranked>, key: Ranked -> StableSort.Key, chosen: Ranked) {
    exists i :: FirstLeastAt(band, key, chosen, i)
  }

  ghost predicate FirstLeastAt(band: seq<Ranked>, key: Ranked -> StableSort.Key, chosen: Ranked, i: int) {
    && 0 <= i < |band| && band[i] == chosen
    && (forall j :: 0 <= j < |band| ==> StableSort.KeyLe(key(chosen), key(band[j])))
    && (forall j :: 0 <= j < i ==> key(band[j]) != key(chosen))
  }

  // The head of a stable sort is the first least member.
  lemma {:induction false} SortHead(band: seq<Ranked>, key: Ranked -> StableSort.Key) returns (i: nat)
    requires band != []
    ensures |StableSort.Sort(key, band)| == |band|
    ensures FirstLeastAt(band, key, StableSort.Sort(key, band)[0], i)
  {
    StableSort.SortMembers(key, band);
    i := 0;
    if |band| > 1 {
      i := SortHead(band[1..], key);
      var head := StableSort.Sort(key, band[1..])[0];
      i := HeadOfInsert(band, key, head, i);
    } else {
      assert band[1..] == [];
    }
  }

  lemma {:induction false} HeadOfInsert(band: seq<Ranked>, key: Ranked -> StableSort.Key, head: Ranked, i: nat)
    returns (k: nat)
    requires band != [] && FirstLeastAt(band[1..], key, head, i)
    ensures FirstLeastAt(band, key, if StableSort.KeyLe(key(band[0]), key(head)) then band[0] else head, k)
  {
    forall j | 1 <= j < |band| ensures StableSort.KeyLe(key(head), key(band[j])) {
      assert band[j] == band[1..][j - 1];
    }
    if StableSort.KeyLe(key(band[0]), key(head)) {
      k := 0;
    } else {
      k := i + 1;
      forall j | 0 <= j < k ensures key(band[j]) != key(head) {
        assert j > 0 ==> band[j] == band[1..][j - 1];
      }
    }
  }

  class SmartRouter {
    var lastSelected: Times

    constructor ()
      ensures lastSelected == map[]
    {
      lastSelected := map[];
    }

    // `usage` is empty when quota-aware rotation is off.
    method SpreadSelect(ranked: seq<Ranked>, usage: map<string, int>, now: int) returns (chosen: Ranked)
      requires ranked != []
      modifies this
      ensures chosen in ranked && chosen.total <= ranked[0].total + SPREAD_BAND
      ensures FirstLeast(Band(ranked), SortKey(old(lastSelected), usage), chosen)
      ensures lastSelected == old(lastSelected)[chosen.provider := now]
    {
      var band := Within(ranked, ranked[0].total + SPREAD_BAND);
      assert ranked[0] in band;
      if band == [] {
        assert false; // the best model is always within the band
      }
      ghost var i := SortHead(band, SortKey(lastSelected, usage));
      ghost var unsorted := band;
      band := StableSort.Sort(SortKey(lastSelected, usage), band);
      assert FirstLeastAt(unsorted, SortKey(lastSelected, usage), band[0], i);
      chosen := band[0];
      lastSelected := lastSelected[chosen.provider := now];
    }
  }

  // ---- Rotation ------------------------------------------------------------------

  function Providers(rs: seq<Ranked>): set<string> {
    set r | r in rs :: r.provider
  }

  // Consecutive calls on one ranking, from any earlier state, with a strictly
  // increasing positive clock.
  ghost predicate Calls(ranked: seq<Ranked>, usage: map<string, int>, states: seq<Times>, times: seq<int>,
                        picks: seq<Ranked>)
  {
    && ranked != [] && |states| == |picks| + 1 && |times| == |picks|
    && (forall i, j :: 0 <= i < j < |times| ==> times[i] < times[j])
    && (forall i :: 0 <= i < |times| ==> times[i] > 0)
    && (times != [] ==> forall p :: p in states[0] ==> states[0][p] < times[0])
    && (forall k :: 0 <= k < |picks| ==> Call(ranked, usage, states[k], times[k], picks[k], states[k + 1]))
  }

  ghost predicate Call(ranked: seq<Ranked>, usage: map<string, int>, before: Times, now: int, pick: Ranked,
                       after: Times)
    requires ranked != []
  {
    FirstLeast(Band(ranked), SortKey(before, usage), pick) && after == before[pick.provider := now]
  }

  ghost predicate OneTier(band: seq<Ranked>, usage: map<string, int>) {
    forall r, q :: r in band && q in band ==> Tier(usage, r.provider) == Tier(usage, q.provider)
  }

  lemma {:induction false} ProvidersGrow(picks: seq<Ranked>, k: nat)
    requires k < |picks|
    ensures Providers(picks[..k + 1]) == Providers(picks[..k]) + {picks[k].provider}
  {
    assert picks[..k + 1] == picks[..k] + [picks[k]];
  }

  // k providers have had their turn since time t.
  ghost predicate Rotated(band: seq<Ranked>, last: Times, done: set<string>, t: int, k: nat) {
    && |done| == k && done <= Providers(band)
    && (forall p :: p in done ==> Lru(last, p) >= t)
    && (forall p :: p !in done ==> Lru(last, p) < t)
  }

  lemma {:induction false} CallAt(ranked: seq<Ranked>, usage: map<string, int>, states: seq<Times>, times: seq<int>,
                                  picks: seq<Ranked>, k: nat)
    requires Calls(ranked, usage, states, times, picks) && k < |picks|
    ensures Call(ranked, usage, states[k], times[k], picks[k], states[k + 1]) && times[0] <= times[k]
  {
  }

  // While some provider has not had its turn, the next pick is one of those.
  lemma {:induction false} NextIsNew(band: seq<Ranked>, usage: map<string, int>, last: Times, pick: Ranked,
                                     done: set<string>, t: int, k: nat, now: int)
    requires FirstLeast(band, SortKey(last, usage), pick) && OneTier(band, usage)
    requires Rotated(band, last, done, t, k) && k < |Providers(band)| && t <= now
    ensures pick in band && pick.provider !in done
    ensures Rotated(band, last[pick.provider := now], done + {pick.provider}, t, k + 1)
  {
    PickIsNew(band, usage, last, pick, done, t, k);
    TurnTaken(band, last, pick, done, t, k, now);
  }

  lemma {:induction false} PickIsNew(band: seq<Ranked>, usage: map<string, int>, last: Times, pick: Ranked,
                                     done: set<string>, t: int, k: nat)
    requires FirstLeast(band, SortKey(last, usage), pick) && OneTier(band, usage)
    requires Rotated(band, last, done, t, k) && k < |Providers(band)|
    ensures pick in band && pick.provider !in done
  {
    var p := SomeOutside(done, Providers(band));
    var r :| r in band && r.provider == p;
    LeastOf(band, SortKey(last, usage), pick, r);
  }

  lemma {:induction false} TurnTaken(band: seq<Ranked>, last: Times, pick: Ranked, done: set<string>, t: int, k: nat,
                                     now: int)
    requires Rotated(band, last, done, t, k) && pick in band && pick.provider !in done && t <= now
    ensures Rotated(band, last[pick.provider := now], done + {pick.provider}, t, k + 1)
  {
    assert pick.provider in Providers(band);
  }

  lemma {:induction false} SomeOutside(a: set<string>, b: set<string>) returns (p: string)
    requires |a| < |b|
    ensures p in b && p !in a
  {
    if b <= a {
      SubsetSize(b, a);
      assert false;
    }
    p :| p in b && p !in a;
  }

  lemma {:induction false} SubsetSize(x: set<string>, y: set<string>)
    requires x <= y
    ensures |x| <= |y|
  {
    assert y == x + (y - x);
  }

  lemma {:induction false} LeastOf(band: seq<Ranked>, key: Ranked -> StableSort.Key, pick: Ranked, r: Ranked)
    requires FirstLeast(band, key, pick) && r in band
    ensures pick in band && StableSort.KeyLe(key(pick), key(r))
  {
    var i :| FirstLeastAt(band, key, pick, i);
    var j :| 0 <= j < |band| && band[j] == r;
  }

  lemma {:induction false} Rotates(ranked: seq<Ranked>, usage: map<string, int>, states: seq<Times>, times: seq<int>,
                                   picks: seq<Ranked>, k: nat)
    requires Calls(ranked, usage, states, times, picks) && OneTier(Band(ranked), usage)
    requires k <= |picks| <= |Providers(Band(ranked))| && picks != []
    ensures Rotated(Band(ranked), states[k], Providers(picks[..k]), times[0], k)
    ensures k > 0 ==> picks[k - 1].provider !in Providers(picks[..k - 1]) && picks[k - 1] in Band(ranked)
  {
    if k == 0 {
      assert picks[..0] == [];
      assert Providers(picks[..0]) == {};
    } else {
      Rotates(ranked, usage, states, times, picks, k - 1);
      CallAt(ranked, usage, states, times, picks, k - 1);
      NextIsNew(Band(ranked), usage, states[k - 1], picks[k - 1], Providers(picks[..k - 1]), times[0], k - 1,
                times[k - 1]);
      ProvidersGrow(picks, k - 1);
    }
  }

  // Any n consecutive selections over a band of n providers pick each of them
  // exactly once, whatever was selected before, each time a model within the
  // band.  With usage data this holds when the band is all in one usage tier.
  lemma {:induction false} EveryProviderOnce(ranked: seq<Ranked>, usage: map<string, int>, states: seq<Times>,
                                             times: seq<int>, picks: seq<Ranked>)
    requires Calls(ranked, usage, states, times, picks) && OneTier(Band(ranked), usage)
    requires |picks| == |Providers(Band(ranked))|
    ensures Providers(picks) == Providers(Band(ranked))
    ensures forall i, j :: 0 <= i < j < |picks| ==> picks[i].provider != picks[j].provider
    ensures forall i :: 0 <= i < |picks| ==> picks[i] in Band(ranked)
  {
    var n := |picks|;
    SomeProvider(ranked);
    Rotates(ranked, usage, states, times, picks, n);
    assert picks[..n] == picks;
    SubsetOfSameSize(Providers(picks), Providers(Band(ranked)));
    forall i | 0 <= i < n ensures Turn(ranked, picks, i) {
      Rotates(ranked, usage, states, times, picks, i + 1);
    }
    DifferentTurns(ranked, picks);
  }

  lemma {:induction false} SomeProvider(ranked: seq<Ranked>)
    requires ranked != []
    ensures Providers(Band(ranked)) != {}
  {
    assert ranked[0] in Band(ranked);
    assert ranked[0].provider in Providers(Band(ranked));
  }

  ghost predicate Turn(ranked: seq<Ranked>, picks: seq<Ranked>, i: nat)
    requires ranked != [] && i < |picks|
  {
    picks[i] in Band(ranked) && picks[i].provider !in Providers(picks[..i])
  }

  lemma {:induction false} DifferentTurns(ranked: seq<Ranked>, picks: seq<Ranked>)
    requires ranked != [] && forall j :: 0 <= j < |picks| ==> Turn(ranked, picks, j)
    ensures forall i :: 0 <= i < |picks| ==> picks[i] in Band(ranked)
    ensures forall i, j :: 0 <= i < j < |picks| ==> picks[i].provider != picks[j].provider
  {
    forall i | 0 <= i < |picks| ensures picks[i] in Band(ranked) {
      assert Turn(ranked, picks, i);
    }
    forall i, j | 0 <= i < j < |picks| ensures picks[i].provider != picks[j].provider {
      assert Turn(ranked, picks, j);
      assert picks[..j][i] == picks[i];
      assert picks[i].provider in Providers(picks[..j]);
    }
  }

  lemma {:induction false} SubsetOfSameSize(a: set<string>, b: set<string>)
    requires a <= b && |a| == |b|
    ensures a == b
  {
    assert b == a + (b - a);
  }

  predicate UsedToday(usage: map<string, int>, provider: string) {
    provider in usage && usage[provider] > 0
  }

  // How long ago a provider was selected, as a time; never is time 0.
  function LastTime(last: Times, provider: string): int {
    if provider in last then last[provider] else 0
  }

  // The pick is not used today while the band holds a provider that is not; among those
  // as little used it was selected longest ago; and no earlier member of the band is as
  // good on both counts.
  lemma {:induction false} UnusedThenOldestFirst(band: seq<Ranked>, usage: map<string, int>, last: Times,
                                                 pick: Ranked, r: Ranked)
    requires FirstLeast(band, SortKey(last, usage), pick) && r in band
    ensures !UsedToday(usage, r.provider) ==> !UsedToday(usage, pick.provider)
    ensures UsedToday(usage, r.provider) == UsedToday(usage, pick.provider) ==>
              LastTime(last, pick.provider) <= LastTime(last, r.provider)
    ensures exists i :: 0 <= i < |band| && band[i] == pick
              && forall j :: 0 <= j < i ==> !(UsedToday(usage, band[j].provider) == UsedToday(usage, pick.provider)
                                              && LastTime(last, band[j].provider) == LastTime(last, pick.provider))
  {
    LeastOf(band, SortKey(last, usage), pick, r);
    var i :| FirstLeastAt(band, SortKey(last, usage), pick, i);
    forall j | 0 <= j < i
      ensures !(UsedToday(usage, band[j].provider) == UsedToday(usage, pick.provider)
                && LastTime(last, band[j].provider) == LastTime(last, pick.provider))
    {
      assert SortKey(last, usage)(band[j]) != SortKey(last, usage)(pick);
    }
  }
}
