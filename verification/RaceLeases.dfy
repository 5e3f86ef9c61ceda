// Breaker leases of a race: two models asked at once, the first good answer wins.
module RaceLeases {
  import opened Sequences
  import opened Text

  const RUNNERS := 2

  datatype Lease = Acquire(provider: string) | Release(provider: string)

  // What the breaker says to the candidate at each position, as it changes in between;
  // an exception counts as a refusal.
  type Breaker = nat -> bool

  function Admitted(candidates: seq<string>, admits: Breaker): (r: seq<string>)
    ensures |r| <= |candidates|
  {
    if candidates == [] then []
    else
      var front, last := candidates[..|candidates| - 1], candidates[|candidates| - 1];
      Admitted(front, admits) + if admits(|front|) then [last] else []
  }

  function Runners(candidates: seq<string>): (r: seq<string>)
    ensures |r| <= RUNNERS
  {
    if |candidates| <= RUNNERS then candidates else candidates[..RUNNERS]
  }

  // Only the first two candidates run, in their order, each when the breaker admits it.
  lemma {:induction false} FirstTwoRun(candidates: seq<string>, admits: Breaker)
    ensures Admitted(Runners(candidates), admits)
         == (if |candidates| > 0 && admits(0) then [candidates[0]] else [])
          + (if |candidates| > 1 && admits(1) then [candidates[1]] else [])
  {
    var runners := Runners(candidates);
    if |candidates| > 0 {
      assert runners[..1][..0] == [];
      assert Admitted(runners[..1], admits) == Admitted([], admits) + if admits(0) then [runners[0]] else [];
    }
    if |candidates| > 1 {
      assert runners[..2][..1] == runners[..1] && runners[..2] == runners;
    } else {
      assert runners[..|runners|] == runners;
    }
  }

  // Keys of a dict filled in this order.
  function Keys(models: seq<string>): seq<string> {
    if models == [] then []
    else
      var front, last := Keys(models[..|models| - 1]), models[|models| - 1];
      if last in front then front else front + [last]
  }

  function Taken(models: seq<string>): seq<Lease> {
    if models == [] then [] else Taken(models[..|models| - 1]) + [Acquire(BeforeSlash(models[|models| - 1]))]
  }

  function Returned(keys: seq<string>, winner: Option<string>): seq<Lease> {
    if keys == [] then []
    else
      var last := keys[|keys| - 1];
      Returned(keys[..|keys| - 1], winner) + if winner == Some(last) then [] else [Release(BeforeSlash(last))]
  }

  class Race {
    var acquired: seq<string>
    var log: seq<Lease>

    constructor ()
      ensures acquired == [] && log == []
    {
      acquired, log := [], [];
    }

    method Start(candidates: seq<string>, admits: Breaker)
      requires acquired == [] && log == []
      modifies this
      ensures log == Taken(Admitted(Runners(candidates), admits))
      ensures acquired == Keys(Admitted(Runners(candidates), admits))
    {
      var runners := Runners(candidates);
      for i := 0 to |runners|
        invariant log == Taken(Admitted(runners[..i], admits))
        invariant acquired == Keys(Admitted(runners[..i], admits))
      {
        var m := runners[i];
        ghost var seen := Admitted(runners[..i], admits);
        assert runners[..i + 1][..i] == runners[..i];
        if !admits(i) {
          assert Admitted(runners[..i + 1], admits) == seen;
          continue;
        }
        assert (seen + [m])[..|seen|] == seen;
        log := log + [Acquire(BeforeSlash(m))];
        if m !in acquired {
          acquired := acquired + [m];
        }
      }
      assert runners[..|runners|] == runners;
    }

    // The winner's lease ends with its recorded success; the others end here.
    method Finish(winner: Option<string>)
      modifies this`log
      ensures log == old(log) + Returned(acquired, winner)
    {
      for i := 0 to |acquired|
        invariant log == old(log) + Returned(acquired[..i], winner)
      {
        assert acquired[..i + 1][..i] == acquired[..i];
        if winner != Some(acquired[i]) {
          log := log + [Release(BeforeSlash(acquired[i]))];
        }
      }
      assert acquired[..|acquired|] == acquired;
    }
  }

  // ---- No lease is lost ---------------------------------------------------------------

  function Count(log: seq<Lease>, x: Lease): nat {
    if log == [] then 0 else Count(log[..|log| - 1], x) + if log[|log| - 1] == x then 1 else 0
  }

  // Leases of a provider still out once the race is over.
  function Open(admitted: seq<string>, winner: Option<string>, provider: string): int {
    Count(Taken(admitted), Acquire(provider)) - Count(Returned(Keys(admitted), winner), Release(provider))
  }

  function WinnerHolds(admitted: seq<string>, winner: Option<string>, provider: string): nat {
    if winner.Some? && winner.value in admitted && BeforeSlash(winner.value) == provider then 1 else 0
  }

  // Occurrences of models of a provider, before an equal one.
  function Doubled(admitted: seq<string>, provider: string): nat {
    if admitted == [] then 0
    else
      var front, last := admitted[..|admitted| - 1], admitted[|admitted| - 1];
      Doubled(front, provider) + if last in front && BeforeSlash(last) == provider then 1 else 0
  }

  lemma {:induction false} CountSnoc(log: seq<Lease>, y: Lease, x: Lease)
    ensures Count(log + [y], x) == Count(log, x) + if x == y then 1 else 0
  {
    assert (log + [y])[..|log|] == log;
  }

  lemma {:induction false} KeysMembers(models: seq<string>)
    ensures forall m :: m in Keys(models) <==> m in models
  {
    if models == [] {
    } else {
      var front, last := models[..|models| - 1], models[|models| - 1];
      KeysMembers(front);
      assert forall m :: m in models <==> m in front || m == last;
    }
  }

  lemma {:induction false} TakenStep(front: seq<string>, last: string, provider: string)
    ensures Count(Taken(front + [last]), Acquire(provider))
         == Count(Taken(front), Acquire(provider)) + if BeforeSlash(last) == provider then 1 else 0
  {
    assert (front + [last])[..|front|] == front;
    CountSnoc(Taken(front), Acquire(BeforeSlash(last)), Acquire(provider));
  }

  lemma {:induction false} ReturnedStep(front: seq<string>, last: string, winner: Option<string>, provider: string)
    ensures Count(Returned(Keys(front + [last]), winner), Release(provider))
         == Count(Returned(Keys(front), winner), Release(provider))
          + if last !in Keys(front) && winner != Some(last) && BeforeSlash(last) == provider then 1 else 0
  {
    assert (front + [last])[..|front|] == front;
    if last !in Keys(front) {
      assert (Keys(front) + [last])[..|Keys(front)|] == Keys(front);
      CountSnoc(Returned(Keys(front), winner), Release(BeforeSlash(last)), Release(provider));
      assert Returned(Keys(front), winner) + [] == Returned(Keys(front), winner);
    }
  }

  // What stays out: the winner's lease, and one for every admitted repetition.
  lemma {:induction false} OpenAfterRace(admitted: seq<string>, winner: Option<string>, provider: string)
    ensures Open(admitted, winner, provider)
         == WinnerHolds(admitted, winner, provider) + Doubled(admitted, provider)
  {
    if admitted == [] {
    } else {
      var front, last := admitted[..|admitted| - 1], admitted[|admitted| - 1];
      OpenAfterRace(front, winner, provider);
      assert admitted == front + [last];
      TakenStep(front, last, provider);
      ReturnedStep(front, last, winner, provider);
      KeysMembers(front);
    }
  }

  lemma {:induction false} RepetitionCounts(admitted: seq<string>) returns (p: string)
    requires !Distinct(admitted)
    ensures Doubled(admitted, p) > 0
  {
    var front, last := admitted[..|admitted| - 1], admitted[|admitted| - 1];
    if last in front {
      p := BeforeSlash(last);
    } else {
      p := RepetitionCounts(front);
    }
  }

  lemma {:induction false} NoRepetition(admitted: seq<string>, p: string)
    requires Distinct(admitted)
    ensures Doubled(admitted, p) == 0
  {
    if admitted == [] {
    } else {
      NoRepetition(admitted[..|admitted| - 1], p);
    }
  }

  ghost predicate OnlyWinnerHolds(admitted: seq<string>, winner: Option<string>) {
    forall p :: Open(admitted, winner, p) == WinnerHolds(admitted, winner, p)
  }

  // Only the winner's lease is left for its recorded success to end, exactly when
  // no model was admitted twice.
  lemma {:induction false} RaceReturnsLeases(candidates: seq<string>, admits: Breaker, winner: Option<string>)
    ensures var admitted := Admitted(Runners(candidates), admits);
            OnlyWinnerHolds(admitted, winner) <==> Distinct(admitted)
  {
    var admitted := Admitted(Runners(candidates), admits);
    if Distinct(admitted) {
      forall p ensures Open(admitted, winner, p) == WinnerHolds(admitted, winner, p) {
        OpenAfterRace(admitted, winner, p);
        NoRepetition(admitted, p);
      }
    } else {
      var p := RepetitionCounts(admitted);
      OpenAfterRace(admitted, winner, p);
    }
  }
}
