/** What a tick's hits do to one city's population, as functions on values.
    Each hit on a city with a matching name subtracts a random draw below
    MaxCasualtiesPerStrike and floors the result at zero. */
module Casualties {

  /** The bound of the random casualty draw: rand.Intn(MaxCasualtiesPerStrike). */
  const MaxCasualtiesPerStrike := 4500000

  /** One random draw, as rand.Intn returns it. */
  type Draw = r: int | 0 <= r < MaxCasualtiesPerStrike

  function Max0(x: int): int {
    if x > 0 then x else 0
  }

  /** The population of a city after one strike that kills `r` people. */
  function Strike(population: int, r: Draw): (p: int)
    ensures p >= 0
    ensures population >= 0 ==> p <= population
    ensures p == 0 <==> population <= r
  {
    var newPopulation := population - r;
    if newPopulation > 0 then newPopulation else 0
  }

  /** The population of the city called `name` after the hits `hits` in
      order, the `k`-th hit drawing `draws(k)` casualties when it matches. */
  function AfterHits(population: int, name: string, hits: seq<string>, draws: nat -> Draw): int
  {
    if hits == [] then population
    else
      var p := AfterHits(population, name, hits[..|hits| - 1], draws);
      if hits[|hits| - 1] == name then Strike(p, draws(|hits| - 1)) else p
  }

  /** The draws of the hits that match `name`, in order. */
  function MatchingDraws(name: string, hits: seq<string>, draws: nat -> Draw): seq<int>
  {
    if hits == [] then []
    else
      MatchingDraws(name, hits[..|hits| - 1], draws)
      + (if hits[|hits| - 1] == name then [draws(|hits| - 1) as int] else [])
  }

  function Sum(xs: seq<int>): int {
    if xs == [] then 0 else Sum(xs[..|xs| - 1]) + xs[|xs| - 1]
  }

  lemma {:induction false} MatchingDrawsNonNegative(name: string, hits: seq<string>, draws: nat -> Draw)
    ensures Sum(MatchingDraws(name, hits, draws)) >= 0
  {
    if hits != [] {
      var ms := MatchingDraws(name, hits, draws);
      var prefix := MatchingDraws(name, hits[..|hits| - 1], draws);
      MatchingDrawsNonNegative(name, hits[..|hits| - 1], draws);
      if hits[|hits| - 1] == name {
        assert ms[..|ms| - 1] == prefix;
      } else {
        assert ms == prefix;
      }
    }
  }

  /** Closed form: successive strikes on a non-negative population amount
      to one subtraction of all the matching draws, floored at zero. */
  lemma {:induction false} AfterHitsClosedForm(population: int, name: string, hits: seq<string>, draws: nat -> Draw)
    requires population >= 0
    ensures AfterHits(population, name, hits, draws)
         == Max0(population - Sum(MatchingDraws(name, hits, draws)))
  {
    if hits != [] {
      var n := |hits| - 1;
      var prefix := MatchingDraws(name, hits[..n], draws);
      AfterHitsClosedForm(population, name, hits[..n], draws);
      if hits[n] == name {
        var ms := MatchingDraws(name, hits, draws);
        assert ms[..|ms| - 1] == prefix;
        assert Sum(ms) == Sum(prefix) + draws(n);
      } else {
        assert MatchingDraws(name, hits, draws) == prefix;
      }
    }
  }

  /** A population never drops below zero and never grows. */
  lemma {:induction false} AfterHitsBounds(population: int, name: string, hits: seq<string>, draws: nat -> Draw)
    requires population >= 0
    ensures 0 <= AfterHits(population, name, hits, draws) <= population
  {
    AfterHitsClosedForm(population, name, hits, draws);
    MatchingDrawsNonNegative(name, hits, draws);
  }

  /** A city that no hit names keeps its population; in particular an empty
      hit list changes nothing. */
  lemma {:induction false} AfterHitsUnmatched(population: int, name: string, hits: seq<string>, draws: nat -> Draw)
    requires name !in hits
    ensures AfterHits(population, name, hits, draws) == population
  {
    if hits != [] {
      assert hits[..|hits| - 1] <= hits;
      AfterHitsUnmatched(population, name, hits[..|hits| - 1], draws);
    }
  }

  /** A city named `m` times in the hit list is struck `m` times: exactly
      one draw per matching hit enters the closed form. */
  lemma {:induction false} StrikeCount(name: string, hits: seq<string>, draws: nat -> Draw)
    ensures |MatchingDraws(name, hits, draws)| == multiset(hits)[name]
  {
    if hits != [] {
      var n := |hits| - 1;
      assert hits == hits[..n] + [hits[n]];
      assert multiset(hits) == multiset(hits[..n]) + multiset{hits[n]};
      StrikeCount(name, hits[..n], draws);
    }
  }
}
