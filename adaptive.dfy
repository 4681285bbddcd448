/** AdaptiveStrategy of strategy_manager.py: a meta-policy that asks a fixed
    basket of policies for their votes and combines the non-zero ones with
    per-policy weights that realised profit nudges up or down. */
module Adaptive {
  import opened Market
  import opened Policies

  /** The basket, in the order the source's dictionary iterates it. */
  const Basket: seq<string> := ["momentum", "mean_reversion", "trend_following"]
  const BasketNames: set<string> := {"momentum", "mean_reversion", "trend_following"}
  const InitialWeight: real := 1.0
  const WeightFloor: real := 0.1
  const LearningRate: real := 0.1
  const AdaptiveMinWindow: nat := 50

  /** The votes of the basket, in basket order. */
  function SubSignals(w: Window, ind: Indicators): (votes: seq<int>)
    ensures |votes| == |Basket|
    ensures forall i :: 0 <= i < |votes| ==> -1 <= votes[i] <= 1
  {
    [Momentum(w, ind), MeanReversion(w), TrendFollowing(w, ind)]
  }

  /** `performance_weights.get(name, 1.0)`. */
  function WeightOf(weights: map<string, real>, name: string): real {
    if name in weights then weights[name] else InitialWeight
  }

  /** The sum of `vote * weight` over the non-zero votes. */
  function WeightedVotes(names: seq<string>, votes: seq<int>, weights: map<string, real>): real
    requires |names| == |votes|
    decreases |names|
  {
    if names == [] then 0.0
    else
      var n := |names| - 1;
      WeightedVotes(names[..n], votes[..n], weights)
        + (if votes[n] != 0 then votes[n] as real * WeightOf(weights, names[n]) else 0.0)
  }

  /** The sum of the weights of the non-zero votes. */
  function VotingWeight(names: seq<string>, votes: seq<int>, weights: map<string, real>): real
    requires |names| == |votes|
    decreases |names|
  {
    if names == [] then 0.0
    else
      var n := |names| - 1;
      VotingWeight(names[..n], votes[..n], weights)
        + (if votes[n] != 0 then WeightOf(weights, names[n]) else 0.0)
  }

  /** The weighted mean of the non-zero votes, cut at +-0.5. */
  function Combine(weighted: real, total: real): int {
    if total > 0.0 then
      var mean := weighted / total;
      if mean > 0.5 then 1 else if mean < -0.5 then -1 else 0
    else 0
  }

  /** What AdaptiveStrategy.get_signal answers for the given weights. */
  function AdaptiveSignal(weights: map<string, real>, w: Window, ind: Indicators): (r: int)
    ensures -1 <= r <= 1
    ensures |w| < AdaptiveMinWindow ==> r == 0
  {
    if |w| < AdaptiveMinWindow then 0
    else
      var votes := SubSignals(w, ind);
      Combine(WeightedVotes(Basket, votes, weights), VotingWeight(Basket, votes, weights))
  }

  /** Every weight is at least the floor. */
  ghost predicate Floored(weights: map<string, real>) {
    forall n :: n in weights ==> weights[n] >= WeightFloor
  }

  /** With floored weights the voting weight is positive exactly when some vote
      is non-zero, and the weighted sum lies within plus or minus it. */
  lemma {:induction false} VotesBounded(names: seq<string>, votes: seq<int>, weights: map<string, real>)
    requires |names| == |votes| && Floored(weights)
    requires forall i :: 0 <= i < |votes| ==> -1 <= votes[i] <= 1
    ensures -VotingWeight(names, votes, weights) <= WeightedVotes(names, votes, weights) <= VotingWeight(names, votes, weights)
    ensures VotingWeight(names, votes, weights) >= 0.0
    ensures VotingWeight(names, votes, weights) > 0.0 <==> exists i :: 0 <= i < |votes| && votes[i] != 0
    decreases |names|
  {
    if names != [] {
      var n := |names| - 1;
      var prefixNames, prefixVotes := names[..n], votes[..n];
      VotesBounded(prefixNames, prefixVotes, weights);
      var weight := WeightOf(weights, names[n]);
      assert weight > 0.0;
      var prefixTotal := VotingWeight(prefixNames, prefixVotes, weights);
      var prefixSum := WeightedVotes(prefixNames, prefixVotes, weights);
      var v := votes[n];
      assert v == -1 || v == 0 || v == 1;
      if v == 0 {
        assert VotingWeight(names, votes, weights) == prefixTotal;
        assert WeightedVotes(names, votes, weights) == prefixSum;
      } else {
        assert VotingWeight(names, votes, weights) == prefixTotal + weight;
        assert WeightedVotes(names, votes, weights) == prefixSum + v as real * weight;
        assert v as real * weight == weight || v as real * weight == -weight;
      }
      if exists i :: 0 <= i < |prefixVotes| && prefixVotes[i] != 0 {
        var i :| 0 <= i < |prefixVotes| && prefixVotes[i] != 0;
        assert votes[i] != 0;
      }
      if exists i :: 0 <= i < |votes| && votes[i] != 0 {
        var i :| 0 <= i < |votes| && votes[i] != 0;
        if i < n {
          assert prefixVotes[i] != 0;
        }
      }
    }
  }

  /** When every non-zero vote is `v`, the weighted sum is `v` times the voting weight. */
  lemma {:induction false} UnanimousVotes(names: seq<string>, votes: seq<int>, weights: map<string, real>, v: int)
    requires |names| == |votes| && (v == 1 || v == -1)
    requires forall i :: 0 <= i < |votes| ==> votes[i] == 0 || votes[i] == v
    ensures WeightedVotes(names, votes, weights) == v as real * VotingWeight(names, votes, weights)
    decreases |names|
  {
    if names != [] {
      var n := |names| - 1;
      UnanimousVotes(names[..n], votes[..n], weights, v);
    }
  }

  /** All votes zero: nothing is weighed. */
  lemma {:induction false} SilentVotes(names: seq<string>, votes: seq<int>, weights: map<string, real>)
    requires |names| == |votes|
    requires forall i :: 0 <= i < |votes| ==> votes[i] == 0
    ensures WeightedVotes(names, votes, weights) == 0.0 && VotingWeight(names, votes, weights) == 0.0
    decreases |names|
  {
    if names != [] {
      var n := |names| - 1;
      SilentVotes(names[..n], votes[..n], weights);
    }
  }

  /** One more entry of the basket, as the loop of get_signal takes it. */
  lemma PrefixStep(names: seq<string>, votes: seq<int>, weights: map<string, real>, i: nat)
    requires |names| == |votes| && i < |names|
    ensures WeightedVotes(names[..i + 1], votes[..i + 1], weights)
      == WeightedVotes(names[..i], votes[..i], weights)
         + (if votes[i] != 0 then votes[i] as real * WeightOf(weights, names[i]) else 0.0)
    ensures VotingWeight(names[..i + 1], votes[..i + 1], weights)
      == VotingWeight(names[..i], votes[..i], weights) + (if votes[i] != 0 then WeightOf(weights, names[i]) else 0.0)
  {
    assert names[..i + 1][..i] == names[..i];
    assert votes[..i + 1][..i] == votes[..i];
  }

  lemma SignedQuotient(c: real, t: real)
    requires t > 0.0 && (c == 1.0 || c == -1.0)
    ensures (c * t) / t == c
  {
  }

  /** If the basket votes one way or abstains, with at least one vote cast,
      the adaptive policy follows it. */
  lemma AdaptiveUnanimous(weights: map<string, real>, w: Window, ind: Indicators, v: int)
    requires Floored(weights) && |w| >= AdaptiveMinWindow && (v == 1 || v == -1)
    requires forall i :: 0 <= i < |Basket| ==> SubSignals(w, ind)[i] == 0 || SubSignals(w, ind)[i] == v
    requires exists i :: 0 <= i < |Basket| && SubSignals(w, ind)[i] == v
    ensures AdaptiveSignal(weights, w, ind) == v
  {
    var votes := SubSignals(w, ind);
    VotesBounded(Basket, votes, weights);
    UnanimousVotes(Basket, votes, weights, v);
    var total := VotingWeight(Basket, votes, weights);
    SignedQuotient(v as real, total);
  }

  /** A basket that abstains makes the adaptive policy abstain. */
  lemma AdaptiveSilentBasket(weights: map<string, real>, w: Window, ind: Indicators)
    requires forall i :: 0 <= i < |Basket| ==> SubSignals(w, ind)[i] == 0
    ensures AdaptiveSignal(weights, w, ind) == 0
  {
    if |w| >= AdaptiveMinWindow {
      SilentVotes(Basket, SubSignals(w, ind), weights);
    }
  }

  /** With floored weights the adaptive policy never goes against the whole
      basket: a non-zero answer is the vote of some member. */
  lemma AdaptiveFollowsAVote(weights: map<string, real>, w: Window, ind: Indicators)
    requires Floored(weights)
    ensures AdaptiveSignal(weights, w, ind) != 0 ==>
      exists i :: 0 <= i < |Basket| && SubSignals(w, ind)[i] == AdaptiveSignal(weights, w, ind)
  {
    var r := AdaptiveSignal(weights, w, ind);
    if r != 0 {
      var votes := SubSignals(w, ind);
      var total := VotingWeight(Basket, votes, weights);
      VotesBounded(Basket, votes, weights);
      if !(exists i :: 0 <= i < |Basket| && votes[i] == r) {
        UnanimousVotes(Basket, votes, weights, -r);
        SignedQuotient(-r as real, total);
      }
    }
  }

  class AdaptiveStrategy {
    /** `performance_weights`: one weight per basket member. */
    var performanceWeights: map<string, real>

    ghost predicate Valid()
      reads this
    {
      performanceWeights.Keys == BasketNames && Floored(performanceWeights)
    }

    constructor ()
      ensures Valid()
      ensures forall n :: n in BasketNames ==> performanceWeights[n] == InitialWeight
    {
      performanceWeights := map["momentum" := InitialWeight, "mean_reversion" := InitialWeight,
                                "trend_following" := InitialWeight];
    }

    /** AdaptiveStrategy.get_signal: accumulates the weighted sum and the total
        weight of the non-zero votes, then cuts their ratio at +-0.5. */
    method GetSignal(w: Window, ind: Indicators) returns (signal: int)
      ensures signal == AdaptiveSignal(performanceWeights, w, ind)
    {
      if |w| < AdaptiveMinWindow {
        return 0;
      }
      var votes := SubSignals(w, ind);
      var weightedSignal, totalWeight := TallyVotes(votes);
      if totalWeight > 0.0 {
        var finalSignal := weightedSignal / totalWeight;
        signal := if finalSignal > 0.5 then 1 else if finalSignal < -0.5 then -1 else 0;
      } else {
        signal := 0;
      }
    }

    /** The accumulation loop of get_signal over the basket's votes. */
    method TallyVotes(votes: seq<int>) returns (weightedSignal: real, totalWeight: real)
      requires |votes| == |Basket|
      ensures weightedSignal == WeightedVotes(Basket, votes, performanceWeights)
      ensures totalWeight == VotingWeight(Basket, votes, performanceWeights)
    {
      weightedSignal, totalWeight := 0.0, 0.0;
      for i := 0 to |Basket|
        invariant weightedSignal == WeightedVotes(Basket[..i], votes[..i], performanceWeights)
        invariant totalWeight == VotingWeight(Basket[..i], votes[..i], performanceWeights)
      {
        PrefixStep(Basket, votes, performanceWeights, i);
        if votes[i] != 0 {
          var weight := WeightOf(performanceWeights, Basket[i]);
          weightedSignal := weightedSignal + votes[i] as real * weight;
          totalWeight := totalWeight + weight;
        }
      }
      assert Basket[..|Basket|] == Basket && votes[..|votes|] == votes;
    }

    /** AdaptiveStrategy.update_performance: `weight := max(0.1, weight + 0.1 * profit)`
        for a basket member; any other name is ignored. */
    method UpdatePerformance(strategyName: string, profit: real)
      requires Valid()
      modifies this
      ensures Valid()
      ensures strategyName in old(performanceWeights) ==>
        var nudged := old(performanceWeights)[strategyName] + profit * LearningRate;
        performanceWeights == old(performanceWeights)[strategyName := if nudged > WeightFloor then nudged else WeightFloor]
      ensures strategyName !in old(performanceWeights) ==> performanceWeights == old(performanceWeights)
    {
      if strategyName in performanceWeights {
        var adjustment := profit * LearningRate;
        var nudged := performanceWeights[strategyName] + adjustment;
        performanceWeights := performanceWeights[strategyName := if nudged > WeightFloor then nudged else WeightFloor];
      }
    }
  }
}
