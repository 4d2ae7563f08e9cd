/** Maximal-marginal-relevance selection (backend/app/mmr.py). The cosine similarities are
    abstract: `simQ(i)` is candidate `i`'s similarity to the query and `simPair(i, j)` the
    similarity between candidates `i` and `j`. The order in which the candidate set is
    scanned is left open, so among equal best scores any one may be picked. */
module Mmr {
  import opened Wrappers

  /** The initial best score; a candidate must beat it to be picked. */
  const Floor: real := -1000000000.0

  /** The largest similarity between `i` and an already selected candidate. */
  function Redundancy(simPair: (int, int) -> real, i: int, selected: seq<int>): (r: real)
    requires selected != []
    ensures forall t :: 0 <= t < |selected| ==> simPair(i, selected[t]) <= r
    ensures exists t :: 0 <= t < |selected| && r == simPair(i, selected[t])
  {
    if |selected| == 1 then simPair(i, selected[0])
    else
      var rest := Redundancy(simPair, i, selected[1..]);
      var r := if simPair(i, selected[0]) >= rest then simPair(i, selected[0]) else rest;
      assert forall t :: 1 <= t < |selected| ==> selected[t] == selected[1..][t - 1];
      r
  }

  /** The marginal relevance of `i` given what is already selected. */
  function Score(simQ: int -> real, simPair: (int, int) -> real, lambda: real, i: int, selected: seq<int>): real
  {
    if selected == [] then simQ(i)
    else lambda * simQ(i) - (1.0 - lambda) * Redundancy(simPair, i, selected)
  }

  /** `pick` beats the floor and no unselected candidate scores higher after `prefix`. */
  ghost predicate GreedyPick(simQ: int -> real, simPair: (int, int) -> real, lambda: real,
                             cands: set<int>, prefix: seq<int>, pick: int)
  {
    pick in cands && pick !in prefix
    && Score(simQ, simPair, lambda, pick, prefix) > Floor
    && forall c :: c in cands && c !in prefix ==>
         Score(simQ, simPair, lambda, c, prefix) <= Score(simQ, simPair, lambda, pick, prefix)
  }

  /** What `mmr` returns: greedy picks, at most `min(k, n)` of them, stopping early only when
      no remaining candidate beats the floor. */
  ghost predicate IsMmrResult(simQ: int -> real, simPair: (int, int) -> real, lambda: real,
                              candidates: seq<int>, k: int, selected: seq<int>)
  {
    var cands := set c | c in candidates;
    |selected| <= Max(0, Min(k, |candidates|))
    && (forall t :: 0 <= t < |selected| ==> GreedyPick(simQ, simPair, lambda, cands, selected[..t], selected[t]))
    && (|selected| < Min(k, |candidates|) ==>
          forall c :: c in cands && c !in selected ==> Score(simQ, simPair, lambda, c, selected) <= Floor)
  }

  /** One round of `mmr`: the unselected candidate with the best score above the floor, or
      none when no candidate beats it. */
  method BestCandidate(simQ: int -> real, simPair: (int, int) -> real, lambda: real,
                       candidateSet: set<int>, selected: seq<int>) returns (best: Option<int>)
    ensures best.Some? ==>
      best.value in candidateSet && Score(simQ, simPair, lambda, best.value, selected) > Floor
      && forall c :: c in candidateSet ==>
           Score(simQ, simPair, lambda, c, selected) <= Score(simQ, simPair, lambda, best.value, selected)
    ensures best.None? ==> forall c :: c in candidateSet ==> Score(simQ, simPair, lambda, c, selected) <= Floor
  {
    best := None;
    var bestScore := Floor;
    var rest := candidateSet;
    while rest != {}
      invariant rest <= candidateSet
      invariant best.None? ==> bestScore == Floor
      invariant best.Some? ==>
        (best.value in candidateSet && best.value !in rest
         && bestScore == Score(simQ, simPair, lambda, best.value, selected) && bestScore > Floor)
      invariant forall c :: c in candidateSet && c !in rest ==> Score(simQ, simPair, lambda, c, selected) <= bestScore
      decreases rest
    {
      ghost var w := ElementOf(rest);
      var i :| i in rest;
      var score := Score(simQ, simPair, lambda, i, selected);
      if score > bestScore {
        bestScore := score;
        best := Some(i);
      }
      rest := rest - {i};
    }
  }

  /** `mmr`: the indices picked, in the order picked. */
  method Select(simQ: int -> real, simPair: (int, int) -> real, candidates: seq<int>, k: int, lambda: real)
    returns (selected: seq<int>)
    ensures IsMmrResult(simQ, simPair, lambda, candidates, k, selected)
    ensures |selected| <= Max(0, Min(k, |candidates|))
    ensures k <= 0 ==> selected == []
    ensures forall t :: 0 <= t < |selected| ==> selected[t] in candidates
    ensures forall s, t :: 0 <= s < t < |selected| ==> selected[s] != selected[t]
    ensures |selected| > 0 ==> forall c :: c in candidates ==> simQ(c) <= simQ(selected[0])
  {
    var cands := set c | c in candidates;
    selected := [];
    var candidateSet := cands;
    var limit := Min(k, |candidates|);
    while |selected| < limit
      invariant |selected| <= Max(0, limit)
      invariant forall c :: c in candidateSet <==> c in cands && c !in selected
      invariant forall t :: 0 <= t < |selected| ==> GreedyPick(simQ, simPair, lambda, cands, selected[..t], selected[t])
      decreases limit - |selected|
    {
      var best := BestCandidate(simQ, simPair, lambda, candidateSet, selected);
      if best.None? {
        break;
      }
      assert GreedyPick(simQ, simPair, lambda, cands, selected, best.value);
      assert forall t :: 0 <= t < |selected| ==> (selected + [best.value])[..t] == selected[..t];
      assert (selected + [best.value])[..|selected|] == selected;
      selected := selected + [best.value];
      candidateSet := candidateSet - {best.value};
    }
    GreedyDistinct(simQ, simPair, lambda, cands, selected);
    if |selected| > 0 {
      assert GreedyPick(simQ, simPair, lambda, cands, selected[..0], selected[0]);
      assert selected[..0] == [];
      forall c | c in candidates ensures simQ(c) <= simQ(selected[0]) {
        assert c in cands && c !in selected[..0];
      }
    }
  }

  lemma GreedyDistinct(simQ: int -> real, simPair: (int, int) -> real, lambda: real, cands: set<int>, selected: seq<int>)
    requires forall t :: 0 <= t < |selected| ==> GreedyPick(simQ, simPair, lambda, cands, selected[..t], selected[t])
    ensures forall t :: 0 <= t < |selected| ==> selected[t] in cands
    ensures forall s, t :: 0 <= s < t < |selected| ==> selected[s] != selected[t]
  {
    forall s, t | 0 <= s < t < |selected| ensures selected[s] != selected[t] {
      assert GreedyPick(simQ, simPair, lambda, cands, selected[..t], selected[t]);
      assert selected[s] == selected[..t][s];
    }
  }

  /** With lambda = 1 redundancy is ignored, so the picks come out in non-increasing
      similarity to the query. */
  lemma LambdaOneByRelevance(simQ: int -> real, simPair: (int, int) -> real, candidates: seq<int>, k: int, selected: seq<int>)
    requires IsMmrResult(simQ, simPair, 1.0, candidates, k, selected)
    ensures forall t :: 0 < t < |selected| ==> simQ(selected[t]) <= simQ(selected[t - 1])
  {
    var cands := set c | c in candidates;
    forall t | 0 < t < |selected| ensures simQ(selected[t]) <= simQ(selected[t - 1]) {
      var prefix := selected[..t - 1];
      assert GreedyPick(simQ, simPair, 1.0, cands, prefix, selected[t - 1]);
      assert GreedyPick(simQ, simPair, 1.0, cands, selected[..t], selected[t]);
      assert selected[..t] == prefix + [selected[t - 1]];
      assert selected[t] in cands && selected[t] !in prefix;
      ScoreLambdaOne(simQ, simPair, selected[t], prefix);
      ScoreLambdaOne(simQ, simPair, selected[t - 1], prefix);
    }
  }

  lemma ScoreLambdaOne(simQ: int -> real, simPair: (int, int) -> real, i: int, selected: seq<int>)
    ensures Score(simQ, simPair, 1.0, i, selected) == simQ(i)
  {
  }

  /** Cosine similarities lie in [-1, 1]; with lambda in [0, 1] every score is then at least -1. */
  lemma ScoreAtLeastMinusOne(simQ: int -> real, simPair: (int, int) -> real, lambda: real, i: int, selected: seq<int>)
    requires 0.0 <= lambda <= 1.0
    requires -1.0 <= simQ(i) <= 1.0
    requires forall t :: 0 <= t < |selected| ==> -1.0 <= simPair(i, selected[t]) <= 1.0
    ensures Score(simQ, simPair, lambda, i, selected) >= -1.0
  {
    if selected != [] {
      var a := simQ(i);
      var m := Redundancy(simPair, i, selected);
      assert -1.0 <= m <= 1.0;
      assert lambda * (a + 1.0) >= 0.0;
      assert (1.0 - lambda) * (1.0 - m) >= 0.0;
      assert lambda * a - (1.0 - lambda) * m == lambda * (a + 1.0) + (1.0 - lambda) * (1.0 - m) - 1.0;
    }
  }

  lemma {:induction false} DistinctCard(xs: seq<int>)
    requires forall s, t :: 0 <= s < t < |xs| ==> xs[s] != xs[t]
    ensures |set c | c in xs| == |xs|
  {
    if xs != [] {
      var init := xs[..|xs| - 1];
      DistinctCard(init);
      assert (set c | c in xs) == (set c | c in init) + {xs[|xs| - 1]};
      assert xs[|xs| - 1] !in init;
    }
  }

  lemma {:induction false} SubsetCard(a: set<int>, b: set<int>)
    requires a <= b
    ensures |a| <= |b|
  {
    if a != {} {
      ghost var w := ElementOf(a);
      var x :| x in a;
      SubsetCard(a - {x}, b - {x});
    }
  }

  /** With distinct indices and similarities in [-1, 1], selection never stops early:
      exactly `min(k, n)` indices come back. */
  lemma ExactLength(simQ: int -> real, simPair: (int, int) -> real, lambda: real, candidates: seq<int>, k: int, selected: seq<int>)
    requires IsMmrResult(simQ, simPair, lambda, candidates, k, selected)
    requires 0.0 <= lambda <= 1.0
    requires forall s, t :: 0 <= s < t < |candidates| ==> candidates[s] != candidates[t]
    requires forall i :: -1.0 <= simQ(i) <= 1.0
    requires forall i, j :: -1.0 <= simPair(i, j) <= 1.0
    ensures |selected| == Max(0, Min(k, |candidates|))
  {
    var cands := set c | c in candidates;
    if |selected| < Min(k, |candidates|) {
      GreedyDistinct(simQ, simPair, lambda, cands, selected);
      DistinctCard(candidates);
      DistinctCard(selected);
      var chosen := set c | c in selected;
      if cands <= chosen {
        SubsetCard(cands, chosen);
        assert false;
      }
      var c :| c in cands && c !in chosen;
      ScoreAtLeastMinusOne(simQ, simPair, lambda, c, selected);
      assert false;
    }
  }
}
