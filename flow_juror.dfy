/** The `juror` node (backend/app/flow.py:308-316): pick up to three claims from the one-pager
    and search for a citation of each. */
module JurorNode {
  import opened Wrappers
  import opened FlowState
  import opened Store
  import Research
  import Juror

  method JudgeClaims(env: Env, s: State) returns (r: Result<State>)
    ensures Skipping(s) ==> r == Ok(StatusOnly(s, PendingResearch))
    ensures !Skipping(s) ==>
      var op := s.onePager.GetOr([]);
      (r.Ok? <==> Research.FeatureItems(op).Ok? && Research.PricingItems(op).Ok?)
    // The verdicts are the node's whole update: one per claim, in the order the claims were picked.
    ensures r.Ok? && !Skipping(s) ==>
      var op := s.onePager.GetOr([]);
      var fs := Research.FeatureItems(op).value;
      var ps := Research.PricingItems(op).value;
      r.value.verdicts.Some? && r.value == NoUpdate.(verdicts := r.value.verdicts)
      && var vs := r.value.verdicts.value;
      |vs| == |fs| + |ps| <= 3
      && (forall i :: 0 <= i < |fs| ==> vs[i].claim == "Feature: " + fs[i])
      && (forall i :: 0 <= i < |ps| ==> vs[|fs| + i].claim == "Pricing " + ps[i].0 + ": " + ps[i].1)
      && (forall i :: 0 <= i < |vs| ==> vs[i] == Juror.VerdictFor(vs[i].claim, env.claimSearch(vs[i].claim)))
  {
    if Skipping(s) {
      return Ok(StatusOnly(s, PendingResearch));
    }
    var claims := Research.PickFiveClaims(s.onePager.GetOr([]));
    if claims.Err? {
      return Err(claims.error);
    }
    var verdicts, _ := Juror.VerifyClaims(claims.value, env.claimSearch);
    return Ok(NoUpdate.(verdicts := Some(verdicts)));
  }
}
