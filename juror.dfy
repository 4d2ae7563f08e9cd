/** Claim verification (backend/app/juror.py): one web search per claim, the first result's
    URL as the citation. The search service is a parameter returning the result URLs in
    order, `Err` when the call (or reading its first URL) raised. */
module Juror {
  import opened Wrappers

  /** At most this many verdicts are returned. */
  const MaxVerdicts: nat := 5

  datatype Verdict = Verdict(claim: string, verified: bool, citationUrl: string)

  /** The verdict on one claim given what the search gave back. */
  function VerdictFor(claim: string, found: Result<seq<string>>): (v: Verdict)
    ensures v.claim == claim
    ensures v.verified <==> v.citationUrl != []
    ensures found.Err? ==> v == Verdict(claim, false, "")
    ensures found.Ok? && found.value != [] ==> v.citationUrl == found.value[0]
    ensures found.Ok? && found.value == [] ==> v.citationUrl == []
  {
    match found
    case Err(_) => Verdict(claim, false, "")
    case Ok(urls) =>
      var url := if urls != [] then urls[0] else "";
      Verdict(claim, url != [], url)
  }

  /** `verify_claims`: every claim is searched, one verdict per claim in order, and the
      list is cut to the first five. Also returns the number of searches made. */
  method VerifyClaims(claims: seq<string>, search: string -> Result<seq<string>>)
    returns (results: seq<Verdict>, searches: nat)
    ensures searches == |claims|
    ensures |results| == Min(MaxVerdicts, |claims|)
    ensures forall i :: 0 <= i < |results| ==> results[i] == VerdictFor(claims[i], search(claims[i]))
    ensures forall i :: 0 <= i < |results| ==>
      results[i].claim == claims[i] && (results[i].verified <==> results[i].citationUrl != [])
  {
    var all: seq<Verdict> := [];
    searches := 0;
    for i := 0 to |claims|
      invariant |all| == i && searches == i
      invariant forall j :: 0 <= j < i ==> all[j] == VerdictFor(claims[j], search(claims[j]))
    {
      var found := search(claims[i]);
      searches := searches + 1;
      match found {
        case Err(_) =>
          all := all + [Verdict(claims[i], false, "")];
        case Ok(urls) =>
          var url := if urls != [] then urls[0] else "";
          all := all + [Verdict(claims[i], url != [], url)];
      }
    }
    results := all[..Min(MaxVerdicts, |all|)];
  }
}
