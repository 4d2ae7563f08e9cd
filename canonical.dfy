/** URL canonicalisation (backend/app/canonical.py): the key under which a tool and
    its documents are stored. The scheme and host are lower-cased, an empty scheme
    becomes "https", an empty path becomes "/", params and fragment are dropped and
    the tracking parameters are removed from the query, the rest keeping its order. */
module Canonical {
  import opened Wrappers
  import opened Strings
  import opened Urls

  /** The query parameters removed by canonicalisation (compared case-sensitively). */
  const TrackingParams: set<string> :=
    {"utm_source", "utm_medium", "utm_campaign", "utm_term", "utm_content", "gclid", "fbclid"}

  /** The query pairs whose key is not a tracking parameter, in their original order. */
  function DropTracking(pairs: seq<(string, string)>): (r: seq<(string, string)>)
    ensures |r| <= |pairs|
    ensures forall kv :: kv in r <==> kv in pairs && kv.0 !in TrackingParams
  {
    if pairs == [] then []
    else (if pairs[0].0 in TrackingParams then [] else [pairs[0]]) + DropTracking(pairs[1..])
  }

  /** Filtering distributes over concatenation: the kept pairs keep their relative order. */
  lemma {:induction false} DropTrackingAppend(a: seq<(string, string)>, b: seq<(string, string)>)
    ensures DropTracking(a + b) == DropTracking(a) + DropTracking(b)
  {
    if a != [] {
      assert (a + b)[1..] == a[1..] + b;
      DropTrackingAppend(a[1..], b);
    } else {
      assert a + b == b;
    }
  }

  /** A query without tracking parameters is left exactly as it is. */
  lemma {:induction false} DropTrackingClean(pairs: seq<(string, string)>)
    requires forall i :: 0 <= i < |pairs| ==> pairs[i].0 !in TrackingParams
    ensures DropTracking(pairs) == pairs
  {
    if pairs != [] {
      DropTrackingClean(pairs[1..]);
    }
  }

  lemma DropTrackingWellFormed(pairs: seq<(string, string)>)
    requires WellFormedPairs(pairs)
    ensures WellFormedPairs(DropTracking(pairs))
  {
    var r := DropTracking(pairs);
    forall i | 0 <= i < |r|
      ensures NoChar(r[i].0, '&') && NoChar(r[i].0, '=') && NoChar(r[i].1, '&')
    {
      assert r[i] in pairs;
    }
  }

  /** The canonical scheme: the parsed scheme lower-cased, or "https" when there is none. */
  function CanonicalScheme(scheme: string): (s: string)
    ensures s != [] && Lower(s) == s
    ensures scheme != [] ==> s == Lower(scheme)
  {
    LowerIdempotentAll();
    if Lower(scheme) == [] then "https" else Lower(scheme)
  }

  /** The six components `canonicalize_url` hands to `urlunparse`. */
  function CanonicalParts(p: UrlParts): (c: UrlParts)
    ensures c.scheme == CanonicalScheme(p.scheme)
    ensures c.netloc == Lower(p.netloc)
    ensures c.path != [] && (p.path != [] ==> c.path == p.path)
    ensures c.params == [] && c.fragment == []
    ensures WellFormedPairs(QueryPairs(c.query, true))
    ensures QueryPairs(c.query, true) == DropTracking(QueryPairs(p.query, true))
  {
    var pairs := DropTracking(QueryPairs(p.query, true));
    QueryPairsWellFormed(p.query, true);
    DropTrackingWellFormed(QueryPairs(p.query, true));
    EncodeQueryRoundTrip(pairs);
    UrlParts(CanonicalScheme(p.scheme), Lower(p.netloc), if p.path == [] then "/" else p.path, "", EncodeQuery(pairs), "")
  }

  /** Canonicalising components twice changes nothing more. */
  lemma CanonicalPartsIdempotent(p: UrlParts)
    ensures CanonicalParts(CanonicalParts(p)) == CanonicalParts(p)
  {
    var c := CanonicalParts(p);
    var pairs := QueryPairs(c.query, true);
    LowerIdempotentAll();
    DropTrackingClean(pairs);
    QueryPairsWellFormed(p.query, true);
    DropTrackingWellFormed(QueryPairs(p.query, true));
    EncodeQueryRoundTrip(DropTracking(QueryPairs(p.query, true)));
  }

  /** `canonicalize_url(url)`; `Err` when `urlparse` raises. */
  function CanonicalizeUrl(url: string): (r: Result<string>)
    ensures r.Ok? <==> Parse(url).Ok?
    ensures r.Ok? ==> StartsWith(r.value, CanonicalScheme(Parse(url).value.scheme) + ":")
    ensures r.Ok? ==> NoChar(r.value, '#')
  {
    match Parse(url)
    case Err(e) => Err(e)
    case Ok(p) =>
      ParsedNoHash(url);
      CanonicalRendering(p);
      Ok(Unparse(CanonicalParts(p)))
  }

  lemma CanonicalRendering(p: UrlParts)
    requires PartsNoHash(p)
    ensures StartsWith(Unparse(CanonicalParts(p)), CanonicalScheme(p.scheme) + ":")
    ensures NoChar(Unparse(CanonicalParts(p)), '#')
  {
    var c := CanonicalParts(p);
    CanonicalPartsNoHash(p);
    UnparseNoHash(c);
    UnparseSchemePrefix(c);
  }

  // ---------------------------------------------------------------------------
  // No fragment survives: no '#' anywhere in the canonical URL

  lemma CanonicalPartsNoHash(p: UrlParts)
    requires PartsNoHash(p)
    ensures PartsNoHash(CanonicalParts(p))
  {
    LowerNoChar(p.scheme, '#');
    LowerNoChar(p.netloc, '#');
    if p.query != [] {
      SplitOnNoChar(p.query, '&', '#');
      PairsOfNoChar(SplitOn(p.query, '&'), true, '#');
    }
    var pairs := DropTracking(QueryPairs(p.query, true));
    forall i | 0 <= i < |pairs| ensures NoChar(pairs[i].0, '#') && NoChar(pairs[i].1, '#') {
      assert pairs[i] in QueryPairs(p.query, true);
    }
    EncodeQueryNoChar(pairs, '#');
  }

  lemma UnparseNoHash(c: UrlParts)
    requires PartsNoHash(c) && c.fragment == []
    ensures NoChar(Unparse(c), '#')
  {
  }
}
