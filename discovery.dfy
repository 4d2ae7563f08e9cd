/** The pure parts of `resolve_tool` (backend/app/flow.py:41-186): the search queries for a
    name-only request, candidate de-duplication, the social-host filter, the fallback pick,
    the freshness window, and the name, aliases and alias key of a new tool. */
module Discovery {
  import opened Wrappers
  import opened Strings
  import opened Urls
  import Canonical
  import Validators

  /** One result of the web search service: `title`, `url` and `content`, each "" when absent. */
  datatype SearchItem = SearchItem(title: string, url: string, content: string)

  /** The six queries issued for a name-only request. */
  function NameQueries(name: string): (qs: seq<string>)
    ensures |qs| == 6
  {
    [name + " official site", name + " homepage", name + " product website",
     name + " company website", name + " website", "site:wikipedia.org " + name]
  }

  /** Every query mentions the name. */
  lemma NameQueriesMentionName(name: string)
    ensures forall i :: 0 <= i < 6 ==> Contains(NameQueries(name)[i], name)
  {
    var qs := NameQueries(name);
    forall i | 0 <= i < 5 ensures Contains(qs[i], name) {
      assert StartsWith(qs[i][0..], name);
    }
    assert StartsWith(qs[5][19..], name) by {
      assert qs[5][19..] == name;
    }
  }

  /** The line shown to the site-picking model for a candidate. */
  function Describe(item: SearchItem): string
  {
    item.title + " — " + item.url + " — " + Take(item.content, 160)
  }

  function UrlsOf(items: seq<SearchItem>): (us: seq<string>)
    ensures |us| == |items| && forall i :: 0 <= i < |items| ==> us[i] == items[i].url
  {
    if items == [] then [] else [items[0].url] + UrlsOf(items[1..])
  }

  /** The candidates kept from the search results seen so far, in order: an item is kept when
      its URL is non-empty and no earlier kept item has the same URL. */
  function Kept(items: seq<SearchItem>): seq<SearchItem>
  {
    if items == [] then []
    else
      var k := Kept(items[..|items| - 1]);
      var x := items[|items| - 1];
      if x.url == "" || x.url in UrlsOf(k) then k else k + [x]
  }

  /** Kept URLs are non-empty and pairwise distinct; every kept item is a search result; every
      non-empty result URL is kept (its first occurrence). */
  lemma KeptSpec(items: seq<SearchItem>)
    ensures forall i :: 0 <= i < |Kept(items)| ==> Kept(items)[i].url != "" && Kept(items)[i] in items
    ensures forall i, j :: 0 <= i < j < |Kept(items)| ==> Kept(items)[i].url != Kept(items)[j].url
    ensures forall x :: x in items && x.url != "" ==> x.url in UrlsOf(Kept(items))
  {
    KeptFromItems(items);
    KeptDistinct(items);
    KeptCovers(items);
  }

  lemma {:induction false} KeptFromItems(items: seq<SearchItem>)
    ensures forall i :: 0 <= i < |Kept(items)| ==> Kept(items)[i].url != "" && Kept(items)[i] in items
  {
    if items != [] {
      var init := items[..|items| - 1];
      KeptFromItems(init);
      assert forall y :: y in init ==> y in items;
    }
  }

  lemma {:induction false} KeptDistinct(items: seq<SearchItem>)
    ensures forall i, j :: 0 <= i < j < |Kept(items)| ==> Kept(items)[i].url != Kept(items)[j].url
  {
    if items != [] {
      var init := items[..|items| - 1];
      KeptDistinct(init);
      var k := Kept(init);
      var x := items[|items| - 1];
      if !(x.url == "" || x.url in UrlsOf(k)) {
        var k' := k + [x];
        forall i, j | 0 <= i < j < |k'| ensures k'[i].url != k'[j].url {
          if j == |k| {
            assert k'[i].url == UrlsOf(k)[i];
          }
        }
      }
    }
  }

  lemma {:induction false} KeptCovers(items: seq<SearchItem>)
    ensures forall x :: x in items && x.url != "" ==> x.url in UrlsOf(Kept(items))
  {
    if items != [] {
      var init := items[..|items| - 1];
      KeptCovers(init);
      var k := Kept(init);
      var x := items[|items| - 1];
      var k' := Kept(items);
      assert forall u :: u in UrlsOf(k) ==> u in UrlsOf(k') by {
        if !(x.url == "" || x.url in UrlsOf(k)) {
          UrlsOfAppend(k, x);
        }
      }
      forall y | y in items && y.url != "" ensures y.url in UrlsOf(k') {
        if y != x {
          assert y in init;
        } else if !(x.url in UrlsOf(k)) {
          UrlsOfAppend(k, x);
        }
      }
    }
  }

  lemma UrlsOfAppend(k: seq<SearchItem>, x: SearchItem)
    ensures UrlsOf(k + [x]) == UrlsOf(k) + [x.url]
  {
  }

  /** The first search result decides which item stands for a URL. */
  lemma KeptFirstOccurrence(items: seq<SearchItem>, more: seq<SearchItem>)
    ensures Kept(items) <= Kept(items + more)
    decreases |more|
  {
    if more != [] {
      var init := items + more[..|more| - 1];
      assert (items + more)[..|items + more| - 1] == init;
      KeptFirstOccurrence(items, more[..|more| - 1]);
    } else {
      assert items + more == items;
    }
  }

  /** Gathers the candidates of a name-only request: six searches of at most 8 results each.
      A failing search empties both lists, as the enclosing `except` does. */
  method GatherCandidates(search: (string, nat) -> Result<seq<SearchItem>>, name: string)
    returns (forLlm: seq<string>, urls: seq<string>, ghost kept: seq<SearchItem>)
    ensures |forLlm| == |urls| == |kept|
    ensures forall i :: 0 <= i < |kept| ==> urls[i] == kept[i].url && forLlm[i] == Describe(kept[i])
    ensures urls != [] ==> forall i :: 0 <= i < 6 ==> search(NameQueries(name)[i], 8).Ok?
    ensures DistinctUrls(urls)
    ensures (forall i :: 0 <= i < 6 ==> search(NameQueries(name)[i], 8).Ok?) ==>
      kept == Kept(AllResults(search, name, 6))
  {
    var queries := NameQueries(name);
    forLlm, urls, kept := [], [], [];
    var seen: set<string> := {};
    ghost var done: seq<SearchItem> := [];
    var q := 0;
    while q < 6
      invariant 0 <= q <= 6
      invariant done == AllResults(search, name, q)
      invariant forall i :: 0 <= i < q ==> search(queries[i], 8).Ok?
      invariant kept == Kept(done)
      invariant |forLlm| == |kept| && urls == UrlsOf(kept)
      invariant forall i :: 0 <= i < |kept| ==> forLlm[i] == Describe(kept[i])
      invariant forall u :: u in seen <==> u in urls
      invariant DistinctUrls(urls)
    {
      var res := search(queries[q], 8);
      if res.Err? {
        forLlm, urls, kept := [], [], [];
        return;
      }
      assert forall i :: 0 <= i < q + 1 ==> search(queries[i], 8).Ok? by {
        forall i | 0 <= i < q + 1
          ensures search(queries[i], 8).Ok?
        {
          if i == q {
            assert search(queries[i], 8) == res;
          }
        }
      }
      forLlm, urls, seen, kept := AddCandidates(res.value, forLlm, urls, seen, done, kept);
      AllResultsStep(search, name, q);
      done := done + res.value;
      q := q + 1;
    }
  }

  /** Non-empty and pairwise distinct. */
  predicate DistinctUrls(urls: seq<string>)
  {
    (forall i :: 0 <= i < |urls| ==> urls[i] != "")
    && (forall i, j :: 0 <= i < j < |urls| ==> urls[i] != urls[j])
  }

  /** The inner loop over one search's results: keep each item with a new, non-empty URL. */
  method AddCandidates(items: seq<SearchItem>, forLlm0: seq<string>, urls0: seq<string>, seen0: set<string>,
                       ghost done: seq<SearchItem>, ghost kept0: seq<SearchItem>)
    returns (forLlm: seq<string>, urls: seq<string>, seen: set<string>, ghost kept: seq<SearchItem>)
    requires kept0 == Kept(done) && |forLlm0| == |kept0| && urls0 == UrlsOf(kept0)
    requires forall i :: 0 <= i < |kept0| ==> forLlm0[i] == Describe(kept0[i])
    requires forall u :: u in seen0 <==> u in urls0
    ensures DistinctUrls(urls)
    ensures kept == Kept(done + items) && |forLlm| == |kept| && urls == UrlsOf(kept)
    ensures forall i :: 0 <= i < |kept| ==> forLlm[i] == Describe(kept[i])
    ensures forall u :: u in seen <==> u in urls
  {
    forLlm, urls, seen, kept := forLlm0, urls0, seen0, kept0;
    var j := 0;
    assert done + items[..0] == done;
    while j < |items|
      invariant 0 <= j <= |items|
      invariant kept == Kept(done + items[..j]) && |forLlm| == |kept| && urls == UrlsOf(kept)
      invariant forall i :: 0 <= i < |kept| ==> forLlm[i] == Describe(kept[i])
      invariant forall u :: u in seen <==> u in urls
    {
      var item := items[j];
      KeptStep(done, items, j);
      assert item.url in seen <==> item.url in UrlsOf(kept);
      if item.url != "" && item.url !in seen {
        seen := seen + {item.url};
        forLlm := forLlm + [Describe(item)];
        UrlsOfAppend(kept, item);
        urls := urls + [item.url];
        kept := kept + [item];
      }
      j := j + 1;
    }
    assert items[..j] == items;
    KeptSpec(done + items);
  }

  /** A successful query appends its results. */
  lemma AllResultsStep(search: (string, nat) -> Result<seq<SearchItem>>, name: string, q: nat)
    requires q < 6 && search(NameQueries(name)[q], 8).Ok?
    ensures AllResults(search, name, q + 1) == AllResults(search, name, q) + search(NameQueries(name)[q], 8).value
  {
  }

  /** One more search result extends the kept list by that result or by nothing. */
  lemma KeptStep(done: seq<SearchItem>, items: seq<SearchItem>, j: nat)
    requires j < |items|
    ensures var k := Kept(done + items[..j]);
      Kept(done + items[..j + 1]) ==
        if items[j].url == "" || items[j].url in UrlsOf(k) then k else k + [items[j]]
  {
    assert (done + items[..j + 1])[..|done| + j] == done + items[..j];
    assert (done + items[..j + 1])[|done| + j] == items[j];
  }

  /** The concatenated results of the first `n` name queries, when all of them succeed. */
  ghost function AllResults(search: (string, nat) -> Result<seq<SearchItem>>, name: string, n: nat): seq<SearchItem>
    requires n <= 6
  {
    if n == 0 then []
    else
      var r := search(NameQueries(name)[n - 1], 8);
      AllResults(search, name, n - 1) + (if r.Ok? then r.value else [])
  }

  // ---------------------------------------------------------------------------
  // The social-host filter and the fallback pick

  const SocialHosts: seq<string> := ["x.com", "twitter.com", "linkedin.com", "youtube.com", "youtu.be", "tiktok.com"]

  /** A lower-cased host that ends with or contains one of the social hosts. */
  predicate SocialHost(h: string)
  {
    exists k | 0 <= k < |SocialHosts| :: EndsWith(h, SocialHosts[k]) || Contains(h, SocialHosts[k])
  }

  /** `is_social(u)`: the test on the URL's lower-cased host; a parse error gives the empty host,
      which is not social. */
  predicate IsSocial(u: string)
  {
    SocialHost(HostOf(u))
  }

  /** The `endswith` test adds nothing: a host is social exactly when it contains a social host. */
  lemma SocialByContainment(h: string)
    ensures SocialHost(h) <==> ContainsAny(h, SocialHosts)
  {
    forall k | 0 <= k < |SocialHosts| && EndsWith(h, SocialHosts[k]) ensures Contains(h, SocialHosts[k]) {
      var s := SocialHosts[k];
      assert StartsWith(h[|h| - |s|..], s);
    }
  }

  /** The first candidate that is non-empty and not social under `social`. */
  function FirstNonSocial(urls: seq<string>, social: string -> bool): (r: Option<nat>)
    ensures r.Some? ==> r.value < |urls| && urls[r.value] != "" && !social(urls[r.value])
    ensures r.Some? ==> forall i :: 0 <= i < r.value ==> urls[i] == "" || social(urls[i])
    ensures r.None? ==> forall i :: 0 <= i < |urls| ==> urls[i] == "" || social(urls[i])
  {
    if urls == [] then None
    else if urls[0] != "" && !social(urls[0]) then Some(0)
    else match FirstNonSocial(urls[1..], social) { case None => None case Some(i) => Some(i + 1) }
  }

  /** What the fallback loop yields: skip empty and social candidates; canonicalise the next one
      (a raise propagates); take it when the result is non-empty, else go on. */
  function FallbackPick(urls: seq<string>, social: string -> bool, canon: string -> Result<string>): Result<Option<string>>
  {
    if urls == [] then Ok(None)
    else if urls[0] == "" || social(urls[0]) then FallbackPick(urls[1..], social, canon)
    else match canon(urls[0])
      case Err(e) => Err(e)
      case Ok(c) => if c != "" then Ok(Some(c)) else FallbackPick(urls[1..], social, canon)
  }

  /** The fallback takes the first non-empty non-social candidate whenever canonical forms are
      never empty, as `canonicalize_url`'s are. */
  lemma {:induction false} FallbackPicksFirstNonSocial(urls: seq<string>, social: string -> bool, canon: string -> Result<string>)
    requires forall u :: canon(u).Ok? ==> canon(u).value != ""
    ensures FirstNonSocial(urls, social).None? ==> FallbackPick(urls, social, canon) == Ok(None)
    ensures FirstNonSocial(urls, social).Some? ==>
      FallbackPick(urls, social, canon) ==
        (match canon(urls[FirstNonSocial(urls, social).value]) case Ok(c) => Ok(Some(c)) case Err(e) => Err(e))
  {
    if urls != [] && (urls[0] == "" || social(urls[0])) {
      FallbackPicksFirstNonSocial(urls[1..], social, canon);
    }
  }

  /** A canonical URL is never empty: it starts with its scheme and ':'. */
  lemma CanonicalNotEmpty(u: string)
    ensures Canonical.CanonicalizeUrl(u).Ok? ==> Canonical.CanonicalizeUrl(u).value != ""
  {
    if Canonical.CanonicalizeUrl(u).Ok? {
      var pre := Canonical.CanonicalScheme(Parse(u).value.scheme) + ":";
      assert |pre| >= 1;
    }
  }

  /** The official site of a name-only request: a non-empty, non-social model pick canonicalised
      (a raise propagates), else the fallback pick over the candidates. */
  method PickOfficialSite(llmPick: string, urls: seq<string>, social: string -> bool, canon: string -> Result<string>)
    returns (r: Result<Option<string>>)
    ensures llmPick != "" && !social(llmPick) ==>
      r == (match canon(llmPick) case Ok(c) => Ok(Some(c)) case Err(e) => Err(e))
    ensures !(llmPick != "" && !social(llmPick)) ==> r == FallbackPick(urls, social, canon)
  {
    if llmPick != "" && !social(llmPick) {
      var c := canon(llmPick);
      if c.Err? {
        return Err(c.error);
      }
      return Ok(Some(c.value));
    }
    var i := 0;
    while i < |urls|
      invariant 0 <= i <= |urls|
      invariant FallbackPick(urls, social, canon) == FallbackPick(urls[i..], social, canon)
    {
      assert urls[i..][1..] == urls[i + 1..];
      var u := urls[i];
      if u == "" || social(u) {
        i := i + 1;
        continue;
      }
      var c := canon(u);
      if c.Err? {
        return Err(c.error);
      }
      if c.value != "" {
        return Ok(Some(c.value));
      }
      i := i + 1;
    }
    return Ok(None);
  }

  // ---------------------------------------------------------------------------
  // Freshness, new tools and aliases

  /** The freshness window, in seconds. */
  const SixHours: int := 6 * 60 * 60

  /** A latest version created at `createdAt` is still fresh at `now`. */
  predicate Fresh(now: int, createdAt: int) { now - createdAt < SixHours }

  /** The freshness gate skips only a version younger than six hours, and only without `force`. */
  lemma FreshnessWindow(now: int, createdAt: int)
    ensures Fresh(now, createdAt) <==> createdAt > now - 21600
  {
  }

  /** A new tool may be created only with a canonical URL or a plausible name. */
  predicate MayCreate(canonical: Option<string>, name: Option<string>)
  {
    (canonical.Some? && canonical.value != "") || (name.Some? && name.value != "" && Validators.IsPlausibleProductName(name.value))
  }

  /** The name given to a new tool: the request's name, else its canonical URL, else "unknown". */
  function NewToolName(name: Option<string>, canonical: Option<string>): (n: string)
    ensures name.Some? && name.value != "" ==> n == name.value
    ensures (name.None? || name.value == "") && canonical.Some? && canonical.value != "" ==> n == canonical.value
    ensures MayCreate(canonical, name) ==> n != ""
    ensures MayCreate(canonical, name) && (canonical.None? || canonical.value == "") ==>
      n == name.value && Validators.IsPlausibleProductName(n)
  {
    if name.Some? && name.value != "" then name.value
    else if canonical.Some? && canonical.value != "" then canonical.value
    else "unknown"
  }

  /** An alias row before it is attached to a tool: (value, kind, confidence). */
  datatype AliasSeed = AliasSeed(value: string, kind: string, confidence: real)

  /** The aliases seeded for a new tool: its lower-cased name, then `host` (the lower-cased host
      of its canonical URL, "" when there is none), each only when non-empty. */
  function SeedAliases(name: Option<string>, host: string): (r: seq<AliasSeed>)
    ensures |r| <= 2
    ensures name.Some? && name.value != "" ==> |r| >= 1 && r[0] == AliasSeed(Lower(name.value), "name", 0.9)
    ensures forall a :: a in r && a.kind == "name" ==> name.Some? && name.value != "" && a == AliasSeed(Lower(name.value), "name", 0.9)
    ensures forall a :: a in r && a.kind != "name" ==> a == AliasSeed(host, "domain", 0.95) && host != ""
    ensures host != "" ==> |r| >= 1 && r[|r| - 1] == AliasSeed(host, "domain", 0.95)
  {
    var byName := if name.Some? && name.value != "" then [AliasSeed(Lower(name.value), "name", 0.9)] else [];
    var byHost := if host != "" then [AliasSeed(host, "domain", 0.95)] else [];
    byName + byHost
  }

  /** The key looked up in `tool_aliases`: the lower-cased canonical URL, else the lower-cased name. */
  function AliasKey(canonical: Option<string>, name: Option<string>): string
  {
    var k := Lower(canonical.GetOr(""));
    if k != "" then k else Lower(name.GetOr(""))
  }

  lemma HasCharAt(s: string, i: nat, c: char)
    requires i < |s| && s[i] == c
    ensures HasChar(s, c)
  {
  }

  /** A canonical URL always holds a ':' (after its scheme). */
  lemma CanonicalHasColon(u: string)
    ensures Canonical.CanonicalizeUrl(u).Ok? ==> HasChar(Canonical.CanonicalizeUrl(u).value, ':')
  {
    if Canonical.CanonicalizeUrl(u).Ok? {
      var c := Canonical.CanonicalizeUrl(u).value;
      var pre := Canonical.CanonicalScheme(Parse(u).value.scheme) + ":";
      assert StartsWith(c, pre);
      assert c[..|pre|] == pre;
      assert pre[|pre| - 1] == ':';
      assert c[|pre| - 1] == c[..|pre|][|pre| - 1];
      HasCharAt(c, |pre| - 1, ':');
    }
  }

  /** The lookup key of a request with a canonical URL is that whole URL, while a domain alias
      holds only a host: a host without ':' (anything but an IPv6 literal) never equals the key,
      so domain aliases are never found by this lookup. */
  lemma DomainAliasNeverMatchesUrlKey(canonical: string, name: Option<string>, host: string)
    requires HasChar(canonical, ':')
    requires !HasChar(host, ':')
    ensures Lower(host) != AliasKey(Some(canonical), name)
  {
    var i := IndexOf(canonical, ':');
    var k := Lower(canonical);
    var lh := Lower(host);
    assert k[i] == ':';
    assert forall j :: 0 <= j < |lh| ==> lh[j] != ':';
    assert AliasKey(Some(canonical), name) == k;
  }
}
