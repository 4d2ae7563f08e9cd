/** The generic page fetcher (backend/app/scrape.py). The network and the HTML-to-text
    step are parameters; what is modelled is the retry bound, which body each attempt
    ends up using, the proxy target and the line cleaning of the extracted text. */
module Scrape {
  import opened Wrappers
  import opened Strings
  import opened Urls

  /** The retry decorator stops after this many attempts. */
  const MaxAttempts: nat := 3
  /** Cap on the cleaned text, in characters. */
  const TextCap: nat := 200000
  /** Prefix of the plain-text proxy used after a failed GET. */
  const ProxyPrefix: string := "https://r.jina.ai/"

  // ---------------------------------------------------------------------------
  // Line cleaning (lines 54-57)

  /** Every line with its whitespace collapsed, in order. */
  function Collapsed(lines: seq<string>): (c: seq<string>)
    ensures |c| == |lines| && forall j :: 0 <= j < |lines| ==> c[j] == CollapseWs(lines[j])
  {
    seq(|lines|, j requires 0 <= j < |lines| => CollapseWs(lines[j]))
  }

  /** Each line whitespace-collapsed, then lines shorter than 3 characters dropped. */
  function CleanLines(lines: seq<string>): (r: seq<string>)
    ensures |r| <= |lines|
    ensures forall k :: 0 <= k < |r| ==> |r[k]| >= 3 && r[k] in Collapsed(lines)
  {
    if lines == [] then []
    else
      var ln := CollapseWs(lines[0]);
      (if |ln| >= 3 then [ln] else []) + CleanLines(lines[1..])
  }

  /** The text `fetch_clean_text` returns for extracted page text `text`. */
  function CleanText(text: string): (r: string)
    ensures |r| <= TextCap
    ensures StartsWith(Join("\n", CleanLines(Splitlines(text))), r)
  {
    Take(Join("\n", CleanLines(Splitlines(text))), TextCap)
  }

  lemma CollapseWsNoNewline(s: string)
    ensures NoChar(CollapseWs(s), '\n')
  {
    var ws := SplitWs(s);
    forall k | 0 <= k < |ws| ensures NoChar(ws[k], '\n') {
      assert IsWord(ws[k]);
    }
    JoinNoChar(" ", ws, '\n');
  }

  /** Every kept line is collapsed: no line break, no leading or trailing whitespace, no double space. */
  lemma {:induction false} CleanLinesShape(lines: seq<string>)
    ensures forall k :: 0 <= k < |CleanLines(lines)| ==>
      NoChar(CleanLines(lines)[k], '\n') && CollapseWs(CleanLines(lines)[k]) == CleanLines(lines)[k]
  {
    if lines != [] {
      CollapseWsNoNewline(lines[0]);
      CollapseWsIdempotent(lines[0]);
      CleanLinesShape(lines[1..]);
    }
  }

  /** Below the cap, splitting the result at "\n" gives back exactly the kept lines. */
  lemma CleanTextLines(text: string)
    requires |Join("\n", CleanLines(Splitlines(text)))| <= TextCap
    requires CleanLines(Splitlines(text)) != []
    ensures SplitOn(CleanText(text), '\n') == CleanLines(Splitlines(text))
  {
    var kept := CleanLines(Splitlines(text));
    CleanLinesShape(Splitlines(text));
    SplitOnJoin(kept, '\n');
  }

  /** A line `CleanLines` keeps as it is: collapsed and at least three characters long. */
  predicate KeptAsIs(line: string)
  {
    |line| >= 3 && CollapseWs(line) == line
  }

  /** Lines that were already clean and long enough pass through unchanged. */
  lemma {:induction false} CleanLinesKeepsClean(lines: seq<string>)
    requires forall k :: 0 <= k < |lines| ==> KeptAsIs(lines[k])
    ensures CleanLines(lines) == lines
  {
    if lines != [] {
      var rest := lines[1..];
      assert forall k :: 0 <= k < |rest| ==> KeptAsIs(rest[k]) by {
        forall k | 0 <= k < |rest|
          ensures KeptAsIs(rest[k])
        {
          assert rest[k] == lines[k + 1];
        }
      }
      CleanLinesKeepsClean(rest);
      assert lines == [lines[0]] + rest;
      CleanLinesKeep(lines[0], rest);
    }
  }

  /** A line kept as it is heads the cleaned lines. */
  lemma CleanLinesKeep(line: string, rest: seq<string>)
    requires KeptAsIs(line)
    ensures CleanLines([line] + rest) == [line] + CleanLines(rest)
  {
    assert ([line] + rest)[1..] == rest;
  }

  // ---------------------------------------------------------------------------
  // Proxy target (lines 32-37)

  /** The proxy URL for `url`: scheme (or "https"), network location, path and query; the
      `;params` and the fragment are not carried over. `Err` when `urlparse` raises. */
  function ProxyTarget(url: string): (r: Result<string>)
    ensures r.Ok? <==> Parse(url).Ok?
    ensures r.Ok? ==> StartsWith(r.value, ProxyPrefix)
    ensures r.Ok? ==> NoChar(r.value, '#')
    ensures r.Ok? && Parse(url).value.netloc != [] ==>
      var p := Parse(url).value;
      |ProxyPrefix| <= |r.value| &&
      Parse(r.value[|ProxyPrefix|..]) == Ok(UrlParts(if p.scheme == [] then "https" else p.scheme, p.netloc, p.path, "", p.query, ""))
  {
    match Parse(url)
    case Err(e) => Err(e)
    case Ok(p) =>
      ParsedNoHash(url);
      ProxyTargetShape(p);
      ProxyTargetReparses(url);
      Ok(ProxyTargetOf(p))
  }

  /** What follows the proxy prefix parses back to the URL's scheme (or "https"), network
      location, path and query, with the parameters and the fragment gone. */
  lemma ProxyTargetReparses(url: string)
    requires Parse(url).Ok?
    ensures Parse(url).value.netloc != [] ==>
      var p := Parse(url).value;
      |ProxyPrefix| <= |ProxyTargetOf(p)| &&
      Parse(ProxyTargetOf(p)[|ProxyPrefix|..]) == Ok(UrlParts(if p.scheme == [] then "https" else p.scheme, p.netloc, p.path, "", p.query, ""))
  {
    var p := Parse(url).value;
    if p.netloc != [] {
      var scheme := if p.scheme == [] then "https" else p.scheme;
      ProxyTargetInner(p);
      ParsedAuthority(url);
      ReparseAuthority(scheme, p.netloc, p.path, p.query);
    }
  }

  lemma ProxyTargetInner(p: UrlParts)
    ensures var inner := AuthorityUrl(if p.scheme == [] then "https" else p.scheme, p.netloc, p.path, p.query);
      |ProxyPrefix| <= |ProxyTargetOf(p)| && ProxyTargetOf(p)[|ProxyPrefix|..] == inner
  {
    var scheme := if p.scheme == [] then "https" else p.scheme;
    var base := scheme + "://" + p.netloc + p.path;
    var inner := AuthorityUrl(scheme, p.netloc, p.path, p.query);
    assert ProxyPrefix + scheme + "://" + p.netloc + p.path == ProxyPrefix + base;
    if p.query != [] {
      assert ProxyTargetOf(p) == ProxyPrefix + base + "?" + p.query;
      assert ProxyPrefix + base + "?" + p.query == ProxyPrefix + (base + "?" + p.query);
    }
    assert ProxyTargetOf(p) == ProxyPrefix + inner;
    assert (ProxyPrefix + inner)[|ProxyPrefix|..] == inner;
  }

  function ProxyTargetOf(p: UrlParts): string
  {
    var scheme := if p.scheme == [] then "https" else p.scheme;
    var target := ProxyPrefix + scheme + "://" + p.netloc + p.path;
    if p.query != [] then target + "?" + p.query else target
  }

  lemma ProxyTargetShape(p: UrlParts)
    requires PartsNoHash(p)
    ensures StartsWith(ProxyTargetOf(p), ProxyPrefix)
    ensures NoChar(ProxyTargetOf(p), '#')
  {
    var scheme := if p.scheme == [] then "https" else p.scheme;
    var target := ProxyPrefix + (scheme + "://" + p.netloc + p.path);
    assert target == ProxyPrefix + scheme + "://" + p.netloc + p.path;
    assert target[..|ProxyPrefix|] == ProxyPrefix;
    var full := if p.query != [] then target + "?" + p.query else target;
    assert full[..|ProxyPrefix|] == ProxyPrefix;
  }

  // ---------------------------------------------------------------------------
  // One attempt and the retry loop

  /** What `client.get` gave: a response, or an exception. */
  datatype Get = Responded(status: int, text: string) | Raised

  /** `raise_for_status` lets only 2xx through. */
  predicate IsSuccess(g: Get) { g.Responded? && 200 <= g.status < 300 }

  /** The HTML one attempt goes on to parse, or `Err` when the attempt raises.
      After a failed primary GET the proxy is tried, but the body it fetches is then
      overwritten by the primary response's body; when the primary GET raised there is
      no response, and reading it raises. */
  function AttemptHtml(url: string, primary: Get, proxied: string -> Get): (r: Result<string>)
    ensures IsSuccess(primary) ==> r == Ok(primary.text)
    ensures r.Ok? ==> primary.Responded? && r.value == primary.text
    ensures !IsSuccess(primary) && r.Ok? ==> ProxyTarget(url).Ok? && IsSuccess(proxied(ProxyTarget(url).value))
  {
    if IsSuccess(primary) then Ok(primary.text)
    else
      match ProxyTarget(url)
      case Err(e) => Err(e)
      case Ok(target) =>
        if !IsSuccess(proxied(target)) then Err("fallback failed")
        else if primary.Raised? then Err("response unbound")
        else Ok(primary.text)
  }

  /** Index of the first successful attempt among the first `n`, or `n`. */
  function FirstSuccess(html: nat -> Result<string>, n: nat): (i: nat)
    ensures i <= n
    ensures i < n ==> html(i).Ok?
    ensures forall j :: 0 <= j < i ==> html(j).Err?
  {
    if n == 0 then 0
    else
      var i := FirstSuccess(html, n - 1);
      if i < n - 1 then i
      else if html(n - 1).Ok? then n - 1 else n
  }

  /** The HTML each attempt of `fetch_clean_text(url)` goes on to parse, attempt `i` seeing
      `primary(i)` for the GET and `proxied(i)` for the proxy. */
  function Attempts(url: string, primary: nat -> Get, proxied: nat -> string -> Get): nat -> Result<string>
  {
    (i: nat) => AttemptHtml(url, primary(i), proxied(i))
  }

  /** `fetch_clean_text` under its retry decorator: `html(i)` is what attempt `i` parses (see
      `Attempts`), `pageText` the HTML-to-text step. Returns the result and the number of
      attempts made. */
  method FetchCleanText(html: nat -> Result<string>, pageText: string -> string)
    returns (r: Result<string>, attempts: nat)
    ensures 1 <= attempts <= MaxAttempts
    ensures FirstSuccess(html, MaxAttempts) < MaxAttempts ==>
      attempts == FirstSuccess(html, MaxAttempts) + 1 && r == Ok(CleanText(pageText(html(attempts - 1).value)))
    ensures FirstSuccess(html, MaxAttempts) == MaxAttempts ==> attempts == MaxAttempts && r.Err?
    ensures r.Ok? ==> |r.value| <= TextCap
  {
    attempts := 0;
    while attempts < MaxAttempts
      invariant 0 <= attempts <= MaxAttempts
      invariant forall j :: 0 <= j < attempts ==> html(j).Err?
    {
      var h := html(attempts);
      if h.Ok? {
        FirstSuccessIs(html, MaxAttempts, attempts);
        r := Ok(CleanText(pageText(h.value)));
        attempts := attempts + 1;
        return;
      }
      attempts := attempts + 1;
    }
    FirstSuccessNone(html, MaxAttempts);
    r := Err("RetryError");
  }

  lemma {:induction false} FirstSuccessIs(html: nat -> Result<string>, n: nat, i: nat)
    requires i < n && html(i).Ok?
    requires forall j :: 0 <= j < i ==> html(j).Err?
    ensures FirstSuccess(html, n) == i
  {
    if i < n - 1 {
      FirstSuccessIs(html, n - 1, i);
    } else {
      FirstSuccessNone(html, n - 1);
    }
  }

  lemma {:induction false} FirstSuccessNone(html: nat -> Result<string>, n: nat)
    requires forall j :: 0 <= j < n ==> html(j).Err?
    ensures FirstSuccess(html, n) == n
  {
    if n > 0 {
      FirstSuccessNone(html, n - 1);
    }
  }

  /** The proxy's own body is never what gets parsed: whatever the proxy returns, the
      attempt's HTML is the primary response's body or the attempt fails. */
  lemma ProxyBodyNeverUsed(url: string, primary: Get, proxied: string -> Get, other: string -> Get)
    requires forall t :: IsSuccess(proxied(t)) == IsSuccess(other(t))
    ensures AttemptHtml(url, primary, proxied) == AttemptHtml(url, primary, other)
  {
  }
}
