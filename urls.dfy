/** The parts of Python's `urllib.parse` the backend relies on: `urlsplit`/`urlparse`
    (components, `hostname`), `parse_qsl`/`parse_qs`, `urlencode` and `urlunparse`.
    Percent-decoding and percent-encoding are not modelled: query keys and values are
    carried as written. */
module Urls {
  import opened Wrappers
  import opened Strings

  /** urllib's `ParseResult`: the six components of a URL. */
  datatype UrlParts = UrlParts(scheme: string, netloc: string, path: string, params: string, query: string, fragment: string)

  predicate IsSchemeChar(c: char) { IsAsciiLetter(c) || IsAsciiDigit(c) || c == '+' || c == '-' || c == '.' }

  /** Schemes for which `urlparse` splits `;params` off the last path segment. */
  const UsesParams: set<string> := {"", "ftp", "hdl", "prospero", "http", "imap", "https", "shttp", "rtsp", "rtspu", "sip", "sips", "mms", "sftp", "tel"}

  /** Schemes for which `urlunsplit` writes `//` even when the network location is empty. */
  const UsesNetloc: set<string> := {"", "ftp", "http", "gopher", "nntp", "telnet", "imap", "wais", "file", "mms", "https", "shttp", "snews", "prospero", "rtsp", "rtspu", "rsync", "svn", "svn+ssh", "sftp", "nfs", "git", "git+ssh", "ws", "wss"}

  /** Characters `urlsplit` deletes wherever they occur. */
  const UnsafeChars: set<char> := {'\t', '\r', '\n'}

  function RemoveChars(s: string, cs: set<char>): (r: string)
    ensures |r| <= |s|
    ensures forall i :: 0 <= i < |r| ==> r[i] !in cs
  {
    if s == [] then [] else (if s[0] in cs then [] else [s[0]]) + RemoveChars(s[1..], cs)
  }

  /** Leading C0 controls and spaces are stripped before splitting. */
  function LStripControl(s: string): string
  {
    if |s| > 0 && s[0] <= ' ' then LStripControl(s[1..]) else s
  }

  /** Index of the first character of `s` that is in `cs`, or `|s|`. */
  function FirstIn(s: string, cs: set<char>): (i: nat)
    ensures i <= |s|
    ensures i < |s| ==> s[i] in cs
    ensures forall j :: 0 <= j < i ==> s[j] !in cs
  {
    if |s| == 0 then 0 else if s[0] in cs then 0 else 1 + FirstIn(s[1..], cs)
  }

  /** Index of the last `c` in `s`, or -1. */
  function LastIndexOf(s: string, c: char): (i: int)
    ensures -1 <= i < |s|
    ensures i >= 0 ==> s[i] == c
    ensures forall j :: i < j < |s| ==> s[j] != c
  {
    if |s| == 0 then -1 else if s[|s| - 1] == c then |s| - 1 else LastIndexOf(s[..|s| - 1], c)
  }

  /** `s.split(c, 1)` when `c in s`, else `(s, "")`. */
  function SplitFirst(s: string, c: char): (string, string)
  {
    var i := IndexOf(s, c);
    if i < |s| then (s[..i], s[i + 1..]) else (s, "")
  }

  /** The scheme prefix, lower-cased, and the rest; no scheme unless a letter starts a run of scheme characters ended by ':'. */
  function SchemeSplit(url: string): (string, string)
  {
    var i := IndexOf(url, ':');
    if 0 < i < |url| && IsAsciiLetter(url[0]) && forall j | 0 <= j < i :: IsSchemeChar(url[j])
    then (Lower(url[..i]), url[i + 1..])
    else ("", url)
  }

  /** `urlparse`'s `_splitparams`: `;params` of the last path segment. */
  function SplitParams(path: string): (string, string)
  {
    var slash := LastIndexOf(path, '/');
    var start := if slash < 0 then 0 else slash;
    var i := start + IndexOf(path[start..], ';');
    if i < |path| then (path[..i], path[i + 1..]) else (path, "")
  }

  predicate HasChar(s: string, c: char) { IndexOf(s, c) < |s| }

  /** The network location after a leading "//", up to the first '/', '?' or '#', and what follows it. */
  function NetlocSplit(rest: string): (r: (string, string))
    ensures r.0 + r.1 == rest || (StartsWith(rest, "//") && "//" + r.0 + r.1 == rest)
  {
    if StartsWith(rest, "//") then
      var d := 2 + FirstIn(rest[2..], {'/', '?', '#'});
      (rest[2..d], rest[d..])
    else ("", rest)
  }

  /** Path, params, query and fragment of what follows the network location. */
  function TailSplit(scheme: string, rest: string): (string, string, string, string)
  {
    var f := SplitFirst(rest, '#');
    var q := SplitFirst(f.0, '?');
    var pp := if scheme in UsesParams && HasChar(q.0, ';') then SplitParams(q.0) else (q.0, "");
    (pp.0, pp.1, q.1, f.1)
  }

  /** `urlparse(url)`; `Err` is the ValueError raised for an unbalanced `[`/`]` in the network location. */
  function Parse(url0: string): Result<UrlParts>
  {
    var url := RemoveChars(LStripControl(url0), UnsafeChars);
    var sch := SchemeSplit(url);
    var nl := NetlocSplit(sch.1);
    if HasChar(nl.0, '[') != HasChar(nl.0, ']') then Err("Invalid IPv6 URL")
    else
      var t := TailSplit(sch.0, nl.1);
      Ok(UrlParts(sch.0, nl.0, t.0, t.1, t.2, t.3))
  }

  /** `ParseResult.hostname`: the host between any `user@` and `:port`, lower-cased up to a `%` zone; `None` when empty. */
  function Hostname(p: UrlParts): (h: Option<string>)
    ensures h.Some? ==> h.value != []
  {
    var at := LastIndexOf(p.netloc, '@');
    var hostinfo := p.netloc[at + 1..];
    var b := IndexOf(hostinfo, '[');
    var name :=
      if b < |hostinfo| then
        var br := hostinfo[b + 1..];
        br[..IndexOf(br, ']')]
      else hostinfo[..IndexOf(hostinfo, ':')];
    if name == [] then None
    else
      var z := IndexOf(name, '%');
      Some(Lower(name[..z]) + name[z..])
  }

  /** `(urlparse(u).hostname or "").lower()`, with a parse error read as "". */
  function HostOf(u: string): (h: string)
    ensures h == Lower(h)
  {
    LowerIdempotentAll();
    match Parse(u)
    case Err(_) => ""
    case Ok(p) => Lower(Hostname(p).GetOr(""))
  }

  lemma LowerIdempotentAll()
    ensures forall s: string {:trigger Lower(Lower(s))} :: Lower(Lower(s)) == Lower(s)
  {
    forall s: string ensures Lower(Lower(s)) == Lower(s) { LowerIdempotent(s); }
  }

  // ---------------------------------------------------------------------------
  // Query strings

  /** `parse_qsl` on the pieces of a query split at '&': empty pieces skipped, a piece
      without '=' kept as `(piece, "")` only when blanks are kept, blank values likewise. */
  function PairsOf(pieces: seq<string>, keepBlank: bool): seq<(string, string)>
  {
    if pieces == [] then [] else
      var piece := pieces[0];
      var rest := PairsOf(pieces[1..], keepBlank);
      if piece == [] then rest
      else
        var eq := IndexOf(piece, '=');
        if eq == |piece| then (if keepBlank then [(piece, "")] + rest else rest)
        else
          var v := piece[eq + 1..];
          if |v| > 0 || keepBlank then [(piece[..eq], v)] + rest else rest
  }

  /** `parse_qsl(q, keep_blank_values=keepBlank)`. */
  function QueryPairs(q: string, keepBlank: bool): seq<(string, string)>
  {
    if q == [] then [] else PairsOf(SplitOn(q, '&'), keepBlank)
  }

  /** `parse_qs(q).get(name, [""])[0]`: the first non-blank value of `name`, or "". */
  function FirstValue(pairs: seq<(string, string)>, name: string): string
  {
    if pairs == [] then "" else if pairs[0].0 == name then pairs[0].1 else FirstValue(pairs[1..], name)
  }

  /** `urlencode(pairs, doseq=True)` without quoting. */
  function EncodeQuery(pairs: seq<(string, string)>): string
  {
    Join("&", seq(|pairs|, i requires 0 <= i < |pairs| => EncodePair(pairs[i])))
  }

  /** Pairs as `parse_qsl` produces them: keys free of '&' and '=', values free of '&'. */
  predicate WellFormedPairs(ps: seq<(string, string)>)
  {
    forall i :: 0 <= i < |ps| ==> NoChar(ps[i].0, '&') && NoChar(ps[i].0, '=') && NoChar(ps[i].1, '&')
  }

  lemma {:induction false} PairsOfWellFormed(pieces: seq<string>, keepBlank: bool)
    requires forall k :: 0 <= k < |pieces| ==> NoChar(pieces[k], '&')
    ensures WellFormedPairs(PairsOf(pieces, keepBlank))
  {
    if pieces != [] {
      PairsOfWellFormed(pieces[1..], keepBlank);
    }
  }

  /** Whatever `parse_qsl` returns is well formed. */
  lemma QueryPairsWellFormed(q: string, keepBlank: bool)
    ensures WellFormedPairs(QueryPairs(q, keepBlank))
  {
    if q != [] {
      SplitOnPieces(q, '&');
      PairsOfWellFormed(SplitOn(q, '&'), keepBlank);
    }
  }

  function EncodePair(kv: (string, string)): string { kv.0 + "=" + kv.1 }

  lemma {:induction false} PairsOfEncoded(ps: seq<(string, string)>)
    requires WellFormedPairs(ps)
    ensures PairsOf(seq(|ps|, i requires 0 <= i < |ps| => EncodePair(ps[i])), true) == ps
  {
    var items := seq(|ps|, i requires 0 <= i < |ps| => EncodePair(ps[i]));
    if ps != [] {
      var piece := items[0];
      assert piece == ps[0].0 + "=" + ps[0].1;
      IndexOfAfter(ps[0].0, '=', ps[0].1);
      assert piece == ps[0].0 + ['='] + ps[0].1;
      assert piece[..|ps[0].0|] == ps[0].0;
      assert piece[|ps[0].0| + 1..] == ps[0].1;
      assert items[1..] == seq(|ps[1..]|, i requires 0 <= i < |ps[1..]| => EncodePair(ps[1..][i]));
      PairsOfEncoded(ps[1..]);
    }
  }

  /** `parse_qsl(urlencode(pairs), keep_blank_values=True)` gives back the pairs, in order. */
  lemma EncodeQueryRoundTrip(ps: seq<(string, string)>)
    requires WellFormedPairs(ps)
    ensures QueryPairs(EncodeQuery(ps), true) == ps
  {
    var items := seq(|ps|, i requires 0 <= i < |ps| => EncodePair(ps[i]));
    assert EncodeQuery(ps) == Join("&", items);
    if ps != [] {
      forall k | 0 <= k < |items| ensures NoChar(items[k], '&') {
        assert items[k] == ps[k].0 + "=" + ps[k].1;
      }
      SplitOnJoin(items, '&');
      JoinHoldsFirst(items);
      PairsOfEncoded(ps);
    }
  }

  lemma JoinHoldsFirst(items: seq<string>)
    requires |items| >= 1 && |items[0]| > 0
    ensures Join("&", items) != []
  {
  }

  /** A URL with a scheme is rendered starting with "scheme:". */
  lemma UnparseSchemePrefix(p: UrlParts)
    requires p.scheme != []
    ensures StartsWith(Unparse(p), p.scheme + ":")
  {
    var path := if p.params != [] then p.path + ";" + p.params else p.path;
    var withNet :=
      if p.netloc != [] || (p.scheme != [] && p.scheme in UsesNetloc && !StartsWith(path, "//")) then
        "//" + p.netloc + (if path != [] && path[0] != '/' then "/" + path else path)
      else path;
    var head := p.scheme + ":";
    var withScheme := head + withNet;
    var withQuery := if p.query != [] then withScheme + "?" + p.query else withScheme;
    var all := if p.fragment != [] then withQuery + "#" + p.fragment else withQuery;
    assert all == Unparse(p);
    assert all[..|head|] == head;
  }

  /** `urlunparse`: the inverse rendering of the six components. */
  function Unparse(p: UrlParts): string
  {
    var path := if p.params != [] then p.path + ";" + p.params else p.path;
    var withNet :=
      if p.netloc != [] || (p.scheme != [] && p.scheme in UsesNetloc && !StartsWith(path, "//")) then
        "//" + p.netloc + (if path != [] && path[0] != '/' then "/" + path else path)
      else path;
    var withScheme := if p.scheme != [] then p.scheme + ":" + withNet else withNet;
    var withQuery := if p.query != [] then withScheme + "?" + p.query else withScheme;
    if p.fragment != [] then withQuery + "#" + p.fragment else withQuery
  }

  // ---------------------------------------------------------------------------
  // Characters that parsing never lets into a component

  predicate PartsNoHash(p: UrlParts)
  {
    NoChar(p.scheme, '#') && NoChar(p.netloc, '#') && NoChar(p.path, '#') && NoChar(p.params, '#') && NoChar(p.query, '#')
  }

  lemma LowerNoChar(s: string, c: char)
    requires NoChar(s, c) && !IsAsciiUpper(c) && !IsAsciiLower(c)
    ensures NoChar(Lower(s), c)
  {
  }

  lemma SchemeSplitNoHash(url: string)
    ensures NoChar(SchemeSplit(url).0, '#')
  {
    var i := IndexOf(url, ':');
    if 0 < i < |url| && IsAsciiLetter(url[0]) && forall j | 0 <= j < i :: IsSchemeChar(url[j]) {
      assert NoChar(url[..i], '#');
      LowerNoChar(url[..i], '#');
    }
  }

  lemma SplitParamsNoChar(path: string, c: char)
    requires NoChar(path, c)
    ensures NoChar(SplitParams(path).0, c) && NoChar(SplitParams(path).1, c)
  {
  }

  lemma NetlocSplitNoHash(rest: string)
    ensures NoChar(NetlocSplit(rest).0, '#')
  {
    if StartsWith(rest, "//") {
      var d := 2 + FirstIn(rest[2..], {'/', '?', '#'});
      assert forall j :: 0 <= j < d - 2 ==> rest[2..][j] !in {'/', '?', '#'};
    }
  }

  lemma TailSplitNoHash(scheme: string, rest: string)
    ensures var t := TailSplit(scheme, rest); NoChar(t.0, '#') && NoChar(t.1, '#') && NoChar(t.2, '#')
  {
    var f := SplitFirst(rest, '#');
    assert NoChar(f.0, '#');
    var q := SplitFirst(f.0, '?');
    assert NoChar(q.0, '#') && NoChar(q.1, '#');
    SplitParamsNoChar(q.0, '#');
  }

  /** Every component `urlparse` returns, except the fragment, is free of '#'. */
  lemma ParsedNoHash(url: string)
    requires Parse(url).Ok?
    ensures PartsNoHash(Parse(url).value)
  {
    var u := RemoveChars(LStripControl(url), UnsafeChars);
    SchemeSplitNoHash(u);
    NetlocSplitNoHash(SchemeSplit(u).1);
    TailSplitNoHash(SchemeSplit(u).0, NetlocSplit(SchemeSplit(u).1).1);
  }

  lemma PairsOfNoChar(pieces: seq<string>, keepBlank: bool, c: char)
    requires forall k :: 0 <= k < |pieces| ==> NoChar(pieces[k], c)
    ensures forall i :: 0 <= i < |PairsOf(pieces, keepBlank)| ==>
      NoChar(PairsOf(pieces, keepBlank)[i].0, c) && NoChar(PairsOf(pieces, keepBlank)[i].1, c)
  {
    if pieces != [] {
      PairsOfNoChar(pieces[1..], keepBlank, c);
    }
  }

  lemma {:induction false} SplitOnNoChar(s: string, sep: char, c: char)
    requires NoChar(s, c)
    ensures forall k :: 0 <= k < |SplitOn(s, sep)| ==> NoChar(SplitOn(s, sep)[k], c)
    decreases |s|
  {
    var i := IndexOf(s, sep);
    if i < |s| {
      SplitOnNoChar(s[i + 1..], sep, c);
    }
  }

  lemma EncodeQueryNoChar(pairs: seq<(string, string)>, c: char)
    requires c != '=' && c != '&'
    requires forall i :: 0 <= i < |pairs| ==> NoChar(pairs[i].0, c) && NoChar(pairs[i].1, c)
    ensures NoChar(EncodeQuery(pairs), c)
  {
    var items := seq(|pairs|, i requires 0 <= i < |pairs| => EncodePair(pairs[i]));
    JoinNoChar("&", items, c);
  }

  // ---------------------------------------------------------------------------
  // Re-parsing "scheme://netloc path?query"

  /** A lower-case scheme as `urlsplit` recognises one. */
  predicate ValidScheme(s: string)
  {
    |s| > 0 && IsAsciiLetter(s[0]) && (forall j | 0 <= j < |s| :: IsSchemeChar(s[j])) && Lower(s) == s
  }

  /** Characters that never occur in a string. */
  predicate Avoids(s: string, cs: set<char>)
  {
    forall i | 0 <= i < |s| :: s[i] !in cs
  }

  /** Components that "scheme://netloc path?query" gives back unchanged when parsed again. */
  predicate AuthorityParts(scheme: string, netloc: string, path: string, query: string)
  {
    && ValidScheme(scheme)
    && netloc != [] && Avoids(netloc, {'/', '?', '#', '\t', '\r', '\n'})
    && HasChar(netloc, '[') == HasChar(netloc, ']')
    && (path == [] || path[0] == '/') && Avoids(path, {'?', '#', '\t', '\r', '\n'})
    && (scheme in UsesParams ==> SplitParams(path) == (path, ""))
    && Avoids(query, {'#', '\t', '\r', '\n'})
  }

  /** "scheme://netloc path", followed by "?query" when the query is non-empty. */
  function AuthorityUrl(scheme: string, netloc: string, path: string, query: string): string
  {
    var base := scheme + "://" + netloc + path;
    if query != [] then base + "?" + query else base
  }

  lemma RemoveCharsNone(s: string, cs: set<char>)
    requires Avoids(s, cs)
    ensures RemoveChars(s, cs) == s
  {
    if s != [] {
      RemoveCharsNone(s[1..], cs);
    }
  }

  lemma {:induction false} FirstInAt(a: string, b: string, cs: set<char>)
    requires Avoids(a, cs)
    requires b == [] || b[0] in cs
    ensures FirstIn(a + b, cs) == |a|
  {
    if b != [] {
      assert (a + b)[|a|] == b[0];
    }
  }

  lemma SchemeSplitAt(scheme: string, rest: string)
    requires ValidScheme(scheme)
    ensures SchemeSplit(scheme + ":" + rest) == (scheme, rest)
  {
    var t := scheme + ":" + rest;
    assert NoChar(scheme, ':');
    IndexOfAfter(scheme, ':', rest);
    assert t[..|scheme|] == scheme;
    assert t[|scheme| + 1..] == rest;
    assert forall j | 0 <= j < |scheme| :: IsSchemeChar(t[j]);
  }

  lemma NetlocSplitAt(netloc: string, tail: string)
    requires Avoids(netloc, {'/', '?', '#'})
    requires tail == [] || tail[0] in {'/', '?', '#'}
    ensures NetlocSplit("//" + netloc + tail) == (netloc, tail)
  {
    var rest := "//" + netloc + tail;
    assert rest[2..] == netloc + tail;
    FirstInAt(netloc, tail, {'/', '?', '#'});
    assert rest[2..2 + |netloc|] == netloc;
    assert rest[2 + |netloc|..] == tail;
  }

  lemma TailSplitAt(scheme: string, path: string, query: string)
    requires Avoids(path, {'?', '#'}) && Avoids(query, {'#'})
    requires scheme in UsesParams ==> SplitParams(path) == (path, "")
    ensures TailSplit(scheme, if query != [] then path + "?" + query else path) == (path, "", query, "")
  {
    var tail := if query != [] then path + "?" + query else path;
    assert NoChar(tail, '#');
    IndexOfAbsent(tail, '#');
    assert SplitFirst(tail, '#') == (tail, "");
    if query != [] {
      assert NoChar(path, '?');
      IndexOfAfter(path, '?', query);
      assert tail == path + ['?'] + query;
      assert tail[|path| + 1..] == query;
      assert tail[..|path|] == path;
      assert SplitFirst(tail, '?') == (path, query);
    } else {
      assert NoChar(path, '?');
      IndexOfAbsent(path, '?');
      assert SplitFirst(tail, '?') == (path, "");
    }
    if scheme in UsesParams && HasChar(path, ';') {
      assert SplitParams(path) == (path, "");
    }
  }

  /** Parsing "scheme://netloc path?query" yields exactly those components, with no
      parameters and no fragment. */
  lemma ReparseAuthority(scheme: string, netloc: string, path: string, query: string)
    requires AuthorityParts(scheme, netloc, path, query)
    ensures Parse(AuthorityUrl(scheme, netloc, path, query)) == Ok(UrlParts(scheme, netloc, path, "", query, ""))
  {
    var tail := if query != [] then path + "?" + query else path;
    var t := AuthorityUrl(scheme, netloc, path, query);
    assert t == scheme + ":" + ("//" + netloc + tail);
    assert Avoids(t, UnsafeChars);
    RemoveCharsNone(t, UnsafeChars);
    assert LStripControl(t) == t;
    SchemeSplitAt(scheme, "//" + netloc + tail);
    NetlocSplitAt(netloc, tail);
    TailSplitAt(scheme, path, query);
  }

  lemma LowerSchemeChars(s: string)
    requires |s| > 0 && IsAsciiLetter(s[0]) && forall j | 0 <= j < |s| :: IsSchemeChar(s[j])
    ensures ValidScheme(Lower(s))
  {
    LowerIdempotent(s);
  }

  /** The path left by `_splitparams` has no parameters of its own. */
  lemma SplitParamsSettled(path: string)
    ensures SplitParams(SplitParams(path).0) == (SplitParams(path).0, "")
  {
    var slash := LastIndexOf(path, '/');
    var start := if slash < 0 then 0 else slash;
    var i := start + IndexOf(path[start..], ';');
    if i < |path| {
      var head := path[..i];
      assert LastIndexOf(head, '/') == slash;
      assert NoChar(head[start..], ';');
      IndexOfAbsent(head[start..], ';');
    }
  }

  /** The path of a URL whose network location is not empty: empty or starting with '/',
      free of '?' and '#', and with no parameters left to split. */
  lemma ParsedPath(scheme: string, rest: string)
    requires rest == [] || rest[0] in {'/', '?', '#'}
    requires Avoids(rest, UnsafeChars)
    ensures var t := TailSplit(scheme, rest);
      && (t.0 == [] || t.0[0] == '/') && Avoids(t.0, {'?', '#', '\t', '\r', '\n'})
      && (scheme in UsesParams ==> SplitParams(t.0) == (t.0, ""))
      && Avoids(t.2, {'#', '\t', '\r', '\n'})
  {
    var f := SplitFirst(rest, '#');
    var q := SplitFirst(f.0, '?');
    assert Avoids(f.0, {'#', '\t', '\r', '\n'});
    assert Avoids(q.0, {'?', '#', '\t', '\r', '\n'});
    assert Avoids(q.1, {'#', '\t', '\r', '\n'});
    assert q.0 == [] || q.0[0] == '/';
    if scheme in UsesParams && HasChar(q.0, ';') {
      SplitParamsSettled(q.0);
      var slash := LastIndexOf(q.0, '/');
      assert slash >= 0;
    } else if scheme in UsesParams {
      var slash := LastIndexOf(q.0, '/');
      var start := if slash < 0 then 0 else slash;
      assert NoChar(q.0[start..], ';');
      IndexOfAbsent(q.0[start..], ';');
    }
  }

  lemma SchemeSplitParts(u: string)
    requires Avoids(u, UnsafeChars)
    ensures SchemeSplit(u).0 == [] || ValidScheme(SchemeSplit(u).0)
    ensures Avoids(SchemeSplit(u).1, UnsafeChars)
  {
    var i := IndexOf(u, ':');
    if 0 < i < |u| && IsAsciiLetter(u[0]) && forall j | 0 <= j < i :: IsSchemeChar(u[j]) {
      LowerSchemeChars(u[..i]);
    }
  }

  lemma NetlocSplitParts(rest: string)
    requires Avoids(rest, UnsafeChars)
    requires NetlocSplit(rest).0 != []
    ensures Avoids(NetlocSplit(rest).0, {'/', '?', '#', '\t', '\r', '\n'})
    ensures Avoids(NetlocSplit(rest).1, UnsafeChars)
    ensures NetlocSplit(rest).1 == [] || NetlocSplit(rest).1[0] in {'/', '?', '#'}
  {
    var d := 2 + FirstIn(rest[2..], {'/', '?', '#'});
    assert forall j | 2 <= j < d :: rest[2..][j - 2] == rest[j];
  }

  /** A parsed URL with a network location: its components, the scheme defaulted to
      "https", satisfy `AuthorityParts`. */
  lemma ParsedAuthority(url: string)
    requires Parse(url).Ok? && Parse(url).value.netloc != []
    ensures var p := Parse(url).value;
      AuthorityParts(if p.scheme == [] then "https" else p.scheme, p.netloc, p.path, p.query)
  {
    var u := RemoveChars(LStripControl(url), UnsafeChars);
    var sch := SchemeSplit(u);
    SchemeSplitParts(u);
    var nl := NetlocSplit(sch.1);
    NetlocSplitParts(sch.1);
    ParsedPath(sch.0, nl.1);
    var p := Parse(url).value;
    assert p == UrlParts(sch.0, nl.0, TailSplit(sch.0, nl.1).0, TailSplit(sch.0, nl.1).1,
                         TailSplit(sch.0, nl.1).2, TailSplit(sch.0, nl.1).3);
    assert ValidScheme("https") by { assert "https" == Lower("https"); }
    assert "" in UsesParams && "https" in UsesParams;
  }
}
