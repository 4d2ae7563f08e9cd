/** Python string primitives used by the backend, on `seq<char>`:
    `lower`, `strip`, `split()`, `split(sep)`, `splitlines`, `join`, `in` and slicing.
    Case folding and the whitespace classes are the ASCII ones. */
module Strings {
  import opened Wrappers

  /** What `str.isspace` accepts among ASCII characters, which `split()`, `strip()` and `\s` use. */
  const Whitespace: set<char> := {' ', '\t', '\n', '\r', '\U{0B}', '\U{0C}', '\U{1C}', '\U{1D}', '\U{1E}', '\U{1F}'}

  /** The line boundaries `str.splitlines` recognises (`\r\n` counts as one). */
  const LineBreaks: set<char> := {'\n', '\r', '\U{0B}', '\U{0C}', '\U{1C}', '\U{1D}', '\U{1E}', '\U{85}', '\U{2028}', '\U{2029}'}

  predicate IsSpace(c: char) { c in Whitespace }
  predicate IsAsciiUpper(c: char) { 'A' <= c <= 'Z' }
  predicate IsAsciiLower(c: char) { 'a' <= c <= 'z' }
  predicate IsAsciiLetter(c: char) { IsAsciiUpper(c) || IsAsciiLower(c) }
  predicate IsAsciiDigit(c: char) { '0' <= c <= '9' }

  function ToLower(c: char): char { if IsAsciiUpper(c) then (c as int + 32) as char else c }
  function ToUpper(c: char): char { if IsAsciiLower(c) then (c as int - 32) as char else c }

  function Lower(s: string): (r: string)
    ensures |r| == |s|
    ensures forall i :: 0 <= i < |s| ==> r[i] == ToLower(s[i])
  {
    seq(|s|, i requires 0 <= i < |s| => ToLower(s[i]))
  }

  lemma LowerIdempotent(s: string)
    ensures Lower(Lower(s)) == Lower(s)
  {
  }

  // ---------------------------------------------------------------------------
  // Prefixes, suffixes, substrings

  predicate StartsWith(s: string, p: string) { |p| <= |s| && s[..|p|] == p }
  predicate EndsWith(s: string, p: string) { |p| <= |s| && s[|s| - |p|..] == p }

  /** Python's `sub in s`. */
  predicate Contains(s: string, sub: string) {
    exists i | 0 <= i <= |s| - |sub| :: StartsWith(s[i..], sub)
  }

  /** Python's `any(p in s for p in subs)`. */
  predicate ContainsAny(s: string, subs: seq<string>) {
    exists k | 0 <= k < |subs| :: Contains(s, subs[k])
  }

  /** Python's `s[:n]` for `n >= 0`. */
  function Take(s: string, n: nat): (r: string)
    ensures |r| == Min(|s|, n) && r == s[..|r|]
  {
    if |s| <= n then s else s[..n]
  }

  /** Index of the first `c` in `s`, or `|s|` when there is none. */
  function IndexOf(s: string, c: char): (i: nat)
    ensures i <= |s|
    ensures i < |s| ==> s[i] == c
    ensures forall j :: 0 <= j < i ==> s[j] != c
  {
    if |s| == 0 then 0 else if s[0] == c then 0 else 1 + IndexOf(s[1..], c)
  }

  // ---------------------------------------------------------------------------
  // strip

  function LStripSet(s: string, cs: set<char>): (r: string)
    ensures |r| <= |s|
    ensures r == [] || r[0] !in cs
  {
    if |s| > 0 && s[0] in cs then LStripSet(s[1..], cs) else s
  }

  lemma LStripSuffix(s: string, cs: set<char>)
    ensures var r := LStripSet(s, cs); r == s[|s| - |r|..]
  {
    if |s| > 0 && s[0] in cs {
      LStripSuffix(s[1..], cs);
    }
  }

  function RStripSet(s: string, cs: set<char>): (r: string)
    ensures |r| <= |s| && r == s[..|r|]
    ensures r == [] || r[|r| - 1] !in cs
  {
    if |s| > 0 && s[|s| - 1] in cs then RStripSet(s[..|s| - 1], cs) else s
  }

  /** Python's `s.strip(chars)`. */
  function StripSet(s: string, cs: set<char>): string { RStripSet(LStripSet(s, cs), cs) }

  /** Python's `s.strip()`. */
  function Strip(s: string): string { StripSet(s, Whitespace) }

  lemma StripSetEnds(s: string, cs: set<char>)
    ensures var r := StripSet(s, cs); r == [] || (r[0] !in cs && r[|r| - 1] !in cs)
  {
  }

  lemma LowerKeepsSpace(c: char)
    ensures IsSpace(ToLower(c)) <==> IsSpace(c)
  {
  }

  lemma {:induction false} LowerLStrip(s: string)
    ensures LStripSet(Lower(s), Whitespace) == Lower(LStripSet(s, Whitespace))
    decreases |s|
  {
    if |s| > 0 {
      LowerKeepsSpace(s[0]);
      assert Lower(s)[1..] == Lower(s[1..]);
      LowerLStrip(s[1..]);
    }
  }

  lemma {:induction false} LowerRStrip(s: string)
    ensures RStripSet(Lower(s), Whitespace) == Lower(RStripSet(s, Whitespace))
    decreases |s|
  {
    if |s| > 0 {
      LowerKeepsSpace(s[|s| - 1]);
      assert Lower(s)[..|s| - 1] == Lower(s[..|s| - 1]);
      LowerRStrip(s[..|s| - 1]);
    }
  }

  /** Lower-casing and stripping whitespace commute. */
  lemma LowerStripCommute(s: string)
    ensures Strip(Lower(s)) == Lower(Strip(s))
  {
    LowerLStrip(s);
    LowerRStrip(LStripSet(s, Whitespace));
  }

  // ---------------------------------------------------------------------------
  // split() and join

  /** A token of `split()`: non-empty, no whitespace. */
  predicate IsWord(w: string) { |w| > 0 && forall i :: 0 <= i < |w| ==> !IsSpace(w[i]) }

  /** The longest prefix of `s` without whitespace. */
  function WordPrefix(s: string): (w: string)
    ensures |w| <= |s| && w == s[..|w|]
    ensures forall i :: 0 <= i < |w| ==> !IsSpace(w[i])
    ensures |w| == |s| || IsSpace(s[|w|])
    ensures |s| > 0 && !IsSpace(s[0]) ==> |w| > 0
  {
    if |s| == 0 || IsSpace(s[0]) then [] else [s[0]] + WordPrefix(s[1..])
  }

  /** Python's `s.split()`: the maximal runs of non-whitespace, in order. */
  function SplitWs(s: string): (ws: seq<string>)
    ensures forall k :: 0 <= k < |ws| ==> IsWord(ws[k])
    decreases |s|
  {
    var t := LStripSet(s, Whitespace);
    if t == [] then [] else
      var w := WordPrefix(t);
      [w] + SplitWs(t[|w|..])
  }

  /** Python's `sep.join(parts)`. */
  function Join(sep: string, parts: seq<string>): string
  {
    if |parts| == 0 then [] else if |parts| == 1 then parts[0] else parts[0] + sep + Join(sep, parts[1..])
  }

  /** `" ".join(s.split())`: runs of whitespace become one space, both ends trimmed. */
  function CollapseWs(s: string): string { Join(" ", SplitWs(s)) }

  lemma {:induction false} WordPrefixOfWord(w: string, tail: string)
    requires forall i :: 0 <= i < |w| ==> !IsSpace(w[i])
    requires tail == [] || IsSpace(tail[0])
    ensures WordPrefix(w + tail) == w
  {
    if |w| > 0 {
      var s := w + tail;
      assert s[0] == w[0] && !IsSpace(s[0]);
      assert s[1..] == w[1..] + tail;
      WordPrefixOfWord(w[1..], tail);
      assert WordPrefix(s) == [w[0]] + WordPrefix(w[1..] + tail);
      assert [w[0]] + w[1..] == w;
    } else {
      assert w + tail == tail;
    }
  }

  lemma LStripLeadingSpace(s: string)
    ensures LStripSet(" " + s, Whitespace) == LStripSet(s, Whitespace)
  {
    assert (" " + s)[1..] == s;
  }

  /** Splitting a space-joined list of words gives the words back. */
  lemma {:induction false} SplitJoin(ws: seq<string>)
    requires forall k :: 0 <= k < |ws| ==> IsWord(ws[k])
    ensures SplitWs(Join(" ", ws)) == ws
    decreases |ws|
  {
    if |ws| == 0 {
    } else if |ws| == 1 {
      var w := ws[0];
      assert LStripSet(w, Whitespace) == w;
      WordPrefixOfWord(w, []);
      assert w + [] == w;
      assert w[|w|..] == [];
    } else {
      var w, rest := ws[0], Join(" ", ws[1..]);
      var j := w + " " + rest;
      assert Join(" ", ws) == j;
      assert LStripSet(j, Whitespace) == j;
      assert w + (" " + rest) == j;
      WordPrefixOfWord(w, " " + rest);
      assert j[|w|..] == " " + rest;
      LStripLeadingSpace(rest);
      SplitJoin(ws[1..]);
    }
  }

  /** Collapsing whitespace twice is collapsing it once. */
  lemma CollapseWsIdempotent(s: string)
    ensures CollapseWs(CollapseWs(s)) == CollapseWs(s)
    ensures SplitWs(CollapseWs(s)) == SplitWs(s)
  {
    SplitJoin(SplitWs(s));
  }

  /** A space-join of words neither starts nor ends with whitespace. */
  lemma {:induction false} JoinWordsTrimmed(ws: seq<string>)
    requires forall k :: 0 <= k < |ws| ==> IsWord(ws[k])
    ensures var r := Join(" ", ws); r == [] || (!IsSpace(r[0]) && !IsSpace(r[|r| - 1]))
    ensures |ws| > 0 ==> |Join(" ", ws)| > 0
  {
    if |ws| > 1 {
      JoinWordsTrimmed(ws[1..]);
    }
  }

  lemma CollapseWsTrimmed(s: string)
    ensures var r := CollapseWs(s); r == [] || (!IsSpace(r[0]) && !IsSpace(r[|r| - 1]))
  {
    JoinWordsTrimmed(SplitWs(s));
  }

  lemma LStripConcat(a: string, b: string)
    ensures LStripSet(a, Whitespace) != [] ==> LStripSet(a + b, Whitespace) == LStripSet(a, Whitespace) + b
    ensures LStripSet(a, Whitespace) == [] ==> LStripSet(a + b, Whitespace) == LStripSet(b, Whitespace)
  {
    if |a| > 0 {
      assert (a + b)[1..] == a[1..] + b;
      if a[0] in Whitespace {
        LStripConcat(a[1..], b);
      }
    } else {
      assert a + b == b;
    }
  }

  lemma WordPrefixConcat(t: string, b: string)
    requires |WordPrefix(t)| < |t|
    ensures WordPrefix(t + b) == WordPrefix(t)
  {
    if |t| > 0 && !IsSpace(t[0]) {
      assert (t + b)[1..] == t[1..] + b;
      WordPrefixConcat(t[1..], b);
    }
  }

  /** Extending a string never lowers its word count, so cutting one never raises it. */
  lemma {:induction false} SplitWsPrefixCount(a: string, b: string)
    ensures |SplitWs(a)| <= |SplitWs(a + b)|
    decreases |a|
  {
    var t := LStripSet(a, Whitespace);
    LStripConcat(a, b);
    if t != [] {
      var w := WordPrefix(t);
      assert LStripSet(a + b, Whitespace) == t + b;
      if |w| < |t| {
        WordPrefixConcat(t, b);
        assert (t + b)[|w|..] == t[|w|..] + b;
        SplitWsPrefixCount(t[|w|..], b);
      } else {
        assert SplitWs(a) == [w] + SplitWs(t[|w|..]);
        assert t[|w|..] == [];
      }
    }
  }

  lemma SplitWsTakeCount(s: string, n: nat)
    ensures |SplitWs(Take(s, n))| <= |SplitWs(s)|
  {
    if n < |s| {
      assert s == s[..n] + s[n..];
      SplitWsPrefixCount(s[..n], s[n..]);
    }
  }

  // ---------------------------------------------------------------------------
  // split(sep) and splitlines()

  /** Python's `s.split(c)` for a one-character separator: never empty. */
  function SplitOn(s: string, c: char): (parts: seq<string>)
    ensures |parts| >= 1
    decreases |s|
  {
    var i := IndexOf(s, c);
    if i == |s| then [s] else [s[..i]] + SplitOn(s[i + 1..], c)
  }

  predicate NoChar(s: string, c: char) { forall i :: 0 <= i < |s| ==> s[i] != c }

  /** Every piece of `s.split(c)` is free of `c`. */
  lemma {:induction false} SplitOnPieces(s: string, c: char)
    ensures forall k :: 0 <= k < |SplitOn(s, c)| ==> NoChar(SplitOn(s, c)[k], c)
    decreases |s|
  {
    var i := IndexOf(s, c);
    if i < |s| {
      SplitOnPieces(s[i + 1..], c);
    }
  }

  lemma IndexOfAbsent(s: string, c: char)
    requires NoChar(s, c)
    ensures IndexOf(s, c) == |s|
  {
  }

  lemma IndexOfAfter(a: string, c: char, b: string)
    requires NoChar(a, c)
    ensures IndexOf(a + [c] + b, c) == |a|
  {
    if |a| > 0 {
      assert (a + [c] + b)[1..] == a[1..] + [c] + b;
      IndexOfAfter(a[1..], c, b);
    }
  }

  /** A join of `c`-free parts with a `c`-free separator is `c`-free. */
  lemma JoinNoChar(sep: string, parts: seq<string>, c: char)
    requires NoChar(sep, c)
    requires forall k :: 0 <= k < |parts| ==> NoChar(parts[k], c)
    ensures NoChar(Join(sep, parts), c)
  {
    if |parts| > 1 {
      JoinNoChar(sep, parts[1..], c);
    }
  }

  /** The first piece of a split is everything before the first separator. */
  lemma SplitOnCons(a: string, c: char, b: string)
    requires NoChar(a, c)
    ensures SplitOn(a + [c] + b, c) == [a] + SplitOn(b, c)
  {
    var s := a + [c] + b;
    IndexOfAfter(a, c, b);
    assert s[..|a|] == a;
    assert s[|a| + 1..] == b;
  }

  /** Splitting at `c` undoes joining with `c` when no part holds `c`. */
  lemma {:induction false} SplitOnJoin(parts: seq<string>, c: char)
    requires |parts| >= 1
    requires forall k :: 0 <= k < |parts| ==> NoChar(parts[k], c)
    ensures SplitOn(Join([c], parts), c) == parts
    decreases |parts|
  {
    if |parts| == 1 {
      IndexOfAbsent(parts[0], c);
    } else {
      var rest := Join([c], parts[1..]);
      assert Join([c], parts) == parts[0] + [c] + rest;
      IndexOfAfter(parts[0], c, rest);
      var j := parts[0] + [c] + rest;
      assert j[..|parts[0]|] == parts[0];
      assert j[|parts[0]| + 1..] == rest;
      SplitOnJoin(parts[1..], c);
    }
  }

  /** Index of the first line boundary in `s`, or `|s|`. */
  function LineEnd(s: string): (i: nat)
    ensures i <= |s|
    ensures i < |s| ==> s[i] in LineBreaks
    ensures forall j :: 0 <= j < i ==> s[j] !in LineBreaks
  {
    if |s| == 0 then 0 else if s[0] in LineBreaks then 0 else 1 + LineEnd(s[1..])
  }

  /** Python's `s.splitlines()`: no trailing empty line, `\r\n` is one boundary. */
  function Splitlines(s: string): (lines: seq<string>)
    ensures forall k :: 0 <= k < |lines| ==> forall j :: 0 <= j < |lines[k]| ==> lines[k][j] !in LineBreaks
    decreases |s|
  {
    if s == [] then [] else
      var i := LineEnd(s);
      var skip := if i == |s| then 0 else if s[i] == '\r' && i + 1 < |s| && s[i + 1] == '\n' then 2 else 1;
      [s[..i]] + Splitlines(s[i + skip..])
  }

  // ---------------------------------------------------------------------------
  // Numbers

  function DigitChar(d: nat): char
    requires d < 16
  {
    "0123456789abcdef"[d]
  }

  /** Decimal rendering of a natural number, as `str(n)`. */
  function NatToString(n: nat): (r: string)
    ensures |r| > 0
  {
    if n < 10 then [DigitChar(n)] else NatToString(n / 10) + [DigitChar(n % 10)]
  }
}
