/** Product-name heuristics (backend/app/validators.py): the validator that keeps
    junk and model apologies from becoming tool names, and the fallback that digs a
    short candidate name out of OCR text. */
module Validators {
  import opened Wrappers
  import opened Strings

  // ---------------------------------------------------------------------------
  // is_plausible_product_name

  /** Apology and refusal phrases seen in OCR and model output, matched on the lower-cased name. */
  const ErrorPhrases: seq<string> := ["i'm sorry", "i cant assist", "i can't assist", "can't assist", "cannot assist"]

  /** Fragments that mark a URL rather than a name. */
  const UrlMarkers: seq<string> := ["http://", "https://", "www."]

  predicate IsWordChar(c: char) { IsAsciiLetter(c) || IsAsciiDigit(c) || c == '_' }

  /** A character matched by `[^\w\s\-&+.,]`. */
  predicate IsPunct(c: char) { !IsWordChar(c) && !IsSpace(c) && c !in {'-', '&', '+', '.', ','} }

  function PunctCount(s: string): (n: nat)
    ensures n <= |s|
    ensures n == 0 <==> forall i :: 0 <= i < |s| ==> !IsPunct(s[i])
  {
    if s == [] then 0 else (if IsPunct(s[0]) then 1 else 0) + PunctCount(s[1..])
  }

  predicate HasAsciiLetter(s: string) { exists i :: 0 <= i < |s| && IsAsciiLetter(s[i]) }

  /** `is_plausible_product_name`: every rejection rule, in the order the source applies them. */
  function IsPlausibleProductName(name: string): (ok: bool)
    ensures name == [] ==> !ok
    ensures |CollapseWs(name)| < 2 || |CollapseWs(name)| > 80 ==> !ok
    ensures ContainsAny(Lower(CollapseWs(name)), ErrorPhrases) ==> !ok
    ensures ContainsAny(Lower(CollapseWs(name)), UrlMarkers) ==> !ok
    ensures ok ==> HasAsciiLetter(CollapseWs(name))
    ensures ok ==> PunctCount(CollapseWs(name)) <= 4
    ensures ok ==> |SplitWs(name)| <= 12
    ensures ok <==> name != [] && 2 <= |CollapseWs(name)| <= 80
                    && !ContainsAny(Lower(CollapseWs(name)), ErrorPhrases)
                    && !ContainsAny(Lower(CollapseWs(name)), UrlMarkers)
                    && HasAsciiLetter(CollapseWs(name))
                    && PunctCount(CollapseWs(name)) <= 4
                    && |SplitWs(name)| <= 12
  {
    CollapseWsIdempotent(name);
    if name == [] then false
    else
      var s := CollapseWs(name);
      if |s| < 2 || |s| > 80 then false
      else
        var low := Lower(s);
        if ContainsAny(low, ErrorPhrases) then false
        else if ContainsAny(low, UrlMarkers) then false
        else if !HasAsciiLetter(s) then false
        else if PunctCount(s) > 4 then false
        else if |SplitWs(s)| > 12 then false
        else true
  }

  /** Whitespace layout does not matter: a name and its collapsed form are judged alike. */
  lemma PlausibleIgnoresLayout(name: string)
    ensures IsPlausibleProductName(CollapseWs(name)) == IsPlausibleProductName(name)
  {
    CollapseWsIdempotent(name);
    CollapseWsIdempotent(CollapseWs(name));
  }

  // ---------------------------------------------------------------------------
  // URL removal: re.sub(r"https?://\S+", "", line, flags=re.IGNORECASE)

  /** Length of a leading `http://` or `https://` in any letter case, or 0. */
  function SchemePrefixLen(s: string): (p: nat)
    ensures p == 0 || p == 7 || p == 8
    ensures p <= |s|
  {
    if |s| >= 8 && Lower(s[..8]) == "https://" then 8
    else if |s| >= 7 && Lower(s[..7]) == "http://" then 7
    else 0
  }

  /** The pattern matches at the start of `s`: the scheme prefix and at least one non-space character. */
  predicate UrlAt(s: string)
  {
    var p := SchemePrefixLen(s);
    p > 0 && p < |s| && !IsSpace(s[p])
  }

  /** Length of the match at the start of `s`: the prefix and the run of non-space characters after it. */
  function UrlLen(s: string): (n: nat)
    requires UrlAt(s)
    ensures SchemePrefixLen(s) < n <= |s|
    ensures n == |s| || IsSpace(s[n])
  {
    var p := SchemePrefixLen(s);
    p + |WordPrefix(s[p..])|
  }

  /** Every left-most match removed, scanning on after each match. */
  function RemoveUrls(s: string): (r: string)
    ensures |r| <= |s|
    decreases |s|
  {
    if s == [] then []
    else if UrlAt(s) then RemoveUrls(s[UrlLen(s)..])
    else [s[0]] + RemoveUrls(s[1..])
  }

  predicate NoUrl(s: string) { forall i :: 0 <= i < |s| ==> !UrlAt(s[i..]) }

  /** Where there is nothing to remove, nothing changes. */
  lemma {:induction false} RemoveUrlsNoop(s: string)
    requires NoUrl(s)
    ensures RemoveUrls(s) == s
    decreases |s|
  {
    if s != [] {
      assert !UrlAt(s[0..]);
      assert s[0..] == s;
      assert NoUrl(s[1..]) by {
        forall i | 0 <= i < |s[1..]| ensures !UrlAt(s[1..][i..]) {
          assert s[1..][i..] == s[i + 1..];
        }
      }
      RemoveUrlsNoop(s[1..]);
    }
  }

  lemma SpaceNoPrefix(s: string)
    requires |s| > 0 && IsSpace(s[0])
    ensures SchemePrefixLen(s) == 0
  {
    if |s| >= 8 {
      assert Lower(s[..8])[0] == ToLower(s[0]) == s[0];
    }
    if |s| >= 7 {
      assert Lower(s[..7])[0] == ToLower(s[0]) == s[0];
    }
  }

  /** Text starting with whitespace keeps that whitespace first. */
  lemma SpaceNoUrl(s: string)
    requires |s| > 0 && IsSpace(s[0])
    ensures !UrlAt(s)
    ensures RemoveUrls(s)[0] == s[0]
  {
    SpaceNoPrefix(s);
    assert RemoveUrls(s) == [s[0]] + RemoveUrls(s[1..]);
  }

  /** The pattern's match depends only on the characters it covers. */
  lemma UrlAtSamePrefix(x: string, y: string)
    requires UrlAt(x)
    requires SchemePrefixLen(x) < |y| && y[..SchemePrefixLen(x) + 1] == x[..SchemePrefixLen(x) + 1]
    ensures UrlAt(y)
  {
    var p := SchemePrefixLen(x);
    assert y[..8] == x[..8] by { assert y[..8] == y[..p + 1][..8]; assert x[..8] == x[..p + 1][..8]; }
    assert y[..7] == x[..7] by { assert y[..7] == y[..8][..7]; assert x[..7] == x[..8][..7]; }
    assert y[p] == y[..p + 1][p];
  }

  /** The characters of a match's scheme prefix are never whitespace. */
  lemma UrlPrefixNoSpace(s: string)
    requires UrlAt(s)
    ensures forall j :: 0 <= j <= SchemePrefixLen(s) ==> !IsSpace(s[j])
  {
    var p := SchemePrefixLen(s);
    var pat := if p == 8 then "https://" else "http://";
    assert Lower(s[..p]) == pat;
    forall j | 0 <= j < p ensures !IsSpace(s[j]) {
      assert Lower(s[..p])[j] == ToLower(s[j]);
    }
  }

  /** Up to the first whitespace, removal leaves the text as it was. */
  lemma {:induction false} RemoveUrlsKeepsPrefix(t: string, n: nat)
    requires n <= |RemoveUrls(t)|
    requires forall i :: 0 <= i < n ==> !IsSpace(RemoveUrls(t)[i])
    ensures n <= |t| && RemoveUrls(t)[..n] == t[..n]
    decreases |t|
  {
    if t == [] || n == 0 {
    } else if UrlAt(t) {
      var rest := t[UrlLen(t)..];
      if rest != [] {
        SpaceNoUrl(rest);
      }
      assert false;
    } else {
      var r := RemoveUrls(t);
      assert r == [t[0]] + RemoveUrls(t[1..]);
      assert forall i :: 0 <= i < n - 1 ==> RemoveUrls(t[1..])[i] == r[i + 1];
      RemoveUrlsKeepsPrefix(t[1..], n - 1);
      assert r[..n] == [t[0]] + RemoveUrls(t[1..])[..n - 1];
    }
  }

  /** Keeping a character that starts no match cannot make one start there. */
  lemma KeptHeadNoUrl(s: string)
    requires s != [] && !UrlAt(s)
    ensures !UrlAt([s[0]] + RemoveUrls(s[1..]))
  {
    var r := [s[0]] + RemoveUrls(s[1..]);
    if UrlAt(r) {
      var p := SchemePrefixLen(r);
      UrlPrefixNoSpace(r);
      assert forall i :: 0 <= i < p ==> RemoveUrls(s[1..])[i] == r[i + 1];
      RemoveUrlsKeepsPrefix(s[1..], p);
      assert r[..p + 1] == [s[0]] + RemoveUrls(s[1..])[..p];
      assert s[..p + 1] == [s[0]] + s[1..][..p];
      UrlAtSamePrefix(r, s);
      assert false;
    }
  }

  /** After removal no match is left anywhere. */
  lemma {:induction false} RemoveUrlsComplete(s: string)
    ensures NoUrl(RemoveUrls(s))
    decreases |s|
  {
    if s == [] {
    } else if UrlAt(s) {
      RemoveUrlsComplete(s[UrlLen(s)..]);
    } else {
      var tail := RemoveUrls(s[1..]);
      var r := [s[0]] + tail;
      assert RemoveUrls(s) == r;
      RemoveUrlsComplete(s[1..]);
      KeptHeadNoUrl(s);
      forall i | 0 <= i < |r| ensures !UrlAt(r[i..]) {
        if i > 0 {
          assert r[i..] == tail[i - 1..];
        } else {
          assert r[0..] == r;
        }
      }
    }
  }

  // ---------------------------------------------------------------------------
  // fallback_name_from_ocr

  /** Characters stripped from both ends of the candidate line: space, quotes and dashes. */
  const QuoteDash: set<char> := {' ', '\'', '"', '“', '”', '‘', '’', '–', '—', '-'}

  /** The first line whose stripped form is non-empty, stripped; "" when there is none. */
  function FirstNonBlank(lines: seq<string>): (line: string)
    ensures line != [] ==> exists k :: 0 <= k < |lines| && line == Strip(lines[k])
  {
    if lines == [] then []
    else if Strip(lines[0]) != [] then Strip(lines[0])
    else FirstNonBlank(lines[1..])
  }

  /** Cut to the first six words, then to 48 characters. */
  function Truncate(line: string): (r: string)
  {
    var words := SplitWs(line);
    var w := if |words| > 6 then Join(" ", words[..6]) else line;
    if |w| > 48 then w[..48] else w
  }

  /** The cleaning steps applied to the chosen line. */
  function CleanCandidate(line: string): (r: string)
  {
    Truncate(CollapseWs(StripSet(RemoveUrls(line), QuoteDash)))
  }

  /** The name `fallback_name_from_ocr` derives from `ocr`. */
  function FallbackName(ocr: string): (r: string)
  {
    var line := FirstNonBlank(Splitlines(ocr));
    if line == [] then [] else CleanCandidate(line)
  }

  /** The result is never longer than 48 characters nor more than six words. */
  lemma FallbackNameBounds(ocr: string)
    ensures |FallbackName(ocr)| <= 48
    ensures |SplitWs(FallbackName(ocr))| <= 6
  {
    var line := FirstNonBlank(Splitlines(ocr));
    if line != [] {
      TruncateBounds(StripSet(RemoveUrls(line), QuoteDash));
    }
  }

  /** Truncating a whitespace-collapsed text leaves at most six words in at most 48 characters. */
  lemma TruncateBounds(x: string)
    ensures |Truncate(CollapseWs(x))| <= 48
    ensures |SplitWs(Truncate(CollapseWs(x)))| <= 6
  {
    var c := CollapseWs(x);
    var words := SplitWs(c);
    var w := if |words| > 6 then Join(" ", words[..6]) else c;
    if |words| > 6 {
      SplitJoin(words[..6]);
    } else {
      CollapseWsIdempotent(x);
    }
    assert |SplitWs(w)| <= 6;
    SplitWsTakeCount(w, 48);
    assert Truncate(c) == Take(w, 48);
  }

  /** Blank input, or input with only blank lines, gives "". */
  lemma FallbackNameBlank(ocr: string)
    requires forall k :: 0 <= k < |Splitlines(ocr)| ==> Strip(Splitlines(ocr)[k]) == []
    ensures FallbackName(ocr) == []
  {
    BlankLines(Splitlines(ocr));
  }

  lemma {:induction false} BlankLines(lines: seq<string>)
    requires forall k :: 0 <= k < |lines| ==> Strip(lines[k]) == []
    ensures FirstNonBlank(lines) == []
  {
    if lines != [] {
      BlankLines(lines[1..]);
    }
  }

  /** Only the first non-blank line matters: whatever follows it is ignored. */
  lemma {:induction false} FirstNonBlankIgnoresRest(lines: seq<string>, more: seq<string>)
    requires FirstNonBlank(lines) != []
    ensures FirstNonBlank(lines + more) == FirstNonBlank(lines)
  {
    assert (lines + more)[0] == lines[0];
    if Strip(lines[0]) == [] {
      assert (lines + more)[1..] == lines[1..] + more;
      FirstNonBlankIgnoresRest(lines[1..], more);
    }
  }

  /** `fallback_name_from_ocr`: the line search with its early exit, then the cleaning steps. */
  method FallbackNameFromOcr(ocrText: string) returns (name: string)
    ensures name == FallbackName(ocrText)
    ensures ocrText == [] ==> name == []
  {
    if ocrText == [] {
      return "";
    }
    var lines := Splitlines(ocrText);
    var line := "";
    var i := 0;
    while i < |lines|
      invariant 0 <= i <= |lines|
      invariant line == []
      invariant FirstNonBlank(lines) == FirstNonBlank(lines[i..])
    {
      var s := Strip(lines[i]);
      if s != [] {
        line := s;
        break;
      }
      assert lines[i..][1..] == lines[i + 1..];
      i := i + 1;
    }
    assert line == FirstNonBlank(lines);
    if line == [] {
      return "";
    }
    line := RemoveUrls(line);
    line := StripSet(line, QuoteDash);
    line := CollapseWs(line);
    var words := SplitWs(line);
    if |words| > 6 {
      line := Join(" ", words[..6]);
    }
    if |line| > 48 {
      line := line[..48];
    }
    name := line;
  }
}
