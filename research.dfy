/** The non-model parts of research (backend/app/research.py): choosing claims to verify,
    ordering recent updates by the date they mention, and the guards and label mapping
    around the model calls. Every model call is a parameter `llm: prompt -> reply`, with
    `Err` for a call that raised; JSON decoding is a parameter `parse`, `None` when it fails. */
module Research {
  import opened Wrappers
  import opened Strings
  import opened Json

  // ---------------------------------------------------------------------------
  // pick_five_claims

  /** The first two entries of `one_pager["features"] or []` as strings, or `Err` when the
      value cannot be sliced (a non-empty object, a non-zero number, `true`). A string is
      sliced into its first two characters. */
  function FeatureItems(onePager: seq<(string, Json)>): (r: Result<seq<string>>)
    ensures r.Ok? ==> |r.value| <= 2
  {
    var f := Get(onePager, "features");
    if f.None? || !Truthy(f.value) then Ok([])
    else match f.value
      case JArr(items) => Ok(seq(Min(2, |items|), i requires 0 <= i < Min(2, |items|) => PyStr(items[i])))
      case JStr(s) => Ok(seq(Min(2, |s|), i requires 0 <= i < Min(2, |s|) => [s[i]]))
      case _ => Err("TypeError")
  }

  /** The first `(key, str(value))` of `one_pager["pricing"] or {}`, or `Err` when the value
      has no `items()`. */
  function PricingItems(onePager: seq<(string, Json)>): (r: Result<seq<(string, string)>>)
    ensures r.Ok? ==> |r.value| <= 1
  {
    var p := Get(onePager, "pricing");
    if p.None? || !Truthy(p.value) then Ok([])
    else match p.value
      case JObj(fields) => Ok(if fields == [] then [] else [(fields[0].0, PyStr(fields[0].1))])
      case _ => Err("AttributeError")
  }

  /** `pick_five_claims`: up to two feature claims, then at most one pricing claim. */
  method PickFiveClaims(onePager: seq<(string, Json)>) returns (r: Result<seq<string>>)
    ensures r.Ok? <==> FeatureItems(onePager).Ok? && PricingItems(onePager).Ok?
    ensures r.Ok? ==>
      var fs := FeatureItems(onePager).value;
      var ps := PricingItems(onePager).value;
      |r.value| == |fs| + |ps| <= 3
      && (forall i :: 0 <= i < |fs| ==> r.value[i] == "Feature: " + fs[i])
      && (forall i :: 0 <= i < |ps| ==> r.value[|fs| + i] == "Pricing " + ps[i].0 + ": " + ps[i].1)
  {
    var features := FeatureItems(onePager);
    if features.Err? {
      return Err(features.error);
    }
    var claims: seq<string> := [];
    var i := 0;
    while i < |features.value|
      invariant 0 <= i <= |features.value|
      invariant |claims| == i
      invariant forall j :: 0 <= j < i ==> claims[j] == "Feature: " + features.value[j]
    {
      claims := claims + ["Feature: " + features.value[i]];
      i := i + 1;
    }
    var pricing := PricingItems(onePager);
    if pricing.Err? {
      return Err(pricing.error);
    }
    var k := 0;
    while k < |pricing.value|
      invariant 0 <= k <= |pricing.value|
      invariant |claims| == |features.value| + k
      invariant forall j :: 0 <= j < |features.value| ==> claims[j] == "Feature: " + features.value[j]
      invariant forall j :: 0 <= j < k ==>
        claims[|features.value| + j] == "Pricing " + pricing.value[j].0 + ": " + pricing.value[j].1
    {
      claims := claims + ["Pricing " + pricing.value[k].0 + ": " + pricing.value[k].1];
      k := k + 1;
    }
    r := Ok(claims[..Min(3, |claims|)]);
  }

  // ---------------------------------------------------------------------------
  // normalize_and_sort_recent_updates

  predicate DigitsAt(s: string, i: nat, n: nat)
  {
    i + n <= |s| && forall j :: i <= j < i + n ==> IsAsciiDigit(s[j])
  }

  /** The value of the decimal digits `s[i..i+n]`. */
  function DigitsValue(s: string, i: nat, n: nat): (v: nat)
    requires DigitsAt(s, i, n)
    ensures n == 1 ==> v < 10
    ensures n == 2 ==> v < 100
    decreases n
  {
    if n == 0 then 0 else DigitsValue(s, i, n - 1) * 10 + (s[i + n - 1] as int - '0' as int)
  }

  /** The sort key of a (year, month, day) triple; months and days have two digits, so
      comparing keys compares the triples lexicographically. */
  function KeyOf(y: nat, mo: nat, d: nat): nat
    requires mo < 100 && d < 100
  {
    y * 10000 + mo * 100 + d
  }

  lemma KeyOrderIsLexicographic(y1: nat, m1: nat, d1: nat, y2: nat, m2: nat, d2: nat)
    requires m1 < 100 && d1 < 100 && m2 < 100 && d2 < 100
    ensures KeyOf(y1, m1, d1) < KeyOf(y2, m2, d2) <==>
      y1 < y2 || (y1 == y2 && m1 < m2) || (y1 == y2 && m1 == m2 && d1 < d2)
  {
  }

  /** `(\d{4})-(\d{2})(?:-(\d{2}))?` matches at `i`. */
  predicate DateAt(s: string, i: nat)
  {
    DigitsAt(s, i, 4) && i + 4 < |s| && s[i + 4] == '-' && DigitsAt(s, i + 5, 2)
  }

  /** The key of the match at `i`: the day defaults to 1 when the optional "-DD" is absent. */
  function DateKeyAt(s: string, i: nat): nat
    requires DateAt(s, i)
  {
    var y := DigitsValue(s, i, 4);
    var mo := DigitsValue(s, i + 5, 2);
    var d := if i + 7 < |s| && s[i + 7] == '-' && DigitsAt(s, i + 8, 2) then DigitsValue(s, i + 8, 2) else 1;
    KeyOf(y, mo, d)
  }

  /** Key of the left-most match at or after `i`, or 0 (the key of `(0, 0, 0)`) when there is none. */
  function DateKeyFrom(s: string, i: nat): (k: nat)
    decreases |s| - i
  {
    if i >= |s| then 0
    else if DateAt(s, i) then DateKeyAt(s, i)
    else DateKeyFrom(s, i + 1)
  }

  /** The sort key of an update: its first date, or 0 when it mentions none. */
  function DateKey(s: string): (k: int)
    ensures k >= 0
  {
    DateKeyFrom(s, 0)
  }

  predicate SortedDesc<T>(xs: seq<T>, key: T -> int)
  {
    forall i, j :: 0 <= i < j < |xs| ==> key(xs[i]) >= key(xs[j])
  }

  /** The elements whose key is `k`, in order. */
  function WithKey<T>(xs: seq<T>, key: T -> int, k: int): (r: seq<T>)
    ensures |r| <= |xs|
  {
    if xs == [] then [] else (if key(xs[0]) == k then [xs[0]] else []) + WithKey(xs[1..], key, k)
  }

  /** Place `x` after every element whose key is at least its own. */
  function InsertDesc<T>(x: T, xs: seq<T>, key: T -> int): (r: seq<T>)
    ensures multiset(r) == multiset(xs) + multiset{x}
    ensures |r| == |xs| + 1
  {
    if xs == [] then [x]
    else if key(xs[0]) >= key(x) then
      assert xs == [xs[0]] + xs[1..];
      [xs[0]] + InsertDesc(x, xs[1..], key)
    else [x] + xs
  }

  /** `sorted(xs, key=key, reverse=True)`: descending by key, equal keys in input order. */
  function SortDesc<T>(xs: seq<T>, key: T -> int): (r: seq<T>)
    ensures multiset(r) == multiset(xs)
    ensures |r| == |xs|
  {
    if xs == [] then []
    else
      assert xs == xs[..|xs| - 1] + [xs[|xs| - 1]];
      InsertDesc(xs[|xs| - 1], SortDesc(xs[..|xs| - 1], key), key)
  }

  lemma {:induction false} InsertDescSorted<T>(x: T, xs: seq<T>, key: T -> int)
    requires SortedDesc(xs, key)
    ensures SortedDesc(InsertDesc(x, xs, key), key)
  {
    if xs != [] && key(xs[0]) >= key(x) {
      InsertDescSorted(x, xs[1..], key);
      var r := InsertDesc(x, xs[1..], key);
      InsertDescBounded(x, xs[1..], key, key(xs[0]));
      assert InsertDesc(x, xs, key) == [xs[0]] + r;
    }
  }

  /** Inserting keeps every key below a bound that `x` and `xs` respect. */
  lemma {:induction false} InsertDescBounded<T>(x: T, xs: seq<T>, key: T -> int, b: int)
    requires key(x) <= b
    requires forall i :: 0 <= i < |xs| ==> key(xs[i]) <= b
    ensures forall i :: 0 <= i < |InsertDesc(x, xs, key)| ==> key(InsertDesc(x, xs, key)[i]) <= b
  {
    if xs != [] && key(xs[0]) >= key(x) {
      InsertDescBounded(x, xs[1..], key, b);
      assert InsertDesc(x, xs, key) == [xs[0]] + InsertDesc(x, xs[1..], key);
    }
  }

  lemma {:induction false} SortDescSorted<T>(xs: seq<T>, key: T -> int)
    ensures SortedDesc(SortDesc(xs, key), key)
  {
    if xs != [] {
      SortDescSorted(xs[..|xs| - 1], key);
      InsertDescSorted(xs[|xs| - 1], SortDesc(xs[..|xs| - 1], key), key);
    }
  }

  lemma {:induction false} WithKeyAppend<T>(a: seq<T>, b: seq<T>, key: T -> int, k: int)
    ensures WithKey(a + b, key, k) == WithKey(a, key, k) + WithKey(b, key, k)
  {
    if a == [] {
      assert a + b == b;
    } else {
      var h := if key(a[0]) == k then [a[0]] else [];
      assert (a + b)[0] == a[0];
      assert (a + b)[1..] == a[1..] + b;
      assert WithKey(a + b, key, k) == h + WithKey(a[1..] + b, key, k);
      WithKeyAppend(a[1..], b, key, k);
      assert WithKey(a, key, k) == h + WithKey(a[1..], key, k);
    }
  }

  lemma {:induction false} WithKeyNone<T>(xs: seq<T>, key: T -> int, k: int)
    requires forall i :: 0 <= i < |xs| ==> key(xs[i]) < k
    ensures WithKey(xs, key, k) == []
  {
    if xs != [] {
      WithKeyNone(xs[1..], key, k);
    }
  }

  /** Inserting into a sorted list puts `x` after the elements that share its key. */
  lemma {:induction false} InsertDescWithKey<T>(x: T, xs: seq<T>, key: T -> int, k: int)
    requires SortedDesc(xs, key)
    ensures WithKey(InsertDesc(x, xs, key), key, k) == WithKey(xs, key, k) + (if key(x) == k then [x] else [])
  {
    var tail := if key(x) == k then [x] else [];
    if xs == [] {
      assert WithKey([x], key, k) == tail + WithKey([x][1..], key, k);
    } else if key(xs[0]) >= key(x) {
      var h := if key(xs[0]) == k then [xs[0]] else [];
      var r := InsertDesc(x, xs[1..], key);
      InsertDescWithKey(x, xs[1..], key, k);
      assert ([xs[0]] + r)[1..] == r;
      calc {
        WithKey(InsertDesc(x, xs, key), key, k);
        WithKey([xs[0]] + r, key, k);
        h + WithKey(r, key, k);
        h + (WithKey(xs[1..], key, k) + tail);
        WithKey(xs, key, k) + tail;
      }
    } else {
      assert ([x] + xs)[1..] == xs;
      assert WithKey([x] + xs, key, k) == tail + WithKey(xs, key, k);
      if key(x) == k {
        WithKeyNone(xs, key, k);
      }
    }
  }

  /** The sort is stable: the elements sharing any one key keep their input order. */
  lemma {:induction false} SortDescStable<T>(xs: seq<T>, key: T -> int, k: int)
    ensures WithKey(SortDesc(xs, key), key, k) == WithKey(xs, key, k)
  {
    if xs != [] {
      var init := xs[..|xs| - 1];
      var last := xs[|xs| - 1];
      var tail := if key(last) == k then [last] else [];
      var sorted := SortDesc(init, key);
      assert SortDesc(xs, key) == InsertDesc(last, sorted, key);
      SortDescSorted(init, key);
      InsertDescWithKey(last, sorted, key, k);
      SortDescStable(init, key, k);
      assert WithKey([last], key, k) == tail + WithKey([last][1..], key, k);
      WithKeyAppend(init, [last], key, k);
      assert xs == init + [last];
    }
  }

  /** Undated items (key 0) come after every dated one. */
  lemma UndatedLast(xs: seq<string>, i: nat, j: nat)
    requires i < j < |SortDesc(xs, DateKey)|
    requires DateKey(SortDesc(xs, DateKey)[i]) == 0
    ensures DateKey(SortDesc(xs, DateKey)[j]) == 0
  {
    SortDescSorted(xs, DateKey);
    var r := SortDesc(xs, DateKey);
    assert DateKey(r[i]) >= DateKey(r[j]);
  }

  /** The list as it is stored back: every item stringified, then sorted by date, newest first. */
  function SortedUpdates(items: seq<Json>): (r: seq<string>)
    ensures |r| == |items|
  {
    SortDesc(seq(|items|, i requires 0 <= i < |items| => PyStr(items[i])), DateKey)
  }

  /** `normalize_and_sort_recent_updates` on the one-pager's fields: a non-empty list under
      "recent_updates" is replaced by its sorted stringified items; anything else leaves the
      one-pager as it was. */
  function NormalizeAndSortRecentUpdates(onePager: seq<(string, Json)>): (r: seq<(string, Json)>)
    ensures forall k :: k != "recent_updates" ==> Get(r, k) == Get(onePager, k)
    ensures Keys(r) == Keys(onePager)
    ensures (Get(onePager, "recent_updates").None? || !Get(onePager, "recent_updates").value.JArr?
             || Get(onePager, "recent_updates").value.items == []) ==> r == onePager
    ensures Get(onePager, "recent_updates").Some? && Get(onePager, "recent_updates").value.JArr?
            && Get(onePager, "recent_updates").value.items != [] ==>
      Get(r, "recent_updates") == Some(JArr(StrItems(SortedUpdates(Get(onePager, "recent_updates").value.items))))
  {
    var u := Get(onePager, "recent_updates");
    if u.None? || !Truthy(u.value) || !u.value.JArr? || u.value.items == [] then onePager
    else Set(onePager, "recent_updates", JArr(StrItems(SortedUpdates(u.value.items))))
  }

  function StrItems(ss: seq<string>): (r: seq<Json>)
    ensures |r| == |ss| && forall i :: 0 <= i < |ss| ==> r[i] == JStr(ss[i])
  {
    seq(|ss|, i requires 0 <= i < |ss| => JStr(ss[i]))
  }

  /** The stored list is a permutation of the stringified items, newest first, stable on ties. */
  lemma SortedUpdatesSpec(items: seq<Json>)
    ensures multiset(SortedUpdates(items)) == multiset(seq(|items|, i requires 0 <= i < |items| => PyStr(items[i])))
    ensures SortedDesc(SortedUpdates(items), DateKey)
    ensures forall k :: (WithKey(SortedUpdates(items), DateKey, k) ==
      WithKey(seq(|items|, i requires 0 <= i < |items| => PyStr(items[i])), DateKey, k))
  {
    var strs := seq(|items|, i requires 0 <= i < |items| => PyStr(items[i]));
    SortDescSorted(strs, DateKey);
    forall k ensures WithKey(SortDesc(strs, DateKey), DateKey, k) == WithKey(strs, DateKey, k) {
      SortDescStable(strs, DateKey, k);
    }
  }

  /** Sorting again changes nothing. */
  lemma {:induction false} SortDescIdempotent<T>(xs: seq<T>, key: T -> int)
    requires SortedDesc(xs, key)
    ensures SortDesc(xs, key) == xs
  {
    if xs != [] {
      var init := xs[..|xs| - 1];
      var last := xs[|xs| - 1];
      assert SortDesc(xs, key) == InsertDesc(last, SortDesc(init, key), key);
      SortedPrefix(xs, key);
      SortDescIdempotent(init, key);
      forall i | 0 <= i < |init| ensures key(init[i]) >= key(last) {
        assert init[i] == xs[i];
      }
      InsertAtEnd(last, init, key);
      assert init + [last] == xs;
    }
  }

  lemma SortedPrefix<T>(xs: seq<T>, key: T -> int)
    requires xs != [] && SortedDesc(xs, key)
    ensures SortedDesc(xs[..|xs| - 1], key)
  {
    var init := xs[..|xs| - 1];
    forall i, j | 0 <= i < j < |init| ensures key(init[i]) >= key(init[j]) {
      assert init[i] == xs[i] && init[j] == xs[j];
    }
  }

  lemma {:induction false} InsertAtEnd<T>(x: T, xs: seq<T>, key: T -> int)
    requires forall i :: 0 <= i < |xs| ==> key(xs[i]) >= key(x)
    ensures InsertDesc(x, xs, key) == xs + [x]
  {
    if xs != [] {
      InsertAtEnd(x, xs[1..], key);
      assert [xs[0]] + (xs[1..] + [x]) == xs + [x];
    }
  }

  // ---------------------------------------------------------------------------
  // Guards and label mapping around the model calls

  /** The three screenshot intents. */
  const HowToUse: string := "how_to_use"
  const NewFeatures: string := "new_features"
  const GeneralIntro: string := "general_intro"

  /** The label mapping: how-to markers first, then new-feature markers, else a general intro. */
  function IntentOfLabel(answer: string): (intent: string)
    ensures intent in {HowToUse, NewFeatures, GeneralIntro}
    ensures intent == HowToUse <==> ContainsAny(answer, ["how_to_use", "how to use", "how_to", "howto"])
    ensures intent == NewFeatures <==>
      !ContainsAny(answer, ["how_to_use", "how to use", "how_to", "howto"])
      && ContainsAny(answer, ["new_features", "new features", "release", "changelog"])
  {
    if ContainsAny(answer, ["how_to_use", "how to use", "how_to", "howto"]) then HowToUse
    else if ContainsAny(answer, ["new_features", "new features", "release", "changelog"]) then NewFeatures
    else GeneralIntro
  }

  /** Text too short to classify, compared after stripping. */
  predicate TooShortToClassify(ocrText: string) { ocrText == [] || |Strip(ocrText)| < 20 }

  /** `classify_screenshot_intent`: short text is a general intro without a model call; otherwise
      the reply to the first 2000 characters is stripped, lower-cased and mapped. */
  function ClassifyScreenshotIntent(ocrText: string, llm: string -> Result<string>): (r: Result<string>)
    ensures TooShortToClassify(ocrText) ==> r == Ok(GeneralIntro)
    ensures r.Ok? ==> r.value in {HowToUse, NewFeatures, GeneralIntro}
    ensures !TooShortToClassify(ocrText) ==> (r.Err? <==> llm(Take(ocrText, 2000)).Err?)
  {
    if TooShortToClassify(ocrText) then Ok(GeneralIntro)
    else
      match llm(Take(ocrText, 2000))
      case Err(e) => Err(e)
      case Ok(content) => Ok(IntentOfLabel(Lower(Strip(content))))
  }

  /** No model is consulted for short text: any two models give the same answer. */
  lemma ShortTextSkipsModel(ocrText: string, llm1: string -> Result<string>, llm2: string -> Result<string>)
    requires TooShortToClassify(ocrText)
    ensures ClassifyScreenshotIntent(ocrText, llm1) == ClassifyScreenshotIntent(ocrText, llm2)
  {
  }

  /** Labels are read without regard to case or surrounding whitespace. */
  lemma IntentIgnoresCase(ocrText: string, reply: string, llm: string -> Result<string>)
    requires !TooShortToClassify(ocrText) && llm(Take(ocrText, 2000)) == Ok(reply)
    ensures ClassifyScreenshotIntent(ocrText, llm) == Ok(IntentOfLabel(Lower(Strip(reply))))
  {
  }

  /** Cap on an extracted product name. */
  const NameCap: nat := 120

  /** `extract_primary_product_name`: the stripped hint when there is no OCR text, else the
      model's stripped reply cut to 120 characters. */
  function ExtractPrimaryProductName(ocrText: string, hint: Option<string>, llm: string -> Result<string>): (r: Result<string>)
    ensures ocrText == [] ==> r == Ok(Strip(hint.GetOr("")))
    ensures ocrText != [] && r.Ok? ==>
      llm(NamePrompt(ocrText, hint)).Ok? && |r.value| <= NameCap && StartsWith(Strip(llm(NamePrompt(ocrText, hint)).value), r.value)
    ensures ocrText != [] ==> (r.Err? <==> llm(NamePrompt(ocrText, hint)).Err?)
    ensures ocrText != [] && r.Ok? ==> r.value == Take(Strip(llm(NamePrompt(ocrText, hint)).value), NameCap)
  {
    if ocrText == [] then Ok(Strip(hint.GetOr("")))
    else
      match llm(NamePrompt(ocrText, hint))
      case Err(e) => Err(e)
      case Ok(content) => Ok(Take(Strip(content), NameCap))
  }

  /** The prompt: the hint and a blank line when a hint is given, then the first 8000 characters. */
  function NamePrompt(ocrText: string, hint: Option<string>): (p: string)
    ensures EndsWith(p, Take(ocrText, 8000))
  {
    var h := hint.GetOr("");
    var head := if h != [] then h + "\n\n" else "";
    var p := head + Take(ocrText, 8000);
    assert p[|p| - |Take(ocrText, 8000)|..] == Take(ocrText, 8000);
    p
  }

  /** Cap on the snippet text sent for pricing extraction. */
  const PricingTextCap: nat := 12000

  /** The pricing prompt: the snippets joined by blank lines, cut to 12000 characters. */
  function PricingPrompt(name: string, snippets: seq<string>): (p: string)
    ensures exists t :: |t| <= PricingTextCap && p == "Product: " + name + "\n\nText:\n" + t
  {
    var t := Take(Join("\n\n", snippets), PricingTextCap);
    "Product: " + name + "\n\nText:\n" + t
  }

  /** `resolve_pricing_via_llm`: {} without a model call for no snippets; {} when the reply is
      not JSON; the decoded reply otherwise. An empty reply reads as "{}". */
  function ResolvePricingViaLlm(name: string, snippets: seq<string>, llm: string -> Result<string>, parse: string -> Option<Json>): (r: Result<Json>)
    ensures snippets == [] ==> r == Ok(JObj([]))
    ensures snippets != [] ==> (r.Err? <==> llm(PricingPrompt(name, snippets)).Err?)
    ensures snippets != [] && r.Ok? ==>
      var content := llm(PricingPrompt(name, snippets)).value;
      var text := if content == [] then "{}" else content;
      r.value == parse(text).GetOr(JObj([]))
  {
    if snippets == [] then Ok(JObj([]))
    else
      match llm(PricingPrompt(name, snippets))
      case Err(e) => Err(e)
      case Ok(content) =>
        var text := if content == [] then "{}" else content;
        match parse(text)
        case None => Ok(JObj([]))
        case Some(j) => Ok(j)
  }
}
