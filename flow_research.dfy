/** The `research` node (backend/app/flow.py:235-305): gather the tool's stored chunks, put the
    ones about pricing, features, competitors and news first, bundle them within a character
    budget, synthesise the one-pager, sort its updates and fill in missing pricing. */
module ResearchNode {
  import opened Wrappers
  import opened Strings
  import opened Json
  import opened FlowState
  import opened Store
  import Research

  /** Rows read per run. */
  const RowLimit: nat := 400
  /** Characters kept of each chunk. */
  const SnippetCap: nat := 800
  /** Characters kept of the ingested text, which leads the bundle. */
  const LeadCap: nat := 4000
  /** The bundle stops taking snippets once this many characters are taken. */
  const Budget: nat := 12000
  /** Pricing snippets passed to the pricing extraction. */
  const PricingSnippetCap: nat := 20

  const PriorityKeywords: seq<string> :=
    ["pricing", "price", "$", "cost", "plan", "tier", "feature", "capability", "benefit",
     "alternative", "competitor", "vs ", "compare", "update", "release", "announcement", "news", "roadmap"]

  const PricingKeywords: seq<string> := ["pricing", "price", "plan", "tier", "$"]

  /** A snippet about pricing, features, competitors or news. */
  predicate IsPriority(txt: string) { ContainsAny(Lower(txt), PriorityKeywords) }
  predicate IsSecondary(txt: string) { !IsPriority(txt) }
  /** A snippet about pricing. */
  predicate IsPricing(txt: string) { ContainsAny(Lower(txt), PricingKeywords) }

  /** Every pricing keyword is a priority keyword. */
  lemma PricingIsPriority(txt: string)
    ensures IsPricing(txt) ==> IsPriority(txt)
  {
    if IsPricing(txt) {
      var low := Lower(txt);
      var k :| 0 <= k < |PricingKeywords| && Contains(low, PricingKeywords[k]);
      var j := if k == 0 then 0 else if k == 1 then 1 else if k == 2 then 4 else if k == 3 then 5 else 2;
      assert PriorityKeywords[j] == PricingKeywords[k];
    }
  }

  /** The texts of the rows read: the tool's documents, at most 400, each cut to 800 characters. */
  function Snippets(docs: seq<Document>, t: nat): (r: seq<string>)
    ensures |r| <= RowLimit
    ensures forall i :: 0 <= i < |r| ==> |r[i]| <= SnippetCap
  {
    var rows := DocsOf(docs, t);
    var n := if |rows| <= RowLimit then |rows| else RowLimit;
    seq(n, i requires 0 <= i < n => Take(rows[i].text, SnippetCap))
  }

  /** The elements of `xs` that `keep` accepts, in order. */
  function Filter(xs: seq<string>, keep: string -> bool): (r: seq<string>)
    ensures |r| <= |xs|
    ensures forall x :: x in r <==> x in xs && keep(x)
  {
    if xs == [] then []
    else Filter(xs[..|xs| - 1], keep) + (if keep(xs[|xs| - 1]) then [xs[|xs| - 1]] else [])
  }

  /** Every snippet is prioritised or secondary, never both. */
  lemma {:induction false} Partition(xs: seq<string>)
    ensures |Filter(xs, IsPriority)| + |Filter(xs, IsSecondary)| == |xs|
  {
    if xs != [] {
      Partition(xs[..|xs| - 1]);
    }
  }

  /** The pricing snippets are prioritised snippets. */
  lemma PricingAmongPriority(xs: seq<string>)
    ensures forall x :: x in Filter(xs, IsPricing) ==> x in Filter(xs, IsPriority)
  {
    forall x | x in Filter(xs, IsPricing) ensures x in Filter(xs, IsPriority) {
      PricingIsPriority(x);
    }
  }

  /** The classification loop: each snippet goes to the prioritised or the secondary list, and
      also to the pricing list when it mentions pricing. */
  method Classify(snippets: seq<string>) returns (prioritized: seq<string>, secondary: seq<string>, pricing: seq<string>)
    ensures prioritized == Filter(snippets, IsPriority)
    ensures secondary == Filter(snippets, IsSecondary)
    ensures pricing == Filter(snippets, IsPricing)
  {
    prioritized, secondary, pricing := [], [], [];
    for i := 0 to |snippets|
      invariant prioritized == Filter(snippets[..i], IsPriority)
      invariant secondary == Filter(snippets[..i], IsSecondary)
      invariant pricing == Filter(snippets[..i], IsPricing)
    {
      assert snippets[..i + 1][..i] == snippets[..i];
      var txt := snippets[i];
      if IsPriority(txt) {
        prioritized := prioritized + [txt];
      } else {
        secondary := secondary + [txt];
      }
      if IsPricing(txt) {
        pricing := pricing + [txt];
      }
    }
    assert snippets[..|snippets|] == snippets;
  }

  // ---------------------------------------------------------------------------
  // The bundle

  function TotalLen(xs: seq<string>): nat
  {
    if xs == [] then 0 else TotalLen(xs[..|xs| - 1]) + |xs[|xs| - 1]|
  }

  /** The snippets taken with `acc` characters already taken: the next one while fewer than
      12000 are. */
  function Budgeted(xs: seq<string>, acc: nat): (r: seq<string>)
    ensures r <= xs
  {
    if xs == [] || acc >= Budget then [] else [xs[0]] + Budgeted(xs[1..], acc + |xs[0]|)
  }

  lemma TotalLenAppend(xs: seq<string>, x: string)
    ensures TotalLen(xs + [x]) == TotalLen(xs) + |x|
  {
    assert (xs + [x])[..|xs|] == xs;
  }

  lemma {:induction false} TotalLenCons(x: string, xs: seq<string>)
    ensures TotalLen([x] + xs) == |x| + TotalLen(xs)
    decreases |xs|
  {
    if xs != [] {
      var init := xs[..|xs| - 1];
      TotalLenCons(x, init);
      assert ([x] + xs)[..|xs|] == [x] + init;
    }
  }

  /** The budget is overrun by less than one snippet: with snippets of at most 800 characters,
      fewer than 12800 are taken. */
  lemma {:induction false} BudgetBound(xs: seq<string>, acc: nat)
    requires acc < Budget
    requires forall i :: 0 <= i < |xs| ==> |xs[i]| <= SnippetCap
    ensures acc + TotalLen(Budgeted(xs, acc)) < Budget + SnippetCap
    decreases |xs|
  {
    if xs != [] {
      var acc' := acc + |xs[0]|;
      TotalLenCons(xs[0], Budgeted(xs[1..], acc'));
      if acc' < Budget {
        BudgetBound(xs[1..], acc');
      } else {
        assert Budgeted(xs[1..], acc') == [];
      }
    }
  }

  /** Snippets are left out only once the budget is spent. */
  lemma {:induction false} BudgetSpent(xs: seq<string>, acc: nat)
    requires |Budgeted(xs, acc)| < |xs|
    ensures acc + TotalLen(Budgeted(xs, acc)) >= Budget
    decreases |xs|
  {
    if acc < Budget {
      TotalLenCons(xs[0], Budgeted(xs[1..], acc + |xs[0]|));
      BudgetSpent(xs[1..], acc + |xs[0]|);
    }
  }

  /** One step of the bundling loop: while the budget lasts, the next snippet is taken. */
  lemma BudgetedStep(xs: seq<string>, i: nat, acc: nat)
    requires i < |xs| && acc < Budget
    ensures xs[..i] + Budgeted(xs[i..], acc) == xs[..i + 1] + Budgeted(xs[i + 1..], acc + |xs[i]|)
    ensures xs[..i + 1] == xs[..i] + [xs[i]]
    ensures TotalLen(xs[..i + 1]) == TotalLen(xs[..i]) + |xs[i]|
  {
    assert xs[..i + 1] == xs[..i] + [xs[i]];
    assert xs[i..][1..] == xs[i + 1..];
    TotalLenAppend(xs[..i], xs[i]);
  }

  /** The ingested text, cut to 4000 characters, leads the bundle when there is any. */
  function Lead(clean: string): seq<string>
  {
    if clean != "" then [Take(clean, LeadCap)] else []
  }

  /** The bundling loop: the snippets are taken in order until 12000 characters are. */
  method Bundle(clean: string, snippets: seq<string>) returns (parts: seq<string>)
    ensures parts == Lead(clean) + Budgeted(snippets, 0)
  {
    var taken: seq<string> := [];
    var acc := 0;
    var i := 0;
    while i < |snippets|
      invariant 0 <= i <= |snippets|
      invariant taken == snippets[..i]
      invariant acc == TotalLen(taken)
      invariant Budgeted(snippets, 0) == taken + Budgeted(snippets[i..], acc)
    {
      if acc >= Budget {
        break;
      }
      BudgetedStep(snippets, i, acc);
      taken := taken + [snippets[i]];
      acc := acc + |snippets[i]|;
      i := i + 1;
    }
    assert Budgeted(snippets[i..], acc) == [];
    assert taken + [] == taken;
    parts := Lead(clean) + taken;
  }

  /** The text given to the synthesis: the parts joined by blank lines, or the ingested text. */
  function Combined(clean: string, parts: seq<string>): string
  {
    if parts != [] then Join("\n\n", parts) else clean
  }

  // ---------------------------------------------------------------------------
  // Synthesis and pricing

  /** The screenshot intent: classified when there is screenshot text, a failure read as none. */
  function IntentFor(ocr: string, llm: string -> Result<string>): (r: Option<string>)
    ensures r.Some? ==> ocr != "" && r.value in {Research.HowToUse, Research.NewFeatures, Research.GeneralIntro}
  {
    if ocr == "" then None
    else match Research.ClassifyScreenshotIntent(ocr, llm)
      case Ok(i) => Some(i)
      case Err(_) => None
  }

  /** A one-pager's pricing is present and truthy. */
  predicate HasPricing(onePager: seq<(string, Json)>)
  {
    Get(onePager, "pricing").Some? && Truthy(Get(onePager, "pricing").value)
  }

  /** The pricing fallback: a one-pager without pricing asks the pricing extraction over the
      first 20 pricing snippets, whose failure fails the node; a truthy answer is set. */
  function FillPricing(onePager: seq<(string, Json)>, name: string, pricing: seq<string>, env: Env)
    : (r: Result<seq<(string, Json)>>)
    ensures HasPricing(onePager) ==> r == Ok(onePager)
    ensures r.Ok? ==> forall k :: k != "pricing" ==> Get(r.value, k) == Get(onePager, k)
    ensures r.Ok? && !HasPricing(onePager) ==>
      var found := Research.ResolvePricingViaLlm(name, pricing[..Min(PricingSnippetCap, |pricing|)], env.pricingLlm, env.parseJson);
      found.Ok? && (Truthy(found.value) ==> Get(r.value, "pricing") == Some(found.value))
      && (!Truthy(found.value) ==> r.value == onePager)
  {
    if HasPricing(onePager) then Ok(onePager)
    else
      match Research.ResolvePricingViaLlm(name, pricing[..Min(PricingSnippetCap, |pricing|)], env.pricingLlm, env.parseJson)
      case Err(e) => Err(e)
      case Ok(p) => if Truthy(p) then Ok(Set(onePager, "pricing", p)) else Ok(onePager)
  }

  /** With no pricing snippets the fallback sets nothing: the extraction answers {}. */
  lemma NoSnippetsNoPricing(onePager: seq<(string, Json)>, name: string, env: Env)
    requires !HasPricing(onePager)
    ensures FillPricing(onePager, name, [], env) == Ok(onePager)
  {
  }

  /** The one-pager the node returns for the tool's documents `docs`. */
  function ResearchOnePager(env: Env, s: State, docs: seq<Document>, t: nat): Result<seq<(string, Json)>>
  {
    var clean := s.cleanText.GetOr("");
    var ocr := s.ocrText.GetOr("");
    var snippets := Snippets(docs, t);
    var parts := Lead(clean) + Budgeted(Filter(snippets, IsPriority) + Filter(snippets, IsSecondary), 0);
    match env.synthesize(Combined(clean, parts), if ocr != "" then Some(ocr) else None, IntentFor(ocr, env.intentLlm))
    case Err(e) => Err(e)
    case Ok(onePager) =>
      FillPricing(Research.NormalizeAndSortRecentUpdates(onePager), s.name.GetOr(""), Filter(snippets, IsPricing), env)
  }

  method ResearchTool(db: Database, env: Env, s: State) returns (r: Result<State>)
    ensures Skipping(s) ==> r == Ok(StatusOnly(s, PendingResearch))
    ensures !Skipping(s) && s.toolId.None? ==> r.Err?
    ensures !Skipping(s) && s.toolId.Some? ==>
      match ResearchOnePager(env, s, db.tables.documents, s.toolId.value)
      case Err(e) => r == Err(e)
      case Ok(onePager) => r == Ok(NoUpdate.(onePager := Some(onePager)))
  {
    if Skipping(s) {
      return Ok(StatusOnly(s, PendingResearch));
    }
    if s.toolId.None? {
      return Err("invalid input for query argument $1: '' (invalid UUID)");
    }
    var clean := s.cleanText.GetOr("");
    var ocr := s.ocrText.GetOr("");
    var snippets := Snippets(db.tables.documents, s.toolId.value);
    var prioritized, secondary, pricing := Classify(snippets);
    var parts := Bundle(clean, prioritized + secondary);
    var intent := IntentFor(ocr, env.intentLlm);
    var synthesized := env.synthesize(Combined(clean, parts), if ocr != "" then Some(ocr) else None, intent);
    if synthesized.Err? {
      return Err(synthesized.error);
    }
    var onePager := Research.NormalizeAndSortRecentUpdates(synthesized.value);
    var filled := FillPricing(onePager, s.name.GetOr(""), pricing, env);
    if filled.Err? {
      return Err(filled.error);
    }
    return Ok(NoUpdate.(onePager := Some(filled.value)));
  }

  /** The bundle holds the ingested text's lead and at most 12800 further characters. */
  lemma BundleSize(clean: string, docs: seq<Document>, t: nat)
    ensures var snippets := Snippets(docs, t);
      var taken := Budgeted(Filter(snippets, IsPriority) + Filter(snippets, IsSecondary), 0);
      TotalLen(taken) < Budget + SnippetCap
  {
    var snippets := Snippets(docs, t);
    var all := Filter(snippets, IsPriority) + Filter(snippets, IsSecondary);
    forall i | 0 <= i < |all| ensures |all[i]| <= SnippetCap {
      assert all[i] in snippets;
    }
    BudgetBound(all, 0);
  }
}
