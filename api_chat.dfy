/** The retrieval caps of the chat endpoint (backend/app/api.py:35-123): how many retrieved
    chunks enter the prompt and how many come back as citations. The retrieved rows are given in
    the order the vector search returns them. */
module Chat {
  import opened Wrappers
  import opened Strings

  /** The most chunks a prompt takes. */
  const MaxRag: nat := 12
  /** Characters of a chunk in the prompt, and in a citation. */
  const SnippetChars: nat := 500
  const CitationChars: nat := 160

  datatype Retrieved = Retrieved(sourceUrl: string, text: string)
  datatype Citation = Citation(sourceUrl: string, snippet: string)

  /** Python's `xs[:n]` for `n >= 0`. */
  function Prefix<T>(xs: seq<T>, n: nat): (r: seq<T>)
    ensures |r| == Min(n, |xs|) && r == xs[..|r|]
  {
    xs[..Min(n, |xs|)]
  }

  /** `k`: the requested limit, else 4 when the one-pager is preferred and 8 otherwise, clamped
      to [0, 12]. */
  function RagLimit(requested: Option<int>, preferOnePager: bool): (k: nat)
    ensures k <= MaxRag
    ensures requested.None? ==> k == (if preferOnePager then 4 else 8)
    ensures requested.Some? ==> (k == requested.value <==> 0 <= requested.value <= MaxRag)
    ensures requested.Some? && requested.value < 0 ==> k == 0
    ensures requested.Some? && requested.value > MaxRag ==> k == MaxRag
  {
    var want := if requested.Some? then requested.value else if preferOnePager then 4 else 8;
    if want < 0 then 0 else if want > MaxRag then MaxRag else want
  }

  /** The citation cap: `max(2, min(8, k if k > 0 else 2))`. */
  function CitationCap(k: nat): (n: nat)
    ensures 2 <= n <= 8
    ensures 2 <= k <= 8 ==> n == k
    ensures k < 2 ==> n == 2
    ensures k > 8 ==> n == 8
  {
    Max(2, Min(8, if k > 0 then k else 2))
  }

  /** The prompt's snippets: the first `k` rows' text, each cut to 500 characters. */
  function Snippets(rows: seq<Retrieved>, k: nat): (snippets: seq<string>)
    ensures |snippets| == Min(k, |rows|)
    ensures forall i :: 0 <= i < |snippets| ==> |snippets[i]| <= SnippetChars && snippets[i] <= rows[i].text
  {
    Prefix(seq(|rows|, i requires 0 <= i < |rows| => Take(rows[i].text, SnippetChars)), k)
  }

  /** The citations: every row as a citation with 160 characters of text, cut to the cap. */
  function Citations(rows: seq<Retrieved>, k: nat): (cs: seq<Citation>)
    ensures |cs| == Min(CitationCap(k), |rows|)
    ensures forall i :: 0 <= i < |cs| ==> cs[i].sourceUrl == rows[i].sourceUrl && cs[i].snippet <= rows[i].text
  {
    Prefix(seq(|rows|, i requires 0 <= i < |rows| => Citation(rows[i].sourceUrl, Take(rows[i].text, CitationChars))),
           CitationCap(k))
  }

  /** The response's citations: `citations[:max(2, min(8, len(citations)))]`. */
  function Returned(cs: seq<Citation>): seq<Citation>
  {
    Prefix(cs, Max(2, Min(8, |cs|)))
  }

  /** The chat response never has more than 8 citations or more than the rows retrieved, and
      the final cut removes nothing. */
  lemma CitationBounds(rows: seq<Retrieved>, requested: Option<int>, preferOnePager: bool)
    ensures var cs := Citations(rows, RagLimit(requested, preferOnePager));
      |cs| <= 8 && |cs| <= |rows| && Returned(cs) == cs
  {
  }

  /** With two or more rows there are at least two citations, even when `k` is 0. */
  lemma AtLeastTwoCitations(rows: seq<Retrieved>, k: nat)
    requires |rows| >= 2
    ensures |Citations(rows, k)| >= 2
  {
  }

  /** The prompt never takes more than 12 chunks, and takes none when `k` is 0. */
  lemma SnippetBounds(rows: seq<Retrieved>, requested: Option<int>, preferOnePager: bool)
    ensures |Snippets(rows, RagLimit(requested, preferOnePager))| <= MaxRag
    ensures RagLimit(requested, preferOnePager) == 0 ==> Snippets(rows, 0) == []
  {
  }
}
