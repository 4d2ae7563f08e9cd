/** The state threaded through the ingestion graph (backend/app/flow.py:20-37) and the services
    the nodes call, which are outside this model and appear as parameters. */
module FlowState {
  import opened Wrappers
  import opened Json
  import opened Juror
  import Discovery

  /** A media highlight gathered by `augment_sources`, stored by `dbwrite`. */
  datatype Media = Media(platform: string, url: string, title: string, author: string, authorHandle: string,
                         isInfluencer: bool, thumbnailUrl: string, score: real)

  /** The graph state. Every key is optional (`total=False`); `None` stands for a missing key
      and, in a node's update, for a key the node does not write. A key written as Python
      `None` reads like a missing one through `state.get`, so the two are not told apart. */
  datatype State = State(
    url: Option<string>,
    name: Option<string>,
    force: Option<bool>,
    userId: Option<string>,
    canonicalUrl: Option<string>,
    sourceUrl: Option<string>,
    toolId: Option<nat>,
    status: Option<string>,
    ocrText: Option<string>,
    cleanText: Option<string>,
    chunks: Option<seq<string>>,
    embeddings: Option<seq<seq<real>>>,
    onePager: Option<seq<(string, Json)>>,
    verdicts: Option<seq<Verdict>>,
    augmentedUrls: Option<seq<string>>,
    augmentedMedia: Option<seq<Media>>,
    skipProcessing: Option<bool>)

  /** The empty update (and the empty state). */
  const NoUpdate: State := State(None, None, None, None, None, None, None, None, None, None, None, None,
                                 None, None, None, None, None)

  function Pick<T>(prev: Option<T>, next: Option<T>): Option<T>
  {
    if next.Some? then next else prev
  }

  /** How the graph applies a node's update: every key the update writes replaces the old value,
      every other key is kept. */
  function Merge(s: State, u: State): (r: State)
    ensures u == NoUpdate ==> r == s
    ensures u.toolId.Some? ==> r.toolId == u.toolId
    ensures u.toolId.None? ==> r.toolId == s.toolId
    ensures r.status == (if u.status.Some? then u.status else s.status)
    ensures r.onePager == (if u.onePager.Some? then u.onePager else s.onePager)
    ensures r.skipProcessing == (if u.skipProcessing.Some? then u.skipProcessing else s.skipProcessing)
  {
    State(Pick(s.url, u.url), Pick(s.name, u.name), Pick(s.force, u.force), Pick(s.userId, u.userId),
          Pick(s.canonicalUrl, u.canonicalUrl), Pick(s.sourceUrl, u.sourceUrl), Pick(s.toolId, u.toolId),
          Pick(s.status, u.status), Pick(s.ocrText, u.ocrText), Pick(s.cleanText, u.cleanText),
          Pick(s.chunks, u.chunks), Pick(s.embeddings, u.embeddings), Pick(s.onePager, u.onePager),
          Pick(s.verdicts, u.verdicts), Pick(s.augmentedUrls, u.augmentedUrls),
          Pick(s.augmentedMedia, u.augmentedMedia), Pick(s.skipProcessing, u.skipProcessing))
  }

  /** Python truthiness of an optional string. */
  predicate Given(o: Option<string>) { o.Some? && o.value != "" }

  /** `a or b` on optional strings. */
  function OrElse(a: Option<string>, b: Option<string>): (r: Option<string>)
    ensures Given(a) ==> r == a
    ensures !Given(a) ==> r == b
  {
    if Given(a) then a else b
  }

  /** `state.get("skip_processing")` is truthy. */
  predicate Skipping(s: State) { s.skipProcessing == Some(true) }

  /** The update a skipped node returns: the status, defaulted when missing. */
  function StatusOnly(s: State, default: string): (u: State)
    ensures u.status == Some(s.status.GetOr(default))
    ensures u.(status := None) == NoUpdate
  {
    NoUpdate.(status := Some(s.status.GetOr(default)))
  }

  /** The services the nodes call. `Err` or `None` stands for a call that raised.
      - `tavily`: whether a search API key is configured;
      - `search(q, n)`: the web search with at most `n` results;
      - `pickSite(name, candidates)`: the model choosing an official homepage;
      - `transcriptOf(videoId)`: the video transcript service;
      - `fetchClean(url)`: the page fetch and cleanup of `fetch_clean_text`;
      - `split(text)`: `recursive_character_split` (backend/app/chunk.py is not part of this model);
      - `embed(batch)`: one call of the embedding model;
      - `intentLlm`, `pricingLlm`: the chat model's replies for the intent and pricing prompts;
      - `synthesize(text, ocr, intent)`: the one-pager synthesis;
      - `parseJson`: decoding a JSON reply;
      - `claimSearch(claim)`: the juror's search;
      - `viewsOf(content)`: the view or like count read from a result's content;
      - `now`: the clock, in seconds. */
  datatype Env = Env(
    tavily: bool,
    search: (string, nat) -> Result<seq<Discovery.SearchItem>>,
    pickSite: (string, seq<string>) -> Result<string>,
    transcriptOf: string -> Option<seq<string>>,
    fetchClean: string -> Result<string>,
    split: string -> seq<string>,
    embed: seq<string> -> Result<seq<seq<real>>>,
    intentLlm: string -> Result<string>,
    synthesize: (string, Option<string>, Option<string>) -> Result<seq<(string, Json)>>,
    pricingLlm: string -> Result<string>,
    parseJson: string -> Option<Json>,
    claimSearch: string -> Result<seq<string>>,
    viewsOf: string -> nat,
    now: int)
}
