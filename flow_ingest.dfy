/** The `ingest` node (backend/app/flow.py:189-232): the text of the request (its page, its
    screenshot text, or its name), cut into chunks, embedded and stored as documents. */
module IngestNode {
  import opened Wrappers
  import opened Strings
  import opened Urls
  import opened FlowState
  import opened Store
  import Embeddings
  import LinkClassify

  /** `is_valid_http`: the URL parses, with an http or https scheme and a network location;
      a parse error reads as not valid. */
  predicate IsValidHttp(u: string)
  {
    Parse(u).Ok? && Parse(u).value.scheme in {"http", "https"} && Parse(u).value.netloc != ""
  }

  /** The text ingested for a request: with a usable URL, its fetched text after the screenshot
      text and a blank line (a failing fetch fails the node); without one, the screenshot text,
      else the name. */
  function IngestText(url: Option<string>, name: string, ocr: string,
                      fetch: string -> Result<string>): (r: Result<string>)
    ensures !(Given(url) && IsValidHttp(url.value)) ==> r == Ok(if ocr != "" then ocr else name)
    ensures Given(url) && IsValidHttp(url.value) ==> (r.Ok? <==> fetch(url.value).Ok?)
  {
    if Given(url) && IsValidHttp(url.value) then
      match fetch(url.value)
      case Err(e) => Err(e)
      case Ok(base) => Ok(if ocr != "" then ocr + "\n\n" + base else base)
    else Ok(if ocr != "" then ocr else name)
  }

  /** Screenshot text, when there is any, always leads the ingested text. */
  lemma OcrLeads(url: Option<string>, name: string, ocr: string, fetch: string -> Result<string>)
    requires IngestText(url, name, ocr, fetch).Ok?
    ensures ocr != "" ==> StartsWith(IngestText(url, name, ocr, fetch).value, ocr)
    ensures ocr == "" && Given(url) && IsValidHttp(url.value) ==>
      IngestText(url, name, ocr, fetch).value == fetch(url.value).value
  {
    var r := IngestText(url, name, ocr, fetch).value;
    if ocr != "" && Given(url) && IsValidHttp(url.value) {
      assert r[..|ocr|] == ocr;
    }
  }

  /** The source URL recorded on the documents: the URL, else the source label, else "". */
  function SourceOf(url: Option<string>, sourceUrl: Option<string>): (src: string)
    ensures Given(url) ==> src == url.value
    ensures !Given(url) && Given(sourceUrl) ==> src == sourceUrl.value
    ensures !Given(url) && !Given(sourceUrl) ==> src == ""
  {
    OrElse(url, sourceUrl).GetOr("")
  }

  /** The URL the later nodes work from: the request's URL, else the canonical one. (The
      node's `url_official` always equals the canonical URL, so it adds nothing here.) */
  function WorkingUrl(s: State): Option<string>
  {
    OrElse(s.url, s.canonicalUrl)
  }

  /** The page text of `url`: a transcript for YouTube links, the page text otherwise. */
  function Fetch(env: Env): string -> Result<string>
  {
    u => LinkClassify.FetchTextForUrl(u, env.transcriptOf, env.fetchClean)
  }

  /** What the node computes: the text, its chunks and their vectors. */
  datatype Ingested = Ingested(clean: string, chunks: seq<string>, vectors: seq<seq<real>>)

  /** The vectors of the chunks: none for no chunks, else all batches embedded. */
  function VectorsOf(chunks: seq<string>, embed: seq<string> -> Result<seq<seq<real>>>): Result<seq<seq<real>>>
  {
    if chunks == [] then Ok([]) else Embeddings.EmbedAll(Embeddings.Batches(chunks), embed)
  }

  /** The node's computation, before anything is stored; `Err` when a fetch or an embedding
      call raised. */
  function IngestPlan(env: Env, s: State): (r: Result<Ingested>)
    ensures r.Ok? ==> r.value.chunks == env.split(r.value.clean)
  {
    match IngestText(WorkingUrl(s), s.name.GetOr(""), s.ocrText.GetOr(""), Fetch(env))
    case Err(e) => Err(e)
    case Ok(clean) =>
      var chunks := env.split(clean);
      match VectorsOf(chunks, env.embed)
      case Err(e) => Err(e)
      case Ok(vectors) => Ok(Ingested(clean, chunks, vectors))
  }

  method Ingest(db: Database, env: Env, s: State) returns (r: Result<State>)
    requires db.Valid()
    modifies db
    ensures db.Valid()
    ensures Skipping(s) ==> r == Ok(StatusOnly(s, PendingResearch)) && db.tables == old(db.tables)
    ensures !Skipping(s) ==> (r.Ok? <==> s.toolId.Some? && IngestPlan(env, s).Ok?)
    ensures r.Err? ==> db.tables == old(db.tables)
    ensures r.Ok? && !Skipping(s) ==>
      var p := IngestPlan(env, s).value;
      r.value == NoUpdate.(cleanText := Some(p.clean), chunks := Some(p.chunks), embeddings := Some(p.vectors))
      && db.tables == old(db.tables).(documents := db.tables.documents)
      && |db.tables.documents| >= |old(db.tables.documents)|
      && db.tables.documents[..|old(db.tables.documents)|] == old(db.tables.documents)
      && ChunkRows(db.tables.documents[|old(db.tables.documents)|..], s.toolId.value,
                   SourceOf(WorkingUrl(s), s.sourceUrl), p.chunks, p.vectors)
  {
    if Skipping(s) {
      return Ok(StatusOnly(s, PendingResearch));
    }
    var url := WorkingUrl(s);
    if s.toolId.None? {
      return Err("KeyError: 'tool_id'");
    }
    var t := s.toolId.value;
    var clean := IngestText(url, s.name.GetOr(""), s.ocrText.GetOr(""), Fetch(env));
    if clean.Err? {
      return Err(clean.error);
    }
    var chunks := env.split(clean.value);
    var vectors: seq<seq<real>> := [];
    if chunks != [] {
      var embedded, _ := Embeddings.EmbedTexts(chunks, env.embed);
      if embedded.Err? {
        return Err(embedded.error);
      }
      vectors := embedded.value;
    }
    assert IngestPlan(env, s) == Ok(Ingested(clean.value, chunks, vectors));
    db.InsertChunks(t, SourceOf(url, s.sourceUrl), chunks, vectors);
    return Ok(NoUpdate.(cleanText := Some(clean.value), chunks := Some(chunks), embeddings := Some(vectors)));
  }

  /** When every embedding call returns one vector per text, every chunk is stored, in order. */
  lemma EveryChunkStored(rows: seq<Document>, t: nat, src: string, chunks: seq<string>,
                         embed: seq<string> -> Result<seq<seq<real>>>)
    requires forall b :: embed(b).Ok? ==> |embed(b).value| == |b|
    requires VectorsOf(chunks, embed).Ok?
    requires ChunkRows(rows, t, src, chunks, VectorsOf(chunks, embed).value)
    ensures |rows| == |chunks|
    ensures forall i :: 0 <= i < |rows| ==> rows[i].text == chunks[i] && rows[i].chunkIndex == i
  {
    if chunks != [] {
      Embeddings.OneVectorPerText(chunks, embed);
    }
  }
}
