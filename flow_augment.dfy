/** The `augment_sources` node (backend/app/flow.py:469-608): search around the product, keep
    up to six social highlights and index up to twelve further sources. */
module AugmentNode {
  import opened Wrappers
  import opened Strings
  import opened FlowState
  import opened Store
  import opened Augment
  import Embeddings
  import Discovery
  import IngestNode

  /** The loop's variables: the URLs seen, the highlights so far (URLs and media records) and
      their count, and the count of sources indexed. */
  datatype Progress = Progress(seen: set<string>, augmented: seq<string>, media: seq<Media>,
                               highlights: nat, docs: nat)

  /** `m` is the media record of the highlight at `u`. */
  predicate MediaFor(m: Media, u: string)
  {
    m.url == u && m.platform == PlatformFromUrl(u) && m.platform in SocialPlatforms
    && |m.title| <= 255 && m.author == "" && m.authorHandle == AuthorFromUrl(u)
    && m.isInfluencer == IsInfluencerUrl(u)
    && m.thumbnailUrl == (if m.platform == Youtube then YoutubeThumbnail(u) else "")
    && 0.0 <= m.score <= 5.5
  }

  /** The highlights: at most six, one media record per URL, distinct, never the tool's own URL. */
  predicate HighlightsOk(augmented: seq<string>, media: seq<Media>, start: string)
  {
    |augmented| == |media| <= MaxHighlights
    && (forall i :: 0 <= i < |augmented| ==> MediaFor(media[i], augmented[i]) && augmented[i] != start)
    && (forall i, j :: 0 <= i < j < |augmented| ==> augmented[i] != augmented[j])
  }

  /** The indexed sources: distinct, at most twelve, none noisy or the tool's own URL; every new
      document row is the tool's, from one of them, among its first six chunks. */
  predicate IndexedOk(rows: seq<Document>, t: nat, sources: seq<string>, start: string)
  {
    |sources| <= MaxDocs
    && (forall i, j :: 0 <= i < j < |sources| ==> sources[i] != sources[j])
    && (forall i :: 0 <= i < |sources| ==> sources[i] != start && !IsNoisy(sources[i]))
    && (forall d :: d in rows ==> d.toolId == t && d.chunkIndex < ChunksPerSource && d.sourceUrl in sources)
  }

  /** The loop invariant: the counters match the lists, and everything kept is marked seen. */
  predicate ProgressOk(p: Progress, start: string, rows: seq<Document>, t: nat, sources: seq<string>)
  {
    start in p.seen
    && p.highlights == |p.augmented| && HighlightsOk(p.augmented, p.media, start)
    && p.docs == |sources| && IndexedOk(rows, t, sources, start)
    && (forall i :: 0 <= i < |p.augmented| ==> p.augmented[i] in p.seen)
    && (forall i :: 0 <= i < |sources| ==> sources[i] in p.seen)
  }

  /** Both caps are reached. */
  predicate Full(p: Progress) { p.highlights >= MaxHighlights && p.docs >= MaxDocs }

  /** One search result. A new social result that passes the highlight rule is kept as a
      highlight, and in any case a result that is not noisy is indexed while fewer than twelve
      sources are. `raised` says a fetch or an embedding call failed, which ends the current
      query; `indexed` says a source was indexed. */
  method HandleItem(db: Database, env: Env, t: nat, start: string, item: Discovery.SearchItem, p: Progress,
                    ghost base: Tables, ghost rows: seq<Document>, ghost sources: seq<string>)
    returns (p': Progress, raised: bool, indexed: bool, ghost rows': seq<Document>, ghost sources': seq<string>)
    requires db.Valid() && ProgressOk(p, start, rows, t, sources)
    requires db.tables == base.(documents := base.documents + rows)
    modifies db
    ensures db.Valid() && ProgressOk(p', start, rows', t, sources')
    ensures db.tables == base.(documents := base.documents + rows')
    ensures indexed ==> !raised && p'.docs == p.docs + 1
    ensures (p', raised, indexed) == Step(env, p, item)
    // an empty or already seen URL changes nothing
    ensures item.url == "" || item.url in p.seen ==> p' == p && !raised && !indexed && rows' == rows
    // a new one goes through the highlight rule, and is marked seen and counted when indexed
    ensures item.url != "" && item.url !in p.seen ==>
      var h := Highlight(p, item, env.viewsOf(item.content));
      p'.augmented == h.augmented && p'.media == h.media && p'.highlights == h.highlights
      && p'.seen == (if indexed then h.seen + {item.url} else h.seen)
      && p'.docs == (if indexed then p.docs + 1 else p.docs)
    ensures raised <==> Attempted(p, item) && IndexRaises(env, item.url)
    ensures indexed <==> Attempted(p, item) && !IndexRaises(env, item.url) && Chunked(env, item.url)
  {
    p', raised, indexed, rows', sources' := p, false, false, rows, sources;
    var u := item.url;
    if u != "" && u !in p.seen {
      var h := Highlight(p, item, env.viewsOf(item.content));
      HighlightStep(p, item, env.viewsOf(item.content), start, rows, t, sources);
      assert u !in sources && u != start;
      p', raised, indexed, rows', sources' := IndexStep(db, env, t, start, u, h, base, rows, sources);
      StepFresh(env, p, item, raised, indexed);
    }
    StepFacts(env, p, item);
  }

  /** The indexing half of a new result: unless it is noisy or twelve sources are indexed, its
      page is indexed; on success the URL is marked seen and counted. */
  method IndexStep(db: Database, env: Env, t: nat, start: string, u: string, h: Progress,
                   ghost base: Tables, ghost rows: seq<Document>, ghost sources: seq<string>)
    returns (p': Progress, raised: bool, indexed: bool, ghost rows': seq<Document>, ghost sources': seq<string>)
    requires db.Valid() && ProgressOk(h, start, rows, t, sources)
    requires db.tables == base.(documents := base.documents + rows)
    requires u !in sources && u != start
    modifies db
    ensures db.Valid() && ProgressOk(p', start, rows', t, sources')
    ensures db.tables == base.(documents := base.documents + rows')
    ensures raised <==> !IsNoisy(u) && h.docs < MaxDocs && IndexRaises(env, u)
    ensures indexed <==> !IsNoisy(u) && h.docs < MaxDocs && !raised && Chunked(env, u)
    ensures p' == if indexed then h.(seen := h.seen + {u}, docs := h.docs + 1) else h
  {
    p', raised, indexed, rows', sources' := h, false, false, rows, sources;
    if IsNoisy(u) || h.docs >= MaxDocs {
      return;
    }
    ghost var added;
    raised, indexed, added := IndexSource(db, env, t, u, base, rows);
    if indexed {
      IndexKeepsProgress(h, u, start, rows, added, t, sources);
      rows' := rows + added;
      sources' := sources + [u];
      p' := h.(seen := h.seen + {u}, docs := h.docs + 1);
    }
  }

  /** `Step` on a new result, given the outcome of its indexing half. */
  lemma StepFresh(env: Env, p: Progress, item: Discovery.SearchItem, raised: bool, indexed: bool)
    requires item.url != "" && item.url !in p.seen
    requires Highlight(p, item, env.viewsOf(item.content)).docs == p.docs
    requires raised <==> !IsNoisy(item.url) && p.docs < MaxDocs && IndexRaises(env, item.url)
    requires indexed <==> !IsNoisy(item.url) && p.docs < MaxDocs && !raised && Chunked(env, item.url)
    ensures var h := Highlight(p, item, env.viewsOf(item.content));
      Step(env, p, item) == (if indexed then h.(seen := h.seen + {item.url}, docs := h.docs + 1) else h, raised, indexed)
  {
  }

  /** `Step` in words: a result with an empty or seen URL changes nothing; a new one goes
      through the highlight rule, raises exactly when it reaches indexing and the fetch or the
      embedding fails, and is indexed, marked seen and counted exactly when it reaches indexing
      and its text has chunks that embed. */
  lemma StepFacts(env: Env, p: Progress, item: Discovery.SearchItem)
    ensures var (p', raised, indexed) := Step(env, p, item);
      (item.url == "" || item.url in p.seen ==> p' == p && !raised && !indexed)
      && (item.url != "" && item.url !in p.seen ==>
            var h := Highlight(p, item, env.viewsOf(item.content));
            p'.augmented == h.augmented && p'.media == h.media && p'.highlights == h.highlights
            && p'.seen == (if indexed then h.seen + {item.url} else h.seen)
            && p'.docs == (if indexed then p.docs + 1 else p.docs))
      && (raised <==> Attempted(p, item) && IndexRaises(env, item.url))
      && (indexed <==> Attempted(p, item) && !IndexRaises(env, item.url) && Chunked(env, item.url))
  {
    var u := item.url;
    if u != "" && u !in p.seen {
      HighlightExtends(p, item, env.viewsOf(item.content));
      var s := ScoreItem(u, env.viewsOf(item.content));
      if IsHighlight(PlatformFromUrl(u), s, p.highlights) {
        assert Highlight(p, item, env.viewsOf(item.content)).docs == p.docs;
      }
    }
  }

  /** The media record of a highlight at `u` with title `title` and score `s`. */
  function MediaRecord(u: string, title: string, s: real): (m: Media)
    requires PlatformFromUrl(u) in SocialPlatforms && 0.0 <= s <= 5.5
    ensures MediaFor(m, u) && m.score == s && m.title == Take(title, 255)
  {
    var plat := PlatformFromUrl(u);
    var thumb := if plat == Youtube then YoutubeThumbnail(u) else "";
    Media(plat, u, Take(title, 255), "", AuthorFromUrl(u), IsInfluencerUrl(u), thumb, s)
  }

  /** The highlight step for a new result: kept when the rule accepts it, else nothing changes. */
  function Highlight(p: Progress, item: Discovery.SearchItem, views: nat): Progress
  {
    var u := item.url;
    var s := ScoreItem(u, views);
    if IsHighlight(PlatformFromUrl(u), s, p.highlights) then WithHighlight(p, u, MediaRecord(u, item.title, s))
    else p
  }

  lemma HighlightStep(p: Progress, item: Discovery.SearchItem, views: nat, start: string, rows: seq<Document>,
                      t: nat, sources: seq<string>)
    requires ProgressOk(p, start, rows, t, sources) && item.url !in p.seen
    ensures ProgressOk(Highlight(p, item, views), start, rows, t, sources)
    ensures Highlight(p, item, views).docs == p.docs && Highlight(p, item, views).seen <= p.seen + {item.url}
  {
    var u := item.url;
    var s := ScoreItem(u, views);
    if IsHighlight(PlatformFromUrl(u), s, p.highlights) {
      HighlightKeepsProgress(p, u, MediaRecord(u, item.title, s), start, rows, t, sources);
    }
  }

  /** A kept highlight: the URL marked seen, appended with its media record, counted. */
  function WithHighlight(p: Progress, u: string, m: Media): Progress
  {
    p.(seen := p.seen + {u}, augmented := p.augmented + [u], media := p.media + [m], highlights := p.highlights + 1)
  }

  lemma HighlightKeepsProgress(p: Progress, u: string, m: Media, start: string, rows: seq<Document>, t: nat,
                               sources: seq<string>)
    requires ProgressOk(p, start, rows, t, sources)
    requires u !in p.seen && MediaFor(m, u) && p.highlights < MaxHighlights
    ensures ProgressOk(WithHighlight(p, u, m), start, rows, t, sources)
  {
    assert u !in p.augmented && u != start;
    HighlightsAppend(p.augmented, p.media, start, u, m);
    var q := WithHighlight(p, u, m);
    assert forall i :: 0 <= i < |q.augmented| ==> q.augmented[i] in q.seen;
  }

  lemma HighlightsAppend(augmented: seq<string>, media: seq<Media>, start: string, u: string, m: Media)
    requires HighlightsOk(augmented, media, start) && |augmented| < MaxHighlights
    requires u !in augmented && u != start && MediaFor(m, u)
    ensures HighlightsOk(augmented + [u], media + [m], start)
  {
    var a, ms := augmented + [u], media + [m];
    assert forall i :: 0 <= i < |augmented| ==> a[i] == augmented[i] && ms[i] == media[i];
  }

  lemma IndexKeepsProgress(p: Progress, u: string, start: string, rows: seq<Document>, added: seq<Document>,
                           t: nat, sources: seq<string>)
    requires ProgressOk(p, start, rows, t, sources)
    requires u !in sources && u != start && !IsNoisy(u) && p.docs < MaxDocs
    requires forall d :: d in added ==> d.toolId == t && d.chunkIndex < ChunksPerSource && d.sourceUrl == u
    ensures ProgressOk(p.(seen := p.seen + {u}, docs := p.docs + 1), start, rows + added, t, sources + [u])
  {
    var s' := sources + [u];
    assert forall i :: 0 <= i < |sources| ==> s'[i] == sources[i];
    assert forall d :: d in rows + added ==> d in rows || d in added;
  }

  /** Indexing one source: fetch its text, keep its first six chunks, embed and store them.
      Nothing is stored when the text has no chunks or a call fails. */
  method IndexSource(db: Database, env: Env, t: nat, u: string, ghost base: Tables, ghost rows: seq<Document>)
    returns (raised: bool, indexed: bool, ghost added: seq<Document>)
    requires db.Valid() && db.tables == base.(documents := base.documents + rows)
    modifies db
    ensures db.Valid() && db.tables == base.(documents := base.documents + rows + added)
    ensures indexed ==> !raised
    ensures !indexed ==> added == []
    ensures raised <==> IndexRaises(env, u)
    ensures indexed <==> !raised && Chunked(env, u)
    ensures forall d :: d in added ==> d.toolId == t && d.chunkIndex < ChunksPerSource && d.sourceUrl == u
  {
    raised, indexed, added := false, false, [];
    var clean := env.fetchClean(u);
    if clean.Err? {
      raised := true;
      return;
    }
    var chunks := env.split(clean.value);
    if chunks == [] {
      return;
    }
    chunks := Take6(chunks);
    var embedded, _ := Embeddings.EmbedTexts(chunks, env.embed);
    if embedded.Err? {
      raised := true;
      return;
    }
    ghost var docs0 := db.tables.documents;
    db.InsertChunks(t, u, chunks, embedded.value);
    added := db.tables.documents[|docs0|..];
    assert db.tables.documents == docs0 + added;
    forall d | d in added ensures d.toolId == t && d.chunkIndex < ChunksPerSource && d.sourceUrl == u {
      var i :| 0 <= i < |added| && added[i] == d;
      assert ChunkRow(added[i], t, u, i, chunks, embedded.value);
    }
    indexed := true;
  }

  /** A new result that reaches the indexing step: not noisy, and fewer than twelve sources indexed. */
  predicate Attempted(p: Progress, item: Discovery.SearchItem)
  {
    item.url != "" && item.url !in p.seen && !IsNoisy(item.url) && p.docs < MaxDocs
  }

  /** The page at `u` is fetched and its text has at least one chunk. */
  predicate Chunked(env: Env, u: string)
  {
    env.fetchClean(u).Ok? && env.split(env.fetchClean(u).value) != []
  }

  /** Indexing `u` raises: the fetch fails, or the text has chunks and embedding them fails. */
  predicate IndexRaises(env: Env, u: string)
  {
    env.fetchClean(u).Err?
    || (env.split(env.fetchClean(u).value) != []
        && Embeddings.EmbedAll(Embeddings.Batches(Take6(env.split(env.fetchClean(u).value))), env.embed).Err?)
  }

  /** What one result does to the loop variables: the new progress, whether the query ends in
      an exception, and whether a source was indexed. */
  function Step(env: Env, p: Progress, item: Discovery.SearchItem): (Progress, bool, bool)
  {
    var u := item.url;
    if u == "" || u in p.seen then (p, false, false)
    else
      var h := Highlight(p, item, env.viewsOf(item.content));
      if !Attempted(p, item) then (h, false, false)
      else if IndexRaises(env, u) then (h, true, false)
      else if Chunked(env, u) then (h.(seen := h.seen + {u}, docs := h.docs + 1), false, true)
      else (h, false, false)
  }

  /** The results of one query, in order, from `p`: the loop stops after a result that raises,
      or after an indexed source that leaves both caps reached. */
  function Scan(env: Env, p: Progress, items: seq<Discovery.SearchItem>): Progress
    decreases |items|
  {
    if items == [] then p
    else
      var (p1, raised, indexed) := Step(env, p, items[0]);
      if raised || (indexed && Full(p1)) then p1 else Scan(env, p1, items[1..])
  }

  /** One query from `p`: nothing when the search fails, else its results scanned. */
  function QueryResult(env: Env, p: Progress, q: string): Progress
  {
    var res := env.search(q, ResultsPerQuery);
    if res.Err? then p else Scan(env, p, res.value)
  }

  /** The queries in order from `p`, stopping before a query once both caps are reached. */
  function RunAll(env: Env, p: Progress, queries: seq<string>): Progress
    decreases |queries|
  {
    if queries == [] || Full(p) then p else RunAll(env, QueryResult(env, p, queries[0]), queries[1..])
  }

  /** One step of `Scan`, given the outcome of its first result. */
  lemma ScanStep(env: Env, p: Progress, items: seq<Discovery.SearchItem>, p1: Progress, raised: bool, indexed: bool)
    requires items != [] && (p1, raised, indexed) == Step(env, p, items[0])
    ensures Scan(env, p, items) == if raised || (indexed && Full(p1)) then p1 else Scan(env, p1, items[1..])
  {
  }

  /** One step of `RunAll` while a cap is still open. */
  lemma RunAllStep(env: Env, p: Progress, queries: seq<string>)
    requires queries != [] && !Full(p)
    ensures RunAll(env, p, queries) == RunAll(env, QueryResult(env, p, queries[0]), queries[1..])
  {
  }

  /** A result only adds: the URLs seen grow, earlier highlights stay in place, and neither
      counter goes down. */
  predicate Extends(p: Progress, p': Progress)
  {
    p.seen <= p'.seen && |p.augmented| <= |p'.augmented| && |p.media| <= |p'.media|
    && p'.augmented[..|p.augmented|] == p.augmented && p'.media[..|p.media|] == p.media
    && p.highlights <= p'.highlights && p.docs <= p'.docs
  }

  lemma StepExtends(env: Env, p: Progress, item: Discovery.SearchItem)
    ensures Extends(p, Step(env, p, item).0)
  {
    var u := item.url;
    if u != "" && u !in p.seen {
      var h := Highlight(p, item, env.viewsOf(item.content));
      HighlightExtends(p, item, env.viewsOf(item.content));
      ExtendsTransitive(p, h, h.(seen := h.seen + {u}, docs := h.docs + 1));
    }
  }

  lemma HighlightExtends(p: Progress, item: Discovery.SearchItem, views: nat)
    ensures Extends(p, Highlight(p, item, views))
  {
    var u := item.url;
    var s := ScoreItem(u, views);
    if IsHighlight(PlatformFromUrl(u), s, p.highlights) {
      var h := WithHighlight(p, u, MediaRecord(u, item.title, s));
      assert h.augmented[..|p.augmented|] == p.augmented;
      assert h.media[..|p.media|] == p.media;
    }
  }

  lemma {:induction false} ScanExtends(env: Env, p: Progress, items: seq<Discovery.SearchItem>)
    ensures Extends(p, Scan(env, p, items))
    decreases |items|
  {
    if items != [] {
      var (p1, raised, indexed) := Step(env, p, items[0]);
      StepExtends(env, p, items[0]);
      if !(raised || (indexed && Full(p1))) {
        ScanExtends(env, p1, items[1..]);
        ExtendsTransitive(p, p1, Scan(env, p1, items[1..]));
      }
    }
  }

  lemma {:induction false} RunAllExtends(env: Env, p: Progress, queries: seq<string>)
    ensures Extends(p, RunAll(env, p, queries))
    decreases |queries|
  {
    if queries != [] && !Full(p) {
      var p1 := QueryResult(env, p, queries[0]);
      var res := env.search(queries[0], ResultsPerQuery);
      if res.Ok? {
        ScanExtends(env, p, res.value);
      }
      RunAllExtends(env, p1, queries[1..]);
      ExtendsTransitive(p, p1, RunAll(env, p1, queries[1..]));
    }
  }

  lemma ExtendsTransitive(p: Progress, q: Progress, r: Progress)
    requires Extends(p, q) && Extends(q, r)
    ensures Extends(p, r)
  {
    assert r.augmented[..|p.augmented|] == q.augmented[..|p.augmented|];
    assert r.media[..|p.media|] == q.media[..|p.media|];
  }

  /** `chunks[:6]`. */
  function Take6(chunks: seq<string>): (r: seq<string>)
    ensures |r| == Min(ChunksPerSource, |chunks|) && r == chunks[..|r|]
  {
    chunks[..Min(ChunksPerSource, |chunks|)]
  }

  /** One query: a failing search skips it; otherwise its results in order, until a failure
      or until both caps are reached right after a source is indexed. */
  method RunQuery(db: Database, env: Env, t: nat, start: string, q: string, p: Progress,
                  ghost base: Tables, ghost rows: seq<Document>, ghost sources: seq<string>)
    returns (p': Progress, ghost rows': seq<Document>, ghost sources': seq<string>)
    requires db.Valid() && ProgressOk(p, start, rows, t, sources)
    requires db.tables == base.(documents := base.documents + rows)
    modifies db
    ensures db.Valid() && ProgressOk(p', start, rows', t, sources')
    ensures db.tables == base.(documents := base.documents + rows')
    ensures p' == QueryResult(env, p, q)
  {
    p', rows', sources' := p, rows, sources;
    var res := env.search(q, ResultsPerQuery);
    if res.Err? {
      return;
    }
    var items := res.value;
    var i := 0;
    while i < |items|
      invariant 0 <= i <= |items|
      invariant db.Valid() && ProgressOk(p', start, rows', t, sources')
      invariant db.tables == base.(documents := base.documents + rows')
      invariant Scan(env, p', items[i..]) == Scan(env, p, items)
    {
      ghost var before := p';
      var raised, indexed;
      p', raised, indexed, rows', sources' := HandleItem(db, env, t, start, items[i], p', base, rows', sources');
      ScanStep(env, before, items[i..], p', raised, indexed);
      assert items[i..][1..] == items[i + 1..];
      if raised || (indexed && Full(p')) {
        return;
      }
      i := i + 1;
    }
  }

  method AugmentSources(db: Database, env: Env, s: State)
    returns (r: Result<State>, ghost rows: seq<Document>, ghost sources: seq<string>)
    requires db.Valid()
    modifies db
    ensures db.Valid()
    ensures Skipping(s) ==>
      r == Ok(NoUpdate.(augmentedUrls := Some([]), augmentedMedia := Some([]))) && db.tables == old(db.tables)
    ensures !Skipping(s) ==>
      (r.Err? <==> s.toolId.None? || (env.tavily && Queries(s.name.GetOr(""), IngestNode.WorkingUrl(s).GetOr("")).Err?))
    ensures r.Err? ==> db.tables == old(db.tables)
    ensures !Skipping(s) && !env.tavily && r.Ok? ==>
      r.value == NoUpdate.(augmentedUrls := Some([])) && db.tables == old(db.tables)
    ensures !Skipping(s) && env.tavily && r.Ok? ==>
      var start := IngestNode.WorkingUrl(s).GetOr("");
      r.value.augmentedUrls.Some? && r.value.augmentedMedia.Some?
      && r.value == NoUpdate.(augmentedUrls := r.value.augmentedUrls, augmentedMedia := r.value.augmentedMedia)
      && HighlightsOk(r.value.augmentedUrls.value, r.value.augmentedMedia.value, start)
      && IndexedOk(rows, s.toolId.value, sources, start)
      && db.tables == old(db.tables).(documents := old(db.tables.documents) + rows)
    ensures !Skipping(s) && env.tavily && r.Ok? ==>
      var p := RunAll(env, Progress({IngestNode.WorkingUrl(s).GetOr("")}, [], [], 0, 0),
                      Queries(s.name.GetOr(""), IngestNode.WorkingUrl(s).GetOr("")).value);
      r.value.augmentedUrls == Some(p.augmented) && r.value.augmentedMedia == Some(p.media)
  {
    rows, sources := [], [];
    if Skipping(s) {
      return Ok(NoUpdate.(augmentedUrls := Some([]), augmentedMedia := Some([]))), rows, sources;
    }
    var start := IngestNode.WorkingUrl(s).GetOr("");
    var name := s.name.GetOr("");
    if s.toolId.None? {
      return Err("KeyError: 'tool_id'"), rows, sources;
    }
    var t := s.toolId.value;
    if !env.tavily {
      return Ok(NoUpdate.(augmentedUrls := Some([]))), rows, sources;
    }
    var queries := Queries(name, start);
    if queries.Err? {
      return Err(queries.error), rows, sources;
    }
    ghost var base := db.tables;
    assert db.tables == base.(documents := base.documents + rows);
    var p := Progress({start}, [], [], 0, 0);
    ghost var p0 := p;
    for k := 0 to |queries.value|
      invariant db.Valid() && ProgressOk(p, start, rows, t, sources)
      invariant db.tables == base.(documents := base.documents + rows)
      invariant RunAll(env, p, queries.value[k..]) == RunAll(env, p0, queries.value)
    {
      if Full(p) {
        break;
      }
      RunAllStep(env, p, queries.value[k..]);
      assert queries.value[k..][1..] == queries.value[k + 1..];
      p, rows, sources := RunQuery(db, env, t, start, queries.value[k], p, base, rows, sources);
    }
    return Ok(NoUpdate.(augmentedUrls := Some(p.augmented), augmentedMedia := Some(p.media))), rows, sources;
  }
}
