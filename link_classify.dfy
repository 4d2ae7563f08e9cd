/** Link kinds and per-kind fetching (backend/app/link_classify.py). The transcript
    service and the generic scraper are parameters: `None`/`Err` stands for a call
    that raised. */
module LinkClassify {
  import opened Wrappers
  import opened Strings
  import opened Urls

  datatype LinkKind = VideoYoutube | VideoTiktok | Social | Podcast | ArticleOrHomepage

  const YoutubeMarks: seq<string> := ["youtube.com", "youtu.be"]
  const TiktokMarks: seq<string> := ["tiktok.com"]
  const SocialMarks: seq<string> := ["x.com", "twitter.com", "linkedin.com"]
  const PodcastMarks: seq<string> :=
    ["spotify.com", "podcasts.google", "podcasts.apple", "buzzsprout", "simplecast", "anchor.fm", "megaphone.fm", "transistor.fm", "castbox.fm"]

  /** The kind of a lower-cased host: the first family of markers that occurs in it wins. */
  function ClassifyHost(host: string): (k: LinkKind)
    ensures host == [] ==> k == ArticleOrHomepage
    ensures k == VideoYoutube <==> host != [] && ContainsAny(host, YoutubeMarks)
    ensures k == VideoTiktok <==> host != [] && !ContainsAny(host, YoutubeMarks) && ContainsAny(host, TiktokMarks)
    ensures k == Social <==>
      host != [] && !ContainsAny(host, YoutubeMarks) && !ContainsAny(host, TiktokMarks) && ContainsAny(host, SocialMarks)
    ensures k == Podcast <==>
      host != [] && !ContainsAny(host, YoutubeMarks) && !ContainsAny(host, TiktokMarks) && !ContainsAny(host, SocialMarks)
      && ContainsAny(host, PodcastMarks)
  {
    if host == [] then ArticleOrHomepage
    else if ContainsAny(host, YoutubeMarks) then VideoYoutube
    else if ContainsAny(host, TiktokMarks) then VideoTiktok
    else if ContainsAny(host, SocialMarks) then Social
    else if ContainsAny(host, PodcastMarks) then Podcast
    else ArticleOrHomepage
  }

  /** `classify_link(url)`: the kind of the URL's lower-cased host; a missing or unparsable host is an article. */
  function ClassifyLink(url: string): (k: LinkKind)
    ensures HostOf(url) == [] ==> k == ArticleOrHomepage
    ensures k == ClassifyHost(HostOf(url))
  {
    ClassifyHost(HostOf(url))
  }

  /** Matching is by substring: a host that merely contains "x.com", such as dropbox.com, is social. */
  lemma DropboxIsSocial()
    ensures ClassifyHost("dropbox.com") == Social
  {
    var h := "dropbox.com";
    assert StartsWith(h[6..], "x.com");
    assert Contains(h, SocialMarks[0]);
    assert !ContainsAny(h, YoutubeMarks) by {
      forall k, i | 0 <= k < |YoutubeMarks| && 0 <= i <= |h| - |YoutubeMarks[k]| ensures !StartsWith(h[i..], YoutubeMarks[k]) {
        assert h[i..][2] != YoutubeMarks[k][2];
      }
    }
    assert !ContainsAny(h, TiktokMarks) by {
      forall i | 0 <= i <= |h| - |TiktokMarks[0]| ensures !StartsWith(h[i..], TiktokMarks[0]) {
        assert h[i..][0] != 't';
      }
    }
  }

  /** A host with several markers takes the earliest family in the order of the checks. */
  lemma YoutubeBeforeSocial(host: string)
    requires ContainsAny(host, YoutubeMarks) && ContainsAny(host, SocialMarks)
    ensures ClassifyHost(host) == VideoYoutube
  {
  }

  // ---------------------------------------------------------------------------
  // _youtube_id

  /** The segment after "/shorts/" in a path, or "". */
  function ShortsId(path: string): string
  {
    var parts := SplitOn(path, '/');
    if |parts| > 2 then parts[2] else ""
  }

  /** `_youtube_id` on parsed components. */
  function YoutubeIdOf(p: UrlParts): (vid: string)
    ensures Contains(Hostname(p).GetOr(""), "youtu.be") ==>
      vid == SplitOn(StripSet(if p.path == [] then "/" else p.path, {'/'}), '/')[0]
    ensures !Contains(Hostname(p).GetOr(""), "youtu.be") && FirstValue(QueryPairs(p.query, false), "v") != [] ==>
      vid == FirstValue(QueryPairs(p.query, false), "v")
    ensures (!Contains(Hostname(p).GetOr(""), "youtu.be") && FirstValue(QueryPairs(p.query, false), "v") == []
      && !StartsWith(p.path, "/shorts/")) ==> vid == []
    ensures (!Contains(Hostname(p).GetOr(""), "youtu.be") && FirstValue(QueryPairs(p.query, false), "v") == []
      && StartsWith(p.path, "/shorts/")) ==> vid == ShortsId(p.path)
  {
    if Contains(Hostname(p).GetOr(""), "youtu.be") then
      SplitOn(StripSet(if p.path == [] then "/" else p.path, {'/'}), '/')[0]
    else
      var vid := FirstValue(QueryPairs(p.query, false), "v");
      if vid == [] && StartsWith(p.path, "/shorts/") then ShortsId(p.path) else vid
  }

  /** For youtu.be links the id is one path segment: it never holds a '/'. */
  lemma YoutuBeIdIsSegment(p: UrlParts)
    requires Contains(Hostname(p).GetOr(""), "youtu.be")
    ensures NoChar(YoutubeIdOf(p), '/')
  {
    SplitOnPieces(StripSet(if p.path == [] then "/" else p.path, {'/'}), '/');
  }

  lemma LeadingSlashSplit(mid: string)
    ensures SplitOn(['/'] + mid, '/') == [[]] + SplitOn(mid, '/')
  {
    assert ['/'] + mid == [] + ['/'] + mid;
    SplitOnCons([], '/', mid);
  }

  lemma ShortsSegmentSplit(tail: string)
    ensures SplitOn("shorts/" + tail, '/') == ["shorts"] + SplitOn(tail, '/')
  {
    assert "shorts/" + tail == "shorts" + ['/'] + tail;
    SplitOnCons("shorts", '/', tail);
  }

  lemma FirstPiece(id: string, rest: string)
    requires NoChar(id, '/')
    requires rest == [] || rest[0] == '/'
    ensures SplitOn(id + rest, '/')[0] == id
  {
    if rest == [] {
      IndexOfAbsent(id, '/');
      assert id + rest == id;
    } else {
      assert id + rest == id + ['/'] + rest[1..];
      SplitOnCons(id, '/', rest[1..]);
    }
  }

  /** A "/shorts/ID" path, possibly followed by more segments, yields ID. */
  lemma ShortsPathId(id: string, rest: string)
    requires NoChar(id, '/')
    requires rest == [] || rest[0] == '/'
    ensures ShortsId("/shorts/" + id + rest) == id
  {
    var tail := id + rest;
    assert "/shorts/" + id + rest == ['/'] + ("shorts/" + tail);
    LeadingSlashSplit("shorts/" + tail);
    ShortsSegmentSplit(tail);
    FirstPiece(id, rest);
  }

  /** A non-youtu.be link without a `v` value whose path is "/shorts/ID[/...]" yields ID. */
  lemma ShortsLinkId(p: UrlParts, id: string, rest: string)
    requires !Contains(Hostname(p).GetOr(""), "youtu.be")
    requires FirstValue(QueryPairs(p.query, false), "v") == []
    requires NoChar(id, '/')
    requires rest == [] || rest[0] == '/'
    requires p.path == "/shorts/" + id + rest
    ensures YoutubeIdOf(p) == id
  {
    assert p.path[..|"/shorts/"|] == "/shorts/";
    ShortsPathId(id, rest);
  }

  /** `_youtube_id(url)`: "" whenever `urlparse` raises. */
  function YoutubeId(url: string): (vid: string)
    ensures Parse(url).Err? ==> vid == []
    ensures Parse(url).Ok? ==> vid == YoutubeIdOf(Parse(url).value)
  {
    match Parse(url)
    case Err(_) => ""
    case Ok(p) => YoutubeIdOf(p)
  }

  // ---------------------------------------------------------------------------
  // Transcripts and fetch dispatch

  /** Hard cap on transcript length, in characters. */
  const TranscriptCap: nat := 200000

  /** The segment texts that are present and non-empty, in order. */
  function NonEmptyTexts(texts: seq<string>): (r: seq<string>)
    ensures |r| <= |texts|
    ensures forall k :: 0 <= k < |r| ==> r[k] != [] && r[k] in texts
  {
    if texts == [] then []
    else (if texts[0] != [] then [texts[0]] else []) + NonEmptyTexts(texts[1..])
  }

  /** `_youtube_transcript_text`: `segments` is the transcript service's answer for the id
      (a missing "text" read as ""), `None` when the import or the call raised. */
  function TranscriptText(videoId: string, segments: Option<seq<string>>): (text: string)
    ensures videoId == [] || segments.None? ==> text == []
    ensures |text| <= TranscriptCap
    ensures videoId != [] && segments.Some? ==> StartsWith(Join("\n", NonEmptyTexts(segments.value)), text)
    ensures videoId != [] && segments.Some? && |Join("\n", NonEmptyTexts(segments.value))| <= TranscriptCap ==>
      text == Join("\n", NonEmptyTexts(segments.value))
  {
    if videoId == [] then []
    else match segments
      case None => []
      case Some(segs) => Take(Join("\n", NonEmptyTexts(segs)), TranscriptCap)
  }

  /** Only an all-blank transcript is empty. */
  lemma {:induction false} TranscriptEmptyIffBlank(videoId: string, segs: seq<string>)
    requires videoId != []
    ensures TranscriptText(videoId, Some(segs)) == [] <==> forall k :: 0 <= k < |segs| ==> segs[k] == []
  {
    var ne := NonEmptyTexts(segs);
    if ne != [] {
      JoinFirstNonEmpty(ne);
    } else {
      NoNonEmptyMeansBlank(segs);
    }
    if exists k :: 0 <= k < |segs| && segs[k] != [] {
      var k :| 0 <= k < |segs| && segs[k] != [];
      NonEmptyKeeps(segs, k);
    }
  }

  lemma JoinFirstNonEmpty(parts: seq<string>)
    requires parts != [] && parts[0] != []
    ensures |Join("\n", parts)| > 0
  {
  }

  lemma {:induction false} NoNonEmptyMeansBlank(texts: seq<string>)
    requires NonEmptyTexts(texts) == []
    ensures forall k :: 0 <= k < |texts| ==> texts[k] == []
  {
    if texts != [] {
      NoNonEmptyMeansBlank(texts[1..]);
      assert forall k :: 1 <= k < |texts| ==> texts[k] == texts[1..][k - 1];
    }
  }

  lemma {:induction false} NonEmptyKeeps(texts: seq<string>, k: nat)
    requires k < |texts| && texts[k] != []
    ensures NonEmptyTexts(texts) != []
  {
    if texts[0] == [] {
      NonEmptyKeeps(texts[1..], k - 1);
    }
  }

  /** `fetch_text_for_url`: a non-empty transcript for YouTube links, the generic scrape otherwise.
      `transcriptOf(id)` is the transcript service, `scrape(url)` is `fetch_clean_text`. */
  function FetchTextForUrl(url: string, transcriptOf: string -> Option<seq<string>>, scrape: string -> Result<string>): (r: Result<string>)
    ensures ClassifyLink(url) != VideoYoutube ==> r == scrape(url)
    ensures ClassifyLink(url) == VideoYoutube ==>
      var tx := TranscriptText(YoutubeId(url), transcriptOf(YoutubeId(url)));
      (tx != [] ==> r == Ok(tx)) && (tx == [] ==> r == scrape(url))
    ensures r.Ok? && r != scrape(url) ==> 0 < |r.value| <= TranscriptCap
  {
    if ClassifyLink(url) == VideoYoutube then
      var vid := YoutubeId(url);
      var tx := TranscriptText(vid, transcriptOf(vid));
      if tx != [] then Ok(tx) else scrape(url)
    else scrape(url)
  }
}
