/** The pure helpers of the `augment_sources` node (backend/app/flow.py:469-608): its search
    queries, the platform of a result, its score, the highlight rule, the noise filter, and the
    thumbnail and author handle of a highlight. */
module Augment {
  import opened Wrappers
  import opened Strings
  import opened Urls

  /** Highlights kept per run. */
  const MaxHighlights: nat := 6
  /** Sources indexed per run. */
  const MaxDocs: nat := 12
  /** Chunks indexed per source. */
  const ChunksPerSource: nat := 6
  /** Results asked of each search. */
  const ResultsPerQuery: nat := 5

  /** The ten queries about a product name. */
  function NameQueries(name: string): (qs: seq<string>)
    ensures |qs| == 10
  {
    [name + " official documentation", name + " product blog", name + " news", name + " pricing",
     name + " competitors", name + " alternatives",
     "site:youtube.com \"" + name + "\" review OR demo", "site:x.com \"" + name + "\"",
     "site:twitter.com \"" + name + "\"", "site:linkedin.com \"" + name + "\""]
  }

  /** The three queries about a site's bare host. */
  function SiteQueries(base: string): (qs: seq<string>)
    ensures |qs| == 3
  {
    ["site:" + base + " documentation", base + " blog", "site:" + base + " pricing"]
  }

  /** The host of a URL without any port: `(urlparse(url).hostname or "").split(":")[0]`. */
  function BaseHost(p: UrlParts): (base: string)
    ensures NoChar(base, ':')
  {
    var parts := SplitOn(Hostname(p).GetOr(""), ':');
    SplitOnPieces(Hostname(p).GetOr(""), ':');
    parts[0]
  }

  /** The node's queries: the name queries when there is a name, then the site queries when
      there is a URL. Parsing the URL is not guarded, so a URL `urlparse` rejects fails the node. */
  function Queries(name: string, url: string): (r: Result<seq<string>>)
    ensures r.Err? <==> url != "" && Parse(url).Err?
    ensures r.Ok? ==> |r.value| == (if name != "" then 10 else 0) + (if url != "" then 3 else 0)
    ensures r.Ok? && name != "" ==> r.value[..10] == NameQueries(name)
  {
    var byName := if name != "" then NameQueries(name) else [];
    if url == "" then Ok(byName)
    else match Parse(url)
      case Err(e) => Err(e)
      case Ok(p) =>
        assert (byName + SiteQueries(BaseHost(p)))[..|byName|] == byName;
        Ok(byName + SiteQueries(BaseHost(p)))
  }

  // ---------------------------------------------------------------------------
  // Platform, score and the highlight rule

  const Youtube: string := "youtube"
  const Tiktok: string := "tiktok"
  const X: string := "x"
  const Linkedin: string := "linkedin"
  const Other: string := "other"

  /** The social platforms a highlight can come from. */
  const SocialPlatforms: set<string> := {Youtube, Tiktok, X, Linkedin}

  /** `platform_from_url`: the first platform whose marker the URL contains. */
  function PlatformFromUrl(u: string): (p: string)
    ensures p in SocialPlatforms || p == Other
    ensures p == Youtube <==> Contains(u, "youtube.com") || Contains(u, "youtu.be")
  {
    if Contains(u, "youtube.com") || Contains(u, "youtu.be") then Youtube
    else if Contains(u, "tiktok.com") then Tiktok
    else if Contains(u, "x.com") || Contains(u, "twitter.com") then X
    else if Contains(u, "linkedin.com") then Linkedin
    else Other
  }

  /** Every marker of a social platform. */
  const SocialMarkers: seq<string> := ["youtube.com", "youtu.be", "tiktok.com", "x.com", "twitter.com", "linkedin.com"]

  /** A URL is on a social platform exactly when it contains one of the six markers. */
  lemma PlatformSocialIffMarked(u: string)
    ensures PlatformFromUrl(u) in SocialPlatforms <==> ContainsAny(u, SocialMarkers)
  {
    if ContainsAny(u, SocialMarkers) {
      var k :| 0 <= k < |SocialMarkers| && Contains(u, SocialMarkers[k]);
      assert PlatformFromUrl(u) != Other;
    } else {
      forall k | 0 <= k < |SocialMarkers| ensures !Contains(u, SocialMarkers[k]) { }
      assert !Contains(u, SocialMarkers[0]) && !Contains(u, SocialMarkers[1]) && !Contains(u, SocialMarkers[2]);
      assert !Contains(u, SocialMarkers[3]) && !Contains(u, SocialMarkers[4]) && !Contains(u, SocialMarkers[5]);
    }
  }

  /** The influencer handles that add to a result's score. */
  const Influencers: seq<string> := ["elonmusk", "sama", "jensenh", "satyanadella", "sundarpichai"]

  /** The hosts that earn the social bonus. */
  const BonusHosts: seq<string> := ["youtube.com", "tiktok.com", "x.com", "linkedin.com"]

  predicate IsInfluencerUrl(u: string) { ContainsAny(u, Influencers) }

  function RealMin(a: real, b: real): real { if a <= b then a else b }

  /** `score_item`: 0.5 for a bonus host, 2.0 for an influencer, and one point per 100000 views
      up to 3. `views` is the count the view pattern of backend/app/flow.py:521 extracts. That
      pattern is a raw string with doubled backslashes, so it only matches when a literal
      backslash stands between the number and "views"/"likes": for ordinary content such as
      "1,200 views" it finds nothing and `views` is 0. */
  function ScoreItem(u: string, views: nat): (s: real)
    ensures 0.0 <= s <= 5.5
    ensures s >= 0.5 <== ContainsAny(u, BonusHosts)
    ensures s >= 2.0 <== IsInfluencerUrl(u)
    ensures !ContainsAny(u, BonusHosts) && !IsInfluencerUrl(u) ==> s == RealMin(views as real / 100000.0, 3.0)
  {
    (if ContainsAny(u, BonusHosts) then 0.5 else 0.0)
    + (if IsInfluencerUrl(u) then 2.0 else 0.0)
    + RealMin(views as real / 100000.0, 3.0)
  }

  /** Whether a result becomes a highlight, given the highlights kept so far. */
  predicate IsHighlight(p: string, s: real, highlights: nat)
  {
    p in SocialPlatforms && highlights < MaxHighlights
    && (s >= 0.5 || (p in {X, Linkedin} && highlights < 2) || (p == Youtube && s >= 1.0))
  }

  /** The rule reduces to: a social result scoring at least 0.5, or one of the first two from X
      or LinkedIn whatever its score; the separate YouTube threshold of 1.0 never decides. */
  lemma HighlightRule(p: string, s: real, highlights: nat)
    ensures IsHighlight(p, s, highlights) <==>
      p in SocialPlatforms && highlights < MaxHighlights && (s >= 0.5 || (p in {X, Linkedin} && highlights < 2))
  {
  }

  /** A short youtu.be link from nobody in particular earns no bonus: it is a highlight only
      when the extracted view count is at least 50000. */
  lemma ShortYoutubeLinks(u: string, views: nat, highlights: nat)
    requires Contains(u, "youtu.be") && !ContainsAny(u, BonusHosts) && !IsInfluencerUrl(u)
    requires highlights < MaxHighlights
    ensures IsHighlight(PlatformFromUrl(u), ScoreItem(u, views), highlights) <==> views >= 50000
  {
  }

  /** With the view count 0 that ordinary content yields, such a link is never a highlight. */
  lemma ShortYoutubeLinksWithoutViews(u: string, highlights: nat)
    requires Contains(u, "youtu.be") && !ContainsAny(u, BonusHosts) && !IsInfluencerUrl(u)
    ensures !IsHighlight(PlatformFromUrl(u), ScoreItem(u, 0), highlights)
  {
    if highlights < MaxHighlights {
      ShortYoutubeLinks(u, 0, highlights);
    }
  }

  /** Results from support, help and community pages are never indexed. */
  predicate IsNoisy(u: string)
  {
    ContainsAny(Lower(u), ["support.", "/support", "/help", "community."])
  }

  // ---------------------------------------------------------------------------
  // Thumbnail and author handle

  /** The first segment of a path with its slashes stripped. */
  function FirstSegment(path: string): (seg: string)
    ensures NoChar(seg, '/')
  {
    var parts := SplitOn(StripSet(if path == [] then "/" else path, {'/'}), '/');
    SplitOnPieces(StripSet(if path == [] then "/" else path, {'/'}), '/');
    parts[0]
  }

  /** `youtube_thumbnail`: the video's high-quality thumbnail, the id taken from the path of a
      youtu.be link and from the `v` parameter otherwise; "" without an id or a parse. */
  function YoutubeThumbnail(u: string): (t: string)
  {
    match Parse(u)
    case Err(_) => ""
    case Ok(p) =>
      var vid := if Contains(Hostname(p).GetOr(""), "youtu.be") then FirstSegment(p.path)
                 else FirstValue(QueryPairs(p.query, false), "v");
      ThumbnailFor(vid)
  }

  /** The thumbnail address of a video id; "" for no id. */
  function ThumbnailFor(vid: string): (t: string)
    ensures vid == "" <==> t == ""
    ensures vid != "" ==> StartsWith(t, "https://img.youtube.com/vi/") && EndsWith(t, "/hqdefault.jpg")
  {
    if vid != "" then
      var t := "https://img.youtube.com/vi/" + vid + "/hqdefault.jpg";
      assert t[..27] == "https://img.youtube.com/vi/";
      assert t[|t| - 14..] == "/hqdefault.jpg";
      t
    else ""
  }

  /** The video id is recovered from the thumbnail address. */
  lemma ThumbnailRoundTrip(vid: string)
    requires vid != ""
    ensures var t := ThumbnailFor(vid); t[27..|t| - 14] == vid
  {
  }

  /** `author_from_url`: the first path segment ("" without a parse). */
  function AuthorFromUrl(u: string): (a: string)
    ensures NoChar(a, '/')
  {
    match Parse(u)
    case Err(_) => ""
    case Ok(p) => FirstSegment(p.path)
  }
}
