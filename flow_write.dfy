/** The `dbwrite` node (backend/app/flow.py:319-461): store the one-pager on the tool, record
    the verdicts, make a new latest version, link it to the user, snapshot the documents behind
    it and store the highlights gathered. */
module WriteNode {
  import opened Wrappers
  import opened Strings
  import opened Json
  import opened Urls
  import opened FlowState
  import opened Store
  import Juror
  import Validators
  import Augment

  /** Text columns of a media row keep this many characters. */
  const TextCap: nat := 255
  /** Documents snapshotted per version. */
  const SnapshotCap: nat := 200
  /** The mark on a claim the juror found no citation for. */
  const Unverified: string := "UNVERIFIED: "

  // ---------------------------------------------------------------------------
  // The tool's name

  /** The product name the synthesis proposes: the `product_name` field when truthy, as a
      string, stripped; "" otherwise. */
  function ProposedName(onePager: seq<(string, Json)>): (n: string)
    ensures n != "" ==> Get(onePager, "product_name").Some? && Truthy(Get(onePager, "product_name").value)
  {
    match Get(onePager, "product_name")
    case None => ""
    case Some(j) => if Truthy(j) then Strip(PyStr(j)) else ""
  }

  /** The name kept after the write: the proposed name replaces a current name that is not a
      plausible product name or that starts with "http". */
  function RefreshedName(cur: string, onePager: seq<(string, Json)>): (n: string)
    ensures n == cur || (n == ProposedName(onePager) && n != "")
    ensures n != cur ==> !Validators.IsPlausibleProductName(cur) || StartsWith(cur, "http")
  {
    var proposed := ProposedName(onePager);
    if proposed != "" && (!Validators.IsPlausibleProductName(cur) || StartsWith(cur, "http")) then proposed else cur
  }

  /** A plausible name is never overwritten, and a tool named by its URL takes the proposed
      name; a proposal is needed either way. */
  lemma NameRefresh(cur: string, onePager: seq<(string, Json)>)
    ensures Validators.IsPlausibleProductName(cur) && !StartsWith(cur, "http") ==> RefreshedName(cur, onePager) == cur
    ensures ProposedName(onePager) == "" ==> RefreshedName(cur, onePager) == cur
    ensures StartsWith(cur, "http") && ProposedName(onePager) != "" ==> RefreshedName(cur, onePager) == ProposedName(onePager)
  {
  }

  /** The tool row after the write: the refreshed name, the one-pager and status
      "partially_verified". */
  function Refreshed(tool: Tool, onePager: seq<(string, Json)>): (r: Tool)
    ensures r.onePager == onePager && r.status == PartiallyVerified
    ensures r.canonicalUrl == tool.canonicalUrl && r.watchlist == tool.watchlist
  {
    tool.(name := RefreshedName(tool.name, onePager), onePager := onePager, status := PartiallyVerified)
  }

  // ---------------------------------------------------------------------------
  // Verdicts

  /** The value recorded for a verdict: the claim, marked when it is not verified. */
  function VerdictValue(v: Juror.Verdict): (s: string)
    ensures v.verified ==> s == v.claim
    ensures !v.verified ==> StartsWith(s, Unverified) && s[|Unverified|..] == v.claim
  {
    if v.verified then v.claim
    else
      var s := Unverified + v.claim;
      assert s[..|Unverified|] == Unverified;
      s
  }

  /** The claim is recovered from the recorded value once the verdict is known. */
  function ClaimOf(value: string, verified: bool): string
  {
    if verified || |value| < |Unverified| then value else value[|Unverified|..]
  }

  lemma ClaimRoundTrip(v: Juror.Verdict)
    ensures ClaimOf(VerdictValue(v), v.verified) == v.claim
  {
  }

  /** The `tool_updates` rows of the verdicts, one per verdict in order. */
  function VerdictRows(t: nat, verdicts: seq<Juror.Verdict>): (rows: seq<ToolUpdate>)
    ensures |rows| == |verdicts|
    ensures forall i :: 0 <= i < |rows| ==>
      rows[i] == ToolUpdate(t, "claim", VerdictValue(verdicts[i]), verdicts[i].citationUrl, "juror")
  {
    seq(|verdicts|, i requires 0 <= i < |verdicts| =>
      ToolUpdate(t, "claim", VerdictValue(verdicts[i]), verdicts[i].citationUrl, "juror"))
  }

  /** The insert loop over the verdicts. */
  method RecordVerdicts(db: Database, t: nat, verdicts: seq<Juror.Verdict>)
    requires db.Valid()
    modifies db
    ensures db.Valid() && db.nextId == old(db.nextId)
    ensures db.tables == old(db.tables).(toolUpdates := old(db.tables.toolUpdates) + VerdictRows(t, verdicts))
  {
    ghost var rows := VerdictRows(t, verdicts);
    for i := 0 to |verdicts|
      invariant db.Valid() && db.nextId == old(db.nextId)
      invariant db.tables == old(db.tables).(toolUpdates := old(db.tables.toolUpdates) + rows[..i])
    {
      var v := verdicts[i];
      assert rows[..i + 1] == rows[..i] + [rows[i]];
      db.tables := db.tables.(toolUpdates := db.tables.toolUpdates + [ToolUpdate(t, "claim", VerdictValue(v), v.citationUrl, "juror")]);
    }
    assert rows[..|verdicts|] == rows;
  }

  // ---------------------------------------------------------------------------
  // Document snapshot and media

  /** The documents snapshotted for a version: the tool's 200 most recently stored. */
  function Recent(docs: seq<Document>, t: nat): (r: seq<Document>)
    ensures |r| <= SnapshotCap
    ensures forall d :: d in r ==> d in docs && d.toolId == t
    ensures |DocsOf(docs, t)| <= SnapshotCap ==> r == DocsOf(docs, t)
  {
    var ds := DocsOf(docs, t);
    ds[|ds| - Min(SnapshotCap, |ds|)..]
  }

  /** The `tool_version_documents` rows of version `v`. */
  function SnapshotPairs(v: nat, docs: seq<Document>, t: nat): (pairs: set<(nat, nat)>)
    ensures forall p :: p in pairs ==> p.0 == v && exists d :: d in docs && d.toolId == t && d.id == p.1
  {
    set d | d in Recent(docs, t) :: (v, d.id)
  }

  /** `platform_for`: the platform of a media URL by its lower-cased host; "other" when it
      parses to none of them. */
  function PlatformFor(u: string): (p: string)
    ensures p in Augment.SocialPlatforms || p == Augment.Other
  {
    var host := HostOf(u);
    if Contains(host, "youtube.") || Contains(host, "youtu.") then Augment.Youtube
    else if Contains(host, "tiktok.") then Augment.Tiktok
    else if EndsWith(host, "x.com") || Contains(host, "twitter.") then Augment.X
    else if Contains(host, "linkedin.") then Augment.Linkedin
    else Augment.Other
  }

  /** The `media_items` row of a highlight for version `v`: its platform (or the one its URL
      shows when it has none), its text columns cut to 255 characters. */
  function MediaRow(v: nat, m: Media): (r: MediaItem)
    ensures r.versionId == v && r.url == m.url && r.isInfluencer == m.isInfluencer && r.thumbnailUrl == m.thumbnailUrl
    ensures m.platform != "" ==> r.platform == m.platform
    ensures m.platform == "" ==> r.platform in Augment.SocialPlatforms || r.platform == Augment.Other
    ensures |r.title| <= TextCap && r.title <= m.title && (|m.title| <= TextCap ==> r.title == m.title)
    ensures |r.author| <= TextCap && r.author <= m.author
    ensures |r.authorHandle| <= TextCap && r.authorHandle <= m.authorHandle
  {
    MediaItem(v, if m.platform != "" then m.platform else PlatformFor(m.url), m.url,
              Take(m.title, TextCap), Take(m.author, TextCap), Take(m.authorHandle, TextCap),
              m.isInfluencer, m.thumbnailUrl)
  }

  function MediaRows(v: nat, ms: seq<Media>): (rows: seq<MediaItem>)
    ensures |rows| == |ms|
    ensures forall i :: 0 <= i < |ms| ==> rows[i] == MediaRow(v, ms[i])
  {
    seq(|ms|, i requires 0 <= i < |ms| => MediaRow(v, ms[i]))
  }

  // ---------------------------------------------------------------------------
  // The node

  /** The user link a write inserts: one row for a user id the `::uuid` cast accepts, none
      without a user, and none when the cast fails, since that insert's error is swallowed. */
  function LinkRows(user: Option<string>, v: nat, now: int): (rows: seq<UserLink>)
    ensures |rows| <= 1
    ensures rows != [] <==> Given(user) && IsUuidText(user.value)
    ensures forall l :: l in rows ==> l == UserLink(user.value, v, now)
  {
    if Given(user) && IsUuidText(user.value) then [UserLink(user.value, v, now)] else []
  }

  /** The tables after a write for tool `t` that made version `v`. */
  ghost function Written(tb: Tables, s: State, t: nat, v: nat, now: int): Tables
    requires t in tb.tools
  {
    var onePager := s.onePager.GetOr([]);
    tb.(tools := tb.tools[t := Refreshed(tb.tools[t], onePager)],
        toolUpdates := tb.toolUpdates + VerdictRows(t, s.verdicts.GetOr([])),
        versions := Bumped(tb.versions, t, v, onePager, now),
        userVersions := tb.userVersions + LinkRows(s.userId, v, now),
        versionDocuments := tb.versionDocuments + SnapshotPairs(v, tb.documents, t),
        media := tb.media + MediaRows(v, s.augmentedMedia.GetOr([])))
  }

  /** After a write the tool's one-pager is its latest version's, the tool is
      "partially_verified", and every document snapshotted for that version is one of its own. */
  lemma WrittenInSync(tb: Tables, s: State, t: nat, v: nat, now: int)
    requires t in tb.tools && VersionsValid(tb.versions) && v !in tb.versions
    ensures var w := Written(tb, s, t, v, now);
      LatestOf(w.versions, t) == Some(v)
      && w.tools[t].onePager == w.versions[v].onePager == s.onePager.GetOr([])
      && w.tools[t].status == PartiallyVerified
      && forall p :: p in w.versionDocuments && p !in tb.versionDocuments ==>
           p.0 == v && exists d :: d in tb.documents && d.toolId == t && d.id == p.1
  {
    BumpedValid(tb.versions, t, v, s.onePager.GetOr([]), now);
  }

  /** The user link of the new version `v`, its document snapshot and its media rows. */
  method LinkAndSnapshot(db: Database, s: State, t: nat, v: nat, now: int)
    requires db.Valid() && v < db.nextId
    requires forall l :: l in db.tables.userVersions ==> l.versionId != v
    modifies db
    ensures db.Valid()
    ensures db.tables == old(db.tables).(
      userVersions := old(db.tables.userVersions) + LinkRows(s.userId, v, now),
      versionDocuments := old(db.tables.versionDocuments) + SnapshotPairs(v, old(db.tables.documents), t),
      media := old(db.tables.media) + MediaRows(v, s.augmentedMedia.GetOr([])))
  {
    if Given(s.userId) && IsUuidText(s.userId.value) {
      var _ := db.LinkUser(s.userId.value, v, now);
    }
    db.tables := db.tables.(versionDocuments := db.tables.versionDocuments + SnapshotPairs(v, db.tables.documents, t));
    db.tables := db.tables.(media := db.tables.media + MediaRows(v, s.augmentedMedia.GetOr([])));
  }

  method WriteTool(db: Database, env: Env, s: State) returns (r: Result<State>, ghost version: nat)
    requires db.Valid()
    modifies db
    ensures db.Valid()
    ensures Skipping(s) ==> r == Ok(StatusOnly(s, PartiallyVerified)) && db.tables == old(db.tables)
    // Writing needs the tool: without one the first insert fails and nothing is written.
    ensures !Skipping(s) ==> (r.Ok? <==> s.toolId.Some? && s.toolId.value in old(db.tables.tools))
    ensures r.Err? ==> db.tables == old(db.tables)
    ensures r.Ok? && !Skipping(s) ==>
      r.value == NoUpdate.(status := Some(PartiallyVerified))
      && version !in old(db.tables.versions)
      && db.tables == Written(old(db.tables), s, s.toolId.value, version, env.now)
  {
    version := 0;
    if Skipping(s) {
      return Ok(StatusOnly(s, PartiallyVerified)), version;
    }
    if s.toolId.None? {
      return Err("KeyError: 'tool_id'"), version;
    }
    var t := s.toolId.value;
    if t !in db.tables.tools {
      return Err("ForeignKeyViolationError: tool not present"), version;
    }
    ghost var tb := db.tables;
    var onePager := s.onePager.GetOr([]);
    db.tables := db.tables.(tools := db.tables.tools[t := Refreshed(db.tables.tools[t], onePager)]);
    RecordVerdicts(db, t, s.verdicts.GetOr([]));
    var id := db.BumpVersion(t, onePager, env.now);
    version := id;
    LinkAndSnapshot(db, s, t, id, env.now);
    return Ok(NoUpdate.(status := Some(PartiallyVerified))), version;
  }
}
