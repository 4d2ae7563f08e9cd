/** The `resolve_tool` node (backend/app/flow.py:40-186): find or create the tool a request is
    about, and decide whether a recent version lets the rest of the pipeline be skipped. */
module ResolveNode {
  import opened Wrappers
  import opened Urls
  import opened FlowState
  import opened Store
  import Canonical
  import Discovery

  /** The discovery of a name-only request. Candidates are gathered only when search is
      configured, and a failing search leaves none. The model then picks a site; a failing call
      reads as no pick. The pick itself is made by `Discovery.PickOfficialSite`. */
  method Discover(env: Env, name: string)
    returns (r: Result<Option<string>>, pick: string, urls: seq<string>)
    ensures !env.tavily ==> urls == []
    ensures Discovery.DistinctUrls(urls)
    ensures pick != "" && !Discovery.IsSocial(pick) ==>
      r == (match Canonical.CanonicalizeUrl(pick) case Ok(c) => Ok(Some(c)) case Err(e) => Err(e))
    ensures !(pick != "" && !Discovery.IsSocial(pick)) ==>
      r == Discovery.FallbackPick(urls, Discovery.IsSocial, Canonical.CanonicalizeUrl)
    ensures r.Ok? && r.value.Some? ==> r.value.value != ""
  {
    var forLlm: seq<string> := [];
    urls := [];
    if env.tavily {
      ghost var kept;
      forLlm, urls, kept := Discovery.GatherCandidates(env.search, name);
    }
    var answer := env.pickSite(name, forLlm);
    pick := if answer.Ok? then answer.value else "";
    r := Discovery.PickOfficialSite(pick, urls, Discovery.IsSocial, Canonical.CanonicalizeUrl);
    if r.Ok? && r.value.Some? {
      if pick != "" && !Discovery.IsSocial(pick) {
        Discovery.CanonicalNotEmpty(pick);
      } else {
        FallbackPickNotEmpty(urls);
      }
    }
  }

  /** The fallback never picks the empty string. */
  lemma {:induction false} FallbackPickNotEmpty(urls: seq<string>)
    ensures var f := Discovery.FallbackPick(urls, Discovery.IsSocial, Canonical.CanonicalizeUrl);
      f.Ok? && f.value.Some? ==> f.value.value != ""
  {
    if urls != [] {
      FallbackPickNotEmpty(urls[1..]);
    }
  }

  /** The alias rows of a new tool. */
  function AliasRows(t: nat, seeds: seq<Discovery.AliasSeed>): (rows: seq<Alias>)
    ensures |rows| == |seeds|
    ensures forall i :: 0 <= i < |seeds| ==>
      rows[i] == Alias(t, seeds[i].value, seeds[i].kind, seeds[i].confidence)
  {
    if seeds == [] then []
    else [Alias(t, seeds[0].value, seeds[0].kind, seeds[0].confidence)] + AliasRows(t, seeds[1..])
  }

  /** The lower-cased host of a canonical URL; "" without one. */
  function HostOfCanonical(canonical: Option<string>): string
  {
    if Given(canonical) then HostOf(canonical.value) else ""
  }

  /** Tool `t` carries the canonical URL `c`. */
  ghost predicate HasUrl(tools: map<nat, Tool>, t: nat, c: Option<string>)
  {
    t in tools && c.Some? && tools[t].canonicalUrl == c
  }

  /** The latest version of tool `t` is younger than six hours at `now`. */
  ghost predicate FreshLatest(vs: map<nat, Version>, t: nat, now: int)
  {
    var l := LatestOf(vs, t);
    l.Some? && l.value in vs && Discovery.Fresh(now, vs[l.value].createdAt)
  }

  method ResolveTool(db: Database, env: Env, s: State) returns (r: Result<State>)
    requires db.Valid()
    modifies db
    ensures db.Valid()
    ensures old(db.tables.tools).Keys <= db.tables.tools.Keys
    // The request's own URL is canonicalised; a URL it cannot parse fails the node.
    ensures Given(s.url) && Canonical.CanonicalizeUrl(s.url.value).Err? ==> r.Err? && db.tables == old(db.tables)
    ensures Given(s.url) && r.Ok? ==> r.value.canonicalUrl == Some(Canonical.CanonicalizeUrl(s.url.value).value)
    // A request with neither URL nor name is refused.
    ensures !Given(s.url) && !Given(s.name) ==> r.Err?
    // Every successful run names a tool that exists.
    ensures r.Ok? ==> r.value.toolId.Some? && r.value.toolId.value in db.tables.tools
    ensures r.Ok? ==> r.value.skipProcessing.None? || Skipping(r.value)
    // Skipping: a tool with this URL whose latest version is fresh, no force, and nothing written.
    ensures r.Ok? && Skipping(r.value) ==>
      var t := r.value.toolId.value;
      db.tables == old(db.tables) && s.force != Some(true)
      && HasUrl(old(db.tables.tools), t, r.value.canonicalUrl)
      && FreshLatest(old(db.tables.versions), t, env.now)
      && r.value.status == Some(old(db.tables.tools)[t].status)
    // The status is the found tool's, and "pending_research" for a tool found by alias or created.
    ensures r.Ok? && !Skipping(r.value) ==>
      var t := r.value.toolId.value;
      r.value.status == Some(if HasUrl(old(db.tables.tools), t, r.value.canonicalUrl)
                             then old(db.tables.tools)[t].status else PendingResearch)
    // An existing tool: only a forced run writes, and it drops the documents of the request's URL.
    ensures r.Ok? && r.value.toolId.value in old(db.tables.tools) ==>
      var t := r.value.toolId.value;
      if !Skipping(r.value) && s.force == Some(true) && HasUrl(old(db.tables.tools), t, r.value.canonicalUrl)
      then db.tables == old(db.tables).(documents := DropDocs(old(db.tables.documents), t, s.url.GetOr("")))
      else db.tables == old(db.tables)
    // A new tool: only with a canonical URL or a plausible name, named and aliased as promised.
    ensures r.Ok? && r.value.toolId.value !in old(db.tables.tools) ==>
      var t := r.value.toolId.value;
      var c := r.value.canonicalUrl;
      Discovery.MayCreate(c, s.name)
      && db.tables == old(db.tables).(
           tools := old(db.tables.tools)[t := Tool(Discovery.NewToolName(s.name, c), c, [], PendingResearch, false)],
           aliases := old(db.tables.aliases) + AliasRows(t, Discovery.SeedAliases(s.name, HostOfCanonical(c))))
  {
    var canonical := RequestCanonical(env, s);
    if canonical.Err? {
      return Err(canonical.error);
    }
    var found, status, skip := Lookup(db, canonical.value, s.force == Some(true), s.url.GetOr(""), env.now);
    if skip {
      return Ok(NoUpdate.(canonicalUrl := canonical.value, toolId := found, status := Some(status),
                          skipProcessing := Some(true)));
    }
    var toolId := found;
    if toolId.None? {
      var t := FindOrCreate(db, canonical.value, s.name);
      if t.Err? {
        return Err(t.error);
      }
      toolId := Some(t.value);
    }
    return Ok(NoUpdate.(canonicalUrl := canonical.value, toolId := toolId, status := Some(status)));
  }

  /** The canonical URL of a request: its own URL canonicalised (a raise fails the node), else
      the one discovered for its name, else none. */
  method RequestCanonical(env: Env, s: State) returns (r: Result<Option<string>>)
    ensures Given(s.url) ==>
      r == (match Canonical.CanonicalizeUrl(s.url.value) case Ok(c) => Ok(Some(c)) case Err(e) => Err(e))
    ensures !Given(s.url) && !Given(s.name) ==> r == Ok(None)
    ensures r.Ok? && r.value.Some? ==> r.value.value != ""
  {
    if Given(s.url) {
      var c := Canonical.CanonicalizeUrl(s.url.value);
      if c.Err? {
        return Err(c.error);
      }
      Discovery.CanonicalNotEmpty(s.url.value);
      return Ok(Some(c.value));
    }
    if Given(s.name) {
      var found, _, _ := Discover(env, s.name.value);
      return found;
    }
    return Ok(None);
  }

  /** The lookup by canonical URL: the found tool's status, the freshness gate (which writes
      nothing), and the forced run's removal of the documents of the request's URL `url`. */
  method Lookup(db: Database, canonical: Option<string>, force: bool, url: string, now: int)
    returns (found: Option<nat>, status: string, skip: bool)
    requires db.Valid()
    modifies db
    ensures db.Valid()
    ensures found.Some? <==> Given(canonical) && exists t :: HasUrl(old(db.tables.tools), t, canonical)
    ensures found.Some? ==> HasUrl(old(db.tables.tools), found.value, canonical)
                            && status == old(db.tables.tools)[found.value].status
    ensures found.None? ==> status == PendingResearch && !skip && db.tables == old(db.tables)
    ensures skip ==> found.Some? && !force && FreshLatest(old(db.tables.versions), found.value, now)
                     && db.tables == old(db.tables)
    ensures found.Some? && !skip ==>
      !(!force && FreshLatest(old(db.tables.versions), found.value, now))
      && if force then db.tables == old(db.tables).(documents := DropDocs(old(db.tables.documents), found.value, url))
         else db.tables == old(db.tables)
  {
    found, status, skip := None, PendingResearch, false;
    if !Given(canonical) {
      return;
    }
    found := db.ToolByCanonical(canonical.value);
    if found.None? {
      assert forall t :: !HasUrl(db.tables.tools, t, canonical);
      return;
    }
    var t := found.value;
    assert HasUrl(db.tables.tools, t, canonical);
    status := db.tables.tools[t].status;
    var latest := db.LatestVersion(t);
    if latest.Some? && Discovery.Fresh(now, db.tables.versions[latest.value].createdAt) && !force {
      skip := true;
      return;
    }
    if force {
      db.DeleteDocuments(t, url);
    }
  }

  /** A tool found by alias, or else a new tool: refused (`ValueError`) without a canonical URL
      or a plausible name; otherwise inserted with its name and alias rows. */
  method FindOrCreate(db: Database, canonical: Option<string>, name: Option<string>) returns (r: Result<nat>)
    requires db.Valid()
    modifies db
    ensures db.Valid()
    ensures r.Ok? ==> r.value in db.tables.tools
    ensures r.Ok? && r.value in old(db.tables.tools) ==>
      db.tables == old(db.tables) && Discovery.AliasKey(canonical, name) != ""
      && exists a :: a in db.tables.aliases && a.toolId == r.value && Strings.Lower(a.value) == Discovery.AliasKey(canonical, name)
    ensures r.Ok? && r.value !in old(db.tables.tools) ==>
      Discovery.MayCreate(canonical, name)
      && db.tables == old(db.tables).(
           tools := old(db.tables.tools)[r.value := Tool(Discovery.NewToolName(name, canonical), canonical, [], PendingResearch, false)],
           aliases := old(db.tables.aliases) + AliasRows(r.value, Discovery.SeedAliases(name, HostOfCanonical(canonical))))
    ensures r.Err? ==> !Discovery.MayCreate(canonical, name) && db.tables == old(db.tables)
  {
    var key := Discovery.AliasKey(canonical, name);
    if key != "" {
      var byAlias := db.ToolByAlias(key);
      if byAlias.Some? {
        return Ok(byAlias.value);
      }
    }
    if !Discovery.MayCreate(canonical, name) {
      return Err("ValueError: Invalid product name; cannot create tool");
    }
    var id := db.InsertTool(Discovery.NewToolName(name, canonical), canonical);
    var seeds := Discovery.SeedAliases(name, HostOfCanonical(canonical));
    db.tables := db.tables.(aliases := db.tables.aliases + AliasRows(id, seeds));
    return Ok(id);
  }
}
