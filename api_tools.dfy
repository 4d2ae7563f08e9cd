/** The tool routes of the API that touch the store (backend/app/api.py:137-171, 425-618):
    serving a tool with the version a user saw, the per-user watchlist, refreshes that link
    watchers to the new version, and deleting a tool's latest version. */
module ToolRoutes {
  import opened Wrappers
  import opened Json
  import opened FlowState
  import opened Store
  import Flow

  /** Distinct sources listed with a tool, and media rows served. */
  const MaxSources: nat := 8
  const MaxMedia: nat := 6

  /** `[x for x in xs if keep(x)]`. */
  function Keep<T(!new)>(xs: seq<T>, keep: T -> bool): (r: seq<T>)
    ensures |r| <= |xs|
    ensures forall x :: x in r <==> x in xs && keep(x)
  {
    if xs == [] then [] else (if keep(xs[0]) then [xs[0]] else []) + Keep(xs[1..], keep)
  }

  // ---------------------------------------------------------------------------
  // get_tool

  /** Link `l` is one of user `u`'s links to a version of tool `t`. */
  predicate UserLinkOf(vs: map<nat, Version>, l: UserLink, u: string, t: nat)
  {
    l.userId == u && LinkOfTool(vs, l, t)
  }

  /** The order of `ORDER BY linked_at DESC, version_no DESC`: `a` comes no later than `b`. */
  predicate NoOlder(vs: map<nat, Version>, a: UserLink, b: UserLink)
    requires a.versionId in vs && b.versionId in vs
  {
    a.linkedAt > b.linkedAt || (a.linkedAt == b.linkedAt && vs[a.versionId].versionNo >= vs[b.versionId].versionNo)
  }

  /** The version user `u` most recently linked to among tool `t`'s versions. */
  method NewestLink(db: Database, t: nat, u: string) returns (v: Option<nat>)
    ensures v.None? <==> forall l :: l in db.tables.userVersions ==> !UserLinkOf(db.tables.versions, l, u, t)
    ensures v.Some? ==> exists l :: (l in db.tables.userVersions && UserLinkOf(db.tables.versions, l, u, t) && l.versionId == v.value
      && forall l2 :: l2 in db.tables.userVersions && UserLinkOf(db.tables.versions, l2, u, t) ==> NoOlder(db.tables.versions, l, l2))
  {
    var links := db.tables.userVersions;
    var vs := db.tables.versions;
    var best: Option<UserLink> := None;
    for i := 0 to |links|
      invariant best.None? <==> forall j :: 0 <= j < i ==> !UserLinkOf(vs, links[j], u, t)
      invariant best.Some? ==> (best.value in links[..i] && UserLinkOf(vs, best.value, u, t)
        && forall j :: 0 <= j < i && UserLinkOf(vs, links[j], u, t) ==> NoOlder(vs, best.value, links[j]))
    {
      var l := links[i];
      if UserLinkOf(vs, l, u, t) && (best.None? || !NoOlder(vs, best.value, l)) {
        best := Some(l);
      }
    }
    if best.Some? {
      v := Some(best.value.versionId);
      assert best.value in links;
    } else {
      v := None;
      assert forall l :: l in links ==> !UserLinkOf(vs, l, u, t) by {
        forall l | l in links ensures !UserLinkOf(vs, l, u, t) {
          var j :| 0 <= j < |links| && links[j] == l;
        }
      }
    }
  }

  /** The distinct non-empty source URLs of tool `t`'s documents, at most 8, first occurrence
      first (the query's order is unspecified). */
  method SourcesOf(db: Database, t: nat) returns (sources: seq<string>)
    ensures |sources| <= MaxSources
    ensures forall i, j :: 0 <= i < j < |sources| ==> sources[i] != sources[j]
    ensures forall s :: s in sources ==> s != "" && exists d :: d in db.tables.documents && d.toolId == t && d.sourceUrl == s
    ensures |sources| < MaxSources ==>
      forall d :: d in db.tables.documents && d.toolId == t && d.sourceUrl != "" ==> d.sourceUrl in sources
  {
    var docs := db.tables.documents;
    sources := [];
    var i := 0;
    while i < |docs| && |sources| < MaxSources
      invariant 0 <= i <= |docs|
      invariant |sources| <= MaxSources
      invariant forall a, b :: 0 <= a < b < |sources| ==> sources[a] != sources[b]
      invariant forall s :: s in sources ==> s != "" && exists d :: d in docs && d.toolId == t && d.sourceUrl == s
      invariant forall j :: 0 <= j < i && docs[j].toolId == t && docs[j].sourceUrl != "" ==> docs[j].sourceUrl in sources
    {
      var d := docs[i];
      if d.toolId == t && d.sourceUrl != "" && d.sourceUrl !in sources {
        sources := sources + [d.sourceUrl];
      }
      i := i + 1;
    }
    if |sources| < MaxSources {
      forall d | d in docs && d.toolId == t && d.sourceUrl != "" ensures d.sourceUrl in sources {
        var j :| 0 <= j < |docs| && docs[j] == d;
      }
    }
  }

  /** What `get_tool` serves. */
  datatype ToolView = ToolView(name: string, canonicalUrl: Option<string>, status: string,
                               onePager: seq<(string, Json)>, documents: nat, updates: nat,
                               sources: seq<string>, version: Option<nat>, media: seq<MediaItem>)

  /** The media of version `v`, newest first, at most 6. */
  function MediaOf(media: seq<MediaItem>, v: nat): (r: seq<MediaItem>)
    ensures |r| <= MaxMedia
    ensures forall m :: m in r ==> m in media && m.versionId == v
    ensures |Keep(media, (m: MediaItem) => m.versionId == v)| <= MaxMedia ==>
      forall m :: m in media && m.versionId == v ==> m in r
  {
    var own := Keep(media, (m: MediaItem) => m.versionId == v);
    var n := Min(MaxMedia, |own|);
    var r := seq(n, i requires 0 <= i < n => own[|own| - 1 - i]);
    assert forall m :: m in r ==> m in own by {
      forall m | m in r ensures m in own {
        var i :| 0 <= i < n && r[i] == m;
        assert own[|own| - 1 - i] == m;
      }
    }
    assert n == |own| ==> forall m :: m in own ==> m in r by {
      if n == |own| {
        forall m | m in own ensures m in r {
          var j :| 0 <= j < |own| && own[j] == m;
          assert r[|own| - 1 - j] == m;
        }
      }
    }
    r
  }

  method GetTool(db: Database, t: nat, user: Option<string>) returns (r: Result<ToolView>)
    requires db.Valid()
    // 404 for a missing tool; a user id the `::uuid` cast rejects makes the version query raise.
    ensures r.Err? <==> t !in db.tables.tools || (Given(user) && !IsUuidText(user.value))
    ensures r.Ok? ==>
      var tool := db.tables.tools[t];
      var v := r.value.version;
      r.value.name == tool.name && r.value.status == tool.status && r.value.canonicalUrl == tool.canonicalUrl
      && r.value.documents == |DocsOf(db.tables.documents, t)|
      && r.value.updates == |Keep(db.tables.toolUpdates, (u: ToolUpdate) => u.toolId == t)|
      && |r.value.sources| <= MaxSources
      && (forall s :: s in r.value.sources ==> s != "" && exists d :: d in db.tables.documents && d.toolId == t && d.sourceUrl == s)
      // The version served: the user's most recently linked one, else the latest.
      && (v.Some? ==> v.value in db.tables.versions && db.tables.versions[v.value].toolId == t)
      && (Given(user) && (exists l :: l in db.tables.userVersions && UserLinkOf(db.tables.versions, l, user.value, t)) ==>
            v.Some? && exists l :: l in db.tables.userVersions && UserLinkOf(db.tables.versions, l, user.value, t)
                                 && l.versionId == v.value
                                 && forall l2 :: l2 in db.tables.userVersions && UserLinkOf(db.tables.versions, l2, user.value, t)
                                      ==> NoOlder(db.tables.versions, l, l2))
      && (!(Given(user) && exists l :: l in db.tables.userVersions && UserLinkOf(db.tables.versions, l, user.value, t)) ==>
            v == LatestOf(db.tables.versions, t))
      // The one-pager is the served version's, else the tool's.
      && r.value.onePager == (if v.Some? then db.tables.versions[v.value].onePager else tool.onePager)
      && r.value.media == (if v.Some? then MediaOf(db.tables.media, v.value) else [])
  {
    if t !in db.tables.tools {
      return Err("404: Tool not found");
    }
    var tool := db.tables.tools[t];
    var docs := |DocsOf(db.tables.documents, t)|;
    var updates := |Keep(db.tables.toolUpdates, (u: ToolUpdate) => u.toolId == t)|;
    var sources := SourcesOf(db, t);
    var v: Option<nat> := None;
    if Given(user) {
      if !IsUuidText(user.value) {
        return Err("DataError: invalid input for query argument $1 (not a uuid)");
      }
      v := NewestLink(db, t, user.value);
    }
    if v.None? {
      v := db.LatestVersion(t);
    }
    // The version's one-pager arrives as JSON text, which is never empty, so it always wins.
    var onePager := if v.Some? then db.tables.versions[v.value].onePager else tool.onePager;
    var media := if v.Some? then MediaOf(db.tables.media, v.value) else [];
    return Ok(ToolView(tool.name, tool.canonicalUrl, tool.status, onePager, docs, updates, sources, v, media));
  }

  // ---------------------------------------------------------------------------
  // update_watchlist

  /** The users watching tool `t`. */
  function Watchers(w: set<(string, nat)>, t: nat): (us: set<string>)
    ensures forall u :: u in us <==> (u, t) in w
  {
    set p | p in w && p.1 == t :: p.0
  }

  /** The watchlist after user `u` asks to watch (or stop watching) tool `t`. */
  function Watched(w: set<(string, nat)>, u: string, t: nat, watch: bool): (r: set<(string, nat)>)
    ensures (u, t) in r <==> watch
    ensures forall p :: p != (u, t) ==> (p in r <==> p in w)
  {
    if watch then w + {(u, t)} else w - {(u, t)}
  }

  /** A toggle is idempotent, and watching then unwatching leaves the other pairs as they were. */
  lemma WatchedIdempotent(w: set<(string, nat)>, u: string, t: nat, watch: bool)
    ensures Watched(Watched(w, u, t, watch), u, t, watch) == Watched(w, u, t, watch)
    ensures Watched(Watched(w, u, t, true), u, t, false) == w - {(u, t)}
    ensures (u, t) in w ==> Watched(w, u, t, true) == w
  {
  }

  /** The legacy fallback `UPDATE tools SET watchlist = flag WHERE id = t`. */
  function LegacyFlag(tools: map<nat, Tool>, t: nat, flag: bool): (r: map<nat, Tool>)
    ensures r.Keys == tools.Keys
    ensures t in tools ==> r[t] == tools[t].(watchlist := flag)
    ensures forall t' :: t' in tools && t' != t ==> r[t'] == tools[t']
  {
    if t in tools then tools[t := tools[t].(watchlist := flag)] else tools
  }

  /** `update_watchlist`: a missing user id is refused. The per-user insert or delete runs when
      the user id casts to a uuid and, for an insert, the tool exists; otherwise the statement
      raises (bad cast or broken foreign key) and the legacy fallback sets or clears the tool's
      global flag, which updates no row for a tool that does not exist. */
  method UpdateWatchlist(db: Database, user: Option<string>, t: nat, watch: bool) returns (r: Result<bool>)
    requires db.Valid()
    modifies db
    ensures db.Valid()
    ensures !Given(user) <==> r.Err?
    ensures r.Ok? ==> r.value == watch
    ensures !Given(user) ==> db.tables == old(db.tables)
    ensures Given(user) && IsUuidText(user.value) && (!watch || t in old(db.tables.tools)) ==>
      db.tables == old(db.tables).(watchlist := Watched(old(db.tables.watchlist), user.value, t, watch))
    ensures Given(user) && (!IsUuidText(user.value) || (watch && t !in old(db.tables.tools))) ==>
      db.tables == old(db.tables).(tools := LegacyFlag(old(db.tables.tools), t, watch))
  {
    if !Given(user) {
      return Err("401: Missing X-User-Id");
    }
    if IsUuidText(user.value) && (!watch || t in db.tables.tools) {
      db.tables := db.tables.(watchlist := Watched(db.tables.watchlist, user.value, t, watch));
    } else {
      db.tables := db.tables.(tools := LegacyFlag(db.tables.tools, t, watch));
    }
    return Ok(watch);
  }

  // ---------------------------------------------------------------------------
  // Refreshes

  /** User `u` has a link to version `v`. */
  predicate HasLink(links: seq<UserLink>, u: string, v: nat)
  {
    exists l :: l in links && l.userId == u && l.versionId == v
  }

  /** The users of `us` without a link to version `v`. */
  function Unlinked(us: set<string>, links: seq<UserLink>, v: nat): (r: set<string>)
    ensures r <= us
  {
    set u | u in us && !HasLink(links, u, v)
  }

  lemma SomeUser(s: set<string>)
    requires s != {}
    ensures exists u :: u in s
  {
    if forall u :: u !in s {
      assert false;
    }
  }

  /** The watchers' insert loop of the refresh routes: every watcher of `t` ends up linked to
      version `v`; a duplicate insert fails and is not counted, so `linked` is the number of
      watchers that had no link to `v` before. */
  method LinkWatchers(db: Database, t: nat, v: nat, now: int) returns (linked: nat)
    requires db.Valid() && v in db.tables.versions
    modifies db
    ensures db.Valid()
    ensures db.tables == old(db.tables).(userVersions := db.tables.userVersions)
    ensures old(db.tables.userVersions) <= db.tables.userVersions
    ensures |db.tables.userVersions| == |old(db.tables.userVersions)| + linked
    ensures linked == |Unlinked(Watchers(db.tables.watchlist, t), old(db.tables.userVersions), v)|
    ensures linked <= |Watchers(db.tables.watchlist, t)|
    ensures forall u :: u in Watchers(db.tables.watchlist, t) ==> HasLink(db.tables.userVersions, u, v)
    ensures AddedFor(db.tables.userVersions[|old(db.tables.userVersions)|..], v, now, Watchers(db.tables.watchlist, t))
  {
    var watchers := Watchers(db.tables.watchlist, t);
    ghost var links0 := db.tables.userVersions;
    ghost var added;
    linked, added := LinkAll(db, watchers, v, now);
    SubsetSize(Unlinked(watchers, links0, v), watchers);
    assert db.tables.userVersions[|links0|..] == added;
  }

  /** The insert loop over the users of `watchers`, in any order. */
  method LinkAll(db: Database, watchers: set<string>, v: nat, now: int) returns (linked: nat, ghost added: seq<UserLink>)
    requires db.Valid() && v < db.nextId
    modifies db
    ensures db.Valid()
    ensures db.tables == old(db.tables).(userVersions := old(db.tables.userVersions) + added)
    ensures AddedFor(added, v, now, watchers)
    ensures |added| == linked && linked == |Unlinked(watchers, old(db.tables.userVersions), v)|
    ensures forall u :: u in watchers ==> HasLink(old(db.tables.userVersions) + added, u, v)
  {
    ghost var links0 := db.tables.userVersions;
    added := [];
    ghost var done: set<string> := {};
    var todo := watchers;
    linked := 0;
    while todo != {}
      invariant db.Valid() && v < db.nextId
      invariant done !! todo && done + todo == watchers
      invariant db.tables == old(db.tables).(userVersions := links0 + added)
      invariant AddedFor(added, v, now, done)
      invariant |added| == linked
      invariant linked == |Unlinked(done, links0, v)|
      invariant forall u :: u in done ==> HasLink(links0 + added, u, v)
      decreases |todo|
    {
      SomeUser(todo);
      var u :| u in todo;
      linked, added := LinkOne(db, u, v, now, linked, links0, added, done);
      done := done + {u};
      todo := todo - {u};
    }
    assert done == watchers;
  }

  /** One watcher's insert: `added` holds the rows the loop has inserted for the users of
      `done`, `linked` counts them. */
  method LinkOne(db: Database, u: string, v: nat, now: int, linked: nat, ghost links0: seq<UserLink>,
                 ghost added: seq<UserLink>, ghost done: set<string>)
    returns (linked': nat, ghost added': seq<UserLink>)
    requires db.Valid() && v < db.nextId
    requires db.tables.userVersions == links0 + added && AddedFor(added, v, now, done) && u !in done
    requires |added| == linked && linked == |Unlinked(done, links0, v)|
    requires forall w :: w in done ==> HasLink(links0 + added, w, v)
    modifies db
    ensures db.Valid() && db.nextId == old(db.nextId)
    ensures db.tables == old(db.tables).(userVersions := links0 + added')
    ensures AddedFor(added', v, now, done + {u})
    ensures |added'| == linked' && linked' == |Unlinked(done + {u}, links0, v)|
    ensures forall w :: w in done + {u} ==> HasLink(links0 + added', w, v)
  {
    var inserted := db.LinkUser(u, v, now);
    assert inserted <==> !HasLink(links0 + added, u, v);
    LinkStep(links0, added, u, v, now, done, inserted);
    if inserted {
      added' := added + [UserLink(u, v, now)];
      linked' := linked + 1;
      assert links0 + added + [UserLink(u, v, now)] == links0 + added';
    } else {
      added' := added;
      linked' := linked;
    }
  }

  /** The bookkeeping of one watcher's insert: the row goes in exactly when the user had no
      link to `v`, which is when they count as unlinked. */
  lemma LinkStep(links0: seq<UserLink>, added: seq<UserLink>, u: string, v: nat, now: int,
                 done: set<string>, inserted: bool)
    requires u !in done && AddedFor(added, v, now, done)
    requires forall w :: w in done ==> HasLink(links0 + added, w, v)
    requires inserted <==> !HasLink(links0 + added, u, v)
    ensures var added' := if inserted then added + [UserLink(u, v, now)] else added;
      AddedFor(added', v, now, done + {u})
      && (forall w :: w in done + {u} ==> HasLink(links0 + added', w, v))
      && |Unlinked(done + {u}, links0, v)| == |Unlinked(done, links0, v)| + (if inserted then 1 else 0)
  {
    var added' := if inserted then added + [UserLink(u, v, now)] else added;
    LinkStepAdded(added, u, v, now, done, inserted);
    LinkStepLinked(links0, added, u, v, now, done, inserted);
    LinkStepCount(links0, added, u, v, now, done, inserted);
  }

  lemma LinkStepAdded(added: seq<UserLink>, u: string, v: nat, now: int, done: set<string>, inserted: bool)
    requires AddedFor(added, v, now, done)
    ensures AddedFor(if inserted then added + [UserLink(u, v, now)] else added, v, now, done + {u})
  {
  }

  lemma LinkStepLinked(links0: seq<UserLink>, added: seq<UserLink>, u: string, v: nat, now: int,
                       done: set<string>, inserted: bool)
    requires forall w :: w in done ==> HasLink(links0 + added, w, v)
    requires inserted <==> !HasLink(links0 + added, u, v)
    ensures var added' := if inserted then added + [UserLink(u, v, now)] else added;
      forall w :: w in done + {u} ==> HasLink(links0 + added', w, v)
  {
    var added' := if inserted then added + [UserLink(u, v, now)] else added;
    if inserted {
      assert (links0 + added')[|links0 + added|] == UserLink(u, v, now);
    }
    forall w | w in done + {u} ensures HasLink(links0 + added', w, v) {
      if w != u || !inserted {
        var l :| l in links0 + added && l.userId == w && l.versionId == v;
        assert l in links0 + added';
      }
    }
  }

  lemma LinkStepCount(links0: seq<UserLink>, added: seq<UserLink>, u: string, v: nat, now: int,
                      done: set<string>, inserted: bool)
    requires u !in done && AddedFor(added, v, now, done)
    requires inserted <==> !HasLink(links0 + added, u, v)
    ensures |Unlinked(done + {u}, links0, v)| == |Unlinked(done, links0, v)| + (if inserted then 1 else 0)
  {
    AddedNotOwn(links0, added, u, v, v, now, done);
    UnlinkedStep(done, u, links0, v);
  }

  /** Every row of `added` links a user of `done` to `v` at `now`. */
  predicate AddedFor(added: seq<UserLink>, v: nat, now: int, done: set<string>)
  {
    forall i :: 0 <= i < |added| ==> added[i].versionId == v && added[i].linkedAt == now && added[i].userId in done
  }

  /** Rows added for other users do not change whether user `u` has a link. */
  lemma AddedNotOwn(links0: seq<UserLink>, added: seq<UserLink>, u: string, v: nat, v': nat, now: int, done: set<string>)
    requires u !in done
    requires AddedFor(added, v', now, done)
    ensures HasLink(links0 + added, u, v) <==> HasLink(links0, u, v)
  {
    if HasLink(links0 + added, u, v) {
      var l :| l in links0 + added && l.userId == u && l.versionId == v;
      assert forall x :: x in added ==> x.userId in done by {
        forall x | x in added ensures x.userId in done {
          var k :| 0 <= k < |added| && added[k] == x;
        }
      }
      assert l in links0;
    }
  }

  lemma UnlinkedStep(done: set<string>, u: string, links: seq<UserLink>, v: nat)
    requires u !in done
    ensures Unlinked(done + {u}, links, v) == Unlinked(done, links, v) + (if HasLink(links, u, v) then {} else {u})
    ensures |Unlinked(done + {u}, links, v)| == |Unlinked(done, links, v)| + (if HasLink(links, u, v) then 0 else 1)
  {
    assert Unlinked(done + {u}, links, v) == Unlinked(done, links, v) + (if HasLink(links, u, v) then {} else {u});
  }

  lemma SubsetSize(a: set<string>, b: set<string>)
    requires a <= b
    ensures |a| <= |b|
  {
    assert b == a + (b - a);
  }

  /** What the refresh routes report. */
  datatype Refresh = Refresh(processed: nat, linkedUsers: nat, skippedRecent: nat)

  /** `refresh_single_tool`: run the flow on the tool's URL and name (without forcing, so the
      freshness gate may skip it), then link every watcher to the latest version. */
  method RefreshSingleTool(db: Database, env: Env, t: nat) returns (r: Result<Refresh>)
    requires db.Valid()
    modifies db
    ensures db.Valid()
    ensures t !in old(db.tables.tools) ==> r.Err? && db.tables == old(db.tables)
    ensures r.Ok? ==> r.value.skippedRecent == 0 && r.value.processed <= 1
    ensures r.Ok? && r.value.processed == 0 ==> r.value.linkedUsers == 0 && LatestOf(db.tables.versions, t).None?
    ensures r.Ok? && r.value.processed == 1 ==>
      LatestOf(db.tables.versions, t).Some?
      && r.value.linkedUsers <= |Watchers(db.tables.watchlist, t)|
      && forall u :: u in Watchers(db.tables.watchlist, t) ==> HasLink(db.tables.userVersions, u, LatestOf(db.tables.versions, t).value)
  {
    if t !in db.tables.tools {
      return Err("404: Tool not found");
    }
    var tool := db.tables.tools[t];
    var out := Flow.RunIngestFlow(db, env, tool.canonicalUrl, Some(tool.name), false, None);
    if out.Err? {
      return Err(out.error);
    }
    var latest := db.LatestVersion(t);
    if latest.None? {
      return Ok(Refresh(0, 0, 0));
    }
    var linked := LinkWatchers(db, t, latest.value, env.now);
    return Ok(Refresh(1, linked, 0));
  }

  /** The tools with at least one watcher (the `JOIN user_watchlist`). */
  function WatchedTools(tb: Tables): (ts: set<nat>)
    ensures forall t :: t in ts <==> t in tb.tools && exists u :: (u, t) in tb.watchlist
  {
    set p | p in tb.watchlist && p.1 in tb.tools :: p.1
  }

  lemma {:induction false} MaxOf(s: set<nat>) returns (m: nat)
    requires s != {}
    ensures m in s && forall x :: x in s ==> x <= m
    decreases |s|
  {
    var y := ElementOf(s);
    if s == {y} {
      m := y;
    } else {
      var below := MaxOf(s - {y});
      m := if y <= below then below else y;
      assert forall x :: x in s ==> x == y || x in s - {y};
    }
  }

  /** `ORDER BY id DESC LIMIT limit`: the `limit` largest ids, largest first. */
  method TopIds(s: set<nat>, limit: nat) returns (ids: seq<nat>)
    ensures |ids| == Min(limit, |s|)
    ensures forall i :: 0 <= i < |ids| ==> ids[i] in s
    ensures forall i, j :: 0 <= i < j < |ids| ==> ids[i] > ids[j]
    ensures forall x :: x in s && x !in ids ==> forall i :: 0 <= i < |ids| ==> x < ids[i]
  {
    var rest := s;
    ids := [];
    while |ids| < limit && rest != {}
      invariant rest <= s && |ids| + |rest| == |s| && |ids| <= limit
      invariant forall x :: x in s ==> (x in rest <==> x !in ids)
      invariant forall i :: 0 <= i < |ids| ==> ids[i] in s
      invariant forall i, j :: 0 <= i < j < |ids| ==> ids[i] > ids[j]
      invariant forall x :: x in rest ==> forall i :: 0 <= i < |ids| ==> x < ids[i]
      decreases |rest|
    {
      ghost var top := MaxOf(rest);
      var m :| m in rest && forall x :: x in rest ==> x <= m;
      ids := ids + [m];
      rest := rest - {m};
    }
  }

  /** `refresh_watchlist`: refresh the watched tools, highest id first and at most `limit` of
      them; a tool whose flow fails is skipped, and only tools with a latest version count as
      processed. */
  method RefreshWatchlist(db: Database, env: Env, limit: nat) returns (r: Refresh)
    requires db.Valid() && 1 <= limit <= 1000
    modifies db
    ensures db.Valid()
    ensures r.skippedRecent == 0
    ensures r.processed <= Min(limit, |WatchedTools(old(db.tables))|)
  {
    var ids := TopIds(WatchedTools(db.tables), limit);
    // the rows the query returned: each id with its URL and name as they were read
    var tools := db.tables.tools;
    var rows := seq(|ids|, i requires 0 <= i < |ids| => tools[ids[i]]);
    var processed := 0;
    var linkedTotal := 0;
    for i := 0 to |ids|
      invariant db.Valid()
      invariant processed <= i
    {
      var out := Flow.RunIngestFlow(db, env, rows[i].canonicalUrl, Some(rows[i].name), false, None);
      if out.Err? {
        continue;
      }
      var latest := db.LatestVersion(ids[i]);
      if latest.None? {
        continue;
      }
      var linked := LinkWatchers(db, ids[i], latest.value, env.now);
      linkedTotal := linkedTotal + linked;
      processed := processed + 1;
    }
    return Refresh(processed, linkedTotal, 0);
  }

  // ---------------------------------------------------------------------------
  // delete_latest_tool_version

  /** What `delete_latest_tool_version` reports. */
  datatype Deletion = UnlinkedOnly | ToolDeleted | VersionDeleted(deleted: nat, newLatest: Option<nat>)

  /** Some user other than `u` has a link to a version of tool `t`. */
  predicate OthersLinked(tb: Tables, t: nat, u: string)
  {
    exists l :: l in tb.userVersions && LinkOfTool(tb.versions, l, t) && l.userId != u
  }

  /** `DELETE FROM user_tool_versions WHERE user_id = u AND tool_version_id IN (versions of t)`. */
  function UnlinkUser(tb: Tables, t: nat, u: string): (r: Tables)
    ensures r == tb.(userVersions := r.userVersions)
    ensures forall l :: l in r.userVersions <==> l in tb.userVersions && !UserLinkOf(tb.versions, l, u, t)
  {
    tb.(userVersions := Keep(tb.userVersions, (l: UserLink) => !UserLinkOf(tb.versions, l, u, t)))
  }

  /** The version ids of tool `t`. */
  function VersionIdsOf(vs: map<nat, Version>, t: nat): (ids: set<nat>)
    ensures forall a :: a in ids <==> a in vs && vs[a].toolId == t
  {
    set a | a in vs && vs[a].toolId == t
  }

  /** `DELETE FROM tools WHERE id = t` and its cascades: aliases, documents, versions, updates
      and watchlist rows of the tool, and the links, snapshots and media of its versions. */
  function WithoutTool(tb: Tables, t: nat): (r: Tables)
    ensures r.tools == tb.tools - {t}
    ensures forall a :: a in r.versions <==> a in tb.versions && tb.versions[a].toolId != t
    ensures forall a :: a in r.versions ==> r.versions[a] == tb.versions[a]
    ensures forall d :: d in r.documents <==> d in tb.documents && d.toolId != t
    ensures forall a :: a in r.aliases <==> a in tb.aliases && a.toolId != t
    ensures forall p :: p in r.watchlist <==> p in tb.watchlist && p.1 != t
    ensures forall l :: l in r.userVersions <==> l in tb.userVersions && !LinkOfTool(tb.versions, l, t)
    ensures r.telegramUsers == tb.telegramUsers && r.linkTokens == tb.linkTokens
  {
    var gone := VersionIdsOf(tb.versions, t);
    var aliases := Keep(tb.aliases, (a: Alias) => a.toolId != t);
    var documents := Keep(tb.documents, (d: Document) => d.toolId != t);
    var links := Keep(tb.userVersions, (l: UserLink) => !LinkOfTool(tb.versions, l, t));
    var versions := OtherToolsVersions(tb.versions, t);
    var watchlist := set p | p in tb.watchlist && p.1 != t;
    tb.(tools := tb.tools - {t},
        aliases := aliases,
        documents := documents,
        versions := versions,
        toolUpdates := Keep(tb.toolUpdates, (u: ToolUpdate) => u.toolId != t),
        userVersions := links,
        versionDocuments := (set q | q in tb.versionDocuments && q.0 !in gone),
        media := Keep(tb.media, (m: MediaItem) => m.versionId !in gone),
        watchlist := watchlist)
  }

  /** The version rows of every tool but `t`. */
  function OtherToolsVersions(vs: map<nat, Version>, t: nat): (r: map<nat, Version>)
    ensures forall a :: a in r <==> a in vs && vs[a].toolId != t
    ensures forall a :: a in r ==> r[a] == vs[a]
  {
    map a | a in vs && vs[a].toolId != t :: vs[a]
  }

  /** Dropping every version of one tool keeps the version table valid. */
  lemma WithoutToolValid(vs: map<nat, Version>, t: nat)
    requires VersionsValid(vs)
    ensures VersionsValid(OtherToolsVersions(vs, t))
  {
    var r := OtherToolsVersions(vs, t);
    forall a | a in r ensures HasLatest(r, r[a].toolId) {
      assert HasLatest(vs, vs[a].toolId);
      var b :| b in vs && vs[b].isLatest && vs[b].toolId == vs[a].toolId;
      assert b in r;
    }
  }

  /** The highest-numbered version of `t` in `vs`, if any (`ORDER BY version_no DESC LIMIT 1`). */
  method HighestIn(vs: map<nat, Version>, t: nat) returns (h: Option<nat>)
    ensures h.None? <==> !HasVersions(vs, t)
    ensures h.Some? ==> (h.value in vs && vs[h.value].toolId == t
      && forall a :: a in vs && vs[a].toolId == t ==> vs[a].versionNo <= vs[h.value].versionNo)
  {
    var keys := vs.Keys;
    h := None;
    while keys != {}
      invariant keys <= vs.Keys
      invariant h.None? ==> forall a :: a in vs && a !in keys ==> vs[a].toolId != t
      invariant h.Some? ==> (h.value in vs && vs[h.value].toolId == t
        && forall a :: a in vs && a !in keys && vs[a].toolId == t ==> vs[a].versionNo <= vs[h.value].versionNo)
      decreases |keys|
    {
      ghost var w := ElementOf(keys);
      var a :| a in keys;
      if vs[a].toolId == t && (h.None? || vs[a].versionNo > vs[h.value].versionNo) {
        h := Some(a);
      }
      keys := keys - {a};
    }
  }

  /** The route's delete-and-promote is the table's `AfterDeleteLatest`, and its promoted row
      is the new latest version. */
  lemma PromotedIsLatest(vs: map<nat, Version>, t: nat, h: Option<nat>)
    requires VersionsValid(vs) && LatestOf(vs, t).Some?
    requires var rest := vs - {LatestOf(vs, t).value};
      (h.None? <==> !HasVersions(rest, t))
      && (h.Some? ==> (h.value in rest && rest[h.value].toolId == t
          && forall a :: a in rest && rest[a].toolId == t ==> rest[a].versionNo <= rest[h.value].versionNo))
    ensures var rest := vs - {LatestOf(vs, t).value};
      AfterDeleteLatest(vs, t) == (if h.Some? then rest[h.value := rest[h.value].(isLatest := true)] else rest)
    ensures LatestOf(AfterDeleteLatest(vs, t), t) == h
  {
    var rest := vs - {LatestOf(vs, t).value};
    AfterDeleteLatestValid(vs, t);
    if h.Some? {
      var g := HighestOf(rest, t);
      assert DistinctNumbers(rest);
      assert rest[g].versionNo == rest[h.value].versionNo;
      assert g == h.value;
      LatestUnique(AfterDeleteLatest(vs, t), t, h.value);
    }
  }

  /** Deleting the latest version of `t`: its links, snapshot rows and media go with it, the
      highest remaining version is promoted, and the tool's one-pager becomes the new latest's
      (an empty object when no version remains). */
  ghost function WithoutLatest(tb: Tables, t: nat): Tables
    requires VersionsValid(tb.versions) && LatestOf(tb.versions, t).Some?
  {
    var p := LatestOf(tb.versions, t).value;
    var vs := AfterDeleteLatest(tb.versions, t);
    var onePager := if LatestOf(vs, t).Some? then vs[LatestOf(vs, t).value].onePager else [];
    tb.(versions := vs,
        tools := if t in tb.tools then tb.tools[t := tb.tools[t].(onePager := onePager)] else tb.tools,
        userVersions := Keep(tb.userVersions, (l: UserLink) => l.versionId != p),
        versionDocuments := (set q | q in tb.versionDocuments && q.0 != p),
        media := Keep(tb.media, (m: MediaItem) => m.versionId != p))
  }

  /** After the delete the table stays valid, nothing refers to the deleted version, and the
      tool's one-pager is that of its (new) latest version. */
  lemma WithoutLatestSynced(tb: Tables, t: nat)
    requires VersionsValid(tb.versions) && LatestOf(tb.versions, t).Some?
    ensures var r := WithoutLatest(tb, t);
      var p := LatestOf(tb.versions, t).value;
      VersionsValid(r.versions) && p !in r.versions
      && (forall l :: l in r.userVersions ==> l.versionId != p)
      && (forall q :: q in r.versionDocuments ==> q.0 != p)
      && (forall m :: m in r.media ==> m.versionId != p)
      && (HasVersions(r.versions, t) <==> LatestOf(r.versions, t).Some?)
      && (t in r.tools ==> (r.tools[t].onePager
            == if LatestOf(r.versions, t).Some? then r.versions[LatestOf(r.versions, t).value].onePager else []))
  {
    AfterDeleteLatestValid(tb.versions, t);
    AfterDeleteLatestRows(tb.versions, t);
  }

  method DeleteLatestVersion(db: Database, t: nat, user: Option<string>) returns (r: Result<Deletion>)
    requires db.Valid()
    modifies db
    ensures db.Valid()
    // A user id the `::uuid` cast rejects fails the count query, and the transaction rolls back.
    ensures Given(user) && !IsUuidText(user.value) ==> r.Err? && db.tables == old(db.tables)
    // With a user: unlink only them while others still use the tool, else delete the tool.
    ensures Given(user) && IsUuidText(user.value) && OthersLinked(old(db.tables), t, user.value) ==>
      r == Ok(UnlinkedOnly) && db.tables == UnlinkUser(old(db.tables), t, user.value)
    ensures Given(user) && IsUuidText(user.value) && !OthersLinked(old(db.tables), t, user.value) ==>
      r == Ok(ToolDeleted) && db.tables == WithoutTool(old(db.tables), t)
    // Without one: delete the latest version, which must exist.
    ensures !Given(user) ==> (r.Err? <==> LatestOf(old(db.tables.versions), t).None?)
    ensures !Given(user) && r.Err? ==> db.tables == old(db.tables)
    ensures !Given(user) && r.Ok? ==>
      LatestOf(old(db.tables.versions), t).Some?
      && db.tables == WithoutLatest(old(db.tables), t)
      && r.value == VersionDeleted(LatestOf(old(db.tables.versions), t).value, LatestOf(db.tables.versions, t))
  {
    if Given(user) {
      if !IsUuidText(user.value) {
        return Err("DataError: invalid input for query argument $2 (not a uuid)");
      }
      if OthersLinked(db.tables, t, user.value) {
        db.tables := UnlinkUser(db.tables, t, user.value);
        return Ok(UnlinkedOnly);
      }
      WithoutToolValid(db.tables.versions, t);
      db.tables := WithoutTool(db.tables, t);
      return Ok(ToolDeleted);
    }
    var latest := db.LatestVersion(t);
    if latest.None? {
      return Err("404: No latest version found for tool");
    }
    var h := DeleteVersion(db, t, latest.value);
    return Ok(VersionDeleted(latest.value, h));
  }

  /** The no-user branch once the latest version `p` is known: delete it and its rows, and
      promote the highest remaining version. */
  method DeleteVersion(db: Database, t: nat, p: nat) returns (h: Option<nat>)
    requires db.Valid() && LatestOf(db.tables.versions, t) == Some(p)
    modifies db
    ensures db.Valid()
    ensures db.tables == WithoutLatest(old(db.tables), t)
    ensures h == LatestOf(db.tables.versions, t)
  {
    ghost var tb := db.tables;
    var rest := db.tables.versions - {p};
    h := HighestIn(rest, t);
    PromotedIsLatest(tb.versions, t, h);
    AfterDeleteLatestValid(tb.versions, t);
    AfterDeleteLatestRows(tb.versions, t);
    var vs := if h.Some? then rest[h.value := rest[h.value].(isLatest := true)] else rest;
    var onePager := if h.Some? then vs[h.value].onePager else [];
    var tools := db.tables.tools;
    db.tables := db.tables.(
      versions := vs,
      tools := if t in tools then tools[t := tools[t].(onePager := onePager)] else tools,
      userVersions := Keep(db.tables.userVersions, (l: UserLink) => l.versionId != p),
      versionDocuments := (set q | q in db.tables.versionDocuments && q.0 != p),
      media := Keep(db.tables.media, (m: MediaItem) => m.versionId != p));
  }
}
