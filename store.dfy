/** The database tables the pipeline and the API read and write (backend/app/db.py is not
    part of this model; the tables are those its SQL names). Tables are in memory; rows
    keyed by a primary key are maps, the rest sequences in insertion order. */
module Store {
  import opened Wrappers
  import opened Json

  /** A row of `tools`; its id is the key it is stored under. */
  datatype Tool = Tool(name: string, canonicalUrl: Option<string>,
                       onePager: seq<(string, Json)>, status: string, watchlist: bool)
  datatype Alias = Alias(toolId: nat, value: string, kind: string, confidence: real)
  /** A row of `documents`: one chunk of a source's text with its embedding. */
  datatype Document = Document(id: nat, toolId: nat, sourceUrl: string, chunkIndex: nat, text: string,
                               embedding: seq<real>)
  /** A row of `tool_versions`; its id is the key it is stored under. */
  datatype Version = Version(toolId: nat, versionNo: nat, isLatest: bool, baseVersionId: Option<nat>,
                             onePager: seq<(string, Json)>, createdAt: int)
  datatype ToolUpdate = ToolUpdate(toolId: nat, field: string, newValue: string, citation: string, agent: string)
  datatype UserLink = UserLink(userId: string, versionId: nat, linkedAt: int)
  /** A row of `media_items`, owned by a tool version. */
  datatype MediaItem = MediaItem(versionId: nat, platform: string, url: string, title: string, author: string,
                                 authorHandle: string, isInfluencer: bool, thumbnailUrl: string)
  datatype TelegramUser = TelegramUser(username: string, firstName: string, linkedUserId: string)
  datatype LinkToken = LinkToken(userId: string, expiresAt: int, used: bool)

  datatype Tables = Tables(
    tools: map<nat, Tool>,
    aliases: seq<Alias>,
    documents: seq<Document>,
    versions: map<nat, Version>,
    toolUpdates: seq<ToolUpdate>,
    userVersions: seq<UserLink>,
    versionDocuments: set<(nat, nat)>,
    media: seq<MediaItem>,
    watchlist: set<(string, nat)>,
    telegramUsers: map<int, TelegramUser>,
    linkTokens: map<string, LinkToken>)

  const EmptyTables: Tables := Tables(map[], [], [], map[], [], [], {}, [], {}, map[], map[])

  const PendingResearch: string := "pending_research"
  const PartiallyVerified: string := "partially_verified"

  // ---------------------------------------------------------------------------
  // The version table and its invariant

  /** Tool `t` has a version marked latest. */
  ghost predicate HasLatest(vs: map<nat, Version>, t: nat)
  {
    exists b :: b in vs && vs[b].isLatest && vs[b].toolId == t
  }

  /** Tool `t` has at least one version. */
  ghost predicate HasVersions(vs: map<nat, Version>, t: nat)
  {
    exists b :: b in vs && vs[b].toolId == t
  }

  /** No tool has two versions marked latest. */
  ghost predicate OneLatest(vs: map<nat, Version>)
  {
    forall a, b :: a in vs && b in vs && vs[a].isLatest && vs[b].isLatest && vs[a].toolId == vs[b].toolId ==> a == b
  }

  /** A latest version carries its tool's highest version number. */
  ghost predicate LatestHighest(vs: map<nat, Version>)
  {
    forall a, b :: a in vs && b in vs && vs[a].isLatest && vs[b].toolId == vs[a].toolId ==> vs[b].versionNo <= vs[a].versionNo
  }

  /** Every tool with versions has a latest one. */
  ghost predicate LatestPresent(vs: map<nat, Version>)
  {
    forall a :: a in vs ==> HasLatest(vs, vs[a].toolId)
  }

  /** Version numbers are unique within a tool. */
  ghost predicate DistinctNumbers(vs: map<nat, Version>)
  {
    forall a, b :: a in vs && b in vs && a != b && vs[a].toolId == vs[b].toolId ==> vs[a].versionNo != vs[b].versionNo
  }

  /** The invariant `tool_versions` keeps. */
  ghost predicate VersionsValid(vs: map<nat, Version>)
  {
    OneLatest(vs) && LatestHighest(vs) && LatestPresent(vs) && DistinctNumbers(vs)
  }

  /** The latest version of `t`, if any. */
  ghost function LatestOf(vs: map<nat, Version>, t: nat): (r: Option<nat>)
    ensures r.Some? ==> r.value in vs && vs[r.value].isLatest && vs[r.value].toolId == t
    ensures r.None? ==> forall a :: a in vs && vs[a].toolId == t ==> !vs[a].isLatest
  {
    if HasLatest(vs, t) then Some(var b :| b in vs && vs[b].isLatest && vs[b].toolId == t; b) else None
  }

  /** In a valid table the latest version is determined: any latest row of `t` is it. */
  lemma LatestUnique(vs: map<nat, Version>, t: nat, p: nat)
    requires VersionsValid(vs)
    requires p in vs && vs[p].isLatest && vs[p].toolId == t
    ensures LatestOf(vs, t) == Some(p)
  {
  }

  /** A tool without a latest version has no versions at all. */
  lemma NoLatestNoVersions(vs: map<nat, Version>, t: nat)
    requires VersionsValid(vs) && LatestOf(vs, t).None?
    ensures !HasVersions(vs, t)
  {
  }

  /** `dbwrite`'s version bump: the previous latest (if any) is flipped off, then a new latest
      row numbered previous + 1 (or 1) is inserted, based on the previous latest. */
  ghost function Bumped(vs: map<nat, Version>, t: nat, newId: nat, onePager: seq<(string, Json)>, now: int): map<nat, Version>
  {
    match LatestOf(vs, t)
    case None => vs[newId := Version(t, 1, true, None, onePager, now)]
    case Some(p) =>
      vs[p := vs[p].(isLatest := false)][newId := Version(t, vs[p].versionNo + 1, true, Some(p), onePager, now)]
  }

  /** The bump spelled as the two map updates of the write path. */
  lemma BumpedIs(vs: map<nat, Version>, t: nat, newId: nat, onePager: seq<(string, Json)>, now: int,
                 prev: Option<nat>, vs': map<nat, Version>)
    requires prev == LatestOf(vs, t) && (prev.Some? ==> prev.value in vs)
    requires prev.None? ==> vs' == vs[newId := Version(t, 1, true, None, onePager, now)]
    requires prev.Some? ==>
      vs' == vs[prev.value := vs[prev.value].(isLatest := false)]
               [newId := Version(t, vs[prev.value].versionNo + 1, true, prev, onePager, now)]
    ensures vs' == Bumped(vs, t, newId, onePager, now)
  {
  }

  /** The bump adds only the new id, so every key stays below a bound above it. */
  lemma BumpedBelow(vs: map<nat, Version>, t: nat, newId: nat, onePager: seq<(string, Json)>, now: int, bound: nat)
    requires newId !in vs && newId < bound && forall a :: a in vs ==> a < bound
    ensures forall a :: a in Bumped(vs, t, newId, onePager, now) ==> a < bound
  {
    BumpedRows(vs, t, newId, onePager, now);
  }

  /** The bump keeps the table valid and makes the new row the tool's latest. */
  lemma BumpedValid(vs: map<nat, Version>, t: nat, newId: nat, onePager: seq<(string, Json)>, now: int)
    requires VersionsValid(vs) && newId !in vs
    ensures VersionsValid(Bumped(vs, t, newId, onePager, now))
    ensures LatestOf(Bumped(vs, t, newId, onePager, now), t) == Some(newId)
  {
    match LatestOf(vs, t)
    case None =>
      NoLatestNoVersions(vs, t);
      BumpedNoneValid(vs, t, Version(t, 1, true, None, onePager, now), newId);
    case Some(p) =>
      BumpedSomeValid(vs, t, p, Version(t, vs[p].versionNo + 1, true, Some(p), onePager, now), newId);
  }

  /** The bumped table holds one new row, numbered one past the previous latest (1 for a first
      version) and based on it; other tools' versions are untouched. */
  lemma BumpedRows(vs: map<nat, Version>, t: nat, newId: nat, onePager: seq<(string, Json)>, now: int)
    requires newId !in vs
    ensures Bumped(vs, t, newId, onePager, now).Keys == vs.Keys + {newId}
    ensures LatestOf(vs, t).None? ==> Bumped(vs, t, newId, onePager, now)[newId] == Version(t, 1, true, None, onePager, now)
    ensures LatestOf(vs, t).Some? ==>
      Bumped(vs, t, newId, onePager, now)[newId]
        == Version(t, vs[LatestOf(vs, t).value].versionNo + 1, true, LatestOf(vs, t), onePager, now)
    ensures forall a :: a in vs && vs[a].toolId != t ==> Bumped(vs, t, newId, onePager, now)[a] == vs[a]
  {
  }

  lemma BumpedNoneValid(vs: map<nat, Version>, t: nat, v: Version, newId: nat)
    requires VersionsValid(vs) && newId !in vs && !HasVersions(vs, t)
    requires v.toolId == t && v.isLatest
    ensures VersionsValid(vs[newId := v]) && LatestOf(vs[newId := v], t) == Some(newId)
  {
    var r := vs[newId := v];
    forall a | a in r ensures HasLatest(r, r[a].toolId) {
      if a == newId {
        assert r[newId].isLatest;
      } else {
        assert HasLatest(vs, vs[a].toolId);
        var b :| b in vs && vs[b].isLatest && vs[b].toolId == vs[a].toolId;
        assert b in r && r[b] == vs[b];
      }
    }
    LatestUnique(r, t, newId);
  }

  lemma BumpedSomeValid(vs: map<nat, Version>, t: nat, p: nat, v: Version, newId: nat)
    requires VersionsValid(vs) && newId !in vs
    requires p in vs && vs[p].isLatest && vs[p].toolId == t
    requires v.toolId == t && v.isLatest && v.versionNo == vs[p].versionNo + 1
    ensures VersionsValid(vs[p := vs[p].(isLatest := false)][newId := v])
    ensures LatestOf(vs[p := vs[p].(isLatest := false)][newId := v], t) == Some(newId)
  {
    var r := vs[p := vs[p].(isLatest := false)][newId := v];
    assert r.Keys == vs.Keys + {newId};
    assert forall a :: a in vs && a != p ==> r[a] == vs[a];
    BumpOneLatest(vs, r, t, p, newId);
    BumpLatestHighest(vs, r, t, p, newId);
    BumpLatestPresent(vs, r, t, p, newId);
    BumpDistinctNumbers(vs, r, t, p, newId);
    LatestUnique(r, t, newId);
  }

  /** Shared shape of the bumped table `r`: `vs` with `p` no longer latest and a new latest row
      `newId` of tool `t` numbered above `p`. */
  ghost predicate BumpShape(vs: map<nat, Version>, r: map<nat, Version>, t: nat, p: nat, newId: nat)
  {
    p in vs && vs[p].toolId == t && vs[p].isLatest && newId !in vs
    && r.Keys == vs.Keys + {newId}
    && r[newId].toolId == t && r[newId].isLatest && r[newId].versionNo == vs[p].versionNo + 1
    && r[p] == vs[p].(isLatest := false)
    && (forall a :: a in vs && a != p ==> r[a] == vs[a])
  }

  lemma BumpOneLatest(vs: map<nat, Version>, r: map<nat, Version>, t: nat, p: nat, newId: nat)
    requires OneLatest(vs) && BumpShape(vs, r, t, p, newId)
    ensures OneLatest(r)
  {
    // apart from the new row, the latest rows of r are latest rows of vs for other tools
    forall a | a in r && a != newId && r[a].isLatest ensures a != p && vs[a].isLatest && r[a].toolId != t {
      assert a != p;
    }
  }

  lemma BumpLatestHighest(vs: map<nat, Version>, r: map<nat, Version>, t: nat, p: nat, newId: nat)
    requires OneLatest(vs) && LatestHighest(vs) && BumpShape(vs, r, t, p, newId)
    ensures LatestHighest(r)
  {
    forall a, b | a in r && b in r && r[a].isLatest && r[b].toolId == r[a].toolId
      ensures r[b].versionNo <= r[a].versionNo
    {
      if a == newId {
        if b != newId {
          assert vs[b].toolId == t;
          assert vs[b].versionNo <= vs[p].versionNo;
        }
      } else {
        assert a != p && vs[a].isLatest;
        assert vs[a].toolId != t;
        assert b != newId && b != p;
      }
    }
  }

  lemma BumpLatestPresent(vs: map<nat, Version>, r: map<nat, Version>, t: nat, p: nat, newId: nat)
    requires OneLatest(vs) && LatestPresent(vs) && BumpShape(vs, r, t, p, newId)
    ensures LatestPresent(r)
  {
    forall a | a in r ensures HasLatest(r, r[a].toolId) {
      if a == newId || r[a].toolId == t {
        assert r[newId].isLatest && r[newId].toolId == t;
      } else {
        assert r[a] == vs[a];
        assert HasLatest(vs, vs[a].toolId);
        var b :| b in vs && vs[b].isLatest && vs[b].toolId == vs[a].toolId;
        assert b != p;
        assert b in r && r[b] == vs[b];
      }
    }
  }

  lemma BumpDistinctNumbers(vs: map<nat, Version>, r: map<nat, Version>, t: nat, p: nat, newId: nat)
    requires LatestHighest(vs) && DistinctNumbers(vs) && BumpShape(vs, r, t, p, newId)
    ensures DistinctNumbers(r)
  {
    forall a, b | a in r && b in r && a != b && r[a].toolId == r[b].toolId
      ensures r[a].versionNo != r[b].versionNo
    {
      if a == newId {
        assert vs[b].toolId == t && vs[b].versionNo <= vs[p].versionNo;
      } else if b == newId {
        assert vs[a].toolId == t && vs[a].versionNo <= vs[p].versionNo;
      } else {
        assert r[a].versionNo == vs[a].versionNo && r[b].versionNo == vs[b].versionNo;
      }
    }
  }

  /** The highest-numbered version of `t`, when `t` has versions. */
  ghost function HighestOf(vs: map<nat, Version>, t: nat): (h: nat)
    requires HasVersions(vs, t)
    ensures h in vs && vs[h].toolId == t
    ensures forall a :: a in vs && vs[a].toolId == t ==> vs[a].versionNo <= vs[h].versionNo
  {
    var keys := set a | a in vs && vs[a].toolId == t;
    var a0 :| a0 in vs && vs[a0].toolId == t;
    assert a0 in keys;
    MaxExists(vs, keys);
    var h :| h in keys && forall a :: a in keys ==> vs[a].versionNo <= vs[h].versionNo;
    h
  }

  lemma {:induction false} MaxExists(vs: map<nat, Version>, keys: set<nat>)
    requires keys != {} && keys <= vs.Keys
    ensures exists h :: h in keys && forall a :: a in keys ==> vs[a].versionNo <= vs[h].versionNo
    decreases |keys|
  {
    ghost var w := ElementOf(keys);
    var x :| x in keys;
    var rest := keys - {x};
    if rest == {} {
      assert keys == {x};
      assert forall a :: a in keys ==> vs[a].versionNo <= vs[x].versionNo;
    } else {
      MaxExists(vs, rest);
      var h :| h in rest && forall a :: a in rest ==> vs[a].versionNo <= vs[h].versionNo;
      if vs[x].versionNo <= vs[h].versionNo {
        assert forall a :: a in keys ==> vs[a].versionNo <= vs[h].versionNo;
      } else {
        assert forall a :: a in keys ==> vs[a].versionNo <= vs[x].versionNo;
      }
    }
  }

  /** Deleting the latest version of `t` (which must exist) and promoting the highest remaining one. */
  ghost function AfterDeleteLatest(vs: map<nat, Version>, t: nat): map<nat, Version>
    requires LatestOf(vs, t).Some?
  {
    var rest := vs - {LatestOf(vs, t).value};
    if HasVersions(rest, t) then
      var h := HighestOf(rest, t);
      rest[h := rest[h].(isLatest := true)]
    else rest
  }

  /** Deleting the latest version keeps the table valid, and the tool keeps a latest version
      exactly when it keeps any version. */
  lemma AfterDeleteLatestValid(vs: map<nat, Version>, t: nat)
    requires VersionsValid(vs) && LatestOf(vs, t).Some?
    ensures VersionsValid(AfterDeleteLatest(vs, t))
    ensures HasVersions(AfterDeleteLatest(vs, t), t) <==> LatestOf(AfterDeleteLatest(vs, t), t).Some?
  {
    var p := LatestOf(vs, t).value;
    var rest := vs - {p};
    if HasVersions(rest, t) {
      var h := HighestOf(rest, t);
      var r := rest[h := rest[h].(isLatest := true)];
      assert forall a :: a in vs && a != p ==> a in rest && rest[a] == vs[a];
      PromoteValid(vs, r, t, p, h);
    } else {
      RemoveLatestValid(vs, t, p);
    }
  }

  /** Deleting the latest version removes exactly that row; the promoted row is the remaining
      version of the tool with the highest number; other tools' versions are untouched. */
  lemma AfterDeleteLatestRows(vs: map<nat, Version>, t: nat)
    requires VersionsValid(vs) && LatestOf(vs, t).Some?
    ensures AfterDeleteLatest(vs, t).Keys == vs.Keys - {LatestOf(vs, t).value}
    ensures forall a :: a in AfterDeleteLatest(vs, t) && vs[a].toolId != t ==> AfterDeleteLatest(vs, t)[a] == vs[a]
    ensures LatestOf(AfterDeleteLatest(vs, t), t).Some? ==>
      var r := AfterDeleteLatest(vs, t);
      forall a :: a in r && r[a].toolId == t ==> r[a].versionNo <= r[LatestOf(r, t).value].versionNo
  {
    AfterDeleteLatestValid(vs, t);
  }

  /** Shape of the table after the latest row `p` of tool `t` is deleted and `h`, the highest
      remaining row of `t`, is promoted. */
  ghost predicate PromoteShape(vs: map<nat, Version>, r: map<nat, Version>, t: nat, p: nat, h: nat)
  {
    p in vs && vs[p].isLatest && vs[p].toolId == t
    && h in vs && h != p && vs[h].toolId == t
    && (forall a :: a in vs && a != p && vs[a].toolId == t ==> vs[a].versionNo <= vs[h].versionNo)
    && r.Keys == vs.Keys - {p}
    && r[h] == vs[h].(isLatest := true)
    && (forall a :: a in r && a != h ==> r[a] == vs[a])
  }

  lemma PromoteValid(vs: map<nat, Version>, r: map<nat, Version>, t: nat, p: nat, h: nat)
    requires VersionsValid(vs) && PromoteShape(vs, r, t, p, h)
    ensures VersionsValid(r) && LatestOf(r, t) == Some(h)
  {
    PromoteOneLatest(vs, r, t, p, h);
    PromoteLatestHighest(vs, r, t, p, h);
    PromoteLatestPresent(vs, r, t, p, h);
    assert DistinctNumbers(r) by {
      assert forall a :: a in r ==> r[a].toolId == vs[a].toolId && r[a].versionNo == vs[a].versionNo;
    }
    LatestUnique(r, t, h);
  }

  lemma PromoteOneLatest(vs: map<nat, Version>, r: map<nat, Version>, t: nat, p: nat, h: nat)
    requires OneLatest(vs) && PromoteShape(vs, r, t, p, h)
    ensures OneLatest(r)
  {
    // apart from h, the latest rows of r are latest rows of vs for other tools
    forall a | a in r && a != h && r[a].isLatest ensures vs[a].isLatest && r[a].toolId != t {
      assert a != p;
    }
  }

  lemma PromoteLatestHighest(vs: map<nat, Version>, r: map<nat, Version>, t: nat, p: nat, h: nat)
    requires OneLatest(vs) && LatestHighest(vs) && PromoteShape(vs, r, t, p, h)
    ensures LatestHighest(r)
  {
    forall a, b | a in r && b in r && r[a].isLatest && r[b].toolId == r[a].toolId
      ensures r[b].versionNo <= r[a].versionNo
    {
      if a == h {
        if b != h {
          assert b != p && vs[b].toolId == t;
        }
      } else {
        assert a != p && vs[a].isLatest;
        assert vs[a].toolId != t;
        assert b != h;
      }
    }
  }

  lemma PromoteLatestPresent(vs: map<nat, Version>, r: map<nat, Version>, t: nat, p: nat, h: nat)
    requires OneLatest(vs) && LatestPresent(vs) && PromoteShape(vs, r, t, p, h)
    ensures LatestPresent(r)
  {
    forall a | a in r ensures HasLatest(r, r[a].toolId) {
      if a == h || r[a].toolId == t {
        assert r[h].isLatest && r[h].toolId == t;
      } else {
        assert r[a] == vs[a];
        assert HasLatest(vs, vs[a].toolId);
        var b :| b in vs && vs[b].isLatest && vs[b].toolId == vs[a].toolId;
        assert b != p && b != h;
        assert b in r && r[b] == vs[b];
      }
    }
  }

  lemma RemoveLatestValid(vs: map<nat, Version>, t: nat, p: nat)
    requires VersionsValid(vs)
    requires p in vs && vs[p].isLatest && vs[p].toolId == t
    requires !HasVersions(vs - {p}, t)
    ensures VersionsValid(vs - {p})
  {
    var r := vs - {p};
    forall a | a in r ensures HasLatest(r, r[a].toolId) {
      assert HasLatest(vs, vs[a].toolId);
      var b :| b in vs && vs[b].isLatest && vs[b].toolId == vs[a].toolId;
      assert vs[a].toolId != t;
      assert b != p;
      assert b in r;
    }
  }

  // ---------------------------------------------------------------------------
  // Queries shared by the pipeline and the API

  /** The documents of tool `t`, in table order. */
  function DocsOf(docs: seq<Document>, t: nat): (r: seq<Document>)
    ensures |r| <= |docs|
    ensures forall d :: d in r <==> d in docs && d.toolId == t
  {
    if docs == [] then []
    else (if docs[0].toolId == t then [docs[0]] else []) + DocsOf(docs[1..], t)
  }

  /** `DELETE FROM documents WHERE tool_id = t AND source_url = u`. */
  function DropDocs(docs: seq<Document>, t: nat, u: string): (r: seq<Document>)
    ensures forall d :: d in r <==> d in docs && !(d.toolId == t && d.sourceUrl == u)
  {
    if docs == [] then []
    else (if docs[0].toolId == t && docs[0].sourceUrl == u then [] else [docs[0]]) + DropDocs(docs[1..], t, u)
  }

  /** Row `d` is the chunk row with index `i` of one source. */
  predicate ChunkRow(d: Document, t: nat, src: string, i: nat, chunks: seq<string>, vectors: seq<seq<real>>)
  {
    i < |chunks| && i < |vectors|
    && d.toolId == t && d.sourceUrl == src && d.chunkIndex == i && d.text == chunks[i] && d.embedding == vectors[i]
  }

  /** `rows` are the chunk rows of one source, one per pair of `zip(chunks, vectors)`. */
  predicate ChunkRows(rows: seq<Document>, t: nat, src: string, chunks: seq<string>, vectors: seq<seq<real>>)
  {
    |rows| == Min(|chunks|, |vectors|)
    && forall i :: 0 <= i < |rows| ==> ChunkRow(rows[i], t, src, i, chunks, vectors)
  }

  /** A user id PostgreSQL's `::uuid` cast accepts, in its hyphenated 8-4-4-4-12 spelling. */
  predicate IsUuidText(u: string)
  {
    |u| == 36
    && forall i :: 0 <= i < |u| ==>
      if i == 8 || i == 13 || i == 18 || i == 23 then u[i] == '-'
      else '0' <= u[i] <= '9' || 'a' <= u[i] <= 'f' || 'A' <= u[i] <= 'F'
  }

  /** The (user, version) link rows of tool `t`'s versions. */
  predicate LinkOfTool(vs: map<nat, Version>, l: UserLink, t: nat)
  {
    l.versionId in vs && vs[l.versionId].toolId == t
  }

  /** The in-memory database: every table, plus the next fresh row id. */
  class Database {
    var tables: Tables
    var nextId: nat

    /** The version table is valid, every id in use is below `nextId` and every alias names a tool. */
    ghost predicate Valid()
      reads this
    {
      VersionsValid(tables.versions)
      && (forall a :: a in tables.versions ==> a < nextId)
      && (forall a :: a in tables.tools ==> a < nextId)
      && (forall d :: d in tables.documents ==> d.id < nextId)
      && (forall a :: a in tables.aliases ==> a.toolId in tables.tools)
      && (forall l :: l in tables.userVersions ==> l.versionId < nextId)
    }

    constructor ()
      ensures Valid() && tables == EmptyTables
    {
      tables := EmptyTables;
      nextId := 0;
    }

    /** A fresh id (the database's `gen_random_uuid()`): not the key of any row. */
    method NewId() returns (id: nat)
      requires Valid()
      modifies this
      ensures Valid() && tables == old(tables)
      ensures id !in tables.versions && id !in tables.tools
      ensures forall d :: d in tables.documents ==> d.id != id
      ensures forall l :: l in tables.userVersions ==> l.versionId != id
      ensures id < nextId
    {
      id := nextId;
      nextId := nextId + 1;
    }

    /** `SELECT id FROM tools WHERE canonical_url = url`: some tool with that URL, if any. */
    method ToolByCanonical(url: string) returns (r: Option<nat>)
      ensures r.Some? ==> r.value in tables.tools && tables.tools[r.value].canonicalUrl == Some(url)
      ensures r.None? ==> forall t :: t in tables.tools ==> tables.tools[t].canonicalUrl != Some(url)
    {
      if exists t :: t in tables.tools && tables.tools[t].canonicalUrl == Some(url) {
        var t :| t in tables.tools && tables.tools[t].canonicalUrl == Some(url);
        r := Some(t);
      } else {
        r := None;
      }
    }

    /** `SELECT tool_id FROM tool_aliases WHERE LOWER(alias_value) = key`: some matching alias's tool. */
    method ToolByAlias(key: string) returns (r: Option<nat>)
      requires Valid()
      ensures r.Some? ==> r.value in tables.tools
      ensures r.Some? ==> exists i :: 0 <= i < |tables.aliases| && Strings.Lower(tables.aliases[i].value) == key && tables.aliases[i].toolId == r.value
      ensures r.None? ==> forall i :: 0 <= i < |tables.aliases| ==> Strings.Lower(tables.aliases[i].value) != key
    {
      r := None;
      var i := 0;
      while i < |tables.aliases|
        invariant 0 <= i <= |tables.aliases|
        invariant forall j :: 0 <= j < i ==> Strings.Lower(tables.aliases[j].value) != key
      {
        if Strings.Lower(tables.aliases[i].value) == key {
          r := Some(tables.aliases[i].toolId);
          return;
        }
        i := i + 1;
      }
    }

    /** `SELECT id FROM tool_versions WHERE tool_id = t AND is_latest`. */
    method LatestVersion(t: nat) returns (r: Option<nat>)
      requires Valid()
      ensures r == LatestOf(tables.versions, t)
      ensures r.Some? ==> r.value in tables.versions && tables.versions[r.value].isLatest
    {
      if exists b :: b in tables.versions && tables.versions[b].isLatest && tables.versions[b].toolId == t {
        var b :| b in tables.versions && tables.versions[b].isLatest && tables.versions[b].toolId == t;
        LatestUnique(tables.versions, t, b);
        r := Some(b);
      } else {
        r := None;
      }
    }

    /** `dbwrite`'s version bump: flip the previous latest off, then insert the new latest row
        numbered one past it and based on it. */
    method BumpVersion(t: nat, onePager: seq<(string, Json)>, now: int) returns (id: nat)
      requires Valid()
      modifies this
      ensures Valid()
      ensures id !in old(tables.versions) && id < nextId
      ensures forall l :: l in tables.userVersions ==> l.versionId != id
      ensures tables == old(tables).(versions := Bumped(old(tables.versions), t, id, onePager, now))
      ensures LatestOf(tables.versions, t) == Some(id)
    {
      var prev := LatestVersion(t);
      id := NewId();
      ghost var vs0 := tables.versions;
      var vs := tables.versions;
      if prev.Some? {
        var p := prev.value;
        vs := vs[p := vs[p].(isLatest := false)][id := Version(t, vs[p].versionNo + 1, true, prev, onePager, now)];
      } else {
        vs := vs[id := Version(t, 1, true, None, onePager, now)];
      }
      BumpedIs(vs0, t, id, onePager, now, prev, vs);
      BumpedValid(vs0, t, id, onePager, now);
      BumpedBelow(vs0, t, id, onePager, now, nextId);
      tables := tables.(versions := vs);
    }

    /** `INSERT INTO user_tool_versions`: the (user, version) pair is unique, so a second insert
        fails; `inserted` says whether a row was added. */
    method LinkUser(user: string, versionId: nat, now: int) returns (inserted: bool)
      requires Valid() && versionId < nextId
      modifies this
      ensures Valid()
      ensures inserted <==> forall l :: l in old(tables.userVersions) ==> !(l.userId == user && l.versionId == versionId)
      ensures inserted ==> tables == old(tables).(userVersions := old(tables.userVersions) + [UserLink(user, versionId, now)])
      ensures !inserted ==> tables == old(tables)
      ensures nextId == old(nextId)
    {
      if exists l :: l in tables.userVersions && l.userId == user && l.versionId == versionId {
        inserted := false;
      } else {
        inserted := true;
        tables := tables.(userVersions := tables.userVersions + [UserLink(user, versionId, now)]);
      }
    }

    /** `INSERT INTO tools (name, canonical_url, one_pager, watchlist, status) VALUES (name, canonical,
        '{}', FALSE, 'pending_research') RETURNING id`. */
    method InsertTool(name: string, canonical: Option<string>) returns (id: nat)
      requires Valid()
      modifies this
      ensures Valid()
      ensures id !in old(tables.tools)
      ensures tables == old(tables).(tools := old(tables.tools)[id := Tool(name, canonical, [], PendingResearch, false)])
    {
      id := NewId();
      tables := tables.(tools := tables.tools[id := Tool(name, canonical, [], PendingResearch, false)]);
    }

    /** `DELETE FROM documents WHERE tool_id = t AND source_url = u`. */
    method DeleteDocuments(t: nat, u: string)
      requires Valid()
      modifies this
      ensures Valid()
      ensures tables == old(tables).(documents := DropDocs(old(tables.documents), t, u))
    {
      tables := tables.(documents := DropDocs(tables.documents, t, u));
    }

    /** The `executemany` insert of one source's chunks: one row per pair `zip(chunks, vectors)`
        yields, row `i` holding chunk `i`, its vector and chunk index `i`. */
    method InsertChunks(t: nat, src: string, chunks: seq<string>, vectors: seq<seq<real>>)
      requires Valid()
      modifies this
      ensures Valid()
      ensures tables == old(tables).(documents := tables.documents)
      ensures |tables.documents| >= |old(tables.documents)|
      ensures tables.documents[..|old(tables.documents)|] == old(tables.documents)
      ensures ChunkRows(tables.documents[|old(tables.documents)|..], t, src, chunks, vectors)
    {
      ghost var before := tables.documents;
      ghost var rows: seq<Document> := [];
      var n := Min(|chunks|, |vectors|);
      for i := 0 to n
        invariant Valid()
        invariant tables == old(tables).(documents := before + rows)
        invariant |rows| == i && forall j :: 0 <= j < i ==> ChunkRow(rows[j], t, src, j, chunks, vectors)
      {
        var id := NewId();
        var d := Document(id, t, src, i, chunks[i], vectors[i]);
        rows := rows + [d];
        tables := tables.(documents := tables.documents + [d]);
      }
      assert tables.documents[|before|..] == rows;
    }
  }
}
