/** The compiled graph (backend/app/flow.py:609-640): the six nodes run in a fixed chain, each
    node's update merged into the state, and the two entry points that start it. */
module Flow {
  import opened Wrappers
  import opened FlowState
  import opened Store
  import ResolveNode
  import IngestNode
  import AugmentNode
  import ResearchNode
  import JurorNode
  import WriteNode

  datatype Node = Resolve | Ingest | Augment | Research | Judge | DbWrite

  /** The graph's edges: entry `resolve_tool`, then each node to the next, `dbwrite` to the end. */
  const Order: seq<Node> := [Resolve, Ingest, Augment, Research, Judge, DbWrite]

  /** The update of a node after `resolve_tool` never names a tool or asks for a skip. */
  predicate Later(u: State)
  {
    u.toolId.None? && u.skipProcessing.None?
  }

  /** What the final write leaves behind for tool `t`: the tool carries the one-pager and
      "partially_verified", and its latest version carries the same one-pager. */
  ghost predicate Synced(tb: Tables, t: nat, onePager: seq<(string, Json.Json)>)
  {
    t in tb.tools && tb.tools[t].onePager == onePager && tb.tools[t].status == PartiallyVerified
    && LatestOf(tb.versions, t).Some? && tb.versions[LatestOf(tb.versions, t).value].onePager == onePager
  }

  /** One node run on the state `s`. */
  method RunNode(db: Database, env: Env, n: Node, s: State) returns (r: Result<State>)
    requires db.Valid()
    modifies db
    ensures db.Valid()
    ensures old(db.tables.tools).Keys <= db.tables.tools.Keys
    ensures n != Resolve && r.Ok? ==> Later(r.value)
    // Once a skip is decided, a later node writes nothing and keeps the status it finds.
    ensures n != Resolve && Skipping(s) ==>
      r.Ok? && db.tables == old(db.tables) && (s.status.Some? ==> Merge(s, r.value).status == s.status)
    ensures n == Resolve && !Given(s.url) && !Given(s.name) ==> r.Err?
    ensures n == Resolve && r.Ok? ==>
      r.value.toolId.Some? && r.value.toolId.value in db.tables.tools
      && (r.value.skipProcessing.None? || Skipping(r.value)) && r.value.status.Some?
    ensures n == Resolve && r.Ok? && Skipping(r.value) ==>
      db.tables == old(db.tables) && r.value.status == Some(old(db.tables.tools)[r.value.toolId.value].status)
    ensures n == DbWrite && !Skipping(s) && r.Ok? ==>
      s.toolId.Some? && r.value == NoUpdate.(status := Some(PartiallyVerified))
      && Synced(db.tables, s.toolId.value, s.onePager.GetOr([]))
  {
    match n {
      case Resolve =>
        r := ResolveNode.ResolveTool(db, env, s);
        if r.Ok? && !Skipping(r.value) {
          assert r.value.status.Some?;
        }
      case Ingest =>
        r := IngestNode.Ingest(db, env, s);
      case Augment =>
        ghost var rows, sources;
        r, rows, sources := AugmentNode.AugmentSources(db, env, s);
      case Research =>
        r := ResearchNode.ResearchTool(db, env, s);
      case Judge =>
        r := JurorNode.JudgeClaims(env, s);
      case DbWrite =>
        ghost var tb := db.tables;
        ghost var v;
        r, v := WriteNode.WriteTool(db, env, s);
        if !Skipping(s) && r.Ok? {
          WriteNode.WrittenInSync(tb, s, s.toolId.value, v, env.now);
        }
    }
  }

  /** `graph.ainvoke`: the nodes in order, a raising node failing the whole run. */
  method RunGraph(db: Database, env: Env, s0: State) returns (r: Result<State>)
    requires db.Valid()
    requires s0.skipProcessing.None?
    modifies db
    ensures db.Valid()
    ensures !Given(s0.url) && !Given(s0.name) ==> r.Err?
    ensures r.Ok? ==> r.value.toolId.Some?
    // A skipped run writes nothing and reports the existing tool's status.
    ensures r.Ok? && Skipping(r.value) ==>
      db.tables == old(db.tables) && r.value.toolId.value in db.tables.tools
      && r.value.status == Some(db.tables.tools[r.value.toolId.value].status)
    // A full run leaves the tool "partially_verified" with its new latest version holding the
    // one-pager the run produced.
    ensures r.Ok? && !Skipping(r.value) ==>
      r.value.status == Some(PartiallyVerified)
      && Synced(db.tables, r.value.toolId.value, r.value.onePager.GetOr([]))
  {
    var s := s0;
    for i := 0 to |Order|
      invariant db.Valid()
      invariant i > 0 ==> Given(s0.url) || Given(s0.name)
      invariant i == 0 ==> s == s0 && db.tables == old(db.tables)
      invariant i == |Order| ==> Skipping(s)
      invariant i > 0 ==> s.toolId.Some? && s.status.Some? && (s.skipProcessing.None? || Skipping(s))
      invariant i > 0 && Skipping(s) ==>
        db.tables == old(db.tables) && s.toolId.value in db.tables.tools
        && s.status == Some(db.tables.tools[s.toolId.value].status)
    {
      assert Order[i] == Resolve <==> i == 0;
      var u := RunNode(db, env, Order[i], s);
      if u.Err? {
        return Err(u.error);
      }
      assert i > 0 ==> (Skipping(Merge(s, u.value)) <==> Skipping(s));
      s := Merge(s, u.value);
      if i == |Order| - 1 && !Skipping(s) {
        assert Order[i] == DbWrite;
        return Ok(s);
      }
    }
    return Ok(s);
  }

  /** `run_ingest_flow`: the graph on a request's URL, name, force flag and user; the result is
      the tool id and the status, "pending_research" when the state has none. */
  method RunIngestFlow(db: Database, env: Env, url: Option<string>, name: Option<string>, force: bool,
                       userId: Option<string>)
    returns (r: Result<(nat, string)>)
    requires db.Valid()
    modifies db
    ensures db.Valid()
    ensures !Given(url) && !Given(name) ==> r.Err?
    ensures r.Ok? ==> r.value.0 in db.tables.tools
    ensures r.Ok? && r.value.1 != PartiallyVerified ==> db.tables == old(db.tables)
  {
    var s := NoUpdate.(url := url, name := name, force := Some(force), userId := userId);
    var out := RunGraph(db, env, s);
    if out.Err? {
      return Err(out.error);
    }
    return Ok((out.value.toolId.value, out.value.status.GetOr(PendingResearch)));
  }

  /** `run_ingest_flow_with_ocr`: the same with screenshot text and a source label, and no URL. */
  method RunIngestFlowWithOcr(db: Database, env: Env, name: string, ocr: string, sourceLabel: string, force: bool,
                              userId: Option<string>)
    returns (r: Result<(nat, string)>)
    requires db.Valid()
    modifies db
    ensures db.Valid()
    ensures r.Ok? ==> r.value.0 in db.tables.tools
    ensures r.Ok? && r.value.1 != PartiallyVerified ==> db.tables == old(db.tables)
  {
    var s := NoUpdate.(name := Some(name), force := Some(force), ocrText := Some(ocr), sourceUrl := Some(sourceLabel),
                       userId := userId);
    var out := RunGraph(db, env, s);
    if out.Err? {
      return Err(out.error);
    }
    return Ok((out.value.toolId.value, out.value.status.GetOr(PendingResearch)));
  }
}
