/** The streaming ingest endpoint (backend/app/api.py:293-335): the graph's nodes run one by one
    over a shared state, each reported as a start and a finish event; the first node that raises
    is reported as an error and stops the run; a final event carries the tool and its status. */
module IngestStream {
  import opened Wrappers
  import opened FlowState
  import opened Store
  import opened Flow

  /** The server-sent events; a finish carries the state's tool id, status and canonical URL. */
  datatype Event =
    | Start(node: Node)
    | Finish(node: Node, toolId: Option<nat>, status: Option<string>, canonicalUrl: Option<string>)
    | Error(node: Node, message: string)
    | Done(tool: Option<nat>, finalStatus: string)

  /** `evs` reports the first `k` nodes of the graph, each with a start and then a finish. */
  predicate Finished(evs: seq<Event>, k: nat)
    requires k <= |Order|
  {
    |evs| == 2 * k
    && forall i :: 0 <= i < k ==> evs[2 * i] == Start(Order[i]) && evs[2 * i + 1].Finish? && evs[2 * i + 1].node == Order[i]
  }

  /** `evs` reports nodes `0..k-1` finishing and node `k` starting and raising. */
  predicate Failed(evs: seq<Event>, k: nat)
  {
    k < |Order| && |evs| == 2 * k + 2 && Finished(evs[..2 * k], k)
    && evs[2 * k] == Start(Order[k]) && evs[2 * k + 1].Error? && evs[2 * k + 1].node == Order[k]
  }

  /** The events before the final one. */
  function Body(evs: seq<Event>): (body: seq<Event>)
    requires |evs| >= 1
    ensures |body| == |evs| - 1 && body == evs[..|body|]
  {
    evs[..|evs| - 1]
  }

  /** The shape of every stream: all six nodes finish, or a prefix of them finishes and the next
      one fails; then the final event. */
  predicate Trace(evs: seq<Event>)
  {
    |evs| >= 1 && evs[|evs| - 1].Done?
    && (Finished(Body(evs), |Order|) || exists k :: 0 <= k < |Order| && Failed(Body(evs), k))
  }

  /** The stream ran every node to its finish. */
  predicate Completed(evs: seq<Event>)
  {
    |evs| >= 1 && Finished(Body(evs), |Order|)
  }

  /** The last finish event, if any node finished. */
  function LastFinish(evs: seq<Event>): (r: Option<Event>)
    ensures r.Some? ==> r.value.Finish? && r.value in evs
    ensures r.None? <==> forall i :: 0 <= i < |evs| ==> !evs[i].Finish?
  {
    if evs == [] then None
    else if evs[|evs| - 1].Finish? then Some(evs[|evs| - 1])
    else
      var r := LastFinish(evs[..|evs| - 1]);
      assert forall i :: 0 <= i < |evs| - 1 ==> evs[..|evs| - 1][i] == evs[i];
      r
  }

  /** Reporting node `i` as started and finished. */
  lemma FinishStep(evs: seq<Event>, i: nat, f: Event)
    requires i < |Order| && Finished(evs, i) && f.Finish? && f.node == Order[i]
    ensures Finished(evs + [Start(Order[i]), f], i + 1)
    ensures LastFinish(evs + [Start(Order[i]), f]) == Some(f)
    ensures (evs + [Start(Order[i]), f])[1].Finish?
  {
    var evs' := evs + [Start(Order[i]), f];
    assert forall j :: 0 <= j < |evs| ==> evs'[j] == evs[j];
    if i > 0 {
      assert evs[2 * 0 + 1].Finish?;
    } else {
      assert evs'[1] == f;
    }
  }

  /** Reporting node `i` as started and raising, then the final event. */
  lemma FailStep(evs: seq<Event>, i: nat, e: Event, d: Event)
    requires i < |Order| && Finished(evs, i) && e.Error? && e.node == Order[i] && d.Done?
    ensures var all := evs + [Start(Order[i]), e, d];
      Trace(all) && Body(all) == evs + [Start(Order[i]), e]
      && LastFinish(Body(all)) == LastFinish(evs)
      && |all| >= 3 && (all[1].Error? <==> i == 0)
  {
    var body := evs + [Start(Order[i]), e];
    var all := body + [d];
    assert all == evs + [Start(Order[i]), e, d];
    assert Body(all) == body;
    assert body[..2 * i] == evs;
    assert Failed(body, i);
    assert (body[..|body| - 1]) == evs + [Start(Order[i])];
    assert (evs + [Start(Order[i])])[..|evs|] == evs;
    if i > 0 {
      assert all[1] == evs[1] && evs[2 * 0 + 1].Finish?;
    } else {
      assert all[1] == e;
    }
  }

  /** Every node finished: the final event closes a completed stream. */
  lemma CompleteStep(evs: seq<Event>, d: Event)
    requires Finished(evs, |Order|) && d.Done?
    ensures Trace(evs + [d]) && Completed(evs + [d]) && Body(evs + [d]) == evs
    ensures |evs + [d]| >= 3 && !(evs + [d])[1].Error?
  {
    assert Body(evs + [d]) == evs;
    assert (evs + [d])[1] == evs[1] && evs[2 * 0 + 1].Finish?;
  }

  /** The final event repeats the tool and status of the last finish event, the status
      defaulting to "pending_research"; with no finished node it names no tool. */
  predicate DoneReports(evs: seq<Event>)
  {
    |evs| >= 1 && evs[|evs| - 1].Done? &&
    var done := evs[|evs| - 1];
    match LastFinish(Body(evs))
    case None => done == Done(None, PendingResearch)
    case Some(f) => done.tool == f.toolId && done.finalStatus == f.status.GetOr(PendingResearch)
  }

  /** The final event names no tool exactly when resolving failed, and otherwise a tool that
      exists. */
  predicate DoneNamesTool(evs: seq<Event>, tools: set<nat>)
  {
    |evs| >= 3 && evs[|evs| - 1].Done? &&
    var done := evs[|evs| - 1];
    (done.tool.None? <==> evs[1].Error?) && (done.tool.Some? ==> done.tool.value in tools)
  }

  /** In a stream the final event comes once, at the end; an error is always the event before
      it; and every start names the node the graph runs at that point. */
  lemma {:induction false} TraceEvents(evs: seq<Event>)
    requires Trace(evs)
    ensures forall i :: 0 <= i < |evs| - 1 ==> !evs[i].Done?
    ensures forall i :: 0 <= i < |evs| && evs[i].Error? ==> i == |evs| - 2
    ensures forall i :: 0 <= i < |evs| && evs[i].Start? ==> i % 2 == 0 && i / 2 < |Order| && evs[i].node == Order[i / 2]
    ensures Completed(evs) <==> forall i :: 0 <= i < |evs| ==> !evs[i].Error?
  {
    var body := Body(evs);
    var errAt: int := -1;
    if Finished(body, |Order|) {
      FinishedShape(body, |Order|);
    } else {
      var k :| 0 <= k < |Order| && Failed(body, k);
      FailedShape(body, k);
      errAt := 2 * k + 1;
    }
    assert errAt == -1 || errAt == |evs| - 2;
    forall i | 0 <= i < |evs|
      ensures (i < |evs| - 1 ==> !evs[i].Done?)
        && (evs[i].Error? ==> i == errAt)
        && (evs[i].Start? ==> i % 2 == 0 && i / 2 < |Order| && evs[i].node == Order[i / 2])
    {
      if i < |evs| - 1 {
        assert evs[i] == body[i];
      }
    }
  }

  /** The events of `k` finished nodes: starts at even positions naming the node run there,
      finishes at odd ones. */
  lemma FinishedShape(body: seq<Event>, k: nat)
    requires k <= |Order| && Finished(body, k)
    ensures forall i :: 0 <= i < |body| ==>
      (body[i].Start? || body[i].Finish?)
      && (body[i].Start? ==> i % 2 == 0 && i / 2 < |Order| && body[i].node == Order[i / 2])
  {
    forall i | 0 <= i < |body|
      ensures (body[i].Start? || body[i].Finish?)
        && (body[i].Start? ==> i % 2 == 0 && i / 2 < |Order| && body[i].node == Order[i / 2])
    {
      var j := i / 2;
      assert i == 2 * j || i == 2 * j + 1;
    }
  }

  /** The events of a run whose node `k` failed: the only error is the last event. */
  lemma FailedShape(body: seq<Event>, k: nat)
    requires Failed(body, k)
    ensures forall i :: 0 <= i < |body| ==>
      !body[i].Done? && (body[i].Error? <==> i == 2 * k + 1)
      && (body[i].Start? ==> i % 2 == 0 && i / 2 < |Order| && body[i].node == Order[i / 2])
  {
    var pre := body[..2 * k];
    FinishedShape(pre, k);
    forall i | 0 <= i < |body|
      ensures !body[i].Done? && (body[i].Error? <==> i == 2 * k + 1)
        && (body[i].Start? ==> i % 2 == 0 && i / 2 < |Order| && body[i].node == Order[i / 2])
    {
      if i < 2 * k {
        assert body[i] == pre[i];
      }
    }
  }

  /** `ingest_stream`: refuses a request with neither URL nor name before streaming; otherwise
      folds the nodes over the state, stopping at the first error, and ends with the tool id
      and the status ("pending_research" when no node set one). A stream that runs to the end
      leaves the store as the graph run does. */
  method Stream(db: Database, env: Env, url: Option<string>, name: Option<string>, force: bool,
                userId: Option<string>)
    returns (r: Result<seq<Event>>)
    requires db.Valid()
    modifies db
    ensures db.Valid()
    ensures r.Err? <==> !Given(url) && !Given(name)
    ensures r.Err? ==> db.tables == old(db.tables)
    ensures r.Ok? ==> Trace(r.value)
    ensures r.Ok? ==> DoneReports(r.value) && DoneNamesTool(r.value, db.tables.tools.Keys)
    ensures r.Ok? && Completed(r.value) ==>
      var done := r.value[|r.value| - 1];
      done.tool.Some? && done.tool.value in db.tables.tools
      && ((db.tables == old(db.tables) && done.finalStatus == db.tables.tools[done.tool.value].status)
          || (done.finalStatus == PartiallyVerified
              && Synced(db.tables, done.tool.value, db.tables.tools[done.tool.value].onePager)))
  {
    if !Given(url) && !Given(name) {
      return Err("400: Provide either url or name");
    }
    var s := NoUpdate.(url := url, name := name, force := Some(force), userId := userId);
    var evs: seq<Event> := [];
    for i := 0 to |Order|
      invariant db.Valid()
      invariant Finished(evs, i)
      invariant i == 0 ==> evs == [] && s.toolId.None? && s.status.None?
      invariant i > 0 ==> LastFinish(evs) == Some(Finish(Order[i - 1], s.toolId, s.status, s.canonicalUrl))
      invariant i > 0 ==> evs[1].Finish? && s.toolId.Some? && s.toolId.value in db.tables.tools
      invariant i == 0 ==> s.skipProcessing.None? && db.tables == old(db.tables)
      invariant i > 0 ==> s.status.Some? && (s.skipProcessing.None? || Skipping(s))
      invariant i > 0 && Skipping(s) ==>
        db.tables == old(db.tables) && s.status == Some(db.tables.tools[s.toolId.value].status)
      invariant i == |Order| && !Skipping(s) ==>
        s.status == Some(PartiallyVerified) && Synced(db.tables, s.toolId.value, s.onePager.GetOr([]))
    {
      assert Order[i] == Resolve <==> i == 0;
      var u := RunNode(db, env, Order[i], s);
      if u.Err? {
        var done := Done(s.toolId, s.status.GetOr(PendingResearch));
        FailStep(evs, i, Error(Order[i], u.error), done);
        return Ok(evs + [Start(Order[i]), Error(Order[i], u.error), done]);
      }
      assert i > 0 ==> (Skipping(Merge(s, u.value)) <==> Skipping(s));
      assert i == |Order| - 1 ==> Order[i] == DbWrite;
      s := Merge(s, u.value);
      var f := Finish(Order[i], s.toolId, s.status, s.canonicalUrl);
      FinishStep(evs, i, f);
      evs := evs + [Start(Order[i]), f];
    }
    var done := Done(s.toolId, s.status.GetOr(PendingResearch));
    CompleteStep(evs, done);
    evs := evs + [done];
    return Ok(evs);
  }
}
