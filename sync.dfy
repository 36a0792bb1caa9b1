/**
 * The manual-sync deployment migration: for each legacy manual-sync
 * dataflow, make sure its org task, new dataflow and link exist, then
 * rewrite the deployment's `config` parameter and read it back.
 */
module SyncSpec {
  import opened Common
  import opened Query
  import opened Model

  /** What the sync migration may change: three tables grow, the ledger grows, remote blocks stay. */
  predicate SyncFrame(w: World, w': World) {
    && w'.db == w.db.(flows := w'.db.flows, orgTasks := w'.db.orgTasks, links := w'.db.links)
    && w.db.flows <= w'.db.flows && w.db.orgTasks <= w'.db.orgTasks && w.db.links <= w'.db.links
    && LogExtends(w.log, w'.log)
    && w'.remote.blocks == w.remote.blocks
  }

  lemma SyncFrameTrans(a: World, b: World, c: World)
    requires SyncFrame(a, b) && SyncFrame(b, c)
    ensures SyncFrame(a, c)
  {
    LogExtendsTrans(a.log, b.log, c.log);
  }

  /** The org task of `(org, task, connection)` and the new dataflow of a legacy dataflow both exist. */
  predicate HasRecords(db: Db, org: Org, task: Task, f: LegacyFlow) {
    && Find(db.orgTasks, OrgTaskIs(org, task, f.connectionId)).Some?
    && Find(db.flows, FlowIs(org, f.deploymentId)).Some?
  }

  lemma HasRecordsExtend(db: Db, db': Db, org: Org, task: Task, f: LegacyFlow)
    requires HasRecords(db, org, task, f)
    requires db.orgTasks <= db'.orgTasks && db.flows <= db'.flows
    ensures HasRecords(db', org, task, f)
  {
    FindExtend(db.orgTasks, db'.orgTasks, OrgTaskIs(org, task, f.connectionId));
    FindExtend(db.flows, db'.flows, FlowIs(org, f.deploymentId));
  }

  // ---------- the rewritten parameters ----------

  /** The single task entry written into a sync deployment's `config`. */
  function SyncTaskConfig(task: Task, server: Block, connectionId: Option<string>): (j: Json)
    ensures j.JObj? && j.fields.Keys == {"slug", "type", "seq", "airbyte_server_block", "connection_id", "timeout"}
    ensures Field(j, "seq") == Some(JInt(1)) && Field(j, "slug") == Some(JStr(task.slug))
    ensures Field(j, "type") == Some(JStr(AirbyteConnectionTag)) && Field(j, "timeout") == Some(JInt(AirbyteSyncTimeout))
    ensures Field(j, "airbyte_server_block") == Some(JStr(server.blockName))
    // an absent connection id is sent as null
    ensures Field(j, "connection_id") == Some(if connectionId.Some? then JStr(connectionId.value) else JNull)
  {
    JObj(map[
      "slug" := JStr(task.slug),
      "type" := JStr(AirbyteConnectionTag),
      "seq" := JInt(1),
      "airbyte_server_block" := JStr(server.blockName),
      "connection_id" := OptionalString(connectionId),
      "timeout" := JInt(AirbyteSyncTimeout)])
  }

  /** The fetched parameters with `config` set to a one-task list. */
  function SyncParams(p: Params, task: Task, server: Block, connectionId: Option<string>): (r: Params)
    ensures r.Keys == p.Keys + {"config"}
    ensures forall k :: k in p && k != "config" ==> r[k] == p[k]
    ensures r["config"] == JObj(map["tasks" := JList([SyncTaskConfig(task, server, connectionId)])])
    ensures Field(r["config"], "tasks").Some? && Field(r["config"], "tasks").value.JList?
    ensures var tasks := Field(r["config"], "tasks").value.items;
            && |tasks| == 1
            && Field(tasks[0], "seq") == Some(JInt(1))
            && Field(tasks[0], "slug") == Some(JStr(task.slug))
            && Field(tasks[0], "type") == Some(JStr(AirbyteConnectionTag))
            && Field(tasks[0], "connection_id") == Some(OptionalString(connectionId))
            && Field(tasks[0], "timeout") == Some(JInt(AirbyteSyncTimeout))
            && Field(tasks[0], "airbyte_server_block") == Some(JStr(server.blockName))
  {
    p["config" := JObj(map["tasks" := JList([SyncTaskConfig(task, server, connectionId)])])]
  }

  /** The update payload: only the parameters take effect; an absent or empty cron is sent as "". */
  function SyncPayload(flow: Flow, params: Params): (u: UpdatePayload)
    ensures u.deploymentParams == params
    ensures u.name == flow.name && u.connections == [] && u.dbtTransform == "ignore"
    // the cron is sent when the dataflow has a non-empty one, and is "" otherwise
    ensures u.cron != "" <==> flow.cron.Some? && flow.cron.value != ""
    ensures u.cron != "" ==> flow.cron == Some(u.cron)
  {
    UpdatePayload(flow.name, [], "ignore",
                  if flow.cron.Some? && flow.cron.value != "" then flow.cron.value else "",
                  params)
  }

  /** A second rewrite replaces the first: only the last connection's task remains. */
  lemma SyncParamsAgain(p: Params, task: Task, server: Block, c1: Option<string>, c2: Option<string>)
    ensures SyncParams(SyncParams(p, task, server, c1), task, server, c2) == SyncParams(p, task, server, c2)
  {
  }

  /** `d'` is `d`, or `d` with deployment `id` rewritten for connection `connectionId`. */
  predicate RewritesOne(d: map<string, Params>, d': map<string, Params>, task: Task, server: Block,
                        id: string, connectionId: Option<string>) {
    d' == d || (id in d && d' == d[id := SyncParams(d[id], task, server, connectionId)])
  }

  /**
   * `d'` has the deployments of `d`, and each one that differs is the
   * deployment of a dataflow in `todo`, rewritten for that dataflow's connection.
   */
  predicate Rewrites(d: map<string, Params>, d': map<string, Params>, task: Task, server: Block,
                     todo: seq<LegacyFlow>) {
    && d'.Keys == d.Keys
    && forall id :: id in d && d'[id] != d[id] ==>
         exists f :: f in todo && f.deploymentId == id && d'[id] == SyncParams(d[id], task, server, f.connectionId)
  }

  /** One rewrite followed by the rewrites of the rest of the list. */
  lemma RewritesCons(d: map<string, Params>, d1: map<string, Params>, d': map<string, Params>,
                     task: Task, server: Block, todo: seq<LegacyFlow>)
    requires todo != []
    requires RewritesOne(d, d1, task, server, todo[0].deploymentId, todo[0].connectionId)
    requires Rewrites(d1, d', task, server, todo[1..])
    ensures Rewrites(d, d', task, server, todo)
  {
    forall id | id in d && d'[id] != d[id]
      ensures exists f :: f in todo && f.deploymentId == id && d'[id] == SyncParams(d[id], task, server, f.connectionId)
    {
      if d1[id] == d[id] {
        var f :| f in todo[1..] && f.deploymentId == id && d'[id] == SyncParams(d1[id], task, server, f.connectionId);
        assert f in todo;
      } else if d'[id] == d1[id] {
        assert todo[0] in todo;
      } else {
        var f :| f in todo[1..] && f.deploymentId == id && d'[id] == SyncParams(d1[id], task, server, f.connectionId);
        SyncParamsAgain(d[id], task, server, todo[0].connectionId, f.connectionId);
        assert f in todo;
      }
    }
  }

  // ---------- steps of one loop iteration ----------

  /** Create the org task unless one with the same org, task and connection exists; yields its position. */
  function EnsureOrgTask(w: World, ot: OrgTask): (res: (World, nat))
    ensures var p := OrgTaskIs(ot.org, ot.task, ot.connectionId);
            && Find(res.0.db.orgTasks, p) == Some(res.1)
            && res.0.db.orgTasks[res.1] == ot
            && Count(res.0.db.orgTasks, p) > 0
            && (Find(w.db.orgTasks, p).Some? ==> res.0 == w)
            && (Find(w.db.orgTasks, p).None? ==> res.0 == AddOrgTask(w, ot) && res.1 == |w.db.orgTasks|)
  {
    var p := OrgTaskIs(ot.org, ot.task, ot.connectionId);
    var found := Find(w.db.orgTasks, p);
    if found.Some? then (w, found.value)
    else
      FindAppend(w.db.orgTasks, ot, p);
      (AddOrgTask(w, ot), |w.db.orgTasks|)
  }

  /**
   * Create the new dataflow and its link unless the search for the
   * dataflow found one; yields the dataflow's position.
   */
  function EnsureFlow(w: World, found: Option<nat>, flow: Flow, orgTask: nat): (res: (World, nat))
    requires found == Find(w.db.flows, FlowIs(flow.org, flow.deploymentId))
    requires FlowIs(flow.org, flow.deploymentId)(flow)
    // afterwards the search finds the dataflow at the returned position
    ensures Find(res.0.db.flows, FlowIs(flow.org, flow.deploymentId)) == Some(res.1)
    // a dataflow, and a link from it to the org task, are created only when the search found none
    ensures res.0.db.flows == w.db.flows + (if found.None? then [flow] else [])
    ensures res.0.db.links == w.db.links + (if found.None? then [Link(res.1, orgTask)] else [])
    ensures res.0 == w.(db := w.db.(flows := res.0.db.flows, links := res.0.db.links))
  {
    FindAppend(w.db.flows, flow, FlowIs(flow.org, flow.deploymentId));
    if found.Some? then
      assert w.db.flows + [] == w.db.flows && w.db.links + [] == w.db.links;
      (w, found.value)
    else
      var i := |w.db.flows|;
      (w.(db := w.db.(flows := w.db.flows + [flow], links := w.db.links + [Link(i, orgTask)])), i)
  }

  /** Log a count check: a zero count is a failure, any other count a success. */
  function CountCheck(w: World, n: nat, zero: Msg, found: Msg): (w': World)
    ensures w'.db == w.db && w'.remote == w.remote && LogExtends(w.log, w'.log)
    ensures n == 0 ==> w'.log == Log(w.log.successes, w.log.failures + [zero])
    ensures n > 0 ==> w'.log == Log(w.log.successes + [found], w.log.failures)
  {
    if n == 0 then Fail(w, zero) else Succeed(w, found)
  }

  /**
   * The remote half of an iteration: fetch the deployment, write the new
   * `config`, fetch it again. A failing first fetch or update only moves
   * on; a failing re-fetch is recorded.
   */
  function SyncRemote(w: World, org: Org, server: Block, task: Task, flow: Flow, connectionId: Option<string>): (w': World)
    ensures w'.db == w.db && w'.remote.blocks == w.remote.blocks
    ensures RewritesOne(w.remote.deployments, w'.remote.deployments, task, server, flow.deploymentId, connectionId)
    ensures LogExtends(w.log, w'.log)
    ensures var r, id := w.remote, flow.deploymentId;
            && (FaultAt(r, 0) || id !in r.deployments ==>
                  w'.log == w.log && w'.remote.deployments == r.deployments)
            && (!FaultAt(r, 0) && id in r.deployments && FaultAt(r, 1) ==>
                  w'.log == w.log && w'.remote.deployments == r.deployments)
            && (!FaultAt(r, 0) && id in r.deployments && !FaultAt(r, 1) ==>
                  && w'.remote.deployments == r.deployments[id := SyncParams(r.deployments[id], task, server, connectionId)]
                  && w'.log == (if FaultAt(r, 2) then Fail(w, RefetchFailed(id, org.slug)).log
                                else Succeed(w, ParamsVerified(org.slug, id)).log))
  {
    var id := flow.deploymentId;
    var (fetched, r1) := GetDeployment(w.remote, id);
    if fetched.Err? then w.(remote := r1)
    else
      var params := SyncParams(fetched.value, task, server, connectionId);
      var (updated, r2) := UpdateDeployment(r1, id, SyncPayload(flow, params));
      if !updated then w.(remote := r2)
      else
        var (refetched, r3) := GetDeployment(r2, id);
        var w3 := w.(remote := r3);
        if refetched.Err? then Fail(w3, RefetchFailed(id, org.slug))
        else if "config" !in refetched.value then Fail(w3, MissingConfig(org.slug, id))
        else Succeed(w3, ParamsVerified(org.slug, id))
  }

  /**
   * Find or create the org task for `(org, task, connection)` and check its
   * count. Yields the world, whether the routine returns (the count was
   * zero) and the org task's position.
   */
  function OrgTaskStage(w: World, org: Org, task: Task, f: LegacyFlow): (res: (World, bool, nat))
    // the zero-count return is never taken: the org task was just found or created
    ensures !res.1
    ensures Find(res.0.db.orgTasks, OrgTaskIs(org, task, f.connectionId)) == Some(res.2)
    ensures res.0.db.orgTasks[res.2] == OrgTask(org, task, f.connectionId)
    // an org task is created only when none matches
    ensures res.0.db.orgTasks == w.db.orgTasks +
              (if Find(w.db.orgTasks, OrgTaskIs(org, task, f.connectionId)).None?
               then [OrgTask(org, task, f.connectionId)] else [])
    ensures res.0.db == w.db.(orgTasks := res.0.db.orgTasks)
    ensures res.0.remote == w.remote && LogExtends(w.log, res.0.log)
    // the count check reports how many org tasks match
    ensures res.0.log == Succeed(w, FoundOrgTasks(Count(res.0.db.orgTasks, OrgTaskIs(org, task, f.connectionId)), org.slug)).log
  {
    var ot := OrgTask(org, task, f.connectionId);
    var created := EnsureOrgTask(w, ot);
    var w1, ti := created.0, created.1;
    var n := Count(w1.db.orgTasks, OrgTaskIs(org, task, f.connectionId));
    assert w1.db.orgTasks == w.db.orgTasks + (if Find(w.db.orgTasks, OrgTaskIs(org, task, f.connectionId)).None? then [ot] else []) by {
      if Find(w.db.orgTasks, OrgTaskIs(org, task, f.connectionId)).Some? { assert w.db.orgTasks + [] == w.db.orgTasks; }
    }
    if n == 0 then (Fail(w1, ZeroOrgTasks(org.slug)), true, ti)
    else (Succeed(w1, FoundOrgTasks(n, org.slug)), false, ti)
  }

  /**
   * The two count checks after the dataflow `fi` is in place: the matching
   * dataflows are reported, and links from `fi` to org task `ti` are
   * reported when there are some and recorded as a failure when none.
   */
  function FlowChecks(w: World, org: Org, f: LegacyFlow, fi: nat, ti: nat): (w': World)
    requires Find(w.db.flows, FlowIs(org, f.deploymentId)) == Some(fi)
    ensures w'.db == w.db && w'.remote == w.remote && LogExtends(w.log, w'.log)
    ensures var n2 := Count(w.db.flows, FlowIs(org, f.deploymentId));
            var n3 := Count(w.db.links, LinkIs(fi, ti));
            w'.log == Log(w.log.successes + [FoundDataflows(n2, org.slug, f.deploymentId)] +
                            (if n3 > 0 then [FoundLinks(n3, org.slug, f.deploymentId)] else []),
                          w.log.failures + (if n3 == 0 then [ZeroLinks(org.slug, f.deploymentId)] else []))
  {
    var n2 := Count(w.db.flows, FlowIs(org, f.deploymentId));
    assert n2 > 0;
    var w2 := CountCheck(w, n2, ZeroDataflows(org.slug, f.deploymentId), FoundDataflows(n2, org.slug, f.deploymentId));
    var n3 := Count(w2.db.links, LinkIs(fi, ti));
    var w3 := CountCheck(w2, n3, ZeroLinks(org.slug, f.deploymentId), FoundLinks(n3, org.slug, f.deploymentId));
    LogExtendsTrans(w.log, w2.log, w3.log);
    ReportsAppend(w.log, w2.log, w3.log, FoundDataflows(n2, org.slug, f.deploymentId),
      if n3 > 0 then [FoundLinks(n3, org.slug, f.deploymentId)] else [],
      if n3 == 0 then [ZeroLinks(org.slug, f.deploymentId)] else []);
    w3
  }

  /**
   * Create the new dataflow (copying the legacy fields) and its link when
   * none was found, then check both counts. Yields the world and the
   * dataflow's position.
   */
  function FlowStage(w: World, org: Org, f: LegacyFlow, found: Option<nat>, ti: nat): (res: (World, nat))
    requires found == Find(w.db.flows, FlowIs(org, f.deploymentId))
    ensures Find(res.0.db.flows, FlowIs(org, f.deploymentId)) == Some(res.1)
    ensures found.Some? ==> res.0.db == w.db
    ensures found.None? ==>
              && res.0.db.flows == w.db.flows + [Flow(org, Manual, f.name, f.deploymentName, f.deploymentId, f.cron)]
              && res.0.db.links == w.db.links + [Link(|w.db.flows|, ti)]
    ensures res.0.db == w.db.(flows := res.0.db.flows, links := res.0.db.links)
    ensures res.0.remote == w.remote && LogExtends(w.log, res.0.log)
    // the dataflow count is reported; a dataflow without a link to the org task is reported as a failure
    ensures var n2 := Count(res.0.db.flows, FlowIs(org, f.deploymentId));
            var n3 := Count(res.0.db.links, LinkIs(res.1, ti));
            res.0.log == Log(w.log.successes + [FoundDataflows(n2, org.slug, f.deploymentId)] +
                               (if n3 > 0 then [FoundLinks(n3, org.slug, f.deploymentId)] else []),
                             w.log.failures + (if n3 == 0 then [ZeroLinks(org.slug, f.deploymentId)] else []))
  {
    var flow := Flow(org, Manual, f.name, f.deploymentName, f.deploymentId, f.cron);
    var linked := EnsureFlow(w, found, flow, ti);
    (FlowChecks(linked.0, org, f, linked.1, ti), linked.1)
  }

  /** Reports of two consecutive checks, the first of which reports one success. */
  lemma ReportsAppend(l0: Log, l1: Log, l2: Log, c: Msg, rest: seq<Msg>, fails: seq<Msg>)
    requires l1 == Log(l0.successes + [c], l0.failures)
    requires l2 == Log(l1.successes + rest, l1.failures + fails)
    ensures l2 == Log(l0.successes + [c] + rest, l0.failures + fails)
  {
  }

  /** Reports of two consecutive stages, the first of which reports one success. */
  lemma ReportsCompose(l0: Log, l1: Log, l2: Log, c1: Msg, c2: Msg, rest: seq<Msg>, fails: seq<Msg>)
    requires l1 == Log(l0.successes + [c1], l0.failures)
    requires l2 == Log(l1.successes + [c2] + rest, l1.failures + fails)
    ensures l2 == Log(l0.successes + [c1, c2] + rest, l0.failures + fails)
  {
    assert l0.successes + [c1] + [c2] == l0.successes + [c1, c2];
  }

  /**
   * The store half of an iteration for legacy dataflow `f`. Yields the
   * world, whether the routine returns, and the positions of the dataflow
   * and the org task.
   */
  function SyncRecords(w: World, org: Org, task: Task, f: LegacyFlow): (res: (World, bool, nat, nat))
    ensures !res.1
    ensures res.2 < |res.0.db.flows| && res.3 < |res.0.db.orgTasks|
    ensures HasRecords(res.0.db, org, task, f)
    ensures res.0.db.orgTasks[res.3] == OrgTask(org, task, f.connectionId)
    ensures Find(res.0.db.flows, FlowIs(org, f.deploymentId)) == Some(res.2)
    ensures Find(res.0.db.orgTasks, OrgTaskIs(org, task, f.connectionId)) == Some(res.3)
    ensures res.0.remote == w.remote && LogExtends(w.log, res.0.log)
    // the three count checks: org tasks and dataflows are reported, a missing link is a failure
    ensures var n3 := Count(res.0.db.links, LinkIs(res.2, res.3));
            && res.0.log.successes == w.log.successes +
                 [FoundOrgTasks(Count(res.0.db.orgTasks, OrgTaskIs(org, task, f.connectionId)), org.slug),
                  FoundDataflows(Count(res.0.db.flows, FlowIs(org, f.deploymentId)), org.slug, f.deploymentId)] +
                 (if n3 > 0 then [FoundLinks(n3, org.slug, f.deploymentId)] else [])
            && res.0.log.failures == w.log.failures + (if n3 == 0 then [ZeroLinks(org.slug, f.deploymentId)] else [])

    ensures res.0.db == w.db.(flows := res.0.db.flows, orgTasks := res.0.db.orgTasks, links := res.0.db.links)
    ensures res.0.db.orgTasks == w.db.orgTasks +
              (if Find(w.db.orgTasks, OrgTaskIs(org, task, f.connectionId)).None?
               then [OrgTask(org, task, f.connectionId)] else [])
    ensures Find(w.db.flows, FlowIs(org, f.deploymentId)).Some? ==>
              res.0.db.flows == w.db.flows && res.0.db.links == w.db.links
    ensures Find(w.db.flows, FlowIs(org, f.deploymentId)).None? ==>
              && res.0.db.flows == w.db.flows + [Flow(org, Manual, f.name, f.deploymentName, f.deploymentId, f.cron)]
              && res.0.db.links == w.db.links + [Link(|w.db.flows|, res.3)]
  {
    var found := Find(w.db.flows, FlowIs(org, f.deploymentId));
    var a := OrgTaskStage(w, org, task, f);
    if a.1 then (a.0, true, a.2, a.2)
    else
      var b := FlowStage(a.0, org, f, found, a.2);
      LogExtendsTrans(w.log, a.0.log, b.0.log);
      var n3 := Count(b.0.db.links, LinkIs(b.1, a.2));
      assert b.0.db.orgTasks == a.0.db.orgTasks;
      ReportsCompose(w.log, a.0.log, b.0.log,
        FoundOrgTasks(Count(a.0.db.orgTasks, OrgTaskIs(org, task, f.connectionId)), org.slug),
        FoundDataflows(Count(b.0.db.flows, FlowIs(org, f.deploymentId)), org.slug, f.deploymentId),
        if n3 > 0 then [FoundLinks(n3, org.slug, f.deploymentId)] else [],
        if n3 == 0 then [ZeroLinks(org.slug, f.deploymentId)] else []);
      (b.0, false, b.1, a.2)
  }

  /** One iteration for legacy dataflow `f`; the flag is true when the iteration returns from the whole routine. */
  function SyncOne(w: World, org: Org, server: Block, task: Task, f: LegacyFlow): (res: (World, bool))
    ensures !res.1
    ensures SyncFrame(w, res.0)
    ensures HasRecords(res.0.db, org, task, f)
    // an org task is created only when none matches
    ensures res.0.db.orgTasks == w.db.orgTasks +
              (if Find(w.db.orgTasks, OrgTaskIs(org, task, f.connectionId)).None?
               then [OrgTask(org, task, f.connectionId)] else [])
    // a dataflow, copying the legacy fields, and its link are created only when no dataflow matches
    ensures Find(w.db.flows, FlowIs(org, f.deploymentId)).Some? ==>
              res.0.db.flows == w.db.flows && res.0.db.links == w.db.links
    ensures Find(w.db.flows, FlowIs(org, f.deploymentId)).None? ==>
              && res.0.db.flows == w.db.flows + [Flow(org, Manual, f.name, f.deploymentName, f.deploymentId, f.cron)]
              && res.0.db.links == w.db.links +
                   [Link(|w.db.flows|, Find(res.0.db.orgTasks, OrgTaskIs(org, task, f.connectionId)).value)]
  {
    var r := SyncRecords(w, org, task, f);
    if r.1 then (r.0, true)
    else
      var w6 := SyncRemote(r.0, org, server, task, r.0.db.flows[r.2], r.0.db.orgTasks[r.3].connectionId);
      assert w6.db == r.0.db;
      assert Find(w6.db.orgTasks, OrgTaskIs(org, task, f.connectionId)).value == r.3;
      assert SyncFrame(r.0, w6);
      assert SyncFrame(w, r.0);
      SyncFrameTrans(w, r.0, w6);
      (w6, false)
  }

  /** What one iteration does to the deployments. */
  lemma SyncOneDeployment(w: World, org: Org, server: Block, task: Task, f: LegacyFlow)
    // when the first fetch and the update go through, the deployment carries the new config for f's connection
    ensures var r, id, res := w.remote, f.deploymentId, SyncOne(w, org, server, task, f);
            !FaultAt(r, 0) && id in r.deployments && !FaultAt(r, 1) ==>
              && res.0.remote.deployments == r.deployments[id := SyncParams(r.deployments[id], task, server, f.connectionId)]
              && (!FaultAt(r, 2) ==> ParamsVerified(org.slug, id) in res.0.log.successes)
    // at most f's deployment is rewritten, for f's connection
    ensures RewritesOne(w.remote.deployments, SyncOne(w, org, server, task, f).0.remote.deployments,
                        task, server, f.deploymentId, f.connectionId)
  {
    var r := SyncRecords(w, org, task, f);
    var w6 := SyncRemote(r.0, org, server, task, r.0.db.flows[r.2], r.0.db.orgTasks[r.3].connectionId);
    assert SyncOne(w, org, server, task, f).0 == w6;
  }

  /** The loop over the legacy dataflows still to do. */
  function SyncLoop(w: World, org: Org, server: Block, task: Task, todo: seq<LegacyFlow>): (w': World)
    ensures SyncFrame(w, w')
    ensures forall f :: f in todo ==> HasRecords(w'.db, org, task, f)
    decreases |todo|
  {
    if todo == [] then w
    else
      var (w1, stop) := SyncOne(w, org, server, task, todo[0]);
      if stop then w1
      else
        var w' := SyncLoop(w1, org, server, task, todo[1..]);
        SyncFrameTrans(w, w1, w');
        HasRecordsExtend(w1.db, w'.db, org, task, todo[0]);
        w'
  }

  /** The loop from position `i` of `todo` on. */
  function SyncFrom(w: World, org: Org, server: Block, task: Task, todo: seq<LegacyFlow>, i: nat): World
    decreases |todo| - i
  {
    if i >= |todo| then w
    else
      var r := SyncOne(w, org, server, task, todo[i]);
      if r.1 then r.0 else SyncFrom(r.0, org, server, task, todo, i + 1)
  }

  /** Running the loop from position `i` is running it on the rest of the list. */
  lemma {:induction false} SyncFromLoop(w: World, org: Org, server: Block, task: Task, todo: seq<LegacyFlow>, i: nat)
    requires i <= |todo|
    ensures SyncFrom(w, org, server, task, todo, i) == SyncLoop(w, org, server, task, todo[i..])
    decreases |todo| - i
  {
    if i < |todo| {
      SyncLoopStep(w, org, server, task, todo, i);
      var r := SyncOne(w, org, server, task, todo[i]);
      if !r.1 {
        SyncFromLoop(r.0, org, server, task, todo, i + 1);
      }
    }
  }

  /** One step of the loop, from position `i` of `todo`. */
  lemma SyncLoopStep(w: World, org: Org, server: Block, task: Task, todo: seq<LegacyFlow>, i: nat)
    requires i < |todo|
    ensures var r := SyncOne(w, org, server, task, todo[i]);
            SyncLoop(w, org, server, task, todo[i..]) ==
              if r.1 then r.0 else SyncLoop(r.0, org, server, task, todo[i + 1..])
  {
    assert todo[i..][0] == todo[i] && todo[i..][1..] == todo[i + 1..];
  }

  /** The deployments keep their ids; each changed one is rewritten for a dataflow of the list. */
  lemma {:induction false} SyncLoopRewrites(w: World, org: Org, server: Block, task: Task, todo: seq<LegacyFlow>)
    ensures Rewrites(w.remote.deployments, SyncLoop(w, org, server, task, todo).remote.deployments, task, server, todo)
    decreases |todo|
  {
    if todo != [] {
      var w1 := SyncOne(w, org, server, task, todo[0]).0;
      SyncOneDeployment(w, org, server, task, todo[0]);
      SyncLoopRewrites(w1, org, server, task, todo[1..]);
      RewritesCons(w.remote.deployments, w1.remote.deployments,
                   SyncLoop(w, org, server, task, todo).remote.deployments, task, server, todo);
    }
  }

  /** The deployments after one dataflow's rewrite, when the service has its deployment. */
  function Step(d: map<string, Params>, task: Task, server: Block, f: LegacyFlow): map<string, Params> {
    if f.deploymentId in d then d[f.deploymentId := SyncParams(d[f.deploymentId], task, server, f.connectionId)] else d
  }

  /** The deployments after the rewrites of every dataflow of `todo`, in order. */
  function Rewritten(d: map<string, Params>, task: Task, server: Block, todo: seq<LegacyFlow>): (d': map<string, Params>)
    ensures d'.Keys == d.Keys
    decreases |todo|
  {
    if todo == [] then d else Rewritten(Step(d, task, server, todo[0]), task, server, todo[1..])
  }

  /** No other dataflow after position `i` of `todo` has the same deployment. */
  predicate LastFor(todo: seq<LegacyFlow>, i: nat) {
    forall j :: i < j < |todo| ==> todo[j].deploymentId != todo[i].deploymentId
  }

  /** A deployment no dataflow of `todo` names keeps its parameters. */
  lemma {:induction false} RewrittenUntouched(d: map<string, Params>, task: Task, server: Block, todo: seq<LegacyFlow>, id: string)
    requires id in d && forall j :: 0 <= j < |todo| ==> todo[j].deploymentId != id
    ensures Rewritten(d, task, server, todo)[id] == d[id]
    decreases |todo|
  {
    if todo != [] {
      RewrittenUntouched(Step(d, task, server, todo[0]), task, server, todo[1..], id);
    }
  }

  /** Each deployment ends with the config for the connection of the last dataflow naming it. */
  lemma {:induction false} RewrittenLast(d: map<string, Params>, task: Task, server: Block, todo: seq<LegacyFlow>, i: nat)
    requires i < |todo| && todo[i].deploymentId in d && LastFor(todo, i)
    ensures Rewritten(d, task, server, todo)[todo[i].deploymentId] ==
              SyncParams(d[todo[i].deploymentId], task, server, todo[i].connectionId)
    decreases |todo|
  {
    var id, d1 := todo[i].deploymentId, Step(d, task, server, todo[0]);
    if i == 0 {
      forall j | 0 <= j < |todo[1..]| ensures todo[1..][j].deploymentId != id {
        assert todo[1..][j] == todo[j + 1];
      }
      RewrittenUntouched(d1, task, server, todo[1..], id);
    } else {
      assert todo[1..][i - 1] == todo[i];
      forall j | i - 1 < j < |todo[1..]| ensures todo[1..][j].deploymentId != id {
        assert todo[1..][j] == todo[j + 1];
      }
      RewrittenLast(d1, task, server, todo[1..], i - 1);
      if id == todo[0].deploymentId {
        SyncParamsAgain(d[id], task, server, todo[0].connectionId, todo[i].connectionId);
      }
    }
  }

  /** The service's calls in one sync iteration keep a fault-free schedule fault-free. */
  lemma SyncRemoteFaultFree(w: World, org: Org, server: Block, task: Task, flow: Flow, connectionId: Option<string>)
    requires FaultFree(w.remote)
    ensures FaultFree(SyncRemote(w, org, server, task, flow, connectionId).remote)
  {
    var id := flow.deploymentId;
    var r1 := Tick(w.remote);
    assert FaultFree(r1) by {
      forall k: nat ensures !FaultAt(r1, k) {
        assert FaultAt(r1, k) == FaultAt(w.remote, k + 1);
      }
    }
    var fetched := GetDeployment(w.remote, id).0;
    if fetched.Ok? {
      var r2 := UpdateDeployment(r1, id, SyncPayload(flow, SyncParams(fetched.value, task, server, connectionId))).1;
      assert FaultFree(r2) by {
        forall k: nat ensures !FaultAt(r2, k) {
          assert FaultAt(r2, k) == FaultAt(r1, k + 1);
        }
      }
      var r3 := Tick(r2);
      assert FaultFree(r3) by {
        forall k: nat ensures !FaultAt(r3, k) {
          assert FaultAt(r3, k) == FaultAt(r2, k + 1);
        }
      }
    }
  }

  /** With no remote fault, one iteration rewrites its deployment, if the service has it, and verifies it. */
  lemma FaultFreeOne(w: World, org: Org, server: Block, task: Task, f: LegacyFlow)
    requires FaultFree(w.remote)
    ensures var w' := SyncOne(w, org, server, task, f).0;
            && FaultFree(w'.remote)
            && w'.remote.deployments == Step(w.remote.deployments, task, server, f)
            && (f.deploymentId in w.remote.deployments ==> ParamsVerified(org.slug, f.deploymentId) in w'.log.successes)
  {
    SyncOneDeployment(w, org, server, task, f);
    var r := SyncRecords(w, org, task, f);
    SyncRemoteFaultFree(r.0, org, server, task, r.0.db.flows[r.2], r.0.db.orgTasks[r.3].connectionId);
  }

  /** With no remote fault, the loop leaves the deployments `Rewritten` gives. */
  lemma {:induction false} FaultFreeLoopDeployments(w: World, org: Org, server: Block, task: Task, todo: seq<LegacyFlow>)
    requires FaultFree(w.remote)
    ensures SyncLoop(w, org, server, task, todo).remote.deployments == Rewritten(w.remote.deployments, task, server, todo)
    decreases |todo|
  {
    if todo != [] {
      var w1 := SyncOne(w, org, server, task, todo[0]).0;
      FaultFreeOne(w, org, server, task, todo[0]);
      FaultFreeLoopDeployments(w1, org, server, task, todo[1..]);
    }
  }

  /** Every dataflow of `todo` has a last dataflow naming the same deployment. */
  lemma {:induction false} LastExists(todo: seq<LegacyFlow>, i: nat) returns (j: nat)
    requires i < |todo|
    ensures i <= j < |todo| && todo[j].deploymentId == todo[i].deploymentId && LastFor(todo, j)
    decreases |todo| - i
  {
    if LastFor(todo, i) {
      j := i;
    } else {
      var k :| i < k < |todo| && todo[k].deploymentId == todo[i].deploymentId;
      j := LastExists(todo, k);
    }
  }

  /** A message in a log stays in every log extending it. */
  lemma StaysLogged(a: seq<Msg>, b: seq<Msg>, m: Msg)
    requires |a| <= |b| && b[..|a|] == a && m in a
    ensures m in b
  {
    var k :| 0 <= k < |a| && a[k] == m;
    assert b[k] == a[k];
  }

  /** With no remote fault, the loop verifies the rewritten config of every deployment the service has. */
  lemma {:induction false} FaultFreeLoopVerifies(w: World, org: Org, server: Block, task: Task, todo: seq<LegacyFlow>)
    requires FaultFree(w.remote)
    ensures forall f :: f in todo && f.deploymentId in w.remote.deployments ==>
              ParamsVerified(org.slug, f.deploymentId) in SyncLoop(w, org, server, task, todo).log.successes
    decreases |todo|
  {
    if todo != [] {
      var w1 := SyncOne(w, org, server, task, todo[0]).0;
      FaultFreeOne(w, org, server, task, todo[0]);
      FaultFreeLoopVerifies(w1, org, server, task, todo[1..]);
      var w' := SyncLoop(w1, org, server, task, todo[1..]);
      assert SyncLoop(w, org, server, task, todo) == w';
      if todo[0].deploymentId in w.remote.deployments {
        StaysLogged(w1.log.successes, w'.log.successes, ParamsVerified(org.slug, todo[0].deploymentId));
      }
      assert forall f :: f in todo ==> f == todo[0] || f in todo[1..];
    }
  }

  /** The whole sync migration of one org. */
  function SyncMigrated(w: World, org: Org): (w': World)
    // no new server block yet: silently nothing
    ensures Find(w.db.blocks, BlockIs(org, AirbyteServer)).None? ==> w' == w
    // catalog not seeded: one failure and nothing else
    ensures (Find(w.db.blocks, BlockIs(org, AirbyteServer)).Some? &&
             Find(w.db.catalog, SlugIs(AirbyteSyncSlug)).None?) ==> w' == Fail(w, CatalogNotSeeded)
    ensures SyncFrame(w, w')
    // otherwise every legacy manual-sync dataflow ends with its org task and new dataflow
    ensures (Find(w.db.blocks, BlockIs(org, AirbyteServer)).Some? &&
             Find(w.db.catalog, SlugIs(AirbyteSyncSlug)).Some?) ==>
              forall f :: f in w.db.legacyFlows && ManualSyncOf(org)(f) ==>
                HasRecords(w'.db, org, w.db.catalog[Find(w.db.catalog, SlugIs(AirbyteSyncSlug)).value], f)
    // and each changed deployment belongs to one of them, rewritten for its connection
    ensures (Find(w.db.blocks, BlockIs(org, AirbyteServer)).Some? &&
             Find(w.db.catalog, SlugIs(AirbyteSyncSlug)).Some?) ==>
              Rewrites(w.remote.deployments, w'.remote.deployments,
                       w.db.catalog[Find(w.db.catalog, SlugIs(AirbyteSyncSlug)).value],
                       w.db.blocks[Find(w.db.blocks, BlockIs(org, AirbyteServer)).value],
                       Filter(w.db.legacyFlows, ManualSyncOf(org)))
  {
    var s := Find(w.db.blocks, BlockIs(org, AirbyteServer));
    if s.None? then w
    else
      var t := Find(w.db.catalog, SlugIs(AirbyteSyncSlug));
      if t.None? then Fail(w, CatalogNotSeeded)
      else
        SyncLoopRewrites(w, org, w.db.blocks[s.value], w.db.catalog[t.value], Filter(w.db.legacyFlows, ManualSyncOf(org)));
        SyncLoop(w, org, w.db.blocks[s.value], w.db.catalog[t.value], Filter(w.db.legacyFlows, ManualSyncOf(org)))
  }

  /** Every deployment a dataflow names ends rewritten for its last dataflow. */
  lemma RewrittenLastAll(d: map<string, Params>, task: Task, server: Block, todo: seq<LegacyFlow>)
    ensures forall i :: 0 <= i < |todo| && todo[i].deploymentId in d && LastFor(todo, i) ==>
              Rewritten(d, task, server, todo)[todo[i].deploymentId] ==
                SyncParams(d[todo[i].deploymentId], task, server, todo[i].connectionId)
  {
    forall i | 0 <= i < |todo| && todo[i].deploymentId in d && LastFor(todo, i)
      ensures Rewritten(d, task, server, todo)[todo[i].deploymentId] ==
                SyncParams(d[todo[i].deploymentId], task, server, todo[i].connectionId)
    {
      RewrittenLast(d, task, server, todo, i);
    }
  }

  /** Every deployment a dataflow names ends with a config. */
  lemma RewrittenSetsConfig(d: map<string, Params>, task: Task, server: Block, todo: seq<LegacyFlow>)
    ensures forall f :: f in todo && f.deploymentId in d ==> "config" in Rewritten(d, task, server, todo)[f.deploymentId]
  {
    forall f | f in todo && f.deploymentId in d ensures "config" in Rewritten(d, task, server, todo)[f.deploymentId] {
      var i :| 0 <= i < |todo| && todo[i] == f;
      var j := LastExists(todo, i);
      RewrittenLast(d, task, server, todo, j);
    }
  }

  /**
   * With no remote fault, the sync migration gives every manual-sync
   * dataflow's deployment the new config: each deployment the service has
   * ends rewritten for the connection of the last dataflow naming it, and
   * its verification is logged.
   */
  lemma SyncMigratedSetsConfig(w: World, org: Org)
    requires FaultFree(w.remote)
    requires Find(w.db.blocks, BlockIs(org, AirbyteServer)).Some? && Find(w.db.catalog, SlugIs(AirbyteSyncSlug)).Some?
    ensures var todo, d := Filter(w.db.legacyFlows, ManualSyncOf(org)), w.remote.deployments;
            var task := w.db.catalog[Find(w.db.catalog, SlugIs(AirbyteSyncSlug)).value];
            var server := w.db.blocks[Find(w.db.blocks, BlockIs(org, AirbyteServer)).value];
            var w' := SyncMigrated(w, org);
            && w'.remote.deployments == Rewritten(d, task, server, todo)
            && (forall i :: 0 <= i < |todo| && todo[i].deploymentId in d && LastFor(todo, i) ==>
                  w'.remote.deployments[todo[i].deploymentId] ==
                    SyncParams(d[todo[i].deploymentId], task, server, todo[i].connectionId))
            && (forall f :: f in todo && f.deploymentId in d ==>
                  && "config" in w'.remote.deployments[f.deploymentId]
                  && ParamsVerified(org.slug, f.deploymentId) in w'.log.successes)
  {
    var todo, d := Filter(w.db.legacyFlows, ManualSyncOf(org)), w.remote.deployments;
    var task := w.db.catalog[Find(w.db.catalog, SlugIs(AirbyteSyncSlug)).value];
    var server := w.db.blocks[Find(w.db.blocks, BlockIs(org, AirbyteServer)).value];
    assert SyncMigrated(w, org) == SyncLoop(w, org, server, task, todo);
    FaultFreeLoopDeployments(w, org, server, task, todo);
    FaultFreeLoopVerifies(w, org, server, task, todo);
    RewrittenLastAll(d, task, server, todo);
    RewrittenSetsConfig(d, task, server, todo);
  }

  /**
   * A dataflow and an org task that both exist but are not linked stay
   * unlinked: the iteration only records the missing link as a failure.
   */
  lemma LinkNeverRepaired(w: World, org: Org, server: Block, task: Task, f: LegacyFlow)
    requires Find(w.db.flows, FlowIs(org, f.deploymentId)).Some?
    requires Find(w.db.orgTasks, OrgTaskIs(org, task, f.connectionId)).Some?
    requires Count(w.db.links, LinkIs(Find(w.db.flows, FlowIs(org, f.deploymentId)).value,
                                      Find(w.db.orgTasks, OrgTaskIs(org, task, f.connectionId)).value)) == 0
    ensures SyncOne(w, org, server, task, f).0.db.links == w.db.links
    ensures ZeroLinks(org.slug, f.deploymentId) in SyncOne(w, org, server, task, f).0.log.failures
  {
    var r := SyncRecords(w, org, task, f);
    assert w.db.orgTasks + [] == w.db.orgTasks;
    assert r.0.db == w.db;
    var w' := SyncRemote(r.0, org, server, task, r.0.db.flows[r.2], r.0.db.orgTasks[r.3].connectionId);
    assert SyncOne(w, org, server, task, f).0 == w';
    assert r.0.log.failures == w.log.failures + [ZeroLinks(org.slug, f.deploymentId)];
    assert w'.log.failures[..|r.0.log.failures|] == r.0.log.failures;
    assert w'.log.failures[|w.log.failures|] == ZeroLinks(org.slug, f.deploymentId);
  }

  // ---------- re-running ----------

  /** A dataflow whose records already exist creates nothing. */
  lemma SyncOneStable(w: World, org: Org, server: Block, task: Task, f: LegacyFlow)
    requires HasRecords(w.db, org, task, f)
    ensures SyncOne(w, org, server, task, f).0.db == w.db
  {
    var w' := SyncOne(w, org, server, task, f).0;
    assert w.db.orgTasks + [] == w.db.orgTasks;
    assert w'.db == w.db.(flows := w'.db.flows, orgTasks := w'.db.orgTasks, links := w'.db.links);
  }

  /** A loop over dataflows whose records all exist leaves the store as it is. */
  lemma {:induction false} SyncLoopStable(w: World, org: Org, server: Block, task: Task, todo: seq<LegacyFlow>)
    requires forall f :: f in todo ==> HasRecords(w.db, org, task, f)
    ensures SyncLoop(w, org, server, task, todo).db == w.db
    decreases |todo|
  {
    if todo != [] {
      var w1 := SyncOne(w, org, server, task, todo[0]).0;
      SyncOneStable(w, org, server, task, todo[0]);
      assert forall f :: f in todo[1..] ==> f in todo;
      SyncLoopStable(w1, org, server, task, todo[1..]);
    }
  }

  /** Running the sync migration a second time creates no record. */
  lemma SyncRerunKeepsStore(w: World, org: Org)
    ensures SyncMigrated(SyncMigrated(w, org), org).db == SyncMigrated(w, org).db
  {
    var w1 := SyncMigrated(w, org);
    var s := Find(w.db.blocks, BlockIs(org, AirbyteServer));
    var t := Find(w.db.catalog, SlugIs(AirbyteSyncSlug));
    if s.Some? && t.Some? {
      var server, task := w.db.blocks[s.value], w.db.catalog[t.value];
      var todo := Filter(w.db.legacyFlows, ManualSyncOf(org));
      assert w1 == SyncLoop(w, org, server, task, todo);
      assert w1.db.blocks == w.db.blocks && w1.db.catalog == w.db.catalog && w1.db.legacyFlows == w.db.legacyFlows;
      assert SyncMigrated(w1, org) == SyncLoop(w1, org, server, task, todo);
      SyncLoopStable(w1, org, server, task, todo);
    }
  }
}
