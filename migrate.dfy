/**
 * The command as the source runs it: an object holding the two message
 * lists, working step by step against a mutable store and a mutable
 * orchestration service. Every method is proved to leave the state its
 * specification function computes.
 */
module Migrate {
  import opened Common
  import opened Query
  import opened Model
  import opened ServerSpec
  import opened SyncSpec
  import opened TransformSpec
  import opened HandleSpec

  /** The application database: one field per table, rows in primary-key order. */
  class Store {
    var orgs: seq<Org>
    var warehouses: seq<OrgWarehouse>
    var legacyBlocks: seq<LegacyBlock>
    var blocks: seq<Block>
    var legacyFlows: seq<LegacyFlow>
    var flows: seq<Flow>
    var catalog: seq<Task>
    var orgTasks: seq<OrgTask>
    var links: seq<Link>

    function Tables(): Db
      reads this
    {
      Db(orgs, warehouses, legacyBlocks, blocks, legacyFlows, flows, catalog, orgTasks, links)
    }

    constructor (db: Db)
      ensures Tables() == db
    {
      orgs, warehouses, legacyBlocks, blocks := db.orgs, db.warehouses, db.legacyBlocks, db.blocks;
      legacyFlows, flows, catalog, orgTasks, links := db.legacyFlows, db.flows, db.catalog, db.orgTasks, db.links;
    }

    /** Insert a new block row. */
    method CreateBlock(b: Block)
      modifies this
      ensures Tables() == old(Tables()).(blocks := old(blocks) + [b])
    {
      blocks := blocks + [b];
    }

    /** Save a changed block row in place. */
    method SaveBlock(i: nat, b: Block)
      requires i < |blocks|
      modifies this
      ensures Tables() == old(Tables()).(blocks := old(blocks)[i := b])
    {
      blocks := blocks[i := b];
    }

    /** Insert a new dataflow row; yields its primary key. */
    method CreateFlow(f: Flow) returns (i: nat)
      modifies this
      ensures i == old(|flows|)
      ensures Tables() == old(Tables()).(flows := old(flows) + [f])
    {
      i := |flows|;
      flows := flows + [f];
    }

    /** Insert a new org-task row; yields its primary key. */
    method CreateOrgTask(t: OrgTask) returns (i: nat)
      modifies this
      ensures i == old(|orgTasks|)
      ensures Tables() == old(Tables()).(orgTasks := old(orgTasks) + [t])
    {
      i := |orgTasks|;
      orgTasks := orgTasks + [t];
    }

    /** Insert a new dataflow-to-org-task link. */
    method CreateLink(l: Link)
      modifies this
      ensures Tables() == old(Tables()).(links := old(links) + [l])
    {
      links := links + [l];
    }
  }

  /** The orchestration service, as far as the command uses it. */
  class Prefect {
    var deployments: map<string, Params>
    var faults: seq<bool>
    var blocks: seq<RemoteBlock>

    function Service(): Remote
      reads this
    {
      Remote(deployments, faults, blocks)
    }

    constructor (r: Remote)
      ensures Service() == r
    {
      deployments, faults, blocks := r.deployments, r.faults, r.blocks;
    }

    /** Take the next entry of the fault schedule: does this call raise? */
    method NextCallRaises() returns (raises: bool)
      modifies this
      ensures raises == NextFails(old(Service()))
      ensures Service() == Tick(old(Service()))
    {
      raises := |faults| > 0 && faults[0];
      faults := if |faults| > 0 then faults[1..] else [];
    }

    method GetDeployment(id: string) returns (r: Outcome<Params>)
      modifies this
      ensures (r, Service()) == Model.GetDeployment(old(Service()), id)
    {
      var raises := NextCallRaises();
      if raises || id !in deployments {
        r := Err;
      } else {
        r := Ok(deployments[id]);
      }
    }

    method UpdateDataflow(id: string, payload: UpdatePayload) returns (ok: bool)
      modifies this
      ensures (ok, Service()) == UpdateDeployment(old(Service()), id, payload)
    {
      var raises := NextCallRaises();
      ok := !raises && id in deployments;
      if ok {
        deployments := deployments[id := payload.deploymentParams];
      }
    }

    method CreateRemoteBlock(b: RemoteBlock) returns (r: Outcome<BlockRef>)
      modifies this
      ensures (r, Service()) == Model.CreateBlock(old(Service()), b)
    {
      var raises := NextCallRaises();
      if raises {
        r := Err;
      } else {
        r := Ok(BlockRef(|blocks|, b.name));
        blocks := blocks + [b];
      }
    }

    method CreateDbtCliProfileBlock(name: string, profile: string, target: string, wtype: string,
                                    location: Option<string>, credentials: string) returns (r: Outcome<BlockRef>)
      modifies this
      ensures (r, Service()) == Model.CreateBlock(old(Service()), CliProfileBlock(name, profile, target, wtype, location, credentials))
    {
      r := CreateRemoteBlock(CliProfileBlock(name, profile, target, wtype, location, credentials));
    }

    method CreateSecretBlock(name: string, secret: string) returns (r: Outcome<BlockRef>)
      modifies this
      ensures (r, Service()) == Model.CreateBlock(old(Service()), SecretBlock(name, secret))
    {
      r := CreateRemoteBlock(SecretBlock(name, secret));
    }
  }

  /** The management command. */
  class Command {
    var failures: seq<Msg>
    var successes: seq<Msg>
    const store: Store
    const prefect: Prefect

    constructor (store: Store, prefect: Prefect)
      ensures failures == [] && successes == []
      ensures this.store == store && this.prefect == prefect
    {
      this.store := store;
      this.prefect := prefect;
      failures := [];
      successes := [];
    }

    function State(): World
      reads this, store, prefect
    {
      World(store.Tables(), prefect.Service(), Log(successes, failures))
    }

    /** Record a success. */
    method AddSuccess(m: Msg)
      modifies this
      ensures State() == Succeed(old(State()), m)
    {
      successes := successes + [m];
    }

    /** Record a failure. */
    method AddFailure(m: Msg)
      modifies this
      ensures State() == Fail(old(State()), m)
    {
      failures := failures + [m];
    }

    // ---------- server blocks ----------

    /**
     * Copy the org's legacy server block into the new block table.
     * Yields the existing new block it updated, `None` when it created
     * one or found no legacy block.
     */
    method MigrateAirbyteServerBlocks(org: Org) returns (r: Option<Block>)
      modifies this, store
      ensures State() == ServerMigrated(old(State()), org)
      ensures r.Some? <==> Find(old(store.legacyBlocks), LegacyBlockIs(org, AirbyteServer)).Some? &&
                           Find(old(store.blocks), BlockIs(org, AirbyteServer)).Some?
      ensures r.Some? ==> r.value == store.blocks[Find(old(store.blocks), BlockIs(org, AirbyteServer)).value]
    {
      var l := Find(store.legacyBlocks, LegacyBlockIs(org, AirbyteServer));
      if l.None? {
        AddFailure(ServerBlockNotFound(org.slug));
        return None;
      }
      var legacy := store.legacyBlocks[l.value];
      var existing := Find(store.blocks, BlockIs(org, AirbyteServer));
      if existing.None? {
        store.CreateBlock(Block(org, AirbyteServer, legacy.blockId, legacy.blockName));
        assert State() == AddBlock(old(State()), Block(org, AirbyteServer, legacy.blockId, legacy.blockName));
        r := None;
      } else {
        var updated := store.blocks[existing.value].(blockId := legacy.blockId, blockName := legacy.blockName);
        store.SaveBlock(existing.value, updated);
        assert State() == SetBlock(old(State()), existing.value, updated);
        r := Some(updated);
      }
      var cnt := Count(store.blocks, BlockIs(org, AirbyteServer));
      if cnt == 0 {
        AddFailure(ZeroServerBlocks(org.slug));
      } else {
        AddSuccess(FoundServerBlocks(cnt, org.slug));
      }
    }
  
    // ---------- manual-sync deployments ----------

    /** Find or create the org task of a legacy dataflow and check its count; `stop` when the routine returns. */
    method SyncOrgTask(org: Org, task: Task, f: LegacyFlow) returns (stop: bool, ti: nat)
      modifies this, store
      ensures (State(), stop, ti) == OrgTaskStage(old(State()), org, task, f)
    {
      var p := OrgTaskIs(org, task, f.connectionId);
      var found := Find(store.orgTasks, p);
      if found.Some? {
        ti := found.value;
      } else {
        ti := store.CreateOrgTask(OrgTask(org, task, f.connectionId));
      }
      var cnt := Count(store.orgTasks, p);
      if cnt == 0 {
        AddFailure(ZeroOrgTasks(org.slug));
        stop := true;
      } else {
        AddSuccess(FoundOrgTasks(cnt, org.slug));
        stop := false;
      }
    }

    /** Create the new dataflow and its link unless one was found, then check both counts. */
    method SyncFlow(org: Org, f: LegacyFlow, found: Option<nat>, ti: nat) returns (fi: nat)
      requires found == Find(store.flows, FlowIs(org, f.deploymentId))
      modifies this, store
      ensures (State(), fi) == FlowStage(old(State()), org, f, found, ti)
    {
      var flow := Flow(org, Manual, f.name, f.deploymentName, f.deploymentId, f.cron);
      if found.Some? {
        fi := found.value;
      } else {
        fi := store.CreateFlow(flow);
        store.CreateLink(Link(fi, ti));
      }
      ghost var w1 := State();
      assert (w1, fi) == EnsureFlow(old(State()), found, flow, ti);
      var cnt := Count(store.flows, FlowIs(org, f.deploymentId));
      if cnt == 0 {
        AddFailure(ZeroDataflows(org.slug, f.deploymentId));
      } else {
        AddSuccess(FoundDataflows(cnt, org.slug, f.deploymentId));
      }
      ghost var w2 := State();
      assert w2 == CountCheck(w1, cnt, ZeroDataflows(org.slug, f.deploymentId), FoundDataflows(cnt, org.slug, f.deploymentId));
      cnt := Count(store.links, LinkIs(fi, ti));
      if cnt == 0 {
        AddFailure(ZeroLinks(org.slug, f.deploymentId));
      } else {
        AddSuccess(FoundLinks(cnt, org.slug, f.deploymentId));
      }
      assert State() == CountCheck(w2, cnt, ZeroLinks(org.slug, f.deploymentId), FoundLinks(cnt, org.slug, f.deploymentId));
    }

    /** The verdict on the re-fetched parameters: verified when they hold a `config`. */
    method ReportConfig(org: Org, id: string, hasConfig: bool)
      modifies this
      ensures State() == if hasConfig then Succeed(old(State()), ParamsVerified(org.slug, id))
                         else Fail(old(State()), MissingConfig(org.slug, id))
    {
      if hasConfig {
        AddSuccess(ParamsVerified(org.slug, id));
      } else {
        AddFailure(MissingConfig(org.slug, id));
      }
    }

    /** Rewrite the deployment's `config` and read it back; a failing fetch or update moves on. */
    method SyncDeployment(org: Org, server: Block, task: Task, flow: Flow, connectionId: Option<string>)
      modifies this, prefect
      ensures State() == SyncRemote(old(State()), org, server, task, flow, connectionId)
    {
      var id := flow.deploymentId;
      var fetched := prefect.GetDeployment(id);
      if fetched.Err? {
        return;
      }
      var params := SyncParams(fetched.value, task, server, connectionId);
      var updated := prefect.UpdateDataflow(id, SyncPayload(flow, params));
      if !updated {
        return;
      }
      var refetched := prefect.GetDeployment(id);
      if refetched.Err? {
        AddFailure(RefetchFailed(id, org.slug));
      } else {
        ReportConfig(org, id, "config" in refetched.value);
      }
    }

    /** One legacy manual-sync dataflow; `stop` when the routine returns. */
    method SyncDataflow(org: Org, server: Block, task: Task, f: LegacyFlow) returns (stop: bool)
      modifies this, store, prefect
      ensures (State(), stop) == SyncOne(old(State()), org, server, task, f)
    {
      var found := Find(store.flows, FlowIs(org, f.deploymentId));
      var ti;
      stop, ti := SyncOrgTask(org, task, f);
      if stop {
        return;
      }
      var fi := SyncFlow(org, f, found, ti);
      SyncDeployment(org, server, task, store.flows[fi], store.orgTasks[ti].connectionId);
    }

    /** Move each legacy manual-sync dataflow of the org onto an org task, a new dataflow and a link. */
    method MigrateManualSyncConnDeployments(org: Org)
      modifies this, store, prefect
      ensures State() == SyncMigrated(old(State()), org)
    {
      var s := Find(store.blocks, BlockIs(org, AirbyteServer));
      if s.None? {
        return;
      }
      var serverBlock := store.blocks[s.value];
      var t := Find(store.catalog, SlugIs(AirbyteSyncSlug));
      if t.None? {
        AddFailure(CatalogNotSeeded);
        return;
      }
      var task := store.catalog[t.value];
      SyncDataflows(org, serverBlock, task, Filter(store.legacyFlows, ManualSyncOf(org)));
    }

    /** The loop over the org's legacy manual-sync dataflows; it ends early when an iteration returns. */
    method SyncDataflows(org: Org, server: Block, task: Task, todo: seq<LegacyFlow>)
      modifies this, store, prefect
      ensures State() == SyncLoop(old(State()), org, server, task, todo)
    {
      SyncFromLoop(State(), org, server, task, todo, 0);
      assert todo[0..] == todo;
      var i := 0;
      while i < |todo|
        invariant 0 <= i <= |todo|
        invariant SyncFrom(State(), org, server, task, todo, i) == SyncFrom(old(State()), org, server, task, todo, 0)
      {
        var stop := SyncDataflow(org, server, task, todo[i]);
        if stop {
          return;
        }
        i := i + 1;
      }
    }

    // ---------- transformation blocks ----------

    /** The org's dbt CLI profile block, created when it has none; `None` when the creation fails. */
    method EnsureCliProfileBlock(org: Org, setup: Setup) returns (cli: Option<Block>)
      requires setup.Ready?
      modifies this, store, prefect
      ensures (State(), cli) == CliProfileStage(old(State()), org, setup)
    {
      var found := Find(store.blocks, BlockIs(org, DbtCliProfile));
      if found.Some? {
        return Some(store.blocks[found.value]);
      }
      var created := prefect.CreateDbtCliProfileBlock(org.slug + "-" + setup.profile, setup.profile,
                                                      org.dbt.defaultSchema, setup.wtype, setup.location,
                                                      setup.credentials);
      if created.Err? {
        AddFailure(CliProfileCreateFailed);
        return None;
      }
      var b := Block(org, DbtCliProfile, created.value.blockId, created.value.blockName);
      store.CreateBlock(b);
      AddSuccess(CliProfileCreated);
      cli := Some(b);
    }

    /** The org's secret block, created when it has none and a token exists; `true` when the creation fails. */
    method EnsureSecretBlock(org: Org, token: Option<string>) returns (aborted: bool)
      modifies this, store, prefect
      ensures (State(), aborted) == SecretStage(old(State()), org, token)
    {
      var found := Find(store.blocks, BlockIs(org, Secret));
      if found.Some? || !HasToken(token) {
        return false;
      }
      var created := prefect.CreateSecretBlock(org.slug + "-git-pull-url", EmbedToken(org.dbt.gitrepoUrl, token.value));
      if created.Err? {
        AddFailure(SecretCreateFailed);
        return true;
      }
      store.CreateBlock(Block(org, Secret, created.value.blockId, created.value.blockName));
      AddSuccess(SecretCreated);
      aborted := false;
    }

    /** Give the org an org task for `task` unless it has one, and report the count. */
    method AssignOrgTask(org: Org, task: Task)
      modifies this, store
      ensures State() == AssignTask(old(State()), org, task)
    {
      if Find(store.orgTasks, OrgTaskOf(org, task)).None? {
        AddSuccess(CreatingOrgTask(task.slug));
        ghost var w1 := State();
        var _ := store.CreateOrgTask(OrgTask(org, task, None));
        assert State() == AddOrgTask(w1, OrgTask(org, task, None));
        AddSuccess(CreatedOrgTask(task.slug));
      }
      AddSuccess(OrgTaskCount(Count(store.orgTasks, OrgTaskOf(org, task)), task.slug));
    }

    /** One legacy dbt-core or shell-operation block; `last` is the command of the latest block that had one. */
    method MigrateBlock(org: Org, b: LegacyBlock, last: Option<string>)
      modifies this, store
      ensures State() == TransformOne(old(State()), org, b, last)
    {
      var t := InferTask(b, store.catalog);
      if t.None? {
        AddFailure(TaskNotFound(CarriedCommand(b, last)));
        AddFailure(SkippingBlock(b.blockName));
        return;
      }
      var task := store.catalog[t.value];
      AddSuccess(FoundTask(task.slug));
      AssignOrgTask(org, task);
    }

    /** From the secret block on: the secret block, its reports, then every legacy dbt block of the org. */
    method MigrateSecretAndTasks(org: Org, token: Option<string>)
      requires Find(store.blocks, BlockIs(org, DbtCliProfile)).Some?
      modifies this, store, prefect
      ensures State() == SecretAndTasks(old(State()), org, token)
    {
      var aborted := EnsureSecretBlock(org, token);
      if aborted {
        return;
      }
      AddSuccess(RepoVisibility(Find(store.blocks, BlockIs(org, Secret)).Some?));
      AddSuccess(SecretCount(Count(store.blocks, BlockIs(org, Secret))));
      ghost var start := State();
      var todo := Filter(store.legacyBlocks, TransformBlockOf(org));
      var last: Option<string> := None;
      for i := 0 to |todo|
        invariant TransformLoop(State(), org, todo[i..], last) == TransformLoop(start, org, todo, None)
      {
        ghost var before, lastBefore := State(), last;
        assert todo[i..][0] == todo[i] && todo[i..][1..] == todo[i + 1..];
        MigrateBlock(org, todo[i], last);
        if BlockCommand(todo[i]).Some? {
          last := BlockCommand(todo[i]);
        }
        assert TransformLoop(before, org, todo[i..], lastBefore) == TransformLoop(State(), org, todo[i + 1..], last);
      }
      assert todo[|todo|..] == [];
    }

    /** Move the org's legacy dbt blocks onto tasks, first making sure of its CLI profile and secret blocks. */
    method MigrateTransformationBlocks(org: Org, env: OrgEnv)
      modifies this, store, prefect
      ensures State() == TransformMigrated(old(State()), org, env)
    {
      var setup := TransformSetup(store.warehouses, org, env);
      if setup.SetupFailed? {
        AddFailure(setup.msg);
        return;
      }
      var cli := EnsureCliProfileBlock(org, setup);
      if cli.None? {
        return;
      }
      ghost var w1 := State();
      AddSuccess(UsingCliProfile(cli.value.blockName));
      AddSuccess(CliProfileCount(Count(store.blocks, BlockIs(org, DbtCliProfile))));
      assert State() == ReportCliProfile(w1, org, cli.value);
      MigrateSecretAndTasks(org, env.githubToken);
    }

    // ---------- the command ----------

    /** The three migrations of one org, in the order the command runs them. */
    method MigrateOrgBlocks(org: Org, env: OrgEnv)
      modifies this, store, prefect
      ensures State() == MigrateOrg(old(State()), org, env)
    {
      var _ := MigrateAirbyteServerBlocks(org);
      MigrateManualSyncConnDeployments(org);
      MigrateTransformationBlocks(org, env);
    }

    /** The summary the command prints, as its lines: successes, then failures, each under a banner. */
    method SummaryLines() returns (lines: seq<Line>)
      ensures lines == Summary(Log(successes, failures))
    {
      lines := Banner("SUCCESSES");
      for j := 0 to |successes|
        invariant lines == Banner("SUCCESSES") + Lines(successes[..j], true)
      {
        assert successes[..j + 1][..j] == successes[..j];
        lines := lines + [SuccessLine(successes[j])];
      }
      assert successes[..|successes|] == successes;
      lines := lines + Banner("FAILURES");
      for j := 0 to |failures|
        invariant lines == Banner("SUCCESSES") + Lines(successes, true) + Banner("FAILURES") + Lines(failures[..j], false)
      {
        assert failures[..j + 1][..j] == failures[..j];
        lines := lines + [FailureLine(failures[j])];
      }
      assert failures[..|failures|] == failures;
    }

    /** Run the three migrations for every org, then produce the summary. */
    method Handle(env: Org -> OrgEnv) returns (lines: seq<Line>)
      modifies this, store, prefect
      ensures State() == HandleLoop(old(State()), old(store.orgs), env)
      ensures lines == Summary(State().log)
    {
      var orgs := store.orgs;
      for i := 0 to |orgs|
        invariant HandleLoop(State(), orgs[i..], env) == HandleLoop(old(State()), orgs, env)
      {
        HandleLoopStep(State(), orgs, env, i);
        MigrateOrgBlocks(orgs[i], env(orgs[i]));
      }
      assert orgs[|orgs|..] == [];
      lines := SummaryLines();
    }
  }
}
