/**
 * The records the migration reads and writes, the ledger messages, the
 * deployment parameters blob and the orchestration service, all as values.
 */
module Model {
  import opened Common
  import opened Query
  import opened Text

  // ---------- constants of the platform ----------

  /** Slug of the catalog task that runs one connector sync. */
  const AirbyteSyncSlug: string := "airbyte-sync"
  /** Slug of the catalog task that pulls the transformation project's repository. */
  const GitPullSlug: string := "git-pull"
  /** Timeout, in seconds, written into every sync task's configuration. */
  const AirbyteSyncTimeout: int := 15
  /** Type tag written into a sync task's configuration (the connector-connection block type). */
  const AirbyteConnectionTag: string := "Airbyte Connection"
  /** Kind of dataflow the sync migration works on. */
  const Manual: string := "manual"
  /** Deployment-name prefix of a legacy manual-sync dataflow. */
  const ManualSyncPrefix: string := "manual-sync"
  /** Name suffix that marks a legacy git-pull block. */
  const GitPullMarker: string := "git-pull"
  /** Host name in a repository URL in front of which the access token is embedded. */
  const GithubHost: string := "github.com"
  const BigQuery: string := "bigquery"

  // ---------- store records ----------

  datatype OrgDbt = OrgDbt(gitrepoUrl: string, defaultSchema: string)
  datatype Org = Org(id: nat, slug: string, airbyteWorkspaceId: string, dbt: OrgDbt)
  datatype OrgWarehouse = OrgWarehouse(org: Org, wtype: string, airbyteDestinationId: string)

  /** The kinds of orchestration block the platform provisions. */
  datatype BlockType = AirbyteServer | AirbyteConnection | DbtCore | DbtCliProfile | Secret | ShellOperation

  /** A row of the legacy block table (never written by the migration). */
  datatype LegacyBlock = LegacyBlock(org: Org, blockType: BlockType, blockId: nat, blockName: string, dbtTargetSchema: string)
  /** A row of the new block table. */
  datatype Block = Block(org: Org, blockType: BlockType, blockId: nat, blockName: string)
  /** A row of the legacy dataflow table (never written by the migration). */
  datatype LegacyFlow = LegacyFlow(org: Org, dataflowType: string, name: string, deploymentName: string,
                                   deploymentId: string, cron: Option<string>, connectionId: Option<string>)
  /** A row of the new dataflow table. */
  datatype Flow = Flow(org: Org, dataflowType: string, name: string, deploymentName: string,
                       deploymentId: string, cron: Option<string>)
  /** A row of the task catalog. */
  datatype Task = Task(id: nat, slug: string)
  /** A task assigned to an org, optionally for one connector connection. */
  datatype OrgTask = OrgTask(org: Org, task: Task, connectionId: Option<string>)
  /** A dataflow-to-task link; both ends are primary keys, i.e. positions in their tables. */
  datatype Link = Link(dataflow: nat, orgTask: nat)

  /** The store: one table per record kind, each in primary-key order. */
  datatype Db = Db(orgs: seq<Org>, warehouses: seq<OrgWarehouse>, legacyBlocks: seq<LegacyBlock>,
                   blocks: seq<Block>, legacyFlows: seq<LegacyFlow>, flows: seq<Flow>,
                   catalog: seq<Task>, orgTasks: seq<OrgTask>, links: seq<Link>)

  // ---------- the filters the migration applies ----------

  function LegacyBlockIs(org: Org, t: BlockType): LegacyBlock -> bool {
    (b: LegacyBlock) => b.org == org && b.blockType == t
  }
  function BlockIs(org: Org, t: BlockType): Block -> bool {
    (b: Block) => b.org == org && b.blockType == t
  }
  /** Legacy dbt-core and shell-operation blocks of an org. */
  function TransformBlockOf(org: Org): LegacyBlock -> bool {
    (b: LegacyBlock) => b.org == org && (b.blockType == DbtCore || b.blockType == ShellOperation)
  }
  /** Legacy manual dataflows of an org whose deployment name starts with the manual-sync prefix. */
  function ManualSyncOf(org: Org): LegacyFlow -> bool {
    (f: LegacyFlow) => f.org == org && f.dataflowType == Manual && StartsWith(f.deploymentName, ManualSyncPrefix)
  }
  function FlowIs(org: Org, deploymentId: string): Flow -> bool {
    (f: Flow) => f.org == org && f.dataflowType == Manual && f.deploymentId == deploymentId
  }
  function OrgTaskIs(org: Org, task: Task, connectionId: Option<string>): OrgTask -> bool {
    (t: OrgTask) => t.org == org && t.task == task && t.connectionId == connectionId
  }
  /** Org tasks of an org for a task, whatever their connection. */
  function OrgTaskOf(org: Org, task: Task): OrgTask -> bool {
    (t: OrgTask) => t.org == org && t.task == task
  }
  function LinkIs(dataflow: nat, orgTask: nat): Link -> bool {
    (l: Link) => l.dataflow == dataflow && l.orgTask == orgTask
  }
  function SlugIs(slug: string): Task -> bool {
    (t: Task) => t.slug == slug
  }
  function SlugEndsWith(suffix: string): Task -> bool {
    (t: Task) => EndsWith(t.slug, suffix)
  }
  function WarehouseOf(org: Org): OrgWarehouse -> bool {
    (w: OrgWarehouse) => w.org == org
  }

  // ---------- ledger ----------

  /** One ledger entry per message the command appends; the fields are the values it interpolates. */
  datatype Msg =
    // server-block migration
    | ServerBlockNotFound(orgSlug: string)
    | ZeroServerBlocks(orgSlug: string)
    | FoundServerBlocks(count: nat, orgSlug: string)
    // manual-sync deployment migration
    | CatalogNotSeeded
    | ZeroOrgTasks(orgSlug: string)
    | FoundOrgTasks(count: nat, orgSlug: string)
    | ZeroDataflows(orgSlug: string, deploymentId: string)
    | FoundDataflows(count: nat, orgSlug: string, deploymentId: string)
    | ZeroLinks(orgSlug: string, deploymentId: string)
    | FoundLinks(count: nat, orgSlug: string, deploymentId: string)
    | MissingConfig(orgSlug: string, deploymentId: string)
    | ParamsVerified(orgSlug: string, deploymentId: string)
    | RefetchFailed(deploymentId: string, orgSlug: string)
    // transformation-block migration
    | NoWarehouse
    | NoWarehouseCredentials
    | NoWarehouseLocation
    | NoDbtVenv
    | ProjectFileMissing
    | NoProfileKey
    | CliProfileCreateFailed
    | CliProfileCreated
    | UsingCliProfile(blockName: string)
    | CliProfileCount(count: nat)
    | SecretCreateFailed
    | SecretCreated
    | RepoVisibility(isPrivate: bool)
    | SecretCount(count: nat)
    | TaskNotFound(command: Option<string>)
    | SkippingBlock(blockName: string)
    | FoundTask(slug: string)
    | CreatingOrgTask(slug: string)
    | CreatedOrgTask(slug: string)
    | OrgTaskCount(count: nat, slug: string)

  datatype Log = Log(successes: seq<Msg>, failures: seq<Msg>)

  /** `a` is `b` with entries appended to either list. */
  predicate LogExtends(b: Log, a: Log) {
    |b.successes| <= |a.successes| && a.successes[..|b.successes|] == b.successes &&
    |b.failures| <= |a.failures| && a.failures[..|b.failures|] == b.failures
  }

  lemma LogExtendsTrans(a: Log, b: Log, c: Log)
    requires LogExtends(a, b) && LogExtends(b, c)
    ensures LogExtends(a, c)
  {
    assert c.successes[..|a.successes|] == c.successes[..|b.successes|][..|a.successes|];
    assert c.failures[..|a.failures|] == c.failures[..|b.failures|][..|a.failures|];
  }

  // ---------- deployment parameters ----------

  datatype Json = JNull | JInt(i: int) | JStr(s: string) | JList(items: seq<Json>) | JObj(fields: map<string, Json>)
  type Params = map<string, Json>

  function Field(j: Json, key: string): Option<Json> {
    if j.JObj? && key in j.fields then Some(j.fields[key]) else None
  }

  function OptionalString(s: Option<string>): Json {
    if s.Some? then JStr(s.value) else JNull
  }

  /** The payload of a dataflow update; only `deploymentParams` is applied by the service. */
  datatype UpdatePayload = UpdatePayload(name: string, connections: seq<string>, dbtTransform: string,
                                         cron: string, deploymentParams: Params)

  // ---------- the orchestration service ----------

  /** A block the service was asked to create. */
  datatype RemoteBlock =
    | CliProfileBlock(name: string, profile: string, target: string, wtype: string,
                      location: Option<string>, credentials: string)
    | SecretBlock(name: string, secret: string)

  /** The identity the service returns for a block it created. */
  datatype BlockRef = BlockRef(blockId: nat, blockName: string)

  /**
   * The service's state: the parameters of each deployment, the blocks
   * created so far, and `faults`, which decides call by call whether a
   * call raises (the head is consumed by each call; an exhausted list
   * means every further call succeeds).
   */
  datatype Remote = Remote(deployments: map<string, Params>, faults: seq<bool>, blocks: seq<RemoteBlock>)

  /** The `k`-th remote call from now raises. */
  predicate FaultAt(r: Remote, k: nat) { k < |r.faults| && r.faults[k] }

  predicate NextFails(r: Remote) { FaultAt(r, 0) }

  /** No call from now on raises. */
  ghost predicate FaultFree(r: Remote) { forall k: nat :: !FaultAt(r, k) }

  /** Consume one entry of the fault schedule. */
  function Tick(r: Remote): (r': Remote)
    ensures r'.deployments == r.deployments && r'.blocks == r.blocks
    ensures forall k: nat :: FaultAt(r', k) == FaultAt(r, k + 1)
  {
    r.(faults := if |r.faults| > 0 then r.faults[1..] else [])
  }

  /** Read a deployment's parameters; fails when the call raises or the id is unknown. */
  function GetDeployment(r: Remote, id: string): (res: (Outcome<Params>, Remote))
    ensures res.1 == Tick(r)
    ensures res.0.Ok? <==> !NextFails(r) && id in r.deployments
    ensures res.0.Ok? ==> res.0.value == r.deployments[id]
  {
    (if !NextFails(r) && id in r.deployments then Ok(r.deployments[id]) else Err, Tick(r))
  }

  /** Replace a deployment's parameters; name, connections, transform mode and cron are accepted and ignored. */
  function UpdateDeployment(r: Remote, id: string, payload: UpdatePayload): (res: (bool, Remote))
    ensures res.0 <==> !NextFails(r) && id in r.deployments
    ensures res.1.faults == Tick(r).faults && res.1.blocks == r.blocks
    ensures res.1.deployments == if res.0 then r.deployments[id := payload.deploymentParams] else r.deployments
  {
    if !NextFails(r) && id in r.deployments then (true, Tick(r).(deployments := r.deployments[id := payload.deploymentParams]))
    else (false, Tick(r))
  }

  /** Create a block; on success the service records it and returns its identity. */
  function CreateBlock(r: Remote, b: RemoteBlock): (res: (Outcome<BlockRef>, Remote))
    ensures res.1.faults == Tick(r).faults && res.1.deployments == r.deployments
    ensures res.0.Ok? <==> !NextFails(r)
    ensures res.0.Ok? ==> res.1.blocks == r.blocks + [b] && res.0.value == BlockRef(|r.blocks|, b.name)
    ensures res.0.Err? ==> res.1.blocks == r.blocks
  {
    if NextFails(r) then (Err, Tick(r))
    else (Ok(BlockRef(|r.blocks|, b.name)), Tick(r).(blocks := r.blocks + [b]))
  }

  // ---------- the whole state ----------

  datatype World = World(db: Db, remote: Remote, log: Log)

  function AddBlock(w: World, b: Block): World {
    w.(db := w.db.(blocks := w.db.blocks + [b]))
  }

  function SetBlock(w: World, i: nat, b: Block): World
    requires i < |w.db.blocks|
  {
    w.(db := w.db.(blocks := w.db.blocks[i := b]))
  }

  function AddOrgTask(w: World, t: OrgTask): World {
    w.(db := w.db.(orgTasks := w.db.orgTasks + [t]))
  }

  /** Append a message to the successes. */
  function Succeed(w: World, m: Msg): (w': World)
    ensures LogExtends(w.log, w'.log)
  {
    assert (w.log.successes + [m])[..|w.log.successes|] == w.log.successes;
    w.(log := w.log.(successes := w.log.successes + [m]))
  }

  /** Append a message to the failures. */
  function Fail(w: World, m: Msg): (w': World)
    ensures LogExtends(w.log, w'.log)
  {
    assert (w.log.failures + [m])[..|w.log.failures|] == w.log.failures;
    w.(log := w.log.(failures := w.log.failures + [m]))
  }
}
