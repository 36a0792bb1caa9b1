/**
 * The transformation-block migration: make sure the org has a dbt CLI
 * profile block and, for a private repository, a secret block holding the
 * token-bearing URL; then assign each legacy dbt-core or shell-operation
 * block's task to the org.
 */
module TransformSpec {
  import opened Common
  import opened Query
  import opened Text
  import opened Model

  // ---------- the two pure helpers ----------

  /** The repository URL with the token embedded as an inline credential in front of the host. */
  function EmbedToken(url: string, token: string): (r: string)
    // a URL that does not name the host is left as it is
    ensures (forall i :: 0 <= i < |url| ==> !OccursAt(url, GithubHost, i)) ==> r == url
  {
    ReplaceAll(url, GithubHost, "oauth2:" + token + "@" + GithubHost)
  }

  /** For a URL naming the host once, the token lands right before the host and nothing else changes. */
  lemma EmbedTokenOnce(scheme: string, path: string, token: string)
    requires forall i :: OccursAt(scheme + GithubHost + path, GithubHost, i) ==> i == |scheme|
    ensures EmbedToken(scheme + GithubHost + path, token) == scheme + "oauth2:" + token + "@" + GithubHost + path
  {
    var url := scheme + GithubHost + path;
    forall i | 0 <= i < |path| ensures !OccursAt(path, GithubHost, i) {
      OccursSkip(scheme + GithubHost, path, GithubHost, i);
      assert (scheme + GithubHost) + path == url;
    }
    ReplaceAtFirst(scheme, path, GithubHost, "oauth2:" + token + "@" + GithubHost);
  }

  /** The command a legacy block runs: none for a git-pull block, else the text after the last `<schema>-`. */
  function BlockCommand(b: LegacyBlock): (cmd: Option<string>)
    ensures cmd.None? <==> EndsWith(b.blockName, GitPullMarker)
    ensures cmd.Some? ==> EndsWith(b.blockName, cmd.value)
    ensures cmd.Some? ==> forall j :: 0 <= j < |cmd.value| ==> !OccursAt(cmd.value, b.dbtTargetSchema + "-", j)
    // the command is the whole name, or what follows a `<schema>-` separator
    ensures cmd.Some? ==>
              cmd.value == b.blockName ||
              EndsWith(b.blockName[..|b.blockName| - |cmd.value|], b.dbtTargetSchema + "-")
  {
    if EndsWith(b.blockName, GitPullMarker) then None
    else Some(LastPiece(b.blockName, b.dbtTargetSchema + "-"))
  }

  /**
   * The catalog task a legacy block maps to: the git-pull task for a
   * git-pull block, otherwise the first task whose slug ends with the
   * block's command.
   */
  function InferTask(b: LegacyBlock, catalog: seq<Task>): (t: Option<nat>)
    ensures t.Some? ==> t.value < |catalog|
    ensures BlockCommand(b).None? ==>
              (t.Some? ==> catalog[t.value].slug == GitPullSlug) &&
              (t.None? <==> forall j :: 0 <= j < |catalog| ==> catalog[j].slug != GitPullSlug)
    ensures BlockCommand(b).Some? ==>
              (t.Some? ==> EndsWith(catalog[t.value].slug, BlockCommand(b).value)) &&
              (t.None? <==> forall j :: 0 <= j < |catalog| ==> !EndsWith(catalog[j].slug, BlockCommand(b).value))
    // the earliest matching task wins
    ensures t.Some? ==> forall j :: 0 <= j < t.value ==>
              if BlockCommand(b).None? then catalog[j].slug != GitPullSlug
              else !EndsWith(catalog[j].slug, BlockCommand(b).value)
  {
    match BlockCommand(b)
    case None => Find(catalog, SlugIs(GitPullSlug))
    case Some(cmd) => Find(catalog, SlugEndsWith(cmd))
  }

  /** A block named `<schema>-<command>`, the separator occurring once, maps to the command. */
  lemma CommandOfSchemaName(b: LegacyBlock, cmd: string)
    requires b.blockName == b.dbtTargetSchema + "-" + cmd
    requires forall i :: OccursAt(b.blockName, b.dbtTargetSchema + "-", i) ==> i == 0
    requires !EndsWith(b.blockName, GitPullMarker)
    ensures BlockCommand(b) == Some(cmd)
  {
    var sep := b.dbtTargetSchema + "-";
    assert b.blockName == [] + sep + cmd;
    LastPieceSingle([], sep, cmd);
  }

  /**
   * The command is found by the same scan as `split`: a name that starts
   * with text holding no separator, then a separator, has the command of
   * what follows. With `LastPieceSingle` at the end, this fixes the command
   * even when the separator overlaps itself.
   */
  lemma BlockCommandAfterFirst(b: LegacyBlock, p: string, q: string)
    requires b.blockName == p + (b.dbtTargetSchema + "-") + q
    requires forall i :: 0 <= i < |p| ==> !OccursAt(b.blockName, b.dbtTargetSchema + "-", i)
    requires !EndsWith(b.blockName, GitPullMarker)
    ensures BlockCommand(b) == Some(LastPiece(q, b.dbtTargetSchema + "-"))
  {
    LastPieceAfterFirst(p, b.dbtTargetSchema + "-", q);
  }

  /** A schema that overlaps its own separator: `a-a-a-run` under schema `a-a` runs `a-run`, as `split` gives. */
  lemma OverlappingSchemaCommand(b: LegacyBlock)
    requires b.blockName == "a-a-a-run" && b.dbtTargetSchema == "a-a"
    ensures BlockCommand(b) == Some("a-run")
  {
    assert b.dbtTargetSchema + "-" == "a-a-";
    assert !EndsWith(b.blockName, GitPullMarker) by {
      assert b.blockName[1..][0] != GitPullMarker[0];
    }
    LastPieceOverlapping(b.blockName, b.dbtTargetSchema + "-");
  }

  // ---------- the setup checks ----------

  /** Secret-service, connector-metadata and filesystem facts about one org. */
  datatype DbtProject = VenvMissing | ProjectFileMissing | ProfileKeyMissing | Profile(name: string)
  datatype OrgEnv = OrgEnv(credentials: Outcome<string>, destination: Outcome<Option<string>>,
                           project: DbtProject, githubToken: Option<string>)

  datatype Setup = SetupFailed(msg: Msg) | Ready(wtype: string, location: Option<string>, profile: string, credentials: string)

  /** The checks the migration makes before touching anything, in the order it makes them. */
  function TransformSetup(warehouses: seq<OrgWarehouse>, org: Org, env: OrgEnv): (s: Setup)
    // each check that fails yields its own message; a later check is reached only when the earlier ones pass
    ensures Find(warehouses, WarehouseOf(org)).None? ==> s == SetupFailed(NoWarehouse)
    ensures Find(warehouses, WarehouseOf(org)).Some? && env.credentials.Err? ==>
              s == SetupFailed(NoWarehouseCredentials)
    ensures Find(warehouses, WarehouseOf(org)).Some? && env.credentials.Ok? ==>
              var wtype := warehouses[Find(warehouses, WarehouseOf(org)).value].wtype;
              && (wtype == BigQuery && env.destination.Err? ==> s == SetupFailed(NoWarehouseLocation))
              && (wtype != BigQuery || env.destination.Ok? ==>
                    && (env.project == VenvMissing ==> s == SetupFailed(NoDbtVenv))
                    && (env.project == DbtProject.ProjectFileMissing ==> s == SetupFailed(Msg.ProjectFileMissing))
                    && (env.project == ProfileKeyMissing ==> s == SetupFailed(NoProfileKey))
                    // every check passed: ready, with the location only for BigQuery
                    && (env.project.Profile? ==>
                          s == Ready(wtype, if wtype == BigQuery then env.destination.value else None,
                                     env.project.name, env.credentials.value)))
    // ready only when every check passed
    ensures s.Ready? ==>
              && Find(warehouses, WarehouseOf(org)).Some?
              && env.credentials == Ok(s.credentials)
              && env.project == Profile(s.profile)
              && s.wtype == warehouses[Find(warehouses, WarehouseOf(org)).value].wtype
              && (s.wtype == BigQuery ==> env.destination == Ok(s.location))
              && (s.wtype != BigQuery ==> s.location == None)
  {
    var wh := Find(warehouses, WarehouseOf(org));
    if wh.None? then SetupFailed(NoWarehouse)
    else if env.credentials.Err? then SetupFailed(NoWarehouseCredentials)
    else
      var warehouse := warehouses[wh.value];
      if warehouse.wtype == BigQuery && env.destination.Err? then SetupFailed(NoWarehouseLocation)
      else
        var location := if warehouse.wtype == BigQuery then env.destination.value else None;
        match env.project
        case VenvMissing => SetupFailed(NoDbtVenv)
        case ProjectFileMissing => SetupFailed(Msg.ProjectFileMissing)
        case ProfileKeyMissing => SetupFailed(NoProfileKey)
        case Profile(name) => Ready(warehouse.wtype, location, name, env.credentials.value)
  }

  // ---------- the two blocks ----------

  /** `s'` is `s`, or `s` with one more block of type `t` for `org`, of which `s` had none. */
  predicate FreshBlockStep(s: seq<Block>, s': seq<Block>, org: Org, t: BlockType) {
    s' == s ||
    (|s'| == |s| + 1 && s'[..|s|] == s && s'[|s|].org == org && s'[|s|].blockType == t &&
     Find(s, BlockIs(org, t)).None?)
  }

  /** A fresh-block step never gives any org two blocks of one type. */
  lemma FreshStepKeepsSingletons(s: seq<Block>, s': seq<Block>, org: Org, t: BlockType, o: Org, u: BlockType)
    requires FreshBlockStep(s, s', org, t)
    requires Count(s, BlockIs(o, u)) <= 1
    ensures Count(s', BlockIs(o, u)) <= 1
  {
    if s' != s {
      var b := s'[|s|];
      assert s' == s + [b];
      CountAppend(s, b, BlockIs(o, u));
      if BlockIs(o, u)(b) {
        assert o == org && u == t;
        assert Count(s, BlockIs(o, u)) == 0;
      }
    }
  }

  /** `s'` is `s` followed only by blocks of `org` that are not server blocks. */
  predicate AddsOwnBlocks(s: seq<Block>, s': seq<Block>, org: Org) {
    && |s| <= |s'| && s'[..|s|] == s
    && forall i :: |s| <= i < |s'| ==> s'[i].org == org && s'[i].blockType != AirbyteServer
  }

  /** A CLI profile step and a secret step add only the org's own blocks. */
  lemma FreshStepsAddOwn(s0: seq<Block>, s1: seq<Block>, s2: seq<Block>, org: Org)
    requires FreshBlockStep(s0, s1, org, DbtCliProfile) && FreshBlockStep(s1, s2, org, Secret)
    ensures AddsOwnBlocks(s0, s2, org)
  {
    assert s1[..|s0|] == s0 && s2[..|s1|] == s1;
    assert s2[..|s0|] == s2[..|s1|][..|s0|];
  }

  /** Blocks added that way change no other org's search, nor any search for a server block. */
  lemma AddsOwnFind(s: seq<Block>, s': seq<Block>, org: Org, o: Org, t: BlockType)
    requires AddsOwnBlocks(s, s', org)
    requires o != org || t == AirbyteServer
    ensures Find(s', BlockIs(o, t)) == Find(s, BlockIs(o, t))
    ensures Count(s', BlockIs(o, t)) == Count(s, BlockIs(o, t))
  {
    var tail := s'[|s|..];
    assert s' == s + tail;
    assert forall j :: 0 <= j < |tail| ==> tail[j] == s'[|s| + j];
    FindSkipsTail(s, tail, BlockIs(o, t));
  }

  /** The blocks are unchanged but for the one created; the service is asked for it and nothing else. */
  predicate BlockStageFrame(w: World, w': World) {
    && w'.db == w.db.(blocks := w'.db.blocks)
    && |w.db.blocks| <= |w'.db.blocks| && w'.db.blocks[..|w.db.blocks|] == w.db.blocks
    && w'.remote.deployments == w.remote.deployments
    && LogExtends(w.log, w'.log)
  }

  /**
   * The org's dbt CLI profile block: the existing one, else one created
   * remotely under the name `<org slug>-<profile>` for the org's default
   * schema; `None` when the creation fails, which ends the migration.
   */
  function CliProfileStage(w: World, org: Org, s: Setup): (res: (World, Option<Block>))
    requires s.Ready?
    ensures BlockStageFrame(w, res.0)
    ensures FreshBlockStep(w.db.blocks, res.0.db.blocks, org, DbtCliProfile)
    ensures Find(w.db.blocks, BlockIs(org, DbtCliProfile)).Some? ==>
              res == (w, Some(w.db.blocks[Find(w.db.blocks, BlockIs(org, DbtCliProfile)).value]))
    ensures Find(w.db.blocks, BlockIs(org, DbtCliProfile)).None? && NextFails(w.remote) ==>
              && res.1.None? && res.0.db == w.db
              && res.0.log == Fail(w, CliProfileCreateFailed).log
              && res.0.remote.blocks == w.remote.blocks
    ensures Find(w.db.blocks, BlockIs(org, DbtCliProfile)).None? && !NextFails(w.remote) ==>
              && res.1 == Some(Block(org, DbtCliProfile, |w.remote.blocks|, org.slug + "-" + s.profile))
              && res.0.db.blocks == w.db.blocks + [res.1.value]
              && res.0.remote.blocks == w.remote.blocks +
                   [CliProfileBlock(org.slug + "-" + s.profile, s.profile, org.dbt.defaultSchema,
                                    s.wtype, s.location, s.credentials)]
              && res.0.log == Succeed(w, CliProfileCreated).log
    ensures res.1.Some? ==> Find(res.0.db.blocks, BlockIs(org, DbtCliProfile)).Some?
  {
    var found := Find(w.db.blocks, BlockIs(org, DbtCliProfile));
    if found.Some? then (w, Some(w.db.blocks[found.value]))
    else
      var name := org.slug + "-" + s.profile;
      var created := CreateBlock(w.remote, CliProfileBlock(name, s.profile, org.dbt.defaultSchema,
                                                           s.wtype, s.location, s.credentials));
      if created.0.Err? then (Fail(w.(remote := created.1), CliProfileCreateFailed), None)
      else
        var b := Block(org, DbtCliProfile, created.0.value.blockId, created.0.value.blockName);
        FindAppend(w.db.blocks, b, BlockIs(org, DbtCliProfile));
        (Succeed(AddBlock(w.(remote := created.1), b), CliProfileCreated), Some(b))
  }

  /** A token worth embedding. */
  predicate HasToken(token: Option<string>) {
    token != None && token != Some("")
  }

  /**
   * The org's secret block holding the repository URL with the token
   * embedded, created under `<org slug>-git-pull-url` when the org has none
   * and a token exists; `true` when the creation fails, which ends the
   * migration.
   */
  function SecretStage(w: World, org: Org, token: Option<string>): (res: (World, bool))
    ensures BlockStageFrame(w, res.0)
    ensures FreshBlockStep(w.db.blocks, res.0.db.blocks, org, Secret)
    ensures Find(w.db.blocks, BlockIs(org, Secret)).Some? || !HasToken(token) ==> res == (w, false)
    ensures Find(w.db.blocks, BlockIs(org, Secret)).None? && HasToken(token) && NextFails(w.remote) ==>
              && res.1 && res.0.db == w.db
              && res.0.log == Fail(w, SecretCreateFailed).log
              && res.0.remote.blocks == w.remote.blocks
    ensures Find(w.db.blocks, BlockIs(org, Secret)).None? && HasToken(token) && !NextFails(w.remote) ==>
              && !res.1
              && res.0.db.blocks == w.db.blocks + [Block(org, Secret, |w.remote.blocks|, org.slug + "-git-pull-url")]
              && res.0.remote.blocks == w.remote.blocks +
                   [SecretBlock(org.slug + "-git-pull-url", EmbedToken(org.dbt.gitrepoUrl, token.value))]
              && res.0.log == Succeed(w, SecretCreated).log
    // once the stage completes, the org has its secret block unless it has no token
    ensures !res.1 ==> Find(res.0.db.blocks, BlockIs(org, Secret)).Some? || !HasToken(token)
  {
    var found := Find(w.db.blocks, BlockIs(org, Secret));
    if found.Some? || !HasToken(token) then (w, false)
    else
      var name := org.slug + "-git-pull-url";
      var created := CreateBlock(w.remote, SecretBlock(name, EmbedToken(org.dbt.gitrepoUrl, token.value)));
      if created.0.Err? then (Fail(w.(remote := created.1), SecretCreateFailed), true)
      else
        var b := Block(org, Secret, created.0.value.blockId, created.0.value.blockName);
        FindAppend(w.db.blocks, b, BlockIs(org, Secret));
        (Succeed(AddBlock(w.(remote := created.1), b), SecretCreated), false)
  }

  // ---------- the tasks ----------

  /** Only org tasks are added; the rest of the store and the service are untouched. */
  predicate TaskFrame(w: World, w': World) {
    && w'.db == w.db.(orgTasks := w'.db.orgTasks)
    && |w.db.orgTasks| <= |w'.db.orgTasks| && w'.db.orgTasks[..|w.db.orgTasks|] == w.db.orgTasks
    && w'.remote == w.remote
    && LogExtends(w.log, w'.log)
  }

  /** Reporting alone keeps the task frame. */
  lemma LogOnlyTaskFrame(w: World, w': World)
    requires w'.db == w.db && w'.remote == w.remote && LogExtends(w.log, w'.log)
    ensures TaskFrame(w, w')
  {
    assert w.db.orgTasks[..|w.db.orgTasks|] == w.db.orgTasks;
  }

  lemma TaskFrameTrans(a: World, b: World, c: World)
    requires TaskFrame(a, b) && TaskFrame(b, c)
    ensures TaskFrame(a, c)
  {
    assert c.db.orgTasks[..|b.db.orgTasks|][..|a.db.orgTasks|] == c.db.orgTasks[..|a.db.orgTasks|];
    LogExtendsTrans(a.log, b.log, c.log);
  }

  /** None of the messages is a repository-visibility report. */
  predicate Quiet(ms: seq<Msg>) {
    forall m :: m in ms ==> !m.RepoVisibility?
  }

  /** Reports appended in two quiet runs are quiet together. */
  lemma QuietTrans(a: Log, b: Log, c: Log)
    requires LogExtends(a, b) && LogExtends(b, c)
    requires Quiet(b.successes[|a.successes|..]) && Quiet(c.successes[|b.successes|..])
    ensures Quiet(c.successes[|a.successes|..])
  {
    assert c.successes[|a.successes|..] == b.successes[|a.successes|..] + c.successes[|b.successes|..] by {
      assert c.successes == c.successes[..|b.successes|] + c.successes[|b.successes|..];
    }
  }

  /** The org has an org task for the task the legacy block maps to (if it maps to one). */
  predicate HasOrgTask(db: Db, org: Org, b: LegacyBlock) {
    InferTask(b, db.catalog).Some? ==>
      Find(db.orgTasks, OrgTaskOf(org, db.catalog[InferTask(b, db.catalog).value])).Some?
  }

  lemma HasOrgTaskExtend(db: Db, db': Db, org: Org, b: LegacyBlock)
    requires HasOrgTask(db, org, b)
    requires db'.catalog == db.catalog
    requires |db.orgTasks| <= |db'.orgTasks| && db'.orgTasks[..|db.orgTasks|] == db.orgTasks
    ensures HasOrgTask(db', org, b)
  {
    if InferTask(b, db.catalog).Some? {
      FindExtend(db.orgTasks, db'.orgTasks, OrgTaskOf(org, db.catalog[InferTask(b, db.catalog).value]));
    }
  }

  /** The command a message about a missing task names: this block's, else the one left from an earlier block. */
  function CarriedCommand(b: LegacyBlock, last: Option<string>): (c: Option<string>)
    // a git-pull block leaves the earlier command in place; any other block sets its own
    ensures EndsWith(b.blockName, GitPullMarker) ==> c == last
    ensures !EndsWith(b.blockName, GitPullMarker) ==> c.Some? && c == BlockCommand(b)
  {
    if BlockCommand(b).Some? then BlockCommand(b) else last
  }

  /**
   * Give the org an org task for `task` (with no connection) unless it has
   * one for that task already, then report how many it has.
   */
  function AssignTask(w: World, org: Org, task: Task): (w': World)
    ensures TaskFrame(w, w')
    ensures w'.log.failures == w.log.failures
    ensures Find(w.db.orgTasks, OrgTaskOf(org, task)).Some? ==> w'.db == w.db
    ensures Find(w.db.orgTasks, OrgTaskOf(org, task)).None? ==>
              w'.db.orgTasks == w.db.orgTasks + [OrgTask(org, task, None)]
    ensures Find(w'.db.orgTasks, OrgTaskOf(org, task)).Some?
    // reports the creation when there is one, then the count
    ensures w'.log.successes == w.log.successes +
              (if Find(w.db.orgTasks, OrgTaskOf(org, task)).Some? then []
               else [CreatingOrgTask(task.slug), CreatedOrgTask(task.slug)]) +
              [OrgTaskCount(Count(w'.db.orgTasks, OrgTaskOf(org, task)), task.slug)]
    ensures Count(w'.db.orgTasks, OrgTaskOf(org, task)) >= 1
  {
    var p := OrgTaskOf(org, task);
    var ot := OrgTask(org, task, None);
    FindAppend(w.db.orgTasks, ot, p);
    assert (w.db.orgTasks + [ot])[..|w.db.orgTasks|] == w.db.orgTasks;
    var w1 := if Find(w.db.orgTasks, p).Some? then w
              else Succeed(AddOrgTask(Succeed(w, CreatingOrgTask(task.slug)), ot), CreatedOrgTask(task.slug));
    assert LogExtends(w.log, w1.log) by {
      if Find(w.db.orgTasks, p).None? {
        LogExtendsTrans(w.log, Succeed(w, CreatingOrgTask(task.slug)).log, w1.log);
      }
    }
    assert w1.log.successes == w.log.successes +
             (if Find(w.db.orgTasks, p).Some? then [] else [CreatingOrgTask(task.slug), CreatedOrgTask(task.slug)]);
    LogExtendsTrans(w.log, w1.log, Succeed(w1, OrgTaskCount(Count(w1.db.orgTasks, p), task.slug)).log);
    Succeed(w1, OrgTaskCount(Count(w1.db.orgTasks, p), task.slug))
  }

  /** Assigning a task reports no repository visibility. */
  lemma AssignTaskQuiet(w: World, org: Org, task: Task)
    ensures Quiet(AssignTask(w, org, task).log.successes[|w.log.successes|..])
  {
    var p := OrgTaskOf(org, task);
    var w' := AssignTask(w, org, task);
    var created := if Find(w.db.orgTasks, p).Some? then [] else [CreatingOrgTask(task.slug), CreatedOrgTask(task.slug)];
    assert w'.log.successes[|w.log.successes|..] == created + [OrgTaskCount(Count(w'.db.orgTasks, p), task.slug)];
  }

  /**
   * One legacy block: find its task; without one, report and skip the
   * block; with one, assign it to the org.
   */
  function TransformOne(w: World, org: Org, b: LegacyBlock, last: Option<string>): (w': World)
    ensures TaskFrame(w, w')
    ensures HasOrgTask(w'.db, org, b)
    ensures InferTask(b, w.db.catalog).None? ==>
              && w'.db == w.db && w'.log.successes == w.log.successes
              && w'.log.failures == w.log.failures + [TaskNotFound(CarriedCommand(b, last)), SkippingBlock(b.blockName)]
    ensures InferTask(b, w.db.catalog).Some? ==>
              var task := w.db.catalog[InferTask(b, w.db.catalog).value];
              && w'.log.failures == w.log.failures
              && FoundTask(task.slug) in w'.log.successes[|w.log.successes|..]
              && w' == AssignTask(Succeed(w, FoundTask(task.slug)), org, task)
    ensures Quiet(w'.log.successes[|w.log.successes|..])
  {
    var t := InferTask(b, w.db.catalog);
    if t.None? then
      var w1 := Fail(w, TaskNotFound(CarriedCommand(b, last)));
      var w2 := Fail(w1, SkippingBlock(b.blockName));
      LogExtendsTrans(w.log, w1.log, w2.log);
      LogOnlyTaskFrame(w, w2);
      w2
    else
      var task := w.db.catalog[t.value];
      var w1 := Succeed(w, FoundTask(task.slug));
      LogOnlyTaskFrame(w, w1);
      var w2 := AssignTask(w1, org, task);
      FirstOfRun(w.log.successes, w2.log.successes, FoundTask(task.slug), w2.log.successes[|w1.log.successes|..]);
      AssignTaskQuiet(w1, org, task);
      assert forall x :: x in [FoundTask(task.slug)] + w2.log.successes[|w1.log.successes|..] ==> x == FoundTask(task.slug) || x in w2.log.successes[|w1.log.successes|..];
      TaskFrameTrans(w, w1, w2);
      w2
  }

  /** A message appended right after `before` is in this run's part of the list. */
  lemma FirstOfRun(before: seq<Msg>, after: seq<Msg>, m: Msg, rest: seq<Msg>)
    requires after == before + [m] + rest
    ensures after[|before|..] == [m] + rest
    ensures m in after[|before|..]
  {
    assert after[|before|..] == [m] + rest;
  }

  /** All the legacy blocks in `todo`, in order, the missing-task message carrying the last command seen. */
  function TransformLoop(w: World, org: Org, todo: seq<LegacyBlock>, last: Option<string>): (w': World)
    ensures TaskFrame(w, w')
    ensures forall b :: b in todo ==> HasOrgTask(w'.db, org, b)
    ensures Quiet(w'.log.successes[|w.log.successes|..])
    decreases |todo|
  {
    if todo == [] then w
    else
      var w1 := TransformOne(w, org, todo[0], last);
      var w2 := TransformLoop(w1, org, todo[1..], CarriedCommand(todo[0], last));
      TaskFrameTrans(w, w1, w2);
      QuietTrans(w.log, w1.log, w2.log);
      HasOrgTaskExtend(w1.db, w2.db, org, todo[0]);
      assert forall b :: b in todo ==> b == todo[0] || b in todo[1..];
      w2
  }

  /** A run of the loop over blocks whose tasks the org already has adds nothing. */
  lemma {:induction false} TransformLoopStable(w: World, org: Org, todo: seq<LegacyBlock>, last: Option<string>)
    requires forall b :: b in todo ==> HasOrgTask(w.db, org, b)
    ensures TransformLoop(w, org, todo, last).db == w.db
    decreases |todo|
  {
    if todo != [] {
      var w1 := TransformOne(w, org, todo[0], last);
      assert todo[0] in todo;
      assert w1.db == w.db;
      forall b | b in todo[1..] ensures HasOrgTask(w1.db, org, b) {
        assert b in todo;
      }
      TransformLoopStable(w1, org, todo[1..], CarriedCommand(todo[0], last));
    }
  }

  // ---------- the whole migration ----------

  /** What the migration may change: it adds blocks and org tasks, and creates remote blocks only. */
  predicate MigrationFrame(w: World, w': World) {
    && w'.db == w.db.(blocks := w'.db.blocks, orgTasks := w'.db.orgTasks)
    && |w.db.blocks| <= |w'.db.blocks| && w'.db.blocks[..|w.db.blocks|] == w.db.blocks
    && |w.db.orgTasks| <= |w'.db.orgTasks| && w'.db.orgTasks[..|w.db.orgTasks|] == w.db.orgTasks
    && w'.remote.deployments == w.remote.deployments
    && LogExtends(w.log, w'.log)
  }

  lemma MigrationFrameTrans(a: World, b: World, c: World)
    requires MigrationFrame(a, b) && MigrationFrame(b, c)
    ensures MigrationFrame(a, c)
  {
    assert c.db.blocks[..|b.db.blocks|][..|a.db.blocks|] == c.db.blocks[..|a.db.blocks|];
    assert c.db.orgTasks[..|b.db.orgTasks|][..|a.db.orgTasks|] == c.db.orgTasks[..|a.db.orgTasks|];
    LogExtendsTrans(a.log, b.log, c.log);
  }

  lemma BlockStageInFrame(w: World, w': World)
    requires BlockStageFrame(w, w')
    ensures MigrationFrame(w, w')
  {
    assert w.db.orgTasks[..|w.db.orgTasks|] == w.db.orgTasks;
  }

  lemma TaskFrameInFrame(w: World, w': World)
    requires TaskFrame(w, w')
    ensures MigrationFrame(w, w')
  {
    assert w.db.blocks[..|w.db.blocks|] == w.db.blocks;
  }

  /** No failure the migration appended is a failed block creation, the two failures that cut the migration short. */
  predicate Completed(w: World, w': World) {
    forall i :: |w.log.failures| <= i < |w'.log.failures| ==>
      w'.log.failures[i] != CliProfileCreateFailed && w'.log.failures[i] != SecretCreateFailed
  }

  /**
   * The org needs nothing more: it has its CLI profile block, its secret
   * block unless it has no token, and an org task for every legacy block
   * whose task is in the catalog.
   */
  predicate Settled(db: Db, org: Org, token: Option<string>) {
    && Find(db.blocks, BlockIs(org, DbtCliProfile)).Some?
    && (Find(db.blocks, BlockIs(org, Secret)).Some? || !HasToken(token))
    && forall b :: b in Filter(db.legacyBlocks, TransformBlockOf(org)) ==> HasOrgTask(db, org, b)
  }

  /** No org gains a second block of any type. */
  ghost predicate KeepsSingletons(s: seq<Block>, s': seq<Block>) {
    forall o, u :: Count(s, BlockIs(o, u)) <= 1 ==> Count(s', BlockIs(o, u)) <= 1
  }

  /** Report whether the repository is private, that is whether the org has a secret block, and how many it has. */
  function ReportSecret(w: World, org: Org): (w': World)
    ensures w'.db == w.db && w'.remote == w.remote && w'.log.failures == w.log.failures
    ensures MigrationFrame(w, w')
    ensures w'.log.successes == w.log.successes +
              [RepoVisibility(Find(w.db.blocks, BlockIs(org, Secret)).Some?),
               SecretCount(Count(w.db.blocks, BlockIs(org, Secret)))]
  {
    var w1 := Succeed(w, RepoVisibility(Find(w.db.blocks, BlockIs(org, Secret)).Some?));
    var w2 := Succeed(w1, SecretCount(Count(w1.db.blocks, BlockIs(org, Secret))));
    LogExtendsTrans(w.log, w1.log, w2.log);
    assert w.db.blocks[..|w.db.blocks|] == w.db.blocks;
    assert w.db.orgTasks[..|w.db.orgTasks|] == w.db.orgTasks;
    w2
  }

  /** After the CLI profile block: report it, settle the secret block, report it, then the tasks. */
  function SecretAndTasks(w: World, org: Org, token: Option<string>): (w': World)
    requires Find(w.db.blocks, BlockIs(org, DbtCliProfile)).Some?
    ensures MigrationFrame(w, w')
    ensures FreshBlockStep(w.db.blocks, w'.db.blocks, org, Secret)
    ensures Completed(w, w') ==> Settled(w'.db, org, token)
    ensures Settled(w.db, org, token) ==> w'.db == w.db
  {
    var sec := SecretStage(w, org, token);
    BlockStageInFrame(w, sec.0);
    FindExtend(w.db.blocks, sec.0.db.blocks, BlockIs(org, DbtCliProfile));
    if sec.1 then
      assert sec.0.log.failures[|w.log.failures|] == SecretCreateFailed;
      sec.0
    else
      var w2 := ReportSecret(sec.0, org);
      var todo := Filter(w2.db.legacyBlocks, TransformBlockOf(org));
      var w3 := TransformLoop(w2, org, todo, None);
      TaskFrameInFrame(w2, w3);
      MigrationFrameTrans(sec.0, w2, w3);
      MigrationFrameTrans(w, sec.0, w3);
      assert Settled(w.db, org, token) ==> w3.db == w.db by {
        if Settled(w.db, org, token) {
          TransformLoopStable(w2, org, todo, None);
        }
      }
      w3
  }

  /** The reports of a run that gets past the secret stage: one visibility report, for `x`. */
  lemma VisibilityReported(base: seq<Msg>, pre: seq<Msg>, x: bool, n: nat, mid: seq<Msg>, all: seq<Msg>)
    requires pre == base || pre == base + [SecretCreated]
    requires mid == pre + [RepoVisibility(x), SecretCount(n)]
    requires |mid| <= |all| && all[..|mid|] == mid
    requires Quiet(all[|mid|..])
    ensures forall b :: RepoVisibility(b) in all[|base|..] <==> b == x
  {
    assert all == mid + all[|mid|..];
    assert all[|base|..] == pre[|base|..] + [RepoVisibility(x), SecretCount(n)] + all[|mid|..];
  }

  /** A failed secret creation ends the run with that failure alone, and the store as it was. */
  lemma SecretAndTasksAborts(w: World, org: Org, token: Option<string>)
    requires Find(w.db.blocks, BlockIs(org, DbtCliProfile)).Some?
    requires Find(w.db.blocks, BlockIs(org, Secret)).None? && HasToken(token) && NextFails(w.remote)
    ensures SecretAndTasks(w, org, token).db == w.db
    ensures SecretAndTasks(w, org, token).log == Fail(w, SecretCreateFailed).log
  {
    assert SecretAndTasks(w, org, token) == SecretStage(w, org, token).0;
  }

  /** A secret stage that does not end the run reports at most the secret's creation. */
  lemma SecretStageReports(w: World, org: Org, token: Option<string>)
    requires !SecretStage(w, org, token).1
    ensures var s := SecretStage(w, org, token).0.log.successes;
            s == w.log.successes || s == w.log.successes + [SecretCreated]
  {
  }

  /** A run that gets past the secret stage reports the visibility once, for whether the org has a secret block. */
  lemma SecretAndTasksVisibility(w: World, org: Org, token: Option<string>)
    requires Find(w.db.blocks, BlockIs(org, DbtCliProfile)).Some?
    requires !SecretStage(w, org, token).1
    ensures var w' := SecretAndTasks(w, org, token);
            forall b :: RepoVisibility(b) in w'.log.successes[|w.log.successes|..] <==>
              b == Find(w'.db.blocks, BlockIs(org, Secret)).Some?
  {
    var sec := SecretStage(w, org, token).0;
    var w2 := ReportSecret(sec, org);
    var w3 := TransformLoop(w2, org, Filter(w2.db.legacyBlocks, TransformBlockOf(org)), None);
    assert SecretAndTasks(w, org, token) == w3;
    SecretStageReports(w, org, token);
    VisibilityReported(w.log.successes, sec.log.successes, Find(sec.db.blocks, BlockIs(org, Secret)).Some?,
                       Count(sec.db.blocks, BlockIs(org, Secret)), w2.log.successes, w3.log.successes);
  }

  /**
   * What one secret-and-tasks run reports about the repository: nothing
   * when the secret creation fails; otherwise that the repository is
   * private exactly when the org has a secret block, and public otherwise, once.
   */
  lemma SecretAndTasksReports(w: World, org: Org, token: Option<string>)
    requires Find(w.db.blocks, BlockIs(org, DbtCliProfile)).Some?
    ensures var w' := SecretAndTasks(w, org, token);
            forall b :: RepoVisibility(b) in w'.log.successes[|w.log.successes|..] <==>
              && !(Find(w.db.blocks, BlockIs(org, Secret)).None? && HasToken(token) && NextFails(w.remote))
              && b == Find(w'.db.blocks, BlockIs(org, Secret)).Some?
  {
    if Find(w.db.blocks, BlockIs(org, Secret)).None? && HasToken(token) && NextFails(w.remote) {
      SecretAndTasksAborts(w, org, token);
      assert Fail(w, SecretCreateFailed).log.successes[|w.log.successes|..] == [];
    } else {
      SecretAndTasksVisibility(w, org, token);
    }
  }

  /** Two fresh-block steps in a row give no org a second block of any type. */
  lemma FreshStepsKeepSingletons(s0: seq<Block>, s1: seq<Block>, s2: seq<Block>, org: Org, t1: BlockType, t2: BlockType)
    requires FreshBlockStep(s0, s1, org, t1) && FreshBlockStep(s1, s2, org, t2)
    ensures KeepsSingletons(s0, s2)
  {
    forall o, u | Count(s0, BlockIs(o, u)) <= 1 ensures Count(s2, BlockIs(o, u)) <= 1 {
      FreshStepKeepsSingletons(s0, s1, org, t1, o, u);
      FreshStepKeepsSingletons(s1, s2, org, t2, o, u);
    }
  }

  /** Report the CLI profile block in use and how many the org has. */
  function ReportCliProfile(w: World, org: Org, cli: Block): (w': World)
    ensures w'.db == w.db && w'.remote == w.remote && w'.log.failures == w.log.failures
    ensures MigrationFrame(w, w')
    ensures w'.log.successes == w.log.successes +
              [UsingCliProfile(cli.blockName), CliProfileCount(Count(w.db.blocks, BlockIs(org, DbtCliProfile)))]
  {
    var w1 := Succeed(w, UsingCliProfile(cli.blockName));
    var w2 := Succeed(w1, CliProfileCount(Count(w1.db.blocks, BlockIs(org, DbtCliProfile))));
    LogExtendsTrans(w.log, w1.log, w2.log);
    assert w.db.blocks[..|w.db.blocks|] == w.db.blocks;
    assert w.db.orgTasks[..|w.db.orgTasks|] == w.db.orgTasks;
    w2
  }

  /**
   * With the setup checks passed: settle the CLI profile block (stop if
   * its creation fails), report it and how many the org has, then go on.
   */
  function TransformBlocks(w: World, org: Org, token: Option<string>, s: Setup): (w': World)
    requires s.Ready?
    ensures MigrationFrame(w, w')
    ensures KeepsSingletons(w.db.blocks, w'.db.blocks)
    ensures Completed(w, w') ==> Settled(w'.db, org, token)
    ensures Settled(w.db, org, token) ==> w'.db == w.db
    ensures AddsOwnBlocks(w.db.blocks, w'.db.blocks, org)
  {
    var c := CliProfileStage(w, org, s);
    BlockStageInFrame(w, c.0);
    FreshStepsKeepSingletons(w.db.blocks, c.0.db.blocks, c.0.db.blocks, org, DbtCliProfile, Secret);
    FreshStepsAddOwn(w.db.blocks, c.0.db.blocks, c.0.db.blocks, org);
    if c.1.None? then
      assert c.0.log.failures[|w.log.failures|] == CliProfileCreateFailed;
      c.0
    else
      var w2 := ReportCliProfile(c.0, org, c.1.value);
      assert w2.log.failures == w.log.failures;
      var w3 := SecretAndTasks(w2, org, token);
      assert Completed(w, w3) ==> Completed(w2, w3);
      MigrationFrameTrans(c.0, w2, w3);
      MigrationFrameTrans(w, c.0, w3);
      FreshStepsKeepSingletons(w.db.blocks, c.0.db.blocks, w3.db.blocks, org, DbtCliProfile, Secret);
      FreshStepsAddOwn(w.db.blocks, c.0.db.blocks, w3.db.blocks, org);
      w3
  }

  /** The transformation-block migration of one org. */
  function TransformMigrated(w: World, org: Org, env: OrgEnv): (w': World)
    ensures TransformSetup(w.db.warehouses, org, env).SetupFailed? ==> w' == Fail(w, TransformSetup(w.db.warehouses, org, env).msg)
    ensures MigrationFrame(w, w')
    ensures KeepsSingletons(w.db.blocks, w'.db.blocks)
    ensures TransformSetup(w.db.warehouses, org, env).Ready? && Completed(w, w') ==> Settled(w'.db, org, env.githubToken)
    ensures TransformSetup(w.db.warehouses, org, env).Ready? && Settled(w.db, org, env.githubToken) ==> w'.db == w.db
    // the only blocks added are the org's own CLI profile and secret blocks
    ensures AddsOwnBlocks(w.db.blocks, w'.db.blocks, org)
  {
    match TransformSetup(w.db.warehouses, org, env)
    case SetupFailed(m) =>
      assert w.db.blocks[..|w.db.blocks|] == w.db.blocks;
      assert w.db.orgTasks[..|w.db.orgTasks|] == w.db.orgTasks;
      Fail(w, m)
    case Ready(_, _, _, _) => TransformBlocks(w, org, env.githubToken, TransformSetup(w.db.warehouses, org, env))
  }

  /** A second run after one that completed changes nothing in the store. */
  lemma TransformRerunKeepsStore(w: World, org: Org, env: OrgEnv)
    requires Completed(w, TransformMigrated(w, org, env))
    ensures TransformMigrated(TransformMigrated(w, org, env), org, env).db == TransformMigrated(w, org, env).db
  {
    var w1 := TransformMigrated(w, org, env);
    var setup := TransformSetup(w.db.warehouses, org, env);
    assert w1.db.warehouses == w.db.warehouses;
    assert TransformSetup(w1.db.warehouses, org, env) == setup;
    if setup.Ready? {
      assert w1 == TransformBlocks(w, org, env.githubToken, setup);
      assert Settled(w1.db, org, env.githubToken);
      var w2 := TransformBlocks(w1, org, env.githubToken, setup);
      assert w2.db == w1.db;
      assert TransformMigrated(w1, org, env) == w2;
    } else {
      assert w1.db == w.db;
      assert TransformMigrated(w1, org, env) == Fail(w1, setup.msg);
    }
  }
}
