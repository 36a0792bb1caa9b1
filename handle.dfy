/**
 * The command as a whole: the three migrations for each org in turn,
 * then the summary of every success and failure.
 */
module HandleSpec {
  import opened Common
  import opened Query
  import opened Model
  import opened ServerSpec
  import opened SyncSpec
  import opened TransformSpec

  /** What a run may do to the store: legacy and reference tables stay, the new tables only grow (blocks aside). */
  predicate Grows(db: Db, db': Db) {
    && db'.orgs == db.orgs && db'.warehouses == db.warehouses
    && db'.legacyBlocks == db.legacyBlocks && db'.legacyFlows == db.legacyFlows && db'.catalog == db.catalog
    && db.flows <= db'.flows && db.orgTasks <= db'.orgTasks && db.links <= db'.links
  }

  lemma GrowsTrans(a: Db, b: Db, c: Db)
    requires Grows(a, b) && Grows(b, c)
    ensures Grows(a, c)
  {
  }

  /**
   * The sync migration's goal for an org: once it has a legacy server block
   * and the catalog has the sync task, every legacy manual-sync dataflow
   * has its org task and its new dataflow.
   */
  predicate SyncDone(db: Db, org: Org) {
    Find(db.legacyBlocks, LegacyBlockIs(org, AirbyteServer)).Some? &&
    Find(db.catalog, SlugIs(AirbyteSyncSlug)).Some? ==>
      forall f :: f in db.legacyFlows && ManualSyncOf(org)(f) ==>
        HasRecords(db, org, db.catalog[Find(db.catalog, SlugIs(AirbyteSyncSlug)).value], f)
  }

  lemma SyncDoneExtend(db: Db, db': Db, org: Org)
    requires SyncDone(db, org) && Grows(db, db')
    ensures SyncDone(db', org)
  {
    var t := Find(db.catalog, SlugIs(AirbyteSyncSlug));
    if Find(db.legacyBlocks, LegacyBlockIs(org, AirbyteServer)).Some? && t.Some? {
      forall f | f in db'.legacyFlows && ManualSyncOf(org)(f) ensures HasRecords(db', org, db'.catalog[t.value], f) {
        HasRecordsExtend(db, db', org, db.catalog[t.value], f);
      }
    }
  }

  /**
   * The sync migration's goal as a rerun sees it: once the org has a new
   * server block and the catalog has the sync task, every legacy
   * manual-sync dataflow has its org task and its new dataflow.
   */
  predicate SyncSettled(db: Db, org: Org) {
    var t := Find(db.catalog, SlugIs(AirbyteSyncSlug));
    Find(db.blocks, BlockIs(org, AirbyteServer)).Some? && t.Some? ==>
      forall f :: f in Filter(db.legacyFlows, ManualSyncOf(org)) ==> HasRecords(db, org, db.catalog[t.value], f)
  }

  /** Nothing is left for a run of the three migrations of `org` to do in `db`. */
  predicate Rests(db: Db, org: Org, env: OrgEnv) {
    && ServerCopied(db, org)
    && SyncSettled(db, org)
    && (TransformSetup(db.warehouses, org, env).Ready? ==> Settled(db, org, env.githubToken))
  }

  /** No creation failed between `w` and `w''` exactly when none failed in either half. */
  lemma CompletedSplit(w: World, w': World, w'': World)
    requires LogExtends(w.log, w'.log) && LogExtends(w'.log, w''.log)
    ensures Completed(w, w'') <==> Completed(w, w') && Completed(w', w'')
  {
    forall i | |w.log.failures| <= i < |w'.log.failures| ensures w''.log.failures[i] == w'.log.failures[i] {
      assert w''.log.failures[..|w'.log.failures|][i] == w'.log.failures[i];
    }
  }

  /** The transformation migration of `org` keeps the server block and the sync records it finds. */
  lemma TransformKeepsSync(db: Db, db': Db, org: Org)
    requires db' == db.(blocks := db'.blocks, orgTasks := db'.orgTasks)
    requires AddsOwnBlocks(db.blocks, db'.blocks, org)
    requires |db.orgTasks| <= |db'.orgTasks| && db'.orgTasks[..|db.orgTasks|] == db.orgTasks
    ensures ServerCopied(db, org) ==> ServerCopied(db', org)
    ensures SyncSettled(db, org) ==> SyncSettled(db', org)
  {
    AddsOwnFind(db.blocks, db'.blocks, org, org, AirbyteServer);
    var k := Find(db.blocks, BlockIs(org, AirbyteServer));
    if k.Some? {
      assert db'.blocks[k.value] == db'.blocks[..|db.blocks|][k.value];
    }
    var t := Find(db.catalog, SlugIs(AirbyteSyncSlug));
    if SyncSettled(db, org) && k.Some? && t.Some? {
      forall f | f in Filter(db'.legacyFlows, ManualSyncOf(org)) ensures HasRecords(db', org, db'.catalog[t.value], f) {
        HasRecordsExtend(db, db', org, db.catalog[t.value], f);
      }
    }
  }

  /** The server migration gives no org a second block of any type. */
  lemma ServerKeepsSingletons(w: World, org: Org)
    ensures KeepsSingletons(w.db.blocks, ServerMigrated(w, org).db.blocks)
  {
    var w' := ServerMigrated(w, org);
    var s, s' := w.db.blocks, w'.db.blocks;
    var p := BlockIs(org, AirbyteServer);
    if Find(w.db.legacyBlocks, LegacyBlockIs(org, AirbyteServer)).Some? {
      var k := Find(s', p).value;
      if Find(s, p).None? {
        assert s'[..|s|] == s;
        forall o, u | Count(s, BlockIs(o, u)) <= 1 ensures Count(s', BlockIs(o, u)) <= 1 {
          FreshStepKeepsSingletons(s, s', org, AirbyteServer, o, u);
        }
      } else {
        forall o, u | Count(s, BlockIs(o, u)) <= 1 ensures Count(s', BlockIs(o, u)) <= 1 {
          UpdateKeepsPattern(s, k, s'[k], BlockIs(o, u));
        }
      }
    }
  }

  /** The three migrations of one org, in order. */
  function MigrateOrg(w: World, org: Org, env: OrgEnv): (w': World)
    ensures Grows(w.db, w'.db)
    ensures LogExtends(w.log, w'.log)
    ensures KeepsSingletons(w.db.blocks, w'.db.blocks)
    ensures Find(w.db.legacyBlocks, LegacyBlockIs(org, AirbyteServer)).None? ==>
              ServerBlockNotFound(org.slug) in w'.log.failures
    // the server migration hands the sync migration its server block
    ensures SyncDone(w'.db, org)
    // the org's first server block is the legacy block's copy, and the sync records exist
    ensures ServerCopied(w'.db, org) && SyncSettled(w'.db, org)
    // with the setup checks passed and no creation failed, the transformation migration is settled
    ensures TransformSetup(w.db.warehouses, org, env).Ready? && Completed(w, w') ==> Settled(w'.db, org, env.githubToken)
  {
    var w1 := ServerMigrated(w, org);
    var w2 := SyncMigrated(w1, org);
    var w3 := TransformMigrated(w2, org, env);
    ServerKeepsSingletons(w, org);
    StagesGrow(w, w1, w2, w3);
    StagesReport(w, w1, w2, w3, org, env);
    StagesSettle(w, w1, w2, w3, org, env);
    w3
  }

  /** The frame facts of the three migrations run in turn. */
  lemma StagesGrow(w: World, w1: World, w2: World, w3: World)
    requires w1.db == w.db.(blocks := w1.db.blocks) && LogExtends(w.log, w1.log)
    requires SyncFrame(w1, w2) && MigrationFrame(w2, w3)
    ensures Grows(w.db, w3.db) && LogExtends(w.log, w3.log)
  {
    assert Grows(w2.db, w3.db) by {
      assert w2.db.orgTasks <= w3.db.orgTasks;
    }
    LogExtendsTrans(w.log, w1.log, w2.log);
    LogExtendsTrans(w.log, w2.log, w3.log);
  }

  /** The missing server block's failure and the sync records, after the three migrations. */
  lemma StagesReport(w: World, w1: World, w2: World, w3: World, org: Org, env: OrgEnv)
    requires w1 == ServerMigrated(w, org) && w2 == SyncMigrated(w1, org) && w3 == TransformMigrated(w2, org, env)
    ensures Find(w.db.legacyBlocks, LegacyBlockIs(org, AirbyteServer)).None? ==>
              ServerBlockNotFound(org.slug) in w3.log.failures
    ensures SyncDone(w3.db, org)
  {
    assert Grows(w2.db, w3.db) by {
      assert w2.db.orgTasks <= w3.db.orgTasks;
    }
    assert SyncDone(w2.db, org);
    SyncDoneExtend(w2.db, w3.db, org);
    if Find(w.db.legacyBlocks, LegacyBlockIs(org, AirbyteServer)).None? {
      assert w1.log.failures[|w.log.failures|] == ServerBlockNotFound(org.slug);
      assert w3.log.failures[|w.log.failures|] == ServerBlockNotFound(org.slug);
    }
  }

  /** What the three migrations run in turn leave achieved. */
  lemma StagesSettle(w: World, w1: World, w2: World, w3: World, org: Org, env: OrgEnv)
    requires w1 == ServerMigrated(w, org) && w2 == SyncMigrated(w1, org) && w3 == TransformMigrated(w2, org, env)
    ensures ServerCopied(w3.db, org) && SyncSettled(w3.db, org)
    ensures TransformSetup(w.db.warehouses, org, env).Ready? && Completed(w, w3) ==> Settled(w3.db, org, env.githubToken)
  {
    assert ServerCopied(w2.db, org);
    assert SyncSettled(w2.db, org);
    TransformKeepsSync(w2.db, w3.db, org);
    assert LogExtends(w.log, w2.log) && LogExtends(w2.log, w3.log) by {
      LogExtendsTrans(w.log, w1.log, w2.log);
    }
    CompletedSplit(w, w2, w3);
  }

  /** A run of the three migrations on a store where nothing is left to do changes no record. */
  lemma MigrateOrgRests(w: World, org: Org, env: OrgEnv)
    requires Rests(w.db, org, env)
    ensures MigrateOrg(w, org, env).db == w.db
  {
    var w1 := ServerMigrated(w, org);
    ServerStable(w, org);
    var s := Find(w1.db.blocks, BlockIs(org, AirbyteServer));
    var t := Find(w1.db.catalog, SlugIs(AirbyteSyncSlug));
    var w2 := SyncMigrated(w1, org);
    if s.Some? && t.Some? {
      SyncLoopStable(w1, org, w1.db.blocks[s.value], w1.db.catalog[t.value], Filter(w1.db.legacyFlows, ManualSyncOf(org)));
    }
    assert w2.db == w.db;
    var w3 := TransformMigrated(w2, org, env);
    assert w3.db == w.db;
  }

  /** After a run in which no creation failed, a second run of the three migrations changes no record. */
  lemma MigrateOrgRerunKeepsStore(w: World, org: Org, env: OrgEnv)
    requires Completed(w, MigrateOrg(w, org, env))
    ensures MigrateOrg(MigrateOrg(w, org, env), org, env).db == MigrateOrg(w, org, env).db
  {
    MigrateOrgRests(MigrateOrg(w, org, env), org, env);
  }

  /** Each org of `orgs` in turn. */
  function HandleLoop(w: World, orgs: seq<Org>, env: Org -> OrgEnv): (w': World)
    ensures Grows(w.db, w'.db)
    ensures LogExtends(w.log, w'.log)
    ensures KeepsSingletons(w.db.blocks, w'.db.blocks)
    ensures forall org :: org in orgs ==> SyncDone(w'.db, org)
    ensures forall org :: org in orgs && Find(w.db.legacyBlocks, LegacyBlockIs(org, AirbyteServer)).None? ==>
              ServerBlockNotFound(org.slug) in w'.log.failures
    decreases |orgs|
  {
    if orgs == [] then w
    else
      var w1 := MigrateOrg(w, orgs[0], env(orgs[0]));
      var w2 := HandleLoop(w1, orgs[1..], env);
      GrowsTrans(w.db, w1.db, w2.db);
      LogExtendsTrans(w.log, w1.log, w2.log);
      SyncDoneExtend(w1.db, w2.db, orgs[0]);
      assert forall org :: org in orgs ==> org == orgs[0] || org in orgs[1..];
      assert ServerBlockNotFound(orgs[0].slug) in w1.log.failures ==>
               ServerBlockNotFound(orgs[0].slug) in w2.log.failures by {
        assert w2.log.failures[..|w1.log.failures|] == w1.log.failures;
      }
      w2
  }

  /** One step of the loop over the orgs, from position `i`. */
  lemma HandleLoopStep(w: World, orgs: seq<Org>, env: Org -> OrgEnv, i: nat)
    requires i < |orgs|
    ensures HandleLoop(w, orgs[i..], env) == HandleLoop(MigrateOrg(w, orgs[i], env(orgs[i])), orgs[i + 1..], env)
  {
    assert orgs[i..][0] == orgs[i] && orgs[i..][1..] == orgs[i + 1..];
  }

  // ---------- the other orgs ----------

  /** `org`'s blocks keep their positions and `org`'s first block of each type stays the first. */
  predicate KeepsOrgBlocks(s: seq<Block>, s': seq<Block>, org: Org) {
    && (forall t :: Find(s', BlockIs(org, t)) == Find(s, BlockIs(org, t)))
    && (forall i :: 0 <= i < |s| && s[i].org == org ==> i < |s'| && s'[i] == s[i])
  }

  lemma KeepsOrgBlocksTrans(a: seq<Block>, b: seq<Block>, c: seq<Block>, org: Org)
    requires KeepsOrgBlocks(a, b, org) && KeepsOrgBlocks(b, c, org)
    ensures KeepsOrgBlocks(a, c, org)
  {
  }

  /** What the migrations of `org` achieved stays achieved while the store grows around `org`'s blocks. */
  lemma StaysSettled(db: Db, db': Db, org: Org, token: Option<string>)
    requires Grows(db, db') && KeepsOrgBlocks(db.blocks, db'.blocks, org)
    ensures ServerCopied(db, org) ==> ServerCopied(db', org)
    ensures SyncSettled(db, org) ==> SyncSettled(db', org)
    ensures Settled(db, org, token) ==> Settled(db', org, token)
  {
    var k := Find(db.blocks, BlockIs(org, AirbyteServer));
    assert Find(db'.blocks, BlockIs(org, AirbyteServer)) == k;
    assert Find(db'.blocks, BlockIs(org, DbtCliProfile)) == Find(db.blocks, BlockIs(org, DbtCliProfile));
    assert Find(db'.blocks, BlockIs(org, Secret)) == Find(db.blocks, BlockIs(org, Secret));
    var t := Find(db.catalog, SlugIs(AirbyteSyncSlug));
    if SyncSettled(db, org) && k.Some? && t.Some? {
      forall f | f in Filter(db'.legacyFlows, ManualSyncOf(org)) ensures HasRecords(db', org, db'.catalog[t.value], f) {
        HasRecordsExtend(db, db', org, db.catalog[t.value], f);
      }
    }
    if Settled(db, org, token) {
      forall b | b in Filter(db'.legacyBlocks, TransformBlockOf(org)) ensures HasOrgTask(db', org, b) {
        HasOrgTaskExtend(db, db', org, b);
      }
    }
  }

  /** The server migration of another org leaves `org`'s blocks alone. */
  lemma ServerLeaves(w: World, o: Org, org: Org)
    requires o != org
    ensures KeepsOrgBlocks(w.db.blocks, ServerMigrated(w, o).db.blocks, org)
  {
    var s := w.db.blocks;
    var s' := ServerMigrated(w, o).db.blocks;
    if Find(w.db.legacyBlocks, LegacyBlockIs(o, AirbyteServer)).Some? {
      var k := Find(s', BlockIs(o, AirbyteServer)).value;
      if Find(s, BlockIs(o, AirbyteServer)).None? {
        forall t ensures Find(s', BlockIs(org, t)) == Find(s, BlockIs(org, t)) {
          FindAppend(s, s'[k], BlockIs(org, t));
        }
      } else {
        forall t ensures Find(s', BlockIs(org, t)) == Find(s, BlockIs(org, t)) {
          UpdateKeepsPattern(s, k, s'[k], BlockIs(org, t));
        }
      }
    }
  }

  /** The three migrations of another org leave `org`'s blocks alone. */
  lemma MigrateOrgLeaves(w: World, o: Org, env: OrgEnv, org: Org)
    requires o != org
    ensures KeepsOrgBlocks(w.db.blocks, MigrateOrg(w, o, env).db.blocks, org)
  {
    var w1 := ServerMigrated(w, o);
    ServerLeaves(w, o, org);
    var w2 := SyncMigrated(w1, o);
    var w3 := TransformMigrated(w2, o, env);
    forall t ensures Find(w3.db.blocks, BlockIs(org, t)) == Find(w2.db.blocks, BlockIs(org, t)) {
      AddsOwnFind(w2.db.blocks, w3.db.blocks, o, org, t);
    }
    KeepsOrgBlocksTrans(w.db.blocks, w1.db.blocks, w3.db.blocks, org);
  }

  /** Migrating orgs other than `org` leaves `org`'s blocks alone. */
  lemma {:induction false} HandleLoopLeaves(w: World, orgs: seq<Org>, env: Org -> OrgEnv, org: Org)
    requires org !in orgs
    ensures KeepsOrgBlocks(w.db.blocks, HandleLoop(w, orgs, env).db.blocks, org)
    decreases |orgs|
  {
    if orgs != [] {
      var w1 := MigrateOrg(w, orgs[0], env(orgs[0]));
      MigrateOrgLeaves(w, orgs[0], env(orgs[0]), org);
      HandleLoopLeaves(w1, orgs[1..], env, org);
      KeepsOrgBlocksTrans(w.db.blocks, w1.db.blocks, HandleLoop(w1, orgs[1..], env).db.blocks, org);
    }
  }

  /**
   * After the loop every org has its server block copied and its sync
   * records, and when no creation failed nothing is left to do for any org.
   */
  lemma {:induction false} HandleLoopSettles(w: World, orgs: seq<Org>, env: Org -> OrgEnv)
    ensures forall org :: org in orgs ==>
              ServerCopied(HandleLoop(w, orgs, env).db, org) && SyncSettled(HandleLoop(w, orgs, env).db, org)
    ensures Completed(w, HandleLoop(w, orgs, env)) ==>
              forall org :: org in orgs ==> Rests(HandleLoop(w, orgs, env).db, org, env(org))
    decreases |orgs|
  {
    if orgs != [] {
      var org := orgs[0];
      var w1 := MigrateOrg(w, org, env(org));
      var w2 := HandleLoop(w1, orgs[1..], env);
      HandleLoopSettles(w1, orgs[1..], env);
      CompletedSplit(w, w1, w2);
      if org !in orgs[1..] {
        HandleLoopLeaves(w1, orgs[1..], env, org);
        StaysSettled(w1.db, w2.db, org, env(org).githubToken);
      }
      assert forall o :: o in orgs ==> o == org || o in orgs[1..];
    }
  }

  /** A second run of the whole loop, after one in which no creation failed, changes no record. */
  lemma HandleRerunKeepsStore(w: World, orgs: seq<Org>, env: Org -> OrgEnv)
    requires Completed(w, HandleLoop(w, orgs, env))
    ensures HandleLoop(HandleLoop(w, orgs, env), orgs, env).db == HandleLoop(w, orgs, env).db
  {
    HandleLoopSettles(w, orgs, env);
    HandleLoopRests(HandleLoop(w, orgs, env), orgs, env);
  }

  /** The loop over orgs for each of which nothing is left to do changes no record. */
  lemma {:induction false} HandleLoopRests(w: World, orgs: seq<Org>, env: Org -> OrgEnv)
    requires forall org :: org in orgs ==> Rests(w.db, org, env(org))
    ensures HandleLoop(w, orgs, env).db == w.db
    decreases |orgs|
  {
    if orgs != [] {
      MigrateOrgRests(w, orgs[0], env(orgs[0]));
      var w1 := MigrateOrg(w, orgs[0], env(orgs[0]));
      assert forall org :: org in orgs[1..] ==> org in orgs;
      HandleLoopRests(w1, orgs[1..], env);
    }
  }

  // ---------- the summary ----------

  /** A printed line of the summary. */
  datatype Line = Rule | Heading(title: string) | SuccessLine(msg: Msg) | FailureLine(msg: Msg)

  function Banner(title: string): seq<Line> {
    [Rule, Heading(title), Rule]
  }

  /** One line per message, in order. */
  function Lines(ms: seq<Msg>, success: bool): (ls: seq<Line>)
    ensures |ls| == |ms|
    ensures forall i :: 0 <= i < |ms| ==> ls[i] == if success then SuccessLine(ms[i]) else FailureLine(ms[i])
  {
    if ms == [] then [] else Lines(ms[..|ms| - 1], success) + [if success then SuccessLine(ms[|ms| - 1]) else FailureLine(ms[|ms| - 1])]
  }

  /** The summary: every success under its banner, then every failure under its banner, each in order. */
  function Summary(log: Log): (ls: seq<Line>)
    ensures |ls| == 6 + |log.successes| + |log.failures|
    ensures ls[..3] == Banner("SUCCESSES")
    ensures forall i :: 0 <= i < |log.successes| ==> ls[3 + i] == SuccessLine(log.successes[i])
    ensures ls[3 + |log.successes|..6 + |log.successes|] == Banner("FAILURES")
    ensures forall i :: 0 <= i < |log.failures| ==> ls[6 + |log.successes| + i] == FailureLine(log.failures[i])
  {
    Banner("SUCCESSES") + Lines(log.successes, true) + Banner("FAILURES") + Lines(log.failures, false)
  }
}
