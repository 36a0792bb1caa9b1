# Tasks-architecture migration command, modelled in Dafny

This project models the Django management command
`ddpui/management/commands/run-tasks-migrate-cmd.py`. The command moves an
org's legacy orchestration "blocks" onto the newer "tasks" tables. For each
org, in order, it runs three migrations:

1. **Server block.** It copies the org's legacy Airbyte server block into
   exactly one new block, creating the block or updating it in place.
2. **Manual-sync deployments.** For each legacy manual dataflow whose
   deployment name starts with `manual-sync`, it makes sure the org task,
   the new dataflow and the link between them exist. It then rewrites the
   deployment's `config` parameter on the orchestration service and reads
   it back.
3. **Transformation blocks.** It makes sure the org has a dbt CLI profile
   block. For a private repository it also makes sure of a secret block
   holding the repository URL with the access token embedded. It then maps
   every legacy dbt-core or shell-operation block to a catalog task and
   gives the org an org task for it.

Every step appends messages to two lists, `successes` and `failures`. At
the end the command prints all successes, then all failures.

The model has two layers.

* **Value level** (modules `ServerSpec`, `SyncSpec`, `TransformSpec`,
  `HandleSpec`).
  * A *world* is the database, the orchestration service and the two
    message lists.
  * Each migration is a function from world to world. Its contract states
    what the source promises: which records are created, and only when
    absent; what stays the same on every early return; the shape of the
    rewritten parameters; and the skip policy for remote failures.
  * Lemmas relate the functions. No org gains a second block of any type.
    The server migration hands the sync migration its server block. After
    a run of the whole command in which no block creation failed, every
    org is left with nothing to do, and a second run of the whole command
    changes no record (`HandleSpec.HandleRerunKeepsStore`). The same holds
    for each migration, and for the three migrations of one org.
* **Imperative level** (module `Migrate`).
  * Class `Store` holds one `seq` field per table. Class `Prefect` holds
    the service's deployments, the blocks it has created and its fault
    schedule. Class `Command` holds `failures`, `successes` and the two
    services.
  * Each method works through the source's steps, loops and early
    returns. It ends in the state its value-level function computes.

Supporting modules:

* `Common` defines `Option` and `Outcome`.
* `Query` models the ORM's `.first()`, `.count()` and `.all()` on a table
  kept in primary-key order.
* `Text` models `str.replace` and `str.split(sep)[-1]`.
* `Model` holds the records, the messages, the JSON parameters and the
  orchestration service.

### Design choices

* **Database.** Every table is a sequence in primary-key order, and a
  row's position is its primary key. Nothing is ever deleted, so a
  position stays valid.
* **Orchestration service.** It is a record of deployment parameters and
  created blocks, plus a fault schedule, `Remote.faults`. Each remote call
  consumes one entry of the schedule; a `true` entry means that call
  raises. A fetch or update of an unknown deployment also fails. In the
  source, the service's error for it is raised by the fetch, inside the
  `try` at lines 196-204.
* **Per-org facts.** The secrets manager, the Airbyte destination lookup
  and the filesystem checks are not modelled. What each yields for an org
  is an `OrgEnv` record, and the command receives one per org as the
  function `env`:
  * the warehouse credentials, or a failure;
  * the BigQuery dataset location, or a failure;
  * the dbt project's state: no venv, no project file, no `profile` key,
    or the profile name;
  * the GitHub token.
* **Messages.** Each message is a `Msg` constructor carrying the values
  its f-string interpolates. The wording is not modelled.
* **Constants.** `ddpui/utils/constants.py` and `ddpui/ddpprefect/__init__.py`
  are not part of this model. The constants they define appear as named
  Dafny constants in `Model`, with the repository's values:
  * `TASK_AIRBYTESYNC` is `"airbyte-sync"`;
  * `TASK_GITPULL` is `"git-pull"`;
  * `AIRBYTE_SYNC_TIMEOUT` is `15`;
  * `AIRBYTECONNECTION` is `"Airbyte Connection"`.
  The block types are the datatype `BlockType`.

### Where the code and its description differ

* **Line 97.** `migrate_airbyte_server_blocks` returns `new_block`. That is
  the updated block when one existed, and `None` when the block was just
  created. `Migrate.Command.MigrateAirbyteServerBlocks` returns exactly
  that.
* **Line 402.** When a git-pull block finds no task, the failure message
  interpolates `old_cmd`. That is the command left over from the last
  non-git-pull block. The model carries that value through the loop
  (`TransformSpec.CarriedCommand`) and uses `None` where the source would
  have no value at all.
* **Lines 153-192, a dataflow without its link.** Every run counts the
  links between the dataflow and the org task, but only a run that creates
  the dataflow creates the link. A dataflow that exists without its link,
  for example after a crash between lines 157 and 166, is never linked
  again: each rerun appends one more "0 links" failure and leaves the links
  as they were (`SyncSpec.LinkNeverRepaired`). The design describes every
  manual-sync dataflow as ending with exactly one org task and link, and
  the command as safe to re-run. The model follows the code: its sync
  goal, `SyncSpec.HasRecords`, asks for the org task and the dataflow, not
  the link.
* **Lines 240-247.** In the model, the check on the re-fetched parameters
  can never report a missing `config`. The update just wrote `config`, and
  the service is taken to keep what it is given. `SyncSpec.SyncRemote`
  states this outcome.

## Model

| member | source | states |
|---|---|---|
| Query.Find | ddpui/management/commands/run-tasks-migrate-cmd.py:54-57 | `.filter(...).first()`: the first matching row's position; `None` exactly when no row matches |
| Query.Count | ddpui/management/commands/run-tasks-migrate-cmd.py:85-87 | `.filter(...).count()`: at most the table's size, and zero exactly when no row matches |
| Query.Filter | ddpui/management/commands/run-tasks-migrate-cmd.py:387-389 | `.filter(...).all()`: exactly the matching rows, each as often as the table holds it, as many as `Count` gives |
| Text.ReplaceAll | ddpui/management/commands/run-tasks-migrate-cmd.py:356-358 | `str.replace`: a string with no occurrence of the pattern is returned unchanged |
| Text.ReplaceAtFirst | ddpui/management/commands/run-tasks-migrate-cmd.py:356-358 | the text before the first occurrence is kept, that occurrence is replaced, and the scan goes on after it |
| Text.LastPiece | ddpui/management/commands/run-tasks-migrate-cmd.py:396-398 | `split(sep)[-1]`: a suffix of the input containing no separator, preceded by a separator or equal to the whole input; the whole input when it holds no separator |
| Text.LastPieceAfterFirst | ddpui/management/commands/run-tasks-migrate-cmd.py:396-398 | the scan resumes after the first separator: with none starting before it, the last piece of `p + sep + q` is that of `q`. Together with the no-separator case this fixes the piece, also for a separator that overlaps itself |
| Text.LastPieceOverlapping | ddpui/management/commands/run-tasks-migrate-cmd.py:396-398 | `"a-a-a-run".split("a-a-")[-1]` is `"a-run"` |
| Text.LastPieceOverlappingPair | ddpui/management/commands/run-tasks-migrate-cmd.py:396-398 | `"aaa".split("aa")[-1]` is `"a"` |
| Text.LastPieceSingle | ddpui/management/commands/run-tasks-migrate-cmd.py:396-398 | with a single separator, the last piece is exactly the text after it |
| Model.GetDeployment | ddpui/management/commands/run-tasks-migrate-cmd.py:196-204 | a fetch succeeds exactly when the call does not raise and the deployment exists, and then yields its parameters; it uses up one call |
| Model.UpdateDeployment | ddpui/management/commands/run-tasks-migrate-cmd.py:217-235 | an update succeeds exactly when the call does not raise and the deployment exists; only then are the parameters replaced |
| Model.CreateBlock | ddpui/management/commands/run-tasks-migrate-cmd.py:316-323 | a block creation succeeds exactly when the call does not raise; the service then records the block and returns a fresh id |
| ServerSpec.ServerMigrated | ddpui/management/commands/run-tasks-migrate-cmd.py:53-97 | with no legacy block, one failure and nothing else. Otherwise the first new server block carries the legacy id and name. It is created only when absent, otherwise updated in place. The count check reports its success. Only the block table changes |
| ServerSpec.ServerRerunKeepsStore | ddpui/management/commands/run-tasks-migrate-cmd.py:62-82 | a second server migration leaves the database as the first left it |
| ServerSpec.ServerStable | ddpui/management/commands/run-tasks-migrate-cmd.py:53-97 | once the org's first server block carries the legacy block's id and name, the server migration changes no record |
| SyncSpec.SyncTaskConfig | ddpui/management/commands/run-tasks-migrate-cmd.py:207-214 | the task entry has exactly the six keys, with seq 1, the sync slug, the Airbyte connection type, the timeout, the server block's name and the connection id, null when absent |
| SyncSpec.SyncParams | ddpui/management/commands/run-tasks-migrate-cmd.py:206-215 | the new parameters are the fetched ones with only `config` set, and `config` is exactly `{"tasks": [the task config]}`. The one task entry has seq 1, the sync slug, the connection id, the timeout and the server block's name |
| SyncSpec.SyncParamsAgain | ddpui/management/commands/run-tasks-migrate-cmd.py:215 | rewriting parameters a second time replaces the first rewrite: only the last connection's task remains |
| SyncSpec.SyncPayload | ddpui/management/commands/run-tasks-migrate-cmd.py:218-224 | the payload carries the new parameters, the dataflow's name, no connections and transform mode `ignore`; its cron is the dataflow's when that is present and non-empty, and "" otherwise |
| SyncSpec.EnsureOrgTask | ddpui/management/commands/run-tasks-migrate-cmd.py:128-139 | the org task for (org, task, connection) exists afterwards and is created only when none matched |
| SyncSpec.EnsureFlow | ddpui/management/commands/run-tasks-migrate-cmd.py:153-166 | afterwards the search for the deployment finds the dataflow at the returned position. A dataflow, and a link from it to the org task, are created only when the search found none |
| SyncSpec.CountCheck | ddpui/management/commands/run-tasks-migrate-cmd.py:168-192 | a zero count appends its failure and any other count its success; nothing else changes |
| SyncSpec.SyncRemote | ddpui/management/commands/run-tasks-migrate-cmd.py:194-254 | at most this dataflow's deployment is rewritten, for its connection. A failing first fetch or update, or an unknown deployment, leaves the lists and the parameters as they were. Otherwise the deployment gets the new `config`, and the log gains exactly the re-fetch failure or the verified success |
| SyncSpec.OrgTaskStage | ddpui/management/commands/run-tasks-migrate-cmd.py:128-151 | the org task exists afterwards at the returned position and is created only when absent. The count found is reported as a success, so the zero-count return is never taken |
| SyncSpec.FlowChecks | ddpui/management/commands/run-tasks-migrate-cmd.py:168-192 | the dataflow count is reported as a success. The link count is reported as a success when positive, and a zero link count as the failure |
| SyncSpec.FlowStage | ddpui/management/commands/run-tasks-migrate-cmd.py:153-192 | the new dataflow exists afterwards. A created one copies the legacy name, deployment name, id and cron, and only then is a link added. The dataflow count is reported, and so is the count of links from the dataflow to the org task: as a success when positive, as the failure when zero |
| SyncSpec.SyncRecords | ddpui/management/commands/run-tasks-migrate-cmd.py:121-192 | the org task and the new dataflow of the legacy dataflow exist afterwards, each created only when absent. The log gains exactly the org-task count, the dataflow count and the link count, or the missing-link failure |
| SyncSpec.SyncOne | ddpui/management/commands/run-tasks-migrate-cmd.py:119-192 | one legacy dataflow. Its records exist, each created only when absent, and a created dataflow is linked to its org task |
| SyncSpec.SyncOneDeployment | ddpui/management/commands/run-tasks-migrate-cmd.py:194-254 | when fetch and update go through, the deployment carries the new config for the dataflow's connection and, unless the re-fetch fails, the verified success is logged. At most that deployment changes |
| SyncSpec.LinkNeverRepaired | ddpui/management/commands/run-tasks-migrate-cmd.py:153-192 | a dataflow that exists without its link to the org task stays without it: an iteration adds no link and logs the missing-link failure |
| SyncSpec.SyncLoop | ddpui/management/commands/run-tasks-migrate-cmd.py:119-254 | every legacy dataflow of the loop ends with its records; only the three new tables and the lists grow |
| SyncSpec.SyncLoopRewrites | ddpui/management/commands/run-tasks-migrate-cmd.py:119-254 | the loop keeps the set of deployments, and each deployment it changes belongs to a dataflow of the loop and carries the new config for that dataflow's connection |
| SyncSpec.Rewritten | ddpui/management/commands/run-tasks-migrate-cmd.py:119-235 | the deployments after every dataflow's update went through, in loop order; the set of deployments stays |
| SyncSpec.RewrittenUntouched | ddpui/management/commands/run-tasks-migrate-cmd.py:119-235 | a deployment no dataflow names keeps its parameters |
| SyncSpec.RewrittenLast | ddpui/management/commands/run-tasks-migrate-cmd.py:206-235 | a deployment ends with the parameters the last dataflow naming it wrote, for that dataflow's connection |
| SyncSpec.RewrittenLastAll | ddpui/management/commands/run-tasks-migrate-cmd.py:206-235 | the same, for every deployment the loop names |
| SyncSpec.RewrittenSetsConfig | ddpui/management/commands/run-tasks-migrate-cmd.py:206-235 | every deployment a dataflow of the loop names ends with a `config` |
| SyncSpec.LastExists | ddpui/management/commands/run-tasks-migrate-cmd.py:119-121 | every dataflow's deployment has a last dataflow naming it |
| SyncSpec.SyncRemoteFaultFree | ddpui/management/commands/run-tasks-migrate-cmd.py:194-254 | the remote calls of one dataflow leave a schedule with no fault still without one |
| SyncSpec.FaultFreeOne | ddpui/management/commands/run-tasks-migrate-cmd.py:194-254 | with no fault, one iteration rewrites its deployment, if the service has it, and logs that the parameters were verified |
| SyncSpec.FaultFreeLoopDeployments | ddpui/management/commands/run-tasks-migrate-cmd.py:119-254 | with no fault, the loop leaves exactly the deployments `Rewritten` gives |
| SyncSpec.FaultFreeLoopVerifies | ddpui/management/commands/run-tasks-migrate-cmd.py:119-254 | with no fault, the loop logs the verification of every deployment a dataflow names and the service has |
| SyncSpec.SyncMigratedSetsConfig | ddpui/management/commands/run-tasks-migrate-cmd.py:99-254 | with no fault and both the server block and the sync task present: the deployments are those `Rewritten` gives over the manual-sync dataflows; each one named ends with the parameters for the connection of the last dataflow naming it, carries a `config`, and has its verification logged |
| SyncSpec.SyncLoopStep | ddpui/management/commands/run-tasks-migrate-cmd.py:119-254 | one iteration of the loop, returning early when the iteration returns |
| SyncSpec.SyncFromLoop | ddpui/management/commands/run-tasks-migrate-cmd.py:119-254 | the loop from position `i` on is the loop over the remaining dataflows |
| SyncSpec.SyncMigrated | ddpui/management/commands/run-tasks-migrate-cmd.py:99-254 | with no server block, nothing happens; with no sync task in the catalog, one failure. Otherwise every legacy manual-sync dataflow ends with its org task and new dataflow, the set of deployments stays, and each deployment that changes belongs to one of them and carries the new config for its connection |
| SyncSpec.SyncOneStable | ddpui/management/commands/run-tasks-migrate-cmd.py:134-166 | a dataflow whose records exist creates nothing |
| SyncSpec.SyncLoopStable | ddpui/management/commands/run-tasks-migrate-cmd.py:119-166 | a loop over dataflows whose records all exist leaves the database unchanged |
| SyncSpec.SyncRerunKeepsStore | ddpui/management/commands/run-tasks-migrate-cmd.py:99-254 | a second sync migration creates no record |
| TransformSpec.EmbedToken | ddpui/management/commands/run-tasks-migrate-cmd.py:356-358 | a URL that does not name `github.com` is left as it is |
| TransformSpec.EmbedTokenOnce | ddpui/management/commands/run-tasks-migrate-cmd.py:355-358 | for a URL naming `github.com` once, the token lands before the host as `oauth2:<token>@` and nothing else changes |
| TransformSpec.BlockCommand | ddpui/management/commands/run-tasks-migrate-cmd.py:393-398 | a git-pull block has no command. Any other block's command ends its name, contains no `<schema>-` separator, and is the whole name or follows such a separator |
| TransformSpec.BlockCommandAfterFirst | ddpui/management/commands/run-tasks-migrate-cmd.py:393-398 | the command of a name `p + "<schema>-" + q`, no separator starting within `p`, is the last piece of `q` |
| TransformSpec.OverlappingSchemaCommand | ddpui/management/commands/run-tasks-migrate-cmd.py:396-398 | a block named `a-a-a-run` under schema `a-a` runs `a-run` |
| TransformSpec.CommandOfSchemaName | ddpui/management/commands/run-tasks-migrate-cmd.py:396-398 | a block named `<schema>-<command>`, the separator occurring once, maps to that command |
| TransformSpec.InferTask | ddpui/management/commands/run-tasks-migrate-cmd.py:391-399 | a git-pull block maps to the first task with the git-pull slug. Any other block maps to the first task whose slug ends with its command. None is returned exactly when no task qualifies |
| TransformSpec.CarriedCommand | ddpui/management/commands/run-tasks-migrate-cmd.py:393-402 | a git-pull block leaves the command of an earlier block in place; any other block sets its own command |
| TransformSpec.TransformSetup | ddpui/management/commands/run-tasks-migrate-cmd.py:261-306 | the checks in source order: warehouse, credentials, BigQuery location, venv, project file, profile key. The first check that fails gives its own failure, and when all pass the setup is ready, with the location only for BigQuery. Ready only when each check passed |
| TransformSpec.CliProfileStage | ddpui/management/commands/run-tasks-migrate-cmd.py:308-337 | an existing CLI profile block is reused unchanged. Otherwise one named `<slug>-<profile>` is created remotely and locally, or a failed creation logs its failure and stops |
| TransformSpec.SecretStage | ddpui/management/commands/run-tasks-migrate-cmd.py:347-378 | an existing secret block, or an absent or empty token, leaves everything as it was. Otherwise a `<slug>-git-pull-url` block holding the token-bearing URL is created, or a failed creation logs its failure and stops |
| TransformSpec.FreshStepKeepsSingletons | ddpui/management/commands/run-tasks-migrate-cmd.py:309-312 | creating a block only when the org has none of its type never gives any org two of a type |
| TransformSpec.AssignTask | ddpui/management/commands/run-tasks-migrate-cmd.py:408-415 | an org task for (org, task) exists afterwards and is created only when absent. The successes gain the two creation reports only when it is created, then the count, which is at least one |
| TransformSpec.TransformOne | ddpui/management/commands/run-tasks-migrate-cmd.py:390-415 | a block with no task logs the two failures and changes nothing else. A block with a task logs its slug and has the task assigned |
| TransformSpec.TransformLoop | ddpui/management/commands/run-tasks-migrate-cmd.py:390-415 | every block of the loop whose task exists ends with an org task for it; only org tasks and the lists grow |
| TransformSpec.TransformLoopStable | ddpui/management/commands/run-tasks-migrate-cmd.py:408-412 | a loop over blocks whose org tasks exist changes nothing in the database |
| TransformSpec.ReportCliProfile | ddpui/management/commands/run-tasks-migrate-cmd.py:339-345 | the block in use and the count are reported as two successes |
| TransformSpec.ReportSecret | ddpui/management/commands/run-tasks-migrate-cmd.py:380-384 | the repository is reported private exactly when the org has a secret block, then the number of secret blocks |
| TransformSpec.SecretAndTasks | ddpui/management/commands/run-tasks-migrate-cmd.py:347-415 | completed, it leaves the org settled (secret block unless there is no token, org tasks for every mapped block); a settled org is left unchanged |
| TransformSpec.SecretAndTasksAborts | ddpui/management/commands/run-tasks-migrate-cmd.py:363-370 | a failed secret creation logs its one failure and changes no record |
| TransformSpec.SecretAndTasksVisibility | ddpui/management/commands/run-tasks-migrate-cmd.py:380-382 | when the secret stage goes through, this run reports the repository exactly once, as private exactly when the org then has a secret block |
| TransformSpec.SecretAndTasksReports | ddpui/management/commands/run-tasks-migrate-cmd.py:347-382 | this run reports the repository's visibility exactly when the secret creation did not fail, and then as private exactly when the org has a secret block |
| TransformSpec.AddsOwnFind | ddpui/management/commands/run-tasks-migrate-cmd.py:308-378 | blocks added only for the org, none a server block, leave every other org's first block of each type, and the org's server block, where they were |
| TransformSpec.TransformBlocks | ddpui/management/commands/run-tasks-migrate-cmd.py:308-415 | only blocks and org tasks grow, and no org gains a second block of a type. A run cut short by no failed creation leaves the org settled, a settled org is left unchanged, and only the org's own non-server blocks are added |
| TransformSpec.TransformMigrated | ddpui/management/commands/run-tasks-migrate-cmd.py:256-415 | a failed setup check logs one failure and changes nothing else. Otherwise as `TransformBlocks`; deployments are never touched, and only the org's own CLI profile and secret blocks are added |
| TransformSpec.TransformRerunKeepsStore | ddpui/management/commands/run-tasks-migrate-cmd.py:256-415 | after a run that no failed block creation cut short, a second run changes nothing in the database |
| HandleSpec.ServerKeepsSingletons | ddpui/management/commands/run-tasks-migrate-cmd.py:62-82 | the server migration never gives any org two blocks of a type |
| HandleSpec.MigrateOrg | ddpui/management/commands/run-tasks-migrate-cmd.py:418-421 | the three migrations in order keep the legacy and reference tables, only grow dataflows, org tasks, links and the lists, and never give an org a second block of a type. A missing legacy server block is reported as a failure. An org with a legacy server block and a seeded sync task ends with the org task and new dataflow of every manual-sync dataflow. The org's first server block is the copy of its legacy block, and with the setup checks passed and no failed block creation the org is settled |
| HandleSpec.MigrateOrgRests | ddpui/management/commands/run-tasks-migrate-cmd.py:418-421 | the three migrations of an org for which nothing is left to do change no record |
| HandleSpec.MigrateOrgRerunKeepsStore | ddpui/management/commands/run-tasks-migrate-cmd.py:418-421 | after a run of an org's three migrations in which no block creation failed, a second run changes no record |
| HandleSpec.MigrateOrgLeaves | ddpui/management/commands/run-tasks-migrate-cmd.py:418-421 | the three migrations of one org leave every other org's blocks in place and each of its first blocks first |
| HandleSpec.HandleLoop | ddpui/management/commands/run-tasks-migrate-cmd.py:418-421 | over all orgs the same holds: the legacy and reference tables stay, the lists only grow, no org gains duplicate blocks, every org without a legacy server block is reported, and every org with one ends with its sync records. `HandleLoopSettles` adds the server-block copy and the settled orgs |
| HandleSpec.HandleLoopStep | ddpui/management/commands/run-tasks-migrate-cmd.py:418-421 | one org of the loop |
| HandleSpec.HandleLoopSettles | ddpui/management/commands/run-tasks-migrate-cmd.py:417-421 | after the loop every org has its server block copied and its sync records; when no block creation failed, nothing is left to do for any org |
| HandleSpec.HandleLoopRests | ddpui/management/commands/run-tasks-migrate-cmd.py:417-421 | the loop over orgs for which nothing is left to do changes no record |
| HandleSpec.HandleRerunKeepsStore | ddpui/management/commands/run-tasks-migrate-cmd.py:417-421 | after a run of the whole command in which no block creation failed, a second run changes no record |
| HandleSpec.Lines | ddpui/management/commands/run-tasks-migrate-cmd.py:427-433 | one line per message, in order |
| HandleSpec.Summary | ddpui/management/commands/run-tasks-migrate-cmd.py:423-433 | the summary: the success banner, every success in order, the failure banner, every failure in order |
| Migrate.Store.CreateBlock | ddpui/management/commands/run-tasks-migrate-cmd.py:70-75 | a block row is appended and no other table changes |
| Migrate.Store.SaveBlock | ddpui/management/commands/run-tasks-migrate-cmd.py:80-82 | the block row is replaced in place and no other table changes |
| Migrate.Store.CreateFlow | ddpui/management/commands/run-tasks-migrate-cmd.py:157-164 | a dataflow row is appended at the next position |
| Migrate.Store.CreateOrgTask | ddpui/management/commands/run-tasks-migrate-cmd.py:135-139 | an org-task row is appended at the next position |
| Migrate.Store.CreateLink | ddpui/management/commands/run-tasks-migrate-cmd.py:166 | a link row is appended |
| Migrate.Prefect.GetDeployment | ddpui/management/commands/run-tasks-migrate-cmd.py:197 | the service call behaves as `Model.GetDeployment` |
| Migrate.Prefect.UpdateDataflow | ddpui/management/commands/run-tasks-migrate-cmd.py:225 | the service call behaves as `Model.UpdateDeployment` |
| Migrate.Prefect.CreateDbtCliProfileBlock | ddpui/management/commands/run-tasks-migrate-cmd.py:316-323 | the service call behaves as `Model.CreateBlock` on a CLI profile block |
| Migrate.Prefect.CreateSecretBlock | ddpui/management/commands/run-tasks-migrate-cmd.py:364 | the service call behaves as `Model.CreateBlock` on a secret block |
| Migrate.Command.constructor | ddpui/management/commands/run-tasks-migrate-cmd.py:46-48 | both lists start empty |
| Migrate.Command.AddSuccess | ddpui/management/commands/run-tasks-migrate-cmd.py:93-95 | appends one success |
| Migrate.Command.AddFailure | ddpui/management/commands/run-tasks-migrate-cmd.py:59 | appends one failure |
| Migrate.Command.MigrateAirbyteServerBlocks | ddpui/management/commands/run-tasks-migrate-cmd.py:53-97 | leaves the state `ServerSpec.ServerMigrated` gives. Returns the updated block when one existed, otherwise nothing |
| Migrate.Command.SyncOrgTask | ddpui/management/commands/run-tasks-migrate-cmd.py:128-151 | leaves the state and position `SyncSpec.OrgTaskStage` gives |
| Migrate.Command.SyncFlow | ddpui/management/commands/run-tasks-migrate-cmd.py:153-192 | leaves the state and position `SyncSpec.FlowStage` gives |
| Migrate.Command.ReportConfig | ddpui/management/commands/run-tasks-migrate-cmd.py:240-247 | appends the verification success when the re-fetched parameters hold `config`, and the missing-config failure otherwise |
| Migrate.Command.SyncDeployment | ddpui/management/commands/run-tasks-migrate-cmd.py:194-254 | leaves the state `SyncSpec.SyncRemote` gives, each remote failure skipping as the source does |
| Migrate.Command.SyncDataflow | ddpui/management/commands/run-tasks-migrate-cmd.py:121-254 | leaves the state `SyncSpec.SyncOne` gives |
| Migrate.Command.SyncDataflows | ddpui/management/commands/run-tasks-migrate-cmd.py:119-254 | the loop's invariant ties the state after `i` iterations to `SyncSpec.SyncFrom`, so the loop leaves the state `SyncSpec.SyncLoop` gives |
| Migrate.Command.MigrateManualSyncConnDeployments | ddpui/management/commands/run-tasks-migrate-cmd.py:99-254 | leaves the state `SyncSpec.SyncMigrated` gives |
| Migrate.Command.EnsureCliProfileBlock | ddpui/management/commands/run-tasks-migrate-cmd.py:308-337 | leaves the state and block `TransformSpec.CliProfileStage` gives |
| Migrate.Command.EnsureSecretBlock | ddpui/management/commands/run-tasks-migrate-cmd.py:347-378 | leaves the state and stop flag `TransformSpec.SecretStage` gives |
| Migrate.Command.AssignOrgTask | ddpui/management/commands/run-tasks-migrate-cmd.py:408-415 | leaves the state `TransformSpec.AssignTask` gives |
| Migrate.Command.MigrateBlock | ddpui/management/commands/run-tasks-migrate-cmd.py:391-415 | leaves the state `TransformSpec.TransformOne` gives |
| Migrate.Command.MigrateSecretAndTasks | ddpui/management/commands/run-tasks-migrate-cmd.py:347-415 | the secret block, its reports and the loop over the dbt blocks leave the state `TransformSpec.SecretAndTasks` gives |
| Migrate.Command.MigrateTransformationBlocks | ddpui/management/commands/run-tasks-migrate-cmd.py:256-415 | leaves the state `TransformSpec.TransformMigrated` gives |
| Migrate.Command.MigrateOrgBlocks | ddpui/management/commands/run-tasks-migrate-cmd.py:418-421 | leaves the state `HandleSpec.MigrateOrg` gives |
| Migrate.Command.SummaryLines | ddpui/management/commands/run-tasks-migrate-cmd.py:423-433 | builds exactly `HandleSpec.Summary` of the lists |
| Migrate.Command.Handle | ddpui/management/commands/run-tasks-migrate-cmd.py:417-433 | the loop over all orgs leaves the state `HandleSpec.HandleLoop` gives, and the lines returned are the summary of the final lists |

## Left out

- The Django ORM is not modelled. Querysets, transactions and persistence are replaced by in-memory tables. Primary keys are positions, because nothing is ever deleted.
- Logging calls and the wording of the f-string messages are not modelled. Each message is a constructor carrying its interpolated values.
- The `print` banners (`"=" * 80`) and the `SUCCESS ` and `FAILURE ` prefixes become the `Line` datatype. Its `Rule` line stands for the 80 `=` characters, and `SuccessLine` and `FailureLine` stand for the prefixed messages. The printing itself is not modelled.
- The secrets manager and the Airbyte destination lookup are foreign network calls. They appear only through the per-org `OrgEnv` input.
- The filesystem is not modelled: the dbt venv check, the `CLIENTDBT_ROOT` path, opening `dbt_project.yml` and parsing its YAML. These also come from `OrgEnv`, which yields an outcome or the profile name. As a result, the project-file-missing message does not carry the file's path.
- TransformSpec.TransformSetup: the org's dbt workspace (`org.dbt`) is a nullable foreign key. The model always gives an org one. Without it, the reads of `org.dbt` at lines 285, 306 and 352-353 raise `AttributeError`. That error ends the whole command, and `handle` (lines 417-433) has no `try`, so no summary is printed.
- TransformSpec.TransformSetup: a destination whose connection configuration lacks `dataset_location` raises `KeyError` at line 283. This is not modelled. The lookup's outcome is an input and is either a location or absent.
- TransformSpec.SecretStage: `secretsmanager.retrieve_github_token` could raise at line 352. This is not modelled; the token is an input that may be absent.
- Migrate.Command.EnsureSecretBlock: at line 369, `logger.exception(error)` names an unbound variable and would raise `NameError` after the failure is appended. The model records the failure and returns from the migration, without aborting the whole command.
- TransformSpec.CarriedCommand: where `old_cmd` was never bound (the first dbt block is a git-pull block with no task), the source raises `NameError` at line 402. The model logs the message with no command and continues with the next block.
- Model.CreateBlock: block ids are numbers chosen by the service (the position of the block in its list). The real service returns opaque identifiers, and the model relies only on their being recorded as given. The service is also taken to return the block name it was asked for: the local rows of lines 326-331 and 372-377 copy `block_response["block_name"]`, and the model records the requested name.
- Model.UpdateDeployment: only the new parameters take effect. The comments at lines 219-221 say the name, connections and transform mode are not updated; the schedule (`cron`, line 222) is not modelled either, so the payload's cron is accepted and has no effect.
- Model.GetDeployment: a fetched deployment is its parameter map. Line 206 reads `deployment["parameters"]` outside the `try`, so a deployment without parameters raises `KeyError` there and ends the whole command; the model has no such deployment.
- `.all()` at lines 119-121 and 387-389 and the org loop of line 418 have no `order_by`, so the database may return the rows in any order. The model walks every table in primary-key order. That order fixes the order of the successes and failures and the command `TransformSpec.CarriedCommand` carries from one block to the next.
- SyncSpec.SyncOne: its own contract gives the records and the frame; what the iteration does to the deployment is stated by the lemma `SyncSpec.SyncOneDeployment`, which keeps the function's own proof small.
- SyncSpec.SyncLoop: its own contract gives the records and the frame; what the loop does to the deployments is stated by the lemma `SyncSpec.SyncLoopRewrites`, which `SyncSpec.SyncMigrated` uses.
- SyncSpec.SyncMigrated: its own contract says only that each deployment that changes carries the new config. That every deployment named by a manual-sync dataflow ends with the new config, when no remote call fails, is stated by the lemma `SyncSpec.SyncMigratedSetsConfig`.
- HandleSpec.HandleLoop: its own contract gives the frame, the reported missing server blocks and the sync records; the server-block copy, the settled orgs and the rerun are stated by the lemmas `HandleSpec.HandleLoopSettles` and `HandleSpec.HandleRerunKeepsStore`.
- Concurrency is not modelled: the command is single-threaded, and other writers to the database are outside the model.
- `add_arguments` (lines 50-51) does nothing and has no counterpart.
