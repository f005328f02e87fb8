# Gatekey in Dafny

A model of the parts of Gatekey where the order of events, or the exact set of inputs, decides whether
something is right, and proofs about every run and every input of them. `dafny verify dfyconfig.toml`
checks the whole project.

| file | what it models |
|---|---|
| `PolicyCache.dfy`, `SelfHeal.dfy`, `GatewayProcess.dfy` | the model-policy cache with its write generation, the bootstrap and the background self-heal, running between any number of admin PUTs of this and of other workers |
| `OverlayWarm.dfy` | the team, member, residency and content-aware caches, whose warms write back unconditionally |
| `Redaction.dfy` | `redact`, `_strip_input_keys` and `redact_json_safe` on JSON-like trees |
| `Catalog.dfy`, `CatalogInvariant.dfy`, `MigrationRunner.dfy` | the part of Postgres that migrations depend on: types by identity, tables with rows, CHECKs, indexes, and statements that can be refused; the transaction around a run of migrations |
| `RateLimitOrigin.dfy`, `RateLimitMigration.dfy`, `RateLimitRoundTrip.dfy`, `RateLimitRows.dfy` | migrations 0026, 0033 and 0034 with its downgrade, and exactly which rows the tables can hold |
| `ProviderKeyOrigin.dfy`, `ProviderKeyMigration.dfy`, `ProviderKeyRows.dfy` | migration 0001, and 0023 with its downgrade on the constraint of 0001, and exactly which rows the table can hold |
| `KeySync.dfy`, `CliSync.dfy` | the `gatekey-sync` helper: keychain, cache file, injected files, and the device-login poll loop |
| `ApiQuery.dfy` | the `useApiQuery` hook with unboundedly many requests in flight |
| `Charts.dfy` | tick, scale, label and hover arithmetic of the spend chart |
| `EnablePicker.dfy` | the "select models to enable" flow, which re-reads the policy before it writes |

Programs that change things in place are classes and methods. Each is proved to do, field by field,
what a function on values says (`Step`, `Perform`, `Refreshed`, `Resolved`, `Started` and so on), and the
lemmas are about runs of those functions. A run is any list of actions, carried out by `Steps`; an action
that is not possible changes nothing, so a statement about all lists covers every interleaving. A migration
is a script that `Run` carries out up to its first refusal. `Options.dfy` holds the one type that many files
share.

## What fails, and exactly when

Each of these comes with an input or a run and with the exact condition. The first group contradicts a comment
of the cited file.

- `main.py:476-479` argues that the overlay warm needs no compare-and-set. A team restriction committed
  and applied between the warm's read and its `set_all` is dropped: `OverlayWarm.WarmCanDropARestriction`. An
  older restriction of this process applied after the warm hides a newer one of another worker:
  `OverlayWarm.LateSetTeamHidesAnotherWorkers`. `OverlayWarm.WarmedTeamIsRightIff` says exactly which runs,
  in any order of commits, writes and the warm, leave a team with its newest restriction.
- `main.py:483-487` says that after a superseded heal the cache is already correct. Two PUTs that reach the
  cache in the opposite order of their commits leave the older policy there:
  `SelfHeal.RacingPutsCanLeaveTheCacheStale`. `QuietCacheIsLatestIff` says exactly which runs end right,
  `InOrderRunsConverge` that those with PUTs in commit order do.
- `main.py:133-135` calls 30 s a ceiling on the backoff; it is not applied to the first sleep:
  `SelfHeal.FirstSleepExceedsTheCeiling`. It bounds every sleep of every run exactly when it bounds the
  initial value: `SelfHeal.CeilingHoldsIff`. The shipped constants meet that.
- `cli.py:198-227` forwards the wrapped command's exit code, but a failed cached run followed by a failed
  refresh is reported as 1: `KeySync.ExitCodeIsLost`, and exactly when: `KeySync.ExitCodeIsOfTheLastRunIff`.
- `cli.py:114-119` wants a rejected login and its cache cleared. When the keychain raises an error other than
  the one `auth.py:33-37` catches, both stay: `KeySync.KeychainErrorKeepsTheLogin`, and only then:
  `KeySync.RejectionLogsOut`.
- `client.py:23-26` says that no raw HTTP exception leaves the client. One answer with code 500 to a poll is
  such an exception: `CliSync.ServerErrorLeaves`. It leaves exactly when the first reply inside the deadline
  that is not a pending one has neither a 2xx code nor 404: `CliSync.HttpErrorLeavesIff`.
- `model-enable-picker.tsx:223-233` describes the re-read as closing a lost-update race. What another admin
  writes between the second read and the PUT can still be lost: `EnablePicker.AdditionInBetweenIsLost`, and
  exactly which models: `EnablePicker.LostAdditionsIff`.
- `model-enable-picker.tsx:262-270` wants a confirmation before any PUT that enters allowlist mode. An
  organisation that left that mode after the first read is put back into it with no dialog, whether it left
  before the second read (`EnablePicker.SwitchWithoutDialog`) or after it
  (`EnablePicker.SwitchAfterSecondRead`). `EnablePicker.UnconfirmedSwitchIff` says exactly when.

These contradict no comment, only what one might expect:

- `cli.py:173-178`: a login leaves the cached key of the previous login in use: `KeySync.OldKeyIsUsed`, and
  exactly when a cached key is of the present login: `KeySync.CachedKeyIsOfThisLoginIff`.
- `charts.tsx:34-42`: the top tick can be a little below the maximum, so the line can leave the plot:
  `Charts.OvershootHappens`, and exactly when: `Charts.OvershootsIff`.
- `useApiQuery.ts:56-59` invalidates requests on unmount, but a `refetch` called later is applied:
  `ApiQuery.RefetchAfterUnmountApplies`, and exactly when: `ApiQuery.PassesAfterCleanupIff`. A `refetch` whose
  fetcher throws before it returns a promise leaves the hook loading for ever:
  `ApiQuery.ThrowingRefetchKeepsLoading`, and exactly when: `ApiQuery.SettledShowsNewest`. (A fetcher that
  throws inside the effect makes React take the component down instead.)

## Model

| member | source | states |
|---|---|---|
| PolicyCache.ModelPolicyCache.Set | backend/src/gatekey/services/model_policy.py:121-144 | an admin's write always wins and is a new generation |
| PolicyCache.ModelPolicyCache.SetIfCurrent | backend/src/gatekey/services/model_policy.py:146-168 | writes exactly when no write has happened since the generation was captured |
| SelfHeal.StepKeepsInv | backend/src/gatekey/main.py:453-491 | every step of the healer, of a PUT of this worker or of another worker, and of shutdown keeps the whole-system invariant |
| SelfHeal.EveryRunKeepsInv | backend/src/gatekey/main.py:453-492 | the invariant holds in every interleaving from every start |
| SelfHeal.HealNeverRegresses | backend/src/gatekey/main.py:454-471 | in every run nothing but a PUT's own `set` makes the cached policy older, the cache is never ahead of the database, and it holds a committed policy or the default |
| SelfHeal.UnguardedWriteLosesAPut | backend/src/gatekey/main.py:457-471 | in the run that the guard exists for, a plain write would put an older policy back and the compare-and-set does not |
| SelfHeal.QuietCacheIsLatestIff | backend/src/gatekey/main.py:470-492 | exactly when everything at rest leaves the newest committed version in the cache, read off the actions: with the newest policy from a PUT of this worker, unless an older PUT set the cache after that PUT did and no heal came later; from another worker, when the healer read it and no PUT set the cache after; with nothing committed, when the start or the healer could read |
| SelfHeal.HealsIffUntouched | backend/src/gatekey/main.py:453-471 | in every run the result of a read is written back exactly when no PUT has set the cache since the wake that issued the read |
| SelfHeal.RacingPutsCanLeaveTheCacheStale | backend/src/gatekey/main.py:482-491 | two PUTs that reach the cache in the opposite order leave the older policy, and a superseded healer does not repair it |
| SelfHeal.InOrderRunKeepsOrder | backend/src/gatekey/main.py:454-491 | when PUTs reach the cache in commit order, those still to come are the newest, in every run |
| SelfHeal.InOrderRunsConverge | backend/src/gatekey/main.py:452-492 | in every run of one worker with PUTs in commit order, at rest the cache equals the database's policy; only after exhaustion or cancellation with no PUT at all is it the default |
| SelfHeal.DelayNext | backend/src/gatekey/main.py:467 | doubling up to the ceiling has the closed form initial * 2^i, capped |
| SelfHeal.CeilingHoldsIff | backend/src/gatekey/main.py:126-135 | the ceiling bounds every sleep of every run if and only if it bounds the initial value |
| SelfHeal.FirstSleepExceedsTheCeiling | backend/src/gatekey/main.py:452-454 | a run whose first sleep of 60 s exceeds the ceiling of 30 s |
| SelfHeal.HealerEffortIsBounded | backend/src/gatekey/main.py:453-468 | in every run there are at most maxAttempts sleeps and no more reads than sleeps, the i-th sleep is the closed form, and their sum is bounded by the whole schedule |
| SelfHeal.ShippedHealerTimes | backend/src/gatekey/main.py:126-135 | with the shipped constants the sleeps are 2, 4, 8, 16 and 30 s: at most 60 s of sleep and 85 s with the reads' time limits |
| GatewayProcess.GatewayProcess.constructor | backend/src/gatekey/main.py:526-572 | empty caches first, then one read: its success warms the overlay caches too, its failure schedules the healer |
| GatewayProcess.GatewayProcess.PutModelPolicy | backend/src/gatekey/api/v1/admin/model_policy.py:57-92 | a PUT with unknown models is refused with exactly those and changes nothing; any other is one commit of the list as a set |
| GatewayProcess.GatewayProcess.PutReachesCache | backend/src/gatekey/api/v1/admin/model_policy.py:57-92 | after its commit the PUT writes the policy that it committed |
| GatewayProcess.GatewayProcess.ApplyRead | backend/src/gatekey/main.py:470-491 | the write-back is one step of the state machine, and ends the healer as healed or superseded |
| GatewayProcess.GatewayProcess.BackOff | backend/src/gatekey/main.py:461-468 | a failed read doubles the backoff up to the ceiling, or ends the healer after the last attempt |
| GatewayProcess.GatewayProcess.Cancelling | backend/src/gatekey/main.py:677-691 | shutdown stops the task wherever it awaits |
| GatewayProcess.GatewayProcess.TryOnce | backend/src/gatekey/main.py:453-491 | one turn of the loop is exactly its attempt's actions, the others' interleaved ones and a cancellation during its sleep or read included |
| GatewayProcess.GatewayProcess.SelfHeal | backend/src/gatekey/main.py:399-492 | for every script of outcomes, interleavings and shutdown the task does exactly the state machine's actions up to the first attempt that gets a result or is cancelled, is exhausted exactly when there is none, and warms the two overlay caches exactly after a heal |
| OverlayWarm.OverlayCache.SetOne | backend/src/gatekey/services/model_policy.py:338-344 | one team's entry is replaced, every other stays |
| OverlayWarm.Warm | backend/src/gatekey/main.py:151-189 | a loaded snapshot replaces the cache, a failure leaves it |
| OverlayWarm.WarmResidencyAndContentAware | backend/src/gatekey/main.py:192-208 | both caches are filled from one session, or both stay as they were |
| OverlayWarm.InOrderRunKeepsInv | backend/src/gatekey/main.py:151-168 | what every run of one warm among team writes keeps, for every team |
| OverlayWarm.WarmedTeamIsRightIff | backend/src/gatekey/main.py:151-168 | when all team writes of this process have returned, a team's entry is of its newest commit, and so enforced as stored, exactly under a condition on the order of the actions: with the newest commit from another worker, when the warm read after it and no `set_team` of the team takes effect after its `set_all`; from this process, unless after its `set_team` comes one of an older commit, or a `set_all` of rows read before the commit, that no `set_all` of newer rows makes up for; with no commit since the start, when the team has no row or the warm ran |
| OverlayWarm.TeamsNotWrittenMeanwhileAreRight | backend/src/gatekey/main.py:151-168 | with writes in commit order and no other worker, a warm harms only teams whose `set_team` ran between its read and its `set_all` |
| OverlayWarm.WarmCanDropARestriction | backend/src/gatekey/main.py:472-480 | the run in which a committed and applied restriction disappears |
| OverlayWarm.RacingTeamWritesLeaveTheOlder | backend/src/gatekey/services/model_policy.py:444-525 | two writes of a team that reach the cache in the opposite order leave the older one enforced |
| OverlayWarm.LateSetTeamHidesAnotherWorkers | backend/src/gatekey/services/model_policy.py:444-525 | in commit order and with a warm that loses nothing, this process's older entry ends up over another worker's newer one |
| Redaction.Redact | backend/src/gatekey/errors.py:67-85 | the loop that fills a new dict key by key computes `Redacted` |
| Redaction.RedactTwice | backend/src/gatekey/errors.py:67-85 | redacting again changes nothing |
| Redaction.StripTwice | backend/src/gatekey/errors.py:88-110 | stripping again changes nothing |
| Redaction.RedactAndStripCommute | backend/src/gatekey/errors.py:67-121 | the two passes can be exchanged |
| Redaction.SafeIsAFixedPoint | backend/src/gatekey/errors.py:113-121 | safe output is left alone by either pass and by both |
| Redaction.SafeImagesEqualIffAlike | backend/src/gatekey/errors.py:67-121 | two trees of any depth have the same safe image if and only if they differ only under secret names and in "input" entries |
| Redaction.SafeAtPath | backend/src/gatekey/errors.py:67-121 | which paths survive, and what is at the end of each: the placeholder at a secret name, the safe image of what was there anywhere else |
| Redaction.SecretIff | backend/src/gatekey/errors.py:34-62 | a name is secret exactly when it spells one of the fifteen literal names, character by character and in any case, and "input" likewise |
| Redaction.CaseIsIgnored | backend/src/gatekey/errors.py:76 | two names that differ only in the case of ASCII letters are both secret or both not, and both "input" or both not |
| Redaction.AsciiSecretIff | backend/src/gatekey/errors.py:76 | a name of ASCII characters is secret exactly when it is one of the fifteen but for case |
| Redaction.SecretsComeOutAsPlaceholder | backend/src/gatekey/errors.py:67-121 | however deep, an entry under any casing of one of those names holds the literal "\*\*\*REDACTED\*\*\*" in the safe image |
| Redaction.InputsAreGone | backend/src/gatekey/errors.py:88-110 | no path into an entry under any casing of "input" survives |
| Redaction.OthersComeOutUnchanged | backend/src/gatekey/errors.py:67-121 | a scalar with none of these names on the way to it comes out as it was |
| Redaction.SafeKeepsKeyOrder | backend/src/gatekey/errors.py:67-121 | every dict at a surviving path keeps its keys in their order, without the "input" ones |
| Redaction.SafeKeepsLength | backend/src/gatekey/errors.py:67-121 | every list at a surviving path stays a list and every tuple a tuple, with as many items |
| CatalogInvariant.PerformKeepsConsistent | backend/alembic/versions/0034_add_user_scope_to_rate_limit_rules.py:29-42 | a statement that is not refused keeps every row within its column types, every CHECK and unique index satisfied, every stored literal of its column's type, and no reference dangling |
| CatalogInvariant.RunKeepsConsistent | backend/alembic/env.py:93-97 | so does every migration that completes |
| CatalogInvariant.AdmitsIff | backend/alembic/versions/0026_create_rate_limit_rules_and_rejection_events.py:49-182 | in a consistent database a table can hold exactly the rows that fit its columns and obey its CHECKs and unique indexes |
| MigrationRunner.Database.Execute | backend/alembic/env.py:93-97 | one statement in place; a refused one changes nothing |
| MigrationRunner.Database.Apply | backend/alembic/env.py:93-97 | a revision's statements in order, up to the first refusal |
| MigrationRunner.Database.Migrate | backend/alembic/env.py:93-97 | several revisions in one transaction take effect wholly or not at all |
| MigrationRunner.UpgradeRateLimits | backend/alembic/versions/0034_add_user_scope_to_rate_limit_rules.py:113-172 | the upgrade in place never fails and leaves the new schema |
| MigrationRunner.DowngradeRateLimits | backend/alembic/versions/0034_add_user_scope_to_rate_limit_rules.py:175-209 | the downgrade in place succeeds exactly when no row has the user scope, and otherwise changes nothing |
| MigrationRunner.UpgradeProviderKeys | backend/alembic/versions/0023_add_multi_key_columns_to_provider_keys.py:56-109 | the upgrade in place never fails and leaves the new schema |
| MigrationRunner.DowngradeProviderKeys | backend/alembic/versions/0023_add_multi_key_columns_to_provider_keys.py:112-127 | the downgrade in place fails exactly when some pair has a second key, and then changes nothing |
| RateLimitOrigin.Upgrade0026GivesSchema | backend/alembic/versions/0026_create_rate_limit_rules_and_rejection_events.py:49-182 | on every consistent database where the names are free 0026 runs and leaves its schema |
| RateLimitOrigin.Upgrade0033GivesSchemaIff | backend/alembic/versions/0033_add_at_least_one_limit_check_to_rate_limit_rules.py:41-46 | 0033 succeeds exactly when every rule has a limit, and then leaves the schema that 0034 starts from |
| RateLimitOrigin.AllThreeUpgradesRun | backend/alembic/versions/0034_add_user_scope_to_rate_limit_rules.py:113-172 | on every consistent database where the names are free 0026, 0033 and 0034 run one after the other and leave the schema of 0034 |
| RateLimitOrigin.EmptyDatabaseIsOne | backend/alembic/versions/0026_create_rate_limit_rules_and_rejection_events.py:49-182 | the empty database is such a database, so the schemas can be met |
| RateLimitRows.ColumnsOf0026 | backend/alembic/versions/0026_create_rate_limit_rules_and_rejection_events.py:63-172 | the type, the nullability and the default of each column of the two tables, 'reject' and 30 among them |
| RateLimitRows.RulesAfter0026Iff | backend/alembic/versions/0026_create_rate_limit_rules_and_rejection_events.py:63-138 | after 0026 a set of rules can be stored exactly when in each only the team and the limits are null, the labels are known and the scope matches the team, and no two are defaults of one org or rules of one team |
| RateLimitRows.EventsAfter0026Iff | backend/alembic/versions/0026_create_rate_limit_rules_and_rejection_events.py:140-182 | after 0026 events can be stored exactly when in each only the rule, the team and the user are null and the labels are known |
| RateLimitRows.EachScopeHasARule | backend/alembic/versions/0026_create_rate_limit_rules_and_rejection_events.py:109-138 | a default with no team and a team's rule can be stored side by side, for every org and team |
| RateLimitRows.RulesAfter0034Iff | backend/alembic/versions/0034_add_user_scope_to_rate_limit_rules.py:113-172 | after 0026, 0033 and 0034 the same with the user scope: a scope that matches team and user, at least one limit, one default per org and one rule per team and per user; events with the new label too |
| RateLimitRows.EachOfThreeScopesHasARule | backend/alembic/versions/0034_add_user_scope_to_rate_limit_rules.py:145-172 | a default, a team's and a user's rule can be stored side by side |
| RateLimitMigration.RebuildRuns | backend/alembic/versions/0034_add_user_scope_to_rate_limit_rules.py:124-144 | rebuilding the type is refused exactly when some row of either table has a scope that is not among the new labels |
| RateLimitMigration.UpgradeRuns | backend/alembic/versions/0034_add_user_scope_to_rate_limit_rules.py:113-172 | from every database with the schema of 0033, whatever its rows, no statement of 0034 is refused |
| RateLimitMigration.UpgradeGivesSchema0034 | backend/alembic/versions/0034_add_user_scope_to_rate_limit_rules.py:113-172 | afterwards all rows satisfy the three-way CHECK, the at-least-one-limit CHECK and the three partial unique indexes |
| RateLimitMigration.UpgradeKeepsRows | backend/alembic/versions/0034_add_user_scope_to_rate_limit_rules.py:113-172 | every old row keeps its data, the new column is null, and no other table, CHECK or index differs |
| RateLimitMigration.TwoWayGivesThreeWay | backend/alembic/versions/0034_add_user_scope_to_rate_limit_rules.py:154-164 | a row that obeys the old CHECK obeys the new one with no user |
| RateLimitMigration.ThreeWayGivesTwoWay | backend/alembic/versions/0034_add_user_scope_to_rate_limit_rules.py:204-209 | a row with an old scope that obeys the new CHECK obeys the old one |
| RateLimitMigration.DowngradeRunsIff | backend/alembic/versions/0034_add_user_scope_to_rate_limit_rules.py:175-209 | the downgrade completes exactly when neither table has a row with scope 'user', and fails on the cast otherwise |
| RateLimitRoundTrip.DowngradeUndoesUpgrade | backend/alembic/versions/0034_add_user_scope_to_rate_limit_rules.py:113-209 | upgrade then downgrade always works and gives back the catalog and the rows, the scope type having a new identity under its old name and labels |
| RateLimitRoundTrip.DowngradeGivesSchema0033 | backend/alembic/versions/0034_add_user_scope_to_rate_limit_rules.py:175-209 | a downgrade that completes leaves the full schema of 0033 |
| RateLimitRoundTrip.UpgradeUndoesDowngrade | backend/alembic/versions/0034_add_user_scope_to_rate_limit_rules.py:113-209 | where the downgrade works, upgrading again restores the catalog and the rows |
| ProviderKeyOrigin.Upgrade0001GivesSchema0022 | backend/alembic/versions/0001_create_orgs_and_provider_keys.py:49-115 | on every consistent database where the names are free 0001 runs and leaves keys that are unique per (org_id, provider) |
| ProviderKeyRows.ColumnsOf0001 | backend/alembic/versions/0001_create_orgs_and_provider_keys.py:67-115 | the type, the nullability and the default of each column of the two tables |
| ProviderKeyRows.KeysAfter0001Iff | backend/alembic/versions/0001_create_orgs_and_provider_keys.py:78-115 | after 0001 a set of keys can be stored exactly when in each only the validation time is null and the provider is one of three, and no two are of one org and provider |
| ProviderKeyMigration.UpgradeRuns | backend/alembic/versions/0023_add_multi_key_columns_to_provider_keys.py:56-109 | from every table that obeys UNIQUE(org_id, provider) no statement of 0023 is refused |
| ProviderKeyMigration.BackfillKeepsConstraints | backend/alembic/versions/0023_add_multi_key_columns_to_provider_keys.py:84-92 | the backfill breaks no CHECK and no unique index on the old columns |
| ProviderKeyMigration.PairUniqueImplies | backend/alembic/versions/0001_create_orgs_and_provider_keys.py:112-114 | one key per pair means that neither new constraint can be violated |
| ProviderKeyMigration.UpgradeKeepsValues | backend/alembic/versions/0023_add_multi_key_columns_to_provider_keys.py:56-92 | every row keeps all its old columns and becomes a primary key called Default with failover off |
| ProviderKeyMigration.OnePrimaryPerPair | backend/alembic/versions/0023_add_multi_key_columns_to_provider_keys.py:94-106 | every pair that has a key has exactly one, and it is primary |
| ProviderKeyMigration.UpgradeGivesSchema0023 | backend/alembic/versions/0023_add_multi_key_columns_to_provider_keys.py:56-109 | the new columns, constraint and indexes are there and hold |
| ProviderKeyRows.KeysAfter0023Iff | backend/alembic/versions/0023_add_multi_key_columns_to_provider_keys.py:56-109 | on every schema before it, 0023 changes exactly this in what can be stored: a label, two flags and a target that may be null are added, and one key per pair becomes one label per key of a pair and at most one primary key |
| ProviderKeyRows.ColumnsOf0023 | backend/alembic/versions/0023_add_multi_key_columns_to_provider_keys.py:56-92 | the four added columns with their literal types, nullability and defaults, the label's placeholder default gone |
| ProviderKeyMigration.DowngradeRunsIff | backend/alembic/versions/0023_add_multi_key_columns_to_provider_keys.py:112-127 | on every later table that obeys the new constraints the downgrade fails exactly when some pair has two keys; if not, every row keeps its old columns |
| ProviderKeyMigration.DowngradeUndoesUpgrade | backend/alembic/versions/0023_add_multi_key_columns_to_provider_keys.py:56-127 | undoing 0023 at once gives back the very same database |
| CliSync.Helper.ReadCache | cli-sync/src/gatekey_sync/cache.py:48-57 | what was stored, or nothing on any problem |
| CliSync.Helper.IsValid | cli-sync/src/gatekey_sync/cache.py:60-64 | a cached key is valid strictly before its expiry |
| CliSync.Helper.RefreshKey | cli-sync/src/gatekey_sync/cli.py:101-132 | one request under the stored credential: a key is cached, a 401 empties keychain and cache unless the keychain raises an error, any other failure changes neither |
| CliSync.Helper.ResolveKey | cli-sync/src/gatekey_sync/cli.py:135-143 | in place what `Resolved` says: a valid cached key without a request or a change of the cache (KeySync.CacheChangesOnlyByAsking, KeySync.ValidKeyServes), otherwise a refresh |
| CliSync.Helper.WriteInjection | cli-sync/src/gatekey_sync/cli.py:146-162 | only file mode writes, and only its own file |
| CliSync.Helper.RunWrapped | cli-sync/src/gatekey_sync/cli.py:165-170 | an empty command is refused with code 2 and not run |
| CliSync.Helper.Login | cli-sync/src/gatekey_sync/auth.py:40-67 | stores the credential that polling ended on, or changes nothing; the cache is left alone |
| CliSync.Helper.GetKey | cli-sync/src/gatekey_sync/cli.py:193-195 | shows the resolved key, in place what `GotKey` says; what that shows and when it exits 0: KeySync.GetKeyTells |
| CliSync.Helper.Exec | cli-sync/src/gatekey_sync/cli.py:198-227 | the steps of `exec` in place are those of `Executed`, branch by branch |
| CliSync.SplitArgv | cli-sync/src/gatekey_sync/cli.py:263-277 | the arguments are cut at the first separator, and nothing of the command is lost or changed |
| CliSync.PollUntilApproved | cli-sync/src/gatekey_sync/client.py:76-104 | the loop ends as `Polling` says: every reply before the last was a waiting one inside the deadline, the last one decides which of seven ways the loop ends, and with a positive interval there are at most ceil(expires_in / interval) polls |
| CliSync.PendingIffWaits | cli-sync/src/gatekey_sync/client.py:92-101 | the loop goes on after exactly these replies: 202, and a code from 200 to 299 whose body has another status than "approved" or no credential |
| CliSync.ApprovedIff | cli-sync/src/gatekey_sync/client.py:80-101 | polling ends with a credential exactly when it is not empty and, inside the deadline and after such replies only, a reply with a code from 200 to 299 other than 202 has the status "approved" and carries it |
| CliSync.ApprovalInTimeIff | cli-sync/src/gatekey_sync/client.py:80-101 | a user who approves after n rounds of 202 is logged in exactly when n * (answer time + interval) is less than the expiry |
| CliSync.PollsAreFew | cli-sync/src/gatekey_sync/client.py:80-101 | with a positive interval at most ceil(expires_in / interval) polls, and that many replies always decide |
| CliSync.HttpErrorLeavesIff | cli-sync/src/gatekey_sync/client.py:92-97 | the HTTP library's error leaves the client exactly when, inside the deadline and after pending replies only, a reply has neither a code from 200 to 299 nor 404 |
| CliSync.ServerErrorLeaves | cli-sync/src/gatekey_sync/client.py:92-97 | one answer with code 500 does it |
| CliSync.NoPauseNoDeadline | cli-sync/src/gatekey_sync/client.py:80-101 | with an interval of zero and instant pending replies the loop polls on for ever |
| KeySync.StepKeepsInv | cli-sync/src/gatekey_sync/cli.py:101-143 | every command, clock advance and cache loss keeps the invariant |
| KeySync.EveryRunKeepsInv | cli-sync/src/gatekey_sync/cli.py:101-227 | in every run every secret used was the newest that the server had returned, unexpired or fetched just before; every request carried the credential in force; a cached key is the newest one, with its expiry, and has a credential |
| KeySync.RejectionLogsOut | cli-sync/src/gatekey_sync/cli.py:113-126 | a 401 empties both stores, whichever command meets it, exactly when the keychain lets the credential be cleared; otherwise the login stays, and the cache too unless `exec` had dropped it |
| KeySync.KeychainErrorKeepsTheLogin | cli-sync/src/gatekey_sync/auth.py:31-37 | a run from a fresh installation in which both stores outlive a 401 |
| KeySync.NothingUntilNextLogin | cli-sync/src/gatekey_sync/cli.py:105-108 | once both stores are empty no sequence of commands stores, sends, shows or runs anything until the next login |
| KeySync.CacheChangesOnlyByAsking | cli-sync/src/gatekey_sync/cli.py:101-143 | a command that sends no request leaves the cache file as it was, and one that brings a key leaves that key there |
| KeySync.ValidKeyServes | cli-sync/src/gatekey_sync/cli.py:135-227 | from a cached key, every sequence of logins, get-keys and execs whose runs return 0 sends no request for as long as the key is valid, uses its secret each time, and leaves it cached |
| KeySync.ExecUsesTheCachedKey | cli-sync/src/gatekey_sync/cli.py:198-227 | with a valid cached key a successful `exec` is one run with its secret, exits 0 and leaves cache and login alone |
| KeySync.GetKeyTells | cli-sync/src/gatekey_sync/cli.py:135-195 | `get-key` exits 0 exactly when it shows a secret: the cached one if still valid, or else the one that comes back; otherwise it exits 1 |
| KeySync.ExecTells | cli-sync/src/gatekey_sync/cli.py:198-227 | the requests and runs of one `exec`, in order, read off the state before it |
| KeySync.ExecReport | cli-sync/src/gatekey_sync/cli.py:198-227 | at most one request and two runs; a request exactly when the cache misses or a cached run fails; two runs exactly when a cached run fails and a key comes back, the second with that key |
| KeySync.ExitCodeIsOfTheLastRunIff | cli-sync/src/gatekey_sync/cli.py:209-227 | the exit code is that of the last run, except when a cached run failed with a code other than 1 and the refresh failed too; without a run it is 2 for an empty command that got a key, and 1 otherwise |
| KeySync.ExitCodeIsLost | cli-sync/src/gatekey_sync/cli.py:209-227 | a run from a fresh installation in which the command fails with 3 and `exec` reports 1 |
| KeySync.FailedRunForgetsItsKey | cli-sync/src/gatekey_sync/cli.py:209-225 | the cache entry that a failed run was given from is dropped, or replaced by what the server then returns; the same key is back exactly when the server hands it out again |
| KeySync.ExecInjects | cli-sync/src/gatekey_sync/cli.py:146-162 | in file mode the file ends with the secret of the last run, or the one an empty command was refused with, and no other file changes |
| KeySync.FillIsPiecewise | cli-sync/src/gatekey_sync/cli.py:156 | what is written for a template: its text as it is and the secret where it is named, piece by piece |
| KeySync.CachedKeyIsOfThisLoginIff | cli-sync/src/gatekey_sync/cli.py:173-178 | in every run a cached key was handed out under the stored credential exactly when no login came in between, or the last one granted the same credential |
| KeySync.NewLoginOldKey | cli-sync/src/gatekey_sync/cli.py:173-178 | after any login a valid cached key is still used, with its old owner |
| KeySync.OldKeyIsUsed | cli-sync/src/gatekey_sync/cli.py:173-178 | a run from a fresh installation in which a command gets the previous login's key |
| ApiQuery.Query.Run | frontend/src/lib/useApiQuery.ts:34-38 | a run takes the next number, shows loading and clears the error |
| ApiQuery.Query.OnThen | frontend/src/lib/useApiQuery.ts:39-42 | a result is shown only for the newest number |
| ApiQuery.Query.OnCatch | frontend/src/lib/useApiQuery.ts:43-46 | so is an error |
| ApiQuery.Query.OnFinally | frontend/src/lib/useApiQuery.ts:47-50 | so is the end of loading |
| ApiQuery.Query.Cleanup | frontend/src/lib/useApiQuery.ts:54-60 | unmount and dependency change invalidate what is in flight |
| ApiQuery.OnlyNewestApplies | frontend/src/lib/useApiQuery.ts:39-50 | in every run a callback that changes what is shown has passed its guard in its turn, and one that has belongs to the newest number issued |
| ApiQuery.AppliedNeverGoesBack | frontend/src/lib/useApiQuery.ts:31-50 | in every run, whatever the order of the answers, the numbers of the callbacks that pass their guards never decrease, also where one stores what was there before |
| ApiQuery.NothingAppliesAfterCleanup | frontend/src/lib/useApiQuery.ts:54-60 | after a cleanup a callback passes its guard only if another request was started in between |
| ApiQuery.PassesAfterCleanupIff | frontend/src/lib/useApiQuery.ts:34-60 | after a cleanup a due callback passes its guard exactly when its request was started after that cleanup and no run or cleanup has come since |
| ApiQuery.RefetchAfterUnmountApplies | frontend/src/lib/useApiQuery.ts:54-62 | a `refetch` after the unmount is such a request |
| ApiQuery.EveryRunKeepsViewOk | frontend/src/lib/useApiQuery.ts:34-60 | in every run what is shown follows from how far the newest request has come and from the last result applied |
| ApiQuery.SettledShowsNewest | frontend/src/lib/useApiQuery.ts:34-60 | when all requests have settled and none was invalidated, the hook shows the newest one's result without an error, or its error beside the last applied result; it is still loading exactly when that fetcher threw |
| ApiQuery.ThrowingRefetchKeepsLoading | frontend/src/lib/useApiQuery.ts:34-38 | a run in which a throwing `refetch` leaves the hook loading with nothing in flight |
| Charts.FloorLog10 | frontend/src/components/charts.tsx:37 | the power of ten at or below any positive number, with the next one above it |
| Charts.NiceStep | frontend/src/components/charts.tsx:36-38 | the smallest of 1, 2, 5 and 10 times any power of ten that is at least the raw step, and less than two and a half times it |
| Charts.NiceTicks | frontend/src/components/charts.tsx:34-42 | for every positive maximum 3 to 5 evenly spaced ticks with that step, the top one in (max - 0.001 step, max + 0.999 step]; otherwise 0 and 1 |
| Charts.TicksAreUnique | frontend/src/components/charts.tsx:34-42 | only one list of ticks meets that description |
| Charts.YStaysNearTheBand | frontend/src/components/charts.tsx:66-76 | no value up to the maximum is drawn more than plotH/2000 above the plot, and only negative ones below the baseline |
| Charts.YIsProportional | frontend/src/components/charts.tsx:75 | zero is drawn at 184, the top tick at 14, and heights are in proportion |
| Charts.OvershootsIff | frontend/src/components/charts.tsx:34-76 | the maximum is drawn above the plot exactly when it exceeds a multiple of the step by less than a thousandth of it |
| Charts.OvershootHappens | frontend/src/components/charts.tsx:34-76 | 4.001 is such a maximum |
| Charts.XGrows | frontend/src/components/charts.tsx:73-74 | points lie strictly left to right, inside the plot |
| Charts.XIsEven | frontend/src/components/charts.tsx:73-74 | the points are spread evenly from 46 to 578 |
| Charts.OnePointInTheMiddle | frontend/src/components/charts.tsx:73-74 | a single point stands in the middle, at 312 |
| Charts.PickNearest | frontend/src/components/charts.tsx:88-106 | the first of the nearest points, nothing for an empty chart, the first point for one of no width |
| Charts.NearestInvertsX | frontend/src/components/charts.tsx:73-106 | hovering over a point picks that point |
| Charts.StrideIsSmallest | frontend/src/components/charts.tsx:82 | the stride is the smallest positive number of which five cover all points |
| Charts.LabelsAre | frontend/src/components/charts.tsx:83-84 | the labels are exactly the multiples of the stride and the last index |
| Charts.LabelsIncrease | frontend/src/components/charts.tsx:83-84 | in order, without repetition |
| Charts.EndsAreLabelled | frontend/src/components/charts.tsx:82-84 | the first and the last point are always labelled, and there are at most six labels |
| EnablePicker.Distinct | frontend/src/components/model-enable-picker.tsx:240-242 | the list of a set: no duplicates, the same elements |
| EnablePicker.EnablePickerForm.Toggle | frontend/src/components/model-enable-picker.tsx:186-198 | an entry with a name is staged or unstaged, one without opens the registration |
| EnablePicker.ToggleFlipsOne | frontend/src/components/model-enable-picker.tsx:192-197 | toggling flips the entry's name and no other, and twice is nothing |
| EnablePicker.EnablePickerForm.OnVerified | frontend/src/components/model-enable-picker.tsx:151-184 | a name that the server verified is staged, no other is, and the entry is known by it from then on; without one both stay as they were; either way nothing is being verified any more |
| EnablePicker.VerificationEnds | frontend/src/components/model-enable-picker.tsx:151-184 | the same of the flow's step: a verified name is added to the staged ones and ticking the entry flips it from then on |
| EnablePicker.StagedAfter | frontend/src/components/model-enable-picker.tsx:151-198 | a name becomes staged exactly by being ticked or verified, and stops being so exactly by being ticked again |
| EnablePicker.RegisteringStages | frontend/src/components/model-enable-picker.tsx:151-198 | ticking an entry without a name, registering and verifying it stages its name, and a second tick takes it out |
| EnablePicker.VerifiedIsSubmitted | frontend/src/components/model-enable-picker.tsx:151-256 | in every run a name that was verified and not ticked since is among the names of the next submit click |
| EnablePicker.EnablePickerForm.HandleSubmitClick | frontend/src/components/model-enable-picker.tsx:251-256 | the click captures the staged names |
| EnablePicker.EnablePickerForm.OnFirstRead | frontend/src/components/model-enable-picker.tsx:257-275 | goes on without a dialog exactly when the policy is an allowlist, and otherwise asks |
| EnablePicker.EnablePickerForm.OnSecondRead | frontend/src/components/model-enable-picker.tsx:234-249 | decides what to write by the policy as just read |
| EnablePicker.EnablePickerForm.OnPutAnswered | frontend/src/components/model-enable-picker.tsx:200-221 | closes on success, returns to the checklist with an error otherwise |
| EnablePicker.WriteEnds | frontend/src/components/model-enable-picker.tsx:200-221 | a PUT that failed shows an error on the checklist with everything still staged; one that went through closes the picker |
| EnablePicker.ReadEnds | frontend/src/components/model-enable-picker.tsx:234-276 | a failed read ends the submission with an error; the first one asks for a confirmation of the names clicked exactly when the policy is no allowlist |
| EnablePicker.MergedKeepsOrder | frontend/src/components/model-enable-picker.tsx:234-249 | a merge keeps the allowlist in its order and appends to it |
| EnablePicker.StepKeepsInv | frontend/src/components/model-enable-picker.tsx:151-276 | every user, network, server and other-admin step keeps the invariant |
| EnablePicker.EveryRunKeepsInv | frontend/src/components/model-enable-picker.tsx:151-276 | it holds in every run |
| EnablePicker.EveryWriteIsAUnion | frontend/src/components/model-enable-picker.tsx:234-249 | in every run every PUT carries, without duplicates, the staged names together with the allowlist as re-read, or the staged names alone; every staged name is in the catalog or verified |
| EnablePicker.OnlyWritesInBetweenAreLost | frontend/src/components/model-enable-picker.tsx:223-249 | a PUT removes a model from an allowlist exactly when it was neither staged nor in an allowlist as re-read; it was then written between the re-read and the PUT |
| EnablePicker.LostAdditionsIff | frontend/src/components/model-enable-picker.tsx:223-249 | of the allowlist in force a PUT loses exactly the models that were neither staged nor in an allowlist where the second read was served; another admin then wrote after that |
| EnablePicker.UnconfirmedSwitchNeedsAnotherAdmin | frontend/src/components/model-enable-picker.tsx:251-276 | a PUT is confirmed exactly when the first read found no allowlist; one that enters allowlist mode unconfirmed needs the mode to have been left since the first read |
| EnablePicker.UnconfirmedSwitchIff | frontend/src/components/model-enable-picker.tsx:234-276 | a PUT enters allowlist mode unconfirmed exactly when the first read found an allowlist and the last write since, on either side of the second read, was another admin's and left it |
| EnablePicker.AtMostOneWritePerClick | frontend/src/components/model-enable-picker.tsx:200-276 | in every run each PUT is for a click of its own, later PUTs for later clicks, and carries the names staged at that click |
| EnablePicker.AdditionInBetweenIsLost | frontend/src/components/model-enable-picker.tsx:223-249 | a run in which another admin's addition is lost |
| EnablePicker.SwitchWithoutDialog | frontend/src/components/model-enable-picker.tsx:251-276 | a run that imposes allowlist mode with no dialog, left between the two reads |
| EnablePicker.SwitchAfterSecondRead | frontend/src/components/model-enable-picker.tsx:234-249 | one that does so when the mode is left after the second read |

## Left out

- Budgets, the rate limiter, response cache, failover, DLP, SCIM and the hash-chained ledger: not part of this model.
- HTTP, the database driver, subprocesses and JSON or date parsing: each is a parameter that says how the call came out.
- Errors of the OS keychain when it reads or stores, and of the file system when the cache or an injected file is written or deleted: assumed away. An error while the credential is cleared after a 401 is modelled.
- The types of columns other than enums, texts and flags: uuids, integers, times, bytes and JSON are one kind of value in Catalog, so RateLimitRows.ColumnsOf0026 and ProviderKeyRows.ColumnsOf0001 tell the numbers of defaults but not those types apart.
- Foreign keys, primary keys, `ON DELETE` rules and other schemas of Postgres: no statement of the migrations modelled here is refused because of one.
- Casts with a column default, `NOT VALID` constraints and expression indexes: Cast refuses a column that has a default, and the two `scope_type` columns have none.
- The seed row of 0001, the downgrades of 0001, 0026 and 0033, and all other migrations: plain inserts, creates and drops without conditions of their own.
- The table in which Alembic records the current revision: it changes in the same transaction as the rest.
- Redaction.Redact: restricted to dicts with distinct keys and trees without cycles, which is what Python dicts built from JSON are.
- Redaction.SafeImagesEqualIffAlike: lower case covers the characters whose lower case is ASCII, since only comparisons with ASCII names are made.
- Two `gatekey-sync` processes at once, or one killed between its effects: each command runs as a whole.
- `gatekey-sync configure` and the resolution of the base URL and of the injection target: look-ups with one branch each.
- Cache files that no version of `write_cache` has written and that parse as JSON but not as an object: the source does not catch these.
- Template fields other than `{secret}`: a template is a list of literal pieces and places for the secret.
- CliSync.PollUntilApproved: takes the server's replies as a finite list, of any length, because with an interval of zero the loop need not end; with a positive one every list of ceil(expires_in / interval) replies decides.
- React's batching and rendering, and the messages of errors and toasts: an error is only present or absent in the picker.
- A PUT of the picker that the client has given up on and the server carries out later: a lost reply is modelled, a delayed request is not.
- The order of the models in a stored policy: the server sorts them, the proofs speak of sets.
- Charts.NiceTicks: real numbers in place of floating point. The chart itself calls it with at least 1e-9, so its scale never divides by zero.
- The picker's catalog load and its fallback when the catalog is not available: the entries are fixed when the checklist appears.
- The in-order hypothesis of OverlayWarm.TeamsNotWrittenMeanwhileAreRight and SelfHeal.InOrderRunsConverge: the code does not enforce it; OverlayWarm.RacingTeamWritesLeaveTheOlder and SelfHeal.RacingPutsCanLeaveTheCacheStale are runs that break it.
- GatewayProcess.GatewayProcess.SelfHeal: what other tasks write to the overlay caches while they are warmed is the subject of OverlayWarm, and shutdown during a warm is not modelled.
- Date formatting, SVG paths and the table view of the charts: shallow.
