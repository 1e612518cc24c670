# Verification of the control plane's stateful protocols

A Dafny model of the stateful protocols of a multi-tenant control plane, with proofs of what
each keeps over whole runs, interleavings and crashes. `dafny verify dfyconfig.toml` checks it.

| part | files |
|---|---|
| Opaque API keys: lifecycle, authorizer | `KeySlots`, `KeySlotProofs`, `KeyVisibility`, `KeyWorld`, `KeyRuns`, `KeyOperations`, `KeyRegistry` |
| Opaque API keys: continuity of service, project migration, scheduler | `KeyContinuity`, `KeyMigration`, `KeyScanEffects`, `KeyScheduler`, `KeyLag` |
| Admission: token bucket and single-use tickets | `TokenBucket`, `Admission`, `AdmissionRuns`, `AdmissionEngine` |
| Edge-function publication and recovery | `Publication`, `PublicationStore` |
| Public-reference rotation and rollback | `ReferenceRotation` |
| Snippet-namespace migration and rollback | `SnippetPlan`, `SnippetTrees`, `SnippetPlanner`, `SnippetMigration` |
| Project action queue | `ActionQueue`, `ActionQueueRuns`, `ActionQueueService` |
| Replay protection of the internal API | `ReplayGuard`, `ReplayTable`, `ReplayService` |
| Waiting for a host-agent command | `CommandWait` |

Code that computes is modelled by functions, and code that changes rows, files or caches
by classes whose methods are proved equal to functions of the old state
(`KeyRegistry.Registry`, `TokenBucket.TrafficStore`, `AdmissionEngine.Engine`,
`ActionQueueService.ProjectActionQueue`, `ReplayService.Process`), or against the predicate
that every durable state must satisfy. The crash-consistent protocols record the state after each durable
write in a `trail`; a claim about crashes is a claim about every entry of it, and a method
called `SurvivesCrashes` runs the whole story: the operation, a loss of power after any
write, recovery that is itself cut short any number of times, and one recovery that is not.

## Assumptions

- A database transaction, a single statement and an atomic rename happen entirely or not
  at all; a write that raises may or may not have reached the disk.
- Clocks do not run backwards, and all parties to one comparison read the same clock.
- SHA-256, HMAC and the hash of an advisory lock key are injective; a digest stands for
  what it digests.
- Removing a whole journal directory is one step.
- The database connection pool is unbounded.
- Tokens and seconds of the bucket are real numbers.

## Where the code falls short of what it promises

Each of these is proved: a concrete case, and the exact condition under which it happens.

- **Republishing.** If a publication of a draft that is already the published version is
  interrupted while its intent is on disk, recovery raises at every later load and the
  intent never goes away (case: `Publication.RepublishingCanStick`; condition: `Publication.RecoverableIff`).
- **Rotation without a manifest.** A crash between creating the journal directory and the
  first checkpoint changes nothing that serves, but recovery refuses the journal and the
  next rotation refuses to start (case: `ReferenceRotation.FirstWriteSticks`; condition:
  `ReferenceRotation.Rotation.RecoverRollback`, `ReferenceRotation.Rotation.Rotate`).
- **Replay margin.** The time from a request's timestamp check to its database claim may be
  four seconds, not the five in `ttl = 2 * skew + 5`, because the check compares whole
  seconds (case: `ReplayTable.Replay`, two processes; condition:
  `ReplayTable.MarginIsFourSeconds`).
- **Cache order.** The in-memory cache stays ordered by expiry exactly when no claim
  carries a clock reading older than the newest entry's; readings are taken before the
  body is awaited, so they can arrive out of order (case: `ReplayGuard.LateReadingsDisorder`;
  condition: `ReplayGuard.OrderIff`).
- **Backslash in a snippet name.** Planning and migration accept a directory whose name
  contains a backslash; rollback refuses the whole journal for it
  (case: `SnippetMigration.BackslashMoves`; condition: `SnippetMigration.AcceptedIff`).

## Model

| member | source | states |
|---|---|---|
| KeyRuns.OneAdmittedKey | servidor/key-authorizer/app.py:186-211 | over every run of requests, scheduler steps and clock ticks, a slot has at most one accepted key at any instant |
| KeyRuns.AcceptanceIsOneInterval | servidor/api-internal/app/opaque_key_service.py:656-1286 | a key accepted once and later not accepted is never accepted again, whatever requests run in between |
| KeyRuns.ListingMatchesAuthorizer | servidor/api-internal/app/opaque_key_service.py:1354-1371 | in every reachable state of an active project the administrator's column equals the authorizer's test at every instant, and so does discovery once the gateway is ready |
| KeyRuns.ReachableChain | servidor/api-internal/app/opaque_key_service.py:690-753 | the keys that clients ever used form one chain by predecessor, across cancelled and due replacements, and an accepted key is its end |
| KeyRuns.PendingHasLivePredecessor | servidor/api-internal/app/opaque_key_service.py:806-832 | in every reachable state a pending key replaces the slot's active key and is due no later than that key expires |
| KeyRuns.StepKeeps | servidor/api-internal/app/opaque_key_service.py:199-1321 | every request keeps the invariant of all slots and revives no key of an active project |
| KeyRuns.RunInv | servidor/api-internal/app/opaque_key_service.py:199-1321 | the invariant holds after any run with a non-decreasing clock |
| KeySlotProofs.PerformInv | servidor/api-internal/app/opaque_key_service.py:656-1250 | each slot operation keeps the slot invariant and what clients have seen of its rows |
| KeyOperations.PerformExact | servidor/api-internal/app/opaque_key_service.py:656-1250 | each of the seven operations on the rows themselves: exactly when it is accepted, and what it leaves in every row and column |
| KeyOperations.OnSlotExact | servidor/api-internal/app/opaque_key_service.py:656-1250 | a slot request is taken exactly for an acceptable operation on an enabled slot of a ready project, changes that slot alone and counts one version |
| KeyOperations.BootstrapExact | servidor/api-internal/app/opaque_key_service.py:292-368 | bootstrap succeeds exactly for an untouched project and leaves two default slots with active keys of ninety days |
| KeyOperations.PrepareMigrationExact | servidor/api-internal/app/opaque_key_service.py:371-468 | a migration is prepared exactly for an untouched project, with two waiting keys that expire in ninety-seven days |
| KeyOperations.CreateSlotExact | servidor/api-internal/app/opaque_key_service.py:199-289 | when a slot is created, and its one active key |
| KeyOperations.CancelAllExact | servidor/api-internal/app/opaque_key_service.py:1253-1286 | exactly the project's automatic replacements not yet in use end, and there is a refusal when there is none |
| KeyOperations.RevealExact | servidor/api-internal/app/opaque_key_service.py:1289-1321 | a stored reveal of a key that has not been revoked can be claimed, and only the first claim is stamped |
| KeySlotProofs.RetiredStays | servidor/key-authorizer/app.py:186-211 | time alone never brings a retired key back |
| KeyVisibility.AcceptedIffServing | servidor/key-authorizer/app.py:186-211 | the authorizer accepts exactly the key that a reference definition says is serving |
| KeyVisibility.AcceptedWhen | servidor/key-authorizer/app.py:186-211 | in any slot, when each row is accepted if nothing else happens: a confirmed replacement from its activation on, the active key until a replacement takes over, each strictly before its expiry, others never |
| KeyVisibility.QueriesAgree | servidor/api-internal/app/migrations/0018_client_configuration_data_plane.sql:24-46 | the row conditions of authorizer, listing and discovery view agree on every row at every instant |
| KeyVisibility.ActivationInvisible | servidor/api-internal/app/opaque_key_service.py:837-907 | activating a pending key changes no key's acceptance, at that moment or later |
| KeyVisibility.PreparationInvisible | servidor/api-internal/app/opaque_key_service.py:758-834 | an unconfirmed replacement changes no key's acceptance and is itself not accepted |
| KeyVisibility.Handover | servidor/api-internal/app/opaque_key_service.py:806-832 | with a confirmed replacement the predecessor serves until it is due and the replacement from then until it expires |
| KeyVisibility.NoGapIff | servidor/api-internal/app/opaque_key_service.py:806-832 | a served slot has an accepted key at every instant up to the replacement's expiry if and only if the replacement is confirmed or the predecessor lasts that long, when nothing else happens to it |
| KeyVisibility.OnlyDisableInterrupts | servidor/api-internal/app/opaque_key_service.py:656-1250 | on one slot, of its seven operations only disabling leaves it without an accepted key at the moment it runs |
| KeyContinuity.NoGap | servidor/api-internal/app/opaque_key_service.py:806-832 | from the acceptance of a key, or its confirmation as a replacement, some key of the slot is accepted at every instant until that key's expiry, over any run of requests and scheduler steps that does not disable the slot, shorten its lifetime policy, or cancel the replacement before it is due |
| KeyContinuity.OnlyDisablingInterrupts | servidor/api-internal/app/opaque_key_service.py:199-1321 | in every reachable state a request takes a served slot's service away at the moment it runs if and only if it is an accepted disabling of that slot |
| KeyContinuity.RunScheduled | servidor/api-internal/app/opaque_key_service.py:77-96 | in every reachable state the expiry of a slot's active and pending keys is their start plus the slot's lifetime policy, and a pending key starts no earlier than the active one did |
| KeyContinuity.OneTouch | servidor/api-internal/app/opaque_key_service.py:199-1321 | a request reaches a slot of an active project in one named way or leaves it alone |
| KeyLag.LateActivation | servidor/api-internal/app/opaque_key_service.py:837-907 | a slot whose due key is activated late admits, after any sequence of operations, cancellations, reveals and sweeps that does not meet the lag with a new replacement or interval, the same keys at every instant as one activated at once |
| KeyLag.NoticedIff | servidor/api-internal/app/opaque_key_service.py:758-834 | exactly what tells the two apart: the lagging slot refuses a replacement or a new interval that the prompt one accepts under the stated conditions |
| KeyVisibility.OneChain | servidor/api-internal/app/opaque_key_service.py:690-753 | each key clients used replaced the one used just before it, and the serving key is the last |
| KeyVisibility.LateSchedulerConfluence | servidor/api-internal/app/opaque_key_service.py:690-753 | rotating at once over a due replacement gives clients what activating it first would have given |
| KeyRegistry.Registry.RotateSlotImmediately | servidor/api-internal/app/opaque_key_service.py:656-755 | the statements of an immediate rotation leave the specified rows, or nothing changed and the refusal |
| KeyRegistry.Registry.PrepareSlotRotation | servidor/api-internal/app/opaque_key_service.py:758-834 | preparing a replacement leaves the specified rows, or nothing changed and the refusal |
| KeyRegistry.Registry.ActivatePendingKey | servidor/api-internal/app/opaque_key_service.py:837-907 | activating a pending key leaves the specified rows, or nothing changed and the refusal |
| KeyRegistry.Registry.ConfirmPendingKeyInstallation | servidor/api-internal/app/opaque_key_service.py:910-975 | confirming covers live and prepared projects and leaves the specified rows, or nothing changed and the refusal |
| KeyRegistry.Registry.CancelPendingKey | servidor/api-internal/app/opaque_key_service.py:978-1042 | cancelling leaves the specified rows, or nothing changed and the refusal |
| KeyRegistry.Registry.DisableSlot | servidor/api-internal/app/opaque_key_service.py:1045-1089 | disabling leaves the specified rows, or nothing changed and the refusal |
| KeyRegistry.Registry.UpdateSlotPolicy | servidor/api-internal/app/opaque_key_service.py:1092-1250 | a policy update leaves the specified rows and expiry, or nothing changed and the refusal |
| KeyRegistry.Registry.CreateSlotWithKey | servidor/api-internal/app/opaque_key_service.py:199-289 | creating a slot leaves the specified rows, or nothing changed and the refusal |
| KeyRegistry.Registry.BootstrapProjectKeys | servidor/api-internal/app/opaque_key_service.py:292-368 | bootstrap leaves two default slots with active keys, or nothing changed and the refusal |
| KeyRegistry.Registry.PrepareProjectKeyMigration | servidor/api-internal/app/opaque_key_service.py:371-468 | preparing a migration leaves two default slots with pending keys, or nothing changed and the refusal |
| KeyRegistry.Registry.ActivatePreparedProjectKeys | servidor/api-internal/app/opaque_key_service.py:618-653 | the whole prepared keyset becomes active in one transaction |
| KeyRegistry.Registry.AbortPreparedProjectKeys | servidor/api-internal/app/opaque_key_service.py:544-615 | the statements over the joined rows remove every slot of the project and no other, or nothing changed and the refusal |
| KeyRegistry.Registry.ValidatePreparedKeys | servidor/api-internal/app/opaque_key_service.py:471-541 | reading the selected rows refuses exactly as the set of prepared keys does |
| KeyMigration.MigrationOrder | servidor/api-internal/app/routers/opaque_keys.py:742-755 | in every reachable state preparation, cutover, activation and readiness are stamped in that order, and only an activated project is ready |
| KeyMigration.CutoverIff | servidor/api-internal/app/routers/opaque_keys.py:611-687 | in every reachable state a cutover starts exactly for a prepared project that is not ready and whose two keys are revealed, confirmed and unexpired, or active already |
| KeyMigration.CutoverCompletes | servidor/api-internal/app/routers/opaque_keys.py:611-755 | a cutover that starts can be activated and declared ready at once; each default slot then admits exactly its prepared key, whose lifetime begins then |
| KeyMigration.AbortIff | servidor/api-internal/app/opaque_key_service.py:544-615 | in every reachable state a prepared migration can be aborted if and only if its cutover has not started |
| KeyMigration.AbortStartsOver | servidor/api-internal/app/opaque_key_service.py:544-615 | after an abort nobody's access has changed, no slot is left, and the project can be prepared or bootstrapped anew |
| KeyMigration.PathNoAccess | servidor/api-internal/app/opaque_key_service.py:371-615 | preparing, confirming, cutting over, aborting and declaring ready change nobody's access, now or later |
| KeyRegistry.Registry.CancelProjectAutomaticPendings | servidor/api-internal/app/opaque_key_service.py:1253-1286 | one pass cancels every automatic replacement of the project not yet in use, and commits only if there was one |
| KeyRegistry.Registry.ClaimKeyReveal | servidor/api-internal/app/opaque_key_service.py:1289-1321 | a reveal stamps the first reading and nothing else |
| KeyRegistry.Registry.SweepExpiredReveals | servidor/api-internal/app/automatic_opaque_key_rotation.py:76-88 | the sweep deletes the stored reveals of every revoked or expired key and nothing else |
| KeyScheduler.SweptRevealsAreGone | servidor/api-internal/app/automatic_opaque_key_rotation.py:76-88 | after a sweep a reveal can be claimed if and only if it could before and its key has not expired |
| KeyRegistry.IndexesHold | servidor/api-internal/app/migrations/0001_control_plane_baseline.sql:249-358 | the lifecycle maintains by itself what the unique partial indexes demand |
| KeyScheduler.Scan | servidor/api-internal/app/automatic_opaque_key_rotation.py:65-387 | at most 100 transitions, with the clock moving; a key is added, activated or replaced and a slot is blocked only under the stated conditions on project, slot and key rows, and nothing else changes; a scan within one instant below the bound has activated every ripe key, blocked every slot gone wrong and prepared every replacement due; admissions are unchanged |
| KeyScheduler.DrainPhase | servidor/api-internal/app/automatic_opaque_key_rotation.py:134-145 | a phase changes slots only as a scan may, and when it stops below its bound leaves no matching row and earlier phases drained |
| KeyScheduler.HandlerNeverRefuses | servidor/api-internal/app/automatic_opaque_key_rotation.py:148-277 | every row selected by a phase's query meets the precondition of its operation |
| KeyScheduler.QuietIsComplete | servidor/api-internal/app/automatic_opaque_key_rotation.py:280-387 | when no query selects anything, everything that a scan must do at that instant is done |
| KeyScheduler.HandledScanned | servidor/api-internal/app/automatic_opaque_key_rotation.py:148-387 | each handled row stays within what a scan may do |
| KeyScheduler.HandledIsQuiet | servidor/api-internal/app/automatic_opaque_key_rotation.py:148-277 | a handled slot no longer matches the query that selected it |
| KeyScheduler.EarlierStaysQuiet | servidor/api-internal/app/automatic_opaque_key_rotation.py:280-387 | handling a later phase gives earlier phases nothing to do |
| KeyScheduler.HandledIsARequest | servidor/api-internal/app/automatic_opaque_key_rotation.py:148-277 | every step of a scan is one of the requests over whose runs safety is proved |
| KeyScheduler.HandledInvisible | servidor/api-internal/app/automatic_opaque_key_rotation.py:148-277 | no scheduler step changes which keys any slot admits, now or later |
| TokenBucket.TrafficStore.Evaluate | servidor/key-authorizer/admission.py:15-37 | the two passes of the script equal the all-or-nothing specification, and nothing runs under another epoch |
| TokenBucket.WaitIsLongest | servidor/key-authorizer/admission.py:20-31 | the announced wait is the longest of the scopes' waits |
| TokenBucket.OneTokenEach | servidor/key-authorizer/admission.py:31-36 | an admission takes exactly one token from each scope and stays non-negative, a denial writes nothing |
| TokenBucket.ExpiryAddsNothing | servidor/key-authorizer/admission.py:25-34 | dropping an idle key never changes the tokens a scope holds |
| TokenBucket.RetryAfterIsLeast | servidor/key-authorizer/admission.py:27-31 | with nothing else admitted the same request passes after n whole seconds if and only if n is at least the announced wait |
| TokenBucket.Conservation | servidor/key-authorizer/admission.py:26-34 | over any sequence of calls, tokens spent and left never exceed tokens held and accrued |
| TokenBucket.WindowBound | servidor/key-authorizer/admission.py:15-37 | in any window a scope admits at most its burst plus its rate times the window |
| TokenBucket.ExpiryRefinesKeeping | servidor/key-authorizer/admission.py:25-35 | under unchanged policies a store that drops idle keys gives every verdict of one that never does |
| Admission.LimitsAreSound | servidor/key-authorizer/admission.py:204-214 | whatever the policies, every limit sent to the script has a distinct scope and a lifetime that covers a full refill |
| Admission.LimitsByPolicy | servidor/key-authorizer/admission.py:184-256 | which scopes are charged and at what rate, burst and lifetime: administrative keys and discovery at fixed rates, else the project at the project's and the slot at the slot's |
| Admission.RedeemIff | servidor/key-authorizer/admission.py:285-304 | a redemption succeeds exactly for a held ticket of the same project, key, credential, method and uri, under the same epoch and revisions |
| AdmissionRuns.Provenance | servidor/key-authorizer/admission.py:285-304 | a redemption answers a charged request with the same project, key, credential, method, uri and revisions, whose only ticket was stored at most ten seconds before and not redeemed since |
| AdmissionRuns.RedeemedIff | servidor/key-authorizer/admission.py:221-304 | over runs, a presentation succeeds if and only if its ticket was stored at most ten seconds before for this very request, charged and under policies that still hold, and nobody presented it since |
| AdmissionRuns.SingleUse | servidor/key-authorizer/admission.py:293-295 | between two redemptions of one ticket name that name was stored again |
| AdmissionRuns.OneChargeEach | servidor/key-authorizer/admission.py:221-304 | two redemptions answer two different charged requests |
| AdmissionRuns.Books | servidor/key-authorizer/admission.py:257-295 | redemptions, tickets outstanding, charged requests without a ticket yet, and tokens left never exceed what the window began with and accrued |
| AdmissionRuns.RedemptionBound | servidor/key-authorizer/admission.py:257-304 | with charging and storing as separate steps at most d seconds apart, redemptions in a window [s,t] of tickets that paid a scope are at most burst + rate * (t - s + 10 + d) |
| AdmissionRuns.RedemptionBoundFromFresh | servidor/key-authorizer/admission.py:257-304 | the same for any run from an empty store under an unchanged policy |
| AdmissionEngine.Engine.IssueTicket | servidor/key-authorizer/admission.py:221-283 | issuing charges, refuses and stores exactly as specified, in the source's order of checks |
| AdmissionEngine.Engine.RedeemTicket | servidor/key-authorizer/admission.py:285-304 | redeeming removes the ticket whatever comes of it and refuses exactly as specified |
| AdmissionEngine.Engine.Rate | servidor/key-authorizer/admission.py:204-219 | the limits built for the scopes are charged together or not at all |
| AdmissionEngine.Engine.Startup | servidor/key-authorizer/admission.py:136-159 | start-up leaves the row and the store as specified, or both untouched, with or without an epoch row |
| Publication.PendingRecovers | servidor/api-internal/app/edge_function_store.py:146-187 | recovery of a pending publication ends in the proposed state exactly when the new context is live, else in the previous one, with drafts and context untouched |
| Publication.CrashesDoNotMatter | servidor/api-internal/app/edge_function_store.py:168-184 | crashing inside recovery any number of times ends where one undisturbed recovery ends |
| Publication.RecoverableIff | servidor/api-internal/app/edge_function_store.py:164-167 | an interrupted publication is recoverable if and only if its draft was not already published; otherwise recovery fails for ever |
| Publication.RecoversIff | servidor/api-internal/app/edge_function_store.py:146-187 | on any disk, exactly which intents recovery accepts, and where it ends |
| Publication.RepublishingCanStick | servidor/api-internal/app/edge_function_store.py:164-167 | a concrete disk inside a republication that no recovery clears |
| Publication.ActivationShows | servidor/api-internal/app/edge_function_store.py:239-248 | publishing another version always changes the published files, so the runtime revision tells the two states apart |
| PublicationStore.Store.Publish | servidor/api-internal/app/routers/studio_edge_functions.py:267-297 | every durable state of a publication, its exception path included, is the previous or proposed state with a live context that belongs to one of them |
| PublicationStore.Store.Recover | servidor/api-internal/app/edge_function_store.py:146-187 | recovery's writes are those specified when all work, and stay inside the publication when some fail |
| PublicationStore.Store.SurvivesCrashes | servidor/api-internal/app/edge_function_store.py:138-187 | a publication and its recoveries cut short anywhere end healthy in the previous or proposed state, drafts untouched |
| PublicationStore.Store.SaveDraft | servidor/api-internal/app/routers/studio_edge_functions.py:241-264 | saving a draft changes no published file and keeps every durable state healthy |
| PublicationStore.Store.Configure | servidor/api-internal/app/routers/studio_edge_functions.py:177-215 | reconfiguring never leaves a live context that differs from the published files |
| PublicationStore.Store.ActivateContext | servidor/api-internal/app/edge_functions.py:196-207 | activation puts the context live and removes exactly the generations retired more than two minutes ago |
| Publication.CodeOutlivesUse | servidor/api-internal/app/edge_functions.py:70-91 | code that was live stays on disk for two minutes after it is replaced or withdrawn, over any sequence of publications and withdrawals |
| Publication.ActivationLeaves | servidor/api-internal/app/edge_functions.py:196-207 | an activation leaves exactly its own generation, the one it replaces and those touched in the last two minutes |
| PublicationStore.Store.PrepareContext | servidor/api-internal/app/edge_functions.py:161-193 | a prepared context names a generation stored with exactly those files |
| ReferenceRotation.Rotation.Rotate | servidor/generateProject/rotate_project_reference.py:378-427 | in every durable state whatever serves agrees with the database; success, reversion and refusal each leave the stated machine |
| ReferenceRotation.Rotation.Rollback | servidor/generateProject/rotate_project_reference.py:299-317 | an undisturbed rollback restores reference, files and recorded services, and every state of one cut short can be rolled back again |
| ReferenceRotation.Rotation.RecoverRollback | servidor/generateProject/rotate_project_reference.py:319-376 | an undisturbed recovery succeeds if and only if a manifest is durable |
| ReferenceRotation.Rotation.Switch | servidor/generateProject/rotate_project_reference.py:402-410 | every state on the way is safe and restorable, and it ends with nothing serving, the files rendered and the reference swapped |
| ReferenceRotation.Rotation.Render | servidor/generateProject/rotate_project_reference.py:246-283 | all four files carry the new reference with their modes kept |
| ReferenceRotation.Rotation.SurvivesCrashes | servidor/generateProject/rotate_project_reference.py:299-427 | after any crash and any interrupted recoveries an undisturbed recovery restores the old machine with its services; without a manifest nothing was touched, services included, or the journal was removed already and files agree with the database |
| ReferenceRotation.FirstWriteSticks | servidor/generateProject/rotate_project_reference.py:319-394 | a concrete machine after a rotation's first write on which recovery fails although every command works, and no rotation starts |
| ReferenceRotation.Host.Swap | servidor/generateProject/rotate_project_reference.py:145-153 | the reference changes only from the expected value, in one transaction |
| SnippetPlan.TargetsAreStable | tools/migrate_snippet_namespaces.py:47-64 | a directory's target is never itself moved, so no group's target is another group's source |
| SnippetPlan.MovesToItsProject | tools/migrate_snippet_namespaces.py:47-64 | a user's directory under a name that alone claims it moves to that user's directory of the project's identity, with the rest of its name |
| SnippetPlan.MovedReads | tools/migrate_snippet_namespaces.py:47-64 | and nothing else moves |
| SnippetPlan.StaysIff | tools/migrate_snippet_namespaces.py:55-61 | a directory stays exactly when it names a catalogued project by identity and no name claims it |
| SnippetPlan.Shapes | tools/migrate_snippet_namespaces.py:18-36 | identifiers, technical names and public references, letter by letter |
| SnippetTrees.MergeIsUnion | tools/migrate_snippet_namespaces.py:140-145 | merging compatible sources holds exactly their union, every file with its content and mode |
| SnippetTrees.OrderDoesNotMatter | tools/migrate_snippet_namespaces.py:140-145 | the merged tree does not depend on the order of copying |
| SnippetTrees.CheckSources | tools/migrate_snippet_namespaces.py:65-84 | the check accepts exactly the sources whose files and directories do not conflict |
| SnippetPlanner.Mapping | tools/migrate_snippet_namespaces.py:22-38 | the catalogue is accepted exactly when it gives every name one project, and then the map is that |
| SnippetPlanner.Plan | tools/migrate_snippet_namespaces.py:41-85 | the plan groups every movable directory under its target, or names what prevents it |
| SnippetPlanner.PlannedByCatalog | tools/migrate_snippet_namespaces.py:41-67 | in terms of the catalogue: each claimed directory is in exactly the group of its user's directory for the project, and besides existing targets nothing else is in a group |
| SnippetPlanner.OneUserEach | tools/migrate_snippet_namespaces.py:47-64 | all directories of a group and its target are one user's |
| SnippetPlanner.PlannedIsWell | tools/migrate_snippet_namespaces.py:46-68 | in a plan groups are disjoint and an existing target is among its own sources only |
| SnippetMigration.MigrationLosesNothing | tools/migrate_snippet_namespaces.py:140-163 | each target holds exactly the union of its sources, other sources are gone, nothing else changed |
| SnippetMigration.Directory.Migrate | tools/migrate_snippet_namespaces.py:129-168 | a migration succeeds with the planned result, and every durable state of it can be rolled back |
| SnippetMigration.Directory.Rollback | tools/migrate_snippet_namespaces.py:95-126 | an undisturbed rollback restores exactly the original directories if and only if the journal's names are accepted, and every state of one cut short can be rolled back again |
| SnippetMigration.Directory.SurvivesCrashes | tools/migrate_snippet_namespaces.py:95-168 | after any crash and interrupted rollbacks an undisturbed one leaves the originals or the finished migration, unless it refuses a name |
| SnippetMigration.AcceptedIff | tools/migrate_snippet_namespaces.py:88-92 | a planned migration can be rolled back if and only if no source has a backslash in its name |
| SnippetMigration.ValidNamespaceIff | tools/migrate_snippet_namespaces.py:88-92 | the names that rollback accepts are exactly a user's identifier, a separator and a scope without slash or backslash |
| SnippetMigration.BackslashMoves | tools/migrate_snippet_namespaces.py:88-108 | a directory that planning moves and rollback refuses |
| ActionQueue.StepKeeps | servidor/api-internal/app/jobs.py:319-366 | every step of every worker keeps the lock table equal to what the workers hold |
| ActionQueue.MutualExclusion | servidor/api-internal/app/jobs.py:289-366 | a running action owns its own and its additional projects' rows, and no other running action works on any of them |
| ActionQueue.OwnsExactly | servidor/api-internal/app/jobs.py:289-359 | a running worker owns exactly its action's rows, a waiting one exactly those below the row it wants |
| ActionQueue.OwnsLowest | servidor/api-internal/app/jobs.py:289-366 | a worker's rows are always the lowest of its action: taken in ascending and returned in descending order |
| ActionQueue.WantsHigher | servidor/api-internal/app/jobs.py:289-291 | along a chain of waits the wanted rows ascend |
| ActionQueue.NoCircularWait | servidor/api-internal/app/jobs.py:353-359 | workers never wait in a circle |
| ActionQueue.SomeoneAdvances | servidor/api-internal/app/jobs.py:319-366 | while some worker has work some worker can step |
| ActionQueueRuns.EveryReachableState | servidor/api-internal/app/jobs.py:296-388 | exclusion, absence of circular waits and progress hold after every run |
| ActionQueueRuns.Fifo | servidor/api-internal/app/jobs.py:319-388 | each action is run or reported failed once, in the order of submission |
| ActionQueueRuns.EveryRunFinishes | servidor/api-internal/app/jobs.py:319-366 | without new submissions every schedule is bounded and stops only with empty queues and free locks |
| ActionQueueRuns.OnceSubmittedHandled | servidor/api-internal/app/jobs.py:319-388 | then every submitted action has been handled, in order |
| ActionQueueService.ProjectActionQueue.SubmitAction | servidor/api-internal/app/jobs.py:368-388 | submitting appends to the project's queue, creates its worker if needed and returns the position |
| ActionQueueService.ProjectActionQueue.AcquireLocks | servidor/api-internal/app/jobs.py:289-359 | unblocked, the worker owns exactly its project's and the additional rows; blocked, exactly those below the one another session holds |
| ActionQueueService.ProjectActionQueue.ReleaseLocks | servidor/api-internal/app/jobs.py:361-366 | everything acquired is released in reverse order |
| ActionQueueService.UnlockAllFrees | servidor/api-internal/app/jobs.py:361-366 | after its release a worker holds nothing and the others hold what they held |
| ReplayTable.AcceptedOnce | servidor/api-internal/app/internal_service_auth.py:44-170 | in any run of any number of processes with their own caches, requests interleaved between cache and database, restarts, lost answers and purges, no signature is accepted twice within a margin of four seconds |
| ReplayTable.NewNonceIsAccepted | servidor/api-internal/app/internal_service_auth.py:44-121 | over runs, a timely request gets through if its process has not met the nonce and nobody has claimed it: other nonces never stand in its way |
| ReplayTable.MarginIsFourSeconds | servidor/api-internal/app/internal_service_auth.py:94-170 | a margin is safe for a new fleet if and only if it is at most four seconds |
| ReplayTable.Replay | servidor/api-internal/app/internal_service_auth.py:94-170 | for every larger margin a run of two processes that accepts one signature twice |
| ReplayTable.SameProcessRefuses | servidor/api-internal/app/internal_service_auth.py:103-121 | whatever the margin, the process that passed a signature turns it away again unless it restarted, twenty thousand other claims came between, or one of them read a later clock than any replay can |
| ReplayGuard.ClaimIsExact | servidor/api-internal/app/internal_service_auth.py:103-121 | the cache passes a claim exactly when the nonce has no unexpired entry |
| ReplayGuard.KeysIff | servidor/api-internal/app/internal_service_auth.py:103-105 | for services without a colon, two keys are equal if and only if the services are and the nonces are equal up to case |
| ReplayGuard.ClaimKeeps | servidor/api-internal/app/internal_service_auth.py:103-121 | after any claim the cache holds each nonce once and at most 20000 of them |
| ReplayGuard.OrderIff | servidor/api-internal/app/internal_service_auth.py:117-121 | an accepted claim keeps the cache ordered by expiry if and only if its clock is not older than the newest entry's |
| ReplayGuard.LateReadingsDisorder | servidor/api-internal/app/internal_service_auth.py:117-121 | two claims whose readings arrive in reverse order leave the cache out of order |
| ReplayGuard.OrderedWhenClocksAre | servidor/api-internal/app/internal_service_auth.py:107-121 | with readings in order the cache stays ordered and holds nothing expired |
| ReplayGuard.ProcessRemembers | servidor/api-internal/app/internal_service_auth.py:107-121 | one process refuses a replay unless twenty thousand other claims came between |
| ReplayService.Process.ClaimInMemory | servidor/api-internal/app/internal_service_auth.py:103-121 | the purge and eviction loops leave the specified cache |
| ReplayService.Process.Authenticate | servidor/api-internal/app/internal_service_auth.py:124-177 | the order of checks and their statuses; a request is let through if and only if the fleet's history with its events accepts it; a well-signed request with a nonce new to its process and to the database gets through when the database answers, any other form of request never does |
| CommandWait.OnlyForward | servidor/host-agent/hostagent/db.py:146-322 | under any interleaving of guarded updates a command moves only forward, keeps its worker, and a terminal one never changes |
| CommandWait.UpdateExact | servidor/host-agent/hostagent/db.py:146-322 | which statement changes a command in which status, for which worker, and how |
| CommandWait.EndedByItsWorker | servidor/host-agent/hostagent/db.py:146-322 | a command that ends done was leased before and reported by the worker of that lease, with that worker's report |
| CommandWait.LeaseIsItsWorkers | servidor/host-agent/hostagent/db.py:146-322 | a running command's lease is the one its own worker took or renewed last |
| CommandWait.FirstEndWins | servidor/api-internal/app/host_agent.py:197-268 | the first update that ends a command decides its outcome |
| CommandWait.CancelledInQueueNeverRuns | servidor/api-internal/app/host_agent.py:198-229 | a command cancelled in the queue reached no worker and never will |
| CommandWait.WaitCommand | servidor/api-internal/app/host_agent.py:152-270 | the loop ends within twice (timeout + 120 s), two polls and a few statements, with the row's final content; each update it issues is justified by what it saw: one status for longer than timeout + 120 s, a running lease lapsed for more than a minute, or more than a minute of checks with no agent alive |
| CommandWait.WatchLease | servidor/api-internal/app/host_agent.py:229-254 | a running command is failed for its lease if and only if the lease lapsed more than a minute ago |
| CommandWait.WatchQueue | servidor/api-internal/app/host_agent.py:211-234 | after more than a minute without a living agent the command leaves the queue, and only then |

## Left out

- Routing, HTTP, Docker, psql, certificates and process control: their answers are inputs, or commands that may fail before or after taking effect.
- Secrets, reveal encryption, audit rows, notifications, error messages and allowed-service lists of keys: no modelled transition reads them.
- `updated_at` and error-text columns: no query of the model reads them.
- KeyScheduler.Scan: fetches matching rows in any order, so `ORDER BY`, `SKIP LOCKED` contention and the scan's own advisory lock are not modelled; a row locked by someone else would wait for the next scan.
- KeyVisibility.NoGapIff: speaks of one slot on which nothing happens meanwhile; `KeyContinuity.NoGap` covers runs.
- KeyVisibility.OnlyDisableInterrupts: speaks of one slot; `KeyContinuity.OnlyDisablingInterrupts` covers every request in every reachable state.
- KeyLag.LateActivation: compares one slot under the same sequence of visits with the same drawn identifiers, not two whole databases.
- TokenBucket.WindowBound: claims nothing across a policy change, where the stored rate and capacity still apply once; floating-point rounding is not modelled.
- AdmissionRuns.RedemptionBound: takes any bound d on the time from a request's charge to its stored ticket; the source sets none.
- Geographic evaluation, the administrative networks and the request quota appear as inputs of `Admission.Ask`; the private Functions transport and its scope are not modelled.
- Publication storage that was tampered with, symbolic links, malformed JSON and the validation of file names: the model's revisions are the files they name.
- PublicationStore.Store.ActivateContext: touching the retired generation and replacing the context file happen at one reading of the clock.
- The database row that enables Edge Functions, and the lock that serializes one project's operations.
- ReferenceRotation.Rotation.RecoverRollback: the identity fields of the manifest are not modelled, one journal belonging to one rotation; a file is its reference, the rest of its text and its mode.
- SnippetTrees.CheckSources: compares a tree at a time, not a child at a time; directory modes and plain files beside the namespaces are not modelled.
- SnippetMigration.Directory.Migrate: nobody else writes to the directory meanwhile, the gateway being stopped.
- ActionQueueRuns.EveryRunFinishes: shutdown and cancellation of workers, and a failing unlock, are not modelled.
- ReplayService.Process.Authenticate: the signature check is an input; a call runs from arrival to answer, and requests interleaved between cache and database are the runs of `ReplayTable`.
- CommandWait.WaitCommand: progress callbacks are delays; liveness of agents is an arbitrary answer at each poll.
- Re-attaching a wait to a job's earlier command, the lease query and the agent's own scheduling: easy members.
