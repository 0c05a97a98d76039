# Verified models of the fleet platform's operational scripts

A Dafny 4.11 project that models the scripts which move, provision and guard the fleet platform's
stored state, and proves what their documentation and their operators rely on. Each remote store
(DynamoDB table, Secrets Manager, Cognito user pool, producer API) is a map; each call to it is one
step that may succeed, be refused, or be where the run dies; where the script shares its store, other
writers act before the call. A finite script of outcomes drives a run, so a statement over all scripts
is a statement over every failure and every crash point. Once the script is used up, nothing
disturbs the run any more: a run with an empty script is called calm.

Every script that changes a store is modelled twice: as a function from state to state, about which
the results are proved, and as a class whose methods and loops do the updates step by step and are
proved to compute exactly that function.

`dafny verify dfyconfig.toml` checks the whole project.

## What is modelled

| files | script |
|---|---|
| `Subscriber*.dfy` | two-store provisioning of a subscriber, its subscriptions and its secrets |
| `PythonAst.dfy`, `TransformParity.dfy` | the static extractor of emitted telemetry keys |
| `ProducerSemantics.dfy`, `ExtractionSoundness.dfy` | a semantics of the producers it reads, and what its answer says about their runs |
| `Manifest*.dfy` | consolidation of two default model manifests under interference |
| `CampaignOwner.dfy` | inheritance of campaign owners along source links |
| `Persona*.dfy` | moving demo personas out of operator groups, call by call |
| `Dtc*.dfy` | collapsing duplicate trouble-code rows |
| `ViewerParity.dfy` | line-by-line parity of a mirrored component up to one replacement |
| `SourceMasking.dfy` | in-place masking of strings and comments before a source check |
| `CoolantClear.dfy` | conditional clean-up through a paged scan with concurrent writers |
| `GrouplessScan.dfy` | the scan for account creation without group assignment |
| `VehicleModels.dfy`, `VehiclePipeline.dfy` | brand conversion, model lines, and the two vehicle back-fills run one after the other |
| `SeverityThresholds.dfy` | the threshold bindings of a mirrored severity scale |
| `CatalogAlignment.dfy` | patching event-catalog items to their desired signals |

## Where the code is not what it says

Each of these comes with a lemma at an input that shows it and, except for the last two items, with the
exact condition under which code and promise agree.

- A product called `subscriber` shares its secret's name with the legacy product
  (`SubscriberHistories.SubscriberProductBreaksLegacySecret`; exactly when:
  `SubscriberProofs.SecretNamesCollide`).
- The key extractor unions three literal forms so that a gap means a key the producer never emits, and
  promises to count an `update` with anything but a literal. A key put into the payload in another form is
  neither extracted nor counted, and is reported as a gap: a computed subscript, as the one producer in scope
  has at services/simulation/realtime_telemetry_simulator.py:4628 and 4636
  (`ExtractionSoundness.ComputedKeyIsMissed`; nothing but such keys is missed:
  `ExtractionSoundness.ExtractionIsSound`, `ExtractionSoundness.OnlyComputedKeysAreMissed`).
- One refused read of an altered manifest record, or two of an unaltered one, make the consolidation answer
  exit code 0 with the old record still there (`ManifestConsolidation.RefusedReadsHideTheRecord`; exactly
  when: `ManifestConsolidation.ExitOkMeansRetired`).
- Owner inheritance is documented as taking what rules 1 and 2 give the source; the code takes the owner the
  source has, or would itself inherit, however far back (`CampaignOwner.RecordedOwnerIsInherited`; exactly
  when they agree: `CampaignOwner.AgreesWithDocumentationExactly`).
- A source cycle between ownerless campaigns, of any length, is classified forever
  (`CampaignOwner.SourceCycleNeverHalts`; exactly when: `CampaignOwner.HaltsExactly`).
- The coolant clean-up's write is conditional on the status alone, while
  modules/flink/src/main/java/com/cms/telemetry/MaintenanceProcessor.java:1186-1190 updates readings of active rows in place: a
  real alarm reported between a row's fetch and its write is cleared (`CoolantClear.RealAlarmIsCleared`;
  exactly when: `CoolantClear.WritesHitSelectedExactly`).
- The duplicate clean-up documents a fallback to the timestamp for a missing `firstSeenAt`; the code reads it
  as 0, so such a row outlives every other (`DtcCollapse.LateRowOutlivesTheFirst`; exactly when it matters:
  `DtcCollapse.MissingFirstSeenWins`). A re-run after a partly failed one may lower the count and the time it
  wrote (`DtcCollapse.RerunLowersTheMarks`; exactly when: `DtcCollapse.CountsSurviveARerun`).
- A retired-brand vehicle without a derivable line can gain one by being converted
  (`VehicleModels.ConvertedWindroseGainsALine`; exactly when: `VehicleModels.ConversionKeepsTheLine`), and
  seeding a data source turns a legacy cloud vehicle of another make than Ford onboard
  (`VehiclePipeline.LegacyToyotaTurnsOnboard`; exactly when: `VehiclePipeline.BackfillKeepsClassExactly`).
- The scan for groupless accounts documents that it grants no implicit exemption; a create call outside every
  function is never reported (`GrouplessScan.ModuleLevelCallsAreExempt`; exactly what is reported:
  `GrouplessScan.NoViolationExactly`).
- A line with two allowlisted imports of which one was replaced has the right normal form and is still drift
  (`ViewerParity.HalfReplacedLineIsDrift`).
- A harmless extra threshold is still a failure (`SeverityThresholds.HarmlessExtraIsReported`).

## Model

| member | source | states |
|---|---|---|
| SubscriberProofs.SecretNamesCollide | scripts/provision-cms-subscriber.py:177-195 | two products share a secret name exactly when they are equal, or are the legacy telemetry product and one called `subscriber` |
| SubscriberProofs.RefreshKeeps | scripts/provision-cms-subscriber.py:585-618 | confirming or recreating a subscription for an existing secret keeps the store invariant, at every crash point |
| SubscriberProofs.ProvisionProductKeeps | scripts/provision-cms-subscriber.py:566-635 | one product's provisioning keeps every secret backed by the account's real password and identity and by an issued subscription |
| SubscriberProofs.RunKeeps | scripts/provision-cms-subscriber.py:444-564 | the single-product run keeps the invariant through every failure and crash, and leaves no unsaved subscription when it succeeds |
| SubscriberProofs.RunMultiKeeps | scripts/provision-cms-subscriber.py:637-709 | the same for the multi-product run |
| SubscriberHistories.HistoryKeeps | scripts/provision-cms-subscriber.py:444-709 | the invariant holds after any history of runs of either kind, cut off anywhere, with any revocations between them |
| SubscriberHistories.ReachableSecretsAreBacked | scripts/provision-cms-subscriber.py:444-709 | every secret any history stores names an existing promoted account, with its real password and id and a subscription issued to it for that product |
| SubscriberHistories.SubscriberProductBreaksLegacySecret | scripts/provision-cms-subscriber.py:191-195 | provisioning a product called `subscriber` leaves the legacy secret holding another product's subscription |
| SubscriberHistories.LostCountsGapCrashes | scripts/provision-cms-subscriber.py:543-555 | the subscriptions no secret records are exactly as many as the crashes between creating one and storing it |
| SubscriberHistories.SubscriptionsAreBounded | scripts/provision-cms-subscriber.py:444-709 | over any history the subscriptions ever issued for a product are at most one, plus its revocations, plus the crashes in that gap |
| SubscriberHistories.OrphanedRunRaises | scripts/provision-cms-subscriber.py:501-516 | with an account and no recoverable secret every run raises and leaves both stores as they were |
| SubscriberHistories.OrphanedForever | scripts/provision-cms-subscriber.py:501-516 | and so does every later history |
| SubscriberCalmRuns.CalmRun | scripts/provision-cms-subscriber.py:444-564 | what an undisturbed single-product run does in each of its three starting situations, and the action, product, subscription id and secret it reports |
| SubscriberCalmRuns.KeptSecretExactly | scripts/provision-cms-subscriber.py:452-499 | on a secret with a subscription, trustworthy or not, an undisturbed run raises exactly when the account is gone or does not sign in with the kept password, changing nothing, and else keeps the subscription exactly when it is live and the account's own |
| SubscriberCalmRuns.IncompleteSecretIsReplaced | scripts/provision-cms-subscriber.py:579-635 | a product whose secret has no subscription id is given a new subscription and a whole new secret, and that id is reported |
| SubscriberCalmRuns.CalmRunMulti | scripts/provision-cms-subscriber.py:637-709 | an undisturbed multi-product run creates exactly one subscription for each distinct product that needs one, answers noop for the rest and repeats, and leaves every other secret alone |
| SubscriberCalmRuns.CalmFirstRun | scripts/provision-cms-subscriber.py:686-709 | on an empty account it opens the account and creates each distinct product once |
| SubscriberCalmRuns.RaisesIffNothingRecoverable | scripts/provision-cms-subscriber.py:656-684 | with the account present it raises exactly when no requested product and no legacy secret yields a password |
| SubscriberCalmRuns.IncrementalIdempotence | scripts/provision-cms-subscriber.py:637-709 | after a completed run on one list, a run on any list sharing a product with it, or with the legacy secret there, adds exactly the missing products |
| SubscriberCalmRuns.SecondRunChangesNothing | scripts/provision-cms-subscriber.py:579-598 | repeating a run changes neither store and answers noop throughout |
| SubscriberProvisioner.Stores.CreateSubscription | scripts/provision-cms-subscriber.py:303-317 | creating a subscription issues one under a new id to the account behind the token |
| SubscriberProvisioner.Provisioner.PromotePassword | scripts/provision-cms-subscriber.py:430-442 | no call in a dry run; a live one raises exactly when the call fails or there is no account, else only that account changes: it can sign in with this password and keeps its identity |
| SubscriberProvisioner.Provisioner.ProvisionProduct | scripts/provision-cms-subscriber.py:566-635 | the method's calls, in order and with every early exit, compute the modelled provisioning |
| SubscriberProvisioner.Provisioner.Run | scripts/provision-cms-subscriber.py:444-564 | the same for the single-product run; however it ends every secret stays backed and every subscription accounted for, and none is left unrecorded unless it raises |
| SubscriberProvisioner.Provisioner.RunMulti | scripts/provision-cms-subscriber.py:637-709 | the same for the recovery loop and the product loop of the multi-product run, for lists without `subscriber` |
| TransformParity.FindFunction | scripts/check_transform_manifest_parity.py:214-228 | the first function of that name in walk order is found, and none only when there is none |
| TransformParity.EmittedKeys | scripts/check_transform_manifest_parity.py:200-283 | the accumulating loops compute the extraction of the first function of that name, described node by node: its keys and count are as the three rows after this one say |
| TransformParity.ExtractedExactly | scripts/check_transform_manifest_parity.py:252-283 | a key is extracted exactly when a node of the function returns a display with it, assigns one to the payload name itself, writes it as a literal subscript of that name, or passes a display with it to that name's `update` |
| TransformParity.PayloadIsLastReturned | scripts/check_transform_manifest_parity.py:230-250 | the payload name is the one the last return of a name in walk order returns, and there is none exactly when no return is of a name |
| TransformParity.UnresolvedCounts | scripts/check_transform_manifest_parity.py:268-282 | the count is the number of argument places of that name's `update` calls that hold no display |
| ExtractionSoundness.ExtractionIsSound | scripts/check_transform_manifest_parity.py:230-283 | for every producer and every run of it, through branches, loops, aliases and code that is not seen: a returned key is extracted, or was put there in a form the extractor does not read |
| ExtractionSoundness.OnlyComputedKeysAreMissed | scripts/check_transform_manifest_parity.py:203-283 | of a producer that keeps its payload to itself and writes it in the three forms and by computed subscripts, a returned key that is not extracted was put there by a computed subscript |
| ExtractionSoundness.TidyProducersAreCovered | scripts/check_transform_manifest_parity.py:203-283 | and of one that writes it in the three forms alone every returned key is extracted |
| ExtractionSoundness.ComputedKeyIsMissed | scripts/check_transform_manifest_parity.py:210-212 | with any set of extracted keys and nothing counted unresolvable, a producer can return any further key through a computed subscript |
| TransformParity.FirstDot | scripts/check_transform_manifest_parity.py:393-398 | the head is what precedes the first dot, or the whole path without one |
| TransformParity.Gaps | scripts/check_transform_manifest_parity.py:386-412 | the two passes report exactly the paths whose head is not extracted, and list exactly the dotted ones that are covered by their head |
| ExtractionSoundness.GapsAreEmittedOnlyUnread | scripts/check_transform_manifest_parity.py:386-412 | the head of a reported gap is a key no run returns, unless the run put it there in a form the extractor does not read |
| ExtractionSoundness.GapsAreNeverEmitted | scripts/check_transform_manifest_parity.py:386-412 | and is one no run returns where the payload is kept and written in the three forms alone |
| PythonAst.WalkVisitsTree | scripts/check_transform_manifest_parity.py:253-253 | the breadth-first walk meets exactly the nodes at and below its root |
| ManifestConsolidation.ScanSeesAll | deployment/scripts/consolidate_default_model_manifest.py:111-133 | a page-by-page scan lists every vehicle still naming the old manifest when it ends, though others write between its pages |
| ManifestConsolidation.ConsolidateOnward | deployment/scripts/consolidate_default_model_manifest.py:204-334 | through any interleaving and up to any call a run dies at, no vehicle comes to name the old manifest and the new record stays |
| ManifestConsolidation.NeverOrphansAVehicle | deployment/scripts/consolidate_default_model_manifest.py:236-315 | the old record is never absent while a vehicle names it, during a run, after it, or after later writers |
| ManifestConsolidation.ExitOkMeansRetired | deployment/scripts/consolidate_default_model_manifest.py:287-334 | exit code 0 under apply means no referents and the new record there; the old record is left exactly when it was there when phase 2 began and nobody dropped it, its last read was refused, and its first was too or it was altered before its deletion |
| ManifestConsolidation.RefusedReadsHideTheRecord | deployment/scripts/consolidate_default_model_manifest.py:150-166 | two refused reads of the record give exit code 0 with the record in place, and one does when the record is altered |
| ManifestConsolidation.PartialRunKeepsSettlement | deployment/scripts/consolidate_default_model_manifest.py:227-334 | a run cut off anywhere leaves a state with the same end |
| ManifestConsolidation.CalmConsolidate | deployment/scripts/consolidate_default_model_manifest.py:227-334 | an undisturbed run moves every vehicle and retires the record, or keeps an altered record and answers 3 |
| ManifestConsolidation.CalmExitCodes | deployment/scripts/consolidate_default_model_manifest.py:204-334 | undisturbed, an unconfirmed production apply answers 2, a missing new manifest 4, and a dry run 0 with referents and record as they were |
| ManifestConsolidation.RefusedCallsAreReported | deployment/scripts/consolidate_default_model_manifest.py:150-166 | a refused read of the new manifest ends the run with 4, a refused deletion with 5, the record in place |
| ManifestConsolidation.RestartReachesTheSameEnd | deployment/scripts/consolidate_default_model_manifest.py:227-334 | a rerun after a crash at any step ends where an uninterrupted run would have |
| ManifestConsolidation.DryRunWritesNothing | deployment/scripts/consolidate_default_model_manifest.py:211-334 | without apply, or refused by the production gate, nothing changes |
| ManifestTables.Tables.ScanReferents | deployment/scripts/consolidate_default_model_manifest.py:111-133 | the cursor loop computes the modelled scan |
| ManifestTables.Tables.MoveOne | deployment/scripts/consolidate_default_model_manifest.py:172-199 | at most this vehicle changes, only from the old manifest to the new, and what each of the three answers says about it |
| ManifestTables.Tables.Consolidate | deployment/scripts/consolidate_default_model_manifest.py:204-334 | the whole method computes the modelled run, keeps the record while a vehicle names it, and answers 0 only with every vehicle moved and the new record there |
| CampaignOwner.HaltsExactly | deployment/scripts/backfill_campaign_owner.py:115-151 | a row's classification returns exactly when its source link does not lead into a set of inheriting campaigns each sourced from one of them |
| CampaignOwner.AllHaltExactly | deployment/scripts/backfill_campaign_owner.py:115-151 | every row's does exactly when the source links are well-founded |
| CampaignOwner.SourceCycleNeverHalts | deployment/scripts/backfill_campaign_owner.py:136-148 | the campaigns of a source cycle of any length, one included, are never classified |
| CampaignOwner.OwnerIsTheOrigins | deployment/scripts/backfill_campaign_owner.py:115-151 | the owner proposed is the one the campaign at the end of the source links has, or would be given by itself |
| CampaignOwner.AgreesWithDocumentationExactly | deployment/scripts/backfill_campaign_owner.py:136-151 | an inheriting campaign is given the documented owner exactly when its source's recorded owner, or else that of the source's origin, is the one the source's own target and name give |
| CampaignOwner.RecordedOwnerIsInherited | deployment/scripts/backfill_campaign_owner.py:136-148 | a campaign sourced from one owned by another fleet is given that owner where the documented rule gives `oem` |
| CampaignOwner.ProposalsAreNotEmpty | deployment/scripts/backfill_campaign_owner.py:115-151 | a proposed owner is never empty |
| CampaignOwner.ClassificationSurvivesWrites | deployment/scripts/backfill_campaign_owner.py:115-151 | proposed owners written, and owners claimed by others off a row's way to its origin, leave the row's classification as it was |
| CampaignOwner.ClaimReachesItsHeirs | deployment/scripts/backfill_campaign_owner.py:136-148 | a claim of one campaign gives the claimed owner to every ownerless row that inherits through it and leaves all others as they were |
| CampaignOwner.SameTarget | deployment/scripts/backfill_campaign_owner.py:207-227 | a partly filled, partly claimed table still classifies everywhere, and gives campaigns clear of claims the same assignment |
| CampaignOwner.RunFills | deployment/scripts/backfill_campaign_owner.py:190-277 | however a run fails and whatever others claim meanwhile, a campaign clear of claims is given the proposed owner or none, and exit code 0 means all of them are and no campaign lacks an owner |
| CampaignOwner.EndlessRecursionWritesNothing | deployment/scripts/backfill_campaign_owner.py:207-227 | a row whose classification does not return ends the run before its first write |
| CampaignOwner.DryRunWritesNothing | deployment/scripts/backfill_campaign_owner.py:229-245 | a dry run makes no call whatever the faults, and answers 0 exactly when every classification returns |
| CampaignOwner.RunGoesThrough | deployment/scripts/backfill_campaign_owner.py:247-277 | a refused update stops neither the run nor later updates: on links that return, without a crash a run answers 0 or 1 |
| CampaignOwner.HistoriesAreConfluent | deployment/scripts/backfill_campaign_owner.py:190-277 | on well-founded links, after any history of crashes, failures and claims an undisturbed run exits 0, and any run that does leaves each campaign clear of claims with what the very first table proposes, none without an owner, and nothing for a further run to propose |
| CampaignOwner.OwnersSurvive | deployment/scripts/backfill_campaign_owner.py:158-182 | an owner already there is never overwritten |
| CampaignOwner.CampaignTable.Update | deployment/scripts/backfill_campaign_owner.py:158-182 | at most this row changes, only from no owner to the proposed one, and what each of the three outcomes says about it |
| CampaignOwner.CampaignTable.Backfill | deployment/scripts/backfill_campaign_owner.py:190-277 | classify-then-write, loop by loop, computes the modelled run; owners survive, nothing but proposed owners and claims is new, and exit code 0 means every campaign has an owner |
| PersonaGroups.StepIsSafe | deployment/scripts/deprivilege_demo_personas.py:698-722 | each call leaves exactly the rest of the plan to do, and a grant is made only with no removal outstanding and the scope set |
| PersonaGroups.SendAllIsSafe | deployment/scripts/deprivilege_demo_personas.py:698-722 | one persona's calls, stopped anywhere, stay on the way to its target and touch no other account |
| PersonaGroups.ComputeDiffIsCurrent | deployment/scripts/deprivilege_demo_personas.py:525-565 | the diff reads only, covers exactly the personas in scope, and misses nothing, refused scope reads included |
| PersonaGroups.RunIsSafe | deployment/scripts/deprivilege_demo_personas.py:606-776 | however a run fails, every write so far is a scoped persona's and every grant was safe; a dry run writes nothing; exit code 0 under apply means every scoped account is at its target |
| PersonaGroups.ProductionIsGated | deployment/scripts/deprivilege_demo_personas.py:622-690 | a production apply that is not confirmed, or whose membership count differs, leaves pool and log as they were; it answers 0 only when confirmed and the one persona asked for is not in scope |
| PersonaGroups.DryRunWritesNothing | deployment/scripts/deprivilege_demo_personas.py:692-697 | without apply nothing is written, whatever the target table and the faults |
| PersonaGroups.WritesArePermitted | deployment/scripts/deprivilege_demo_personas.py:606-776 | every write of any run is under apply, confirmed where in production, asked for by the table for that stage and persona, and grants no operator group to anyone but the fleet manager |
| PersonaGroups.BadTargetsAreRefused | deployment/scripts/deprivilege_demo_personas.py:486-517 | a table that grants platform-admin, or an operator group to anyone but the fleet manager, ends the run before its first call |
| PersonaGroups.EveryoneHasArrived | deployment/scripts/deprivilege_demo_personas.py:734-776 | exit code 0 under apply means each scoped account holds exactly its old groups less the removals plus the grants, and the scope the table gives |
| PersonaGroups.RefusedScopeReadRewrites | deployment/scripts/deprivilege_demo_personas.py:525-565 | a refused scope read counts as an unset scope, so the plan writes it once more |
| PersonaGroups.RefusalsDoNotStop | deployment/scripts/deprivilege_demo_personas.py:698-729 | a refused write ends its persona's turn and nobody else's |
| PersonaGroups.PlatformAdminIsNeverGranted | deployment/scripts/deprivilege_demo_personas.py:486-517 | no run grants platform-admin |
| PersonaGroups.AttemptsMoveToward | deployment/scripts/deprivilege_demo_personas.py:692-729 | after any history of failed and crashed runs each account lies between its first state and its target |
| PersonaGroups.CalmRunConverges | deployment/scripts/deprivilege_demo_personas.py:692-776 | from there one undisturbed run exits 0 with each account at the target of the state the first run found |
| PersonaPool.UserPool.ApplyOne | deployment/scripts/deprivilege_demo_personas.py:700-722 | the remove loop, the scope write and the add loop compute the modelled plan, stopping at the first refusal |
| PersonaPool.UserPool.VerifyPersona | deployment/scripts/deprivilege_demo_personas.py:734-759 | the read-back accepts exactly the accounts at their target |
| PersonaPool.UserPool.Run | deployment/scripts/deprivilege_demo_personas.py:606-776 | the method computes the modelled run; past the production gate or without apply the pool stays, every new log entry is permitted, and exit code 0 means every scoped account has arrived |
| DtcDedup.StableSort | deployment/scripts/backfill_dtc_dedup.py:83-89 | the sorted group is a permutation of the group |
| DtcCollapse.HeadWins | deployment/scripts/backfill_dtc_dedup.py:83-89 | its first row is the group's earliest by sort key, then timestamp |
| DtcCollapse.PlanNames | deployment/scripts/backfill_dtc_dedup.py:77-100 | the plan holds one item for each group of more than one row, naming its winner, its other rows, its latest timestamp and its size |
| DtcDedup.ApplyAllSettles | deployment/scripts/backfill_dtc_dedup.py:118-141 | under any failures winners stay, a row is deleted only after its winner is updated, rows outside the plan are untouched, and the table shrinks by the deletions counted |
| DtcCollapse.RunWeakens | deployment/scripts/backfill_dtc_dedup.py:49-151 | the same for whole runs, per group; under any faults a dry run changes nothing and reports the groups and the repeated rows; without errors each group is collapsed and duplicates found are updates plus deletions |
| DtcCollapse.OnlyRepeatsGo | deployment/scripts/backfill_dtc_dedup.py:49-151 | under any faults a row out of the filter or inactive stays as it was, a row goes only if another of its vehicle and code, left in the table and marked, repeats it, and without errors no two rows left repeat each other |
| DtcCollapse.OneRowPerGroup | deployment/scripts/backfill_dtc_dedup.py:49-151 | an undisturbed run leaves one active row per group, its winner, marked with the group's latest timestamp and size, all else unchanged, and the next run plans nothing |
| DtcCollapse.HistoriesDescend | deployment/scripts/backfill_dtc_dedup.py:118-141 | no history of failing runs loses a winner, nor a loser before its winner is marked |
| DtcCollapse.HistoriesEndAtTheSameWinners | deployment/scripts/backfill_dtc_dedup.py:118-141 | after any history one undisturbed run leaves exactly the winners of the first table |
| DtcCollapse.CountsSurviveARerun | deployment/scripts/backfill_dtc_dedup.py:97-100 | a re-run ends with the whole group's size exactly when the first run deleted none of its losers or all, and with its latest time exactly when a row of that time was left or no loser; it never raises either |
| DtcCollapse.RerunLowersTheMarks | deployment/scripts/backfill_dtc_dedup.py:97-141 | three rows of which the last is deleted and the second refused: the next run lowers the count from 3 to 2 and the time from 300 to 200 |
| DtcCollapse.MissingFirstSeenWins | deployment/scripts/backfill_dtc_dedup.py:27-30 | for positive times the group keeps its earliest row without firstSeenAt, and that is the documented row exactly when there is none or it was written before all the others were first seen |
| DtcCollapse.LateRowOutlivesTheFirst | deployment/scripts/backfill_dtc_dedup.py:82-85 | a later row without firstSeenAt is kept where the documentation keeps the earlier one |
| DtcTable.HistoryTable.Group | deployment/scripts/backfill_dtc_dedup.py:61-72 | the loop fills the dictionary with each group's rows in scan order |
| DtcTable.HistoryTable.MakePlan | deployment/scripts/backfill_dtc_dedup.py:77-100 | the loop over groups builds the modelled plan and the duplicate count |
| DtcTable.HistoryTable.Dedup | deployment/scripts/backfill_dtc_dedup.py:49-151 | the method computes the modelled run; in table terms, a dry run leaves the rows alone and answers the counts, and any other weakens or collapses each group |
| ViewerParity.NothingIsLeft | scripts/verify_cs_log_viewer_parity.py:208-208 | when the two strings cannot overlap, replacing all of one by the other leaves none of it |
| ViewerParity.PathsDoNotStraddle | scripts/verify_cs_log_viewer_parity.py:180-188 | the two allowlisted paths cannot overlap |
| ViewerParity.NormaliseIsIdempotent | scripts/verify_cs_log_viewer_parity.py:180-208 | replacing the allowlisted path is idempotent on every string |
| ViewerParity.PassingLine | scripts/verify_cs_log_viewer_parity.py:395-402 | a line pair passes exactly when the mirror's line is the other or its replacement, and then they share a normal form |
| ViewerParity.NormalFormsAddUp | scripts/verify_cs_log_viewer_parity.py:193-208 | equal normal forms line by line give equal normal forms of the whole texts |
| ViewerParity.PassMeansParity | scripts/verify_cs_log_viewer_parity.py:336-415 | exit code 0 means equal line counts, identity wherever the path is absent, one normal form for both texts, a live allowlist, and one stylesheet, declared and imported by both |
| ViewerParity.PassExactly | scripts/verify_cs_log_viewer_parity.py:336-415 | and these conditions are all it takes |
| ViewerParity.MissingFilesExactly | scripts/verify_cs_log_viewer_parity.py:306-440 | exit code 2 exactly when a component is missing, or a stylesheet is while the components are in order; every other failure is 1 |
| ViewerParity.HalfReplacedLineIsDrift | scripts/verify_cs_log_viewer_parity.py:203-210 | equal normal forms alone do not pass |
| ViewerParity.CompareLines | scripts/verify_cs_log_viewer_parity.py:393-402 | the loop collects exactly the drifted line numbers |
| ViewerParity.Verify | scripts/verify_cs_log_viewer_parity.py:306-440 | the checks in order give the modelled exit code |
| SourceMasking.SliceKeepsLength | deployment/aspects/provisioning_guards.py:155-157 | one blanked slice keeps the line's length exactly when it lies within the line or ends past it going backwards |
| SourceMasking.ScrubIsExact | deployment/aspects/provisioning_guards.py:142-157 | for tokens in bounds the masked lines have the old lengths, blanks exactly in the cells of string and comment tokens, and the old characters elsewhere |
| SourceMasking.OrderDoesNotMatter | deployment/aspects/provisioning_guards.py:145-157 | any order of the tokens, overlapping or not, masks the same |
| SourceMasking.StringsAndCommentsDoNotCount | deployment/aspects/provisioning_guards.py:122-166 | two sources that agree outside strings and comments get the same verdict |
| SourceMasking.ScrubInPlace | deployment/aspects/provisioning_guards.py:143-157 | the in-place loop over the line list blanks exactly those cells |
| SourceMasking.FailOpenPatched | deployment/aspects/provisioning_guards.py:117-166 | the guard answers true exactly when the file is there, tokenizes, and no pattern matches a masked line |
| CoolantClear.WriteIsExplained | deployment/scripts/clear_false_coolant_dtcs.py:117-141 | a write hits only a row still active, which is as its page showed it but for others' reports since |
| CoolantClear.WritesHitSelectedExactly | deployment/scripts/clear_false_coolant_dtcs.py:97-180 | with others clearing, adding and updating rows throughout, a write hit a row still selected exactly when no report since its page's fetch had un-selected it, and a finished run counts its writes |
| CoolantClear.LeftActiveExactly | deployment/scripts/clear_false_coolant_dtcs.py:144-180 | after a finished run a row active at the start and cleared by nobody else is active still exactly when no page showed it as one to pick |
| CoolantClear.UnreportedRowsAreSwept | deployment/scripts/clear_false_coolant_dtcs.py:97-180 | so without reports of it no row selected at the start is left active |
| CoolantClear.GenuineAlarmsAreNeverCleared | deployment/scripts/clear_false_coolant_dtcs.py:75-94 | unless a report since its fetch un-selected the row, no write hits an alarm above the corrected threshold, one another rule raised, or, without residue, one without a reading |
| CoolantClear.RealAlarmIsCleared | deployment/scripts/clear_false_coolant_dtcs.py:117-141 | a real overheat report between the fetch and the write of a false row is cleared with it |
| CoolantClear.SecondRunClearsNothing | deployment/scripts/clear_false_coolant_dtcs.py:144-180 | left alone, a run with residue included leaves no active row false or residue under any paging, and the next clears nothing |
| CoolantClear.CalmRunExactly | deployment/scripts/clear_false_coolant_dtcs.py:75-180 | left alone over the whole table a run clears exactly the active, uncleared rows of the two codes whose own rule fired at or below its threshold, 257 and 280, and with residue the overheat rows without a reading, each with its date, author and reason; all else stays |
| CoolantClear.StatusCaseIsIgnored | deployment/scripts/clear_false_coolant_dtcs.py:75-79 | a row classifies the same whatever the case of its status |
| CoolantClear.RowsExactly | deployment/scripts/clear_false_coolant_dtcs.py:97-114 | a page yields exactly the active rows of the two codes in its stretch, as they are |
| CoolantClear.FinishesExactly | deployment/scripts/clear_false_coolant_dtcs.py:97-180 | a run finishes exactly when no call it makes is refused |
| CoolantClear.CountsAddUp | deployment/scripts/clear_false_coolant_dtcs.py:147-173 | false, residue and kept are those of the rows the pages yielded; cleared plus skipped equals the rows picked |
| CoolantClear.HistoryTable.ClearRow | deployment/scripts/clear_false_coolant_dtcs.py:117-141 | at most this row changes, only from active to cleared with its reading kept, and what each of the three answers says about it |
| CoolantClear.HistoryTable.ClearAll | deployment/scripts/clear_false_coolant_dtcs.py:97-180 | page by page, the method computes the modelled run |
| GrouplessScan.IsSuppressed | deployment/scripts/assert_no_groupless_account_path.py:158-181 | the upward walk accepts exactly a marker on the call's line or in the unbroken comment block right above it |
| GrouplessScan.SuppressedExactly | deployment/scripts/assert_no_groupless_account_path.py:158-181 | in the lines' own terms: a marked line at the call or above it with nothing but comment lines in between |
| GrouplessScan.CommentsMayBeIndented | deployment/scripts/assert_no_groupless_account_path.py:158-181 | a comment line is any number of blanks and a hash |
| GrouplessScan.NothingLeaksPastABreak | deployment/scripts/assert_no_groupless_account_path.py:161-168 | a blank or code line in between ends a marker's reach |
| GrouplessScan.NoViolationExactly | deployment/scripts/assert_no_groupless_account_path.py:226-263 | over every tree, no violation exactly when each create call inside a function is suppressed or its innermost function holds a group call |
| GrouplessScan.ReportedExactly | deployment/scripts/assert_no_groupless_account_path.py:226-263 | a line and name are reported exactly when the function of that name holds an unsuppressed create call on that line and no group call |
| GrouplessScan.ModuleLevelCallsAreExempt | deployment/scripts/assert_no_groupless_account_path.py:226-263 | a create call outside every function is not reported |
| GrouplessScan.Find | deployment/scripts/assert_no_groupless_account_path.py:140-150 | the loop lists the walk's calls to the given names |
| GrouplessScan.ScanPython | deployment/scripts/assert_no_groupless_account_path.py:189-263 | the nested loops compute the modelled violations, which are exactly those reported above; a file that does not parse is one |
| VehicleModels.ExplicitTablesAgree | deployment/scripts/backfill_vehicle_models.py:167-214 | the two tables by vehicle id name the same vehicles, and each model given leads to the manifest given |
| VehicleModels.OwnLineComesFirst | deployment/scripts/backfill_vehicle_models.py:355-367 | outside the explicit table a Meridian whose model names one of the seven lines is assigned that line, whatever its fuel and body |
| VehicleModels.FuelAndBodyDecide | deployment/scripts/backfill_vehicle_models.py:369-384 | for every other vehicle outside the table fuel and body alone decide, line by line, with every hybrid on AZIMUTH whatever the body |
| VehicleModels.PaddingIsIgnored | deployment/scripts/backfill_vehicle_models.py:362-371 | blanks around a name and the case of its letters do not matter |
| VehicleModels.TableComesBeforeAll | deployment/scripts/backfill_vehicle_models.py:348-353 | a vehicle in the explicit table is assigned what the table says |
| VehicleModels.NamesLeadBack | deployment/scripts/backfill_vehicle_models.py:132-157 | every derived manifest's shown name leads back to that manifest |
| VehicleModels.ConversionKeepsTheLine | deployment/scripts/backfill_vehicle_models.py:392-453 | conversion keeps a vehicle's assignment unless it is converted by brand, has no derivable line, and its model names one |
| VehicleModels.ConvertedExactly | deployment/scripts/backfill_vehicle_models.py:392-453 | what conversion writes: the model given by id, else for the two retired makes Meridian and the name of the assigned line; all other attributes and vehicles stay |
| VehicleModels.ConvertedWindroseGainsALine | deployment/scripts/backfill_vehicle_models.py:392-453 | a DemoMotors vehicle called Windrose, with no line before, has the Windrose line once converted |
| VehicleModels.DefinedLinesAreKept | deployment/scripts/backfill_vehicle_models.py:326-384 | so every assignment there is survives |
| VehicleModels.ConversionIsIdempotent | deployment/scripts/backfill_vehicle_models.py:392-453 | converting twice is converting once, no DemoMotors or AcmeAuto is left, and a Ford outside the table is untouched |
| VehicleModels.FleetConversion | deployment/scripts/backfill_vehicle_models.py:392-453 | the same for the whole list, with order and ids kept |
| VehicleModels.ConvertFleet | deployment/scripts/backfill_vehicle_models.py:423-453 | the loop converts each row in place in the list |
| VehiclePipeline.StagesAreAbsorbed | deployment/scripts/backfill_vehicle_classification.py:179-381 | back-filling, linking or assigning a row early does not change how the pipeline ends it |
| VehiclePipeline.ReadyExactly | deployment/scripts/backfill_vehicle_classification.py:77-108 | a row is classifiable after the back-fill exactly when its source is valid, its legacy marker is set, or it has no source attribute and a make |
| VehiclePipeline.ClassifyRunMoves | deployment/scripts/backfill_vehicle_classification.py:436-605 | however a classification run fails nothing set is overwritten; exit code 0 means every listed row is filled in; undisturbed it exits 0 with every row filled in and linked |
| VehiclePipeline.BackfillCounts | deployment/scripts/backfill_vehicle_classification.py:179-268 | every listed row without a source is counted once: without a make, written, already there or an error |
| VehiclePipeline.BackfillErrors | deployment/scripts/backfill_vehicle_classification.py:179-268 | the back-fill ends early exactly at a crash, and its errors are exactly the refused writes |
| VehiclePipeline.VerifiedExactly | deployment/scripts/backfill_vehicle_classification.py:271-300 | the read-back counts the written rows that do not classify, and ends the run at a refused read |
| VehiclePipeline.LinkRaisesExactly | deployment/scripts/backfill_vehicle_classification.py:303-381 | a link ends the run exactly at a refused read of the vehicle or at a crash in one of its calls |
| VehiclePipeline.CrashesEndTheRun | deployment/scripts/backfill_vehicle_classification.py:436-605 | a classification run that answers at all has met no crash |
| VehiclePipeline.ModelRunMoves | deployment/scripts/backfill_vehicle_models.py:486-640 | a model run never writes a row that is not onboard, nor any row when the preflight fails, which alone gives its exit code; exit code 0 under apply means every listed row has its line |
| VehiclePipeline.ModelRunEnds | deployment/scripts/backfill_vehicle_models.py:486-640 | 2 exactly when the read went through and a row does not classify; else 0 when every call went through, 5 at the first refused one, and no answer at a crash |
| VehiclePipeline.OwnLineIsAssigned | deployment/scripts/backfill_vehicle_models.py:355-367 | an apply that answers 0 leaves an onboard Meridian of a named line, outside the explicit table, with that line and all else unchanged |
| VehiclePipeline.AssignedExactly | deployment/scripts/backfill_vehicle_models.py:560-633 | what an apply that answers 0 makes of each onboard row: its line, with the new make and model exactly for a vehicle converted by id; without a line it stays |
| VehiclePipeline.ClassExactly | deployment/scripts/backfill_vehicle_classification.py:77-108 | which rows are onboard and which offboard by what they say, and what the back-fill makes of a row without a source |
| VehiclePipeline.OneUnclassifiableRowStopsAll | deployment/scripts/backfill_vehicle_models.py:533-558 | one unclassifiable row stops the model run before its first write |
| VehiclePipeline.HistoriesAreConfluent | deployment/scripts/backfill_vehicle_models.py:486-640 | after any history of failing runs of both scripts, the two undisturbed runs pass the preflight exactly when every row was ready at the start, and then end every row where the undisturbed pipeline would have |
| VehiclePipeline.PipelineIsIdempotent | deployment/scripts/backfill_vehicle_models.py:560-633 | running both again changes nothing |
| VehiclePipeline.BackfillKeepsClassExactly | deployment/scripts/backfill_vehicle_classification.py:77-108 | a classified row keeps its class unless it has only the legacy marker and a make other than Ford |
| VehiclePipeline.LegacyToyotaTurnsOnboard | deployment/scripts/backfill_vehicle_classification.py:77-108 | a Toyota with only the legacy marker is offboard, and onboard once seeded |
| VehiclePipeline.VehicleTable.RunClassification | deployment/scripts/backfill_vehicle_classification.py:436-605 | the three loops of the classification script compute the modelled run, nothing set is overwritten, and exit code 0 means every listed row is filled in |
| VehiclePipeline.VehicleTable.LinkCertificate | deployment/scripts/backfill_vehicle_classification.py:303-381 | at most this row changes, only by gaining the certificate it lacks; false exactly when the write of one was refused, true otherwise means linked or nothing to link unless the certificate's read was refused |
| VehiclePipeline.VehicleTable.RunModels | deployment/scripts/backfill_vehicle_models.py:486-640 | preflight and assignment loop compute the modelled run; only onboard rows change, and none without apply or past a failed preflight; exit code 0 under apply means every listed row has its line |
| SeverityThresholds.SilentExactly | scripts/check_trip_simulator_modal_sync.py:357-418 | nothing is reported exactly when the bindings are the canonical ones, order and repeats aside |
| SeverityThresholds.SilentMeansEqual | scripts/check_trip_simulator_modal_sync.py:357-418 | then first-match evaluation gives every number the canonical label |
| SeverityThresholds.EveryIntegerIsLabelled | scripts/check_trip_simulator_modal_sync.py:237-249 | and every integer has one |
| SeverityThresholds.HarmlessExtraIsReported | scripts/check_trip_simulator_modal_sync.py:376-390 | a binding that changes no label is reported all the same |
| SeverityThresholds.CheckBindings | scripts/check_trip_simulator_modal_sync.py:357-418 | the mapping loop and the presence loop compute the modelled failures |
| CatalogAlignment.PatchedSlots | deployment/scripts/align_event_catalog_signals.py:370-378 | patching raises exactly on an index before the start, and otherwise the last patch reaching a condition decides it |
| CatalogAlignment.DesiredIsAProjection | deployment/scripts/align_event_catalog_signals.py:362-396 | the desired item is a fixed point, differs from the item in the four compared attributes only, and the diff is empty exactly when they are equal |
| CatalogAlignment.DesiredMeetsTheSpec | deployment/scripts/align_event_catalog_signals.py:362-396 | attribute by attribute: the fields are the spec's when given, each composite condition is what its last patch says, operator and threshold are the item's when set, else the spec's, and all else is the item's; it raises exactly on a patch that counts back past the first condition |
| CatalogAlignment.ConditionsAreKept | deployment/scripts/align_event_catalog_signals.py:370-378 | the condition count and every condition no patch reaches are kept |
| CatalogAlignment.RunAligns | deployment/scripts/align_event_catalog_signals.py:421-500 | however a run fails each item is as it was or as desired; a dry run changes nothing; exit code 0 under apply, which an undisturbed run gives, means all are as desired |
| CatalogAlignment.RunMeetsTheSpecs | deployment/scripts/align_event_catalog_signals.py:421-500 | exit code 0 under apply leaves every item in scope meeting its spec attribute by attribute and every other as it was; undisturbed, a run raises exactly on a spec that counts back too far, and then writes nothing |
| CatalogAlignment.NextRunPlansNothing | deployment/scripts/align_event_catalog_signals.py:451-467 | the run after an undisturbed one plans no write |
| CatalogAlignment.PatchInPlace | deployment/scripts/align_event_catalog_signals.py:372-376 | the indexed loop over the copied list computes the modelled patching |
| CatalogAlignment.CatalogTable.Align | deployment/scripts/align_event_catalog_signals.py:421-500 | plan and write loops compute the modelled run; a dry run leaves the items alone, any other leaves each as it was or as desired, and exit code 0 means every item in scope meets its spec |

## Left out

- Foreign I/O: argument parsing, printing, logging, reports, backups, AWS sessions and the HTTP client; of each call only its effect on a store and its outcomes are kept.
- Parsers and engines: Python's parser and tokenizer, regular expressions and their matches are inputs; so are the bindings and pairs extracted from TypeScript.
- Provisioning: accounts are never deleted from outside, one run works at a time, and subscription ids come from a counter that never repeats, where the mock numbers them by list length; password generation is an input.
- SubscriberProofs.RunMultiKeeps: no product may be called `subscriber`, because with one the property is false, as `SubscriberProductBreaksLegacySecret` shows.
- Producers: what a `try`, a `with`, a nested function or any other construct without a case of its own does to the dicts it mentions is left open, as unseen code that may do anything to them; names that a `global`, an import, a handler or a pattern binds count as mentioned by it; generators are not producers; deletions are not modelled, so a dict's keys are those it was ever given.
- Consolidation: vehicles are the positions a scan passes; other writers may move vehicles and add ones that name the new manifest, but never write the old name.
- CampaignOwner.HistoriesAreConfluent: assumes well-founded source links, because on others no run gets as far as writing; the paged scan is one read.
- PersonaGroups.CalmRunConverges: the target table is taken with disjoint add and remove lists and scopes that do not read like an unset one; the membership count of the production guard is an input, and the group listing is one page.
- DtcCollapse.OneRowPerGroup: a scan is taken to list one vehicle's rows in timestamp order, as the table's sort key has it; without that, ties would fall to the scan.
- Trouble-code clean-up: an update that creates a missing row is modelled, but no other writer removes rows during a run.
- GrouplessScan.IsSuppressed: lines are stripped of ASCII blanks only; the marker pattern, rationale included, is an input.
- SourceMasking.ScrubIsExact: a token that hides something must lie in the lines it spans; where line splitting and tokenizing disagree, `SliceKeepsLength` says what becomes of a line.
- VehicleModels.ConversionKeepsTheLine: upper and lower case and blanks are ASCII; `resolve_diagnosis_state` is a chain of guards read off its branches and is not modelled.
- Classification: the single-vehicle modes by id and by VIN, the production gate that turns a run into a dry run, and the CSV report are not modelled.
- Coolant clean-up: parsing the reading out of a description is an input; others may clear and add rows and report on active ones, but not reactivate or delete any.
- Severity guard: the label inventory, the string branch and the city lists of the same script are plain set comparisons and are not modelled.
- Catalog alignment: an attribute that is null counts as absent, and the table of desired patches is an input.
- The remaining back-fill, audit and listing scripts: single-table rewrites weaker than the ones modelled.
