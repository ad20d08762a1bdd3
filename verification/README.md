# A verified model of DCS-Dungeon-Master

DCS-Dungeon-Master lets two language-model commanders, one for each coalition, play a combat
simulation through DCS Olympus. A commander is shown a filtered picture of the war and answers with a
list of untrusted actions. The program validates these, resolves conflicts between them, turns the
survivors into simulator commands and standing orders, sends the commands until one is refused, and
writes what took effect to a state store. This project models that pipeline as one stateful system,
together with the sensor fusion and observation that feed it, the ingest of simulator updates, the
scenario loader and printer, the life of a run, and the fairness findings with their human reviews.
It proves what holds of all payloads, all simulators and all runs.

`dafny verify dfyconfig.toml` checks everything.

## How it is laid out

| modules | what they hold |
|---|---|
| `Domain`, `Ordering` | records, enumerations, lookups; the stable sort by id |
| `Requests`, `Validation`, `Working`, `Conflicts` | reading a raw action, the validation stages, the mutable working result, the first-come-first-served pass |
| `StateStore`, `Planning`, `Engine` | the store as a class over maps, plan building, the execution engine and its simulator |
| `Orders`, `Atoms`, `Batches`, `Runs` | identity of standing orders; executing a plan refines a prefix of small steps; one batch; whole runs |
| `Ledger`, `Conservation` | money |
| `Effects`, `Frames`, `Movement` | what an action can change, what it leaves alone, how far groups get |
| `Commuting`, `OrderIndependence`, `Retry`, `Agreement` | order of execution, repetition, retries, and where store and simulator part |
| `Payloads`, `Overdraft`, `NameClash`, `ThereAndBack`, `ValidatedTwice` | scenarios that load, with raw payloads that show what does not hold |
| `Fusion`, `Observation`, `Ingest` | tracks, the commander's picture, world truth |
| `Blindness`, `Secrecy`, `Noninterference`, `ClosedLoop` | two-run properties: verdicts, pictures, runs and the loop through all of them do not depend on the enemy |
| `Toml`, `TomlRoundTrip`, `TomlDocument`, `TomlFiles` | the printer's value syntax, a reader after TOML v1.0.0, whole files |
| `ScenarioCodec`, `ScenarioRoundTrip`, `ScenarioFiles`, `ScenarioRuns` | loading, both round trips, and what loading guarantees to execution |
| `Lifecycle` | run status, the live loop, backend failover |
| `Findings`, `Reviews`, `ReviewKeys` | fairness findings, carried-over reviews, the score; which records draft no finding twice |

Where the source changes things step by step there is a method with a loop, or a class whose fields
the methods update (`Working.WorkingResult`, `StateStore.Store`, `Engine.ExecutionEngine`,
`Lifecycle.RunControl`, `Reviews.FindingTable`). Each is proved against a specification function, and
the theorems are about that function and about runs built from it.

## How the world is modelled

- The simulator is any function from everything it has ever been sent, and the next request, to
  accepted or refused. The model backend is any payload: every field of every action may be missing
  or of any type.
- A run is any sequence of ingests, which may leave any world truth behind, and of command turns of
  either coalition, each with any payload and any observed picture. The theorems about what one
  coalition can learn let the other one play different batches in the two worlds they compare.
- Ids are the primary keys of their tables, so tables are maps. Each write of the store is atomic.
- Fingerprints stand for SHA-1 digests and are taken as injective.
- Times are whole microseconds, floating-point numbers are reals, and distance is any function.
- A lookup that would raise is `None`, an error return is a `Result`, and an abandoned batch is
  `Aborted`.

## What does not hold, and exactly when it does

- A budget can go below zero. Each deployment is compared alone with the budget at the start of the
  batch. `Conservation.OverdrawnExactlyWhen` is the exact condition, for every simulator at once: what
  the surviving deployments can cost at worst was there. `BatchBudgetFloor` is how far it can go, and
  `Overdraft.TwoDeploysCanOverdraw` a scenario that loads and a payload that end at -3. A reserve with a
  negative cost makes a batch dearer when it is refused, which is why the condition counts positive costs
  only.
- A deployed group can take over an enemy group's name. Nothing checks the id made from the reserve's.
  `Frames.DeployLeavesOtherSideIff` is the exact condition, `OtherSideUntouched` the theorem under it,
  `NameClash.DeployTakesEnemyGroup` an input.
- A deployment under the id of an own group moves that group anywhere. `Movement.DeployIsAHopIff` is
  the exact condition, `HopBound` the theorem where ids are unused, `NameClash.DeployMovesNamesake` an
  input.
- Store and simulator can disagree about where a group is. A reposition, reinforcement or withdrawal
  that repeats an active order is skipped, but its row is written; if the group has been sent elsewhere
  meanwhile, the store alone puts it back. `Agreement.AgreesIff` is the exact condition for one action of
  any kind and any group, `ActionKeepsAgreementIff` what can be told from the store before the action,
  `RunAgreesIff` the condition over whole runs, and `ThereAndBack.ThereAndBackDiverges` a scenario that
  loads and three payloads.
- A payload in which two actions declare the same id, or two leave it out and so share
  `unknown_action`, raises where the batch is stored, and nothing of it is executed
  (`Runs.ExecutesIff`, with the failing input in `Runs.TwoNamelessActionsStopTurn`).
- Rejection codes tell whether a foreign id exists (`Blindness.CodeTellsExistence`). Everything else
  about a verdict is blind.
- Two posture changes of one group can survive one batch, and then the order of execution decides
  (`OrderIndependence.TwoPosturesChangePlacesIff`).
- A scenario with a control character in one of its texts is written to a file that cannot be read
  back, because the printer escapes backslashes and quotes only (`ScenarioFiles.FileRoundTrip`).
- A human review of a finding is undone at once if a later finding has the same key
  (`Reviews.ReviewIsKeptIff`). `ReviewKeys.DistinctKeysIff` says which records draft no key twice, and
  `OneBatchEachKeepsKeys` that those with one batch for a coalition and cycle do; for them
  `RecordsKeepReviews` follows reviews through any history. A payload that was validated twice is the
  failing input (`ReviewKeys.EarlierReviewIsLost`, `ValidatedTwice.SecondValidationLosesReview`). An id
  that holds a quote can merge two findings as well (`ReviewKeys.QuotesCanMerge`).
- An unowned control point may be reinforced only before the first observation exists
  (`Secrecy.ReinforcementFollowsPicture`).

## Where code and documents disagree

The model follows the code.

- The project's document on actions asks, under "Resource Validation", for a sufficient budget; the
  code checks each deployment on its own, as above.
- Under "Conflict Validation" it wants no conflict with another accepted action; two postures of one
  group are not seen as a conflict.
- For posture changes it wants a posture compatible with group type and state; the code checks the
  value only.
- It has validation notice an order that repeats an active one; the code notices it when executing.
- The project's document on observations excludes hidden facts from them; a sector's activity level
  counts all evidence records there, visible or not. The secrecy theorems therefore vary hidden
  groups and hold the evidence log fixed.
- `start_run` on a paused run does what `resume_run` does; both ask for the same transition.

## Model

| member | source | states |
|---|---|---|
| `Requests.ParseRequest` | src/dcs_dungeon_master/action_validation/__init__.py:381-429 | whatever an untrusted action holds, what parses has non-blank ids, one to three distinct group ids where groups are listed, and the form its own action_type names |
| `Requests.Unique` | src/dcs_dungeon_master/action_validation/__init__.py:477 | removing duplicate group ids keeps exactly the ids that were there, each once |
| `Working.WorkingResult.Parse` | src/dcs_dungeon_master/action_validation/__init__.py:381-524 | the parse and schema stage as a change of the working result: status, code, parameters, warning and passed stage |
| `Working.WorkingResult.RunStage` | src/dcs_dungeon_master/action_validation/__init__.py:526-705 | one state-dependent stage either rejects with its code or appends its name to the passed stages |
| `Working.ValidateOne` | src/dcs_dungeon_master/action_validation/__init__.py:350-379 | running the stages on the mutable result until the first rejection gives the verdict the staged specification defines |
| `Validation.PassesIffLegal` | src/dcs_dungeon_master/action_validation/__init__.py:526-705 | the four staged checks, in whatever order their tests run, let an action through exactly when it obeys the rules of the game stated without stages |
| `Working.StagesSoFar` | src/dcs_dungeon_master/action_validation/__init__.py:361-369 | after n stages either everything so far passed, or the first stage that objected decided the code and ended the list of passed stages |
| `Working.VerdictMeaning` | src/dcs_dungeon_master/action_validation/__init__.py:350-379 | a verdict is not a rejection iff the action parses and is legal; it carries a code iff it is rejected; passed stages are a prefix of the pipeline, complete iff nothing objected |
| `Conflicts.SelectionIsGreedy` | src/dcs_dungeon_master/action_validation/__init__.py:707-779 | survivors never clash, an action is rejected iff it clashes with an earlier survivor, nothing else changes, and a second pass rejects nothing more |
| `Conflicts.ClaimBlocksClashes` | src/dcs_dungeon_master/action_validation/__init__.py:708-779 | entering an action in the claim ledgers blocks exactly what clashes with it, and unblocks nothing |
| `Conflicts.ClaimOrReject` | src/dcs_dungeon_master/action_validation/__init__.py:717-779 | one turn of the pass: rejected and ledgers untouched if a ledger speaks against the action, otherwise entered and left as it is |
| `Conflicts.ApplyConflicts` | src/dcs_dungeon_master/action_validation/__init__.py:707-779 | the loop over four claim dictionaries, changing results in place, computes the greedy first-wins selection |
| `Batches.ValidatePayload` | src/dcs_dungeon_master/action_validation/__init__.py:125-135 | validating each action and then resolving conflicts on the mutable results gives the batch specification |
| `Batches.ValidatedBatchIsVetted` | src/dcs_dungeon_master/action_validation/__init__.py:114-168 | every surviving action of every payload is well formed and legal, and no two of them clash |
| `Blindness.BatchIsBlind` | src/dcs_dungeon_master/action_validation/__init__.py:350-379 | two contexts that agree on own groups with their world records, own reserves, budget and observed points give, for every payload, the same statuses, parameters, warnings, stages and conflict outcomes; codes agree up to exchanging UNKNOWN_ENTITY and ENTITY_NOT_OWNED |
| `Blindness.LaterStagesEqual` | src/dcs_dungeon_master/action_validation/__init__.py:584-705 | once ownership has been checked, every stage decides from what the two contexts share |
| `Blindness.CodeTellsExistence` | src/dcs_dungeon_master/action_validation/__init__.py:537-578 | the exception is real, for every order that names groups: the code of the refusal tells whether the first foreign id exists |
| `Blindness.ReserveCodeTellsExistence` | src/dcs_dungeon_master/action_validation/__init__.py:549-560 | the same for reserves |
| `StateStore.Store.ApplyExecutionStateUpdates` | src/dcs_dungeon_master/persistence/sqlite_store.py:2177-2285 | the whole new state of the store after one executed action: budget, reserves, groups, world records, orders and one log entry, or nothing at all for a failure |
| `StateStore.Store.UpsertExecutionStandingOrder` | src/dcs_dungeon_master/persistence/sqlite_store.py:2883-2995 | the upsert deactivates every other order on the subject and inserts or refreshes the row with the order's id |
| `StateStore.Store.UpdateReserves` | src/dcs_dungeon_master/persistence/sqlite_store.py:2205-2218 | the loop of reserve updates changes availability and status of existing rows only |
| `Orders.OrderIdInjective` | src/dcs_dungeon_master/execution/__init__.py:711-738 | the generated order id determines coalition, action type and entity, because action type names are prefix-free |
| `Orders.UpsertWritesOneRow` | src/dcs_dungeon_master/persistence/sqlite_store.py:2883-2995 | on tables written by the engine the upsert supersedes nothing and writes exactly one row |
| `Orders.OneOrderPerSubject` | src/dcs_dungeon_master/persistence/sqlite_store.py:2883-2995 | two orders on the same subject are the same row |
| `Orders.FingerprintIsAtItsId` | src/dcs_dungeon_master/execution/__init__.py:695-697 | whether a fingerprint is active can be read off the one row that may carry it |
| `Planning.BuildReinforcePlan` | src/dcs_dungeon_master/execution/__init__.py:417-489 | the reinforcement branch, one pass appending to four lists, builds one command, group row, world row and order per group, or fails if a lookup does |
| `Engine.ExecutionEngine.ExecutePlan` | src/dcs_dungeon_master/execution/__init__.py:583-654 | commands go out until the first refusal; the result counts the accepted prefix and the simulator has received exactly that prefix and the refused command |
| `Engine.ExecutionEngine.ExecuteOne` | src/dcs_dungeon_master/execution/__init__.py:118-157 | one turn of the batch loop on the live objects, with the engine's own copy of the active orders always equal to the store's |
| `Engine.ExecutionEngine.ExecuteValidationBatch` | src/dcs_dungeon_master/execution/__init__.py:116-176 | the loop over a validated batch does what the batch specification says to store and simulator, and stops where a plan cannot be built |
| `Engine.BatchStatusMeaning` | src/dcs_dungeon_master/execution/__init__.py:681-693 | a batch is classified no-change iff every result is, failed iff there are results and all failed, succeeded iff nothing failed or was partial and something happened |
| `Engine.BatchStatusIsHonest` | src/dcs_dungeon_master/execution/__init__.py:117-157 | a batch reported as failed left the store exactly as it was; one reported as no change sent the simulator nothing |
| `Atoms.ActionRefines` | src/dcs_dungeon_master/execution/__init__.py:247-519 | executing an action performs a prefix of its steps, one per affected group, and nothing else, whatever the simulator answers |
| `Atoms.ReinforceRefines` | src/dcs_dungeon_master/execution/__init__.py:656-679 | a reinforcement writes exactly the rows of the groups whose commands were accepted |
| `Atoms.StepsWriteRows` | src/dcs_dungeon_master/persistence/sqlite_store.py:2191-2230 | performing the first n steps writes exactly the first n rows of every table |
| `Batches.DestinationsAgree` | src/dcs_dungeon_master/action_validation/__init__.py:781-798 | the validator's and the planner's resolutions of a destination give the same, existing sector |
| `Batches.LegalIsBuildable` | src/dcs_dungeon_master/execution/__init__.py:286-518 | what the validator checked suffices for every lookup the planner makes, also after other actions have changed the store |
| `Batches.BatchCompletes` | src/dcs_dungeon_master/execution/__init__.py:116-176 | executing a vetted batch never fails a lookup, and keeps the shape of the store and its orders |
| `Runs.TakeCommandTurn` | src/dcs_dungeon_master/execution/__init__.py:876-903 | validating, storing and executing one payload on the live objects is one turn of the run specification; a payload that repeats an action id stops at the validation table and executes nothing |
| `Runs.NoBatchEverAborts` | src/dcs_dungeon_master/execution/__init__.py:159-176 | accepted implies executable over whole runs: no batch of any reachable store is aborted by a failed lookup |
| `Runs.ReachableOrdersAreUnique` | src/dcs_dungeon_master/persistence/sqlite_store.py:2883-2958 | in every reachable store two active orders on the same subject are the same row |
| `Runs.ExecutesIff` | src/dcs_dungeon_master/action_validation/__init__.py:218-227 | a turn executes iff its payload holds a list of actions of which no two declare the same id or leave it out |
| `Runs.TwoNamelessActionsStopTurn` | src/dcs_dungeon_master/execution/__init__.py:876-903 | the failing input: two actions without a usable id, and the whole payload comes to nothing |
| `ScenarioRuns.LoadedScenariosNeverAbort` | src/dcs_dungeon_master/scenario_state/registry.py:151-189 | whatever file a scenario was loaded from, no batch of any of its runs ever fails a lookup |
| `ScenarioRuns.OwnersAlwaysHaveBudgets` | src/dcs_dungeon_master/scenario_state/registry.py:164-182 | in a loaded scenario every owner of a group or reserve has a budget row, throughout every run |
| `Ledger.DeployIsNotSkipped` | src/dcs_dungeon_master/execution/__init__.py:128-137 | a deploy of a still deployable reserve is never mistaken for a repetition, so it is charged when its command is accepted |
| `Ledger.DeployKeepsBooks` | src/dcs_dungeon_master/execution/__init__.py:285-351 | one attempted deployment charges and commits its reserve exactly if the simulator accepted it, and keeps the books balanced |
| `Conservation.BatchBudgetFloor` | src/dcs_dungeon_master/action_validation/__init__.py:644-655 | a batch with k surviving deploys from a budget B of at least zero ends at no less than (1 - k) * B and leaves the other budget alone |
| `Conservation.MoneyIsConserved` | src/dcs_dungeon_master/persistence/sqlite_store.py:2193-2218 | over any run the budget left plus the cost of the accepted deployments is the starting budget, no reserve is deployed or paid twice, and a reserve is committed iff its deployment was accepted |
| `Conservation.OverdrawnExactlyWhen` | src/dcs_dungeon_master/action_validation/__init__.py:651-655 | the exact condition for the false property that budgets stay at or above zero: a batch leaves a budget of at least zero for every simulator iff what its surviving deploys can cost at worst was there |
| `Conservation.BatchSpends` | src/dcs_dungeon_master/action_validation/__init__.py:644-655 | a batch spends at most the positive costs of its surviving deploys, and exactly the cost of those in a set of reserves if the simulator takes just these |
| `Overdraft.TwoDeploysCanOverdraw` | src/dcs_dungeon_master/action_validation/__init__.py:644-655 | the failing input: a scenario that loads, a payload of two deployments, and a budget of -3 after the turn |
| `Conservation.ReachableIsKept` | src/dcs_dungeon_master/persistence/sqlite_store.py:2193-2218 | every store a run reaches meets the conditions of the overdraft theorem |
| `Effects.ActionHasEffect` | src/dcs_dungeon_master/execution/__init__.py:247-519 | what one executed action can do to every table, for any replies of the simulator |
| `Frames.OtherSideUntouched` | src/dcs_dungeon_master/persistence/sqlite_store.py:2193-2230 | however many batches one coalition plays, the other one's budget, reserves, groups and standing orders stay exactly as they were, provided no reserve's map id names an enemy group |
| `Frames.DeployLeavesOtherSideIff` | src/dcs_dungeon_master/execution/__init__.py:285-351 | the proviso is exact: an accepted deployment leaves the other side's holdings unchanged iff its map id does not name one of their groups |
| `NameClash.DeployTakesEnemyGroup` | src/dcs_dungeon_master/execution/__init__.py:285-351 | the failing input: in a scenario that loads, an enemy group is authored under the id Red's reserve gets on the map, and Red's deployment changes what the enemy holds |
| `Frames.RestrictedSectorsStayEmpty` | src/dcs_dungeon_master/action_validation/__init__.py:843-853 | if no control point lies in a coalition's no-deploy sectors and none of its groups starts there, no run ever puts one there |
| `Movement.LegalMover` | src/dcs_dungeon_master/action_validation/__init__.py:687-701 | what legality at the start of a batch says about one moving group: reachable target, and mobile or already at the point |
| `Movement.BatchMoves` | src/dcs_dungeon_master/execution/__init__.py:417-581 | within a batch a group is moved at most once, over at most one directed neighbour edge, and not at all if immobile |
| `Movement.HopBound` | src/dcs_dungeon_master/action_validation/__init__.py:800-828 | after n turns without ingest every group is at most n directed neighbour edges from where it started, immobile groups are exactly where they were, and world and group rows agree |
| `Movement.FreshRunIsPlaced` | src/dcs_dungeon_master/persistence/sqlite_store.py:635-882 | a fresh run satisfies the hypotheses of the hop bound when the authored groups do |
| `Movement.DeployIsAHopIff` | src/dcs_dungeon_master/execution/__init__.py:285-351 | the hypothesis on map ids is real: an accepted deployment under the id of a group already there stays within one edge iff its target happens to |
| `NameClash.DeployMovesNamesake` | src/dcs_dungeon_master/execution/__init__.py:285-351 | the failing input: in a scenario that loads, Red's deployment makes an immobile group of Red's own leave the rear for a sector that is no neighbour |
| `Commuting.StepsCommute` | src/dcs_dungeon_master/persistence/sqlite_store.py:2191-2230 | steps on different rows commute, also when taken at different times |
| `OrderIndependence.ActionsCommute` | src/dcs_dungeon_master/execution/__init__.py:117-157 | two actions that are apart can change places |
| `OrderIndependence.ExecutionOrderDoesNotMatter` | src/dcs_dungeon_master/execution/__init__.py:117-157 | any rearrangement of the surviving actions of a batch leaves the same budgets, reserves, groups, world records and standing orders, if each group has one posture change, deployed ids are unused and the simulator's reply depends on path and payload only |
| `OrderIndependence.TwoPosturesChangePlacesIff` | src/dcs_dungeon_master/action_validation/__init__.py:770-779 | the condition is real: two surviving posture changes of one group can change places iff they say the same |
| `Retry.RepetitionIsSilent` | src/dcs_dungeon_master/execution/__init__.py:128-137 | re-executing an action that has taken full effect sends nothing and leaves the tables as one execution at the later time does |
| `Retry.LaterRepetitionIsSilent` | src/dcs_dungeon_master/execution/__init__.py:128-137 | the same after anything in between, as long as the action's orders are active: nothing is sent, and if its groups still stand as it put them no group, reserve or budget changes |
| `Retry.RetryConverges` | src/dcs_dungeon_master/execution/__init__.py:605-679 | any failed or partial attempts at a reinforcement followed by a fully accepted one leave the same tables as that one alone |
| `Retry.AttemptMovesAcceptedPrefix` | src/dcs_dungeon_master/execution/__init__.py:656-679 | one attempt moves exactly the groups of the accepted command prefix, and the whole group and world rows of these are given; a failed one changes nothing at all |
| `Agreement.AgreesIff` | src/dcs_dungeon_master/execution/__init__.py:118-157 | for an action of any kind and every group: store and simulator agree on it afterwards iff, if the action was skipped as a repetition of its own, the simulator had last been told its target; otherwise iff the group is among those whose commands were accepted, or they agreed before |
| `Agreement.ActionKeepsAgreementIff` | src/dcs_dungeon_master/execution/__init__.py:656-658 | while they agree on all groups, an action parts them iff it repeats an active order and one of its groups no longer is where it sends it, whatever the simulator answers; the store alone tells beforehand |
| `Agreement.RunAgreesIff` | src/dcs_dungeon_master/execution/__init__.py:116-157 | over whole runs of both coalitions, with any payloads and any simulator: they agree before and after every action iff no executed action is such a stale repetition |
| `ThereAndBack.ThereAndBackDiverges` | src/dcs_dungeon_master/execution/__init__.py:128-137 | the failing input: a scenario that loads and three payloads, there, back, and there again; the third is skipped, the store has the group there and the simulator was last told to bring it back |
| `Noninterference.StepKeepsAlike` | src/dcs_dungeon_master/persistence/sqlite_store.py:2177-2285 | a step on own rows keeps two stores that look alike from one side looking alike |
| `Noninterference.EnemyTurnUnseen` | src/dcs_dungeon_master/persistence/sqlite_store.py:2193-2230 | a turn of the other side changes nothing a coalition owns, none of its world records, and sends nothing in its name |
| `Noninterference.RunsAreBlind` | src/dcs_dungeon_master/execution/__init__.py:876-903 | two worlds that agree on what a coalition owns, in which it gives the same orders on the same pictures and the other side plays any batches, any number of them, differently in each: with a simulator that answers the coalition by what it has sent, its requests are the same and it owns the same ever after |
| `Noninterference.LoneRunsAreBlind` | src/dcs_dungeon_master/execution/__init__.py:876-903 | while the other side takes no turn, the same of every simulator, for all that is sent |
| `ClosedLoop.ClosedLoopIsBlind` | src/dcs_dungeon_master/execution/__init__.py:876-903 | with a commander that is any function of the pictures it was shown: in two worlds that differ in what is hidden from a side, and in whatever the other side plays, it is shown the same pictures, has the same requests sent and owns the same ever after |
| `Noninterference.FreshRunIsNamed` | src/dcs_dungeon_master/persistence/sqlite_store.py:635-882 | a fresh run meets the naming condition unless an author gave a group the name of an enemy reserve's |
| `Fusion.SectorActivity` | src/dcs_dungeon_master/sensor_fusion/__init__.py:212-224 | the dictionary loop computes the sector-activity specification |
| `Fusion.BuildKnowledgeState` | src/dcs_dungeon_master/sensor_fusion/__init__.py:84-112 | the list-building loop computes the knowledge-state specification |
| `Fusion.ActivityIsMaximum` | src/dcs_dungeon_master/sensor_fusion/__init__.py:212-224 | a sector is listed iff some track points to it, at the highest confidence among those tracks |
| `Fusion.ActivityIgnoresOrder` | src/dcs_dungeon_master/sensor_fusion/__init__.py:212-224 | the order in which tracks are visited does not matter |
| `Fusion.TracksPartitionDetected` | src/dcs_dungeon_master/sensor_fusion/__init__.py:97-111 | active and archived tracks together are exactly the enemy groups some visible evidence speaks of, each once, and no id is in both lists |
| `Fusion.TracksOnlyAge` | src/dcs_dungeon_master/sensor_fusion/__init__.py:126-189 | with groups and evidence fixed, time never raises confidence nor undoes stale or archived, and changes nothing else that was observed |
| `Fusion.EvidenceOnlyTeaches` | src/dcs_dungeon_master/sensor_fusion/__init__.py:126-202 | with groups fixed, appended evidence never lowers confidence or knowledge level and never makes a track older |
| `Observation.IndexBy` | src/dcs_dungeon_master/observation/__init__.py:355-366 | a dictionary of lists, looked up under a key, is the list filtered by that key |
| `Observation.BuildSectorSummary` | src/dcs_dungeon_master/observation/__init__.py:354-399 | three index dictionaries and the loop over sectors give one entry per sector, in id order, from the groups, contacts and points filed under it |
| `Observation.BuildFriendlyForces` | src/dcs_dungeon_master/observation/__init__.py:401-428 | the lookup dictionary and loop give one entry per own active group, in id order |
| `Observation.BuildRecentChanges` | src/dcs_dungeon_master/observation/__init__.py:551-586 | the change list in its order, cut to six |
| `Observation.BuildRequests` | src/dcs_dungeon_master/observation/__init__.py:588-605 | the decision requests, appended one after the other |
| `Ordering.SortByAscends` | src/dcs_dungeon_master/observation/__init__.py:372 | what is shown sorted by id ascends by id |
| `Observation.SilentIffNothingNew` | src/dcs_dungeon_master/observation/__init__.py:551-586 | the change list is empty iff no contact is new, newly stale or of another confidence, no point has another status, no reserve has arrived and no threat band has changed |
| `Observation.HoldIsLastResort` | src/dcs_dungeon_master/observation/__init__.py:588-605 | holding the plan is put forward iff no sector is threatened, and then alone |
| `Observation.MostCommonMeaning` | src/dcs_dungeon_master/observation/__init__.py:267 | the dominant posture is the most common one, the first met among equals |
| `Secrecy.KnowledgeIsBlind` | src/dcs_dungeon_master/sensor_fusion/__init__.py:84-177 | adding, removing or changing groups a coalition cannot know of leaves its knowledge state unchanged |
| `Secrecy.PictureIsBlind` | src/dcs_dungeon_master/observation/__init__.py:73-94 | the same for the whole observation, recent changes and decision requests included |
| `Secrecy.CommanderIsBlind` | src/dcs_dungeon_master/action_validation/__init__.py:229-252 | end to end: for stores that differ in hidden groups only, the observation is the same and so are the verdicts on any orders, up to the exchange of two codes |
| `Secrecy.ReinforcementFollowsPicture` | src/dcs_dungeon_master/action_validation/__init__.py:880-890 | once an observation exists, a control point may be reinforced iff the world says the coalition owns it; before that, also if its authored owner is nobody |
| `Ingest.FindSectorForPosition` | src/dcs_dungeon_master/world_state/__init__.py:294-315 | the two-loop search returns what the search specification defines |
| `Ingest.SearchMeaning` | src/dcs_dungeon_master/world_state/__init__.py:294-315 | the closest sector containing the position, else the closest sector, else none; the first on ties, for any distance function |
| `Ingest.SectorAnswerIsUnique` | src/dcs_dungeon_master/world_state/__init__.py:294-315 | that description leaves exactly one answer |
| `Ingest.ApplyIntegrationUpdates` | src/dcs_dungeon_master/world_state/__init__.py:94-278 | the loops over unit, airfield and stream updates compute the ingest folds |
| `Ingest.NothingIsForgotten` | src/dcs_dungeon_master/world_state/__init__.py:146-278 | over any sequence of updates groups and points never vanish, a known sector stays known, mobile never turns off, points keep their sector, and evidence is only appended |
| `Ingest.UnitRecordsServeTheirSide` | src/dcs_dungeon_master/world_state/__init__.py:171-184 | evidence from a unit snapshot is visible to a coalition, about an enemy group, iff the unit was that coalition's own |
| `Ingest.DetectionSurvives` | src/dcs_dungeon_master/sensor_fusion/__init__.py:122-128 | a detected enemy group stays detected through all later updates for as long as it is an enemy |
| `TomlRoundTrip.TwoPassesEscape` | src/dcs_dungeon_master/scenario_state/registry.py:361-363 | the printer's two replacement passes, one after the other, escape every character exactly once |
| `TomlRoundTrip.ReadPrinted` | src/dcs_dungeon_master/scenario_state/registry.py:358-371 | a printed value followed by any text reads back as the value without its null entries, leaving that text; if some string holds a control character it cannot be read |
| `TomlRoundTrip.RoundTripIffClean` | src/dcs_dungeon_master/scenario_state/registry.py:358-371 | a printed value reads back as itself, absent keys for null, iff no string in it holds a control character other than a tab |
| `TomlDocument.AppendTableArray` | src/dcs_dungeon_master/scenario_state/registry.py:348-355 | the lines appended for an array of tables: a header, the non-null entries and a blank line per row |
| `TomlFiles.DocumentRoundTrip` | src/dcs_dungeon_master/scenario_state/registry.py:316-331 | a written file reads back as the document it was written from iff its strings are free of control characters, and not at all otherwise |
| `ScenarioCodec.CheckReferences` | src/dcs_dungeon_master/scenario_state/registry.py:151-189 | the five checking loops accept exactly the scenarios without dangling references |
| `ScenarioCodec.LoadScenario` | src/dcs_dungeon_master/scenario_state/registry.py:124-204 | parsing and checking computes the loading specification, errors included |
| `ScenarioRoundTrip.LoadedIsGood` | src/dcs_dungeon_master/scenario_state/registry.py:124-204 | every loaded scenario has filled texts, at least one sector, control point and coalition, and no dangling reference |
| `ScenarioRoundTrip.LoadableIff` | src/dcs_dungeon_master/scenario_state/registry.py:124-204 | the scenarios that some dictionary loads as are exactly those with filled texts, positive zone radii, at least one sector, control point and coalition, and no dangling reference |
| `ScenarioRoundTrip.DictionaryRoundTrip` | src/dcs_dungeon_master/scenario_state/registry.py:207-313 | loading the dictionary form of any loaded scenario returns that scenario |
| `ScenarioFiles.SerializeScenario` | src/dcs_dungeon_master/scenario_state/registry.py:316-331 | the serializer writes key lines, a blank line and the arrays of tables, stripped and ended by a line break |
| `ScenarioFiles.FileRoundTrip` | src/dcs_dungeon_master/scenario_state/registry.py:316-371 | writing any loaded scenario to a file, reading the file and loading the result returns the scenario iff none of its texts holds a control character; otherwise the file cannot be read |
| `Lifecycle.RunControl.UpdateRunStatus` | src/dcs_dungeon_master/persistence/sqlite_store.py:947-994 | the whole new row and the one appended status-change entry, for any status from any other; along an allowed edge the history stays one |
| `Lifecycle.RunControl.Transition` | src/dcs_dungeon_master/operator_control/__init__.py:452-484 | a command is taken iff its edge is allowed from the current status, and otherwise leaves row and log untouched |
| `Lifecycle.RunControl.EnsureCycleAllowed` | src/dcs_dungeon_master/operator_control/__init__.py:81-90 | raises iff the run is paused or over; a new run is started, a running one left alone |
| `Lifecycle.RunControl.RunLiveLoop` | src/dcs_dungeon_master/execution/__init__.py:833-874 | under any commands arriving at cycle boundaries the cycles run are consecutive from the start number, an early stop means paused, and an error means the run was over or the cycle failed |
| `Lifecycle.NothingFollowsTheEnd` | src/dcs_dungeon_master/operator_control/__init__.py:460-466 | stopped and failed are absorbing: no change and no cycle ever follows |
| `Lifecycle.StampsFollowStatus` | src/dcs_dungeon_master/persistence/sqlite_store.py:956-973 | timestamps match the status over any history: started unless new, paused iff paused or stopped out of a pause, resumed iff it ever was, stopped and failed iff so |
| `Lifecycle.ChangesChain` | src/dcs_dungeon_master/persistence/sqlite_store.py:979-993 | status-change entries chain edge by allowed edge from created to the current status |
| `Lifecycle.InvokeWithFailover` | src/dcs_dungeon_master/model_adapter/__init__.py:416-449 | backends are asked in order up to the first success or the last one; that answer is final, every attempt is recorded, and failover is flagged iff it was not the first |
| `Findings.FindingsOfBatches` | src/dcs_dungeon_master/evaluation/__init__.py:649-730 | the loop over batches gives the findings of every batch and the tally of doubtful reactions |
| `Findings.FindingsOfTally` | src/dcs_dungeon_master/evaluation/__init__.py:731-749 | the loop over the tally gives one finding for each coalition that reacted often |
| `Findings.BuildFairnessFindings` | src/dcs_dungeon_master/evaluation/__init__.py:632-768 | the nested loops with tally and dictionary of earlier findings give every draft, each with the review of the last earlier finding with its key |
| `Reviews.FindingTable.ReplaceFairnessFindings` | src/dcs_dungeon_master/persistence/sqlite_store.py:1956-1999 | the table holds the given findings, in order, under fresh increasing ids |
| `Reviews.FindingTable.EvaluateRun` | src/dcs_dungeon_master/evaluation/__init__.py:117-142 | re-evaluation replaces the rows by the drafts with carried-over reviews, in the form the review theorems speak of, and is entered in the history |
| `Reviews.FindingTable.ReviewFinding` | src/dcs_dungeon_master/evaluation/__init__.py:234-242 | a review changes the human part of one row, then the run is evaluated again; an unknown id changes nothing |
| `Reviews.ListingKeepsLast` | src/dcs_dungeon_master/persistence/sqlite_store.py:2001-2013 | listing by cycle does not change which row of a key comes last |
| `Reviews.HistoryKeepsReviews` | src/dcs_dungeon_master/evaluation/__init__.py:936-965 | over any sequence of reviews and evaluations in which no evaluation drafts a key twice, the table holds the latest drafts, each with its last review |
| `Reviews.EvaluationGivesEvaluated` | src/dcs_dungeon_master/evaluation/__init__.py:936-957 | whatever was there before, evaluation leaves one row per draft, with equal reviews for equal keys |
| `Reviews.ReevaluationIsIdempotent` | src/dcs_dungeon_master/evaluation/__init__.py:936-957 | evaluating again changes nothing but row ids |
| `Reviews.ReviewThenEvaluate` | src/dcs_dungeon_master/evaluation/__init__.py:936-957 | a review followed by re-evaluation is kept and shared with earlier findings of its key if it is the last with that key, and undone entirely if it is not |
| `Reviews.ReviewIsKeptIff` | src/dcs_dungeon_master/evaluation/__init__.py:936-965 | a human review survives re-evaluation iff no later finding has the same key or it said nothing new |
| `Reviews.DistinctKeysKeepReviews` | src/dcs_dungeon_master/evaluation/__init__.py:936-965 | with distinct keys every review is kept and stands alone |
| `ReviewKeys.DistinctKeysIff` | src/dcs_dungeon_master/evaluation/__init__.py:671-768 | an evaluation drafts every key once iff no finding would be drafted for two results of the same coalition, cycle and action id; only the converse needs ids without quotes |
| `ReviewKeys.QuotesCanMerge` | src/dcs_dungeon_master/evaluation/__init__.py:686 | the proviso on quotes is needed: two actions and two sectors that make the same text |
| `ReviewKeys.OneBatchEachKeepsKeys` | src/dcs_dungeon_master/evaluation/__init__.py:649-768 | a record with at most one batch for a coalition and cycle, whose batches repeat no action id, drafts no key twice |
| `ReviewKeys.RecordsKeepReviews` | src/dcs_dungeon_master/evaluation/__init__.py:936-965 | over any sequence of reviews and evaluations of such records every finding carries its last review |
| `ReviewKeys.EarlierReviewIsLost` | src/dcs_dungeon_master/evaluation/__init__.py:936-965 | of every record with one batch stored twice: whatever is said about its first finding is undone at once |
| `ValidatedTwice.SecondValidationLosesReview` | src/dcs_dungeon_master/__main__.py:627-641 | the failing input: a scenario that loads, a picture its observer paints, and an order the validator accepts, validated twice |
| `Reviews.ReviewsOutliveNewDrafts` | src/dcs_dungeon_master/evaluation/__init__.py:936-957 | reviews survive new evidence: a finding drafted again keeps the review of its key |
| `Reviews.ScoreFairness` | src/dcs_dungeon_master/evaluation/__init__.py:869-876 | the score loop computes 100 minus the penalties of suspicious findings not cleared, cut to 0..100 |
| `Reviews.FullScoreIff` | src/dcs_dungeon_master/evaluation/__init__.py:869-876 | the score is 100 iff every finding that costs anything has been cleared |
| `Reviews.ClearingNeverLowersScore` | src/dcs_dungeon_master/evaluation/__init__.py:869-876 | clearing a finding and evaluating again never lowers the score, whatever the keys are |
| `Reviews.DraftsAreBounded` | src/dcs_dungeon_master/evaluation/__init__.py:632-768 | every drafted finding is a suspicion worth between 0 and 30 points |
| `Reviews.HiddenTargetingMeans` | src/dcs_dungeon_master/evaluation/__init__.py:690-709 | a hidden-targeting finding is drafted iff some batch let an action through whose target sector held enemies while the picture showed none there |

## Left out

- StateStore.Store.ApplyExecutionStateUpdates: does not write the execution notes and the visible `standing_orders` texts of the same transaction, which are shown to commanders and read by no later part of the pipeline.
- StateStore.Store.UpsertExecutionStandingOrder: does not write the order-history row and the visible `standing_orders` row, for the same reason.
- Message texts and the per-command result rows; statuses, codes, counts and the requests sent are modelled.
- The soft limit on batch size, which only adds a note.
- Attachments, overlays and narrative of an observation; it is long and has no effect on decisions.
- JSON, SQL, HTTP, gRPC, the command line, the web API and the front end; they carry values to and from what is modelled.
- Floating-point rounding, NaN and infinities, and the haversine formula.
- How Python reads numbers from strings and floats from text: parameters of the loader and of the printer's reader.
- Case folding outside ASCII in type and coalition names.
- Which error and which message the scenario loader raises; that it raises is modelled.
- Comments, quoted and dotted keys, unicode escapes, multi-line strings, dates and single-bracket tables in the TOML reader; the printer writes none of them.
- Uniqueness of authored standing-order ids, which the database enforces when a run is created.
- Parsing of a model's reply into a payload; any payload is covered.
- Chance in a model's answers: in `ClosedLoop` a commander is any function of the pictures it was shown; elsewhere a payload may be anything.
- The matrix run that takes a run from created straight to failed; the store's write it uses is modelled for any status, the histories are those of operator commands and the loop.
- Commands racing inside one status read; they arrive between reads.
- The data column of a finding, evidence summaries, per-cycle metrics, tuning notes, ratings and audit reports.
- Reinforcement into a no-deploy zone: the source does not check it, so restricted sectors are proved safe only where no control point lies in one.
- The sector a track is last known in is the group's current world sector in the source; nothing is claimed about its age.
- Movement bounds across ingests: an ingest may place groups anywhere.
