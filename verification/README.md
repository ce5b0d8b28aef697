# Verified model of the configuration file, the service supervisor and their neighbours

This project models the parts of the repository that keep state across time, and proves what
they promise:

- **The versioned configuration file.** `Json`, `SectionRules`, `Canonicalizer`, `OptimizerPolicy`
  and `Converter` model saved documents and every rewrite rule; `FileFormat` the file's envelope
  and the upgrade of generations 0 to 12; `Publication` the three locked operations as a step
  machine with crashes and outside edits; `LocalFile` and `ConfigUpgrade` the same operations as
  methods on a file and a directory. `ConvertedExtractors`, `ConvertedDocument`,
  `UpgradeAcceptance` and `PublishedWhen` say exactly what a conversion, an upgrade and an operation
  accept and leave, with every generation, name, default and size written out; `CanonicalForm`,
  `RouteConvergence`, `PolicyPreservation`, `EditRelabelling`, `ConversionMeaning` and
  `PublicationSafety` hold the other theorems. `PoolImport` adds the selection of a storage backend
  and the one-time import of pool sizes.
- **The service supervisor** (`Supervisor`): restarts under a sliding-window budget.
- **The aggregation change log** (`ChangeLog`, `ChangeLogEntries`, `ChangeLogPages`): one-pass
  grouping, sort, early-exit page, what a page tells, and when it depends on set iteration.
- **Structures that forget**: the duplicate log filter (`DuplicateFilter`), the client cache
  (`ClientCache`), the tokenizer thread budget (`NativeCompute`), layered environment files
  (`EnvLoader`).
- **Concurrency and search**: the benchmark worker pool (`WorkerPool`) and the annotation
  worklist of the session-scoped client (`SessionWalk`).

Where the source computes by expressions, the model is functions; where it changes local copies,
fields or dictionaries step by step, the model is methods and classes, each proved to compute the
function the theorems are about. Schema validators, the JSON codec, the digest and text-to-number
parsing are function values the theorems quantify over: `Adapters`, `Codec`, `Readers`, `Rules`
and `StorageCodec`. `Lawful`, `LawfulCodec`, `RejectsRetired` and `LawfulStorage` state the few
facts about them that some theorems need.

## What the proofs found

- An edit relabels one kind of older file that the upgrade would refuse: a held lineage grace of
  zero days, in the current spelling, in a generation whose schema required positive days
  (`EditRelabelling.HeldReclamationIsRelabelled`; `RelabellingSound` gives the exact condition).
- The duplicate filter reads its clock before taking its lock, so a late reading can meet a memory
  that a later one has evicted, and a repeat inside the window passes
  (`DuplicateFilter.LateReadingPasses`; `EvictionShowsIff` gives the exact condition).
- The count that the cache's `invalidate` returns depends on whether expired entries were read
  before (`ClientCache.ReadChangesCount`; `InvalidateCountIff` gives the exact condition).
- A blank value the process came with blocks a file's non-blank value, a later file's blank
  unsets it, and loading the first file again then sets it (`EnvLoader.BlankProcessValueShows`;
  `BlankProcessValueIff` and `ReloadChangesIff` give the exact conditions).
- A page of the change log can depend on how a set iterates (`ChangeLogPages.TiedPagesDiffer`;
  `PageDeterminedIff` gives the exact condition, and unique event numbers meet it).
- The annotation walk follows type arguments only, not the types of a model's fields, although its
  comment speaks of everything reachable through a request model: a method whose request nests a
  model with a session field is forwarded (`SessionWalk.ForwardsNested`; `WalkCompleteIff` and
  `ForwardedUnboundIff` give the exact conditions).
- The conversion reads switches again that a document's own generation already refused, and can
  turn on what they would turn on (`ConversionMeaning.RefusedSwitchRevives`;
  `ConversionPreservesPolicyIff` gives the exact condition, and `ConversionReadsNames` says for
  every document what the result means).

Where comments and code differ, the model follows the code: `reflexio/cli/log_format.py:187` speaks
of eviction every 100 checks, the code evicts above 200 entries; `reflexio/client/cache.py:111` of
cleanup every 100 sets, the code cleans when the number of entries is a multiple of 100;
`reflexio/cli/env_loader.py:377` says committed presets win over home secrets, the code loads home
secrets first and never overrides, so they win.

## Model

| member | source | states |
|---|---|---|
| Converter.MigrateDict | reflexio/config_migration.py:382-398 | the rename loop drops every old name; a current name keeps its own value, else takes the first old spelling in table order; nothing else changes |
| Canonicalizer.MigrateLookup | reflexio/config_migration.py:382-398 | the same law for any acyclic rename table, by induction on the table |
| Converter.NormalizeLegacyShape | reflexio/config_migration.py:400-436 | the list loop leaves in each of the three extractor sections the existing section, else the first entry of the first old list present in the order written out, null for an empty list; every old list is gone and nothing else changes |
| Converter.HousekeepingConflicts | reflexio/housekeeping_policy.py:20-33 | collects exactly the retired fields with custom values; none is the same as the cleanup accepting |
| Converter.StripLegacyHousekeeping | reflexio/housekeeping_policy.py:36-50 | refuses on a conflict, else removes the former default cadence and nothing else |
| Converter.NormalizeOptimizerPolicy | reflexio/config_migration.py:270-316 | reading old switches from the saved policy while the working copy loses keys computes the seven optimizer rules in sequence |
| OptimizerPolicy.Closed | reflexio/config_migration.py:270-316 | the sequence of seven optimizer rules accepts exactly when each group of old fields is readable and unambiguous, and yields a closed form field by field |
| Converter.StripExtractorNamesInPlace | reflexio/config_migration.py:565-604 | the loops over singular sections and old lists remove the retired names of every entry |
| Converter.StripRetired | reflexio/config_migration.py:472-605 | the whole cleanup of retired settings on a working copy |
| Converter.RespellStorage | reflexio/config_migration.py:668-687 | the storage loop tags the reference, refusing a name given under both spellings |
| ConversionMeaning.TaggingRefuses | reflexio/config_migration.py:671-677 | tagging refuses exactly a reference with both spellings of the type or of the schema |
| ConversionMeaning.TaggingKeepsBackend | reflexio/config_migration.py:608-623 | otherwise it records the backend the reference already selected, keeps the schema, and touches only HTTP selectors besides |
| ConvertedExtractors.ExtractorsConverted | reflexio/config_migration.py:349-436 | for every document: which saved value each extractor section comes from, and under which current name every prompt, name, override, threshold and policy of it then stands; only an unknown consolidation strategy is refused |
| ConvertedDocument.ConversionIs | reflexio/config_migration.py:657-701 | for every document and generation: exactly the readable ones are converted, each key of the result holds the value, default, preset size and spelling written out, and a readable one is refused only by the schema |
| Converter.ConvertDocument | reflexio/config_migration.py:657-701 | the conversion loop returns exactly the document `ConvertedDocument` describes key by key, and refuses a readable one only because the schema refuses that document |
| Canonicalizer.Characterization | reflexio/config_migration.py:626-654 | the converter accepts exactly when the rule of every key accepts, and its result holds at every key what that key's rule makes of the original |
| Canonicalizer.SameOutcomes | reflexio/config_migration.py:626-654 | documents whose keys are treated alike are converted alike, refusals included |
| CanonicalForm.OptimizerOutput | reflexio/config_migration.py:270-316 | an accepted optimizer section comes out without any retired name and with checked scheduling |
| CanonicalForm.PendingOutput | reflexio/pending_tool_policy.py:72-122 | an accepted pending section comes out without timing, the old switch or a follow-up threshold, tool overrides included |
| CanonicalForm.FixedIffNormal | reflexio/config_migration.py:626-654 | the converter leaves a document alone exactly when it is in normal form |
| CanonicalForm.CanonicalizeIdempotent | reflexio/config_migration.py:626-654 | every output is normal and is converted to itself |
| CanonicalForm.DocumentFixedIffNormal | reflexio/config_migration.py:657-701 | the whole conversion accepts and returns a document unchanged exactly when it is normal, its storage tagged and its schema valid |
| CanonicalForm.DocumentIdempotent | reflexio/config_migration.py:657-701 | what the conversion accepts and returns it accepts and returns again |
| FileFormat.DecodeEncode | reflexio/config_file.py:31-58 | an encoded file decodes to the same document without its envelope field, the current generation and the same receipt |
| FileFormat.AcceptedFileIsDetermined | reflexio/config_file.py:31-58 | an accepted file is exactly its document, its generation and its receipt: no other envelope field, version or digest shape is let through |
| PublishedWhen.DecodeIs | reflexio/config_file.py:31-58 | exactly which bytes are a configuration file: an envelope of a generation from 1 to 13 and at most a receipt of 64 hexadecimal digits, or none |
| PublishedWhen.ReaderIs | reflexio/config_file.py:61-84 | the strict reader takes exactly a readable file without unresolved consent before generation 13 and without an ignored output limit before 9 |
| FileFormat.UpgradeDocument | reflexio/config_file.py:199-263 | reassigning one section after another computes the upgrade whose acceptance and result `UpgradeAcceptance.UpgradeIs` gives for every generation |
| FileFormat.UpgradedLookup | reflexio/config_file.py:199-263 | an upgraded document holds at every key what that key's own generation rules make of the original |
| UpgradeAcceptance.UpgradeIs | reflexio/config_file.py:87-263 | for every generation: the upgrade accepts exactly a document without names its schema ignored and with every old field it owned readable, and each field of the result is written out |
| RouteConvergence.OptimizerAbsorbed | reflexio/config_file.py:213-240 | on every optimizer section without an ignored budget, the broad optimizer rule does after the gated upgrade of any generation what it does without it, refusals included |
| RouteConvergence.PendingAbsorbed | reflexio/config_file.py:185-196 | the two routes treat the pending section alike, consent resolved once |
| RouteConvergence.RoutesConverge | reflexio/config_file.py:185-332 | for every generation and document the upgrade accepts, converting the upgraded document and converting the original end alike, refusals included |
| PolicyPreservation.UpgradePreservesPolicy | reflexio/config_file.py:213-263 | every effective setting evaluates the same before and after the upgrade from any generation: optimizer budget, agent and user gates, retrieval pool, audit age, lineage grace, pending lifetime and each tool's own |
| PolicyPreservation.UpgradePreservesModels | reflexio/config_migration.py:439-469 | every text role keeps the model it was served by; no endpoint override is left |
| PolicyPreservation.UpgradePreservesOutputLimit | reflexio/config_file.py:73-84 | an output limit older schemas ignored never becomes a real one, and a real one is kept |
| PolicyPreservation.UpgradeTouchesOnlyOwned | reflexio/config_file.py:213-263 | a field no newer generation owns is unchanged by the upgrade |
| ConversionMeaning.ConversionReadsNames | reflexio/cli/config_upgrade.py:27-30 | every document the conversion accepts, of every generation and with any old lists, aliases, thresholds or spellings, comes out meaning what the names in it say |
| ConversionMeaning.ConversionPreservesPolicy | reflexio/cli/config_upgrade.py:27-30 | the conversion of a document that uses the names of its own generation means what the document meant under it, each tool's lifetime included |
| ConversionMeaning.ConversionPreservesPolicyIff | reflexio/cli/config_upgrade.py:27-30 | over every accepted document of every generation, the settings are kept exactly when each switch its generation refused is off and each current name its generation ignored repeats what the old ones said |
| ConversionMeaning.UpgradableIsOfGeneration | reflexio/models/config_schema.py:700-718 | every file the upgrade accepts, and whose upgrade has none of the switches the current schema refuses, uses the names of its own generation |
| ConversionMeaning.RefusedSwitchRevives | reflexio/config_migration.py:138-153 | a concrete switch its own generation refused, which the conversion reads again and turns a pool on with |
| EditRelabelling.RelabellingSound | reflexio/config_file.py:394-410 | on a document an edit lets through, the upgrade is the identity or a refusal, and it refuses exactly when the file predates the single grace field and its grace is not positive |
| EditRelabelling.RelabelledMeaning | reflexio/config_file.py:394-410 | stamping the current generation keeps every effective setting |
| EditRelabelling.PublishedEditRelabelsSoundly | reflexio/config_file.py:385-410 | every published edit over an older file relabels a document the upgrade leaves as it was, or refuses for its grace alone |
| EditRelabelling.HeldReclamationIsRelabelled | reflexio/config_migration.py:180-205 | a concrete file of generation 11 that an edit relabels and the upgrade refuses |
| PublicationSafety.RunConsistent | reflexio/config_file.py:155-176 | in every run temporary files are prefixes of what is written and the comparison comes after the backup |
| PublicationSafety.OnlyCommitReplaces | reflexio/config_file.py:155-176 | only the final rename changes the file, to the whole candidate, with the original of an upgrade already kept, over exactly the bytes it was computed from unless an outsider wrote in the gap |
| PublicationSafety.CrashSafety | reflexio/config_file.py:412-517 | after any number of steps of an operation and a crash after any of them the file holds the bytes read or the complete candidate, and in that case the backup its receipt names holds the original |
| PublicationSafety.OutsideEditSurvives | reflexio/config_file.py:490-515 | an outside edit made before the comparison is what the file holds from then on, no candidate is ever staged over it, and once the operation is over it has failed |
| PublicationSafety.BackupsAreForever | reflexio/config_file.py:506-511 | no run removes or overwrites a kept original |
| PublicationSafety.RunSound | reflexio/config_file.py:466-517 | in every run a recorded receipt names a kept original with that digest, of an older generation, in the file and in every backup |
| PublicationSafety.NoStepLowersGeneration | reflexio/config_file.py:334-517 | no step of a writer lowers the stored generation or removes the file, whatever outsiders did before |
| PublicationSafety.GenerationNeverDecreases | reflexio/config_file.py:334-517 | cooperating writers alone never lower the stored generation and never remove the file over a whole run |
| PublicationSafety.CallerCannotPlantReceipt | reflexio/config_file.py:334-383 | a replacement records exactly the receipt of the file it replaces, whatever envelope the caller supplied |
| PublicationSafety.OriginalRecoverable | reflexio/config_file.py:476-517 | following receipts reaches, in at most one step per generation, an original no upgrade produced, every step kept byte for byte |
| LocalFile.RunsToCompletion | reflexio/config_file.py:334-517 | an undisturbed operation ends within a known number of steps with exactly the files and outcome of the functional specification |
| LocalFile.LocalConfigFile.PublishDocument | reflexio/config_file.py:334-383 | a full replacement leaves the files and outcome of that specification, which `PublishedWhen.PublishIs` characterises |
| LocalFile.LocalConfigFile.EditDocument | reflexio/config_file.py:385-410 | a strict edit leaves the files and outcome of that specification, which `PublishedWhen.EditIs` characterises |
| LocalFile.LocalConfigFile.PrepareFile | reflexio/config_file.py:412-517 | preparation leaves the files and outcome of that specification, which `PublishedWhen.PrepareIs` and `PrepareCreates` characterise |
| LocalFile.AdmitTransition | reflexio/config_file.py:266-283 | the admission rule, call by call |
| LocalFile.PublishedIsAdmitted | reflexio/config_file.py:266-283 | a published document was itself admitted, unless it keeps the storage of a stored single-owner file |
| LocalFile.NeverWrites | reflexio/config_file.py:334-517 | a create-only publication over a file, a document declaring an older generation with unprepared consent, and an edit or preparation that changes nothing never write |
| LocalFile.PublishedReadsBack | reflexio/config_file.py:314-319 | the strict reader accepts what any operation publishes and reads exactly the document meant |
| LocalFile.UpgradedOnce | reflexio/config_file.py:412-517 | preparing the file a preparation left writes nothing |
| PublishedWhen.PublishIs | reflexio/config_file.py:334-383 | exactly when a full replacement writes, and that a reader then finds the supplied document and the stored receipt |
| PublishedWhen.EditIs | reflexio/config_file.py:385-410 | exactly when a strict edit writes, changes nothing or fails, and that a reader then finds the edit of the stored document |
| PublishedWhen.PrepareIs | reflexio/config_file.py:412-517 | exactly when preparation rewrites a stored file, and that a reader then finds the revision of the upgraded document under the generation the file had, with the original kept and its digest recorded |
| PublishedWhen.PrepareCreates | reflexio/config_file.py:412-466 | exactly when preparation creates a file, and that a reader then finds the first document as revised under the current generation |
| ConfigUpgrade.Directory.ConvertConfigFile | reflexio/cli/config_upgrade.py:14-53 | writes exactly the converted copy or nothing, never over its input, which keeps its bytes |
| ConfigUpgrade.ConvertedFileIs | reflexio/cli/config_upgrade.py:14-53 | the written bytes are a current file without receipt that holds what the conversion is to make of the input, and a readable input is refused only for what it holds or by the schema |
| ConfigUpgrade.ConversionIsIdempotent | reflexio/cli/config_upgrade.py:27-30 | converting a converted file writes the same bytes |
| ConfigUpgrade.ConvertedIsCurrent | reflexio/cli/config_upgrade.py:27-30 | a converted file passes the strict reader and preparation leaves it alone |
| ConfigUpgrade.ConversionsAgree | reflexio/cli/config_upgrade.py:14-53 | converting a file upgraded in place and converting its original write the same bytes or both refuse |
| PoolImport.RejectPoolConflicts | reflexio/config_env.py:128-149 | the loop accepts exactly when every assignment that is set is well formed and repeats the effective pools, reader inheritance included |
| PoolImport.UpdateStorage | reflexio/cli/bootstrap_config.py:222-276 | the callback computes the selection function of the theorems below |
| PoolImport.SelectIs | reflexio/cli/bootstrap_config.py:222-276 | every selection comes to the kind and primary selected, the saved path, schema or reader of that backend, and for a native one the assigned pools before generation 10, else the saved or default ones; and exactly when assignments stand in the way |
| PoolImport.OlderFileImportsPools | reflexio/cli/bootstrap_config.py:252-283 | on a file older than generation 10 a native selection is published exactly under the conditions written out, and a reader finds the upgraded document with the pools the four assignments ask for |
| PoolImport.SelectionOnFile | reflexio/cli/bootstrap_config.py:222-283 | whatever is selected, on a file of whatever generation, the published file is the upgraded document with that storage and nothing else changed |
| PoolImport.ImportRepeats | reflexio/config_env.py:77-149 | freshly imported pools are repeated by the assignments they came from, for every combination of blank and set |
| PoolImport.SelectionStable | reflexio/cli/bootstrap_config.py:222-276 | a selection that succeeded on a file of any generation succeeds again under the same environment and selects the same storage |
| PoolImport.ReselectionKeeps | reflexio/cli/bootstrap_config.py:222-264 | selecting the saved backend again keeps the SQLite path, the remote schema and the native reader and pools |
| PoolImport.RetargetCarriesNothing | reflexio/cli/bootstrap_config.py:228-248 | selecting another primary carries neither schema nor reader across |
| PoolImport.EnvironmentNeverSelects | reflexio/cli/bootstrap_config.py:252-271 | from the owning generation on no assignment selects a pool |
| PoolImport.ChangedAssignmentIff | reflexio/config_env.py:128-149 | after an import a changed environment is accepted exactly while it repeats the imported pools |
| PoolImport.SelectedOnce | reflexio/cli/bootstrap_config.py:278-283 | selecting a backend twice writes the file once, whether the first selection created the file or found it in any generation |
| Supervisor.PrunedStaysOut | reflexio/cli/utils.py:492-496 | pruning a failure list earlier does not change any later window |
| Supervisor.WindowCount | reflexio/cli/utils.py:492-505 | at least n failures are in the window exactly when the n-th last is |
| Supervisor.PruningInvisible | reflexio/cli/utils.py:478-510 | after a failure the kept list is the window over the whole history, and a respawn is scheduled exactly when the failure is not the fifth inside it |
| Supervisor.RestartBudget | reflexio/cli/utils.py:478-535 | in every run a launch follows its failure by at least the delay, and only if that failure is more than 30 seconds after the fourth before it |
| Supervisor.RapidFailuresStop | reflexio/cli/utils.py:329-331 | a service failing at most 7.5 seconds apart is started at most five times |
| Supervisor.OneChildPerService | reflexio/cli/utils.py:412-535 | running and waiting services are disjoint and no service has two live children |
| Supervisor.RetiresWhen | reflexio/cli/utils.py:478-535 | exactly which exits retire a service, and exactly which respawns do: in a shutdown, or when due under a stop marker or without a child |
| Supervisor.RetiredForever | reflexio/cli/utils.py:478-535 | a retired service is never launched again |
| Supervisor.RespawnCarriedOut | reflexio/cli/utils.py:505-535 | in every run a failure that is not the fifth within 30.0 seconds is followed, in the first round at or after 2.0 seconds later and short of a marker or shutdown, by a launch exactly when a child is spawned |
| Supervisor.ExitsAreSeen | reflexio/cli/utils.py:624-629 | a round handles exactly the children that have exited, each with its own code |
| Supervisor.MonitorRoundPossible | reflexio/cli/utils.py:620-629 | a monitor round is a possible run from every state the invariant allows |
| Supervisor.ServiceSupervisor.StartService | reflexio/cli/utils.py:412-445 | a started child is registered; a failed start leaves none registered |
| Supervisor.ServiceSupervisor.HandleServiceExit | reflexio/cli/utils.py:478-510 | after an exit the child is gone; a clean, requested or shutdown exit clears the failures, the wait and the marker; any other records the failure and schedules a respawn 2.0 seconds on unless it is the fifth kept within 30.0 |
| Supervisor.ServiceSupervisor.RespawnDueServices | reflexio/cli/utils.py:512-535 | after one pass, in any order: every due service waits no more and runs under its new child exactly when no stop marker stood and one was spawned; one not yet due, and every other service, is untouched; a shutdown drops all that waited |
| Supervisor.ServiceSupervisor.MonitorRound | reflexio/cli/utils.py:622-629 | respawns, then exits, as machine steps |
| ChangeLog.GroupEvents | reflexio/lib/_agent_playbook.py:438-464 | after one pass the dictionaries hold, for each run, what its own events say, and nothing for events without a run |
| ChangeLog.Reconstruct | reflexio/lib/_agent_playbook.py:359-546 | the early-exit loop returns the first entries of the grouped, sorted and filtered log, whose contents `ChangeLogEntries.PageIs` gives |
| ChangeLogEntries.EntryIs | reflexio/lib/_agent_playbook.py:438-542 | a run is shown exactly when some snapshot of it is found and the query names no other playbook or version; its entry has the found snapshots in log order, the name and version of the first added, else removed, one, the mode of its first aggregate event and its last time |
| ChangeLogEntries.PageIs | reflexio/lib/_agent_playbook.py:466-546 | a page tells distinct wanted runs, most recent first, none more recent left out, and is full or misses none |
| ChangeLog.PageExact | reflexio/lib/_agent_playbook.py:466-546 | one entry for each run the query wants and none for another, each from its own events, most recent first |
| ChangeLog.RunsNeverMerge | reflexio/lib/_agent_playbook.py:443-446 | another run's event anywhere in the log changes nothing in a run's events |
| ChangeLog.PagesNest | reflexio/lib/_agent_playbook.py:534-546 | a page is a prefix of every longer one and no longer than its limit |
| ChangeLog.SortIsStable | reflexio/lib/_agent_playbook.py:467-471 | runs of equal rank keep the order they came in |
| ChangeLogPages.PageDeterminedIff | reflexio/lib/_agent_playbook.py:466-546 | a page is the same for every iteration order of the set exactly when no two wanted runs that tie for a place on it have different entries |
| ChangeLogPages.TiedPagesDiffer | reflexio/lib/_agent_playbook.py:466-471 | a concrete log whose page of one depends on set iteration |
| ChangeLogPages.PageIsDetermined | reflexio/lib/_agent_playbook.py:359-546 | with unique event numbers after the origin every page is a function of the events |
| DuplicateFilter.LogFilter.Filter | reflexio/cli/log_format.py:165-211 | the dictionaries step as specified, and in clock order the decision is the one the whole log gives |
| DuplicateFilter.StepIs | reflexio/cli/log_format.py:186-199 | a record is dropped exactly when its key passed less than a window ago, and what passed longer ago is forgotten once more than 200 keys are remembered |
| DuplicateFilter.EvictionShowsIff | reflexio/cli/log_format.py:188-194 | eviction changes a decision exactly when the forgotten pass is still inside the window, which takes an out-of-order reading |
| DuplicateFilter.EvictionInvisible | reflexio/cli/log_format.py:165-211 | every decision of a run in clock order is that of a filter that forgets nothing |
| DuplicateFilter.PassesAreSpaced | reflexio/cli/log_format.py:194-199 | two passing records of one key are at least the window apart |
| DuplicateFilter.SuppressionConserved | reflexio/cli/log_format.py:195-199 | in any clock order every arrival has passed, been reported by the next pass, or is counted for it |
| DuplicateFilter.LateReadingPasses | reflexio/cli/log_format.py:185-199 | a concrete run in which a late clock reading lets a repeat through |
| ClientCache.AnswerIff | reflexio/client/cache.py:65-90 | a read answers exactly when some store of the key is the last, uncovered by clear or invalidate, and young enough, and then with its value |
| ClientCache.InMemoryCache.Get | reflexio/client/cache.py:65-90 | under a clock that does not go back the answer is the log's; at most the expired entry is removed |
| ClientCache.InMemoryCache.Store | reflexio/client/cache.py:92-113 | the entry is stored, and expired entries go exactly when the size is a multiple of 100 |
| ClientCache.InMemoryCache.ClearAll | reflexio/client/cache.py:115-118 | nothing is left |
| ClientCache.InMemoryCache.InvalidateMethod | reflexio/client/cache.py:120-137 | exactly the method's stored entries go, and are counted |
| ClientCache.InMemoryCache.CleanupExpired | reflexio/client/cache.py:139-150 | exactly the expired entries go |
| ClientCache.DeletionInvisible | reflexio/client/cache.py:65-150 | two caches of one log, however cleaned, answer every later read alike |
| ClientCache.InvalidateCountIff | reflexio/client/cache.py:120-137 | the count is at least the live entries, and equal exactly when no expired one is stored |
| ClientCache.LiveKeysAgree | reflexio/client/cache.py:120-137 | the live entries of a method are the same in any two caches of one log, so their counts differ only by expired entries |
| ClientCache.ReadChangesCount | reflexio/client/cache.py:65-137 | a read of an expired entry changes what a following invalidate returns |
| NativeCompute.ComputeState.ConfigureTokenizers | reflexio/native_compute.py:60-74 | the state and the two variables after one budget |
| NativeCompute.ComputeState.AfterFork | reflexio/native_compute.py:32-36 | a fork leaves a serial state |
| NativeCompute.ComputeState.Configure | reflexio/native_compute.py:47-88 | a blank budget is two, a malformed or non-positive one is refused before anything changes |
| NativeCompute.ParallelIff | reflexio/native_compute.py:32-74 | parallelism is on exactly when there was no fork since the hook was registered, no earlier import, and budgets never decreased and were at least two |
| NativeCompute.PoolWithinBudget | reflexio/native_compute.py:60-88 | while parallel, a pool built at any earlier moment is within the budget in force |
| NativeCompute.SerialForever | reflexio/native_compute.py:69-72 | once serial, always serial |
| EnvLoader.Environment.LoadDotenvPruned | reflexio/cli/env_loader.py:179-224 | one file, entry by entry in any order, sets each key by the one-key rule, overriding or not; a rejected file changes nothing |
| EnvLoader.LoadedIs | reflexio/cli/env_loader.py:179-224 | exactly which obsolete names reject a load, that the opt-out skips the file, and what every name ends as, with the opt-out and the tokenizer outputs written out |
| EnvLoader.Environment.LoadExistingModePaths | reflexio/cli/env_loader.py:374-393 | home secrets, then presets or the home file again, as layers |
| EnvLoader.LayersResolve | reflexio/cli/env_loader.py:217-224 | after any number of files each key ends as the closed rule says and tokenizer outputs end as they were |
| EnvLoader.FirstNonBlankWins | reflexio/cli/env_loader.py:179-224 | a non-blank process value is never changed; an absent key ends as the first non-blank assignment or unset |
| EnvLoader.HomeSecretsWin | reflexio/cli/env_loader.py:374-393 | a non-blank home secret of a name the process lacks wins over the committed presets, which decide only what the secrets leave out |
| EnvLoader.BlankProcessValueIff | reflexio/cli/env_loader.py:217-224 | the documented rule holds of a blank process value exactly when some file assigns a blank, and no non-blank assignment came before it or the next non-blank one says the same as the first |
| EnvLoader.ReloadIsIdle | reflexio/cli/env_loader.py:374-393 | loading a file and at once loading it again is loading it once |
| EnvLoader.ReloadChangesIff | reflexio/cli/env_loader.py:217-224 | loading any of the files again changes a key exactly when files are not switched off, the process came with a blank, that file assigns a non-blank, and all assignments are non-blank up to a point and blank from there on |
| EnvLoader.ReloadSettled | reflexio/cli/env_loader.py:217-224 | if the process came with no blank values, loading any of the files again leaves the whole environment as it is |
| EnvLoader.BlankProcessValueShows | reflexio/cli/env_loader.py:217-224 | a concrete sequence in which a blank process value and a reload show |
| WorkerPool.WorkersConserved | benchmark/gdpval/run_benchmark.py:550-754 | in every interleaving queued and held workers are together the phase's workers, none held twice or queued while held, and at most as many tasks run as there are workers |
| WorkerPool.RecordsExact | benchmark/gdpval/run_benchmark.py:676-724 | no task has two records; when every task finished each has one and the counts and tokens are the sums over the records |
| WorkerPool.RecordsTellReturns | benchmark/gdpval/run_benchmark.py:578-724 | every record names the worker its task took and the status and tokens the adapter returned for it, or a timeout without tokens |
| WorkerPool.NeverStuck | benchmark/gdpval/run_benchmark.py:558-763 | a phase takes at most six steps a task and with a worker always has a step to take until every task is over |
| WorkerPool.Phase.TakeWorker | benchmark/gdpval/run_benchmark.py:578-578 | the head of the queue is held |
| WorkerPool.Phase.RecordResult | benchmark/gdpval/run_benchmark.py:676-724 | totals first, then the record; a failed write still gives the worker back |
| WorkerPool.Phase.ReleaseWorker | benchmark/gdpval/run_benchmark.py:753-754 | a held worker returns to the queue on every way out |
| SessionWalk.SessionModelFields | reflexio/client/client.py:3599-3617 | on any finite graph, shared or cyclic, exactly the session fields of the models reachable by type arguments, and the walk ends |
| SessionWalk.AcceptsSessionArgument | reflexio/client/client.py:3620-3645 | true exactly when some parameter is a session argument or reaches a model with a session field |
| SessionWalk.GetAttr | reflexio/client/client.py:3793-3811 | forwards exactly public attributes of the client that are not callables with a session-carrying parameter |
| SessionWalk.WrappingHidesNothing | reflexio/client/client.py:3599-3617 | wrapping an annotation cannot hide the session fields inside it |
| SessionWalk.WalkCompleteIff | reflexio/client/client.py:3599-3617 | the walk finds every session field a value can hold exactly when each one behind a field of a visited model is also carried by a visited model |
| SessionWalk.ForwardedUnboundIff | reflexio/client/client.py:3793-3811 | a method is forwarded although an argument can hold a session exactly when no visited model carries one and some visited model has a field that nests one |
| SessionWalk.ForwardsNested | reflexio/client/client.py:3793-3811 | a concrete method, with a session field one model down in its request, that the fallback forwards |

## Left out

- The JSON codec, SHA-256 and the schema library: function values with stated laws. Digests may collide; no theorem assumes otherwise.
- Python's looser equality (`1 == True`, `1.5 == 1.50`) in document and storage comparisons: JSON values are compared as written.
- Floating point rounding: clock readings, windows, timeouts and the daily cadence are reals.
- Names in JSON objects are interned as numbers; error texts and exception classes collapse to the rule that refused.
- An `llm_config` that is neither an object nor null together with an endpoint model is refused, as the schema library refuses it.
- fsync, permissions, directories, symbolic links, the lock timeout and the existence check `prepare` makes before it takes the lock.
- Outside edits between the last comparison and the rename: the step machine has them and marks them, and the theorems exclude them.
- Temporary files left by a crash: they are never read again.
- Reconstruction of pending-call witness snapshots and the warning about retired timing variables: they feed code that is not part of this model.
- Supervisor output, pidfiles, port checks, readiness waits and a child that outlives its termination signal; asynchronous signals are modelled as the shutdown flag being set between steps.
- Service names are distinct and each has a stop-marker path, as the launcher builds them.
- Resolving a lineage entity: a function from its identifier to malformed, purged or found.
- Hashing a cached call's parameters into its key: calls with one key are one call.
- Dotenv parsing and interpolation: a file is an already resolved map; creating default files and back-filling secrets.
- The environment-wide list of removed names: a set the theorems quantify over.
- The numerical-library limits of `configure_native_compute` beyond the tokenizer state, and the child environment it derives.
- Memory lookups, evaluation, trajectories and progress logging of a benchmark task: steps that may fail.
- Object identity in the annotation walk: positions in a graph stand for it.
- HTTP request methods, login, rich output, the documentation site, library mixins that only forward to storage.
