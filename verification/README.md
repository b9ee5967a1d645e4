# Verified model of the mail automation core

A Dafny model of the parts of the mail automation service whose correctness rests on an algorithm or on a state
that lives through many calls: lookalike detection, the ONNX control plane, versions and migrations, admission
control, learning, and three bounded stores. `dafny verify dfyconfig.toml` checks everything.

Each file models one source file (the control plane takes four). Where the source has an object with fields, there
is a class whose methods change those fields; every such method is proved to compute a function from the old
abstract state to the new one, and the properties are lemmas about that function and about whole runs of it. Clocks,
files, the ONNX runtime, predictions and the outcome of every step that can fail are arguments, so a lemma over all
arguments is a lemma over every environment. Floating-point numbers are exact reals.

| file | models |
|---|---|
| `Text.dfy` | decimal numerals, `split`, `strip`, string order |
| `EditDistance.dfy` | edit scripts, the Levenshtein table |
| `DomainIntelligence.dfy` | similarity score, typo generator, normalisation, nearest-brand search |
| `Versions.dfy` | version comparison, parser and printer |
| `Migrations.dfy` | version-driven migrations and rollbacks |
| `CostGovernance.dfy` | token budgets in a sliding window |
| `RateLimit.dfy` | token bucket, per-provider limiter |
| `Learning.dfy` | the chain of learning engines |
| `AuditLog.dfy` | insert, trim and purge of the audit table |
| `ModelCache.dfy` | least-recently-used model cache |
| `CircuitBreaker.dfy` | circuit breaker under interleaved calls |
| `ModelRegistry.dfy`, `LearningMemory.dfy`, `StateBackups.dfy`, `ControlPlane.dfy` | the ONNX control plane |

## Where the code does less than its comments suggest

The model follows the code. In these places a stronger promise one might expect is false, and a lemma says exactly
when it holds, or shows how it fails:

- Pre-release lists: a list that another one extends by a numeral comes after it, not before
  (`Versions.CompareVersusSemVer`, `Versions.ShorterListComesAfter`).
- Runs alone never apply migration 9.7.0 on a fresh installation (`Migrations.UsersTableIsNeverCreated`): as long as
  versions are recorded and no rollback fails or goes up, it is in effect exactly if a rollback went below 9.7.0 and the
  stored version has come back to it (`Migrations.UsersTableIff`, `Migrations.UsersTableAfterRollback`; for any list `Migrations.TakesEffectIff`).
- A rollback to a target above the current version skips what lies between, which stays missing until a rollback goes
  below it (`Migrations.RollbackKeepsCleanIff`, `Migrations.SkippedMigrationStaysMissing`).
- Schema and version file can disagree after a step that could not be recorded, a rollback that failed part-way or one
  that went up. Over any history a migration is ahead of the file, or missing, exactly if such an event made it so, or
  it was so at the start, and the stored version has stayed on that side of it since (`Migrations.DisagreementIff`,
  `Migrations.MixedHistoryIsCleanIff`).
- A typo that swaps two adjacent letters is at distance 2 and passes for keys shorter than 14 letters, hence for all
  built-in brands (`DomainIntelligence.SwapPasses`, `DomainIntelligence.BuiltInFlagsExactlyOne`).
- The cached ONNX session is never compared with the model file. The session behind an acceptance is one of the
  accepted checksum exactly when none was cached before, or one of that checksum
  (`ModelRegistry.SessionMatchesFileIff`); a model that is replaced between two evaluations is approved and active on
  the strength of the old session (`ModelRegistry.StaleSessionArises`).
- The preview of an import never raises, the import does (`LearningMemory.ImportRaisesIff`); an export is not always
  restored by importing it (`LearningMemory.ExportImportIff`): over any run exactly the overrides with a blank
  priority, or a blank scope under a key with a prefix, are lost (`ControlPlane.OnlyBlankFieldsAreLost`, `LearningMemory.BlankScopeIsNotRestored`).
- The request counter of the limiter counts a successful request twice (`RateLimit.RequestsAreCountedTwice`).
- The cap of 10 on the backoff multiplier holds throughout a run exactly when no failure is recorded while the
  multiplier is above 25/3 (`RateLimit.CapHoldsIff`); from a new registration failures in a row pass it with the
  thirteenth (`RateLimit.CapLeftAfterThirteen`), and a second refusal may then ask for a shorter wait than the first
  (`RateLimit.RefusalsEscalate`).
- Positive feedback can lower a boost or an importance (`Learning.PositiveNeverLowersIff`,
  `Learning.PositiveLowersImportanceIff`).
- Registering a loaded model id again corrupts the memory counter (`ModelCache.RegisterAccountsIff`).
- With a model whose id is empty the loop of `can_load` ends exactly when the request fits beside that model and
  everything that would be evicted after it; otherwise it never ends (`ModelCache.EndsIff`).
- The audit table is the newest part of what an unbounded table would hold exactly as long as no write reuses the id of
  an entry that was trimmed away while some row is older; a row of the same timestamp leaves it to the database
  (`AuditLog.TableIsNewestIff`, `AuditLog.ReusedIdReturns`).
- Two backups taken in the same millisecond with an index of the same size share an identifier and a folder
  (`ControlPlane.IdsDifferIff`); pruning the older one then deletes the files of the newer, and its restore brings
  nothing back (`ControlPlane.CollisionLosesBackup`).
- Feedback for a whole domain does not decide the next mail of its sender exactly when an override for that sender
  exists (`ControlPlane.FeedbackIsFollowedIff`).
- The successes that close the circuit breaker need not be consecutive (`CircuitBreaker.NotConsecutive`).
- The success rate of a provider is 1 whatever fails (`RateLimit.RemainingIsAccounted`).

## Model

| member | source | states |
|---|---|---|
| EditDistance.Levenshtein | backend/ai/domain_intelligence.py:132-146 | the two-row table returns the least number of single-character inserts, deletes and substitutions that turn `a` into `b`: a script of that length exists and none is shorter |
| EditDistance.LastCell | backend/ai/domain_intelligence.py:140-146 | each row is built from the previous one and the last cell is the distance |
| EditDistance.DistanceIsShortestScript | backend/ai/domain_intelligence.py:132-146 | a number is the length of a shortest edit script if and only if it is the distance of the recurrence |
| EditDistance.ShortestScript | backend/ai/domain_intelligence.py:144 | an edit script of exactly that length exists |
| EditDistance.NoShorterScript | backend/ai/domain_intelligence.py:144 | every script that rewrites `a` into `b` has at least that many edits |
| EditDistance.DistanceZero | backend/ai/domain_intelligence.py:134-135 | the distance is zero exactly for equal strings |
| EditDistance.DistanceSymmetric | backend/ai/domain_intelligence.py:132-146 | the distance is symmetric |
| EditDistance.DistanceTriangle | backend/ai/domain_intelligence.py:132-146 | the triangle inequality |
| EditDistance.DistanceBounds | backend/ai/domain_intelligence.py:136-139 | the distance lies between the difference of the lengths and the longer length |
| DomainIntelligence.VisualSimilarityLaws | backend/ai/domain_intelligence.py:184-204 | the score is symmetric, lies in [0, 1], is 1 exactly for equal non-empty strings and 0 if one is empty |
| DomainIntelligence.WithoutCommonPairs | backend/ai/domain_intelligence.py:184-204 | names without a common pair of letters score 60% of one minus their distance over the longer length |
| DomainIntelligence.ShareOfPairs | backend/ai/domain_intelligence.py:195-203 | the pairs count as the share of the common ones among all |
| DomainIntelligence.PairsOfLetters | backend/ai/domain_intelligence.py:195-196 | a pair is counted exactly if its letters stand next to each other somewhere in the string |
| DomainIntelligence.GenerateTypos | backend/ai/domain_intelligence.py:211-240 | the result holds exactly the deletions, duplications, adjacent swaps and lookalike replacements of the name, and never the name |
| DomainIntelligence.AddReplacements | backend/ai/domain_intelligence.py:226-237 | adds exactly the lookalike replacements |
| DomainIntelligence.TypoDistance | backend/ai/domain_intelligence.py:211-240 | an adjacent swap is at distance exactly 2, every other typo at distance exactly 1 |
| DomainIntelligence.DomainIntelligenceEngine.NearestBrand | backend/ai/domain_intelligence.py:431-443 | the loop finds the first of the nearest keys of at least four letters, if one is nearer than 999 |
| DomainIntelligence.DomainIntelligenceEngine.CheckLevenshtein | backend/ai/domain_intelligence.py:427-463 | the result is marked with brand, domain, distance, score and reason exactly when the nearest key is at a distance from 1 to its threshold; otherwise nothing changes |
| DomainIntelligence.DistanceOneIsFlagged | backend/ai/domain_intelligence.py:448-451 | a name one edit from some key of at least four letters, and equal to none, is always flagged |
| DomainIntelligence.FlaggedDistances | backend/ai/domain_intelligence.py:449-451 | distance 2 is flagged only from 14 letters on and distance 3 only from 20 |
| DomainIntelligence.NearerScoresHigher | backend/ai/domain_intelligence.py:407-463 | a flagged name scores 20 points less for each further edit, from 75 at one edit, and a homograph scores more than any of them, up to 100 |
| DomainIntelligence.ShortKeysFlagExactlyOne | backend/ai/domain_intelligence.py:427-463 | with keys shorter than 14 letters exactly the names at distance 1 are flagged |
| DomainIntelligence.BuiltInFlagsExactlyOne | backend/ai/domain_intelligence.py:55-87 | so it is for the built-in brands |
| DomainIntelligence.TypoIsFlagged | backend/ai/domain_intelligence.py:427-463 | where the normalised name is a generated typo of a key other than a swap, it is flagged, unless it is itself a key |
| DomainIntelligence.NormaliseHomographs | backend/ai/domain_intelligence.py:149-159 | the loop replaces each character by the letter it resembles, in lower case |
| DomainIntelligence.NormaliseContracts | backend/ai/domain_intelligence.py:149-159 | normalising two names never moves them apart |
| DomainIntelligence.PlainDigits | backend/ai/domain_intelligence.py:37-38 | which letter each digit becomes |
| DomainIntelligence.LookalikesAreUndone | backend/ai/domain_intelligence.py:226-237 | normalisation undoes exactly the replacements by digits, except 1 for i |
| DomainIntelligence.DomainIntelligenceEngine.CheckHomograph | backend/ai/domain_intelligence.py:407-425 | a name that only normalisation turns into a key is marked with its brand, domain, score and reason; otherwise nothing changes |
| DomainIntelligence.DomainIntelligenceEngine.CheckName | backend/ai/domain_intelligence.py:312-320 | the result is a lookalike exactly if one of the two checks catches the name; it then has the brand of the matching or nearest key, its distance, and the type of the check that caught it, the homograph first; otherwise nothing changes |
| DomainIntelligence.TypoIsCaught | backend/ai/domain_intelligence.py:211-240 | every generated typo of a key other than a swap is caught by one of the two checks, unless it is itself a key, and by its distance exactly where normalisation does not turn it into a key of four letters |
| DomainIntelligence.SwapPasses | backend/ai/domain_intelligence.py:427-463 | a swap whose nearest key is the swapped key is flagged if and only if that key has at least 14 letters |
| Versions.CompareAntisymmetric | updater/version_manager.py:46-85 | exchanging the operands turns the sign around, so any two versions are comparable |
| Versions.CompareTransitive | updater/version_manager.py:46-85 | the comparison is transitive, and equality in between only if both steps are equalities |
| Versions.CompareVersusSemVer | updater/version_manager.py:46-85 | on valid pre-releases the order is that of section 11 of Semantic Versioning 2.0.0 if and only if no identifier list extends the other by a numeral first; in that family it is reversed |
| Versions.CompareValidLists | updater/version_manager.py:63-85 | the same for two lists of valid identifiers |
| Versions.ShorterListComesAfter | updater/version_manager.py:63-85 | 1.0.0-a is put after 1.0.0-a.1 |
| Versions.ParseIffReads | updater/version_manager.py:99-103 | the parser accepts exactly the strings that the regular expression describes |
| Versions.ParseAccepts | updater/version_manager.py:99-109 | a string of the described form gives the version with exactly those five parts |
| Versions.ParsePrint | updater/version_manager.py:20-26 | parsing a printed well-formed version gives the same five fields |
| Versions.PrintParse | updater/version_manager.py:99-109 | printing a parsed string gives it without the leading zeros of the three numbers |
| Migrations.CompareVersionsPreorder | migrations/migration_engine.py:159-169 | the comparison of dotted versions is antisymmetric in sign and transitive |
| Migrations.CompareVersionsIff | migrations/migration_engine.py:159-169 | one dotted version is above another if and only if there is a first position where their numbers differ and its number there is greater, missing numbers being 0; they compare equal if and only if all agree |
| Migrations.FirstDifferenceDecides | migrations/migration_engine.py:165-169 | the first position in which two lists of numbers differ, if there is one, decides |
| Migrations.MigrationEngine.GetPendingMigrations | migrations/migration_engine.py:151-157 | the loop collects the migrations above the current version, in order |
| Migrations.MigrationEngine.RunMigrations | migrations/migration_engine.py:171-210 | schema, version file and answer after a run that may fail at any migration or while recording it |
| Migrations.MigrationEngine.ApplyAll | migrations/migration_engine.py:193-202 | the loop stops at the first step that does not go well and records each version before the next step |
| Migrations.MigrationEngine.RollbackMigration | migrations/migration_engine.py:250-284 | schema, version file and answer after a rollback, from the last migration to the first |
| Migrations.PendingMembers | migrations/migration_engine.py:151-157 | pending are exactly the registered migrations above the current version |
| Migrations.PendingIsSuffix | migrations/migration_engine.py:151-157 | for an ascending list what is pending is its end |
| Migrations.RunKeepsClean | migrations/migration_engine.py:171-210 | a run, wherever it fails, keeps the schema and the stored version in agreement, and a successful one leaves nothing pending |
| Migrations.HistoryResumes | migrations/migration_engine.py:151-284 | at every moment of every history, rollbacks below the starting version included, what a run would apply is the list from the first migration on that is not in effect above the lowest version the history ever went back to |
| Migrations.RollbackKeepsCleanIff | migrations/migration_engine.py:263-280 | a rollback that goes well keeps the agreement exactly when its target jumps over no migration |
| Migrations.RollbackOutcome | migrations/migration_engine.py:263-284 | a rollback that goes well undoes exactly the migrations above the target; one that fails leaves the version alone and undoes at most those |
| Migrations.RollbackRetried | migrations/migration_engine.py:266-280 | after any number of failed attempts the first successful one reaches the clean result, and until then the version is stale |
| Migrations.PartialRollbackIsStale | migrations/migration_engine.py:263-280 | a rollback that fails keeps the agreement exactly when no migration above the start is undone: none in the range whose step and all later steps in the range go well |
| Migrations.HistoryStaysClean | migrations/migration_engine.py:171-284 | over every history of runs, failing anywhere, and successful rollbacks to targets not above the current version, a migration above the start is in effect exactly when it is not above the stored version |
| Migrations.RunKeepsOneAhead | migrations/migration_engine.py:195-196 | if recording a version can fail, at most the first pending migration is ahead of the file, and a run that gets through restores the agreement |
| Migrations.RunExactly | migrations/migration_engine.py:171-210 | which migrations a run puts in effect and which of them it records, from how the steps before them go |
| Migrations.RunSucceedsIff | migrations/migration_engine.py:171-210 | a run answers true exactly if it is a dry one or every registered migration above the stored version goes well |
| Migrations.RollbackSucceedsIff | migrations/migration_engine.py:263-284 | a rollback goes well exactly when every step in its range does and the version file can be written |
| Migrations.DisagreementIff | migrations/migration_engine.py:171-284 | over any history of runs and rollbacks, failing or not and to wherever: a migration is in effect above the stored version exactly if a run could not record it, or missing below it exactly if a rollback lost it, or it was so at the start, and the version has stayed on that side since |
| Migrations.MixedHistoryMissesNone | migrations/migration_engine.py:171-284 | over every mixture of runs, unrecorded steps and successful rollbacks no migration up to the stored version is missing |
| Migrations.MixedHistoryIsCleanIff | migrations/migration_engine.py:171-284 | over every such mixture schema and version file agree if and only if no step is left that a run could not record and no later event moved the version past |
| Migrations.MixedHistoryIsRepaired | migrations/migration_engine.py:193-205 | a run that gets through then makes them agree and leaves nothing pending |
| Migrations.TakesEffectIff | migrations/migration_engine.py:151-284 | over every history that records what it applies and whose rollbacks go well and not up, a migration above the lowest version reached is in effect exactly up to the stored version, and any other one exactly if it was at the start |
| Migrations.UsersTableIsNeverCreated | migrations/migration_engine.py:141-149 | from a fresh installation no number of runs of the shipped migrations alone applies 9.7.0 |
| Migrations.UsersTableIff | migrations/migration_engine.py:133-157 | from a fresh installation, over histories that record every version and whose rollbacks go well and not up, 9.7.0 is in effect if and only if a rollback went below it and the stored version is not below it now |
| Migrations.UsersTableAfterRollback | migrations/migration_engine.py:250-284 | a rollback to any version below 9.7.0 and a run put it in effect |
| Migrations.SkippedMigrationStaysMissing | migrations/migration_engine.py:263-280 | a rollback to a migration above the current version records it without applying it, and no number of runs applies it |
| Migrations.ShippedMigrationSkipped | migrations/migration_engine.py:263-280 | so it is with 9.7.1 on a fresh installation |
| CostGovernance.CostGovernor.SetCap | backend/ai/cost_governance.py:23-26 | sets the cap and creates the queue if there is none |
| CostGovernance.CostGovernor.PruneTenant | backend/ai/cost_governance.py:28-31 | the loop drops the entries at the front that are older than the window |
| CostGovernance.CostGovernor.Allow | backend/ai/cost_governance.py:33-45 | answer and queue after a request |
| CostGovernance.QueueDecidesAsFullScan | backend/ai/cost_governance.py:28-45 | with a clock that never runs backwards every request is decided as a scan of everything the tenant was ever granted would decide it |
| CostGovernance.TenantsAreIndependent | backend/ai/cost_governance.py:33-45 | a tenant gets the answers it would get if it were alone |
| CostGovernance.WindowNeverExceedsCap | backend/ai/cost_governance.py:33-45 | in any interval no longer than the window a tenant is granted at most its cap, or the largest one if the cap varies |
| RateLimit.TokenBucket.TryConsume | backend/ai/provider_rate_limit.py:71-78 | state and answer of `consume` |
| RateLimit.TokenBucket.RefillNow | backend/ai/provider_rate_limit.py:80-85 | state after a refill |
| RateLimit.TokenBucket.Available | backend/ai/provider_rate_limit.py:87-90 | refills and returns the tokens |
| RateLimit.TokensStayInRange | backend/ai/provider_rate_limit.py:71-90 | over any run the tokens stay between 0 and the capacity |
| RateLimit.RefillTwice | backend/ai/provider_rate_limit.py:80-85 | two refills are one refill over the whole time |
| RateLimit.PeeksDoNotMatter | backend/ai/provider_rate_limit.py:87-90 | extra calls of `available` never change a decision |
| RateLimit.GrantedIffAffordable | backend/ai/provider_rate_limit.py:71-90 | every request of a run is granted exactly if it is at most the capacity, what was there and flowed in without everything granted, and, for each earlier grant, a full bucket and what flowed in since without what was granted from it on; all read from the times and amounts of the grants alone |
| RateLimit.RefillTokens | backend/ai/provider_rate_limit.py:80-85 | a refill adds the rate times the time passed, up to the capacity |
| RateLimit.ConsumedInInterval | backend/ai/provider_rate_limit.py:71-85 | in no interval of a run is more consumed than the capacity plus what flows in |
| RateLimit.RateLimitIntelligence.RegisterProvider | backend/ai/provider_rate_limit.py:123-145 | a fresh quota, a full bucket and a calm throttle for the provider, the others untouched |
| RateLimit.RateLimitIntelligence.CheckLimit | backend/ai/provider_rate_limit.py:147-172 | answer, delay and new state of the provider, the others untouched |
| RateLimit.RateLimitIntelligence.CalculateBackoff | backend/ai/provider_rate_limit.py:174-192 | delay and new multiplier by priority |
| RateLimit.RateLimitIntelligence.RecordSuccess | backend/ai/provider_rate_limit.py:194-206 | counters and multiplier after a success |
| RateLimit.RateLimitIntelligence.RecordFailure | backend/ai/provider_rate_limit.py:208-214 | multiplier and dropped requests after a failure |
| RateLimit.RateLimitIntelligence.GetAvailableQuota | backend/ai/provider_rate_limit.py:221-235 | the four remaining amounts, or nothing for an unknown provider; reading them refills the bucket and changes nothing else |
| RateLimit.AdmittedInInterval | backend/ai/provider_rate_limit.py:138-172 | in any interval one registration of a provider admits at most its rate per minute plus what flows in |
| RateLimit.AdmittedOverRegistrations | backend/ai/provider_rate_limit.py:123-172 | however often a provider is registered anew, in any interval it admits at most the rates of the registrations in force in it plus what flows in at the highest rate |
| RateLimit.AdmittedIffAffordable | backend/ai/provider_rate_limit.py:138-172 | over every run of a registration, successes and failures in between, a check is admitted exactly if the times of the checks admitted before it leave room: the rate per minute at once and a sixtieth of it for every second |
| RateLimit.MinuteAdmitsTwiceTheRate | backend/ai/provider_rate_limit.py:138-141 | any 60 seconds of one registration admit at most twice the rate per minute |
| RateLimit.RequestsAreCountedTwice | backend/ai/provider_rate_limit.py:158-199 | the request counter is the number of admissions plus the number of recorded successes; tokens, units and dropped requests are the sums of what was reported, and the delay on record is the one last answered |
| RateLimit.RemainingIsAccounted | backend/ai/provider_rate_limit.py:123-235 | what remains of a registered provider is its limits without what was admitted and reported; the success rate is 1 whatever failed |
| RateLimit.DelaysStayInRange | backend/ai/provider_rate_limit.py:174-214 | over any run the multiplier is at least 1 and, starting within its cap, at most 10 times 1.2 to the number of recorded failures; no delay exceeds five seconds |
| RateLimit.RefusalDelay | backend/ai/provider_rate_limit.py:166-192 | a refused request that is not critical waits exactly the base delay of its priority, 200 ms for a low one and 100 ms otherwise, times the multiplier, up to five seconds; a critical one not at all |
| RateLimit.RefusalsEscalate | backend/ai/provider_rate_limit.py:188-192 | a second refusal does not wait shorter exactly when the request is critical or the multiplier was within its cap |
| RateLimit.RefusalsInARow | backend/ai/provider_rate_limit.py:174-192 | each refusal in a row makes the next one wait half as long again, up to ten times the base delay of its priority |
| RateLimit.SuccessesInARow | backend/ai/provider_rate_limit.py:203-206 | each success in a row takes a tenth off the multiplier, down to 1 |
| RateLimit.FailuresCompound | backend/ai/provider_rate_limit.py:208-214 | failures in a row multiply the multiplier by exactly 1.2 to their number, without bound |
| RateLimit.CapHoldsIff | backend/ai/provider_rate_limit.py:188-214 | over a run the multiplier never passes its cap if and only if no failure is recorded while it is above 25/3 |
| RateLimit.CapLeftAfterThirteen | backend/ai/provider_rate_limit.py:208-214 | from a new registration a row of failures passes the cap if and only if it has at least thirteen |
| Learning.AdaptiveLearningEngine.ProcessFeedback | backend/ai/learning_engine.py:207-240 | the whole chain in the order in which the engines are called |
| Learning.AdaptiveLearningEngine.ProcessPriority | backend/ai/learning_engine.py:518-538 | VIP senders, importance and category priority after feedback |
| Learning.AdaptiveLearningEngine.ProcessSemantics | backend/ai/learning_engine.py:571-586 | category importance after feedback |
| Learning.AdaptiveLearningEngine.ProcessReinforcement | backend/ai/learning_engine.py:677-690 | the Q-table after feedback |
| Learning.AdaptiveLearningEngine.MaxValue | backend/ai/learning_engine.py:687 | the greatest value of a row |
| Learning.AdaptiveLearningEngine.StoreFeedback | backend/ai/learning_engine.py:379-416 | the sender profile after feedback |
| Learning.AdaptiveLearningEngine.GetPriorityBoost | backend/ai/learning_engine.py:540-556 | the boost, and that asking creates a missing profile |
| Learning.AdaptiveLearningEngine.GetCategoryImportance | backend/ai/learning_engine.py:588-602 | the stored importance of a category, or its default |
| Learning.EveryRunInRange | backend/ai/learning_engine.py:207-240 | after any feedback all Q-values are strictly between -10 and 10, importance and affinities in [0, 1], category weights in [0.1, 1] |
| Learning.ProcessInRange | backend/ai/learning_engine.py:207-240 | one step of the chain keeps all ranges |
| Learning.BoostRange | backend/ai/learning_engine.py:540-556 | the boost lies in [0.5, 1.75]; the clamp at 2 is never reached |
| Learning.AverageBetweenSamples | backend/ai/learning_engine.py:393-400 | with positive samples the truncated running response time stays between the smallest and the largest sample seen |
| Learning.PositiveNeverLowersIff | backend/ai/learning_engine.py:518-556 | positive feedback lowers no boost of any sender and category if and only if it names no category or one already in the priority table |
| Learning.FirstMentionLowers | backend/ai/learning_engine.py:533-534 | a category named for the first time has its boost lowered for every other sender |
| Learning.NegativeNeverRaises | backend/ai/learning_engine.py:518-556 | negative feedback raises no boost, neutral feedback changes none |
| Learning.PositiveLowersImportanceIff | backend/ai/learning_engine.py:571-601 | positive feedback lowers the importance of its category exactly when nothing is stored yet and the category is one of the seven whose default is above 0.6 |
| Learning.FirstMentionMoves | backend/ai/learning_engine.py:571-602 | by how much the importance of each category moves when it is named for the first time |
| Learning.SignalsOrderQValues | backend/ai/learning_engine.py:677-713 | a positive signal leaves the Q-value 0.1 above a neutral and 0.2 above a negative one |
| Learning.QMovesToTarget | backend/ai/learning_engine.py:677-713 | the value of an action goes a tenth of the way to its target, the reward and nine tenths of the best value in its row; all other values stay |
| Learning.QConverges | backend/ai/learning_engine.py:677-690 | where an action is alone in its row its value approaches ten times the reward, nearer by the factor 0.99 with every feedback |
| Learning.SharedRowIff | backend/ai/learning_engine.py:692-705 | two mails share a row of the table exactly if their senders are of the same of the three levels and their categories have the same name |
| Learning.SameFeedback | backend/ai/learning_engine.py:379-586 | the same feedback any number of times moves importance, affinity, weight and priority each by a fixed amount per feedback up to its bound |
| Learning.AffinityAfter | backend/ai/learning_engine.py:405-416 | the affinity of a sender to a category rises by 0.1 up to 1 or falls by 0.15 down to 0 |
| Learning.VipIffPromoted | backend/ai/learning_engine.py:523-528 | over every run a sender is a VIP exactly if it was one or positive feedback starred, answered or promoted a mail of it |
| Learning.BoostOverRuns | backend/ai/learning_engine.py:540-556 | over every run the boost is 1, or 1.5 for a sender ever promoted, plus half the importance above 0.5, times the weight of the category, within [0.5, 2] |
| Learning.InteractionsAreCounted | backend/ai/learning_engine.py:388-402 | a profile counts the positive feedback of its sender and has the time of the latest feedback |
| Learning.AverageMoves | backend/ai/learning_engine.py:393-400 | the running response time moves three tenths of the way to each sample, rounded down |
| AuditLog.AuditTable.InsertEntry | backend/api/audit_log.py:174-195 | after an insert the table is some newest selection of the old table with the entry; a failed write changes nothing |
| AuditLog.AuditTable.Purge | backend/api/audit_log.py:385-401 | keeps exactly the entries not older than the cutoff and counts the others; a purge that fails changes nothing |
| AuditLog.SelectNewest | backend/api/audit_log.py:186-190 | selects as many entries as the limit allows, none older than one left out |
| AuditLog.TableIsNewestIff | backend/api/audit_log.py:174-195 | over any order of inserts, repeated and reused ids, failed writes and purges the table is at every moment a newest selection of what an unbounded table would hold if and only if no write reuses the id of a trimmed entry while some row is older; with ties two bounds, whatever the database chooses |
| AuditLog.ReturnsBounds | backend/api/audit_log.py:177-190 | what is in the table before a write decides whether a reused id enters it, but for a tie |
| AuditLog.TableIsNewest | backend/api/audit_log.py:174-195 | where an id determines its entry the table is always such a selection |
| AuditLog.ConsistentNeverReturns | backend/api/audit_log.py:177-184 | no id is reused where an id determines its entry |
| AuditLog.InsertThenTrim | backend/api/audit_log.py:185-190 | trimming after each insert is trimming once at the end |
| AuditLog.PurgeCommutes | backend/api/audit_log.py:385-398 | purging commutes with trimming |
| AuditLog.KeptIffFewerNewer | backend/api/audit_log.py:186-190 | with distinct timestamps an entry is kept exactly when fewer than the cap are newer |
| AuditLog.ArrivalOrderDoesNotMatter | backend/api/audit_log.py:174-195 | with distinct timestamps and no returning id the table depends neither on the order of arrival nor on repetitions |
| AuditLog.ReusedIdReturns | backend/api/audit_log.py:177-184 | an id that was trimmed away and is reused for a later event comes back |
| ModelCache.ModelCache.RegisterModel | backend/ai/model_cache.py:45-58 | entries and counter after registering |
| ModelCache.ModelCache.Get | backend/ai/model_cache.py:60-69 | returns the model and marks it as used now |
| ModelCache.ModelCache.UnloadModel | backend/ai/model_cache.py:71-80 | removes the model and its memory |
| ModelCache.ModelCache.EvictLru | backend/ai/model_cache.py:82-97 | unloads the first of the least recently used models |
| ModelCache.ModelCache.CanLoad | backend/ai/model_cache.py:99-108 | wherever the loop can end it ends, after exactly the evictions that are needed, and answers whether the request fits then |
| ModelCache.RunsAreAccounted | backend/ai/model_cache.py:45-108 | over every run without a second registration, empty ids included, the counter is the sum over the loaded models |
| ModelCache.RegisterAccountsIff | backend/ai/model_cache.py:54-56 | registering keeps the counter right exactly when the id is not loaded or takes no memory |
| ModelCache.MakeRoomEvictsLeast | backend/ai/model_cache.py:99-108 | `can_load` evicts the least number of models, in order of last use, that makes room, or all |
| ModelCache.FewerEvictionsDoNotDo | backend/ai/model_cache.py:103-104 | after fewer evictions the request still would not fit |
| ModelCache.EvictedIsOlder | backend/ai/model_cache.py:82-97 | whatever is evicted has a time on record no later than anything that stays |
| ModelCache.EntriesAreRecorded | backend/ai/model_cache.py:45-69 | over every run each loaded model has model and size of its latest load, the time of its latest load or use, and the number of uses since, all read from the operations alone |
| ModelCache.RunEvictsLeastRecent | backend/ai/model_cache.py:82-97 | over every run a request evicts only models whose latest load or use came no later than that of any model that stays |
| ModelCache.CanLoadIff | backend/ai/model_cache.py:99-108 | wherever `can_load` ends, the answer is true exactly when the request alone fits the maximum |
| ModelCache.EndsIff | backend/ai/model_cache.py:96-104 | with a model of empty id the loop of `can_load` ends if and only if the request fits beside that model and all that would be evicted after it |
| ModelCache.FinalIsMakeRoom | backend/ai/model_cache.py:99-108 | without an empty id it always ends, and leaves what evicting one by one leaves |
| ModelCache.EmptyIdIsNeverEvicted | backend/ai/model_cache.py:96-97 | a least recently used model with an empty id is never evicted |
| CircuitBreaker.CircuitBreaker.State | backend/api/circuit_breaker.py:57-68 | reading the state turns open into half-open after the timeout |
| CircuitBreaker.CircuitBreaker.BeginCall | backend/api/circuit_breaker.py:70-73 | a call is refused exactly when the state read is open |
| CircuitBreaker.CircuitBreaker.OnSuccess | backend/api/circuit_breaker.py:83-94 | the state after a success |
| CircuitBreaker.CircuitBreaker.OnFailure | backend/api/circuit_breaker.py:96-109 | the state after a failure |
| CircuitBreaker.CircuitBreaker.ResetBreaker | backend/api/circuit_breaker.py:111-117 | the state after a reset |
| CircuitBreaker.EveryTraceClosedIsClean | backend/api/circuit_breaker.py:57-117 | under any interleaving closed means fewer failures than the threshold and no counted success |
| CircuitBreaker.AdmittedIffRecovered | backend/api/circuit_breaker.py:57-73 | unless closed, a call is admitted exactly when the timeout has passed since the latest failure |
| CircuitBreaker.StaysOpenUntilRecovered | backend/api/circuit_breaker.py:57-109 | once tripped, every call is refused until the timeout has passed since the latest failure, whatever calls in flight report, barring a reset |
| CircuitBreaker.ClosesIffEnoughSuccesses | backend/api/circuit_breaker.py:83-94 | apart from a reset, closing happens exactly at the half-open success that brings the count since the last close or reset to the threshold |
| CircuitBreaker.HalfOpenFailureKeepsCount | backend/api/circuit_breaker.py:96-104 | a half-open failure and the wait after it keep the count |
| CircuitBreaker.NotConsecutive | backend/api/circuit_breaker.py:83-104 | the last missing success may come after a failure |
| CircuitBreaker.TripsIff | backend/api/circuit_breaker.py:96-109 | tripping happens exactly at a half-open failure or at the failure that completes a row of as many as the threshold |
| CircuitBreaker.PhaseAfterIff | backend/api/circuit_breaker.py:57-117 | the phase after any event of any trace: a fresh breaker is closed, only the failure that completes a row opens a closed one, and half-open is entered exactly by a read or call of an open one at least the timeout after its latest failure |
| CircuitBreaker.ClosedAdmits | backend/api/circuit_breaker.py:57-73 | a closed breaker admits every call, at whatever time, and stays closed by it and by being read |
| ModelRegistry.SortedNames | backend/ai/onnx_control_plane.py:1027 | the names in ascending order |
| ModelRegistry.SelectIsSafe | backend/ai/onnx_control_plane.py:1014-1030 | whatever is selected is registered, healthy, not quarantined and accepted |
| ModelRegistry.SelectIff | backend/ai/onnx_control_plane.py:1014-1030 | an eligible choice is kept; otherwise the least eligible name is chosen if there is a runtime and such a name, and none if not |
| ModelRegistry.DiscoverIsSafe | backend/ai/onnx_control_plane.py:154-186 | discovery re-establishes safety even from an unsafe choice |
| ModelRegistry.ValidateIsSafe | backend/ai/onnx_control_plane.py:198-223 | validation keeps the registry safe in every outcome |
| ModelRegistry.EvaluateIsSafe | backend/ai/onnx_control_plane.py:225-338 | after an evaluation everything accepted has a checksum that this or an earlier evaluation accepted |
| ModelRegistry.ReportIsSafe | backend/ai/onnx_control_plane.py:398-418 | reporting a failure keeps the registry safe |
| ModelRegistry.OnlyEvaluationAccepts | backend/ai/onnx_control_plane.py:154-460 | after discovery, validation, recovery or a reported failure only models are accepted that were accepted before with the same checksum |
| ModelRegistry.EvaluationDecides | backend/ai/onnx_control_plane.py:247-321 | an evaluation accepts exactly when the model can be loaded and enough of at least one case pass; accepted models are eligible, and active if asked for, rejected ones neither accepted nor active, with the reason on record |
| ModelRegistry.PassesIff | backend/ai/onnx_control_plane.py:286-300 | enough cases pass exactly if their number is at least the demanded share of all; a demand is taken as at least 0 and at most 1 |
| ModelRegistry.LoadableIff | backend/ai/onnx_control_plane.py:198-223 | a model can be loaded exactly if it is registered, its file exists and is an ONNX file, there is a runtime, and it has a session or one can be created |
| ModelRegistry.FindOneRecords | backend/ai/onnx_control_plane.py:156-183 | a new file is healthy and neither quarantined nor accepted, an unchanged one keeps its verdicts, a changed one is out, with an event that says so |
| ModelRegistry.RecoveryActivatesIff | backend/ai/onnx_control_plane.py:445-451 | a model that can be loaded is active after its recovery exactly when it is accepted |
| ModelRegistry.ReportedModelIsOut | backend/ai/onnx_control_plane.py:398-411 | a model whose failure is reported is quarantined with the reason, unhealthy, not active and without session, its failures are counted, and all others are as before |
| ModelRegistry.RecoverIsSafe | backend/ai/onnx_control_plane.py:420-460 | recovery keeps the registry safe |
| ModelRegistry.InferIsSafe | backend/ai/onnx_control_plane.py:346-351 | a failing inference keeps the registry safe |
| ModelRegistry.ChangedModelIsDeactivated | backend/ai/onnx_control_plane.py:163-184 | a model whose file was replaced is quarantined, not accepted and not active after discovery, also if several files share its name |
| ModelRegistry.SessionIsFreshIff | backend/ai/onnx_control_plane.py:984-990 | the session behind an acceptance is one of the accepted checksum if and only if no session was cached before, or one of that checksum |
| ModelRegistry.SessionMatchesFileIff | backend/ai/onnx_control_plane.py:225-338 | the same for the checksum of the file on disk, in any directory of distinct names |
| ModelRegistry.StaleSessionIsApproved | backend/ai/onnx_control_plane.py:984-990 | a cached session outlives a change of its file, and the new checksum is approved with it |
| ModelRegistry.StaleSessionArises | backend/ai/onnx_control_plane.py:984-990 | from the empty registry two evaluations around a change of the file end with an active model whose session has another checksum |
| ModelRegistry.AppendLaws | backend/ai/onnx_control_plane.py:1039-1044 | an appended event is among the last three; no event repeats one of the three before it, and the newest 200 are kept |
| LearningMemory.RunImport | backend/ai/onnx_control_plane.py:607-636 | the import loop |
| LearningMemory.BuildPreview | backend/ai/onnx_control_plane.py:548-582 | the preview sorts every item into one class and lists the removed keys |
| LearningMemory.PreviewPredictsImport | backend/ai/onnx_control_plane.py:538-651 | imported = new + conflicting + unchanged, skipped = invalid, and the keys dropped are exactly the removed ones |
| LearningMemory.PreviewSorts | backend/ai/onnx_control_plane.py:548-582 | into which list a key goes: invalid if its item cannot be used, new if it is not there, conflicting if it is and looks different, unchanged if it looks the same, removed if a replacing import drops it |
| LearningMemory.LooksTheSameIff | backend/ai/onnx_control_plane.py:677-689 | two storable overrides look the same exactly if category, priority, scope and prediction agree and the confidences round to the same four places; hits and time do not matter |
| LearningMemory.RoundsToNearest | backend/ai/onnx_control_plane.py:680 | rounding gives the nearest multiple of 0.0001, of two the even one |
| LearningMemory.UnchangedKeysKeepTheirView | backend/ai/onnx_control_plane.py:566-580 | a key reported as unchanged and not as conflicting keeps its compared view |
| LearningMemory.ReadyImportOnlyAdds | backend/ai/onnx_control_plane.py:582-584 | after a preview with status "ready" the import keeps every override as compared, and those it does not mention exactly |
| LearningMemory.ImportRaisesIff | backend/ai/onnx_control_plane.py:619-627 | the import raises exactly when a usable item has a number that cannot be read |
| LearningMemory.RaisedImportIsPartial | backend/ai/onnx_control_plane.py:607-636 | an import that raises leaves what an import of the items before would leave, or the old overrides if it was to replace them; nothing is cut or counted |
| LearningMemory.ImportDefaults | backend/ai/onnx_control_plane.py:619-627 | what an item means that gives only its category |
| LearningMemory.ExportImportIff | backend/ai/onnx_control_plane.py:527-536 | importing an export with replace restores the overrides if and only if each of them is restorable |
| LearningMemory.BlankScopeIsNotRestored | backend/ai/onnx_control_plane.py:360 | feedback with a blank scope is learned, and no import of an export brings it back |
| LearningMemory.ForgetUndoesLearning | backend/ai/onnx_control_plane.py:354-396 | forgetting a key removes what was learned under it and nothing else |
| LearningMemory.LearnStores | backend/ai/onnx_control_plane.py:354-381 | what feedback stores under its key, and that it keeps the hits, and the confidence if it names none |
| LearningMemory.FeedbackDefaults | backend/ai/onnx_control_plane.py:354-369 | what feedback means that leaves fields out, and which key it goes under |
| StateBackups.FormatIdInjective | backend/ai/onnx_control_plane.py:696 | backups of different milliseconds have different identifiers |
| StateBackups.FormatIdIsValid | backend/ai/onnx_control_plane.py:733 | every identifier passes the format check of the restore |
| StateBackups.PruneKeepsNewest | backend/ai/onnx_control_plane.py:833-847 | pruning keeps exactly the newest backups up to the limit |
| StateBackups.PruneSplitsIds | backend/ai/onnx_control_plane.py:841-847 | the folders that remain are those of the backups kept |
| StateBackups.JustCreatedSurvivesIff | backend/ai/onnx_control_plane.py:720-724 | the backup just created survives if and only if fewer than the limit are strictly newer |
| StateBackups.NewestAlwaysSurvives | backend/ai/onnx_control_plane.py:691-726 | if nothing in the index is newer it survives, with its files |
| StateBackups.LimitLaws | backend/ai/onnx_control_plane.py:771 | the limit lies from 1 to 100, is what was asked for if that does, and 7 if nothing was |
| ControlPlane.OnnxAIControlPlane.SelectActiveModel | backend/ai/onnx_control_plane.py:1014-1030 | keeps an active model that still stands, else takes the first eligible name in order |
| ControlPlane.OnnxAIControlPlane.DiscoverModels | backend/ai/onnx_control_plane.py:154-186 | the loop over the files, the choice of the active model and saving |
| ControlPlane.OnnxAIControlPlane.ValidateModel | backend/ai/onnx_control_plane.py:198-223 | state and verdict in each of the six outcomes |
| ControlPlane.OnnxAIControlPlane.EvaluateModel | backend/ai/onnx_control_plane.py:225-338 | state and outcome, including a prediction that raises |
| ControlPlane.OnnxAIControlPlane.GradeModel | backend/ai/onnx_control_plane.py:286-321 | what the accuracy does to the record and to the active model |
| ControlPlane.OnnxAIControlPlane.ReportModelFailure | backend/ai/onnx_control_plane.py:398-418 | the state after a reported failure |
| ControlPlane.OnnxAIControlPlane.RecoverModel | backend/ai/onnx_control_plane.py:420-460 | the state after a recovery |
| ControlPlane.OnnxAIControlPlane.ClassifyMail | backend/ai/onnx_control_plane.py:340-352 | who answers, with which category or checksum, and what changes: a hit of an override, or a failure of the active model |
| ControlPlane.OnnxAIControlPlane.AppendEvent | backend/ai/onnx_control_plane.py:1039-1044 | an event is added unless among the last three, and 200 are kept |
| ControlPlane.OnnxAIControlPlane.RecordFeedback | backend/ai/onnx_control_plane.py:354-396 | the learning memory after feedback |
| ControlPlane.OnnxAIControlPlane.ForgetLearningOverride | backend/ai/onnx_control_plane.py:502-525 | the learning memory after forgetting a key |
| ControlPlane.OnnxAIControlPlane.ImportLearningMemory | backend/ai/onnx_control_plane.py:600-651 | the state after an import, also after one that raises half-way |
| ControlPlane.OnnxAIControlPlane.PreviewLearningImport | backend/ai/onnx_control_plane.py:538-598 | the preview and its status, without any change |
| ControlPlane.OnnxAIControlPlane.CreateBackup | backend/ai/onnx_control_plane.py:691-726 | index and folders after a backup and its pruning |
| ControlPlane.OnnxAIControlPlane.RunScheduledBackup | backend/ai/onnx_control_plane.py:785-801 | a backup is taken exactly when `Due` says so; `ScheduledBackupIff` says when that is |
| ControlPlane.OnnxAIControlPlane.ConfigureSchedule | backend/ai/onnx_control_plane.py:764-783 | the schedule within its limits, and the index pruned to it |
| ControlPlane.OnnxAIControlPlane.PruneBackups | backend/ai/onnx_control_plane.py:833-847 | index and folders after pruning |
| ControlPlane.OnnxAIControlPlane.RestoreBackup | backend/ai/onnx_control_plane.py:728-762 | files, memory and sessions after a restore |
| ControlPlane.ActiveModelIsSafe | backend/ai/onnx_control_plane.py:154-460 | after every operation of every run from the empty registry, restores included, the active model is registered, healthy, not quarantined and accepted, and its checksum is one an evaluation accepted |
| ControlPlane.ActiveModelStays | backend/ai/onnx_control_plane.py:154-460 | over every run a model that is active stays active as long as its file does not change, no failure of it is reported or met, it is not rejected, and nothing else is activated, recovered or restored |
| ControlPlane.StepIsSafe | backend/ai/onnx_control_plane.py:154-783 | every single operation keeps memory, state files and all backups safe |
| ControlPlane.AnswersAreApproved | backend/ai/onnx_control_plane.py:340-352 | over every run, whenever a model answers, it is eligible and the checksum named in the answer is one an evaluation accepted |
| ControlPlane.AnswerOrFailure | backend/ai/onnx_control_plane.py:340-352 | where no override applies: the active model answers exactly if there is a runtime, a session or one that can be created, and no error; otherwise the rules do, and if there was a runtime the model is out |
| ControlPlane.FeedbackIsFollowedIff | backend/ai/onnx_control_plane.py:366-369 | feedback decides the next mail of its sender if and only if it is not shadowed: given for a domain while an override for the sender exists |
| ControlPlane.HitsAreCounted | backend/ai/onnx_control_plane.py:880-905 | between imports and restores the hits of an override are the mails it decided, whatever feedback changes about it, until it is forgotten |
| ControlPlane.StatsAreCounted | backend/ai/onnx_control_plane.py:354-651 | between restores the counters count feedback that is learned, keys that are forgotten, and items of imports that go through |
| ControlPlane.CorrectionsAreNewest | backend/ai/onnx_control_plane.py:354-651 | between restores the last 500 corrections are the last 500 of all that was learned, forgotten and imported, imports that raise half-way included |
| ControlPlane.RaisedImportIsNotSaved | backend/ai/onnx_control_plane.py:600-651 | an import that raises changes the learning memory only; nothing is saved |
| ControlPlane.IdsDifferIff | backend/ai/onnx_control_plane.py:696 | the identifiers of a run differ if and only if no two backups are taken in the same millisecond with an index of the same size, in whatever order the milliseconds come |
| ControlPlane.CollisionLosesBackup | backend/ai/onnx_control_plane.py:696-726 | a run in which two backups collide: the newer one is in the index without files, and restoring it keeps what was learned since |
| ControlPlane.OnlyBlankFieldsAreLost | backend/ai/onnx_control_plane.py:354-651 | over every run an override in memory is not restorable if and only if its priority is blank, or its scope is and its key has a prefix |
| ControlPlane.FoldersAreFaithful | backend/ai/onnx_control_plane.py:691-847 | over every run index and folders belong together and each folder holds what was in memory when it was taken |
| ControlPlane.RestoreYieldsCreation | backend/ai/onnx_control_plane.py:728-762 | restoring a backup still in the index yields exactly the registry, learning memory and events at its creation, whatever ran in between |
| ControlPlane.RestoreDecides | backend/ai/onnx_control_plane.py:728-762 | a backup is found by the index or by its folder; without a folder the files on disk are read again; an empty identifier, or one with a dot or a separator, restores nothing |
| ControlPlane.BackupSurvives | backend/ai/onnx_control_plane.py:691-726 | over every run in which the clock does not run backwards between backups, a backup just taken is the first of the index, with its files |
| ControlPlane.IndexIsNewest | backend/ai/onnx_control_plane.py:833-847 | over every such run the index is at every moment the newest part of all backups ever taken, whatever the retention is changed to |
| ControlPlane.IndexIsFull | backend/ai/onnx_control_plane.py:833-847 | while the limit stays the same the index grows with every backup up to the limit and never shrinks |
| ControlPlane.ScheduledBackupIff | backend/ai/onnx_control_plane.py:785-801 | over every run the scheduler takes a backup exactly if the schedule last configured is on and, since its latest backup, if there is one, at least the interval last configured has passed, which is never below a minute |

## Left out

- Floating-point rounding: all scores, amounts and times are exact reals; with binary floats, for example, `0.7 * x + 0.3 * x` can fall just below `x`.
- Learning.AverageBetweenSamples: holds for exact arithmetic only, for the reason above.
- Versions.CompareVersusSemVer: digits are the ASCII ones; Unicode digits, on which `isdigit` and `int` disagree, are not modelled.
- Versions.ParseIffReads: the quirk of `$` before a final newline and Unicode digits of the regular expression are not modelled.
- Migrations.HistoryStaysClean: each `up`, `down` and write of the version file is one atomic step; a version file left half-written, which would read as the default version, is not modelled, and failing to open or create the database is a failure before the first step.
- Migrations.CompareVersionsPreorder: version strings that `int` cannot read part by part are excluded by a precondition.
- CostGovernance.WindowNeverExceedsCap: counts what is granted under a cap; requests made while no cap is set are let through and not recorded.
- RateLimit.MinuteAdmitsTwiceTheRate: for one registration; registering a provider again hands out a full bucket, for which `AdmittedOverRegistrations` gives the bound.
- ModelCache.RunsAreAccounted: for runs without a second registration of a loaded id, which `RegisterAccountsIff` shows to be needed; model type, version and load time are not modelled.
- CircuitBreaker.StaysOpenUntilRecovered: the callbacks `on_open`, `on_close` and `on_half_open` are not modelled, nor is one that raises.
- LearningMemory.ExportImportIff: white space is the ASCII white space.
- ControlPlane.RestoreYieldsCreation: requires identifiers that differ, which `IdsDifferIff` characterises, and removing a dropped folder is taken to succeed.
- ControlPlane.OnnxAIControlPlane.DiscoverModels: labels, size and update time of a record are not modelled.
- ControlPlane.OnnxAIControlPlane.EvaluateModel: the stored report of the last evaluation with its predictions is not modelled.
- ControlPlane.OnnxAIControlPlane.GradeModel: the accuracy in the text of the activation event is not spelled out.
- ControlPlane.OnnxAIControlPlane.ClassifyMail: confidence and priority of the answer, and what the fallback rules say, are not modelled; candidate keys are those of `MailKeys`.
- ControlPlane.OnnxAIControlPlane.PreviewLearningImport: the cut to 100 displayed items is not modelled.
- ControlPlane.OnnxAIControlPlane.CreateBackup: sizes and checksums of the copied files in the manifest are not modelled.
- ControlPlane.OnnxAIControlPlane.RecordFeedback: lower-casing is that of ASCII letters, and a confidence that `float` cannot read, on which the call raises before it changes anything, is not modelled.
- ControlPlane.OnlyBlankFieldsAreLost: for clocks that never show 0, which an import would take for a missing time.
- DomainIntelligence.NormaliseHomographs: ASCII names only; decomposition and the confusable letters of other scripts are not modelled.
- The learning engines are one class with the fields of all of them; behavioural features, notification, search, thread and workflow learning and the short-term memory influence none of the modelled scores and are left out.
- Subdomain and keyword checks and the split of a domain into its parts: string plumbing around the checks by name.
- Locks: every method of the control plane, the governor and the limiter runs under one lock and is one step here; only the circuit breaker is interleaved.
- SQL, JSON, files and hashing: stored state is maps, sets and sequences, and a checksum is a text that is compared.
- Usage forecast, alerts and the unused request queue of the limiter: read-only reports.
- Web endpoints, installers, dashboards and the remaining services: outside this model.
