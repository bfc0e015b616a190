# HealPipe verification

A Dafny model of HealPipe, the webhook gateway that normalizes incoming payloads, renames their
keys to the fields an account expects, parks what it cannot recognise, and delivers the rest with
retries, dead letters, replays and an append-only lifecycle ledger.

`dafny verify dfyconfig.toml` checks everything.

## What is modelled

**Durable delivery and triage.** `Protocol` is one step system over event rows, job rows, attempt
rows, the ledger, claim rows, the in-memory claim table, queue entries and program counters.  A
committed transaction is one step; a worker run or a request handler can be lost between any two of
its steps; every interleaving is a sequence of actions.  `Handlers` says what each step of a request
handler leaves behind.  `Links`, `Triage`, `Service`, `EventKeys`, `Reconciliation`, `Idempotency`,
`Ownership`, `RetryPolicy`, `Requests`, `Lineage`, `Evidence`, `SoloRuns`, `Verdicts`, `FailedEvents`,
`MemoryGate`, `Stranded` and `Conclusions` each prove one invariant of its runs and the theorems that
follow; `Overlap`, `Reclaim`, `KeyedRetry` and `LateReport` are concrete runs that show where a
promise fails.  `DeliveryWorker` is the worker run as the program it is, over mutable tables, proved
to do exactly what the protocol's steps do.  `ClaimTable` is the purging table of `_claim` against the whole history of its calls.

**Versioned mapping rules.** `MappingRules` has the four operations on a mutable table and, beside
them, concurrent transactions with row locks and the two unique indexes.

**The payload pipeline.** `Normalizer` (normalization and export redaction), `EditDistance` (the
two-row Levenshtein loop against edit scripts), `KeyMatching` (similarity, best match, confidence),
`KeyRenaming` and `PayloadMapping` (renaming by best match), `PersistedMappings` (stored rules and
the dry run) and `Ingest` (the verdict on an incoming payload).  `Dicts` and `JsonTrees` hold ordered
dictionaries and JSON values.

**The structural diff.** `PayloadDiff` is `payloadDiff` of the dashboard, with the patch it defines;
`DiffEntries` says which paths it lists, and in which order.

## Assumptions, in the terms of the system

- The deployment has an api process and one worker process.  In the api role `enqueue_delivery` does
  nothing (core/queue_worker.py:219-220), so the recovery claim (database/repository.py:657-672) is
  the only producer of queue entries: `Protocol.Claim`.  It never passes `is_replay`
  (worker.py:13-22), so a recovered replay is not exempt from the in-memory claim.
- The recovery query takes a `delivering` row five minutes after the job was created, whoever is at
  work on it (database/repository.py:665), and so does the model.  What is said of "every run" holds
  with that query.  The theorems of `Ownership`, `RetryPolicy`, `Requests`, `Evidence`, `SoloRuns`,
  `Verdicts`, `FailedEvents`, `Stranded` and `Conclusions` are about orderly runs, in which such a row is claimed only once no
  run that may still write it is alive (`Ownership.OrderlyRun`); `Reclaim.ReclaimRewritesDelivered`
  is a run that is not orderly, in which they fail.
- When the worker process ends, its runs are lost one by one and its table of claims starts empty:
  `Protocol.Crash`, then `Protocol.Restart`.
- The worker reads `attempt_count` from a queue entry (core/queue_worker.py:65), which the dataclass
  does not have (core/queue_worker.py:24-32).  The model gives an entry the count of the durable row
  (database/models.py:199).
- A transaction that changes several mapping rules is flushed row by row, in an order that is an
  input of the operation.  SQLAlchemy orders the updates of one table by primary key, and the key
  of a rule is a random UUID (database/models.py:294-296).
- HTTP answers, clock readings, the assistant's answer and generated identifiers are inputs of the
  steps, chosen anew at every step.  Times are integers (seconds); the monotonic clock of `_claim`
  and all scores are reals.
- `casefold`, `SequenceMatcher`, the token test, `strip`, `lower`, `int` and `float` are arbitrary
  functions; three facts about the fixed text `[REDACTED]` are assumed where they are needed
  (`Normalizer.Python.Valid`).

## Where the code differs from what one would expect

The model follows the code; these are theorems about it.

- The repository's README says that a claim is reusable for the same event.  It is, until it
  expires; from then on it refuses everyone, its own event included, because the insert meets the
  unique constraint.  `Idempotency.ClaimVerdict` is the exact condition and
  `KeyedRetry.ExpiredClaimBlocksItsOwnEvent` a run in which it happens.
- The in-memory claim knows keys only, and recovered retries and replays ask it again.  In every run
  a keyed delivery is suppressed exactly when the process has claimed its key since it last started
  and still holds that claim (`MemoryGate.SuppressedIffStillClaimed`), so a process whose calls all
  fall within one day sends a key at most once per start (`MemoryGate.OneRequestPerKey`).
  `KeyedRetry.RetryIsBlocked` is a run in which a 503 on a keyed job makes it due for a retry, and a
  minute later the retry ends as `idempotency_blocked`.
- A stale row is reclaimed from a run that is only slow.  Then two live runs write one row, and a
  `delivered` job can become `retrying` again (`Reclaim.ReclaimRewritesDelivered`).
- `_claim` reads the clock before it takes the lock.  With readings in lock order a key is granted
  again after a day (`ClaimTable.GrantedIffLatestExpired`); otherwise it can be granted too early
  (`ClaimTable.OutOfOrderReadingGrantsEarly`), and `ClaimTable.GrantedIffOutlived` says exactly when.
- Renaming by best match overwrites a value when an expected key comes after a key that matched it.
  `KeyRenaming.RoundTrip` shows that nothing is lost in any other case, and
  `PayloadMapping.AliasBeforeFieldLosesValue` is an instance.
- Two runs of one job can overlap after the first has settled its outcome and before it has closed.
  Then the ledger can end with an older outcome than the row (`Overlap.LedgerCanEndBehindRow`);
  `Evidence.LastEntryNamesStatus` says exactly when it does not, and `SoloRuns.LedgerEndsWithStatus`
  that it never does when the job is only ever claimed while no run of it is open.
- A drop writes no ledger entry, and neither does a suppressed duplicate.  So a dropped event, and one
  whose jobs were all blocked, is pending for ever (`Reconciliation.DroppedStaysPending`,
  `Stranded.BlockedStaysPending`).  No step writes `delivery_failed`, so the failed counter is always
  zero (`Reconciliation.FailedCountIsZero`); and so is the unaccounted counter, whatever the ledger
  holds (the contract of `Reconciliation.FetchReconciliation`).
- The report reads the ledger in five statements.  Its pending count is exact when nothing is
  committed between them (`Reconciliation.PendingIsExact`); otherwise it is short by the events that
  were received and finished in between, and clamped exactly when these outnumber the events really
  pending (`Reconciliation.PendingIsShortByLate`, with the instance `LateReport.PendingCanBeMissed`).
- A rule proposed by triage gets the default account (database/repository.py:1121-1129,
  database/models.py:297), and the operations ask for the rule's account: whatever happens later, no
  other account can approve, roll back or disable it (`MappingRules.TriageProposalIsForeign`, with
  the instance `MappingRules.TriageProposalOfAnother`).
- Replacing a rule or rolling back to an older one writes two rows in one flush, and the unique index
  of active rules objects when the new active row is written first (`MappingRules.FlushIffInOrder`).
  With rows in primary-key order, either the replacement or the rollback to the replaced rule goes
  through, never both (`MappingRules.ReplaceOrRollBack`).  Disabling the replacement first always
  works (`MappingRules.DisableThenRollbackRestores`).

## Model

| member | source | states |
|---|---|---|
| EditDistance.ComputeDistance | core/algorithms.py:20-33 | the two-row loop returns the recurrence, which some edit script costs and no script undercuts |
| EditDistance.NoCheaperScript | core/algorithms.py:20-33 | no left-to-right script between two prefixes is cheaper than the table entry for them |
| EditDistance.CheapestScript | core/algorithms.py:20-33 | some script between two prefixes costs exactly the table entry |
| EditDistance.DistanceIsLeastCost | core/algorithms.py:20-33 | the distance is the minimum cost over all edit scripts |
| EditDistance.Compose | core/algorithms.py:20-33 | two scripts that meet in the middle compose into one that costs no more than both |
| EditDistance.InverseUndoes | core/algorithms.py:20-33 | a script can be inverted at the same cost |
| EditDistance.Metric | core/algorithms.py:20-33 | zero exactly on equal strings, symmetric, triangle inequality |
| EditDistance.DistanceBounds | core/algorithms.py:20-33 | between the difference of the lengths and the longer length |
| EditDistance.RatioIsScore | core/algorithms.py:36-40 | the ratio is in [0, 1], symmetric, and 1 exactly on equal strings |
| EditDistance.RatioIsShareKept | core/algorithms.py:36-40 | the ratio is the share of the longer string that an edit script of the least cost leaves alone, and 1 on two empty strings |
| KeyMatching.SimilarityIsScore | core/algorithms.py:43-58 | similarity is in [0, 1], and 1 on strings equal up to case folding |
| KeyMatching.SimilarityIsLargest | core/algorithms.py:43-58 | similarity is the largest of the edit ratio, the sequence ratio and 0.8 for a shared long token, all on folded names |
| KeyMatching.PrecedesIffSmaller | core/algorithms.py:72-76 | one name precedes another iff it is a proper prefix or smaller at the first difference |
| KeyMatching.AtLeastOrders | core/algorithms.py:72-76 | the tuple order used by `max` is total, transitive and antisymmetric |
| KeyMatching.BestCandidateIsGreatest | core/algorithms.py:72-76 | the candidate picked is one of them and at least every other |
| KeyMatching.MatchIgnoresOrder | core/algorithms.py:61-88 | match and confidence depend on the set of expected fields only |
| KeyMatching.UnmatchedIffLowConfidence | core/algorithms.py:61-88 | "no match iff confidence below the threshold" holds exactly when the threshold does not exceed the fixed score of the branch taken |
| KeyMatching.MatchIsExpected | core/algorithms.py:61-77 | a match is an expected field, and an expected field matches itself |
| KeyMatching.MatchIsExact | core/algorithms.py:12-18 | itself, else the alias from the table, else the most similar field, the greatest name among equals, if it reaches the threshold, else nothing |
| PayloadMapping.BestMatchIsSelfMatching | core/algorithms.py:61-77 | whatever some key matches would match itself, which is all the renaming laws need |
| PayloadMapping.MapPayloadKeys | core/algorithms.py:91-112 | the loop computes the renamed payload and the table of the specification |
| KeyRenaming.UsedAreMatched | core/algorithms.py:99-108 | the used set holds exactly the fields matched so far |
| KeyRenaming.TableOfRenamings | core/algorithms.py:98-110 | the table holds exactly the keys that were first to match another field, each with that field |
| KeyRenaming.TableIsInjective | core/algorithms.py:98-110 | no two keys are renamed to one field, and none to itself |
| KeyRenaming.OutputIsRenamed | core/algorithms.py:101-112 | when the new keys are distinct the output is the input with each key replaced, in order |
| KeyRenaming.OutputAt | core/algorithms.py:101-112 | collisions included, a key of the output holds the value of the last item written under it |
| KeyRenaming.OutputHasNoOther | core/algorithms.py:101-112 | and there is no key under which nothing was written |
| KeyRenaming.CollisionShortens | core/algorithms.py:101-112 | an expected key after a key that matched it makes the output shorter than the input |
| KeyRenaming.RoundTrip | core/algorithms.py:91-112 | renaming the output back through the table gives the input, iff no expected key comes after a key that matched it |
| PayloadMapping.MappingRoundTrip | core/algorithms.py:91-112 | the same for the best match at any threshold and expected fields |
| PayloadMapping.AliasBeforeFieldLosesValue | core/algorithms.py:91-112 | a payload whose first value is lost |
| KeyRenaming.UnmatchedSurvive | core/algorithms.py:101-110 | the unmatched keys of the output are those of the input, in order |
| PayloadMapping.UncertainAreUnmatched | main.py:704-709 | the keys that park an event are exactly the incoming keys without a match |
| Normalizer.NormalizeIdempotent | core/normalizer.py:11-37 | normalizing twice is normalizing once, at any depth |
| Normalizer.NormalizeKeepsShape | core/normalizer.py:11-37 | every path leads to the normalization of what it led to before, and no path is added or lost |
| Normalizer.PaddedTextBecomes | core/normalizer.py:11-41 | for any spaces around it and any case: one of six words gives null, `true` and `false` their flags, with a dot the float it parses to, without one the integer, and anything else the text without the spaces |
| Normalizer.StripSplits | core/normalizer.py:20 | every text is spaces, a core without spaces at its ends, and spaces; the core is what is left |
| Normalizer.WrittenReadsBack | core/normalizer.py:11-41 | a null, flag or integer written out, between any spaces, is read back as itself |
| Normalizer.OtherLeavesStay | core/normalizer.py:11-37 | what is neither a text nor a container stays as it is |
| Normalizer.RedactIdempotent | database/repository.py:41-46 | redacting twice is redacting once |
| Normalizer.SensitiveIffNamed | database/repository.py:38-43 | a key is sensitive iff one of the seven words occurs somewhere in its folded name |
| Normalizer.RedactHidesExactlySecrets | database/repository.py:38-46 | the marker stands at the first sensitive key of a path, nothing below it; every other path is kept |
| Normalizer.RedactionCommutes | database/repository.py:212 | the exported normalized payload is the normalization of the exported raw payload |
| PersistedMappings.ApplyPersistedMappings | core/algorithms.py:115-128 | the loop over the stored rules computes the renamed payload and the applied rules |
| PersistedMappings.RenameKeepsValues | core/algorithms.py:124-127 | one rename keeps the size and the multiset of values |
| PersistedMappings.RenamesAreReversible | core/algorithms.py:115-128 | for every rule order, chains included: size and values are kept, and undoing in reverse restores the payload |
| PersistedMappings.IsolatedRuleMoves | core/algorithms.py:122-127 | a rule whose fields no other rule mentions moves its value iff the source is there and the target is not, whatever the other rules do |
| PersistedMappings.TestBridgeMapping | main.py:473-484 | the dry-run loop computes its output and change list |
| PersistedMappings.DryRunAgrees | main.py:473-484 | the normalized dry-run output is production's payload, with the same renames in the same order |
| PersistedMappings.ChangesExplainOutput | main.py:473-484 | the reported changes, values included, replayed on the payload give the output, and each quotes the value it moved |
| Ingest.ForwardedIffRecognized | main.py:645-798 | an event is forwarded iff both identity fields are there and every key left by the rules has a match |
| Ingest.VerdictIsExact | main.py:668-774 | the verdict branch by branch at the threshold 0.78, with the missing and the uncertain keys it names, in order |
| Ingest.ValidatedIsUntouched | main.py:643-774 | a validated event delivers exactly its normalized payload, in order |
| Ingest.StoredRulesApply | main.py:643-664 | the payload that goes to matching is the normalized output of the dry run of the stored rules on the raw payload |
| Ingest.IsolatedRuleApplies | main.py:660-663 | a rule whose fields no other rule mentions gives its target the normalized value of its source iff the source is there and the target is not; then the source is gone, and otherwise both are as they came |
| Ingest.HealedValue | main.py:664-667 | whatever the verdict, a field of the healed payload holds the value of the last item of the mapped payload written under it |
| Ingest.HealedHasNoOther | main.py:664-667 | and no other field is there |
| Ingest.KeyMappingsAre | main.py:668 | the stored mappings are the applied rules and the renamings, the renamings winning |
| PayloadDiff.DiffShifts | src/components/Dashboard.jsx:179-191 | the prefix handed down is only put in front of the paths |
| PayloadDiff.PatchTransforms | src/components/Dashboard.jsx:179-191 | applying one side of all entries to the other tree gives this tree, up to the order of keys |
| PayloadDiff.PatchAndUndo | src/components/Dashboard.jsx:179-191 | forward and back again, also for a missing payload |
| PayloadDiff.EntriesAreApart | src/components/Dashboard.jsx:179-191 | no path is a prefix of another, and each entry quotes both trees where they differ |
| PayloadDiff.EmptyIffSame | src/components/Dashboard.jsx:179-191 | nothing is shown iff the trees agree up to the order of keys |
| DiffEntries.ListedIffChanged | src/components/Dashboard.jsx:179-191 | a path is listed iff both sides are objects all the way down and then differ without both being objects |
| DiffEntries.EntriesAreInOrder | src/components/Dashboard.jsx:180-181 | at every depth the keys of the first payload come first, in its order, then the others in the order of the second |
| DiffEntries.MissingListsAll | src/components/Dashboard.jsx:180 | against a payload that was never stored every key of the other one is listed, whole |
| MappingRules.RuleStore.CreateMappingRule | database/repository.py:381-412 | appends a proposed rule with the revision after the highest of its field; the indexes stay satisfied |
| MappingRules.RuleStore.ApproveMappingRule | database/repository.py:415-441 | refused unless owned and proposed or approved; aborted by the index when the flush writes it before the active row; otherwise this rule alone is active on its field |
| MappingRules.RuleStore.DisableMappingRule | database/repository.py:444-459 | accepted iff owned and active; then inactive |
| MappingRules.RuleStore.RollbackMappingRule | database/repository.py:462-489 | the same for an inactive or approved rule |
| MappingRules.FindActive | database/repository.py:472-479 | finds the only active row of a field, or none |
| MappingRules.ProposeKeepsValid | database/repository.py:381-412 | a proposal keeps one active rule per field, distinct revisions and revisions 1..n |
| MappingRules.ActivateKeepsValid | database/repository.py:415-489 | so does an approval or rollback |
| MappingRules.FlushIffInOrder | database/models.py:322-328 | written row by row, an activation meets the index iff the new active row comes before the old one |
| MappingRules.SwitchIsActivate | database/models.py:322-328 | the index lets an approval commit only if it has switched off every active row of the field |
| MappingRules.EveryRunIsValid | database/models.py:315-328 | in every interleaving of transactions the same invariants hold and a rollback never meets two active rows |
| MappingRules.EveryRunIsSequential | database/repository.py:381-489 | every committed step of a concurrent run is nothing or one whole operation |
| MappingRules.AloneItActivates | database/repository.py:415-489 | a transaction that nobody disturbs ends with its rule alone active on its field and every other row as it was, or changes nothing |
| MappingRules.AloneItProposes | database/repository.py:381-412 | and one that proposes appends the next revision of its field |
| MappingRules.AloneItDisables | database/repository.py:444-459 | and one that disables switches off its own rule alone |
| MappingRules.RunsExtend | database/repository.py:381-489 | rows are only added, and only their status ever changes |
| MappingRules.SnapshotRows | database/repository.py:326-347 | a version above zero comes from an active row, version 0 from a legacy mapping |
| MappingRules.ActiveRowWins | database/repository.py:326-347 | every active row of the bridge is in the snapshot with its destination and its revision, whatever the legacy mappings say of its source |
| MappingRules.LegacyStands | database/repository.py:326-347 | a source without an active row is there iff the legacy mappings have it, with their destination at version 0 |
| MappingRules.HistoryStaysExplainable | database/repository.py:326-347 | a versioned pair saved with an event resolves to the same destination after any further operations |
| MappingRules.RollbackRestores | database/repository.py:415-489 | if both commit, approving a replacement and rolling back to the old rule restores the whole snapshot |
| MappingRules.ReplaceOrRollBack | database/repository.py:415-489 | in primary-key order the replacement commits iff the old key is smaller, the rollback iff it is larger |
| MappingRules.DisableThenRollbackRestores | database/repository.py:444-489 | disabling the replacement first lets the rollback commit in any order, and restores the snapshot |
| MappingRules.AcceptedForItsAccount | database/repository.py:415-489 | in every later run an operation accepts a row iff its account is asked for and its status allows it |
| MappingRules.TriageProposalIsForeign | database/repository.py:1114-1130 | a proposal made by triage is accepted, in every later run, for the default account alone |
| MappingRules.TriageProposalOfAnother | database/repository.py:1114-1130 | a proposal that the account of its event cannot approve |
| Outbound.RetryBackoffSeconds | services/outbound.py:14-22 | the setting is used exactly when it parses and starts with 0, otherwise 0, 60, 300, 1800, 7200 |
| ClaimTable.ClaimRegistry.Claim | core/queue_worker.py:44-55 | one call: purge, verdict and new table |
| ClaimTable.LiveIsStored | core/queue_worker.py:44-55 | a grant that no call has outlived is in the table with its expiry |
| ClaimTable.StoredIsLive | core/queue_worker.py:44-55 | everything in the table comes from such a grant |
| ClaimTable.RefusedIffLive | core/queue_worker.py:44-55 | refused iff an earlier grant of the key has not been outlived, for every sequence of readings |
| ClaimTable.GrantedIffOutlived | core/queue_worker.py:44-55 | granted iff some call since the latest grant, this one included, read a clock a TTL later |
| ClaimTable.GrantedIffLatestExpired | core/queue_worker.py:44-55 | with readings in lock order: granted iff the latest grant is at least 86400 seconds ago |
| ClaimTable.OutOfOrderReadingGrantsEarly | core/queue_worker.py:47-48 | a key granted again 50 000 seconds after its latest grant |
| Links.EveryRunIsLinked | database/models.py:180-207 | in every run all references stay good and no worker run is stuck |
| Triage.ParkedEventsAreSafe | database/repository.py:1012-1142 | no uncertain, rejected or dropped event has a job; one resolution per event; one job that is not a replay |
| Triage.ResolveKeepsInv | main.py:180-230 | promotion, manual map and drop of an uncertain event keep the invariant |
| Service.EveryReleasedEventIsServed | main.py:180-231 | in every run an event received as validated or healed, or mapped by the assistant or an operator, has its first job, or is in the hands of exactly one handler, or that handler was lost: one of the three, and none for any other event |
| Service.ReleasedIffAdmittedOrMapped | main.py:604-619 | in every run the events not held back are those received as validated or healed and those mapped later |
| EventKeys.JobsCarryTheirEvent | main.py:751-758 | every job, replays included, carries its event's account, bridge and key, and no key once the event was mapped |
| Handlers.ReceiptIsStored | database/repository.py:550-603 | a new event and its `received` entry |
| Handlers.VerdictIsStored | main.py:695-770 | the entry of the verdict, and what the handler does next: nothing, the assistant, or a job with the event's key |
| Handlers.AnswerMaps | database/repository.py:1012-1042 | an accepted answer maps an event that is still uncertain, and the job without a key is next; any other answer changes nothing |
| Handlers.OperatorResolves | database/repository.py:1087-1142 | an operator can map or drop an uncertain event, and no other |
| Handlers.JobIsCreated | main.py:751-758 | the next step of a handler that releases an event adds its job: the event's account and bridge, the handler's key, no attempts, due at once |
| Handlers.JobIsAnnounced | main.py:799 | the entry of a new job or replay |
| Handlers.AnswerIsDelivered | main.py:207-222 | an accepted answer leads to a queued job without a key in two steps |
| Handlers.ReplayIsRead | database/repository.py:963-970 | a replay is accepted iff the job is dead-lettered or retrying |
| Handlers.ReplayIsCreated | database/repository.py:971-987 | the replay points at the first job of the chain, counts one more and starts afresh; the old row stays |
| Handlers.ClaimQueuesRun | database/repository.py:657-672 | exactly the due and the stale rows are taken; the row becomes delivering and the entry carries its identity and count |
| Lineage.OneKeyPerEvent | database/repository.py:963-992 | all jobs of an event carry one key and lead back to one first job |
| Reconciliation.PendingIsExact | database/repository.py:675-685 | terminal events are received ones, each event is received once, and a report read at once counts as pending the events without a terminal entry, without clamping |
| Reconciliation.PendingIsShortByLate | database/repository.py:679-684 | read in several statements, the pending count is short by the events received and finished in between, and clamped iff these outnumber the pending ones |
| LateReport.PendingCanBeMissed | database/repository.py:679-684 | an event waits, another is rejected between the statements, and the report says that nothing is pending |
| Reconciliation.DroppedStaysPending | database/repository.py:1090-1094 | a dropped event never gets a terminal entry |
| Stranded.BlockedStaysPending | core/queue_worker.py:68-102 | an event whose jobs are all blocked and lost no run has no terminal entry |
| Conclusions.OutcomesAreCounted | database/repository.py:680-682 | when no run of the scope is at work and none was lost, delivered and dead-lettered count exactly the events with such a job |
| Conclusions.PendingAreUnfinished | database/repository.py:683-685 | and, no handler lost, pending exactly the events not rejected without such a job |
| Reconciliation.FailedCountIsZero | database/repository.py:681 | the failed counter is zero in every run |
| Idempotency.OneEventPerKey | database/repository.py:724-766 | all grants and all keyed requests of one bridge and key belong to one event, also after expiry |
| Idempotency.ClaimVerdict | database/repository.py:724-766 | granted iff there is no row, or an unexpired one of the same event |
| Idempotency.InsertVerdict | database/repository.py:744-763 | the insert is refused iff a row is there; otherwise the row is good for 86400 seconds, and rows that had expired now expire at this reading |
| MemoryGate.MemoryIsTable | core/queue_worker.py:44-55 | in every run the table in memory is what the calls of `_claim` since the last start of the process have left |
| MemoryGate.SuppressedIffStillClaimed | core/queue_worker.py:68-82 | in every run a keyed delivery is suppressed iff a grant of its key since the last start has been outlived by no call |
| MemoryGate.SendsAreGranted | core/queue_worker.py:68-82 | in every run no more requests are sent with a key than calls were granted to it, over all starts |
| MemoryGate.OneRequestPerKey | core/queue_worker.py:44-55 | when all calls fall within the TTL after some reading, whatever it is, each start of the process sends at most one request per key |
| KeyedRetry.RetryIsBlocked | core/queue_worker.py:68-82 | the only job is answered 503 and due for a retry; 60 seconds later it and its event are blocked, with one request sent and the table in memory unchanged |
| KeyedRetry.ExpiredClaimBlocksItsOwnEvent | database/repository.py:735-763 | the only job gets no answer; after 90 000 seconds the table in memory grants its key again, the claim row of its own event has expired, and it is blocked with one request sent |
| Ownership.EveryRunKeepsInv | database/repository.py:657-672 | in every orderly run at most one run may write a job row, and that row is delivering |
| Ownership.TerminalForever | core/queue_worker.py:145-158 | in every orderly run a delivered, dead-lettered or blocked row never changes again |
| Reclaim.ReclaimRewritesDelivered | database/repository.py:662-667 | a run that is not orderly: two live runs may write one row, which turns from delivered to retrying |
| RetryPolicy.AttemptsAreBounded | core/queue_worker.py:64-66 | in every orderly run attempts and claims are at most the length of the policy plus the crashes |
| Requests.RequestsAreBounded | core/queue_worker.py:135-144 | a job costs at most one request per claim, so at most the length of the policy plus the crashes |
| RetryPolicy.ClaimsRunOut | core/queue_worker.py:145-158 | claimed that often, a job is terminal; before, without crashes, claims equal attempts, below the length |
| RetryPolicy.StepShortensRun | core/queue_worker.py:64-168 | every step brings a run closer to its end, at most thirteen steps away |
| RetryPolicy.AttemptsAreSpaced | core/queue_worker.py:151-153 | attempt k + 1 starts at least `backoff[k]` seconds after the outcome of attempt k |
| RetryPolicy.DueWhenWaited | database/repository.py:657-672 | a job no run may write is taken at once when new, exactly from its last outcome plus the wait on when retrying, 300 seconds after creation when a crash left it delivering, and otherwise never |
| RetryPolicy.DeadLetterTakesAllWaits | core/queue_worker.py:147-158 | a job dead-lettered by exhaustion spent all waits since its first attempt, 9360 seconds by default |
| Evidence.RowAndLedgerAgree | core/queue_worker.py:105-133 | attempt rows numbered 1..n in order and exactly n `delivery_attempted` entries, n the row's count |
| Verdicts.StatusFollowsAnswer | services/outbound.py:25-53 | the row at rest follows from its last attempt row: delivered iff 200..299; retrying iff attempts are left and there was no answer or 408, 429 or 500..599; dead-lettered otherwise |
| Evidence.LastEntryNamesStatus | core/queue_worker.py:158-168 | the last worker entry names the row's status iff the run of the last attempt closed last, or the row is retrying |
| SoloRuns.LedgerEndsWithStatus | core/queue_worker.py:158-168 | if the job is only claimed while no run of it is open, the last worker entry names the status of the row at rest |
| Overlap.LedgerCanEndBehindRow | core/queue_worker.py:158-168 | a run after which the row is delivered and the ledger ends with retrying |
| FailedEvents.FailedIffDeadLettered | database/repository.py:688-698 | an event marked failed has a dead-lettered job; and one dead letter without a key and a lost run suffices, once its run has passed the marking step |
| DeliveryWorker.Database.RunJob | core/queue_worker.py:64-168 | one queue entry from start to end does what at most thirteen steps of the protocol do |
| DeliveryWorker.Database.UpdateDeliveryJob | database/repository.py:815-842 | status and count are set, the due time only when given; nothing happens to an unknown job |
| DeliveryWorker.Database.AppendJobLifecycle | database/repository.py:630-654 | appends an entry with the job's event, account and bridge, or nothing for an unknown job |
| DeliveryWorker.Database.RecordDeliveryAttempt | database/repository.py:845-872 | appends one attempt row |
| DeliveryWorker.Database.MarkEvent | database/repository.py:688-721 | sets the status of the event, if there is one |
| DeliveryWorker.Database.ClaimIdempotencyKey | database/repository.py:724-766 | both phases of a claim: verdict and claim table |
| DeliveryWorker.ClaimMoves | core/queue_worker.py:83-102 | one or two steps of the protocol are the durable claim |

## Left out

- Protocol.Resolve: payloads are not part of the protocol's rows; the renaming of one field by triage or the assistant (main.py:196-202, database/repository.py:1096-1112) is one rename as in `PersistedMappings`, and the refusals for a wrong target or several unknown fields only leave the event uncertain.
- MappingRules.HistoryStaysExplainable: says nothing about version 0, because legacy mappings keep no history.
- RetryPolicy.AttemptsAreSpaced: is about jobs that lost no run, since a reclaimed job starts again at once.
- Evidence.RowAndLedgerAgree: is about jobs without a key that lost no run, since a blocked run resets the count to 1 and writes no ledger entry.
- Ownership.OrderlyRun: the theorems about orderly runs do not bound what happens once a stale row was reclaimed from a live run.
- Protocol.ClaimJob: the recovery query takes all due rows in one transaction; the model takes one row at a time, which allows more interleavings.
- MappingRules.Do: the concurrent model lets any transaction abort and does not tie that to the order of its flush, as the operations of `RuleStore` do.
- PayloadDiff: paths are sequences of keys, not dotted strings, in which a key with a dot is ambiguous; names that JavaScript objects inherit (`toString`, `__proto__`) count as absent; payloads are objects or null.
- JSON numbers are integers or floats, as in Python, also in the diff, where JavaScript has one type.
- Rounding of floats: scores are reals, and so is the value of a parsed float.
- Audit columns of rules, jobs and events (who, when, reason, last error), payloads and target URLs of jobs.
- Batch replay overrides (main.py:569-577), which edit an object detached from its session.
- The all-in-one role, in which entries are also queued by the api process, without their key for new events (main.py:792-798).
- The branches for a database that is not configured.
- The HTTP client, notifications, the digest scheduler and the assistant's request.
- Signatures, logins, sessions, API keys, roles and scopes.
- Exports to CSV and PDF, bridge administration, schema creation.
- Thread and event-loop plumbing; every React component other than `payloadDiff`.
