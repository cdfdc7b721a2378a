# Verification of the evidence engine

`prog` turns large tool output into bounded, cited evidence for an agent. What it
says about that evidence is only useful if every bound admits what it left out,
and if "resolved" and "passed" are said only when absence is proven. This project
models that engine in Dafny and proves those promises for all inputs.

The model follows the code file by file. Objects whose methods update their fields
are classes (`Projector`, `SignalCollector`, `DerivationCheck`, `FieldTable`,
`FieldStats`, `RuleScan`, `SearchTraversal`, `OwnedProcessGroup`, `Reader`,
`Hasher`), loops are loops, and code made of expressions is functions. Each method
is proved equal to a function of its inputs, or to a property of its result, and
the theorems are lemmas about those functions.

| file | models |
|---|---|
| `Common.dfy`, `Json.dfy`, `Sorting.dfy`, `Text.dfy` | options and results, string order, decimal text, `usize` parsing; JSON values and addressing; the stable sort; `str::lines` |
| `Pointer.dfy` | JSON Pointer text (RFC 6901), resolution, containment |
| `Findings.dfy`, `RunSignals.dfy`, `Ranking.dfy` | the completeness predicate, the budgeted collector, the collector for run payloads, the ranking |
| `Reordering.dfy` | findings of a payload whose objects list their members in another order |
| `Disclosure.dfy`, `Coarsening.dfy`, `Expansion.dfy` | the projector; the coarsening loop; field selection, scoped slices and expansion |
| `Delta.dfy`, `Obligation.dfy`, `Absence.dfy` | the comparison, the readiness gate, and derivation joined with comparison |
| `Recording.dfy` | processes that take turns at one store as a step system: opening and closing it, payloads, guarded recording, revalidation, expiry, eviction, purging; what a resolved finding and a pass say about the payload in every reachable state |
| `Overview.dfy`, `FieldTable.dfy`, `Collection.dfy` | streaming field statistics, key inference, the largest record array |
| `Accounting.dfy` | a response that contains its own length |
| `LensScan.dfy`, `Search.dfy` | wildcard rule scanning and the merge by path; cached search |
| `Capture.dfy` | child exit, two readers, deadline, signal and drop as a step system |
| `Lines.dfy`, `Template.dfy`, `CacheScope.dfy` | line intake, command templates, the hashed execution context |

JSON objects are sequences of members with distinct keys, in insertion order, as the
`preserve_order` map keeps them; value equality ignores that order, so the projector,
which sorts keys, is shown to return an `Equivalent` value. A child has one canonical
name (its key, or the decimal index) used for every path the program prints;
resolution itself (`Get`) also accepts the other spellings `usize` parsing takes.

The keyword classifiers, the fingerprint and key hashes, the regex matcher, scores,
timestamp and float reading, the JSON number printer, the serialized size, the
workspace probe and the digest are parameters: every theorem holds for all of them.

The store is one database file that admits one open handle. A process keeps its handle
until it waits on a source (`crates/prog-core/src/store.rs:264-287`), and recording a
capture checks and writes under one hold of it (`crates/prog-cli/src/commands/envelope.rs:98-158`),
so processes interleave between their holds and never inside a recording.

## What the code does that its words do not say

- **Raw pointers.** `is_within` is a partial order on canonical pointers only. On raw
  text `/~` and `/~0` contain each other (`WithinNotAntisymmetricOnRawText`). A pointer
  is free of such doubles exactly when it is canonical (`CanonicalIffStandsAlone`).
- **Member order.** Invariant I10 promises findings that do not depend on the order of
  an object's keys. They do not, at any rank, up to a payload cost of exactly the
  10000 nodes the collector visits (`FindingsIgnoreMemberOrder`,
  `OrderFreeIffWithinBudget`). One node more, and a message behind a list of 9998
  nulls is lost, while the same message in front of the list is found
  (`BulkyFindings`).
- **Coarsening.** The ladder of sixteen rungs ends in a preview that fits its limit or
  is one scalar, for every value, exactly when the policy's `depth` is at most 16
  (`FitsOrScalarIffDepth`); no other field matters for it. The default policy at depth
  17, with a limit below the 26 bytes every serialized projection takes, answers an
  empty array with an array over its limit (`DepthSeventeenMissesFloor`).
- **Silent refusals.** An absence proof can be refused with no reason at all: exactly
  when the only gap is another source or operation, or a subject that leaves a baseline
  scope out, and no provider warning or shared fingerprint happens to be listed
  (`RefusalUnexplainedIff`, `RefusalWithoutAWord`).
- **False alarms in search.** `omitted` is set not only when a node was out of reach or
  hits were cut, but also when the traversal ends on exactly its last allowed node
  below the root, with nothing missing (`FlagMeaning`, `FlagRaisedOnWholeSearch`).
- **Verdict texts.** The comment on `for_baseline` says result and reason together have
  equal length. Three pairs do; the unavailable pair is four characters longer
  (`NamesAndReasonsHaveOneLength`). Nothing depends on it, because the unavailable
  verdict is never exchanged for another one.
- **Templates.** A placeholder is not always replaced: inside a brace opened earlier it
  is kept as it stands, so `{{a}` asks for no argument (`OpenBraceHidesPlaceholder`).
  `ReplacedIffOutside` says exactly when one is replaced, and `CollectedAreReplaced`
  that exactly those are asked for, so accepted arguments always substitute.
- **Large process ids.** An armed group is signalled once unless its id exceeds
  `i32::MAX`, in which case no signal can be sent (`KillTargets`).

## Model

| member | source | states |
|---|---|---|
| Pointer.UnescapeEscape | crates/prog-core/src/pointer.rs:11-19 | Undoing the escapes of any token gives the token back, tildes and slashes included. |
| Pointer.ParseJoin | crates/prog-core/src/pointer.rs:20-43 | Every list of segments survives the trip through pointer text. |
| Pointer.JoinSegments | crates/prog-core/src/pointer.rs:32-43 | The loop builds the text that parses back to exactly the segments it was given. |
| Pointer.ParsePush | crates/prog-core/src/pointer.rs:44-47 | Pushing a segment appends exactly that segment, and makes no invalid pointer valid. |
| Pointer.Resolve | crates/prog-core/src/pointer.rs:49-68 | An invalid pointer is an error; a valid one resolves to the node its segments lead to, or to nothing. |
| Pointer.ValidateJsonPointer | crates/prog-core/src/lifecycle.rs:218-243 | The scanner accepts a text exactly when it parses and joining the parse gives it back. |
| Pointer.CanonicalIsValidText | crates/prog-core/src/lifecycle.rs:112-115 | Those texts are exactly the empty one and those whose every tilde is followed by 0 or 1. |
| Pointer.WithinIsPartialOrder | crates/prog-core/src/pointer.rs:70-76 | Containment is reflexive, antisymmetric and transitive on canonical pointers. |
| Pointer.WithinNotAntisymmetricOnRawText | crates/prog-core/src/pointer.rs:70-76 | Two different raw pointers contain each other, one of them not canonical. |
| Pointer.CanonicalIffStandsAlone | crates/prog-core/src/pointer.rs:70-76 | A valid pointer is canonical if and only if no other canonical pointer contains it and lies within it. |
| Pointer.WithinSelectsSubtree | crates/prog-core/src/pointer.rs:49-76 | Resolving a contained path is resolving the boundary and then the rest below it. |
| Findings.DerivationCheck.Visit | crates/prog-core/src/findings.rs:181-248 | The short-circuiting visitor with its shared counter accepts exactly when the remaining budget covers the node and virtual-line cost, the depth bound holds and nothing below is windowed or an incomplete provider record. |
| Findings.FindingDerivationIsComplete | crates/prog-core/src/findings.rs:181-248 | The answer is the order-free meaning of completeness. |
| Findings.SignalCollector.CollectGenericSignals | crates/prog-core/src/findings.rs:1595-1722 | The collector object appends exactly the capped scan of its subtree and leaves the counter where that scan leaves it. |
| Findings.CompleteMeansNothingMissed | crates/prog-core/src/findings.rs:181-248 | On a complete payload, for every scope inside it and all classifiers, the capped, skipping, budgeted collection equals the collection with no cap at all, although it counts text lines at another node. |
| Ranking.RankFindings | crates/prog-core/src/findings.rs:280-309 | The result is the numbered head of the ranking: the first of the best candidates of each occurrence, in order, cut to the limit. |
| Ranking.KeptIsFirstOfBest | crates/prog-core/src/findings.rs:284-297 | A candidate kept for an occurrence is one that none betters and all earlier ones fall short of, and one is kept exactly when there is any. |
| Ranking.RankingUnique | crates/prog-core/src/findings.rs:284-302 | A list of candidates has one ranking, line and value included. |
| Ranking.RankingIgnoresOrder | crates/prog-core/src/findings.rs:284-302 | Two candidate lists with the same members, in any order, give rankings of one length with the same score, confidence, path, kind and fingerprint at every rank. |
| Reordering.CostIgnoresOrder | crates/prog-core/src/findings.rs:181-248 | Reordering members changes nothing in the cost of a payload. |
| Reordering.ReachedAlike | crates/prog-core/src/findings.rs:1595-1722 | Reordered values give the same candidates in the same order at every single path. |
| Reordering.FindingsIgnoreMemberOrder | INVARIANTS.md:16 | Within the node budget, reordered payloads have as many findings, and at each rank the same path, kind, line, score and fingerprint and the same value but for member order. |
| Reordering.OrderFreeIffWithinBudget | INVARIANTS.md:16 | That law holds for all payloads up to a given cost if and only if the cost is at most the collector's node budget. |
| Reordering.BulkyFindings | crates/prog-core/src/findings.rs:1595-1650 | A payload of one node more and its reordering are such a pair whose rankings are empty and of one finding. |
| RunSignals.CollectRunSignals | crates/prog-core/src/findings.rs:1270-1450 | The loop appends the command's own signals and one candidate for each object among the first sections. |
| RunSignals.RunUncapped | crates/prog-core/src/findings.rs:1418-1450 | On a payload within the node budget the cap on sections is never met. |
| Ranking.CutKeepsTheBest | crates/prog-core/src/findings.rs:300-302 | A candidate not shown is outranked by as many findings as the limit allows. |
| Ranking.UnlimitedKeepsFingerprints | crates/prog-core/src/findings.rs:280-302 | Without a limit every fingerprint of a candidate is in the list. |
| Disclosure.Projector.ProjectValue | crates/prog-core/src/disclosure.rs:139-160 | The object's preview, counter and appended omissions are those of the projection function from the counter it starts with. |
| Disclosure.ProjectionIsFaithful | crates/prog-core/src/disclosure.rs:119-247 | Every preview node is the source node at its address or listed; every source node that is missing lies under a listed address; listed addresses are distinct and each is explained by the node there and by what the preview shows; the budget is never exceeded; nothing listed means an equal value. |
| Disclosure.PreviewIsVerbatim | crates/prog-core/src/disclosure.rs:139-237 | A preview node not listed is the source's own scalar, or a container with the same children names. |
| Disclosure.MissingIsCovered | crates/prog-core/src/disclosure.rs:139-237 | A source address absent from the preview has a listed ancestor or self. |
| Disclosure.OmissionsAreJustified | crates/prog-core/src/disclosure.rs:139-247 | No needless omission: each reason holds of the node it names, and the preview shows there the marker, the leading characters, the leading items or the first fields in key order. |
| Disclosure.BudgetIsSpentFirst | crates/prog-core/src/disclosure.rs:139-147 | A node is left out for the node budget only once the whole budget is spent. |
| Disclosure.NodesWithinBudget | crates/prog-core/src/disclosure.rs:139-147 | The visited count never passes the budget, wherever it starts. |
| Disclosure.OmissionsAreDistinct | crates/prog-core/src/disclosure.rs:139-247 | No path is listed twice. |
| Disclosure.NothingOmittedIsWhole | crates/prog-core/src/disclosure.rs:119-247 | An empty list of omissions means the preview equals the value. |
| Coarsening.FixedOnlyAtFloor | crates/prog-core/src/disclosure.rs:45-54 | Coarsening changes nothing exactly at the floor policy. |
| Coarsening.FloorThresholds | crates/prog-core/src/disclosure.rs:45-54 | Sixteen rungs end at the floor if and only if the policy is below the stated thresholds. |
| Coarsening.Project | crates/prog-core/src/disclosure.rs:65-86 | The loop returns the projection of the finest rung that fits, or of the rung where it had to stop, every finer one being too large. |
| Coarsening.CoarseningReachesFloor | crates/prog-core/src/disclosure.rs:65-86 | For every policy of depth at most 16 the answer fits the limit or is one scalar with at most one omission. |
| Coarsening.FitsOrScalarIffDepth | crates/prog-core/src/disclosure.rs:45-86 | That holds for all values, base paths and size functions not below the fixed envelope, if and only if the depth is at most 16. |
| Coarsening.DepthSeventeenMissesFloor | crates/prog-core/src/disclosure.rs:20-54 | The default policy at depth 17 with a limit of 25 bytes answers an empty array with an array that does not fit. |
| Expansion.SelectKeepsAddresses | crates/prog-core/src/disclosure.rs:249-289 | Field selection only drops members: what is left keeps its address and every scalar its value. |
| Expansion.PickedFields | crates/prog-core/src/disclosure.rs:262-289 | A field is picked exactly when it is named, present and not omitted, and none twice. |
| Expansion.NewScopedSlice | crates/prog-core/src/lifecycle.rs:156-171 | A slice is accepted exactly when both pointers are canonical and the target lies within the root. |
| Expansion.Expand | crates/prog-core/src/disclosure.rs:88-117 | An accepted slice fails only when its target does not exist; every listed region lies within target and scope and names a payload node; every unlisted scalar is the payload's own. |
| Delta.TestPopulationReasons | crates/prog-core/src/delta.rs:105-188 | The reasons are exactly those of shrunk, unnamed, quiet and lost tests, in that order. No reason is given exactly when the populations are comparable; each named test really failed before and did not run again, and quiet output is told apart from a lost test. |
| Delta.PopulationReasonsMean | crates/prog-core/src/delta.rs:105-188 | The listed reasons are empty exactly for comparable populations, and each test they name failed in the baseline and did not run again. |
| Delta.AssessmentMeaning | crates/prog-core/src/delta.rs:367-469 | The assessment together with the comparison of test populations proves absence exactly when identity, scopes, captures, skipped tests and tests all allow it. |
| Delta.CompareObservationsWithTests | crates/prog-core/src/delta.rs:235-362 | The result is the first hundred of the one ordered, complete list of classified fingerprints, with the counts of that whole list and an assessment whose every reason is fixed. |
| Delta.DeltaUnique | crates/prog-core/src/delta.rs:235-362 | Observations, findings and test populations determine the whole comparison. |
| Delta.WarningsOnceEach | crates/prog-core/src/delta.rs:248-265 | Among the first provider warnings each text is repeated to the reader once and none is lost. |
| Delta.RefusalUnexplainedIff | crates/prog-core/src/delta.rs:243-278 | A refusal carries no reason if and only if every listed condition holds, nothing else is noted, and source, operation or scope coverage differ. |
| Delta.RefusalWithoutAWord | crates/prog-core/src/delta.rs:367-469 | The same whole capture over one of its two scopes is refused with an empty list of reasons. |
| Delta.LastOfFingerprint | crates/prog-core/src/delta.rs:618-631 | A fingerprint is known exactly when some finding carries it, and stands for the last that does. |
| Delta.ResolvedExactlyWhenProven | crates/prog-core/src/delta.rs:289-306 | A finding is resolved if and only if it was in the baseline, is not in the subject and its absence is provable. |
| Delta.ResolvedMeansTestsRanAgain | crates/prog-core/src/delta.rs:105-188 | With a baseline test population, each named failing test ran in the subject, none stayed unnamed, and the executed count did not shrink. |
| Delta.StatusesPartitionTheUnion | crates/prog-core/src/delta.rs:279-362 | Each distinct fingerprint of either side has exactly one status, and the counts add up to the union even when the list is cut. |
| Delta.NoNewShownMeansNoneAtAll | crates/prog-core/src/delta.rs:642-650 | A cut list without a new finding proves that the whole comparison has none. |
| Delta.FullComparisonUnique | crates/prog-core/src/delta.rs:339-351 | The ordered list is determined by the comparison. |
| Delta.SwapExchangesNewAndMissing | crates/prog-core/src/delta.rs:289-306 | Swapping the arguments exchanges new findings with the resolved, unobserved and unknown ones and keeps the persisting ones. |
| Absence.DeriveAll | crates/prog-cli/src/commands/delta.rs:154-194 | The findings compared are those of an unlimited ranking of everything the two collectors found. |
| Absence.CompleteMeansEverything | crates/prog-core/src/findings.rs:181-272 | On a complete payload no cap of either collector is met. |
| Absence.NotDerivedIsAbsent | INVARIANTS.md:20 | A fingerprint that no derived finding of a complete payload carries belongs to no candidate of the uncapped derivation. |
| Recording.RecordCapture | crates/prog-cli/src/commands/envelope.rs:98-131 | The recorded availability, stop reason and affected scopes are those the guard gives. |
| Recording.GuardExact | crates/prog-cli/src/commands/envelope.rs:98-131 | A capture keeps its power to prove absence exactly when its payload is stored and derives whole; one that loses it names the payload and a reason, and no earlier mark is lost. |
| Recording.EventExtends | crates/prog-core/src/store.rs:1336-1437 | No transaction changes a record except to lower its availability, and none makes a record recoverable again. |
| Recording.EventKeepsSound | crates/prog-core/src/store.rs:289-440 | Every transaction of every process keeps the invariant: a record with scopes that can prove absence is of a payload that derives whole, and so are the captures behind cache entries and unfinished work. |
| Recording.RunKeepsSound | crates/prog-cli/src/commands/call.rs:204-282 | The invariant holds after every interleaving of captures, task records, revalidations, expiry, eviction and purging. |
| Recording.EventKeepsRecorder | crates/prog-core/src/store.rs:264-287 | A process between checking a capture and recording it is the one that has the store open. |
| Recording.EventKeepsBacked | crates/prog-core/src/store.rs:1543-1572 | Every record and every checked capture that claims its payload is held can be read, whatever is recorded, expired, evicted or purged. |
| Recording.RunKeepsBacked | crates/prog-cli/src/commands/envelope.rs:98-158 | That holds at every point of every run of any number of processes, because nothing comes between the check of a capture and its record. |
| Recording.CaptureProves | crates/prog-cli/src/commands/envelope.rs:98-158 | Storing, checking and recording is possible whenever the process is idle and has the store open, adds one record, and that record can prove absence exactly when the draft can and the payload derives whole. |
| Recording.ProvenAbsent | crates/prog-cli/src/commands/delta.rs:117-152 | What is provably absent from the findings of a payload, read with its record or later, belongs to no candidate of the uncapped derivation. |
| Recording.ResolvedIsBacked | INVARIANTS.md:20 | In every reachable state the payload behind a resolved finding is stored and does not hold the finding anywhere. |
| Recording.GatePassMeansAbsent | crates/prog-cli/src/obligation.rs:175-235 | An obligation that asks for an absence and rests on no receipt passes only on evidence whose payload is stored and does not hold the finding. |
| Obligation.CompareObservationIds | crates/prog-cli/src/commands/delta.rs:117-152 | An unknown observation is an error; otherwise the answer is the comparison of the two stored observations, findings and test populations. |
| Obligation.ReadbackEvidenceUnavailable | crates/prog-cli/src/obligation.rs:282-344 | A verified receipt is refused exactly when one of its links or payloads is missing. |
| Obligation.GateEvidence | crates/prog-cli/src/obligation.rs:83-173 | The chain of early returns is the two-step gate: unusable evidence first, then evidence that no longer describes the state or operation asked about. |
| Obligation.EvaluateFinding | crates/prog-cli/src/obligation.rs:175-235 | The answer is read off a comparison of the two observations, a new finding beside the absence included; it passes exactly when the untruncated comparison allows it. |
| Obligation.EvaluateObligation | crates/prog-cli/src/obligation.rs:14-277 | It passes by a supported receipt, by a successful command that is not a non-exhaustive coding run, or by the finding route, and in no other way; every other answer is the one stated. |
| Obligation.FindingRouteExact | crates/prog-cli/src/obligation.rs:180-204 | Reading the list cut to a hundred gives the answer the whole comparison would give. |
| Obligation.PassedFindingMeansResolvedAndNothingNew | crates/prog-cli/src/obligation.rs:180-204 | A pass by the finding route means the expected fingerprint is listed as resolved and the untruncated comparison has no new finding. |
| Overview.FieldStats.Observe | crates/prog-core/src/overview.rs:229-252 | One observed value updates all statistics of the field object as the value-level step says. |
| Overview.PresenceAndKinds | crates/prog-core/src/overview.rs:229-252 | After any values, presence is their number and the kinds are exactly theirs. |
| Overview.ValuesAreTheHistogram | crates/prog-core/src/overview.rs:229-281 | A value list that survived is the complete histogram with counts adding up to the presence; it is given up exactly when a value is not enumerable or there are too many distinct ones. |
| Overview.UniqueIsDistinctHashes | crates/prog-core/src/overview.rs:229-252 | The key set survives exactly when all values are key-shaped with distinct hashes. |
| Overview.BoundsAreVerbatim | crates/prog-core/src/overview.rs:298-355 | Bounds are values that occurred, least and greatest of their kind, and exist only when the values are of one comparable kind. |
| FieldTable.FieldTable.ObserveObject | crates/prog-core/src/overview.rs:140-158 | The recursive in-place update of the table of objects equals touching it with the object's observations in order, with no two names sharing statistics. |
| FieldTable.StreamedFieldIsBatch | crates/prog-core/src/overview.rs:134-172 | The streamed statistics of a field are those of exactly the values the items carry there. |
| FieldTable.CandidateMeansRecordKey | crates/prog-core/src/overview.rs:174-190 | For any hash a candidate is a key-shaped value present in every item and pairwise distinct; without collisions the converse holds. |
| FieldTable.MissedKeyIsOutranked | crates/prog-core/src/overview.rs:174-202 | A collision-free record key is offered unless the full quota of candidates rank no worse by depth and name. |
| FieldTable.KeyCandidates | crates/prog-core/src/overview.rs:109-131 | The keys are exactly those every side offers, and each is a record key of every collection at one and the same path. |
| FieldTable.FieldOrderFacts | crates/prog-core/src/overview.rs:160-172 | Every field carried by some item appears once, at its depth, no nested field before a shallower one. |
| FieldTable.OverviewOf | crates/prog-core/src/overview.rs:78-107 | Item kinds, listed fields, the count of omitted fields and the key candidates are exact over the items. |
| FieldTable.OverviewFieldIsExact | crates/prog-core/src/overview.rs:254-281 | A reported field tells the exact presence and kinds, and either a complete sorted histogram or, exactly when all its values compare, the least and the greatest of them. |
| Collection.SearchBelow | crates/prog-core/src/overview.rs:42-69 | The queue search returns a reachable record array of maximal length, the shallowest among the longest, and none only when none is reachable. |
| Collection.FindCollection | crates/prog-core/src/overview.rs:42-76 | An array at the start is the answer exactly when it is long enough; below anything else the answer is a reachable record array of maximal length, the shallowest of those, and no answer means there is none. |
| Accounting.RenderAccountedJson | crates/prog-cli/src/main.rs:1116-1162 | A returned text has the length recorded inside it, in the budget, the summary, its tokens and an honest verdict, compared as maps are, and nothing else changed; with no ratio displayed it is returned for every body a machine can hold. |
| Accounting.SizeSettles | crates/prog-cli/src/main.rs:1116-1162 | The sequence of recorded sizes repeats within six rounds for every body, well before the loop's limit. |
| Accounting.StampLength | crates/prog-cli/src/main.rs:1116-1162 | Writing another size changes the length of the text by the change in printed width and nothing else. |
| Accounting.StampsOnly | crates/prog-cli/src/main.rs:1130-1155 | One stamping changes the recorded sizes and the verdict and no other field of the response, its budget or its summary. |
| Accounting.RenderBudgetedJson | crates/prog-cli/src/main.rs:1035-1088 | No text is returned over the effective budget; a full response is the one asked for but for its accounting, and records its own size; the refusal names the exact length of the compact text that was still too long, which records it. |
| Accounting.EffectiveDisclosureBudget | crates/prog-cli/src/main.rs:282-315 | An accepted budget is what was asked for in bytes, or four times the tokens, or the default, cut to the maximum; it is refused exactly for an overflow, for zero and below the minimum, each with its own error. |
| Accounting.VerdictThresholds | crates/prog-core/src/contracts.rs:878-921 | Raw, neutral, win and unavailable hold exactly at their size ratios. |
| Accounting.NamesAndReasonsHaveOneLength | crates/prog-core/src/contracts.rs:900-911 | The printed widths of result and reason: equal for the three known results, four more for the unavailable one. |
| LensScan.RuleScan.ResolveRulePaths | crates/prog-core/src/lens.rs:462-521 | The recursive scan with its shared counters offers the document-order leaves of the pattern one by one until it is exhausted. |
| LensScan.ScanIsPrefix | crates/prog-core/src/lens.rs:428-460 | Matches are the hits among a prefix of the leaves, and only exhaustion leaves any out. |
| LensScan.ScanRule | crates/prog-core/src/lens.rs:428-521 | Each match resolves at its path, lies in scope, fits the pattern and the rule; at most 1000 matches and 200000 visits; complete unless exhausted. |
| LensScan.LeafIsInstance | crates/prog-core/src/lens.rs:462-521 | Every leaf is an instance of the wildcard pattern. |
| LensScan.InstanceIsLeaf | crates/prog-core/src/lens.rs:462-521 | Every instance of the pattern is a leaf. |
| LensScan.MergeByPath | crates/prog-core/src/lens.rs:128-184 | One finding per path, none less confident than another there, a lens finding before an equal generic one; ordered, and cut only at the limit. |
| Search.SearchTraversal.Visit | crates/prog-core/src/navigation.rs:261-331 | The object's hits, count and flag after a visit are those of the bounded traversal function. |
| Search.UntruncatedIsComplete | crates/prog-core/src/navigation.rs:261-331 | A traversal without the flag found every hit of the subtree, and no traversal visits more than its maximum. |
| Search.FlagMeaning | crates/prog-core/src/navigation.rs:261-331 | The flag is raised exactly when a node is too deep or beyond the count, or when a nested value has exactly as many nodes as allowed. |
| Search.FlagRaisedOnWholeSearch | crates/prog-core/src/navigation.rs:261-331 | A whole traversal of a one-item array with two nodes allowed is flagged. |
| Search.FoundAreHits | crates/prog-core/src/navigation.rs:261-331 | Bounded or not, only hits of the subtree are found. |
| Search.NodeHasHit | crates/prog-core/src/navigation.rs:261-331 | Each matching node in scope has its hit. |
| Search.HitsAreDistinct | crates/prog-core/src/navigation.rs:261-331 | No two hits share a path. |
| Search.SearchPayload | crates/prog-core/src/navigation.rs:77-142 | Every hit is a matching node in scope, sorted by score then path with ranks 1 to n; with nothing omitted there is one for every matching node; something is said to be omitted exactly when a node is out of reach, hits exceed the limit, or the search ended on its last allowed node. |
| Capture.OwnedProcessGroup.Terminate | crates/prog-adapters/src/process.rs:129-141 | The first call on an armed group asks for one kill of its id and disarms it. |
| Capture.Reader.Record | crates/prog-adapters/src/process.rs:164-168 | A reader is done whatever its task yields, and holds a value only when the read succeeded; a task is awaited at most once. |
| Capture.Reader.FinishOrAbort | crates/prog-adapters/src/process.rs:170-184 | After the grace period the task has ended, and what it read in time or before is handed out. |
| Capture.CaptureProcess | crates/prog-adapters/src/process.rs:43-98 | For every sequence of polls and every way to be dropped: the group is killed exactly once unless the capture completed, no reader task is left running, and complete output comes from tasks that ended by themselves. |
| Capture.TurnKeepsValues | crates/prog-adapters/src/process.rs:59-85 | Both `expect` calls find a value, and a step that does not break leaves one thing less to wait for. |
| Capture.CompleteTakesEveryStep | crates/prog-adapters/src/process.rs:59-85 | At most three steps do not break the loop, and the capture completes if and only if all of them were taken. |
| Capture.InterruptIsFinal | crates/prog-adapters/src/process.rs:59-63 | Once a signal or the deadline is ready, nothing that becomes ready then or later changes the ending. |
| Capture.CaptureIsGenuine | crates/prog-adapters/src/process.rs:43-98 | Status and outputs reported were yielded by the child and the readers, a read output is not lost by an interruption, and the reason given was observed. |
| ProviderLines.CutToLines | crates/prog-core/src/coding_provider.rs:181-195 | Flooring to a character boundary and cutting at the last newline gives the longest prefix of whole lines within the budget. |
| ProviderLines.CutLinesArePrefix | crates/prog-core/src/coding_provider.rs:181-195 | The lines of the cut are the first lines of the stream, and all of them exactly when the stream fits. |
| ProviderLines.BoundedLines | crates/prog-core/src/coding_provider.rs:176-210 | Every line is a whole line of its stream with its true number; at most 1 MiB and 10000 lines; the flag is set if and only if a line of either stream is missing. |
| Template.PiecesKeepText | crates/prog-adapters/src/cli.rs:415-442 | Taking a template apart loses and invents no text, unmatched braces included. |
| Template.SubstituteTemplate | crates/prog-adapters/src/cli.rs:415-442 | The result renders each piece on its own, so substituted text is never scanned again and all other text is verbatim. |
| Template.ReplacedIffOutside | crates/prog-adapters/src/cli.rs:415-442 | A placeholder standing in the template is replaced if and only if no brace is open before it. |
| Template.OpenBraceHidesPlaceholder | crates/prog-adapters/src/cli.rs:415-442 | A template in which a placeholder stands and is not replaced. |
| Template.SlotStands | crates/prog-adapters/src/cli.rs:415-442 | Whatever is replaced stands in the template as a placeholder of that name. |
| Template.CollectPlaceholders | crates/prog-adapters/src/cli.rs:399-413 | The loop adds exactly the names of the placeholders substitution replaces. |
| Template.CollectedAreReplaced | crates/prog-adapters/src/cli.rs:390-413 | A name is asked for exactly when a placeholder of that name stands outside braces. |
| Template.ArgConstraintsFor | crates/prog-adapters/src/cli.rs:333-388 | A malformed schema is refused, and otherwise the required, allowed and open sets are those of templates and schema. |
| Template.ValidateArgs | crates/prog-adapters/src/cli.rs:274-319 | Arguments are accepted exactly when none is missing and none unknown, and the refusal names exactly those. |
| Template.PrepareCall | crates/prog-adapters/src/cli.rs:137-149 | Accepted arguments render every template exactly when the named ones are scalars; only a null or a container can fail. |
| Template.ReadBounded | crates/prog-adapters/src/cli.rs:477-503 | What is kept is the head of the stream within the cap, and truncation is reported exactly when something was dropped. |
| CacheScope.CacheScopeOf | crates/prog-adapters/src/execution_context.rs:46-56 | The hash is fed the version, the directory, the count and the entries, each part after its length. |
| CacheScope.PartIsSelfDelimiting | crates/prog-adapters/src/execution_context.rs:68-71 | A length-prefixed part below 2^64 can be told from whatever follows it. |
| CacheScope.StreamInjective | crates/prog-adapters/src/execution_context.rs:46-71 | Equal streams come from equal contexts. |
| CacheScope.SameStreamSameContext | crates/prog-adapters/src/execution_context.rs:36-56 | Two processes feed equal streams if and only if they have the same directory and the same environment, in whatever order its variables were set. |

## Left out

- Network and process I/O, spawning and signals themselves, MCP sessions, command dispatch, harness installation, schema publishing.
- The keyword classifiers, goal scoring, fingerprints, key hashing, SHA-256, the regex engine, float and timestamp reading and printing: parameters.
- Redaction, the store's own errors, cursors, sessions, and the workspace probe: parameters or total maps.
- Which payloads a quota or a purge selects, and when an entry expires: any choice is allowed in a run. That a SHA-256 names one payload and a UUID one record is assumed of a run.
- Findings.SignalCollector.CollectGenericSignals: spans, previews, identity values and the workspace root of a candidate are not modelled; a candidate keeps the node, its path, its line and its signal.
- RunSignals.CollectRunSignals: the signal and confidence read off a failure section are a parameter; the section's line range and labels are not modelled.
- Obligation.EvaluateObligation: the reason texts attached to an evaluation are not modelled, and the derivation of findings from a stored payload is a parameter there, tied to the collector and the ranking in the recording theorems.
- Ranking.RankingIgnoresOrder: of candidate lists in any order the line and value kept between equals are not claimed; for reordered payloads they are, in `Reordering.FindingsIgnoreMemberOrder`.
- Delta.CompareObservationsWithTests: the prose of assessment reasons is modelled by constructors, and the workspace comparison text is not modelled.
- Accounting.RenderAccountedJson: when a numeric ratio is displayed its printed width is not monotone in the size, so only soundness is claimed there, not convergence.
- Accounting.RenderBudgetedJson: the compact view is a parameter; only the size and the refusal are claimed for a compact response, which carries no accounting.
- LensScan.ScanRule: the value predicate of a rule, with its own visit budget, is a parameter.
- Search.SearchPayload: the option checks that precede the traversal, snippet windows and previews are not modelled; matcher, kind filter and semantic map are one parameter.
- Capture.CaptureProcess: the immediate child's own kill and reaping inside the runtime are not modelled, and the grace periods are choices between finishing in time and not.
- Template.ValidateArgs: the wording and order of names in the refusal are not modelled; numbers print through a parameter.
- CacheScope.CacheScopeOf: resolving the working directory against the caller is not modelled.
- `bound_normalized_output`, the pytest and Rust normalizers, lens manifest validation, `select_segments`, `window_chars`, `policy.rs`, importers and OpenAPI parsing: branch lists that would add easier members only.
