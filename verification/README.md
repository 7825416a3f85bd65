# Cognitive ledger: a verified model

The ledger keeps RDF datasets as a history of commits, merges branches, projects accepted states into a triple
store, and identifies every commit, request and validation by canonical bytes. This project models the parts
where those promises are hardest to keep and proves them for every input, every run or every reachable state.
`dafny verify dfyconfig.toml` checks all of it.

**The projector protocol** (`Projection`, `Projector`, `ProjectorSafety`, `ProjectorTheorems`,
`ProjectorOrigins`, `ProjectorProgress`, `ProjectorStreams`, `ProjectorAdvance`, `ProjectorRebuild`,
`ProjectorExample`, `RegressionExample`). Workers lease a stream, observe the marker of a target graph, decide,
check the lease again, send a compare-and-swap write or fence, read the marker back and acknowledge. The model
is a step relation over the database rows, the targets, the workers' claims and the requests on the wire. Leases
expire, workers stop anywhere, requests land arbitrarily late or never. The invariant is kept by every step;
from it follow the theorems over whole runs: a landed request installs a marker the graph never had, an
acknowledged write is still there, recorded progress was shown by the target and is kept until a rebuild, a
marker installed by a projector is never put back to an older version, another stream's marker is never
overwritten automatically, a lease is exclusive until it runs out, a disable once asked for stands until the
stream is enabled again, a fenced disable is final. Nor is the protocol safe by standing still: from every
reachable state due work can be projected and a disable finished.

**Histories and merges** (`Dag`, `CommonAncestors`, `Walk`, `MergeBase`, `ThreeWay`, `MergeEngine`, `History`,
`Previews`, `Generator`). The colouring depth-first search with its prefetch cache and visit limit answers
reachability exactly, names the damage, or was ended by the deadline or the provider; the marking loop finds
exactly the maximal common ancestors; the closed set formula for a three-way merge, the product's slot loop and
the slot-by-slot rule agree on packed statements; the workload generator's records, memoised ancestor sets and
merge expectations are true on every state it can reach; folding the patches of a parent-0 chain gives the
recorded state.

**Canonical bytes** (`Wire`, `Layout`, `Text`, `Unicode`, `CommitV2`, `AnyCommit`, `RequestIdentity`,
`RequestEncoder`, `Validation`, `StateBytes`, `Offsets`, `PartItems`, `CommitLayout`, `RequestLayout`,
`ValidationLayout`). Commit envelopes, mutation requests of eleven shapes, validation contexts, environments and
records, and dataset states share bytes exactly when they mean the same thing. The strict commit decoder and the
encoder invert each other. Beside each encoder stands its documented layout, described by offsets and
independently of the encoder, and the encoder writes those bytes and no others.

**The BEAR-B extraction** (`Lineage`, `Chunking`, `BearWorkload`, `BearFacts`, `Artifact`, `ArtifactFormat`),
**the signing-key cache** (`KeyCache`) and **the tar scanner** (`Tar`, `Ustar`, following the ustar Interchange
Format of the `pax` utility in IEEE Std 1003.1).

## What turned out otherwise

Five properties one might expect do not hold of the code as it stands. Each has an exact condition or a tight
bound, and a concrete case.

- Disabling a stream *without* a fence shuts its claims out exactly when none of them has an authorised or
  sent request naming the current marker (`UnfencedDisableIsFinalExactlyWhenNonePoised`, with a run in
  `UnfencedDisableCanLeaveAClaimPoised`).
- A marker that was in the target before any projector of this database, such as one restored from a backup,
  can be replaced by an older version although it names the ledger's own commit, but only by an operator rebuild
  planned while the ledger was behind it (`LandedRegression`). Such a rebuild can come to do so if and only if
  the marker's version exceeds the ledger's head when the rebuild is planned
  (`ForcedRebuildCanRegressExactlyWhenBehindTheMarker`, with the run `ForcedRebuildReplacesALaterMarker`). The
  decision table by itself has one row that would do the same, because it compares counts before versions
  (`RegressesExactlyOnEditedNewerGraph`); no run of the projector reaches that row (`TableNeverRegresses`). A
  marker that a projector of this database installed is never replaced by an older version of its stream
  (`InstalledMarkerIsNeverRegressed`).
- Key fetches *begin* the minimum interval apart only up to the delay between reading the clock and beginning
  (`FetchesAreSpaced`, `ADelayedFetchIsNotSpaced`); the recorded attempts are always that far apart.
- A rendered artifact parses back exactly when no statement ends in a carriage return, because line splitting
  drops one (`RoundTripsExactlyWithoutTrailingCr`, `ATrailingCrIsLost`). This is a fact of the two functions over
  the type they accept: every statement that the extraction itself produces ends in ` .`, so its own artifacts
  parse back.
- The version labels of a BEAR-B workload are one per source version exactly when no transition is empty, and a
  label is that of the version at its place exactly when no transition up to there is
  (`BoundariesAreTheVersions`, `LabelIsItsVersionExactly`). After an empty one the history facts name the wrong
  versions or a label that does not exist (`AShiftedFactIsFalse`, `AMissingLabelFails`).

Where comments and code differ the code is followed: acknowledging, failing, releasing and finishing a disable
compare the owner and the epoch of a claim but not the lease's expiry, although the comments speak of a live
lease. The theorems hold of that weaker check.

## Assumptions

Clocks, database time, request delays, which windows a parent provider returns and which of its calls fail, the
per-byte costs of a conflict report and the order in which a map yields its keys are parameters or free choices
of a step. There is one projection target, so a stream is a graph and a branch, and a cognitive graph belongs to
at most one enabled stream. Only the main branch is projected; an accepted change of it writes its audit entry
and its outbox event in one transaction, and the ref moves that write neither are refused once the graph is
active, hence on every graph with a stream. Only projectors write the target once streams exist. A write id
stands for its claim and a counter: the digest that encodes them is taken as injective, and other digests are
opaque values.

## Model

| member | source | states |
|---|---|---|
| `Projection.RegressesExactlyOnEditedNewerGraph` | crates/ledger-projection/src/plan.rs:61-132 | of the table alone: a decision replaces a newer genuine marker in exactly one row, where the graph's count no longer matches that marker |
| `Projection.ConditionalWriteFollowsAPredecessor` | crates/ledger-projection/src/plan.rs:61-140 | a conditional write is decided only over an untouched empty graph or a genuine, unedited, older marker |
| `Projection.AcknowledgesExactlyGenuineState` | crates/ledger-projection/src/plan.rs:61-132 | a step acknowledges without writing exactly when the target holds a genuine unedited state at or beyond the work item, and then records what the marker says |
| `Projection.LeavesOthersAndAheadAlone` | crates/ledger-projection/src/plan.rs:73-111 | the table leaves the target to an operator exactly when it holds another stream's marker, a conflict, or a version beyond the ledger's head |
| `Projection.RebuildsExactlyWhatIsDamaged` | crates/ledger-projection/src/plan.rs:61-132 | each reason to rebuild is given exactly when the target is damaged in that way |
| `ProjectorSafety.NextKeeps` | apps/ledger-projector/src/lib.rs:331-574 | every step of every worker, of the database and of the wire keeps the protocol invariant |
| `ProjectorSafety.ApplyingIsFresh` | apps/ledger-projector/src/lib.rs:165-180 | a request that applies carries a write id its graph never showed |
| `ProjectorSafety.EnableKeeps` | crates/ledger-store/src/postgres_projection.rs:207-334 | enabling, which refuses a ref whose head has no outbox event, keeps one enabled stream per graph and the rest of the invariant |
| `ProjectorSafety.ClaimKeeps` | crates/ledger-store/src/postgres_projection.rs:404-509 | a claim starts a new epoch only over an expired or free lease, and keeps the invariant |
| `ProjectorSafety.LandKeeps` | crates/ledger-projection-fuseki/src/sparql.rs:80-194 | a write or fence landing at any time under its compare-and-swap precondition keeps the invariant |
| `ProjectorTheorems.RunHolds` | apps/ledger-projector/src/lib.rs:331-574 | the invariant holds in every state of every run |
| `ProjectorTheorems.LandingInstallsAFreshMarker` | apps/ledger-projector/src/lib.rs:416-426 | a landing that changes anything finds the marker exactly as observed with nothing landed since, and installs terms the graph never had before in the run: no ABA |
| `ProjectorTheorems.ConditionalUpdateRaisesTheVersion` | crates/ledger-projection-fuseki/src/sparql.rs:80-164 | the update's own guard: a conditional write applies only where every version on the subject is lower than its own |
| `ProjectorTheorems.AcknowledgedWriteIsStillThere` | apps/ledger-projector/src/lib.rs:406-518 | when a writing claim's acknowledgement commits, the target still holds exactly the terms it wrote and read back, over at most as many triples as the state has and none only if it has none, and the row records them |
| `ProjectorTheorems.FencedOffNeverLands` | apps/ledger-projector/src/lib.rs:542-574 | from a fenced-off state no continuation lets a request of that claim or an earlier one take effect |
| `ProjectorTheorems.FencedDisableIsFinal` | apps/ledger-projector/src/lib.rs:542-574 | once a fence was read back and the disable commits, no write planned under that or any earlier claim of the stream ever takes effect |
| `ProjectorOrigins.LandOrigins` | crates/ledger-projection-fuseki/src/sparql.rs:80-194 | a landing keeps where marker values come from: every value is the graph's first body or names a commit its ref accepted, over the count it states, and only a rebuild takes a shown version back |
| `ProjectorOrigins.InheritedStays` | crates/ledger-projection-fuseki/src/sparql.rs:165-194 | whether a value was installed by a write, or inherited through fences, never changes |
| `ProjectorProgress.NextGrounds` | apps/ledger-projector/src/lib.rs:331-518 | every step keeps every plan, request and recorded progress grounded in the ledger and in what the target showed |
| `ProjectorProgress.TablePlanIsSound` | apps/ledger-projector/src/lib.rs:362-384 | a plan by the decision table never puts an older version over a marker that names the ledger's own commit, installed or inherited |
| `ProjectorProgress.ForcedPlanIsSound` | apps/ledger-projector/src/lib.rs:340-361 | an operator rebuild is planned over a later marker of the ledger's own only while the ledger is behind it, and never over an installed one |
| `ProjectorProgress.RecordedProgressIsKept` | apps/ledger-projector/src/lib.rs:495-518 | in every state of every run, recorded progress was read from a marker the target showed, and unless a rebuild landed since, the target's marker is that stream's at that version or later |
| `ProjectorStreams.StatusMoves` | crates/ledger-store/src/postgres_projection.rs:207-400 | a stream changes its status only by the listed moves, each step leaving it where it should; disabling ends only by enabling again, by a finished fence or by the unfenced escape hatch |
| `ProjectorStreams.DisableStands` | crates/ledger-store/src/postgres_projection.rs:334-400 | over every run: once a disable is asked for and until the stream is enabled again it stays disabling or disabled, and every claim taken meanwhile is a worker's that only fences |
| `ProjectorStreams.NothingIsProjectedAfterADisable` | apps/ledger-projector/src/lib.rs:536-574 | no claim taken after a disable sends a write until the stream is enabled again |
| `ProjectorStreams.AuthorisedWithinTheLease` | crates/ledger-store/src/postgres_projection.rs:714-727 | a write id is minted only before the lease runs out, counted from the moment the claim was taken |
| `ProjectorStreams.LeaseIsExclusive` | crates/ledger-store/src/postgres_projection.rs:404-509 | until its lease runs out a claim keeps it and no other claim of the stream has one, unless the claim gives it back or the stream is disabled unfenced |
| `ProjectorStreams.RecordedProgressAdvances` | crates/ledger-store/src/postgres_projection.rs:614-662 | recorded progress never goes back and always names a commit its ref accepted |
| `ProjectorAdvance.DueWorkCanBeProjected` | apps/ledger-projector/src/lib.rs:331-518 | from every reachable state, an active stream with an event beyond its progress and no running lease has a continuation that records its newest event, unless the target is an operator's to decide |
| `ProjectorAdvance.ADisableCanBeFinished` | apps/ledger-projector/src/lib.rs:536-574 | from every reachable state, a disabling stream without a running lease has a continuation that fences the target and disables it |
| `ProjectorProgress.InstalledMarkerIsNeverRegressed` | apps/ledger-projector/src/lib.rs:340-426 | no write that takes effect, conditional, forced or automatic, puts an older version over a marker of its stream that a projector of this database installed, however stale its work item |
| `ProjectorProgress.LandedRegression` | apps/ledger-projector/src/lib.rs:340-426 | a write lands over a later marker naming the ledger's own commit only if that marker was inherited and the write is an operator rebuild planned while the ledger was behind it |
| `ProjectorProgress.TableNeverRegresses` | apps/ledger-projector/src/lib.rs:362-384 | in no run does a claim that consults the decision table stand in the row that would replace a newer genuine marker |
| `ProjectorProgress.AutomaticWriteSparesOthers` | apps/ledger-projector/src/lib.rs:362-384 | no write but an operator rebuild ever takes effect over another stream's marker or over a version the ledger had not reached when it was planned |
| `ProjectorProgress.InheritedIsRecorded` | apps/ledger-projector/src/lib.rs:362-384 | an inherited marker is the only one its graph has shown, so a reconciling claim found recorded exactly that marker's version |
| `ProjectorProgress.ClaimGrounds` | crates/ledger-store/src/postgres_projection.rs:404-509 | what a claim finds recorded was shown by the target before |
| `ProjectorProgress.FindWorkGrounds` | crates/ledger-store/src/postgres_projection.rs:515-565 | a pending claim's work item is the newest event up to the head it read and beyond what it found recorded, a reconciling claim's is the version recorded |
| `ProjectorRebuild.ForcedRebuildCanRegressExactlyWhenBehindTheMarker` | apps/ledger-projector/src/lib.rs:340-361 | a freshly planned operator rebuild has a continuation in which it replaces a later marker of the ledger's own if and only if the observed marker is its stream's and beyond the ledger's head |
| `ProjectorRebuild.PlannedCanLand` | apps/ledger-projector/src/lib.rs:416-426 | a planned claim that holds its lease over the marker it observed has a continuation in which its write lands |
| `RegressionExample.ForcedRebuildReplacesALaterMarker` | apps/ledger-projector/src/lib.rs:340-361 | a run in which an operator rebuild, planned before the ledger accepted the marker's commit, replaces version 2 by version 1 |
| `ProjectorProgress.PoisedCanLand` | crates/ledger-store/src/postgres_projection.rs:714-727 | a claim with an authorised or sent request naming the current marker has a continuation in which it lands |
| `ProjectorProgress.UnfencedDisableIsFinalExactlyWhenNonePoised` | crates/ledger-store/src/postgres_projection.rs:360-373 | an unfenced disable is final if and only if no claim of the stream is poised |
| `ProjectorExample.UnfencedDisableCanLeaveAClaimPoised` | crates/ledger-store/src/postgres_projection.rs:360-373 | a reachable state in which an unfenced disable leaves a sent write able to land |
| `Walk.Walk.Absorb` | crates/ledger-dag/src/lib.rs:213-256 | a retrieved window answers for its anchor and everything kept from it agrees with the parent table |
| `Walk.Walk.Ask` | crates/ledger-dag/src/lib.rs:223-236 | the window asked for is at least one commit and the least of the remaining budget, what is wanted and the ramp, which grows fourfold; it fails exactly when the call does |
| `Walk.Walk.Fetch` | crates/ledger-dag/src/lib.rs:213-256 | an answered call in time answers for the anchor and keeps the cache true; it is late or broken exactly when the clock or the call was |
| `Walk.Walk.Load` | crates/ledger-dag/src/lib.rs:213-256 | loading a commit, cached or fetched, is over the limit, late, broken, the table's parents, or unknown: exactly one, for the right reason |
| `Walk.Walk.Enter` | crates/ledger-dag/src/lib.rs:264-311 | entering a new commit colours it grey and continues, or stops with an outcome that is true of the table, the clock or the provider |
| `Walk.Walk.Follow` | crates/ledger-dag/src/lib.rs:264-311 | following the next parent keeps the search invariant and shrinks it, or ends truthfully; a grey parent closes a cycle |
| `Walk.Walk.Finish` | crates/ledger-dag/src/lib.rs:264-311 | a commit whose parents are all finished is finished |
| `Walk.Walk.Dfs` | crates/ledger-dag/src/lib.rs:264-311 | the search's outcome is true of the table; it ends on the deadline exactly when a reading of the clock was late and on the provider exactly when a call failed; a complete one entered exactly the reachable commits, each once, in preorder, with their parents |
| `Walk.CompletesExactlyWhenSoundAndBounded` | crates/ledger-dag/src/lib.rs:258-311 | a full walk succeeds exactly when it is not interrupted, every reachable commit is known, none lies on a cycle, and they are within the limit |
| `Walk.SearchAnswersReachability` | crates/ledger-dag/src/lib.rs:313-329 | on a sound bounded history an uninterrupted search answers hit exactly when its goal is reachable |
| `MergeBase.IsAncestor` | crates/ledger-dag/src/lib.rs:313-329 | an answer is reachability; a failure names a damaged or oversized history, a passed deadline or a failed call; a sound bounded one fails only by an interruption |
| `MergeBase.Ancestry` | crates/ledger-dag/src/lib.rs:419-432 | returns the reachable commits with their parents, only on a sound bounded history, and there always unless interrupted |
| `MergeBase.MarkAll` | crates/ledger-dag/src/lib.rs:452-461 | popping and marking ends with everything below a common ancestor marked and nothing else |
| `MergeBase.BestCommonAncestors` | crates/ledger-dag/src/lib.rs:447-468 | what is left unmarked is exactly the maximal common ancestors |
| `MergeBase.BestIsBase` | crates/ledger-dag/src/lib.rs:470-476 | none, one or several best common ancestors mean unrelated histories, the one best base with every common ancestor below it, or exactly those candidates |
| `MergeBase.Analyze` | crates/ledger-dag/src/lib.rs:533-576 | the relation, the base, which is the only best common ancestor or all of several, and the ahead and behind counts are true of the histories; an answer comes only when both are sound and bounded, and then always unless a walk is interrupted |
| `CommonAncestors.BestAreIncomparable` | crates/ledger-dag/src/lib.rs:444-468 | no best common ancestor reaches another |
| `CommonAncestors.EveryCommonIsBelowABest` | crates/ledger-dag/src/lib.rs:444-468 | every common ancestor is reachable from a best one |
| `CommonAncestors.ContainedHeadIsTheBase` | crates/ledger-dag/src/lib.rs:515-520 | when one head contains the other, the contained head is the only best common ancestor, either way round |
| `CommonAncestors.BestSymmetric` | crates/ledger-dag/src/lib.rs:444-468 | exchanging the heads changes no base |
| `ThreeWay.PackRoundTrip` | apps/ledger-bench/src/synthetic.rs:171-190 | unpacking a packed statement gives its fields back |
| `ThreeWay.UnpackRoundTrip` | apps/ledger-bench/src/synthetic.rs:171-190 | every 64-bit word is the packing of its fields |
| `ThreeWay.SlotNamesTheTriple` | apps/ledger-bench/src/synthetic.rs:176-190 | two statements share the shifted slot exactly when they share graph, subject and predicate |
| `ThreeWay.ConflictSlotsAreAll` | apps/ledger-bench/src/synthetic.rs:752-775 | the slots found over the three states' keys are all slots both sides changed differently |
| `ThreeWay.OracleMerge` | apps/ledger-bench/src/synthetic.rs:776-804 | the closed formula plus the loop over designed slots computes the slot-by-slot three-way merge |
| `ThreeWay.FormulaIsTheRule` | apps/ledger-bench/src/synthetic.rs:1352-1371 | outside conflicts the set formula is the slot rule, inside them the strategy's choice is, statement by statement |
| `ThreeWay.SlotOfTheMerge` | crates/ledger-merge/src/lib.rs:330-346 | in every slot the side that changed wins, alike changes stand, and a conflict is resolved to the target's statements, the source's, both or none, as the strategy says |
| `ThreeWay.UnionJoinsBothSides` | apps/ledger-bench/src/synthetic.rs:791-797 | union is take-target joined with take-source |
| `ThreeWay.MergeIsSymmetric` | apps/ledger-bench/src/synthetic.rs:752-804 | exchanging the sides exchanges take-target and take-source and nothing else |
| `ThreeWay.StrategyMattersOnlyOnConflicts` | apps/ledger-bench/src/synthetic.rs:776-804 | without conflicts every strategy gives the formula |
| `ThreeWay.UnchangedSideYields` | apps/ledger-bench/src/synthetic.rs:752-810 | a side that did not change takes the other side's state without conflict |
| `MergeEngine.Reporter.Charge` | crates/ledger-merge/src/lib.rs:226-233 | the budget pays in full or is left alone and marked exhausted |
| `MergeEngine.Reporter.ListSide` | crates/ledger-merge/src/lib.rs:263-276 | a listed side is a prefix within its cap, charged for what it lists, marked short exactly when it is; whole if it fits |
| `MergeEngine.Reporter.Place` | crates/ledger-merge/src/lib.rs:235-261 | a conflict is appended whole if it fits; budget, caps and flags stay honest |
| `MergeEngine.Reporter.Offer` | crates/ledger-merge/src/lib.rs:235-261 | while everything offered fits every limit, the report lists everything whole |
| `MergeEngine.CompleteIsWhole` | crates/ledger-merge/src/lib.rs:348-352 | a report leaves nothing out exactly when it lists every conflict whole, and then everything fits |
| `MergeEngine.OffersShowTheConflicts` | crates/ledger-merge/src/lib.rs:235-261 | one conflict is offered for each key in conflict, in key order, with the statements of the base, the target and the source in their places |
| `MergeEngine.ThreeWayReported` | crates/ledger-merge/src/lib.rs:299-356 | the slot loop computes the same merge as the oracle and counts every conflict whatever the limits; the report is a prefix within them, and truncated exactly when something does not fit |
| `History.RecordKeeps` | apps/ledger-bench/src/synthetic.rs:382-414 | recording a commit on known parents keeps the history rooted and its depth, operation total and state entries true |
| `History.RootKeeps` | apps/ledger-bench/src/synthetic.rs:442-492 | the first bulk commit starts a true history |
| `History.AllDescendFromRoot` | apps/ledger-bench/src/synthetic.rs:635-667 | every recorded commit reaches the first one |
| `History.HistoriesAreRelated` | apps/ledger-bench/src/synthetic.rs:718-745 | any two recorded commits have a best common ancestor |
| `History.OldReachIsStable` | apps/ledger-bench/src/synthetic.rs:656-667 | a new commit changes nothing below the old ones |
| `History.Change` | apps/ledger-bench/src/synthetic.rs:887-893 | the integration patch turns the target's state into the merged one, and its size is that of the symmetric difference |
| `History.FirstParentChain` | apps/ledger-bench/src/workload.rs:219-228 | the walk down parent 0 terminates and lists the chain from the head to the root |
| `History.ReplayGivesTheState` | apps/ledger-bench/src/synthetic.rs:382-414 | folding a parent-0 chain's patches gives the recorded state; depth is the chain's length less one and the operation total the sum of patch sizes |
| `History.FoldCpu` | apps/ledger-bench/src/recon.rs:722-741 | the nested loops apply every stored operation in order, root first |
| `History.OrderOfOperationsIsIrrelevant` | apps/ledger-bench/src/recon.rs:722-741 | the stored operations of a patch have the patch's effect in whatever order they are stored |
| `History.FoldGivesTheState` | apps/ledger-bench/src/recon.rs:722-741 | folding the stored operations of a chain from the root up gives the recorded state |
| `Previews.SecondPreviewIsContained` | apps/ledger-bench/src/synthetic.rs:711-716 | on top of an integration commit the same source is already contained, with nothing ahead |
| `Previews.ReversePreviewFastForwards` | apps/ledger-bench/src/synthetic.rs:717-810 | the reverse preview has the old source head as base, no conflict and the integration state as result; no change exactly when the states are equal |
| `Generator.Gen.constructor` | apps/ledger-bench/src/synthetic.rs:442-492 | the bulk load, cut into as few commits of at most 5000 added statements as possible, ends in one head holding every statement on true books |
| `Generator.Gen.Record` | apps/ledger-bench/src/synthetic.rs:382-414 | adds one commit's parents, entry and patch, retains it if planned, and keeps the books true |
| `Generator.Gen.Commit` | apps/ledger-bench/src/synthetic.rs:494-530 | commits exactly the patches that fit the head, under a label never used, and changes nothing otherwise |
| `Generator.Gen.Branch` | apps/ledger-bench/src/synthetic.rs:635-654 | branches exactly from a retained ancestor of the source's head |
| `Generator.Gen.AncestorsOf` | apps/ledger-bench/src/synthetic.rs:656-667 | the memoised recursion returns exactly the reachable commits and changes only the memo |
| `Generator.Gen.IsDominated` | apps/ledger-bench/src/synthetic.rs:723-727 | finds exactly whether another common ancestor reaches this one |
| `Generator.Gen.BestCommon` | apps/ledger-bench/src/synthetic.rs:718-731 | the quadratic filter gives exactly the best common ancestors, and never none |
| `Generator.Gen.ChooseBase` | apps/ledger-bench/src/synthetic.rs:717-745 | the target's head on a fast-forward, else the unique or the explicit best one, several, or a refused explicit base |
| `Generator.Gen.Expect` | apps/ledger-bench/src/synthetic.rs:683-829 | the classification, base, counts, conflicts and merged state of a preview, and its errors, are those the histories and states determine; what needs no merge carries no base, no conflict and no result |
| `Generator.Gen.Merge` | apps/ledger-bench/src/synthetic.rs:833-894 | previews are expectations over the opened state; an applied request integrates exactly its merged state; it fails only when a preview is refused or there is nothing to apply, and then changes no book |
| `Generator.Gen.Integrate` | apps/ledger-bench/src/synthetic.rs:887-893 | the integration commit has both heads as parents and becomes the target's head, on true books |
| `Generator.MemoStays` | apps/ledger-bench/src/synthetic.rs:656-667 | recording a commit leaves every memoised ancestor set equal to reachability |
| `Generator.DominatedByAnother` | apps/ledger-bench/src/synthetic.rs:723-730 | being reached by another common ancestor is being a proper ancestor of one |
| `Generator.HeadsAreRelated` | apps/ledger-bench/src/synthetic.rs:731-731 | on every state the generator can reach, two heads have a best common ancestor |
| `Generator.HeadReplays` | apps/ledger-bench/src/synthetic.rs:494-530 | on every such state, replaying a head's parent-0 chain gives the head's state, its depth and its operation total |
| `Generator.AppliedMergeSettles` | apps/ledger-bench/src/synthetic.rs:833-894 | after any applied merge the same preview is already contained, and the reverse one fast-forwards to the integration state or is no change exactly when the states are equal |
| `Wire.SortUniqueIsTheSet` | crates/ledger-core/src/commit_v2.rs:106-111 | sorting and removing duplicates forgets exactly order and multiplicity |
| `Wire.LessIsLexicographic` | crates/ledger-core/src/commit_v2.rs:106-111 | the order of sets is bytewise: decided at the first difference, a proper prefix first |
| `Wire.FieldCancels` | crates/ledger-api/src/request_identity.rs:175-182 | length-prefixed fields followed by anything are equal only if field and rest are |
| `Layout.PartsCancel` | crates/ledger-api/src/request_identity.rs:175-195 | lists of parts of one layout, counted lists and tagged groups included, are self-delimiting |
| `Layout.EvidenceBytes` | crates/ledger-api/src/request_identity.rs:235-245 | the sort, dedup, count and loop write the encoding of the evidence set |
| `CommitV2.CanonicalBytes` | crates/ledger-core/src/commit_v2.rs:113-147 | encodes exactly the valid commits, to their canonical layout |
| `CommitV2.ReadField` | crates/ledger-core/src/lib.rs:363-385 | what is read is UTF-8 and the input is its field followed by the rest |
| `CommitV2.ReadOptional` | crates/ledger-core/src/commit_v2.rs:354-370 | a present optional is never empty and the input is its encoding followed by the rest |
| `CommitV2.ReadRefs` | crates/ledger-core/src/commit_v2.rs:157-224 | the counted loops accept exactly lists of accepted, for evidence strictly ascending, fields, and find whatever list the input encodes |
| `CommitV2.ReadActor` | crates/ledger-core/src/commit_v2.rs:157-224 | the actor section is read exactly, unknown principal types refused |
| `CommitV2.ReadTimes` | crates/ledger-core/src/commit_v2.rs:157-224 | only canonical timestamps are read |
| `CommitV2.ReadEnd` | crates/ledger-core/src/commit_v2.rs:157-224 | the last section is read exactly, nothing may follow |
| `CommitV2.ReadSections` | crates/ledger-core/src/commit_v2.rs:157-224 | the sections read in order re-encode to the input when they make a valid commit, and those of a valid commit are found |
| `CommitV2.FromCanonicalBytes` | crates/ledger-core/src/commit_v2.rs:157-224 | accepts exactly the encodings of valid commits; the result is valid, has its evidence sorted and unique, and re-encodes to the input |
| `CommitV2.DecodesToCanonical` | crates/ledger-core/src/commit_v2.rs:157-224 | what is decoded from a valid commit's encoding is that commit with its evidence sorted and unique |
| `CommitV2.SameBytesExactlyWhenSameCommit` | crates/ledger-core/src/commit_v2.rs:74-147 | two valid commits share bytes exactly when all fields agree, evidence as a set |
| `CommitLayout.EncodesToTheEnvelope` | crates/ledger-core/src/commit_v2.rs:3-21 | for every valid commit, the encoding is the documented envelope and nothing else is: header, field order, big-endian lengths and counts, option tags, type byte 0, 1 or 2, evidence in bytewise order |
| `CommitLayout.DecodedIsLaidOut` | crates/ledger-core/src/commit_v2.rs:157-224 | what is decoded is laid out in the input that way |
| `CommitLayout.EncodesToTheFirstEnvelope` | crates/ledger-core/src/lib.rs:273-296 | the same of the bootstrap envelope |
| `AnyCommit.ReadV1` | crates/ledger-core/src/lib.rs:297-336 | the v1 decoder returns what re-encodes to the input, and finds the commit of every v1 encoding |
| `AnyCommit.FromAnyBytes` | crates/ledger-core/src/commit_v2.rs:272-288 | the dual read accepts exactly the encodings of valid commits of either version and reads each as its own |
| `AnyCommit.HeadersExclude` | crates/ledger-core/src/commit_v2.rs:272-288 | no input starts with both headers |
| `AnyCommit.SameBytesSameCommit` | crates/ledger-core/src/commit_v2.rs:272-288 | a byte string encodes commits of one version only, and one commit up to the evidence set |
| `Text.DigitsRoundTrip` | crates/ledger-api/src/request_identity.rs:413-413 | decimal digits determine the number |
| `Text.DigitsOfExactly` | crates/ledger-api/src/request_identity.rs:413-413 | the digits of a number are its only decimal numeral without a leading zero |
| `Unicode.Utf8IsScalarValues` | crates/ledger-core/src/lib.rs:363-385 | the byte test for UTF-8 accepts exactly the encodings of Unicode scalar values |
| `Unicode.ControlIsAScalar` | crates/ledger-core/src/identity.rs:22-50 | the byte test for control characters finds exactly a scalar value that is one |
| `Unicode.CanonicalTimesAreRealTimes` | crates/ledger-core/src/temporal.rs:9-23 | the canonical timestamps are exactly the 27-byte renderings of real times, each of one time |
| `RequestIdentity.HeadersAreDisjoint` | crates/ledger-api/src/request_identity.rs:78-81 | whatever follows, equal bytes have equal headers |
| `RequestIdentity.PartsAreTheNormalRequest` | crates/ledger-api/src/request_identity.rs:213-428 | the parts of a request are its normal form: evidence as a set, an empty optional absent |
| `RequestIdentity.SameBytesExactlyWhenSameRequest` | crates/ledger-api/src/request_identity.rs:175-430 | requests of any of the eleven shapes and four header domains share bytes exactly when they are the same shape with the same normal form |
| `RequestLayout.EncodesAsDocumented` | crates/ledger-api/src/request_identity.rs:11-76 | for each of the eleven shapes, the canonical bytes are the documented header, operation and fields and nothing else is |
| `RequestEncoder.Buffer.PushField` | crates/ledger-api/src/request_identity.rs:175-182 | pushing a field extends the buffer by that part of the layout |
| `RequestEncoder.Buffer.PushOptional` | crates/ledger-api/src/request_identity.rs:184-195 | an absent or empty optional is one zero byte, another is tagged |
| `RequestEncoder.Buffer.PushPair` | crates/ledger-validation-protocol/src/client.rs:99-133 | a hint pair is absent or two tagged fields |
| `RequestEncoder.Buffer.PushEvidence` | crates/ledger-api/src/request_identity.rs:235-245 | evidence is pushed as a sorted set |
| `RequestEncoder.PushShape` | crates/ledger-api/src/request_identity.rs:213-428 | for each of the eleven shapes the pushes fill the layout of that shape and nothing more |
| `RequestEncoder.Encoded` | crates/ledger-api/src/request_identity.rs:198-430 | the pushing encoder leaves the canonical bytes whose identity law is above |
| `Validation.SetCancels` | scripts/golden/validation_v1_reference.py:93-97 | a counted set of self-delimiting elements is self-delimiting and determines the set |
| `Validation.SetIsASet` | scripts/golden/validation_v1_reference.py:93-97 | order and duplication inside a counted set change no byte |
| `Validation.VirtualIsEncoding` | scripts/golden/validation_v1_reference.py:100-108 | a virtual context, with a set inside it, is itself self-delimiting |
| `Validation.SameBytesExactlyWhenSameVirtual` | scripts/golden/validation_v1_reference.py:100-108 | virtual contexts share bytes exactly when they agree, references as a set |
| `Validation.SameBytesExactlyWhenSameContext` | scripts/golden/validation_v1_reference.py:136-154 | contexts share bytes exactly when they agree up to order and duplication in the nested sets |
| `Validation.SameBytesExactlyWhenSameEnvironment` | scripts/golden/validation_v1_reference.py:157-165 | an environment's bytes determine it |
| `Validation.EnvironmentForgetsTheCandidate` | scripts/golden/validation_v1_reference.py:168-176 | contexts share an environment exactly when semantics and validator version and configuration agree, whatever the candidate |
| `Validation.SameBytesExactlyWhenSameRecord` | scripts/golden/validation_v1_reference.py:179-232 | records share bytes exactly when they agree, violations as a set |
| `Validation.EncodedContextsIdentify` | scripts/golden/validation_v1_reference.py:136-154 | of contexts the encoder does not refuse, the results are equal exactly when the contexts agree |
| `Validation.EncodedEnvironmentsIdentify` | scripts/golden/validation_v1_reference.py:157-165 | of environments the encoder does not refuse, the results are equal exactly when the environments are |
| `Validation.EncodedRecordsIdentify` | scripts/golden/validation_v1_reference.py:187-232 | of records the encoder does not refuse, the results are equal exactly when the records agree |
| `Validation.DomainsAreDisjoint` | scripts/golden/validation_v1_reference.py:136-232 | no context, environment or record shares bytes with one of another kind |
| `ValidationLayout.VirtualEncodesAsDocumented` | scripts/golden/validation_v1_reference.py:100-108 | a virtual context's bytes are the documented ones and nothing else is |
| `ValidationLayout.ContextEncodesAsDocumented` | scripts/golden/validation_v1_reference.py:136-154 | a context's bytes are the documented ones, its virtual contexts counted and in bytewise order of their own bytes, and nothing else is |
| `ValidationLayout.EnvironmentEncodesAsDocumented` | scripts/golden/validation_v1_reference.py:157-165 | an environment's bytes are the documented ones and nothing else is |
| `ValidationLayout.RecordEncodesAsDocumented` | scripts/golden/validation_v1_reference.py:187-232 | a record's bytes are the documented ones, outcome byte and counts included, and nothing else is |
| `StateBytes.SameBytesExactlyWhenSameDataset` | scripts/golden/state_v1_reference.py:22-29 | two dataset files, split at line feeds, have the same bytes exactly when they hold the same set of non-empty lines |
| `StateBytes.BodyHoldsTheDataset` | scripts/golden/state_v1_reference.py:22-29 | the bytes after the header are again a file, and it holds the same dataset |
| `StateBytes.SplitIsTheLines` | scripts/golden/state_v1_reference.py:27-29 | splitting at line feeds gives exactly the stretches between line ends |
| `StateBytes.EncodesAsDocumented` | scripts/golden/state_v1_reference.py:22-29 | the bytes of a file are the header and its non-empty lines in bytewise order, each once with its line feed, and nothing else is |
| `Lineage.CrossCheck` | apps/ledger-bench/src/bear.rs:582-632 | the anchor check and the loop pass exactly when every changeset agrees with the membership, and count the churn |
| `Lineage.StepAgreesExactly` | apps/ledger-bench/src/bear.rs:600-632 | a step passes exactly when its changeset turns one version into the next, deletes only what was there and adds, net of churn, only what was not |
| `Lineage.FoldIsTheMembership` | apps/ledger-bench/src/bear.rs:582-632 | if every check passes, folding the raw changesets, churn included, gives the membership state at every version |
| `Lineage.Window` | apps/ledger-bench/src/bear.rs:659-670 | the extracted base and differences replay to the membership state at every version of the window, deleting what is there and adding what is not |
| `Chunking.PushOp` | apps/ledger-bench/src/bear.rs:904-933 | one operation closes a full chunk or joins the open one, within both bounds |
| `Chunking.Chunks` | apps/ledger-bench/src/bear.rs:904-933 | nothing is lost or reordered, deletes come before adds, no chunk is empty, a chunk exceeds the byte bound only as a single operation, and none could have taken the next one's first operation |
| `Chunking.ChunksApplyTheTransition` | apps/ledger-bench/src/bear.rs:904-933 | applying the chunks one after another is applying the whole transition |
| `BearWorkload.ListingIsSorted` | apps/ledger-bench/src/bear.rs:904-933 | iterating an ordered set lists each member once, ascending |
| `BearWorkload.Ingest` | apps/ledger-bench/src/bear.rs:948-999 | a transition's commits are its chunks in order under part labels, the last under the version label and holding the version's state; there are none exactly when the transition is empty |
| `BearWorkload.Workload` | apps/ledger-bench/src/bear.rs:935-1000 | every commit is bounded and continues the one before, labels never repeat, boundary commits hold their source version, and boundaries are those of the non-empty transitions |
| `BearWorkload.BoundariesAreTheVersions` | apps/ledger-bench/src/bear.rs:948-999 | boundary labels are one per source version exactly when no transition is empty |
| `BearWorkload.AnEmptyTransitionShiftsTheLabels` | apps/ledger-bench/src/bear.rs:948-999 | with an empty transition a later label takes an earlier one's place |
| `BearFacts.States` | apps/ledger-bench/src/bear.rs:1028-1037 | the replayed states are those of the window's versions |
| `BearFacts.FindAgain` | apps/ledger-bench/src/bear.rs:1042-1042 | the search finds the first later version holding a deleted statement |
| `BearFacts.FoundIsTrue` | apps/ledger-bench/src/bear.rs:1038-1053 | every reappearance found was there before its step, is gone in between and back at the version found |
| `BearFacts.FoundIsComplete` | apps/ledger-bench/src/bear.rs:1038-1053 | below the cap, every deleted statement that a later version holds again is found |
| `BearFacts.Reappears` | apps/ledger-bench/src/bear.rs:1041-1053 | a deleted statement's return, if any, is written down with the labels at its places; this fails exactly when a label is missing |
| `BearFacts.StepFacts` | apps/ledger-bench/src/bear.rs:1039-1053 | the statements of one step in order: the list goes on, is full, or lacks a label |
| `BearFacts.Reappearances` | apps/ledger-bench/src/bear.rs:1038-1053 | the nested loops with their early exit write down exactly the reappearances found, up to the cap, or fail exactly when a label is missing |
| `BearFacts.HistoryFacts` | apps/ledger-bench/src/bear.rs:1028-1073 | for every window and list of labels, the facts are the reappearances found and the gained and lost statement, with the labels at their places; it fails exactly when a label is missing |
| `BearFacts.FactsAreTrueWithOneLabelPerVersion` | apps/ledger-bench/src/bear.rs:1028-1073 | on an extracted window with one label per version, no label is missing and every fact is true of the versions it names |
| `BearFacts.LabelIsItsVersionExactly` | apps/ledger-bench/src/bear.rs:948-999 | a boundary label is that of the version at its place exactly when no transition up to there is empty |
| `BearFacts.AShiftedFactIsFalse` | apps/ledger-bench/src/bear.rs:1028-1073 | after an empty transition the first fact says present at a version where the statement is gone |
| `BearFacts.AMissingLabelFails` | apps/ledger-bench/src/bear.rs:1028-1073 | with an empty transition the facts can need a label that does not exist, and fail |
| `Artifact.LinesOfUnlines` | apps/ledger-bench/src/bear.rs:796-806 | splitting printed lines gives them back less one trailing carriage return each |
| `Artifact.StripFixesExactly` | apps/ledger-bench/src/bear.rs:807-818 | losing a trailing carriage return leaves a set as it was exactly when no member has one |
| `Artifact.RenderArtifact` | apps/ledger-bench/src/bear.rs:768-794 | prints the header, the base block and one block per step |
| `Artifact.ParseArtifact` | apps/ledger-bench/src/bear.rs:796-849 | the loop over the lines answers as the block-by-block reading of them does |
| `ArtifactFormat.PrintsAsDocumented` | apps/ledger-bench/src/bear.rs:768-794 | what is printed is the header line, the base version with its count and statements, and each step's version, counts and statements, all lists in bytewise order, and nothing else is |
| `ArtifactFormat.ParsesExactly` | apps/ledger-bench/src/bear.rs:796-849 | the parser accepts exactly the lines that are well-headed counted blocks without repeated statements making a window of eleven steps, and returns that window |
| `Artifact.RoundTripsExactlyWithoutTrailingCr` | apps/ledger-bench/src/bear.rs:768-849 | for every window of statements without line feeds, header look-alikes included, parsing the print gives the window back exactly when no statement ends in a carriage return |
| `Artifact.ATrailingCrIsLost` | apps/ledger-bench/src/bear.rs:768-849 | over the type of the two functions, a window with one such statement does not come back |
| `KeyCache.NextKeeps` | crates/ledger-api/src/auth.rs:386-457 | every step of every caller keeps the cache invariant |
| `KeyCache.RunHolds` | crates/ledger-api/src/auth.rs:386-457 | the invariant holds in every state of every run |
| `KeyCache.KeysAreFresh` | crates/ledger-api/src/auth.rs:420-457 | every key handed out came from a set loaded less than the maximum age before it was read, or during that call |
| `KeyCache.ACallIsAnswered` | crates/ledger-api/src/auth.rs:386-457 | from every reachable state with a free lock, a caller on its own is answered from a fresh cache without a fetch, else from the source unless throttled, and otherwise not at all |
| `KeyCache.AttemptsAreSpaced` | crates/ledger-api/src/auth.rs:386-417 | recorded attempts are at least the minimum interval apart, failures and cancellations included, and one caller refreshes at a time |
| `KeyCache.FetchesAreSpaced` | crates/ledger-api/src/auth.rs:386-417 | fetches begin that far apart less the earlier one's delay after reading the clock |
| `KeyCache.ADelayedFetchIsNotSpaced` | crates/ledger-api/src/auth.rs:386-417 | a reachable state in which two fetches begin closer than the interval |
| `Tar.Find` | apps/ledger-bench/src/archive.rs:72-117 | reads the one entry at an offset or fails, checksum, name, size and truncation checked |
| `Tar.Visit` | apps/ledger-bench/src/archive.rs:118-143 | an entry is taken, ignored or skipped, and refused exactly when a cap or a duplicate forbids it |
| `Tar.AcceptableGrows` | apps/ledger-bench/src/archive.rs:118-143 | exactly when one more entry keeps a scan acceptable |
| `Tar.TarRegularFiles` | apps/ledger-bench/src/archive.rs:60-150 | for every byte string, succeeds exactly when entries tile it up to an all-zero block with the selected ones distinct and within the caps, and returns the selected slices and the counts of that layout |
| `Tar.LayoutIsUnique` | apps/ledger-bench/src/archive.rs:71-145 | an input has at most one layout |
| `Tar.BlocksAlign` | apps/ledger-bench/src/archive.rs:71-145 | every header of a scanned chain starts on a block boundary |
| `Tar.SlicesAscend` | apps/ledger-bench/src/archive.rs:107-145 | data slices are disjoint and ascending |
| `Tar.CountsAddUp` | apps/ledger-bench/src/archive.rs:118-143 | the report's counts add up to the headers scanned |
| `Tar.FilesAreTheSelectedSlices` | apps/ledger-bench/src/archive.rs:118-140 | a name is returned exactly when a selected regular entry has it, and its file is exactly that entry's slice of the input |
| `Ustar.HeaderReadsBack` | apps/ledger-bench/src/archive.rs:72-106 | any 512 bytes with a name, a prefix, a size and their checksum in the fields, every other byte free, read back with the full name, the size and the kind |
| `Ustar.ReadsOnlyHeaders` | apps/ledger-bench/src/archive.rs:72-106 | and nothing else is read: a block that reads as a header is one for the name, prefix, size and flag in its fields, with its own checksum |
| `Ustar.SumIsTheChecksum` | apps/ledger-bench/src/archive.rs:77-90 | the running sum is the total of all other bytes and eight spaces |
| `Ustar.OctalReadsExactly` | apps/ledger-bench/src/archive.rs:44-55 | a numeric field reads as a number exactly when it is white space, perhaps a plus sign, octal digits of that 64-bit number and white space up to a NUL, or blank for zero |
| `Ustar.WrittenIsHeader` | apps/ledger-bench/src/archive.rs:72-106 | for every name, prefix, size, flag and unread bytes there is such a header, with each field in place |
| `Ustar.WrittenIsLayout` | apps/ledger-bench/src/archive.rs:71-145 | members with such headers, any padding, a zero block and anything after it are a layout the scan recognises |
| `Ustar.ReadsBackWhatWasWritten` | apps/ledger-bench/src/archive.rs:60-150 | for every archive of such members with distinct selected names within the caps, the result is exactly the selected regular members by full name, each with its own data |

## Left out

- The projector and the key cache are step relations over values, not classes: update in place is not captured, every interleaving of the workers' and callers' steps is.
- Retry, back-off, metrics, configuration, the run loop and the probe of the projector: they choose when steps happen, which is free here.
- The SPARQL text of a write or fence: the compare-and-swap it states is modelled, its parsing by the store is not.
- Reading marker terms into a marker (`crates/ledger-projection/src/marker.rs`): a readable marker is a value, a malformed one is another.
- Walk.Walk.Dfs: an error of the provider carries no text; first-parent listing is left out.
- Generator.Gen.Expect: delta summaries and the listing of conflict keys are left out.
- MergeBase.BestCommonAncestors: returns a set; the ascending listing of ambiguous bases is not modelled.
- MergeEngine.ThreeWayReported: slots are the packed ones of the workload, their order and the listing of a slot's statements are parameters; the preview token and its digest are left out.
- Generator.Gen.Merge: random choice of statements, provenance, rendering and digests are left out; labels are values instead of strings; the generator's fields are one record so that a method's new state is one equation; a failed assertion of the source is an error result.
- History.FirstParentChain: requires a recorded head, as the source's indexing does.
- CommitV2.FromCanonicalBytes: errors carry a short text in place of the source's error kinds.
- StateBytes.SameBytesExactlyWhenSameDataset: starts from the text read; the reading's own newline translation is left out.
- CommitV2.CanonicalBytes: timestamps are modelled by their canonical form; normalising other forms is left out.
- RequestEncoder.Encoded: requires lengths that fit 32 bits, where the source panics; the operation's name is pushed once, before the shape's own fields.
- The Python encoders build their byte arrays by appending expressions without a loop; they are modelled as concatenations. The invocation layout is left out.
- BearFacts.HistoryFacts: an index out of bounds, where the source panics, is an error result.
- Artifact.RoundTripsExactlyWithoutTrailingCr: the header line is opaque, its JSON is left out.
- Lineage.CrossCheck: the normalisation of N-Quads lines and the choice of the window with the most changes are left out.
- KeyCache.KeysAreFresh: the key set is opaque; JWK filtering, JWT checks and HTTP are left out.
- Tar.TarRegularFiles: sizes are unbounded here, so the 64-bit overflow refusals cannot happen; gzip is left out.
- SHA-256, HTTP handlers, the database schema, drivers, stress and fault scripts, reports and measurement: input and output around the logic above.
