# System-of-Work Controller: a verified model

This project models the controller that schedules detached Work Runs, and proves
what it keeps over every run, crash and restart. Around it stand the planner that
feeds it, the lane breaker that may stop a lane, and two small string machines.

- **Scheduling kernel** (`Facts`, `Policy`, `Launch`, `Selection`). Normalized facts
  are reduced to at most one launch. Slots, capacity, resource exclusion and the
  priority order are stated apart from the code that computes them.
- **Run observations** (`Merge`, `MergeHistory`, `RunLists`, `Collector`). Successive
  observations of one run go through a five-branch ladder; lists of runs are shown to
  merge identity by identity, so that every law about one run's history holds of every
  run in a list.
- **Planner** (`PlanGraph`, `Coverage`, `Progress`, `Publication`, `PublishedRuns`). The
  depth-first cycle check accepts exactly the acyclic graphs; a validated plan always has
  something to launch until it is complete; publication to a tracker that may fail after
  mutating converges, over whole runs of the controller too.
- **Delivery** (`Landings`, `Delivery`, `DeliveryRuns`, `DeliveryEnds`, `Directories`). A
  validated plan over whole runs, with cycles cut and resumed anywhere, a tracker that comes
  to show what has landed, and a collector that reads every dispatch directory again in every
  cycle: each item is launched exactly once, and enough surviving cycles launch them all.
- **Journal and driver** (`Journal`, `Driver`, `DriverLaws`, `DriverRuns`,
  `DriverSafety`, `Standstill`, `StorableFacts`, `FactsDocument`, `JournalFacts`). A cycle
  is a list of durable effects: start marker, three appends, the actions, one view
  replacement. A crash cuts the list anywhere and may tear the marker or the line being
  written. The class `Driver.Controller` runs the source's control flow and is proved to
  perform exactly those effects; the theorems then quantify over every sequence of cycles,
  crashes and bootstrap recoveries, with every input of every cycle arbitrary.
- **Custody of a launch** (`Tenure`, `Exclusion`, `Custody`, `Binding`, `Claims`,
  `Freshness`, `LostSlot`). What a launched run keeps over whole runs until it is resolved,
  and the one way it loses its slot. `Tenure` is the induction over runs they share.
- **Breaker** (`Breaker`, `BreakerLaws`, `QualityTrips`, `CrashStop`). Incremental streaks and windows
  against a declarative trailing run.
- **String machines** (`GateReport`, `SqfLexer`). The bounded gate report and the SQF
  non-code blanker, the latter against an independent lexer automaton.

## What the code does not do

These places follow the code where a name, a comment or a document promises more. Each
has the exact condition or a concrete counterexample.

- `_bounded_body` exceeds its cap exactly when the kept prefix is one unbroken run of
  backticks, because the slice then has a negative bound; no comment that `select`
  returns can start that way (`GateReport.BoundedExactly`, `GateReport.MarkedBodyIsBounded`).
- A quality trip is said to be cleared only by a human. An escalated lane stays open
  through exactly the histories in which no healthy first-party reading arrives while
  the lane is named after its provider errors; the third error in a row gives it that
  name, and the third quality failure in a row takes it back
  (`QualityTrips.ClearedByHumanExactly`). `QualityTrips.QualityTripHealsFromFresh` is a
  whole history, from an untouched lane, in which a quality trip clears itself.
- Merging one typed non-result observation twice marks the run as conflicted
  (`Merge.RemergeIsIdempotent`).
- A landing is meant to be written once. A history loses it exactly when the first
  observation that conflicts or is a typed non-result is a typed non-result that names
  no landing and conflicts with nothing (`MergeHistory.LandingStandsExactly`); any landed
  run free of conflict can lose it to one published interruption
  (`MergeHistory.LandingCanBeDropped`). No merge puts another landing in its place
  (`MergeHistory.OneLandingPerRun`).
- A concluding recovery verdict alone does not release a slot for good: a later
  observation of the same dispatch revives the run unless it is a typed non-result, in
  conflict, or a published landing (`MergeHistory.ReleasedForGood`). In the collector
  this leaves exactly the runs whose recorded class is not a non-result class
  (`Collector.ConclusionIsFinal`).
- After a crash the journal loads, except in these cases: no journal was written, it is
  empty, its last line is torn, or the last cycle is confirmed and the view is not yet
  replaced (`DriverSafety.EveryRunReloads`). A first cycle already reaches the last two,
  and a planned launch that nothing resumes (`Standstill.TornLineHalts`,
  `Standstill.ConfirmedWithoutViewHalts`, `Standstill.PlannedLaunchHalts`). A world that no later cycle and no bootstrap
  recovery can change is exactly one whose start marker was cut short, whose journal does
  not load, or which holds a planned launch (`Standstill.StandstillExactly`); the very
  first cycle can leave the broken marker (`Standstill.FirstMarkerCanBreak`).
- A launch is meant to take nobody's slot. Recording one drops every run that goes by its
  run key, whatever item that run is for: a derived launch keeps every live run exactly
  when none of them has that key (`Launch.LaunchKeepsLiveExactly`). A delivery's key is
  free text and renames the run it agrees with (`MergeHistory.DeliveryRenames`), so one
  delivery under the key of the launch to come costs a live run its slot
  (`Freshness.DeliveryCanCostASlot`; `LostSlot.RunLosesSlot` is a run of three operations
  that does it). Over a whole run no launch does so while no collected
  run goes by the run key of a cycle still to come (`Freshness.LaunchesCostNoSlot`).
- `crash_stop` and the breaker under the same rule disagree exactly on completions whose
  pairs of crashes all have something unclassified between them; a returned run always
  means an open breaker (`CrashStop.DisagreementExactly`, `CrashStop.UnclassifiedSeparates`).

## Model

| member | source | states |
|---|---|---|
| DriverSafety.LaunchedAtMostOnce | tools/controller.py:134-297 | over every run with crashes anywhere, no dispatch identity is launched twice, nothing is launched that was not journaled first, and every launch recorded as applied did happen |
| DriverSafety.CycleIdsNeverRepeat | tools/controller_store.py:283-297 | two records of any reachable journal share a cycle identity exactly when one cycle wrote both |
| DriverSafety.EveryRunReloads | tools/controller_store.py:400-440 | whatever crashes left loads back as the last record's payload, identity and phase, or refuses, in exactly the listed cases; never an older state |
| DriverSafety.JournalIsReplay | tools/controller.py:134-236 | every journaled cycle is what the kernel decides from the state the cycle before it journaled and from some collected input |
| DriverSafety.JournaledLaunchFits | tools/controller_policy.py:283-285 | in any reachable journal a decision launches nothing, or one run that its own facts record as live within the work limit |
| DriverSafety.BlockedForGood | tools/controller.py:238-297 | a start marker cut short, a journal that refuses to load, or a planned launch blocks every later operation, which leaves disk and actions as they were |
| Standstill.StandstillExactly | tools/controller_store.py:239-277 | after any run, no operation at all can change the world exactly when the marker was cut short, the journal does not load, or it holds a planned launch |
| Standstill.FirstMarkerCanBreak | tools/controller_store.py:245-277 | the first cycle can leave a broken marker and no journal, and then not even the bootstrap recovery moves |
| Standstill.ConfirmedWithoutViewHalts | tools/controller_store.py:363-398 | a first cycle cut just before its view leaves three confirmed records that do not load, and no operation moves |
| Standstill.TornLineHalts | tools/controller_store.py:400-440 | a first cycle cut inside its first line leaves a torn journal, and no operation moves |
| Standstill.PlannedLaunchHalts | tools/controller.py:238-297 | a first cycle cut just after planning a launch leaves a journal that loads and is never resumed, and no operation moves |
| DriverSafety.UnblockedCompletes | tools/controller.py:275-280 | any other unfinished cycle is finished by the next run that lives long enough: exactly the missing records and the view are written, and only a plan not yet applied is performed |
| DriverSafety.InvHolds | tools/controller.py:123-132 | the journal's shape, its view, its decisions and the applied actions stay consistent through every operation |
| DriverLaws.RecoveryIsExact | tools/controller_store.py:363-440 | a consistent world loads exactly when it is not one of the unreadable cases, and then as its last record |
| DriverLaws.StaleViewRefused | tools/controller_store.py:363-398 | a view one cycle behind never answers for the journal, even if the two digests collide |
| DriverLaws.ShapedIsValid | tools/controller_store.py:1073-1108 | a journal of numbered three-phase cycles passes validation, whole or with a trailing prefix |
| DriverLaws.ExecKeeps | tools/controller_store.py:299-330 | a list of effects that are ready in turn keeps the invariant wherever a crash cuts it or tears the write |
| DriverLaws.DispatchIdsDiffer | tools/controller.py:528-552 | dispatch identities of one controller differ between cycles and between items |
| DriverRuns.DecisionIsSound | tools/controller.py:183-205 | whatever a cycle decides to journal launches nothing, or one run recorded live within the limit under the cycle's own dispatch identity |
| DriverRuns.PlannedReady | tools/controller.py:207-212 | after the planned record the actions and the two closing records may follow, given that the launch has not happened yet |
| DriverRuns.LaunchIsStillChosen | tools/controller.py:183-188 | a journaled launch is of the item the facts collected again just before also choose, still eligible there, on the snapshot the action carries |
| Selection.SnapshotDecides | tools/controller_policy.py:222-231 | fact sets with equal coordination snapshots select the same item: the snapshot leaves out nothing that selection reads |
| Custody.CollectorKeepsCustody | tools/controller_ports.py:256-327 | the controller with its own collector: while no result of the dispatch is published and no look concludes it, the run stays live in every journaled state, and no other cycle launches its Work Item, its issue, or an item that needs an exclusive resource of the item it holds; deliveries and base runs of the dispatch name no other Work Item or issue and no other launch's run key, and its holders stand under its own item and issue |
| Custody.CollectionLeavesOut | tools/controller_ports.py:256-327 | one collection over prior runs, standalone deliveries, looks and holders, under the same three restrictions, hands an unresolved launch back unresolved |
| Exclusion.UnresolvedLaunchExcludes | tools/controller.py:475-516 | once a launch is journaled, then while the runs of its dispatch that deciding cycles collect resolve nothing, name no other Work Item or issue, and go by no other launch's run key, it stays live and no other cycle launches that Work Item or issue or needs its resources |
| Exclusion.HeldDecision | tools/controller_policy.py:333-376 | under the same restrictions, a decision over facts that hold an unresolved launch keeps it live and launches nothing of its |
| Claims.CollectorKeepsBinding | tools/controller_ports.py:256-327 | the same with deliveries and base runs that claim any Work Item or issue, and any holders after the launch: it stays live under its own binding; nothing of the dispatch is read before its launch, the base collector lists it once at most, and no run of it goes by another launch's run key |
| Claims.CollectionHolds | tools/controller_ports.py:284-321 | one collection hands a held launch back under its own Work Item and issue, at most once, whatever the deliveries and holders claim |
| Binding.ClaimedLaunchExcludes | tools/controller_policy.py:439-468 | once a launch is journaled, then while each deciding cycle collects at most one run of its dispatch, unresolved and under no other launch's run key, every journaled state keeps it live under its own binding whatever that run claims, and no other cycle launches them or needs its resources |
| Tenure.LaunchIsHeld | tools/controller.py:134-236 | whatever holding a launch means: if recording launches and merging admissible collections keep it, every journaled state after the launch has it, over any run, and no other cycle launches the item, the issue, or an item that needs a held resource |
| Tenure.OtherLeavesResources | tools/controller_policy.py:837-851 | a recorded launch is of an item that needs no exclusive resource of any item matched by a live run of another dispatch |
| Driver.Controller.RunCycle | tools/controller.py:123-132 | the running controller leaves exactly the world of the specified operation, for every crash point, and reports the crash, the specified refusal, or success |
| Driver.Controller.Resume | tools/controller.py:238-297 | a planned launch is refused with nothing changed; otherwise exactly the owed effects are performed, with success unless a crash strikes |
| Driver.ExecSplit | tools/controller.py:207-212 | running a list of effects in two parts is running it in one, crashes included |
| Journal.ValidateRecordSequence | tools/controller_store.py:1073-1108 | the triple-by-triple loop finds the fault of the declarative sequence check, with the same code and record number |
| JournalFacts.JournaledFactsReload | tools/controller_store.py:299-330 | over every run, each journaled fact set decodes from its document to itself, so no live run, stamp or capacity is lost |
| JournalFacts.DecisionStorable | tools/controller_store.py:497-524 | storable observations after a storable state are never refused: what a cycle decides is what it journals |
| FactsDocument.FactsRoundTrip | tools/controller_policy.py:974-1005 | decoding the document of any facts gives those facts back exactly when each value is one the decoder accepts; otherwise it refuses and never yields other facts |
| FactsDocument.DecodedIsStorable | tools/controller_store.py:645-670 | whatever decodes is storable, so encoding it and decoding again changes nothing |
| FactsDocument.RunRoundTrip | tools/controller_store.py:746-768 | a run's document passes its check exactly when the run is storable, and reads back as the run despite omitted defaults |
| FactsDocument.ItemRoundTrip | tools/controller_policy.py:900-917 | the same for a Work Item, the omitted default seat included |
| Launch.LaunchIsSafe | tools/controller_policy.py:333-376 | recording the derived launch adds one live run, displaces none, stays within the limit, and leaves neither its item nor any item sharing an exclusive resource eligible |
| Launch.LaunchKeepsLiveExactly | tools/controller_policy.py:333-376 | a derived launch under any run key keeps every live run exactly when no live run goes by that key |
| Freshness.DeliveryCanCostASlot | tools/controller_policy.py:333-376 | a live run renamed by one agreeing delivery after the run key of the next launch is dropped by that launch, though live and unresolved |
| Freshness.RenamedRunIsDropped | tools/controller_policy.py:333-376 | for any run key: one open item, one live run of another item and one delivery under that key, and the launch leaves the live run out |
| LostSlot.RunLosesSlot | tools/controller.py:183-205 | a concrete run: x is launched, cut and resumed; the next cycle is given what the collector returns on one delivery under its own run key, and the record of its launch lacks x's run, which was live and unresolved when the launch was chosen |
| Freshness.LaunchesCostNoSlot | tools/controller.py:183-205 | over every run in which no collected run goes by the run key of a cycle still to come, every run in the snapshot a journaled launch carries is in that launch's own recorded facts |
| Launch.DerivedLaunchFitsLimit | tools/controller_policy.py:716-745 | a derived launch never takes any fact set over its limit, well-formed or not |
| Launch.LaunchAddsAtMostOne | tools/controller_policy.py:283-285 | recording any launch raises the occupied capacity by at most one |
| Launch.EligibleSortedIsEligible | tools/controller_policy.py:288-305 | the eligible list holds exactly the eligible items |
| Policy.CollectHeldResources | tools/controller_policy.py:837-851 | the accumulating loop gives the resources of every live run and debt |
| Policy.CollectNewlyReady | tools/controller_policy.py:649-662 | the accumulating loop gives the keys that became ready since the previous facts, in order |
| Policy.NewlyReadyMembers | tools/controller_policy.py:649-662 | a key is reported exactly when an item of that key was known, was not ready, and is ready now |
| Selection.SelectionIsOrderIndependent | tools/controller_policy.py:308-311 | permuting items, runs and worktree debt does not change the selected item, when each live run matches at most one item |
| Selection.NextIsStrictMinimum | tools/controller_policy.py:890-897 | the selected item is the strict minimum of the eligible ones by the priority key, and conversely |
| Selection.ReasonIsEligibleExactly | tools/controller_policy.py:768-801 | the reported reason is "eligible" for exactly the items in the eligible list |
| Selection.BeforeIsStrictTotal | tools/controller_policy.py:890-897 | the priority key is a strict total order on all keys |
| Merge.RemergeIsIdempotent | tools/controller_policy.py:411-436 | merging the same observation again changes nothing except that a typed non-result is marked as a conflict |
| Merge.MergeIsConflictedOrSingle | tools/controller_policy.py:471-521 | after a merge the run is in visible conflict or names a single SHA |
| Merge.SeveralMeansMoreThanOne | tools/controller_policy.py:570-576 | the conflict test holds exactly when the two observations name more than one SHA |
| MergeHistory.OneLandingPerRun | tools/controller_policy.py:471-521 | at most one landed SHA appears anywhere in a run's history |
| MergeHistory.LandingStandsExactly | tools/controller_policy.py:471-521 | over any history a landing is lost exactly when the first observation that conflicts or is a typed non-result is a non-conflicting typed non-result without a landing |
| MergeHistory.LandingStep | tools/controller_policy.py:471-521 | one merge keeps a landing exactly when it conflicts, the run is a typed non-result already, or the observation is no typed non-result or names a landing |
| MergeHistory.LandingCanBeDropped | tools/controller_policy.py:485-494 | some observation takes a landing away exactly when the run is free of conflict and no typed non-result, and then one published interruption does |
| MergeHistory.StampsAreKept | tools/controller_policy.py:439-468 | conflict and publication never clear, and item, issue and worktree bindings once set are never revised |
| MergeHistory.HistoryIsConflictedOrSingle | tools/controller_policy.py:471-521 | after any history the run is conflicted or carries at most one SHA |
| MergeHistory.ReleasedForGood | tools/controller_policy.py:246-271 | a run released by terminal evidence never owns a slot again under every later history exactly when it is a typed non-result, in conflict, or a published landing |
| MergeHistory.TypedNonResultIsOver | tools/controller_policy.py:246-271 | a typed non-result that is published or concluded never owns a slot again |
| MergeHistory.DeliveryCannotReleaseCapacity | tools/controller_ports.py:531-561 | no sequence of standalone delivery files releases the slot of a live unresolved run |
| MergeHistory.ResultReleasesExactly | tools/controller_ports.py:564-588 | a published result releases an unresolved run exactly when the run was a typed non-result, or the result agrees with it and is a typed non-result, concluded, or a landing that is cleared on one SHA by the run and the result together, or that falls to a complete item |
| MergeHistory.DeliveryRenames | tools/controller_policy.py:497-521 | a standalone delivery leaves an unresolved run unresolved, and renames it after itself exactly when the two agree and the run is no typed non-result |
| MergeHistory.PublishedNonResultIsFinal | tools/controller_ports.py:591-615 | a published typed non-result that agrees with the run ends it under every later history |
| MergeHistory.MergeAllSplit | tools/controller_policy.py:411-436 | merging a history in two parts is merging it in one |
| RunLists.MergeWorkRunObservations | tools/controller_policy.py:524-538 | the slot-overwriting loop computes the specified merge |
| RunLists.MergeRunsPointwise | tools/controller_policy.py:524-538 | history and observation merge identity by identity, and neither is lost where only one exists |
| RunLists.MergeRunsDistinct | tools/controller_policy.py:524-538 | merging never puts two runs of one identity side by side |
| Collector.CollectDeliveries | tools/controller_ports.py:460-488 | the overwriting and appending loop folds the observations in order |
| Collector.CollectionIsHistory | tools/controller_ports.py:460-488 | after collecting, each run, known before or first seen now, is its own history merged alone, and no other run appears |
| Collector.CollectedRun | tools/controller_ports.py:284-321 | one collection keeps every run it knew: history and base merged, then each dispatch record that names it in order, then one look; holders never touch it |
| Collector.CollectionOncePerDispatch | tools/controller_ports.py:284-321 | if the base collector lists no dispatch twice, neither does the collection, whatever else it reads |
| Collector.LooksAreOneLook | tools/controller_ports.py:490-528 | any sequence of recovery looks leaves what its one decisive verdict leaves: the first concluding one, else the last one given |
| Collector.RecoveryReleasesExactly | tools/controller_ports.py:490-528 | a look takes a slot away exactly when it concludes an unsettled run |
| Collector.ConclusionIsFinal | tools/controller_ports.py:515-527 | the conclusion is final under every later history exactly when the run had no class or a non-result class, or its identity was in conflict |
| Collector.CollectHolders | tools/controller_ports.py:300-321 | the holder loop appends one run for each holder nothing stands for, in order |
| Collector.HoldersTakeOneSlot | tools/controller_ports.py:330-351 | holders lose no run and keep live runs of one Work Item at most one per named dispatch |
| Collector.HoldersAreCounted | tools/controller_ports.py:300-321 | every holder is represented by a live run of its item or by its own dispatch |
| PlanGraph.ValidateDependencies | tools/controller_planning.py:606-653 | the first faulty edge refuses with its code, and otherwise the edges are accepted exactly when their graph has no cycle |
| PlanGraph.Walk.Visit | tools/controller_planning.py:640-649 | the recursive walk over shared sets terminates, restores the visiting set, marks the key visited, and fails only on a real cycle |
| PlanGraph.CheckAcyclic | tools/controller_planning.py:637-652 | the walk succeeds exactly on acyclic graphs, whatever order the keys are visited in |
| PlanGraph.TopologicalHasNoCycle | tools/controller_planning.py:637-652 | the finishing order the walk stands for rules out every cycle |
| PlanGraph.FaultlessEdges | tools/controller_planning.py:616-636 | no edge refuses exactly when all refer to known, different items for a known reason and none repeats |
| PlanGraph.ValidateResourceEdges | tools/controller_planning.py:656-673 | accepts exactly when every colliding pair of items is ordered by a resource edge |
| Coverage.ValidateCoverage | tools/controller_planning.py:676-712 | accepts exactly when there is one row per obligation naming each claiming Work Item once and no other; otherwise the first refusal, by kind |
| Coverage.FaultlessRows | tools/controller_planning.py:686-704 | no row refuses exactly when no obligation repeats and everything named is known |
| Progress.NoDeadlock | tools/controller_policy.py:854-887 | for a validated plan at rest, an eligible item exists exactly while some item is incomplete, whatever completions are still to be absorbed |
| Progress.DeliveryTakesExactlyThatMany | tools/controller_policy.py:613-630 | launching and landing finishes in exactly as many launches as there are incomplete items, and never stops early; reports may repeat the launch's own binding |
| Progress.RestDeliversExactly | tools/controller_policy.py:613-630 | the same from any facts at rest, once completions already reported are absorbed |
| Directories.DirectoriesDeliverEachOnce | tools/controller_ports.py:460-473 | with directories that are never cleared and are all read again by every cycle that decides, each holding its dispatch's complete landing by the cycle after the launch, the journal of any run launches each incomplete item exactly once, one a cycle, and then nothing; and as many long cycles as items launch them all |
| Directories.HistoryLands | tools/controller_ports.py:460-488 | read in any order and any number of times, agreeing records of one dispatch leave its run under way until the landing is among them, and landed from then on |
| Directories.HomeReads | tools/controller_policy.py:411-436 | a run that has landed absorbs every agreeing record of its own directory unchanged |
| DeliveryRuns.RunsDeliverEachOnce | tools/controller.py:134-236 | the same where records read again are any that tell the landed runs nothing new: wherever its cycles are cut, the journal launches each incomplete item exactly once, one a cycle, and then nothing; the tracker may come to show landed items complete |
| DeliveryEnds.LongRunsDeliverAll | tools/controller.py:207-297 | if no cycle finds the journal blocked, as many cycles that survive six durable effects as there are items left launch them all, those that only resume included |
| Delivery.OneTurn | tools/controller.py:134-212 | a cycle that finds the launch before it landed is not refused, launches an item that is left or finds none left, and leaves the delivery standing |
| Landings.MergeEachPointwise | tools/controller_ports.py:460-488 | reading records of known dispatches gives each run its own history, in place, and adds no run |
| Progress.NeverBothReady | tools/controller_planning.py:656-673 | two items that share an exclusive resource are never both dependency-ready |
| Progress.MinimalKey | tools/controller_planning.py:637-652 | an acyclic graph has, within every non-empty set of keys, one whose blockers all lie outside it |
| Publication.PublicationConverges | tools/controller_planning.py:1124-1168 | after any attempts that stopped anywhere, one full pass ends in the state of a single uninterrupted pass |
| PublishedRuns.TrackerShowsJournal | tools/controller.py:207-212 | after any run, with crashes anywhere, the actions performed leave a tracker that shows one full pass of each applied plan in journal order, and of a plan in progress its first actions at most |
| Publication.PublishedExactly | tools/controller_planning.py:1062-1120 | the published tracker shows exactly the plan's marker, one numbered issue per new item, and the plan's links and edges, and nothing else new |
| Publication.PlanAlwaysPublishes | tools/controller_planning.py:1149-1168 | the missing-dependency refusal is never raised for a validated plan, from any tracker state |
| Publication.PassAgain | tools/controller_planning.py:1124-1168 | starting again after some actions and stopping anywhere reaches what the longer attempt would have reached alone |
| Publication.PlanPublisher.Apply | tools/controller_planning.py:1129-1168 | one action looks its effect up first and moves the tracker as specified, or fails having mutated fully or not at all |
| Publication.PlanPublisher.PublishWithRetries | tools/controller_planning.py:1124-1233 | retries under arbitrary faults end in the state of one uninterrupted pass |
| BreakerLaws.StreakIsTrailingRun | tools/breaker.py:380-420 | for every interleaving of outcomes and settling, each rule's streak and window are its trailing run, filtered once to the window |
| BreakerLaws.StreakCountsReadings | tools/breaker.py:1172-1212 | the same with quota readings in between, an exhausted one counting as the quota outcome it reports |
| BreakerLaws.TripExactly | tools/breaker.py:334-377 | after any history of outcomes, settling and readings short of a healthy one, the next such event opens a closed circuit exactly when some rule's run of what was heard reaches N there, and names the first such rule |
| BreakerLaws.EscalationStands | tools/breaker.py:423-448 | after any history, an open escalated circuit stays so under every later outcome, passage of time and reading short of a healthy one |
| BreakerLaws.ResetIsPublished | tools/breaker.py:7-14 | over every history a wait is one an outcome or a reading published, and half-open is reached only by settling at or after it |
| BreakerLaws.TransitionsReportChanges | tools/breaker.py:380-448 | at every point of any history a transition is reported exactly when state, rule or reset time changes, and it names both ends and the rule |
| QualityTrips.ReadingLeavesQualityTrip | tools/breaker.py:1172-1212 | no quota reading moves an open quality trip |
| QualityTrips.ClearedByHumanExactly | tools/breaker.py:14-19 | an escalated lane stays open throughout exactly the histories in which no healthy reading arrives while its label is the provider errors; otherwise such a reading resets it |
| QualityTrips.LabelStep | tools/breaker.py:334-377 | one event on a held lane either is the reading that resets it or leaves it held under the next label |
| QualityTrips.QualityTripExactly | tools/breaker.py:334-377 | an open quality trip keeps its name throughout a history exactly when three provider errors never come in a row |
| QualityTrips.QualityTripHealsFromFresh | tools/breaker.py:14-19 | three gate failures, three provider errors and one healthy reading take an untouched lane into a quality trip and out again with no human |
| QualityTrips.QualityTripCanHealItself | tools/breaker.py:1172-1212 | three provider errors and one healthy reading close any open quality trip with no errors pending |
| BreakerLaws.MoveRulesAt | tools/breaker.py:403-413 | with distinct names each rule's counts move as if it were alone |
| Breaker.AdvanceCircuit | tools/breaker.py:380-420 | the two loops compute the specified step |
| Breaker.Lane.RecordOutcome | tools/breaker.py:1591-1607 | storing an outcome settles first and then feeds it; both transitions are emitted in order and the second is returned |
| Breaker.Lane.RecordReading | tools/breaker.py:1610-1625 | storing a reading keeps it, settles first and then applies it; both transitions are emitted in order and the second is returned |
| CrashStop.CrashStop | tools/breaker.py:289-309 | the loop returns the first contiguous block of at least two crashes, whole |
| CrashStop.StopsOnPair | tools/breaker.py:289-309 | a run is returned exactly when two crashes are adjacent |
| CrashStop.LaterCompletionsExtend | tools/breaker.py:289-309 | more completions only extend the returned run, never hide it |
| CrashStop.StopAgreesWithBreaker | tools/breaker.py:278-309 | the breaker under the corpus rule opens exactly when the stop returns a run for the classified completions |
| CrashStop.DisagreementExactly | tools/breaker.py:289-309 | a returned run means an open breaker, and the two agree exactly unless only dropping unclassified completions makes two crashes adjacent |
| CrashStop.UnclassifiedSeparates | tools/breaker.py:289-309 | crash, unclassified, crash: the breaker opens and the stop returns nothing |
| GateReport.CarriedReport | tools/gate_report.py:93-105 | for every comment that can be selected, what is carried is within the cap, is the body or a verbatim prefix with closer and marker, and ends with no fence open |
| GateReport.BoundedExactly | tools/gate_report.py:93-105 | the cap holds exactly when the kept prefix is not one run of backticks |
| GateReport.RecomputedCloserFits | tools/gate_report.py:100-104 | the closer recomputed after the prefix shrinks still fits the space reserved for the first one |
| GateReport.ShorterPrefixNeedsNoWiderCloser | tools/gate_report.py:78-90 | cutting off the room a closer needs never leaves a wider fence open |
| GateReport.CutBodyEndsClosed | tools/gate_report.py:93-105 | every cut comment reads with no fence left open |
| GateReport.MarkedBodyIsBounded | tools/gate_report.py:52-61 | a comment that starts with the marker is always within the cap |
| GateReport.ClosingFence | tools/gate_report.py:78-90 | the loop gives the closer of the fence left open by the declarative scan |
| GateReport.BoundedBody | tools/gate_report.py:93-105 | the three-step cut computes the specified body, negative slice included |
| SqfLexer.StripNoncode | tools/check_sqf_bans.py:152-175 | keeps the length, copies exactly the characters the lexer automaton calls code, blanks the rest and keeps every newline in place |
| SqfLexer.EndOfString | tools/check_sqf_bans.py:134-149 | a literal ends where the automaton is back in code, doubled quotes and missing ends included |
| SqfLexer.StrippedStaysInCode | tools/check_sqf_bans.py:152-175 | nothing left in a stripped source opens a comment or a literal |
| SqfLexer.StripIsIdempotent | tools/check_sqf_bans.py:152-175 | stripping twice is stripping once |

## Left out

- Files, `fsync`, renames and directory walks: a disk is a marker, a record sequence with or without a torn last line, and an optional view; a view replacement is atomic, as a rename is.
- The scheduling lock and concurrent controllers: cycles happen one after another; a crash ends one before the next begins.
- SHA-256 is a parameter; nothing proved depends on which function it is.
- JSON text, Gherkin and glossary parsing, `recorded_at` and `recorded_by`: documents arrive parsed, with duplicate keys already refused; reason codes of the facts decoder are constructors that name the collection and the field.
- Dry runs and cycle reports: they write nothing.
- The semantic planning stage: its answer is an arbitrary input of a cycle; the cycle consults it in the source's circumstances. A plan refused for unratified terms is journaled as a suspended planning cycle; the refusals of plan storage reach a cycle as a suspended answer of the stage, and storage itself is not modelled.
- Plan revision bodies and issue bodies are given as text; `GitHubTracker` is not modelled, only the port it implements, through the recording tracker.
- Obligations, dispositions, provisional terms and design fields of a plan package: field checks without interplay.
- Of what a journal append checks, the facts, the lifecycle texts and the plan revision are modelled; the action documents and the plan's digest form are not.
- What ports do with an action: applying is one step that happens or does not; a port that raises is a crash at that step.
- Reading delivery and result files, classifying a recovery from a tree, and the queue's own policy: their results are inputs of `Collector`.
- Breaker feeds, stored lane files, `verdict` and report lines; times and fractions are reals, and floating-point rounding is not modelled.
- `classify_run`, the quota document readers, and the other checkers and scripts of the repository.
- Selection.SelectionIsOrderIndependent: assumes each live run matches at most one item, because the source resolves a run that matches two items by list order.
- BreakerLaws.StreakIsTrailingRun: assumes a clock that does not run backwards, because a window prunes by the latest time; a healthy reading that closes a circuit starts a new history.
- Claims.CollectorKeepsBinding: leaves out a delivery under another launch's run key, because that renames the run and the other launch then drops it (`Freshness.DeliveryCanCostASlot`).
- PublishedRuns.TrackerShowsJournal: assumes that each plan handed in refers to its own items or issues in its dependencies, which planning validates before it hands one in.
- DeliveryRuns.RunsDeliverEachOnce: assumes an empty base list and no queue holders, no external bars and no worktree debt, records of launched dispatches only, both looks of a cycle alike, and a complete landing under the launch's own binding and no other launch's run key before the next cycle decides, because a bar, a debt, a foreign run or a lost run may keep an item from being launched. An item may become complete in the tracker once it has landed, not before.
- Directories.DirectoriesDeliverEachOnce: assumes the same, and that a dispatch's records agree on one SHA and report no failure.
