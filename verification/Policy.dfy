/** The pure scheduling kernel of tools/controller_policy.py: which runs own a
    slot, which items may launch, and the one launch a fact set derives. */
module Policy {
  import opened Text
  import opened Facts

  const NO_ADMISSIBLE_INITIATIVE := "no_admissible_initiative"
  const DELIVERING := "delivering"
  const BLOCKED_EXTERNAL := "blocked_external"
  const NO_ELIGIBLE_WORK_ITEM := "no_eligible_work_item"
  const OPEN_WORK_ITEM_STATES := {"open", "ready"}
  const COMPLETE_WORK_ITEM_STATES := {"complete", "completed", "closed", "done", "landed", "satisfied"}
  const NON_RESULT_CLASSES :=
    {"infra_unavailable", "quota_exhausted", "provider_refused", "untyped_harness_failure", "interrupted"}
  const RECOVERY_RELAUNCH_KINDS := {"lost_work", "finished_and_cleaned"}
  const REVIEW_CLEARED := "cleared"
  const GATE_PASSED := "passed"
  const LANDED := "landed"
  const NON_RESULT := "non_result"
  const RECORDED_LAUNCH_STATE := "launching"
  const LAST_RANK := 0x7fff_ffff

  predicate IsOpen(item: WorkItem) {
    item.state in OPEN_WORK_ITEM_STATES
  }

  predicate IsComplete(item: WorkItem) {
    item.state in COMPLETE_WORK_ITEM_STATES
  }

  /** `run.failure_class in NON_RESULT_CLASSES`. */
  predicate TypedNonResult(run: WorkRun) {
    run.failureClass.Some? && run.failureClass.value in NON_RESULT_CLASSES
  }

  /** A recovery verdict that concludes the run rather than observing it. */
  predicate Concluded(run: WorkRun) {
    run.recoveryKind.Some? && run.recoveryKind.value in RECOVERY_RELAUNCH_KINDS
  }

  // ------------------------------------------------------------ completion

  /** `candidate_cleared`: independent review, adjudication and a gate, all on one SHA. */
  predicate CandidateCleared(run: WorkRun) {
    && !run.deliveryConflict && Truthy(run.candidateSha)
    && Truthy(run.dispatchId) && run.dispatchId != run.reviewDispatchId
    && run.reviewStatus == Some(REVIEW_CLEARED) && run.reviewedSha == run.candidateSha
    && Truthy(run.reviewDispatchId)
    && run.adjudicationStatus == Some(REVIEW_CLEARED) && run.adjudicationSha == run.candidateSha
    && run.gateStatus == Some(GATE_PASSED) && run.gateSha == run.candidateSha
  }

  /** `completion_ready`. */
  predicate CompletionReady(run: WorkRun) {
    && run.state == LANDED && !TypedNonResult(run) && Truthy(run.candidateSha)
    && CandidateCleared(run)
    && run.landedSha == run.candidateSha && run.closeEvidenceSha == run.candidateSha
  }

  predicate SameIssue(a: Option<int>, b: Option<int>) {
    a.Some? && b.Some? && a.value == b.value
  }

  predicate DifferentIssue(a: Option<int>, b: Option<int>) {
    a.Some? && b.Some? && a.value != b.value
  }

  /** `_run_belongs_to_item`. */
  predicate RunBelongsToItem(run: WorkRun, item: WorkItem) {
    if run.workItemKey.Some? && run.workItemKey.value != item.key then false
    else if run.workItemKey.None? && run.ItemKey() != item.key && !SameIssue(run.issue, item.issue) then false
    else !DifferentIssue(run.issue, item.issue)
  }

  /** `_completed_item_owns_no_slot`. */
  predicate CompletedItemOwnsNoSlot(run: WorkRun, items: seq<WorkItem>) {
    exists item :: item in items && IsComplete(item) && RunBelongsToItem(run, item)
  }

  // ------------------------------------------------------------ slots

  /** Terminal evidence: a concluding verdict, or a published typed non-result. */
  predicate TerminalEvidence(run: WorkRun) {
    Concluded(run) || (TypedNonResult(run) && run.resultPublished)
  }

  /** `work_run_owns_slot`. */
  predicate OwnsSlot(run: WorkRun, items: seq<WorkItem>) {
    var released :=
      || (run.state == LANDED && run.landedSha.Some? && (CompletionReady(run) || CompletedItemOwnsNoSlot(run, items)))
      || TerminalEvidence(run);
    !released
  }

  function LiveAmong(runs: seq<WorkRun>, items: seq<WorkItem>): (live: seq<WorkRun>)
    ensures forall run :: run in live <==> run in runs && OwnsSlot(run, items)
  {
    if runs == [] then []
    else
      var n := |runs| - 1;
      LiveAmong(runs[..n], items) + (if OwnsSlot(runs[n], items) then [runs[n]] else [])
  }

  /** `live_work_runs`. */
  function LiveWorkRuns(f: ControlFacts): (live: seq<WorkRun>)
    ensures forall run :: run in live <==> run in f.workRuns && OwnsSlot(run, f.workItems)
  {
    LiveAmong(f.workRuns, f.workItems)
  }

  /** `occupied_capacity`: live runs plus worktree debt. */
  function OccupiedCapacity(f: ControlFacts): nat {
    |LiveWorkRuns(f)| + |f.worktreeDebt|
  }

  /** `coordination_snapshot`. */
  function SnapshotOf(f: ControlFacts): CoordinationSnapshot {
    CoordinationSnapshot(f.workItems, LiveWorkRuns(f), f.worktreeDebt, f.wipLimit, f.externalBars, f.priorityOrder)
  }

  // ------------------------------------------------------------ matching

  /** `_run_matches_item`. */
  predicate RunMatchesItem(run: WorkRun, item: WorkItem) {
    run.ItemKey() == item.key || SameIssue(run.issue, item.issue)
  }

  /** `_item_for_run`: the first item a run matches. */
  function ItemForRun(run: WorkRun, items: seq<WorkItem>): (r: Option<WorkItem>)
    ensures r.Some? ==> r.value in items && RunMatchesItem(run, r.value)
    ensures r.None? ==> forall item :: item in items ==> !RunMatchesItem(run, item)
  {
    if items == [] then None
    else if RunMatchesItem(run, items[0]) then Some(items[0])
    else ItemForRun(run, items[1..])
  }

  function ItemByKey(key: string, items: seq<WorkItem>): (r: Option<WorkItem>)
    ensures r.Some? ==> r.value in items && r.value.key == key
    ensures r.None? ==> forall item :: item in items ==> item.key != key
  {
    if items == [] then None
    else if items[0].key == key then Some(items[0])
    else ItemByKey(key, items[1..])
  }

  function ItemByIssue(issue: int, items: seq<WorkItem>): (r: Option<WorkItem>)
    ensures r.Some? ==> r.value in items && r.value.issue == Some(issue)
    ensures r.None? ==> forall item :: item in items ==> item.issue != Some(issue)
  {
    if items == [] then None
    else if items[0].issue == Some(issue) then Some(items[0])
    else ItemByIssue(issue, items[1..])
  }

  /** `_item_for_debt`. */
  function ItemForDebt(debt: WorktreeDebt, items: seq<WorkItem>): Option<WorkItem> {
    var byKey := if debt.workItemKey.Some? then ItemByKey(debt.workItemKey.value, items) else None;
    if byKey.Some? then byKey else ItemByIssue(debt.issue, items)
  }

  /** `_bar_matches_item`. */
  predicate BarMatchesItem(bar: ExternalBar, item: WorkItem) {
    bar.key == item.key || (item.issue.Some? && bar.key == IntText(item.issue.value))
  }

  /** `_external_bar_for_item`: the first bar on an item. */
  function ExternalBarForItem(item: WorkItem, bars: seq<ExternalBar>): (r: Option<ExternalBar>)
    ensures r.Some? ==> r.value in bars && BarMatchesItem(r.value, item)
    ensures r.None? ==> forall bar :: bar in bars ==> !BarMatchesItem(bar, item)
  {
    if bars == [] then None
    else if BarMatchesItem(bars[0], item) then Some(bars[0])
    else ExternalBarForItem(item, bars[1..])
  }

  // ------------------------------------------------------------ resources

  function ResourcesOf(holder: Option<WorkItem>): set<string> {
    match holder
    case None => {}
    case Some(item) => set r | r in item.exclusiveResources
  }

  function HeldByRuns(runs: seq<WorkRun>, items: seq<WorkItem>): set<string> {
    set run, r | run in runs && r in ResourcesOf(ItemForRun(run, items)) :: r
  }

  function HeldByDebt(debts: seq<WorktreeDebt>, items: seq<WorkItem>): set<string> {
    set debt, r | debt in debts && r in ResourcesOf(ItemForDebt(debt, items)) :: r
  }

  /** The resources held by live runs and worktree debt. */
  function HeldResources(f: ControlFacts): set<string> {
    HeldByRuns(LiveWorkRuns(f), f.workItems) + HeldByDebt(f.worktreeDebt, f.workItems)
  }

  lemma HeldByMoreRuns(runs: seq<WorkRun>, run: WorkRun, items: seq<WorkItem>)
    ensures HeldByRuns(runs + [run], items) == HeldByRuns(runs, items) + ResourcesOf(ItemForRun(run, items))
  {
    assert run in runs + [run];
  }

  lemma HeldByMoreDebt(debts: seq<WorktreeDebt>, debt: WorktreeDebt, items: seq<WorkItem>)
    ensures HeldByDebt(debts + [debt], items) == HeldByDebt(debts, items) + ResourcesOf(ItemForDebt(debt, items))
  {
    assert debt in debts + [debt];
  }

  /** `_held_resources`, accumulated as the source does. */
  method CollectHeldResources(f: ControlFacts) returns (resources: set<string>)
    ensures resources == HeldResources(f)
  {
    var active := LiveWorkRuns(f);
    resources := {};
    for i := 0 to |active|
      invariant resources == HeldByRuns(active[..i], f.workItems)
    {
      assert active[..i + 1] == active[..i] + [active[i]];
      HeldByMoreRuns(active[..i], active[i], f.workItems);
      resources := resources + ResourcesOf(ItemForRun(active[i], f.workItems));
    }
    assert active[..|active|] == active;
    for i := 0 to |f.worktreeDebt|
      invariant resources == HeldByRuns(active, f.workItems) + HeldByDebt(f.worktreeDebt[..i], f.workItems)
    {
      assert f.worktreeDebt[..i + 1] == f.worktreeDebt[..i] + [f.worktreeDebt[i]];
      HeldByMoreDebt(f.worktreeDebt[..i], f.worktreeDebt[i], f.workItems);
      resources := resources + ResourcesOf(ItemForDebt(f.worktreeDebt[i], f.workItems));
    }
    assert f.worktreeDebt[..|f.worktreeDebt|] == f.worktreeDebt;
  }

  // ------------------------------------------------------------ eligibility

  /** `{item.key: item for item in items}.get(key)`: the last item with that key. */
  function Lookup(items: seq<WorkItem>, key: string): (r: Option<WorkItem>)
    ensures r.Some? ==> r.value in items && r.value.key == key
    ensures r.None? ==> forall item :: item in items ==> item.key != key
  {
    if items == [] then None
    else if items[|items| - 1].key == key then Some(items[|items| - 1])
    else Lookup(items[..|items| - 1], key)
  }

  /** The blocker is a known item that is complete. */
  predicate Satisfied(blocker: string, items: seq<WorkItem>) {
    var found := Lookup(items, blocker);
    found.Some? && IsComplete(found.value)
  }

  /** `_is_ready`: open, and every blocker satisfied. */
  predicate IsReady(item: WorkItem, items: seq<WorkItem>) {
    IsOpen(item) && forall b :: b in item.blockedBy ==> Satisfied(b, items)
  }

  predicate CapacityAvailable(f: ControlFacts) {
    f.wipLimit.Some? && OccupiedCapacity(f) < f.wipLimit.value
  }

  /** `_is_eligible`. */
  predicate IsEligible(item: WorkItem, f: ControlFacts) {
    && IsReady(item, f.workItems)
    && (forall run :: run in LiveWorkRuns(f) ==> !RunMatchesItem(run, item))
    && ExternalBarForItem(item, f.externalBars).None?
    && (forall r :: r in item.exclusiveResources ==> r !in HeldResources(f))
    && CapacityAvailable(f)
  }

  predicate Known(blocker: string, items: seq<WorkItem>) {
    Lookup(items, blocker).Some?
  }

  function FirstUnknown(blockers: seq<string>, items: seq<WorkItem>): (r: Option<string>)
    ensures r.None? <==> forall b :: b in blockers ==> Known(b, items)
  {
    if blockers == [] then None
    else if !Known(blockers[0], items) then Some(blockers[0])
    else FirstUnknown(blockers[1..], items)
  }

  function FirstUnsatisfied(blockers: seq<string>, items: seq<WorkItem>): (r: Option<string>)
    ensures r.None? <==> forall b :: b in blockers ==> Satisfied(b, items)
  {
    if blockers == [] then None
    else if !Satisfied(blockers[0], items) then Some(blockers[0])
    else FirstUnsatisfied(blockers[1..], items)
  }

  /** `_eligibility_reason`: the first scheduling predicate an item fails. */
  function EligibilityReason(item: WorkItem, f: ControlFacts): string {
    if !IsOpen(item) then "state:" + item.state
    else if FirstUnknown(item.blockedBy, f.workItems).Some? then "blocked_by_unknown"
    else
      var blocked := FirstUnsatisfied(item.blockedBy, f.workItems);
      if blocked.Some? then "blocked_by:" + blocked.value
      else if exists run :: run in LiveWorkRuns(f) && RunMatchesItem(run, item) then "live_work_run"
      else
        var bar := ExternalBarForItem(item, f.externalBars);
        if bar.Some? then "external_bar:" + bar.value.kind
        else if exists r :: r in item.exclusiveResources && r in HeldResources(f) then "exclusive_resource_held"
        else if f.wipLimit.None? then "wip_limit_unconfigured"
        else if OccupiedCapacity(f) >= f.wipLimit.value then "wip_reached_by_live_runs_or_worktree_debt"
        else "eligible"
  }

  // ------------------------------------------------------------ priority

  datatype PriorityKey = PriorityKey(configured: int, explicit: int, key: string)

  function IndexOf(keys: seq<string>, key: string): Option<nat> {
    if keys == [] then None
    else if keys[0] == key then Some(0)
    else match IndexOf(keys[1..], key)
      case None => None
      case Some(i) => Some(i + 1)
  }

  /** `_priority_key`. */
  function KeyOf(item: WorkItem, f: ControlFacts): PriorityKey {
    var index := IndexOf(f.priorityOrder, item.key);
    PriorityKey(if index.Some? then index.value else LAST_RANK,
                if item.priority.Some? then item.priority.value else LAST_RANK,
                item.key)
  }

  predicate Before(a: PriorityKey, b: PriorityKey) {
    || a.configured < b.configured
    || (a.configured == b.configured && a.explicit < b.explicit)
    || (a.configured == b.configured && a.explicit == b.explicit && Less(a.key, b.key))
  }

  /** Stable insertion: after everything the new item does not precede. */
  function Insert(sorted: seq<WorkItem>, item: WorkItem, f: ControlFacts): seq<WorkItem> {
    if sorted == [] then [item]
    else if Before(KeyOf(item, f), KeyOf(sorted[0], f)) then [item] + sorted
    else [sorted[0]] + Insert(sorted[1..], item, f)
  }

  function EligibleSorted(items: seq<WorkItem>, f: ControlFacts): seq<WorkItem> {
    if items == [] then []
    else
      var n := |items| - 1;
      var rest := EligibleSorted(items[..n], f);
      if IsEligible(items[n], f) then Insert(rest, items[n], f) else rest
  }

  /** `eligible_work_items`. */
  function EligibleWorkItems(f: ControlFacts): seq<WorkItem> {
    EligibleSorted(f.workItems, f)
  }

  /** `next_work_item`. */
  function NextWorkItem(f: ControlFacts): Option<WorkItem> {
    var eligible := EligibleWorkItems(f);
    if eligible == [] then None else Some(eligible[0])
  }

  // ------------------------------------------------------------ launching

  /** `launch_action`. */
  function LaunchAction(f: ControlFacts, item: WorkItem): ControlAction {
    StartWorkRun(
      item.key, item.issue, item.seat, item.profile,
      if item.issue.Some? then "issue-" + IntText(item.issue.value) else item.key,
      "work-run:" + item.key, None, SnapshotOf(f))
  }

  /** The run a recorded launch adds. */
  function LaunchedRun(action: ControlAction, runKey: string, dispatchId: string): WorkRun
    requires action.StartWorkRun?
  {
    BareRun(runKey, RECORDED_LAUNCH_STATE).(
      workItemKey := Some(action.workItemKey),
      dispatchId := Some(dispatchId),
      worktree := if action.worktree != "" then Some(action.worktree) else None,
      issue := action.issue)
  }

  /** The recorded launch replaces runs of its own key, and live runs of its item. */
  predicate Displaced(run: WorkRun, f: ControlFacts, action: ControlAction, runKey: string)
    requires action.StartWorkRun?
  {
    || run.key == runKey
    || (run in LiveWorkRuns(f)
        && (run.ItemKey() == action.workItemKey || (action.issue.Some? && run.issue == action.issue)))
  }

  function Kept(runs: seq<WorkRun>, f: ControlFacts, action: ControlAction, runKey: string): seq<WorkRun>
    requires action.StartWorkRun?
  {
    if runs == [] then []
    else
      var n := |runs| - 1;
      Kept(runs[..n], f, action, runKey) + (if Displaced(runs[n], f, action, runKey) then [] else [runs[n]])
  }

  /** `with_work_run`. */
  function WithWorkRun(f: ControlFacts, action: ControlAction, runKey: string, dispatchId: string): ControlFacts
    requires action.StartWorkRun?
  {
    f.(workRuns := Kept(f.workRuns, f, action, runKey) + [LaunchedRun(action, runKey, dispatchId)])
  }

  // ------------------------------------------------------------ derivation

  datatype Reconciliation = Reconciliation(
    lifecycle: LifecycleState,
    actions: seq<ControlAction>,
    selected: Option<WorkItem>,
    launchSnapshot: Option<CoordinationSnapshot>,
    considered: seq<(string, string)>)

  /** The first bar on any item, in item order. */
  function FirstBar(items: seq<WorkItem>, bars: seq<ExternalBar>): Option<ExternalBar> {
    if items == [] then None
    else
      var bar := ExternalBarForItem(items[0], bars);
      if bar.Some? then bar else FirstBar(items[1..], bars)
  }

  /** `_coordination_reason`. */
  function CoordinationReason(f: ControlFacts): string {
    var bar := FirstBar(f.workItems, f.externalBars);
    if bar.Some? then "external_bar:" + bar.value.kind
    else if f.wipLimit.None? then "wip_limit_unconfigured"
    else if OccupiedCapacity(f) >= f.wipLimit.value then "wip_reached_by_live_runs_or_worktree_debt"
    else NO_ELIGIBLE_WORK_ITEM
  }

  /** `_derive_coordination`. */
  function DeriveCoordination(f: ControlFacts): Reconciliation
    requires f.initiatives != []
  {
    var initiative := f.initiatives[0].key;
    var considered := seq(|f.workItems|, i requires 0 <= i < |f.workItems| =>
                        (f.workItems[i].key, EligibilityReason(f.workItems[i], f)));
    match NextWorkItem(f)
    case None =>
      var state := if FirstBar(f.workItems, f.externalBars).Some? then BLOCKED_EXTERNAL else DELIVERING;
      Reconciliation(LifecycleState(state, Some(initiative), CoordinationReason(f)), [], None,
                     Some(SnapshotOf(f)), considered)
    case Some(item) =>
      Reconciliation(LifecycleState(DELIVERING, Some(initiative), "eligible_work_item"), [LaunchAction(f, item)],
                     Some(item), Some(SnapshotOf(f)), considered)
  }

  /** `derive`: at most one launch, never trusting the previous lifecycle. */
  function Derive(f: ControlFacts): (r: Reconciliation)
    ensures |r.actions| <= 1
    ensures r.actions != [] ==>
              && NextWorkItem(f).Some? && r.selected == NextWorkItem(f)
              && r.actions[0] == LaunchAction(f, NextWorkItem(f).value)
              && r.launchSnapshot == Some(SnapshotOf(f))
  {
    if f.configuredCurator.Some? && |f.desiredOutcomes| == 1 && f.initiatives != [] && f.workItems != [] then
      DeriveCoordination(f)
    else
      var reason :=
        if f.configuredCurator.None? then "no_product_curator_configured"
        else if f.desiredOutcomes == [] then "no_desired_outcome"
        else if |f.desiredOutcomes| != 1 then "desired_outcome_cardinality_not_one"
        else if f.initiatives != [] then "active_initiative_present"
        else "initiative_admission_not_implemented";
      Reconciliation(LifecycleState(NO_ADMISSIBLE_INITIATIVE, None, reason), [], None, None, [])
  }

  // ------------------------------------------------------------ completion and readiness over cycles

  predicate HasCompletion(item: WorkItem, runs: seq<WorkRun>) {
    exists run :: run in runs && RunBelongsToItem(run, item) && CompletionReady(run)
  }

  function CompleteKeys(f: ControlFacts): set<string> {
    set item | item in f.workItems && HasCompletion(item, f.workRuns) :: item.key
  }

  /** `advance_completed_work_items`. */
  function AdvanceCompleted(f: ControlFacts): ControlFacts {
    f.(workItems := seq(|f.workItems|, i requires 0 <= i < |f.workItems| =>
         if f.workItems[i].key in CompleteKeys(f) then f.workItems[i].(state := "complete") else f.workItems[i]))
  }

  /** `retain_completed_work_items`. */
  function RetainCompleted(previous: ControlFacts, current: ControlFacts): ControlFacts {
    current.(workItems := seq(|current.workItems|, i requires 0 <= i < |current.workItems| =>
      var item := current.workItems[i];
      var prior := LastComplete(previous.workItems, item.key);
      if prior.Some? && !IsComplete(item) then prior.value.(state := "complete") else item))
  }

  /** The last complete item with a key. */
  function LastComplete(items: seq<WorkItem>, key: string): Option<WorkItem> {
    if items == [] then None
    else
      var last := items[|items| - 1];
      if last.key == key && IsComplete(last) then Some(last) else LastComplete(items[..|items| - 1], key)
  }

  function NewlyReadyAmong(items: seq<WorkItem>, previous: ControlFacts, current: ControlFacts): seq<string> {
    if items == [] then []
    else
      var n := |items| - 1;
      var before := Lookup(previous.workItems, items[n].key);
      NewlyReadyAmong(items[..n], previous, current)
      + (if before.Some? && IsReady(items[n], current.workItems) && !IsReady(before.value, previous.workItems)
         then [items[n].key] else [])
  }

  /** The item was known, was not ready before, and is ready now. */
  predicate BecameReady(item: WorkItem, previous: ControlFacts, current: ControlFacts) {
    var before := Lookup(previous.workItems, item.key);
    before.Some? && !IsReady(before.value, previous.workItems) && IsReady(item, current.workItems)
  }

  /** The reported keys are those of the items that became ready, and no others. */
  lemma {:induction false} NewlyReadyMembers(items: seq<WorkItem>, previous: ControlFacts, current: ControlFacts,
                                             key: string)
    ensures key in NewlyReadyAmong(items, previous, current) <==>
            exists item :: item in items && item.key == key && BecameReady(item, previous, current)
  {
    if items != [] {
      var n := |items| - 1;
      NewlyReadyMembers(items[..n], previous, current, key);
      assert items == items[..n] + [items[n]];
      if items[n].key == key && BecameReady(items[n], previous, current) {
        assert items[n] in items;
      }
    }
  }

  /** `newly_ready_keys`, accumulated as the source does. */
  method CollectNewlyReady(previous: Option<ControlFacts>, current: ControlFacts) returns (keys: seq<string>)
    ensures keys == NewlyReadyKeys(previous, current)
  {
    keys := [];
    if previous.None? {
      return;
    }
    for i := 0 to |current.workItems|
      invariant keys == NewlyReadyAmong(current.workItems[..i], previous.value, current)
    {
      var item := current.workItems[i];
      assert current.workItems[..i + 1][..i] == current.workItems[..i];
      var before := Lookup(previous.value.workItems, item.key);
      if before.None? {
        continue;
      }
      if IsReady(item, current.workItems) && !IsReady(before.value, previous.value.workItems) {
        keys := keys + [item.key];
      }
    }
    assert current.workItems[..|current.workItems|] == current.workItems;
  }

  function NewlyReadyKeys(previous: Option<ControlFacts>, current: ControlFacts): seq<string> {
    match previous
    case None => []
    case Some(p) => NewlyReadyAmong(current.workItems, p, current)
  }

  function Additions(keys: seq<string>, existing: set<string>, recordedAt: string): seq<ReadyTransition> {
    if keys == [] then []
    else
      var n := |keys| - 1;
      Additions(keys[..n], existing, recordedAt)
      + (if keys[n] in existing then [] else [ReadyTransition(keys[n], recordedAt)])
  }

  /** `with_ready_transitions`. */
  function WithReadyTransitions(f: ControlFacts, keys: seq<string>, recordedAt: string): ControlFacts {
    var existing := set t | t in f.readyTransitions :: t.key;
    f.(readyTransitions := f.readyTransitions + Additions(keys, existing, recordedAt))
  }
}
