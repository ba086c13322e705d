/** The normalized facts, lifecycle states and actions of tools/controller_policy.py. */
module Facts {
  import opened Text

  datatype DesiredOutcome = DesiredOutcome(
    key: string,
    revision: int,
    contentDigest: string,
    content: Option<string>,
    parentIssue: Option<int>)

  datatype Initiative = Initiative(key: string, state: string)

  datatype WorkItem = WorkItem(
    key: string,
    state: string,
    issue: Option<int>,
    blockedBy: seq<string>,
    priority: Option<int>,
    exclusiveResources: seq<string>,
    seat: string,
    profile: Option<string>,
    readyAt: Option<string>)

  datatype WorkRun = WorkRun(
    key: string,
    state: string,
    workItemKey: Option<string>,
    dispatchId: Option<string>,
    failureClass: Option<string>,
    worktree: Option<string>,
    issue: Option<int>,
    candidateSha: Option<string>,
    reviewedSha: Option<string>,
    reviewStatus: Option<string>,
    reviewDispatchId: Option<string>,
    adjudicationSha: Option<string>,
    adjudicationStatus: Option<string>,
    gateSha: Option<string>,
    gateStatus: Option<string>,
    landedSha: Option<string>,
    closeEvidenceSha: Option<string>,
    recoveryKind: Option<string>,
    resultPublished: bool,
    deliveryConflict: bool)
  {
    /** `item_key`: the Work Item this run excludes, with the run's own key as fallback. */
    function ItemKey(): string {
      if Truthy(workItemKey) then workItemKey.value else key
    }
  }

  /** A run with every optional observation absent. */
  function BareRun(key: string, state: string): WorkRun {
    WorkRun(key, state, None, None, None, None, None, None, None, None, None, None, None, None,
            None, None, None, None, false, false)
  }

  datatype WorktreeDebt = WorktreeDebt(issue: int, path: string, workItemKey: Option<string>)

  datatype ExternalBar = ExternalBar(key: string, kind: string, detail: string)

  datatype ReadyTransition = ReadyTransition(key: string, recordedAt: string)

  datatype ControlFacts = ControlFacts(
    configuredCurator: Option<string>,
    desiredOutcomes: seq<DesiredOutcome>,
    initiatives: seq<Initiative>,
    workItems: seq<WorkItem>,
    workRuns: seq<WorkRun>,
    worktreeDebt: seq<WorktreeDebt>,
    wipLimit: Option<int>,
    externalBars: seq<ExternalBar>,
    priorityOrder: seq<string>,
    readyTransitions: seq<ReadyTransition>)

  datatype LifecycleState = LifecycleState(state: string, admittedInitiative: Option<string>, reason: string)

  datatype CoordinationSnapshot = CoordinationSnapshot(
    workItems: seq<WorkItem>,
    workRuns: seq<WorkRun>,
    worktreeDebt: seq<WorktreeDebt>,
    wipLimit: Option<int>,
    externalBars: seq<ExternalBar>,
    priorityOrder: seq<string>)

  /** One constructor per action kind, with that kind's payload. */
  datatype ControlAction =
    | StartWorkRun(
        workItemKey: string,
        issue: Option<int>,
        seat: string,
        profile: Option<string>,
        worktree: string,
        runKey: string,
        dispatchId: Option<string>,
        preconditions: CoordinationSnapshot)
    | PublishPlanRevision(parentIssue: string, marker: string, body: string)
    | PublishWorkItem(intent: string, title: string, body: string)
    | AttachSubIssue(parentIssue: string, intent: string, marker: string)
    | AddDependency(blockedIntent: string, blockerIntent: string, marker: string)

  /** Python's truth of an optional string: present and not empty. */
  predicate Truthy(s: Option<string>) {
    s.Some? && s.value != ""
  }

  /** Python's `a or b` on optional strings. */
  function Or(a: Option<string>, b: Option<string>): Option<string> {
    if Truthy(a) then a else b
  }
}
