/** Which facts a journal can hold: no empty text and no number too small where
    its decoder refuses one. */
module StorableFacts {
  import opened Text
  import opened Facts

  predicate Filled(s: Option<string>) {
    s.None? || s.value != ""
  }

  predicate AllFilled(texts: seq<string>) {
    forall i :: 0 <= i < |texts| ==> texts[i] != ""
  }

  predicate Least(n: Option<int>, least: int) {
    n.None? || n.value >= least
  }

  predicate StorableItem(item: WorkItem) {
    && item.key != "" && item.state != "" && Least(item.issue, 1) && AllFilled(item.blockedBy)
    && Least(item.priority, 0) && AllFilled(item.exclusiveResources) && item.seat != ""
    && Filled(item.profile) && Filled(item.readyAt)
  }

  predicate StorableRun(run: WorkRun) {
    && run.key != "" && run.state != "" && Filled(run.workItemKey) && Filled(run.dispatchId)
    && Filled(run.failureClass) && Filled(run.worktree) && Least(run.issue, 1)
    && Filled(run.candidateSha) && Filled(run.reviewedSha) && Filled(run.reviewStatus) && Filled(run.reviewDispatchId)
    && Filled(run.adjudicationSha) && Filled(run.adjudicationStatus) && Filled(run.gateSha) && Filled(run.gateStatus)
    && Filled(run.landedSha) && Filled(run.closeEvidenceSha) && Filled(run.recoveryKind)
  }

  predicate StorableOutcome(o: DesiredOutcome) {
    o.key != "" && o.revision >= 1 && o.contentDigest != "" && Filled(o.content) && Least(o.parentIssue, 1)
  }

  predicate StorableInitiative(i: Initiative) {
    i.key != "" && i.state != ""
  }

  predicate StorableDebt(d: WorktreeDebt) {
    d.issue >= 1 && d.path != "" && Filled(d.workItemKey)
  }

  predicate StorableBar(b: ExternalBar) {
    b.key != "" && b.kind != ""
  }

  predicate StorableTransition(t: ReadyTransition) {
    t.key != "" && t.recordedAt != ""
  }

  predicate StorableItems(items: seq<WorkItem>) {
    forall item :: item in items ==> StorableItem(item)
  }

  predicate StorableRuns(runs: seq<WorkRun>) {
    forall run :: run in runs ==> StorableRun(run)
  }

  predicate StorableTransitions(ts: seq<ReadyTransition>) {
    forall t :: t in ts ==> StorableTransition(t)
  }

  predicate Storable(f: ControlFacts) {
    && Filled(f.configuredCurator)
    && (forall o :: o in f.desiredOutcomes ==> StorableOutcome(o))
    && (forall i :: i in f.initiatives ==> StorableInitiative(i))
    && StorableItems(f.workItems) && StorableRuns(f.workRuns)
    && (forall d :: d in f.worktreeDebt ==> StorableDebt(d))
    && Least(f.wipLimit, 0)
    && (forall b :: b in f.externalBars ==> StorableBar(b))
    && AllFilled(f.priorityOrder) && StorableTransitions(f.readyTransitions)
  }
}
