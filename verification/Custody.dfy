/** The shipped collector keeps a launch in custody: it hands back the prior runs
    with what deliveries, looks and holders add, and until one of these resolves
    the launched run, no cycle launches its Work Item again. */
module Custody {
  import opened Text
  import opened Facts
  import opened Merge
  import opened MergeHistory
  import opened RunLists
  import opened Collector
  import opened Journal
  import opened Driver
  import opened DriverLaws
  import opened DriverRuns
  import opened DriverSafety
  import opened Tenure
  import opened Exclusion

  // ------------------------------------------------------------ one collection

  /** A dispatch record leaves launch `a` out: it is about another dispatch, or
      a standalone delivery, saying whatever it likes, under a key of its own and
      under no other Work Item or issue. */
  ghost predicate LeavesOut(r: Report, a: ControlAction)
    requires a.StartWorkRun?
  {
    ReadReport(r).dispatchId == a.dispatchId ==>
      && r.Progress? && (RunKey(r.raw.key) ==> Some(r.raw.key) == a.dispatchId)
      && (r.raw.workItemKey.Some? ==> r.raw.workItemKey.value == a.workItemKey)
      && (r.raw.issue.Some? ==> r.raw.issue == a.issue)
  }

  /** Nothing read in one collection resolves launch `a`: no published result
      under its dispatch, no base run that lands it, and no look that concludes it. */
  ghost predicate Inconclusive(e: Evidence, a: ControlAction, items: seq<WorkItem>)
    requires a.StartWorkRun?
  {
    && OnlyOut(e.base, a)
    && (forall r :: r in e.reports ==> LeavesOut(r, a))
    && (forall run: WorkRun :: run.dispatchId == a.dispatchId ==> !Terminal(e.verdict(run)))
    && (forall h :: h in e.holders && h.dispatchId == a.dispatchId ==>
                    HolderKey(h, items) == a.workItemKey && Some(h.issue) == a.issue)
  }

  /** A standalone delivery leaves the launch out, whatever it says of progress, failure or landing. */
  lemma StandaloneLeavesOut(raw: WorkRun, a: ControlAction)
    requires a.StartWorkRun? && LeavesOut(Progress(raw), a) && raw.dispatchId == a.dispatchId
    ensures StillOut(StandaloneDelivery(raw), a)
  {
  }

  lemma ReportsOut(reports: seq<Report>, a: ControlAction)
    requires a.StartWorkRun? && forall r :: r in reports ==> LeavesOut(r, a)
    ensures OnlyOut(ReadReports(reports), a)
  {
    var observed := ReadReports(reports);
    forall i | 0 <= i < |observed| && observed[i].dispatchId == a.dispatchId ensures StillOut(observed[i], a) {
      assert reports[i] in reports && LeavesOut(reports[i], a);
      StandaloneLeavesOut(reports[i].raw, a);
    }
  }

  lemma {:induction false} MergeEachOut(runs: seq<WorkRun>, observed: seq<WorkRun>, a: ControlAction)
    requires a.StartWorkRun? && a.dispatchId.Some? && OnlyOut(runs, a) && OnlyOut(observed, a)
    ensures OnlyOut(MergeEach(runs, observed), a)
    decreases |observed|
  {
    if observed != [] {
      var o := observed[0];
      assert o in observed;
      var m := FirstMatch(runs, o);
      if m.None? {
        AppendOut(runs, o, a);
      } else {
        MatchIsSymmetric(runs[m.value], o);
        if o.dispatchId == a.dispatchId { MergeOut(runs[m.value], o, a); }
        ReplaceOut(runs, m.value, MergeObservation(runs[m.value], o), a);
      }
      MergeEachOut(MergeInto(runs, o), observed[1..], a);
    }
  }

  lemma LookLeavesOut(run: WorkRun, verdict: Option<string>, a: ControlAction)
    requires a.StartWorkRun? && StillOut(run, a) && !Terminal(verdict)
    ensures StillOut(WithRecovery(run, verdict), a)
  {
  }

  lemma LookedOut(runs: seq<WorkRun>, verdict: WorkRun -> Option<string>, a: ControlAction)
    requires a.StartWorkRun? && OnlyOut(runs, a)
    requires forall run: WorkRun :: run.dispatchId == a.dispatchId ==> !Terminal(verdict(run))
    ensures OnlyOut(Looked(runs, verdict), a)
  {
    var after := Looked(runs, verdict);
    forall i | 0 <= i < |after| ensures after[i].dispatchId == a.dispatchId ==> StillOut(after[i], a) {
      assert runs[i] in runs;
      LookIsOut(runs[i], verdict(runs[i]), a);
    }
  }

  lemma LookIsOut(run: WorkRun, verdict: Option<string>, a: ControlAction)
    requires a.StartWorkRun? && (run.dispatchId == a.dispatchId ==> StillOut(run, a) && !Terminal(verdict))
    ensures WithRecovery(run, verdict).dispatchId == run.dispatchId
    ensures run.dispatchId == a.dispatchId ==> StillOut(WithRecovery(run, verdict), a)
  {
    if run.dispatchId == a.dispatchId { LookLeavesOut(run, verdict, a); }
  }

  lemma {:induction false} HoldersOut(runs: seq<WorkRun>, holders: seq<Holder>, items: seq<WorkItem>, a: ControlAction)
    requires a.StartWorkRun? && a.dispatchId.Some? && a.dispatchId.value != "" && OnlyOut(runs, a)
    requires forall h :: h in holders && h.dispatchId == a.dispatchId ==>
                         HolderKey(h, items) == a.workItemKey && Some(h.issue) == a.issue
    ensures OnlyOut(AddHolders(runs, holders, items), a)
  {
    if holders != [] {
      var n := |holders| - 1;
      assert holders[n] in holders;
      HoldersOut(runs, holders[..n], items, a);
      AppendOut(AddHolders(runs, holders[..n], items), HolderRun(holders[n], items), a);
    }
  }

  /** A collection that resolves nothing hands the launch back still out. */
  lemma CollectionLeavesOut(prior: seq<WorkRun>, e: Evidence, items: seq<WorkItem>, a: ControlAction)
    requires a.StartWorkRun? && a.dispatchId.Some? && a.dispatchId.value != ""
    requires OnlyOut(prior, a) && Inconclusive(e, a, items)
    ensures OnlyOut(Collect(prior, e, items), a)
  {
    var merged := MergeRuns(prior, e.base);
    MergeRunsOut(prior, e.base, a);
    var observed := ReadReports(e.reports);
    ReportsOut(e.reports, a);
    MergeEachOut(merged, observed, a);
    LookedOut(MergeEach(merged, observed), e.verdict, a);
    HoldersOut(Looked(MergeEach(merged, observed), e.verdict), e.holders, items, a);
  }

  // ------------------------------------------------------------ every run

  /** If cycle `n` decides anything, it was given what the collector returns on
      the runs it loaded, and nothing it read resolves the launch. */
  ghost predicate CollectedAt(ops: seq<Op>, n: nat, e: Evidence, identity: string, digest: Digest, a: ControlAction)
    requires n < |ops| && a.StartWorkRun?
  {
    ops[n].Cycle? ==>
      forall previous :: Consults(RunOps(ops[..n], identity, digest), previous, digest) ==>
        CollectedFrom(previous, ops[n].input.collected, e, a)
  }

  ghost predicate CollectedFrom(previous: Option<Loaded>, collected: ControlFacts, e: Evidence, a: ControlAction)
    requires a.StartWorkRun?
  {
    && collected.workRuns == Collect(PriorRuns(previous), e, collected.workItems)
    && Inconclusive(e, a, collected.workItems)
  }

  lemma CollectedIsGiven(ops: seq<Op>, n: nat, e: Evidence, identity: string, digest: Digest, a: ControlAction,
                         ordinal: nat)
    requires a.StartWorkRun? && a.dispatchId.Some? && a.dispatchId.value != ""
    requires n < |ops| && CollectedAt(ops, n, e, identity, digest, a)
    ensures GivenAt(ops, n, identity, digest, ordinal, Reporting(a), OutIn(a), HoldIn(a))
  {
    if ops[n].Cycle? {
      forall previous | Consults(RunOps(ops[..n], identity, digest), previous, digest)
                        && Stands(previous, ordinal, OutIn(a), HoldIn(a))
        ensures Reporting(a)(previous, ops[n].input)
      {
        assert CollectedFrom(previous, ops[n].input.collected, e, a);
        CollectionLeavesOut(PriorRuns(previous), e, ops[n].input.collected.workItems, a);
      }
    }
  }

  lemma AllCollectedGiven(ops: seq<Op>, evidence: seq<Evidence>, identity: string, digest: Digest, a: ControlAction,
                          ordinal: nat)
    requires a.StartWorkRun? && a.dispatchId.Some? && a.dispatchId.value != "" && |evidence| == |ops|
    requires forall j :: 0 <= j < |ops| ==> CollectedAt(ops, j, evidence[j], identity, digest, a)
    ensures AllGiven(ops, identity, digest, ordinal, Reporting(a), OutIn(a), HoldIn(a))
  {
    forall j | 0 <= j < |ops| ensures GivenAt(ops, j, identity, digest, ordinal, Reporting(a), OutIn(a), HoldIn(a)) {
      CollectedIsGiven(ops, j, evidence[j], identity, digest, a, ordinal);
    }
  }

  /** The controller with the collector it ships with: while no delivery lands
      or publishes a launched run and no look concludes it, the run stays live
      in every journaled state, and no other cycle launches its Work Item or
      its issue, or an item that needs its resources. */
  lemma CollectorKeepsCustody(ops: seq<Op>, evidence: seq<Evidence>, identity: string, digest: Digest,
                              records: seq<Record>, i: nat, a: ControlAction, k: nat)
    requires records == RecordsOf(RunOps(ops, identity, digest).disk) && |evidence| == |ops|
    requires JournaledLaunch(records, i, a, identity) && i < k && 3 * k < |records|
    requires forall j :: 0 <= j < |ops| ==> CollectedAt(ops, j, evidence[j], identity, digest, a)
    ensures Excluded(records[3 * k].payload, a)
  {
    AllCollectedGiven(ops, evidence, identity, digest, a, i + 1);
    GivenExcludes(ops, identity, digest, records, i, a, k);
  }
}
