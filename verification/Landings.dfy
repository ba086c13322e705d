/** What collections make of launches that land.  Every collection reads every
    dispatch directory again; a run that has landed absorbs what it has already
    been told. */
module Landings {
  import opened Text
  import opened Facts
  import opened Policy
  import opened Merge
  import opened MergeHistory
  import opened RunLists
  import opened Collector
  import opened StorableFacts
  import opened DriverLaws

  // ------------------------------------------------------------ merging what has not changed

  /** A completed run under a dispatch identity. */
  predicate Landed(run: WorkRun) {
    CompletionReady(run) && run.dispatchId.Some?
  }

  predicate AllLanded(runs: seq<WorkRun>) {
    forall i :: 0 <= i < |runs| ==> Landed(runs[i])
  }

  lemma LandedMergesAsIs(run: WorkRun)
    requires Landed(run)
    ensures MergeObservation(run, run) == run
  {
    AgreeMeansOne(run, run, run.candidateSha.value);
  }

  lemma FirstByDispatch(runs: seq<WorkRun>, r: WorkRun, i: nat)
    requires i < |runs| && OncePerDispatch(runs) && r.dispatchId.Some? && runs[i].dispatchId == r.dispatchId
    ensures FirstMatch(runs, r) == Some(i)
  {
    forall j | 0 <= j < i ensures !SameWorkRun(r, runs[j]) {
      assert runs[j].dispatchId.Some? ==> runs[j].dispatchId != runs[i].dispatchId;
    }
    FirstMatchIs(runs, r, i);
  }

  lemma NoneByDispatch(runs: seq<WorkRun>, r: WorkRun)
    requires r.dispatchId.Some? && forall i :: 0 <= i < |runs| ==> runs[i].dispatchId != r.dispatchId
    ensures FirstMatch(runs, r).None?
  {
  }

  /** Every prior run meets the observation it has already become. */
  predicate Absorbed(previous: seq<WorkRun>, current: seq<WorkRun>) {
    && |previous| == |current| && OncePerDispatch(current)
    && forall i :: 0 <= i < |previous| ==>
         && previous[i].dispatchId.Some? && previous[i].dispatchId == current[i].dispatchId
         && MergeObservation(previous[i], current[i]) == current[i]
  }

  lemma AbsorbAsIs(current: seq<WorkRun>, p: WorkRun, i: nat)
    requires i < |current| && OncePerDispatch(current) && p.dispatchId.Some? && p.dispatchId == current[i].dispatchId
    requires MergeObservation(p, current[i]) == current[i]
    ensures Absorb(current, p) == current
  {
    FirstByDispatch(current, p, i);
    assert current[i := current[i]] == current;
  }

  lemma {:induction false} MergeAbsorbed(previous: seq<WorkRun>, current: seq<WorkRun>, n: nat)
    requires Absorbed(previous, current) && n <= |previous|
    ensures MergeRuns(previous[..n], current) == current
  {
    if n > 0 {
      MergeAbsorbed(previous, current, n - 1);
      assert previous[..n][..n - 1] == previous[..n - 1] && previous[..n][n - 1] == previous[n - 1];
      AbsorbAsIs(current, previous[n - 1], n - 1);
    }
  }

  predicate AllDispatched(runs: seq<WorkRun>) {
    forall i :: 0 <= i < |runs| ==> runs[i].dispatchId.Some?
  }

  lemma AppendsLast(previous: seq<WorkRun>, n: nat)
    requires n < |previous| && OncePerDispatch(previous) && AllDispatched(previous)
    ensures Absorb(previous[..n], previous[n]) == previous[..n + 1]
  {
    var part := previous[..n];
    forall i | 0 <= i < |part| ensures part[i].dispatchId != previous[n].dispatchId {
      assert part[i] == previous[i];
    }
    NoneByDispatch(part, previous[n]);
    assert previous[..n + 1] == part + [previous[n]];
  }

  /** History meeting no observations is carried over. */
  lemma {:induction false} MergeIntoNothing(previous: seq<WorkRun>, n: nat)
    requires n <= |previous| && OncePerDispatch(previous) && AllDispatched(previous)
    ensures MergeRuns(previous[..n], []) == previous[..n]
  {
    if n > 0 {
      MergeIntoNothing(previous, n - 1);
      assert previous[..n][..n - 1] == previous[..n - 1] && previous[..n][n - 1] == previous[n - 1];
      AppendsLast(previous, n - 1);
    }
  }

  // ------------------------------------------------------------ each run's own records

  /** What the records that name a run make of it, in the order they are read. */
  function History(run: WorkRun, observed: seq<WorkRun>): WorkRun {
    MergeAll(run, Naming(run, observed))
  }

  lemma HistoryStep(run: WorkRun, observed: seq<WorkRun>)
    requires observed != []
    ensures History(run, observed) ==
            if SameWorkRun(run, observed[0]) then History(MergeObservation(run, observed[0]), observed[1..])
            else History(run, observed[1..])
  {
    var o, rest := observed[0], observed[1..];
    if SameWorkRun(run, o) {
      var next := MergeObservation(run, o);
      MergeKeepsIdentity(run, o, run);
      SameWorkRunIsEquivalence(run, run, run);
      MatchIsSymmetric(next, run);
      NamingAgrees(run, next, rest);
      assert Naming(run, observed)[1..] == Naming(run, rest);
    } else {
      assert Naming(run, observed) == Naming(run, rest);
    }
  }

  lemma {:induction false} HistoryKeepsDispatch(run: WorkRun, observed: seq<WorkRun>)
    ensures History(run, observed).dispatchId == run.dispatchId
    decreases |observed|
  {
    if observed != [] {
      HistoryStep(run, observed);
      if SameWorkRun(run, observed[0]) {
        MergedNames(run, observed[0]);
        HistoryKeepsDispatch(MergeObservation(run, observed[0]), observed[1..]);
      } else {
        HistoryKeepsDispatch(run, observed[1..]);
      }
    }
  }

  /** The record is of the dispatch of one of the runs. */
  predicate Recognized(runs: seq<WorkRun>, o: WorkRun) {
    o.dispatchId.Some? && exists i :: 0 <= i < |runs| && runs[i].dispatchId == o.dispatchId
  }

  predicate AllKnown(runs: seq<WorkRun>, observed: seq<WorkRun>) {
    forall o :: o in observed ==> Recognized(runs, o)
  }

  lemma MergeIntoKnown(runs: seq<WorkRun>, o: WorkRun) returns (i: nat)
    requires OncePerDispatch(runs) && Recognized(runs, o)
    ensures i < |runs| && SameWorkRun(runs[i], o) && MergeInto(runs, o) == runs[i := MergeObservation(runs[i], o)]
    ensures forall j :: 0 <= j < |runs| && j != i ==> !SameWorkRun(runs[j], o)
  {
    i :| i < |runs| && runs[i].dispatchId == o.dispatchId;
    FirstByDispatch(runs, o, i);
  }

  lemma ReplaceKnown(runs: seq<WorkRun>, i: nat, m: WorkRun, observed: seq<WorkRun>)
    requires i < |runs| && OncePerDispatch(runs) && AllDispatched(runs) && AllKnown(runs, observed)
    requires m.dispatchId == runs[i].dispatchId
    ensures OncePerDispatch(runs[i := m]) && AllDispatched(runs[i := m]) && AllKnown(runs[i := m], observed)
  {
    ReplaceOnce(runs, i, m);
    forall o | o in observed ensures Recognized(runs[i := m], o) {
      var j :| 0 <= j < |runs| && runs[j].dispatchId == o.dispatchId;
      assert runs[i := m][j].dispatchId == o.dispatchId;
    }
  }

  /** Reading records of known dispatches merges each run's own history, and adds no run. */
  predicate Histories(runs: seq<WorkRun>, observed: seq<WorkRun>, after: seq<WorkRun>) {
    |after| == |runs| && forall i :: 0 <= i < |runs| ==> after[i] == History(runs[i], observed)
  }

  lemma {:induction false} MergeEachPointwise(runs: seq<WorkRun>, observed: seq<WorkRun>)
    requires OncePerDispatch(runs) && AllDispatched(runs) && AllKnown(runs, observed)
    ensures Histories(runs, observed, MergeEach(runs, observed))
    decreases |observed|
  {
    if observed != [] {
      var o, rest := observed[0], observed[1..];
      assert o in observed;
      var i := MergeIntoKnown(runs, o);
      var m := MergeObservation(runs[i], o);
      MergedNames(runs[i], o);
      ReplaceKnown(runs, i, m, rest);
      MergeEachPointwise(runs[i := m], rest);
      forall j | 0 <= j < |runs| ensures History(runs[i := m][j], rest) == History(runs[j], observed) {
        HistoryStep(runs[j], observed);
      }
    }
  }

  // ------------------------------------------------------------ one landing

  /** What is journaled between a launch and its landing. */
  predicate Pending(prior: seq<WorkRun>, landed: seq<WorkRun>, launched: WorkRun) {
    && prior == landed + [launched] && AllLanded(landed) && OncePerDispatch(prior)
    && launched.dispatchId.Some? && launched.workItemKey.Some?
    && launched == BareRun(launched.key, RECORDED_LAUNCH_STATE).(
                     workItemKey := launched.workItemKey, dispatchId := launched.dispatchId,
                     worktree := launched.worktree, issue := launched.issue)
  }

  /** The run has landed complete, names no issue but the launch's, and goes by
      no other launch's run key. */
  ghost predicate LandsAs(launched: WorkRun, m: WorkRun) {
    CompletionReady(m) && m.issue == launched.issue && Neat(m)
  }

  ghost predicate Neat(run: WorkRun) {
    StorableRun(run) && (RunKey(run.key) ==> Some(run.key) == run.dispatchId)
  }

  /** A bare launch adds nothing to a run that has its binding already. */
  lemma BareAbsorbs(launched: WorkRun, m: WorkRun)
    requires launched == BareRun(launched.key, RECORDED_LAUNCH_STATE).(
                           workItemKey := launched.workItemKey, dispatchId := launched.dispatchId,
                           worktree := launched.worktree, issue := launched.issue)
    requires launched.dispatchId.Some? && launched.dispatchId == m.dispatchId && CompletionReady(m)
    requires m.recoveryKind.Some? ==> m.recoveryKind.value != ""
    requires launched.workItemKey.Some? ==> m.workItemKey == launched.workItemKey
    requires launched.issue.Some? ==> m.issue == launched.issue
    requires launched.worktree.Some? ==> m.worktree == launched.worktree
    ensures MergeObservation(launched, m) == m
  {
    AgreeMeansOne(launched, m, m.candidateSha.value);
    assert Merge.Filled(launched, m) == m;
  }

  lemma LaunchAbsorbs(prior: seq<WorkRun>, landed: seq<WorkRun>, launched: WorkRun, observed: seq<WorkRun>)
    requires Pending(prior, landed, launched) && LandsAs(launched, History(launched, observed))
    ensures var m := History(launched, observed);
            && Landed(m) && m.dispatchId == launched.dispatchId && m.workItemKey == launched.workItemKey
            && MergeObservation(launched, m) == m
  {
    HistoryKeepsDispatch(launched, observed);
    StampsAreKept(launched, Naming(launched, observed));
    BareAbsorbs(launched, History(launched, observed));
  }

  // ------------------------------------------------------------ one collection

  lemma {:induction false} LandedAreSettled(runs: seq<WorkRun>, verdict: WorkRun -> Option<string>)
    requires AllLanded(runs)
    ensures Looked(runs, verdict) == runs
  {
    var after := Looked(runs, verdict);
    forall i | 0 <= i < |runs| ensures after[i] == runs[i] {
      assert Landed(runs[i]) && Settled(runs[i]);
    }
  }

  lemma LandedAreDispatched(runs: seq<WorkRun>)
    requires AllLanded(runs)
    ensures AllDispatched(runs)
  {
    forall i | 0 <= i < |runs| ensures runs[i].dispatchId.Some? {
      assert Landed(runs[i]);
    }
  }

  lemma SettledCarriesOver(runs: seq<WorkRun>)
    requires AllDispatched(runs) && OncePerDispatch(runs)
    ensures MergeRuns(runs, []) == runs
  {
    MergeIntoNothing(runs, |runs|);
    assert runs[..|runs|] == runs;
  }

  lemma SettledAbsorbs(landed: seq<WorkRun>)
    requires AllLanded(landed) && OncePerDispatch(landed)
    ensures Absorbed(landed, landed)
  {
    forall i | 0 <= i < |landed|
      ensures landed[i].dispatchId.Some? && MergeObservation(landed[i], landed[i]) == landed[i]
    {
      assert Landed(landed[i]);
      LandedMergesAsIs(landed[i]);
    }
  }

  lemma OneMoreLanded(prior: seq<WorkRun>, landed: seq<WorkRun>, launched: WorkRun, m: WorkRun)
    requires prior == landed + [launched] && AllLanded(landed) && OncePerDispatch(prior)
    requires Landed(m) && m.dispatchId == launched.dispatchId && MergeObservation(launched, m) == m
    ensures AllLanded(landed + [m]) && OncePerDispatch(landed + [m]) && Absorbed(prior, landed + [m])
  {
    var n, after := |landed|, landed + [m];
    assert after == prior[n := m];
    ReplaceOnce(prior, n, m);
    forall i | 0 <= i < |prior|
      ensures prior[i].dispatchId.Some? && prior[i].dispatchId == after[i].dispatchId
      ensures MergeObservation(prior[i], after[i]) == after[i]
    {
      if i < n {
        assert Landed(landed[i]);
        LandedMergesAsIs(landed[i]);
      }
    }
  }

  /** What is read says nothing new of the run. */
  predicate Settles(run: WorkRun, observed: seq<WorkRun>) {
    History(run, observed) == run
  }

  predicate AllSettle(runs: seq<WorkRun>, observed: seq<WorkRun>) {
    forall i :: 0 <= i < |runs| ==> Settles(runs[i], observed)
  }

  /** Only records of the prior dispatches are read: no base list, and no holders. */
  predicate ReadsOnly(prior: seq<WorkRun>, e: Evidence) {
    e.base == [] && e.holders == [] && AllKnown(prior, ReadReports(e.reports))
  }

  /** When all that is read has been told before, a collection changes nothing. */
  lemma CollectSettled(landed: seq<WorkRun>, e: Evidence, items: seq<WorkItem>)
    requires AllLanded(landed) && OncePerDispatch(landed) && ReadsOnly(landed, e)
    requires AllSettle(landed, ReadReports(e.reports))
    ensures Collect(landed, e, items) == landed
  {
    LandedAreDispatched(landed);
    SettledCarriesOver(landed);
    MergeEachPointwise(landed, ReadReports(e.reports));
    assert MergeEach(landed, ReadReports(e.reports)) == landed;
    LandedAreSettled(landed, e.verdict);
  }

  lemma PendingIsDispatched(prior: seq<WorkRun>, landed: seq<WorkRun>, launched: WorkRun)
    requires Pending(prior, landed, launched)
    ensures AllDispatched(prior)
  {
    LandedAreDispatched(landed);
    forall i | 0 <= i < |prior| ensures prior[i].dispatchId.Some? {
      if i < |landed| { assert prior[i] == landed[i]; }
    }
  }

  lemma HistoriesLand(prior: seq<WorkRun>, landed: seq<WorkRun>, launched: WorkRun, observed: seq<WorkRun>,
                      after: seq<WorkRun>)
    requires prior == landed + [launched] && Histories(prior, observed, after) && AllSettle(landed, observed)
    ensures after == landed + [History(launched, observed)]
  {
    forall i | 0 <= i < |landed| ensures after[i] == landed[i] {
      assert prior[i] == landed[i] && Settles(landed[i], observed);
    }
  }

  /** What is read lands the pending launch, and tells the rest nothing new:
      there is one more landed run. */
  lemma CollectLanding(prior: seq<WorkRun>, landed: seq<WorkRun>, launched: WorkRun, e: Evidence, items: seq<WorkItem>)
    requires Pending(prior, landed, launched) && ReadsOnly(prior, e) && AllSettle(landed, ReadReports(e.reports))
    requires LandsAs(launched, History(launched, ReadReports(e.reports)))
    ensures var after := landed + [History(launched, ReadReports(e.reports))];
            && Collect(prior, e, items) == after
            && AllLanded(after) && OncePerDispatch(after) && Absorbed(prior, after)
  {
    var observed := ReadReports(e.reports);
    var m := History(launched, observed);
    LaunchAbsorbs(prior, landed, launched, observed);
    PendingIsDispatched(prior, landed, launched);
    SettledCarriesOver(prior);
    OneMoreLanded(prior, landed, launched, m);
    MergeEachPointwise(prior, observed);
    HistoriesLand(prior, landed, launched, observed, MergeEach(prior, observed));
    LandedAreSettled(landed + [m], e.verdict);
  }
}
