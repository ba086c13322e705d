/** The shipped collector under any claims: dispatch records may name whatever
    Work Item, issue or progress they like, and until one publishes a result or
    a look concludes, the launched run keeps its own binding and its slot. */
module Claims {
  import opened Text
  import opened Facts
  import opened Merge
  import opened RunLists
  import opened Collector
  import opened Journal
  import opened Driver
  import opened DriverLaws
  import opened DriverRuns
  import opened DriverSafety
  import opened Tenure
  import opened Binding

  // ------------------------------------------------------------ what one collection reads

  /** Nothing read names the dispatch. */
  ghost predicate SaysNothing(e: Evidence, a: ControlAction)
    requires a.StartWorkRun?
  {
    && Unnamed(e.base, a)
    && (forall r :: r in e.reports ==> !IsOf(ReadReport(r), a))
    && (forall h :: h in e.holders ==> h.dispatchId != a.dispatchId)
  }

  /** A record of the dispatch other than a standalone delivery: those may say
      what they like, under no other launch's run key. */
  ghost predicate Resolves(r: Report, a: ControlAction)
    requires a.StartWorkRun?
  {
    IsOf(ReadReport(r), a) &&
    !(r.Progress? && (RunKey(r.raw.key) ==> Some(r.raw.key) == a.dispatchId))
  }

  /** Nothing read resolves the launch.  Holders may say anything. */
  ghost predicate SettlesNothing(e: Evidence, a: ControlAction)
    requires a.StartWorkRun?
  {
    && OutOnce(e.base, a)
    && (forall r :: r in e.reports ==> !Resolves(r, a))
    && (forall run: WorkRun :: IsOf(run, a) ==> !Terminal(e.verdict(run)))
  }

  // ------------------------------------------------------------ one collection

  lemma ReportIsOut(r: Report, a: ControlAction)
    requires a.StartWorkRun? && IsOf(ReadReport(r), a) && !Resolves(r, a)
    ensures Out(ReadReport(r), a)
  {
  }

  lemma FindsHeld(runs: seq<WorkRun>, o: WorkRun, a: ControlAction)
    requires a.StartWorkRun? && a.dispatchId.Some? && Held(runs, a) && IsOf(o, a)
    ensures FirstMatch(runs, o).Some?
  {
    var run :| run in runs && IsOf(run, a);
    var i :| 0 <= i < |runs| && runs[i] == run;
    assert SameWorkRun(o, runs[i]);
  }

  lemma MergeIntoHeld(runs: seq<WorkRun>, o: WorkRun, a: ControlAction)
    requires a.StartWorkRun? && a.dispatchId.Some? && Held(runs, a) && (IsOf(o, a) ==> Out(o, a))
    ensures Held(MergeInto(runs, o), a)
  {
    var f := FirstMatch(runs, o);
    if IsOf(o, a) { FindsHeld(runs, o, a); }
    if f.None? {
      AppendOther(runs, o, a);
    } else {
      var c := runs[f.value];
      MatchIsSymmetric(c, o);
      MergedNames(c, o);
      if IsOf(o, a) { MergeOwn(c, o, a); }
      ReplaceOf(runs, f.value, MergeObservation(c, o), a);
    }
  }

  lemma {:induction false} MergeEachHeld(runs: seq<WorkRun>, observed: seq<WorkRun>, a: ControlAction)
    requires a.StartWorkRun? && a.dispatchId.Some? && Held(runs, a)
    requires forall o :: o in observed && IsOf(o, a) ==> Out(o, a)
    ensures Held(MergeEach(runs, observed), a)
    decreases |observed|
  {
    if observed != [] {
      assert observed[0] in observed;
      MergeIntoHeld(runs, observed[0], a);
      MergeEachHeld(MergeInto(runs, observed[0]), observed[1..], a);
    }
  }

  lemma {:induction false} MergeEachUnnamed(runs: seq<WorkRun>, observed: seq<WorkRun>, a: ControlAction)
    requires a.StartWorkRun? && Unnamed(runs, a) && Unnamed(observed, a)
    ensures Unnamed(MergeEach(runs, observed), a)
    decreases |observed|
  {
    if observed != [] {
      var o := observed[0];
      assert o in observed;
      var f := FirstMatch(runs, o);
      if f.None? {
        AppendOther(runs, o, a);
      } else {
        assert runs[f.value] in runs;
        MatchIsSymmetric(runs[f.value], o);
        MergedNames(runs[f.value], o);
        ReplaceOf(runs, f.value, MergeObservation(runs[f.value], o), a);
      }
      MergeEachUnnamed(MergeInto(runs, o), observed[1..], a);
    }
  }

  lemma LookKeepsOwn(run: WorkRun, verdict: Option<string>, a: ControlAction)
    requires a.StartWorkRun? && Own(run, a) && !Terminal(verdict)
    ensures Own(WithRecovery(run, verdict), a)
  {
  }

  lemma LookedAt(runs: seq<WorkRun>, verdict: WorkRun -> Option<string>, a: ControlAction, i: nat)
    requires a.StartWorkRun? && Held(runs, a) && i < |runs| && (IsOf(runs[i], a) ==> !Terminal(verdict(runs[i])))
    ensures IsOf(Looked(runs, verdict)[i], a) <==> IsOf(runs[i], a)
    ensures IsOf(runs[i], a) ==> Own(Looked(runs, verdict)[i], a)
  {
    if IsOf(runs[i], a) { LookKeepsOwn(runs[i], verdict(runs[i]), a); }
  }

  lemma LookedHeld(runs: seq<WorkRun>, verdict: WorkRun -> Option<string>, a: ControlAction)
    requires a.StartWorkRun? && Held(runs, a)
    requires forall run: WorkRun :: IsOf(run, a) ==> !Terminal(verdict(run))
    ensures Held(Looked(runs, verdict), a)
  {
    var after := Looked(runs, verdict);
    forall i | 0 <= i < |runs|
      ensures IsOf(after[i], a) <==> IsOf(runs[i], a)
      ensures IsOf(after[i], a) ==> Own(after[i], a)
    {
      LookedAt(runs, verdict, a, i);
    }
    var run :| run in runs && IsOf(run, a);
    var i :| 0 <= i < |runs| && runs[i] == run;
    assert after[i] in after;
  }

  lemma LookedUnnamed(runs: seq<WorkRun>, verdict: WorkRun -> Option<string>, a: ControlAction)
    requires a.StartWorkRun? && Unnamed(runs, a)
    ensures Unnamed(Looked(runs, verdict), a)
  {
    var after := Looked(runs, verdict);
    forall i | 0 <= i < |after| ensures !IsOf(after[i], a) {
      assert runs[i] in runs;
    }
  }

  /** A holder of the dispatch finds the held run, whatever its issue. */
  lemma {:induction false} HoldersHeld(runs: seq<WorkRun>, holders: seq<Holder>, items: seq<WorkItem>, a: ControlAction)
    requires a.StartWorkRun? && a.dispatchId.Some? && Held(runs, a)
    ensures Held(AddHolders(runs, holders, items), a)
  {
    if holders != [] {
      var n := |holders| - 1;
      var before, h := AddHolders(runs, holders[..n], items), holders[n];
      HoldersHeld(runs, holders[..n], items, a);
      if h.dispatchId == a.dispatchId {
        var run :| run in before && IsOf(run, a);
        assert MatchesHolder(run, h, items);
      } else {
        AppendOther(before, HolderRun(h, items), a);
      }
    }
  }

  lemma {:induction false} HoldersUnnamed(runs: seq<WorkRun>, holders: seq<Holder>, items: seq<WorkItem>,
                                          a: ControlAction)
    requires a.StartWorkRun? && Unnamed(runs, a) && forall h :: h in holders ==> h.dispatchId != a.dispatchId
    ensures Unnamed(AddHolders(runs, holders, items), a)
  {
    if holders != [] {
      var n := |holders| - 1;
      assert holders[n] in holders;
      HoldersUnnamed(runs, holders[..n], items, a);
      AppendOther(AddHolders(runs, holders[..n], items), HolderRun(holders[n], items), a);
    }
  }

  /** A collection that settles nothing hands the held launch back held. */
  lemma CollectionHolds(prior: seq<WorkRun>, e: Evidence, items: seq<WorkItem>, a: ControlAction)
    requires a.StartWorkRun? && a.dispatchId.Some? && Held(prior, a) && SettlesNothing(e, a)
    ensures Held(Collect(prior, e, items), a)
  {
    var merged, observed := MergeRuns(prior, e.base), ReadReports(e.reports);
    MergeRunsHeld(prior, e.base, a);
    forall o | o in observed && IsOf(o, a) ensures Out(o, a) {
      var i :| 0 <= i < |observed| && observed[i] == o;
      assert e.reports[i] in e.reports;
      ReportIsOut(e.reports[i], a);
    }
    MergeEachHeld(merged, observed, a);
    LookedHeld(MergeEach(merged, observed), e.verdict, a);
    HoldersHeld(Looked(MergeEach(merged, observed), e.verdict), e.holders, items, a);
  }

  lemma CollectionUnnamed(prior: seq<WorkRun>, e: Evidence, items: seq<WorkItem>, a: ControlAction)
    requires a.StartWorkRun? && Unnamed(prior, a) && SaysNothing(e, a)
    ensures Unnamed(Collect(prior, e, items), a)
  {
    var merged, observed := MergeRuns(prior, e.base), ReadReports(e.reports);
    MergeRunsUnnamed(prior, e.base, a);
    forall o | o in observed ensures !IsOf(o, a) {
      var i :| 0 <= i < |observed| && observed[i] == o;
      assert e.reports[i] in e.reports;
    }
    MergeEachUnnamed(merged, observed, a);
    LookedUnnamed(MergeEach(merged, observed), e.verdict, a);
    HoldersUnnamed(Looked(MergeEach(merged, observed), e.verdict), e.holders, items, a);
  }

  // ------------------------------------------------------------ every run

  /** If cycle `n` decides anything, it was given what the collector returns on
      the runs it loaded, and read nothing of the dispatch before its launch by
      cycle `ordinal`, and nothing that settles it afterwards. */
  ghost predicate CollectedAt(ops: seq<Op>, n: nat, e: Evidence, identity: string, digest: Digest, a: ControlAction,
                              ordinal: nat)
    requires n < |ops| && a.StartWorkRun?
  {
    ops[n].Cycle? ==>
      forall previous :: Consults(RunOps(ops[..n], identity, digest), previous, digest) ==>
        CollectedFrom(previous, ops[n].input.collected, e, a, ordinal)
  }

  ghost predicate CollectedFrom(previous: Option<Loaded>, collected: ControlFacts, e: Evidence, a: ControlAction,
                                ordinal: nat)
    requires a.StartWorkRun?
  {
    && collected.workRuns == Collect(PriorRuns(previous), e, collected.workItems)
    && (if NextCycleNumber(previous) <= ordinal then SaysNothing(e, a) else SettlesNothing(e, a))
  }

  lemma CollectedReports(previous: Option<Loaded>, input: CycleInput, e: Evidence, a: ControlAction, ordinal: nat)
    requires a.StartWorkRun? && a.dispatchId.Some? && Stands(previous, ordinal, UnnamedIn(a), HeldIn(a))
    requires CollectedFrom(previous, input.collected, e, a, ordinal)
    ensures Reports(previous, input, a, ordinal)
  {
    if NextCycleNumber(previous) <= ordinal {
      CollectionUnnamed(PriorRuns(previous), e, input.collected.workItems, a);
    } else {
      CollectionHolds(PriorRuns(previous), e, input.collected.workItems, a);
      OwnIsOut(input.collected.workRuns, a);
    }
  }

  lemma CollectedIsGiven(ops: seq<Op>, n: nat, e: Evidence, identity: string, digest: Digest, a: ControlAction,
                         ordinal: nat)
    requires a.StartWorkRun? && a.dispatchId.Some?
    requires n < |ops| && CollectedAt(ops, n, e, identity, digest, a, ordinal)
    ensures GivenAt(ops, n, identity, digest, ordinal, Reporting(a, ordinal), UnnamedIn(a), HeldIn(a))
  {
    if ops[n].Cycle? {
      forall previous | Consults(RunOps(ops[..n], identity, digest), previous, digest)
                        && Stands(previous, ordinal, UnnamedIn(a), HeldIn(a))
        ensures Reporting(a, ordinal)(previous, ops[n].input)
      {
        assert CollectedFrom(previous, ops[n].input.collected, e, a, ordinal);
        CollectedReports(previous, ops[n].input, e, a, ordinal);
      }
    }
  }

  lemma AllCollectedGiven(ops: seq<Op>, evidence: seq<Evidence>, identity: string, digest: Digest, a: ControlAction,
                          ordinal: nat)
    requires a.StartWorkRun? && a.dispatchId.Some? && |evidence| == |ops|
    requires forall j :: 0 <= j < |ops| ==> CollectedAt(ops, j, evidence[j], identity, digest, a, ordinal)
    ensures AllGiven(ops, identity, digest, ordinal, Reporting(a, ordinal), UnnamedIn(a), HeldIn(a))
  {
    forall j | 0 <= j < |ops|
      ensures GivenAt(ops, j, identity, digest, ordinal, Reporting(a, ordinal), UnnamedIn(a), HeldIn(a))
    {
      CollectedIsGiven(ops, j, evidence[j], identity, digest, a, ordinal);
    }
  }

  /** The controller with the collector it ships with, under any claims: once
      launched, and until a result of its dispatch is published or a look
      concludes it, the run stays live under its own Work Item and issue in
      every journaled state, and no other cycle launches them, or an item that
      needs its resources. */
  lemma CollectorKeepsBinding(ops: seq<Op>, evidence: seq<Evidence>, identity: string, digest: Digest,
                              records: seq<Record>, i: nat, a: ControlAction, k: nat)
    requires records == RecordsOf(RunOps(ops, identity, digest).disk) && |evidence| == |ops|
    requires JournaledLaunch(records, i, a, identity) && i < k && 3 * k < |records|
    requires forall j :: 0 <= j < |ops| ==> CollectedAt(ops, j, evidence[j], identity, digest, a, i + 1)
    ensures Excluded(records[3 * k].payload, a)
  {
    AllCollectedGiven(ops, evidence, identity, digest, a, i + 1);
    GivenExcludes(ops, identity, digest, records, i, a, k);
  }
}
