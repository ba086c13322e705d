/** Write-once binding over whole runs: once launched, a run keeps its own Work
    Item and issue whatever later records claim, so nothing that leaves it
    unresolved can talk the controller into launching its item again. */
module Binding {
  import opened Text
  import opened Facts
  import opened Policy
  import opened Launch
  import opened Merge
  import opened MergeHistory
  import opened RunLists
  import opened Journal
  import opened Driver
  import opened DriverLaws
  import opened DriverRuns
  import opened DriverSafety
  import opened Tenure

  // ------------------------------------------------------------ lists that hold the launch

  predicate IsOf(run: WorkRun, a: ControlAction)
    requires a.StartWorkRun?
  {
    run.dispatchId == a.dispatchId
  }

  predicate Unnamed(runs: seq<WorkRun>, a: ControlAction)
    requires a.StartWorkRun?
  {
    forall run :: run in runs ==> !IsOf(run, a)
  }

  /** Unresolved, and under no other launch's run key; any Work Item and issue may be claimed. */
  ghost predicate Out(run: WorkRun, a: ControlAction)
    requires a.StartWorkRun?
  {
    Unresolved(run) && (RunKey(run.key) ==> Some(run.key) == a.dispatchId)
  }

  /** Out, under the launch's own Work Item and issue. */
  ghost predicate Own(run: WorkRun, a: ControlAction)
    requires a.StartWorkRun?
  {
    && IsOf(run, a) && Out(run, a)
    && run.workItemKey == Some(a.workItemKey) && (a.issue.Some? ==> run.issue == a.issue)
  }

  predicate AtMostOne(runs: seq<WorkRun>, a: ControlAction)
    requires a.StartWorkRun?
  {
    forall i, j :: 0 <= i < j < |runs| ==> !(IsOf(runs[i], a) && IsOf(runs[j], a))
  }

  /** At most one run of the dispatch, and it is out. */
  ghost predicate OutOnce(runs: seq<WorkRun>, a: ControlAction)
    requires a.StartWorkRun?
  {
    AtMostOne(runs, a) && forall i :: 0 <= i < |runs| && IsOf(runs[i], a) ==> Out(runs[i], a)
  }

  /** At most one run of the dispatch, and it is the launch's own. */
  ghost predicate OwnOnce(runs: seq<WorkRun>, a: ControlAction)
    requires a.StartWorkRun?
  {
    AtMostOne(runs, a) && forall i :: 0 <= i < |runs| && IsOf(runs[i], a) ==> Own(runs[i], a)
  }

  /** Exactly one run of the dispatch, and it is the launch's own. */
  ghost predicate Held(runs: seq<WorkRun>, a: ControlAction)
    requires a.StartWorkRun?
  {
    OwnOnce(runs, a) && !Unnamed(runs, a)
  }

  lemma MergeOut(p: WorkRun, c: WorkRun, a: ControlAction)
    requires a.StartWorkRun? && a.dispatchId.Some? && IsOf(p, a) && IsOf(c, a) && Out(p, a) && Out(c, a)
    ensures IsOf(MergeObservation(p, c), a) && Out(MergeObservation(p, c), a)
  {
    MergedNames(p, c);
  }

  /** The prior binding wins over whatever the observation claims. */
  lemma MergeOwn(p: WorkRun, c: WorkRun, a: ControlAction)
    requires a.StartWorkRun? && a.dispatchId.Some? && Own(p, a) && IsOf(c, a) && Out(c, a)
    ensures Own(MergeObservation(p, c), a)
  {
    MergeOut(p, c, a);
  }

  lemma ReplaceOf(runs: seq<WorkRun>, i: nat, m: WorkRun, a: ControlAction)
    requires a.StartWorkRun? && i < |runs| && (IsOf(m, a) <==> IsOf(runs[i], a))
    ensures AtMostOne(runs, a) ==> AtMostOne(runs[i := m], a)
    ensures OutOnce(runs, a) && (IsOf(m, a) ==> Out(m, a)) ==> OutOnce(runs[i := m], a)
    ensures OwnOnce(runs, a) && (IsOf(m, a) ==> Own(m, a)) ==> OwnOnce(runs[i := m], a)
    ensures Unnamed(runs[i := m], a) <==> Unnamed(runs, a)
  {
    var after := runs[i := m];
    if Unnamed(runs, a) {
      assert runs[i] in runs;
    } else {
      var run :| run in runs && IsOf(run, a);
      var j :| 0 <= j < |runs| && runs[j] == run;
      assert after[j] == if j == i then m else run;
      assert after[j] in after;
    }
  }

  lemma AppendOther(runs: seq<WorkRun>, p: WorkRun, a: ControlAction)
    requires a.StartWorkRun? && !IsOf(p, a)
    ensures OutOnce(runs, a) ==> OutOnce(runs + [p], a)
    ensures OwnOnce(runs, a) ==> OwnOnce(runs + [p], a)
    ensures Unnamed(runs + [p], a) <==> Unnamed(runs, a)
  {
    if !Unnamed(runs, a) {
      var run :| run in runs && IsOf(run, a);
      assert run in runs + [p];
    }
  }

  lemma AppendOwn(runs: seq<WorkRun>, p: WorkRun, a: ControlAction)
    requires a.StartWorkRun? && Own(p, a) && Unnamed(runs, a)
    ensures Held(runs + [p], a)
  {
    var after := runs + [p];
    forall i | 0 <= i < |runs| ensures !IsOf(after[i], a) {
      assert runs[i] in runs;
    }
    assert p in after;
  }

  lemma OwnIsOut(runs: seq<WorkRun>, a: ControlAction)
    requires a.StartWorkRun? && OwnOnce(runs, a)
    ensures OutOnce(runs, a)
  {
  }

  lemma OnlyOneOf(runs: seq<WorkRun>, i: nat, a: ControlAction)
    requires a.StartWorkRun? && i < |runs| && AtMostOne(runs, a) && IsOf(runs[i], a)
    ensures forall j :: 0 <= j < |runs| && j != i ==> !IsOf(runs[j], a)
  {
    forall j | 0 <= j < |runs| && j != i ensures !IsOf(runs[j], a) {
      var first, second := if i < j then i else j, if i < j then j else i;
      assert !(IsOf(runs[first], a) && IsOf(runs[second], a));
    }
  }

  /** A list out once, once its run of the dispatch has been merged under the launch's own. */
  lemma OwnReplaces(runs: seq<WorkRun>, i: nat, m: WorkRun, a: ControlAction)
    requires a.StartWorkRun? && i < |runs| && OutOnce(runs, a) && IsOf(runs[i], a) && Own(m, a)
    ensures Held(runs[i := m], a)
  {
    var after := runs[i := m];
    ReplaceOf(runs, i, m, a);
    OnlyOneOf(runs, i, a);
    assert after[i] in after;
  }

  lemma AbsorbOther(current: seq<WorkRun>, p: WorkRun, a: ControlAction)
    requires a.StartWorkRun? && !IsOf(p, a)
    ensures OutOnce(current, a) ==> OutOnce(Absorb(current, p), a)
    ensures OwnOnce(current, a) ==> OwnOnce(Absorb(current, p), a)
    ensures Unnamed(Absorb(current, p), a) <==> Unnamed(current, a)
  {
    var f := FirstMatch(current, p);
    if f.None? {
      AppendOther(current, p, a);
    } else {
      MergedNames(p, current[f.value]);
      ReplaceOf(current, f.value, MergeObservation(p, current[f.value]), a);
    }
  }

  lemma AbsorbOwn(current: seq<WorkRun>, p: WorkRun, a: ControlAction)
    requires a.StartWorkRun? && a.dispatchId.Some? && Own(p, a) && OutOnce(current, a)
    ensures Held(Absorb(current, p), a)
  {
    var f := FirstMatch(current, p);
    if f.None? {
      forall run | run in current ensures !IsOf(run, a) {
        var i :| 0 <= i < |current| && current[i] == run;
        assert !SameWorkRun(p, current[i]);
      }
      AppendOwn(current, p, a);
    } else {
      MergeOwn(p, current[f.value], a);
      OwnReplaces(current, f.value, MergeObservation(p, current[f.value]), a);
    }
  }

  /** Merging held history with observations that leave the run out holds it. */
  lemma {:induction false} MergeRunsHeld(previous: seq<WorkRun>, current: seq<WorkRun>, a: ControlAction)
    requires a.StartWorkRun? && a.dispatchId.Some? && OwnOnce(previous, a) && OutOnce(current, a)
    ensures OutOnce(MergeRuns(previous, current), a)
    ensures !Unnamed(previous, a) ==> Held(MergeRuns(previous, current), a)
  {
    if previous != [] {
      var n := |previous| - 1;
      var rest, p := previous[..n], previous[n];
      assert previous == rest + [p];
      MergeRunsHeld(rest, current, a);
      if IsOf(p, a) {
        AbsorbOwn(MergeRuns(rest, current), p, a);
        OwnIsOut(Absorb(MergeRuns(rest, current), p), a);
      } else {
        AbsorbOther(MergeRuns(rest, current), p, a);
        AppendOther(rest, p, a);
      }
    }
  }

  lemma {:induction false} MergeRunsUnnamed(previous: seq<WorkRun>, current: seq<WorkRun>, a: ControlAction)
    requires a.StartWorkRun? && Unnamed(previous, a) && Unnamed(current, a)
    ensures Unnamed(MergeRuns(previous, current), a)
  {
    if previous != [] {
      var n := |previous| - 1;
      assert previous[n] in previous;
      MergeRunsUnnamed(previous[..n], current, a);
      AbsorbOther(MergeRuns(previous[..n], current), previous[n], a);
    }
  }

  // ------------------------------------------------------------ one decision

  lemma {:induction false} KeptOnce(runs: seq<WorkRun>, f: ControlFacts, action: ControlAction, runKey: string,
                                    a: ControlAction)
    requires action.StartWorkRun? && a.StartWorkRun? && OwnOnce(runs, a)
    ensures OwnOnce(Kept(runs, f, action, runKey), a)
    ensures Unnamed(runs, a) ==> Unnamed(Kept(runs, f, action, runKey), a)
  {
    if runs != [] {
      var n := |runs| - 1;
      var rest, run := runs[..n], runs[n];
      assert runs == rest + [run] && run in runs;
      KeptOnce(rest, f, action, runKey, a);
      var kept := Kept(rest, f, action, runKey);
      if !Displaced(run, f, action, runKey) {
        if IsOf(run, a) {
          OnlyOneOf(runs, n, a);
          assert Unnamed(rest, a);
          AppendOwn(kept, run, a);
        } else {
          AppendOther(kept, run, a);
        }
      }
    }
  }

  /** Another launch leaves the held run where it is, and is for something else. */
  lemma LaunchLeavesHeld(f: ControlFacts, a: ControlAction, key: string)
    requires a.StartWorkRun? && Held(f.workRuns, a) && Derive(f).actions != []
    requires RunKey(key) && Some(key) != a.dispatchId
    ensures var action := Bind(Derive(f).actions[0], key);
            Held(WithWorkRun(f, action, key, key).workRuns, a) && LaunchesOther([action], a)
  {
    var action := Bind(Derive(f).actions[0], key);
    var r :| r in f.workRuns && IsOf(r, a);
    assert Own(r, a) && OwnsSlot(r, f.workItems) && r in LiveWorkRuns(f);
    NextIsEligible(f);
    assert !RunMatchesItem(r, NextWorkItem(f).value);
    KeptOnce(f.workRuns, f, action, key, a);
    KeptMembers(f.workRuns, f, action, key, r);
    var kept := Kept(f.workRuns, f, action, key);
    assert r in kept;
    AppendOther(kept, LaunchedRun(action, key, key), a);
  }

  lemma OtherLaunchUnnamed(f: ControlFacts, a: ControlAction, key: string)
    requires a.StartWorkRun? && Unnamed(f.workRuns, a) && Derive(f).actions != [] && Some(key) != a.dispatchId
    ensures Unnamed(WithWorkRun(f, Bind(Derive(f).actions[0], key), key, key).workRuns, a)
  {
    var action := Bind(Derive(f).actions[0], key);
    KeptOnce(f.workRuns, f, action, key, a);
    AppendOther(Kept(f.workRuns, f, action, key), LaunchedRun(action, key, key), a);
  }

  lemma OwnLaunchHeld(f: ControlFacts, a: ControlAction)
    requires a.StartWorkRun? && a.dispatchId.Some? && Unnamed(f.workRuns, a) && Derive(f).actions != []
    requires a == Bind(Derive(f).actions[0], a.dispatchId.value)
    ensures Held(WithWorkRun(f, a, a.dispatchId.value, a.dispatchId.value).workRuns, a)
  {
    var d := a.dispatchId.value;
    KeptOnce(f.workRuns, f, a, d, a);
    AppendOwn(Kept(f.workRuns, f, a, d), LaunchedRun(a, d, d), a);
  }

  ghost function UnnamedIn(a: ControlAction): seq<WorkRun> -> bool
    requires a.StartWorkRun?
  {
    (runs: seq<WorkRun>) => Unnamed(runs, a)
  }

  ghost function HeldIn(a: ControlAction): seq<WorkRun> -> bool
    requires a.StartWorkRun?
  {
    (runs: seq<WorkRun>) => Held(runs, a)
  }

  lemma HeldSurvives(a: ControlAction)
    requires a.StartWorkRun? && a.dispatchId.Some?
    ensures Survives(a, UnnamedIn(a), HeldIn(a))
  {
    forall f, key | Derive(f).actions != [] && UnnamedIn(a)(f.workRuns) && Some(key) != a.dispatchId
      ensures UnnamedIn(a)(Recorded(f, key).workRuns)
    {
      OtherLaunchUnnamed(f, a, key);
    }
    forall f | Derive(f).actions != [] && UnnamedIn(a)(f.workRuns)
      && a == Bind(Derive(f).actions[0], a.dispatchId.value)
      ensures HeldIn(a)(Recorded(f, a.dispatchId.value).workRuns)
    {
      OwnLaunchHeld(f, a);
    }
    forall f, key | Derive(f).actions != [] && HeldIn(a)(f.workRuns) && RunKey(key) && Some(key) != a.dispatchId
      ensures HeldIn(a)(Recorded(f, key).workRuns) && LaunchesOther([Bind(Derive(f).actions[0], key)], a)
    {
      LaunchLeavesHeld(f, a, key);
    }
  }

  /** What may be collected: nothing of the dispatch until its launch is
      journaled by cycle `ordinal`, and at most one unresolved run of it afterwards. */
  ghost predicate Reports(previous: Option<Loaded>, input: CycleInput, a: ControlAction, ordinal: nat)
    requires a.StartWorkRun?
  {
    if NextCycleNumber(previous) <= ordinal then Unnamed(input.collected.workRuns, a)
    else OutOnce(input.collected.workRuns, a)
  }

  ghost function Reporting(a: ControlAction, ordinal: nat): (Option<Loaded>, CycleInput) -> bool
    requires a.StartWorkRun?
  {
    (previous: Option<Loaded>, input: CycleInput) => Reports(previous, input, a, ordinal)
  }

  lemma HeldGathers(a: ControlAction, ordinal: nat)
    requires a.StartWorkRun? && a.dispatchId.Some?
    ensures Gathers(a, ordinal, Reporting(a, ordinal), UnnamedIn(a), HeldIn(a))
  {
    forall previous, input | Reporting(a, ordinal)(previous, input)
      && Stands(previous, ordinal, UnnamedIn(a), HeldIn(a))
      ensures var merged := MergeRuns(PriorRuns(previous), input.collected.workRuns);
              if NextCycleNumber(previous) <= ordinal then UnnamedIn(a)(merged) else HeldIn(a)(merged)
    {
      if NextCycleNumber(previous) <= ordinal {
        MergeRunsUnnamed(PriorRuns(previous), input.collected.workRuns, a);
      } else {
        MergeRunsHeld(PriorRuns(previous), input.collected.workRuns, a);
      }
    }
  }

  // ------------------------------------------------------------ every run

  /** The launch is live under its own binding, and nothing of its is launched:
      not its Work Item, not its issue, and no item that needs a resource it holds. */
  ghost predicate Excluded(payload: Payload, a: ControlAction)
    requires a.StartWorkRun?
  {
    (exists r :: r in LiveWorkRuns(payload.facts) && Own(r, a)) && Spares(payload, a)
  }

  lemma HeldIsLive(f: ControlFacts, a: ControlAction)
    requires a.StartWorkRun? && Held(f.workRuns, a)
    ensures exists r :: r in LiveWorkRuns(f) && Own(r, a)
  {
    var r :| r in f.workRuns && IsOf(r, a);
    assert Own(r, a) && OwnsSlot(r, f.workItems) && r in LiveWorkRuns(f);
  }

  /** Where collections report as asked as long as the launch stands, it is excluded. */
  lemma GivenExcludes(ops: seq<Op>, identity: string, digest: Digest, records: seq<Record>, i: nat, a: ControlAction,
                      k: nat)
    requires records == RecordsOf(RunOps(ops, identity, digest).disk)
    requires JournaledLaunch(records, i, a, identity) && i < k && 3 * k < |records|
    requires AllGiven(ops, identity, digest, i + 1, Reporting(a, i + 1), UnnamedIn(a), HeldIn(a))
    ensures Excluded(records[3 * k].payload, a)
  {
    HeldSurvives(a);
    HeldGathers(a, i + 1);
    LaunchIsHeld(ops, identity, digest, records, i, a, k, Reporting(a, i + 1), UnnamedIn(a), HeldIn(a));
    HeldIsLive(records[3 * k].payload.facts, a);
  }

  /** Once a launch is journaled, then while each cycle collects at most one run
      of its dispatch, and that one unresolved, every journaled state keeps the
      launch live under its own Work Item and issue, whatever the collected run
      claims, and no other cycle launches them or needs its exclusive resources. */
  lemma ClaimedLaunchExcludes(ops: seq<Op>, identity: string, digest: Digest, records: seq<Record>,
                              i: nat, a: ControlAction, k: nat)
    requires records == RecordsOf(RunOps(ops, identity, digest).disk)
    requires JournaledLaunch(records, i, a, identity) && i < k && 3 * k < |records|
    requires ReceivesFrom(ops, identity, digest, Reporting(a, i + 1))
    ensures Excluded(records[3 * k].payload, a)
  {
    GivenExcludes(ops, identity, digest, records, i, a, k);
  }
}
