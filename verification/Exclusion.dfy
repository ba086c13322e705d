/** Exclusion over whole runs: until a launched run is resolved, it keeps its
    slot, and no later cycle launches its Work Item or its issue again,
    whatever crashes, restarts and other observations come between. */
module Exclusion {
  import opened Text
  import opened Facts
  import opened Policy
  import opened Launch
  import opened Merge
  import opened MergeHistory
  import opened RunLists
  import opened Journal
  import opened Driver
  import opened DriverLaws
  import opened DriverRuns
  import opened DriverSafety
  import opened Tenure

  // ------------------------------------------------------------ a run that is still out

  /** `run` reports on launch `a` without resolving it: no other launch's run
      key, no other binding, and no landing, conclusion or publication.  A
      delivery's own key, progress, failure classes and `still_live` looks are
      all allowed. */
  ghost predicate StillOut(run: WorkRun, a: ControlAction)
    requires a.StartWorkRun?
  {
    && (RunKey(run.key) ==> Some(run.key) == a.dispatchId) && Unresolved(run)
    && (run.workItemKey.Some? ==> run.workItemKey.value == a.workItemKey)
    && (run.issue.Some? ==> run.issue == a.issue)
  }

  /** Every run under the launch's dispatch identity is still out. */
  ghost predicate OnlyOut(runs: seq<WorkRun>, a: ControlAction)
    requires a.StartWorkRun?
  {
    forall run :: run in runs && run.dispatchId == a.dispatchId ==> StillOut(run, a)
  }

  /** The run carries the launch's own item and issue. */
  ghost predicate Bound(run: WorkRun, a: ControlAction)
    requires a.StartWorkRun?
  {
    && run.dispatchId == a.dispatchId && StillOut(run, a)
    && run.workItemKey == Some(a.workItemKey) && run.issue == a.issue
  }

  ghost predicate HasBound(runs: seq<WorkRun>, a: ControlAction)
    requires a.StartWorkRun?
  {
    exists run :: run in runs && Bound(run, a)
  }

  lemma OutOwnsSlot(run: WorkRun, a: ControlAction, items: seq<WorkItem>)
    requires a.StartWorkRun? && StillOut(run, a)
    ensures OwnsSlot(run, items)
  {
  }

  lemma MergeOut(p: WorkRun, c: WorkRun, a: ControlAction)
    requires a.StartWorkRun? && a.dispatchId.Some? && p.dispatchId == c.dispatchId == a.dispatchId
    requires StillOut(p, a) && StillOut(c, a)
    ensures var m := MergeObservation(p, c);
            && m.dispatchId == a.dispatchId && StillOut(m, a)
            && (Bound(p, a) || Bound(c, a) ==> Bound(m, a))
  {
  }

  lemma ReplaceOut(runs: seq<WorkRun>, i: nat, m: WorkRun, a: ControlAction)
    requires a.StartWorkRun? && i < |runs| && OnlyOut(runs, a)
    requires m.dispatchId == runs[i].dispatchId
    requires m.dispatchId == a.dispatchId ==> StillOut(m, a) && (Bound(runs[i], a) ==> Bound(m, a))
    ensures OnlyOut(runs[i := m], a)
    ensures HasBound(runs, a) || Bound(m, a) ==> HasBound(runs[i := m], a)
  {
    var after := runs[i := m];
    assert after[i] == m;
    if HasBound(runs, a) {
      var run :| run in runs && Bound(run, a);
      var j :| 0 <= j < |runs| && runs[j] == run;
      assert after[j] == if j == i then m else run;
    }
  }

  lemma AppendOut(runs: seq<WorkRun>, p: WorkRun, a: ControlAction)
    requires a.StartWorkRun? && OnlyOut(runs, a) && (p.dispatchId == a.dispatchId ==> StillOut(p, a))
    ensures OnlyOut(runs + [p], a)
    ensures HasBound(runs, a) || Bound(p, a) ==> HasBound(runs + [p], a)
  {
    assert p in runs + [p];
    if HasBound(runs, a) {
      var run :| run in runs && Bound(run, a);
      assert run in runs + [p];
    }
  }

  lemma AbsorbOut(current: seq<WorkRun>, p: WorkRun, a: ControlAction)
    requires a.StartWorkRun? && a.dispatchId.Some?
    requires OnlyOut(current, a) && (p.dispatchId == a.dispatchId ==> StillOut(p, a))
    ensures OnlyOut(Absorb(current, p), a)
    ensures HasBound(current, a) || Bound(p, a) ==> HasBound(Absorb(current, p), a)
  {
    var m := FirstMatch(current, p);
    if m.None? {
      AppendOut(current, p, a);
    } else {
      var c := current[m.value];
      if p.dispatchId == a.dispatchId { MergeOut(p, c, a); }
      ReplaceOut(current, m.value, MergeObservation(p, c), a);
    }
  }

  lemma {:induction false} MergeRunsOut(previous: seq<WorkRun>, current: seq<WorkRun>, a: ControlAction)
    requires a.StartWorkRun? && a.dispatchId.Some? && OnlyOut(previous, a) && OnlyOut(current, a)
    ensures OnlyOut(MergeRuns(previous, current), a)
    ensures HasBound(previous, a) || HasBound(current, a) ==> HasBound(MergeRuns(previous, current), a)
  {
    if previous != [] {
      var n := |previous| - 1;
      var rest, p := previous[..n], previous[n];
      assert previous == rest + [p];
      MergeRunsOut(rest, current, a);
      AbsorbOut(MergeRuns(rest, current), p, a);
      if HasBound(previous, a) && !Bound(p, a) {
        var run :| run in previous && Bound(run, a);
        assert run in rest;
      }
    }
  }

  // ------------------------------------------------------------ one decision

  /** The facts hold the launch: it is out, under its own binding. */
  ghost predicate Holds(runs: seq<WorkRun>, a: ControlAction)
    requires a.StartWorkRun?
  {
    OnlyOut(runs, a) && HasBound(runs, a)
  }

  lemma OtherLaunchStaysOut(f: ControlFacts, a: ControlAction, key: string)
    requires a.StartWorkRun? && OnlyOut(f.workRuns, a) && Some(key) != a.dispatchId && Derive(f).actions != []
    ensures var action := Bind(Derive(f).actions[0], key); OnlyOut(WithWorkRun(f, action, key, key).workRuns, a)
  {
    var action := Bind(Derive(f).actions[0], key);
    forall x ensures x in Kept(f.workRuns, f, action, key) <==> x in f.workRuns && !Displaced(x, f, action, key) {
      KeptMembers(f.workRuns, f, action, key, x);
    }
  }

  /** The launch a fact set derives, when it holds another launch. */
  lemma LaunchLeavesHeld(f: ControlFacts, a: ControlAction, key: string)
    requires a.StartWorkRun? && Holds(f.workRuns, a) && Derive(f).actions != []
    requires RunKey(key) && Some(key) != a.dispatchId
    ensures var action := Bind(Derive(f).actions[0], key);
            Holds(WithWorkRun(f, action, key, key).workRuns, a) && LaunchesOther([action], a)
  {
    var action := Bind(Derive(f).actions[0], key);
    OtherLaunchStaysOut(f, a, key);
    var r :| r in f.workRuns && Bound(r, a);
    OutOwnsSlot(r, a, f.workItems);
    NextIsEligible(f);
    assert r in LiveWorkRuns(f) && !RunMatchesItem(r, NextWorkItem(f).value);
    KeptMembers(f.workRuns, f, action, key, r);
    assert r in WithWorkRun(f, action, key, key).workRuns;
  }

  /** The launch itself enters its own cycle's facts. */
  lemma OwnLaunchIsHeld(f: ControlFacts, a: ControlAction)
    requires Derive(f).actions != [] && a.StartWorkRun? && a.dispatchId.Some? && OnlyOut(f.workRuns, a)
    requires a == Bind(Derive(f).actions[0], a.dispatchId.value)
    ensures Holds(WithWorkRun(f, a, a.dispatchId.value, a.dispatchId.value).workRuns, a)
  {
    var d := a.dispatchId.value;
    var runs := WithWorkRun(f, a, d, d).workRuns;
    forall x ensures x in Kept(f.workRuns, f, a, d) <==> x in f.workRuns && !Displaced(x, f, a, d) {
      KeptMembers(f.workRuns, f, a, d, x);
    }
    assert runs == Kept(f.workRuns, f, a, d) + [LaunchedRun(a, d, d)];
    AppendOut(Kept(f.workRuns, f, a, d), LaunchedRun(a, d, d), a);
  }

  ghost function OutIn(a: ControlAction): seq<WorkRun> -> bool
    requires a.StartWorkRun?
  {
    (runs: seq<WorkRun>) => OnlyOut(runs, a)
  }

  ghost function HoldIn(a: ControlAction): seq<WorkRun> -> bool
    requires a.StartWorkRun?
  {
    (runs: seq<WorkRun>) => Holds(runs, a)
  }

  lemma OutSurvives(a: ControlAction)
    requires a.StartWorkRun? && a.dispatchId.Some?
    ensures Survives(a, OutIn(a), HoldIn(a))
  {
    forall f, key | Derive(f).actions != [] && OutIn(a)(f.workRuns) && Some(key) != a.dispatchId
      ensures OutIn(a)(Recorded(f, key).workRuns)
    {
      OtherLaunchStaysOut(f, a, key);
    }
    forall f | Derive(f).actions != [] && OutIn(a)(f.workRuns) && a == Bind(Derive(f).actions[0], a.dispatchId.value)
      ensures HoldIn(a)(Recorded(f, a.dispatchId.value).workRuns)
    {
      OwnLaunchIsHeld(f, a);
    }
    forall f, key | Derive(f).actions != [] && HoldIn(a)(f.workRuns) && RunKey(key) && Some(key) != a.dispatchId
      ensures HoldIn(a)(Recorded(f, key).workRuns) && LaunchesOther([Bind(Derive(f).actions[0], key)], a)
    {
      LaunchLeavesHeld(f, a, key);
    }
  }

  /** Collected runs of the launch leave it out. */
  ghost predicate Reports(input: CycleInput, a: ControlAction)
    requires a.StartWorkRun?
  {
    OnlyOut(input.collected.workRuns, a)
  }

  ghost function Reporting(a: ControlAction): (Option<Loaded>, CycleInput) -> bool
    requires a.StartWorkRun?
  {
    (previous: Option<Loaded>, input: CycleInput) => Reports(input, a)
  }

  lemma OutGathers(a: ControlAction, ordinal: nat)
    requires a.StartWorkRun? && a.dispatchId.Some?
    ensures Gathers(a, ordinal, Reporting(a), OutIn(a), HoldIn(a))
  {
    forall previous, input | Reporting(a)(previous, input) && Stands(previous, ordinal, OutIn(a), HoldIn(a))
      ensures var merged := MergeRuns(PriorRuns(previous), input.collected.workRuns);
              if NextCycleNumber(previous) <= ordinal then OutIn(a)(merged) else HoldIn(a)(merged)
    {
      MergeRunsOut(PriorRuns(previous), input.collected.workRuns, a);
    }
  }

  /** Deciding over facts that hold a launch keeps it, and launches nothing of its. */
  lemma HeldDecision(input: CycleInput, previous: Loaded, a: ControlAction, identity: string)
    requires a.StartWorkRun? && a.dispatchId.Some?
    requires Holds(previous.payload.facts.workRuns, a) && Reports(input, a)
    requires forall key :: Some(DispatchId(identity, NextCycleNumber(Some(previous)), key)) != a.dispatchId
    ensures var decided := CyclePayload(input, Some(previous), identity);
            decided.Ok? ==> Holds(decided.value.facts.workRuns, a) && Spares(decided.value, a)
  {
    var decided, f := CyclePayload(input, Some(previous), identity), CycleFacts(input, Some(previous));
    MergeRunsOut(previous.payload.facts.workRuns, input.collected.workRuns, a);
    DecidedOn(input, Some(previous), identity);
    OutSurvives(a);
    if decided.Ok? {
      assert HoldIn(a)(f.workRuns);
      HeldShape(decided.value, f, a, NextCycleNumber(Some(previous)), identity, OutIn(a), HoldIn(a));
    }
  }

  // ------------------------------------------------------------ every run

  /** The launch is still live, and nothing of its is launched: not its Work
      Item, not its issue, and no item that needs a resource it holds. */
  ghost predicate Excluded(payload: Payload, a: ControlAction)
    requires a.StartWorkRun?
  {
    HasBound(LiveWorkRuns(payload.facts), a) && Spares(payload, a)
  }

  lemma HeldIsLive(f: ControlFacts, a: ControlAction)
    requires a.StartWorkRun? && Holds(f.workRuns, a)
    ensures HasBound(LiveWorkRuns(f), a)
  {
    var r :| r in f.workRuns && Bound(r, a);
    OutOwnsSlot(r, a, f.workItems);
    assert r in LiveWorkRuns(f);
  }

  /** Where collections leave the launch out as long as it stands, it is excluded. */
  lemma GivenExcludes(ops: seq<Op>, identity: string, digest: Digest, records: seq<Record>, i: nat, a: ControlAction,
                      k: nat)
    requires records == RecordsOf(RunOps(ops, identity, digest).disk)
    requires JournaledLaunch(records, i, a, identity) && i < k && 3 * k < |records|
    requires AllGiven(ops, identity, digest, i + 1, Reporting(a), OutIn(a), HoldIn(a))
    ensures Excluded(records[3 * k].payload, a)
  {
    OutSurvives(a);
    OutGathers(a, i + 1);
    LaunchIsHeld(ops, identity, digest, records, i, a, k, Reporting(a), OutIn(a), HoldIn(a));
    HeldIsLive(records[3 * k].payload.facts, a);
  }

  /** Once a launch is journaled, then for as long as what is collected leaves
      it out, every journaled state keeps it live, and no other cycle launches
      the same Work Item or the same issue, or needs its exclusive resources. */
  lemma UnresolvedLaunchExcludes(ops: seq<Op>, identity: string, digest: Digest, records: seq<Record>,
                                 i: nat, a: ControlAction, k: nat)
    requires records == RecordsOf(RunOps(ops, identity, digest).disk)
    requires JournaledLaunch(records, i, a, identity) && i < k && 3 * k < |records|
    requires ReceivesFrom(ops, identity, digest, Reporting(a))
    ensures Excluded(records[3 * k].payload, a)
  {
    GivenExcludes(ops, identity, digest, records, i, a, k);
  }
}
