/** What recording the one derived launch keeps and changes. */
module Launch {
  import opened Text
  import opened Facts
  import opened Policy

  /** Item keys are present and unique, and no two items share an issue. */
  predicate WellFormedItems(items: seq<WorkItem>) {
    && (forall item :: item in items ==> item.key != "")
    && forall i, j :: 0 <= i < j < |items| ==>
                      items[i].key != items[j].key && !SameIssue(items[i].issue, items[j].issue)
  }

  lemma OneItemPerName(items: seq<WorkItem>, a: WorkItem, b: WorkItem)
    requires WellFormedItems(items) && a in items && b in items
    requires a.key == b.key || SameIssue(a.issue, b.issue)
    ensures a == b
  {
  }

  lemma LiveAmongAppend(runs: seq<WorkRun>, run: WorkRun, items: seq<WorkItem>)
    ensures LiveAmong(runs + [run], items) == LiveAmong(runs, items) + (if OwnsSlot(run, items) then [run] else [])
  {
    assert (runs + [run])[..|runs|] == runs;
  }

  lemma {:induction false} KeptLiveBound(runs: seq<WorkRun>, f: ControlFacts, action: ControlAction, runKey: string)
    requires action.StartWorkRun?
    ensures |LiveAmong(Kept(runs, f, action, runKey), f.workItems)| <= |LiveAmong(runs, f.workItems)|
  {
    if runs != [] {
      var n := |runs| - 1;
      KeptLiveBound(runs[..n], f, action, runKey);
      if !Displaced(runs[n], f, action, runKey) {
        LiveAmongAppend(Kept(runs[..n], f, action, runKey), runs[n], f.workItems);
      } else {
        assert Kept(runs, f, action, runKey) == Kept(runs[..n], f, action, runKey);
      }
    }
  }

  lemma LaunchedRunOwnsSlot(action: ControlAction, runKey: string, dispatchId: string, items: seq<WorkItem>)
    requires action.StartWorkRun?
    ensures OwnsSlot(LaunchedRun(action, runKey, dispatchId), items)
  {
  }

  /** Recording any launch adds at most one live run. */
  lemma LaunchAddsAtMostOne(f: ControlFacts, action: ControlAction, runKey: string, dispatchId: string)
    requires action.StartWorkRun?
    ensures OccupiedCapacity(WithWorkRun(f, action, runKey, dispatchId)) <= OccupiedCapacity(f) + 1
  {
    KeptLiveBound(f.workRuns, f, action, runKey);
    LaunchedRunOwnsSlot(action, runKey, dispatchId, f.workItems);
    LiveAmongAppend(Kept(f.workRuns, f, action, runKey), LaunchedRun(action, runKey, dispatchId), f.workItems);
  }

  /** `eligible_work_items` returns eligible items of the fact set only. */
  lemma {:induction false} EligibleSortedIsEligible(items: seq<WorkItem>, f: ControlFacts, x: WorkItem)
    ensures x in EligibleSorted(items, f) <==> x in items && IsEligible(x, f)
  {
    if items != [] {
      var n := |items| - 1;
      EligibleSortedIsEligible(items[..n], f, x);
      InsertMember(EligibleSorted(items[..n], f), items[n], f, x);
      assert items == items[..n] + [items[n]];
    }
  }

  lemma {:induction false} InsertMember(sorted: seq<WorkItem>, item: WorkItem, f: ControlFacts, x: WorkItem)
    ensures x in Insert(sorted, item, f) <==> x == item || x in sorted
  {
    if sorted != [] && !Before(KeyOf(item, f), KeyOf(sorted[0], f)) {
      InsertMember(sorted[1..], item, f, x);
      assert sorted == [sorted[0]] + sorted[1..];
    }
  }

  lemma NextIsEligible(f: ControlFacts)
    ensures NextWorkItem(f).Some? ==> NextWorkItem(f).value in f.workItems && IsEligible(NextWorkItem(f).value, f)
    ensures NextWorkItem(f).None? <==> forall x :: x in f.workItems ==> !IsEligible(x, f)
  {
    forall x ensures x in EligibleWorkItems(f) <==> x in f.workItems && IsEligible(x, f) {
      EligibleSortedIsEligible(f.workItems, f, x);
    }
    var eligible := EligibleWorkItems(f);
    if eligible != [] { assert eligible[0] in eligible; }
  }

  /** `_bind_launch_action`: the launch keeps its target and gains an identity. */
  function Bind(action: ControlAction, runKey: string): ControlAction
    requires action.StartWorkRun?
  {
    action.(runKey := runKey, dispatchId := Some(runKey))
  }

  /** A launch `derive` chose never takes the fact set over its limit. */
  lemma DerivedLaunchFitsLimit(f: ControlFacts, runKey: string)
    requires Derive(f).actions != []
    ensures var g := WithWorkRun(f, Bind(Derive(f).actions[0], runKey), runKey, runKey);
            g.wipLimit.Some? && OccupiedCapacity(g) <= g.wipLimit.value
  {
    NextIsEligible(f);
    LaunchAddsAtMostOne(f, Bind(Derive(f).actions[0], runKey), runKey, runKey);
  }

  lemma {:induction false} KeptAll(runs: seq<WorkRun>, f: ControlFacts, action: ControlAction, runKey: string)
    requires action.StartWorkRun?
    requires forall run :: run in runs ==> !Displaced(run, f, action, runKey)
    ensures Kept(runs, f, action, runKey) == runs
  {
    if runs != [] {
      var n := |runs| - 1;
      KeptAll(runs[..n], f, action, runKey);
      assert runs[n] in runs;
    }
  }

  /** The launched run holds its item's slot and resources. */
  lemma LaunchedRunHolds(f: ControlFacts, item: WorkItem, run: WorkRun)
    requires WellFormedItems(f.workItems) && item in f.workItems
    requires run in LiveWorkRuns(f) && run.workItemKey == Some(item.key) && run.issue == item.issue
    ensures !IsEligible(item, f)
    ensures forall other, r :: other in f.workItems && r in other.exclusiveResources && r in item.exclusiveResources
                               ==> !IsEligible(other, f)
  {
    assert RunMatchesItem(run, item);
    var holder := ItemForRun(run, f.workItems);
    assert holder.Some?;
    OneItemPerName(f.workItems, holder.value, item);
    assert ResourcesOf(holder) <= HeldResources(f);
  }

  /** Recording the launch `derive` chose adds exactly one live run, displaces
      none, stays within the limit, and leaves neither its item nor any item
      that shares an exclusive resource with it eligible. */
  lemma LaunchIsSafe(f: ControlFacts, runKey: string)
    requires WellFormedItems(f.workItems) && Derive(f).actions != []
    requires forall run :: run in f.workRuns ==> run.key != runKey
    ensures var action := Bind(Derive(f).actions[0], runKey);
            var item := Derive(f).selected.value;
            var g := WithWorkRun(f, action, runKey, runKey);
            && LiveWorkRuns(g) == LiveWorkRuns(f) + [LaunchedRun(action, runKey, runKey)]
            && f.wipLimit.Some? && OccupiedCapacity(g) == OccupiedCapacity(f) + 1 <= f.wipLimit.value
            && !IsEligible(item, g)
            && forall other, r :: other in f.workItems && r in other.exclusiveResources && r in item.exclusiveResources
                                  ==> !IsEligible(other, g)
  {
    var action := Bind(Derive(f).actions[0], runKey);
    var item := Derive(f).selected.value;
    var g := WithWorkRun(f, action, runKey, runKey);
    var launched := LaunchedRun(action, runKey, runKey);
    NextIsEligible(f);
    forall run | run in f.workRuns ensures !Displaced(run, f, action, runKey) {
      if run in LiveWorkRuns(f) { assert !RunMatchesItem(run, item); }
    }
    KeptAll(f.workRuns, f, action, runKey);
    LaunchedRunOwnsSlot(action, runKey, runKey, f.workItems);
    LiveAmongAppend(f.workRuns, launched, f.workItems);
    assert launched in LiveWorkRuns(g);
    LaunchedRunHolds(g, item, launched);
  }

  lemma {:induction false} KeptMembers(runs: seq<WorkRun>, f: ControlFacts, action: ControlAction, runKey: string,
                                       x: WorkRun)
    requires action.StartWorkRun?
    ensures x in Kept(runs, f, action, runKey) <==> x in runs && !Displaced(x, f, action, runKey)
  {
    if runs != [] {
      var n := |runs| - 1;
      KeptMembers(runs[..n], f, action, runKey, x);
      assert runs == runs[..n] + [runs[n]];
    }
  }

  /** Whatever its run key, a derived launch takes no slot from a live run exactly
      when no live run goes by that key: the recorded launch drops every run with
      its key, whatever item that run is for. */
  lemma LaunchKeepsLiveExactly(f: ControlFacts, runKey: string)
    requires WellFormedItems(f.workItems) && Derive(f).actions != []
    ensures var g := WithWorkRun(f, Bind(Derive(f).actions[0], runKey), runKey, runKey);
            (forall run :: run in LiveWorkRuns(f) ==> run in g.workRuns)
            <==> forall run :: run in LiveWorkRuns(f) ==> run.key != runKey
  {
    var action := Bind(Derive(f).actions[0], runKey);
    NextIsEligible(f);
    forall run
      ensures run in Kept(f.workRuns, f, action, runKey) <==> run in f.workRuns && !Displaced(run, f, action, runKey)
    {
      KeptMembers(f.workRuns, f, action, runKey, run);
    }
    forall run | run in LiveWorkRuns(f) ensures Displaced(run, f, action, runKey) <==> run.key == runKey {
      assert !RunMatchesItem(run, NextWorkItem(f).value);
    }
    var launched := LaunchedRun(action, runKey, runKey);
    assert RunMatchesItem(launched, NextWorkItem(f).value);
    assert launched !in LiveWorkRuns(f);
  }

  /** A launch under a key no live run goes by takes no slot away, whatever the items look like. */
  lemma FreshKeyKeepsLive(f: ControlFacts, runKey: string)
    requires Derive(f).actions != [] && forall run :: run in LiveWorkRuns(f) ==> run.key != runKey
    ensures var g := WithWorkRun(f, Bind(Derive(f).actions[0], runKey), runKey, runKey);
            forall run :: run in LiveWorkRuns(f) ==> run in g.workRuns
  {
    var action := Bind(Derive(f).actions[0], runKey);
    NextIsEligible(f);
    forall run | run in LiveWorkRuns(f) ensures run in Kept(f.workRuns, f, action, runKey) {
      assert !RunMatchesItem(run, NextWorkItem(f).value);
      KeptMembers(f.workRuns, f, action, runKey, run);
    }
  }
}
