/** Delivering a validated plan over whole runs of the controller: collection,
    merging, completion, selection and recording together launch every
    incomplete item exactly once, and then nothing more, wherever cycles are cut. */
module Delivery {
  import opened Text
  import opened Facts
  import opened Policy
  import opened Launch
  import opened Collector
  import opened PlanGraph
  import opened Progress
  import opened Landings
  import opened Journal
  import opened Driver
  import opened DriverLaws
  import opened DriverRuns
  import opened JournalFacts
  import opened StorableFacts

  // ------------------------------------------------------------ where the items stand

  /** The tracker shows the plan's items, none of them complete that was open
      and is not done. */
  predicate Shows(base: seq<WorkItem>, items: seq<WorkItem>, done: set<string>) {
    && SameShape(base, items)
    && forall i :: 0 <= i < |base| ==>
         && (IsOpen(items[i]) || IsComplete(items[i]))
         && (IsComplete(base[i]) ==> IsComplete(items[i]))
         && (IsComplete(items[i]) ==> IsComplete(base[i]) || base[i].key in done)
  }

  /** The same with everything done complete. */
  predicate StandsAt(base: seq<WorkItem>, items: seq<WorkItem>, done: set<string>) {
    Shows(base, items, done) && forall i :: 0 <= i < |base| && base[i].key in done ==> IsComplete(items[i])
  }

  /** The facts a cycle decides on, up to the readiness it has recorded. */
  predicate At(f: ControlFacts, b: ControlFacts, runs: seq<WorkRun>) {
    && f == b.(workItems := f.workItems, workRuns := runs, readyTransitions := f.readyTransitions)
    && StandsAt(b.workItems, f.workItems, CompleteAmong(b.workItems, runs))
  }

  lemma CompletionIgnoresState(x: WorkItem, y: WorkItem, runs: seq<WorkRun>)
    requires y == x.(state := y.state)
    ensures HasCompletion(y, runs) <==> HasCompletion(x, runs)
  {
    forall run ensures RunBelongsToItem(run, y) <==> RunBelongsToItem(run, x) {}
  }

  lemma KeyIgnoresStates(before: seq<WorkItem>, after: seq<WorkItem>, runs: seq<WorkRun>, i: nat)
    requires SameShape(before, after) && i < |before|
    ensures HasCompletion(after[i], runs) <==> HasCompletion(before[i], runs)
    ensures after[i].key == before[i].key
  {
    CompletionIgnoresState(before[i], after[i], runs);
  }

  function CompleteAmong(items: seq<WorkItem>, runs: seq<WorkRun>): set<string> {
    set item | item in items && HasCompletion(item, runs) :: item.key
  }

  lemma KeysOfShape(before: seq<WorkItem>, after: seq<WorkItem>, runs: seq<WorkRun>, key: string)
    requires SameShape(before, after) && key in CompleteAmong(after, runs)
    ensures key in CompleteAmong(before, runs)
  {
    var y :| y in after && HasCompletion(y, runs) && y.key == key;
    var i :| 0 <= i < |after| && after[i] == y;
    KeyIgnoresStates(before, after, runs, i);
    assert before[i] in before;
  }

  lemma KeysIgnoreStates(before: seq<WorkItem>, after: seq<WorkItem>, runs: seq<WorkRun>)
    requires SameShape(before, after)
    ensures CompleteAmong(after, runs) == CompleteAmong(before, runs)
  {
    forall key ensures key in CompleteAmong(after, runs) <==> key in CompleteAmong(before, runs) {
      if key in CompleteAmong(after, runs) {
        KeysOfShape(before, after, runs, key);
      } else if key in CompleteAmong(before, runs) {
        KeysOfShape(after, before, runs, key);
      }
    }
  }

  lemma {:induction false} LastCompleteIs(items: seq<WorkItem>, i: nat)
    requires WellFormedItems(items) && i < |items|
    ensures LastComplete(items, items[i].key) == if IsComplete(items[i]) then Some(items[i]) else None
  {
    var n := |items| - 1;
    if i < n {
      assert items[i].key != items[n].key;
      forall item | item in items[..n] ensures item in items {}
      LastCompleteIs(items[..n], i);
    } else {
      NoneBefore(items, n, items[n].key);
    }
  }

  lemma {:induction false} NoneBefore(items: seq<WorkItem>, n: nat, key: string)
    requires n <= |items| && forall i :: 0 <= i < n ==> items[i].key != key
    ensures LastComplete(items[..n], key).None?
  {
    if n > 0 {
      assert items[..n][..n - 1] == items[..n - 1];
      NoneBefore(items, n - 1, key);
    }
  }

  lemma ShapeWellFormed(base: seq<WorkItem>, items: seq<WorkItem>)
    requires WellFormedItems(base) && SameShape(base, items)
    ensures WellFormedItems(items)
  {
    forall i, j | 0 <= i < j < |items|
      ensures items[i].key != items[j].key && !SameIssue(items[i].issue, items[j].issue)
    {
      assert base[i].key != base[j].key;
    }
    forall item | item in items ensures item.key != "" {
      var i :| 0 <= i < |items| && items[i] == item;
      assert base[i] in base;
    }
  }

  /** The cycle's own retention keeps what the tracker may show. */
  lemma RetainedShows(base: seq<WorkItem>, prior: ControlFacts, before: set<string>, collected: ControlFacts,
                      done: set<string>)
    requires WellFormedItems(base) && StandsAt(base, prior.workItems, before) && before <= done
    requires Shows(base, collected.workItems, done)
    ensures Shows(base, RetainCompleted(prior, collected).workItems, done)
  {
    ShapeWellFormed(base, prior.workItems);
    var items := RetainCompleted(prior, collected).workItems;
    forall i | 0 <= i < |base|
      ensures items[i] == collected.workItems[i]
              || (items[i] == base[i].(state := "complete") && (IsComplete(base[i]) || base[i].key in done))
    {
      assert prior.workItems[i].key == base[i].key;
      LastCompleteIs(prior.workItems, i);
    }
  }

  /** Absorbing completions settles which items are complete. */
  lemma AdvancedStands(base: seq<WorkItem>, f: ControlFacts)
    requires Shows(base, f.workItems, CompleteAmong(base, f.workRuns))
    ensures StandsAt(base, AdvanceCompleted(f).workItems, CompleteAmong(base, f.workRuns))
  {
    KeysIgnoreStates(base, f.workItems, f.workRuns);
    assert CompleteKeys(f) == CompleteAmong(f.workItems, f.workRuns);
  }

  lemma IncompleteAt(base: seq<WorkItem>, items: seq<WorkItem>, done: set<string>)
    requires StandsAt(base, items, done)
    ensures IncompleteKeys(items) == IncompleteKeys(base) - done
  {
    forall key ensures key in IncompleteKeys(items) <==> key in IncompleteKeys(base) - done {
      if key in IncompleteKeys(items) {
        var y :| y in items && !IsComplete(y) && y.key == key;
        var i :| 0 <= i < |items| && items[i] == y;
        assert base[i] in base;
      }
      if key in IncompleteKeys(base) - done {
        var x :| x in base && !IsComplete(x) && x.key == key;
        var i :| 0 <= i < |base| && base[i] == x;
        assert items[i] in items;
      }
    }
  }

  lemma CompleteGrows(items: seq<WorkItem>, runs: seq<WorkRun>, more: seq<WorkRun>)
    requires forall run :: run in runs ==> run in more
    ensures CompleteAmong(items, runs) <= CompleteAmong(items, more)
  {
    forall key | key in CompleteAmong(items, runs) ensures key in CompleteAmong(items, more) {
      var x :| x in items && HasCompletion(x, runs) && x.key == key;
      var run :| run in runs && RunBelongsToItem(run, x) && CompletionReady(run);
      assert HasCompletion(x, more);
    }
  }

  /** A landed run completes its own item, and no other. */
  lemma LandingCompletes(items: seq<WorkItem>, runs: seq<WorkRun>, m: WorkRun, item: WorkItem)
    requires item in items && Landed(m) && m.workItemKey == Some(item.key) && (m.issue.Some? ==> m.issue == item.issue)
    ensures CompleteAmong(items, runs + [m]) == CompleteAmong(items, runs) + {item.key}
  {
    var more := runs + [m];
    assert m in more && RunBelongsToItem(m, item) && HasCompletion(item, more);
    forall x | x in items ensures HasCompletion(x, runs) ==> HasCompletion(x, more) {
      if HasCompletion(x, runs) {
        var run :| run in runs && RunBelongsToItem(run, x) && CompletionReady(run);
        assert run in more;
      }
    }
    forall x | x in items && HasCompletion(x, more) ensures HasCompletion(x, runs) || x.key == item.key {
      var run :| run in more && RunBelongsToItem(run, x) && CompletionReady(run);
    }
  }

  // ------------------------------------------------------------ what comes in

  /** What is collected about the tracker while a plan is being delivered. */
  ghost predicate Delivering(b: ControlFacts, plan: Plan) {
    && Validated(plan) && Realizes(b.workItems, plan) && Storable(b)
    && b.configuredCurator.Some? && |b.desiredOutcomes| == 1 && b.initiatives != []
    && b.worktreeDebt == [] && b.externalBars == [] && b.wipLimit.Some? && b.wipLimit.value >= 1
    && forall item :: item in b.workItems ==> IsOpen(item) || IsComplete(item)
  }

  /** What one cycle reads: the tracker's items, every dispatch record there
      is, the recovery classifier's answers, and the clock. */
  datatype Turn = Turn(items: seq<WorkItem>, reports: seq<Report>, verdict: WorkRun -> Option<string>, now: string)

  /** The journaled state made a launch. */
  predicate Awaits(previous: Option<Loaded>) {
    previous.Some? && previous.value.payload.actions != []
  }

  function EvidenceOf(t: Turn): Evidence {
    Evidence([], t.reports, t.verdict, [])
  }

  /** The runs the collector returns. */
  function CollectedRuns(previous: Option<Loaded>, t: Turn): seq<WorkRun> {
    Collect(PriorRuns(previous), EvidenceOf(t), t.items)
  }

  function CollectedFor(b: ControlFacts, previous: Option<Loaded>, t: Turn): ControlFacts {
    b.(workItems := t.items, workRuns := CollectedRuns(previous, t))
  }

  /** What the cycle is given, the same at both of its looks. */
  function InputFor(b: ControlFacts, previous: Option<Loaded>, t: Turn): CycleInput {
    CycleInput(CollectedFor(b, previous, t), CollectedFor(b, previous, t), None, t.now)
  }

  function Following(previous: Option<Loaded>, p: Payload, identity: string): Option<Loaded> {
    var n := NextCycleNumber(previous);
    Some(Loaded(p, CycleId(identity, n), 3 * n, Confirmed))
  }

  /** The runs that had landed, and the launch that is out. */
  function LandedBefore(previous: Option<Loaded>): seq<WorkRun> {
    var prior := PriorRuns(previous);
    if Awaits(previous) && prior != [] then prior[..|prior| - 1] else prior
  }

  function LaunchOut(previous: Option<Loaded>): Option<WorkRun> {
    var prior := PriorRuns(previous);
    if Awaits(previous) && prior != [] then Some(prior[|prior| - 1]) else None
  }

  /** The records read are of known dispatches: they land the launch that is
      out, and tell the landed runs nothing new.  The clock reads, and the
      tracker shows no item complete that has not landed. */
  ghost predicate Answers(b: ControlFacts, previous: Option<Loaded>, t: Turn) {
    var observed := ReadReports(t.reports);
    && t.now != "" && AllKnown(PriorRuns(previous), observed)
    && AllSettle(LandedBefore(previous), observed)
    && (LaunchOut(previous).Some? ==> LandsAs(LaunchOut(previous).value, History(LaunchOut(previous).value, observed)))
    && Shows(b.workItems, t.items, CompleteAmong(b.workItems, CollectedRuns(previous, t)))
  }

  // ------------------------------------------------------------ between two cycles

  /** The text is no run key of cycle `n` or a later one. */
  ghost predicate Earlier(text: string, identity: string, n: nat) {
    forall m: nat, x :: m >= n ==> text != DispatchId(identity, m, x)
  }

  ghost predicate AllEarlier(runs: seq<WorkRun>, identity: string, n: nat) {
    forall i :: 0 <= i < |runs| ==>
      Earlier(runs[i].key, identity, n) && runs[i].dispatchId.Some? && Earlier(runs[i].dispatchId.value, identity, n)
  }

  /** The items left: neither complete, nor landed, nor out. */
  function Left(b: ControlFacts, landed: seq<WorkRun>, out: Option<WorkItem>): set<string> {
    Open(b, landed) - (if out.Some? then {out.value.key} else {})
  }

  function Open(b: ControlFacts, landed: seq<WorkRun>): set<string> {
    IncompleteKeys(b.workItems) - CompleteAmong(b.workItems, landed)
  }

  predicate IsOut(prior: seq<WorkRun>, landed: seq<WorkRun>, b: ControlFacts, item: WorkItem) {
    && prior != [] && item in b.workItems && item.key in Open(b, landed)
    && var launched := prior[|prior| - 1];
       && Pending(prior, landed, launched)
       && launched.workItemKey == Some(item.key) && launched.issue == item.issue
  }

  /** Where things stand between two cycles: what has landed, and the item that is out, if any. */
  ghost predicate Stands(b: ControlFacts, previous: Option<Loaded>, landed: seq<WorkRun>, out: Option<WorkItem>,
                         identity: string)
  {
    && AllLanded(landed) && OncePerDispatch(PriorRuns(previous)) && StorablePrior(previous)
    && AllEarlier(PriorRuns(previous), identity, NextCycleNumber(previous))
    && (previous.Some? ==>
          StandsAt(b.workItems, previous.value.payload.facts.workItems, CompleteAmong(b.workItems, landed)))
    && (Awaits(previous) <==> out.Some?)
    && (if out.None? then PriorRuns(previous) == landed
        else IsOut(PriorRuns(previous), landed, b, out.value))
  }

  // ------------------------------------------------------------ one cycle

  /** What the collection leaves of the runs. */
  predicate LandedNow(previous: Option<Loaded>, landed: seq<WorkRun>, out: Option<WorkItem>, t: Turn,
                      after: seq<WorkRun>)
  {
    if out.None? then after == landed
    else
      var prior := PriorRuns(previous);
      prior != [] && after == landed + [History(prior[|prior| - 1], ReadReports(t.reports))]
  }

  lemma TurnCollects(b: ControlFacts, previous: Option<Loaded>, landed: seq<WorkRun>, out: Option<WorkItem>, t: Turn,
                     identity: string)
    returns (after: seq<WorkRun>)
    requires Stands(b, previous, landed, out, identity) && Answers(b, previous, t)
    ensures CollectedRuns(previous, t) == after && LandedNow(previous, landed, out, t, after)
    ensures AllLanded(after) && OncePerDispatch(after) && Absorbed(PriorRuns(previous), after)
    ensures forall run :: run in landed ==> run in after
  {
    var prior, e := PriorRuns(previous), EvidenceOf(t);
    if out.None? {
      after := landed;
      CollectSettled(landed, e, t.items);
      SettledAbsorbs(landed);
    } else {
      var launched := prior[|prior| - 1];
      assert LandedBefore(previous) == landed && LaunchOut(previous) == Some(launched);
      CollectLanding(prior, landed, launched, e, t.items);
      after := landed + [History(launched, ReadReports(t.reports))];
    }
  }

  /** The facts either look of the cycle arrives at. */
  lemma TurnLocalFacts(b: ControlFacts, previous: Option<Loaded>, landed: seq<WorkRun>, after: seq<WorkRun>,
                       collected: ControlFacts)
    requires WellFormedItems(b.workItems) && collected == b.(workItems := collected.workItems, workRuns := after)
    requires Shows(b.workItems, collected.workItems, CompleteAmong(b.workItems, after))
    requires previous.Some? ==>
               StandsAt(b.workItems, previous.value.payload.facts.workItems, CompleteAmong(b.workItems, landed))
    requires Absorbed(PriorRuns(previous), after) && forall run :: run in landed ==> run in after
    ensures At(AdvanceCompleted(MergeLocalFacts(collected, previous)), b, after)
  {
    var local := MergeLocalFacts(collected, previous);
    if previous.Some? {
      var facts := previous.value.payload.facts;
      MergeAbsorbed(facts.workRuns, after, |facts.workRuns|);
      assert facts.workRuns[..|facts.workRuns|] == facts.workRuns;
      var merged := collected.(readyTransitions := local.readyTransitions);
      assert local == RetainCompleted(facts, merged);
      CompleteGrows(b.workItems, landed, after);
      RetainedShows(b.workItems, facts, CompleteAmong(b.workItems, landed), merged, CompleteAmong(b.workItems, after));
    }
    AdvancedStands(b.workItems, local);
  }

  lemma TurnFacts(b: ControlFacts, previous: Option<Loaded>, landed: seq<WorkRun>, after: seq<WorkRun>, t: Turn)
    requires WellFormedItems(b.workItems) && CollectedRuns(previous, t) == after
    requires Shows(b.workItems, t.items, CompleteAmong(b.workItems, after))
    requires previous.Some? ==>
               StandsAt(b.workItems, previous.value.payload.facts.workItems, CompleteAmong(b.workItems, landed))
    requires Absorbed(PriorRuns(previous), after) && forall run :: run in landed ==> run in after
    ensures var f := CycleFacts(InputFor(b, previous, t), previous);
            var refreshed := AdvanceCompleted(MergeLocalFacts(CollectedFor(b, previous, t), previous));
            At(f, b, after) && SnapshotOf(refreshed) == SnapshotOf(f)
  {
    TurnLocalFacts(b, previous, landed, after, CollectedFor(b, previous, t));
  }

  lemma LandedOwnNoSlots(runs: seq<WorkRun>, items: seq<WorkItem>)
    requires AllLanded(runs)
    ensures LiveAmong(runs, items) == []
  {
    forall run | run in runs ensures !OwnsSlot(run, items) {
      var i :| 0 <= i < |runs| && runs[i] == run;
      assert Landed(runs[i]);
    }
    NoneLive(runs, items);
  }

  lemma TurnAtRest(f: ControlFacts, b: ControlFacts, plan: Plan, after: seq<WorkRun>)
    requires Delivering(b, plan) && At(f, b, after) && AllLanded(after)
    ensures AtRest(f)
  {
    LandedOwnNoSlots(after, f.workItems);
    forall item | item in f.workItems ensures IsOpen(item) || IsComplete(item) {
      var i :| 0 <= i < |f.workItems| && f.workItems[i] == item;
    }
  }

  /** What a cycle at rest journals: one launch under `key`, or nothing. */
  predicate Moves(p: Payload, f: ControlFacts, key: string) {
    if NextWorkItem(f).None? then p.facts == f && p.actions == []
    else
      var action := Bind(LaunchAction(f, NextWorkItem(f).value), key);
      p.actions == [action] && p.facts == f.(workRuns := f.workRuns + [LaunchedRun(action, key, key)])
  }

  lemma NothingDisplaced(f: ControlFacts, action: ControlAction, key: string)
    requires action.StartWorkRun? && LiveWorkRuns(f) == []
    requires forall i :: 0 <= i < |f.workRuns| ==> f.workRuns[i].key != key
    ensures WithWorkRun(f, action, key, key) == f.(workRuns := f.workRuns + [LaunchedRun(action, key, key)])
  {
    forall run | run in f.workRuns ensures !Displaced(run, f, action, key) {}
    KeptAll(f.workRuns, f, action, key);
  }

  lemma TurnDecides(f: ControlFacts, input: CycleInput, previous: Option<Loaded>, identity: string)
    requires f == CycleFacts(input, previous) && f.configuredCurator.Some? && |f.desiredOutcomes| == 1
             && f.initiatives != []
    requires SnapshotOf(AdvanceCompleted(MergeLocalFacts(input.refreshed, previous))) == SnapshotOf(f)
    requires LiveWorkRuns(f) == []
    requires forall i, x :: 0 <= i < |f.workRuns| ==>
             f.workRuns[i].key != DispatchId(identity, NextCycleNumber(previous), x)
    ensures var decided := Decide(input, previous, identity);
            decided.Ok? &&
            (NextWorkItem(f).Some? ==>
             Moves(decided.value, f, DispatchId(identity, NextCycleNumber(previous), NextWorkItem(f).value.key)))
            && (NextWorkItem(f).None? ==> Moves(decided.value, f, ""))
  {
    if NextWorkItem(f).Some? {
      NextIsEligible(f);
      var item := NextWorkItem(f).value;
      var key := DispatchId(identity, NextCycleNumber(previous), item.key);
      NothingDisplaced(f, Bind(LaunchAction(f, item), key), key);
    }
  }

  /** No run goes by the key of this cycle or a later one. */
  lemma TurnStaysEarlier(prior: seq<WorkRun>, landed: seq<WorkRun>, launched: WorkRun, m: WorkRun, identity: string,
                         n: nat)
    requires prior == landed + [launched] && AllEarlier(prior, identity, n)
    requires m.dispatchId == launched.dispatchId && (RunKey(m.key) ==> Some(m.key) == m.dispatchId)
    ensures AllEarlier(landed + [m], identity, n)
  {
    assert prior[|landed|] == launched;
    assert Earlier(m.key, identity, n) by {
      forall k: nat, x | k >= n ensures m.key != DispatchId(identity, k, x) {
        if m.key == DispatchId(identity, k, x) { assert RunKey(m.key); }
      }
    }
    forall i | 0 <= i < |landed|
      ensures Earlier(landed[i].key, identity, n) && landed[i].dispatchId.Some?
              && Earlier(landed[i].dispatchId.value, identity, n)
    {
      assert prior[i] == landed[i];
    }
  }

  lemma TurnStorable(prior: seq<WorkRun>, landed: seq<WorkRun>, launched: WorkRun, m: WorkRun)
    requires prior == landed + [launched] && StorableRuns(prior) && StorableRun(m)
    ensures StorableRuns(landed + [m])
  {
    forall run | run in landed ensures StorableRun(run) {
      assert run in prior;
    }
  }

  /** What holds of the landed runs when the cycle decides. */
  ghost predicate LandedRuns(after: seq<WorkRun>, previous: Option<Loaded>, identity: string) {
    AllLanded(after) && OncePerDispatch(after) && AllEarlier(after, identity, NextCycleNumber(previous))
  }

  /** What the collection leaves: one more landing, if a launch was out. */
  ghost predicate CollectedLandings(b: ControlFacts, previous: Option<Loaded>, landed: seq<WorkRun>,
                                    out: Option<WorkItem>, after: seq<WorkRun>, identity: string)
  {
    && LandedRuns(after, previous, identity) && StorableRuns(after)
    && Absorbed(PriorRuns(previous), after) && (forall run :: run in landed ==> run in after)
    && Open(b, after) == Left(b, landed, out)
  }

  lemma LandingsStand(b: ControlFacts, previous: Option<Loaded>, landed: seq<WorkRun>, out: Option<WorkItem>, t: Turn,
                      after: seq<WorkRun>, identity: string)
    requires Stands(b, previous, landed, out, identity) && Answers(b, previous, t) && out.Some?
    requires LandedNow(previous, landed, out, t, after)
    ensures AllEarlier(after, identity, NextCycleNumber(previous)) && StorableRuns(after)
    ensures Open(b, after) == Left(b, landed, out)
  {
    var prior, observed := PriorRuns(previous), ReadReports(t.reports);
    var launched := prior[|prior| - 1];
    var m := History(launched, observed);
    assert LaunchOut(previous) == Some(launched);
    LaunchAbsorbs(prior, landed, launched, observed);
    TurnStaysEarlier(prior, landed, launched, m, identity, NextCycleNumber(previous));
    TurnStorable(prior, landed, launched, m);
    LandingCompletes(b.workItems, landed, m, out.value);
  }

  lemma TurnLands(b: ControlFacts, previous: Option<Loaded>, landed: seq<WorkRun>, out: Option<WorkItem>, t: Turn,
                  identity: string)
    returns (after: seq<WorkRun>)
    requires Stands(b, previous, landed, out, identity) && Answers(b, previous, t)
    ensures CollectedLandings(b, previous, landed, out, after, identity) && CollectedRuns(previous, t) == after
  {
    after := TurnCollects(b, previous, landed, out, t, identity);
    if out.Some? {
      LandingsStand(b, previous, landed, out, t, after, identity);
    }
  }

  /** What a cycle journals is what stands before the next one. */
  lemma MovesStand(b: ControlFacts, previous: Option<Loaded>, after: seq<WorkRun>, f: ControlFacts, p: Payload,
                   identity: string)
    requires LandedRuns(after, previous, identity) && At(f, b, after) && Storable(p.facts)
    requires NextWorkItem(f).None? && Moves(p, f, "")
    ensures Stands(b, Following(previous, p, identity), after, None, identity)
  {
  }

  lemma LaunchStands(b: ControlFacts, previous: Option<Loaded>, after: seq<WorkRun>, f: ControlFacts, p: Payload,
                     item: WorkItem, identity: string)
    requires LandedRuns(after, previous, identity) && At(f, b, after) && Storable(p.facts)
    requires NextWorkItem(f).Some? && item in b.workItems && item.key == NextWorkItem(f).value.key
    requires item.issue == NextWorkItem(f).value.issue && item.key in Open(b, after)
    requires Moves(p, f, DispatchId(identity, NextCycleNumber(previous), item.key))
    ensures Stands(b, Following(previous, p, identity), after, Some(item), identity)
  {
    var n := NextCycleNumber(previous);
    var key := DispatchId(identity, n, item.key);
    var launched := LaunchedRun(Bind(LaunchAction(f, NextWorkItem(f).value), key), key, key);
    LaunchIsLater(after, launched, item.key, identity, n);
    LaunchIsOut(after, launched, b, item);
    OutStands(b, Following(previous, p, identity), after, item, identity);
  }

  lemma OutStands(b: ControlFacts, following: Option<Loaded>, after: seq<WorkRun>, item: WorkItem, identity: string)
    requires AllLanded(after) && following.Some? && Awaits(following) && StorablePrior(following)
    requires OncePerDispatch(PriorRuns(following)) && IsOut(PriorRuns(following), after, b, item)
    requires AllEarlier(PriorRuns(following), identity, NextCycleNumber(following))
    requires StandsAt(b.workItems, following.value.payload.facts.workItems, CompleteAmong(b.workItems, after))
    ensures Stands(b, following, after, Some(item), identity)
  {
  }

  lemma LaunchIsLater(after: seq<WorkRun>, launched: WorkRun, itemKey: string, identity: string, n: nat)
    requires OncePerDispatch(after) && AllEarlier(after, identity, n)
    requires launched.key == DispatchId(identity, n, itemKey) && launched.dispatchId == Some(launched.key)
    ensures OncePerDispatch(after + [launched]) && AllEarlier(after + [launched], identity, n + 1)
  {
    var key := launched.key;
    forall m: nat, x | m >= n + 1 ensures key != DispatchId(identity, m, x) {
      if key == DispatchId(identity, m, x) { DispatchIdsDiffer(identity, n, itemKey, m, x); }
    }
    assert Earlier(key, identity, n + 1);
    forall i | 0 <= i < |after| ensures after[i].dispatchId != Some(key) {
      assert Earlier(after[i].dispatchId.value, identity, n);
    }
  }

  lemma LaunchIsOut(after: seq<WorkRun>, launched: WorkRun, b: ControlFacts, item: WorkItem)
    requires AllLanded(after) && OncePerDispatch(after + [launched])
    requires item in b.workItems && item.key in Open(b, after)
    requires launched == BareRun(launched.key, RECORDED_LAUNCH_STATE).(
                           workItemKey := launched.workItemKey, dispatchId := launched.dispatchId,
                           worktree := launched.worktree, issue := launched.issue)
    requires launched.dispatchId.Some? && launched.workItemKey == Some(item.key) && launched.issue == item.issue
    ensures IsOut(after + [launched], after, b, item)
  {
  }

  /** The Work Items a list of actions launches, in order. */
  function LaunchKeys(actions: seq<ControlAction>): seq<string> {
    if actions == [] then []
    else (if actions[0].StartWorkRun? then [actions[0].workItemKey] else []) + LaunchKeys(actions[1..])
  }

  /** One cycle of the delivery: it launches an item that is left, or none is. */
  ghost predicate Turned(b: ControlFacts, previous: Option<Loaded>, p: Payload, left: set<string>,
                         after: seq<WorkRun>, next: Option<WorkItem>, identity: string)
  {
    Stands(b, Following(previous, p, identity), after, next, identity) && Takes(b, p, left, after, next)
  }

  predicate Takes(b: ControlFacts, p: Payload, left: set<string>, after: seq<WorkRun>, next: Option<WorkItem>) {
    && Open(b, after) == left
    && (next.None? <==> left == {})
    && (next.Some? ==> next.value.key in left)
    && LaunchKeys(p.actions) == (if next.None? then [] else [next.value.key])
    && |p.actions| == (if next.None? then 0 else 1)
  }

  /** The tracker's item for the one selected, if any. */
  predicate NextIs(f: ControlFacts, b: ControlFacts, after: seq<WorkRun>, next: Option<WorkItem>) {
    && (NextWorkItem(f).Some? <==> next.Some?)
    && (next.None? <==> Open(b, after) == {})
    && (next.Some? ==>
          && next.value in b.workItems && next.value.key in Open(b, after)
          && next.value.key == NextWorkItem(f).value.key && next.value.issue == NextWorkItem(f).value.issue)
  }

  lemma NextOfPlan(f: ControlFacts, b: ControlFacts, plan: Plan, after: seq<WorkRun>) returns (next: Option<WorkItem>)
    requires Delivering(b, plan) && At(f, b, after) && AllLanded(after)
    ensures LiveWorkRuns(f) == [] && NextIs(f, b, after, next)
  {
    TurnAtRest(f, b, plan, after);
    SameShapeKeepsPlan(b.workItems, f.workItems, plan);
    NoDeadlock(f, plan);
    IncompleteAt(b.workItems, f.workItems, CompleteAmong(b.workItems, after));
    next := None;
    if NextWorkItem(f).Some? {
      var y := NextWorkItem(f).value;
      assert y.key in IncompleteKeys(f.workItems);
      var i :| 0 <= i < |f.workItems| && f.workItems[i] == y;
      next := Some(b.workItems[i]);
    }
  }

  predicate MovesTo(p: Payload, f: ControlFacts, previous: Option<Loaded>, next: Option<WorkItem>, identity: string) {
    Moves(p, f, if next.None? then "" else DispatchId(identity, NextCycleNumber(previous), next.value.key))
  }

  lemma MovesTake(b: ControlFacts, f: ControlFacts, p: Payload, after: seq<WorkRun>, next: Option<WorkItem>,
                  key: string)
    requires NextIs(f, b, after, next) && Moves(p, f, key)
    ensures Takes(b, p, Open(b, after), after, next)
  {
  }

  lemma TurnEnds(b: ControlFacts, previous: Option<Loaded>, after: seq<WorkRun>, f: ControlFacts, p: Payload,
                 next: Option<WorkItem>, identity: string)
    requires LandedRuns(after, previous, identity) && At(f, b, after) && Storable(p.facts)
    requires NextIs(f, b, after, next) && MovesTo(p, f, previous, next, identity)
    ensures Turned(b, previous, p, Open(b, after), after, next, identity)
  {
    if next.None? {
      MovesStand(b, previous, after, f, p, identity);
      MovesTake(b, f, p, after, next, "");
    } else {
      LaunchStands(b, previous, after, f, p, next.value, identity);
      MovesTake(b, f, p, after, next, DispatchId(identity, NextCycleNumber(previous), next.value.key));
    }
  }

  lemma TurnMoves(b: ControlFacts, previous: Option<Loaded>, after: seq<WorkRun>, f: ControlFacts, input: CycleInput,
                  next: Option<WorkItem>, identity: string)
    requires f == CycleFacts(input, previous) && f.configuredCurator.Some? && |f.desiredOutcomes| == 1
             && f.initiatives != []
    requires SnapshotOf(AdvanceCompleted(MergeLocalFacts(input.refreshed, previous))) == SnapshotOf(f)
    requires LiveWorkRuns(f) == [] && f.workRuns == after && AllEarlier(after, identity, NextCycleNumber(previous))
    requires NextIs(f, b, after, next)
    ensures var decided := Decide(input, previous, identity);
            decided.Ok? && MovesTo(decided.value, f, previous, next, identity)
  {
    forall i, x | 0 <= i < |f.workRuns|
      ensures f.workRuns[i].key != DispatchId(identity, NextCycleNumber(previous), x)
    {
      assert Earlier(after[i].key, identity, NextCycleNumber(previous));
    }
    TurnDecides(f, input, previous, identity);
  }

  lemma TurnSound(b: ControlFacts, previous: Option<Loaded>, after: seq<WorkRun>, t: Turn)
    requires Storable(b) && StorableRuns(after) && t.now != "" && CollectedRuns(previous, t) == after
    requires Shows(b.workItems, t.items, CompleteAmong(b.workItems, after))
    ensures Sound(InputFor(b, previous, t))
  {
    forall item | item in t.items ensures StorableItem(item) {
      var i :| 0 <= i < |t.items| && t.items[i] == item;
      assert b.workItems[i] in b.workItems;
    }
  }

  lemma TurnPayload(b: ControlFacts, previous: Option<Loaded>, t: Turn, identity: string)
    requires Sound(InputFor(b, previous, t)) && StorablePrior(previous)
    ensures var input := InputFor(b, previous, t);
            CyclePayload(input, previous, identity) == Decide(input, previous, identity)
  {
    DecisionStorable(InputFor(b, previous, t), previous, identity);
  }

  lemma PayloadStorable(input: CycleInput, previous: Option<Loaded>, identity: string)
    ensures var decided := CyclePayload(input, previous, identity);
            decided.Ok? ==> Storable(decided.value.facts)
  {
  }

  lemma TurnOn(b: ControlFacts, plan: Plan, previous: Option<Loaded>, after: seq<WorkRun>, input: CycleInput,
               f: ControlFacts, identity: string) returns (p: Payload, next: Option<WorkItem>)
    requires Delivering(b, plan) && LandedRuns(after, previous, identity)
    requires f == CycleFacts(input, previous) && At(f, b, after)
    requires SnapshotOf(AdvanceCompleted(MergeLocalFacts(input.refreshed, previous))) == SnapshotOf(f)
    requires CyclePayload(input, previous, identity) == Decide(input, previous, identity)
    ensures CyclePayload(input, previous, identity) == Ok(p)
    ensures Turned(b, previous, p, Open(b, after), after, next, identity)
  {
    next := NextOfPlan(f, b, plan, after);
    TurnMoves(b, previous, after, f, input, next, identity);
    p := Decide(input, previous, identity).value;
    PayloadStorable(input, previous, identity);
    TurnEnds(b, previous, after, f, p, next, identity);
  }

  /** One answered cycle is never refused, and leaves things standing again. */
  lemma OneTurn(b: ControlFacts, plan: Plan, previous: Option<Loaded>, landed: seq<WorkRun>, out: Option<WorkItem>,
                t: Turn, identity: string) returns (p: Payload, after: seq<WorkRun>, next: Option<WorkItem>)
    requires Delivering(b, plan) && Stands(b, previous, landed, out, identity) && Answers(b, previous, t)
    ensures CyclePayload(InputFor(b, previous, t), previous, identity) == Ok(p)
    ensures CollectedRuns(previous, t) == after
    ensures Turned(b, previous, p, Left(b, landed, out), after, next, identity)
  {
    after := TurnLands(b, previous, landed, out, t, identity);
    TurnFacts(b, previous, landed, after, t);
    TurnSound(b, previous, after, t);
    TurnPayload(b, previous, t, identity);
    var input := InputFor(b, previous, t);
    p, next := TurnOn(b, plan, previous, after, input, CycleFacts(input, previous), identity);
  }

  lemma OneMoreKey(key: string, tail: seq<string>)
    requires NoRepeats(tail) && key !in Elements(tail)
    ensures NoRepeats([key] + tail) && Elements([key] + tail) == {key} + Elements(tail)
  {
    forall x ensures x in [key] + tail <==> x == key || x in tail {}
    forall i, j | 0 <= i < j < |[key] + tail| ensures ([key] + tail)[i] != ([key] + tail)[j] {
      if i == 0 { assert tail[j - 1] in Elements(tail); }
    }
  }
}
