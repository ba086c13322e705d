/** Collecting delivery, recovery and queue facts before a cycle is decided
    (tools/controller_ports.py). */
module Collector {
  import opened Text
  import opened Facts
  import opened Policy
  import opened Merge
  import opened MergeHistory
  import opened RunLists

  // ------------------------------------------------------------ delivery observations

  /** `_merge`: an observation updates the first run it names, or is appended. */
  function MergeInto(runs: seq<WorkRun>, o: WorkRun): seq<WorkRun> {
    match FirstMatch(runs, o)
    case None => runs + [o]
    case Some(i) => MatchIsSymmetric(runs[i], o); runs[i := MergeObservation(runs[i], o)]
  }

  lemma MatchIsSymmetric(a: WorkRun, b: WorkRun)
    ensures SameWorkRun(a, b) <==> SameWorkRun(b, a)
  {
  }

  /** The delivery half of `collect`. */
  function MergeEach(runs: seq<WorkRun>, observed: seq<WorkRun>): seq<WorkRun>
    decreases |observed|
  {
    if observed == [] then runs else MergeEach(MergeInto(runs, observed[0]), observed[1..])
  }

  /** The loop of `collect`, overwriting and appending slots of one list. */
  method CollectDeliveries(existing: seq<WorkRun>, observed: seq<WorkRun>) returns (runs: seq<WorkRun>)
    ensures runs == MergeEach(existing, observed)
  {
    runs := existing;
    for i := 0 to |observed|
      invariant MergeEach(runs, observed[i..]) == MergeEach(existing, observed)
    {
      assert observed[i..][0] == observed[i] && observed[i..][1..] == observed[i + 1..];
      var found := FirstMatch(runs, observed[i]);
      if found.None? {
        runs := runs + [observed[i]];
      } else {
        MatchIsSymmetric(runs[found.value], observed[i]);
        runs := runs[found.value := MergeObservation(runs[found.value], observed[i])];
      }
    }
  }

  /** The observations that name a run, in order. */
  function Naming(r: WorkRun, observed: seq<WorkRun>): (s: seq<WorkRun>)
    ensures Observes(r, s)
    decreases |observed|
  {
    if observed == [] then []
    else (if SameWorkRun(r, observed[0]) then [observed[0]] else []) + Naming(r, observed[1..])
  }

  /** One observation changes the run it names, and nothing else. */
  lemma MergeIntoPointwise(runs: seq<WorkRun>, o: WorkRun, x: WorkRun)
    requires Find(runs, x).Some?
    ensures var c := Find(runs, x).value;
            SameWorkRun(c, o) == SameWorkRun(x, o)
            && Find(MergeInto(runs, o), x) == Some(if SameWorkRun(c, o) then MergeObservation(c, o) else c)
  {
    var i := FirstMatch(runs, x).value;
    var c := runs[i];
    SameWorkRunIsEquivalence(x, c, o);
    SameWorkRunIsEquivalence(c, x, o);
    var after := MergeInto(runs, o);
    if SameWorkRun(x, o) {
      forall j | 0 <= j < i ensures !SameWorkRun(o, runs[j]) {
        SameWorkRunIsEquivalence(x, o, runs[j]);
      }
      MatchIsSymmetric(c, o);
      FirstMatchIs(runs, o, i);
      MergeKeepsIdentity(c, o, x);
      MatchIsSymmetric(after[i], x);
      FirstMatchIs(after, x, i);
    } else {
      var m := FirstMatch(runs, o);
      if m.Some? {
        MatchIsSymmetric(runs[m.value], o);
        MergeKeepsIdentity(runs[m.value], o, x);
        MatchIsSymmetric(after[m.value], x);
        MatchIsSymmetric(runs[m.value], x);
        SameWorkRunIsEquivalence(o, runs[m.value], x);
        MatchIsSymmetric(o, x);
      }
      FirstMatchIs(after, x, i);
    }
  }

  lemma NamingAgrees(a: WorkRun, b: WorkRun, observed: seq<WorkRun>)
    requires SameWorkRun(a, b)
    ensures Naming(a, observed) == Naming(b, observed)
    decreases |observed|
  {
    if observed != [] {
      SameWorkRunIsEquivalence(a, b, observed[0]);
      SameWorkRunIsEquivalence(b, a, observed[0]);
      NamingAgrees(a, b, observed[1..]);
    }
  }

  /** Collecting into the list is each run merging its own history: whatever is
      proved of one run's history holds of every run already in the list. */
  lemma {:induction false} KnownRunIsHistory(runs: seq<WorkRun>, observed: seq<WorkRun>, x: WorkRun)
    requires Find(runs, x).Some?
    ensures var c := Find(runs, x).value;
            Find(MergeEach(runs, observed), x) == Some(MergeAll(c, Naming(c, observed)))
    decreases |observed|
  {
    if observed != [] {
      var c, o := Find(runs, x).value, observed[0];
      MergeIntoPointwise(runs, o, x);
      var next := Find(MergeInto(runs, o), x).value;
      KnownRunIsHistory(MergeInto(runs, o), observed[1..], x);
      if SameWorkRun(c, o) {
        MergeKeepsIdentity(c, o, c);
        SameWorkRunIsEquivalence(c, c, c);
        MatchIsSymmetric(next, c);
        NamingAgrees(c, next, observed[1..]);
        var named := Naming(c, observed);
        assert named == [o] + Naming(c, observed[1..]);
        MergeAllSplit(c, named, 1);
        assert named[..1] == [o] && named[1..] == Naming(c, observed[1..]);
        assert MergeAll(c, [o]) == next;
      } else {
        assert Naming(c, observed) == Naming(c, observed[1..]);
      }
    }
  }

  /** An observation of an unknown run becomes that run; others do not touch it. */
  lemma MergeIntoUnknown(runs: seq<WorkRun>, o: WorkRun, x: WorkRun)
    requires Find(runs, x).None?
    ensures Find(MergeInto(runs, o), x) == if SameWorkRun(x, o) then Some(o) else None
  {
    var m := FirstMatch(runs, o);
    if m.None? {
      FindAppend(runs, o, x);
    } else {
      var c := runs[m.value];
      assert !SameWorkRun(x, c);
      MatchIsSymmetric(c, o);
      MergeKeepsIdentity(c, o, x);
      SameWorkRunIsEquivalence(x, o, c);
      MatchIsSymmetric(x, c);
      MatchIsSymmetric(x, MergeObservation(c, o));
    }
  }

  /** After collecting, every run there is, known before or first seen now, is
      its own history: the known run, or the first observation that names it,
      with the later ones that name it merged in order. */
  lemma {:induction false} CollectionIsHistory(runs: seq<WorkRun>, observed: seq<WorkRun>, x: WorkRun)
    ensures var known, named := Find(runs, x), Naming(x, observed);
            && (known.Some? ==>
                  && named == Naming(known.value, observed)
                  && Find(MergeEach(runs, observed), x) == Some(MergeAll(known.value, named)))
            && (known.None? && named == [] ==> Find(MergeEach(runs, observed), x).None?)
            && (known.None? && named != [] ==>
                  && Observes(named[0], named[1..])
                  && Find(MergeEach(runs, observed), x) == Some(MergeAll(named[0], named[1..])))
    decreases |observed|
  {
    var known := Find(runs, x);
    if known.Some? {
      KnownRunIsHistory(runs, observed, x);
      NamingAgrees(x, known.value, observed);
    } else if observed != [] {
      MergeIntoUnknown(runs, observed[0], x);
      if SameWorkRun(x, observed[0]) {
        KnownRunIsHistory(MergeInto(runs, observed[0]), observed[1..], x);
        NamingAgrees(x, observed[0], observed[1..]);
        assert Naming(x, observed)[1..] == Naming(x, observed[1..]);
      } else {
        CollectionIsHistory(MergeInto(runs, observed[0]), observed[1..], x);
        assert Naming(x, observed) == Naming(x, observed[1..]);
      }
    }
  }

  // ------------------------------------------------------------ recovery verdicts

  /** Runs a recovery look leaves alone: landed, or concluded. */
  predicate Settled(run: WorkRun) {
    run.landedSha.Some? || (run.state == NON_RESULT && (run.recoveryKind.None? || Concluded(run)))
  }

  /** `_with_recovery`, with the classifier's answer as an input. */
  function WithRecovery(run: WorkRun, verdict: Option<string>): WorkRun {
    if Settled(run) || verdict.None? then run
    else if verdict.value in RECOVERY_RELAUNCH_KINDS then
      run.(state := NON_RESULT,
           failureClass := if Truthy(run.failureClass) then run.failureClass else Some("interrupted"),
           recoveryKind := verdict)
    else run.(recoveryKind := verdict)
  }

  predicate Terminal(verdict: Option<string>) {
    verdict.Some? && verdict.value in RECOVERY_RELAUNCH_KINDS
  }

  /** A run looked at once a cycle. */
  function Looks(run: WorkRun, verdicts: seq<Option<string>>): WorkRun
    decreases |verdicts|
  {
    if verdicts == [] then run else Looks(WithRecovery(run, verdicts[0]), verdicts[1..])
  }

  /** The verdict that counts: the first concluding one, else the last one given. */
  function Decisive(verdicts: seq<Option<string>>): Option<string>
    decreases |verdicts|
  {
    if verdicts == [] then None
    else if Terminal(verdicts[0]) then verdicts[0]
    else
      var later := Decisive(verdicts[1..]);
      if later.Some? then later else verdicts[0]
  }

  /** However many looks are taken, the run is as the one decisive verdict left
      it: a conclusion is never revised, and an observation leaves no trace. */
  lemma {:induction false} LooksAreOneLook(run: WorkRun, verdicts: seq<Option<string>>)
    ensures Looks(run, verdicts) == WithRecovery(run, Decisive(verdicts))
    decreases |verdicts|
  {
    if verdicts != [] {
      LooksAreOneLook(WithRecovery(run, verdicts[0]), verdicts[1..]);
    }
  }

  /** A look takes a slot away exactly when it concludes. */
  lemma RecoveryReleasesExactly(run: WorkRun, verdict: Option<string>, items: seq<WorkItem>)
    requires OwnsSlot(run, items)
    ensures OwnsSlot(WithRecovery(run, verdict), items) <==> Settled(run) || !Terminal(verdict)
  {
  }

  /** A conclusion releases the slot for good under every later history exactly
      when the run's class is none or a non-result, or its identity is in conflict. */
  lemma ConclusionIsFinal(run: WorkRun, verdict: Option<string>, items: seq<WorkItem>)
    requires !Settled(run) && Terminal(verdict)
    ensures var concluded := WithRecovery(run, verdict);
            (forall observed: seq<WorkRun> :: Observes(concluded, observed) ==>
                                              !OwnsSlot(MergeAll(concluded, observed), items))
            <==> !Truthy(run.failureClass) || TypedNonResult(run) || run.deliveryConflict || SeveralIdentities(run, run)
  {
    ReleasedForGood(WithRecovery(run, verdict), items);
  }

  // ------------------------------------------------------------ queue holders

  /** A held queue slot. */
  datatype Holder = Holder(issue: int, worktree: Option<string>, dispatchId: Option<string>)

  /** The first item with the holder's issue, or the issue's number. */
  function HolderKey(h: Holder, items: seq<WorkItem>): string {
    if items == [] then IntText(h.issue)
    else if items[0].issue == Some(h.issue) then items[0].key
    else HolderKey(h, items[1..])
  }

  predicate SameItem(run: WorkRun, key: string, issue: int) {
    run.ItemKey() == key || run.issue == Some(issue)
  }

  /** `_run_matches_holder`. */
  predicate MatchesHolder(run: WorkRun, h: Holder, items: seq<WorkItem>) {
    var same := SameItem(run, HolderKey(h, items), h.issue);
    if h.dispatchId.Some? then
      run.dispatchId == h.dispatchId || (run.dispatchId.None? && same && OwnsSlot(run, items))
    else same && OwnsSlot(run, items)
  }

  /** The run a holder stands for when nothing else does. */
  function HolderRun(h: Holder, items: seq<WorkItem>): WorkRun {
    BareRun(if Truthy(h.dispatchId) then h.dispatchId.value else "issue-" + IntText(h.issue), "running").(
      workItemKey := Some(HolderKey(h, items)), dispatchId := h.dispatchId,
      worktree := h.worktree, issue := Some(h.issue))
  }

  function AddHolder(runs: seq<WorkRun>, h: Holder, items: seq<WorkItem>): seq<WorkRun> {
    if exists run :: run in runs && MatchesHolder(run, h, items) then runs else runs + [HolderRun(h, items)]
  }

  function AddHolders(runs: seq<WorkRun>, holders: seq<Holder>, items: seq<WorkItem>): seq<WorkRun> {
    if holders == [] then runs
    else AddHolder(AddHolders(runs, holders[..|holders| - 1], items), holders[|holders| - 1], items)
  }

  /** The holder loop of `collect_with_previous`. */
  method CollectHolders(observed: seq<WorkRun>, holders: seq<Holder>, items: seq<WorkItem>) returns (runs: seq<WorkRun>)
    ensures runs == AddHolders(observed, holders, items)
  {
    runs := observed;
    for i := 0 to |holders|
      invariant runs == AddHolders(observed, holders[..i], items)
    {
      assert holders[..i + 1][..i] == holders[..i];
      if exists run :: run in runs && MatchesHolder(run, holders[i], items) {
        continue;
      }
      runs := runs + [HolderRun(holders[i], items)];
    }
    assert holders[..|holders|] == holders;
  }

  /** The two runs are for one Work Item or one issue. */
  predicate Rivals(a: WorkRun, b: WorkRun) {
    a.ItemKey() == b.ItemKey() || SameIssue(a.issue, b.issue)
  }

  /** Two live runs share a Work Item only as different named dispatches. */
  predicate OneSlotEach(runs: seq<WorkRun>, items: seq<WorkItem>) {
    forall i, j :: 0 <= i < j < |runs|
                   && OwnsSlot(runs[i], items) && OwnsSlot(runs[j], items) && Rivals(runs[i], runs[j]) ==>
                   runs[i].dispatchId.Some? && runs[j].dispatchId.Some? && runs[i].dispatchId != runs[j].dispatchId
  }

  lemma {:induction false} HolderKeyNamed(h: Holder, items: seq<WorkItem>)
    requires forall item :: item in items ==> item.key != ""
    ensures HolderKey(h, items) != ""
  {
    if items != [] && items[0].issue != Some(h.issue) {
      HolderKeyNamed(h, items[1..]);
    } else if items != [] {
      assert items[0] in items;
    }
  }

  lemma HolderKeepsOneSlot(runs: seq<WorkRun>, h: Holder, items: seq<WorkItem>)
    requires OneSlotEach(runs, items) && forall item :: item in items ==> item.key != ""
    ensures OneSlotEach(AddHolder(runs, h, items), items)
  {
    HolderKeyNamed(h, items);
    var added := HolderRun(h, items);
    var after := AddHolder(runs, h, items);
    if after != runs {
      forall i | 0 <= i < |runs| && OwnsSlot(runs[i], items) && Rivals(runs[i], added)
        ensures runs[i].dispatchId.Some? && added.dispatchId.Some? && runs[i].dispatchId != added.dispatchId
      {
        assert runs[i] in runs && !MatchesHolder(runs[i], h, items);
        assert SameItem(runs[i], HolderKey(h, items), h.issue);
      }
    }
  }

  lemma {:induction false} HoldersKeepRuns(runs: seq<WorkRun>, holders: seq<Holder>, items: seq<WorkItem>)
    ensures |AddHolders(runs, holders, items)| >= |runs| && AddHolders(runs, holders, items)[..|runs|] == runs
  {
    if holders != [] {
      HoldersKeepRuns(runs, holders[..|holders| - 1], items);
    }
  }

  /** Queue holders never put a Work Item into two slots: no run is lost, and
      live runs of one item stay at most one per named dispatch. */
  lemma {:induction false} HoldersTakeOneSlot(runs: seq<WorkRun>, holders: seq<Holder>, items: seq<WorkItem>)
    requires OneSlotEach(runs, items) && forall item :: item in items ==> item.key != ""
    ensures var after := AddHolders(runs, holders, items);
            OneSlotEach(after, items) && |after| >= |runs| && after[..|runs|] == runs
  {
    HoldersKeepRuns(runs, holders, items);
    if holders != [] {
      HoldersTakeOneSlot(runs, holders[..|holders| - 1], items);
      HolderKeepsOneSlot(AddHolders(runs, holders[..|holders| - 1], items), holders[|holders| - 1], items);
    }
  }

  /** A live run of the holder's item, or the holder's own dispatch. */
  predicate Represents(run: WorkRun, h: Holder, items: seq<WorkItem>) {
    || (OwnsSlot(run, items) && SameItem(run, HolderKey(h, items), h.issue))
    || (run.dispatchId.Some? && run.dispatchId == h.dispatchId)
  }

  lemma HolderIsCounted(runs: seq<WorkRun>, h: Holder, items: seq<WorkItem>)
    requires HolderKey(h, items) != ""
    ensures exists run :: run in AddHolder(runs, h, items) && Represents(run, h, items)
  {
    if exists run :: run in runs && MatchesHolder(run, h, items) {
      var run :| run in runs && MatchesHolder(run, h, items);
      assert Represents(run, h, items);
    } else {
      var added := HolderRun(h, items);
      assert added in AddHolder(runs, h, items) && Represents(added, h, items);
    }
  }

  /** Every holder is represented: by a live run of its item, or by its own dispatch. */
  lemma {:induction false} HoldersAreCounted(runs: seq<WorkRun>, holders: seq<Holder>, items: seq<WorkItem>, k: nat)
    requires k < |holders| && forall item :: item in items ==> item.key != ""
    ensures exists run :: run in AddHolders(runs, holders, items) && Represents(run, holders[k], items)
  {
    var n := |holders| - 1;
    var before := AddHolders(runs, holders[..n], items);
    if k < n {
      HoldersAreCounted(runs, holders[..n], items, k);
      var run :| run in before && Represents(run, holders[k], items);
      assert run in AddHolder(before, holders[n], items);
    } else {
      HolderKeyNamed(holders[n], items);
      HolderIsCounted(before, holders[n], items);
    }
  }

  // ------------------------------------------------------------ the whole collection

  /** One record of a dispatch directory: a standalone delivery, a published
      result with its delivery, or a published result that is a typed non-result. */
  datatype Report =
    | Progress(raw: WorkRun)
    | Published(raw: WorkRun)
    | Failed(dispatchId: string, failureClass: string)

  /** `_read_delivery` and `_read_result_delivery`. */
  function ReadReport(r: Report): WorkRun {
    match r
    case Progress(raw) => StandaloneDelivery(raw)
    case Published(raw) => ResultDelivery(raw)
    case Failed(dispatchId, failureClass) =>
      BareRun(dispatchId, NON_RESULT).(
        dispatchId := Some(dispatchId), failureClass := Some(failureClass), resultPublished := true)
  }

  function ReadReports(reports: seq<Report>): (r: seq<WorkRun>)
    ensures |r| == |reports| && forall i :: 0 <= i < |r| ==> r[i] == ReadReport(reports[i])
  {
    if reports == [] then [] else [ReadReport(reports[0])] + ReadReports(reports[1..])
  }

  /** What one collection reads besides the prior runs: the base collector's
      runs, the dispatch records, the recovery classifier's answers, and the
      queue's holders. */
  datatype Evidence = Evidence(
    base: seq<WorkRun>,
    reports: seq<Report>,
    verdict: WorkRun -> Option<string>,
    holders: seq<Holder>)

  function Looked(runs: seq<WorkRun>, verdict: WorkRun -> Option<string>): (r: seq<WorkRun>)
    ensures |r| == |runs| && forall i :: 0 <= i < |r| ==> r[i] == WithRecovery(runs[i], verdict(runs[i]))
  {
    if runs == [] then [] else [WithRecovery(runs[0], verdict(runs[0]))] + Looked(runs[1..], verdict)
  }

  /** The runs `collect_with_previous` returns. */
  function Collect(prior: seq<WorkRun>, e: Evidence, items: seq<WorkItem>): seq<WorkRun> {
    AddHolders(Looked(MergeEach(MergeRuns(prior, e.base), ReadReports(e.reports)), e.verdict), e.holders, items)
  }

  // ------------------------------------------------------------ what one collection means for one run

  lemma LookKeepsIdentity(run: WorkRun, verdict: Option<string>, other: WorkRun)
    ensures SameWorkRun(other, WithRecovery(run, verdict)) <==> SameWorkRun(other, run)
  {
  }

  /** Looking at every run is looking at the one an identity names. */
  lemma LookedFinds(runs: seq<WorkRun>, verdict: WorkRun -> Option<string>, x: WorkRun)
    ensures var found := Find(runs, x);
            Find(Looked(runs, verdict), x) ==
            if found.None? then None else Some(WithRecovery(found.value, verdict(found.value)))
  {
    var after := Looked(runs, verdict);
    forall i | 0 <= i < |runs| ensures SameWorkRun(x, after[i]) <==> SameWorkRun(x, runs[i]) {
      LookKeepsIdentity(runs[i], verdict(runs[i]), x);
    }
    var f := FirstMatch(runs, x);
    if f.Some? { FirstMatchIs(after, x, f.value); }
  }

  /** Runs appended later do not stand before the one an identity names. */
  lemma {:induction false} FoundStays(runs: seq<WorkRun>, more: seq<WorkRun>, x: WorkRun)
    requires Find(runs, x).Some? && |runs| <= |more| && more[..|runs|] == runs
    ensures Find(more, x) == Find(runs, x)
  {
    var i := FirstMatch(runs, x).value;
    assert forall j :: 0 <= j <= i ==> more[j] == runs[j];
    FirstMatchIs(more, x, i);
  }

  /** What one collection makes of any run it already had: history and base
      merged, then every dispatch record that names it in order, then one look.
      Holders never touch it, and nothing is lost. */
  lemma CollectedRun(prior: seq<WorkRun>, e: Evidence, items: seq<WorkItem>, x: WorkRun)
    requires Distinct(prior) && Combined(Find(prior, x), Find(e.base, x)).Some?
    ensures var known := Combined(Find(prior, x), Find(e.base, x)).value;
            var reported := MergeAll(known, Naming(known, ReadReports(e.reports)));
            Find(Collect(prior, e, items), x) == Some(WithRecovery(reported, e.verdict(reported)))
  {
    var merged := MergeRuns(prior, e.base);
    var observed := ReadReports(e.reports);
    MergeRunsPointwise(prior, e.base, x);
    KnownRunIsHistory(merged, observed, x);
    LookedFinds(MergeEach(merged, observed), e.verdict, x);
    var looked := Looked(MergeEach(merged, observed), e.verdict);
    HoldersKeepRuns(looked, e.holders, items);
    FoundStays(looked, AddHolders(looked, e.holders, items), x);
  }

  /** No two runs are recorded under one dispatch. */
  predicate OncePerDispatch(runs: seq<WorkRun>) {
    forall i, j :: 0 <= i < j < |runs| && runs[i].dispatchId.Some? ==> runs[i].dispatchId != runs[j].dispatchId
  }

  lemma ReplaceOnce(runs: seq<WorkRun>, i: nat, m: WorkRun)
    requires OncePerDispatch(runs) && i < |runs| && m.dispatchId == runs[i].dispatchId
    ensures OncePerDispatch(runs[i := m])
  {
  }

  lemma AbsorbOnce(current: seq<WorkRun>, p: WorkRun)
    requires OncePerDispatch(current)
    ensures OncePerDispatch(Absorb(current, p))
  {
    var f := FirstMatch(current, p);
    if f.Some? {
      MergedNames(p, current[f.value]);
      ReplaceOnce(current, f.value, MergeObservation(p, current[f.value]));
    }
  }

  lemma {:induction false} MergeRunsOnce(previous: seq<WorkRun>, current: seq<WorkRun>)
    requires OncePerDispatch(current)
    ensures OncePerDispatch(MergeRuns(previous, current))
  {
    if previous != [] {
      var n := |previous| - 1;
      MergeRunsOnce(previous[..n], current);
      AbsorbOnce(MergeRuns(previous[..n], current), previous[n]);
    }
  }

  lemma {:induction false} MergeEachOnce(runs: seq<WorkRun>, observed: seq<WorkRun>)
    requires OncePerDispatch(runs)
    ensures OncePerDispatch(MergeEach(runs, observed))
    decreases |observed|
  {
    if observed != [] {
      var o := observed[0];
      var f := FirstMatch(runs, o);
      if f.Some? {
        MatchIsSymmetric(runs[f.value], o);
        MergedNames(runs[f.value], o);
        ReplaceOnce(runs, f.value, MergeObservation(runs[f.value], o));
      }
      MergeEachOnce(MergeInto(runs, o), observed[1..]);
    }
  }

  lemma LookedOnce(runs: seq<WorkRun>, verdict: WorkRun -> Option<string>)
    requires OncePerDispatch(runs)
    ensures OncePerDispatch(Looked(runs, verdict))
  {
    var after := Looked(runs, verdict);
    forall i | 0 <= i < |runs| ensures after[i].dispatchId == runs[i].dispatchId {
      LookKeepsDispatch(runs[i], verdict(runs[i]));
    }
    SameDispatchesOnce(runs, after);
  }

  lemma LookKeepsDispatch(run: WorkRun, verdict: Option<string>)
    ensures WithRecovery(run, verdict).dispatchId == run.dispatchId
  {
  }

  lemma SameDispatchesOnce(runs: seq<WorkRun>, after: seq<WorkRun>)
    requires OncePerDispatch(runs) && |after| == |runs|
    requires forall i :: 0 <= i < |runs| ==> after[i].dispatchId == runs[i].dispatchId
    ensures OncePerDispatch(after)
  {
    forall i, j | 0 <= i < j < |after| && after[i].dispatchId.Some? ensures after[i].dispatchId != after[j].dispatchId {
      assert runs[i].dispatchId != runs[j].dispatchId;
    }
  }

  lemma HolderOnce(runs: seq<WorkRun>, h: Holder, items: seq<WorkItem>)
    requires OncePerDispatch(runs)
    ensures OncePerDispatch(AddHolder(runs, h, items))
  {
    var after := AddHolder(runs, h, items);
    if after != runs && h.dispatchId.Some? {
      forall i | 0 <= i < |runs| ensures runs[i].dispatchId != h.dispatchId {
        assert runs[i] in runs && !MatchesHolder(runs[i], h, items);
      }
    }
  }

  lemma {:induction false} HoldersOnce(runs: seq<WorkRun>, holders: seq<Holder>, items: seq<WorkItem>)
    requires OncePerDispatch(runs)
    ensures OncePerDispatch(AddHolders(runs, holders, items))
  {
    if holders != [] {
      var n := |holders| - 1;
      HoldersOnce(runs, holders[..n], items);
      HolderOnce(AddHolders(runs, holders[..n], items), holders[n], items);
    }
  }

  /** Whatever is read in it, a collection never records a dispatch twice. */
  lemma CollectionOncePerDispatch(prior: seq<WorkRun>, e: Evidence, items: seq<WorkItem>)
    requires OncePerDispatch(e.base)
    ensures OncePerDispatch(Collect(prior, e, items))
  {
    var merged, observed := MergeRuns(prior, e.base), ReadReports(e.reports);
    MergeRunsOnce(prior, e.base);
    MergeEachOnce(merged, observed);
    LookedOnce(MergeEach(merged, observed), e.verdict);
    HoldersOnce(Looked(MergeEach(merged, observed), e.verdict), e.holders, items);
  }
}
