/** When a launch costs another run its slot: recording a launch drops every run
    that goes by its key, and a delivery can rename a live run after any key. */
module Freshness {
  import opened Text
  import opened Facts
  import opened Policy
  import opened Launch
  import opened Merge
  import opened MergeHistory
  import opened RunLists
  import opened Journal
  import opened Driver
  import opened DriverLaws
  import opened DriverRuns
  import opened DriverSafety

  // ------------------------------------------------------------ the failing input

  /** One standalone delivery under the key of the launch to come, and that
      launch drops a live run of another item. */
  lemma DeliveryCanCostASlot(f: ControlFacts, r: WorkRun, raw: WorkRun, runKey: string)
    requires Unresolved(r) && !TypedNonResult(r) && SameWorkRun(r, raw) && !Conflicting(r, StandaloneDelivery(raw))
    requires raw.key == runKey && WellFormedItems(f.workItems) && Derive(f).actions != []
    requires MergeObservation(r, StandaloneDelivery(raw)) in f.workRuns
    ensures var renamed := MergeObservation(r, StandaloneDelivery(raw));
            && renamed in LiveWorkRuns(f) && Unresolved(renamed)
            && renamed !in WithWorkRun(f, Bind(Derive(f).actions[0], runKey), runKey, runKey).workRuns
  {
    var renamed := MergeObservation(r, StandaloneDelivery(raw));
    var action := Bind(Derive(f).actions[0], runKey);
    DeliveryRenames(r, raw);
    assert OwnsSlot(renamed, f.workItems) && renamed in LiveWorkRuns(f);
    KeptMembers(f.workRuns, f, action, runKey, renamed);
    NextIsEligible(f);
    assert !RunMatchesItem(renamed, NextWorkItem(f).value);
    assert RunMatchesItem(LaunchedRun(action, runKey, runKey), NextWorkItem(f).value);
  }

  // A run of Work Item x, its launch recorded under d; and an open Work Item w.
  const OUT_RUN := BareRun("d", RECORDED_LAUNCH_STATE).(workItemKey := Some("x"), dispatchId := Some("d"))
  const OPEN_ITEM := WorkItem("w", "open", None, [], None, [], "implementer", None, None)

  /** A delivery for the run, under a key of its own choosing. */
  function DeliveryUnder(key: string): WorkRun {
    BareRun(key, "running").(workItemKey := Some("x"), dispatchId := Some("d"))
  }

  function OutUnder(key: string): WorkRun {
    MergeObservation(OUT_RUN, StandaloneDelivery(DeliveryUnder(key)))
  }

  function RenamedFacts(key: string): ControlFacts {
    ControlFacts(Some("c"), [DesiredOutcome("o", 1, "d", None, None)], [Initiative("i", "open")],
                 [OPEN_ITEM], [OutUnder(key)], [], Some(2), [], [], [])
  }

  lemma RenamedIsLive(key: string)
    ensures OutUnder(key).key == key && OutUnder(key).ItemKey() == "x" && OutUnder(key).issue.None?
    ensures LiveWorkRuns(RenamedFacts(key)) == [OutUnder(key)]
  {
    DeliveryRenames(OUT_RUN, DeliveryUnder(key));
    assert OwnsSlot(OutUnder(key), [OPEN_ITEM]);
    assert LiveAmong([], [OPEN_ITEM]) == [] && [OutUnder(key)][..0] == [];
  }

  lemma OpenItemIsNext(key: string)
    ensures Derive(RenamedFacts(key)).actions != []
  {
    var f := RenamedFacts(key);
    RenamedIsLive(key);
    assert IsReady(OPEN_ITEM, f.workItems);
    assert IsEligible(OPEN_ITEM, f) && OPEN_ITEM in f.workItems;
    NextIsEligible(f);
  }

  lemma DeliveryAgrees(key: string)
    ensures var raw := DeliveryUnder(key);
            && Unresolved(OUT_RUN) && !TypedNonResult(OUT_RUN) && SameWorkRun(OUT_RUN, raw)
            && !Conflicting(OUT_RUN, StandaloneDelivery(raw)) && raw.key == key
  {
  }

  lemma RenamedFactsHold(key: string)
    ensures var f := RenamedFacts(key);
            WellFormedItems(f.workItems) && f.workRuns == [OutUnder(key)] && OutUnder(key) in f.workRuns
  {
  }

  lemma DroppedFrom(f: ControlFacts, key: string)
    requires WellFormedItems(f.workItems) && Derive(f).actions != [] && OutUnder(key) in f.workRuns
    ensures OutUnder(key) !in WithWorkRun(f, Bind(Derive(f).actions[0], key), key, key).workRuns
    ensures Unresolved(OutUnder(key))
  {
    DeliveryAgrees(key);
    DeliveryCanCostASlot(f, OUT_RUN, DeliveryUnder(key), key);
  }

  /** Such facts, for any key the launch of w is recorded under: w is launched,
      and the live run of x is gone. */
  lemma RenamedRunIsDropped(key: string)
    ensures var f := RenamedFacts(key);
            && Derive(f).actions != [] && LiveWorkRuns(f) == [OutUnder(key)] && Unresolved(OutUnder(key))
            && OutUnder(key) !in WithWorkRun(f, Bind(Derive(f).actions[0], key), key, key).workRuns
  {
    RenamedIsLive(key);
    OpenItemIsNext(key);
    RenamedFactsHold(key);
    DroppedFrom(RenamedFacts(key), key);
  }

  // ------------------------------------------------------------ keys of cycles to come

  /** No run goes by the run key of cycle `n` or a later one. */
  ghost predicate KeysBefore(runs: seq<WorkRun>, identity: string, n: nat) {
    forall run, m: nat, item :: run in runs && m >= n ==> run.key != DispatchId(identity, m, item)
  }

  lemma AbsorbKeys(current: seq<WorkRun>, p: WorkRun, identity: string, n: nat)
    requires KeysBefore(current, identity, n) && KeysBefore([p], identity, n)
    ensures KeysBefore(Absorb(current, p), identity, n)
  {
    assert p in [p];
    var f := FirstMatch(current, p);
    if f.Some? {
      var c := current[f.value];
      assert c in current;
      MergedNames(p, c);
    }
  }

  lemma {:induction false} MergeRunsKeys(previous: seq<WorkRun>, current: seq<WorkRun>, identity: string, n: nat)
    requires KeysBefore(previous, identity, n) && KeysBefore(current, identity, n)
    ensures KeysBefore(MergeRuns(previous, current), identity, n)
  {
    if previous != [] {
      var m := |previous| - 1;
      assert previous[m] in previous;
      MergeRunsKeys(previous[..m], current, identity, n);
      AbsorbKeys(MergeRuns(previous[..m], current), previous[m], identity, n);
    }
  }

  /** Every run that was live when a launch of this payload was chosen is still in its facts. */
  predicate KeepsLive(p: Payload) {
    forall b, run :: b in p.actions && b.StartWorkRun? && run in b.preconditions.workRuns ==> run in p.facts.workRuns
  }

  /** A decision of cycle `n` leaves no key of a later cycle, and no live run behind. */
  ghost predicate Tidy(p: Payload, identity: string, n: nat) {
    KeysBefore(p.facts.workRuns, identity, n + 1) && KeepsLive(p)
  }

  lemma LaunchTidy(f: ControlFacts, p: Payload, identity: string, n: nat)
    requires Derive(f).actions != [] && KeysBefore(f.workRuns, identity, n)
    requires var key := DispatchId(identity, n, Derive(f).selected.value.key);
             p.facts == WithWorkRun(f, Bind(Derive(f).actions[0], key), key, key)
             && p.actions == [Bind(Derive(f).actions[0], key)]
    ensures Tidy(p, identity, n)
  {
    var key := DispatchId(identity, n, Derive(f).selected.value.key);
    var action := Bind(Derive(f).actions[0], key);
    FreshKeyKeepsLive(f, key);
    forall run, m: nat, item | run in p.facts.workRuns && m >= n + 1 ensures run.key != DispatchId(identity, m, item) {
      KeptMembers(f.workRuns, f, action, key, run);
      if run.key == key && key == DispatchId(identity, m, item) {
        DispatchIdsDiffer(identity, n, Derive(f).selected.value.key, m, item);
      }
    }
  }

  lemma ShapeTidy(p: Payload, f: ControlFacts, identity: string, n: nat)
    requires DecidedBy(p, f, n, identity) && KeysBefore(f.workRuns, identity, n)
    ensures Tidy(p, identity, n)
  {
    if p.facts == f && Launches(p.actions) == [] {
      LaunchesMembers(p.actions);
    } else {
      LaunchTidy(f, p, identity, n);
    }
  }

  lemma DecisionTidy(input: CycleInput, previous: Option<Loaded>, identity: string)
    requires KeysBefore(PriorRuns(previous), identity, NextCycleNumber(previous))
    requires KeysBefore(input.collected.workRuns, identity, NextCycleNumber(previous))
    ensures var decided := CyclePayload(input, previous, identity);
            decided.Ok? ==> Tidy(decided.value, identity, NextCycleNumber(previous))
  {
    var f := CycleFacts(input, previous);
    MergeRunsKeys(PriorRuns(previous), input.collected.workRuns, identity, NextCycleNumber(previous));
    assert KeysBefore(f.workRuns, identity, NextCycleNumber(previous));
    var decided := Decide(input, previous, identity);
    DecisionShape(input, previous, identity);
    if decided.Ok? {
      ShapeTidy(decided.value, f, identity, NextCycleNumber(previous));
    }
  }

  // ------------------------------------------------------------ every run

  /** No collected run goes by the run key of a cycle that has not been decided. */
  ghost function NothingAhead(identity: string): (Option<Loaded>, CycleInput) -> bool {
    (previous: Option<Loaded>, input: CycleInput) =>
      KeysBefore(input.collected.workRuns, identity, NextCycleNumber(previous))
  }

  /** Decisions on facts with no key ahead leave none ahead, and no live run behind. */
  ghost predicate KeepsTidy(s: Setting) {
    forall previous, payload ::
      s.decides(previous, payload) && KeysBefore(PriorRuns(previous), s.identity, NextCycleNumber(previous)) ==>
        Tidy(payload, s.identity, NextCycleNumber(previous))
  }

  lemma ControllerKeepsTidy(identity: string, digest: Digest)
    ensures KeepsTidy(ControllerFrom(identity, digest, NothingAhead(identity)))
  {
    var s := ControllerFrom(identity, digest, NothingAhead(identity));
    forall previous, payload | s.decides(previous, payload)
                               && KeysBefore(PriorRuns(previous), identity, NextCycleNumber(previous))
      ensures Tidy(payload, identity, NextCycleNumber(previous))
    {
      var input :| NothingAhead(identity)(previous, input) && CyclePayload(input, previous, identity) == Ok(payload);
      DecisionTidy(input, previous, identity);
    }
  }

  lemma {:induction false} TidyThroughout(records: seq<Record>, k: nat, s: Setting)
    requires Traced(records, s) && KeepsTidy(s) && 3 * k < |records|
    ensures Tidy(records[3 * k].payload, s.identity, k + 1)
  {
    assert Decided(records, k, s);
    assert NextCycleNumber(PriorTo(records, k, s.identity)) == k + 1;
    if k > 0 {
      TidyThroughout(records, k - 1, s);
    }
  }

  /** Over every run in which no collected run goes by the key of a cycle still
      to come, every run that was live when a journaled launch was chosen is
      still there once the launch is recorded. */
  lemma LaunchesCostNoSlot(ops: seq<Op>, identity: string, digest: Digest, records: seq<Record>, k: nat)
    requires records == RecordsOf(RunOps(ops, identity, digest).disk) && 3 * k < |records|
    requires ReceivesFrom(ops, identity, digest, NothingAhead(identity))
    ensures KeepsLive(records[3 * k].payload)
  {
    var s := ControllerFrom(identity, digest, NothingAhead(identity));
    InvHoldsFrom(ops, identity, digest, NothingAhead(identity));
    ControllerKeepsTidy(identity, digest);
    TidyThroughout(records, k, s);
  }
}
