/** A run that loses a live run's slot: x is launched, a delivery of its dispatch
    goes by the run key of the next cycle's launch, and that launch drops x. */
module LostSlot {
  import opened Text
  import opened Facts
  import opened Policy
  import opened Launch
  import opened Merge
  import opened MergeHistory
  import opened RunLists
  import opened Collector
  import opened Journal
  import opened Driver
  import opened DriverLaws
  import opened DriverRuns
  import opened DriverSafety
  import opened JournalFacts
  import opened StorableFacts
  import opened Standstill

  // ------------------------------------------------------------ the first cycle

  const X := WorkItem("x", "open", None, [], None, [], "implementer", None, None)
  const W := WorkItem("w", "open", None, [], None, [], "implementer", None, None)

  function FactsWith(items: seq<WorkItem>, runs: seq<WorkRun>): ControlFacts {
    ControlFacts(Some("c"), [DesiredOutcome("o", 1, "d", None, None)], [Initiative("i", "open")],
                 items, runs, [], Some(2), [], [], [])
  }

  /** Nothing but x is on the tracker yet. */
  const FIRST := CycleInput(FactsWith([X], []), FactsWith([X], []), None, "now")

  function FirstKey(identity: string): string {
    DispatchId(identity, 1, "x")
  }

  /** The run the first cycle records. */
  function Launched(identity: string): WorkRun {
    LaunchedRun(Bind(LaunchAction(FactsWith([X], []), X), FirstKey(identity)), FirstKey(identity), FirstKey(identity))
  }

  lemma OnlyItemIsNext(f: ControlFacts, item: WorkItem)
    requires item in f.workItems && IsEligible(item, f)
    requires forall other :: other in f.workItems && other != item ==> !IsEligible(other, f)
    ensures NextWorkItem(f) == Some(item)
  {
    NextIsEligible(f);
  }

  lemma FirstIsX()
    ensures NextWorkItem(FactsWith([X], [])) == Some(X)
    ensures AdvanceCompleted(FactsWith([X], [])) == FactsWith([X], []) == CycleFacts(FIRST, None)
  {
    var f := FactsWith([X], []);
    assert CompleteKeys(f) == {} && AdvanceCompleted(f).workItems == [X];
    assert IsReady(X, f.workItems) && LiveWorkRuns(f) == [] && HeldResources(f) == {};
    OnlyItemIsNext(f, X);
  }

  lemma LaunchedX(identity: string)
    ensures Storable(FactsWith([X], [Launched(identity)]))
    ensures WithWorkRun(FactsWith([X], []), Bind(LaunchAction(FactsWith([X], []), X), FirstKey(identity)),
                        FirstKey(identity), FirstKey(identity)) == FactsWith([X], [Launched(identity)])
  {
    var f := FactsWith([X], []);
    KeptAll([], f, Bind(LaunchAction(f, X), FirstKey(identity)), FirstKey(identity));
    assert [] + [Launched(identity)] == [Launched(identity)];
    assert FirstKey(identity) != "";
  }

  /** What the first cycle journals. */
  lemma FirstPayload(identity: string) returns (p: Payload)
    ensures CyclePayload(FIRST, None, identity) == Ok(p) && |p.actions| == 1 && p.actions[0].StartWorkRun?
    ensures p.facts == FactsWith([X], [Launched(identity)])
  {
    FirstIsX();
    LaunchedX(identity);
    assert Storable(FactsWith([X], []));
    DecisionStorable(FIRST, None, identity);
    p := Decide(FIRST, None, identity).value;
  }

  // ------------------------------------------------------------ the second cycle

  function SecondKey(identity: string): string {
    DispatchId(identity, 2, "w")
  }

  /** A delivery of x's dispatch, under the run key w will be launched with. */
  function Delivered(identity: string): WorkRun {
    BareRun(SecondKey(identity), "running").(workItemKey := Some("x"), dispatchId := Some(FirstKey(identity)))
  }

  /** Only the delivery is read. */
  function DeliveryRead(identity: string): Evidence {
    Evidence([], [Progress(Delivered(identity))], (run: WorkRun) => None, [])
  }

  /** What is collected once w is on the tracker too. */
  function SecondFacts(identity: string): ControlFacts {
    FactsWith([X, W], Collect([Launched(identity)], DeliveryRead(identity), [X, W]))
  }

  function Second(identity: string): CycleInput {
    CycleInput(SecondFacts(identity), SecondFacts(identity), None, "now")
  }

  function Renamed(identity: string): WorkRun {
    MergeObservation(Launched(identity), StandaloneDelivery(Delivered(identity)))
  }

  /** x's run as the second cycle has it. */
  predicate IsX(run: WorkRun, identity: string) {
    && run.key == SecondKey(identity) && run.dispatchId == Some(FirstKey(identity))
    && run.workItemKey == Some("x") && run.issue.None? && Unresolved(run) && StorableRun(run)
    && !run.deliveryConflict && !TypedNonResult(run)
  }

  lemma RenamedIsX(identity: string)
    ensures IsX(Renamed(identity), identity)
  {
    assert SecondKey(identity) != "" && FirstKey(identity) != "";
    DeliveryRenames(Launched(identity), Delivered(identity));
  }

  lemma RenamedAgain(identity: string)
    ensures IsX(MergeObservation(Launched(identity), Renamed(identity)), identity)
  {
    assert SecondKey(identity) != "" && FirstKey(identity) != "";
  }

  lemma OneRunMerges(p: WorkRun, c: WorkRun)
    requires SameWorkRun(p, c) && SameWorkRun(c, p)
    ensures MergeRuns([p], [c]) == [MergeObservation(p, c)]
    ensures MergeEach([p], [c]) == [MergeObservation(p, c)]
    ensures MergeRuns([p], []) == [p]
  {
    FirstMatchIs([c], p, 0);
    FirstMatchIs([p], c, 0);
    assert [p][..0] == [] && [c][1..] == [] && [] + [p] == [p];
    assert [c][0 := MergeObservation(p, c)] == [MergeObservation(p, c)];
    assert [p][0 := MergeObservation(p, c)] == [MergeObservation(p, c)];
  }

  lemma SecondCollects(identity: string)
    ensures SecondFacts(identity) == FactsWith([X, W], [Renamed(identity)])
  {
    var l, o := Launched(identity), StandaloneDelivery(Delivered(identity));
    OneRunMerges(l, o);
    var e := DeliveryRead(identity);
    assert ReadReports(e.reports) == [o];
    assert Looked([Renamed(identity)], e.verdict) == [Renamed(identity)];
  }

  function Prior(identity: string, p: Payload): Option<Loaded> {
    Some(Loaded(p, CycleId(identity, 1), 3, Confirmed))
  }

  function XRun(identity: string): WorkRun {
    MergeObservation(Launched(identity), Renamed(identity))
  }

  lemma SecondLocal(identity: string, p: Payload)
    requires p.facts == FactsWith([X], [Launched(identity)])
    ensures var f := AdvanceCompleted(MergeLocalFacts(SecondFacts(identity), Prior(identity, p)));
            f == FactsWith([X, W], [XRun(identity)])
  {
    SecondCollects(identity);
    OneRunMerges(Launched(identity), Renamed(identity));
    RenamedAgain(identity);
    var local := MergeLocalFacts(SecondFacts(identity), Prior(identity, p));
    assert p.facts.workItems[..0] == [] && LastComplete(p.facts.workItems, "x").None?;
    assert LastComplete(p.facts.workItems, "w").None?;
    assert local.workItems == [X, W] && local == FactsWith([X, W], [XRun(identity)]);
    assert CompleteKeys(local) == {};
    assert AdvanceCompleted(local).workItems == [X, W];
  }

  /** w is next: x's live run takes one of two slots. */
  lemma SecondIsW(f: ControlFacts, identity: string)
    requires f == FactsWith([X, W], [XRun(identity)]).(readyTransitions := f.readyTransitions)
    ensures NextWorkItem(f) == Some(W) && LiveWorkRuns(f) == [XRun(identity)]
  {
    RenamedAgain(identity);
    var run := XRun(identity);
    assert OwnsSlot(run, f.workItems) && LiveAmong([], f.workItems) == [] && [run][..0] == [];
    assert run in LiveWorkRuns(f) && RunMatchesItem(run, X) && !RunMatchesItem(run, W);
    assert IsReady(W, f.workItems) && OccupiedCapacity(f) == 1;
    OnlyItemIsNext(f, W);
  }

  /** Recording w's launch drops x's run. */
  lemma XIsDropped(f: ControlFacts, identity: string)
    requires f == FactsWith([X, W], [XRun(identity)]).(readyTransitions := f.readyTransitions)
    ensures var action := Bind(LaunchAction(f, W), SecondKey(identity));
            WithWorkRun(f, action, SecondKey(identity), SecondKey(identity)).workRuns ==
            [LaunchedRun(action, SecondKey(identity), SecondKey(identity))]
  {
    RenamedAgain(identity);
    var action := Bind(LaunchAction(f, W), SecondKey(identity));
    assert Kept([], f, action, SecondKey(identity)) == [] && [XRun(identity)][..0] == [];
    assert Kept([XRun(identity)], f, action, SecondKey(identity)) == [];
  }

  /** x's run was live when the launch was chosen, and is not in what was recorded. */
  predicate LosesX(p: Payload, identity: string) {
    && |p.actions| == 1 && p.actions[0].StartWorkRun? && p.actions[0].workItemKey == "w"
    && (exists run :: run in p.actions[0].preconditions.workRuns && IsX(run, identity))
    && forall run :: run in p.facts.workRuns ==> run.dispatchId != Some(FirstKey(identity))
  }

  lemma KeysDiffer(identity: string)
    ensures SecondKey(identity) != FirstKey(identity)
  {
    if SecondKey(identity) == FirstKey(identity) {
      DispatchIdsDiffer(identity, 2, "w", 1, "x");
    }
  }

  lemma SecondSound(identity: string)
    ensures Sound(Second(identity))
  {
    SecondCollects(identity);
    RenamedIsX(identity);
    assert Storable(FactsWith([X, W], [Renamed(identity)]));
  }

  lemma SecondPayload(identity: string, p: Payload) returns (q: Payload)
    requires p.facts == FactsWith([X], [Launched(identity)])
    ensures CyclePayload(Second(identity), Prior(identity, p), identity) == Ok(q) && LosesX(q, identity)
  {
    var previous, input := Prior(identity, p), Second(identity);
    SecondDecides(identity, p);
    SecondSound(identity);
    LaunchedX(identity);
    DecisionStorable(input, previous, identity);
    q := Decide(input, previous, identity).value;
    SecondLosesX(q, CycleFacts(input, previous), identity);
  }

  /** What the second cycle records: w, on facts in which x's run is live. */
  predicate RecordsW(q: Payload, f: ControlFacts, identity: string) {
    var action := Bind(LaunchAction(f, W), SecondKey(identity));
    && q.actions == [action] && LiveWorkRuns(f) == [XRun(identity)]
    && q.facts.workRuns == [LaunchedRun(action, SecondKey(identity), SecondKey(identity))]
  }

  lemma SecondDecides(identity: string, p: Payload)
    requires p.facts == FactsWith([X], [Launched(identity)])
    ensures var decided := Decide(Second(identity), Prior(identity, p), identity);
            decided.Ok? && RecordsW(decided.value, CycleFacts(Second(identity), Prior(identity, p)), identity)
  {
    var f := CycleFacts(Second(identity), Prior(identity, p));
    SecondLocal(identity, p);
    SecondIsW(f, identity);
    LaunchDecided(f, Second(identity), Prior(identity, p), identity);
    XIsDropped(f, identity);
  }

  /** A cycle whose two looks agree records the launch of the next item. */
  lemma LaunchDecided(f: ControlFacts, input: CycleInput, previous: Option<Loaded>, identity: string)
    requires f == CycleFacts(input, previous) && f.configuredCurator.Some? && |f.desiredOutcomes| == 1
    requires f.initiatives != [] && NextWorkItem(f).Some? && f.workItems != []
    requires SnapshotOf(AdvanceCompleted(MergeLocalFacts(input.refreshed, previous))) == SnapshotOf(f)
    ensures var item := NextWorkItem(f).value;
            var key := DispatchId(identity, NextCycleNumber(previous), item.key);
            var action := Bind(LaunchAction(f, item), key);
            var decided := Decide(input, previous, identity);
            decided.Ok? && decided.value.actions == [action] && decided.value.facts == WithWorkRun(f, action, key, key)
  {
  }

  lemma SecondLosesX(q: Payload, f: ControlFacts, identity: string)
    requires RecordsW(q, f, identity)
    ensures LosesX(q, identity)
  {
    KeysDiffer(identity);
    RenamedAgain(identity);
    assert XRun(identity) in q.actions[0].preconditions.workRuns;
  }

  // ------------------------------------------------------------ the run

  lemma FirstCut(identity: string, digest: Digest, p: Payload)
    requires CyclePayload(FIRST, None, identity) == Ok(p) && |p.actions| == 1
    ensures RunOps([Cycle(FIRST, 4, Nothing)], identity, digest).disk.journal ==
            File([FirstRecord(identity, p, Planned), FirstRecord(identity, p, Applied)], false)
  {
    var effects := [Start] + NewCycle(CycleId(identity, 1), p);
    FirstCourse(FIRST, identity, digest);
    OneOp(Cycle(FIRST, 4, Nothing), identity, digest);
    FirstFour(identity, p);
    CutBetween(EMPTY_WORLD, effects, 4, digest);
    AfterFour(EMPTY_WORLD, FirstRecord(identity, p, Planned), p.actions[0], FirstRecord(identity, p, Applied), digest);
  }

  lemma FirstFour(identity: string, p: Payload)
    requires |p.actions| == 1
    ensures var effects := [Start] + NewCycle(CycleId(identity, 1), p);
            && |effects| == 6
            && effects[..4] == [Start] + [Append(FirstRecord(identity, p, Planned)), Perform(p.actions[0]),
                                          Append(FirstRecord(identity, p, Applied))]
  {
    assert p.actions[1..] == [] && Performs(p.actions) == [Perform(p.actions[0])];
  }

  lemma AfterFour(w: World, planned: Record, a: ControlAction, done: Record, digest: Digest)
    requires w.disk.journal.Absent?
    ensures After(w, [Start] + [Append(planned), Perform(a), Append(done)], digest).disk.journal ==
            File([planned, done], false)
  {
    AfterOne(w, Start, [Append(planned), Perform(a), Append(done)], digest);
    AfterThree(Do(w, Start, digest), Append(planned), Perform(a), Append(done), digest);
    assert [] + [planned] + [done] == [planned, done];
  }

  /** The launch of x, cut after it was applied, and resumed. */
  lemma XIsOut(identity: string, digest: Digest) returns (p: Payload, w: World)
    ensures w == RunOps([Cycle(FIRST, 4, Nothing), Cycle(FIRST, 4, Nothing)], identity, digest)
    ensures p.facts == FactsWith([X], [Launched(identity)])
    ensures LoadRecoverable(w.disk, digest) == Ok(Prior(identity, p).value)
    ensures RecordsOf(w.disk) == WholeFirst(identity, p)
  {
    p := FirstPayload(identity);
    FirstCut(identity, digest, p);
    var before, ops := [Cycle(FIRST, 4, Nothing)], [Cycle(FIRST, 4, Nothing), Cycle(FIRST, 4, Nothing)];
    assert before + [Cycle(FIRST, 4, Nothing)] == ops;
    w := RunOps(ops, identity, digest);
    ResumesFirst(before, identity, digest, p);
    var s := Reached(ops, identity, digest);
    WholeReloads(w, p, identity, s);
  }

  function WholeFirst(identity: string, p: Payload): seq<Record> {
    [FirstRecord(identity, p, Planned), FirstRecord(identity, p, Applied), FirstRecord(identity, p, Confirmed)]
  }

  lemma ResumesFirst(before: seq<Op>, identity: string, digest: Digest, p: Payload)
    requires RunOps(before, identity, digest).disk.journal ==
             File([FirstRecord(identity, p, Planned), FirstRecord(identity, p, Applied)], false)
    requires |p.actions| == 1
    ensures var w := RunOps(before + [Cycle(FIRST, 4, Nothing)], identity, digest);
            Holding(w, WholeFirst(identity, p)) && w.disk.view == ViewOf(WholeFirst(identity, p), digest)
  {
    var records := [FirstRecord(identity, p, Planned), FirstRecord(identity, p, Applied)];
    var s := Reached(before, identity, digest);
    RunsOnce(before, Cycle(FIRST, 4, Nothing), identity, digest);
    ResumesApplied(RunOps(before, identity, digest), records, FirstRecord(identity, p, Applied), s);
    assert records + [FirstRecord(identity, p, Confirmed)] == WholeFirst(identity, p);
  }

  lemma ResumesApplied(w: World, records: seq<Record>, last: Record, s: Setting)
    requires Inv(w, s) && Holding(w, records) && |records| == 2 && records[1] == last
    requires last.phase == Applied && |last.payload.actions| == 1
    ensures var after := ApplyOp(w, Cycle(FIRST, 4, Nothing), s.identity, s.digest);
            var whole := records + [Record(last.cycleId, Confirmed, last.payload)];
            Holding(after, whole) && after.disk.view == ViewOf(whole, s.digest)
  {
    OwedApplied(records, last);
    InterruptedCycleCompletes(w, records, FIRST, 4, Nothing, s);
  }

  lemma OwedApplied(records: seq<Record>, last: Record)
    requires |records| == 2 && records[1] == last && last.phase == Applied
    ensures Owed(records) == [Record(last.cycleId, Confirmed, last.payload)]
  {
  }

  lemma WholeReloads(w: World, p: Payload, identity: string, s: Setting)
    requires Inv(w, s) && Holding(w, WholeFirst(identity, p))
             && w.disk.view == ViewOf(WholeFirst(identity, p), s.digest)
    ensures LoadRecoverable(w.disk, s.digest) == Ok(Prior(identity, p).value)
            && RecordsOf(w.disk) == WholeFirst(identity, p)
  {
    RecoveryIsExact(w, s);
  }

  lemma ThirdOp(w: World, state: Loaded, input: CycleInput, q: Payload, identity: string, digest: Digest, s: Setting)
    requires Inv(w, s) && s.identity == identity && s.digest == digest
    requires LoadRecoverable(w.disk, digest) == Ok(state) && state.phase == Confirmed
    requires CyclePayload(input, Some(state), identity) == Ok(q)
    ensures RecordsOf(ApplyOp(w, Cycle(input, 1, Nothing), identity, digest).disk) ==
            RecordsOf(w.disk) + [Record(CycleId(identity, NextCycleNumber(Some(state))), Planned, q)]
  {
    var cycle := NewCycle(CycleId(identity, NextCycleNumber(Some(state))), q);
    ThirdCourse(w, state, input, q, identity, digest, s);
    OneEffect(w, cycle, digest);
  }

  lemma ThirdCourse(w: World, state: Loaded, input: CycleInput, q: Payload, identity: string, digest: Digest,
                    s: Setting)
    requires Inv(w, s) && s.identity == identity && s.digest == digest
    requires LoadRecoverable(w.disk, digest) == Ok(state) && state.phase == Confirmed
    requires CyclePayload(input, Some(state), identity) == Ok(q)
    ensures CourseOf(w, input, identity, digest).effects == NewCycle(CycleId(identity, NextCycleNumber(Some(state))), q)
  {
    LoadedStands(w, state, s);
    CourseCases(w, input, identity, digest);
    ContinuesWith(input, Some(state), identity);
  }

  /** A run of three operations, the last given what the collector returns on a
      single delivery: x is launched, and the launch of w drops its live run. */
  lemma RunLosesSlot(identity: string, digest: Digest)
    ensures var ops := [Cycle(FIRST, 4, Nothing), Cycle(FIRST, 4, Nothing), Cycle(Second(identity), 1, Nothing)];
            LaunchesAndLoses(RecordsOf(RunOps(ops, identity, digest).disk), identity)
  {
    var p, w := XIsOut(identity, digest);
    var q := SecondPayload(identity, p);
    var s := Reached([Cycle(FIRST, 4, Nothing), Cycle(FIRST, 4, Nothing)], identity, digest);
    ThirdOp(w, Prior(identity, p).value, Second(identity), q, identity, digest, s);
    ThreeOps(identity, digest);
    FourRecords(p, q, identity);
  }

  /** x is launched by the first cycle, and lost by the second. */
  predicate LaunchesAndLoses(records: seq<Record>, identity: string) {
    && |records| == 4 && Launched(identity) in records[0].payload.facts.workRuns
    && LosesX(records[3].payload, identity)
  }

  lemma FourRecords(p: Payload, q: Payload, identity: string)
    requires p.facts == FactsWith([X], [Launched(identity)]) && LosesX(q, identity)
    ensures forall id :: LaunchesAndLoses(WholeFirst(identity, p) + [Record(id, Planned, q)], identity)
  {
    assert Launched(identity) in p.facts.workRuns;
  }

  lemma ThreeOps(identity: string, digest: Digest)
    ensures var last := Cycle(Second(identity), 1, Nothing);
            RunOps([Cycle(FIRST, 4, Nothing), Cycle(FIRST, 4, Nothing), last], identity, digest) ==
            ApplyOp(RunOps([Cycle(FIRST, 4, Nothing), Cycle(FIRST, 4, Nothing)], identity, digest), last, identity,
                    digest)
  {
    var before, last := [Cycle(FIRST, 4, Nothing), Cycle(FIRST, 4, Nothing)], Cycle(Second(identity), 1, Nothing);
    RunsOnce(before, last, identity, digest);
    assert before + [last] == [Cycle(FIRST, 4, Nothing), Cycle(FIRST, 4, Nothing), last];
  }
}
