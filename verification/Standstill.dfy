/** Exactly which worlds no operation can ever change again. */
module Standstill {
  import opened Text
  import opened Facts
  import opened Policy
  import opened Launch
  import opened Journal
  import opened Driver
  import opened DriverLaws
  import opened DriverRuns
  import opened DriverSafety
  import opened JournalFacts
  import opened StorableFacts

  /** Every cycle, wherever it is cut, and the bootstrap recovery leave the world as it is. */
  ghost predicate Still(w: World, identity: string, digest: Digest) {
    forall op :: ApplyOp(w, op, identity, digest) == w
  }

  // ------------------------------------------------------------ what moves every other world

  /** The cycle of a controller that has nothing to do. */
  const IDLE_FACTS := ControlFacts(None, [], [], [], [], [], None, [], [], [])
  const IDLE := CycleInput(IDLE_FACTS, IDLE_FACTS, None, "now")

  lemma OneEffect(w: World, effects: seq<Effect>, digest: Digest)
    requires effects != []
    ensures Exec(w, effects, 1, Nothing, digest).world == Do(w, effects[0], digest)
  {
    var next := Do(w, effects[0], digest);
    assert Exec(w, effects, 1, Nothing, digest) == Exec(next, effects[1..], 0, Nothing, digest);
    if effects[1..] != [] {
      assert Interrupt(next, effects[1..][0], Nothing) == next;
    }
  }

  lemma FreshStarts(w: World, s: Setting)
    requires Inv(w, s) && w.disk.marker == Unmarked
    ensures ApplyOp(w, Cycle(IDLE, 1, Nothing), s.identity, s.digest) != w
  {
    CourseCases(w, IDLE, s.identity, s.digest);
    OneEffect(w, CourseOf(w, IDLE, s.identity, s.digest).effects, s.digest);
  }

  lemma BootstrapRecovers(w: World, s: Setting)
    requires Inv(w, s) && w.disk.marker == Started && w.disk.journal.Absent?
    ensures ApplyOp(w, RecoverBootstrap, s.identity, s.digest) != w
  {
  }

  lemma UnfinishedResumes(w: World, records: seq<Record>, s: Setting)
    requires Inv(w, s) && Holding(w, records) && |records| % 3 != 0 && !Indeterminate(w)
    ensures ApplyOp(w, Cycle(IDLE, |records[|records| - 1].payload.actions| + 3, Nothing), s.identity, s.digest) != w
  {
    InterruptedCycleCompletes(w, records, IDLE, |records[|records| - 1].payload.actions| + 3, Nothing, s);
    assert |records + Owed(records)| > |records|;
  }

  lemma IdleDecides(state: Loaded, identity: string)
    requires Storable(state.payload.facts)
    ensures CyclePayload(IDLE, Some(state), identity).Ok?
  {
    assert Storable(IDLE_FACTS);
    DecisionStorable(IDLE, Some(state), identity);
    var f := CycleFacts(IDLE, Some(state));
    assert f.configuredCurator.None?;
  }

  lemma ConfirmedContinues(w: World, state: Loaded, s: Setting)
    requires Inv(w, s) && w.disk.marker == Started && LoadRecoverable(w.disk, s.digest) == Ok(state)
    requires state.phase == Confirmed && Storable(state.payload.facts)
    ensures ApplyOp(w, Cycle(IDLE, 1, Nothing), s.identity, s.digest) != w
  {
    IdleDecides(state, s.identity);
    CourseCases(w, IDLE, s.identity, s.digest);
    var effects := CourseOf(w, IDLE, s.identity, s.digest).effects;
    var r := Record(CycleId(s.identity, NextCycleNumber(Some(state))), Planned,
                    CyclePayload(IDLE, Some(state), s.identity).value);
    assert effects[0] == Append(r);
    OneEffect(w, effects, s.digest);
    assert |RecordsOf(w.disk) + [r]| > |RecordsOf(w.disk)|;
  }

  lemma OthersMove(w: World, s: Setting)
    requires Inv(w, s) && !Halted(w, s.digest)
    requires forall i :: 0 <= i < |RecordsOf(w.disk)| ==> Storable(RecordsOf(w.disk)[i].payload.facts)
    ensures !Still(w, s.identity, s.digest)
  {
    if w.disk.marker == Unmarked {
      FreshStarts(w, s);
    } else if w.disk.journal.Absent? {
      BootstrapRecovers(w, s);
    } else if |RecordsOf(w.disk)| % 3 != 0 {
      UnfinishedResumes(w, RecordsOf(w.disk), s);
    } else {
      RecoveryIsExact(w, s);
      var state := LoadRecoverable(w.disk, s.digest).value;
      LoadedStands(w, state, s);
      ConfirmedContinues(w, state, s);
    }
  }

  /** After any run, the world is beyond the reach of every later cycle and of
      the bootstrap recovery exactly when its start marker was cut short, its
      journal does not load, or it holds a planned launch. */
  lemma StandstillExactly(ops: seq<Op>, identity: string, digest: Digest, w: World)
    requires w == RunOps(ops, identity, digest)
    ensures Still(w, identity, digest) <==> Halted(w, digest)
  {
    var s := Reached(ops, identity, digest);
    if Halted(w, digest) {
      forall op ensures ApplyOp(w, op, identity, digest) == w { HaltedIsStill(w, op, s); }
    } else {
      AllStorable(ops, identity, digest, RecordsOf(w.disk));
      OthersMove(w, s);
    }
  }

  lemma AllStorable(ops: seq<Op>, identity: string, digest: Digest, records: seq<Record>)
    requires records == RecordsOf(RunOps(ops, identity, digest).disk)
    ensures forall i :: 0 <= i < |records| ==> Storable(records[i].payload.facts)
  {
    var s := ReachedRecords(ops, identity, digest, records);
    forall i | 0 <= i < |records| ensures Storable(records[i].payload.facts) {
      RecordStorable(records, i, s);
    }
  }

  /** The second kind of halt is real: the very first cycle can leave it. */
  lemma FirstMarkerCanBreak(input: CycleInput, identity: string, digest: Digest)
    ensures var w := RunOps([Cycle(input, 0, Partly)], identity, digest);
            w.disk.marker == Broken && !Blocked(w, digest) && Still(w, identity, digest)
  {
    var op := Cycle(input, 0, Partly);
    var ops := [op];
    assert ops[..0] == [];
    CourseCases(EMPTY_WORLD, input, identity, digest);
    StandstillExactly(ops, identity, digest, RunOps(ops, identity, digest));
  }

  // ------------------------------------------------------------ an input for every halt

  /** A first cycle cut between two effects leaves what the effects before the cut left. */
  lemma {:induction false} CutBetween(w: World, effects: seq<Effect>, fuel: nat, digest: Digest)
    requires fuel < |effects|
    ensures Exec(w, effects, fuel, Nothing, digest).world == After(w, effects[..fuel], digest)
    decreases fuel
  {
    if fuel > 0 {
      CutBetween(Do(w, effects[0], digest), effects[1..], fuel - 1, digest);
      assert effects[..fuel][1..] == effects[1..][..fuel - 1];
    }
  }

  lemma FirstCourse(input: CycleInput, identity: string, digest: Digest)
    requires CyclePayload(input, None, identity).Ok?
    ensures CourseOf(EMPTY_WORLD, input, identity, digest).effects ==
            [Start] + NewCycle(CycleId(identity, 1), CyclePayload(input, None, identity).value)
  {
    CourseCases(EMPTY_WORLD, input, identity, digest);
    ContinuesWith(input, None, identity);
  }

  lemma OneOp(op: Op, identity: string, digest: Digest)
    ensures RunOps([op], identity, digest) == ApplyOp(EMPTY_WORLD, op, identity, digest)
  {
    assert [op][..0] == [];
  }

  /** The records a first cycle writes. */
  function FirstRecord(identity: string, payload: Payload, phase: Phase): Record {
    Record(CycleId(identity, 1), phase, payload)
  }

  lemma QuietDecision(input: CycleInput, previous: Option<Loaded>, identity: string)
    requires input.planning.None? && Derive(CycleFacts(input, previous)).actions == []
    ensures var f := CycleFacts(input, previous);
            Decide(input, previous, identity) == Ok(Payload(f, Derive(f).lifecycle, [], None))
  {
  }

  lemma IdleFirst(identity: string) returns (payload: Payload)
    ensures CyclePayload(IDLE, None, identity) == Ok(payload) && payload.actions == []
  {
    assert Storable(IDLE_FACTS);
    DecisionStorable(IDLE, None, identity);
    var f := CycleFacts(IDLE, None);
    assert f.configuredCurator.None?;
    assert Derive(f).actions == [];
    QuietDecision(IDLE, None, identity);
    payload := CyclePayload(IDLE, None, identity).value;
  }

  lemma AfterThree(w: World, a: Effect, b: Effect, c: Effect, digest: Digest)
    ensures After(w, [a, b, c], digest) == Do(Do(Do(w, a, digest), b, digest), c, digest)
  {
    assert [a, b, c] == [a] + ([b] + ([c] + []));
    AfterOne(w, a, [b] + ([c] + []), digest);
    AfterOne(Do(w, a, digest), b, [c] + [], digest);
    AfterOne(Do(Do(w, a, digest), b, digest), c, [], digest);
  }

  lemma ThreeAppends(w: World, p: Record, a: Record, c: Record, digest: Digest)
    requires w.disk.journal.Absent?
    ensures After(w, [Append(p), Append(a), Append(c)], digest).disk.journal == File([p, a, c], false)
    ensures After(w, [Append(p), Append(a), Append(c)], digest).disk.view == w.disk.view
  {
    AfterThree(w, Append(p), Append(a), Append(c), digest);
    assert [] + [p] + [a] + [c] == [p, a, c];
  }

  /** What a first cycle with no actions leaves when it is cut just before its view. */
  lemma CutBeforeView(input: CycleInput, payload: Payload, identity: string, digest: Digest)
    requires CyclePayload(input, None, identity) == Ok(payload) && payload.actions == []
    ensures var w := RunOps([Cycle(input, 4, Nothing)], identity, digest);
            w.disk.journal.File? && !w.disk.journal.torn && |w.disk.journal.records| == 3 && w.disk.view.None?
  {
    var p := FirstRecord(identity, payload, Planned);
    var a := FirstRecord(identity, payload, Applied);
    var c := FirstRecord(identity, payload, Confirmed);
    FirstCourse(input, identity, digest);
    OneOp(Cycle(input, 4, Nothing), identity, digest);
    var effects := [Start] + NewCycle(CycleId(identity, 1), payload);
    assert effects == [Start, Append(p), Append(a), Append(c), ReplaceView];
    CutBetween(EMPTY_WORLD, effects, 4, digest);
    assert effects[..4] == [Start] + [Append(p), Append(a), Append(c)];
    AfterOne(EMPTY_WORLD, Start, [Append(p), Append(a), Append(c)], digest);
    ThreeAppends(Do(EMPTY_WORLD, Start, digest), p, a, c, digest);
  }

  lemma ThreeWithoutViewHalt(w: World, digest: Digest)
    requires w.disk.journal.File? && !w.disk.journal.torn && |w.disk.journal.records| == 3 && w.disk.view.None?
    ensures Halted(w, digest)
  {
  }

  /** Cut just before its view, a first cycle leaves three records and no view: a halt. */
  lemma ConfirmedWithoutViewHalts(identity: string, digest: Digest)
    ensures var w := RunOps([Cycle(IDLE, 4, Nothing)], identity, digest);
            && w.disk.journal.File? && !w.disk.journal.torn && |w.disk.journal.records| == 3 && w.disk.view.None?
            && Halted(w, digest)
  {
    var payload := IdleFirst(identity);
    CutBeforeView(IDLE, payload, identity, digest);
    ThreeWithoutViewHalt(RunOps([Cycle(IDLE, 4, Nothing)], identity, digest), digest);
  }

  /** Cut inside its first line, a first cycle leaves a torn journal: a halt. */
  lemma TornLineHalts(identity: string, digest: Digest)
    ensures var w := RunOps([Cycle(IDLE, 1, Partly)], identity, digest);
            w.disk.journal == File([], true) && Halted(w, digest)
  {
    var payload := IdleFirst(identity);
    FirstCourse(IDLE, identity, digest);
    OneOp(Cycle(IDLE, 1, Partly), identity, digest);
    var effects := [Start] + NewCycle(CycleId(identity, 1), payload);
    var started := Do(EMPTY_WORLD, Start, digest);
    assert effects[0] == Start && effects[1..] == NewCycle(CycleId(identity, 1), payload);
    assert Exec(EMPTY_WORLD, effects, 1, Partly, digest) == Exec(started, effects[1..], 0, Partly, digest);
    assert effects[1..][0] == Append(FirstRecord(identity, payload, Planned));
  }

  // One open Work Item, and nothing in its way.
  const ITEM := WorkItem("w", "open", None, [], None, [], "implementer", None, None)
  const READY_FACTS :=
    ControlFacts(Some("c"), [DesiredOutcome("o", 1, "d", None, None)], [Initiative("i", "open")], [ITEM], [], [],
                 Some(1), [], [], [])
  const READY := CycleInput(READY_FACTS, READY_FACTS, None, "now")

  lemma ReadyIsEligible()
    ensures Derive(READY_FACTS).actions != []
  {
    assert IsReady(ITEM, READY_FACTS.workItems);
    assert LiveWorkRuns(READY_FACTS) == [] && HeldResources(READY_FACTS) == {};
    assert CapacityAvailable(READY_FACTS);
    assert IsEligible(ITEM, READY_FACTS) && ITEM in READY_FACTS.workItems;
    NextIsEligible(READY_FACTS);
  }

  lemma ReadyUnchanged()
    ensures AdvanceCompleted(READY_FACTS) == READY_FACTS
    ensures CycleFacts(READY, None) == READY_FACTS
  {
    assert CompleteKeys(READY_FACTS) == {};
    assert AdvanceCompleted(READY_FACTS).workItems == [ITEM];
  }

  lemma LaunchDecision(input: CycleInput, identity: string, f: ControlFacts)
    requires input.planning.None? && Derive(f).actions != []
    requires CycleFacts(input, None) == f && RefreshedFacts(input, None) == f
    ensures Decide(input, None, identity).Ok? && HoldsLaunch(Decide(input, None, identity).value.actions)
  {
    var actions := Decide(input, None, identity).value.actions;
    assert actions[0] in actions;
  }

  lemma ReadySound()
    ensures Sound(READY)
  {
    assert Storable(READY_FACTS);
  }

  lemma FirstLaunch(input: CycleInput, identity: string, f: ControlFacts) returns (payload: Payload)
    requires input.planning.None? && Derive(f).actions != [] && Sound(input)
    requires CycleFacts(input, None) == f && RefreshedFacts(input, None) == f
    ensures CyclePayload(input, None, identity) == Ok(payload) && HoldsLaunch(payload.actions)
  {
    LaunchDecision(input, identity, f);
    DecisionStorable(input, None, identity);
    payload := CyclePayload(input, None, identity).value;
  }

  lemma ReadyFirst(identity: string) returns (payload: Payload)
    ensures CyclePayload(READY, None, identity) == Ok(payload) && HoldsLaunch(payload.actions)
  {
    ReadyIsEligible();
    ReadyUnchanged();
    ReadySound();
    payload := FirstLaunch(READY, identity, READY_FACTS);
  }

  /** What a first cycle leaves when it is cut just after its plan. */
  lemma CutAfterPlan(input: CycleInput, payload: Payload, identity: string, digest: Digest)
    requires CyclePayload(input, None, identity) == Ok(payload)
    ensures var w := RunOps([Cycle(input, 2, Nothing)], identity, digest);
            w.disk.journal == File([FirstRecord(identity, payload, Planned)], false)
  {
    var p := FirstRecord(identity, payload, Planned);
    FirstCourse(input, identity, digest);
    OneOp(Cycle(input, 2, Nothing), identity, digest);
    var effects := [Start] + NewCycle(CycleId(identity, 1), payload);
    CutBetween(EMPTY_WORLD, effects, 2, digest);
    AfterPlan(effects, p, digest);
  }

  lemma AfterPlan(effects: seq<Effect>, p: Record, digest: Digest)
    requires |effects| > 2 && effects[0] == Start && effects[1] == Append(p)
    ensures After(EMPTY_WORLD, effects[..2], digest).disk.journal == File([p], false)
  {
    assert effects[..2] == [Start] + ([Append(p)] + []);
    AfterOne(EMPTY_WORLD, Start, [Append(p)] + [], digest);
    AfterOne(Do(EMPTY_WORLD, Start, digest), Append(p), [], digest);
    assert [] + [p] == [p];
  }

  lemma PlannedHalts(w: World, p: Record, digest: Digest)
    requires w.disk.journal == File([p], false) && HoldsLaunch(p.payload.actions)
    ensures Indeterminate(w) && Halted(w, digest)
  {
  }

  /** Cut just after its plan, a first cycle with something to launch leaves a planned launch: a halt. */
  lemma PlannedLaunchHalts(identity: string, digest: Digest)
    ensures var w := RunOps([Cycle(READY, 2, Nothing)], identity, digest);
            && w.disk.journal.File? && !w.disk.journal.torn && Indeterminate(w) && Halted(w, digest)
  {
    var payload := ReadyFirst(identity);
    CutAfterPlan(READY, payload, identity, digest);
    PlannedHalts(RunOps([Cycle(READY, 2, Nothing)], identity, digest), FirstRecord(identity, payload, Planned), digest);
  }
}
