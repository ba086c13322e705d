/** What holds after every run of cycles, crashes, restarts and bootstrap recoveries. */
module DriverSafety {
  import opened Text
  import opened Facts
  import opened Journal
  import opened Driver
  import opened DriverLaws
  import opened DriverRuns

  // ------------------------------------------------------------ every operation keeps the invariant

  lemma {:induction false} LaunchesMembers(actions: seq<ControlAction>)
    ensures Launches(actions) == [] <==> !HoldsLaunch(actions)
  {
    if actions != [] {
      var n := |actions| - 1;
      LaunchesMembers(actions[..n]);
      assert actions == actions[..n] + [actions[n]];
      if HoldsLaunch(actions) && !actions[n].StartWorkRun? {
        var a :| a in actions && a.StartWorkRun?;
        assert a in actions[..n];
      }
    }
  }

  /** The state a reachable world loads, and where its journal stands. */
  lemma LoadedStands(w: World, state: Loaded, s: Setting)
    requires Inv(w, s) && LoadRecoverable(w.disk, s.digest) == Ok(state)
    ensures w.disk.journal.File? && !w.disk.journal.torn && w.disk.journal.records != []
    ensures var records := w.disk.journal.records;
            var last := records[|records| - 1];
            && state == Loaded(last.payload, last.cycleId, |records|, PhaseAt(|records| - 1))
            && (state.phase == Planned ==> |records| % 3 == 1)
            && (state.phase == Applied ==> |records| % 3 == 2)
            && (state.phase == Confirmed ==> |records| % 3 == 0)
            && (|records| % 3 == 0 ==> w.disk.view == ViewOf(records, s.digest))
  {
    RecoveryIsExact(w, s);
    var records := w.disk.journal.records;
    assert Fits(records, |records| - 1, s.identity);
  }

  lemma ResumeReady(w: World, state: Loaded, s: Setting)
    requires Inv(w, s) && Lawful(s) && LoadRecoverable(w.disk, s.digest) == Ok(state)
    requires state.phase != Confirmed && ResumeEffects(state).Ok?
    ensures AllReady(w, ResumeEffects(state).value, s)
  {
    LoadedStands(w, state, s);
    var records := w.disk.journal.records;
    if state.phase == Planned {
      LaunchesMembers(state.payload.actions);
      PlannedReady(w, records, records[|records| - 1], s);
    } else {
      ConfirmReady(w, records, records[|records| - 1], s);
    }
  }

  /** A loaded confirmed state is what the next cycle of the journal has to go on. */
  lemma ConfirmedIsPrior(w: World, state: Loaded, s: Setting)
    requires Inv(w, s) && LoadRecoverable(w.disk, s.digest) == Ok(state) && state.phase == Confirmed
    ensures var records := w.disk.journal.records;
            |records| % 3 == 0 && PriorTo(records, Whole(records), s.identity) == Some(state)
  {
    LoadedStands(w, state, s);
    var records := w.disk.journal.records;
    assert Fits(records, |records| - 1, s.identity);
  }

  function EffectsOf(r: Result<seq<Effect>>): seq<Effect> {
    if r.Ok? then r.value else []
  }

  /** A cycle on `w` that decides anything decides it on `previous`. */
  predicate Consults(w: World, previous: Option<Loaded>, digest: Digest) {
    match previous
    case None => w.disk.journal.Absent?
    case Some(state) => LoadRecoverable(w.disk, digest) == Ok(state) && state.phase == Confirmed
  }

  /** Whatever the kernel decides on this input here, the setting accounts for. */
  ghost predicate Permits(s: Setting, w: World, input: CycleInput) {
    forall previous :: Consults(w, previous, s.digest) && CyclePayload(input, previous, s.identity).Ok? ==>
                       s.decides(previous, CyclePayload(input, previous, s.identity).value)
  }

  /** A cycle that resumes nothing performs the new cycle it decided, or nothing. */
  lemma ContinuesWith(input: CycleInput, previous: Option<Loaded>, identity: string)
    requires previous.Some? ==> previous.value.phase == Confirmed
    ensures var decided := CyclePayload(input, previous, identity);
            EffectsOf(Continue(input, previous, identity)) ==
            if decided.Ok? then NewCycle(CycleId(identity, NextCycleNumber(previous)), decided.value) else []
  {
  }

  lemma FirstCycleReady(w: World, input: CycleInput, s: Setting)
    requires Inv(w, s) && Lawful(s) && w.disk.marker == Started && w.disk.journal.Absent?
    requires CyclePayload(input, None, s.identity).Ok? ==> s.decides(None, CyclePayload(input, None, s.identity).value)
    ensures AllReady(w, EffectsOf(Continue(input, None, s.identity)), s)
  {
    ContinuesWith(input, None, s.identity);
    var decided := CyclePayload(input, None, s.identity);
    if decided.Ok? {
      FirstPayloadReady(w, decided.value, s);
    }
  }

  lemma FirstPayloadReady(w: World, payload: Payload, s: Setting)
    requires Inv(w, s) && Lawful(s) && w.disk.marker == Started && w.disk.journal.Absent?
    requires s.decides(None, payload)
    ensures AllReady(w, NewCycle(CycleId(s.identity, NextCycleNumber(None)), payload), s)
  {
    assert RecordsOf(w.disk) == [];
    NewCycleReady(w, payload, s);
  }

  lemma ConfirmedCycleReady(w: World, state: Loaded, input: CycleInput, s: Setting)
    requires Inv(w, s) && Lawful(s) && LoadRecoverable(w.disk, s.digest) == Ok(state) && state.phase == Confirmed
    requires CyclePayload(input, Some(state), s.identity).Ok? ==>
               s.decides(Some(state), CyclePayload(input, Some(state), s.identity).value)
    ensures AllReady(w, EffectsOf(Continue(input, Some(state), s.identity)), s)
  {
    ContinuesWith(input, Some(state), s.identity);
    var decided := CyclePayload(input, Some(state), s.identity);
    if decided.Ok? {
      ConfirmedPayloadReady(w, state, decided.value, s);
    }
  }

  lemma ConfirmedPayloadReady(w: World, state: Loaded, payload: Payload, s: Setting)
    requires Inv(w, s) && Lawful(s) && LoadRecoverable(w.disk, s.digest) == Ok(state) && state.phase == Confirmed
    requires s.decides(Some(state), payload)
    ensures AllReady(w, NewCycle(CycleId(s.identity, NextCycleNumber(Some(state))), payload), s)
  {
    ConfirmedWorld(w, state, s);
    NewCycleReady(w, payload, s);
  }

  /** The world a confirmed state was loaded from. */
  lemma ConfirmedWorld(w: World, state: Loaded, s: Setting)
    requires Inv(w, s) && LoadRecoverable(w.disk, s.digest) == Ok(state) && state.phase == Confirmed
    ensures w.disk.marker == Started && (w.disk.journal.File? ==> !w.disk.journal.torn)
    ensures var records := RecordsOf(w.disk);
            && |records| % 3 == 0 && w.disk.view == ViewOf(records, s.digest)
            && PriorTo(records, Whole(records), s.identity) == Some(state)
            && Whole(records) + 1 == NextCycleNumber(Some(state))
  {
    LoadedStands(w, state, s);
    ConfirmedIsPrior(w, state, s);
  }

  lemma NextCycleReady(w: World, state: Loaded, input: CycleInput, s: Setting)
    requires Inv(w, s) && Lawful(s) && Permits(s, w, input)
    requires LoadRecoverable(w.disk, s.digest) == Ok(state)
    ensures AllReady(w, EffectsOf(Continue(input, Some(state), s.identity)), s)
  {
    if state.phase == Confirmed {
      assert Consults(w, Some(state), s.digest);
      ConfirmedCycleReady(w, state, input, s);
    } else if ResumeEffects(state).Ok? {
      ResumeReady(w, state, s);
    }
  }

  /** What a cycle does in each of the four situations it can find. */
  lemma CourseCases(w: World, input: CycleInput, identity: string, digest: Digest)
    ensures w.disk.marker == Broken ==> CourseOf(w, input, identity, digest).effects == []
    ensures w.disk.marker == Started ==>
              var loaded := LoadRecoverable(w.disk, digest);
              CourseOf(w, input, identity, digest).effects
              == if loaded.Err? then [] else EffectsOf(Continue(input, Some(loaded.value), identity))
    ensures w.disk.marker == Unmarked && w.disk.journal.Absent? && w.disk.view.None? ==>
              CourseOf(w, input, identity, digest).effects == [Start] + EffectsOf(Continue(input, None, identity))
  {
    assert w.disk.marker == Started ==> w.disk.(marker := Started) == w.disk;
    if w.disk.marker == Unmarked { assert [Start] + [] == [Start]; }
  }

  lemma FreshCourseReady(w: World, input: CycleInput, s: Setting)
    requires Inv(w, s) && Lawful(s) && Permits(s, w, input) && w.disk.journal.Absent?
    ensures AllReady(w, [Start] + EffectsOf(Continue(input, None, s.identity)), s)
  {
    assert Consults(w, None, s.digest);
    FirstCycleReady(Do(w, Start, s.digest), input, s);
    OneReady(w, Start, EffectsOf(Continue(input, None, s.identity)), s);
  }

  lemma CourseReady(w: World, input: CycleInput, s: Setting)
    requires Inv(w, s) && Lawful(s) && Permits(s, w, input)
    ensures AllReady(w, CourseOf(w, input, s.identity, s.digest).effects, s)
  {
    CourseCases(w, input, s.identity, s.digest);
    match w.disk.marker
    case Broken =>
    case Unmarked => FreshCourseReady(w, input, s);
    case Started =>
      var loaded := LoadRecoverable(w.disk, s.digest);
      if loaded.Ok? {
        NextCycleReady(w, loaded.value, input, s);
      }
  }

  lemma OpKeeps(w: World, op: Op, s: Setting)
    requires Inv(w, s) && Lawful(s) && (op.Cycle? ==> Permits(s, w, op.input))
    ensures Inv(ApplyOp(w, op, s.identity, s.digest), s)
  {
    if op.Cycle? {
      CourseReady(w, op.input, s);
      ExecKeeps(w, CourseOf(w, op.input, s.identity, s.digest).effects, op.fuel, op.tear, s);
    }
  }

  /** Each cycle's decision, taken where the run had got to, is one the setting accounts for. */
  ghost predicate PermitsAll(ops: seq<Op>, s: Setting) {
    forall i :: 0 <= i < |ops| && ops[i].Cycle? ==> Permits(s, RunOps(ops[..i], s.identity, s.digest), ops[i].input)
  }

  lemma PermitsPrefix(ops: seq<Op>, n: nat, s: Setting)
    requires n <= |ops| && PermitsAll(ops, s)
    ensures PermitsAll(ops[..n], s)
  {
    forall i | 0 <= i < n && ops[i].Cycle?
      ensures Permits(s, RunOps(ops[..n][..i], s.identity, s.digest), ops[i].input)
    {
      assert ops[..n][..i] == ops[..i];
    }
  }

  lemma {:induction false} RunKeeps(ops: seq<Op>, s: Setting)
    requires Lawful(s) && PermitsAll(ops, s)
    ensures Inv(RunOps(ops, s.identity, s.digest), s)
  {
    if ops != [] {
      var n := |ops| - 1;
      PermitsPrefix(ops, n, s);
      RunKeeps(ops[..n], s);
      OpKeeps(RunOps(ops[..n], s.identity, s.digest), ops[n], s);
    }
  }

  // ------------------------------------------------------------ runs on admissible inputs

  /** Every cycle of a run received an admissible input. */
  ghost predicate Receives(ops: seq<Op>, allowed: CycleInput -> bool) {
    forall i :: 0 <= i < |ops| && ops[i].Cycle? ==> allowed(ops[i].input)
  }

  /** The same where what is admissible depends on the state a cycle decides on.
      Cycles that resume or refuse decide nothing, and may receive anything. */
  ghost predicate ReceivesFrom(ops: seq<Op>, identity: string, digest: Digest,
                               allowed: (Option<Loaded>, CycleInput) -> bool) {
    forall i, previous :: 0 <= i < |ops| && ops[i].Cycle?
                          && Consults(RunOps(ops[..i], identity, digest), previous, digest) ==>
                          allowed(previous, ops[i].input)
  }

  lemma ReceivesPermits(ops: seq<Op>, identity: string, digest: Digest, allowed: CycleInput -> bool)
    requires Receives(ops, allowed)
    ensures PermitsAll(ops, ControllerOf(identity, digest, allowed))
  {
    var s := ControllerOf(identity, digest, allowed);
    forall i | 0 <= i < |ops| && ops[i].Cycle?
      ensures Permits(s, RunOps(ops[..i], identity, digest), ops[i].input)
    {
      assert allowed(ops[i].input);
    }
  }

  /** The invariant holds after every run of operations. */
  lemma InvHolds(ops: seq<Op>, identity: string, digest: Digest, allowed: CycleInput -> bool)
    requires Receives(ops, allowed)
    ensures Inv(RunOps(ops, identity, digest), ControllerOf(identity, digest, allowed))
  {
    ControllerIsLawful(identity, digest, allowed);
    ReceivesPermits(ops, identity, digest, allowed);
    RunKeeps(ops, ControllerOf(identity, digest, allowed));
  }

  lemma InvHoldsFrom(ops: seq<Op>, identity: string, digest: Digest, allowed: (Option<Loaded>, CycleInput) -> bool)
    requires ReceivesFrom(ops, identity, digest, allowed)
    ensures Inv(RunOps(ops, identity, digest), ControllerFrom(identity, digest, allowed))
  {
    var s := ControllerFrom(identity, digest, allowed);
    FromIsLawful(identity, digest, allowed);
    forall i | 0 <= i < |ops| && ops[i].Cycle?
      ensures Permits(s, RunOps(ops[..i], identity, digest), ops[i].input)
    {
      forall previous | Consults(RunOps(ops[..i], identity, digest), previous, digest)
        ensures allowed(previous, ops[i].input)
      {
      }
    }
    RunKeeps(ops, s);
  }

  /** Every run reaches a world the controller's own setting accounts for. */
  lemma Reached(ops: seq<Op>, identity: string, digest: Digest) returns (s: Setting)
    ensures s.identity == identity && s.digest == digest && Lawful(s)
    ensures Inv(RunOps(ops, identity, digest), s)
  {
    s := ControllerOf(identity, digest, (input: CycleInput) => true);
    ControllerIsLawful(identity, digest, (input: CycleInput) => true);
    InvHolds(ops, identity, digest, (input: CycleInput) => true);
  }

  // ------------------------------------------------------------ journals only grow

  lemma {:induction false} ExecGrows(w: World, effects: seq<Effect>, fuel: nat, tear: Tear, digest: Digest)
    ensures RecordsOf(w.disk) <= RecordsOf(Exec(w, effects, fuel, tear, digest).world.disk)
    decreases |effects|
  {
    if effects != [] && fuel > 0 {
      ExecGrows(Do(w, effects[0], digest), effects[1..], fuel - 1, tear, digest);
    }
  }

  lemma OpGrows(w: World, op: Op, identity: string, digest: Digest)
    ensures RecordsOf(w.disk) <= RecordsOf(ApplyOp(w, op, identity, digest).disk)
  {
    if op.Cycle? {
      ExecGrows(w, CourseOf(w, op.input, identity, digest).effects, op.fuel, op.tear, digest);
    }
  }

  lemma OneOpGrows(ops: seq<Op>, n: nat, identity: string, digest: Digest)
    requires n < |ops|
    ensures RecordsOf(RunOps(ops[..n], identity, digest).disk) <= RecordsOf(RunOps(ops[..n + 1], identity, digest).disk)
  {
    assert ops[..n + 1][..n] == ops[..n] && ops[..n + 1][n] == ops[n];
    OpGrows(RunOps(ops[..n], identity, digest), ops[n], identity, digest);
  }

  lemma {:induction false} JournalGrows(ops: seq<Op>, n: nat, identity: string, digest: Digest)
    requires n <= |ops|
    ensures RecordsOf(RunOps(ops[..n], identity, digest).disk) <= RecordsOf(RunOps(ops, identity, digest).disk)
    decreases |ops| - n
  {
    if n < |ops| {
      JournalGrows(ops, n + 1, identity, digest);
      OneOpGrows(ops, n, identity, digest);
    } else {
      assert ops[..n] == ops;
    }
  }

  // ------------------------------------------------------------ at most once, exactly once, write-ahead

  /** `a` is the launch cycle `k` (counted from zero) journaled before performing it. */
  predicate JournaledLaunch(records: seq<Record>, k: nat, a: ControlAction, identity: string) {
    && 3 * k < |records|
    && a.StartWorkRun? && records[3 * k].payload.actions == [a]
    && a.dispatchId == Some(DispatchId(identity, k + 1, a.workItemKey))
  }

  /** Launches only, no two under one dispatch identity. */
  predicate DistinctDispatches(launches: seq<ControlAction>) {
    && (forall i :: 0 <= i < |launches| ==> launches[i].StartWorkRun?)
    && (forall i, j :: 0 <= i < j < |launches| ==> launches[i].dispatchId != launches[j].dispatchId)
  }

  /** The first `k` cycles' launches: each is a journaled one, once, and none is missing. */
  ghost predicate LaunchedOnce(launches: seq<ControlAction>, records: seq<Record>, k: nat, identity: string) {
    && DistinctDispatches(launches)
    && (forall a :: a in launches ==> exists j: nat :: j < k && JournaledLaunch(records, j, a, identity))
    && (forall j: nat, a :: j < k && JournaledLaunch(records, j, a, identity) ==> a in launches)
  }

  lemma TheLaunchOf(records: seq<Record>, k: nat, s: Setting)
    requires Shaped(records, s.identity) && Traced(records, s) && Lawful(s) && 3 * k < |records|
    ensures var actions := records[3 * k].payload.actions;
            if Launches(actions) == [] then forall a :: !JournaledLaunch(records, k, a, s.identity)
            else Launches(actions) == actions == [actions[0]] && JournaledLaunch(records, k, actions[0], s.identity)
  {
    var actions := records[3 * k].payload.actions;
    TracedIsSound(records, 3 * k, s);
    LaunchesMembers(actions);
    if Launches(actions) != [] {
      assert actions == [actions[0]];
    } else {
      forall a ensures !JournaledLaunch(records, k, a, s.identity) {
        assert actions == [a] ==> a in actions;
      }
    }
  }

  /** Adding one cycle's launch, which no earlier cycle can have made. */
  lemma OneMoreLaunch(launches: seq<ControlAction>, records: seq<Record>, k: nat, s: Setting)
    requires Shaped(records, s.identity) && Traced(records, s) && Lawful(s) && 3 * k < |records|
    requires LaunchedOnce(launches, records, k, s.identity)
    ensures LaunchedOnce(launches + Launches(records[3 * k].payload.actions), records, k + 1, s.identity)
  {
    var actions := records[3 * k].payload.actions;
    TheLaunchOf(records, k, s);
    if Launches(actions) != [] {
      var added := actions[0];
      var more := launches + [added];
      forall i | 0 <= i < |launches| ensures launches[i].dispatchId != added.dispatchId {
        assert launches[i] in launches;
        var j: nat :| j < k && JournaledLaunch(records, j, launches[i], s.identity);
        if launches[i].dispatchId == added.dispatchId {
          DispatchIdsDiffer(s.identity, j + 1, launches[i].workItemKey, k + 1, added.workItemKey);
        }
      }
      forall a | a in more ensures exists j: nat :: j < k + 1 && JournaledLaunch(records, j, a, s.identity) {
        if a == added {
          assert JournaledLaunch(records, k, a, s.identity);
        } else {
          assert a in launches;
          var j: nat :| j < k && JournaledLaunch(records, j, a, s.identity);
          assert j < k + 1;
        }
      }
    } else {
      assert launches + [] == launches;
    }
  }

  lemma {:induction false} CycleLaunchesOnce(records: seq<Record>, k: nat, s: Setting)
    requires Shaped(records, s.identity) && Traced(records, s) && Lawful(s) && 3 * k <= |records|
    ensures LaunchedOnce(CycleLaunches(records, k), records, k, s.identity)
  {
    if k > 0 {
      CycleLaunchesOnce(records, k - 1, s);
      OneMoreLaunch(CycleLaunches(records, k - 1), records, k - 1, s);
    }
  }

  /** How many cycles have begun, and how many have had their actions recorded as applied. */
  function Begun(records: seq<Record>): nat { (|records| + 2) / 3 }
  function AppliedCycles(records: seq<Record>): nat { (|records| + 1) / 3 }

  /** Over every run with crashes anywhere: no dispatch identity is ever
      launched twice, nothing is launched that was not journaled first, and
      every launch whose application was recorded did happen. */
  lemma LaunchedAtMostOnce(ops: seq<Op>, identity: string, digest: Digest)
    ensures var w := RunOps(ops, identity, digest);
            var launches, records := Launches(w.applied), RecordsOf(w.disk);
            && DistinctDispatches(launches)
            && (forall a :: a in launches ==>
                           exists k: nat :: k < Begun(records) && JournaledLaunch(records, k, a, identity))
            && (forall k: nat, a :: k < AppliedCycles(records) && JournaledLaunch(records, k, a, identity) ==>
                                   a in launches)
  {
    var w := RunOps(ops, identity, digest);
    var s := ControllerOf(identity, digest, (input: CycleInput) => true);
    ControllerIsLawful(identity, digest, (input: CycleInput) => true);
    InvHolds(ops, identity, digest, (input: CycleInput) => true);
    var records := RecordsOf(w.disk);
    var k := Whole(records);
    CycleLaunchesOnce(records, k, s);
    if w.disk.journal.File? && |records| % 3 != 0 {
      OneMoreLaunch(CycleLaunches(records, k), records, k, s);
    }
  }

  /** Every journaled launch of every run is recorded live in the same record's
      facts, and those facts are within the limit. */
  lemma JournaledLaunchFits(ops: seq<Op>, identity: string, digest: Digest, records: seq<Record>, i: nat)
    requires records == RecordsOf(RunOps(ops, identity, digest).disk) && i < |records|
    ensures SoundPayload(records[i].payload, i / 3 + 1, identity)
  {
    var s := Reached(ops, identity, digest);
    TracedIsSound(records, i, s);
  }

  /** Two records share a cycle identity exactly when one cycle wrote both. */
  lemma CycleIdsNeverRepeat(ops: seq<Op>, identity: string, digest: Digest, records: seq<Record>, i: nat, j: nat)
    requires records == RecordsOf(RunOps(ops, identity, digest).disk) && i < |records| && j < |records|
    ensures records[i].cycleId == records[j].cycleId <==> i / 3 == j / 3
  {
    var s := Reached(ops, identity, digest);
    ShapedIdsMatch(records, identity, i, j);
  }

  lemma ShapedIdsMatch(records: seq<Record>, identity: string, i: nat, j: nat)
    requires Shaped(records, identity) && i < |records| && j < |records|
    ensures records[i].cycleId == records[j].cycleId <==> i / 3 == j / 3
  {
    assert Fits(records, i, identity) && Fits(records, j, identity);
    if records[i].cycleId == records[j].cycleId {
      CycleIdsDiffer(identity, i / 3 + 1, identity, j / 3 + 1);
    }
  }

  /** Whatever crashes left behind loads back as the last record's payload and
      phase, or refuses for one of the listed reasons. */
  lemma EveryRunReloads(ops: seq<Op>, identity: string, digest: Digest)
    ensures var w := RunOps(ops, identity, digest);
            && (LoadRecoverable(w.disk, digest).Ok? <==> !Unreadable(w, digest))
            && (LoadRecoverable(w.disk, digest).Ok? ==>
                  var records := w.disk.journal.records;
                  var last := records[|records| - 1];
                  LoadRecoverable(w.disk, digest)
                  == Ok(Loaded(last.payload, last.cycleId, |records|, PhaseAt(|records| - 1))))
  {
    var w := RunOps(ops, identity, digest);
    var s := ControllerOf(identity, digest, (input: CycleInput) => true);
    InvHolds(ops, identity, digest, (input: CycleInput) => true);
    RecoveryIsExact(w, s);
    if LoadRecoverable(w.disk, digest).Ok? {
      LoadedStands(w, LoadRecoverable(w.disk, digest).value, s);
    }
  }

  /** The journal is a chain of the kernel's own decisions: each cycle decided
      on the state the cycle before it journaled, and on some collected facts. */
  lemma JournalIsReplay(ops: seq<Op>, identity: string, digest: Digest, allowed: CycleInput -> bool, k: nat)
    requires Receives(ops, allowed)
    requires 3 * k < |RecordsOf(RunOps(ops, identity, digest).disk)|
    ensures var records := RecordsOf(RunOps(ops, identity, digest).disk);
            exists input :: allowed(input)
                            && CyclePayload(input, PriorTo(records, k, identity), identity) ==
                               Ok(records[3 * k].payload)
  {
    var records := RecordsOf(RunOps(ops, identity, digest).disk);
    InvHolds(ops, identity, digest, allowed);
    assert Decided(records, k, ControllerOf(identity, digest, allowed));
  }

  // ------------------------------------------------------------ what a crash costs

  /** A launch journaled but not recorded as applied: it may or may not have happened. */
  predicate Indeterminate(w: World) {
    var records := RecordsOf(w.disk);
    |records| % 3 == 1 && HoldsLaunch(records[|records| - 1].payload.actions)
  }

  predicate Blocked(w: World, digest: Digest) {
    w.disk.journal.File? && (Unreadable(w, digest) || Indeterminate(w))
  }

  lemma StuckStays(w: World, ops: seq<Op>, s: Setting)
    requires Inv(w, s) && Blocked(w, s.digest)
    ensures forall i :: 0 <= i < |ops| ==> ApplyOp(w, ops[i], s.identity, s.digest) == w
  {
    forall i | 0 <= i < |ops| ensures ApplyOp(w, ops[i], s.identity, s.digest) == w {
      if ops[i].Cycle? {
        CourseCases(w, ops[i].input, s.identity, s.digest);
        RecoveryIsExact(w, s);
        var loaded := LoadRecoverable(w.disk, s.digest);
        if loaded.Ok? {
          LoadedStands(w, loaded.value, s);
        }
      }
    }
  }

  lemma {:induction false} EnoughFuel(w: World, effects: seq<Effect>, fuel: nat, tear: Tear, digest: Digest)
    requires fuel >= |effects|
    ensures Exec(w, effects, fuel, tear, digest).world == After(w, effects, digest)
    decreases |effects|
  {
    if effects != [] {
      EnoughFuel(Do(w, effects[0], digest), effects[1..], fuel - 1, tear, digest);
    }
  }

  lemma {:induction false} PerformsEach(actions: seq<ControlAction>)
    ensures |Performs(actions)| == |actions|
  {
    if actions != [] {
      PerformsEach(actions[1..]);
    }
  }

  lemma {:induction false} AfterConcat(w: World, a: seq<Effect>, b: seq<Effect>, digest: Digest)
    ensures After(w, a + b, digest) == After(After(w, a, digest), b, digest)
    decreases |a|
  {
    if a == [] {
      assert a + b == b;
    } else {
      assert (a + b)[0] == a[0] && (a + b)[1..] == a[1..] + b;
      AfterConcat(Do(w, a[0], digest), a[1..], b, digest);
    }
  }

  lemma AfterOne(w: World, e: Effect, rest: seq<Effect>, digest: Digest)
    ensures After(w, [e] + rest, digest) == After(Do(w, e, digest), rest, digest)
  {
    assert ([e] + rest)[1..] == rest;
  }

  lemma {:induction false} AfterPerforms(w: World, actions: seq<ControlAction>, digest: Digest)
    ensures After(w, Performs(actions), digest) == w.(applied := w.applied + actions)
    decreases |actions|
  {
    if actions == [] {
      assert w.applied + actions == w.applied;
    } else {
      var next := w.(applied := w.applied + [actions[0]]);
      AfterPerforms(next, actions[1..], digest);
      AfterOne(w, Perform(actions[0]), Performs(actions[1..]), digest);
      assert next.applied + actions[1..] == w.applied + actions;
    }
  }

  /** The records a cycle still owes. */
  function Owed(records: seq<Record>): seq<Record>
    requires records != []
  {
    var last := records[|records| - 1];
    var confirmed := Record(last.cycleId, Confirmed, last.payload);
    if last.phase == Planned then [Record(last.cycleId, Applied, last.payload), confirmed] else [confirmed]
  }

  /** The journal is exactly these records, the view answers for them, and these actions were applied. */
  predicate Completed(w: World, records: seq<Record>, applied: seq<ControlAction>, digest: Digest) {
    Holding(w, records) && w.disk.view == ViewOf(records, digest) && w.applied == applied
  }

  lemma AfterConfirm(w: World, records: seq<Record>, last: Record, s: Setting)
    requires Inv(w, s) && Holding(w, records) && |records| % 3 == 2 && last == records[|records| - 1]
    ensures Completed(After(w, Tail(last.cycleId, last.payload)[1..], s.digest),
                      records + [Record(last.cycleId, Confirmed, last.payload)], w.applied, s.digest)
  {
    var r := Record(last.cycleId, Confirmed, last.payload);
    ConfirmReady(w, records, last, s);
    assert Tail(last.cycleId, last.payload)[1..] == [Append(r), ReplaceView];
    var mid := Do(w, Append(r), s.digest);
    assert [Append(r), ReplaceView][1..] == [ReplaceView] && [ReplaceView][1..] == [];
    FirstKeeps(w, [Append(r), ReplaceView], s);
    assert AllReady(mid, [ReplaceView], s);
    ReplaceKeeps(mid, s);
  }

  lemma AppendApplied(w: World, records: seq<Record>, r: Record, s: Setting)
    requires Inv(w, s) && Holding(w, records) && |records| % 3 == 1
    requires Launches(w.applied) == CycleLaunches(records, Whole(records))
             + Launches(records[|records| - 1].payload.actions)
    requires r == Record(records[|records| - 1].cycleId, Applied, records[|records| - 1].payload)
    ensures Inv(Do(w, Append(r), s.digest), s)
  {
    AppliedReady(w, records, r, s);
    EffectKeeps(w, Append(r), s);
  }

  lemma OwedRecords(records: seq<Record>, identity: string)
    requires Shaped(records, identity) && |records| % 3 != 0
    ensures var last := records[|records| - 1];
            var confirmed := Record(last.cycleId, Confirmed, last.payload);
            if |records| % 3 == 1
            then last.phase == Planned
                 && records + [Record(last.cycleId, Applied, last.payload)] + [confirmed] == records + Owed(records)
            else last.phase == Applied && records + [confirmed] == records + Owed(records)
  {
    assert Fits(records, |records| - 1, identity);
  }

  lemma AfterTail(w: World, records: seq<Record>, r: Record, mid: World, s: Setting)
    requires Holding(w, records) && |records| % 3 == 1 && r.phase == Applied
    requires mid == Do(w, Append(r), s.digest) && Inv(mid, s)
    ensures Completed(After(w, Tail(r.cycleId, r.payload), s.digest),
                      records + [r] + [Record(r.cycleId, Confirmed, r.payload)], w.applied, s.digest)
  {
    AfterConfirm(mid, records + [r], r, s);
    assert Tail(r.cycleId, r.payload)[0] == Append(r);
  }

  lemma AfterQuietPlan(w: World, next: World, records: seq<Record>, r: Record, s: Setting)
    requires Inv(w, s) && Holding(w, records) && |records| % 3 == 1
    requires Launches(records[|records| - 1].payload.actions) == []
    requires r == Record(records[|records| - 1].cycleId, Applied, records[|records| - 1].payload)
    requires next == w.(applied := w.applied + r.payload.actions)
    ensures Completed(After(next, Tail(r.cycleId, r.payload), s.digest),
                      records + [r] + [Record(r.cycleId, Confirmed, r.payload)], next.applied, s.digest)
  {
    LaunchesConcat(w.applied, r.payload.actions);
    QuietLaunches(w, records, s);
    AppendApplied(next, records, r, s);
    AfterTail(next, records, r, Do(next, Append(r), s.digest), s);
  }

  /** The state an unfinished journal loads. */
  function LastState(records: seq<Record>): Loaded
    requires records != []
  {
    var last := records[|records| - 1];
    Loaded(last.payload, last.cycleId, |records|, last.phase)
  }

  lemma AfterPlanned(w: World, records: seq<Record>, s: Setting)
    requires Inv(w, s) && Holding(w, records) && |records| % 3 == 1 && !Indeterminate(w)
    ensures var last := records[|records| - 1];
            var effects := Performs(last.payload.actions) + Tail(last.cycleId, last.payload);
            && |effects| <= |last.payload.actions| + 3
            && Completed(After(w, effects, s.digest), records + Owed(records),
                         w.applied + last.payload.actions, s.digest)
  {
    var last := records[|records| - 1];
    var next := w.(applied := w.applied + last.payload.actions);
    LaunchesMembers(last.payload.actions);
    PerformsEach(last.payload.actions);
    AfterPerforms(w, last.payload.actions, s.digest);
    AfterConcat(w, Performs(last.payload.actions), Tail(last.cycleId, last.payload), s.digest);
    AfterQuietPlan(w, next, records, Record(last.cycleId, Applied, last.payload), s);
    OwedRecords(records, s.identity);
  }

  lemma AfterResume(w: World, records: seq<Record>, s: Setting)
    requires Inv(w, s) && Holding(w, records) && |records| % 3 != 0 && !Indeterminate(w)
    ensures var resumed := ResumeEffects(LastState(records));
            var last := records[|records| - 1];
            && resumed.Ok? && |resumed.value| <= |last.payload.actions| + 3
            && Completed(After(w, resumed.value, s.digest), records + Owed(records),
                         w.applied + (if last.phase == Planned then last.payload.actions else []), s.digest)
  {
    OwedRecords(records, s.identity);
    if |records| % 3 == 2 {
      AfterConfirm(w, records, records[|records| - 1], s);
      assert w.applied + [] == w.applied;
    } else {
      AfterPlanned(w, records, s);
    }
  }

  lemma QuietLaunches(w: World, records: seq<Record>, s: Setting)
    requires Inv(w, s) && Holding(w, records) && |records| % 3 == 1
    requires Launches(records[|records| - 1].payload.actions) == []
    ensures Launches(w.applied) == CycleLaunches(records, Whole(records))
    ensures forall more :: Launches(more) == Launches(w.applied) ==> Inv(w.(applied := more), s)
  {
    assert 3 * Whole(records) == |records| - 1;
  }

  /** A cycle over an unfinished journal resumes it. */
  lemma ResumedCourse(w: World, records: seq<Record>, input: CycleInput, s: Setting)
    requires Inv(w, s) && Holding(w, records) && |records| % 3 != 0
    ensures CourseOf(w, input, s.identity, s.digest).effects == EffectsOf(ResumeEffects(LastState(records)))
  {
    RecoveryIsExact(w, s);
    LoadedStands(w, LoadRecoverable(w.disk, s.digest).value, s);
    CourseCases(w, input, s.identity, s.digest);
  }

  /** An unfinished cycle that is not blocked is finished by the next run that
      survives long enough. */
  lemma InterruptedCycleCompletes(w: World, records: seq<Record>, input: CycleInput, fuel: nat, tear: Tear, s: Setting)
    requires Inv(w, s) && Holding(w, records) && |records| % 3 != 0 && !Indeterminate(w)
    requires fuel >= |records[|records| - 1].payload.actions| + 3
    ensures var last := records[|records| - 1];
            Completed(ApplyOp(w, Cycle(input, fuel, tear), s.identity, s.digest), records + Owed(records),
                      w.applied + (if last.phase == Planned then last.payload.actions else []), s.digest)
  {
    ResumedCourse(w, records, input, s);
    AfterResume(w, records, s);
    EnoughFuel(w, ResumeEffects(LastState(records)).value, fuel, tear, s.digest);
  }

  /** A start marker cut short, or a blocked journal. */
  predicate Halted(w: World, digest: Digest) {
    w.disk.marker == Broken || Blocked(w, digest)
  }

  lemma HaltedIsStill(w: World, op: Op, s: Setting)
    requires Inv(w, s) && Halted(w, s.digest)
    ensures ApplyOp(w, op, s.identity, s.digest) == w
  {
    if w.disk.marker == Broken {
      if op.Cycle? { CourseCases(w, op.input, s.identity, s.digest); }
    } else {
      StuckStays(w, [op], s);
      assert [op][0] == op;
    }
  }

  /** A broken marker or a blocked journal blocks every later operation, leaving the world as it is. */
  lemma BlockedForGood(ops: seq<Op>, identity: string, digest: Digest, next: Op)
    requires Halted(RunOps(ops, identity, digest), digest)
    ensures ApplyOp(RunOps(ops, identity, digest), next, identity, digest) == RunOps(ops, identity, digest)
  {
    var s := Reached(ops, identity, digest);
    HaltedIsStill(RunOps(ops, identity, digest), next, s);
  }

  /** After any run, an unfinished cycle that is not blocked is finished by the
      next run that survives long enough: the missing records and the view are
      written, and only actions of a plan still to be applied are performed. */
  lemma UnblockedCompletes(ops: seq<Op>, identity: string, digest: Digest, records: seq<Record>, input: CycleInput,
                           fuel: nat, tear: Tear)
    requires var w := RunOps(ops, identity, digest);
             !Blocked(w, digest) && Holding(w, records) && |records| % 3 != 0
    requires fuel >= |records[|records| - 1].payload.actions| + 3
    ensures var last := records[|records| - 1];
            Completed(RunOps(ops + [Cycle(input, fuel, tear)], identity, digest), records + Owed(records),
                      RunOps(ops, identity, digest).applied
                      + (if last.phase == Planned then last.payload.actions else []), digest)
  {
    var s := Reached(ops, identity, digest);
    RunsOnce(ops, Cycle(input, fuel, tear), identity, digest);
    InterruptedCycleCompletes(RunOps(ops, identity, digest), records, input, fuel, tear, s);
  }

  lemma RunsOnce(ops: seq<Op>, op: Op, identity: string, digest: Digest)
    ensures RunOps(ops + [op], identity, digest) == ApplyOp(RunOps(ops, identity, digest), op, identity, digest)
  {
    assert (ops + [op])[..|ops|] == ops;
  }
}
