/** Publication across crashes and resumptions: whatever a run of cycles applied
    to the tracker, it shows one full pass of every applied plan, in journal
    order, and at most the beginning of the plan still in progress. */
module PublishedRuns {
  import opened Text
  import opened Facts
  import opened Journal
  import opened Publication
  import opened Driver
  import opened DriverLaws
  import opened DriverRuns
  import opened DriverSafety

  // ------------------------------------------------------------ what the tracker is left with

  /** The tracker after the applied actions; a launch is not the tracker's business. */
  function Track(t: Tracker, applied: seq<ControlAction>): Tracker {
    if applied == [] then t
    else
      var n := |applied| - 1;
      var before := Track(t, applied[..n]);
      var after := ApplyAction(before, applied[n]);
      if after.Ok? then after.value else before
  }

  lemma TrackOne(t: Tracker, applied: seq<ControlAction>, a: ControlAction)
    ensures Track(t, applied + [a]) == Track(Track(t, applied), [a])
  {
    assert (applied + [a])[..|applied|] == applied && [a][..0] == [];
  }

  lemma {:induction false} TrackConcat(t: Tracker, a: seq<ControlAction>, b: seq<ControlAction>)
    ensures Track(t, a + b) == Track(Track(t, a), b)
  {
    if b == [] {
      assert a + b == a;
    } else {
      var n := |b| - 1;
      assert (a + b)[..|a| + n] == a + b[..n];
      TrackConcat(t, a, b[..n]);
    }
  }

  /** A decision is steady: one launch, or actions the tracker never refuses. */
  ghost predicate Steady(actions: seq<ControlAction>) {
    || (|actions| == 1 && actions[0].StartWorkRun?)
    || forall t: Tracker :: Pass(t, actions).Ok?
  }

  lemma {:induction false} TrackIsPass(t: Tracker, actions: seq<ControlAction>)
    requires Pass(t, actions).Ok?
    ensures Track(t, actions) == Pass(t, actions).value
  {
    if actions != [] {
      TrackIsPass(t, actions[..|actions| - 1]);
    }
  }

  lemma LaunchTracksNothing(t: Tracker, a: ControlAction)
    requires a.StartWorkRun?
    ensures Track(t, [a]) == t
  {
    assert [a][..0] == [];
  }

  lemma LaunchAgain(t: Tracker, actions: seq<ControlAction>, m: nat)
    requires |actions| == 1 && actions[0].StartWorkRun? && m <= 1
    ensures Track(t, actions[..m]) == t && Track(Track(t, actions[..m]), [actions[0]]) == t
  {
    LaunchTracksNothing(t, actions[0]);
    if m == 0 {
      assert actions[..m] == [];
    } else {
      assert actions[..m] == [actions[0]];
    }
  }

  /** An action at or before the point reached changes nothing, and the next one goes one further. */
  lemma StepAgain(t: Tracker, actions: seq<ControlAction>, m: nat, j: nat)
    requires Steady(actions) && j < |actions| && j <= m <= |actions|
    ensures Track(Track(t, actions[..m]), [actions[j]]) == Track(t, actions[..if j < m then m else m + 1])
  {
    if |actions| == 1 && actions[0].StartWorkRun? {
      LaunchAgain(t, actions, m);
      LaunchAgain(t, actions, 1);
    } else if j < m {
      DoneAgain(t, actions, m, j);
    } else {
      assert actions[..m + 1] == actions[..m] + [actions[m]];
      TrackOne(t, actions[..m], actions[m]);
    }
  }

  lemma DoneAgain(t: Tracker, actions: seq<ControlAction>, m: nat, j: nat)
    requires Pass(t, actions).Ok? && j < m <= |actions|
    ensures Track(Track(t, actions[..m]), [actions[j]]) == Track(t, actions[..m])
  {
    PassPrefixOk(t, actions, m);
    TrackIsPass(t, actions[..m]);
    PassDoes(t, actions[..m]);
    var s := Pass(t, actions[..m]).value;
    assert actions[..m][j] in actions[..m];
    ActionGrows(s, actions[j]);
    assert [actions[j]][..0] == [];
  }

  // ------------------------------------------------------------ the tracker and the journal

  /** One full pass of each of the first `k` plans, in journal order. */
  function Published(t: Tracker, records: seq<Record>, k: nat): Tracker
    requires 3 * k <= |records|
  {
    if k == 0 then t else Track(Published(t, records, k - 1), records[3 * k - 3].payload.actions)
  }

  lemma {:induction false} PublishedPrefix(t: Tracker, records: seq<Record>, r: Record, k: nat)
    requires 3 * k <= |records|
    ensures Published(t, records + [r], k) == Published(t, records, k)
  {
    if k > 0 { PublishedPrefix(t, records, r, k - 1); }
  }

  /** The actions of the cycle in progress. */
  function Current(records: seq<Record>): seq<ControlAction>
    requires |records| % 3 != 0
  {
    records[3 * Whole(records)].payload.actions
  }

  /** The tracker reached the first `m` actions of the plan in progress. */
  predicate ReachedPart(t: Tracker, records: seq<Record>, applied: seq<ControlAction>, m: nat)
    requires |records| % 3 != 0
  {
    m <= |Current(records)| && Track(t, applied) == Track(Published(t, records, Whole(records)), Current(records)[..m])
  }

  /** The tracker shows every applied plan whole, and at most a beginning of one still planned. */
  predicate TrackerMatches(t: Tracker, records: seq<Record>, applied: seq<ControlAction>) {
    match |records| % 3
    case 0 => Track(t, applied) == Published(t, records, Whole(records))
    case 1 => exists m: nat :: m <= |Current(records)| && ReachedPart(t, records, applied, m)
    case _ => ReachedPart(t, records, applied, |Current(records)|)
  }

  predicate Matches(w: World, t: Tracker) {
    TrackerMatches(t, RecordsOf(w.disk), w.applied)
  }

  /** When an effect keeps the tracker in step. */
  ghost predicate InStep(w: World, e: Effect, t: Tracker) {
    var records := RecordsOf(w.disk);
    match e
    case Append(r) =>
      && (|records| % 3 == 1 ==> ReachedPart(t, records, w.applied, |Current(records)|))
      && (|records| % 3 != 0 ==> r.payload == records[3 * Whole(records)].payload)
    case Perform(a) =>
      && |records| % 3 == 1
      && exists m: nat, j: nat :: j <= m && Repeats(t, records, w.applied, a, m, j)
    case _ => true
  }

  predicate Repeats(t: Tracker, records: seq<Record>, applied: seq<ControlAction>, a: ControlAction, m: nat, j: nat)
    requires |records| % 3 != 0
  {
    j < |Current(records)| && Current(records)[j] == a && ReachedPart(t, records, applied, m)
  }

  lemma AppendInStep(t: Tracker, records: seq<Record>, applied: seq<ControlAction>, r: Record)
    requires TrackerMatches(t, records, applied)
    requires |records| % 3 == 1 ==> ReachedPart(t, records, applied, |Current(records)|)
    requires |records| % 3 != 0 ==> r.payload == records[3 * Whole(records)].payload
    ensures TrackerMatches(t, records + [r], applied)
  {
    var k := Whole(records);
    var more := records + [r];
    PublishedPrefix(t, records, r, k);
    if |records| % 3 == 0 {
      assert Whole(more) == k && Current(more) == r.payload.actions;
      assert Current(more)[..0] == [];
      assert ReachedPart(t, more, applied, 0);
    } else if |records| % 3 == 1 {
      assert Whole(more) == k && Current(more) == Current(records);
    } else {
      assert Whole(more) == k + 1;
      assert Current(records)[..|Current(records)|] == Current(records);
    }
  }

  lemma PerformInStep(t: Tracker, records: seq<Record>, applied: seq<ControlAction>, a: ControlAction, m: nat, j: nat)
    requires |records| % 3 == 1 && Steady(Current(records)) && j <= m && Repeats(t, records, applied, a, m, j)
    ensures ReachedPart(t, records, applied + [a], if j < m then m else m + 1)
  {
    TrackOne(t, applied, a);
    StepAgain(Published(t, records, Whole(records)), Current(records), m, j);
  }

  lemma EffectInStep(w: World, e: Effect, t: Tracker, digest: Digest)
    requires Matches(w, t) && InStep(w, e, t) && (|RecordsOf(w.disk)| % 3 == 1 ==> Steady(Current(RecordsOf(w.disk))))
    ensures Matches(Do(w, e, digest), t)
  {
    var records := RecordsOf(w.disk);
    match e
    case Append(r) => AppendInStep(t, records, w.applied, r);
    case Perform(a) =>
      var m: nat, j: nat :| j <= m && Repeats(t, records, w.applied, a, m, j);
      PerformInStep(t, records, w.applied, a, m, j);
    case _ =>
  }

  lemma InterruptMatches(w: World, e: Effect, tear: Tear, t: Tracker)
    requires Matches(w, t)
    ensures Matches(Interrupt(w, e, tear), t)
  {
  }

  // ------------------------------------------------------------ every course keeps the tracker in step

  ghost predicate AllInStep(w: World, effects: seq<Effect>, t: Tracker, digest: Digest)
    decreases |effects|
  {
    effects == [] || (InStep(w, effects[0], t) && AllInStep(Do(w, effects[0], digest), effects[1..], t, digest))
  }

  lemma OneInStep(w: World, e: Effect, rest: seq<Effect>, t: Tracker, digest: Digest)
    requires InStep(w, e, t) && AllInStep(Do(w, e, digest), rest, t, digest)
    ensures AllInStep(w, [e] + rest, t, digest)
  {
    assert ([e] + rest)[1..] == rest;
  }

  lemma ConfirmInStep(w: World, records: seq<Record>, last: Record, t: Tracker, digest: Digest)
    requires Holding(w, records) && |records| % 3 == 2 && last.payload == records[3 * Whole(records)].payload
    ensures AllInStep(w, Tail(last.cycleId, last.payload)[1..], t, digest)
  {
    var r := Record(last.cycleId, Confirmed, last.payload);
    var next := Do(w, Append(r), digest);
    OneInStep(next, ReplaceView, [], t, digest);
    OneInStep(w, Append(r), [ReplaceView] + [], t, digest);
    assert Tail(last.cycleId, last.payload)[1..] == [Append(r)] + ([ReplaceView] + []);
  }

  lemma TailInStep(w: World, records: seq<Record>, last: Record, t: Tracker, digest: Digest)
    requires Holding(w, records) && |records| % 3 == 1 && last == records[|records| - 1]
    requires ReachedPart(t, records, w.applied, |Current(records)|)
    ensures AllInStep(w, Tail(last.cycleId, last.payload), t, digest)
  {
    assert last == records[3 * Whole(records)];
    var r := Record(last.cycleId, Applied, last.payload);
    var more := records + [r];
    assert more[3 * Whole(more)] == last;
    ConfirmInStep(Do(w, Append(r), digest), more, last, t, digest);
    OneInStep(w, Append(r), Tail(last.cycleId, last.payload)[1..], t, digest);
    assert Tail(last.cycleId, last.payload) == [Append(r)] + Tail(last.cycleId, last.payload)[1..];
  }

  lemma ActionInStep(w: World, records: seq<Record>, last: Record, i: nat, m: nat, t: Tracker, digest: Digest)
    requires Holding(w, records) && |records| % 3 == 1 && last == records[|records| - 1] && Steady(last.payload.actions)
    requires i <= m <= |last.payload.actions| && i < |last.payload.actions|
    requires ReachedPart(t, records, w.applied, m)
    ensures var e, after := Perform(last.payload.actions[i]), if i < m then m else m + 1;
            && InStep(w, e, t) && Holding(Do(w, e, digest), records) && after <= |last.payload.actions|
            && ReachedPart(t, records, Do(w, e, digest).applied, after)
  {
    assert Current(records) == last.payload.actions;
    assert Repeats(t, records, w.applied, last.payload.actions[i], m, i);
    PerformInStep(t, records, w.applied, last.payload.actions[i], m, i);
  }

  lemma PerformsFrom(actions: seq<ControlAction>, i: nat, tail: seq<Effect>)
    requires i < |actions|
    ensures Performs(actions[i..]) + tail == [Perform(actions[i])] + (Performs(actions[i + 1..]) + tail)
  {
    assert actions[i..][1..] == actions[i + 1..];
  }

  /** From the `i`-th action of the plan on, however far an earlier attempt had got. */
  lemma {:induction false} ActionsInStep(w: World, records: seq<Record>, last: Record, i: nat, m: nat, t: Tracker,
                                         digest: Digest)
    requires Holding(w, records) && |records| % 3 == 1 && last == records[|records| - 1] && Steady(last.payload.actions)
    requires i <= m <= |last.payload.actions| && ReachedPart(t, records, w.applied, m)
    ensures AllInStep(w, Performs(last.payload.actions[i..]) + Tail(last.cycleId, last.payload), t, digest)
    decreases |last.payload.actions| - i
  {
    var actions := last.payload.actions;
    var tail := Tail(last.cycleId, last.payload);
    if i == |actions| {
      assert Current(records) == actions;
      TailInStep(w, records, last, t, digest);
      assert Performs(actions[i..]) + tail == tail;
    } else {
      ActionInStep(w, records, last, i, m, t, digest);
      ActionsInStep(Do(w, Perform(actions[i]), digest), records, last, i + 1, if i < m then m else m + 1, t, digest);
      PerformsFrom(actions, i, tail);
      OneInStep(w, Perform(actions[i]), Performs(actions[i + 1..]) + tail, t, digest);
    }
  }

  /** Resuming a planned cycle starts its actions again from the first. */
  lemma PlannedInStep(w: World, records: seq<Record>, last: Record, t: Tracker, digest: Digest)
    requires Holding(w, records) && |records| % 3 == 1 && last == records[|records| - 1]
    requires Steady(last.payload.actions) && Matches(w, t)
    ensures AllInStep(w, Performs(last.payload.actions) + Tail(last.cycleId, last.payload), t, digest)
  {
    assert Current(records) == last.payload.actions;
    var m: nat :| m <= |Current(records)| && ReachedPart(t, records, w.applied, m);
    ActionsInStep(w, records, last, 0, m, t, digest);
    assert last.payload.actions[0..] == last.payload.actions;
  }

  /** A new cycle over whole ones. */
  lemma NewInStep(w: World, r: Record, t: Tracker, digest: Digest)
    requires Matches(w, t) && |RecordsOf(w.disk)| % 3 == 0 && Steady(r.payload.actions)
    ensures AllInStep(w, NewCycle(r.cycleId, r.payload), t, digest) || r.phase != Planned
  {
    if r.phase == Planned {
      var records := RecordsOf(w.disk);
      var next := Do(w, Append(r), digest);
      EffectInStep(w, Append(r), t, digest);
      PlannedInStep(next, records + [r], r, t, digest);
      var rest := Performs(r.payload.actions) + Tail(r.cycleId, r.payload);
      OneInStep(w, Append(r), rest, t, digest);
      assert NewCycle(r.cycleId, r.payload) == [Append(r)] + rest;
    }
  }

  // ------------------------------------------------------------ every run

  /** Nothing but steady decisions. */
  ghost predicate DecidesSteadily(s: Setting) {
    forall previous, payload :: s.decides(previous, payload) ==> Steady(payload.actions)
  }

  /** A plan handed in for publication names only planned items in its dependencies, as validation requires. */
  ghost predicate PlanKnown(input: CycleInput) {
    input.planning.Some? && input.planning.value.Publish? ==> DependenciesKnown(input.planning.value.plan)
  }

  ghost function KnownPlans(): CycleInput -> bool {
    (input: CycleInput) => PlanKnown(input)
  }

  lemma PlanningSteady(p: Planning)
    requires p.Publish? ==> DependenciesKnown(p.plan)
    ensures Steady(ActionsOf(Admit(p)))
  {
    if p.Publish? && PublicationActions(p.plan, p.parent).Ok? {
      forall t: Tracker ensures Pass(t, ActionsOf(Admit(p))).Ok? {
        PlanAlwaysPublishes(t, p.plan, p.parent);
      }
    }
  }

  lemma DecisionSteady(input: CycleInput, previous: Option<Loaded>, identity: string)
    requires PlanKnown(input)
    ensures var decided := CyclePayload(input, previous, identity);
            decided.Ok? ==> Steady(decided.value.actions)
  {
    if PlanningFor(CycleFacts(input, previous), input).Some? {
      PlanningSteady(input.planning.value);
    }
  }

  lemma ControllerSteady(identity: string, digest: Digest)
    ensures DecidesSteadily(ControllerOf(identity, digest, KnownPlans()))
  {
    var s := ControllerOf(identity, digest, KnownPlans());
    forall previous, payload | s.decides(previous, payload) ensures Steady(payload.actions) {
      var input :| PlanKnown(input) && CyclePayload(input, previous, identity) == Ok(payload);
      DecisionSteady(input, previous, identity);
    }
  }

  lemma CurrentSteady(records: seq<Record>, s: Setting)
    requires Traced(records, s) && DecidesSteadily(s) && |records| % 3 != 0
    ensures Steady(Current(records))
  {
    assert Decided(records, Whole(records), s);
  }

  lemma ResumeInStep(w: World, state: Loaded, s: Setting, t: Tracker)
    requires Inv(w, s) && DecidesSteadily(s) && Matches(w, t)
    requires LoadRecoverable(w.disk, s.digest) == Ok(state) && state.phase != Confirmed
    ensures AllInStep(w, EffectsOf(ResumeEffects(state)), t, s.digest)
  {
    LoadedStands(w, state, s);
    var records := w.disk.journal.records;
    var last := records[|records| - 1];
    CurrentSteady(records, s);
    ShapedTriple(records, s.identity, Whole(records));
    if state.phase == Planned {
      assert last == records[3 * Whole(records)];
      PlannedInStep(w, records, last, t, s.digest);
    } else {
      ConfirmInStep(w, records, last, t, s.digest);
    }
  }

  lemma NewCycleInStep(w: World, cycleId: string, payload: Payload, s: Setting, t: Tracker)
    requires Matches(w, t) && |RecordsOf(w.disk)| % 3 == 0 && Steady(payload.actions)
    ensures AllInStep(w, NewCycle(cycleId, payload), t, s.digest)
  {
    NewInStep(w, Record(cycleId, Planned, payload), t, s.digest);
  }

  lemma ContinueInStep(w: World, input: CycleInput, previous: Option<Loaded>, s: Setting, t: Tracker)
    requires Matches(w, t) && |RecordsOf(w.disk)| % 3 == 0 && DecidesSteadily(s)
    requires previous.Some? ==> previous.value.phase == Confirmed
    requires CyclePayload(input, previous, s.identity).Ok? ==>
               s.decides(previous, CyclePayload(input, previous, s.identity).value)
    ensures AllInStep(w, EffectsOf(Continue(input, previous, s.identity)), t, s.digest)
  {
    ContinuesWith(input, previous, s.identity);
    var decided := CyclePayload(input, previous, s.identity);
    if decided.Ok? {
      NewCycleInStep(w, CycleId(s.identity, NextCycleNumber(previous)), decided.value, s, t);
    }
  }

  lemma LoadedInStep(w: World, state: Loaded, input: CycleInput, s: Setting, t: Tracker)
    requires Inv(w, s) && DecidesSteadily(s) && Permits(s, w, input) && Matches(w, t)
    requires LoadRecoverable(w.disk, s.digest) == Ok(state)
    ensures AllInStep(w, EffectsOf(Continue(input, Some(state), s.identity)), t, s.digest)
  {
    if state.phase == Confirmed {
      LoadedStands(w, state, s);
      assert Consults(w, Some(state), s.digest);
      ContinueInStep(w, input, Some(state), s, t);
    } else {
      ResumeInStep(w, state, s, t);
    }
  }

  lemma StartInStep(w: World, input: CycleInput, s: Setting, t: Tracker)
    requires Inv(w, s) && DecidesSteadily(s) && Permits(s, w, input) && Matches(w, t) && w.disk.journal.Absent?
    ensures AllInStep(w, [Start] + EffectsOf(Continue(input, None, s.identity)), t, s.digest)
  {
    assert Consults(w, None, s.digest);
    ContinueInStep(Do(w, Start, s.digest), input, None, s, t);
    OneInStep(w, Start, EffectsOf(Continue(input, None, s.identity)), t, s.digest);
  }

  lemma CourseInStep(w: World, input: CycleInput, s: Setting, t: Tracker)
    requires Inv(w, s) && DecidesSteadily(s) && Permits(s, w, input) && Matches(w, t)
    ensures AllInStep(w, CourseOf(w, input, s.identity, s.digest).effects, t, s.digest)
  {
    CourseCases(w, input, s.identity, s.digest);
    match w.disk.marker
    case Broken =>
    case Unmarked => StartInStep(w, input, s, t);
    case Started =>
      var loaded := LoadRecoverable(w.disk, s.digest);
      if loaded.Ok? {
        LoadedInStep(w, loaded.value, input, s, t);
      }
  }

  /** Ready in every respect, and in step with the tracker. */
  ghost predicate Sails(w: World, effects: seq<Effect>, s: Setting, t: Tracker) {
    Inv(w, s) && AllReady(w, effects, s) && Matches(w, t) && AllInStep(w, effects, t, s.digest)
  }

  lemma SailsOn(w: World, effects: seq<Effect>, s: Setting, t: Tracker)
    requires Sails(w, effects, s, t) && DecidesSteadily(s) && effects != []
    ensures Sails(Do(w, effects[0], s.digest), effects[1..], s, t)
  {
    FirstKeeps(w, effects, s);
    if |RecordsOf(w.disk)| % 3 == 1 { CurrentSteady(RecordsOf(w.disk), s); }
    EffectInStep(w, effects[0], t, s.digest);
  }

  lemma ExecMatches(w: World, effects: seq<Effect>, fuel: nat, tear: Tear, s: Setting, t: Tracker)
    requires Sails(w, effects, s, t) && DecidesSteadily(s)
    ensures Matches(Exec(w, effects, fuel, tear, s.digest).world, t)
  {
    var ready := (w': World, es: seq<Effect>) => Sails(w', es, s, t);
    var safe := (w': World) => Matches(w', t);
    forall w', es | ready(w', es) && es != [] ensures ready(Do(w', es[0], s.digest), es[1..]) {
      SailsOn(w', es, s, t);
    }
    forall w', es, cut | ready(w', es) && es != [] ensures safe(Interrupt(w', es[0], cut)) {
      InterruptMatches(w', es[0], cut, t);
    }
    ExecInduction(w, effects, fuel, tear, s.digest, ready, safe);
  }

  lemma OpMatches(w: World, op: Op, s: Setting, t: Tracker)
    requires Inv(w, s) && Lawful(s) && DecidesSteadily(s) && Matches(w, t) && (op.Cycle? ==> Permits(s, w, op.input))
    ensures Matches(ApplyOp(w, op, s.identity, s.digest), t)
  {
    if op.Cycle? {
      CourseReady(w, op.input, s);
      CourseInStep(w, op.input, s, t);
      ExecMatches(w, CourseOf(w, op.input, s.identity, s.digest).effects, op.fuel, op.tear, s, t);
    }
  }

  lemma {:induction false} RunMatches(ops: seq<Op>, s: Setting, t: Tracker)
    requires Lawful(s) && DecidesSteadily(s) && PermitsAll(ops, s)
    ensures Matches(RunOps(ops, s.identity, s.digest), t)
  {
    if ops != [] {
      var n := |ops| - 1;
      PermitsPrefix(ops, n, s);
      RunMatches(ops[..n], s, t);
      RunKeeps(ops[..n], s);
      OpMatches(RunOps(ops[..n], s.identity, s.digest), ops[n], s, t);
    }
  }

  /** Over every run of validated plans and launches, with crashes anywhere: the
      tracker shows one full pass of each applied plan, in journal order, and at
      most the first actions of the plan still in progress. */
  lemma TrackerShowsJournal(ops: seq<Op>, identity: string, digest: Digest, t: Tracker)
    requires Receives(ops, KnownPlans())
    ensures Matches(RunOps(ops, identity, digest), t)
  {
    var s := ControllerOf(identity, digest, KnownPlans());
    ControllerIsLawful(identity, digest, KnownPlans());
    ControllerSteady(identity, digest);
    ReceivesPermits(ops, identity, digest, KnownPlans());
    RunMatches(ops, s, t);
  }
}
