/** What a cycle may journal, and that each of its effects is ready when its
    turn comes. */
module DriverRuns {
  import opened Text
  import opened Facts
  import opened Policy
  import opened Launch
  import Selection
  import opened Journal
  import opened Publication
  import opened Driver
  import opened DriverLaws

  // ------------------------------------------------------------ what a cycle journals

  lemma {:induction false} ItemsLaunchNothing(plan: ValidatedPlan, parent: string, items: seq<PlannedItem>)
    ensures Launches(ItemActions(plan, parent, items)) == []
  {
    if items != [] {
      var n := |items| - 1;
      ItemsLaunchNothing(plan, parent, items[..n]);
      var rest := ItemActions(plan, parent, items[..n]);
      LaunchesAppend(rest, CreateAction(plan, items[n]));
      LaunchesAppend(rest + [CreateAction(plan, items[n])], AttachAction(plan, parent, items[n]));
      assert ItemActions(plan, parent, items)
          == rest + [CreateAction(plan, items[n])] + [AttachAction(plan, parent, items[n])];
    }
  }

  lemma {:induction false} DependenciesLaunchNothing(plan: ValidatedPlan, edges: seq<(string, string)>)
    ensures Launches(DependencyActions(plan, edges)) == []
  {
    if edges != [] {
      var n := |edges| - 1;
      DependenciesLaunchNothing(plan, edges[..n]);
      LaunchesAppend(DependencyActions(plan, edges[..n]), DependencyAction(plan, edges[n]));
    }
  }

  lemma PlanningLaunchesNothing(p: Planning)
    ensures Launches(ActionsOf(p)) == []
  {
    if p.Publish? && PublicationActions(p.plan, p.parent).Ok? {
      var first := [PublishPlanRevision(p.parent, PlanRevisionMarker(p.plan), p.plan.body)];
      var items, edges := ItemActions(p.plan, p.parent, p.plan.items), DependencyActions(p.plan, p.plan.dependencies);
      ItemsLaunchNothing(p.plan, p.parent, p.plan.items);
      DependenciesLaunchNothing(p.plan, p.plan.dependencies);
      LaunchesConcat(first + items, edges);
      LaunchesConcat(first, items);
    }
  }

  /** The runs a cycle goes on from. */
  function PriorRuns(previous: Option<Loaded>): seq<WorkRun> {
    match previous
    case None => []
    case Some(state) => state.payload.facts.workRuns
  }

  /** `p` keeps the cycle's facts and launches nothing, or records the launch those facts derive. */
  predicate DecidedBy(p: Payload, f: ControlFacts, ordinal: nat, identity: string) {
    || (p.facts == f && Launches(p.actions) == [])
    || (Derive(f).actions != []
        && var key := DispatchId(identity, ordinal, Derive(f).selected.value.key);
           var action := Bind(Derive(f).actions[0], key);
           p.facts == WithWorkRun(f, action, key, key) && p.actions == [action])
  }

  lemma DecisionShape(input: CycleInput, previous: Option<Loaded>, identity: string)
    ensures var decided := Decide(input, previous, identity);
            decided.Ok? ==> DecidedBy(decided.value, CycleFacts(input, previous), NextCycleNumber(previous), identity)
  {
    var planning := PlanningFor(CycleFacts(input, previous), input);
    if planning.Some? { PlanningLaunchesNothing(planning.value); }
  }

  /** Whatever a cycle decides to journal launches nothing, or exactly one run
      that its own facts record as live and within the limit. */
  lemma DecisionIsSound(input: CycleInput, previous: Option<Loaded>, identity: string)
    ensures var decided := CyclePayload(input, previous, identity);
            decided.Ok? ==> SoundPayload(decided.value, NextCycleNumber(previous), identity)
  {
    var decided := Decide(input, previous, identity);
    DecisionShape(input, previous, identity);
    if decided.Ok? {
      ShapeIsSound(decided.value, CycleFacts(input, previous), NextCycleNumber(previous), identity);
    }
  }

  lemma ShapeIsSound(p: Payload, f: ControlFacts, ordinal: nat, identity: string)
    requires DecidedBy(p, f, ordinal, identity)
    ensures SoundPayload(p, ordinal, identity)
  {
    if Launches(p.actions) != [] {
      LaunchDecisionIsSound(f, p, ordinal, identity);
    }
  }

  lemma LaunchDecisionIsSound(f: ControlFacts, p: Payload, ordinal: nat, identity: string)
    requires Derive(f).actions != []
    requires var key := DispatchId(identity, ordinal, Derive(f).selected.value.key);
             var action := Bind(Derive(f).actions[0], key);
             p.facts == WithWorkRun(f, action, key, key) && p.actions == [action]
    ensures SoundPayload(p, ordinal, identity)
  {
    var key := DispatchId(identity, ordinal, Derive(f).selected.value.key);
    var action := Bind(Derive(f).actions[0], key);
    DerivedLaunchFitsLimit(f, key);
    LaunchedRunOwnsSlot(action, key, key, p.facts.workItems);
    assert LaunchedRun(action, key, key) in LiveWorkRuns(p.facts);
  }

  /** The facts collected again just before a launch. */
  function RefreshedFacts(input: CycleInput, previous: Option<Loaded>): ControlFacts {
    AdvanceCompleted(MergeLocalFacts(input.refreshed, previous))
  }

  /** One launch, of the item `f` selects, on the snapshot the action carries. */
  predicate ChosenBy(actions: seq<ControlAction>, f: ControlFacts) {
    && |actions| == 1 && actions[0].StartWorkRun? && actions[0].preconditions == SnapshotOf(f)
    && NextWorkItem(f).Some? && NextWorkItem(f).value.key == actions[0].workItemKey
    && IsEligible(NextWorkItem(f).value, f)
  }

  /** A journaled launch is the one the refreshed facts choose as well: same
      item, still eligible, on the snapshot the action carries. */
  lemma LaunchIsStillChosen(input: CycleInput, previous: Option<Loaded>, identity: string)
    ensures var decided := CyclePayload(input, previous, identity);
            decided.Ok? && Launches(decided.value.actions) != [] ==>
              ChosenBy(decided.value.actions, RefreshedFacts(input, previous))
  {
    var f := CycleFacts(input, previous);
    var refreshed := RefreshedFacts(input, previous);
    var decided := Decide(input, previous, identity);
    var planning := PlanningFor(f, input);
    if planning.Some? {
      PlanningLaunchesNothing(planning.value);
    } else if decided.Ok? && Launches(decided.value.actions) != [] {
      assert SnapshotOf(refreshed) == SnapshotOf(f);
      Selection.SnapshotDecides(f, refreshed);
      NextIsEligible(refreshed);
    }
  }

  /** The controller's own decisions, over the inputs it may receive. */
  ghost function ControllerOf(identity: string, digest: Digest, allowed: CycleInput -> bool): Setting {
    Setting(identity, digest, (previous, payload) =>
      exists input :: allowed(input) && CyclePayload(input, previous, identity) == Ok(payload))
  }

  /** Nothing but sound decisions. */
  ghost predicate Lawful(s: Setting) {
    forall previous, payload :: s.decides(previous, payload) ==>
                                SoundPayload(payload, NextCycleNumber(previous), s.identity)
  }

  lemma ControllerIsLawful(identity: string, digest: Digest, allowed: CycleInput -> bool)
    ensures Lawful(ControllerOf(identity, digest, allowed))
  {
    var s := ControllerOf(identity, digest, allowed);
    forall previous, payload | s.decides(previous, payload)
      ensures SoundPayload(payload, NextCycleNumber(previous), identity)
    {
      var input :| allowed(input) && CyclePayload(input, previous, identity) == Ok(payload);
      DecisionIsSound(input, previous, identity);
    }
  }

  /** The same, where what may be received depends on the state decided on. */
  ghost function ControllerFrom(identity: string, digest: Digest,
                                allowed: (Option<Loaded>, CycleInput) -> bool): Setting {
    Setting(identity, digest, (previous, payload) =>
      exists input :: allowed(previous, input) && CyclePayload(input, previous, identity) == Ok(payload))
  }

  lemma FromIsLawful(identity: string, digest: Digest, allowed: (Option<Loaded>, CycleInput) -> bool)
    ensures Lawful(ControllerFrom(identity, digest, allowed))
  {
    var s := ControllerFrom(identity, digest, allowed);
    forall previous, payload | s.decides(previous, payload)
      ensures SoundPayload(payload, NextCycleNumber(previous), identity)
    {
      var input :| allowed(previous, input) && CyclePayload(input, previous, identity) == Ok(payload);
      DecisionIsSound(input, previous, identity);
    }
  }

  /** Every record of a reachable journal carries a sound decision. */
  lemma TracedIsSound(records: seq<Record>, i: nat, s: Setting)
    requires Shaped(records, s.identity) && Traced(records, s) && Lawful(s) && i < |records|
    ensures SoundPayload(records[i].payload, i / 3 + 1, s.identity)
  {
    var k := i / 3;
    assert Fits(records, i, s.identity) && i - i % 3 == 3 * k;
    assert Decided(records, k, s);
    assert NextCycleNumber(PriorTo(records, k, s.identity)) == k + 1;
  }

  // ------------------------------------------------------------ every course is ready

  function After(w: World, effects: seq<Effect>, digest: Digest): World
    decreases |effects|
  {
    if effects == [] then w else After(Do(w, effects[0], digest), effects[1..], digest)
  }

  lemma {:induction false} AllReadyConcat(w: World, a: seq<Effect>, b: seq<Effect>, s: Setting)
    requires AllReady(w, a, s) && AllReady(After(w, a, s.digest), b, s)
    ensures AllReady(w, a + b, s)
    decreases |a|
  {
    if a == [] {
      assert a + b == b;
    } else {
      assert (a + b)[1..] == a[1..] + b && (a + b)[0] == a[0];
      AllReadyConcat(Do(w, a[0], s.digest), a[1..], b, s);
    }
  }

  lemma OneReady(w: World, e: Effect, rest: seq<Effect>, s: Setting)
    requires Ready(w, e, s) && AllReady(Do(w, e, s.digest), rest, s)
    ensures AllReady(w, [e] + rest, s)
  {
    assert ([e] + rest)[1..] == rest;
  }

  /** The journal holds `n` records, whole. */
  predicate Holding(w: World, records: seq<Record>) {
    w.disk.journal == File(records, false)
  }

  lemma ReplaceReady(w: World, records: seq<Record>, s: Setting)
    requires Holding(w, records) && records != [] && |records| % 3 == 0
    ensures AllReady(w, [ReplaceView], s)
  {
    OneReady(w, ReplaceView, [], s);
    assert [ReplaceView] + [] == [ReplaceView];
  }

  /** From the applied record on. */
  lemma ConfirmReady(w: World, records: seq<Record>, last: Record, s: Setting)
    requires Inv(w, s) && Holding(w, records) && |records| % 3 == 2 && last == records[|records| - 1]
    ensures AllReady(w, Tail(last.cycleId, last.payload)[1..], s)
  {
    var r := Record(last.cycleId, Confirmed, last.payload);
    ConfirmedFits(w, records, r, s);
    ReplaceReady(Do(w, Append(r), s.digest), records + [r], s);
    OneReady(w, Append(r), [ReplaceView], s);
    assert Tail(last.cycleId, last.payload)[1..] == [Append(r)] + [ReplaceView];
  }

  lemma ConfirmedFits(w: World, records: seq<Record>, r: Record, s: Setting)
    requires Inv(w, s) && Holding(w, records) && |records| % 3 == 2
    requires r == Record(records[|records| - 1].cycleId, Confirmed, records[|records| - 1].payload)
    ensures Ready(w, Append(r), s)
  {
    ShapedTriple(records, s.identity, Whole(records));
    assert Fits(records + [r], |records|, s.identity);
  }

  /** The applied record fits where the planned one is last. */
  lemma AppliedFits(records: seq<Record>, r: Record, identity: string)
    requires Shaped(records, identity) && |records| % 3 == 1
    requires r == Record(records[|records| - 1].cycleId, Applied, records[|records| - 1].payload)
    ensures Fits(records + [r], |records|, identity)
  {
    var k := Whole(records);
    ShapedTriple(records, identity, k);
    assert |records| == 3 * k + 1;
    assert (records + [r])[3 * k] == records[3 * k] && (records + [r])[3 * k + 1] == r;
  }

  /** A fitting record may follow a planned one whose actions have been carried out. */
  lemma FittingReady(w: World, records: seq<Record>, r: Record, s: Setting)
    requires w.disk.marker == Started && Holding(w, records) && |records| % 3 == 1
    requires Fits(records + [r], |records|, s.identity)
    requires Launches(w.applied) == CycleLaunches(records, Whole(records))
             + Launches(records[|records| - 1].payload.actions)
    ensures Ready(w, Append(r), s)
  {
    assert RecordsOf(w.disk) == records;
  }

  lemma AppliedReady(w: World, records: seq<Record>, r: Record, s: Setting)
    requires Inv(w, s) && Holding(w, records) && |records| % 3 == 1
    requires Launches(w.applied) == CycleLaunches(records, Whole(records))
             + Launches(records[|records| - 1].payload.actions)
    requires r == Record(records[|records| - 1].cycleId, Applied, records[|records| - 1].payload)
    ensures Ready(w, Append(r), s)
  {
    AppliedFits(records, r, s.identity);
    FittingReady(w, records, r, s);
  }

  /** From the planned record on, once its actions have been carried out. */
  lemma TailReady(w: World, records: seq<Record>, last: Record, s: Setting)
    requires Inv(w, s) && Holding(w, records) && |records| % 3 == 1 && last == records[|records| - 1]
    requires Launches(w.applied) == CycleLaunches(records, Whole(records)) + Launches(last.payload.actions)
    ensures AllReady(w, Tail(last.cycleId, last.payload), s)
  {
    var r := Record(last.cycleId, Applied, last.payload);
    var mid := Do(w, Append(r), s.digest);
    AppliedReady(w, records, r, s);
    EffectKeeps(w, Append(r), s);
    ConfirmReady(mid, records + [r], r, s);
    OneReady(w, Append(r), Tail(r.cycleId, r.payload)[1..], s);
    assert Tail(r.cycleId, r.payload) == [Append(r)] + Tail(r.cycleId, r.payload)[1..];
  }

  /** Carrying out a decision that launches nothing. */
  lemma {:induction false} QuietActionsReady(w: World, records: seq<Record>, actions: seq<ControlAction>, s: Setting)
    requires Holding(w, records) && |records| % 3 == 1 && Launches(actions) == []
    ensures AllReady(w, Performs(actions), s)
    ensures After(w, Performs(actions), s.digest) == w.(applied := w.applied + actions)
    decreases |actions|
  {
    if actions == [] {
      assert w.applied + actions == w.applied;
    } else {
      var a := actions[0];
      assert actions == [a] + actions[1..];
      LaunchesConcat([a], actions[1..]);
      var next := Do(w, Perform(a), s.digest);
      QuietActionsReady(next, records, actions[1..], s);
      OneReady(w, Perform(a), Performs(actions[1..]), s);
      assert ([Perform(a)] + Performs(actions[1..]))[1..] == Performs(actions[1..]);
      assert w.applied + [a] + actions[1..] == w.applied + actions;
    }
  }

  /** Carrying out a decision that is one launch, for the first time. */
  lemma LaunchReady(w: World, records: seq<Record>, a: ControlAction, s: Setting)
    requires Holding(w, records) && |records| % 3 == 1 && a.StartWorkRun?
    requires records[|records| - 1].payload.actions == [a]
    requires Launches(w.applied) == CycleLaunches(records, Whole(records))
    ensures AllReady(w, Performs([a]), s)
    ensures After(w, Performs([a]), s.digest) == w.(applied := w.applied + [a])
  {
    assert Launches([a]) == [a];
    assert Performs([a]) == [Perform(a)] + [];
    OneReady(w, Perform(a), [], s);
    assert Performs([a])[1..] == [];
  }

  /** Carrying out whatever was just planned. */
  lemma ActionsReady(w: World, records: seq<Record>, actions: seq<ControlAction>, s: Setting)
    requires Shaped(records, s.identity) && Traced(records, s) && Lawful(s)
    requires Holding(w, records) && |records| % 3 == 1 && actions == records[|records| - 1].payload.actions
    requires Launches(actions) == [] || Launches(w.applied) == CycleLaunches(records, Whole(records))
    ensures AllReady(w, Performs(actions), s)
    ensures After(w, Performs(actions), s.digest) == w.(applied := w.applied + actions)
  {
    TracedIsSound(records, |records| - 1, s);
    if Launches(actions) == [] {
      QuietActionsReady(w, records, actions, s);
    } else {
      assert actions == [actions[0]];
      LaunchReady(w, records, actions[0], s);
    }
  }

  /** The world once the planned actions have been carried out for the first time. */
  lemma ActionsKeep(w: World, after: World, records: seq<Record>, actions: seq<ControlAction>, s: Setting)
    requires Inv(w, s) && Holding(w, records) && |records| % 3 == 1 && actions == records[|records| - 1].payload.actions
    requires Launches(actions) == [] || Launches(w.applied) == CycleLaunches(records, Whole(records))
    requires after == w.(applied := w.applied + actions)
    ensures Inv(after, s)
    ensures Launches(after.applied) == CycleLaunches(records, Whole(records)) + Launches(actions)
  {
    assert 3 * Whole(records) == |records| - 1;
    LaunchesConcat(w.applied, actions);
  }

  /** From a planned record whose launch, if any, has not been carried out. */
  lemma PlannedReady(w: World, records: seq<Record>, last: Record, s: Setting)
    requires Inv(w, s) && Lawful(s) && Holding(w, records) && |records| % 3 == 1 && last == records[|records| - 1]
    requires Launches(last.payload.actions) == [] || Launches(w.applied) == CycleLaunches(records, Whole(records))
    ensures AllReady(w, Performs(last.payload.actions) + Tail(last.cycleId, last.payload), s)
  {
    var actions := last.payload.actions;
    var after := w.(applied := w.applied + actions);
    ActionsReady(w, records, actions, s);
    ActionsKeep(w, after, records, actions, s);
    TailReady(after, records, last, s);
    AllReadyConcat(w, Performs(actions), Tail(last.cycleId, last.payload), s);
  }

  /** A decision over the whole journal may be appended to it. */
  lemma PlanAppendReady(w: World, payload: Payload, s: Setting)
    requires Inv(w, s) && w.disk.marker == Started && (w.disk.journal.File? ==> !w.disk.journal.torn)
    requires |RecordsOf(w.disk)| % 3 == 0 && w.disk.view == ViewOf(RecordsOf(w.disk), s.digest)
    requires s.decides(PriorTo(RecordsOf(w.disk), Whole(RecordsOf(w.disk)), s.identity), payload)
    ensures Ready(w, Append(Record(CycleId(s.identity, Whole(RecordsOf(w.disk)) + 1), Planned, payload)), s)
  {
    var records := RecordsOf(w.disk);
    var k := Whole(records);
    var r := Record(CycleId(s.identity, k + 1), Planned, payload);
    assert PriorTo(records + [r], k, s.identity) == PriorTo(records, k, s.identity);
    assert Decided(records + [r], k, s);
    assert Fits(records + [r], |records|, s.identity);
  }

  lemma WholeLaunches(w: World, s: Setting)
    requires Inv(w, s) && |RecordsOf(w.disk)| % 3 == 0
    ensures Launches(w.applied) == CycleLaunches(RecordsOf(w.disk), Whole(RecordsOf(w.disk)))
  {
  }

  lemma FreshLaunches(w: World, r: Record, s: Setting)
    requires Inv(w, s) && |RecordsOf(w.disk)| % 3 == 0
    ensures var more := RecordsOf(w.disk) + [r]; Launches(w.applied) == CycleLaunches(more, Whole(more))
  {
    WholeLaunches(w, s);
    CycleLaunchesPrefix(RecordsOf(w.disk), [r], Whole(RecordsOf(w.disk)));
  }

  lemma FreshPlanReady(w: World, r: Record, s: Setting)
    requires Inv(w, s) && Lawful(s) && |RecordsOf(w.disk)| % 3 == 0 && Ready(w, Append(r), s)
    ensures AllReady(Do(w, Append(r), s.digest), Performs(r.payload.actions) + Tail(r.cycleId, r.payload), s)
  {
    FreshLaunches(w, r, s);
    EffectKeeps(w, Append(r), s);
    PlannedReady(Do(w, Append(r), s.digest), RecordsOf(w.disk) + [r], r, s);
  }

  /** A whole new cycle over a confirmed journal, or over none. */
  lemma NewCycleReady(w: World, payload: Payload, s: Setting)
    requires Inv(w, s) && Lawful(s) && w.disk.marker == Started && (w.disk.journal.File? ==> !w.disk.journal.torn)
    requires |RecordsOf(w.disk)| % 3 == 0 && w.disk.view == ViewOf(RecordsOf(w.disk), s.digest)
    requires s.decides(PriorTo(RecordsOf(w.disk), Whole(RecordsOf(w.disk)), s.identity), payload)
    ensures AllReady(w, NewCycle(CycleId(s.identity, Whole(RecordsOf(w.disk)) + 1), payload), s)
  {
    var r := Record(CycleId(s.identity, Whole(RecordsOf(w.disk)) + 1), Planned, payload);
    var rest := Performs(payload.actions) + Tail(r.cycleId, payload);
    PlanAppendReady(w, payload, s);
    FreshPlanReady(w, r, s);
    OneReady(w, Append(r), rest, s);
    assert NewCycle(r.cycleId, payload) == [Append(r)] + rest;
  }
}
