/** What every journaled fact set survives: each cycle's facts reload from their
    document exactly as they were decided on, and storable observations are
    never refused. */
module JournalFacts {
  import opened Text
  import opened Facts
  import opened Policy
  import opened Launch
  import Merge
  import RunLists
  import opened Journal
  import opened Driver
  import opened DriverLaws
  import opened DriverRuns
  import opened DriverSafety
  import opened StorableFacts
  import F = FactsDocument

  lemma FilledKeeps(p: WorkRun, c: WorkRun)
    requires StorableRun(p) && StorableRun(c)
    ensures StorableRun(Merge.Filled(p, c))
  {
  }

  lemma MergeStorable(p: WorkRun, c: WorkRun)
    requires StorableRun(p) && StorableRun(c) && Merge.SameWorkRun(p, c)
    ensures StorableRun(Merge.MergeObservation(p, c))
  {
    FilledKeeps(p, c);
    assert StorableRun(Merge.MergeIdentity(p, c));
  }

  lemma {:induction false} MergeRunsStorable(previous: seq<WorkRun>, current: seq<WorkRun>)
    requires StorableRuns(previous) && StorableRuns(current)
    ensures StorableRuns(RunLists.MergeRuns(previous, current))
  {
    if previous != [] {
      var n := |previous| - 1;
      MergeRunsStorable(previous[..n], current);
      var rest, p := RunLists.MergeRuns(previous[..n], current), previous[n];
      var m := RunLists.FirstMatch(rest, p);
      if m.Some? {
        assert rest[m.value] in rest && p in previous;
        MergeStorable(p, rest[m.value]);
      }
    }
  }

  lemma KeptStorable(f: ControlFacts, action: ControlAction, runKey: string)
    requires action.StartWorkRun? && StorableRuns(f.workRuns)
    ensures StorableRuns(Kept(f.workRuns, f, action, runKey))
  {
    forall run ensures run in Kept(f.workRuns, f, action, runKey) ==> run in f.workRuns {
      KeptMembers(f.workRuns, f, action, runKey, run);
    }
  }

  lemma {:induction false} LastCompleteStorable(items: seq<WorkItem>, key: string)
    requires StorableItems(items)
    ensures LastComplete(items, key).Some? ==> StorableItem(LastComplete(items, key).value)
  {
    if items != [] {
      assert items[|items| - 1] in items;
      LastCompleteStorable(items[..|items| - 1], key);
    }
  }

  lemma RetainStorable(previous: ControlFacts, current: ControlFacts)
    requires StorableItems(previous.workItems) && StorableItems(current.workItems)
    ensures StorableItems(RetainCompleted(previous, current).workItems)
  {
    forall i | 0 <= i < |current.workItems| ensures StorableItem(RetainCompleted(previous, current).workItems[i]) {
      assert current.workItems[i] in current.workItems;
      LastCompleteStorable(previous.workItems, current.workItems[i].key);
    }
  }

  lemma AdvanceStorable(f: ControlFacts)
    requires StorableItems(f.workItems)
    ensures StorableItems(AdvanceCompleted(f).workItems)
  {
    forall i | 0 <= i < |f.workItems| ensures StorableItem(AdvanceCompleted(f).workItems[i]) {
      assert f.workItems[i] in f.workItems;
    }
  }

  lemma {:induction false} UnknownStorable(ts: seq<ReadyTransition>, known: set<string>)
    requires StorableTransitions(ts)
    ensures StorableTransitions(Unknown(ts, known))
  {
    if ts != [] {
      assert ts[|ts| - 1] in ts;
      UnknownStorable(ts[..|ts| - 1], known);
    }
  }

  predicate Named(keys: seq<string>) {
    forall i :: 0 <= i < |keys| ==> keys[i] != ""
  }

  lemma {:induction false} NewlyReadyNamed(items: seq<WorkItem>, previous: ControlFacts, current: ControlFacts)
    requires StorableItems(items)
    ensures Named(NewlyReadyAmong(items, previous, current))
  {
    if items != [] {
      assert items[|items| - 1] in items;
      NewlyReadyNamed(items[..|items| - 1], previous, current);
    }
  }

  lemma {:induction false} AdditionsStorable(keys: seq<string>, existing: set<string>, now: string)
    requires now != "" && Named(keys)
    ensures StorableTransitions(Additions(keys, existing, now))
  {
    if keys != [] {
      AdditionsStorable(keys[..|keys| - 1], existing, now);
    }
  }

  // ------------------------------------------------------------ one cycle

  predicate SoundLifecycle(l: LifecycleState) {
    l.state != "" && l.reason != "" && Filled(l.admittedInitiative)
  }

  /** Observations and a planning answer that leave no text empty, and a clock reading. */
  predicate Sound(input: CycleInput) {
    && Storable(input.collected) && input.now != ""
    && (input.planning.Some? ==> SoundPlanning(input.planning.value))
  }

  predicate SoundPlanning(p: Planning) {
    SoundLifecycle(p.lifecycle) && Filled(RevisionOf(p))
  }

  lemma AdmitSound(p: Planning)
    requires SoundPlanning(p)
    ensures SoundPlanning(Admit(p))
  {
  }

  predicate StorablePrior(previous: Option<Loaded>) {
    previous.Some? ==> Storable(previous.value.payload.facts)
  }

  lemma LocalFactsStorable(collected: ControlFacts, previous: Option<Loaded>)
    requires Storable(collected) && StorablePrior(previous)
    ensures Storable(MergeLocalFacts(collected, previous))
  {
    if previous.Some? {
      var prior := previous.value.payload.facts;
      MergeRunsStorable(prior.workRuns, collected.workRuns);
      UnknownStorable(prior.readyTransitions, set t | t in collected.readyTransitions :: t.key);
      var merged := MergeLocalFacts(collected, previous);
      RetainStorable(prior, collected.(workRuns := merged.workRuns, readyTransitions := merged.readyTransitions));
    }
  }

  lemma CycleFactsStorable(input: CycleInput, previous: Option<Loaded>)
    requires Sound(input) && StorablePrior(previous)
    ensures Storable(CycleFacts(input, previous))
  {
    var local := MergeLocalFacts(input.collected, previous);
    LocalFactsStorable(input.collected, previous);
    AdvanceStorable(local);
    var f := AdvanceCompleted(local);
    var before := if previous.Some? then Some(previous.value.payload.facts) else None;
    if before.Some? { NewlyReadyNamed(f.workItems, before.value, f); }
    AdditionsStorable(NewlyReadyKeys(before, f), set t | t in f.readyTransitions :: t.key, input.now);
  }

  lemma LaunchedStorable(f: ControlFacts, key: string)
    requires Storable(f) && Derive(f).actions != [] && key != ""
    ensures var action := Bind(Derive(f).actions[0], key); Storable(WithWorkRun(f, action, key, key))
  {
    var action := Bind(Derive(f).actions[0], key);
    NextIsEligible(f);
    var item := NextWorkItem(f).value;
    assert StorableItem(item);
    assert StorableRun(LaunchedRun(action, key, key));
    KeptStorable(f, action, key);
  }

  lemma DerivedLifecycle(f: ControlFacts)
    requires Storable(f)
    ensures SoundLifecycle(Derive(f).lifecycle)
  {
    if f.initiatives != [] { assert StorableInitiative(f.initiatives[0]); }
    assert CoordinationReason(f) != "" by {
      forall text: string ensures ("external_bar:" + text)[0] == 'e' {}
    }
  }

  lemma ShapeStorable(p: Payload, f: ControlFacts, ordinal: nat, identity: string)
    requires DecidedBy(p, f, ordinal, identity) && Storable(f)
    ensures Storable(p.facts)
  {
    if p.facts != f {
      LaunchedStorable(f, DispatchId(identity, ordinal, Derive(f).selected.value.key));
    }
  }

  lemma DecidedLifecycle(input: CycleInput, previous: Option<Loaded>, identity: string)
    ensures var decided := Decide(input, previous, identity);
            var planning := PlanningFor(CycleFacts(input, previous), input);
            decided.Ok? ==>
              && decided.value.lifecycle == (if planning.Some? then planning.value.lifecycle
                                             else Derive(CycleFacts(input, previous)).lifecycle)
              && decided.value.plan == (if planning.Some? then RevisionOf(planning.value) else None)
  {
  }

  /** Storable observations after a storable state are never refused: what the
      cycle decides is what it journals. */
  lemma DecisionStorable(input: CycleInput, previous: Option<Loaded>, identity: string)
    requires Sound(input) && StorablePrior(previous)
    ensures CyclePayload(input, previous, identity) == Decide(input, previous, identity)
  {
    var f := CycleFacts(input, previous);
    var decided := Decide(input, previous, identity);
    CycleFactsStorable(input, previous);
    DecisionShape(input, previous, identity);
    DecidedLifecycle(input, previous, identity);
    if input.planning.Some? { AdmitSound(input.planning.value); }
    if decided.Ok? {
      ShapeStorable(decided.value, f, NextCycleNumber(previous), identity);
      DerivedLifecycle(f);
    }
  }

  // ------------------------------------------------------------ every run

  lemma CycleStorable(records: seq<Record>, k: nat, s: Setting)
    requires 3 * k < |records| && Decided(records, k, s) && DecidesRecordable(s)
    ensures Recordable(records[3 * k].payload)
  {
  }

  ghost predicate DecidesRecordable(s: Setting) {
    forall previous, payload :: s.decides(previous, payload) ==> Recordable(payload)
  }

  lemma ControllerDecidesRecordable(identity: string, digest: Digest, allowed: CycleInput -> bool)
    ensures DecidesRecordable(ControllerOf(identity, digest, allowed))
  {
  }

  lemma RecordStorable(records: seq<Record>, i: nat, s: Setting)
    requires Shaped(records, s.identity) && Traced(records, s) && DecidesRecordable(s) && i < |records|
    ensures Recordable(records[i].payload)
  {
    assert Fits(records, i, s.identity) && i - i % 3 == 3 * (i / 3);
    assert Decided(records, i / 3, s);
    CycleStorable(records, i / 3, s);
  }

  lemma ReachedRecords(ops: seq<Op>, identity: string, digest: Digest, records: seq<Record>) returns (s: Setting)
    requires records == RecordsOf(RunOps(ops, identity, digest).disk)
    ensures s.identity == identity && Shaped(records, identity) && Traced(records, s) && DecidesRecordable(s)
  {
    var always := (input: CycleInput) => true;
    s := ControllerOf(identity, digest, always);
    InvHolds(ops, identity, digest, always);
    ControllerDecidesRecordable(identity, digest, always);
  }

  /** Over every run, each journaled fact set decodes from its document to
      itself: no live run, no capacity and no stamp is lost by a reload. */
  lemma JournaledFactsReload(ops: seq<Op>, identity: string, digest: Digest, records: seq<Record>, i: nat)
    requires records == RecordsOf(RunOps(ops, identity, digest).disk) && i < |records|
    ensures F.Decode(F.Object(F.Encode(records[i].payload.facts))) == F.Decoded(records[i].payload.facts)
  {
    var s := ReachedRecords(ops, identity, digest, records);
    RecordStorable(records, i, s);
    F.FactsRoundTrip(records[i].payload.facts);
  }
}
