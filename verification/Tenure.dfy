/** Holding on to a launch over whole runs, whatever is meant by holding it: what
    every decision keeps, every journaled state has, from the cycle that made
    the launch on. */
module Tenure {
  import opened Text
  import opened Facts
  import opened Policy
  import opened Launch
  import opened RunLists
  import opened Journal
  import opened Driver
  import opened DriverLaws
  import opened DriverRuns
  import opened DriverSafety

  // ------------------------------------------------------------ what other cycles launch

  /** Neither the launch's Work Item nor its issue is launched. */
  predicate LaunchesOther(actions: seq<ControlAction>, a: ControlAction)
    requires a.StartWorkRun?
  {
    forall b :: b in actions && b.StartWorkRun? ==>
                !SameIssue(a.issue, b.issue) && (a.workItemKey != "" ==> b.workItemKey != a.workItemKey)
  }

  /** The exclusive resources of the items that live runs of the dispatch match. */
  function HeldFor(f: ControlFacts, a: ControlAction): set<string>
    requires a.StartWorkRun?
  {
    set run, r | run in LiveWorkRuns(f) && run.dispatchId == a.dispatchId
                 && r in ResourcesOf(ItemForRun(run, f.workItems)) :: r
  }

  /** Every item launched leaves the resources held for the launch alone. */
  predicate LeavesResources(p: Payload, a: ControlAction)
    requires a.StartWorkRun?
  {
    forall b :: b in p.actions && b.StartWorkRun? ==>
      exists item :: item in p.facts.workItems && item.key == b.workItemKey && item.issue == b.issue
                     && forall r :: r in item.exclusiveResources ==> r !in HeldFor(p.facts, a)
  }

  /** The cycle launches nothing of the launch's: not its Work Item, not its
      issue, and no item that needs a resource of its item. */
  predicate Spares(p: Payload, a: ControlAction)
    requires a.StartWorkRun?
  {
    LaunchesOther(p.actions, a) && LeavesResources(p, a)
  }

  // ------------------------------------------------------------ recording a launch

  function Recorded(f: ControlFacts, key: string): ControlFacts
    requires Derive(f).actions != []
  {
    WithWorkRun(f, Bind(Derive(f).actions[0], key), key, key)
  }

  lemma HeldWasHeld(f: ControlFacts, a: ControlAction, key: string)
    requires a.StartWorkRun? && Derive(f).actions != [] && Some(key) != a.dispatchId
    ensures HeldFor(Recorded(f, key), a) <= HeldResources(f)
  {
    var g := Recorded(f, key);
    forall r | r in HeldFor(g, a) ensures r in HeldResources(f) {
      var run :| run in LiveWorkRuns(g) && run.dispatchId == a.dispatchId
        && r in ResourcesOf(ItemForRun(run, g.workItems));
      KeptMembers(f.workRuns, f, Bind(Derive(f).actions[0], key), key, run);
    }
  }

  /** Another cycle's launch needs nothing that is held. */
  lemma OtherLeavesResources(f: ControlFacts, a: ControlAction, key: string, p: Payload)
    requires a.StartWorkRun? && Derive(f).actions != [] && Some(key) != a.dispatchId
    requires p.facts == Recorded(f, key) && p.actions == [Bind(Derive(f).actions[0], key)]
    ensures LeavesResources(p, a)
  {
    NextIsEligible(f);
    HeldWasHeld(f, a, key);
    var item := NextWorkItem(f).value;
    assert forall r :: r in item.exclusiveResources ==> r !in HeldFor(p.facts, a);
  }

  // ------------------------------------------------------------ what holding means

  /** Lists of runs that say nothing yet of the launch, and lists that hold it:
      recording another launch keeps either, and recording the launch itself
      leads from one to the other. */
  ghost predicate Survives(a: ControlAction, clear: seq<WorkRun> -> bool, held: seq<WorkRun> -> bool)
    requires a.StartWorkRun? && a.dispatchId.Some?
  {
    clear([]) && StaysClear(a, clear) && BecomesHeld(a, clear, held) && StaysHeld(a, held)
  }

  ghost predicate StaysClear(a: ControlAction, clear: seq<WorkRun> -> bool)
    requires a.StartWorkRun?
  {
    forall f, key :: Derive(f).actions != [] && clear(f.workRuns) && Some(key) != a.dispatchId ==>
                     clear(Recorded(f, key).workRuns)
  }

  ghost predicate BecomesHeld(a: ControlAction, clear: seq<WorkRun> -> bool, held: seq<WorkRun> -> bool)
    requires a.StartWorkRun? && a.dispatchId.Some?
  {
    forall f :: Derive(f).actions != [] && clear(f.workRuns) && a == Bind(Derive(f).actions[0], a.dispatchId.value) ==>
                held(Recorded(f, a.dispatchId.value).workRuns)
  }

  ghost predicate StaysHeld(a: ControlAction, held: seq<WorkRun> -> bool)
    requires a.StartWorkRun?
  {
    forall f, key :: Derive(f).actions != [] && held(f.workRuns) && RunKey(key) && Some(key) != a.dispatchId ==>
                     held(Recorded(f, key).workRuns) && LaunchesOther([Bind(Derive(f).actions[0], key)], a)
  }

  /** What a cycle is given, merged with what it goes on from, stays clear until
      the launch by cycle `ordinal`, and holds it afterwards. */
  ghost predicate Gathers(a: ControlAction, ordinal: nat, allowed: (Option<Loaded>, CycleInput) -> bool,
                          clear: seq<WorkRun> -> bool, held: seq<WorkRun> -> bool)
  {
    forall previous, input :: allowed(previous, input) && Stands(previous, ordinal, clear, held) ==>
      if NextCycleNumber(previous) <= ordinal then clear(MergeRuns(PriorRuns(previous), input.collected.workRuns))
      else held(MergeRuns(PriorRuns(previous), input.collected.workRuns))
  }

  /** The state a cycle decides on is clear up to the launch, and holds it afterwards. */
  predicate Stands(previous: Option<Loaded>, ordinal: nat, clear: seq<WorkRun> -> bool, held: seq<WorkRun> -> bool) {
    if NextCycleNumber(previous) <= ordinal then clear(PriorRuns(previous)) else held(PriorRuns(previous))
  }

  /** What a decision records about the launch when its facts were clear of it. */
  predicate Enters(p: Payload, a: ControlAction, clear: seq<WorkRun> -> bool, held: seq<WorkRun> -> bool)
    requires a.StartWorkRun?
  {
    && (p.actions == [a] ==> held(p.facts.workRuns))
    && ((forall b :: b in p.actions && b.StartWorkRun? ==> b.dispatchId != a.dispatchId) ==> clear(p.facts.workRuns))
  }

  lemma ClearShape(p: Payload, f: ControlFacts, a: ControlAction, ordinal: nat, identity: string,
                   clear: seq<WorkRun> -> bool, held: seq<WorkRun> -> bool)
    requires a.StartWorkRun? && a.dispatchId.Some? && Survives(a, clear, held)
    requires DecidedBy(p, f, ordinal, identity) && clear(f.workRuns)
    ensures Enters(p, a, clear, held)
  {
    if p.facts == f && Launches(p.actions) == [] {
      LaunchesMembers(p.actions);
      assert p.actions == [a] ==> a in p.actions;
    } else {
      var key := DispatchId(identity, ordinal, Derive(f).selected.value.key);
      assert p.actions[0] in p.actions;
      if Some(key) != a.dispatchId {
        OtherRecorded(f, key, a, clear);
      } else if p.actions == [a] {
        LaunchRecorded(f, a, clear, held);
      }
    }
  }

  lemma OtherRecorded(f: ControlFacts, key: string, a: ControlAction, clear: seq<WorkRun> -> bool)
    requires a.StartWorkRun? && StaysClear(a, clear)
    requires Derive(f).actions != [] && clear(f.workRuns) && Some(key) != a.dispatchId
    ensures clear(Recorded(f, key).workRuns)
  {
  }

  lemma LaunchRecorded(f: ControlFacts, a: ControlAction, clear: seq<WorkRun> -> bool, held: seq<WorkRun> -> bool)
    requires a.StartWorkRun? && a.dispatchId.Some? && BecomesHeld(a, clear, held)
    requires Derive(f).actions != [] && clear(f.workRuns) && a == Bind(Derive(f).actions[0], a.dispatchId.value)
    ensures held(Recorded(f, a.dispatchId.value).workRuns)
  {
  }

  lemma HeldRecorded(f: ControlFacts, key: string, a: ControlAction, held: seq<WorkRun> -> bool)
    requires a.StartWorkRun? && StaysHeld(a, held)
    requires Derive(f).actions != [] && held(f.workRuns) && RunKey(key) && Some(key) != a.dispatchId
    ensures held(Recorded(f, key).workRuns) && LaunchesOther([Bind(Derive(f).actions[0], key)], a)
  {
  }

  lemma HeldShape(p: Payload, f: ControlFacts, a: ControlAction, ordinal: nat, identity: string,
                  clear: seq<WorkRun> -> bool, held: seq<WorkRun> -> bool)
    requires a.StartWorkRun? && a.dispatchId.Some? && Survives(a, clear, held)
    requires DecidedBy(p, f, ordinal, identity) && held(f.workRuns)
    requires forall key :: Some(DispatchId(identity, ordinal, key)) != a.dispatchId
    ensures held(p.facts.workRuns) && Spares(p, a)
  {
    if p.facts == f && Launches(p.actions) == [] {
      LaunchesMembers(p.actions);
    } else {
      var key := DispatchId(identity, ordinal, Derive(f).selected.value.key);
      assert RunKey(key);
      HeldRecorded(f, key, a, held);
      OtherLeavesResources(f, a, key, p);
    }
  }

  lemma DecidedOn(input: CycleInput, previous: Option<Loaded>, identity: string)
    ensures var decided := CyclePayload(input, previous, identity);
            decided.Ok? ==> DecidedBy(decided.value, CycleFacts(input, previous), NextCycleNumber(previous), identity)
    ensures CycleFacts(input, previous).workRuns == MergeRuns(PriorRuns(previous), input.collected.workRuns)
  {
    DecisionShape(input, previous, identity);
    if previous.None? { assert MergeRuns([], input.collected.workRuns) == input.collected.workRuns; }
  }

  // ------------------------------------------------------------ every decision

  ghost predicate KeepsClear(s: Setting, a: ControlAction, ordinal: nat, clear: seq<WorkRun> -> bool,
                             held: seq<WorkRun> -> bool)
    requires a.StartWorkRun?
  {
    clear([]) && forall previous, payload ::
      (s.decides(previous, payload) && NextCycleNumber(previous) <= ordinal && clear(PriorRuns(previous))) ==>
        Enters(payload, a, clear, held)
  }

  ghost predicate KeepsHeld(s: Setting, a: ControlAction, ordinal: nat, held: seq<WorkRun> -> bool)
    requires a.StartWorkRun?
  {
    forall previous, payload ::
      (s.decides(previous, payload) && NextCycleNumber(previous) > ordinal && held(PriorRuns(previous))) ==>
        held(payload.facts.workRuns) && Spares(payload, a)
  }

  lemma ControllerKeepsClear(identity: string, digest: Digest, a: ControlAction, ordinal: nat,
                             allowed: (Option<Loaded>, CycleInput) -> bool,
                             clear: seq<WorkRun> -> bool, held: seq<WorkRun> -> bool)
    requires a.StartWorkRun? && a.dispatchId.Some? && Survives(a, clear, held)
    requires Gathers(a, ordinal, allowed, clear, held)
    ensures KeepsClear(ControllerFrom(identity, digest, allowed), a, ordinal, clear, held)
  {
    var s := ControllerFrom(identity, digest, allowed);
    forall previous, payload | s.decides(previous, payload) && NextCycleNumber(previous) <= ordinal
                               && clear(PriorRuns(previous))
      ensures Enters(payload, a, clear, held)
    {
      var input :| allowed(previous, input) && CyclePayload(input, previous, identity) == Ok(payload);
      assert Stands(previous, ordinal, clear, held);
      DecidedOn(input, previous, identity);
      ClearShape(payload, CycleFacts(input, previous), a, NextCycleNumber(previous), identity, clear, held);
    }
  }

  lemma ControllerKeepsHeld(identity: string, digest: Digest, a: ControlAction, ordinal: nat,
                            allowed: (Option<Loaded>, CycleInput) -> bool,
                            clear: seq<WorkRun> -> bool, held: seq<WorkRun> -> bool)
    requires a.StartWorkRun? && a.dispatchId == Some(DispatchId(identity, ordinal, a.workItemKey))
    requires Survives(a, clear, held) && Gathers(a, ordinal, allowed, clear, held)
    ensures KeepsHeld(ControllerFrom(identity, digest, allowed), a, ordinal, held)
  {
    var s := ControllerFrom(identity, digest, allowed);
    forall previous, payload | s.decides(previous, payload) && NextCycleNumber(previous) > ordinal
                               && held(PriorRuns(previous))
      ensures held(payload.facts.workRuns) && Spares(payload, a)
    {
      var input :| allowed(previous, input) && CyclePayload(input, previous, identity) == Ok(payload);
      assert Stands(previous, ordinal, clear, held);
      DecidedOn(input, previous, identity);
      OtherDispatches(identity, ordinal, NextCycleNumber(previous), a.workItemKey);
      HeldShape(payload, CycleFacts(input, previous), a, NextCycleNumber(previous), identity, clear, held);
    }
  }

  lemma OtherDispatches(identity: string, m: nat, n: nat, item: string)
    requires m != n
    ensures forall key :: DispatchId(identity, n, key) != DispatchId(identity, m, item)
  {
    forall key ensures DispatchId(identity, n, key) != DispatchId(identity, m, item) {
      if DispatchId(identity, n, key) == DispatchId(identity, m, item) {
        DispatchIdsDiffer(identity, n, key, m, item);
      }
    }
  }

  // ------------------------------------------------------------ every journaled state

  /** A journaled launch is the only one under its dispatch identity. */
  lemma LaunchedByOneCycle(records: seq<Record>, i: nat, a: ControlAction, s: Setting, j: nat, b: ControlAction)
    requires Shaped(records, s.identity) && Traced(records, s) && Lawful(s)
             && JournaledLaunch(records, i, a, s.identity)
    requires 3 * j < |records| && b in records[3 * j].payload.actions && b.StartWorkRun? && b.dispatchId == a.dispatchId
    ensures j == i && b == a
  {
    TheLaunchOf(records, j, s);
    LaunchesMembers(records[3 * j].payload.actions);
    DispatchIdsDiffer(s.identity, j + 1, b.workItemKey, i + 1, a.workItemKey);
  }

  /** Until the launch, no journaled state says anything of it. */
  lemma {:induction false} ClearUpTo(records: seq<Record>, k: nat, a: ControlAction, ordinal: nat, s: Setting,
                                     clear: seq<WorkRun> -> bool, held: seq<WorkRun> -> bool)
    requires a.StartWorkRun? && Traced(records, s) && KeepsClear(s, a, ordinal, clear, held)
    requires 3 * k < |records| && k < ordinal
    requires forall j: nat, b :: j < k && b in records[3 * j].payload.actions && b.StartWorkRun? ==>
                                 b.dispatchId != a.dispatchId
    ensures Enters(records[3 * k].payload, a, clear, held)
  {
    assert Decided(records, k, s);
    assert NextCycleNumber(PriorTo(records, k, s.identity)) == k + 1;
    if k > 0 {
      ClearUpTo(records, k - 1, a, ordinal, s, clear, held);
    }
  }

  /** From then on every journaled state holds it, and no cycle launches anything of its. */
  lemma {:induction false} HeldAfter(records: seq<Record>, i: nat, k: nat, a: ControlAction, s: Setting,
                                     held: seq<WorkRun> -> bool)
    requires a.StartWorkRun? && Traced(records, s) && KeepsHeld(s, a, i + 1, held) && i <= k && 3 * k < |records|
    requires held(records[3 * i].payload.facts.workRuns)
    ensures held(records[3 * k].payload.facts.workRuns)
    ensures i < k ==> Spares(records[3 * k].payload, a)
  {
    if i < k {
      HeldAfter(records, i, k - 1, a, s, held);
      assert Decided(records, k, s);
      assert NextCycleNumber(PriorTo(records, k, s.identity)) == k + 1;
    }
  }

  /** A part of a journal in which cycle `i` makes the launch, and no other cycle launches under its dispatch. */
  ghost predicate PartOf(part: seq<Record>, whole: seq<Record>, i: nat, a: ControlAction, s: Setting) {
    && part <= whole && Shaped(whole, s.identity) && Traced(whole, s) && Lawful(s)
    && JournaledLaunch(whole, i, a, s.identity)
  }

  ghost predicate Keeps(s: Setting, a: ControlAction, ordinal: nat, clear: seq<WorkRun> -> bool,
                        held: seq<WorkRun> -> bool)
    requires a.StartWorkRun?
  {
    KeepsClear(s, a, ordinal, clear, held) && KeepsHeld(s, a, ordinal, held)
  }

  lemma PartLaunches(part: seq<Record>, whole: seq<Record>, i: nat, a: ControlAction, s: Setting, j: nat,
                     b: ControlAction)
    requires PartOf(part, whole, i, a, s) && 3 * j < |part|
    requires b in part[3 * j].payload.actions && b.StartWorkRun? && b.dispatchId == a.dispatchId
    ensures j == i
  {
    assert part[3 * j] == whole[3 * j];
    LaunchedByOneCycle(whole, i, a, s, j, b);
  }

  lemma PartStands(part: seq<Record>, whole: seq<Record>, i: nat, a: ControlAction, s: Setting, t: Setting, k: nat,
                   clear: seq<WorkRun> -> bool, held: seq<WorkRun> -> bool)
    requires PartOf(part, whole, i, a, s) && Traced(part, t) && Keeps(t, a, i + 1, clear, held) && 3 * k < |part|
    ensures k < i ==> clear(part[3 * k].payload.facts.workRuns)
    ensures k >= i ==> held(part[3 * k].payload.facts.workRuns)
    ensures k > i ==> Spares(part[3 * k].payload, a)
  {
    forall j: nat, b | 3 * j < |part| && j != i && b in part[3 * j].payload.actions && b.StartWorkRun?
      ensures b.dispatchId != a.dispatchId
    {
      if b.dispatchId == a.dispatchId { PartLaunches(part, whole, i, a, s, j, b); }
    }
    if k < i {
      ClearUpTo(part, k, a, i + 1, t, clear, held);
    } else {
      assert part[3 * i] == whole[3 * i];
      ClearUpTo(part, i, a, i + 1, t, clear, held);
      HeldAfter(part, i, k, a, t, held);
    }
  }

  // ------------------------------------------------------------ every run

  lemma ConsultedStands(w: World, previous: Option<Loaded>, whole: seq<Record>, i: nat, a: ControlAction, s: Setting,
                        t: Setting, clear: seq<WorkRun> -> bool, held: seq<WorkRun> -> bool)
    requires PartOf(RecordsOf(w.disk), whole, i, a, s) && Keeps(t, a, i + 1, clear, held)
    requires Inv(w, t) && Consults(w, previous, t.digest)
    ensures Stands(previous, i + 1, clear, held)
  {
    if previous.Some? {
      var records := RecordsOf(w.disk);
      ConfirmedIsPrior(w, previous.value, t);
      LoadedStands(w, previous.value, t);
      var k := Whole(records);
      assert PriorTo(records, k, t.identity) == previous;
      PartStands(records, whole, i, a, s, t, k - 1, clear, held);
    }
  }

  /** Cycle `n`, if it decides anything where the launch stands as it should, is given admissible input. */
  ghost predicate GivenAt(ops: seq<Op>, n: nat, identity: string, digest: Digest, ordinal: nat,
                          allowed: (Option<Loaded>, CycleInput) -> bool,
                          clear: seq<WorkRun> -> bool, held: seq<WorkRun> -> bool)
    requires n < |ops|
  {
    ops[n].Cycle? ==>
      forall previous ::
        Consults(RunOps(ops[..n], identity, digest), previous, digest) && Stands(previous, ordinal, clear, held) ==>
          allowed(previous, ops[n].input)
  }

  ghost predicate AllGiven(ops: seq<Op>, identity: string, digest: Digest, ordinal: nat,
                           allowed: (Option<Loaded>, CycleInput) -> bool,
                           clear: seq<WorkRun> -> bool, held: seq<WorkRun> -> bool)
  {
    forall j :: 0 <= j < |ops| ==> GivenAt(ops, j, identity, digest, ordinal, allowed, clear, held)
  }

  /** Cycle `n`, if it decides anything, is given admissible input. */
  ghost predicate GivenTo(ops: seq<Op>, n: nat, identity: string, digest: Digest,
                          allowed: (Option<Loaded>, CycleInput) -> bool)
    requires n < |ops|
  {
    ops[n].Cycle? ==>
      forall previous :: Consults(RunOps(ops[..n], identity, digest), previous, digest) ==>
                         allowed(previous, ops[n].input)
  }

  ghost predicate GivenUpTo(ops: seq<Op>, n: nat, identity: string, digest: Digest,
                            allowed: (Option<Loaded>, CycleInput) -> bool)
    requires n <= |ops|
  {
    forall j :: 0 <= j < n ==> GivenTo(ops, j, identity, digest, allowed)
  }

  lemma PrefixReceives(ops: seq<Op>, n: nat, identity: string, digest: Digest,
                       allowed: (Option<Loaded>, CycleInput) -> bool)
    requires n <= |ops| && GivenUpTo(ops, n, identity, digest, allowed)
    ensures ReceivesFrom(ops[..n], identity, digest, allowed)
  {
    var part := ops[..n];
    forall j, previous | 0 <= j < |part| && part[j].Cycle?
      && Consults(RunOps(part[..j], identity, digest), previous, digest)
      ensures allowed(previous, part[j].input)
    {
      assert part[..j] == ops[..j] && GivenTo(ops, j, identity, digest, allowed);
    }
  }

  /** Setting `t` accounts for every part of the run that is given admissible input. */
  ghost predicate Accounts(ops: seq<Op>, t: Setting, allowed: (Option<Loaded>, CycleInput) -> bool) {
    forall n :: 0 <= n <= |ops| && ReceivesFrom(ops[..n], t.identity, t.digest, allowed) ==>
                Inv(RunOps(ops[..n], t.identity, t.digest), t)
  }

  lemma ControllerAccounts(ops: seq<Op>, identity: string, digest: Digest,
                           allowed: (Option<Loaded>, CycleInput) -> bool)
    ensures Accounts(ops, ControllerFrom(identity, digest, allowed), allowed)
  {
    forall n | 0 <= n <= |ops| && ReceivesFrom(ops[..n], identity, digest, allowed)
      ensures Inv(RunOps(ops[..n], identity, digest), ControllerFrom(identity, digest, allowed))
    {
      InvHoldsFrom(ops[..n], identity, digest, allowed);
    }
  }

  /** Wherever cycle `m` goes on from, the launch stands as it should. */
  ghost predicate StandsAt(ops: seq<Op>, m: nat, identity: string, digest: Digest, ordinal: nat,
                           clear: seq<WorkRun> -> bool, held: seq<WorkRun> -> bool)
    requires m <= |ops|
  {
    forall previous :: Consults(RunOps(ops[..m], identity, digest), previous, digest) ==>
                       Stands(previous, ordinal, clear, held)
  }

  lemma WorldStands(ops: seq<Op>, m: nat, whole: seq<Record>, i: nat, a: ControlAction, s: Setting, t: Setting,
                    clear: seq<WorkRun> -> bool, held: seq<WorkRun> -> bool)
    requires m <= |ops| && PartOf(RecordsOf(RunOps(ops[..m], t.identity, t.digest).disk), whole, i, a, s)
    requires Keeps(t, a, i + 1, clear, held) && Inv(RunOps(ops[..m], t.identity, t.digest), t)
    ensures StandsAt(ops, m, t.identity, t.digest, i + 1, clear, held)
  {
    var w := RunOps(ops[..m], t.identity, t.digest);
    forall previous | Consults(w, previous, t.digest) ensures Stands(previous, i + 1, clear, held) {
      ConsultedStands(w, previous, whole, i, a, s, t, clear, held);
    }
  }

  lemma PartGrows(ops: seq<Op>, m: nat, identity: string, digest: Digest, whole: seq<Record>, i: nat, a: ControlAction,
                  s: Setting)
    requires m <= |ops| && whole == RecordsOf(RunOps(ops, identity, digest).disk) && PartOf(whole, whole, i, a, s)
    ensures PartOf(RecordsOf(RunOps(ops[..m], identity, digest).disk), whole, i, a, s)
  {
    JournalGrows(ops, m, identity, digest);
  }

  /** Wherever the setting accounts for a part of the run, the launch stands after it. */
  ghost predicate StandsThroughout(ops: seq<Op>, t: Setting, ordinal: nat, clear: seq<WorkRun> -> bool,
                                   held: seq<WorkRun> -> bool)
  {
    forall m: nat :: m <= |ops| && Inv(RunOps(ops[..m], t.identity, t.digest), t) ==>
                     StandsAt(ops, m, t.identity, t.digest, ordinal, clear, held)
  }

  lemma PartsStand(ops: seq<Op>, whole: seq<Record>, i: nat, a: ControlAction, s: Setting, t: Setting,
                   clear: seq<WorkRun> -> bool, held: seq<WorkRun> -> bool)
    requires whole == RecordsOf(RunOps(ops, t.identity, t.digest).disk)
    requires PartOf(whole, whole, i, a, s) && Keeps(t, a, i + 1, clear, held)
    ensures StandsThroughout(ops, t, i + 1, clear, held)
  {
    forall m: nat | m <= |ops| && Inv(RunOps(ops[..m], t.identity, t.digest), t)
      ensures StandsAt(ops, m, t.identity, t.digest, i + 1, clear, held)
    {
      PartGrows(ops, m, t.identity, t.digest, whole, i, a, s);
      WorldStands(ops, m, whole, i, a, s, t, clear, held);
    }
  }

  lemma AccountedFor(ops: seq<Op>, m: nat, t: Setting, allowed: (Option<Loaded>, CycleInput) -> bool)
    requires m <= |ops| && Accounts(ops, t, allowed) && GivenUpTo(ops, m, t.identity, t.digest, allowed)
    ensures Inv(RunOps(ops[..m], t.identity, t.digest), t)
  {
    PrefixReceives(ops, m, t.identity, t.digest, allowed);
  }

  lemma StandingIsGiven(ops: seq<Op>, m: nat, identity: string, digest: Digest, ordinal: nat,
                        allowed: (Option<Loaded>, CycleInput) -> bool, clear: seq<WorkRun> -> bool,
                        held: seq<WorkRun> -> bool)
    requires m < |ops| && AllGiven(ops, identity, digest, ordinal, allowed, clear, held)
    requires StandsAt(ops, m, identity, digest, ordinal, clear, held)
    ensures GivenTo(ops, m, identity, digest, allowed)
  {
    assert GivenAt(ops, m, identity, digest, ordinal, allowed, clear, held);
  }

  ghost predicate UpTo(given: nat -> bool, n: nat) {
    forall j: nat :: j < n ==> given(j)
  }

  /** If what is given before each step makes it sound, and a sound step is given
      what it needs, every step is. */
  lemma {:induction false} EachStep(given: nat -> bool, sound: nat -> bool, total: nat, n: nat)
    requires n <= total
    requires forall m: nat :: m <= total && UpTo(given, m) ==> sound(m)
    requires forall m: nat :: m < total && sound(m) ==> given(m)
    ensures UpTo(given, n)
  {
    if n > 0 {
      EachStep(given, sound, total, n - 1);
      assert sound(n - 1);
    }
  }

  lemma GivenBelow(ops: seq<Op>, m: nat, t: Setting, allowed: (Option<Loaded>, CycleInput) -> bool, given: nat -> bool)
    requires m <= |ops| && UpTo(given, m)
    requires forall j: nat :: j < |ops| && given(j) ==> GivenTo(ops, j, t.identity, t.digest, allowed)
    ensures GivenUpTo(ops, m, t.identity, t.digest, allowed)
  {
    forall j | 0 <= j < m ensures GivenTo(ops, j, t.identity, t.digest, allowed) {
      assert given(j);
    }
  }

  /** By induction over the run, every cycle that decides is given admissible input. */
  lemma RunReceives(ops: seq<Op>, t: Setting, ordinal: nat, allowed: (Option<Loaded>, CycleInput) -> bool,
                    clear: seq<WorkRun> -> bool, held: seq<WorkRun> -> bool)
    requires StandsThroughout(ops, t, ordinal, clear, held) && Accounts(ops, t, allowed)
    requires AllGiven(ops, t.identity, t.digest, ordinal, allowed, clear, held)
    ensures GivenUpTo(ops, |ops|, t.identity, t.digest, allowed)
  {
    var given := (j: nat) => j < |ops| ==> GivenTo(ops, j, t.identity, t.digest, allowed);
    var sound := (m: nat) => m <= |ops| ==> StandsAt(ops, m, t.identity, t.digest, ordinal, clear, held);
    forall m: nat | m <= |ops| && UpTo(given, m) ensures sound(m) {
      GivenBelow(ops, m, t, allowed, given);
      AccountedFor(ops, m, t, allowed);
    }
    forall m: nat | m < |ops| && sound(m) ensures given(m) {
      StandingIsGiven(ops, m, t.identity, t.digest, ordinal, allowed, clear, held);
    }
    EachStep(given, sound, |ops|, |ops|);
    GivenBelow(ops, |ops|, t, allowed, given);
  }

  lemma HeldInRun(ops: seq<Op>, records: seq<Record>, i: nat, a: ControlAction, k: nat, s: Setting, t: Setting,
                  clear: seq<WorkRun> -> bool, held: seq<WorkRun> -> bool)
    requires records == RecordsOf(RunOps(ops, t.identity, t.digest).disk) && i < k && 3 * k < |records|
    requires PartOf(records, records, i, a, s) && Keeps(t, a, i + 1, clear, held)
    requires Inv(RunOps(ops, t.identity, t.digest), t)
    ensures held(records[3 * k].payload.facts.workRuns) && Spares(records[3 * k].payload, a)
  {
    PartStands(records, records, i, a, s, t, k, clear, held);
  }

  lemma RunIsAccountedFor(ops: seq<Op>, t: Setting, ordinal: nat, allowed: (Option<Loaded>, CycleInput) -> bool,
                          clear: seq<WorkRun> -> bool, held: seq<WorkRun> -> bool)
    requires StandsThroughout(ops, t, ordinal, clear, held) && Accounts(ops, t, allowed)
    requires AllGiven(ops, t.identity, t.digest, ordinal, allowed, clear, held)
    ensures Inv(RunOps(ops, t.identity, t.digest), t)
  {
    RunReceives(ops, t, ordinal, allowed, clear, held);
    AccountedFor(ops, |ops|, t, allowed);
    assert ops[..|ops|] == ops;
  }

  /** A launch that every admissible collection holds, once journaled, is held in
      every later journaled state, and no other cycle launches anything of its. */
  lemma LaunchIsHeld(ops: seq<Op>, identity: string, digest: Digest, records: seq<Record>, i: nat, a: ControlAction,
                     k: nat, allowed: (Option<Loaded>, CycleInput) -> bool,
                     clear: seq<WorkRun> -> bool, held: seq<WorkRun> -> bool)
    requires records == RecordsOf(RunOps(ops, identity, digest).disk)
    requires JournaledLaunch(records, i, a, identity) && i < k && 3 * k < |records|
    requires Survives(a, clear, held) && Gathers(a, i + 1, allowed, clear, held)
    requires AllGiven(ops, identity, digest, i + 1, allowed, clear, held)
    ensures held(records[3 * k].payload.facts.workRuns) && Spares(records[3 * k].payload, a)
  {
    var s := Reached(ops, identity, digest);
    var t := ControllerFrom(identity, digest, allowed);
    ControllerKeepsClear(identity, digest, a, i + 1, allowed, clear, held);
    ControllerKeepsHeld(identity, digest, a, i + 1, allowed, clear, held);
    ControllerAccounts(ops, identity, digest, allowed);
    HeldWhereGiven(ops, records, i, a, k, s, t, allowed, clear, held);
  }

  lemma HeldWhereGiven(ops: seq<Op>, records: seq<Record>, i: nat, a: ControlAction, k: nat, s: Setting, t: Setting,
                       allowed: (Option<Loaded>, CycleInput) -> bool, clear: seq<WorkRun> -> bool,
                       held: seq<WorkRun> -> bool)
    requires records == RecordsOf(RunOps(ops, t.identity, t.digest).disk) && i < k && 3 * k < |records|
    requires PartOf(records, records, i, a, s) && Keeps(t, a, i + 1, clear, held) && Accounts(ops, t, allowed)
    requires AllGiven(ops, t.identity, t.digest, i + 1, allowed, clear, held)
    ensures held(records[3 * k].payload.facts.workRuns) && Spares(records[3 * k].payload, a)
  {
    PartsStand(ops, records, i, a, s, t, clear, held);
    RunIsAccountedFor(ops, t, i + 1, allowed, clear, held);
    HeldInRun(ops, records, i, a, k, s, t, clear, held);
  }
}
