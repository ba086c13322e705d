/** A delivery ends: every cycle that survives long enough completes one, so as
    many of them as there are items left launch them all. */
module DeliveryEnds {
  import opened Text
  import opened Facts
  import opened PlanGraph
  import opened Progress
  import opened Journal
  import opened Driver
  import opened DriverLaws
  import opened DriverRuns
  import opened DriverSafety
  import opened Delivery
  import opened DeliveryRuns

  // ------------------------------------------------------------ what a whole cycle records

  /** The records a list of effects appends. */
  function Appended(effects: seq<Effect>): seq<Record> {
    if effects == [] then []
    else (if effects[0].Append? then [effects[0].record] else []) + Appended(effects[1..])
  }

  lemma {:induction false} AppendedConcat(a: seq<Effect>, b: seq<Effect>)
    ensures Appended(a + b) == Appended(a) + Appended(b)
    decreases |a|
  {
    if a == [] {
      assert a + b == b;
    } else {
      assert (a + b)[0] == a[0] && (a + b)[1..] == a[1..] + b;
      AppendedConcat(a[1..], b);
    }
  }

  lemma {:induction false} PerformsAppendNothing(actions: seq<ControlAction>)
    ensures Appended(Performs(actions)) == []
  {
    if actions != [] {
      PerformsAppendNothing(actions[1..]);
      assert Performs(actions)[1..] == Performs(actions[1..]);
    }
  }

  lemma {:induction false} RecordsAfter(w: World, effects: seq<Effect>, digest: Digest)
    ensures RecordsOf(After(w, effects, digest).disk) == RecordsOf(w.disk) + Appended(effects)
    decreases |effects|
  {
    if effects == [] {
      assert RecordsOf(w.disk) + [] == RecordsOf(w.disk);
    } else {
      var next := Do(w, effects[0], digest);
      RecordsAfter(next, effects[1..], digest);
      OneRecord(w, effects[0], digest);
      assert (RecordsOf(w.disk) + Appended([effects[0]])) + Appended(effects[1..])
             == RecordsOf(w.disk) + (Appended([effects[0]]) + Appended(effects[1..]));
    }
  }

  lemma OneRecord(w: World, e: Effect, digest: Digest)
    ensures RecordsOf(Do(w, e, digest).disk) == RecordsOf(w.disk) + Appended([e])
    ensures Appended([e]) == if e.Append? then [e.record] else []
  {
    assert [e][1..] == [];
    assert RecordsOf(w.disk) + [] == RecordsOf(w.disk);
  }

  lemma NewCycleRecords(cycleId: string, p: Payload)
    ensures |Appended(NewCycle(cycleId, p))| == 3 && |NewCycle(cycleId, p)| == |p.actions| + 4
  {
    var planned := Append(Record(cycleId, Planned, p));
    AppendedConcat([planned] + Performs(p.actions), Tail(cycleId, p));
    AppendedConcat([planned], Performs(p.actions));
    PerformsAppendNothing(p.actions);
    PerformsEach(p.actions);
    TailRecords(cycleId, p);
    assert [planned][1..] == [];
  }

  lemma TailRecords(cycleId: string, p: Payload)
    ensures |Appended(Tail(cycleId, p))| == 2
  {
    var a, c := Append(Record(cycleId, Applied, p)), Append(Record(cycleId, Confirmed, p));
    assert Tail(cycleId, p) == [a] + ([c] + [ReplaceView]);
    AppendedConcat([a], [c] + [ReplaceView]);
    AppendedConcat([c], [ReplaceView]);
    assert [a][1..] == [] && [c][1..] == [] && [ReplaceView][1..] == [];
  }

  // ------------------------------------------------------------ one long cycle

  /** As many durable effects as a cycle of a delivery can have. */
  const LONG: nat := 6

  predicate Long(op: Op) {
    op.Cycle? && op.fuel >= LONG
  }

  /** A world a cycle can work on: fresh, or with a journal that is not blocked. */
  predicate Workable(w: World, digest: Digest) {
    w.disk.marker == Unmarked || (w.disk.journal.File? && !Blocked(w, digest))
  }

  lemma NewCycleCompletes(w: World, previous: Option<Loaded>, op: Op, s: Setting)
    requires Inv(w, s) && Long(op) && Consults(w, previous, s.digest)
    requires previous.None? ==> w.disk.marker == Unmarked
    requires previous.Some? ==> w.disk.marker == Started
    requires var decided := CyclePayload(op.input, previous, s.identity);
             decided.Ok? && |decided.value.actions| <= 1
    ensures |RecordsOf(ApplyOp(w, op, s.identity, s.digest).disk)| == |RecordsOf(w.disk)| + 3
  {
    var p := CyclePayload(op.input, previous, s.identity).value;
    var cycle := NewCycle(CycleId(s.identity, NextCycleNumber(previous)), p);
    var effects := CourseOf(w, op.input, s.identity, s.digest).effects;
    CourseCases(w, op.input, s.identity, s.digest);
    ContinuesWith(op.input, previous, s.identity);
    NewCycleRecords(CycleId(s.identity, NextCycleNumber(previous)), p);
    AppendedConcat([Start], cycle);
    assert [Start][1..] == [];
    assert effects == (if previous.None? then [Start] else []) + cycle;
    EnoughFuel(w, effects, op.fuel, op.tear, s.digest);
    RecordsAfter(w, effects, s.digest);
  }

  lemma OwedSize(records: seq<Record>, identity: string)
    requires Shaped(records, identity) && |records| % 3 != 0
    ensures |records + Owed(records)| / 3 == |records| / 3 + 1
  {
    OwedRecords(records, identity);
  }

  lemma ResumedCompletes(w: World, op: Op, s: Setting)
    requires Inv(w, s) && Long(op) && w.disk.journal.File? && !Blocked(w, s.digest)
    requires var records := RecordsOf(w.disk);
             |records| % 3 != 0 && |records[|records| - 1].payload.actions| <= 1
    ensures |RecordsOf(ApplyOp(w, op, s.identity, s.digest).disk)| / 3 == |RecordsOf(w.disk)| / 3 + 1
  {
    var records := RecordsOf(w.disk);
    InterruptedCycleCompletes(w, records, op.input, op.fuel, op.tear, s);
    OwedSize(records, s.identity);
  }

  /** What a long cycle needs to know of the state it finds. */
  ghost predicate Deliverable(w: World, input: CycleInput, identity: string, digest: Digest) {
    && (forall previous :: Consults(w, previous, digest) ==>
          CyclePayload(input, previous, identity).Ok?
          && |CyclePayload(input, previous, identity).value.actions| <= 1)
    && forall i :: 0 <= i < |RecordsOf(w.disk)| ==> |RecordsOf(w.disk)[i].payload.actions| <= 1
  }

  /** Over a world it can work on, a long cycle completes one cycle: the one it finds unfinished, or its own. */
  lemma LongCycleCompletes(w: World, op: Op, s: Setting)
    requires Inv(w, s) && Long(op) && Workable(w, s.digest) && Deliverable(w, op.input, s.identity, s.digest)
    ensures |RecordsOf(ApplyOp(w, op, s.identity, s.digest).disk)| / 3 == |RecordsOf(w.disk)| / 3 + 1
  {
    if w.disk.marker == Unmarked {
      NewCycleCompletes(w, None, op, s);
    } else if |RecordsOf(w.disk)| % 3 != 0 {
      ResumedCompletes(w, op, s);
    } else {
      RecoveryIsExact(w, s);
      var state := LoadRecoverable(w.disk, s.digest).value;
      LoadedStands(w, state, s);
      NewCycleCompletes(w, Some(state), op, s);
    }
  }

  // ------------------------------------------------------------ every run

  /** How many cycles of the run were long ones. */
  function LongCycles(ops: seq<Op>): nat {
    if ops == [] then 0 else LongCycles(ops[..|ops| - 1]) + (if Long(ops[|ops| - 1]) then 1 else 0)
  }

  /** Every long cycle of the run finds a world it can work on. */
  predicate AllWorkable(ops: seq<Op>, identity: string, digest: Digest) {
    forall i :: 0 <= i < |ops| && Long(ops[i]) ==> Workable(RunOps(ops[..i], identity, digest), digest)
  }

  ghost predicate AllDeliverable(ops: seq<Op>, identity: string, digest: Digest) {
    forall i :: 0 <= i < |ops| && Long(ops[i]) ==>
      Deliverable(RunOps(ops[..i], identity, digest), ops[i].input, identity, digest)
  }

  /** Nothing a run does takes records back, and each long cycle completes one. */
  lemma {:induction false} LongCyclesComplete(ops: seq<Op>, identity: string, digest: Digest)
    requires AllWorkable(ops, identity, digest) && AllDeliverable(ops, identity, digest)
    ensures LongCycles(ops) <= |RecordsOf(RunOps(ops, identity, digest).disk)| / 3
  {
    if ops != [] {
      var n := |ops| - 1;
      var rest := ops[..n];
      forall i | 0 <= i < n && Long(rest[i])
        ensures Workable(RunOps(rest[..i], identity, digest), digest)
        ensures Deliverable(RunOps(rest[..i], identity, digest), rest[i].input, identity, digest)
      {
        assert rest[..i] == ops[..i] && Long(ops[i]);
      }
      LongCyclesComplete(rest, identity, digest);
      OpGrows(RunOps(rest, identity, digest), ops[n], identity, digest);
      if Long(ops[n]) {
        var s := Reached(rest, identity, digest);
        LongCycleCompletes(RunOps(rest, identity, digest), ops[n], s);
      }
    }
  }

  lemma SmallCycles(records: seq<Record>, left: set<string>, identity: string)
    requires Shaped(records, identity) && EachOnce(Payloads(records, Begun(records)), left)
    ensures forall i :: 0 <= i < |records| ==> |records[i].payload.actions| <= 1
  {
    forall i | 0 <= i < |records| ensures |records[i].payload.actions| <= 1 {
      assert Fits(records, i, identity);
      assert i - i % 3 == 3 * (i / 3) && Payloads(records, Begun(records))[i / 3] == records[3 * (i / 3)].payload;
    }
  }

  lemma ConsultedDelivers(w: World, previous: Option<Loaded>, input: CycleInput, s: Setting, b: ControlFacts,
                          allowed: (Option<Loaded>, CycleInput) -> bool, inv: Option<Loaded> -> bool)
    requires s == ControllerFrom(s.identity, s.digest, allowed) && Inv(w, s) && Delivers(b, s.identity, allowed, inv)
    requires Consults(w, previous, s.digest) && allowed(previous, input)
    ensures CyclePayload(input, previous, s.identity).Ok?
    ensures |CyclePayload(input, previous, s.identity).value.actions| <= 1
  {
    var left, stands := IncompleteKeys(b.workItems), Standing(b, s.identity, inv);
    DeliversTakes(b, s.identity, s.digest, allowed, inv);
    var rest := left;
    if previous.Some? {
      ConfirmedIsPrior(w, previous.value, s);
      var records := w.disk.journal.records;
      JournalStands(records, Whole(records), s, left, stands);
      rest := RestOf(records, Whole(records), left);
    }
    assert stands(previous, rest);
    assert DeliversOn(b, previous, input, rest, s.identity, inv);
  }

  lemma ReachedDeliverable(b: ControlFacts, ops: seq<Op>, input: CycleInput, identity: string, digest: Digest,
                           allowed: (Option<Loaded>, CycleInput) -> bool, inv: Option<Loaded> -> bool)
    requires Delivers(b, identity, allowed, inv) && ReceivesFrom(ops, identity, digest, allowed)
    requires forall previous :: Consults(RunOps(ops, identity, digest), previous, digest) ==> allowed(previous, input)
    ensures Deliverable(RunOps(ops, identity, digest), input, identity, digest)
  {
    var s, w := ControllerFrom(identity, digest, allowed), RunOps(ops, identity, digest);
    InvHoldsFrom(ops, identity, digest, allowed);
    ReachedPlayed(b, ops, identity, digest, RecordsOf(w.disk), allowed, inv);
    ReachedShape(w, s);
    SmallCycles(RecordsOf(w.disk), IncompleteKeys(b.workItems), identity);
    forall previous | Consults(w, previous, digest)
      ensures CyclePayload(input, previous, identity).Ok?
              && |CyclePayload(input, previous, identity).value.actions| <= 1
    {
      ConsultedDelivers(w, previous, input, s, b, allowed, inv);
    }
  }

  lemma ReachedShape(w: World, s: Setting)
    requires Inv(w, s)
    ensures Shaped(RecordsOf(w.disk), s.identity)
  {
  }

  lemma ReceivesBefore(ops: seq<Op>, n: nat, identity: string, digest: Digest,
                       allowed: (Option<Loaded>, CycleInput) -> bool)
    requires n <= |ops| && ReceivesFrom(ops, identity, digest, allowed)
    ensures ReceivesFrom(ops[..n], identity, digest, allowed)
  {
    forall i, previous | 0 <= i < n && ops[..n][i].Cycle?
      && Consults(RunOps(ops[..n][..i], identity, digest), previous, digest)
      ensures allowed(previous, ops[..n][i].input)
    {
      assert ops[..n][..i] == ops[..i];
    }
  }

  lemma RunDeliverable(b: ControlFacts, ops: seq<Op>, identity: string, digest: Digest,
                       allowed: (Option<Loaded>, CycleInput) -> bool, inv: Option<Loaded> -> bool)
    requires Delivers(b, identity, allowed, inv) && ReceivesFrom(ops, identity, digest, allowed)
    ensures AllDeliverable(ops, identity, digest)
  {
    forall i | 0 <= i < |ops| && Long(ops[i])
      ensures Deliverable(RunOps(ops[..i], identity, digest), ops[i].input, identity, digest)
    {
      ReceivesBefore(ops, i, identity, digest, allowed);
      ReachedDeliverable(b, ops[..i], ops[i].input, identity, digest, allowed, inv);
    }
  }

  /** Every item has been launched, each by one cycle, and no other cycle launched anything. */
  predicate AllDelivered(played: seq<Payload>, left: set<string>) {
    EachOnce(played, left) && Elements(LaunchedItems(played)) == left
  }

  lemma ReachedEnds(b: ControlFacts, ops: seq<Op>, identity: string, digest: Digest, records: seq<Record>,
                    allowed: (Option<Loaded>, CycleInput) -> bool, inv: Option<Loaded> -> bool)
    requires Delivers(b, identity, allowed, inv) && ReceivesFrom(ops, identity, digest, allowed)
    requires AllWorkable(ops, identity, digest) && LongCycles(ops) >= |IncompleteKeys(b.workItems)|
    requires records == RecordsOf(RunOps(ops, identity, digest).disk)
    ensures AllDelivered(Payloads(records, Begun(records)), IncompleteKeys(b.workItems))
  {
    ReachedPlayed(b, ops, identity, digest, records, allowed, inv);
    RunDeliverable(b, ops, identity, digest, allowed, inv);
    LongCyclesComplete(ops, identity, digest);
  }

  /** As many long cycles as there are items left launch them all, whatever other
      cycles are cut between them, as long as none finds the journal blocked. */
  lemma LongRunsDeliverAll(b: ControlFacts, plan: Plan, ops: seq<Op>, identity: string, digest: Digest,
                           records: seq<Record>)
    requires Delivering(b, plan) && ReceivesFrom(ops, identity, digest, Answered(b))
    requires AllWorkable(ops, identity, digest) && LongCycles(ops) >= |IncompleteKeys(b.workItems)|
    requires records == RecordsOf(RunOps(ops, identity, digest).disk)
    ensures AllDelivered(Payloads(records, Begun(records)), IncompleteKeys(b.workItems))
  {
    AnswersDeliver(b, plan, identity);
    ReachedEnds(b, ops, identity, digest, records, Answered(b), Always());
  }
}
