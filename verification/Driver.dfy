/** One reconciliation cycle and its resumption (tools/controller.py), as the
    list of durable effects it performs in order.  A crash cuts that list
    anywhere, and may cut the append it interrupts. */
module Driver {
  import opened Text
  import opened Facts
  import opened Policy
  import opened Launch
  import opened Journal
  import opened Publication
  import RunLists
  import StorableFacts

  // ------------------------------------------------------------ durable effects

  datatype Effect =
    | Start
    | Append(record: Record)
    | Perform(action: ControlAction)
    | ReplaceView

  /** Everything that outlives the process: the disk, and the actions the ports have carried out. */
  datatype World = World(disk: Disk, applied: seq<ControlAction>)

  const EMPTY_WORLD := World(Disk(Unmarked, Absent, None), [])

  function RecordsOf(disk: Disk): seq<Record> {
    match disk.journal
    case Absent => []
    case File(records, _) => records
  }

  function Do(w: World, e: Effect, digest: Digest): World {
    match e
    case Start => w.(disk := w.disk.(marker := Started))
    case Append(record) => w.(disk := w.disk.(journal := File(RecordsOf(w.disk) + [record], false)))
    case Perform(action) => w.(applied := w.applied + [action])
    case ReplaceView =>
      match ReadRecords(w.disk, false)
      case Err(_) => w
      case Ok(records) =>
        var final := records[|records| - 1];
        w.(disk := w.disk.(view := Some(View(digest(records), final.cycleId, final.payload))))
  }

  /** How far the interrupted effect itself got. */
  datatype Tear = Nothing | Created | Partly

  /** A marker or a journal line can be cut short; an action and a view replacement cannot. */
  function Interrupt(w: World, e: Effect, tear: Tear): World {
    match e
    case Start => if tear == Nothing then w else w.(disk := w.disk.(marker := Broken))
    case Append(_) =>
      if tear == Nothing then w
      else w.(disk := w.disk.(journal := File(RecordsOf(w.disk), tear == Partly)))
    case _ => w
  }

  /** The world after as many effects as `fuel` allows, and whether all of them happened. */
  datatype Outcome = Outcome(world: World, fuel: nat, finished: bool)

  function Exec(w: World, effects: seq<Effect>, fuel: nat, tear: Tear, digest: Digest): Outcome
    decreases |effects|
  {
    if effects == [] then Outcome(w, fuel, true)
    else if fuel == 0 then Outcome(Interrupt(w, effects[0], tear), 0, false)
    else Exec(Do(w, effects[0], digest), effects[1..], fuel - 1, tear, digest)
  }

  lemma {:induction false} ExecSplit(w: World, a: seq<Effect>, b: seq<Effect>, fuel: nat, tear: Tear, digest: Digest)
    ensures var first := Exec(w, a, fuel, tear, digest);
            Exec(w, a + b, fuel, tear, digest) ==
            if first.finished then Exec(first.world, b, first.fuel, tear, digest) else first
    decreases |a|
  {
    if a == [] {
      assert a + b == b;
    } else {
      assert (a + b)[1..] == a[1..] + b;
      if fuel > 0 {
        ExecSplit(Do(w, a[0], digest), a[1..], b, fuel - 1, tear, digest);
      }
    }
  }

  // ------------------------------------------------------------ what a cycle decides

  /** What the planning stage returned, when it was consulted. */
  datatype Planning =
    | Suspended(lifecycle: LifecycleState)
    | Replayed(lifecycle: LifecycleState, revision: string)
    | Publish(lifecycle: LifecycleState, plan: ValidatedPlan, parent: string)

  /** Everything a cycle reads from outside: two collections of facts, the
      planning stage's answer, and the clock. */
  datatype CycleInput = CycleInput(
    collected: ControlFacts,
    refreshed: ControlFacts,
    planning: Option<Planning>,
    now: string)

  /** A plan that may not be published suspends planning, as any other refusal of the stage does. */
  function Admit(p: Planning): Planning {
    if p.Publish? then
      match PublicationActions(p.plan, p.parent)
      case Ok(_) => p
      case Err(code) => Suspended(LifecycleState("planning_suspended", None, code))
    else p
  }

  function ActionsOf(p: Planning): seq<ControlAction> {
    if p.Publish? then
      match PublicationActions(p.plan, p.parent)
      case Ok(actions) => actions
      case Err(_) => []
    else []
  }

  function RevisionOf(p: Planning): Option<string> {
    match p
    case Suspended(_) => None
    case Replayed(_, revision) => Some(revision)
    case Publish(_, plan, _) => Some(plan.revisionId)
  }

  /** `_merge_local_facts`. */
  function MergeLocalFacts(collected: ControlFacts, previous: Option<Loaded>): ControlFacts {
    match previous
    case None => collected
    case Some(state) =>
      var prior := state.payload.facts;
      var known := set t | t in collected.readyTransitions :: t.key;
      RetainCompleted(prior, collected.(
        workRuns := RunLists.MergeRuns(prior.workRuns, collected.workRuns),
        readyTransitions := collected.readyTransitions + Unknown(prior.readyTransitions, known)))
  }

  function Unknown(transitions: seq<ReadyTransition>, known: set<string>): seq<ReadyTransition> {
    if transitions == [] then []
    else
      var n := |transitions| - 1;
      Unknown(transitions[..n], known) + (if transitions[n].key in known then [] else [transitions[n]])
  }

  /** The facts one cycle reduces. */
  function CycleFacts(input: CycleInput, previous: Option<Loaded>): ControlFacts {
    var f := AdvanceCompleted(MergeLocalFacts(input.collected, previous));
    var before := if previous.Some? then Some(previous.value.payload.facts) else None;
    WithReadyTransitions(f, NewlyReadyKeys(before, f), input.now)
  }

  /** The planning stage is only consulted for one outcome without an Initiative. */
  function PlanningFor(f: ControlFacts, input: CycleInput): Option<Planning> {
    if f.configuredCurator.Some? && |f.desiredOutcomes| == 1 && f.initiatives == [] && input.planning.Some?
    then Some(Admit(input.planning.value)) else None
  }

  /** `_cycle_id`. */
  function CycleId(identity: string, ordinal: nat): string {
    identity + "-cycle-" + Decimal(ordinal)
  }

  /** The run and dispatch identity `_bind_launch_action` builds. */
  function DispatchId(identity: string, ordinal: nat, itemKey: string): string {
    identity + ":" + CycleId(identity, ordinal) + ":" + itemKey
  }

  /** What `append_phase` checks before it writes: the facts' document, which
      `FactsDocument.FactsRoundTrip` shows to be accepted exactly when the facts
      are storable, and the texts of the lifecycle and of the plan. */
  predicate Recordable(p: Payload) {
    && StorableFacts.Storable(p.facts)
    && p.lifecycle.state != "" && p.lifecycle.reason != ""
    && StorableFacts.Filled(p.lifecycle.admittedInitiative) && StorableFacts.Filled(p.plan)
  }

  /** What a cycle persists, or why it refuses before persisting anything. */
  function CyclePayload(input: CycleInput, previous: Option<Loaded>, identity: string): Result<Payload> {
    match Decide(input, previous, identity)
    case Err(code) => Err(code)
    case Ok(p) => if Recordable(p) then Ok(p) else Err("controller_state_unreadable")
  }

  /** What the policy, the planning stage and the launch recheck decide. */
  function Decide(input: CycleInput, previous: Option<Loaded>, identity: string): Result<Payload> {
    var f := CycleFacts(input, previous);
    var derived := Derive(f);
    match PlanningFor(f, input)
    case Some(p) => Ok(Payload(f, p.lifecycle, ActionsOf(p), RevisionOf(p)))
    case None =>
      if derived.actions == [] then Ok(Payload(f, derived.lifecycle, [], None))
      else
        var refreshed := AdvanceCompleted(MergeLocalFacts(input.refreshed, previous));
        if SnapshotOf(refreshed) != derived.launchSnapshot.value then Err("controller_launch_stale")
        else
          var key := DispatchId(identity, NextCycleNumber(previous), derived.selected.value.key);
          var action := Bind(derived.actions[0], key);
          Ok(Payload(WithWorkRun(f, action, key, key), derived.lifecycle, [action], None))
  }

  function Performs(actions: seq<ControlAction>): seq<Effect> {
    if actions == [] then [] else [Perform(actions[0])] + Performs(actions[1..])
  }

  /** The effects of a whole new cycle. */
  function NewCycle(cycleId: string, payload: Payload): seq<Effect> {
    [Append(Record(cycleId, Planned, payload))] + Performs(payload.actions) + Tail(cycleId, payload)
  }

  /** What follows a cycle's actions. */
  function Tail(cycleId: string, payload: Payload): seq<Effect> {
    [Append(Record(cycleId, Applied, payload)), Append(Record(cycleId, Confirmed, payload)), ReplaceView]
  }

  predicate HoldsLaunch(actions: seq<ControlAction>) {
    exists a :: a in actions && a.StartWorkRun?
  }

  /** `_resume`: finish one journaled plan, or refuse a planned launch. */
  function ResumeEffects(state: Loaded): Result<seq<Effect>> {
    if state.phase == Planned && HoldsLaunch(state.payload.actions) then Err("controller_resume_indeterminate")
    else if state.phase == Planned then Ok(Performs(state.payload.actions) + Tail(state.lastCycleId, state.payload))
    else Ok(Tail(state.lastCycleId, state.payload)[1..])
  }

  /** `run_cycle` for a real cycle: the effects it will perform and the refusal it may end in. */
  datatype Course = Course(effects: seq<Effect>, refusal: Option<string>)

  /** What the source decides once it has loaded (or started) its state. */
  function Continue(input: CycleInput, previous: Option<Loaded>, identity: string): Result<seq<Effect>> {
    if previous.Some? && previous.value.phase != Confirmed then ResumeEffects(previous.value)
    else match CyclePayload(input, previous, identity)
      case Err(code) => Err(code)
      case Ok(payload) => Ok(NewCycle(CycleId(identity, NextCycleNumber(previous)), payload))
  }

  function CourseOf(w: World, input: CycleInput, identity: string, digest: Digest): Course {
    match IsFresh(w.disk)
    case Err(code) => Course([], Some(code))
    case Ok(isNew) =>
      var starts := if w.disk.marker == Started then [] else [Start];
      var rest := CourseFrom(w.disk.(marker := Started), isNew, input, identity, digest);
      Course(starts + rest.effects, rest.refusal)
  }

  /** The course once the start marker is in place. */
  function CourseFrom(disk: Disk, isNew: bool, input: CycleInput, identity: string, digest: Digest): Course {
    if isNew then CourseAfter(input, None, identity)
    else match LoadRecoverable(disk, digest)
      case Err(code) => Course([], Some(code))
      case Ok(state) => CourseAfter(input, Some(state), identity)
  }

  /** The course once the state has been loaded. */
  function CourseAfter(input: CycleInput, previous: Option<Loaded>, identity: string): Course {
    CourseOn(Continue(input, previous, identity))
  }

  function CourseOn(effects: Result<seq<Effect>>): Course {
    match effects
    case Err(code) => Course([], Some(code))
    case Ok(value) => Course(value, None)
  }

  /** How a run that a crash cut off reports. */
  const CRASHED := "crashed"

  /** What a run reports: a crash, the refusal of its course, or success. */
  function Report(course: Course, finished: bool): Result<()> {
    if !finished then Err(CRASHED)
    else if course.refusal.Some? then Err(course.refusal.value)
    else Ok(())
  }

  // ------------------------------------------------------------ whole runs

  /** One thing that happens to a controller root: a cycle that may be cut off, or the bootstrap recovery. */
  datatype Op =
    | Cycle(input: CycleInput, fuel: nat, tear: Tear)
    | RecoverBootstrap

  function ApplyOp(w: World, op: Op, identity: string, digest: Digest): World {
    match op
    case Cycle(input, fuel, tear) =>
      Exec(w, CourseOf(w, input, identity, digest).effects, fuel, tear, digest).world
    case RecoverBootstrap =>
      // `recover_interrupted_bootstrap` clears only a whole marker with nothing beside it.
      if w.disk.marker == Started && w.disk.journal.Absent? && w.disk.view.None? then
        w.(disk := w.disk.(marker := Unmarked))
      else w
  }

  function RunOps(ops: seq<Op>, identity: string, digest: Digest): World {
    if ops == [] then EMPTY_WORLD
    else ApplyOp(RunOps(ops[..|ops| - 1], identity, digest), ops[|ops| - 1], identity, digest)
  }

  // ------------------------------------------------------------ the running controller

  /** `Controller` over its store.  `fuel` is how many durable effects the
      process survives; it models where a crash strikes. */
  class Controller {
    const identity: string
    const digest: Digest
    var disk: Disk
    var fuel: nat
    var tear: Tear
    ghost var applied: seq<ControlAction>

    constructor (identity: string, digest: Digest)
      ensures State() == EMPTY_WORLD && this.identity == identity && this.digest == digest
    {
      this.identity, this.digest := identity, digest;
      disk, fuel, tear, applied := EMPTY_WORLD.disk, 0, Nothing, [];
    }

    ghost function State(): World
      reads this
    {
      World(disk, applied)
    }

    /** Restart after whatever happened, with a new crash point. */
    method Restart(fuel: nat, tear: Tear)
      modifies this
      ensures State() == old(State()) && this.fuel == fuel && this.tear == tear
    {
      this.fuel, this.tear := fuel, tear;
    }

    /** One durable effect; false when the process dies in it. */
    method Durable(e: Effect) returns (ok: bool)
      modifies this
      ensures tear == old(tear)
      ensures Outcome(State(), fuel, ok) == Exec(old(State()), [e], old(fuel), tear, digest)
    {
      if fuel == 0 {
        disk := Interrupt(World(disk, []), e, tear).disk;
        return false;
      }
      fuel := fuel - 1;
      ghost var before := applied;
      disk := Do(World(disk, []), e, digest).disk;
      if e.Perform? {
        applied := applied + [e.action];
      }
      return true;
    }

    /** `for action in actions: self._apply(action)`. */
    method ApplyActions(actions: seq<ControlAction>) returns (ok: bool)
      modifies this
      ensures tear == old(tear)
      ensures Outcome(State(), fuel, ok) == Exec(old(State()), Performs(actions), old(fuel), tear, digest)
    {
      ok := true;
      for i := 0 to |actions|
        invariant tear == old(tear)
        invariant Exec(State(), Performs(actions[i..]), fuel, tear, digest)
                  == Exec(old(State()), Performs(actions), old(fuel), tear, digest)
      {
        assert Performs(actions[i..]) == [Perform(actions[i])] + Performs(actions[i..][1..]);
        assert actions[i..][1..] == actions[i + 1..];
        ExecSplit(State(), [Perform(actions[i])], Performs(actions[i + 1..]), fuel, tear, digest);
        ok := Durable(Perform(actions[i]));
        if !ok {
          return;
        }
      }
      ok := true;
    }

    /** Record `applied` and `confirmed`, then rebuild the view. */
    method Finish(cycleId: string, payload: Payload) returns (ok: bool)
      modifies this
      ensures tear == old(tear)
      ensures Outcome(State(), fuel, ok) == Exec(old(State()), Tail(cycleId, payload), old(fuel), tear, digest)
    {
      var first, second := Append(Record(cycleId, Applied, payload)), Append(Record(cycleId, Confirmed, payload));
      assert Tail(cycleId, payload) == [first] + [second, ReplaceView];
      ExecSplit(State(), [first], [second, ReplaceView], fuel, tear, digest);
      ok := Durable(first);
      if ok {
        assert Tail(cycleId, payload)[1..] == [second, ReplaceView];
        ok := Confirm(cycleId, payload);
      }
    }

    method Confirm(cycleId: string, payload: Payload) returns (ok: bool)
      modifies this
      ensures tear == old(tear)
      ensures Outcome(State(), fuel, ok) == Exec(old(State()), Tail(cycleId, payload)[1..], old(fuel), tear, digest)
    {
      var second := Append(Record(cycleId, Confirmed, payload));
      assert Tail(cycleId, payload)[1..] == [second] + [ReplaceView];
      ExecSplit(State(), [second], [ReplaceView], fuel, tear, digest);
      ok := Durable(second);
      if ok {
        ok := Durable(ReplaceView);
      }
    }

    /** Record the plan, carry it out, and finish. */
    method RunNew(cycleId: string, payload: Payload) returns (ok: bool)
      modifies this
      ensures tear == old(tear)
      ensures Outcome(State(), fuel, ok) == Exec(old(State()), NewCycle(cycleId, payload), old(fuel), tear, digest)
    {
      var planned := Append(Record(cycleId, Planned, payload));
      var rest := Performs(payload.actions) + Tail(cycleId, payload);
      assert NewCycle(cycleId, payload) == [planned] + rest;
      ExecSplit(State(), [planned], rest, fuel, tear, digest);
      ok := Durable(planned);
      if ok {
        ok := ApplyAndFinish(cycleId, payload);
      }
    }

    method ApplyAndFinish(cycleId: string, payload: Payload) returns (ok: bool)
      modifies this
      ensures tear == old(tear)
      ensures Outcome(State(), fuel, ok) ==
              Exec(old(State()), Performs(payload.actions) + Tail(cycleId, payload), old(fuel), tear, digest)
    {
      ExecSplit(State(), Performs(payload.actions), Tail(cycleId, payload), fuel, tear, digest);
      ok := ApplyActions(payload.actions);
      if ok {
        ok := Finish(cycleId, payload);
      }
    }

    /** `_resume`: refuse a planned launch with nothing changed, or perform
        exactly the owed effects, ending well unless a crash strikes. */
    method Resume(state: Loaded) returns (r: Result<()>)
      modifies this
      ensures tear == old(tear)
      ensures ResumeEffects(state).Err? ==> State() == old(State())
      ensures var course := CourseOn(ResumeEffects(state));
              var outcome := Exec(old(State()), course.effects, old(fuel), tear, digest);
              State() == outcome.world && r == Report(course, outcome.finished)
    {
      var ok: bool;
      if state.phase == Planned {
        for i := 0 to |state.payload.actions|
          invariant !HoldsLaunch(state.payload.actions[..i])
          invariant State() == old(State()) && fuel == old(fuel) && tear == old(tear)
        {
          if state.payload.actions[i].StartWorkRun? {
            assert state.payload.actions[i] in state.payload.actions;
            return Err("controller_resume_indeterminate");
          }
        }
        assert state.payload.actions[..|state.payload.actions|] == state.payload.actions;
        ok := ApplyAndFinish(state.lastCycleId, state.payload);
      } else {
        ok := Confirm(state.lastCycleId, state.payload);
      }
      return if ok then Ok(()) else Err(CRASHED);
    }

    /** `_cycle`. */
    method RunFrom(input: CycleInput, previous: Option<Loaded>) returns (r: Result<()>)
      modifies this
      ensures tear == old(tear)
      ensures var course := CourseAfter(input, previous, identity);
              var outcome := Exec(old(State()), course.effects, old(fuel), tear, digest);
              State() == outcome.world && r == Report(course, outcome.finished)
    {
      if previous.Some? && previous.value.phase != Confirmed {
        r := Resume(previous.value);
        return;
      }
      var decided := CyclePayload(input, previous, identity);
      if decided.Err? {
        return Err(decided.error);
      }
      var ok := RunNew(CycleId(identity, NextCycleNumber(previous)), decided.value);
      return if ok then Ok(()) else Err(CRASHED);
    }

    /** Load what there is and go on from it. */
    method RunStarted(isNew: bool, input: CycleInput) returns (r: Result<()>)
      modifies this
      ensures tear == old(tear)
      ensures var course := CourseFrom(old(disk), isNew, input, identity, digest);
              var outcome := Exec(old(State()), course.effects, old(fuel), tear, digest);
              State() == outcome.world && r == Report(course, outcome.finished)
    {
      var previous: Option<Loaded> := None;
      if !isNew {
        var loaded := LoadRecoverable(disk, digest);
        if loaded.Err? {
          return Err(loaded.error);
        }
        previous := Some(loaded.value);
      }
      r := RunFrom(input, previous);
    }

    /** `run_cycle` with `dry_run` false: the specified effects up to the crash
        point, and the specified refusal, or success exactly when all of them happened. */
    method RunCycle(input: CycleInput) returns (r: Result<()>)
      modifies this
      ensures State() == ApplyOp(old(State()), Cycle(input, old(fuel), old(tear)), identity, digest)
      ensures var course := CourseOf(old(State()), input, identity, digest);
              r == Report(course, Exec(old(State()), course.effects, old(fuel), old(tear), digest).finished)
    {
      var isNew := IsFresh(disk);
      if isNew.Err? {
        return Err(isNew.error);
      }
      ghost var rest := CourseFrom(disk.(marker := Started), isNew.value, input, identity, digest).effects;
      if disk.marker != Started {
        ExecSplit(State(), [Start], rest, fuel, tear, digest);
        var ok := Durable(Start);
        if !ok {
          return Err(CRASHED);
        }
      } else {
        assert [] + rest == rest && disk.(marker := Started) == disk;
      }
      r := RunStarted(isNew.value, input);
    }
  }
}
