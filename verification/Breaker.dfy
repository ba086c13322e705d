/** The lane breaker of tools/breaker.py: a consecutive-N trip policy over typed
    outcomes, with published resets, escalation and first-party quota readings. */
module Breaker {
  import opened Text

  const OK := "ok"
  const UNCLASSIFIED := "unclassified"
  const QUOTA_EXHAUSTED := "quota_exhausted"
  const PROVIDER_ERROR := "provider_error"
  const PROVIDER_REFUSED := "provider_refused"
  const GATE_FAILED := "gate_failed"
  const AVAILABILITY := "availability"
  const QUALITY := "quality"

  datatype State = Closed | Open | HalfOpen

  datatype TripRule = TripRule(
    name: string,
    on: set<string>,
    consecutive: int,
    family: string,
    autoReset: bool,
    escalates: bool,
    failureClass: string,
    window: Option<real>)

  /** The tuples of pairs the source keeps sorted are finite maps here. */
  datatype Circuit = Circuit(
    state: State,
    rule: string,
    reason: string,
    openedAt: real,
    resetAt: Option<real>,
    escalated: bool,
    streaks: map<string, int>,
    windows: map<string, seq<real>>)
  {
    function Streak(rule: string): int {
      if rule in streaks then streaks[rule] else 0
    }

    function WithStreak(rule: string, value: int): Circuit {
      this.(streaks := if value != 0 then streaks[rule := value] else streaks - {rule})
    }

    function WindowTimes(rule: string): seq<real> {
      if rule in windows then windows[rule] else []
    }

    function WithWindow(rule: string, times: seq<real>): Circuit {
      this.(windows := if times != [] then windows[rule := times] else windows - {rule})
    }
  }

  const FRESH := Circuit(Closed, "", "", 0.0, None, false, map[], map[])

  datatype Outcome = Outcome(name: string, resetAt: Option<real>, detail: string)

  datatype Transition = Transition(
    at: real,
    fromState: State,
    toState: State,
    rule: string,
    reason: string,
    resetAt: Option<real>,
    escalates: bool,
    streak: int)

  datatype Moved = Moved(circuit: Circuit, transition: Option<Transition>)

  const CONSECUTIVE_N := 3

  const QUOTA_RULE := TripRule("quota", {QUOTA_EXHAUSTED}, 1, AVAILABILITY, true, false, QUOTA_EXHAUSTED, None)
  const PROVIDER_ERROR_RULE :=
    TripRule("provider_errors", {PROVIDER_ERROR}, CONSECUTIVE_N, AVAILABILITY, false, true, "infra_unavailable", None)
  const QUALITY_RULE :=
    TripRule("quality", {GATE_FAILED, PROVIDER_REFUSED}, CONSECUTIVE_N, QUALITY, false, true, PROVIDER_REFUSED, None)
  const LANE_RULES := [QUOTA_RULE, PROVIDER_ERROR_RULE, QUALITY_RULE]

  function RuleNamed(rules: seq<TripRule>, name: string): (r: Option<TripRule>)
    ensures r.Some? ==> r.value in rules && r.value.name == name
    ensures r.None? ==> forall k :: k in rules ==> k.name != name
  {
    if rules == [] then None
    else if rules[0].name == name then Some(rules[0])
    else RuleNamed(rules[1..], name)
  }

  // ------------------------------------------------------------ advance

  function After(times: seq<real>, cutoff: real): seq<real> {
    if times == [] then []
    else (if times[0] > cutoff then [times[0]] else []) + After(times[1..], cutoff)
  }

  /** What one outcome does to one rule's streak and window. */
  function MoveRule(c: Circuit, rule: TripRule, name: string, now: real): Circuit {
    if name in rule.on && rule.window.Some? then
      var times := After(c.WindowTimes(rule.name) + [now], now - rule.window.value);
      c.WithWindow(rule.name, times).WithStreak(rule.name, |times|)
    else
      c.WithStreak(rule.name, if name in rule.on then c.Streak(rule.name) + 1 else 0)
       .WithWindow(rule.name, [])
  }

  function MoveRules(c: Circuit, rules: seq<TripRule>, name: string, now: real): Circuit
    decreases |rules|
  {
    if rules == [] then c
    else MoveRules(MoveRule(c, rules[0], name, now), rules[1..], name, now)
  }

  /** The first rule, in order, whose streak has reached its N on this outcome. */
  function FirstTripped(moved: Circuit, rules: seq<TripRule>, name: string): (r: Option<TripRule>)
    ensures r.Some? ==> r.value in rules && name in r.value.on && moved.Streak(r.value.name) >= r.value.consecutive
    ensures r.None? ==> forall k :: k in rules && name in k.on ==> moved.Streak(k.name) < k.consecutive
  {
    if rules == [] then None
    else if name in rules[0].on && moved.Streak(rules[0].name) >= rules[0].consecutive then Some(rules[0])
    else FirstTripped(moved, rules[1..], name)
  }

  function Basis(streak: int, outcome: Outcome, rule: TripRule): string {
    match rule.window
    case None => IntText(streak) + " consecutive " + outcome.name
    case Some(w) =>
      var seconds := if w >= 0.0 then w.Floor else -((-w).Floor);
      IntText(streak) + " " + outcome.name + " within " + IntText(seconds) + "s"
  }

  /** `_tripped`. */
  function Tripped(circuit: Circuit, moved: Circuit, rule: TripRule, outcome: Outcome, now: real): Moved {
    if circuit.state == Open && circuit.escalated && !rule.escalates then Moved(moved, None)
    else
      var streak := moved.Streak(rule.name);
      var trip := Circuit(
                      Open, rule.name,
                      if outcome.detail != "" then outcome.detail else Basis(streak, outcome, rule),
                      now,
                      if rule.autoReset then outcome.resetAt else None,
                      rule.escalates, moved.streaks, moved.windows);
      if circuit.state == Open && circuit.rule == rule.name && circuit.resetAt == trip.resetAt then
        Moved(trip, None)
      else
        Moved(trip, Some(Transition(now, circuit.state, Open, rule.name, trip.reason,
                                      trip.resetAt, rule.escalates, streak)))
  }

  function ClosedByProbe(circuit: Circuit, outcome: Outcome, now: real): Moved {
    var reason := if outcome.detail != "" then outcome.detail else "the half-open probe came back ordinary";
    Moved(FRESH, Some(Transition(now, HalfOpen, Closed, circuit.rule, reason, None, false, 0)))
  }

  function Advance(circuit: Circuit, rules: seq<TripRule>, outcome: Outcome, now: real): Moved {
    if outcome.name == UNCLASSIFIED then Moved(circuit, None)
    else if outcome.name == OK then
      if circuit.state == HalfOpen then ClosedByProbe(circuit, outcome, now)
      else Moved(circuit.(streaks := map[], windows := map[]), None)
    else
      var moved := MoveRules(circuit, rules, outcome.name, now);
      match FirstTripped(moved, rules, outcome.name)
      case Some(rule) => Tripped(circuit, moved, rule, outcome, now)
      case None => Moved(moved, None)
  }

  /** `advance`, with the two loops the source runs. */
  method AdvanceCircuit(circuit: Circuit, rules: seq<TripRule>, outcome: Outcome, now: real) returns (r: Moved)
    ensures r == Advance(circuit, rules, outcome, now)
  {
    if outcome.name == UNCLASSIFIED {
      return Moved(circuit, None);
    }
    if outcome.name == OK {
      if circuit.state == HalfOpen {
        return ClosedByProbe(circuit, outcome, now);
      }
      return Moved(circuit.(streaks := map[], windows := map[]), None);
    }
    var moved := circuit;
    for i := 0 to |rules|
      invariant MoveRules(moved, rules[i..], outcome.name, now) == MoveRules(circuit, rules, outcome.name, now)
    {
      assert rules[i..][0] == rules[i] && rules[i..][1..] == rules[i + 1..];
      moved := MoveRule(moved, rules[i], outcome.name, now);
    }
    for i := 0 to |rules|
      invariant FirstTripped(moved, rules[i..], outcome.name) == FirstTripped(moved, rules, outcome.name)
    {
      assert rules[i..][0] == rules[i] && rules[i..][1..] == rules[i + 1..];
      var rule := rules[i];
      if outcome.name in rule.on && moved.Streak(rule.name) >= rule.consecutive {
        return Tripped(circuit, moved, rule, outcome, now);
      }
    }
    return Moved(moved, None);
  }

  /** `settle`. */
  function Settle(circuit: Circuit, rules: seq<TripRule>, now: real): Moved {
    if circuit.state != Open || circuit.resetAt.None? || now < circuit.resetAt.value then Moved(circuit, None)
    else
      var rule := RuleNamed(rules, circuit.rule);
      if rule.None? || !rule.value.autoReset then Moved(circuit, None)
      else
        var half := circuit.(state := HalfOpen, reason := "the published window reset arrived");
        Moved(half, Some(Transition(now, Open, HalfOpen, circuit.rule, half.reason, circuit.resetAt,
                                    false, circuit.Streak(circuit.rule))))
  }

  // ------------------------------------------------------------ quota readings

  datatype QuotaWindow = QuotaWindow(name: string, usedFraction: real, resetsAt: Option<real>)

  datatype QuotaReading = QuotaReading(
    source: string,
    estimated: bool,
    windows: seq<QuotaWindow>,
    unavailable: string)

  predicate Sooner(a: QuotaWindow, b: QuotaWindow) {
    a.resetsAt.Some? && (b.resetsAt.None? || a.resetsAt.value < b.resetsAt.value)
  }

  /** `exhausted_window`: the exhausted window that comes back soonest, the first of equals. */
  function ExhaustedWindow(windows: seq<QuotaWindow>): Option<QuotaWindow> {
    if windows == [] then None
    else
      var last := windows[|windows| - 1];
      var best := ExhaustedWindow(windows[..|windows| - 1]);
      if last.usedFraction < 1.0 then best
      else if best.None? || Sooner(last, best.value) then Some(last)
      else best
  }

  /** `apply_reading`. */
  function ApplyReading(circuit: Circuit, rules: seq<TripRule>, reading: QuotaReading, now: real): Moved {
    if reading.estimated || reading.unavailable != "" then Moved(circuit, None)
    else match ExhaustedWindow(reading.windows)
      case Some(out) =>
        var detail := reading.source + " reports the " + out.name + " window at or over its cap";
        Advance(circuit, rules, Outcome(QUOTA_EXHAUSTED, out.resetsAt, detail), now)
      case None =>
        var rule := RuleNamed(rules, circuit.rule);
        if circuit.state != Open || rule.None? || rule.value.family == QUALITY then Moved(circuit, None)
        else
          Moved(FRESH, Some(Transition(now, Open, Closed, circuit.rule,
                                       reading.source + " answered with quota to spare, so the lane is serving",
                                       None, false, 0)))
  }

  // ------------------------------------------------------------ a lane's history

  datatype Event =
    | Fed(outcome: Outcome, at: real)
    | Settled(at: real)
    | Read(reading: QuotaReading, at: real)

  function Apply(c: Circuit, rules: seq<TripRule>, e: Event): Circuit {
    match e
    case Fed(outcome, at) => Advance(c, rules, outcome, at).circuit
    case Settled(at) => Settle(c, rules, at).circuit
    case Read(reading, at) => ApplyReading(c, rules, reading, at).circuit
  }

  /** The circuit after a whole history. */
  function Run(c: Circuit, rules: seq<TripRule>, events: seq<Event>): Circuit {
    if events == [] then c
    else Apply(Run(c, rules, events[..|events| - 1]), rules, events[|events| - 1])
  }

  lemma {:induction false} RunSplit(c: Circuit, rules: seq<TripRule>, before: seq<Event>, after: seq<Event>)
    ensures Run(c, rules, before + after) == Run(Run(c, rules, before), rules, after)
  {
    if after == [] {
      assert before + after == before;
    } else {
      var n := |after| - 1;
      assert (before + after)[..|before| + n] == before + after[..n];
      RunSplit(c, rules, before, after[..n]);
    }
  }

  /** The move an event makes, with the transition it reports. */
  function MoveOf(c: Circuit, rules: seq<TripRule>, e: Event): Moved {
    match e
    case Fed(outcome, at) => Advance(c, rules, outcome, at)
    case Settled(at) => Settle(c, rules, at)
    case Read(reading, at) => ApplyReading(c, rules, reading, at)
  }

  function Reported(t: Option<Transition>): seq<Transition> {
    if t.Some? then [t.value] else []
  }

  /** One lane's stored state, and the transitions it has emitted. */
  class Lane {
    var circuit: Circuit
    var reading: Option<QuotaReading>
    var emitted: seq<Transition>
    const rules: seq<TripRule>

    constructor (rules: seq<TripRule>)
      ensures circuit == FRESH && reading == None && emitted == [] && this.rules == rules
    {
      circuit, reading, emitted := FRESH, None, [];
      this.rules := rules;
    }

    /** `record_outcome`: settle first, then feed the outcome; both moves are
        emitted, and the second one is returned. */
    method RecordOutcome(outcome: Outcome, now: real) returns (transition: Option<Transition>)
      modifies this
      ensures circuit == Run(old(circuit), rules, [Settled(now), Fed(outcome, now)])
      ensures reading == old(reading)
      ensures var settled := MoveOf(old(circuit), rules, Settled(now));
              && transition == MoveOf(settled.circuit, rules, Fed(outcome, now)).transition
              && emitted == old(emitted) + Reported(settled.transition) + Reported(transition)
    {
      RunSplit(circuit, rules, [Settled(now)], [Fed(outcome, now)]);
      var settled := Settle(circuit, rules, now);
      if settled.transition.Some? {
        emitted := emitted + [settled.transition.value];
      }
      var moved := AdvanceCircuit(settled.circuit, rules, outcome, now);
      circuit := moved.circuit;
      transition := moved.transition;
      if transition.Some? {
        emitted := emitted + [transition.value];
      }
    }

    /** `record_reading`: settle first, then let the reading move the circuit;
        the reading is stored whatever it says. */
    method RecordReading(reading: QuotaReading, now: real) returns (transition: Option<Transition>)
      modifies this
      ensures circuit == Run(old(circuit), rules, [Settled(now), Read(reading, now)])
      ensures this.reading == Some(reading)
      ensures var settled := MoveOf(old(circuit), rules, Settled(now));
              && transition == MoveOf(settled.circuit, rules, Read(reading, now)).transition
              && emitted == old(emitted) + Reported(settled.transition) + Reported(transition)
    {
      RunSplit(circuit, rules, [Settled(now)], [Read(reading, now)]);
      var settled := Settle(circuit, rules, now);
      if settled.transition.Some? {
        emitted := emitted + [settled.transition.value];
      }
      var moved := ApplyReading(settled.circuit, rules, reading, now);
      circuit := moved.circuit;
      this.reading := Some(reading);
      transition := moved.transition;
      if transition.Some? {
        emitted := emitted + [transition.value];
      }
    }
  }
}
