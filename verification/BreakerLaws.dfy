/** What the lane breaker promises over whole histories. */
module BreakerLaws {
  import opened Text
  import opened Breaker

  // ------------------------------------------------------------ the declarative count

  /** The times of the trailing run of outcomes a rule counts: unclassified
      outcomes and settling are skipped, anything else the rule does not count
      ends the run. */
  function Trailing(events: seq<Event>, rule: TripRule): seq<real> {
    if events == [] then []
    else
      var rest := Trailing(events[..|events| - 1], rule);
      match events[|events| - 1]
      case Fed(o, at) =>
        if o.name == UNCLASSIFIED then rest
        else if o.name != OK && o.name in rule.on then rest + [at]
        else []
      case _ => rest
  }

  /** The part of a run that still lies inside the rule's window when its last outcome came. */
  function InWindow(times: seq<real>, rule: TripRule): seq<real> {
    if rule.window.None? || times == [] then times
    else After(times, times[|times| - 1] - rule.window.value)
  }

  /** How many outcomes count towards the rule's N. */
  function Count(events: seq<Event>, rule: TripRule): nat {
    |InWindow(Trailing(events, rule), rule)|
  }

  predicate DistinctNames(rules: seq<TripRule>) {
    forall i, j :: 0 <= i < j < |rules| ==> rules[i].name != rules[j].name
  }

  /** Outcomes and settling only; a reading that closes a circuit starts a new history. */
  predicate Plain(events: seq<Event>) {
    forall e :: e in events ==> !e.Read?
  }

  /** The clock never runs backwards between outcomes. */
  predicate Chronological(events: seq<Event>) {
    events == [] ||
    var n := |events| - 1;
    && Chronological(events[..n])
    && (events[n].Fed? ==> forall e :: e in events[..n] && e.Fed? ==> e.at <= events[n].at)
  }

  // ------------------------------------------------------------ readings as outcomes

  /** A first-party reading with quota to spare. */
  predicate Healthy(e: Event) {
    e.Read? && !e.reading.estimated && e.reading.unavailable == "" && ExhaustedWindow(e.reading.windows).None?
  }

  /** What a circuit hears: an exhausted reading is a quota outcome, and a
      reading that carries no state is one nobody could classify. */
  function Heard(e: Event): Event {
    match e
    case Read(reading, at) =>
      if reading.estimated || reading.unavailable != "" then Fed(Outcome(UNCLASSIFIED, None, ""), at)
      else (match ExhaustedWindow(reading.windows)
        case None => e
        case Some(out) =>
          Fed(Outcome(QUOTA_EXHAUSTED, out.resetsAt,
                      reading.source + " reports the " + out.name + " window at or over its cap"), at))
    case _ => e
  }

  function HeardAll(events: seq<Event>): (r: seq<Event>)
    ensures |r| == |events| && forall i :: 0 <= i < |r| ==> r[i] == Heard(events[i])
  {
    if events == [] then []
    else HeardAll(events[..|events| - 1]) + [Heard(events[|events| - 1])]
  }

  lemma HeardApplies(c: Circuit, rules: seq<TripRule>, e: Event)
    ensures Apply(c, rules, Heard(e)) == Apply(c, rules, e)
    ensures Heard(e).Read? <==> Healthy(e)
  {
  }

  lemma {:induction false} RunHeard(c: Circuit, rules: seq<TripRule>, events: seq<Event>)
    ensures Run(c, rules, HeardAll(events)) == Run(c, rules, events)
  {
    if events != [] {
      var n := |events| - 1;
      RunHeard(c, rules, events[..n]);
      HeardApplies(Run(c, rules, events[..n]), rules, events[n]);
      assert HeardAll(events)[..n] == HeardAll(events[..n]);
    }
  }

  // ------------------------------------------------------------ one outcome, many rules

  /** Moving the rules touches nothing but streaks and windows. */
  lemma {:induction false} MoveRulesKeepsState(c: Circuit, rules: seq<TripRule>, name: string, now: real)
    ensures MoveRules(c, rules, name, now).(streaks := c.streaks, windows := c.windows) == c
    decreases |rules|
  {
    if rules != [] { MoveRulesKeepsState(MoveRule(c, rules[0], name, now), rules[1..], name, now); }
  }

  /** What one outcome makes of one rule's own streak and window. */
  function NextTimes(times: seq<real>, rule: TripRule, name: string, now: real): seq<real> {
    if name in rule.on && rule.window.Some? then After(times + [now], now - rule.window.value) else []
  }

  function NextStreak(streak: int, times: seq<real>, rule: TripRule, name: string, now: real): int {
    if name !in rule.on then 0
    else if rule.window.Some? then |NextTimes(times, rule, name, now)|
    else streak + 1
  }

  lemma MoveRuleLocal(c: Circuit, rule: TripRule, name: string, now: real, key: string)
    ensures var next := MoveRule(c, rule, name, now);
            if key == rule.name then
              && next.Streak(key) == NextStreak(c.Streak(key), c.WindowTimes(key), rule, name, now)
              && next.WindowTimes(key) == NextTimes(c.WindowTimes(key), rule, name, now)
            else
              && next.Streak(key) == c.Streak(key)
              && next.WindowTimes(key) == c.WindowTimes(key)
  {
  }

  lemma {:induction false} MoveRulesElsewhere(c: Circuit, rules: seq<TripRule>, name: string, now: real, key: string)
    requires forall r :: r in rules ==> r.name != key
    ensures MoveRules(c, rules, name, now).Streak(key) == c.Streak(key)
    ensures MoveRules(c, rules, name, now).WindowTimes(key) == c.WindowTimes(key)
    decreases |rules|
  {
    if rules != [] {
      assert rules[0].name != key;
      MoveRuleLocal(c, rules[0], name, now, key);
      MoveRulesElsewhere(MoveRule(c, rules[0], name, now), rules[1..], name, now, key);
    }
  }

  /** With distinct names each rule moves as if it were alone. */
  lemma {:induction false} MoveRulesAt(c: Circuit, rules: seq<TripRule>, k: nat, name: string, now: real)
    requires k < |rules| && DistinctNames(rules)
    ensures var rule := rules[k];
            var moved := MoveRules(c, rules, name, now);
            var times := c.WindowTimes(rule.name);
            && moved.Streak(rule.name) == NextStreak(c.Streak(rule.name), times, rule, name, now)
            && moved.WindowTimes(rule.name) == NextTimes(times, rule, name, now)
    decreases |rules|
  {
    var next := MoveRule(c, rules[0], name, now);
    MoveRuleLocal(c, rules[0], name, now, rules[k].name);
    if k == 0 {
      MoveRulesElsewhere(next, rules[1..], name, now, rules[0].name);
    } else {
      assert rules[1..][k - 1] == rules[k];
      MoveRulesAt(next, rules[1..], k - 1, name, now);
    }
  }

  lemma TrippedKeepsCounts(c: Circuit, moved: Circuit, rule: TripRule, o: Outcome, now: real)
    ensures var next := Tripped(c, moved, rule, o, now).circuit;
            next.streaks == moved.streaks && next.windows == moved.windows
  {
  }

  /** An outcome settles the streaks and windows before any trip is decided. */
  lemma AdvanceCounts(c: Circuit, rules: seq<TripRule>, o: Outcome, now: real)
    ensures var next := Advance(c, rules, o, now).circuit;
            var moved := if o.name == UNCLASSIFIED then c
                         else if o.name == OK then c.(streaks := map[], windows := map[])
                         else MoveRules(c, rules, o.name, now);
            next.streaks == moved.streaks && next.windows == moved.windows
  {
    var moved := MoveRules(c, rules, o.name, now);
    var first := FirstTripped(moved, rules, o.name);
    if first.Some? {
      TrippedKeepsCounts(c, moved, first.value, o, now);
    }
  }

  // ------------------------------------------------------------ pruning

  lemma {:induction false} AfterAppend(a: seq<real>, b: seq<real>, cutoff: real)
    ensures After(a + b, cutoff) == After(a, cutoff) + After(b, cutoff)
  {
    if a == [] {
      assert a + b == b;
    } else {
      assert (a + b)[1..] == a[1..] + b;
      AfterAppend(a[1..], b, cutoff);
    }
  }

  /** Pruning early and pruning again later is pruning once, later. */
  lemma {:induction false} AfterTwice(times: seq<real>, early: real, late: real)
    requires early <= late
    ensures After(After(times, early), late) == After(times, late)
  {
    if times != [] {
      AfterTwice(times[1..], early, late);
      var kept := After(times[1..], early);
      if times[0] > early {
        assert ([times[0]] + kept)[1..] == kept;
      } else {
        assert [] + kept == kept;
      }
    }
  }

  lemma {:induction false} TrailingBound(events: seq<Event>, rule: TripRule, bound: real)
    requires forall e :: e in events && e.Fed? ==> e.at <= bound
    ensures forall t :: t in Trailing(events, rule) ==> t <= bound
  {
    if events != [] {
      assert events[|events| - 1] in events;
      TrailingBound(events[..|events| - 1], rule, bound);
    }
  }

  // ------------------------------------------------------------ incremental refines declarative

  /** The circuit's streak and window for `rule` are what the history says they are. */
  predicate Tracks(c: Circuit, events: seq<Event>, rule: TripRule) {
    && c.Streak(rule.name) == Count(events, rule)
    && c.WindowTimes(rule.name) == Kept(events, rule)
  }

  lemma PruneEarlyToo(run: seq<real>, at: real, early: real, late: real)
    requires early <= late
    ensures After(After(run, early) + [at], late) == After(run + [at], late)
  {
    AfterAppend(After(run, early), [at], late);
    AfterAppend(run, [at], late);
    AfterTwice(run, early, late);
  }

  /** One more outcome extends the pruned run the way it extends the whole run. */
  lemma PruneStep(run: seq<real>, width: real, at: real)
    requires forall t :: t in run ==> t <= at
    ensures var pruned := if run == [] then [] else After(run, run[|run| - 1] - width);
            After(pruned + [at], at - width) == After(run + [at], at - width)
  {
    if run != [] {
      var last := run[|run| - 1];
      assert last in run;
      PruneEarlyToo(run, at, last - width, at - width);
    }
  }

  /** The window a rule keeps: its pruned run, or nothing without a window. */
  function Kept(events: seq<Event>, rule: TripRule): seq<real> {
    if rule.window.Some? then InWindow(Trailing(events, rule), rule) else []
  }

  /** One more outcome moves a rule's counts the way it moves the history's run. */
  lemma CountStep(events: seq<Event>, e: Event, rule: TripRule)
    requires e.Fed? && e.outcome.name != UNCLASSIFIED && e.outcome.name != OK
    requires forall x :: x in events && x.Fed? ==> x.at <= e.at
    ensures NextTimes(Kept(events, rule), rule, e.outcome.name, e.at) == Kept(events + [e], rule)
    ensures NextStreak(Count(events, rule), Kept(events, rule), rule, e.outcome.name, e.at) == Count(events + [e], rule)
  {
    assert (events + [e])[..|events|] == events;
    if e.outcome.name in rule.on && rule.window.Some? {
      TrailingBound(events, rule, e.at);
      PruneStep(Trailing(events, rule), rule.window.value, e.at);
    }
  }

  /** An outcome the rules look at moves each rule's counts the way it moves the run. */
  lemma TracksMove(c: Circuit, rules: seq<TripRule>, k: nat, events: seq<Event>, e: Event)
    requires k < |rules| && DistinctNames(rules) && e.Fed? && e.outcome.name != UNCLASSIFIED && e.outcome.name != OK
    requires forall x :: x in events && x.Fed? ==> x.at <= e.at
    requires Tracks(c, events, rules[k])
    ensures Tracks(MoveRules(c, rules, e.outcome.name, e.at), events + [e], rules[k])
  {
    MoveRulesAt(c, rules, k, e.outcome.name, e.at);
    CountStep(events, e, rules[k]);
  }

  lemma TracksStep(c: Circuit, rules: seq<TripRule>, k: nat, events: seq<Event>, e: Event)
    requires k < |rules| && DistinctNames(rules) && !e.Read?
    requires e.Fed? ==> forall x :: x in events && x.Fed? ==> x.at <= e.at
    requires Tracks(c, events, rules[k])
    ensures Tracks(Apply(c, rules, e), events + [e], rules[k])
  {
    assert (events + [e])[..|events|] == events;
    if e.Fed? {
      AdvanceCounts(c, rules, e.outcome, e.at);
      if e.outcome.name != UNCLASSIFIED && e.outcome.name != OK {
        TracksMove(c, rules, k, events, e);
      }
    }
  }

  /** The incremental streak and window of every rule are its trailing run,
      filtered once to the window, for every interleaving of outcomes and settling. */
  lemma {:induction false} StreakIsTrailingRun(rules: seq<TripRule>, events: seq<Event>, k: nat)
    requires k < |rules| && DistinctNames(rules) && Plain(events) && Chronological(events)
    ensures Tracks(Run(FRESH, rules, events), events, rules[k])
  {
    if events != [] {
      var n := |events| - 1;
      StreakIsTrailingRun(rules, events[..n], k);
      assert events == events[..n] + [events[n]];
      TracksStep(Run(FRESH, rules, events[..n]), rules, k, events[..n], events[n]);
    }
  }

  /** The same with quota readings in between, as long as none is a healthy one:
      an exhausted reading counts as the quota outcome it reports. */
  lemma StreakCountsReadings(rules: seq<TripRule>, events: seq<Event>, k: nat)
    requires k < |rules| && DistinctNames(rules) && Chronological(HeardAll(events))
    requires forall e :: e in events ==> !Healthy(e)
    ensures Tracks(Run(FRESH, rules, events), HeardAll(events), rules[k])
  {
    OnlyHeard(rules, events);
    StreakIsTrailingRun(rules, HeardAll(events), k);
    RunHeard(FRESH, rules, events);
  }

  // ------------------------------------------------------------ exact trips

  /** An outcome the rules look at leaves a circuit closed only if no rule has reached its N. */
  lemma ClosedByNoTrip(c: Circuit, rules: seq<TripRule>, o: Outcome, now: real, rule: TripRule)
    requires o.name != UNCLASSIFIED && o.name != OK && rule in rules && rule.consecutive >= 1
    requires Advance(c, rules, o, now).circuit.state == Closed
    ensures o.name in rule.on ==> Advance(c, rules, o, now).circuit.Streak(rule.name) < rule.consecutive
  {
    MoveRulesKeepsState(c, rules, o.name, now);
  }

  lemma SkippedCount(events: seq<Event>, e: Event, rule: TripRule)
    requires e.Settled? || (e.Fed? && e.outcome.name == UNCLASSIFIED)
    ensures Count(events + [e], rule) == Count(events, rule)
  {
    assert (events + [e])[..|events|] == events;
  }

  lemma EndedCount(events: seq<Event>, e: Event, rule: TripRule)
    requires e.Fed? && e.outcome.name != UNCLASSIFIED && (e.outcome.name == OK || e.outcome.name !in rule.on)
    ensures Count(events + [e], rule) == 0
  {
    assert (events + [e])[..|events|] == events;
  }

  /** A closed circuit is one in which no rule's run has reached its N. */
  lemma {:induction false} ClosedMeansBelow(rules: seq<TripRule>, events: seq<Event>, k: nat)
    requires k < |rules| && DistinctNames(rules) && Plain(events) && Chronological(events)
    requires forall r :: r in rules ==> r.consecutive >= 1
    requires Run(FRESH, rules, events).state == Closed
    ensures Count(events, rules[k]) < rules[k].consecutive
  {
    assert rules[k] in rules;
    if events != [] {
      var n := |events| - 1;
      var rest, e := events[..n], events[n];
      assert events == rest + [e] && e in events;
      if e.Settled? || e.outcome.name == UNCLASSIFIED {
        SkippedCount(rest, e, rules[k]);
        ClosedMeansBelow(rules, rest, k);
      } else if e.outcome.name == OK || e.outcome.name !in rules[k].on {
        EndedCount(rest, e, rules[k]);
      } else {
        StreakIsTrailingRun(rules, events, k);
        ClosedByNoTrip(Run(FRESH, rules, rest), rules, e.outcome, e.at, rules[k]);
      }
    }
  }

  /** The first rule in order whose run has reached its N. */
  predicate FirstReached(rules: seq<TripRule>, events: seq<Event>, k: int) {
    && 0 <= k < |rules| && Count(events, rules[k]) >= rules[k].consecutive
    && forall j :: 0 <= j < k ==> Count(events, rules[j]) < rules[j].consecutive
  }

  lemma OutcomeTrips(rules: seq<TripRule>, events: seq<Event>, outcome: Outcome, at: real)
    requires DistinctNames(rules) && forall r :: r in rules ==> r.consecutive >= 1
    requires Plain(events) && Chronological(events + [Fed(outcome, at)])
    requires Run(FRESH, rules, events).state == Closed
    ensures var all := events + [Fed(outcome, at)];
            var after := Run(FRESH, rules, all);
            && (after.state == Open <==> exists k :: FirstReached(rules, all, k))
            && (after.state == Open ==> exists k :: FirstReached(rules, all, k) && after.rule == rules[k].name)
  {
    var all := events + [Fed(outcome, at)];
    assert all[..|events|] == events;
    var c := Run(FRESH, rules, events);
    var after := Run(FRESH, rules, all);
    assert after == Advance(c, rules, outcome, at).circuit;
    forall k | 0 <= k < |rules|
      ensures after.Streak(rules[k].name) == Count(all, rules[k])
      ensures outcome.name !in rules[k].on || outcome.name in {OK, UNCLASSIFIED} ==>
                Count(all, rules[k]) < rules[k].consecutive
    {
      assert rules[k] in rules;
      StreakIsTrailingRun(rules, all, k);
      ClosedMeansBelow(rules, events, k);
    }
    if outcome.name !in {OK, UNCLASSIFIED} {
      TripOnReached(c, rules, outcome, at, all);
    }
  }

  /** The deciding loop, read against the declarative counts. */
  lemma TripOnReached(c: Circuit, rules: seq<TripRule>, outcome: Outcome, at: real, all: seq<Event>)
    requires c.state == Closed && outcome.name !in {OK, UNCLASSIFIED}
    requires var after := Advance(c, rules, outcome, at).circuit;
             forall k :: 0 <= k < |rules| ==>
               && after.Streak(rules[k].name) == Count(all, rules[k])
               && (outcome.name !in rules[k].on ==> Count(all, rules[k]) < rules[k].consecutive)
    ensures var after := Advance(c, rules, outcome, at).circuit;
            && (after.state == Open <==> exists k :: FirstReached(rules, all, k))
            && (after.state == Open ==> exists k :: FirstReached(rules, all, k) && after.rule == rules[k].name)
  {
    var after := Advance(c, rules, outcome, at).circuit;
    var moved := MoveRules(c, rules, outcome.name, at);
    MoveRulesKeepsState(c, rules, outcome.name, at);
    AdvanceCounts(c, rules, outcome, at);
    assert forall key :: after.Streak(key) == moved.Streak(key);
    var first := FirstTripped(moved, rules, outcome.name);
    if first.Some? {
      var k := FirstTrippedIsFirst(moved, rules, outcome.name);
      assert FirstReached(rules, all, k);
    } else {
      forall k | 0 <= k < |rules| ensures Count(all, rules[k]) < rules[k].consecutive {
        assert rules[k] in rules;
      }
    }
  }

  lemma {:induction false} FirstTrippedIsFirst(moved: Circuit, rules: seq<TripRule>, name: string) returns (k: nat)
    requires FirstTripped(moved, rules, name).Some?
    ensures k < |rules| && rules[k] == FirstTripped(moved, rules, name).value
    ensures forall j :: 0 <= j < k && name in rules[j].on ==>
                          moved.Streak(rules[j].name) < rules[j].consecutive
  {
    if name in rules[0].on && moved.Streak(rules[0].name) >= rules[0].consecutive {
      k := 0;
    } else {
      var rest := FirstTrippedIsFirst(moved, rules[1..], name);
      k := rest + 1;
      forall j | 0 <= j < k && name in rules[j].on
        ensures moved.Streak(rules[j].name) < rules[j].consecutive
      {
        if j > 0 { assert rules[1..][j - 1] == rules[j]; }
      }
    }
  }

  lemma OnlyHeard(rules: seq<TripRule>, events: seq<Event>)
    requires forall e :: e in events ==> !Healthy(e)
    ensures Plain(HeardAll(events))
  {
    forall e | e in HeardAll(events) ensures !e.Read? {
      var i :| 0 <= i < |events| && HeardAll(events)[i] == e;
      assert events[i] in events;
      HeardApplies(FRESH, rules, events[i]);
    }
  }

  lemma SettlingTripsNothing(rules: seq<TripRule>, heard: seq<Event>, e: Event)
    requires DistinctNames(rules) && forall r :: r in rules ==> r.consecutive >= 1
    requires Plain(heard) && Chronological(heard) && e.Settled? && Run(FRESH, rules, heard).state == Closed
    ensures Run(FRESH, rules, heard + [e]).state == Closed && !exists k :: FirstReached(rules, heard + [e], k)
  {
    assert (heard + [e])[..|heard|] == heard;
    forall k | 0 <= k < |rules| ensures !FirstReached(rules, heard + [e], k) {
      SkippedCount(heard, e, rules[k]);
      ClosedMeansBelow(rules, heard, k);
    }
  }

  /** After any history of outcomes, settling and readings short of a healthy one,
      one more such event opens a closed circuit exactly when some rule's run of
      what was heard reaches its N there, and it names the first such rule in order. */
  lemma TripExactly(rules: seq<TripRule>, events: seq<Event>, e: Event)
    requires DistinctNames(rules) && forall r :: r in rules ==> r.consecutive >= 1
    requires (forall x :: x in events ==> !Healthy(x)) && !Healthy(e) && Chronological(HeardAll(events + [e]))
    requires Run(FRESH, rules, events).state == Closed
    ensures var all := HeardAll(events + [e]);
            var after := Run(FRESH, rules, events + [e]);
            && (after.state == Open <==> exists k :: FirstReached(rules, all, k))
            && (after.state == Open ==> exists k :: FirstReached(rules, all, k) && after.rule == rules[k].name)
  {
    var heard, last := HeardAll(events), Heard(e);
    assert (events + [e])[..|events|] == events;
    assert HeardAll(events + [e]) == heard + [last];
    OnlyHeard(rules, events);
    HeardApplies(FRESH, rules, e);
    RunHeard(FRESH, rules, events);
    RunHeard(FRESH, rules, events + [e]);
    assert (heard + [last])[..|heard|] == heard;
    if last.Fed? {
      OutcomeTrips(rules, heard, last.outcome, last.at);
    } else {
      SettlingTripsNothing(rules, heard, last);
    }
  }

  // ------------------------------------------------------------ transitions

  /** A transition is reported exactly when the state, the rule or the reset time
      changes, and it names both ends and the rule that moved them. */
  predicate Reports(c: Circuit, m: Moved) {
    var d := m.circuit;
    && (m.transition.None? <==> d.state == c.state && d.rule == c.rule && d.resetAt == c.resetAt)
    && (m.transition.Some? ==>
          var t := m.transition.value;
          && t.fromState == c.state && t.toState == d.state
          && t.rule == (if d.state == Closed then c.rule else d.rule)
          && (d.state == Open ==> t.resetAt == d.resetAt && t.escalates == d.escalated))
  }

  lemma AdvanceReports(c: Circuit, rules: seq<TripRule>, o: Outcome, now: real)
    ensures Reports(c, Advance(c, rules, o, now))
  {
    var moved := MoveRules(c, rules, o.name, now);
    MoveRulesKeepsState(c, rules, o.name, now);
    var first := FirstTripped(moved, rules, o.name);
    if o.name !in {OK, UNCLASSIFIED} && first.Some? {
      TripReports(c, moved, first.value, o, now);
    }
  }

  lemma TripReports(c: Circuit, moved: Circuit, rule: TripRule, o: Outcome, now: real)
    requires moved.(streaks := c.streaks, windows := c.windows) == c
    ensures Reports(c, Tripped(c, moved, rule, o, now))
  {
  }

  lemma SettleReports(c: Circuit, rules: seq<TripRule>, now: real)
    ensures Reports(c, Settle(c, rules, now))
  {
  }

  lemma ReadingReports(c: Circuit, rules: seq<TripRule>, reading: QuotaReading, now: real)
    ensures Reports(c, ApplyReading(c, rules, reading, now))
  {
    var out := ExhaustedWindow(reading.windows);
    if out.Some? {
      AdvanceReports(c, rules, Outcome(QUOTA_EXHAUSTED, out.value.resetsAt,
        reading.source + " reports the " + out.value.name + " window at or over its cap"), now);
    }
  }

  /** Over any history, no move is silent and nothing is reported that did not move. */
  lemma TransitionsReportChanges(rules: seq<TripRule>, before: seq<Event>, e: Event)
    ensures var c := Run(FRESH, rules, before);
            Reports(c, MoveOf(c, rules, e)) && MoveOf(c, rules, e).circuit == Run(FRESH, rules, before + [e])
  {
    var c := Run(FRESH, rules, before);
    assert (before + [e])[..|before|] == before;
    match e
    case Fed(outcome, at) => AdvanceReports(c, rules, outcome, at);
    case Settled(at) => SettleReports(c, rules, at);
    case Read(reading, at) => ReadingReports(c, rules, reading, at);
  }

  // ------------------------------------------------------------ escalation

  /** No rule both waits for a human and resets by itself; the lane rules qualify. */
  predicate EscalationNeverTimed(rules: seq<TripRule>) {
    forall r :: r in rules ==> !(r.escalates && r.autoReset)
  }

  lemma LaneRulesQualify()
    ensures EscalationNeverTimed(LANE_RULES) && DistinctNames(LANE_RULES)
    ensures forall r :: r in LANE_RULES ==> r.consecutive >= 1
  {
  }

  predicate Held(c: Circuit) {
    c.state == Open && c.escalated && c.resetAt.None?
  }

  /** An escalated circuit in any history carries no reset time. */
  lemma {:induction false} EscalatedIsHeld(rules: seq<TripRule>, events: seq<Event>)
    requires EscalationNeverTimed(rules)
    ensures var c := Run(FRESH, rules, events);
            c.escalated ==> c.resetAt.None?
  {
    if events != [] {
      var n := |events| - 1;
      EscalatedIsHeld(rules, events[..n]);
      var c, e := Run(FRESH, rules, events[..n]), Heard(events[n]);
      HeardApplies(c, rules, events[n]);
      if e.Fed? { MoveRulesKeepsState(c, rules, e.outcome.name, e.at); }
    }
  }

  lemma {:induction false} HeldStays(c: Circuit, rules: seq<TripRule>, events: seq<Event>)
    requires EscalationNeverTimed(rules) && Held(c)
    requires forall e :: e in events ==> !Healthy(e)
    ensures Held(Run(c, rules, events))
  {
    if events != [] {
      var n := |events| - 1;
      HeldStays(c, rules, events[..n]);
      var d, e := Run(c, rules, events[..n]), Heard(events[n]);
      assert events[n] in events;
      HeardApplies(d, rules, events[n]);
      if e.Fed? { MoveRulesKeepsState(d, rules, e.outcome.name, e.at); }
    }
  }

  /** Once any history has left a lane open and escalated, no outcome, no passage
      of time and no reading short of a healthy one closes it or drops the escalation. */
  lemma EscalationStands(rules: seq<TripRule>, before: seq<Event>, after: seq<Event>)
    requires EscalationNeverTimed(rules) && forall e :: e in after ==> !Healthy(e)
    requires var c := Run(FRESH, rules, before); c.state == Open && c.escalated
    ensures var c := Run(FRESH, rules, before + after); c.state == Open && c.escalated
  {
    EscalatedIsHeld(rules, before);
    HeldStays(Run(FRESH, rules, before), rules, after);
    RunSplit(FRESH, rules, before, after);
  }

  // ------------------------------------------------------------ no invented wait

  /** The reset time an open circuit waits for was published by the outcome or
      the reading that opened it. */
  ghost predicate Published(events: seq<Event>, i: int, c: Circuit) {
    && 0 <= i < |events| && Heard(events[i]).Fed?
    && Heard(events[i]).outcome.resetAt == c.resetAt && Heard(events[i]).at == c.openedAt
  }

  /** Settling at or after a reset published before it. */
  ghost predicate WaitedOut(events: seq<Event>, i: int, j: int, c: Circuit) {
    && Published(events, i, c) && i < j < |events|
    && c.resetAt.Some? && events[j].Settled? && events[j].at >= c.resetAt.value
  }

  /** Over every history, a wait is one that an outcome or a reading published,
      and half-open is reached only by settling at or after it. */
  lemma {:induction false} ResetIsPublished(rules: seq<TripRule>, events: seq<Event>)
    ensures var c := Run(FRESH, rules, events);
            c.resetAt.Some? ==> exists i :: Published(events, i, c)
    ensures var c := Run(FRESH, rules, events);
            c.state == HalfOpen ==> exists i, j :: WaitedOut(events, i, j, c)
  {
    if events != [] {
      var n := |events| - 1;
      var rest, e := events[..n], Heard(events[n]);
      ResetIsPublished(rules, rest);
      var c, d := Run(FRESH, rules, rest), Run(FRESH, rules, events);
      HeardApplies(c, rules, events[n]);
      StepPublishes(c, rules, e);
      if d.resetAt == c.resetAt && d.openedAt == c.openedAt {
        if c.resetAt.Some? {
          var i :| Published(rest, i, c);
          assert Published(events, i, d);
          if d.state == HalfOpen && c.state != HalfOpen { assert WaitedOut(events, i, n, d); }
        }
        if c.state == HalfOpen && d.state == HalfOpen {
          var i, j :| WaitedOut(rest, i, j, c);
          assert Published(events, i, d);
          assert WaitedOut(events, i, j, d);
        }
      } else if d.resetAt.Some? {
        assert Published(events, n, d);
      }
    }
  }

  /** One event either keeps the wait, or opens with the wait it published, or drops it. */
  lemma StepPublishes(c: Circuit, rules: seq<TripRule>, e: Event)
    ensures var d := Apply(c, rules, Heard(e));
            || (d.resetAt == c.resetAt && d.openedAt == c.openedAt
                && (d.state == HalfOpen && c.state != HalfOpen ==>
                      c.resetAt.Some? && Heard(e).Settled? && Heard(e).at >= c.resetAt.value))
            || (d.state != HalfOpen
                && (d.resetAt.Some? ==>
                       Heard(e).Fed? && Heard(e).outcome.resetAt == d.resetAt && Heard(e).at == d.openedAt))
  {
    var h := Heard(e);
    if h.Fed? { MoveRulesKeepsState(c, rules, h.outcome.name, h.at); }
  }
}
