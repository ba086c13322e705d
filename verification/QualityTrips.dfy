/** Who may clear a held lane: how long a quality trip stands, and exactly when
    an escalated lane is closed without a human. */
module QualityTrips {
  import opened Text
  import opened Breaker
  import opened BreakerLaws

  // ------------------------------------------------------------ quality trips

  predicate OpenOnQuality(c: Circuit) {
    c.state == Open && c.rule == QUALITY_RULE.name && c.escalated && c.resetAt.None?
  }

  /** The whole record of why a lane is open, without the running counts. */
  function Record(c: Circuit): Circuit {
    c.(streaks := map[], windows := map[])
  }

  /** Provider having quota says nothing about whether what it returns is right:
      no quota reading moves an open quality trip. */
  lemma ReadingLeavesQualityTrip(c: Circuit, reading: QuotaReading, now: real)
    requires OpenOnQuality(c)
    ensures Record(ApplyReading(c, LANE_RULES, reading, now).circuit) == Record(c)
    ensures ApplyReading(c, LANE_RULES, reading, now).transition.None?
  {
    if !reading.estimated && reading.unavailable == "" {
      var out := ExhaustedWindow(reading.windows);
      if out.Some? {
        QuotaOutcomeLeavesQualityTrip(c, out.value.resetsAt, reading, out.value.name, now);
      }
    }
  }

  lemma QuotaOutcomeLeavesQualityTrip(c: Circuit, resetAt: Option<real>, reading: QuotaReading, window: string,
                                      now: real)
    requires OpenOnQuality(c)
    ensures var o := Outcome(QUOTA_EXHAUSTED, resetAt,
                             reading.source + " reports the " + window + " window at or over its cap");
            var r := Advance(c, LANE_RULES, o, now);
            Record(r.circuit) == Record(c) && r.transition.None?
  {
    MoveRulesKeepsState(c, LANE_RULES, QUOTA_EXHAUSTED, now);
  }

  /** The streak of provider errors after one more event. */
  function ProviderErrors(streak: int, e: Event): int {
    match e
    case Fed(o, _) =>
      if o.name == UNCLASSIFIED then streak else if o.name == PROVIDER_ERROR then streak + 1 else 0
    case Settled(_) => streak
    case Read(reading, _) =>
      if reading.estimated || reading.unavailable != "" || ExhaustedWindow(reading.windows).None? then streak else 0
  }

  /** One event keeps an open quality trip a quality trip exactly when it does
      not bring the provider-error streak to three. */
  lemma QualityTripStep(c: Circuit, e: Event)
    requires OpenOnQuality(c)
    ensures var d := Apply(c, LANE_RULES, e);
            var errors := ProviderErrors(c.Streak(PROVIDER_ERROR_RULE.name), e);
            && d.Streak(PROVIDER_ERROR_RULE.name) == errors
            && (OpenOnQuality(d) <==> errors < CONSECUTIVE_N || errors == c.Streak(PROVIDER_ERROR_RULE.name))
  {
    match e {
      case Fed(o, at) =>
        LaneRulesQualify();
        MoveRulesKeepsState(c, LANE_RULES, o.name, at);
        MoveRulesAt(c, LANE_RULES, 1, o.name, at);
        AdvanceCounts(c, LANE_RULES, o, at);
      case Settled(_) =>
      case Read(reading, at) =>
        ReadingLeavesQualityTrip(c, reading, at);
        LaneRulesQualify();
        MoveRulesAt(c, LANE_RULES, 1, QUOTA_EXHAUSTED, at);
        var out := ExhaustedWindow(reading.windows);
        if out.Some? {
          AdvanceCounts(c, LANE_RULES, Outcome(QUOTA_EXHAUSTED, out.value.resetsAt,
            reading.source + " reports the " + out.value.name + " window at or over its cap"), at);
        }
    }
  }

  /** The provider-error streak after a history that starts at `streak`. */
  function ErrorRun(streak: int, events: seq<Event>): int {
    if events == [] then streak
    else ProviderErrors(ErrorRun(streak, events[..|events| - 1]), events[|events| - 1])
  }

  /** At every point of the history the lane is still open on quality. */
  ghost predicate QualityThroughout(c: Circuit, events: seq<Event>) {
    forall n :: 0 <= n <= |events| ==> OpenOnQuality(Run(c, LANE_RULES, events[..n]))
  }

  ghost predicate ErrorsStayBelow(streak: int, events: seq<Event>) {
    forall n :: 0 <= n <= |events| ==> ErrorRun(streak, events[..n]) < CONSECUTIVE_N
  }

  /** The promise that only a human clears a quality trip holds for exactly the
      histories in which three provider errors never come in a row: the third
      one relabels the trip as an availability trip. */
  lemma {:induction false} QualityTripExactly(c: Circuit, events: seq<Event>)
    requires OpenOnQuality(c) && c.Streak(PROVIDER_ERROR_RULE.name) < CONSECUTIVE_N
    ensures QualityThroughout(c, events) <==> ErrorsStayBelow(c.Streak(PROVIDER_ERROR_RULE.name), events)
    ensures QualityThroughout(c, events) ==>
              Run(c, LANE_RULES, events).Streak(PROVIDER_ERROR_RULE.name) ==
              ErrorRun(c.Streak(PROVIDER_ERROR_RULE.name), events)
  {
    var streak := c.Streak(PROVIDER_ERROR_RULE.name);
    if events == [] {
      assert events[..0] == events;
    } else {
      var m := |events| - 1;
      var rest := events[..m];
      QualityTripExactly(c, rest);
      assert forall n :: 0 <= n <= m ==> rest[..n] == events[..n];
      assert events[..m + 1] == events;
      assert QualityThroughout(c, events) ==> QualityThroughout(c, rest);
      assert ErrorsStayBelow(streak, events) ==> ErrorsStayBelow(streak, rest);
      if QualityThroughout(c, rest) {
        var d := Run(c, LANE_RULES, rest);
        assert rest[..m] == rest;
        assert OpenOnQuality(d) && ErrorRun(streak, rest) < CONSECUTIVE_N;
        QualityTripStep(d, events[m]);
        QualityGrows(c, rest, events);
        ErrorsGrow(streak, rest, events);
      }
    }
  }

  lemma QualityGrows(c: Circuit, rest: seq<Event>, events: seq<Event>)
    requires |events| == |rest| + 1 && events[..|rest|] == rest && QualityThroughout(c, rest)
    ensures QualityThroughout(c, events) <==> OpenOnQuality(Run(c, LANE_RULES, events))
  {
    assert events[..|events|] == events;
    forall n | 0 <= n <= |rest| ensures OpenOnQuality(Run(c, LANE_RULES, events[..n])) {
      assert events[..n] == rest[..n];
    }
  }

  lemma ErrorsGrow(streak: int, rest: seq<Event>, events: seq<Event>)
    requires |events| == |rest| + 1 && events[..|rest|] == rest && ErrorsStayBelow(streak, rest)
    ensures ErrorsStayBelow(streak, events) <==> ErrorRun(streak, events) < CONSECUTIVE_N
  {
    assert events[..|events|] == events;
    forall n | 0 <= n <= |rest| ensures ErrorRun(streak, events[..n]) < CONSECUTIVE_N {
      assert events[..n] == rest[..n];
    }
  }

  lemma Run4(c: Circuit, rules: seq<TripRule>, a: Event, b: Event)
    ensures Run(c, rules, [a, a, a, b]) ==
            Apply(Apply(Apply(Apply(c, rules, a), rules, a), rules, a), rules, b)
  {
    RunSplit(c, rules, [a, a, a], [b]);
    RunSplit(c, rules, [a, a], [a]);
    RunSplit(c, rules, [a], [a]);
    assert [a, a, a] + [b] == [a, a, a, b] && [a, a] + [a] == [a, a, a] && [a] + [a] == [a, a];
    assert forall d, e :: Run(d, rules, [e]) == Apply(d, rules, e) by {
      forall d, e ensures Run(d, rules, [e]) == Apply(d, rules, e) { assert [e][..0] == []; }
    }
  }

  /** A provider error that reaches N takes over an escalated quality trip. */
  lemma ThirdErrorRelabels(c: Circuit, o: Outcome, at: real)
    requires OpenOnQuality(c) && o.name == PROVIDER_ERROR && c.Streak(PROVIDER_ERROR_RULE.name) == CONSECUTIVE_N - 1
    ensures var d := Advance(c, LANE_RULES, o, at).circuit;
            d.state == Open && d.rule == PROVIDER_ERROR_RULE.name
  {
    LaneRulesQualify();
    MoveRulesAt(c, LANE_RULES, 1, o.name, at);
  }

  /** Two provider errors leave the quality trip where it is, one short of the third. */
  lemma TwoErrors(c: Circuit, error: Event)
    requires OpenOnQuality(c) && c.Streak(PROVIDER_ERROR_RULE.name) == 0
    requires error.Fed? && error.outcome.name == PROVIDER_ERROR
    ensures var two := Apply(Apply(c, LANE_RULES, error), LANE_RULES, error);
            OpenOnQuality(two) && two.Streak(PROVIDER_ERROR_RULE.name) == CONSECUTIVE_N - 1
  {
    QualityTripStep(c, error);
    QualityTripStep(Apply(c, LANE_RULES, error), error);
  }

  lemma HealthyCloses(c: Circuit, reading: Event)
    requires c.state == Open && c.rule == PROVIDER_ERROR_RULE.name && Healthy(reading)
    ensures Apply(c, LANE_RULES, reading) == FRESH
  {
  }

  /** A lane open on quality heals itself: three provider errors, then one
      healthy quota reading, close it, and no human was asked. */
  lemma QualityTripCanHealItself(c: Circuit, error: Event, reading: Event)
    requires OpenOnQuality(c) && c.Streak(PROVIDER_ERROR_RULE.name) == 0
    requires error.Fed? && error.outcome.name == PROVIDER_ERROR && Healthy(reading)
    ensures Run(c, LANE_RULES, [error, error, error, reading]) == FRESH
  {
    Run4(c, LANE_RULES, error, reading);
    TwoErrors(c, error);
    var two := Apply(Apply(c, LANE_RULES, error), LANE_RULES, error);
    ThirdErrorRelabels(two, error.outcome, error.at);
    HealthyCloses(Apply(two, LANE_RULES, error), reading);
  }

  // ------------------------------------------------------------ who clears a held lane

  /** What a held lane is open on, and the two running counts that can change it. */
  datatype Label = Label(rule: string, errors: int, failures: int)

  /** The label after one more event: the third provider error in a row names
      the lane after the errors, and the third quality failure after the quality rule. */
  function Relabel(l: Label, e: Event): Label {
    match Heard(e)
    case Fed(o, _) =>
      if o.name == UNCLASSIFIED then l
      else if o.name in PROVIDER_ERROR_RULE.on then
        Label(if l.errors + 1 >= CONSECUTIVE_N then PROVIDER_ERROR_RULE.name else l.rule, l.errors + 1, 0)
      else if o.name in QUALITY_RULE.on then
        Label(if l.failures + 1 >= CONSECUTIVE_N then QUALITY_RULE.name else l.rule, 0, l.failures + 1)
      else Label(l.rule, 0, 0)
    case _ => l
  }

  function LabelAfter(l: Label, events: seq<Event>): Label {
    if events == [] then l else Relabel(LabelAfter(l, events[..|events| - 1]), events[|events| - 1])
  }

  function LabelOf(c: Circuit): Label {
    Label(c.rule, c.Streak(PROVIDER_ERROR_RULE.name), c.Streak(QUALITY_RULE.name))
  }

  /** Open and escalated on one of the two rules that escalate. */
  predicate HeldOnLabel(c: Circuit) {
    Held(c) && c.rule in {PROVIDER_ERROR_RULE.name, QUALITY_RULE.name}
  }

  /** The reading that closes a held lane. */
  predicate Clears(l: Label, e: Event) {
    Healthy(e) && l.rule == PROVIDER_ERROR_RULE.name
  }

  /** What each rule's streak becomes on an outcome that is neither `ok` nor unclassified. */
  lemma LaneStreaks(c: Circuit, o: Outcome, at: real)
    requires o.name !in {OK, UNCLASSIFIED}
    ensures var moved := MoveRules(c, LANE_RULES, o.name, at);
            && moved.(streaks := c.streaks, windows := c.windows) == c
            && moved.Streak(PROVIDER_ERROR_RULE.name) ==
               (if o.name in PROVIDER_ERROR_RULE.on then c.Streak(PROVIDER_ERROR_RULE.name) + 1 else 0)
            && moved.Streak(QUALITY_RULE.name) ==
               (if o.name in QUALITY_RULE.on then c.Streak(QUALITY_RULE.name) + 1 else 0)
  {
    LaneRulesQualify();
    MoveRulesKeepsState(c, LANE_RULES, o.name, at);
    MoveRulesAt(c, LANE_RULES, 1, o.name, at);
    MoveRulesAt(c, LANE_RULES, 2, o.name, at);
  }

  /** An outcome never closes a held lane; it can only rename it. */
  lemma OutcomeRelabels(c: Circuit, o: Outcome, at: real)
    requires HeldOnLabel(c)
    ensures var d := Advance(c, LANE_RULES, o, at).circuit;
            HeldOnLabel(d) && LabelOf(d) == Relabel(LabelOf(c), Fed(o, at))
  {
    AdvanceCounts(c, LANE_RULES, o, at);
    if o.name !in {OK, UNCLASSIFIED} {
      LaneStreaks(c, o, at);
      OutcomeNames(c, o, at);
    }
  }

  lemma OutcomeNames(c: Circuit, o: Outcome, at: real)
    requires HeldOnLabel(c) && o.name !in {OK, UNCLASSIFIED}
    ensures var d := Advance(c, LANE_RULES, o, at).circuit;
            HeldOnLabel(d) && d.rule == Relabel(LabelOf(c), Fed(o, at)).rule
  {
    LaneStreaks(c, o, at);
  }

  /** One event on a held lane: a healthy reading closes one named after the
      errors, and everything else leaves it held under its next label. */
  lemma LabelStep(c: Circuit, e: Event)
    requires HeldOnLabel(c)
    ensures var d := Apply(c, LANE_RULES, e);
            if Clears(LabelOf(c), e) then d == FRESH
            else HeldOnLabel(d) && LabelOf(d) == Relabel(LabelOf(c), e)
  {
    HeardApplies(c, LANE_RULES, e);
    if Heard(e).Fed? {
      OutcomeRelabels(c, Heard(e).outcome, Heard(e).at);
    }
  }

  /** Whatever history left a lane escalated, it is held on one of the two labels. */
  lemma {:induction false} EscalatedOnLabel(events: seq<Event>)
    requires Run(FRESH, LANE_RULES, events).state == Open && Run(FRESH, LANE_RULES, events).escalated
    ensures HeldOnLabel(Run(FRESH, LANE_RULES, events))
  {
    LaneRulesQualify();
    EscalatedIsHeld(LANE_RULES, events);
    EscalatedByLabel(events);
  }

  predicate EscalatesByLabel(c: Circuit) {
    c.escalated ==> c.rule in {PROVIDER_ERROR_RULE.name, QUALITY_RULE.name}
  }

  lemma OutcomeByLabel(c: Circuit, o: Outcome, at: real)
    requires EscalatesByLabel(c)
    ensures EscalatesByLabel(Advance(c, LANE_RULES, o, at).circuit)
  {
    MoveRulesKeepsState(c, LANE_RULES, o.name, at);
  }

  lemma {:induction false} EscalatedByLabel(events: seq<Event>)
    ensures EscalatesByLabel(Run(FRESH, LANE_RULES, events))
  {
    if events != [] {
      var n := |events| - 1;
      EscalatedByLabel(events[..n]);
      var c, e := Run(FRESH, LANE_RULES, events[..n]), Heard(events[n]);
      HeardApplies(c, LANE_RULES, events[n]);
      if e.Fed? { OutcomeByLabel(c, e.outcome, e.at); }
    }
  }

  /** No reading of the history clears the lane when it arrives. */
  ghost predicate NeverCleared(l: Label, events: seq<Event>) {
    forall n :: 0 <= n < |events| ==> !Clears(LabelAfter(l, events[..n]), events[n])
  }

  lemma {:induction false} HeldUntilCleared(c: Circuit, events: seq<Event>)
    requires HeldOnLabel(c) && NeverCleared(LabelOf(c), events)
    ensures HeldOnLabel(Run(c, LANE_RULES, events))
    ensures LabelOf(Run(c, LANE_RULES, events)) == LabelAfter(LabelOf(c), events)
  {
    if events != [] {
      var n := |events| - 1;
      var rest := events[..n];
      forall m | 0 <= m < |rest| ensures !Clears(LabelAfter(LabelOf(c), rest[..m]), rest[m]) {
        assert rest[..m] == events[..m];
        assert !Clears(LabelAfter(LabelOf(c), events[..m]), events[m]);
      }
      HeldUntilCleared(c, rest);
      assert !Clears(LabelAfter(LabelOf(c), events[..n]), events[n]);
      LabelStep(Run(c, LANE_RULES, rest), events[n]);
    }
  }

  predicate OpenAndEscalated(c: Circuit) {
    c.state == Open && c.escalated
  }

  /** At every point of the history the lane is still open and escalated. */
  ghost predicate HeldThroughout(c: Circuit, events: seq<Event>) {
    forall n :: 0 <= n <= |events| ==> OpenAndEscalated(Run(c, LANE_RULES, events[..n]))
  }

  /** The promise that only a human clears an escalated lane, quality trips
      included, holds for exactly the histories in which no healthy first-party
      reading arrives while the lane is named after its provider errors. */
  lemma ClearedByHumanExactly(before: seq<Event>, after: seq<Event>)
    requires OpenAndEscalated(Run(FRESH, LANE_RULES, before))
    ensures var c := Run(FRESH, LANE_RULES, before);
            HeldThroughout(c, after) <==> NeverCleared(LabelOf(c), after)
    ensures var c := Run(FRESH, LANE_RULES, before);
            !NeverCleared(LabelOf(c), after) ==>
              exists n :: 0 < n <= |after| && Run(c, LANE_RULES, after[..n]) == FRESH
  {
    var c := Run(FRESH, LANE_RULES, before);
    EscalatedOnLabel(before);
    if NeverCleared(LabelOf(c), after) {
      forall n | 0 <= n <= |after| ensures OpenAndEscalated(Run(c, LANE_RULES, after[..n])) {
        PrefixNeverCleared(LabelOf(c), after, n);
        HeldUntilCleared(c, after[..n]);
      }
    } else {
      var n := FirstClearing(LabelOf(c), after);
      HeldUntilCleared(c, after[..n]);
      LabelStep(Run(c, LANE_RULES, after[..n]), after[n]);
      assert after[..n + 1][..n] == after[..n];
      assert Run(c, LANE_RULES, after[..n + 1]) == FRESH;
    }
  }

  lemma PrefixNeverCleared(l: Label, events: seq<Event>, n: nat)
    requires NeverCleared(l, events) && n <= |events|
    ensures NeverCleared(l, events[..n])
  {
    var part := events[..n];
    forall m | 0 <= m < n ensures !Clears(LabelAfter(l, part[..m]), part[m]) {
      assert part[..m] == events[..m];
      assert !Clears(LabelAfter(l, events[..m]), events[m]);
    }
  }

  lemma {:induction false} FirstClearing(l: Label, events: seq<Event>) returns (n: nat)
    requires !NeverCleared(l, events)
    ensures n < |events| && Clears(LabelAfter(l, events[..n]), events[n]) && NeverCleared(l, events[..n])
    decreases |events|
  {
    var m := |events| - 1;
    if NeverCleared(l, events[..m]) {
      n := m;
      forall k | 0 <= k < m ensures !Clears(LabelAfter(l, events[..k]), events[k]) {
        assert events[..m][..k] == events[..k];
        assert !Clears(LabelAfter(l, events[..m][..k]), events[..m][k]);
      }
    } else {
      n := FirstClearing(l, events[..m]);
      assert events[..m][..n] == events[..n];
    }
  }

  /** One quality failure on a lane that has never tripped. */
  lemma FailureCounts(c: Circuit, o: Outcome, at: real)
    requires c.state == Closed && !c.escalated && o.name in QUALITY_RULE.on
    ensures var d := Advance(c, LANE_RULES, o, at).circuit;
            && d.Streak(QUALITY_RULE.name) == c.Streak(QUALITY_RULE.name) + 1
            && d.Streak(PROVIDER_ERROR_RULE.name) == 0
            && (if c.Streak(QUALITY_RULE.name) + 1 >= CONSECUTIVE_N then OpenOnQuality(d)
                else d.state == Closed && !d.escalated)
  {
    AdvanceCounts(c, LANE_RULES, o, at);
    LaneStreaks(c, o, at);
  }

  /** A whole history, from a lane nobody has touched, in which the quality trip
      clears itself: three gate failures, three provider errors, one healthy reading. */
  lemma QualityTripHealsFromFresh(failure: Event, error: Event, reading: Event)
    requires failure.Fed? && failure.outcome.name in QUALITY_RULE.on
    requires error.Fed? && error.outcome.name == PROVIDER_ERROR && Healthy(reading)
    ensures OpenOnQuality(Run(FRESH, LANE_RULES, [failure, failure, failure]))
    ensures Run(FRESH, LANE_RULES, [failure, failure, failure] + [error, error, error, reading]) == FRESH
  {
    var one := Apply(FRESH, LANE_RULES, failure);
    var two := Apply(one, LANE_RULES, failure);
    FailureCounts(FRESH, failure.outcome, failure.at);
    FailureCounts(one, failure.outcome, failure.at);
    FailureCounts(two, failure.outcome, failure.at);
    Run3(FRESH, LANE_RULES, failure);
    var c := Run(FRESH, LANE_RULES, [failure, failure, failure]);
    QualityTripCanHealItself(c, error, reading);
    RunSplit(FRESH, LANE_RULES, [failure, failure, failure], [error, error, error, reading]);
  }

  lemma Run3(c: Circuit, rules: seq<TripRule>, a: Event)
    ensures Run(c, rules, [a, a, a]) == Apply(Apply(Apply(c, rules, a), rules, a), rules, a)
  {
    assert [a][..0] == [];
    assert Run(c, rules, [a]) == Apply(c, rules, a);
    assert [a, a][..1] == [a];
    assert Run(c, rules, [a, a]) == Apply(Apply(c, rules, a), rules, a);
    assert [a, a, a][..2] == [a, a];
  }
}
