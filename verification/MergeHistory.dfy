/** What holds of one Work Run over every sequence of merged observations. */
module MergeHistory {
  import opened Text
  import opened Facts
  import opened Policy
  import opened Merge

  /** Every observation names the run. */
  predicate Observes(r: WorkRun, observed: seq<WorkRun>) {
    forall o :: o in observed ==> SameWorkRun(r, o)
  }

  /** The run after merging the observations in order. */
  function MergeAll(r: WorkRun, observed: seq<WorkRun>): WorkRun
    requires Observes(r, observed)
    decreases |observed|
  {
    if observed == [] then r
    else
      var next := MergeObservation(r, observed[0]);
      assert Observes(next, observed[1..]) by {
        forall o | o in observed[1..] ensures SameWorkRun(next, o) {
          assert o in observed;
          MergeKeepsIdentity(r, observed[0], o);
        }
      }
      MergeAll(next, observed[1..])
  }

  /** Merging a history in two parts is merging it in one. */
  lemma {:induction false} MergeAllSplit(r: WorkRun, observed: seq<WorkRun>, i: nat)
    requires Observes(r, observed) && i <= |observed|
    ensures Observes(r, observed[..i]) && Observes(MergeAll(r, observed[..i]), observed[i..])
    ensures MergeAll(r, observed) == MergeAll(MergeAll(r, observed[..i]), observed[i..])
    decreases i
  {
    if i == 0 {
      assert observed[0..] == observed;
    } else {
      var next := MergeObservation(r, observed[0]);
      var rest := observed[1..];
      assert Observes(next, rest) by {
        forall o | o in rest ensures SameWorkRun(next, o) {
          MergeKeepsIdentity(r, observed[0], o);
        }
      }
      MergeAllSplit(next, rest, i - 1);
      assert observed[..i][1..] == rest[..i - 1];
      assert observed[i..] == rest[i - 1..];
    }
  }

  // ------------------------------------------------------------ write-once facts

  /** A merge takes a landing away exactly when it is a fresh typed non-result
      that names no landing and disagrees with nothing. */
  lemma LandingStep(p: WorkRun, c: WorkRun)
    requires SameWorkRun(p, c) && p.landedSha.Some?
    ensures var m := MergeObservation(p, c);
            && (m.landedSha == p.landedSha <==>
                  Conflicting(p, c) || TypedNonResult(p) || !TypedNonResult(c) || c.landedSha.Some?)
            && (m.landedSha == p.landedSha || (m.landedSha.None? && TypedNonResult(m)))
  {
    AgreeOnShared(p, c);
  }

  /** A typed non-result keeps every identity field it has, for good. */
  lemma {:induction false} NonResultFreezes(r: WorkRun, observed: seq<WorkRun>)
    requires Observes(r, observed) && TypedNonResult(r)
    ensures var m := MergeAll(r, observed);
            && TypedNonResult(m) && m.landedSha == r.landedSha
            && m.state == r.state && m.failureClass == r.failureClass && m.recoveryKind == r.recoveryKind
    decreases |observed|
  {
    if observed != [] {
      MergeAllSplit(r, observed, 1);
      assert observed[..1] == [observed[0]];
      NonResultFreezes(MergeObservation(r, observed[0]), observed[1..]);
    }
  }

  lemma {:induction false} LandingNeverReplaced(r: WorkRun, observed: seq<WorkRun>)
    requires Observes(r, observed) && r.landedSha.Some?
    ensures MergeAll(r, observed).landedSha in {None, r.landedSha}
    decreases |observed|
  {
    if observed != [] {
      MergeAllSplit(r, observed, 1);
      assert observed[..1] == [observed[0]];
      LandingStep(r, observed[0]);
      var next := MergeObservation(r, observed[0]);
      if next.landedSha.Some? {
        LandingNeverReplaced(next, observed[1..]);
      } else {
        NonResultFreezes(next, observed[1..]);
      }
    }
  }

  /** The run as the first `j` observations leave it. */
  function UpTo(r: WorkRun, observed: seq<WorkRun>, j: nat): WorkRun
    requires Observes(r, observed) && j <= |observed|
  {
    MergeAll(r, observed[..j])
  }

  /** Observation `i` takes the landing away: it is the first that conflicts
      with what was merged before it or is a typed non-result, and it is a typed
      non-result without a landing that conflicts with nothing. */
  predicate DroppedAt(r: WorkRun, observed: seq<WorkRun>, i: nat)
    requires Observes(r, observed) && i < |observed|
  {
    && (forall j :: 0 <= j < i ==> !TypedNonResult(observed[j]))
    && (forall j :: 0 <= j <= i ==> !Conflicting(UpTo(r, observed, j), observed[j]))
    && TypedNonResult(observed[i]) && observed[i].landedSha.None?
  }

  lemma DroppedShift(r: WorkRun, observed: seq<WorkRun>, i: nat)
    requires Observes(r, observed) && 0 < i < |observed|
    ensures var next := MergeObservation(r, observed[0]);
            && Observes(next, observed[1..])
            && (DroppedAt(r, observed, i) <==>
                  !TypedNonResult(observed[0]) && !Conflicting(r, observed[0]) && DroppedAt(next, observed[1..], i - 1))
  {
    var next, rest := MergeObservation(r, observed[0]), observed[1..];
    MergeAllSplit(r, observed, 1);
    assert observed[..1] == [observed[0]] && observed[..0] == [];
    forall j | 0 <= j < |rest|
      ensures UpTo(r, observed, j + 1) == UpTo(next, rest, j)
    {
      MergeAllSplit(r, observed[..j + 1], 1);
      assert observed[..j + 1][..1] == [observed[0]] && observed[..j + 1][1..] == rest[..j];
    }
    if DroppedAt(r, observed, i) {
      forall j | 0 <= j <= i - 1 ensures !Conflicting(UpTo(next, rest, j), rest[j]) {
        assert observed[j + 1] == rest[j];
      }
      assert forall j :: 0 <= j < i - 1 ==> rest[j] == observed[j + 1];
    }
    if !TypedNonResult(observed[0]) && !Conflicting(r, observed[0]) && DroppedAt(next, rest, i - 1) {
      forall j | 0 <= j <= i ensures !Conflicting(UpTo(r, observed, j), observed[j]) {
        if j > 0 { assert rest[j - 1] == observed[j]; }
      }
      forall j | 0 <= j < i ensures !TypedNonResult(observed[j]) {
        if j > 0 { assert rest[j - 1] == observed[j]; }
      }
    }
  }

  /** Conflict freezes the landing for every later history. */
  lemma {:induction false} ConflictFreezesLanding(r: WorkRun, observed: seq<WorkRun>)
    requires Observes(r, observed) && r.deliveryConflict
    ensures MergeAll(r, observed).landedSha == r.landedSha
    decreases |observed|
  {
    if observed != [] {
      MergeAllSplit(r, observed, 1);
      assert observed[..1] == [observed[0]];
      ConflictFreezesLanding(MergeObservation(r, observed[0]), observed[1..]);
    }
  }

  /** Over any history a landing is lost exactly when some observation drops it. */
  lemma {:induction false} LandingStandsExactly(r: WorkRun, observed: seq<WorkRun>)
    requires Observes(r, observed) && r.landedSha.Some?
    ensures MergeAll(r, observed).landedSha == r.landedSha <==>
            TypedNonResult(r) || forall i :: 0 <= i < |observed| ==> !DroppedAt(r, observed, i)
    decreases |observed|
  {
    if TypedNonResult(r) {
      NonResultFreezes(r, observed);
    } else if observed != [] {
      var o := observed[0];
      var next := MergeObservation(r, o);
      MergeAllSplit(r, observed, 1);
      assert observed[..1] == [o] && observed[..0] == [];
      LandingStep(r, o);
      forall i | 0 < i < |observed|
        ensures DroppedAt(r, observed, i) <==>
                !TypedNonResult(o) && !Conflicting(r, o) && DroppedAt(next, observed[1..], i - 1)
      {
        DroppedShift(r, observed, i);
      }
      assert UpTo(r, observed, 0) == r;
      assert DroppedAt(r, observed, 0) <==> !Conflicting(r, o) && TypedNonResult(o) && o.landedSha.None?;
      if Conflicting(r, o) {
        ConflictFreezesLanding(next, observed[1..]);
      } else if TypedNonResult(o) {
        NonResultFreezes(next, observed[1..]);
      } else {
        LandingStandsExactly(next, observed[1..]);
        forall i | 0 < i < |observed|
          ensures DroppedAt(r, observed, i) <==> DroppedAt(next, observed[1..], i - 1)
        {
        }
        assert forall i :: 0 <= i < |observed[1..]| ==>
          (DroppedAt(next, observed[1..], i) <==> DroppedAt(r, observed, i + 1));
      }
    }
  }

  /** The published interruption that takes a landing away. */
  function Interruption(r: WorkRun): WorkRun {
    BareRun(r.key, NON_RESULT).(dispatchId := r.dispatchId, failureClass := Some("interrupted"),
                                resultPublished := true)
  }

  /** Which landings are safe: a landed run can still lose its landing exactly
      when it is not in conflict and not a typed non-result, and then one
      published interruption takes it away. */
  lemma LandingCanBeDropped(r: WorkRun)
    requires r.landedSha.Some?
    ensures (exists c :: SameWorkRun(r, c) && MergeObservation(r, c).landedSha.None?) <==>
            !r.deliveryConflict && !SeveralIdentities(r, r) && !TypedNonResult(r)
    ensures !r.deliveryConflict && !SeveralIdentities(r, r) && !TypedNonResult(r) ==>
              SameWorkRun(r, Interruption(r)) && MergeObservation(r, Interruption(r)).landedSha.None?
  {
    AgreeOnShared(r, r);
    if !r.deliveryConflict && !SeveralIdentities(r, r) && !TypedNonResult(r) {
      AgreeMeansOne(r, Interruption(r), Shared(r, r));
      assert SameWorkRun(r, Interruption(r)) && MergeObservation(r, Interruption(r)).landedSha.None?;
    }
    forall c | SameWorkRun(r, c) && MergeObservation(r, c).landedSha.None?
      ensures !r.deliveryConflict && !SeveralIdentities(r, r) && !TypedNonResult(r)
    {
      LandingStep(r, c);
      AgreeOnShared(r, c);
      AgreeMeansOne(r, r, Shared(r, c));
    }
  }

  /** At most one landed SHA appears anywhere in a run's history. */
  lemma OneLandingPerRun(r: WorkRun, observed: seq<WorkRun>, i: nat, j: nat)
    requires Observes(r, observed) && i <= j <= |observed|
    ensures Observes(r, observed[..i]) && Observes(r, observed[..j])
    ensures var early, late := MergeAll(r, observed[..i]), MergeAll(r, observed[..j]);
            early.landedSha.Some? && late.landedSha.Some? ==> early.landedSha == late.landedSha
  {
    var upto := observed[..j];
    MergeAllSplit(r, upto, i);
    assert upto[..i] == observed[..i];
    var early := MergeAll(r, observed[..i]);
    if early.landedSha.Some? {
      LandingNeverReplaced(early, upto[i..]);
    }
  }

  /** Conflict and publication never clear, and a binding once set is never revised. */
  lemma {:induction false} StampsAreKept(r: WorkRun, observed: seq<WorkRun>)
    requires Observes(r, observed)
    ensures var m := MergeAll(r, observed);
            && (r.deliveryConflict ==> m.deliveryConflict)
            && (r.resultPublished ==> m.resultPublished)
            && (r.workItemKey.Some? ==> m.workItemKey == r.workItemKey)
            && (r.issue.Some? ==> m.issue == r.issue)
            && (r.worktree.Some? ==> m.worktree == r.worktree)
    decreases |observed|
  {
    if observed != [] {
      MergeAllSplit(r, observed, 1);
      assert observed[..1] == [observed[0]];
      StampsAreKept(MergeObservation(r, observed[0]), observed[1..]);
    }
  }

  /** After any history the run is visibly conflicted or carries a single SHA. */
  lemma HistoryIsConflictedOrSingle(r: WorkRun, observed: seq<WorkRun>)
    requires Observes(r, observed) && observed != []
    ensures var m := MergeAll(r, observed);
            m.deliveryConflict || |Identities(m)| <= 1
  {
    var n := |observed| - 1;
    MergeAllSplit(r, observed, n);
    var before := MergeAll(r, observed[..n]);
    assert observed[n..] == [observed[n]];
    var m := MergeAll(r, observed);
    assert m == MergeObservation(before, observed[n]);
    MergeIsConflictedOrSingle(before, observed[n]);
    SeveralMeansMoreThanOne(m, m);
    assert Identities(m) + Identities(m) == Identities(m);
  }

  // ------------------------------------------------------------ released slots

  /** What keeps terminal evidence from being talked back into a live run. */
  predicate Sticks(r: WorkRun) {
    || TypedNonResult(r)
    || r.deliveryConflict
    || SeveralIdentities(r, r)
    || (r.resultPublished && r.landedSha.Some?)
  }

  lemma TerminalStep(p: WorkRun, c: WorkRun)
    requires SameWorkRun(p, c) && TerminalEvidence(p) && Sticks(p)
    ensures TerminalEvidence(MergeObservation(p, c)) && Sticks(MergeObservation(p, c))
  {
    if !Conflicting(p, c) {
      var sha := Shared(p, c);
      AgreeOnShared(p, c);
      AgreeMeansOne(p, p, sha);
    }
  }

  lemma {:induction false} TerminalStays(r: WorkRun, observed: seq<WorkRun>, items: seq<WorkItem>)
    requires Observes(r, observed) && TerminalEvidence(r) && Sticks(r)
    ensures !OwnsSlot(MergeAll(r, observed), items)
    decreases |observed|
  {
    if observed != [] {
      MergeAllSplit(r, observed, 1);
      assert observed[..1] == [observed[0]];
      TerminalStep(r, observed[0]);
      TerminalStays(MergeObservation(r, observed[0]), observed[1..], items);
    }
  }

  /** The observation that hands a slot back: a look at a live tree, or an
      unpublished interruption, of the same dispatch. */
  function Reviver(r: WorkRun): WorkRun {
    var look := BareRun(r.key, "running").(dispatchId := r.dispatchId);
    if r.resultPublished then look.(recoveryKind := Some("still_live"))
    else look.(failureClass := Some("interrupted"))
  }

  lemma RevivedOwnsSlot(r: WorkRun, items: seq<WorkItem>)
    requires TerminalEvidence(r) && !Sticks(r)
    ensures SameWorkRun(r, Reviver(r)) && OwnsSlot(MergeObservation(r, Reviver(r)), items)
  {
    var sha := Shared(r, r);
    AgreeOnShared(r, r);
    AgreeMeansOne(r, Reviver(r), sha);
  }

  /** A run released by terminal evidence never owns a slot again under every
      later history exactly when it is a typed non-result, is in conflict, or
      is a published landing.  A concluding verdict alone is not enough. */
  lemma ReleasedForGood(r: WorkRun, items: seq<WorkItem>)
    requires TerminalEvidence(r)
    ensures Sticks(r) <==>
            forall observed: seq<WorkRun> :: Observes(r, observed) ==> !OwnsSlot(MergeAll(r, observed), items)
  {
    if Sticks(r) {
      forall observed: seq<WorkRun> | Observes(r, observed) ensures !OwnsSlot(MergeAll(r, observed), items) {
        TerminalStays(r, observed, items);
      }
    } else {
      RevivedOwnsSlot(r, items);
      var observed := [Reviver(r)];
      assert observed[1..] == [];
      assert Observes(r, observed) && MergeAll(r, observed) == MergeObservation(r, Reviver(r));
    }
  }

  /** The promised case: a typed non-result that is published, or concluded, is over. */
  lemma TypedNonResultIsOver(r: WorkRun, observed: seq<WorkRun>, items: seq<WorkItem>)
    requires Observes(r, observed) && TypedNonResult(r) && (r.resultPublished || Concluded(r))
    ensures !OwnsSlot(MergeAll(r, observed), items)
  {
    TerminalStays(r, observed, items);
  }

  // ------------------------------------------------------------ delivery records

  /** `derived_work_run_state`. */
  function DerivedState(run: WorkRun): string {
    if TypedNonResult(run) then NON_RESULT
    else if run.landedSha.Some? then LANDED
    else if Truthy(run.candidateSha) && run.gateStatus == Some(GATE_PASSED) && run.gateSha == run.candidateSha then
      "gated"
    else if && Truthy(run.candidateSha)
            && run.reviewStatus == Some(REVIEW_CLEARED) && run.reviewedSha == run.candidateSha
            && run.adjudicationStatus == Some(REVIEW_CLEARED) && run.adjudicationSha == run.candidateSha
    then "reviewed"
    else run.state
  }

  /** `_read_delivery`, after parsing: progress, with no authority to release a slot. */
  function StandaloneDelivery(raw: WorkRun): WorkRun {
    var run := raw.(landedSha := None, recoveryKind := None, resultPublished := false);
    run.(state := DerivedState(run), deliveryConflict := raw.deliveryConflict || SeveralIdentities(raw, raw))
  }

  /** `_read_result_delivery` of a result that carries a delivery. */
  function ResultDelivery(raw: WorkRun): WorkRun {
    raw.(state := DerivedState(raw), resultPublished := true,
         deliveryConflict := raw.deliveryConflict || SeveralIdentities(raw, raw))
  }

  /** No landing, no concluding verdict and nothing published: nothing can release it. */
  predicate Unresolved(r: WorkRun) {
    r.landedSha.None? && !Concluded(r) && !r.resultPublished
  }

  function Deliveries(raws: seq<WorkRun>): (r: seq<WorkRun>)
    ensures |r| == |raws| && forall i :: 0 <= i < |r| ==> r[i] == StandaloneDelivery(raws[i])
  {
    if raws == [] then [] else [StandaloneDelivery(raws[0])] + Deliveries(raws[1..])
  }

  lemma DeliveriesNameTheRun(r: WorkRun, raws: seq<WorkRun>)
    requires Observes(r, raws)
    ensures Observes(r, Deliveries(raws))
  {
    forall o | o in Deliveries(raws) ensures SameWorkRun(r, o) {
      var i :| 0 <= i < |raws| && Deliveries(raws)[i] == o;
      assert raws[i] in raws;
    }
  }

  lemma {:induction false} DeliveriesLeaveUnresolved(r: WorkRun, raws: seq<WorkRun>)
    requires Unresolved(r) && Observes(r, raws)
    ensures Observes(r, Deliveries(raws)) && Unresolved(MergeAll(r, Deliveries(raws)))
    decreases |raws|
  {
    DeliveriesNameTheRun(r, raws);
    if raws != [] {
      var first := StandaloneDelivery(raws[0]);
      var next := MergeObservation(r, first);
      forall raw | raw in raws[1..] ensures SameWorkRun(next, raw) {
        MergeKeepsIdentity(r, first, raw);
      }
      DeliveriesLeaveUnresolved(next, raws[1..]);
    }
  }

  /** A standalone delivery file cannot release capacity, however many arrive. */
  lemma DeliveryCannotReleaseCapacity(r: WorkRun, raws: seq<WorkRun>, items: seq<WorkItem>)
    requires Unresolved(r) && OwnsSlot(r, items) && Observes(r, raws)
    ensures Observes(r, Deliveries(raws)) && OwnsSlot(MergeAll(r, Deliveries(raws)), items)
  {
    DeliveriesLeaveUnresolved(r, raws);
  }

  /** Run and result between them clear the landed SHA: candidate, review by
      another dispatch, adjudication, gate and close evidence all name it, and no
      binding is revised. */
  predicate ClearedBetween(r: WorkRun, raw: WorkRun) {
    var sha := raw.landedSha;
    && !Rebinds(r.workItemKey, raw.workItemKey) && !Rebinds(r.issue, raw.issue) && !Rebinds(r.worktree, raw.worktree)
    && Or(raw.candidateSha, r.candidateSha) == sha && Or(raw.closeEvidenceSha, r.closeEvidenceSha) == sha
    && Or(raw.reviewedSha, r.reviewedSha) == sha && Or(raw.reviewStatus, r.reviewStatus) == Some(REVIEW_CLEARED)
    && Truthy(raw.dispatchId) && Truthy(Or(raw.reviewDispatchId, r.reviewDispatchId))
    && Or(raw.reviewDispatchId, r.reviewDispatchId) != raw.dispatchId
    && Or(raw.adjudicationSha, r.adjudicationSha) == sha
    && Or(raw.adjudicationStatus, r.adjudicationStatus) == Some(REVIEW_CLEARED)
    && Or(raw.gateSha, r.gateSha) == sha && Or(raw.gateStatus, r.gateStatus) == Some(GATE_PASSED)
  }

  /** Who the run and the result say the work was for, the run first. */
  function BindingBetween(r: WorkRun, raw: WorkRun): WorkRun {
    BareRun(raw.key, LANDED).(
      workItemKey := Keep(r.workItemKey, raw.workItemKey),
      issue := Keep(r.issue, raw.issue))
  }

  /** The result lands the work, and either clears its SHA or finds its item already complete. */
  predicate LandsCompletely(r: WorkRun, raw: WorkRun, items: seq<WorkItem>) {
    && Truthy(raw.landedSha)
    && (|| ClearedBetween(r, raw)
        || exists item :: item in items && IsComplete(item) && RunBelongsToItem(BindingBetween(r, raw), item))
  }

  /** What a result that agrees with an unresolved run leaves of a landing. */
  lemma LandedResult(r: WorkRun, raw: WorkRun, items: seq<WorkItem>)
    requires Unresolved(r) && SameWorkRun(r, raw) && !TypedNonResult(r) && !TypedNonResult(raw)
    requires !Conflicting(r, ResultDelivery(raw)) && Truthy(raw.landedSha)
    ensures var m := MergeObservation(r, ResultDelivery(raw));
            && m.state == LANDED && m.landedSha == raw.landedSha
            && (CompletionReady(m) <==> ClearedBetween(r, raw))
            && (forall item :: RunBelongsToItem(m, item) <==> RunBelongsToItem(BindingBetween(r, raw), item))
  {
  }

  /** A published result releases an unresolved run exactly when the run was a
      typed non-result already, or the result agrees with it and is itself a
      typed non-result, concluded, or a complete landing. */
  lemma ResultReleasesExactly(r: WorkRun, raw: WorkRun, items: seq<WorkItem>)
    requires Unresolved(r) && SameWorkRun(r, raw)
    ensures var result := ResultDelivery(raw);
            !OwnsSlot(MergeObservation(r, result), items) <==>
              || TypedNonResult(r)
              || (&& !Conflicting(r, result)
                  && (TypedNonResult(raw) || Concluded(raw) || LandsCompletely(r, raw, items)))
  {
    var result := ResultDelivery(raw);
    if !TypedNonResult(r) && !TypedNonResult(raw) && !Conflicting(r, result) && Truthy(raw.landedSha) {
      LandedResult(r, raw, items);
    }
  }

  /** A published typed non-result that agrees with the run ends it for good. */
  lemma PublishedNonResultIsFinal(r: WorkRun, raw: WorkRun, observed: seq<WorkRun>, items: seq<WorkItem>)
    requires SameWorkRun(r, raw) && TypedNonResult(raw) && !Conflicting(r, ResultDelivery(raw))
    requires Observes(MergeObservation(r, ResultDelivery(raw)), observed)
    ensures !OwnsSlot(MergeAll(MergeObservation(r, ResultDelivery(raw)), observed), items)
  {
    TypedNonResultIsOver(MergeObservation(r, ResultDelivery(raw)), observed, items);
  }

  /** A standalone delivery that agrees with an unresolved run renames it after
      itself: the merged run goes by the delivery's key, unresolved as before.
      In conflict, and for a typed non-result, the run keeps its own. */
  lemma DeliveryRenames(r: WorkRun, raw: WorkRun)
    requires Unresolved(r) && SameWorkRun(r, raw)
    ensures var delivered := StandaloneDelivery(raw);
            var m := MergeObservation(r, delivered);
            && Unresolved(m) && m.dispatchId == r.dispatchId
            && m.key == if Conflicting(r, delivered) || TypedNonResult(r) then r.key else raw.key
  {
  }
}
