/** Merging successive observations of one Work Run (tools/controller_policy.py,
    tools/controller_ports.py): a five-branch ladder with two preserve points. */
module Merge {
  import opened Text
  import opened Facts
  import opened Policy

  // ------------------------------------------------------------ the ladder

  /** `same_work_run`: dispatch identity, with a key-only fallback. */
  predicate SameWorkRun(a: WorkRun, b: WorkRun) {
    if a.dispatchId.Some? || b.dispatchId.Some? then a.dispatchId == b.dispatchId else a.key == b.key
  }

  function FirstIdentity(run: WorkRun): Option<string> {
    Keep(run.candidateSha, Keep(run.reviewedSha, Keep(run.adjudicationSha,
      Keep(run.gateSha, Keep(run.landedSha, run.closeEvidenceSha)))))
  }

  predicate AbsentOr(s: Option<string>, sha: string) {
    s.None? || s.value == sha
  }

  /** Every SHA the run names is `sha`. */
  predicate AllAre(run: WorkRun, sha: string) {
    && AbsentOr(run.candidateSha, sha) && AbsentOr(run.reviewedSha, sha) && AbsentOr(run.adjudicationSha, sha)
    && AbsentOr(run.gateSha, sha) && AbsentOr(run.landedSha, sha) && AbsentOr(run.closeEvidenceSha, sha)
  }

  /** The two observations together name more than one SHA. */
  predicate SeveralIdentities(previous: WorkRun, current: WorkRun) {
    var first := Keep(FirstIdentity(previous), FirstIdentity(current));
    first.Some? && !(AllAre(previous, first.value) && AllAre(current, first.value))
  }

  /** `_merge_delivery_identity`. */
  function MergeIdentity(previous: WorkRun, current: WorkRun): WorkRun {
    if SeveralIdentities(previous, current) || previous.deliveryConflict || current.deliveryConflict then
      previous.(deliveryConflict := true)
    else if TypedNonResult(previous) then
      previous.(deliveryConflict := true)
    else if TypedNonResult(current) then
      current
    else if previous.landedSha.Some? then
      previous.(closeEvidenceSha := Or(current.closeEvidenceSha, previous.closeEvidenceSha))
    else
      Filled(previous, current)
  }

  /** The last branch: the fresh observation, with gaps filled from the prior one. */
  function Filled(previous: WorkRun, current: WorkRun): WorkRun {
    current.(
      candidateSha := Or(current.candidateSha, previous.candidateSha),
      reviewedSha := Or(current.reviewedSha, previous.reviewedSha),
      reviewStatus := Or(current.reviewStatus, previous.reviewStatus),
      reviewDispatchId := Or(current.reviewDispatchId, previous.reviewDispatchId),
      adjudicationSha := Or(current.adjudicationSha, previous.adjudicationSha),
      adjudicationStatus := Or(current.adjudicationStatus, previous.adjudicationStatus),
      gateSha := Or(current.gateSha, previous.gateSha),
      gateStatus := Or(current.gateStatus, previous.gateStatus),
      landedSha := Or(current.landedSha, previous.landedSha),
      closeEvidenceSha := Or(current.closeEvidenceSha, previous.closeEvidenceSha),
      recoveryKind := Or(current.recoveryKind, previous.recoveryKind))
  }

  function Keep<T>(prior: Option<T>, observed: Option<T>): Option<T> {
    if prior.Some? then prior else observed
  }

  predicate Rebinds<T(==)>(prior: Option<T>, observed: Option<T>) {
    prior.Some? && observed.Some? && observed != prior
  }

  /** `_preserve_work_item_binding`. */
  function PreserveBinding(previous: WorkRun, current: WorkRun, merged: WorkRun): WorkRun {
    var conflict :=
      || Rebinds(previous.workItemKey, current.workItemKey)
      || Rebinds(previous.issue, current.issue)
      || Rebinds(previous.worktree, current.worktree);
    merged.(
      deliveryConflict := merged.deliveryConflict || conflict,
      workItemKey := Keep(previous.workItemKey, current.workItemKey),
      issue := Keep(previous.issue, current.issue),
      worktree := Keep(previous.worktree, current.worktree))
  }

  /** `merge_work_run_observation`; the source raises unless both name one run. */
  function MergeObservation(previous: WorkRun, current: WorkRun): WorkRun
    requires SameWorkRun(previous, current)
  {
    PreserveBinding(previous, current, MergeIdentity(previous, current))
    .(resultPublished := previous.resultPublished || current.resultPublished)
  }

  // ------------------------------------------------------------ one step

  lemma IdentityNames(p: WorkRun, c: WorkRun)
    requires p.dispatchId == c.dispatchId
    ensures var m := MergeIdentity(p, c);
            m.dispatchId == p.dispatchId && (m.key == p.key || m.key == c.key)
  {
  }

  lemma BindingNames(p: WorkRun, c: WorkRun, m: WorkRun)
    ensures PreserveBinding(p, c, m).dispatchId == m.dispatchId && PreserveBinding(p, c, m).key == m.key
  {
  }

  /** A merged run goes by the names the two observations share. */
  lemma MergedNames(p: WorkRun, c: WorkRun)
    requires SameWorkRun(p, c)
    ensures var m := MergeObservation(p, c);
            && m.dispatchId == p.dispatchId == c.dispatchId
            && (m.key == p.key || m.key == c.key)
  {
    IdentityNames(p, c);
    BindingNames(p, c, MergeIdentity(p, c));
  }

  /** Runs of one dispatch identity, and without one of one key, have one identity. */
  lemma SameNames(a: WorkRun, b: WorkRun, other: WorkRun)
    requires a.dispatchId == b.dispatchId && (a.dispatchId.None? ==> a.key == b.key)
    ensures SameWorkRun(a, other) <==> SameWorkRun(b, other)
    ensures SameWorkRun(a, b)
  {
  }

  lemma MergeKeepsIdentity(p: WorkRun, c: WorkRun, other: WorkRun)
    requires SameWorkRun(p, c)
    ensures SameWorkRun(p, other) <==> SameWorkRun(MergeObservation(p, c), other)
    ensures SameWorkRun(MergeObservation(p, c), c)
  {
    MergedNames(p, c);
    SameNames(p, MergeObservation(p, c), other);
    SameNames(MergeObservation(p, c), c, c);
  }

  /** `_delivery_identities`, as the set the source counts. */
  function Identities(run: WorkRun): set<string> {
    Present(run.candidateSha) + Present(run.reviewedSha) + Present(run.adjudicationSha)
    + Present(run.gateSha) + Present(run.landedSha) + Present(run.closeEvidenceSha)
  }

  function Present(s: Option<string>): set<string> {
    if s.Some? then {s.value} else {}
  }

  /** The source's test, `len(set(previous_ids + current_ids)) > 1`. */
  lemma SeveralMeansMoreThanOne(p: WorkRun, c: WorkRun)
    ensures SeveralIdentities(p, c) <==> |Identities(p) + Identities(c)| > 1
  {
    var ids := Identities(p) + Identities(c);
    var first := Keep(FirstIdentity(p), FirstIdentity(c));
    if first.None? {
      NoIdentity(p);
      NoIdentity(c);
      assert ids == {};
    } else {
      IdentityMember(p, first.value);
      IdentityMember(c, first.value);
      MoreThanOne(ids, first.value);
    }
  }

  lemma NoIdentity(run: WorkRun)
    requires FirstIdentity(run).None?
    ensures Identities(run) == {}
  {
    IdentityMember(run, "");
  }

  lemma MoreThanOne(ids: set<string>, x: string)
    requires x in ids
    ensures |ids| > 1 <==> !(ids <= {x})
  {
    if ids <= {x} {
      assert ids == {x};
    } else {
      var y :| y in ids && y != x;
      SubsetSize({x, y}, ids);
    }
  }

  lemma IdentityMember(run: WorkRun, x: string)
    ensures FirstIdentity(run) == Some(x) ==> x in Identities(run)
    ensures FirstIdentity(run).None? ==> Identities(run) == {} && AllAre(run, x)
    ensures AllAre(run, x) <==> Identities(run) <= {x}
    ensures !AllAre(run, x) ==> exists y :: y in Identities(run) && y != x
  {
    AllAreOne(run, x);
    if !AllAre(run, x) {
      var y :| y in Identities(run) && y !in {x};
    }
  }

  /** Every SHA the run names is `x` exactly when `x` is all it names. */
  lemma AllAreOne(run: WorkRun, x: string)
    ensures AllAre(run, x) <==> Identities(run) <= {x}
  {
    forall s | s in [run.candidateSha, run.reviewedSha, run.adjudicationSha, run.gateSha, run.landedSha,
                     run.closeEvidenceSha]
      ensures AbsentOr(s, x) <==> Present(s) <= {x}
    {
      if s.Some? { assert s.value in Present(s); }
    }
  }

  lemma {:induction false} SubsetSize(a: set<string>, b: set<string>)
    requires a <= b
    ensures |a| <= |b|
  {
    if a != {} {
      var x :| x in a;
      SubsetSize(a - {x}, b - {x});
    }
  }

  /** The SHA two agreeing observations share, or any text when they name none. */
  function Shared(p: WorkRun, c: WorkRun): string {
    Keep(FirstIdentity(p), Keep(FirstIdentity(c), Some(""))).value
  }

  lemma AgreeOnShared(p: WorkRun, c: WorkRun)
    ensures !SeveralIdentities(p, c) ==> AllAre(p, Shared(p, c)) && AllAre(c, Shared(p, c))
  {
    IdentityMember(p, Shared(p, c));
    IdentityMember(c, Shared(p, c));
  }

  lemma AgreeMeansOne(p: WorkRun, c: WorkRun, sha: string)
    requires AllAre(p, sha) && AllAre(c, sha)
    ensures !SeveralIdentities(p, c)
  {
  }

  lemma FilledKeepsSha(p: WorkRun, c: WorkRun, sha: string)
    requires AllAre(p, sha) && AllAre(c, sha)
    ensures AllAre(Filled(p, c), sha)
  {
  }

  /** No branch invents a SHA. */
  lemma MergeKeepsSha(p: WorkRun, c: WorkRun, sha: string)
    requires SameWorkRun(p, c) && AllAre(p, sha) && AllAre(c, sha)
    ensures AllAre(MergeObservation(p, c), sha)
  {
    FilledKeepsSha(p, c, sha);
    var m := MergeIdentity(p, c);
    assert AllAre(m, sha);
  }

  /** Filling gaps twice from the same pair is filling them once. */
  lemma FilledTwice(p: WorkRun, c: WorkRun, m: WorkRun)
    requires m == Filled(p, c).(workItemKey := m.workItemKey, issue := m.issue, worktree := m.worktree,
                                resultPublished := m.resultPublished, deliveryConflict := m.deliveryConflict)
    ensures Filled(m, c) == Filled(p, c)
  {
  }

  /** After one merge the run is in visible conflict or names a single SHA. */
  lemma MergeIsConflictedOrSingle(p: WorkRun, c: WorkRun)
    requires SameWorkRun(p, c)
    ensures var m := MergeObservation(p, c);
            m.deliveryConflict || !SeveralIdentities(m, m)
  {
    if !SeveralIdentities(p, c) {
      var sha := Shared(p, c);
      AgreeOnShared(p, c);
      MergeKeepsSha(p, c, sha);
      AgreeMeansOne(MergeObservation(p, c), MergeObservation(p, c), sha);
    }
  }

  /** Whether a merge took the source's first branch. */
  predicate Conflicting(p: WorkRun, c: WorkRun) {
    SeveralIdentities(p, c) || p.deliveryConflict || c.deliveryConflict
  }

  lemma RemergeConflicting(p: WorkRun, c: WorkRun)
    requires SameWorkRun(p, c) && (Conflicting(p, c) || TypedNonResult(p))
    ensures var m := MergeObservation(p, c);
            m.deliveryConflict && MergeObservation(m, c) == m
  {
  }

  lemma RemergeNonResult(p: WorkRun, c: WorkRun)
    requires SameWorkRun(p, c) && !Conflicting(p, c) && !TypedNonResult(p) && TypedNonResult(c)
    ensures var m := MergeObservation(p, c);
            TypedNonResult(m) && MergeObservation(m, c) == m.(deliveryConflict := true)
  {
  }

  lemma RemergeLanded(p: WorkRun, c: WorkRun)
    requires SameWorkRun(p, c) && !Conflicting(p, c) && !TypedNonResult(p) && !TypedNonResult(c)
    requires p.landedSha.Some?
    ensures var m := MergeObservation(p, c);
            !TypedNonResult(m) && MergeObservation(m, c) == m
  {
    AgreeOnShared(p, c);
    MergeKeepsSha(p, c, Shared(p, c));
    AgreeMeansOne(MergeObservation(p, c), c, Shared(p, c));
  }

  lemma RemergeProgress(p: WorkRun, c: WorkRun)
    requires SameWorkRun(p, c) && !Conflicting(p, c) && !TypedNonResult(p) && !TypedNonResult(c)
    requires p.landedSha.None?
    ensures var m := MergeObservation(p, c);
            !TypedNonResult(m) && MergeObservation(m, c) == m
  {
    var m := MergeObservation(p, c);
    AgreeOnShared(p, c);
    MergeKeepsSha(p, c, Shared(p, c));
    AgreeMeansOne(m, c, Shared(p, c));
    FilledTwice(p, c, m);
    if !m.deliveryConflict && m.landedSha.None? {
      assert MergeIdentity(m, c) == Filled(p, c);
    }
  }

  /** Merging the same observation again changes nothing, except that a typed
      non-result merged twice is marked as a conflict. */
  lemma RemergeIsIdempotent(p: WorkRun, c: WorkRun)
    requires SameWorkRun(p, c)
    ensures var m := MergeObservation(p, c);
            && SameWorkRun(m, c)
            && MergeObservation(m, c) == m.(deliveryConflict := m.deliveryConflict || TypedNonResult(m))
            && (MergeObservation(m, c) == m <==> m.deliveryConflict || !TypedNonResult(m))
  {
    MergeKeepsIdentity(p, c, c);
    if Conflicting(p, c) || TypedNonResult(p) {
      RemergeConflicting(p, c);
    } else if TypedNonResult(c) {
      RemergeNonResult(p, c);
    } else if p.landedSha.Some? {
      RemergeLanded(p, c);
    } else {
      RemergeProgress(p, c);
    }
  }
}
