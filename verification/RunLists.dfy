/** Merging a list of fresh observations with durable history
    (tools/controller_policy.py, tools/controller.py): no run is lost, none is
    duplicated, and each identity merges on its own. */
module RunLists {
  import opened Text
  import opened Facts
  import opened Merge

  lemma SameWorkRunIsEquivalence(a: WorkRun, b: WorkRun, c: WorkRun)
    ensures SameWorkRun(a, a)
    ensures SameWorkRun(a, b) ==> SameWorkRun(b, a)
    ensures SameWorkRun(a, b) && SameWorkRun(b, c) ==> SameWorkRun(a, c)
  {
  }

  /** The index of the first run with `r`'s identity. */
  function FirstMatch(runs: seq<WorkRun>, r: WorkRun): (m: Option<nat>)
    ensures m.Some? ==> m.value < |runs| && SameWorkRun(r, runs[m.value])
    ensures forall i :: 0 <= i < (if m.Some? then m.value else |runs|) ==> !SameWorkRun(r, runs[i])
  {
    if runs == [] then None
    else if SameWorkRun(r, runs[0]) then Some(0)
    else match FirstMatch(runs[1..], r)
      case None => None
      case Some(i) => Some(i + 1)
  }

  /** The run with `r`'s identity, if any. */
  function Find(runs: seq<WorkRun>, r: WorkRun): Option<WorkRun> {
    match FirstMatch(runs, r)
    case None => None
    case Some(i) => Some(runs[i])
  }

  /** No two runs share an identity. */
  predicate Distinct(runs: seq<WorkRun>) {
    forall i, j :: 0 <= i < j < |runs| ==> !SameWorkRun(runs[i], runs[j])
  }

  /** One step: a prior run is merged into its first match, or carried over. */
  function Absorb(current: seq<WorkRun>, prior: WorkRun): seq<WorkRun> {
    match FirstMatch(current, prior)
    case None => current + [prior]
    case Some(i) => current[i := MergeObservation(prior, current[i])]
  }

  /** `merge_work_run_observations`. */
  function MergeRuns(previous: seq<WorkRun>, current: seq<WorkRun>): seq<WorkRun> {
    if previous == [] then current
    else
      var n := |previous| - 1;
      Absorb(MergeRuns(previous[..n], current), previous[n])
  }

  /** `merge_work_run_observations`, overwriting and appending slots as the source does. */
  method MergeWorkRunObservations(previous: seq<WorkRun>, current: seq<WorkRun>) returns (merged: seq<WorkRun>)
    ensures merged == MergeRuns(previous, current)
  {
    merged := current;
    for k := 0 to |previous|
      invariant merged == MergeRuns(previous[..k], current)
    {
      var prior := previous[k];
      assert previous[..k + 1][..k] == previous[..k];
      var found := FirstMatch(merged, prior);
      if found.None? {
        merged := merged + [prior];
      } else {
        merged := merged[found.value := MergeObservation(prior, merged[found.value])];
      }
    }
    assert previous[..|previous|] == previous;
  }

  lemma FirstMatchIs(runs: seq<WorkRun>, r: WorkRun, i: nat)
    requires i < |runs| && SameWorkRun(r, runs[i])
    requires forall j :: 0 <= j < i ==> !SameWorkRun(r, runs[j])
    ensures FirstMatch(runs, r) == Some(i)
  {
  }

  /** What one absorbed run changes: its own identity, and nothing else. */
  lemma AbsorbPointwise(current: seq<WorkRun>, p: WorkRun, x: WorkRun)
    ensures Find(Absorb(current, p), x) ==
            if !SameWorkRun(p, x) then Find(current, x)
            else match Find(current, x)
              case None => Some(p)
              case Some(c) => if SameWorkRun(p, c) then Some(MergeObservation(p, c)) else None
  {
    var after := Absorb(current, p);
    forall r ensures SameWorkRun(p, x) ==> (SameWorkRun(p, r) <==> SameWorkRun(x, r)) {
      SameWorkRunIsEquivalence(x, p, r);
      SameWorkRunIsEquivalence(p, x, r);
    }
    var m := FirstMatch(current, p);
    if m.None? {
      if SameWorkRun(p, x) {
        FirstMatchIs(after, x, |current|);
      } else {
        SameWorkRunIsEquivalence(x, p, x);
        assert after[|current|] == p;
        var f := FirstMatch(current, x);
        if f.Some? { FirstMatchIs(after, x, f.value); }
      }
    } else {
      var i := m.value;
      MergeKeepsIdentity(p, current[i], x);
      SameWorkRunIsEquivalence(x, after[i], x);
      SameWorkRunIsEquivalence(after[i], x, after[i]);
      if SameWorkRun(p, x) {
        FirstMatchIs(current, x, i);
        FirstMatchIs(after, x, i);
      } else {
        SameWorkRunIsEquivalence(p, current[i], x);
        SameWorkRunIsEquivalence(x, current[i], x);
        var f := FirstMatch(current, x);
        if f.Some? { FirstMatchIs(after, x, f.value); }
      }
    }
  }

  /** Both records of an identity merged, or the only one there is. */
  function Combined(prior: Option<WorkRun>, observed: Option<WorkRun>): Option<WorkRun>
  {
    if prior.None? then observed
    else if observed.None? then prior
    else if SameWorkRun(prior.value, observed.value) then Some(MergeObservation(prior.value, observed.value))
    else None
  }

  lemma FindAppend(runs: seq<WorkRun>, p: WorkRun, x: WorkRun)
    ensures Find(runs + [p], x) == if Find(runs, x).Some? then Find(runs, x)
                                   else if SameWorkRun(x, p) then Some(p) else None
  {
    var f := FirstMatch(runs, x);
    if f.Some? {
      FirstMatchIs(runs + [p], x, f.value);
    } else if SameWorkRun(x, p) {
      FirstMatchIs(runs + [p], x, |runs|);
    }
  }

  /** An identity's only run in a distinct list ends it. */
  lemma DistinctLast(runs: seq<WorkRun>, p: WorkRun, x: WorkRun)
    requires Distinct(runs + [p]) && SameWorkRun(p, x)
    ensures Find(runs, x).None?
  {
    var f := FirstMatch(runs, x);
    if f.Some? {
      assert (runs + [p])[f.value] == runs[f.value] && (runs + [p])[|runs|] == p;
      SameWorkRunIsEquivalence(x, runs[f.value], x);
      SameWorkRunIsEquivalence(p, x, p);
      SameWorkRunIsEquivalence(runs[f.value], x, p);
    }
  }

  /** The merged list, identity by identity: history and observation merge
      where both exist, and neither is lost where only one does. */
  lemma {:induction false} MergeRunsPointwise(previous: seq<WorkRun>, current: seq<WorkRun>, x: WorkRun)
    requires Distinct(previous)
    ensures Find(MergeRuns(previous, current), x) == Combined(Find(previous, x), Find(current, x))
  {
    if previous != [] {
      var n := |previous| - 1;
      var rest, p := previous[..n], previous[n];
      assert previous == rest + [p];
      MergeRunsPointwise(rest, current, x);
      AbsorbPointwise(MergeRuns(rest, current), p, x);
      FindAppend(rest, p, x);
      SameWorkRunIsEquivalence(p, x, p);
      SameWorkRunIsEquivalence(x, p, x);
      if SameWorkRun(p, x) {
        DistinctLast(rest, p, x);
      }
    }
  }

  /** Merging never puts two runs of one identity side by side. */
  lemma {:induction false} MergeRunsDistinct(previous: seq<WorkRun>, current: seq<WorkRun>)
    requires Distinct(current)
    ensures Distinct(MergeRuns(previous, current))
  {
    if previous != [] {
      var n := |previous| - 1;
      var rest := MergeRuns(previous[..n], current);
      MergeRunsDistinct(previous[..n], current);
      AbsorbDistinct(rest, previous[n]);
    }
  }

  lemma AbsorbDistinct(runs: seq<WorkRun>, p: WorkRun)
    requires Distinct(runs)
    ensures Distinct(Absorb(runs, p))
  {
    var after := Absorb(runs, p);
    var m := FirstMatch(runs, p);
    forall i, j | 0 <= i < j < |after| ensures !SameWorkRun(after[i], after[j]) {
      if m.None? {
        if j == |runs| { SameWorkRunIsEquivalence(runs[i], p, p); }
      } else {
        var k := m.value;
        SameWorkRunIsEquivalence(p, runs[k], runs[if i == k then j else i]);
        SameWorkRunIsEquivalence(runs[k], p, runs[if i == k then j else i]);
        SameWorkRunIsEquivalence(runs[i], after[k], p);
        SameWorkRunIsEquivalence(after[k], runs[i], p);
        if i == k {
          MergeKeepsIdentity(p, runs[k], runs[j]);
        } else if j == k {
          MergeKeepsIdentity(p, runs[k], runs[i]);
        }
      }
    }
  }
}
