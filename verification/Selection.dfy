/** Selection does not depend on the order facts arrive in. */
module Selection {
  import opened Text
  import opened Facts
  import opened Policy
  import opened Launch

  // ------------------------------------------------------------ the priority order

  lemma BeforeIsStrictTotal(a: PriorityKey, b: PriorityKey, c: PriorityKey)
    ensures !Before(a, a)
    ensures a != b ==> Before(a, b) || Before(b, a)
    ensures !(Before(a, b) && Before(b, a))
    ensures Before(a, b) && Before(b, c) ==> Before(a, c)
    ensures !Before(b, a) && !Before(c, b) ==> !Before(c, a)
  {
    LessTotal(a.key, b.key);
    LessTotal(b.key, c.key);
    LessTotal(a.key, c.key);
    LessTotal(a.key, a.key);
    if Less(a.key, b.key) && Less(b.key, c.key) { LessTransitive(a.key, b.key, c.key); }
    if Less(c.key, a.key) && Less(a.key, b.key) { LessTransitive(c.key, a.key, b.key); }
    if Less(b.key, c.key) && Less(c.key, a.key) { LessTransitive(b.key, c.key, a.key); }
  }

  /** No later item precedes an earlier one. */
  predicate Sorted(items: seq<WorkItem>, f: ControlFacts) {
    forall i, j :: 0 <= i < j < |items| ==> !Before(KeyOf(items[j], f), KeyOf(items[i], f))
  }

  /** Nothing in `rest` precedes `head`. */
  predicate Heads(head: WorkItem, rest: seq<WorkItem>, f: ControlFacts) {
    forall j :: 0 <= j < |rest| ==> !Before(KeyOf(rest[j], f), KeyOf(head, f))
  }

  lemma SortedByHead(head: WorkItem, rest: seq<WorkItem>, f: ControlFacts)
    ensures Sorted([head] + rest, f) <==> Sorted(rest, f) && Heads(head, rest, f)
  {
    var s := [head] + rest;
    if Sorted(s, f) {
      forall i, j | 0 <= i < j < |rest| ensures !Before(KeyOf(rest[j], f), KeyOf(rest[i], f)) {
        assert s[i + 1] == rest[i] && s[j + 1] == rest[j];
      }
      forall j | 0 <= j < |rest| ensures !Before(KeyOf(rest[j], f), KeyOf(head, f)) {
        assert s[0] == head && s[j + 1] == rest[j];
      }
    }
  }

  lemma HeadsAll(item: WorkItem, head: WorkItem, rest: seq<WorkItem>, f: ControlFacts)
    requires Before(KeyOf(item, f), KeyOf(head, f)) && Heads(head, rest, f)
    ensures Heads(item, [head] + rest, f)
  {
    forall j | 0 <= j < |[head] + rest| ensures !Before(KeyOf(([head] + rest)[j], f), KeyOf(item, f)) {
      var x := ([head] + rest)[j];
      BeforeIsStrictTotal(KeyOf(item, f), KeyOf(head, f), KeyOf(x, f));
    }
  }

  lemma HeadsInserted(head: WorkItem, rest: seq<WorkItem>, item: WorkItem, f: ControlFacts)
    requires Heads(head, rest, f) && !Before(KeyOf(item, f), KeyOf(head, f))
    ensures Heads(head, Insert(rest, item, f), f)
  {
    var r := Insert(rest, item, f);
    forall j | 0 <= j < |r| ensures !Before(KeyOf(r[j], f), KeyOf(head, f)) {
      InsertMember(rest, item, f, r[j]);
      assert r[j] in r;
    }
  }

  lemma {:induction false} InsertSorted(sorted: seq<WorkItem>, item: WorkItem, f: ControlFacts)
    requires Sorted(sorted, f)
    ensures Sorted(Insert(sorted, item, f), f)
    ensures multiset(Insert(sorted, item, f)) == multiset(sorted) + multiset{item}
  {
    if sorted == [] {
      assert Insert(sorted, item, f) == [item];
    } else {
      var head, rest := sorted[0], sorted[1..];
      assert sorted == [head] + rest;
      SortedByHead(head, rest, f);
      if Before(KeyOf(item, f), KeyOf(head, f)) {
        HeadsAll(item, head, rest, f);
        SortedByHead(item, sorted, f);
      } else {
        InsertSorted(rest, item, f);
        HeadsInserted(head, rest, item, f);
        SortedByHead(head, Insert(rest, item, f), f);
      }
    }
  }

  /** `eligible_work_items` is the eligible items, in priority order. */
  lemma {:induction false} EligibleSortedIsSorted(items: seq<WorkItem>, f: ControlFacts)
    ensures Sorted(EligibleSorted(items, f), f)
    ensures multiset(EligibleSorted(items, f)) == multiset(EligibleOnly(items, f))
  {
    if items != [] {
      var n := |items| - 1;
      EligibleSortedIsSorted(items[..n], f);
      InsertSorted(EligibleSorted(items[..n], f), items[n], f);
    }
  }

  function EligibleOnly(items: seq<WorkItem>, f: ControlFacts): seq<WorkItem> {
    if items == [] then []
    else
      var n := |items| - 1;
      EligibleOnly(items[..n], f) + (if IsEligible(items[n], f) then [items[n]] else [])
  }

  /** `x` is eligible and strictly precedes every other eligible item. */
  predicate IsStrictMinimum(x: WorkItem, f: ControlFacts) {
    && x in f.workItems && IsEligible(x, f)
    && forall y :: y in f.workItems && IsEligible(y, f) && y != x ==> Before(KeyOf(x, f), KeyOf(y, f))
  }

  /** The selected item is exactly the strict minimum of the eligible ones. */
  lemma NextIsStrictMinimum(f: ControlFacts, x: WorkItem)
    requires WellFormedItems(f.workItems)
    ensures NextWorkItem(f) == Some(x) <==> IsStrictMinimum(x, f)
  {
    NextIsEligible(f);
    EligibleSortedIsSorted(f.workItems, f);
    var eligible := EligibleWorkItems(f);
    if NextWorkItem(f).Some? {
      var first := eligible[0];
      forall y | y in f.workItems && IsEligible(y, f) && y != first
        ensures Before(KeyOf(first, f), KeyOf(y, f))
      {
        EligibleSortedIsEligible(f.workItems, f, y);
        var j :| 0 <= j < |eligible| && eligible[j] == y;
        if y.key == first.key { OneItemPerName(f.workItems, y, first); }
        BeforeIsStrictTotal(KeyOf(first, f), KeyOf(y, f), KeyOf(y, f));
      }
      if IsStrictMinimum(x, f) && x != first {
        BeforeIsStrictTotal(KeyOf(first, f), KeyOf(x, f), KeyOf(first, f));
      }
    }
  }

  // ------------------------------------------------------------ the reason

  /** An item is reported `eligible` exactly when the scheduler may launch it. */
  lemma ReasonIsEligibleExactly(item: WorkItem, f: ControlFacts)
    ensures EligibilityReason(item, f) == "eligible" <==> IsEligible(item, f)
    ensures EligibilityReason(item, f) == "eligible" && item in f.workItems <==> item in EligibleWorkItems(f)
  {
    EligibleSortedIsEligible(f.workItems, f, item);
    assert ("state:" + item.state)[0] == 's';
    assert "eligible"[0] == 'e' && "eligible"[1] == 'l';
    forall text: string ensures ("blocked_by:" + text)[0] == 'b' && ("external_bar:" + text)[1] == 'x' {}
    var reason := EligibilityReason(item, f);
    assert IsReady(item, f.workItems) <==>
           IsOpen(item) && FirstUnknown(item.blockedBy, f.workItems).None?
           && FirstUnsatisfied(item.blockedBy, f.workItems).None?;
  }

  // ------------------------------------------------------------ order independence

  /** The same facts, with items, runs and worktree debt in any order. */
  ghost predicate Permuted(f: ControlFacts, g: ControlFacts) {
    && multiset(f.workItems) == multiset(g.workItems)
    && multiset(f.workRuns) == multiset(g.workRuns)
    && multiset(f.worktreeDebt) == multiset(g.worktreeDebt)
    && g == f.(workItems := g.workItems, workRuns := g.workRuns, worktreeDebt := g.worktreeDebt)
  }

  lemma SameMembers<T>(a: seq<T>, b: seq<T>, x: T)
    requires multiset(a) == multiset(b)
    ensures x in a <==> x in b
  {
    assert x in a <==> x in multiset(a);
  }

  lemma OwnsSlotPermuted(run: WorkRun, a: seq<WorkItem>, b: seq<WorkItem>)
    requires multiset(a) == multiset(b)
    ensures OwnsSlot(run, a) <==> OwnsSlot(run, b)
  {
    forall item ensures item in a <==> item in b { SameMembers(a, b, item); }
  }

  lemma {:induction false} LiveCount(runs: seq<WorkRun>, items: seq<WorkItem>, run: WorkRun)
    ensures multiset(LiveAmong(runs, items))[run] == if OwnsSlot(run, items) then multiset(runs)[run] else 0
  {
    if runs != [] {
      var n := |runs| - 1;
      LiveCount(runs[..n], items, run);
      assert runs == runs[..n] + [runs[n]];
    }
  }

  lemma LivePermuted(f: ControlFacts, g: ControlFacts)
    requires Permuted(f, g)
    ensures multiset(LiveWorkRuns(f)) == multiset(LiveWorkRuns(g))
    ensures OccupiedCapacity(f) == OccupiedCapacity(g)
  {
    forall run ensures multiset(LiveWorkRuns(f))[run] == multiset(LiveWorkRuns(g))[run] {
      LiveCount(f.workRuns, f.workItems, run);
      LiveCount(g.workRuns, g.workItems, run);
      OwnsSlotPermuted(run, f.workItems, g.workItems);
    }
    assert |multiset(LiveWorkRuns(f))| == |LiveWorkRuns(f)|;
    assert |multiset(LiveWorkRuns(g))| == |LiveWorkRuns(g)|;
    assert |multiset(f.worktreeDebt)| == |f.worktreeDebt| && |multiset(g.worktreeDebt)| == |g.worktreeDebt|;
  }

  /** Each live run names at most one item. */
  predicate RunsMatchOnce(f: ControlFacts) {
    forall run, a, b ::
      (run in LiveWorkRuns(f) && a in f.workItems && b in f.workItems
       && RunMatchesItem(run, a) && RunMatchesItem(run, b)) ==> a == b
  }

  lemma LookupPermuted(a: seq<WorkItem>, b: seq<WorkItem>, key: string)
    requires multiset(a) == multiset(b) && WellFormedItems(a)
    ensures Lookup(a, key) == Lookup(b, key)
    ensures ItemByKey(key, a) == ItemByKey(key, b)
  {
    forall item ensures item in a <==> item in b { SameMembers(a, b, item); }
  }

  lemma DebtPermuted(debt: WorktreeDebt, a: seq<WorkItem>, b: seq<WorkItem>)
    requires multiset(a) == multiset(b) && WellFormedItems(a)
    ensures ItemForDebt(debt, a) == ItemForDebt(debt, b)
  {
    forall item ensures item in a <==> item in b { SameMembers(a, b, item); }
    if debt.workItemKey.Some? { LookupPermuted(a, b, debt.workItemKey.value); }
  }

  lemma HeldPermuted(f: ControlFacts, g: ControlFacts)
    requires Permuted(f, g) && WellFormedItems(f.workItems) && RunsMatchOnce(f)
    ensures HeldResources(f) == HeldResources(g)
  {
    LivePermuted(f, g);
    forall item ensures item in f.workItems <==> item in g.workItems { SameMembers(f.workItems, g.workItems, item); }
    forall run ensures run in LiveWorkRuns(f) <==> run in LiveWorkRuns(g) {
      SameMembers(LiveWorkRuns(f), LiveWorkRuns(g), run);
    }
    forall run | run in LiveWorkRuns(f) ensures ItemForRun(run, f.workItems) == ItemForRun(run, g.workItems) {
    }
    forall debt ensures debt in f.worktreeDebt <==> debt in g.worktreeDebt {
      SameMembers(f.worktreeDebt, g.worktreeDebt, debt);
    }
    forall debt ensures ItemForDebt(debt, f.workItems) == ItemForDebt(debt, g.workItems) {
      DebtPermuted(debt, f.workItems, g.workItems);
    }
  }

  lemma EligiblePermuted(f: ControlFacts, g: ControlFacts, item: WorkItem)
    requires Permuted(f, g) && WellFormedItems(f.workItems) && RunsMatchOnce(f)
    ensures IsEligible(item, f) <==> IsEligible(item, g)
  {
    LivePermuted(f, g);
    HeldPermuted(f, g);
    forall run ensures run in LiveWorkRuns(f) <==> run in LiveWorkRuns(g) {
      SameMembers(LiveWorkRuns(f), LiveWorkRuns(g), run);
    }
    forall key ensures Lookup(f.workItems, key) == Lookup(g.workItems, key) {
      LookupPermuted(f.workItems, g.workItems, key);
    }
  }

  lemma WellFormedPermuted(a: seq<WorkItem>, b: seq<WorkItem>)
    requires multiset(a) == multiset(b) && WellFormedItems(a)
    ensures WellFormedItems(b)
  {
    forall item ensures item in a <==> item in b { SameMembers(a, b, item); }
    forall i, j | 0 <= i < j < |b|
      ensures b[i].key != b[j].key && !SameIssue(b[i].issue, b[j].issue)
    {
      if b[i].key == b[j].key || SameIssue(b[i].issue, b[j].issue) {
        OneItemPerName(a, b[i], b[j]);
        OccursTwice(b, i, j);
        OccursOnce(a, b[i]);
      }
    }
  }

  lemma OccursTwice<T>(s: seq<T>, i: nat, j: nat)
    requires i < j < |s| && s[i] == s[j]
    ensures multiset(s)[s[i]] >= 2
  {
    assert s == s[..i] + [s[i]] + s[i + 1..j] + [s[j]] + s[j + 1..];
  }

  lemma {:induction false} OccursOnce(items: seq<WorkItem>, x: WorkItem)
    requires WellFormedItems(items)
    ensures multiset(items)[x] <= 1
  {
    if items != [] {
      var n := |items| - 1;
      assert items == items[..n] + [items[n]];
      OccursOnce(items[..n], x);
      assert items[n] !in items[..n];
    }
  }

  /** The item selected next is the same for every order of items, runs and debt. */
  lemma SelectionIsOrderIndependent(f: ControlFacts, g: ControlFacts)
    requires Permuted(f, g) && WellFormedItems(f.workItems) && RunsMatchOnce(f)
    ensures NextWorkItem(f) == NextWorkItem(g)
  {
    WellFormedPermuted(f.workItems, g.workItems);
    forall item
      ensures item in f.workItems <==> item in g.workItems
      ensures IsEligible(item, f) <==> IsEligible(item, g)
    {
      SameMembers(f.workItems, g.workItems, item);
      EligiblePermuted(f, g, item);
    }
    NextIsEligible(f);
    NextIsEligible(g);
    if NextWorkItem(f).Some? {
      var x := NextWorkItem(f).value;
      NextIsStrictMinimum(f, x);
      assert forall item :: KeyOf(item, f) == KeyOf(item, g);
      NextIsStrictMinimum(g, x);
    }
  }

  // ------------------------------------------------------------ the snapshot decides

  lemma SnapshotEligible(f: ControlFacts, g: ControlFacts, item: WorkItem)
    requires SnapshotOf(f) == SnapshotOf(g)
    ensures IsEligible(item, f) <==> IsEligible(item, g)
    ensures KeyOf(item, f) == KeyOf(item, g)
  {
  }

  lemma {:induction false} SnapshotInsert(sorted: seq<WorkItem>, item: WorkItem, f: ControlFacts, g: ControlFacts)
    requires SnapshotOf(f) == SnapshotOf(g)
    ensures Insert(sorted, item, f) == Insert(sorted, item, g)
  {
    if sorted != [] {
      SnapshotEligible(f, g, item);
      SnapshotEligible(f, g, sorted[0]);
      SnapshotInsert(sorted[1..], item, f, g);
    }
  }

  lemma {:induction false} SnapshotSorted(items: seq<WorkItem>, f: ControlFacts, g: ControlFacts)
    requires SnapshotOf(f) == SnapshotOf(g)
    ensures EligibleSorted(items, f) == EligibleSorted(items, g)
  {
    if items != [] {
      var n := |items| - 1;
      SnapshotSorted(items[..n], f, g);
      SnapshotEligible(f, g, items[n]);
      SnapshotInsert(EligibleSorted(items[..n], f), items[n], f, g);
    }
  }

  /** Fact sets with one coordination snapshot select the same item: the
      snapshot leaves out nothing that selection reads. */
  lemma SnapshotDecides(f: ControlFacts, g: ControlFacts)
    requires SnapshotOf(f) == SnapshotOf(g)
    ensures NextWorkItem(f) == NextWorkItem(g)
  {
    SnapshotSorted(f.workItems, f, g);
  }
}
