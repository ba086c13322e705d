/** A validated plan is always deliverable: the planner's checks, joined to the
    scheduler, rule out deadlock and bound the number of launches exactly. */
module Progress {
  import opened Text
  import opened Facts
  import opened Policy
  import opened Merge
  import opened Launch
  import opened PlanGraph

  datatype Plan = Plan(keys: set<string>, edges: seq<Dependency>, claims: seq<Claim>)

  /** What `_validate_dependencies` and `_validate_resource_edges` accept. */
  ghost predicate Validated(plan: Plan) {
    && FirstFault(plan.edges, plan.keys).None?
    && !HasCycle(GraphOf(plan.keys, plan.edges))
    && (forall i, j :: 0 <= i < j < |plan.claims| ==> Separated(plan.claims, plan.edges, i, j))
    && (forall i, j :: 0 <= i < j < |plan.claims| ==> plan.claims[i].key != plan.claims[j].key)
    && plan.keys == set c | c in plan.claims :: c.key
  }

  /** The tracker shows the plan: one item per key, blocked by exactly its edges. */
  ghost predicate Realizes(items: seq<WorkItem>, plan: Plan) {
    && WellFormedItems(items)
    && plan.keys == (set item | item in items :: item.key)
    && (forall item, b :: item in items ==>
          (b in item.blockedBy <==> exists e :: e in plan.edges && e.blocked == item.key && e.blocker == b))
    && (forall item :: item in items ==>
          exists c :: c in plan.claims && c.key == item.key && c.resources == item.exclusiveResources)
  }

  // ------------------------------------------------------------ a minimal incomplete item

  lemma {:induction false} NoRepeatsSize(p: seq<string>)
    requires NoRepeats(p)
    ensures |Elements(p)| == |p|
  {
    if p != [] {
      var n := |p| - 1;
      NoRepeatsSize(p[..n]);
      assert Elements(p) == Elements(p[..n]) + {p[n]};
    }
  }

  ghost predicate BlockedWithin(g: Graph, s: set<string>, k: string)
    requires k in g
  {
    exists b :: b in g[k] && b in s
  }

  /** When every key of `s` has a blocker in `s`, paths within `s` go on for ever. */
  lemma {:induction false} LongPath(g: Graph, s: set<string>, n: nat) returns (p: seq<string>)
    requires s != {} && s <= g.Keys && forall k :: k in s ==> BlockedWithin(g, s, k)
    ensures |p| == n + 1 && IsPath(g, p) && Elements(p) <= s
  {
    if n == 0 {
      var k :| k in s;
      p := [k];
    } else {
      var q := LongPath(g, s, n - 1);
      var last := q[n - 1];
      assert last in Elements(q) && BlockedWithin(g, s, last);
      var b :| b in g[last] && b in s;
      p := q + [b];
    }
  }

  /** An acyclic graph has, within every non-empty set of keys, one whose blockers all lie outside it. */
  lemma MinimalKey(g: Graph, s: set<string>) returns (k: string)
    requires s != {} && s <= g.Keys && !HasCycle(g)
    ensures k in s && !BlockedWithin(g, s, k)
  {
    if forall x :: x in s ==> BlockedWithin(g, s, x) {
      var p := LongPath(g, s, |s|);
      if NoRepeats(p) {
        NoRepeatsSize(p);
        SubsetSize(Elements(p), s);
      } else {
        var i, j :| 0 <= i < j < |p| && p[i] == p[j];
        RepeatIsCycle(g, p, i, j);
      }
      k := "";
    } else {
      k :| k in s && !BlockedWithin(g, s, k);
    }
  }

  lemma RepeatIsCycle(g: Graph, p: seq<string>, i: nat, j: nat)
    requires IsPath(g, p) && i < j < |p| && p[i] == p[j]
    ensures HasCycle(g)
  {
    var cycle := p[i..j + 1];
    forall k | 0 <= k < |cycle| - 1 ensures cycle[k] in g && cycle[k + 1] in g[cycle[k]] {
      assert cycle[k] == p[i + k] && cycle[k + 1] == p[i + k + 1];
    }
    assert IsCycle(g, cycle);
  }

  // ------------------------------------------------------------ no deadlock

  /** No live run, no debt, no bars, room for one launch, and every item open or complete. */
  predicate AtRest(f: ControlFacts) {
    && LiveWorkRuns(f) == [] && f.worktreeDebt == [] && f.externalBars == []
    && f.wipLimit.Some? && f.wipLimit.value >= 1
    && (forall item :: item in f.workItems ==> IsOpen(item) || IsComplete(item))
  }

  /** At rest, with every completion absorbed into its item. */
  predicate Quiet(f: ControlFacts) {
    && AtRest(f)
    && (forall item :: item in f.workItems && !IsComplete(item) ==> !HasCompletion(item, f.workRuns))
  }

  function IncompleteKeys(items: seq<WorkItem>): set<string> {
    set item | item in items && !IsComplete(item) :: item.key
  }

  lemma LookupUnique(items: seq<WorkItem>, item: WorkItem)
    requires WellFormedItems(items) && item in items
    ensures Lookup(items, item.key) == Some(item)
  {
    OneItemPerName(items, Lookup(items, item.key).value, item);
  }

  /** A blocker outside the incomplete set is a known, complete item. */
  lemma BlockerSatisfied(items: seq<WorkItem>, plan: Plan, item: WorkItem, b: string)
    requires Validated(plan) && Realizes(items, plan) && item in items && b in item.blockedBy
    requires b !in IncompleteKeys(items)
    ensures Satisfied(b, items)
  {
    var e :| e in plan.edges && e.blocked == item.key && e.blocker == b;
    FaultlessEdges(plan.edges, plan.keys);
    var blocker :| blocker in items && blocker.key == b;
    LookupUnique(items, blocker);
  }

  lemma PlanEdge(items: seq<WorkItem>, plan: Plan, item: WorkItem, b: string)
    requires Realizes(items, plan) && item in items && b in item.blockedBy
    ensures b in BlockersOf(item.key, plan.edges)
  {
  }

  /** An incomplete item whose blockers are all complete is eligible when nothing else is in the way. */
  lemma MinimalIsEligible(f: ControlFacts, plan: Plan, item: WorkItem)
    requires Validated(plan) && Realizes(f.workItems, plan) && AtRest(f)
    requires item in f.workItems && !IsComplete(item) && item.key in plan.keys
    requires !BlockedWithin(GraphOf(plan.keys, plan.edges), IncompleteKeys(f.workItems), item.key)
    ensures IsEligible(item, f)
  {
    forall b | b in item.blockedBy ensures Satisfied(b, f.workItems) {
      PlanEdge(f.workItems, plan, item, b);
      BlockerSatisfied(f.workItems, plan, item, b);
    }
    assert IsReady(item, f.workItems);
    assert HeldResources(f) == {};
    assert OccupiedCapacity(f) == 0;
  }

  /** While any item of a validated plan is incomplete, one can be launched. */
  lemma NoDeadlock(f: ControlFacts, plan: Plan)
    requires Validated(plan) && Realizes(f.workItems, plan) && AtRest(f)
    ensures NextWorkItem(f).Some? <==> IncompleteKeys(f.workItems) != {}
    ensures NextWorkItem(f).Some? ==>
              NextWorkItem(f).value in f.workItems && !IsComplete(NextWorkItem(f).value)
  {
    NextIsEligible(f);
    var s := IncompleteKeys(f.workItems);
    if NextWorkItem(f).Some? {
      assert NextWorkItem(f).value.key in s;
    }
    if s != {} {
      assert s <= plan.keys;
      var k := MinimalKey(GraphOf(plan.keys, plan.edges), s);
      var item :| item in f.workItems && !IsComplete(item) && item.key == k;
      MinimalIsEligible(f, plan, item);
    }
  }

  /** Colliding claims are linked by a resource edge, whichever is listed first. */
  lemma CollidingClaimsLinked(plan: Plan, a: Claim, b: Claim, r: string)
    requires Validated(plan) && a in plan.claims && b in plan.claims && a.key != b.key
    requires r in a.resources && r in b.resources
    ensures ResourceLinked(plan.edges, a.key, b.key)
  {
    var i :| 0 <= i < |plan.claims| && plan.claims[i] == a;
    var j :| 0 <= j < |plan.claims| && plan.claims[j] == b;
    if i < j {
      assert Separated(plan.claims, plan.edges, i, j);
    } else {
      assert Separated(plan.claims, plan.edges, j, i);
    }
  }

  /** Two items that share an exclusive resource are never both dependency-ready. */
  lemma NeverBothReady(items: seq<WorkItem>, plan: Plan, a: WorkItem, b: WorkItem, r: string)
    requires Validated(plan) && Realizes(items, plan)
    requires a in items && b in items && a.key != b.key
    requires r in a.exclusiveResources && r in b.exclusiveResources
    ensures !(IsReady(a, items) && IsReady(b, items))
  {
    LookupUnique(items, a);
    LookupUnique(items, b);
    var ca :| ca in plan.claims && ca.key == a.key && ca.resources == a.exclusiveResources;
    var cb :| cb in plan.claims && cb.key == b.key && cb.resources == b.exclusiveResources;
    CollidingClaimsLinked(plan, ca, cb, r);
    assert b.key in a.blockedBy || a.key in b.blockedBy;
  }

  // ------------------------------------------------------------ delivery terminates

  /** A launched dispatch and the landing report that comes back for it. */
  datatype Delivery = Delivery(runKey: string, report: WorkRun)

  function Launched(f: ControlFacts, d: Delivery): WorkRun
    requires NextWorkItem(f).Some?
  {
    LaunchedRun(Bind(LaunchAction(f, NextWorkItem(f).value), d.runKey), d.runKey, d.runKey)
  }

  /** The report completes its own dispatch, and names no binding but the launch's own. */
  predicate Lands(f: ControlFacts, d: Delivery)
    requires NextWorkItem(f).Some?
  {
    CompletionReady(d.report) && d.report.dispatchId == Some(d.runKey) && OwnBinding(Launched(f, d), d.report)
  }

  predicate OwnBinding(launched: WorkRun, report: WorkRun) {
    && (report.workItemKey.Some? ==> report.workItemKey == launched.workItemKey)
    && (report.issue.Some? ==> report.issue == launched.issue)
    && (report.worktree.Some? ==> report.worktree == launched.worktree)
  }

  /** Launch the next item, merge its landing report, and absorb the completion. */
  function DeliverNext(f: ControlFacts, d: Delivery): ControlFacts
    requires NextWorkItem(f).Some? && d.report.dispatchId == Some(d.runKey)
  {
    var g := WithWorkRun(f, Bind(LaunchAction(f, NextWorkItem(f).value), d.runKey), d.runKey, d.runKey);
    var n := |g.workRuns| - 1;
    AdvanceCompleted(g.(workRuns := g.workRuns[..n] + [MergeObservation(g.workRuns[n], d.report)]))
  }

  /** A landing report completes the launched run, on the launch's own binding. */
  lemma ReportCompletesRun(launched: WorkRun, report: WorkRun)
    requires launched == BareRun(launched.key, RECORDED_LAUNCH_STATE).(
                           workItemKey := launched.workItemKey, dispatchId := launched.dispatchId,
                           worktree := launched.worktree, issue := launched.issue)
    requires CompletionReady(report) && report.dispatchId.Some? && report.dispatchId == launched.dispatchId
    requires OwnBinding(launched, report) && launched.workItemKey.Some?
    ensures var m := MergeObservation(launched, report);
            CompletionReady(m) && m.workItemKey == launched.workItemKey
            && (launched.issue.Some? || report.issue.None? ==> m.issue == launched.issue)
  {
    AgreeMeansOne(launched, report, report.candidateSha.value);
  }

  lemma {:induction false} KeptAreRuns(runs: seq<WorkRun>, f: ControlFacts, action: ControlAction, runKey: string)
    requires action.StartWorkRun?
    ensures forall run :: run in Kept(runs, f, action, runKey) ==> run in runs
  {
    if runs != [] {
      KeptAreRuns(runs[..|runs| - 1], f, action, runKey);
    }
  }

  lemma {:induction false} NoneLive(runs: seq<WorkRun>, items: seq<WorkItem>)
    requires forall run :: run in runs ==> !OwnsSlot(run, items)
    ensures LiveAmong(runs, items) == []
  {
    if runs != [] {
      var n := |runs| - 1;
      assert runs[n] in runs;
      NoneLive(runs[..n], items);
    }
  }

  /** The items after a delivery, one by one. */
  predicate Delivered(before: seq<WorkItem>, after: seq<WorkItem>, key: string) {
    && |after| == |before|
    && forall i :: 0 <= i < |before| ==>
         && after[i] == before[i].(state := after[i].state)
         && (IsComplete(before[i]) ==> IsComplete(after[i]))
         && (before[i].key == key ==> IsComplete(after[i]))
         && (!IsComplete(before[i]) && before[i].key != key ==> after[i] == before[i])
  }

  /** One delivery completes exactly the launched item and leaves nothing live. */
  lemma DeliverNextStep(f: ControlFacts, d: Delivery)
    requires WellFormedItems(f.workItems) && Quiet(f) && NextWorkItem(f).Some? && Lands(f, d)
    ensures Delivered(f.workItems, DeliverNext(f, d).workItems, NextWorkItem(f).value.key)
    ensures Quiet(DeliverNext(f, d))
  {
    NextIsEligible(f);
    var item := NextWorkItem(f).value;
    var action := Bind(LaunchAction(f, item), d.runKey);
    var g := WithWorkRun(f, action, d.runKey, d.runKey);
    var n := |g.workRuns| - 1;
    var launched := LaunchedRun(action, d.runKey, d.runKey);
    ReportCompletesRun(launched, d.report);
    var done := MergeObservation(launched, d.report);
    var runs := g.workRuns[..n] + [done];
    var mid := g.(workRuns := runs);
    var h := DeliverNext(f, d);
    assert h == AdvanceCompleted(mid);
    KeptAreRuns(f.workRuns, f, action, d.runKey);
    assert done in runs && HasCompletion(item, runs);
    assert item.key in CompleteKeys(mid);
    forall other | other in f.workItems && !IsComplete(other) && other.key != item.key
      ensures other.key !in CompleteKeys(mid)
    {
      forall x | x in f.workItems && x.key == other.key ensures !HasCompletion(x, runs) {
        OneItemPerName(f.workItems, x, other);
        NoOtherCompletion(f, item, done, other, runs);
      }
    }
    forall i | 0 <= i < |f.workItems|
      ensures var x, y := f.workItems[i], h.workItems[i];
              && y == x.(state := y.state) && (IsComplete(x) ==> IsComplete(y))
              && (x.key == item.key ==> IsComplete(y))
              && (!IsComplete(x) && x.key != item.key ==> y == x)
    {
      assert f.workItems[i] in f.workItems;
    }
    DeliveredStaysQuiet(f, h, item, done, runs);
  }

  lemma NoOtherCompletion(f: ControlFacts, item: WorkItem, done: WorkRun, other: WorkItem, runs: seq<WorkRun>)
    requires other in f.workItems && !HasCompletion(other, f.workRuns) && other.key != item.key
    requires done.workItemKey == Some(item.key)
    requires forall run :: run in runs ==> run in f.workRuns || run == done
    ensures !HasCompletion(other, runs)
  {
  }

  lemma DeliveredStaysQuiet(f: ControlFacts, h: ControlFacts, item: WorkItem, done: WorkRun, runs: seq<WorkRun>)
    requires Quiet(f) && Delivered(f.workItems, h.workItems, item.key)
    requires h == f.(workItems := h.workItems, workRuns := runs)
    requires forall run :: run in runs ==> run in f.workRuns || run == done
    requires CompletionReady(done) && done.workItemKey == Some(item.key)
    ensures Quiet(h)
  {
    forall run | run in runs ensures !OwnsSlot(run, h.workItems) {
      if run in f.workRuns {
        assert run !in LiveWorkRuns(f);
        if CompletedItemOwnsNoSlot(run, f.workItems) {
          var x :| x in f.workItems && IsComplete(x) && RunBelongsToItem(run, x);
          var i :| 0 <= i < |f.workItems| && f.workItems[i] == x;
          assert RunBelongsToItem(run, h.workItems[i]) && h.workItems[i] in h.workItems;
        }
      }
    }
    NoneLive(runs, h.workItems);
    forall y | y in h.workItems
      ensures IsOpen(y) || IsComplete(y)
      ensures !IsComplete(y) ==> !HasCompletion(y, runs)
    {
      var i :| 0 <= i < |h.workItems| && h.workItems[i] == y;
      var x := f.workItems[i];
      assert x in f.workItems;
      if !IsComplete(y) {
        NoOtherCompletion(f, item, done, x, runs);
      }
    }
  }

  lemma Origin(before: seq<WorkItem>, after: seq<WorkItem>, key: string, y: WorkItem) returns (x: WorkItem)
    requires Delivered(before, after, key) && y in after
    ensures x in before && y == x.(state := y.state)
    ensures !IsComplete(y) ==> y == x && x.key != key
  {
    var i :| 0 <= i < |after| && after[i] == y;
    x := before[i];
  }

  lemma Image(before: seq<WorkItem>, after: seq<WorkItem>, key: string, x: WorkItem) returns (y: WorkItem)
    requires Delivered(before, after, key) && x in before
    ensures y in after && y == x.(state := y.state)
    ensures !IsComplete(x) && x.key != key ==> y == x
  {
    var i :| 0 <= i < |before| && before[i] == x;
    y := after[i];
  }

  /** Completing one item shrinks the incomplete set by that one key. */
  lemma IncompleteShrinks(before: seq<WorkItem>, after: seq<WorkItem>, item: WorkItem)
    requires item in before && !IsComplete(item) && Delivered(before, after, item.key)
    ensures item.key in IncompleteKeys(before)
    ensures IncompleteKeys(after) == IncompleteKeys(before) - {item.key}
  {
    forall k | k in IncompleteKeys(after) ensures k in IncompleteKeys(before) - {item.key} {
      var y :| y in after && !IsComplete(y) && y.key == k;
      var x := Origin(before, after, item.key, y);
    }
    forall k | k in IncompleteKeys(before) - {item.key} ensures k in IncompleteKeys(after) {
      var x :| x in before && !IsComplete(x) && x.key == k;
      var y := Image(before, after, item.key, x);
    }
  }

  /** The same items, with other states at most. */
  predicate SameShape(before: seq<WorkItem>, after: seq<WorkItem>) {
    |after| == |before| && forall i :: 0 <= i < |before| ==> after[i] == before[i].(state := after[i].state)
  }

  /** Changing states changes nothing the plan speaks of. */
  lemma SameShapeKeepsPlan(before: seq<WorkItem>, after: seq<WorkItem>, plan: Plan)
    requires Realizes(before, plan) && SameShape(before, after)
    ensures Realizes(after, plan)
  {
    forall y | y in after
      ensures y.key != "" && y.key in plan.keys
      ensures forall b :: b in y.blockedBy <==> exists e :: e in plan.edges && e.blocked == y.key && e.blocker == b
      ensures exists c :: c in plan.claims && c.key == y.key && c.resources == y.exclusiveResources
    {
      var i :| 0 <= i < |after| && after[i] == y;
      var x := before[i];
      assert x in before;
      var c :| c in plan.claims && c.key == x.key && c.resources == x.exclusiveResources;
    }
    forall i, j | 0 <= i < j < |after|
      ensures after[i].key != after[j].key && !SameIssue(after[i].issue, after[j].issue)
    {
      assert before[i].key != before[j].key;
    }
    forall k | k in plan.keys ensures exists y :: y in after && y.key == k {
      var x :| x in before && x.key == k;
      var i :| 0 <= i < |before| && before[i] == x;
      assert after[i] in after && after[i].key == k;
    }
  }

  /** The reports whose own dispatch they name. */
  predicate OwnReports(deliveries: seq<Delivery>) {
    forall d :: d in deliveries ==> d.report.dispatchId == Some(d.runKey)
  }

  /** The facts after delivering a list of dispatches, or nothing once no item can be launched. */
  function DeliverAll(f: ControlFacts, deliveries: seq<Delivery>): Option<ControlFacts>
    requires OwnReports(deliveries)
    decreases |deliveries|
  {
    if deliveries == [] then Some(f)
    else if NextWorkItem(f).None? then None
    else
      assert deliveries[0] in deliveries;
      DeliverAll(DeliverNext(f, deliveries[0]), deliveries[1..])
  }

  /** Each report lands the launch it comes back for. */
  predicate AllLand(f: ControlFacts, deliveries: seq<Delivery>)
    requires OwnReports(deliveries)
    decreases |deliveries|
  {
    deliveries != [] && NextWorkItem(f).Some? ==>
      (assert deliveries[0] in deliveries;
       Lands(f, deliveries[0]) && AllLand(DeliverNext(f, deliveries[0]), deliveries[1..]))
  }

  /** One delivery leaves a plan quiet with one incomplete item fewer. */
  lemma DeliverNextProgress(f: ControlFacts, plan: Plan, d: Delivery, g: ControlFacts)
    requires Realizes(f.workItems, plan) && Quiet(f) && NextWorkItem(f).Some? && Lands(f, d)
    requires NextWorkItem(f).value in f.workItems && !IsComplete(NextWorkItem(f).value)
    requires g == DeliverNext(f, d)
    ensures Realizes(g.workItems, plan) && Quiet(g)
    ensures |IncompleteKeys(g.workItems)| == |IncompleteKeys(f.workItems)| - 1
  {
    var item := NextWorkItem(f).value;
    DeliverNextStep(f, d);
    IncompleteShrinks(f.workItems, g.workItems, item);
    SameShapeKeepsPlan(f.workItems, g.workItems, plan);
  }

  lemma DeliverAllStep(f: ControlFacts, deliveries: seq<Delivery>)
    requires OwnReports(deliveries) && deliveries != [] && NextWorkItem(f).Some? && AllLand(f, deliveries)
    ensures deliveries[0].report.dispatchId == Some(deliveries[0].runKey) && OwnReports(deliveries[1..])
    ensures Lands(f, deliveries[0]) && AllLand(DeliverNext(f, deliveries[0]), deliveries[1..])
    ensures DeliverAll(f, deliveries) == DeliverAll(DeliverNext(f, deliveries[0]), deliveries[1..])
  {
    assert deliveries[0] in deliveries;
  }

  /** A validated plan is delivered in exactly as many launches as it has
      incomplete items: fewer leave work, and one more finds nothing to launch. */
  lemma {:induction false} DeliveryTakesExactlyThatMany(f: ControlFacts, plan: Plan, deliveries: seq<Delivery>)
    requires Validated(plan) && Realizes(f.workItems, plan) && Quiet(f)
    requires OwnReports(deliveries) && AllLand(f, deliveries)
    ensures DeliverAll(f, deliveries).Some? <==> |deliveries| <= |IncompleteKeys(f.workItems)|
    ensures DeliverAll(f, deliveries).Some? ==>
              var g := DeliverAll(f, deliveries).value;
              && |IncompleteKeys(g.workItems)| == |IncompleteKeys(f.workItems)| - |deliveries|
              && (NextWorkItem(g).None? <==> |deliveries| == |IncompleteKeys(f.workItems)|)
    decreases |deliveries|
  {
    NoDeadlock(f, plan);
    if deliveries != [] && NextWorkItem(f).Some? {
      DeliverAllStep(f, deliveries);
      var g := DeliverNext(f, deliveries[0]);
      DeliverNextProgress(f, plan, deliveries[0], g);
      DeliveryTakesExactlyThatMany(g, plan, deliveries[1..]);
    }
  }

  // ------------------------------------------------------------ absorbing what had already landed

  /** A run that owned no slot owns none once completions are absorbed. */
  lemma AbsorbedOwnsNoSlot(f: ControlFacts, run: WorkRun)
    requires !OwnsSlot(run, f.workItems)
    ensures !OwnsSlot(run, AdvanceCompleted(f).workItems)
  {
    var items := AdvanceCompleted(f).workItems;
    if CompletedItemOwnsNoSlot(run, f.workItems) {
      var x :| x in f.workItems && IsComplete(x) && RunBelongsToItem(run, x);
      var i :| 0 <= i < |f.workItems| && f.workItems[i] == x;
      assert items[i] in items && IsComplete(items[i]) && RunBelongsToItem(run, items[i]);
    }
  }

  /** What every cycle does first makes any facts at rest quiet. */
  lemma AbsorbedIsQuiet(f: ControlFacts)
    requires AtRest(f)
    ensures Quiet(AdvanceCompleted(f)) && SameShape(f.workItems, AdvanceCompleted(f).workItems)
  {
    var g := AdvanceCompleted(f);
    forall run | run in g.workRuns ensures !OwnsSlot(run, g.workItems) {
      assert run !in LiveWorkRuns(f);
      AbsorbedOwnsNoSlot(f, run);
    }
    NoneLive(g.workRuns, g.workItems);
    forall y | y in g.workItems
      ensures IsOpen(y) || IsComplete(y)
      ensures !IsComplete(y) ==> !HasCompletion(y, g.workRuns)
    {
      var i :| 0 <= i < |g.workItems| && g.workItems[i] == y;
      assert f.workItems[i] in f.workItems;
    }
  }

  /** The same from any facts at rest: completions already reported are absorbed
      first, as every cycle does, and the launches needed are the items left open. */
  lemma RestDeliversExactly(f: ControlFacts, g: ControlFacts, plan: Plan, deliveries: seq<Delivery>)
    requires Validated(plan) && Realizes(f.workItems, plan) && AtRest(f) && g == AdvanceCompleted(f)
    requires OwnReports(deliveries) && AllLand(g, deliveries)
    ensures DeliverAll(g, deliveries).Some? <==> |deliveries| <= |IncompleteKeys(g.workItems)|
    ensures DeliverAll(g, deliveries).Some? ==>
              (NextWorkItem(DeliverAll(g, deliveries).value).None? <==> |deliveries| == |IncompleteKeys(g.workItems)|)
  {
    AbsorbedIsQuiet(f);
    SameShapeKeepsPlan(f.workItems, g.workItems, plan);
    DeliveryTakesExactlyThatMany(g, plan, deliveries);
  }
}
