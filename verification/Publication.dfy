/** Publishing a validated plan to a tracker that may fail after mutating
    (tools/controller_planning.py): every action is looked up before it is
    applied, so retries converge. */
module Publication {
  import opened Text
  import opened Facts

  // ------------------------------------------------------------ the plan's actions

  datatype PlannedItem = PlannedItem(key: string, title: string, body: string)

  /** A validated package, with its bodies already rendered. */
  datatype ValidatedPlan = ValidatedPlan(
    revisionId: string,
    contentDigest: string,
    initiativeKey: string,
    unratifiedTerms: seq<string>,
    body: string,
    items: seq<PlannedItem>,
    dependencies: seq<(string, string)>)

  /** `_marker`. */
  function Marker(prefix: string, value: string): string {
    "<!-- arma-cti:" + prefix + "=" + value + " -->"
  }

  function PlanRevisionMarker(plan: ValidatedPlan): string {
    Marker("plan-revision", plan.revisionId + " digest=" + plan.contentDigest)
  }

  /** `work_item_intent`. */
  function Intent(plan: ValidatedPlan, key: string): string {
    plan.initiativeKey + ":work-item:" + key
  }

  function SubIssueMarker(plan: ValidatedPlan, key: string): string {
    Marker("sub-issue", plan.initiativeKey + ":" + key)
  }

  function DependencyMarker(plan: ValidatedPlan, blocked: string, blocker: string): string {
    Marker("dependency", plan.initiativeKey + ":" + blocked + ":" + blocker)
  }

  function ItemActions(plan: ValidatedPlan, parent: string, items: seq<PlannedItem>): seq<ControlAction> {
    if items == [] then []
    else
      var n := |items| - 1;
      var item := items[n];
      ItemActions(plan, parent, items[..n]) + [CreateAction(plan, item), AttachAction(plan, parent, item)]
  }

  function CreateAction(plan: ValidatedPlan, item: PlannedItem): ControlAction {
    PublishWorkItem(Intent(plan, item.key), item.title, item.body)
  }

  function AttachAction(plan: ValidatedPlan, parent: string, item: PlannedItem): ControlAction {
    AttachSubIssue(parent, Intent(plan, item.key), SubIssueMarker(plan, item.key))
  }

  function DependencyActions(plan: ValidatedPlan, edges: seq<(string, string)>): seq<ControlAction> {
    if edges == [] then []
    else
      var n := |edges| - 1;
      DependencyActions(plan, edges[..n]) + [DependencyAction(plan, edges[n])]
  }

  function DependencyAction(plan: ValidatedPlan, e: (string, string)): ControlAction {
    AddDependency(Intent(plan, e.0), Intent(plan, e.1), DependencyMarker(plan, e.0, e.1))
  }

  /** `publication_actions`. */
  function PublicationActions(plan: ValidatedPlan, parent: string): Result<seq<ControlAction>> {
    if plan.unratifiedTerms != [] then Err("provisional_unratified")
    else
      Ok([PublishPlanRevision(parent, PlanRevisionMarker(plan), plan.body)]
         + ItemActions(plan, parent, plan.items)
         + DependencyActions(plan, plan.dependencies))
  }

  // ------------------------------------------------------------ the tracker

  datatype TrackerRef = TrackerRef(identifier: string, number: nat, databaseId: nat)

  /** What the tracker durably holds. */
  datatype Tracker = Tracker(
    parentMarkers: set<(string, string)>,
    issues: map<string, TrackerRef>,
    subIssues: set<(string, string, string)>,
    dependencies: set<(string, string, string)>,
    nextNumber: nat)

  function NewRef(number: nat): TrackerRef {
    TrackerRef(Decimal(number), number, number)
  }

  /** The action's effect is already visible. */
  predicate Done(t: Tracker, a: ControlAction) {
    match a
    case PublishPlanRevision(parent, marker, _) => (parent, marker) in t.parentMarkers
    case PublishWorkItem(intent, _, _) => intent in t.issues
    case AttachSubIssue(parent, intent, marker) =>
      intent in t.issues && (parent, t.issues[intent].identifier, marker) in t.subIssues
    case AddDependency(blocked, blocker, marker) =>
      && blocked in t.issues && blocker in t.issues
      && (t.issues[blocked].identifier, t.issues[blocker].identifier, marker) in t.dependencies
    case StartWorkRun(_, _, _, _, _, _, _, _) => false
  }

  /** A link or an edge asked for before its issues exist. */
  predicate Missing(t: Tracker, a: ControlAction) {
    match a
    case AttachSubIssue(_, intent, _) => intent !in t.issues
    case AddDependency(blocked, blocker, _) => blocked !in t.issues || blocker !in t.issues
    case _ => false
  }

  /** The one tracker mutation an action stands for. */
  function Mutated(t: Tracker, a: ControlAction): Tracker
    requires !Missing(t, a)
  {
    match a
    case PublishPlanRevision(parent, marker, _) =>
      t.(parentMarkers := t.parentMarkers + {(parent, marker)})
    case PublishWorkItem(intent, _, _) =>
      t.(issues := t.issues[intent := NewRef(t.nextNumber)], nextNumber := t.nextNumber + 1)
    case AttachSubIssue(parent, intent, marker) =>
      t.(subIssues := t.subIssues + {(parent, t.issues[intent].identifier, marker)})
    case AddDependency(blocked, blocker, marker) =>
      t.(dependencies := t.dependencies + {(t.issues[blocked].identifier, t.issues[blocker].identifier, marker)})
    case StartWorkRun(_, _, _, _, _, _, _, _) => t
  }

  /** `PlanPublisher.apply` on a tracker that does not fail: look up, then mutate at most once. */
  function ApplyAction(t: Tracker, a: ControlAction): Result<Tracker> {
    if a.StartWorkRun? then Err("unsupported_action")
    else if Missing(t, a) then Err("publication_dependency_missing")
    else if Done(t, a) then Ok(t)
    else Ok(Mutated(t, a))
  }

  /** One pass over the actions, in order. */
  function Pass(t: Tracker, actions: seq<ControlAction>): Result<Tracker> {
    if actions == [] then Ok(t)
    else
      var n := |actions| - 1;
      match Pass(t, actions[..n])
      case Err(code) => Err(code)
      case Ok(s) => ApplyAction(s, actions[n])
  }

  /** `RecordingTracker`: the tracker's state, with a fault that strikes after a mutation. */
  class RecordingTracker {
    var failAfter: Option<nat>
    var parentMarkers: set<(string, string)>
    var issues: map<string, TrackerRef>
    var subIssues: set<(string, string, string)>
    var dependencies: set<(string, string, string)>
    var mutationCount: nat
    var nextNumber: nat

    constructor ()
      ensures State() == Tracker({}, map[], {}, {}, 1000)
      ensures failAfter.None? && mutationCount == 0
    {
      failAfter, mutationCount, nextNumber := None, 0, 1000;
      parentMarkers, issues, subIssues, dependencies := {}, map[], {}, {};
    }

    function State(): Tracker
      reads this
    {
      Tracker(parentMarkers, issues, subIssues, dependencies, nextNumber)
    }

    /** `_call`: count the mutation that just happened; false where the fault strikes. */
    method Call() returns (ok: bool)
      modifies this`mutationCount
      ensures mutationCount == old(mutationCount) + 1
      ensures ok <==> failAfter != Some(mutationCount)
    {
      mutationCount := mutationCount + 1;
      ok := failAfter != Some(mutationCount);
    }
  }

  /** `PlanPublisher`. */
  class PlanPublisher {
    const tracker: RecordingTracker

    constructor (tracker: RecordingTracker)
      ensures this.tracker == tracker
    {
      this.tracker := tracker;
    }

    /** `apply`.  An injected failure comes after its mutation, so the tracker
        then holds exactly what a successful call would have left. */
    method Apply(a: ControlAction) returns (r: Result<()>)
      modifies tracker
      ensures tracker.failAfter == old(tracker.failAfter)
      ensures ApplyAction(old(tracker.State()), a).Ok? ==>
                && Ok(tracker.State()) == ApplyAction(old(tracker.State()), a)
                && (r.Err? ==> r.error == "injected_failure" && tracker.failAfter == Some(tracker.mutationCount))
      ensures ApplyAction(old(tracker.State()), a).Err? ==>
                && tracker.State() == old(tracker.State())
                && r == Err(ApplyAction(old(tracker.State()), a).error)
      ensures tracker.mutationCount == old(tracker.mutationCount)
                + (if ApplyAction(old(tracker.State()), a).Ok? && !Done(old(tracker.State()), a) then 1 else 0)
    {
      var ok := true;
      match a {
        case PublishPlanRevision(parent, marker, _) =>
          if (parent, marker) !in tracker.parentMarkers {
            tracker.parentMarkers := tracker.parentMarkers + {(parent, marker)};
            ok := tracker.Call();
          }
        case PublishWorkItem(intent, _, _) =>
          if intent !in tracker.issues {
            var ref := NewRef(tracker.nextNumber);
            tracker.nextNumber := tracker.nextNumber + 1;
            tracker.issues := tracker.issues[intent := ref];
            ok := tracker.Call();
          }
        case AttachSubIssue(parent, intent, marker) =>
          if intent !in tracker.issues {
            return Err("publication_dependency_missing");
          }
          var link := (parent, tracker.issues[intent].identifier, marker);
          if link !in tracker.subIssues {
            tracker.subIssues := tracker.subIssues + {link};
            ok := tracker.Call();
          }
        case AddDependency(blocked, blocker, marker) =>
          if blocked !in tracker.issues || blocker !in tracker.issues {
            return Err("publication_dependency_missing");
          }
          var edge := (tracker.issues[blocked].identifier, tracker.issues[blocker].identifier, marker);
          if edge !in tracker.dependencies {
            tracker.dependencies := tracker.dependencies + {edge};
            ok := tracker.Call();
          }
        case StartWorkRun(_, _, _, _, _, _, _, _) =>
          return Err("unsupported_action");
      }
      return if ok then Ok(()) else Err("injected_failure");
    }

    /** The controller's loop over a plan's actions: stop at the first refusal. */
    method ApplyAll(actions: seq<ControlAction>) returns (ghost applied: nat, r: Result<()>)
      modifies tracker
      requires Pass(tracker.State(), actions).Ok?
      ensures applied <= |actions| && tracker.failAfter == old(tracker.failAfter)
      ensures Ok(tracker.State()) == Pass(old(tracker.State()), actions[..applied])
      ensures r.Ok? ==> applied == |actions|
      ensures tracker.failAfter.None? ==> r.Ok?
    {
      applied := 0;
      for i := 0 to |actions|
        invariant tracker.failAfter == old(tracker.failAfter)
        invariant applied == i && Ok(tracker.State()) == Pass(old(tracker.State()), actions[..i])
      {
        assert actions[..i + 1][..i] == actions[..i];
        PassPrefixOk(old(tracker.State()), actions, i + 1);
        r := Apply(actions[i]);
        applied := i + 1;
        if r.Err? {
          return;
        }
      }
      assert actions[..|actions|] == actions;
      r := Ok(());
    }

    /** Any number of faulted attempts, then one that runs to the end. */
    method PublishWithRetries(actions: seq<ControlAction>, faults: seq<Option<nat>>)
      modifies tracker
      requires Pass(tracker.State(), actions).Ok?
      ensures Ok(tracker.State()) == Pass(old(tracker.State()), actions)
    {
      ghost var start := tracker.State();
      ghost var reached: nat := 0;
      PassPrefixOk(start, actions, 0);
      for i := 0 to |faults|
        invariant reached <= |actions| && Ok(tracker.State()) == Pass(start, actions[..reached])
      {
        tracker.failAfter := faults[i];
        PassAgain(start, actions, reached, |actions|);
        assert actions[..|actions|] == actions;
        ghost var applied, r := ApplyAll(actions);
        PassAgain(start, actions, reached, applied);
        reached := if reached < applied then applied else reached;
      }
      tracker.failAfter := None;
      PassAgain(start, actions, reached, |actions|);
      assert actions[..|actions|] == actions;
      ghost var applied, r := ApplyAll(actions);
    }
  }

  // ------------------------------------------------------------ idempotence

  /** Everything `s` shows, `t` shows too, with the same issue numbers. */
  predicate Grows(s: Tracker, t: Tracker) {
    && s.parentMarkers <= t.parentMarkers && s.subIssues <= t.subIssues && s.dependencies <= t.dependencies
    && forall intent :: intent in s.issues ==> intent in t.issues && t.issues[intent] == s.issues[intent]
  }

  lemma ActionGrows(t: Tracker, a: ControlAction)
    ensures ApplyAction(t, a).Ok? ==> Grows(t, ApplyAction(t, a).value) && Done(ApplyAction(t, a).value, a)
    ensures Done(t, a) ==> ApplyAction(t, a) == Ok(t)
  {
  }

  lemma DoneStays(s: Tracker, t: Tracker, a: ControlAction)
    requires Grows(s, t) && Done(s, a)
    ensures Done(t, a)
  {
  }

  lemma {:induction false} PassSplit(t: Tracker, a: seq<ControlAction>, b: seq<ControlAction>)
    ensures Pass(t, a + b) == match Pass(t, a) { case Err(code) => Err(code) case Ok(s) => Pass(s, b) }
  {
    if b == [] {
      assert a + b == a;
    } else {
      var n := |b| - 1;
      assert (a + b)[..|a| + n] == a + b[..n];
      PassSplit(t, a, b[..n]);
    }
  }

  lemma PassOneMore(t: Tracker, a: seq<ControlAction>, action: ControlAction)
    ensures Pass(t, a + [action]) ==
            match Pass(t, a) { case Err(code) => Err(code) case Ok(s) => ApplyAction(s, action) }
  {
    assert (a + [action])[..|a|] == a;
  }

  lemma PassTwoMore(t: Tracker, a: seq<ControlAction>, s: Tracker, one: ControlAction, mid: Tracker, two: ControlAction)
    requires Pass(t, a) == Ok(s) && ApplyAction(s, one) == Ok(mid)
    ensures Pass(t, a + [one, two]) == ApplyAction(mid, two)
  {
    var first := a + [one];
    assert Pass(t, first) == Ok(mid) by { PassOneMore(t, a, one); }
    assert Pass(t, first + [two]) == ApplyAction(mid, two) by { PassOneMore(t, first, two); }
    assert first + [two] == a + [one, two];
  }

  lemma PassPrefixOk(t: Tracker, actions: seq<ControlAction>, k: nat)
    requires k <= |actions| && Pass(t, actions).Ok?
    ensures Pass(t, actions[..k]).Ok?
  {
    assert actions == actions[..k] + actions[k..];
    PassSplit(t, actions[..k], actions[k..]);
  }

  /** A pass leaves every one of its actions done. */
  lemma {:induction false} PassDoes(t: Tracker, actions: seq<ControlAction>)
    requires Pass(t, actions).Ok?
    ensures Grows(t, Pass(t, actions).value)
    ensures forall a :: a in actions ==> Done(Pass(t, actions).value, a)
  {
    if actions != [] {
      var n := |actions| - 1;
      PassDoes(t, actions[..n]);
      var s := Pass(t, actions[..n]).value;
      ActionGrows(s, actions[n]);
      forall a | a in actions ensures Done(Pass(t, actions).value, a) {
        if a != actions[n] {
          assert a in actions[..n];
          DoneStays(s, Pass(t, actions).value, a);
        }
      }
    }
  }

  lemma {:induction false} PassOverDone(t: Tracker, actions: seq<ControlAction>)
    requires forall a :: a in actions ==> Done(t, a)
    ensures Pass(t, actions) == Ok(t)
  {
    if actions != [] {
      var n := |actions| - 1;
      assert actions[n] in actions;
      forall a | a in actions[..n] ensures Done(t, a) { assert a in actions; }
      PassOverDone(t, actions[..n]);
      ActionGrows(t, actions[n]);
    }
  }

  /** Starting again after `j` actions and stopping after `k` reaches what the
      longer of the two would have reached alone. */
  lemma PassAgain(t: Tracker, actions: seq<ControlAction>, j: nat, k: nat)
    requires Pass(t, actions).Ok? && j <= |actions| && k <= |actions|
    ensures Pass(t, actions[..j]).Ok?
    ensures Pass(Pass(t, actions[..j]).value, actions[..k]) == Pass(t, actions[..if j < k then k else j])
    ensures Pass(t, actions[..k]).Ok?
  {
    PassPrefixOk(t, actions, j);
    PassPrefixOk(t, actions, k);
    PassDoes(t, actions[..j]);
    var s := Pass(t, actions[..j]).value;
    if k <= j {
      forall a | a in actions[..k] ensures Done(s, a) { assert a in actions[..j]; }
      PassOverDone(s, actions[..k]);
    } else {
      PassOverDone(s, actions[..j]);
      assert actions[..k] == actions[..j] + actions[j..k];
      PassOnwards(t, s, actions[..j], actions[j..k]);
    }
  }

  lemma PassOnwards(t: Tracker, s: Tracker, done: seq<ControlAction>, more: seq<ControlAction>)
    requires Pass(t, done) == Ok(s) && Pass(s, done) == Ok(s)
    ensures Pass(s, done + more) == Pass(t, done + more)
  {
    PassSplit(s, done, more);
    PassSplit(t, done, more);
  }

  /** The tracker after attempts that each stopped somewhere. */
  function Attempts(t: Tracker, actions: seq<ControlAction>, cuts: seq<nat>): Result<Tracker>
    requires forall c :: c in cuts ==> c <= |actions|
  {
    if cuts == [] then Ok(t)
    else
      var n := |cuts| - 1;
      assert forall c :: c in cuts[..n] ==> c in cuts;
      match Attempts(t, actions, cuts[..n])
      case Err(code) => Err(code)
      case Ok(s) =>
        assert cuts[n] in cuts;
        Pass(s, actions[..cuts[n]])
  }

  lemma {:induction false} AttemptsReach(t: Tracker, actions: seq<ControlAction>, cuts: seq<nat>) returns (m: nat)
    requires Pass(t, actions).Ok? && forall c :: c in cuts ==> c <= |actions|
    ensures m <= |actions| && Pass(t, actions[..m]).Ok? && Attempts(t, actions, cuts) == Pass(t, actions[..m])
  {
    if cuts == [] {
      m := 0;
    } else {
      var n := |cuts| - 1;
      assert forall c :: c in cuts[..n] ==> c in cuts;
      var j := AttemptsReach(t, actions, cuts[..n]);
      assert cuts[n] in cuts;
      PassAgain(t, actions, j, cuts[n]);
      m := if j < cuts[n] then cuts[n] else j;
    }
  }

  // ------------------------------------------------------------ a plan always publishes

  /** Both ends of every dependency are planned items, as the validator requires. */
  predicate DependenciesKnown(plan: ValidatedPlan) {
    forall e :: e in plan.dependencies ==>
      (exists x :: x in plan.items && x.key == e.0) && (exists x :: x in plan.items && x.key == e.1)
  }

  lemma {:induction false} ItemsPublish(t: Tracker, plan: ValidatedPlan, parent: string, items: seq<PlannedItem>)
    ensures Pass(t, ItemActions(plan, parent, items)).Ok?
    ensures forall x :: x in items ==> Intent(plan, x.key) in Pass(t, ItemActions(plan, parent, items)).value.issues
  {
    if items != [] {
      var n := |items| - 1;
      var item := items[n];
      var rest := ItemActions(plan, parent, items[..n]);
      ItemsPublish(t, plan, parent, items[..n]);
      var s := Pass(t, rest).value;
      ItemShows(s, plan, parent, item);
      PassTwoMore(t, rest, s, CreateAction(plan, item), ApplyAction(s, CreateAction(plan, item)).value,
                  AttachAction(plan, parent, item));
      assert items == items[..n] + [item];
    }
  }

  lemma {:induction false} DependenciesPublish(t: Tracker, plan: ValidatedPlan, edges: seq<(string, string)>)
    requires forall e :: e in edges ==> Intent(plan, e.0) in t.issues && Intent(plan, e.1) in t.issues
    ensures Pass(t, DependencyActions(plan, edges)).Ok?
    ensures Pass(t, DependencyActions(plan, edges)).value.issues == t.issues
  {
    if edges != [] {
      var n := |edges| - 1;
      DependenciesPublish(t, plan, edges[..n]);
      assert edges[n] in edges;
      PassOneMore(t, DependencyActions(plan, edges[..n]), DependencyAction(plan, edges[n]));
    }
  }

  /** `publication_dependency_missing` is never raised for a validated plan, from any tracker state. */
  lemma PlanAlwaysPublishes(t: Tracker, plan: ValidatedPlan, parent: string)
    requires plan.unratifiedTerms == [] && DependenciesKnown(plan)
    ensures Pass(t, PublicationActions(plan, parent).value).Ok?
  {
    var head := [PublishPlanRevision(parent, PlanRevisionMarker(plan), plan.body)];
    var items := ItemActions(plan, parent, plan.items);
    var deps := DependencyActions(plan, plan.dependencies);
    PassSplit(t, head + items, deps);
    PassSplit(t, head, items);
    assert head[..0] == [];
    var s := Pass(t, head).value;
    ItemsPublish(s, plan, parent, plan.items);
    DependenciesPublish(Pass(s, items).value, plan, plan.dependencies);
  }

  /** Publication converges: whatever was left behind by attempts that stopped
      anywhere, one full pass ends in the state of a single uninterrupted pass. */
  lemma PublicationConverges(t: Tracker, plan: ValidatedPlan, parent: string, cuts: seq<nat>)
    requires plan.unratifiedTerms == [] && DependenciesKnown(plan)
    requires forall c :: c in cuts ==> c <= |PublicationActions(plan, parent).value|
    ensures var actions := PublicationActions(plan, parent).value;
            && Attempts(t, actions, cuts).Ok?
            && Pass(Attempts(t, actions, cuts).value, actions) == Pass(t, actions)
            && Pass(t, actions).Ok?
  {
    var actions := PublicationActions(plan, parent).value;
    PlanAlwaysPublishes(t, plan, parent);
    var m := AttemptsReach(t, actions, cuts);
    PassAgain(t, actions, m, |actions|);
    assert actions[..|actions|] == actions;
  }

  // ------------------------------------------------------------ what a published tracker shows

  /** Issue numbers are never reused, and every new issue takes exactly one. */
  predicate Numbered(t: Tracker) {
    && (forall i :: i in t.issues ==> t.issues[i] == NewRef(t.issues[i].number) && t.issues[i].number < t.nextNumber)
    && (forall i, j :: i in t.issues && j in t.issues && i != j ==> t.issues[i].number != t.issues[j].number)
  }

  lemma NewIssueNumbers(t: Tracker, s: Tracker, intent: string)
    requires Numbered(t) && intent !in t.issues
    requires s.issues == t.issues[intent := NewRef(t.nextNumber)] && s.nextNumber == t.nextNumber + 1
    ensures Numbered(s) && |s.issues| == |t.issues| + 1
  {
  }

  /** Only publishing a missing Work Item touches the issues. */
  lemma OtherActionsKeepIssues(t: Tracker, a: ControlAction)
    requires ApplyAction(t, a).Ok? && (!a.PublishWorkItem? || Done(t, a))
    ensures ApplyAction(t, a).value.issues == t.issues && ApplyAction(t, a).value.nextNumber == t.nextNumber
  {
  }

  lemma ActionNumbers(t: Tracker, a: ControlAction)
    requires Numbered(t) && ApplyAction(t, a).Ok?
    ensures var s := ApplyAction(t, a).value;
            Numbered(s) && s.nextNumber - |s.issues| == t.nextNumber - |t.issues|
  {
    if a.PublishWorkItem? && !Done(t, a) {
      NewIssueNumbers(t, ApplyAction(t, a).value, a.intent);
    } else {
      OtherActionsKeepIssues(t, a);
    }
  }

  lemma {:induction false} PassNumbers(t: Tracker, actions: seq<ControlAction>)
    requires Numbered(t) && Pass(t, actions).Ok?
    ensures var s := Pass(t, actions).value;
            Numbered(s) && s.nextNumber - |s.issues| == t.nextNumber - |t.issues|
  {
    if actions != [] {
      var n := |actions| - 1;
      PassNumbers(t, actions[..n]);
      ActionNumbers(Pass(t, actions[..n]).value, actions[n]);
    }
  }

  function IntentsOf(plan: ValidatedPlan, items: seq<PlannedItem>): set<string> {
    set x | x in items :: Intent(plan, x.key)
  }

  /** The sub-issue links and dependency edges a plan asks for, on the issues the tracker holds. */
  function LinksOf(t: Tracker, plan: ValidatedPlan, parent: string, items: seq<PlannedItem>):
    set<(string, string, string)>
  {
    set x | x in items && Intent(plan, x.key) in t.issues ::
      (parent, t.issues[Intent(plan, x.key)].identifier, SubIssueMarker(plan, x.key))
  }

  function EdgeOf(t: Tracker, plan: ValidatedPlan, e: (string, string)): (string, string, string)
    requires Intent(plan, e.0) in t.issues && Intent(plan, e.1) in t.issues
  {
    (t.issues[Intent(plan, e.0)].identifier, t.issues[Intent(plan, e.1)].identifier, DependencyMarker(plan, e.0, e.1))
  }

  function EdgesOf(t: Tracker, plan: ValidatedPlan, edges: seq<(string, string)>): set<(string, string, string)> {
    set e | e in edges && Intent(plan, e.0) in t.issues && Intent(plan, e.1) in t.issues :: EdgeOf(t, plan, e)
  }

  /** Links read the same on a tracker that only gained issues. */
  lemma LinksStable(s: Tracker, t: Tracker, plan: ValidatedPlan, parent: string, items: seq<PlannedItem>)
    requires Grows(s, t) && IntentsOf(plan, items) <= s.issues.Keys
    ensures LinksOf(t, plan, parent, items) == LinksOf(s, plan, parent, items)
  {
    forall x | x in items ensures Intent(plan, x.key) in s.issues {
      assert Intent(plan, x.key) in IntentsOf(plan, items);
    }
  }

  lemma LinksOneMore(t: Tracker, plan: ValidatedPlan, parent: string, items: seq<PlannedItem>, item: PlannedItem)
    requires Intent(plan, item.key) in t.issues
    ensures LinksOf(t, plan, parent, items + [item]) == LinksOf(t, plan, parent, items)
            + {(parent, t.issues[Intent(plan, item.key)].identifier, SubIssueMarker(plan, item.key))}
    ensures IntentsOf(plan, items + [item]) == IntentsOf(plan, items) + {Intent(plan, item.key)}
  {
    assert item in items + [item];
  }

  /** Creating and linking one item shows exactly that issue and that link. */
  lemma ItemShows(s: Tracker, plan: ValidatedPlan, parent: string, item: PlannedItem)
    ensures ApplyAction(s, CreateAction(plan, item)).Ok?
    ensures var mid := ApplyAction(s, CreateAction(plan, item)).value;
            && ApplyAction(mid, AttachAction(plan, parent, item)).Ok?
            && var end := ApplyAction(mid, AttachAction(plan, parent, item)).value;
               var intent := Intent(plan, item.key);
               && Grows(s, end) && end.issues.Keys == s.issues.Keys + {intent}
               && end.subIssues == s.subIssues
                  + {(parent, end.issues[intent].identifier, SubIssueMarker(plan, item.key))}
               && end.dependencies == s.dependencies && end.parentMarkers == s.parentMarkers
  {
  }

  /** What publishing some items shows on a tracker. */
  predicate Shows(t: Tracker, s: Tracker, plan: ValidatedPlan, parent: string, items: seq<PlannedItem>) {
    && s.issues.Keys == t.issues.Keys + IntentsOf(plan, items)
    && s.subIssues == t.subIssues + LinksOf(s, plan, parent, items)
    && s.dependencies == t.dependencies && s.parentMarkers == t.parentMarkers
  }

  lemma ShowsOneMore(t: Tracker, s: Tracker, plan: ValidatedPlan, parent: string, items: seq<PlannedItem>,
                     item: PlannedItem)
    requires Shows(t, s, plan, parent, items)
    ensures var mid := ApplyAction(s, CreateAction(plan, item));
            && mid.Ok?
            && var end := ApplyAction(mid.value, AttachAction(plan, parent, item));
               end.Ok? && Shows(t, end.value, plan, parent, items + [item])
  {
    ItemShows(s, plan, parent, item);
    var mid := ApplyAction(s, CreateAction(plan, item)).value;
    var end := ApplyAction(mid, AttachAction(plan, parent, item)).value;
    LinksStable(s, end, plan, parent, items);
    LinksOneMore(end, plan, parent, items, item);
  }

  lemma {:induction false} ItemsShow(t: Tracker, plan: ValidatedPlan, parent: string, items: seq<PlannedItem>)
    ensures Pass(t, ItemActions(plan, parent, items)).Ok?
    ensures Shows(t, Pass(t, ItemActions(plan, parent, items)).value, plan, parent, items)
  {
    if items == [] {
      NoItemsShow(t, plan, parent);
    } else {
      var n := |items| - 1;
      ItemsShow(t, plan, parent, items[..n]);
      assert items == items[..n] + [items[n]];
      OneMoreItemShows(t, plan, parent, items[..n], items[n]);
    }
  }

  lemma NoItemsShow(t: Tracker, plan: ValidatedPlan, parent: string)
    ensures Shows(t, t, plan, parent, [])
  {
    assert IntentsOf(plan, []) == {} && LinksOf(t, plan, parent, []) == {};
  }

  lemma OneMoreItemShows(t: Tracker, plan: ValidatedPlan, parent: string, items: seq<PlannedItem>, item: PlannedItem)
    requires Pass(t, ItemActions(plan, parent, items)).Ok?
    requires Shows(t, Pass(t, ItemActions(plan, parent, items)).value, plan, parent, items)
    ensures Pass(t, ItemActions(plan, parent, items + [item])).Ok?
    ensures Shows(t, Pass(t, ItemActions(plan, parent, items + [item])).value, plan, parent, items + [item])
  {
    var rest := ItemActions(plan, parent, items);
    var s := Pass(t, rest).value;
    ShowsOneMore(t, s, plan, parent, items, item);
    PassTwoMore(t, rest, s, CreateAction(plan, item), ApplyAction(s, CreateAction(plan, item)).value,
                AttachAction(plan, parent, item));
    OneMoreItem(plan, parent, items, item);
  }

  lemma OneMoreItem(plan: ValidatedPlan, parent: string, items: seq<PlannedItem>, item: PlannedItem)
    ensures ItemActions(plan, parent, items + [item]) ==
            ItemActions(plan, parent, items) + [CreateAction(plan, item), AttachAction(plan, parent, item)]
  {
    assert (items + [item])[..|items|] == items;
  }

  lemma EdgesOneMore(t: Tracker, plan: ValidatedPlan, edges: seq<(string, string)>, e: (string, string))
    requires Intent(plan, e.0) in t.issues && Intent(plan, e.1) in t.issues
    ensures EdgesOf(t, plan, edges + [e]) == EdgesOf(t, plan, edges) + {EdgeOf(t, plan, e)}
  {
    assert e in edges + [e];
  }

  lemma DependencyShows(t: Tracker, plan: ValidatedPlan, e: (string, string))
    requires Intent(plan, e.0) in t.issues && Intent(plan, e.1) in t.issues
    ensures ApplyAction(t, DependencyAction(plan, e)) == Ok(t.(dependencies := t.dependencies + {EdgeOf(t, plan, e)}))
  {
    if Done(t, DependencyAction(plan, e)) {
      assert t.dependencies + {EdgeOf(t, plan, e)} == t.dependencies;
    }
  }

  lemma {:induction false} DependenciesShow(t: Tracker, plan: ValidatedPlan, edges: seq<(string, string)>)
    requires forall e :: e in edges ==> Intent(plan, e.0) in t.issues && Intent(plan, e.1) in t.issues
    ensures Pass(t, DependencyActions(plan, edges)) == Ok(t.(dependencies := t.dependencies + EdgesOf(t, plan, edges)))
  {
    if edges == [] {
      assert t.dependencies + EdgesOf(t, plan, edges) == t.dependencies;
    } else {
      var n := |edges| - 1;
      var rest, e := edges[..n], edges[n];
      assert e in edges && edges == rest + [e];
      DependenciesShow(t, plan, rest);
      PassOneMore(t, DependencyActions(plan, rest), DependencyAction(plan, e));
      var mid := t.(dependencies := t.dependencies + EdgesOf(t, plan, rest));
      DependencyShows(mid, plan, e);
      assert EdgeOf(mid, plan, e) == EdgeOf(t, plan, e);
      EdgesOneMore(t, plan, rest, e);
      assert t.dependencies + EdgesOf(t, plan, rest) + {EdgeOf(t, plan, e)} == t.dependencies + EdgesOf(t, plan, edges);
    }
  }

  /** A published tracker shows the plan once and nothing else new: one issue
      per planned item not already there, under its own number, and exactly the
      marker, links and edges the plan names. */
  lemma PublishedExactly(t: Tracker, plan: ValidatedPlan, parent: string)
    requires plan.unratifiedTerms == [] && DependenciesKnown(plan) && Numbered(t)
    ensures Pass(t, PublicationActions(plan, parent).value).Ok?
    ensures var s := Pass(t, PublicationActions(plan, parent).value).value;
            && s.issues.Keys == t.issues.Keys + IntentsOf(plan, plan.items)
            && s.nextNumber - t.nextNumber == |s.issues| - |t.issues|
            && (forall i, j :: i in s.issues && j in s.issues && i != j ==>
                  s.issues[i].identifier != s.issues[j].identifier)
            && s.parentMarkers == t.parentMarkers + {(parent, PlanRevisionMarker(plan))}
            && s.subIssues == t.subIssues + LinksOf(s, plan, parent, plan.items)
            && s.dependencies == t.dependencies + EdgesOf(s, plan, plan.dependencies)
  {
    var actions := PublicationActions(plan, parent).value;
    PlanAlwaysPublishes(t, plan, parent);
    PassNumbers(t, actions);
    PublishedParts(t, plan, parent);
    var s := Pass(t, actions).value;
    forall i, j | i in s.issues && j in s.issues && i != j
      ensures s.issues[i].identifier != s.issues[j].identifier
    {
      if s.issues[i].identifier == s.issues[j].identifier {
        DecimalInjective(s.issues[i].number, s.issues[j].number);
      }
    }
  }

  lemma PublishedParts(t: Tracker, plan: ValidatedPlan, parent: string)
    requires plan.unratifiedTerms == [] && DependenciesKnown(plan)
    ensures Pass(t, PublicationActions(plan, parent).value).Ok?
    ensures var s := Pass(t, PublicationActions(plan, parent).value).value;
            && s.issues.Keys == t.issues.Keys + IntentsOf(plan, plan.items)
            && s.parentMarkers == t.parentMarkers + {(parent, PlanRevisionMarker(plan))}
            && s.subIssues == t.subIssues + LinksOf(s, plan, parent, plan.items)
            && s.dependencies == t.dependencies + EdgesOf(s, plan, plan.dependencies)
  {
    var head := [PublishPlanRevision(parent, PlanRevisionMarker(plan), plan.body)];
    var items := ItemActions(plan, parent, plan.items);
    PassSplit(t, head + items, DependencyActions(plan, plan.dependencies));
    PassSplit(t, head, items);
    PassOneMore(t, [], head[0]);
    assert [] + head == head;
    var first := Pass(t, head).value;
    assert first.parentMarkers == t.parentMarkers + {(parent, PlanRevisionMarker(plan))};
    ItemsShow(first, plan, parent, plan.items);
    ItemsPublish(first, plan, parent, plan.items);
    DependenciesShow(Pass(first, items).value, plan, plan.dependencies);
  }
}
