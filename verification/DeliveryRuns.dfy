/** The delivery of a validated plan over whole runs: cycles may be cut anywhere
    and resumed, and the tracker may come to show what has landed. */
module DeliveryRuns {
  import opened Text
  import opened Facts
  import opened Merge
  import opened PlanGraph
  import opened Progress
  import opened Journal
  import opened Driver
  import opened DriverLaws
  import opened DriverRuns
  import opened DriverSafety
  import opened Delivery

  // ------------------------------------------------------------ the launches of a journal

  /** The first `k` cycles' payloads. */
  function Payloads(records: seq<Record>, k: nat): (r: seq<Payload>)
    requires 3 * k <= |records| + 2
    ensures |r| == k && forall i :: 0 <= i < k ==> r[i] == records[3 * i].payload
  {
    seq(k, i requires 0 <= i < k => records[3 * i].payload)
  }

  /** The Work Items launched, in order. */
  function LaunchedItems(played: seq<Payload>): seq<string> {
    if played == [] then []
    else LaunchedItems(played[..|played| - 1]) + LaunchKeys(played[|played| - 1].actions)
  }

  /** The launches of a delivery: one a cycle while anything is left, of
      different items, and none once all have been out. */
  predicate EachOnce(played: seq<Payload>, left: set<string>) {
    && (forall k :: 0 <= k < |played| ==> |played[k].actions| == if k < |left| then 1 else 0)
    && NoRepeats(LaunchedItems(played)) && Elements(LaunchedItems(played)) <= left
    && |LaunchedItems(played)| == (if |played| < |left| then |played| else |left|)
    && (|played| >= |left| ==> Elements(LaunchedItems(played)) == left)
  }

  lemma NothingPlayed(left: set<string>)
    ensures EachOnce([], left)
  {
    assert left != {} ==> |left| > 0;
  }

  lemma OneMoreKey(keys: seq<string>, key: string)
    requires NoRepeats(keys) && key !in Elements(keys)
    ensures NoRepeats(keys + [key]) && Elements(keys + [key]) == Elements(keys) + {key}
  {
    forall x ensures x in keys + [key] <==> x == key || x in keys {}
    forall i, j | 0 <= i < j < |keys + [key]| ensures (keys + [key])[i] != (keys + [key])[j] {
      if j == |keys| { assert keys[i] in Elements(keys); }
    }
  }

  lemma RemainingSize(played: seq<Payload>, left: set<string>)
    requires EachOnce(played, left)
    ensures |left - Elements(LaunchedItems(played))| == |left| - |LaunchedItems(played)|
  {
    NoRepeatsSize(LaunchedItems(played));
    assert left == (left - Elements(LaunchedItems(played))) + Elements(LaunchedItems(played));
  }

  lemma NothingMore(played: seq<Payload>, p: Payload, left: set<string>)
    requires EachOnce(played, left) && left - Elements(LaunchedItems(played)) == {}
    requires p.actions == []
    ensures EachOnce(played + [p], left) && LaunchedItems(played + [p]) == LaunchedItems(played)
  {
    RemainingSize(played, left);
    assert (played + [p])[..|played|] == played;
  }

  lemma OneMoreLaunch(played: seq<Payload>, p: Payload, key: string, left: set<string>)
    requires EachOnce(played, left) && key in left - Elements(LaunchedItems(played))
    requires |p.actions| == 1 && LaunchKeys(p.actions) == [key]
    ensures EachOnce(played + [p], left)
    ensures Elements(LaunchedItems(played + [p])) == Elements(LaunchedItems(played)) + {key}
  {
    var launched := LaunchedItems(played);
    RemainingSize(played, left);
    assert |left - Elements(launched)| > 0;
    assert (played + [p])[..|played|] == played;
    assert LaunchedItems(played + [p]) == launched + [key];
    OneMoreKey(launched, key);
    if |launched| + 1 == |left| {
      NoRepeatsSize(launched + [key]);
      AllOfThem(Elements(launched + [key]), left);
    }
  }

  lemma AllOfThem(part: set<string>, whole: set<string>)
    requires part <= whole && |part| == |whole|
    ensures part == whole
  {
    if x :| x in whole && x !in part {
      SubsetSize(part, whole - {x});
    }
  }

  // ------------------------------------------------------------ one cycle after another

  /** The cycle launches one of the items left, or none is. */
  predicate TakesOne(p: Payload, rest: set<string>) {
    if rest == {} then p.actions == []
    else |p.actions| == 1 && exists key :: key in rest && LaunchKeys(p.actions) == [key]
  }

  function RestAfter(p: Payload, rest: set<string>): set<string> {
    rest - Elements(LaunchKeys(p.actions))
  }

  /** Decisions taken where `stands` holds take one item and leave it holding. */
  ghost predicate TakesEach(s: Setting, left: set<string>, stands: (Option<Loaded>, set<string>) -> bool) {
    && stands(None, left)
    && forall previous, rest, p :: stands(previous, rest) && s.decides(previous, p) ==>
         TakesOne(p, rest) && stands(Following(previous, p, s.identity), RestAfter(p, rest))
  }

  /** What is left after the first `k` cycles. */
  function RestOf(records: seq<Record>, k: nat, left: set<string>): set<string>
    requires 3 * k <= |records| + 2
  {
    left - Elements(LaunchedItems(Payloads(records, k)))
  }

  lemma PlayedOn(records: seq<Record>, k: nat, left: set<string>)
    requires 3 * k < |records| && EachOnce(Payloads(records, k), left)
    requires TakesOne(records[3 * k].payload, RestOf(records, k, left))
    ensures EachOnce(Payloads(records, k + 1), left)
    ensures RestOf(records, k + 1, left) == RestAfter(records[3 * k].payload, RestOf(records, k, left))
  {
    var played, p := Payloads(records, k), records[3 * k].payload;
    assert Payloads(records, k + 1) == played + [p];
    if RestOf(records, k, left) == {} {
      NothingMore(played, p, left);
    } else {
      var key :| key in RestOf(records, k, left) && LaunchKeys(p.actions) == [key];
      OneMoreLaunch(played, p, key, left);
    }
  }

  lemma NextPrior(records: seq<Record>, k: nat, identity: string)
    requires 3 * k + 3 <= |records|
    ensures PriorTo(records, k + 1, identity) ==
            Following(PriorTo(records, k, identity), records[3 * k].payload, identity)
  {
    assert NextCycleNumber(PriorTo(records, k, identity)) == k + 1;
  }

  /** After `k` whole cycles, each has taken one item, and the state stands. */
  lemma {:induction false} JournalStands(records: seq<Record>, k: nat, s: Setting, left: set<string>,
                                         stands: (Option<Loaded>, set<string>) -> bool)
    requires Traced(records, s) && TakesEach(s, left, stands) && 3 * k <= |records|
    ensures stands(PriorTo(records, k, s.identity), RestOf(records, k, left)) && EachOnce(Payloads(records, k), left)
  {
    if k == 0 {
      NothingPlayed(left);
      assert Payloads(records, 0) == [] && RestOf(records, 0, left) == left;
    } else {
      JournalStands(records, k - 1, s, left, stands);
      assert Decided(records, k - 1, s);
      PlayedOn(records, k - 1, left);
      NextPrior(records, k - 1, s.identity);
    }
  }

  /** The launches of every cycle begun, the last one's included. */
  lemma BegunPlayed(records: seq<Record>, s: Setting, left: set<string>, stands: (Option<Loaded>, set<string>) -> bool)
    requires Traced(records, s) && TakesEach(s, left, stands)
    ensures EachOnce(Payloads(records, Begun(records)), left)
  {
    var k := |records| / 3;
    JournalStands(records, k, s, left, stands);
    if |records| % 3 != 0 {
      assert Decided(records, k, s);
      PlayedOn(records, k, left);
    }
  }

  // ------------------------------------------------------------ the controller's own cycles

  /** The delivery stands, with `rest` left, in a state `inv` holds of. */
  ghost predicate StandsWith(b: ControlFacts, previous: Option<Loaded>, rest: set<string>, identity: string) {
    exists landed, out :: Stands(b, previous, landed, out, identity) && rest == Left(b, landed, out)
  }

  ghost function Standing(b: ControlFacts, identity: string, inv: Option<Loaded> -> bool):
    (Option<Loaded>, set<string>) -> bool
  {
    (previous: Option<Loaded>, rest: set<string>) => inv(previous) && StandsWith(b, previous, rest, identity)
  }

  /** Admissible inputs are not refused where things stand, and keep them so. */
  ghost predicate Delivers(b: ControlFacts, identity: string, allowed: (Option<Loaded>, CycleInput) -> bool,
                           inv: Option<Loaded> -> bool)
  {
    inv(None) && forall previous, input, rest ::
      inv(previous) && allowed(previous, input) && StandsWith(b, previous, rest, identity) ==>
        DeliversOn(b, previous, input, rest, identity, inv)
  }

  ghost predicate DeliversOn(b: ControlFacts, previous: Option<Loaded>, input: CycleInput, rest: set<string>,
                             identity: string, inv: Option<Loaded> -> bool)
  {
    var decided := CyclePayload(input, previous, identity);
    && decided.Ok? && TakesOne(decided.value, rest)
    && inv(Following(previous, decided.value, identity))
    && StandsWith(b, Following(previous, decided.value, identity), RestAfter(decided.value, rest), identity)
  }

  lemma FreshStands(b: ControlFacts, identity: string)
    ensures StandsWith(b, None, IncompleteKeys(b.workItems), identity)
  {
    assert CompleteAmong(b.workItems, []) == {};
    assert Stands(b, None, [], None, identity) && Left(b, [], None) == IncompleteKeys(b.workItems);
  }

  lemma DeliversTakes(b: ControlFacts, identity: string, digest: Digest,
                      allowed: (Option<Loaded>, CycleInput) -> bool, inv: Option<Loaded> -> bool)
    requires Delivers(b, identity, allowed, inv)
    ensures TakesEach(ControllerFrom(identity, digest, allowed), IncompleteKeys(b.workItems),
                      Standing(b, identity, inv))
  {
    var s, stands := ControllerFrom(identity, digest, allowed), Standing(b, identity, inv);
    FreshStands(b, identity);
    forall previous, rest, p | stands(previous, rest) && s.decides(previous, p)
      ensures TakesOne(p, rest) && stands(Following(previous, p, identity), RestAfter(p, rest))
    {
      var input :| allowed(previous, input) && CyclePayload(input, previous, identity) == Ok(p);
      assert DeliversOn(b, previous, input, rest, identity, inv);
    }
  }

  lemma TurnTakes(b: ControlFacts, p: Payload, rest: set<string>, after: seq<WorkRun>, next: Option<WorkItem>)
    requires Takes(b, p, rest, after, next)
    ensures TakesOne(p, rest) && RestAfter(p, rest) == Left(b, after, next)
  {
    if next.Some? { assert LaunchKeys(p.actions) == [next.value.key]; }
  }

  /** An answered cycle delivers on. */
  lemma AnsweredDelivers(b: ControlFacts, plan: Plan, previous: Option<Loaded>, t: Turn, rest: set<string>,
                         identity: string)
    requires Delivering(b, plan) && StandsWith(b, previous, rest, identity) && Answers(b, previous, t)
    ensures var decided := CyclePayload(InputFor(b, previous, t), previous, identity);
            && decided.Ok? && TakesOne(decided.value, rest)
            && StandsWith(b, Following(previous, decided.value, identity), RestAfter(decided.value, rest), identity)
  {
    var landed, out :| Stands(b, previous, landed, out, identity) && rest == Left(b, landed, out);
    var p, after, next := OneTurn(b, plan, previous, landed, out, t, identity);
    TurnTakes(b, p, rest, after, next);
  }

  /** What a cycle is given answers the state it decides on. */
  ghost predicate IsAnswered(b: ControlFacts, previous: Option<Loaded>, input: CycleInput) {
    exists t :: Answers(b, previous, t) && input == InputFor(b, previous, t)
  }

  ghost function Answered(b: ControlFacts): (Option<Loaded>, CycleInput) -> bool {
    (previous: Option<Loaded>, input: CycleInput) => IsAnswered(b, previous, input)
  }

  ghost function Always(): Option<Loaded> -> bool {
    (previous: Option<Loaded>) => true
  }

  lemma AnswersDeliver(b: ControlFacts, plan: Plan, identity: string)
    requires Delivering(b, plan)
    ensures Delivers(b, identity, Answered(b), Always())
  {
    forall previous, input, rest | Answered(b)(previous, input) && StandsWith(b, previous, rest, identity)
      ensures DeliversOn(b, previous, input, rest, identity, Always())
    {
      var t :| Answers(b, previous, t) && input == InputFor(b, previous, t);
      AnsweredDelivers(b, plan, previous, t, rest, identity);
    }
  }

  lemma ReachedPlayed(b: ControlFacts, ops: seq<Op>, identity: string, digest: Digest, records: seq<Record>,
                      allowed: (Option<Loaded>, CycleInput) -> bool, inv: Option<Loaded> -> bool)
    requires Delivers(b, identity, allowed, inv) && ReceivesFrom(ops, identity, digest, allowed)
    requires records == RecordsOf(RunOps(ops, identity, digest).disk)
    ensures EachOnce(Payloads(records, Begun(records)), IncompleteKeys(b.workItems))
  {
    InvHoldsFrom(ops, identity, digest, allowed);
    DeliversTakes(b, identity, digest, allowed, inv);
    BegunPlayed(records, ControllerFrom(identity, digest, allowed), IncompleteKeys(b.workItems),
                Standing(b, identity, inv));
  }

  /** A validated plan delivered over any run, wherever its cycles are cut: when
      every cycle that decides finds the launch before it landed, the journal
      launches each incomplete item exactly once, one a cycle, and then nothing more. */
  lemma RunsDeliverEachOnce(b: ControlFacts, plan: Plan, ops: seq<Op>, identity: string, digest: Digest,
                            records: seq<Record>)
    requires Delivering(b, plan) && ReceivesFrom(ops, identity, digest, Answered(b))
    requires records == RecordsOf(RunOps(ops, identity, digest).disk)
    ensures EachOnce(Payloads(records, Begun(records)), IncompleteKeys(b.workItems))
  {
    AnswersDeliver(b, plan, identity);
    ReachedPlayed(b, ops, identity, digest, records, Answered(b), Always());
  }
}
