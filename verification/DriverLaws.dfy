/** What the journaled protocol keeps: the shape of a journal and its identities,
    the invariant every durable effect preserves, and what recovery makes of a
    world that satisfies it. */
module DriverLaws {
  import opened Text
  import opened Facts
  import opened Policy
  import opened Journal
  import opened Driver

  // ------------------------------------------------------------ identities

  /** A decimal number contains no separator. */
  lemma DecimalIsDigits(n: nat, i: nat)
    requires i < |Decimal(n)|
    ensures '0' <= Decimal(n)[i] <= '9'
  {
    assert Decimal(n)[i] in Decimal(n);
  }

  /** Numbers read off the end of a text are determined by it, whatever precedes them. */
  lemma DecimalTail(a: string, m: nat, b: string, n: nat)
    requires a + "-" + Decimal(m) == b + "-" + Decimal(n)
    ensures m == n
  {
    var s, x, y := a + "-" + Decimal(m), Decimal(m), Decimal(n);
    forall i | |a| < i < |s| ensures s[i] != '-' { DecimalIsDigits(m, i - |a| - 1); }
    forall i | |b| < i < |s| ensures s[i] != '-' {
      assert s[i] == y[i - |b| - 1];
      DecimalIsDigits(n, i - |b| - 1);
    }
    assert s[|a|] == '-' && s[|b|] == '-';
    assert s[|a| + 1..] == x && s[|b| + 1..] == y;
    DecimalInjective(m, n);
  }

  /** Cycle identities of different ordinals differ, even under different controller names. */
  lemma CycleIdsDiffer(a: string, m: nat, b: string, n: nat)
    requires CycleId(a, m) == CycleId(b, n)
    ensures m == n
  {
    assert a + "-cycle-" + Decimal(m) == (a + "-cycle") + "-" + Decimal(m);
    assert b + "-cycle-" + Decimal(n) == (b + "-cycle") + "-" + Decimal(n);
    DecimalTail(a + "-cycle", m, b + "-cycle", n);
  }

  lemma DecimalHead(m: nat, x: string, n: nat, y: string)
    requires Decimal(m) + ":" + x == Decimal(n) + ":" + y
    ensures m == n && x == y
  {
    var s, a, b := Decimal(m) + ":" + x, Decimal(m), Decimal(n);
    forall i | 0 <= i < |a| ensures s[i] != ':' { DecimalIsDigits(m, i); }
    forall i | 0 <= i < |b| ensures s[i] != ':' {
      assert s[i] == b[i];
      DecimalIsDigits(n, i);
    }
    assert s[|a|] == ':' && s[|b|] == ':';
    assert s[..|a|] == a && s[..|b|] == b;
    DecimalInjective(m, n);
    assert s[|a| + 1..] == x && s[|b| + 1..] == y;
  }

  /** One controller's dispatch identities differ between cycles and between items. */
  lemma DispatchIdsDiffer(identity: string, m: nat, x: string, n: nat, y: string)
    requires DispatchId(identity, m, x) == DispatchId(identity, n, y)
    ensures m == n && x == y
  {
    var head := identity + ":" + identity + "-cycle-";
    var a, b := DispatchId(identity, m, x), DispatchId(identity, n, y);
    assert a == head + (Decimal(m) + ":" + x);
    assert b == head + (Decimal(n) + ":" + y);
    assert a[|head|..] == Decimal(m) + ":" + x && b[|head|..] == Decimal(n) + ":" + y;
    DecimalHead(m, x, n, y);
  }

  /** A key some launch may carry: recording that launch drops every run with this key. */
  ghost predicate RunKey(key: string) {
    exists identity, ordinal: nat, item :: key == DispatchId(identity, ordinal, item)
  }

  // ------------------------------------------------------------ the shape of a reachable journal

  function Launches(actions: seq<ControlAction>): seq<ControlAction> {
    if actions == [] then []
    else
      var n := |actions| - 1;
      Launches(actions[..n]) + (if actions[n].StartWorkRun? then [actions[n]] else [])
  }

  /** A journaled decision launches nothing, or exactly the run its facts record, within the limit. */
  predicate SoundPayload(p: Payload, ordinal: nat, identity: string) {
    || Launches(p.actions) == []
    || (&& |p.actions| == 1 && p.actions[0].StartWorkRun?
        && p.actions[0].dispatchId == Some(DispatchId(identity, ordinal, p.actions[0].workItemKey))
        && p.facts.wipLimit.Some? && OccupiedCapacity(p.facts) <= p.facts.wipLimit.value
        && exists run :: run in LiveWorkRuns(p.facts) && run.dispatchId == p.actions[0].dispatchId
                         && run.workItemKey == Some(p.actions[0].workItemKey))
  }

  function PhaseAt(i: nat): Phase {
    if i % 3 == 0 then Planned else if i % 3 == 1 then Applied else Confirmed
  }

  /** Record `i` is where a run of numbered three-phase cycles would put it. */
  predicate Fits(records: seq<Record>, i: nat, identity: string)
    requires i < |records|
  {
    && records[i].cycleId == CycleId(identity, i / 3 + 1)
    && records[i].phase == PhaseAt(i)
    && records[i].payload == records[i - i % 3].payload
  }

  /** Records come in cycles of three, numbered from one, each with one payload. */
  predicate Shaped(records: seq<Record>, identity: string) {
    forall i :: 0 <= i < |records| ==> Fits(records, i, identity)
  }

  /** One controller, and what its cycles may journal after what they loaded. */
  datatype Setting = Setting(identity: string, digest: Digest, decides: (Option<Loaded>, Payload) -> bool)

  /** What cycle `k` has to go on: the journaled state of the cycle before it. */
  function PriorTo(records: seq<Record>, k: nat, identity: string): Option<Loaded>
    requires 3 * k <= |records|
  {
    if k == 0 then None
    else Some(Loaded(records[3 * k - 3].payload, CycleId(identity, k), 3 * k, Confirmed))
  }

  /** Cycle `k` journaled a decision taken on the state the cycle before it journaled. */
  predicate Decided(records: seq<Record>, k: nat, s: Setting)
    requires 3 * k < |records|
  {
    s.decides(PriorTo(records, k, s.identity), records[3 * k].payload)
  }

  ghost predicate Traced(records: seq<Record>, s: Setting) {
    forall k: nat :: 3 * k < |records| ==> Decided(records, k, s)
  }

  /** The view that answers for a whole number of cycles. */
  function ViewOf(records: seq<Record>, digest: Digest): Option<View> {
    if records == [] then None
    else
      var final := records[|records| - 1];
      Some(View(digest(records), final.cycleId, final.payload))
  }

  /** The launches of the first `k` cycles, in order. */
  function CycleLaunches(records: seq<Record>, k: nat): seq<ControlAction>
    requires 3 * k <= |records|
  {
    if k == 0 then [] else CycleLaunches(records, k - 1) + Launches(records[3 * k - 3].payload.actions)
  }

  /** How many cycles are complete. */
  function Whole(records: seq<Record>): nat {
    |records| / 3
  }

  /** The last cycle's action has certainly, possibly, or not yet been carried out. */
  predicate LaunchesMatch(records: seq<Record>, applied: seq<ControlAction>) {
    var k := Whole(records);
    var before := CycleLaunches(records, k);
    match |records| % 3
    case 0 => Launches(applied) == before
    case 1 =>
      || Launches(applied) == before
      || Launches(applied) == before + Launches(records[3 * k].payload.actions)
    case _ => Launches(applied) == before + Launches(records[3 * k].payload.actions)
  }

  /** The view covers every complete cycle, or misses exactly the last one just confirmed. */
  predicate ViewMatches(records: seq<Record>, view: Option<View>, torn: bool, digest: Digest) {
    var k := Whole(records);
    || view == ViewOf(records[..3 * k], digest)
    || (|records| % 3 == 0 && k > 0 && !torn && view == ViewOf(records[..3 * k - 3], digest))
  }

  /** What holds of every reachable world. */
  ghost predicate Inv(w: World, s: Setting) {
    match w.disk.journal
    case Absent => w.disk.view.None? && w.applied == []
    case File(records, torn) =>
      && w.disk.marker == Started
      && Shaped(records, s.identity) && Traced(records, s)
      && ViewMatches(records, w.disk.view, torn, s.digest)
      && LaunchesMatch(records, w.applied)
  }

  // ------------------------------------------------------------ reading a reachable journal

  /** The three records of cycle `k`, counted from zero. */
  lemma ShapedTriple(records: seq<Record>, identity: string, k: nat)
    requires Shaped(records, identity) && 3 * k < |records|
    ensures records[3 * k].cycleId == CycleId(identity, k + 1) && records[3 * k].phase == Planned
    ensures 3 * k + 1 < |records| ==>
              records[3 * k + 1] == Record(CycleId(identity, k + 1), Applied, records[3 * k].payload)
    ensures 3 * k + 2 < |records| ==>
              records[3 * k + 2] == Record(CycleId(identity, k + 1), Confirmed, records[3 * k].payload)
  {
    assert Fits(records, 3 * k, identity);
    if 3 * k + 1 < |records| { assert Fits(records, 3 * k + 1, identity); }
    if 3 * k + 2 < |records| { assert Fits(records, 3 * k + 2, identity); }
  }

  lemma {:induction false} ShapedCycles(records: seq<Record>, identity: string, k: nat)
    requires Shaped(records, identity) && 3 * k <= |records|
    ensures CyclesFault(records, k).None?
  {
    if k > 0 {
      ShapedCycles(records, identity, k - 1);
      ShapedTriple(records, identity, k - 1);
    }
  }

  lemma ShapedIdsDistinct(records: seq<Record>, identity: string, k: nat)
    requires Shaped(records, identity) && 3 * k <= |records|
    ensures !HasDuplicate(CycleIds(records, k))
  {
    var ids := CycleIds(records, k);
    forall i, j | 0 <= i < j < |ids| ensures ids[i] != ids[j] {
      ShapedTriple(records, identity, i);
      ShapedTriple(records, identity, j);
      if ids[i] == ids[j] { CycleIdsDiffer(identity, i + 1, identity, j + 1); }
    }
  }

  /** A shaped journal passes validation, whole or with a trailing prefix. */
  lemma ShapedIsValid(records: seq<Record>, identity: string, allowIncomplete: bool)
    requires Shaped(records, identity) && records != []
    requires allowIncomplete || |records| % 3 == 0
    ensures SequenceFault(records, allowIncomplete).None?
  {
    var k := Whole(records);
    ShapedCycles(records, identity, k);
    ShapedIdsDistinct(records, identity, k);
    if |records| % 3 != 0 {
      ShapedTriple(records, identity, k);
    } else {
      ShapedTriple(records, identity, k - 1);
    }
  }

  /** A view of one cycle fewer never answers for the journal, even if the two
      digests were to collide. */
  lemma StaleViewRefused(records: seq<Record>, identity: string, digest: Digest)
    requires Shaped(records, identity) && |records| >= 6 && |records| % 3 == 0
    ensures ViewFault(ViewOf(records[..|records| - 3], digest).value, records, digest).Some?
  {
    var k := Whole(records);
    var stale := records[..|records| - 3];
    assert stale[|stale| - 1] == records[3 * (k - 2) + 2] && records[|records| - 1] == records[3 * (k - 1) + 2];
    ShapedTriple(records, identity, k - 2);
    ShapedTriple(records, identity, k - 1);
    if CycleId(identity, k - 1) == CycleId(identity, k) {
      CycleIdsDiffer(identity, k - 1, identity, k);
    }
  }

  /** The journal was cut short, never written, or confirmed without its view. */
  predicate Unreadable(w: World, digest: Digest) {
    match w.disk.journal
    case Absent => true
    case File(records, torn) =>
      || torn || records == []
      || (|records| % 3 == 0 && w.disk.view != ViewOf(records, digest))
  }

  /** Recovery: a reachable world loads back as exactly its last record's
      payload and phase, and refuses in exactly the listed cases. */
  lemma RecoveryIsExact(w: World, s: Setting)
    requires Inv(w, s)
    ensures LoadRecoverable(w.disk, s.digest).Ok? <==> !Unreadable(w, s.digest)
    ensures LoadRecoverable(w.disk, s.digest).Ok? ==>
              var records := w.disk.journal.records;
              var last := records[|records| - 1];
              LoadRecoverable(w.disk, s.digest) == Ok(Loaded(last.payload, last.cycleId, |records|, last.phase))
  {
    if w.disk.journal.File? && !w.disk.journal.torn && w.disk.journal.records != [] {
      ShapedIsValid(w.disk.journal.records, s.identity, true);
      if |w.disk.journal.records| % 3 == 0 {
        WholeLoads(w, s);
      } else {
        PrefixLoads(w.disk, w.disk.journal.records, s.identity, s.digest);
      }
    }
  }

  lemma WholeLoads(w: World, s: Setting)
    requires Inv(w, s) && w.disk.journal.File? && !w.disk.journal.torn
    requires w.disk.journal.records != [] && |w.disk.journal.records| % 3 == 0
    ensures var records := w.disk.journal.records;
            var last := records[|records| - 1];
            if w.disk.view == ViewOf(records, s.digest)
            then Load(w.disk, s.digest) == Ok(Loaded(last.payload, last.cycleId, |records|, last.phase))
            else Load(w.disk, s.digest).Err?
  {
    var records := w.disk.journal.records;
    var k := Whole(records);
    ShapedIsValid(records, s.identity, false);
    ShapedTriple(records, s.identity, k - 1);
    assert records[..3 * k] == records;
    if w.disk.view != ViewOf(records, s.digest) && k >= 2 {
      StaleViewRefused(records, s.identity, s.digest);
    }
  }

  /** No complete cycle carries the identity of the one in progress. */
  lemma PrefixIsNew(records: seq<Record>, identity: string)
    requires Shaped(records, identity) && |records| % 3 != 0
    ensures forall r :: r in records[..3 * Whole(records)] ==> r.cycleId != records[3 * Whole(records)].cycleId
  {
    var k := Whole(records);
    ShapedTriple(records, identity, k);
    forall r | r in records[..3 * k] ensures r.cycleId != records[3 * k].cycleId {
      var i :| 0 <= i < 3 * k && records[i] == r;
      assert Fits(records, i, identity);
      if CycleId(identity, i / 3 + 1) == CycleId(identity, k + 1) {
        CycleIdsDiffer(identity, i / 3 + 1, identity, k + 1);
      }
    }
  }

  /** A view that covers the complete cycles answers for them. */
  lemma CurrentViewAccepted(records: seq<Record>, digest: Digest)
    ensures ViewOf(records, digest).None? <==> records == []
    ensures records != [] ==> ViewFault(ViewOf(records, digest).value, records, digest).None?
  {
  }

  lemma PrefixLoads(disk: Disk, records: seq<Record>, identity: string, digest: Digest)
    requires disk.journal == File(records, false) && Shaped(records, identity) && |records| % 3 != 0
    requires disk.view == ViewOf(records[..3 * Whole(records)], digest)
    requires ReadRecords(disk, true) == Ok(records)
    ensures var last := records[|records| - 1];
            LoadRecoverable(disk, digest) == Ok(Loaded(last.payload, last.cycleId, |records|, last.phase))
  {
    var prefix := records[..3 * Whole(records)];
    CurrentViewAccepted(prefix, digest);
    PrefixIsNew(records, identity);
    assert |records| - |records| % 3 == 3 * Whole(records);
  }

  // ------------------------------------------------------------ effects that keep the shape

  lemma LaunchesAppend(a: seq<ControlAction>, x: ControlAction)
    ensures Launches(a + [x]) == Launches(a) + (if x.StartWorkRun? then [x] else [])
  {
    assert (a + [x])[..|a|] == a;
  }

  lemma {:induction false} LaunchesConcat(a: seq<ControlAction>, b: seq<ControlAction>)
    ensures Launches(a + b) == Launches(a) + Launches(b)
  {
    if b == [] {
      assert a + b == a;
    } else {
      var n := |b| - 1;
      assert (a + b)[..|a| + n] == a + b[..n];
      LaunchesConcat(a, b[..n]);
    }
  }

  lemma {:induction false} CycleLaunchesPrefix(records: seq<Record>, more: seq<Record>, k: nat)
    requires 3 * k <= |records|
    ensures CycleLaunches(records + more, k) == CycleLaunches(records, k)
  {
    if k > 0 { CycleLaunchesPrefix(records, more, k - 1); }
  }

  /** The next record of the current cycle, or the first of the next one. */
  ghost predicate NextRecord(records: seq<Record>, r: Record, s: Setting) {
    && Fits(records + [r], |records|, s.identity)
    && (|records| % 3 == 0 ==> Decided(records + [r], Whole(records), s))
  }

  lemma NextKeepsShape(records: seq<Record>, r: Record, s: Setting)
    requires Shaped(records, s.identity) && Traced(records, s) && NextRecord(records, r, s)
    ensures Shaped(records + [r], s.identity) && Traced(records + [r], s)
  {
    forall i | 0 <= i < |records| + 1 ensures Fits(records + [r], i, s.identity) {
      if i < |records| { assert Fits(records, i, s.identity); }
    }
    NextKeepsTrace(records, r, s);
  }

  lemma DecidedStays(records: seq<Record>, r: Record, k: nat, s: Setting)
    requires 3 * k < |records| && Decided(records, k, s)
    ensures Decided(records + [r], k, s)
  {
    assert PriorTo(records + [r], k, s.identity) == PriorTo(records, k, s.identity);
    assert (records + [r])[3 * k] == records[3 * k];
  }

  lemma NextKeepsTrace(records: seq<Record>, r: Record, s: Setting)
    requires Traced(records, s)
    requires |records| % 3 == 0 ==> Decided(records + [r], Whole(records), s)
    ensures Traced(records + [r], s)
  {
    forall k: nat | 3 * k < |records| + 1 ensures Decided(records + [r], k, s) {
      if 3 * k < |records| {
        assert Decided(records, k, s);
        DecidedStays(records, r, k, s);
      } else {
        assert k == Whole(records);
      }
    }
  }

  /** When an effect may happen: the invariant survives it, and survives a crash inside it. */
  ghost predicate Ready(w: World, e: Effect, s: Setting) {
    var records := RecordsOf(w.disk);
    match e
    case Start => w.disk.journal.Absent?
    case Append(r) =>
      && w.disk.marker == Started && (w.disk.journal.File? ==> !w.disk.journal.torn)
      && NextRecord(records, r, s)
      && (|records| % 3 == 0 ==> w.disk.view == ViewOf(records, s.digest))
      && (|records| % 3 == 1 ==>
            Launches(w.applied) == CycleLaunches(records, Whole(records))
              + Launches(records[|records| - 1].payload.actions))
    case Perform(a) =>
      && w.disk.journal.File? && |records| % 3 == 1
      && (a.StartWorkRun? ==>
            && Launches(w.applied) == CycleLaunches(records, Whole(records))
            && Launches(records[|records| - 1].payload.actions) == [a])
    case ReplaceView => w.disk.journal.File? && !w.disk.journal.torn && records != [] && |records| % 3 == 0
  }

  /** One more record moves the count of complete cycles only at the third of a cycle. */
  lemma AppendLaunches(records: seq<Record>, r: Record, applied: seq<ControlAction>)
    requires LaunchesMatch(records, applied)
    requires |records| % 3 == 1 ==>
               Launches(applied) == CycleLaunches(records, Whole(records))
                 + Launches(records[|records| - 1].payload.actions)
    requires |records| % 3 != 0 ==> r.payload == records[3 * Whole(records)].payload
    ensures LaunchesMatch(records + [r], applied)
  {
    var k := Whole(records);
    CycleLaunchesPrefix(records, [r], k);
    if |records| % 3 == 2 {
      assert Whole(records + [r]) == k + 1;
      assert (records + [r])[3 * (k + 1) - 3] == records[3 * k];
    }
  }

  lemma AppendView(records: seq<Record>, r: Record, view: Option<View>, torn: bool, digest: Digest)
    requires ViewMatches(records, view, torn, digest)
    requires |records| % 3 == 0 ==> view == ViewOf(records, digest)
    ensures ViewMatches(records + [r], view, false, digest)
  {
    var k := Whole(records);
    var next := records + [r];
    assert next[..3 * k] == records[..3 * k];
    if |records| % 3 == 0 {
      assert records[..3 * k] == records;
    } else if |records| % 3 == 2 {
      assert Whole(next) == k + 1 && 3 * (k + 1) - 3 == 3 * k;
    }
  }

  lemma AppendKeeps(w: World, r: Record, s: Setting)
    requires Inv(w, s) && Ready(w, Append(r), s)
    ensures Inv(Do(w, Append(r), s.digest), s)
  {
    var records := RecordsOf(w.disk);
    NextKeepsShape(records, r, s);
    assert records + [r] != []
      && (records + [r])[|records| - |records| % 3] == if |records| % 3 == 0 then r else records[3 * Whole(records)];
    AppendLaunches(records, r, w.applied);
    AppendView(records, r, w.disk.view, false, s.digest);
  }

  /** Cutting the next line short says nothing new about a view that covers every cycle. */
  lemma TearKeepsView(records: seq<Record>, view: Option<View>, torn: bool, cut: bool, digest: Digest)
    requires ViewMatches(records, view, torn, digest)
    requires |records| % 3 == 0 ==> view == ViewOf(records, digest)
    ensures ViewMatches(records, view, cut, digest)
  {
    assert |records| % 3 == 0 ==> records[..3 * Whole(records)] == records;
  }

  lemma InterruptKeeps(w: World, e: Effect, tear: Tear, s: Setting)
    requires Inv(w, s) && Ready(w, e, s)
    ensures Inv(Interrupt(w, e, tear), s)
  {
    if e.Append? && tear != Nothing {
      TearKeepsView(RecordsOf(w.disk), w.disk.view, false, tear == Partly, s.digest);
    }
  }

  lemma PerformKeeps(w: World, a: ControlAction, s: Setting)
    requires Inv(w, s) && Ready(w, Perform(a), s)
    ensures Inv(Do(w, Perform(a), s.digest), s)
  {
    LaunchesAppend(w.applied, a);
    assert 3 * Whole(RecordsOf(w.disk)) == |RecordsOf(w.disk)| - 1;
  }

  lemma ReplaceKeeps(w: World, s: Setting)
    requires Inv(w, s) && Ready(w, ReplaceView, s)
    ensures Inv(Do(w, ReplaceView, s.digest), s)
    ensures Do(w, ReplaceView, s.digest).disk.view == ViewOf(RecordsOf(w.disk), s.digest)
  {
    var records := RecordsOf(w.disk);
    ShapedIsValid(records, s.identity, false);
    assert records[..|records|] == records;
  }

  lemma EffectKeeps(w: World, e: Effect, s: Setting)
    requires Inv(w, s) && Ready(w, e, s)
    ensures Inv(Do(w, e, s.digest), s)
  {
    match e {
      case Start =>
      case Append(r) => AppendKeeps(w, r, s);
      case Perform(a) => PerformKeeps(w, a, s);
      case ReplaceView => ReplaceKeeps(w, s);
    }
  }

  /** Every effect of a list is ready when its turn comes. */
  ghost predicate AllReady(w: World, effects: seq<Effect>, s: Setting)
    decreases |effects|
  {
    effects == [] ||
    (Ready(w, effects[0], s) && AllReady(Do(w, effects[0], s.digest), effects[1..], s))
  }

  lemma FirstKeeps(w: World, effects: seq<Effect>, s: Setting)
    requires Inv(w, s) && effects != [] && AllReady(w, effects, s)
    ensures Inv(Do(w, effects[0], s.digest), s)
    ensures AllReady(Do(w, effects[0], s.digest), effects[1..], s)
  {
    EffectKeeps(w, effects[0], s);
  }

  lemma FirstInterrupted(w: World, effects: seq<Effect>, tear: Tear, s: Setting)
    requires Inv(w, s) && effects != [] && AllReady(w, effects, s)
    ensures Inv(Interrupt(w, effects[0], tear), s)
  {
    InterruptKeeps(w, effects[0], tear, s);
  }

  /** Whatever survives each effect and each crash inside one survives every cut-off list. */
  lemma {:induction false} ExecInduction(w: World, effects: seq<Effect>, fuel: nat, tear: Tear, digest: Digest,
                                         ready: (World, seq<Effect>) -> bool, safe: World -> bool)
    requires ready(w, effects)
    requires forall w', es :: ready(w', es) ==> safe(w')
    requires forall w', es :: ready(w', es) && es != [] ==> ready(Do(w', es[0], digest), es[1..])
    requires forall w', es, t :: ready(w', es) && es != [] ==> safe(Interrupt(w', es[0], t))
    ensures safe(Exec(w, effects, fuel, tear, digest).world)
    decreases |effects|
  {
    if effects != [] && fuel > 0 {
      ExecInduction(Do(w, effects[0], digest), effects[1..], fuel - 1, tear, digest, ready, safe);
    }
  }

  lemma ExecKeeps(w: World, effects: seq<Effect>, fuel: nat, tear: Tear, s: Setting)
    requires Inv(w, s) && AllReady(w, effects, s)
    ensures Inv(Exec(w, effects, fuel, tear, s.digest).world, s)
  {
    var ready := (w': World, es: seq<Effect>) => Inv(w', s) && AllReady(w', es, s);
    var safe := (w': World) => Inv(w', s);
    forall w', es | ready(w', es) && es != [] ensures ready(Do(w', es[0], s.digest), es[1..]) {
      FirstKeeps(w', es, s);
    }
    forall w', es, t | ready(w', es) && es != [] ensures safe(Interrupt(w', es[0], t)) {
      FirstInterrupted(w', es, t, s);
    }
    ExecInduction(w, effects, fuel, tear, s.digest, ready, safe);
  }
}
