/** The delivery as the shipped collector reads it: every collection reads every
    dispatch directory again, so all that earlier cycles were told is told again. */
module Directories {
  import opened Text
  import opened Facts
  import opened Policy
  import opened Merge
  import opened Collector
  import opened Progress
  import opened Landings
  import opened Journal
  import opened Driver
  import opened DriverRuns
  import opened DriverSafety
  import opened JournalFacts
  import opened StorableFacts
  import opened Delivery
  import opened DeliveryRuns
  import opened DeliveryEnds

  // ------------------------------------------------------------ one directory

  /** The record is the launch's own: its binding, one SHA, no failure and no conflict. */
  predicate Agrees(launched: WorkRun, o: WorkRun, sha: string) {
    && o.dispatchId == launched.dispatchId && OwnBinding(launched, o)
    && AllAre(o, sha) && !o.deliveryConflict && !TypedNonResult(o)
  }

  /** A complete landing, published. */
  predicate Finishes(o: WorkRun) {
    CompletionReady(o) && o.resultPublished
  }

  /** A record that agrees, and is progress or the complete landing. */
  ghost predicate Tells(launched: WorkRun, o: WorkRun, sha: string) {
    Agrees(launched, o, sha) && Neat(o) && (o.landedSha.None? || Finishes(o))
  }

  /** A directory that tells of one SHA, lands it, and says nothing else. */
  ghost predicate Lands(launched: WorkRun, records: seq<WorkRun>, sha: string) {
    && sha != "" && (forall o :: o in records ==> Tells(launched, o, sha))
    && exists o :: o in records && Finishes(o)
  }

  /** The launch's binding, kept. */
  predicate Bound(run: WorkRun, launched: WorkRun) {
    && run.dispatchId == launched.dispatchId && run.workItemKey == launched.workItemKey
    && run.issue == launched.issue && run.worktree == launched.worktree
  }

  predicate Clean(run: WorkRun, sha: string) {
    AllAre(run, sha) && !run.deliveryConflict && !TypedNonResult(run)
  }

  /** The launched run before its landing is read. */
  predicate Underway(run: WorkRun, launched: WorkRun, sha: string) {
    Bound(run, launched) && Clean(run, sha) && run.landedSha.None? && StorableRun(run)
  }

  /** The launched run from then on. */
  ghost predicate Home(run: WorkRun, launched: WorkRun, sha: string) {
    Bound(run, launched) && Clean(run, sha) && CompletionReady(run) && run.resultPublished && Neat(run)
  }

  lemma KeepsBinding(launched: WorkRun, run: WorkRun, o: WorkRun)
    requires Bound(run, launched) && o.dispatchId == launched.dispatchId && OwnBinding(launched, o)
    requires launched.dispatchId.Some?
    ensures Bound(MergeObservation(run, o), launched)
    ensures MergeObservation(run, o).deliveryConflict == MergeIdentity(run, o).deliveryConflict
  {
    MergedNames(run, o);
  }

  lemma CleanFills(run: WorkRun, o: WorkRun, sha: string)
    requires Clean(run, sha) && Clean(o, sha) && run.landedSha.None?
    ensures MergeIdentity(run, o) == Merge.Filled(run, o) && AllAre(Merge.Filled(run, o), sha)
  {
    AgreeMeansOne(run, o, sha);
    FilledKeepsSha(run, o, sha);
  }

  lemma CompleteFills(run: WorkRun, o: WorkRun, sha: string)
    requires Clean(run, sha) && Clean(o, sha) && run.landedSha.None? && CompletionReady(o)
    ensures CompletionReady(Merge.Filled(run, o)) && Merge.Filled(run, o).candidateSha == o.candidateSha
  {
  }

  lemma BindingIgnored(m: WorkRun, x: WorkRun)
    requires CompletionReady(x) && m == x.(workItemKey := m.workItemKey, issue := m.issue, worktree := m.worktree,
                                           resultPublished := m.resultPublished)
    ensures CompletionReady(m)
  {
  }

  /** One record read before the landing: more progress, or the landing. */
  lemma UnderwayReads(run: WorkRun, launched: WorkRun, o: WorkRun, sha: string)
    requires launched.dispatchId.Some? && Underway(run, launched, sha) && Tells(launched, o, sha)
    ensures var m := MergeObservation(run, o);
            if Finishes(o) then Home(m, launched, sha) else Underway(m, launched, sha)
  {
    var m := MergeObservation(run, o);
    KeepsBinding(launched, run, o);
    CleanFills(run, o, sha);
    MergeStorable(run, o);
    assert m == Merge.Filled(run, o).(workItemKey := m.workItemKey, issue := m.issue, worktree := m.worktree,
                                resultPublished := m.resultPublished);
    if Finishes(o) {
      CompleteFills(run, o, sha);
      BindingIgnored(m, Merge.Filled(run, o));
    }
  }

  /** After the landing, nothing the directory holds says anything new. */
  lemma HomeReads(run: WorkRun, launched: WorkRun, o: WorkRun, sha: string)
    requires launched.dispatchId.Some? && sha != "" && Home(run, launched, sha) && Tells(launched, o, sha)
    ensures SameWorkRun(run, o) && MergeObservation(run, o) == run
  {
    AgreeMeansOne(run, o, sha);
    KeepsBinding(launched, run, o);
    assert MergeIdentity(run, o) == run.(closeEvidenceSha := Or(o.closeEvidenceSha, run.closeEvidenceSha));
  }

  /** The records that name the run are the launch's own. */
  ghost predicate AllTell(run: WorkRun, launched: WorkRun, observed: seq<WorkRun>, sha: string) {
    forall o :: o in observed && SameWorkRun(run, o) ==> Tells(launched, o, sha)
  }

  lemma {:induction false} HistorySettles(run: WorkRun, observed: seq<WorkRun>)
    requires forall o :: o in observed && SameWorkRun(run, o) ==> MergeObservation(run, o) == run
    ensures History(run, observed) == run
    decreases |observed|
  {
    if observed != [] {
      assert observed[0] in observed;
      HistoryStep(run, observed);
      HistorySettles(run, observed[1..]);
    }
  }

  lemma HomeStays(run: WorkRun, launched: WorkRun, observed: seq<WorkRun>, sha: string)
    requires launched.dispatchId.Some? && sha != "" && Home(run, launched, sha) && AllTell(run, launched, observed, sha)
    ensures History(run, observed) == run
  {
    forall o | o in observed && SameWorkRun(run, o) ensures MergeObservation(run, o) == run {
      HomeReads(run, launched, o, sha);
    }
    HistorySettles(run, observed);
  }

  lemma TellsStill(run: WorkRun, m: WorkRun, launched: WorkRun, observed: seq<WorkRun>, sha: string)
    requires observed != [] && AllTell(run, launched, observed, sha)
    requires run.dispatchId.Some? && m.dispatchId == run.dispatchId
    ensures AllTell(m, launched, observed[1..], sha)
  {
    forall o | o in observed[1..] && SameWorkRun(m, o) ensures Tells(launched, o, sha) {
      assert o in observed && SameWorkRun(run, o);
    }
  }

  /** Read in any order and any number of times, the records of a directory take
      the launched run home as soon as the landing is among them. */
  lemma {:induction false} HistoryLands(run: WorkRun, launched: WorkRun, observed: seq<WorkRun>, sha: string)
    requires launched.dispatchId.Some? && sha != "" && Underway(run, launched, sha)
    requires AllTell(run, launched, observed, sha)
    ensures var m := History(run, observed);
            && (Underway(m, launched, sha) || Home(m, launched, sha))
            && ((exists o :: o in observed && SameWorkRun(run, o) && Finishes(o)) ==> Home(m, launched, sha))
    decreases |observed|
  {
    if observed != [] {
      var o, rest := observed[0], observed[1..];
      assert o in observed && observed == [o] + rest;
      HistoryStep(run, observed);
      if SameWorkRun(run, o) {
        var m := MergeObservation(run, o);
        UnderwayReads(run, launched, o, sha);
        TellsStill(run, m, launched, observed, sha);
        if Finishes(o) {
          HomeStays(m, launched, rest, sha);
        } else {
          HistoryLands(m, launched, rest, sha);
          FinishIsLater(run, m, o, rest);
        }
      } else {
        TellsStill(run, run, launched, observed, sha);
        HistoryLands(run, launched, rest, sha);
        FinishIsLater(run, run, o, rest);
      }
    }
  }

  lemma FinishIsLater(run: WorkRun, m: WorkRun, o: WorkRun, rest: seq<WorkRun>)
    requires run.dispatchId.Some? && m.dispatchId == run.dispatchId && !(SameWorkRun(run, o) && Finishes(o))
    ensures (exists x :: x in [o] + rest && SameWorkRun(run, x) && Finishes(x)) ==>
            exists x :: x in rest && SameWorkRun(m, x) && Finishes(x)
  {
    if x :| x in [o] + rest && SameWorkRun(run, x) && Finishes(x) {
      assert x in rest && SameWorkRun(m, x);
    }
  }

  // ------------------------------------------------------------ all directories

  /** What each dispatch's directory holds from the cycle after its launch on. */
  type Shelf = string -> seq<Report>

  function On(shelf: Shelf, run: WorkRun): seq<WorkRun>
    requires run.dispatchId.Some?
  {
    ReadReports(shelf(run.dispatchId.value))
  }

  /** The run has absorbed all its directory holds. */
  predicate ReadBack(run: WorkRun, shelf: Shelf) {
    run.dispatchId.Some? && forall o :: o in On(shelf, run) ==> SameWorkRun(run, o) && MergeObservation(run, o) == run
  }

  predicate AllReadBack(runs: seq<WorkRun>, shelf: Shelf) {
    forall i :: 0 <= i < |runs| ==> ReadBack(runs[i], shelf)
  }

  /** The collection reads all directories of the dispatches launched so far, in
      whatever order and however often, and no others. */
  ghost predicate Rereads(prior: seq<WorkRun>, reports: seq<Report>, shelf: Shelf) {
    forall r :: r in reports <==>
                exists i :: 0 <= i < |prior| && prior[i].dispatchId.Some? && r in shelf(prior[i].dispatchId.value)
  }

  /** Every directory is read, and that of the launch that is out holds its landing. */
  ghost predicate Reads(b: ControlFacts, previous: Option<Loaded>, t: Turn, shelf: Shelf) {
    && t.now != "" && Rereads(PriorRuns(previous), t.reports, shelf)
    && (LaunchOut(previous).Some? ==>
          var launched := LaunchOut(previous).value;
          launched.dispatchId.Some? && exists sha :: Lands(launched, On(shelf, launched), sha))
    && Shows(b.workItems, t.items, CompleteAmong(b.workItems, CollectedRuns(previous, t)))
  }

  /** Each directory's records are of its own dispatch. */
  predicate OwnRecords(prior: seq<WorkRun>, shelf: Shelf) {
    forall i :: 0 <= i < |prior| ==>
      prior[i].dispatchId.Some? && forall o :: o in On(shelf, prior[i]) ==> o.dispatchId == prior[i].dispatchId
  }

  lemma {:induction false} ReportRead(reports: seq<Report>, o: WorkRun) returns (r: Report)
    requires o in ReadReports(reports)
    ensures r in reports && ReadReport(r) == o
  {
    var i :| 0 <= i < |reports| && ReadReports(reports)[i] == o;
    r := reports[i];
  }

  lemma ReadIn(reports: seq<Report>, r: Report)
    requires r in reports
    ensures ReadReport(r) in ReadReports(reports)
  {
    var i :| 0 <= i < |reports| && reports[i] == r;
    assert ReadReports(reports)[i] == ReadReport(r);
  }

  /** A record read is on the shelf of the dispatch it names. */
  lemma ReadFromShelf(prior: seq<WorkRun>, reports: seq<Report>, shelf: Shelf, o: WorkRun) returns (i: nat)
    requires Rereads(prior, reports, shelf) && OwnRecords(prior, shelf) && o in ReadReports(reports)
    ensures i < |prior| && prior[i].dispatchId.Some? && o in On(shelf, prior[i]) && o.dispatchId == prior[i].dispatchId
  {
    var r := ReportRead(reports, o);
    i :| 0 <= i < |prior| && prior[i].dispatchId.Some? && r in shelf(prior[i].dispatchId.value);
    ReadIn(shelf(prior[i].dispatchId.value), r);
  }

  /** What names a run is what its own shelf holds. */
  lemma NamingIsShelf(prior: seq<WorkRun>, reports: seq<Report>, shelf: Shelf, run: WorkRun, o: WorkRun)
    requires Rereads(prior, reports, shelf) && OwnRecords(prior, shelf) && run.dispatchId.Some?
    requires o in ReadReports(reports) && SameWorkRun(run, o)
    ensures o in On(shelf, run)
  {
    var i := ReadFromShelf(prior, reports, shelf, o);
  }

  lemma ShelfIsRead(prior: seq<WorkRun>, reports: seq<Report>, shelf: Shelf, i: nat, o: WorkRun)
    requires Rereads(prior, reports, shelf) && i < |prior| && prior[i].dispatchId.Some? && o in On(shelf, prior[i])
    ensures o in ReadReports(reports)
  {
    var r := ReportRead(shelf(prior[i].dispatchId.value), o);
    assert r in reports;
    ReadIn(reports, r);
  }

  lemma ShelvesSettle(prior: seq<WorkRun>, landed: seq<WorkRun>, reports: seq<Report>, shelf: Shelf)
    requires Rereads(prior, reports, shelf) && OwnRecords(prior, shelf) && AllReadBack(landed, shelf)
    ensures AllSettle(landed, ReadReports(reports))
  {
    forall i | 0 <= i < |landed| ensures Settles(landed[i], ReadReports(reports)) {
      var run := landed[i];
      assert ReadBack(run, shelf);
      forall o | o in ReadReports(reports) && SameWorkRun(run, o) ensures MergeObservation(run, o) == run {
        NamingIsShelf(prior, reports, shelf, run, o);
      }
      HistorySettles(run, ReadReports(reports));
    }
  }

  lemma ShelvesKnown(prior: seq<WorkRun>, reports: seq<Report>, shelf: Shelf)
    requires Rereads(prior, reports, shelf) && OwnRecords(prior, shelf)
    ensures AllKnown(prior, ReadReports(reports))
  {
    forall o | o in ReadReports(reports) ensures Recognized(prior, o) {
      var i := ReadFromShelf(prior, reports, shelf, o);
    }
  }

  /** The launch that is out comes home, and has then read all its directory holds. */
  lemma ShelfLands(prior: seq<WorkRun>, i: nat, reports: seq<Report>, shelf: Shelf, sha: string)
    requires Rereads(prior, reports, shelf) && OwnRecords(prior, shelf) && i < |prior| && prior[i].dispatchId.Some?
    requires Lands(prior[i], On(shelf, prior[i]), sha) && Underway(prior[i], prior[i], sha)
    ensures var m := History(prior[i], ReadReports(reports));
            LandsAs(prior[i], m) && ReadBack(m, shelf)
  {
    var launched, observed := prior[i], ReadReports(reports);
    forall o | o in observed && SameWorkRun(launched, o) ensures Tells(launched, o, sha) {
      NamingIsShelf(prior, reports, shelf, launched, o);
    }
    var finish :| finish in On(shelf, launched) && Finishes(finish);
    ShelfIsRead(prior, reports, shelf, i, finish);
    assert SameWorkRun(launched, finish);
    HistoryLands(launched, launched, observed, sha);
    var m := History(launched, observed);
    forall o | o in On(shelf, launched) ensures SameWorkRun(m, o) && MergeObservation(m, o) == m {
      HomeReads(m, launched, o, sha);
    }
  }

  // ------------------------------------------------------------ every run

  /** Every landed run has read what its directory holds. */
  predicate ShelvesRead(previous: Option<Loaded>, shelf: Shelf) {
    forall i :: 0 <= i < |PriorRuns(previous)| && Landed(PriorRuns(previous)[i]) ==>
      ReadBack(PriorRuns(previous)[i], shelf)
  }

  lemma BareIsUnderway(launched: WorkRun, sha: string)
    requires launched == BareRun(launched.key, RECORDED_LAUNCH_STATE).(
                           workItemKey := launched.workItemKey, dispatchId := launched.dispatchId,
                           worktree := launched.worktree, issue := launched.issue)
    requires StorableRun(launched)
    ensures Underway(launched, launched, sha) && !Landed(launched)
  {
  }

  lemma OutReads(b: ControlFacts, previous: Option<Loaded>, landed: seq<WorkRun>, item: WorkItem, t: Turn, shelf: Shelf,
                 identity: string)
    requires Stands(b, previous, landed, Some(item), identity) && ShelvesRead(previous, shelf)
    requires Reads(b, previous, t, shelf)
    ensures LaunchOut(previous).Some? && LandedBefore(previous) == landed && AllReadBack(landed, shelf)
    ensures OwnRecords(PriorRuns(previous), shelf)
    ensures var m := History(LaunchOut(previous).value, ReadReports(t.reports));
            LandsAs(LaunchOut(previous).value, m) && ReadBack(m, shelf)
  {
    var prior := PriorRuns(previous);
    var n := |prior| - 1;
    var launched := prior[n];
    assert prior[..n] == landed;
    LandedReadBack(prior, landed, shelf);
    assert launched in prior;
    var sha :| Lands(launched, On(shelf, launched), sha);
    BareIsUnderway(launched, sha);
    OwnPending(prior, landed, launched, shelf, sha);
    ShelfLands(prior, n, t.reports, shelf, sha);
  }

  lemma LandedReadBack(prior: seq<WorkRun>, landed: seq<WorkRun>, shelf: Shelf)
    requires AllLanded(landed) && |landed| <= |prior| && prior[..|landed|] == landed
    requires forall i :: 0 <= i < |prior| && Landed(prior[i]) ==> ReadBack(prior[i], shelf)
    ensures AllReadBack(landed, shelf)
  {
    forall i | 0 <= i < |landed| ensures ReadBack(landed[i], shelf) {
      assert Landed(landed[i]) && prior[i] == landed[i];
    }
  }

  lemma OwnPending(prior: seq<WorkRun>, landed: seq<WorkRun>, launched: WorkRun, shelf: Shelf, sha: string)
    requires prior == landed + [launched] && AllReadBack(landed, shelf)
    requires launched.dispatchId.Some? && Lands(launched, On(shelf, launched), sha)
    ensures OwnRecords(prior, shelf)
  {
    forall i | 0 <= i < |prior|
      ensures prior[i].dispatchId.Some? && forall o :: o in On(shelf, prior[i]) ==> o.dispatchId == prior[i].dispatchId
    {
      if i < |landed| {
        assert ReadBack(landed[i], shelf);
      }
    }
  }

  lemma OwnSettled(landed: seq<WorkRun>, shelf: Shelf)
    requires AllReadBack(landed, shelf)
    ensures OwnRecords(landed, shelf)
  {
    forall i | 0 <= i < |landed|
      ensures landed[i].dispatchId.Some?
              && forall o :: o in On(shelf, landed[i]) ==> o.dispatchId == landed[i].dispatchId
    {
      assert ReadBack(landed[i], shelf);
    }
  }

  lemma SettledReads(b: ControlFacts, previous: Option<Loaded>, landed: seq<WorkRun>, shelf: Shelf, identity: string)
    requires Stands(b, previous, landed, None, identity) && ShelvesRead(previous, shelf)
    ensures LaunchOut(previous).None? && LandedBefore(previous) == landed && AllReadBack(landed, shelf)
    ensures OwnRecords(PriorRuns(previous), shelf)
  {
    var prior := PriorRuns(previous);
    assert prior[..|landed|] == landed;
    LandedReadBack(prior, landed, shelf);
    OwnSettled(landed, shelf);
  }

  /** Reading every directory answers. */
  lemma ReadingAnswers(b: ControlFacts, previous: Option<Loaded>, landed: seq<WorkRun>, out: Option<WorkItem>, t: Turn,
                       shelf: Shelf, identity: string)
    requires Stands(b, previous, landed, out, identity) && ShelvesRead(previous, shelf) && Reads(b, previous, t, shelf)
    ensures Answers(b, previous, t)
  {
    var prior := PriorRuns(previous);
    if out.Some? {
      OutReads(b, previous, landed, out.value, t, shelf, identity);
    } else {
      SettledReads(b, previous, landed, shelf, identity);
    }
    ShelvesSettle(prior, landed, t.reports, shelf);
    ShelvesKnown(prior, t.reports, shelf);
  }

  /** What has landed by then has read its own directory. */
  lemma NowReadBack(b: ControlFacts, previous: Option<Loaded>, landed: seq<WorkRun>, out: Option<WorkItem>, t: Turn,
                    after: seq<WorkRun>, shelf: Shelf, identity: string)
    requires Stands(b, previous, landed, out, identity) && ShelvesRead(previous, shelf) && Reads(b, previous, t, shelf)
    requires LandedNow(previous, landed, out, t, after)
    ensures AllReadBack(after, shelf)
  {
    if out.Some? {
      OutReads(b, previous, landed, out.value, t, shelf, identity);
    } else {
      SettledReads(b, previous, landed, shelf, identity);
    }
  }

  ghost predicate IsRead(b: ControlFacts, previous: Option<Loaded>, input: CycleInput, shelf: Shelf) {
    exists t :: Reads(b, previous, t, shelf) && input == InputFor(b, previous, t)
  }

  /** What a cycle is given comes from reading every directory again. */
  ghost function Reading(b: ControlFacts, shelf: Shelf): (Option<Loaded>, CycleInput) -> bool {
    (previous: Option<Loaded>, input: CycleInput) => IsRead(b, previous, input, shelf)
  }

  ghost function Shelved(shelf: Shelf): Option<Loaded> -> bool {
    (previous: Option<Loaded>) => ShelvesRead(previous, shelf)
  }

  /** The state that follows has the landed runs, and a new launch at most. */
  lemma FollowingRead(b: ControlFacts, following: Option<Loaded>, after: seq<WorkRun>, next: Option<WorkItem>,
                      shelf: Shelf, identity: string)
    requires Stands(b, following, after, next, identity) && AllReadBack(after, shelf)
    ensures ShelvesRead(following, shelf)
  {
    var prior := PriorRuns(following);
    forall i | 0 <= i < |prior| && Landed(prior[i]) ensures ReadBack(prior[i], shelf) {
      if i < |after| {
        assert prior[i] == after[i];
      }
    }
  }

  lemma ReadingDelivers(b: ControlFacts, plan: Plan, previous: Option<Loaded>, t: Turn, rest: set<string>,
                        shelf: Shelf, identity: string)
    requires Delivering(b, plan) && StandsWith(b, previous, rest, identity)
    requires ShelvesRead(previous, shelf) && Reads(b, previous, t, shelf)
    ensures DeliversOn(b, previous, InputFor(b, previous, t), rest, identity, Shelved(shelf))
  {
    var landed, out :| Stands(b, previous, landed, out, identity) && rest == Left(b, landed, out);
    var p, after, next := ReadingTurn(b, plan, previous, landed, out, t, shelf, identity);
    TurnTakes(b, p, rest, after, next);
  }

  lemma ReadingTurn(b: ControlFacts, plan: Plan, previous: Option<Loaded>, landed: seq<WorkRun>, out: Option<WorkItem>,
                    t: Turn, shelf: Shelf, identity: string)
    returns (p: Payload, after: seq<WorkRun>, next: Option<WorkItem>)
    requires Delivering(b, plan) && Stands(b, previous, landed, out, identity)
    requires ShelvesRead(previous, shelf) && Reads(b, previous, t, shelf)
    ensures CyclePayload(InputFor(b, previous, t), previous, identity) == Ok(p)
    ensures Turned(b, previous, p, Left(b, landed, out), after, next, identity)
    ensures ShelvesRead(Following(previous, p, identity), shelf)
  {
    ReadingAnswers(b, previous, landed, out, t, shelf, identity);
    p, after, next := OneTurn(b, plan, previous, landed, out, t, identity);
    var now := TurnCollects(b, previous, landed, out, t, identity);
    NowReadBack(b, previous, landed, out, t, now, shelf, identity);
    FollowingRead(b, Following(previous, p, identity), after, next, shelf, identity);
  }

  lemma ReadingsDeliver(b: ControlFacts, plan: Plan, shelf: Shelf, identity: string)
    requires Delivering(b, plan)
    ensures Delivers(b, identity, Reading(b, shelf), Shelved(shelf))
  {
    forall previous, input, rest | Shelved(shelf)(previous) && Reading(b, shelf)(previous, input)
                                   && StandsWith(b, previous, rest, identity)
      ensures DeliversOn(b, previous, input, rest, identity, Shelved(shelf))
    {
      var t :| Reads(b, previous, t, shelf) && input == InputFor(b, previous, t);
      ReadingDelivers(b, plan, previous, t, rest, shelf, identity);
    }
  }

  /** A validated plan delivered with the dispatch directories the collector
      reads: nothing is ever removed from them, each holds the complete landing
      of its dispatch by the cycle after the launch, and every cycle that decides
      reads them all again.  The journal of any run launches each incomplete item
      exactly once, one a cycle, and then nothing; and enough long cycles launch them all. */
  lemma DirectoriesDeliverEachOnce(b: ControlFacts, plan: Plan, shelf: Shelf, ops: seq<Op>, identity: string,
                                   digest: Digest, records: seq<Record>)
    requires Delivering(b, plan) && ReceivesFrom(ops, identity, digest, Reading(b, shelf))
    requires records == RecordsOf(RunOps(ops, identity, digest).disk)
    ensures EachOnce(Payloads(records, Begun(records)), IncompleteKeys(b.workItems))
    ensures AllWorkable(ops, identity, digest) && LongCycles(ops) >= |IncompleteKeys(b.workItems)| ==>
              AllDelivered(Payloads(records, Begun(records)), IncompleteKeys(b.workItems))
  {
    ReadingsDeliver(b, plan, shelf, identity);
    ReachedPlayed(b, ops, identity, digest, records, Reading(b, shelf), Shelved(shelf));
    if AllWorkable(ops, identity, digest) && LongCycles(ops) >= |IncompleteKeys(b.workItems)| {
      ReachedEnds(b, ops, identity, digest, records, Reading(b, shelf), Shelved(shelf));
    }
  }
}
