/** The corpus pool's systemic-crash stop (tools/breaker.py), the second
    consumer of the breaker's consecutive-N policy. */
module CrashStop {
  import opened Text
  import opened Breaker
  import BreakerLaws

  const CRASH := "node_crashed"
  const CORPUS_CRASH_RULE :=
    TripRule("systemic_crash", {CRASH}, 2, "pool", false, false, "infra_unavailable", None)

  datatype Completion = Completion(name: string, class_: string)

  predicate Crashed(c: Completion) {
    c.class_ in CORPUS_CRASH_RULE.on
  }

  function Names(cs: seq<Completion>): (r: seq<string>)
    ensures |r| == |cs| && forall i :: 0 <= i < |r| ==> r[i] == cs[i].name
  {
    seq(|cs|, i requires 0 <= i < |cs| => cs[i].name)
  }

  /** The length of the block of crashes `cs` starts with. */
  function Leading(cs: seq<Completion>): (n: nat)
    ensures n <= |cs| && forall i :: 0 <= i < n ==> Crashed(cs[i])
    ensures n < |cs| ==> !Crashed(cs[n])
  {
    if cs == [] || !Crashed(cs[0]) then 0 else 1 + Leading(cs[1..])
  }

  /** The first contiguous block of at least two crashes, whole. */
  function FirstCrashRun(cs: seq<Completion>): Option<seq<string>> {
    if cs == [] then None
    else if Leading(cs) >= CORPUS_CRASH_RULE.consecutive then Some(Names(cs[..Leading(cs)]))
    else FirstCrashRun(cs[1..])
  }

  lemma {:induction false} LeadingIs(cs: seq<Completion>, n: nat)
    requires n <= |cs| && forall i :: 0 <= i < n ==> Crashed(cs[i])
    requires n < |cs| ==> !Crashed(cs[n])
    ensures Leading(cs) == n
  {
    if n > 0 { LeadingIs(cs[1..], n - 1); }
  }

  /** A block of crashes from `start` that ends at `end` decides, or is skipped with what ended it. */
  lemma BlockEnds(cs: seq<Completion>, start: nat, end: nat)
    requires start <= end <= |cs| && forall j :: start <= j < end ==> Crashed(cs[j])
    requires end < |cs| ==> !Crashed(cs[end])
    ensures FirstCrashRun(cs[start..]) ==
            if end - start >= CORPUS_CRASH_RULE.consecutive then Some(Names(cs[start..end]))
            else if end < |cs| then FirstCrashRun(cs[end + 1..])
            else None
  {
    LeadingIs(cs[start..], end - start);
    assert cs[start..][..end - start] == cs[start..end];
    if end - start == 1 {
      assert cs[start..][1..] == cs[end..];
      LeadingIs(cs[end..], 0);
    }
    if end < |cs| {
      assert cs[end..][1..] == cs[end + 1..];
    }
  }

  /** `run` names the crashes counted so far: all the completions from `start` to `end`. */
  predicate Counted(cs: seq<Completion>, start: nat, end: nat, run: seq<string>) {
    && start <= end <= |cs| && run == Names(cs[start..end])
    && forall j :: start <= j < end ==> Crashed(cs[j])
  }

  lemma CountOne(cs: seq<Completion>, start: nat, end: nat, run: seq<string>)
    requires Counted(cs, start, end, run) && end < |cs| && Crashed(cs[end])
    ensures Counted(cs, start, end + 1, run + [cs[end].name])
  {
    assert cs[start..end + 1] == cs[start..end] + [cs[end]];
  }

  /** What the block counted so far decides when it ends. */
  lemma CountDecides(cs: seq<Completion>, start: nat, end: nat, run: seq<string>)
    requires Counted(cs, start, end, run) && (end < |cs| ==> !Crashed(cs[end]))
    ensures FirstCrashRun(cs[start..]) ==
            if |run| >= CORPUS_CRASH_RULE.consecutive then Some(run)
            else if end < |cs| then FirstCrashRun(cs[end + 1..])
            else None
  {
    BlockEnds(cs, start, end);
  }

  /** `crash_stop`. */
  method CrashStop(completions: seq<Completion>) returns (r: Option<seq<string>>)
    ensures r == FirstCrashRun(completions)
  {
    var run: seq<string> := [];
    var tripped := false;
    ghost var start := 0;
    for i := 0 to |completions|
      invariant Counted(completions, start, i, run)
      invariant tripped <==> |run| >= CORPUS_CRASH_RULE.consecutive
      invariant FirstCrashRun(completions[start..]) == FirstCrashRun(completions)
    {
      var c := completions[i];
      if Crashed(c) {
        CountOne(completions, start, i, run);
        run := run + [c.name];
        if |run| >= CORPUS_CRASH_RULE.consecutive {
          tripped := true;
        }
      } else {
        CountDecides(completions, start, i, run);
        if tripped {
          return Some(run);
        }
        run, start := [], i + 1;
      }
    }
    CountDecides(completions, start, |completions|, run);
    return if tripped then Some(run) else None;
  }

  // ------------------------------------------------------------ what the stop decides

  /** Two crashes in a row, the corpus threshold. */
  ghost predicate HasPair(cs: seq<Completion>) {
    exists i :: 0 <= i < |cs| - 1 && Crashed(cs[i]) && Crashed(cs[i + 1])
  }

  lemma {:induction false} StopsOnPair(cs: seq<Completion>)
    ensures FirstCrashRun(cs).Some? <==> HasPair(cs)
  {
    if cs != [] {
      StopsOnPair(cs[1..]);
      if |cs| >= 2 && Crashed(cs[0]) && Crashed(cs[1]) {
        assert Leading(cs) == 1 + Leading(cs[1..]) && Leading(cs[1..]) >= 1;
      } else {
        if HasPair(cs) {
          var i :| 0 <= i < |cs| - 1 && Crashed(cs[i]) && Crashed(cs[i + 1]);
          assert cs[1..][i - 1] == cs[i] && cs[1..][i] == cs[i + 1];
        }
        if HasPair(cs[1..]) {
          var i :| 0 <= i < |cs[1..]| - 1 && Crashed(cs[1..][i]) && Crashed(cs[1..][i + 1]);
          assert cs[i + 1] == cs[1..][i] && cs[i + 2] == cs[1..][i + 1];
        }
      }
    }
  }

  lemma {:induction false} LeadingGrows(cs: seq<Completion>, more: seq<Completion>)
    ensures Leading(cs + more) >= Leading(cs)
  {
    if cs != [] && Crashed(cs[0]) {
      assert (cs + more)[1..] == cs[1..] + more;
      LeadingGrows(cs[1..], more);
    }
  }

  /** Later completions only extend the returned run; they never hide it. */
  lemma {:induction false} LaterCompletionsExtend(cs: seq<Completion>, more: seq<Completion>)
    requires FirstCrashRun(cs).Some?
    ensures FirstCrashRun(cs + more).Some?
    ensures FirstCrashRun(cs).value <= FirstCrashRun(cs + more).value
  {
    var n := Leading(cs);
    if n >= CORPUS_CRASH_RULE.consecutive {
      var m := Leading(cs + more);
      LeadingGrows(cs, more);
      assert (cs + more)[..m][..n] == cs[..n];
      assert Names((cs + more)[..m])[..n] == Names(cs[..n]);
    } else {
      assert (cs + more)[1..] == cs[1..] + more;
      LaterCompletionsExtend(cs[1..], more);
      if n < |cs| {
        assert (cs + more)[n] == cs[n];
      }
      assert Leading(cs + more) == n;
    }
  }

  // ------------------------------------------------------------ against the breaker

  function Feed(cs: seq<Completion>): (r: seq<Event>)
    ensures |r| == |cs|
  {
    seq(|cs|, i requires 0 <= i < |cs| => Fed(Outcome(cs[i].class_, None, ""), 0.0))
  }

  /** The completions whose class somebody could read. */
  function Classified(cs: seq<Completion>): (r: seq<Completion>)
    ensures forall c :: c in r ==> c.class_ != UNCLASSIFIED
  {
    if cs == [] then []
    else
      var n := |cs| - 1;
      Classified(cs[..n]) + (if cs[n].class_ == UNCLASSIFIED then [] else [cs[n]])
  }

  function Pool(cs: seq<Completion>): Circuit {
    Run(FRESH, [CORPUS_CRASH_RULE], Feed(cs))
  }

  lemma PoolStep(cs: seq<Completion>, c: Completion)
    ensures Pool(cs + [c]) == Advance(Pool(cs), [CORPUS_CRASH_RULE], Outcome(c.class_, None, ""), 0.0).circuit
  {
    assert Feed(cs + [c])[..|cs|] == Feed(cs);
  }

  /** One classified completion moves the pool's one streak and opens at the second crash. */
  lemma PoolAdvance(c: Circuit, name: string)
    requires !c.escalated && c.state != HalfOpen && name != UNCLASSIFIED
    ensures var d := Advance(c, [CORPUS_CRASH_RULE], Outcome(name, None, ""), 0.0).circuit;
            var key := CORPUS_CRASH_RULE.name;
            && !d.escalated
            && d.Streak(key) == (if name == CRASH then c.Streak(key) + 1 else 0)
            && d.state == if name == CRASH && c.Streak(key) + 1 >= 2 then Open else c.state
  {
    BreakerLaws.MoveRulesAt(c, [CORPUS_CRASH_RULE], 0, name, 0.0);
    BreakerLaws.MoveRulesKeepsState(c, [CORPUS_CRASH_RULE], name, 0.0);
    BreakerLaws.AdvanceCounts(c, [CORPUS_CRASH_RULE], Outcome(name, None, ""), 0.0);
  }

  /** Feeding the pool's classes opens the breaker exactly when two crashes
      come in a row. */
  lemma {:induction false} PoolOpensOnPair(cs: seq<Completion>)
    requires forall c :: c in cs ==> c.class_ != UNCLASSIFIED
    ensures !Pool(cs).escalated && Pool(cs).Streak(CORPUS_CRASH_RULE.name) >= 0
    ensures HasPair(cs) ==> Pool(cs).state == Open
    ensures !HasPair(cs) ==>
              && Pool(cs).state == Closed
              && Pool(cs).Streak(CORPUS_CRASH_RULE.name) == if cs != [] && Crashed(cs[|cs| - 1]) then 1 else 0
  {
    if cs == [] {
      assert Feed(cs) == [];
    } else {
      var n := |cs| - 1;
      var rest, last := cs[..n], cs[n];
      assert cs == rest + [last] && last in cs;
      PoolOpensOnPair(rest);
      PoolStep(rest, last);
      PoolAdvance(Pool(rest), last.class_);
      PairGrows(rest, last);
    }
  }

  lemma PairGrows(rest: seq<Completion>, last: Completion)
    ensures HasPair(rest + [last]) <==>
            HasPair(rest) || (rest != [] && Crashed(rest[|rest| - 1]) && Crashed(last))
  {
    var cs := rest + [last];
    if HasPair(rest) {
      var i :| 0 <= i < |rest| - 1 && Crashed(rest[i]) && Crashed(rest[i + 1]);
      assert cs[i] == rest[i] && cs[i + 1] == rest[i + 1];
    }
    if HasPair(cs) {
      var i :| 0 <= i < |cs| - 1 && Crashed(cs[i]) && Crashed(cs[i + 1]);
      if i < |rest| - 1 { assert Crashed(rest[i]) && Crashed(rest[i + 1]); }
    }
    if rest != [] && Crashed(rest[|rest| - 1]) && Crashed(last) {
      assert cs[|rest| - 1] == rest[|rest| - 1] && cs[|rest|] == last;
    }
  }

  lemma {:induction false} PoolSkipsUnclassified(cs: seq<Completion>)
    ensures Pool(cs) == Pool(Classified(cs))
  {
    if cs != [] {
      var n := |cs| - 1;
      assert cs == cs[..n] + [cs[n]];
      PoolSkipsUnclassified(cs[..n]);
      PoolStep(cs[..n], cs[n]);
      if cs[n].class_ != UNCLASSIFIED {
        PoolStep(Classified(cs[..n]), cs[n]);
      } else {
        assert Classified(cs[..n]) + [] == Classified(cs[..n]);
      }
    }
  }

  /** The breaker opens on exactly the completions whose classified part makes
      `crash_stop` return a run. */
  lemma StopAgreesWithBreaker(cs: seq<Completion>)
    ensures Pool(cs).state == Open <==> FirstCrashRun(Classified(cs)).Some?
    ensures Pool(cs).state == Open <==> HasPair(Classified(cs))
    ensures (forall c :: c in cs ==> c.class_ != UNCLASSIFIED) ==>
              (Pool(cs).state == Open <==> FirstCrashRun(cs).Some?)
  {
    PoolSkipsUnclassified(cs);
    PoolOpensOnPair(Classified(cs));
    StopsOnPair(Classified(cs));
    if forall c :: c in cs ==> c.class_ != UNCLASSIFIED {
      PoolOpensOnPair(cs);
      StopsOnPair(cs);
    }
  }

  lemma ClassifiedOneMore(cs: seq<Completion>, c: Completion)
    ensures Classified(cs + [c]) == if c.class_ == UNCLASSIFIED then Classified(cs) else Classified(cs) + [c]
  {
    assert (cs + [c])[..|cs|] == cs;
  }

  lemma LastPairSurvives(cs: seq<Completion>, a: Completion, b: Completion)
    requires Crashed(a) && Crashed(b)
    ensures HasPair(Classified(cs + [a] + [b]))
  {
    ClassifiedOneMore(cs, a);
    ClassifiedOneMore(cs + [a], b);
    PairGrows(Classified(cs) + [a], b);
  }

  /** A pair of crashes stays a pair when the unclassified completions are dropped. */
  lemma {:induction false} PairSurvives(cs: seq<Completion>)
    requires HasPair(cs)
    ensures HasPair(Classified(cs))
  {
    var n := |cs| - 1;
    var rest, last := cs[..n], cs[n];
    assert cs == rest + [last];
    PairGrows(rest, last);
    if HasPair(rest) {
      PairSurvives(rest);
      ClassifiedOneMore(rest, last);
      PairGrows(Classified(rest), last);
    } else {
      assert rest == rest[..n - 1] + [rest[n - 1]];
      LastPairSurvives(rest[..n - 1], rest[n - 1], last);
    }
  }

  /** A returned run always means an open breaker; the two disagree exactly on
      completions whose only pairs of crashes have something unclassified between them. */
  lemma DisagreementExactly(cs: seq<Completion>)
    ensures FirstCrashRun(cs).Some? ==> Pool(cs).state == Open
    ensures (Pool(cs).state == Open <==> FirstCrashRun(cs).Some?) <==> (HasPair(Classified(cs)) ==> HasPair(cs))
  {
    StopAgreesWithBreaker(cs);
    StopsOnPair(cs);
    if HasPair(cs) { PairSurvives(cs); }
  }

  lemma ClassifiedBetween(x: Completion, y: Completion, z: Completion)
    requires x.class_ != UNCLASSIFIED && y.class_ == UNCLASSIFIED && z.class_ != UNCLASSIFIED
    ensures Classified([x, y, z]) == [x, z]
  {
    var one, two := [x], [x, y];
    assert one == [] + [x];
    ClassifiedOneMore([], x);
    assert Classified(one) == one;
    assert two == one + [y];
    ClassifiedOneMore(one, y);
    assert [x, y, z] == two + [z];
    ClassifiedOneMore(two, z);
  }

  /** Two crashes with one unclassified completion between them: the breaker
      opens, and `crash_stop` returns nothing. */
  lemma UnclassifiedSeparates(x: Completion, y: Completion, z: Completion)
    requires x.class_ == CRASH && y.class_ == UNCLASSIFIED && z.class_ == CRASH
    ensures Pool([x, y, z]).state == Open && FirstCrashRun([x, y, z]).None?
  {
    var cs, kept := [x, y, z], [x, z];
    ClassifiedBetween(x, y, z);
    StopAgreesWithBreaker(cs);
    StopsOnPair(cs);
    assert Crashed(kept[0]) && Crashed(kept[1]);
    assert !Crashed(cs[1]);
  }
}
