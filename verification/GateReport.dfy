/** Bounded truncation of an implementer's gate report (tools/gate_report.py).

    `BoundedBody` cuts a comment to a cap, closes a fence the cut left open and
    appends a truncation marker.  Reserving room for the closer shortens the
    prefix, so the closer is computed again on the shorter prefix; the theorems
    say why that second closer still fits and still closes.
 */
module GateReport {
  import opened Text

  const MARKER := "### Implementer gate report"
  const CARRIED_CAP: nat := 8000
  const TRUNCATED := "[GATE REPORT TRUNCATED \U{2014} "
  const CONTINUED := "comment continued beyond carried bound; "
  const NOT_CARRIED := "remaining comment content was not carried.]"
  const CARRIED_TRUNCATION_MARKER := TRUNCATED + CONTINUED + NOT_CARRIED
  const SUFFIX := "\n\n" + CARRIED_TRUNCATION_MARKER
  const SUFFIX_LENGTH: nat := 110

  lemma SuffixLength()
    ensures |SUFFIX| == SUFFIX_LENGTH
  {
  }

  // ------------------------------------------------------------ selection

  /** `body.partition("\n")[0]`. */
  function FirstLine(body: string): string {
    body[..LineEnd(body, 0)]
  }

  /** `_starts_with_marker`. */
  predicate StartsWithMarker(body: string) {
    var first := FirstLine(body);
    var line := if first != "" && first[|first| - 1] == '\r' then first[..|first| - 1] else first;
    line == MARKER || MARKER + " " <= line || MARKER + "\t" <= line
  }

  /** `select`: the newest comment that starts with the marker. */
  function Select(comments: seq<string>): (r: Option<string>)
    ensures r.None? <==> forall c :: c in comments ==> !StartsWithMarker(c)
    ensures r.Some? ==> exists i :: && 0 <= i < |comments| && comments[i] == r.value
                                    && StartsWithMarker(comments[i])
                                    && forall j :: i < j < |comments| ==> !StartsWithMarker(comments[j])
  {
    if comments == [] then None
    else
      var last := comments[|comments| - 1];
      if StartsWithMarker(last) then Some(last)
      else
        var rest := comments[..|comments| - 1];
        assert comments == rest + [last];
        Select(rest)
  }

  // ------------------------------------------------------------ fences

  /** The index of the next newline at or after `i`, or the end of the text. */
  function LineEnd(s: string, i: nat): (e: nat)
    requires i <= |s|
    ensures i <= e <= |s|
    decreases |s| - i
  {
    if i == |s| || s[i] == '\n' then i else LineEnd(s, i + 1)
  }

  /** How many copies of `c` sit at `i`. */
  function RunLength(s: string, i: nat, c: char): (n: nat)
    requires i <= |s|
    ensures i + n <= |s|
    decreases |s| - i
  {
    if i == |s| || s[i] != c then 0 else 1 + RunLength(s, i + 1, c)
  }

  /** The width of the fence the pattern `^ {0,3}(`{3,})` finds on the line at `i`, or 0. */
  function FenceWidth(s: string, i: nat): (w: nat)
    requires i <= |s|
    ensures w == 0 || w >= 3
    ensures i + w <= |s|
  {
    var indent := RunLength(s, i, ' ');
    var ticks := RunLength(s, i + indent, '`');
    if indent <= 3 && ticks >= 3 then ticks else 0
  }

  /** What one line's fence run does to the open fence, if any. */
  function Toggle(opener: Option<nat>, width: nat): Option<nat> {
    if width == 0 then opener
    else match opener
      case None => Some(width)
      case Some(open) => if width >= open then None else opener
  }

  /** The fence left open after scanning every line from the one starting at `i`. */
  function Scan(s: string, i: nat, opener: Option<nat>): Option<nat>
    requires i <= |s|
    decreases |s| - i
  {
    var after := Toggle(opener, FenceWidth(s, i));
    var end := LineEnd(s, i);
    if end == |s| then after else Scan(s, end + 1, after)
  }

  /** The fence `s` leaves open. */
  function OpenFence(s: string): Option<nat> {
    Scan(s, 0, None)
  }

  function Ticks(n: nat): (r: string)
    ensures |r| == n && forall i :: 0 <= i < n ==> r[i] == '`'
  {
    seq(n, i => '`')
  }

  function Closer(opener: Option<nat>): string {
    match opener
    case None => ""
    case Some(width) => "\n" + Ticks(width)
  }

  /** `_closing_fence`. */
  method ClosingFence(prefix: string) returns (closer: string)
    ensures closer == Closer(OpenFence(prefix))
  {
    var openerWidth: Option<nat> := None;
    var i := 0;
    while true
      invariant i <= |prefix|
      invariant Scan(prefix, i, openerWidth) == OpenFence(prefix)
      decreases |prefix| - i
    {
      var width := FenceWidth(prefix, i);
      if width > 0 {
        if openerWidth.None? {
          openerWidth := Some(width);
        } else if width >= openerWidth.value {
          openerWidth := None;
        }
      }
      var end := LineEnd(prefix, i);
      if end == |prefix| { break; }
      i := end + 1;
    }
    if openerWidth.None? {
      return "";
    }
    return "\n" + Ticks(openerWidth.value);
  }

  // ------------------------------------------------------------ truncation

  /** Python's `body[:limit]`, which counts a negative limit from the end. */
  function SliceTo(body: string, limit: int): string {
    if limit >= |body| then body
    else if limit >= 0 then body[..limit]
    else if |body| + limit >= 0 then body[..|body| + limit]
    else ""
  }

  /** The prefix that survives the cut of a body longer than the cap. */
  function CutPrefix(body: string): string {
    var limit := CARRIED_CAP - SUFFIX_LENGTH;
    var closer := Closer(OpenFence(SliceTo(body, limit)));
    SliceTo(body, limit - |closer|)
  }

  function Bounded(body: string): string {
    if |body| <= CARRIED_CAP then body
    else CutPrefix(body) + Closer(OpenFence(CutPrefix(body))) + SUFFIX
  }

  /** `_bounded_body`. */
  method BoundedBody(body: string) returns (r: string)
    ensures r == Bounded(body)
  {
    if |body| <= CARRIED_CAP {
      return body;
    }
    SuffixLength();
    var prefixLimit := CARRIED_CAP - |SUFFIX|;
    var prefix := SliceTo(body, prefixLimit);
    var closingFence := ClosingFence(prefix);
    if closingFence != "" {
      prefixLimit := prefixLimit - |closingFence|;
      prefix := SliceTo(body, prefixLimit);
      closingFence := ClosingFence(prefix);
    }
    return prefix + closingFence + SUFFIX;
  }

  // ------------------------------------------------------------ scanning facts

  /** Cutting a text at `m` does not change how a line that ends before `m` reads. */
  lemma {:induction false} LineEndOfCut(s: string, m: nat, i: nat)
    requires i <= m <= |s|
    ensures LineEnd(s[..m], i) == if LineEnd(s, i) < m then LineEnd(s, i) else m
    decreases m - i
  {
    if i < m && s[i] != '\n' { LineEndOfCut(s, m, i + 1); }
  }

  lemma {:induction false} RunOfCut(s: string, m: nat, i: nat, c: char)
    requires i <= m <= |s|
    ensures RunLength(s[..m], i, c) == if i + RunLength(s, i, c) < m then RunLength(s, i, c) else m - i
    decreases m - i
  {
    if i < m && s[i] == c { RunOfCut(s, m, i + 1, c); }
  }

  /** A run of anything but newlines stays on its line. */
  lemma {:induction false} RunWithinLine(s: string, i: nat, c: char)
    requires i <= |s| && c != '\n'
    ensures var n := RunLength(s, i, c);
            i + n <= LineEnd(s, i) && LineEnd(s, i + n) == LineEnd(s, i)
    decreases |s| - i
  {
    if i < |s| && s[i] == c { RunWithinLine(s, i + 1, c); }
  }

  /** The line at `i` ends no later than any newline after `i`. */
  lemma {:induction false} LineEndBefore(s: string, i: nat, m: nat)
    requires i <= m < |s| && s[m] == '\n'
    ensures LineEnd(s, i) <= m
    decreases m - i
  {
    if i < m && s[i] != '\n' { LineEndBefore(s, i + 1, m); }
  }

  /** A cut line keeps its fence, loses it, or keeps a narrower one. */
  lemma FenceOfCut(s: string, m: nat, i: nat)
    requires i <= m <= |s|
    ensures FenceWidth(s[..m], i) <= FenceWidth(s, i)
    ensures LineEnd(s, i) <= m ==> FenceWidth(s[..m], i) == FenceWidth(s, i)
  {
    var indent := RunLength(s, i, ' ');
    RunOfCut(s, m, i, ' ');
    RunWithinLine(s, i, ' ');
    if i + indent <= m {
      RunOfCut(s, m, i + indent, '`');
      RunWithinLine(s, i + indent, '`');
    }
  }

  /** A fence needs its own characters: an opener that changes to width `w`
      within the text from `i` has at least `w` characters there, and one more
      line break when another fence had to be closed first. */
  lemma {:induction false} OpenerNeedsRoom(s: string, i: nat, opener: Option<nat>)
    requires i <= |s|
    requires opener.Some? ==> opener.value >= 3
    ensures var final := Scan(s, i, opener);
            final.Some? && final != opener ==>
              |s| - i >= final.value && (opener.Some? ==> |s| - i > final.value)
    ensures Scan(s, i, opener).Some? ==> Scan(s, i, opener).value >= 3
    decreases |s| - i
  {
    var after := Toggle(opener, FenceWidth(s, i));
    var end := LineEnd(s, i);
    if end < |s| {
      OpenerNeedsRoom(s, end + 1, after);
    }
  }

  /** One line of a cut text: a whole line reads the same, the cut line no wider. */
  lemma ScanOfCut(s: string, m: nat, i: nat, opener: Option<nat>)
    requires i <= m <= |s|
    ensures var after := Toggle(opener, FenceWidth(s, i));
            Scan(s[..m], i, opener) ==
              if LineEnd(s, i) < m then Scan(s[..m], LineEnd(s, i) + 1, after)
              else Toggle(opener, FenceWidth(s[..m], i))
    ensures FenceWidth(s[..m], i) <= FenceWidth(s, i)
    ensures LineEnd(s, i) <= m ==> FenceWidth(s[..m], i) == FenceWidth(s, i)
  {
    LineEndOfCut(s, m, i);
    FenceOfCut(s, m, i);
  }

  /** The key step: cutting off the `w + 1` characters a closer of width `w`
      needs never leaves a fence wider than `w` open. */
  lemma {:induction false} ShorterPrefixNeedsNoWiderCloser(s: string, m: nat, i: nat, opener: Option<nat>, w: nat)
    requires i <= m <= |s| && m + w + 1 == |s|
    requires opener.Some? ==> opener.value >= 3
    requires Scan(s, i, opener) == Some(w)
    ensures var cut := Scan(s[..m], i, opener);
            cut.Some? ==> cut.value <= w
    decreases |s| - i
  {
    var width := FenceWidth(s, i);
    var after := Toggle(opener, width);
    var end := LineEnd(s, i);
    ScanOfCut(s, m, i, opener);
    if end < m {
      ShorterPrefixNeedsNoWiderCloser(s, m, end + 1, after, w);
    } else if end < |s| {
      OpenerNeedsRoom(s, end + 1, after);
    }
  }

  lemma {:induction false} LineEndShift(s: string, d: nat, i: nat)
    requires d + i <= |s|
    ensures LineEnd(s, d + i) == d + LineEnd(s[d..], i)
    decreases |s| - d - i
  {
    if d + i < |s| && s[d + i] != '\n' { LineEndShift(s, d, i + 1); }
  }

  lemma {:induction false} RunShift(s: string, d: nat, i: nat, c: char)
    requires d + i <= |s|
    ensures RunLength(s, d + i, c) == RunLength(s[d..], i, c)
    decreases |s| - d - i
  {
    if d + i < |s| && s[d + i] == c { RunShift(s, d, i + 1, c); }
  }

  lemma FenceShift(s: string, d: nat, i: nat)
    requires d + i <= |s|
    ensures FenceWidth(s, d + i) == FenceWidth(s[d..], i)
  {
    RunShift(s, d, i, ' ');
    RunShift(s, d, i + RunLength(s[d..], i, ' '), '`');
  }

  /** Scanning from `d + i` is scanning the text from `d` at `i`. */
  lemma {:induction false} ScanShift(s: string, d: nat, i: nat, opener: Option<nat>)
    requires d + i <= |s|
    ensures Scan(s, d + i, opener) == Scan(s[d..], i, opener)
    decreases |s| - d - i
  {
    LineEndShift(s, d, i);
    FenceShift(s, d, i);
    var end := LineEnd(s[d..], i);
    if d + end < |s| {
      ScanShift(s, d, end + 1, Toggle(opener, FenceWidth(s, d + i)));
    }
  }

  /** Text after a line break continues the scan from the fence left open before it. */
  lemma {:induction false} ScanSplit(s: string, m: nat, i: nat, opener: Option<nat>)
    requires i <= m < |s| && s[m] == '\n'
    ensures Scan(s, i, opener) == Scan(s, m + 1, Scan(s[..m], i, opener))
    decreases m - i
  {
    ScanOfCut(s, m, i, opener);
    var end := LineEnd(s, i);
    LineEndBefore(s, i, m);
    if end < m {
      ScanSplit(s, m, end + 1, Toggle(opener, FenceWidth(s, i)));
    }
  }

  lemma ScanAppend(p: string, rest: string)
    ensures OpenFence(p + "\n" + rest) == Scan(rest, 0, OpenFence(p))
  {
    var s := p + "\n" + rest;
    assert s[..|p|] == p && s[|p| + 1..] == rest;
    ScanSplit(s, |p|, 0, None);
    ScanShift(s, |p| + 1, 0, OpenFence(p));
  }

  // ------------------------------------------------------------ the fence that fills the prefix

  lemma {:induction false} RunOfTicks(s: string, i: nat)
    requires i <= |s|
    ensures i + RunLength(s, i, '`') == |s| <==> forall k :: i <= k < |s| ==> s[k] == '`'
    decreases |s| - i
  {
    if i < |s| && s[i] == '`' { RunOfTicks(s, i + 1); }
  }

  /** The open fence is narrower than the text, unless the text is nothing but it. */
  lemma OpenFenceFillsText(p: string)
    requires |p| >= 3
    ensures OpenFence(p).Some? ==> OpenFence(p).value <= |p|
    ensures OpenFence(p) == Some(|p|) <==> p == Ticks(|p|)
  {
    OpenerNeedsRoom(p, 0, None);
    var after := Toggle(None, FenceWidth(p, 0));
    var end := LineEnd(p, 0);
    if end < |p| {
      OpenerNeedsRoom(p, end + 1, after);
    }
    RunOfTicks(p, 0);
    RunWithinLine(p, 0, '`');
    if OpenFence(p) == Some(|p|) {
      assert FenceWidth(p, 0) == |p|;
      assert RunLength(p, 0, ' ') == 0;
    }
  }

  const KEPT: nat := CARRIED_CAP - SUFFIX_LENGTH

  /** When a closer has to be reserved and the fence leaves room for it, what
      survives is a prefix whose own closer fits the reserved space. */
  lemma RecomputedCloserFits(body: string)
    requires |body| > CARRIED_CAP && body[..KEPT] != Ticks(KEPT)
    ensures CutPrefix(body) <= body
    ensures |CutPrefix(body)| + |Closer(OpenFence(CutPrefix(body)))| <= KEPT
  {
    var p := body[..KEPT];
    OpenFenceFillsText(p);
    match OpenFence(p)
    case None =>
    case Some(w) => ReservedCloserFits(body, p, w);
  }

  /** With `w + 1` characters given up for a closer, the closer of what is left fits them. */
  lemma ReservedCloserFits(body: string, p: string, w: nat)
    requires |body| > KEPT && p == body[..KEPT] && w < KEPT && OpenFence(p) == Some(w)
    ensures var m: nat := KEPT - (w + 1);
            && SliceTo(body, m) == body[..m]
            && |body[..m]| + |Closer(OpenFence(body[..m]))| <= KEPT
  {
    var m := KEPT - (w + 1);
    assert body[..m] == p[..m];
    ShorterPrefixNeedsNoWiderCloser(p, m, 0, None, w);
  }

  /** The carried body respects the cap exactly when the kept prefix is not one
      unbroken run of backticks; then the negative slice keeps nearly everything. */
  lemma BoundedExactly(body: string)
    ensures |Bounded(body)| <= CARRIED_CAP <==>
            |body| <= CARRIED_CAP || body[..KEPT] != Ticks(KEPT)
  {
    SuffixLength();
    if |body| > CARRIED_CAP {
      var p := body[..KEPT];
      if p == Ticks(KEPT) {
        OpenFenceFillsText(p);
        assert |Closer(OpenFence(p))| == KEPT + 1;
        assert |CutPrefix(body)| == |body| - 1;
      } else {
        RecomputedCloserFits(body);
      }
    }
  }

  /** The marker's own first line keeps the prefix from being all backticks. */
  lemma MarkedBodyIsBounded(body: string)
    requires StartsWithMarker(body)
    ensures |Bounded(body)| <= CARRIED_CAP
  {
    assert body[0] == '#' by {
      assert FirstLine(body)[0] == '#';
    }
    if |body| > CARRIED_CAP {
      assert body[..KEPT][0] == '#';
    }
    BoundedExactly(body);
  }

  /** A line of `n` backticks and nothing else. */
  lemma TicksLine(n: nat, rest: string)
    requires n >= 3
    ensures var s := Ticks(n) + "\n" + rest;
            FenceWidth(s, 0) == n && LineEnd(s, 0) == n
  {
    var s := Ticks(n) + "\n" + rest;
    var cut := s[..n];
    assert cut == Ticks(n);
    RunOfTicks(cut, 0);
    RunOfCut(s, n, 0, '`');
    assert s[n] == '\n';
    LineEndBefore(s, 0, n);
    RunWithinLine(s, 0, '`');
    assert RunLength(s, 0, ' ') == 0;
  }

  lemma {:induction false} NoBacktickNoFence(s: string, i: nat, opener: Option<nat>)
    requires i <= |s| && forall k :: i <= k < |s| ==> s[k] != '`'
    ensures Scan(s, i, opener) == opener
    decreases |s| - i
  {
    var end := LineEnd(s, i);
    assert FenceWidth(s, i) == 0;
    if end < |s| { NoBacktickNoFence(s, end + 1, opener); }
  }

  /** The computed closer closes what the prefix left open, and a tail
      without backticks leaves it closed. */
  lemma CloserCloses(p: string, tail: string)
    requires '`' !in tail
    ensures OpenFence(p + Closer(OpenFence(p)) + ("\n" + tail)).None?
  {
    OpenerNeedsRoom(p, 0, None);
    match OpenFence(p)
    case None =>
      assert p + "" + ("\n" + tail) == p + "\n" + tail;
      ScanAppend(p, tail);
      NoBacktickNoFence(tail, 0, None);
    case Some(w) =>
      var line := Ticks(w) + "\n" + tail;
      assert p + ("\n" + Ticks(w)) + ("\n" + tail) == p + "\n" + line;
      ScanAppend(p, line);
      TicksLine(w, tail);
      assert line[w + 1..] == tail;
      ScanShift(line, w + 1, 0, None);
      NoBacktickNoFence(tail, 0, None);
  }

  lemma TruncatedHasNoBacktick()
    ensures '`' !in TRUNCATED
  {
  }

  lemma ContinuedHasNoBacktick()
    ensures '`' !in CONTINUED
  {
  }

  lemma NotCarriedHasNoBacktick()
    ensures '`' !in NOT_CARRIED
  {
  }

  lemma AbsentFromConcat(a: string, b: string, c: string, d: string)
    requires '`' !in a && '`' !in b && '`' !in c && '`' !in d
    ensures '`' !in a + (b + c + d)
  {
  }

  /** The truncation marker opens no fence of its own. */
  lemma SuffixHasNoBacktick()
    ensures '`' !in SUFFIX[1..] && SUFFIX == "\n" + SUFFIX[1..]
  {
    TruncatedHasNoBacktick();
    ContinuedHasNoBacktick();
    NotCarriedHasNoBacktick();
    AbsentFromConcat("\n\n", TRUNCATED, CONTINUED, NOT_CARRIED);
    var suffix := SUFFIX;
    assert '`' !in suffix;
  }

  /** Every cut comment reads with no fence left open, whatever it starts with. */
  lemma CutBodyEndsClosed(body: string)
    requires |body| > CARRIED_CAP
    ensures OpenFence(Bounded(body)).None?
  {
    SuffixHasNoBacktick();
    CloserCloses(CutPrefix(body), SUFFIX[1..]);
  }

  /** What is carried for any comment `select` can return. */
  lemma CarriedReport(comments: seq<string>, body: string)
    requires Select(comments) == Some(body)
    ensures |Bounded(body)| <= CARRIED_CAP
    ensures |body| <= CARRIED_CAP ==> Bounded(body) == body
    ensures |body| > CARRIED_CAP ==>
              && CutPrefix(body) <= body
              && CutPrefix(body) <= Bounded(body)
              && OpenFence(Bounded(body)).None?
              && SUFFIX == Bounded(body)[|Bounded(body)| - |SUFFIX|..]
  {
    MarkedBodyIsBounded(body);
    if |body| > CARRIED_CAP {
      CutBodyEndsClosed(body);
      assert body[0] == '#' by { assert FirstLine(body)[0] == '#'; }
      assert body[..KEPT][0] == '#';
      RecomputedCloserFits(body);
    }
  }
}
