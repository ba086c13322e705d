/** The controller's append-only journal and its materialized view
    (tools/controller_store.py). */
module Journal {
  import opened Text
  import opened Facts

  datatype Phase = Planned | Applied | Confirmed

  /** One cycle's persisted decision; `plan` names the stored plan revision, if any. */
  datatype Payload = Payload(
    facts: ControlFacts,
    lifecycle: LifecycleState,
    actions: seq<ControlAction>,
    plan: Option<string>)

  datatype Record = Record(cycleId: string, phase: Phase, payload: Payload)

  /** The journal file; `torn` is a final line without its newline. */
  datatype JournalFile = Absent | File(records: seq<Record>, torn: bool)

  datatype View = View(digest: string, lastCycleId: string, confirmed: Payload)

  /** The start marker: absent, written whole, or cut short. */
  datatype Marker = Unmarked | Broken | Started

  datatype Disk = Disk(marker: Marker, journal: JournalFile, view: Option<View>)

  /** SHA-256 of the journal's bytes; nothing below depends on which function it is. */
  type Digest = seq<Record> -> string

  datatype Loaded = Loaded(payload: Payload, lastCycleId: string, recordCount: nat, phase: Phase)

  // ------------------------------------------------------------ sequencing

  /** A refusal code with the number of the record its cycle starts at. */
  function At(code: string, start: nat): Option<string> {
    Some(code + ":" + Decimal(start + 1))
  }

  /** The check each complete triple passes; its third phase is not looked at here. */
  function CycleFault(a: Record, b: Record, c: Record, start: nat): Option<string> {
    if a.phase != Planned || b.phase != Applied then At("journal_phase_sequence", start)
    else if a.cycleId != b.cycleId || a.cycleId != c.cycleId then At("journal_cycle_identity", start)
    else if b.payload != a.payload || c.payload != a.payload then At("journal_payload_mismatch", start)
    else None
  }

  /** The check a trailing prefix of one or two records passes. */
  function PrefixFault(tail: seq<Record>, start: nat): Option<string>
    requires 1 <= |tail| <= 2
  {
    if tail[0].phase != Planned || (|tail| == 2 && tail[1].phase != Applied) then At("journal_phase_sequence", start)
    else if |tail| == 2 && tail[1].cycleId != tail[0].cycleId then At("journal_cycle_identity", start)
    else if |tail| == 2 && tail[1].payload != tail[0].payload then At("journal_payload_mismatch", start)
    else None
  }

  /** The first fault among the first `k` triples. */
  function CyclesFault(records: seq<Record>, k: nat): Option<string>
    requires 3 * k <= |records|
  {
    if k == 0 then None
    else
      var earlier := CyclesFault(records, k - 1);
      if earlier.Some? then earlier
      else CycleFault(records[3 * k - 3], records[3 * k - 2], records[3 * k - 1], 3 * k - 3)
  }

  /** The identities of the first `k` triples. */
  function CycleIds(records: seq<Record>, k: nat): (ids: seq<string>)
    requires 3 * k <= |records|
    ensures |ids| == k && forall i :: 0 <= i < k ==> ids[i] == records[3 * i].cycleId
  {
    if k == 0 then [] else CycleIds(records, k - 1) + [records[3 * k - 3].cycleId]
  }

  predicate HasDuplicate(ids: seq<string>) {
    exists i, j :: 0 <= i < j < |ids| && ids[i] == ids[j]
  }

  /** What refuses a record sequence, in the source's order. */
  function SequenceFault(records: seq<Record>, allowIncomplete: bool): Option<string> {
    var k := |records| / 3;
    var cycles := CyclesFault(records, k);
    if records == [] then Some("journal_empty")
    else if cycles.Some? then cycles
    else if |records| % 3 != 0 && !allowIncomplete then Some("journal_incomplete_cycle")
    else if |records| % 3 != 0 && PrefixFault(records[3 * k..], 3 * k).Some? then PrefixFault(records[3 * k..], 3 * k)
    else if HasDuplicate(CycleIds(records, k)) then Some("journal_duplicate_cycle")
    else if |records| % 3 == 0 && records[|records| - 1].phase != Confirmed then
      Some("journal_last_transition_unconfirmed")
    else None
  }

  lemma {:induction false} CyclesFaultStays(records: seq<Record>, j: nat, k: nat)
    requires j <= k && 3 * k <= |records| && CyclesFault(records, j).Some?
    ensures CyclesFault(records, k) == CyclesFault(records, j)
  {
    if j < k { CyclesFaultStays(records, j, k - 1); }
  }

  /** One more sound triple, or the refusal the whole sequence earns. */
  lemma TripleDecides(records: seq<Record>, k: nat, allowIncomplete: bool)
    requires 3 * k + 3 <= |records| && CyclesFault(records, k).None?
    ensures var fault := CycleFault(records[3 * k], records[3 * k + 1], records[3 * k + 2], 3 * k);
            && CyclesFault(records, k + 1) == fault
            && (fault.Some? ==> SequenceFault(records, allowIncomplete) == fault)
  {
    var fault := CycleFault(records[3 * k], records[3 * k + 1], records[3 * k + 2], 3 * k);
    assert CyclesFault(records, k + 1) == fault;
    if fault.Some? {
      CyclesFaultStays(records, k + 1, |records| / 3);
    }
  }

  /** What is left to check once every triple is sound. */
  function EndFault(records: seq<Record>, ids: seq<string>, allowIncomplete: bool): Option<string>
    requires records != []
  {
    if |records| % 3 != 0 && !allowIncomplete then Some("journal_incomplete_cycle")
    else if HasDuplicate(ids) then Some("journal_duplicate_cycle")
    else if |records| % 3 == 0 && records[|records| - 1].phase != Confirmed then
      Some("journal_last_transition_unconfirmed")
    else None
  }

  lemma EndDecides(records: seq<Record>, k: nat, allowIncomplete: bool)
    requires records != [] && 3 * k <= |records| < 3 * k + 3 && CyclesFault(records, k).None?
    ensures SequenceFault(records, allowIncomplete) ==
            if |records| > 3 * k && allowIncomplete && PrefixFault(records[3 * k..], 3 * k).Some?
            then PrefixFault(records[3 * k..], 3 * k)
            else EndFault(records, CycleIds(records, k), allowIncomplete)
  {
    assert |records| / 3 == k;
  }

  /** `_validate_record_sequence`, triple by triple, with the identities it accumulates. */
  method ValidateRecordSequence(records: seq<Record>, allowIncomplete: bool) returns (fault: Option<string>)
    ensures fault == SequenceFault(records, allowIncomplete)
  {
    if records == [] {
      return Some("journal_empty");
    }
    var cycleIds: seq<string> := [];
    var start := 0;
    ghost var k := 0;
    while start + 3 <= |records|
      invariant start == 3 * k <= |records|
      invariant CyclesFault(records, k).None? && cycleIds == CycleIds(records, k)
      decreases |records| - start
    {
      var cycle := CycleFault(records[start], records[start + 1], records[start + 2], start);
      TripleDecides(records, k, allowIncomplete);
      if cycle.Some? {
        return cycle;
      }
      cycleIds := cycleIds + [records[start].cycleId];
      start, k := start + 3, k + 1;
    }
    EndDecides(records, k, allowIncomplete);
    if start < |records| && allowIncomplete {
      var partial := PrefixFault(records[start..], start);
      if partial.Some? {
        return partial;
      }
    }
    return EndFault(records, cycleIds, allowIncomplete);
  }

  // ------------------------------------------------------------ loading

  /** `_read_records`. */
  function ReadRecords(disk: Disk, allowIncomplete: bool): Result<seq<Record>> {
    match disk.journal
    case Absent =>
      Err(if disk.marker == Started then "controller_bootstrap_interrupted" else "journal_unreadable")
    case File(records, torn) =>
      if torn then Err("journal_final_record_truncated")
      else match SequenceFault(records, allowIncomplete)
        case Some(code) => Err(code)
        case None => Ok(records)
  }

  /** Why a view does not answer for these records. */
  function ViewFault(view: View, records: seq<Record>, digest: Digest): Option<string>
    requires records != []
  {
    var final := records[|records| - 1];
    if view.digest != digest(records) then Some("view_journal_digest_mismatch")
    else if view.lastCycleId != final.cycleId then Some("view_last_cycle_mismatch")
    else if view.confirmed != final.payload then Some("view_confirmed_payload_mismatch")
    else None
  }

  /** `load`. */
  function Load(disk: Disk, digest: Digest): Result<Loaded> {
    match ReadRecords(disk, false)
    case Err(code) => Err(code)
    case Ok(records) =>
      if disk.view.None? then Err("view_unreadable")
      else
        var fault := ViewFault(disk.view.value, records, digest);
        var final := records[|records| - 1];
        if fault.Some? then Err(fault.value)
        else Ok(Loaded(final.payload, final.cycleId, |records|, Confirmed))
  }

  /** `load_recoverable`. */
  function LoadRecoverable(disk: Disk, digest: Digest): Result<Loaded> {
    match ReadRecords(disk, true)
    case Err(code) => Err(code)
    case Ok(records) =>
      var remainder := |records| % 3;
      if remainder == 0 then Load(disk, digest)
      else
        var prefix := records[..|records| - remainder];
        var trailing := records[|records| - remainder..];
        var last := trailing[|trailing| - 1];
        var fault :=
          if disk.view.Some? then
            if prefix == [] then Some("partial_cycle_has_view") else ViewFault(disk.view.value, prefix, digest)
          else if prefix != [] then Some("partial_cycle_view_missing")
          else None;
        if fault.Some? then Err(fault.value)
        else if exists r :: r in prefix && r.cycleId == trailing[0].cycleId then Err("partial_cycle_duplicate_identity")
        else Ok(Loaded(last.payload, last.cycleId, |records|, last.phase))
  }

  /** `is_fresh`, refusing a marker that is not whole. */
  function IsFresh(disk: Disk): Result<bool> {
    match disk.marker
    case Broken => Err("controller_bootstrap_marker_invalid")
    case Started => Ok(false)
    case Unmarked => Ok(disk.journal.Absent? && disk.view.None?)
  }

  /** `next_cycle_number`, for a state that has been loaded or a fresh start. */
  function NextCycleNumber(previous: Option<Loaded>): nat {
    match previous
    case None => 1
    case Some(state) => state.recordCount / 3 + 1
  }
}
