/** The coverage check of tools/controller_planning.py: the declared rows are
    exactly the inverse of what the Work Items claim. */
module Coverage {
  import opened Text

  datatype Row = Row(obligation: string, items: seq<string>)

  /** Each Work Item's claimed obligations. */
  type Claims = map<string, seq<string>>

  function Claimants(obligation: string, claims: Claims): set<string> {
    set item | item in claims && obligation in claims[item]
  }

  /** The refusal one row earns, given the rows before it. */
  function RowFault(before: seq<Row>, row: Row, obligations: set<string>, claims: Claims): Option<string> {
    if exists r :: r in before && r.obligation == row.obligation then Some("duplicate_coverage_key")
    else if row.obligation !in obligations then Some("dangling_obligation_reference")
    else if exists item :: item in row.items && item !in claims then Some("dangling_work_item_reference")
    else None
  }

  /** The first refusal, in row order. */
  function RowsFault(rows: seq<Row>, obligations: set<string>, claims: Claims): Option<string> {
    if rows == [] then None
    else
      var n := |rows| - 1;
      var earlier := RowsFault(rows[..n], obligations, claims);
      if earlier.Some? then earlier else RowFault(rows[..n], rows[n], obligations, claims)
  }

  lemma EarlierFaultStands(rows: seq<Row>, obligations: set<string>, claims: Claims)
    requires rows != [] && RowsFault(rows[..|rows| - 1], obligations, claims).Some?
    ensures RowsFault(rows, obligations, claims) == RowsFault(rows[..|rows| - 1], obligations, claims)
  {
  }

  lemma {:induction false} RowsFaultStays(rows: seq<Row>, obligations: set<string>, claims: Claims, i: nat)
    requires i <= |rows| && RowsFault(rows[..i], obligations, claims).Some?
    ensures RowsFault(rows, obligations, claims) == RowsFault(rows[..i], obligations, claims)
  {
    if i < |rows| {
      var rest := rows[..|rows| - 1];
      assert rest[..i] == rows[..i];
      RowsFaultStays(rest, obligations, claims, i);
      EarlierFaultStands(rows, obligations, claims);
    } else {
      assert rows[..i] == rows;
    }
  }

  /** One row per obligation, naming each claiming Work Item once and no other. */
  ghost predicate Exact(rows: seq<Row>, obligations: set<string>, claims: Claims) {
    && (forall o :: o in obligations ==> exists r :: r in rows && r.obligation == o)
    && DistinctRows(rows)
    && (forall r :: r in rows ==> r.obligation in obligations && Matches(r, claims))
  }

  ghost predicate Matches(r: Row, claims: Claims) {
    && (forall i, j :: 0 <= i < j < |r.items| ==> r.items[i] != r.items[j])
    && (forall item :: item in r.items <==> item in claims && r.obligation in claims[item])
  }

  /** Equal sorted lists, where one side has no repeats, are equal sets without repeats. */
  lemma {:induction false} MultisetIsSet(s: seq<string>, t: set<string>)
    ensures multiset(s) == multiset(t) <==>
            (forall i, j :: 0 <= i < j < |s| ==> s[i] != s[j]) && (forall x :: x in s <==> x in t)
  {
    if multiset(s) == multiset(t) {
      forall i, j | 0 <= i < j < |s| ensures s[i] != s[j] {
        assert s == s[..j] + [s[j]] + s[j + 1..];
        assert s[i] in s[..j];
        assert multiset(s) == multiset(s[..j]) + multiset{s[j]} + multiset(s[j + 1..]);
        assert s[i] in multiset(s[..j]);
        assert multiset(t)[s[i]] <= 1;
      }
      forall x ensures x in s <==> x in t {
        assert x in s <==> x in multiset(s);
        assert x in t <==> x in multiset(t);
      }
    } else if (forall i, j :: 0 <= i < j < |s| ==> s[i] != s[j]) && (forall x :: x in s <==> x in t) {
      NoRepeatsCountOnce(s);
      forall x ensures multiset(s)[x] == multiset(t)[x] {
        assert x in s <==> x in multiset(s);
      }
    }
  }

  lemma {:induction false} NoRepeatsCountOnce(s: seq<string>)
    requires forall i, j :: 0 <= i < j < |s| ==> s[i] != s[j]
    ensures forall x :: x in s ==> multiset(s)[x] == 1
  {
    if s != [] {
      var n := |s| - 1;
      NoRepeatsCountOnce(s[..n]);
      assert s == s[..n] + [s[n]];
      assert s[n] !in s[..n];
      assert s[n] !in multiset(s[..n]);
    }
  }

  predicate DistinctRows(rows: seq<Row>) {
    forall i, j :: 0 <= i < j < |rows| ==> rows[i].obligation != rows[j].obligation
  }

  predicate KnownRows(rows: seq<Row>, obligations: set<string>, claims: Claims) {
    forall r :: r in rows ==> r.obligation in obligations && forall item :: item in r.items ==> item in claims
  }

  lemma FaultlessOneMore(rows: seq<Row>, row: Row, obligations: set<string>, claims: Claims)
    ensures DistinctRows(rows) && KnownRows(rows, obligations, claims) && RowFault(rows, row, obligations, claims).None?
            <==> DistinctRows(rows + [row]) && KnownRows(rows + [row], obligations, claims)
  {
    var more := rows + [row];
    if DistinctRows(more) && KnownRows(more, obligations, claims) {
      assert row in more;
      forall i, j | 0 <= i < j < |rows| ensures rows[i].obligation != rows[j].obligation {
        assert more[i] == rows[i] && more[j] == rows[j];
      }
      forall r | r in rows ensures r.obligation != row.obligation && r in more {
        var i :| 0 <= i < |rows| && rows[i] == r;
        assert more[i] == r && more[|rows|] == row;
      }
    }
  }

  /** No refusal means no two rows share an obligation, and all of them refer to known things. */
  lemma {:induction false} FaultlessRows(rows: seq<Row>, obligations: set<string>, claims: Claims)
    ensures RowsFault(rows, obligations, claims).None? <==>
            DistinctRows(rows) && KnownRows(rows, obligations, claims)
  {
    if rows != [] {
      var n := |rows| - 1;
      FaultlessRows(rows[..n], obligations, claims);
      assert rows == rows[..n] + [rows[n]];
      FaultlessOneMore(rows[..n], rows[n], obligations, claims);
    }
  }

  /** The dictionary the first loop builds, one entry per row. */
  ghost predicate Declares(declared: map<string, seq<string>>, rows: seq<Row>) {
    && (forall o :: o in declared <==> exists row :: row in rows && row.obligation == o)
    && (forall row :: row in rows ==> row.obligation in declared && declared[row.obligation] == row.items)
  }

  lemma DeclareOne(declared: map<string, seq<string>>, rows: seq<Row>, row: Row)
    requires Declares(declared, rows) && row.obligation !in declared
    ensures Declares(declared[row.obligation := row.items], rows + [row])
  {
  }

  /** The first loop: each row checked against what came before it. */
  method DeclareRows(rows: seq<Row>, obligations: set<string>, claims: Claims)
      returns (fault: Option<string>, declared: map<string, seq<string>>)
    ensures fault == RowsFault(rows, obligations, claims)
    ensures fault.None? ==> Declares(declared, rows)
  {
    declared := map[];
    for i := 0 to |rows|
      invariant RowsFault(rows[..i], obligations, claims).None?
      invariant Declares(declared, rows[..i])
    {
      var row := rows[i];
      assert rows[..i + 1][..i] == rows[..i] && rows[..i + 1] == rows[..i] + [row];
      fault := None;
      if row.obligation in declared {
        fault := Some("duplicate_coverage_key");
      } else if row.obligation !in obligations {
        fault := Some("dangling_obligation_reference");
      } else if exists item :: item in row.items && item !in claims {
        fault := Some("dangling_work_item_reference");
      }
      assert fault == RowFault(rows[..i], row, obligations, claims);
      if fault.Some? {
        RowsFaultStays(rows, obligations, claims, i + 1);
        return;
      }
      DeclareOne(declared, rows[..i], row);
      declared := declared[row.obligation := row.items];
    }
    assert rows[..|rows|] == rows;
    fault := None;
  }

  /** The second loop: every declared row against the Work Items that claim its obligation. */
  method CompareRows(declared: map<string, seq<string>>, obligations: set<string>, claims: Claims) returns (ok: bool)
    requires obligations <= declared.Keys
    ensures ok <==> forall o :: o in obligations ==> Matches(Row(o, declared[o]), claims)
  {
    var pending := obligations;
    while pending != {}
      invariant pending <= obligations
      invariant forall o :: o in obligations - pending ==> Matches(Row(o, declared[o]), claims)
      decreases pending
    {
      var o :| o in pending;
      MultisetIsSet(declared[o], Claimants(o, claims));
      if multiset(declared[o]) != multiset(Claimants(o, claims)) {
        return false;
      }
      pending := pending - {o};
    }
    return true;
  }

  /** `_validate_coverage`, after parsing. */
  method ValidateCoverage(rows: seq<Row>, obligations: set<string>, claims: Claims) returns (r: Result<()>)
    ensures r.Ok? <==> Exact(rows, obligations, claims)
    ensures var fault := RowsFault(rows, obligations, claims);
            fault.Some? ==> r == Err(fault.value)
    ensures RowsFault(rows, obligations, claims).None? && r.Err? ==>
              r.error == if exists o :: o in obligations && forall row :: row in rows ==> row.obligation != o
                         then "uncovered_obligation" else "coverage_mismatch"
  {
    FaultlessRows(rows, obligations, claims);
    var fault, declared := DeclareRows(rows, obligations, claims);
    if fault.Some? {
      return Err(fault.value);
    }
    if exists o :: o in obligations && o !in declared {
      return Err("uncovered_obligation");
    }
    var ok := CompareRows(declared, obligations, claims);
    assert ok <==> forall row :: row in rows ==> Matches(row, claims) by {
      forall row | row in rows ensures row == Row(row.obligation, declared[row.obligation]) {}
    }
    return if ok then Ok(()) else Err("coverage_mismatch");
  }
}
