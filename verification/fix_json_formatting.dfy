/** The maintenance script that repairs stored scan results: every record whose
    text does not parse as JSON is rewritten by a fixed chain of textual
    replacements meant to insert the missing commas, and the rewrite is stored
    under the record's scan id. The database is a sequence of records, the
    JSON validity check is a parameter, and the printed progress lines are
    returned as the list of ids they name. */
module FixJsonFormatting {
  import opened Wrappers
  import opened Text

  // ---------------------------------------------------------------------------
  // The replacement chain
  // ---------------------------------------------------------------------------

  /** `results.replace('{"', '{"').replace('" ', '", "').replace('} ', '}, ')` */
  function Repair(s: string): string {
    ReplaceAll(ReplaceAll(ReplaceAll(s, "{\"", "{\""), "\" ", "\", \""), "} ", "}, ")
  }

  /** The text after the first two replacements, which the third one scans. */
  function AfterQuoteFix(s: string): string {
    ReplaceAll(ReplaceAll(s, "{\"", "{\""), "\" ", "\", \"")
  }

  /** The first replacement writes back what it finds, so the chain is really
      the last two replacements. */
  lemma FirstReplacementIsIdentity(s: string)
    ensures ReplaceAll(s, "{\"", "{\"") == s
    ensures AfterQuoteFix(s) == ReplaceAll(s, "\" ", "\", \"")
    ensures Repair(s) == ReplaceAll(ReplaceAll(s, "\" ", "\", \""), "} ", "}, ")
  {
    ReplaceAllSelf(s, "{\"");
  }

  /** Each `" ` replaced adds two characters and each `} ` replaced in the
      intermediate text adds one. */
  lemma RepairLength(s: string)
    ensures |AfterQuoteFix(s)| == |s| + 2 * Occurrences(s, "\" ")
    ensures |Repair(s)| == |AfterQuoteFix(s)| + Occurrences(AfterQuoteFix(s), "} ")
  {
    FirstReplacementIsIdentity(s);
    ReplaceAllLength(s, "\" ", "\", \"");
    ReplaceAllLength(AfterQuoteFix(s), "} ", "}, ");
  }

  /** The repair never shortens the text. */
  lemma RepairNeverShrinks(s: string)
    ensures |Repair(s)| >= |s|
  {
    RepairLength(s);
  }

  /** The repair changes the text exactly when it contains `" ` or `} `. */
  lemma RepairChangesIffPattern(s: string)
    ensures Repair(s) == s <==> !IsSubstring("\" ", s) && !IsSubstring("} ", s)
  {
    FirstReplacementIsIdentity(s);
    RepairLength(s);
    OccurrencesPositive(s, "\" ");
    if !IsSubstring("\" ", s) {
      ReplaceAllAbsent(s, "\" ", "\", \"");
      assert AfterQuoteFix(s) == s;
      OccurrencesPositive(s, "} ");
      if !IsSubstring("} ", s) {
        ReplaceAllAbsent(s, "} ", "}, ");
      }
    }
  }

  // ---------------------------------------------------------------------------
  // The table and the pass over it
  // ---------------------------------------------------------------------------

  /** A row of `scan_results`; `results` is `None` for SQL `NULL`. */
  datatype Record = Record(scanId: string, results: Option<string>)

  /** The record's text is present and fails the JSON check. */
  predicate NeedsRepair(r: Record, valid: string -> bool) {
    r.results.Some? && !valid(r.results.value)
  }

  /** `UPDATE scan_results SET results = text WHERE scan_id = id` */
  function UpdateWhere(table: seq<Record>, id: string, text: string): (r: seq<Record>)
    ensures |r| == |table|
    ensures forall i :: 0 <= i < |r| ==> r[i].scanId == table[i].scanId
    ensures forall i :: 0 <= i < |r| && table[i].scanId != id ==> r[i] == table[i]
    ensures forall i :: 0 <= i < |r| && table[i].scanId == id ==> r[i].results == Some(text)
  {
    seq(|table|, i requires 0 <= i < |table| =>
      if table[i].scanId == id then table[i].(results := Some(text)) else table[i])
  }

  /** The state of the pass: the table as the open transaction sees it, the ids
      printed so far, and whether the pass has stopped on an exception. */
  datatype Pass = Pass(table: seq<Record>, log: seq<string>, failed: bool)

  /** The pass after the first `k` fetched records. A `NULL` text makes
      `json.loads` raise a `TypeError`, which the `except JSONDecodeError`
      does not catch, so the pass stops there. */
  function PassUpTo(db: seq<Record>, k: nat, valid: string -> bool): (p: Pass)
    requires k <= |db|
    ensures |p.table| == |db|
  {
    if k == 0 then Pass(db, [], false)
    else
      var prev := PassUpTo(db, k - 1, valid);
      var rec := db[k - 1];
      if prev.failed then prev
      else if rec.results.None? then prev.(failed := true)
      else if valid(rec.results.value) then prev
      else Pass(UpdateWhere(prev.table, rec.scanId, Repair(rec.results.value)), prev.log + [rec.scanId], false)
  }

  /** What the script leaves behind: the table, committed only when the pass
      ran to the end, and the ids it printed. */
  datatype Outcome = Outcome(table: seq<Record>, log: seq<string>, committed: bool)

  /** Reference definition of the whole run. An uncommitted transaction is
      rolled back when the process exits, so an interrupted run leaves the
      table as it was. */
  function Reference(db: seq<Record>, valid: string -> bool): (out: Outcome)
    ensures |out.table| == |db|
  {
    var p := PassUpTo(db, |db|, valid);
    if p.failed then Outcome(db, p.log, false) else Outcome(p.table, p.log, true)
  }

  /** `fix_json_formatting()`: fetch every record, and for each one whose text
      fails the JSON check, store the repaired text under its scan id and
      print the id; commit at the end. */
  method Fix(db: seq<Record>, valid: string -> bool) returns (out: Outcome)
    ensures out == Reference(db, valid)
    ensures |out.table| == |db|
    ensures out.committed <==> forall i :: 0 <= i < |db| ==> db[i].results.Some?
  {
    var table := db;
    var log: seq<string> := [];
    var i := 0;
    while i < |db|
      invariant 0 <= i <= |db|
      invariant PassUpTo(db, i, valid) == Pass(table, log, false)
      invariant |table| == |db|
      invariant forall j :: 0 <= j < i ==> db[j].results.Some?
    {
      var rec := db[i];
      if rec.results.None? {
        NullStopsPass(db, |db|, i, valid);
        return Outcome(db, log, false);
      }
      if !valid(rec.results.value) {
        table := UpdateWhere(table, rec.scanId, Repair(rec.results.value));
        log := log + [rec.scanId];
      }
      i := i + 1;
    }
    return Outcome(table, log, true);
  }

  /** Once a `NULL` text has been met, the pass stays stopped. */
  lemma {:induction false} NullStopsPass(db: seq<Record>, k: nat, j: nat, valid: string -> bool)
    requires j < k <= |db| && db[j].results.None?
    ensures PassUpTo(db, k, valid).failed
    ensures PassUpTo(db, k, valid) == PassUpTo(db, j + 1, valid)
    decreases k
  {
    if k > j + 1 {
      NullStopsPass(db, k - 1, j, valid);
    }
  }

  // ---------------------------------------------------------------------------
  // Properties of a run
  // ---------------------------------------------------------------------------

  /** The ids of the records that need repair, in table order. */
  function InvalidIds(db: seq<Record>, valid: string -> bool): seq<string> {
    if db == [] then []
    else InvalidIds(db[..|db| - 1], valid) + (if NeedsRepair(db[|db| - 1], valid) then [db[|db| - 1].scanId] else [])
  }

  /** Some record among the first `k` with scan id `id` needs repair. */
  ghost predicate RepairedId(db: seq<Record>, k: nat, id: string, valid: string -> bool)
    requires k <= |db|
  {
    exists j :: 0 <= j < k && db[j].scanId == id && NeedsRepair(db[j], valid)
  }

  /** Every step of the pass keeps each row's scan id. */
  lemma {:induction false} PassKeepsIds(db: seq<Record>, k: nat, valid: string -> bool)
    requires k <= |db|
    ensures forall i :: 0 <= i < |db| ==> PassUpTo(db, k, valid).table[i].scanId == db[i].scanId
    decreases k
  {
    if k > 0 {
      PassKeepsIds(db, k - 1, valid);
    }
  }

  /** Until it stops, the pass prints the ids of the records that need repair,
      in order. */
  lemma {:induction false} PassLog(db: seq<Record>, k: nat, valid: string -> bool)
    requires k <= |db|
    requires !PassUpTo(db, k, valid).failed
    ensures PassUpTo(db, k, valid).log == InvalidIds(db[..k], valid)
    decreases k
  {
    if k > 0 {
      PassLog(db, k - 1, valid);
      assert db[..k][..k - 1] == db[..k - 1];
    }
  }

  /** The pass leaves untouched every row whose id no record needing repair
      shares. */
  lemma {:induction false} PassUntouched(db: seq<Record>, k: nat, valid: string -> bool)
    requires k <= |db|
    ensures forall i :: 0 <= i < |db| && !RepairedId(db, k, db[i].scanId, valid) ==>
      PassUpTo(db, k, valid).table[i] == db[i]
    decreases k
  {
    if k > 0 {
      PassUntouched(db, k - 1, valid);
      PassKeepsIds(db, k - 1, valid);
    }
  }

  /** The script commits exactly when no record's text is `NULL`; otherwise it
      leaves the table as it was. */
  lemma CommitIffNoNull(db: seq<Record>, valid: string -> bool)
    ensures Reference(db, valid).committed <==> forall i :: 0 <= i < |db| ==> db[i].results.Some?
    ensures !Reference(db, valid).committed ==> Reference(db, valid).table == db
  {
    if exists j :: 0 <= j < |db| && db[j].results.None? {
      var j :| 0 <= j < |db| && db[j].results.None?;
      NullStopsPass(db, |db|, j, valid);
    } else {
      NoNullNoFailure(db, |db|, valid);
    }
  }

  lemma {:induction false} NoNullNoFailure(db: seq<Record>, k: nat, valid: string -> bool)
    requires k <= |db|
    requires forall j :: 0 <= j < k ==> db[j].results.Some?
    ensures !PassUpTo(db, k, valid).failed
    decreases k
  {
    if k > 0 {
      NoNullNoFailure(db, k - 1, valid);
    }
  }

  /** A committed run keeps every row and its id, prints exactly the ids of the
      records whose text failed the check, and rewrites no row whose id no
      failing record shares. */
  lemma CommittedRun(db: seq<Record>, valid: string -> bool)
    requires Reference(db, valid).committed
    ensures |Reference(db, valid).table| == |db|
    ensures forall i :: 0 <= i < |db| ==> Reference(db, valid).table[i].scanId == db[i].scanId
    ensures Reference(db, valid).log == InvalidIds(db, valid)
    ensures forall i :: 0 <= i < |db| && !RepairedId(db, |db|, db[i].scanId, valid) ==>
      Reference(db, valid).table[i] == db[i]
  {
    PassKeepsIds(db, |db|, valid);
    PassLog(db, |db|, valid);
    PassUntouched(db, |db|, valid);
    assert db[..|db|] == db;
  }

  /** With distinct scan ids, a committed run stores the repaired text in
      exactly the rows whose text failed the check and leaves the others. */
  lemma CommittedRunDistinctIds(db: seq<Record>, valid: string -> bool)
    requires forall i, j :: 0 <= i < j < |db| ==> db[i].scanId != db[j].scanId
    requires Reference(db, valid).committed
    ensures forall i :: 0 <= i < |db| ==>
      Reference(db, valid).table[i].results ==
        if NeedsRepair(db[i], valid) then Some(Repair(db[i].results.value)) else db[i].results
  {
    forall i | 0 <= i < |db|
      ensures Reference(db, valid).table[i].results ==
        if NeedsRepair(db[i], valid) then Some(Repair(db[i].results.value)) else db[i].results
    {
      DistinctIdsRow(db, |db|, i, valid);
    }
  }

  lemma {:induction false} DistinctIdsRow(db: seq<Record>, k: nat, i: nat, valid: string -> bool)
    requires forall a, b :: 0 <= a < b < |db| ==> db[a].scanId != db[b].scanId
    requires k <= |db| && i < |db| && !PassUpTo(db, k, valid).failed
    ensures PassUpTo(db, k, valid).table[i].results ==
      if i < k && NeedsRepair(db[i], valid) then Some(Repair(db[i].results.value)) else db[i].results
    decreases k
  {
    if k > 0 {
      var prev := PassUpTo(db, k - 1, valid);
      var rec := db[k - 1];
      assert !prev.failed && rec.results.Some?;
      DistinctIdsRow(db, k - 1, i, valid);
      PassKeepsIds(db, k - 1, valid);
      assert prev.table[i].scanId == db[i].scanId;
      if NeedsRepair(rec, valid) && i != k - 1 {
        if i < k - 1 {
          assert db[i].scanId != db[k - 1].scanId;
        } else {
          assert db[k - 1].scanId != db[i].scanId;
        }
      }
    }
  }

  /** A table whose every text passes the check comes through unchanged, and
      nothing is printed. */
  lemma AllValidUnchanged(db: seq<Record>, valid: string -> bool)
    requires forall i :: 0 <= i < |db| ==> db[i].results.Some? && valid(db[i].results.value)
    ensures Reference(db, valid) == Outcome(db, [], true)
  {
    AllValidPass(db, |db|, valid);
  }

  lemma {:induction false} AllValidPass(db: seq<Record>, k: nat, valid: string -> bool)
    requires k <= |db|
    requires forall i :: 0 <= i < |db| ==> db[i].results.Some? && valid(db[i].results.value)
    ensures PassUpTo(db, k, valid) == Pass(db, [], false)
    decreases k
  {
    if k > 0 {
      AllValidPass(db, k - 1, valid);
    }
  }
}
