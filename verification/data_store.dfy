/** Run rows and their findings rows (api_server/src/data_store.rs). Each call issues several SQL
    statements and no transaction, so a call that fails part-way leaves the earlier ones applied. */
module DataStoring {
  import opened Wrappers

  /** Stands for a UUID. */
  type RunId = nat

  datatype RunStatus = Queued | Running | Completed | Failed | Cancelled

  datatype FindingRow = FindingRow(title: string, severity: string, confidence: int, recommendation: string)

  datatype Report = Report(findings: seq<FindingRow>, body: string)

  datatype RunEntry = RunEntry(
    id: RunId, task: string, status: RunStatus, report: Option<Report>, error: Option<string>,
    createdAt: string, completedAt: Option<string>, caseId: Option<nat>)

  /** `findings[id]` lists the findings rows of run `id` by their `seq` column. */
  datatype Tables = Tables(runs: map<RunId, RunEntry>, findings: map<RunId, seq<FindingRow>>)

  /** Which SQL statement of a call fails, counting from 0; `None` if none does. */
  type Fault = Option<nat>

  function FindingsOf(t: Tables, id: RunId): seq<FindingRow> {
    if id in t.findings then t.findings[id] else []
  }

  function ReportFindings(entry: RunEntry): seq<FindingRow> {
    if entry.report.Some? then entry.report.value.findings else []
  }

  /** The columns an UPDATE writes; `task` and `created_at` keep what the INSERT put there. */
  function Overwrite(row: RunEntry, entry: RunEntry): RunEntry {
    row.(status := entry.status, report := entry.report, error := entry.error,
         completedAt := entry.completedAt, caseId := entry.caseId)
  }

  /** How many of `n` finding rows get in when they start at statement `first`; the foreign key
      on `run_id` refuses all of them if the run has no row. */
  function StoredCount(n: nat, first: nat, fault: Fault, present: bool): (k: nat)
    ensures k <= n
  {
    if !present then 0
    else if fault.Some? && first <= fault.value < first + n then fault.value - first
    else n
  }

  function AfterInsert(t: Tables, entry: RunEntry, fault: Fault): Tables {
    if fault == Some(0) || entry.id in t.runs then t
    else
      var rows := ReportFindings(entry);
      var kept := rows[..StoredCount(|rows|, 1, fault, true)];
      Tables(t.runs[entry.id := entry],
             if kept == [] then t.findings else t.findings[entry.id := FindingsOf(t, entry.id) + kept])
  }

  predicate InsertSucceeds(t: Tables, entry: RunEntry, fault: Fault) {
    fault != Some(0) && entry.id !in t.runs
    && StoredCount(|ReportFindings(entry)|, 1, fault, true) == |ReportFindings(entry)|
  }

  function AfterUpdate(t: Tables, entry: RunEntry, fault: Fault): Tables {
    if fault == Some(0) then t
    else
      var runs := if entry.id in t.runs then t.runs[entry.id := Overwrite(t.runs[entry.id], entry)] else t.runs;
      if entry.report.None? || fault == Some(1) then t.(runs := runs)
      else
        var rows := ReportFindings(entry);
        Tables(runs, t.findings[entry.id := rows[..StoredCount(|rows|, 2, fault, entry.id in runs)]])
  }

  /** The findings rows an update leaves of the report's when the run had none before: none if the
      DELETE of the old ones or an earlier statement fails, else those inserted before the failing one. */
  function KeptFindings(rows: seq<FindingRow>, fault: Fault): (kept: seq<FindingRow>)
    ensures kept <= rows && (fault == Some(0) ==> kept == [])
  {
    if fault == Some(0) || fault == Some(1) then [] else rows[..StoredCount(|rows|, 2, fault, true)]
  }

  /** No statement up to the last INSERT fails; without findings there is nothing to lose. */
  predicate LosesNothing(count: nat, fault: Fault) {
    count == 0 || fault.None? || fault.value >= count + 2
  }

  lemma KeptExactly(rows: seq<FindingRow>, fault: Fault)
    ensures KeptFindings(rows, fault) == rows <==> LosesNothing(|rows|, fault)
    ensures fault.Some? && 2 <= fault.value < |rows| + 2 ==> KeptFindings(rows, fault) == rows[..fault.value - 2]
  {
  }

  lemma UpdatedFindings(t: Tables, entry: RunEntry, fault: Fault)
    requires entry.id in t.runs && FindingsOf(t, entry.id) == []
    ensures FindingsOf(AfterUpdate(t, entry, fault), entry.id) == KeptFindings(ReportFindings(entry), fault)
    ensures entry.id in AfterUpdate(t, entry, fault).runs
    ensures AfterUpdate(t, entry, fault).runs[entry.id]
         == if fault == Some(0) then t.runs[entry.id] else Overwrite(t.runs[entry.id], entry)
  {
  }

  lemma UpdateWithoutRow(t: Tables, entry: RunEntry, fault: Fault)
    requires entry.id !in t.runs && FindingsOf(t, entry.id) == []
    ensures AfterUpdate(t, entry, fault).runs == t.runs && FindingsOf(AfterUpdate(t, entry, fault), entry.id) == []
  {
  }

  lemma UpdateFrames(t: Tables, entry: RunEntry, fault: Fault, id: RunId)
    requires id != entry.id
    ensures var t' := AfterUpdate(t, entry, fault);
            (id in t'.runs <==> id in t.runs) && (id in t.runs ==> t'.runs[id] == t.runs[id])
            && FindingsOf(t', id) == FindingsOf(t, id)
  {
  }

  predicate UpdateSucceeds(t: Tables, entry: RunEntry, fault: Fault) {
    fault != Some(0)
    && (entry.report.Some? ==>
          fault != Some(1)
          && StoredCount(|ReportFindings(entry)|, 2, fault, entry.id in t.runs) == |ReportFindings(entry)|)
  }

  class DataStore {
    var runs: map<RunId, RunEntry>
    var findings: map<RunId, seq<FindingRow>>

    function Contents(): Tables
      reads this
    {
      Tables(runs, findings)
    }

    constructor ()
      ensures Contents() == Tables(map[], map[])
    {
      runs, findings := map[], map[];
    }

    /** The INSERTs of `rows`, the first of them being statement `first`. */
    method InsertFindings(id: RunId, rows: seq<FindingRow>, first: nat, fault: Fault) returns (ok: bool)
      modifies this`findings
      ensures var k := StoredCount(|rows|, first, fault, id in runs);
              && ok == (k == |rows|)
              && findings == if k == 0 then old(findings) else old(findings)[id := FindingsOf(old(Contents()), id) + rows[..k]]
    {
      ghost var before := FindingsOf(Contents(), id);
      for i := 0 to |rows|
        invariant FindingsOf(Contents(), id) == before + rows[..i]
        invariant i > 0 ==> id in runs && findings == old(findings)[id := before + rows[..i]]
        invariant i == 0 ==> findings == old(findings)
        invariant StoredCount(|rows|, first, fault, id in runs) >= i
      {
        if id !in runs || fault == Some(first + i) {
          return false;
        }
        assert rows[..i + 1] == rows[..i] + [rows[i]];
        findings := findings[id := FindingsOf(Contents(), id) + [rows[i]]];
      }
      assert rows[..|rows|] == rows;
      ok := true;
    }

    /** A new run's row, then the findings of its report if it has one. */
    method InsertRun(entry: RunEntry, fault: Fault) returns (ok: bool)
      modifies this
      ensures ok == InsertSucceeds(old(Contents()), entry, fault)
      ensures Contents() == AfterInsert(old(Contents()), entry, fault)
    {
      if fault == Some(0) || entry.id in runs {
        return false;
      }
      runs := runs[entry.id := entry];
      ok := true;
      if entry.report.Some? {
        ok := InsertFindings(entry.id, entry.report.value.findings, 1, fault);
      }
    }

    /** Rewrites the run's row, then replaces its findings by those of the report. */
    method UpdateRun(entry: RunEntry, fault: Fault) returns (ok: bool)
      modifies this
      ensures ok == UpdateSucceeds(old(Contents()), entry, fault)
      ensures Contents() == AfterUpdate(old(Contents()), entry, fault)
    {
      if fault == Some(0) {
        return false;
      }
      if entry.id in runs {
        runs := runs[entry.id := Overwrite(runs[entry.id], entry)];
      }
      ok := true;
      if entry.report.Some? {
        if fault == Some(1) {
          return false;
        }
        findings := findings[entry.id := []];
        ok := InsertFindings(entry.id, entry.report.value.findings, 2, fault);
        ghost var rows := ReportFindings(entry);
        ghost var k := StoredCount(|rows|, 2, fault, entry.id in runs);
        assert [] + rows[..k] == rows[..k];
        assert findings == old(findings)[entry.id := rows[..k]];
      }
    }
  }
}
