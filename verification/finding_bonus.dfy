/** The corroboration bonus (core_engine/src/lib.rs): its comment speaks of tools with concrete findings,
    its code counts the tools of failed calls as well. When that matters. */
module FindingBonus {
  import opened Wrappers
  import opened Json
  import opened Findings
  import opened FindingFields

  /** Tools that a finding other than a failed call's names. */
  function ConcreteTools(findings: seq<Finding>): set<string> {
    set f | f in findings && f.pointer.tool.Some? && f.pointer.field != ERROR_FIELD :: f.pointer.tool.value
  }

  /** Tools that only failed. */
  function OnlyFailed(findings: seq<Finding>): set<string> {
    ToolsNamed(findings) - ConcreteTools(findings)
  }

  lemma ToolsSplit(findings: seq<Finding>)
    ensures |ToolsNamed(findings)| == |ConcreteTools(findings)| + |OnlyFailed(findings)|
  {
    assert ToolsNamed(findings) == ConcreteTools(findings) + OnlyFailed(findings);
  }

  /** The bonus is that of the concrete tools alone, if and only if none only failed, or there is at most
      one tool, or three are concrete anyway. */
  lemma BonusIgnoresFailuresExactly(turns: seq<Turn>)
    ensures var findings := OrFallback(Collected(turns));
            var concrete, failed := |ConcreteTools(findings)|, |OnlyFailed(findings)|;
            BonusOf(turns) == Bonus(concrete) <==> failed == 0 || concrete + failed <= 1 || concrete >= 3
  {
    hide Collected, ToolsNamed, ConcreteTools, OnlyFailed;
    ToolsSplit(OrFallback(Collected(turns)));
  }

  // ---- a failed call that raises another tool's confidence ----

  const FAILED := Turn(Some(ToolCall("a", Null)), Some(Object(map["error" := Str("refused")])))
  const SCANNED := Turn(Some(ToolCall("b", Null)), Some(EMPTY_SSH_SCAN))

  lemma FailedReports()
    ensures ReportsError(FAILED.observation.value) && !ReportsError(SCANNED.observation.value)
    ensures FindsNoSshKeys(SCANNED.observation.value)
  {
    EmptyScanNamesAbsentField();
  }

  /** Findings name the tools of the turns they stem from. */
  lemma ToolOfScan(turns: seq<Turn>, n: nat) returns (f: Finding)
    requires IsEmptyScan(turns, n) && turns[n - 1].call.Some?
    ensures f in Derived(turns) && f.pointer.turn == Some(n) && f.pointer.tool == ToolOf(turns[n - 1])
    ensures f.pointer.field == SSH_FIELD && f.confidence == ScanConfidence(ToolOf(turns[n - 1]), BonusOf(turns))
  {
    hide Derived, BonusOf, FindsNoSshKeys, SSH_FIELD, ScanConfidence;
    var i := ScanIsDerived(turns, n);
    DerivedScan(turns, i);
    f := Derived(turns)[i];
  }

  lemma NamedTools(turns: seq<Turn>, tools: set<string>)
    requires Collected(turns) != []
    requires forall t | t in turns && t.observation.Some? && t.call.Some? :: t.call.value.tool in tools
    requires forall tool | tool in tools :: exists f :: f in Collected(turns) && f.pointer.tool == Some(tool)
    ensures ToolsNamed(OrFallback(Collected(turns))) == tools
  {
    CollectedStem(turns);
    hide Collected, IsField, FailedCall;
    forall f | f in Collected(turns) && f.pointer.tool.Some? ensures f.pointer.tool.value in tools {
      assert StemsFromRun(f, turns);
      assert turns[f.pointer.turn.value - 1] in turns;
    }
  }

  lemma FailureIsCollected(turns: seq<Turn>, n: nat) returns (f: Finding)
    requires 1 <= n <= |turns| && turns[n - 1].observation.Some? && ReportsError(turns[n - 1].observation.value)
    ensures f in Collected(turns) && f.pointer.tool == ToolOf(turns[n - 1])
  {
    hide Collected;
    CollectedMembers(turns);
    f := FailedCall(SiteOf(turns, n));
    assert TurnFindings(turns[n - 1], n) == [f];
  }

  lemma BothAreNamed()
    ensures ToolsNamed(OrFallback(Collected([FAILED, SCANNED]))) == {"a", "b"}
  {
    var turns := [FAILED, SCANNED];
    FailedReports();
    hide Collected, EMPTY_SSH_SCAN, FindsNoSshKeys, ReportsError;
    var failure := FailureIsCollected(turns, 1);
    var scan := ScanIsCollected(turns, 2);
    assert failure.pointer.tool == Some("a") && scan.pointer.tool == Some("b");
    NamedTools(turns, {"a", "b"});
  }

  lemma OneIsNamed()
    ensures ToolsNamed(OrFallback(Collected([SCANNED]))) == {"b"}
  {
    var turns := [SCANNED];
    FailedReports();
    hide Collected, EMPTY_SSH_SCAN, FindsNoSshKeys;
    var scan := ScanIsCollected(turns, 1);
    assert scan.pointer.tool == Some("b");
    NamedTools(turns, {"b"});
  }

  /** The finding of tool "b" has confidence 85 on its own, and 88 after a call of tool "a" that only failed. */
  lemma FailedCallRaisesConfidence() returns (alone: Finding, beside: Finding)
    ensures alone in Derived([SCANNED]) && beside in Derived([FAILED, SCANNED])
    ensures alone.pointer.tool == beside.pointer.tool == Some("b") && alone.pointer.field == beside.pointer.field
    ensures alone.confidence == 85 && beside.confidence == 88
  {
    hide Derived, Collected, EMPTY_SSH_SCAN, FindsNoSshKeys, OrFallback;
    FailedReports();
    OneIsNamed();
    BothAreNamed();
    assert "a" != "b" && |{"a", "b"}| == 2 && |{"b"}| == 1;
    alone := ToolOfScan([SCANNED], 1);
    beside := ToolOfScan([FAILED, SCANNED], 2);
  }
}
