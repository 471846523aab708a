/** Which report has a finding that names a field its observation does not have: whether one has depends
    on the SSH scan that deduplication keeps. */
module FindingFields {
  import opened Wrappers
  import opened Json
  import opened Findings
  import opened FindingSelection
  import opened FindingReport

  /** Turn `n`, counted from 1, is an SSH scan that found nothing. */
  predicate IsEmptyScan(turns: seq<Turn>, n: nat) {
    1 <= n <= |turns| && turns[n - 1].observation.Some? && FindsNoSshKeys(turns[n - 1].observation.value)
  }

  function BonusOf(turns: seq<Turn>): nat {
    Bonus(|ToolsNamed(OrFallback(Collected(turns)))|)
  }

  /** The confidence of an empty scan's finding: only with a tool named is it corroborated. */
  function ScanConfidence(tool: Option<string>, bonus: nat): nat {
    if tool.None? then 85 else if 85 + bonus > 99 then 99 else 85 + bonus
  }

  predicate Outdoes(a: Option<string>, b: Option<string>, bonus: nat) {
    || Authority(a) > Authority(b)
    || (Authority(a) == Authority(b) && ScanConfidence(a, bonus) > ScanConfidence(b, bonus))
  }

  /** The empty scan that is kept: the first of those that none outdoes. */
  ghost predicate IsKeptScan(turns: seq<Turn>, n: nat) {
    && IsEmptyScan(turns, n)
    && forall j: nat :: IsEmptyScan(turns, j) ==>
         && !Outdoes(ToolOf(turns[j - 1]), ToolOf(turns[n - 1]), BonusOf(turns))
         && (j < n ==> Outdoes(ToolOf(turns[n - 1]), ToolOf(turns[j - 1]), BonusOf(turns)))
  }

  lemma KeptScanIsUnique(turns: seq<Turn>, a: nat, b: nat)
    requires IsKeptScan(turns, a) && IsKeptScan(turns, b)
    ensures a == b
  {
    hide BonusOf, Outdoes, FindsNoSshKeys;
  }

  // ---- the findings of empty scans before deduplication ----

  /** Findings come in the order of their turns. */
  ghost predicate InTurnOrder(findings: seq<Finding>) {
    forall i, j :: 0 <= i < j < |findings| && findings[i].pointer.turn.Some? && findings[j].pointer.turn.Some? ==>
      findings[i].pointer.turn.value <= findings[j].pointer.turn.value
  }

  lemma {:induction false} CollectedInTurnOrder(turns: seq<Turn>)
    ensures InTurnOrder(Collected(turns))
  {
    if turns != [] {
      var front, t := turns[..|turns| - 1], turns[|turns| - 1];
      var before, last := Collected(front), TurnFindings(t, |turns|);
      CollectedInTurnOrder(front);
      CollectedStem(front);
      LastStems(front, t);
      assert Collected(turns) == before + last;
      hide Collected, TurnFindings, StemsFrom;
      forall i | 0 <= i < |before| ensures before[i].pointer.turn.Some? && before[i].pointer.turn.value <= |front| {
        assert before[i] in before;
      }
      forall i | 0 <= i < |last| ensures last[i].pointer.turn == Some(|turns|) {
        assert last[i] in last;
        LastTurn(front, t, last[i]);
      }
    }
  }

  lemma LastTurn(front: seq<Turn>, t: Turn, f: Finding)
    requires f in TurnFindings(t, |front| + 1)
    ensures f.pointer.turn == Some(|front| + 1)
  {
    if t.observation.Some? {
      SiteStemsFrom(Site(|front| + 1, ToolOf(t), t.observation.value));
    }
    hide SiteFindings, FailedCall, IsField;
  }

  /** A finding that names the field of empty scans is that of an empty scan. */
  ghost predicate IsScanFinding(f: Finding, turns: seq<Turn>) {
    && f.pointer.turn.Some? && IsEmptyScan(turns, f.pointer.turn.value)
    && f.pointer.tool == ToolOf(turns[f.pointer.turn.value - 1])
    && f.confidence == ScanConfidence(f.pointer.tool, BonusOf(turns))
  }

  lemma CollectedScan(turns: seq<Turn>, f: Finding)
    requires StemsFromRun(f, turns) && f.pointer.field == SSH_FIELD
    ensures IsEmptyScan(turns, f.pointer.turn.value) && f.confidence == 85
    ensures f.pointer.tool == ToolOf(turns[f.pointer.turn.value - 1])
  {
    hide FailedCall, IsField;
  }

  lemma FallbackIsElsewhere()
    ensures NOTHING_FOUND.pointer.field != SSH_FIELD && SSH_FIELD != ERROR_FIELD && SSH_FIELD != FINAL_ANSWER
  {
    assert NOTHING_FOUND.pointer.field[0] == 'f' && SSH_FIELD[0] == 'o';
    assert SSH_FIELD[12..] == SSH_DIRECTORIES && ERROR_FIELD[12..] == "error";
  }

  lemma DerivedScan(turns: seq<Turn>, i: nat)
    requires i < |Derived(turns)| && Derived(turns)[i].pointer.field == SSH_FIELD
    ensures IsScanFinding(Derived(turns)[i], turns)
  {
    FallbackIsElsewhere();
    CollectedStem(turns);
    hide Collected, ToolsNamed, StemsFrom, LabelFor, SSH_FIELD;
    var findings := OrFallback(Collected(turns));
    assert Derived(turns)[i] == Adjusted(findings[i], BonusOf(turns));
    assert findings[i] in Collected(turns);
    CollectedScan(turns, findings[i]);
  }

  lemma ScanIsDerived(turns: seq<Turn>, n: nat) returns (i: nat)
    requires IsEmptyScan(turns, n)
    ensures i < |Derived(turns)| && Derived(turns)[i].pointer.field == SSH_FIELD && Derived(turns)[i].pointer.turn == Some(n)
  {
    hide Collected, ToolsNamed, LabelFor, FindsNoSshKeys;
    var f := ScanIsCollected(turns, n);
    var findings := Collected(turns);
    i :| 0 <= i < |findings| && findings[i] == f;
    assert Derived(turns)[i] == Adjusted(findings[i], BonusOf(turns));
  }

  lemma DerivedInTurnOrder(turns: seq<Turn>)
    ensures InTurnOrder(Derived(turns))
  {
    CollectedInTurnOrder(turns);
    hide Collected, ToolsNamed, LabelFor;
    var findings := OrFallback(Collected(turns));
    assert forall i :: 0 <= i < |findings| ==> Derived(turns)[i].pointer == findings[i].pointer;
  }

  // ---- the kept one ----

  lemma BeatsIsOutdoes(a: Finding, b: Finding, turns: seq<Turn>)
    requires IsScanFinding(a, turns) && IsScanFinding(b, turns)
    ensures Beats(a, b)
      == Outdoes(ToolOf(turns[a.pointer.turn.value - 1]), ToolOf(turns[b.pointer.turn.value - 1]), BonusOf(turns))
  {
    hide Authority, ScanConfidence, BonusOf, FindsNoSshKeys;
  }

  lemma ChampionIsKeptScan(turns: seq<Turn>, k: nat)
    requires IsChampion(Derived(turns), k) && Derived(turns)[k].pointer.field == SSH_FIELD
    ensures Derived(turns)[k].pointer.turn.Some? && IsKeptScan(turns, Derived(turns)[k].pointer.turn.value)
  {
    hide Derived, BonusOf, FindsNoSshKeys, Outdoes, Beats, SSH_FIELD, ScanConfidence;
    var derived := Derived(turns);
    DerivedScan(turns, k);
    DerivedInTurnOrder(turns);
    var n := derived[k].pointer.turn.value;
    forall j: nat | IsEmptyScan(turns, j)
      ensures !Outdoes(ToolOf(turns[j - 1]), ToolOf(turns[n - 1]), BonusOf(turns))
      ensures j < n ==> Outdoes(ToolOf(turns[n - 1]), ToolOf(turns[j - 1]), BonusOf(turns))
    {
      var i := ScanIsDerived(turns, j);
      DerivedScan(turns, i);
      assert SameField(derived[i], derived[k]);
      BeatsIsOutdoes(derived[i], derived[k], turns);
      BeatsIsOutdoes(derived[k], derived[i], turns);
    }
  }

  /** The report's finding on empty scans is that of the kept one. */
  lemma ReportedScanIsKept(turns: seq<Turn>, f: Finding)
    requires f in Report(turns) && f.pointer.field == SSH_FIELD
    ensures f.pointer.turn.Some? && IsKeptScan(turns, f.pointer.turn.value)
  {
    FallbackIsElsewhere();
    var derived := Derived(turns);
    var k := ReportedChampion(turns, f);
    ChampionIsKeptScan(turns, k);
  }

  lemma ReportedChampion(turns: seq<Turn>, f: Finding) returns (k: nat)
    requires f in Report(turns) && !Exempt(f)
    ensures IsChampion(Derived(turns), k) && Derived(turns)[k] == f
  {
    var derived := Derived(turns);
    var kept := Deduplicated(derived);
    DeduplicatedIsSelection(derived);
    SortedIsStableSort(kept);
    assert f in multiset(kept);
    var p :| 0 <= p < |kept| && kept[p] == f;
    hide Derived, Deduplicated, Sorted, Openings, SameRanks, IsSorted, Beats;
    assert Stands(derived, Openings(derived)[p], f);
    SelectionFields(derived, kept, p);
    k :| IsChampion(derived, k) && f == derived[k];
  }

  /** A field that some finding names is named by one of the report. */
  lemma FieldIsKept(turns: seq<Turn>, g: Finding) returns (f: Finding)
    requires g in Derived(turns) && !Exempt(g)
    ensures f in Report(turns) && SameField(f, g)
  {
    var derived := Derived(turns);
    var kept := Deduplicated(derived);
    DeduplicatedIsSelection(derived);
    SortedIsStableSort(kept);
    hide Derived, Deduplicated, Sorted, SameRanks, IsSorted, Exempt;
    HolderOpens(derived, kept, g);
    var i :| 0 <= i < |derived| && derived[i] == g;
    assert SameField(derived[i], g);
    f := kept[Holder(kept, g).value];
    assert f in multiset(kept);
  }

  /** Some finding on empty scans is reported if there is one. */
  lemma ScanIsReported(turns: seq<Turn>, n: nat) returns (f: Finding)
    requires IsEmptyScan(turns, n)
    ensures f in Report(turns) && f.pointer.field == SSH_FIELD
  {
    FallbackIsElsewhere();
    hide Derived, Report, IsEmptyScan, SSH_FIELD, ERROR_FIELD, FINAL_ANSWER;
    var i := ScanIsDerived(turns, n);
    f := FieldIsKept(turns, Derived(turns)[i]);
  }

  /** Every finding of a report names a field of the observation it points to, exactly if the empty SSH
      scan that is kept, if any, says how many directories it scanned. */
  lemma ReportFieldsArePresentExactly(turns: seq<Turn>)
    ensures Report(turns) == [NOTHING_FOUND]
      || ((forall f | f in Report(turns) :: NamesPresentField(f.pointer, turns))
          <==> forall n: nat :: IsKeptScan(turns, n) ==> !HasAbsentField(turns[n - 1]))
  {
    ReportPointersResolve(turns);
    hide Report, IsField, BonusOf, NOTHING_FOUND;
    if Report(turns) != [NOTHING_FOUND] {
      forall f | f in Report(turns) ensures NamesPresentField(f.pointer, turns) || AbsentAt(turns, f) {
        assert Resolves(f.pointer, turns);
        PresentOrKept(turns, f);
      }
      if n: nat :| IsKeptScan(turns, n) && HasAbsentField(turns[n - 1]) {
        var f := ScanIsReported(turns, n);
        ReportedScanIsKept(turns, f);
        KeptScanIsUnique(turns, n, f.pointer.turn.value);
        AbsentIsNotPresent(turns, f);
      }
    }
  }

  /** A finding on the kept empty scan, which lacks the field. */
  ghost predicate AbsentAt(turns: seq<Turn>, f: Finding) {
    && f.pointer.field == SSH_FIELD && f.pointer.turn.Some? && IsKeptScan(turns, f.pointer.turn.value)
    && HasAbsentField(turns[f.pointer.turn.value - 1])
  }

  lemma PresentOrKept(turns: seq<Turn>, f: Finding)
    requires f in Report(turns) && Resolves(f.pointer, turns)
    ensures NamesPresentField(f.pointer, turns) || AbsentAt(turns, f)
  {
    hide Report, IsField, IsKeptScan, NamesAbsentField;
    if f.pointer.field == SSH_FIELD {
      ReportedScanIsKept(turns, f);
    }
  }

  lemma AbsentIsNotPresent(turns: seq<Turn>, f: Finding)
    requires AbsentAt(turns, f)
    ensures !NamesPresentField(f.pointer, turns)
  {
    FieldIsKey(SSH_DIRECTORIES, turns[f.pointer.turn.value - 1].observation.value);
  }
}
