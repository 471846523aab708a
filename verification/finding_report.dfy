/** The findings of a report (core_engine/src/agent.rs, `Agent::run`): derived, deduplicated, sorted
    and tagged. */
module FindingReport {
  import opened Wrappers
  import opened Findings
  import opened FindingSelection

  // ---- stable sorting ----

  function Level(s: Severity): nat {
    match s
    case Info => 0
    case Low => 1
    case Medium => 2
    case High => 3
    case Critical => 4
  }

  /** Severity first, then confidence. */
  predicate Outranks(a: Finding, b: Finding) {
    Level(a.severity) > Level(b.severity) || (a.severity == b.severity && a.confidence > b.confidence)
  }

  function Inserted(sorted: seq<Finding>, f: Finding): seq<Finding>
    decreases |sorted|
  {
    if sorted == [] || !Outranks(f, sorted[|sorted| - 1]) then sorted + [f]
    else Inserted(sorted[..|sorted| - 1], f) + [sorted[|sorted| - 1]]
  }

  /** What a stable sort makes of the findings; `StableSortIsUnique` shows that any does. */
  function Sorted(findings: seq<Finding>): seq<Finding> {
    if findings == [] then []
    else Inserted(Sorted(findings[..|findings| - 1]), findings[|findings| - 1])
  }

  predicate IsSorted(findings: seq<Finding>) {
    forall i, j :: 0 <= i < j < |findings| ==> !Outranks(findings[j], findings[i])
  }

  function OfRank(findings: seq<Finding>, severity: Severity, confidence: nat): seq<Finding> {
    if findings == [] then []
    else
      var f := findings[|findings| - 1];
      OfRank(findings[..|findings| - 1], severity, confidence)
      + if f.severity == severity && f.confidence == confidence then [f] else []
  }

  /** Findings of equal rank keep their order. */
  ghost predicate IsStableSort(findings: seq<Finding>, sorted: seq<Finding>) {
    IsSorted(sorted) && SameRanks(sorted, findings)
  }

  lemma {:induction false} InsertedMembers(sorted: seq<Finding>, f: Finding)
    ensures multiset(Inserted(sorted, f)) == multiset(sorted) + multiset{f}
    decreases |sorted|
  {
    if sorted != [] {
      var n := |sorted| - 1;
      assert sorted == sorted[..n] + [sorted[n]];
      if Outranks(f, sorted[n]) {
        InsertedMembers(sorted[..n], f);
      }
    }
  }

  lemma {:induction false} InsertedElements(sorted: seq<Finding>, f: Finding)
    ensures forall g | g in Inserted(sorted, f) :: g == f || g in sorted
    decreases |sorted|
  {
    hide Outranks;
    if sorted != [] {
      InsertedElements(sorted[..|sorted| - 1], f);
    }
  }

  lemma RanksAreOrdered(a: Finding, b: Finding, c: Finding)
    ensures Outranks(a, b) ==> !Outranks(b, a)
    ensures !Outranks(a, b) && !Outranks(b, c) ==> !Outranks(a, c)
  {
  }

  lemma {:induction false} InsertedIsSorted(sorted: seq<Finding>, f: Finding)
    requires IsSorted(sorted)
    ensures IsSorted(Inserted(sorted, f))
    decreases |sorted|
  {
    hide Outranks, Level;
    if sorted != [] {
      var n := |sorted| - 1;
      var front, last := sorted[..n], sorted[n];
      if Outranks(f, last) {
        var rest := Inserted(front, f);
        InsertedIsSorted(front, f);
        InsertedElements(front, f);
        RanksAreOrdered(f, last, last);
        forall i | 0 <= i < |rest| ensures !Outranks(last, rest[i]) {
          assert rest[i] in rest;
        }
      } else {
        forall i | 0 <= i < n ensures !Outranks(f, sorted[i]) {
          RanksAreOrdered(f, last, sorted[i]);
        }
      }
    }
  }

  lemma OfRankSnoc(findings: seq<Finding>, f: Finding, severity: Severity, confidence: nat)
    ensures OfRank(findings + [f], severity, confidence)
         == OfRank(findings, severity, confidence) + if f.severity == severity && f.confidence == confidence then [f] else []
  {
    assert (findings + [f])[..|findings|] == findings;
  }

  lemma {:induction false} InsertedOfRank(sorted: seq<Finding>, f: Finding, severity: Severity, confidence: nat)
    ensures OfRank(Inserted(sorted, f), severity, confidence)
         == OfRank(sorted, severity, confidence) + if f.severity == severity && f.confidence == confidence then [f] else []
    decreases |sorted|
  {
    hide OfRank;
    if sorted == [] || !Outranks(f, sorted[|sorted| - 1]) {
      OfRankSnoc(sorted, f, severity, confidence);
    } else {
      var n := |sorted| - 1;
      InsertedOfRank(sorted[..n], f, severity, confidence);
      OfRankSnoc(sorted[..n], sorted[n], severity, confidence);
      OfRankSnoc(Inserted(sorted[..n], f), sorted[n], severity, confidence);
      assert sorted == sorted[..n] + [sorted[n]];
    }
  }

  lemma {:induction false} SortedIsStableSort(findings: seq<Finding>)
    ensures IsStableSort(findings, Sorted(findings)) && multiset(Sorted(findings)) == multiset(findings)
  {
    if findings != [] {
      var n := |findings| - 1;
      SortedIsStableSort(findings[..n]);
      InsertedIsSorted(Sorted(findings[..n]), findings[n]);
      InsertedMembers(Sorted(findings[..n]), findings[n]);
      forall severity, confidence ensures OfRank(Sorted(findings), severity, confidence) == OfRank(findings, severity, confidence) {
        InsertedOfRank(Sorted(findings[..n]), findings[n], severity, confidence);
      }
      assert findings == findings[..n] + [findings[n]];
    }
  }

  lemma {:induction false} OfRankMembers(findings: seq<Finding>, severity: Severity, confidence: nat)
    ensures forall f :: f in OfRank(findings, severity, confidence)
              <==> f in findings && f.severity == severity && f.confidence == confidence
  {
    if findings != [] {
      var n := |findings| - 1;
      OfRankMembers(findings[..n], severity, confidence);
      assert findings == findings[..n] + [findings[n]];
    }
  }

  ghost predicate SameRanks(a: seq<Finding>, b: seq<Finding>) {
    forall severity, confidence :: OfRank(a, severity, confidence) == OfRank(b, severity, confidence)
  }

  lemma SameMembers(a: seq<Finding>, b: seq<Finding>, f: Finding)
    requires SameRanks(a, b) && f in a
    ensures f in b
  {
    OfRankMembers(a, f.severity, f.confidence);
    OfRankMembers(b, f.severity, f.confidence);
  }

  lemma LastRanksNoLower(a: seq<Finding>, b: seq<Finding>)
    requires IsSorted(b) && SameRanks(a, b) && a != [] && b != []
    ensures !Outranks(b[|b| - 1], a[|a| - 1])
  {
    hide SameRanks;
    SameMembers(a, b, a[|a| - 1]);
    var i :| 0 <= i < |b| && b[i] == a[|a| - 1];
  }

  lemma SameRank(x: Finding, y: Finding)
    requires !Outranks(x, y) && !Outranks(y, x)
    ensures x.severity == y.severity && x.confidence == y.confidence
  {
  }

  lemma SameRanksSnoc(a: seq<Finding>, x: Finding, b: seq<Finding>, y: Finding, severity: Severity, confidence: nat)
    requires SameRanks(a + [x], b + [y]) && x.severity == y.severity && x.confidence == y.confidence
    ensures OfRank(a, severity, confidence) == OfRank(b, severity, confidence)
    ensures x.severity == severity && x.confidence == confidence ==> x == y
  {
    hide OfRank, SameRanks;
    SameRanksAt(a + [x], b + [y], severity, confidence);
    OfRankSnoc(a, x, severity, confidence);
    OfRankSnoc(b, y, severity, confidence);
    if x.severity == severity && x.confidence == confidence {
      SameSnoc(OfRank(a, severity, confidence), x, OfRank(b, severity, confidence), y);
    } else {
      assert OfRank(a, severity, confidence) + [] == OfRank(a, severity, confidence);
      assert OfRank(b, severity, confidence) + [] == OfRank(b, severity, confidence);
    }
  }

  lemma SameRanksAt(a: seq<Finding>, b: seq<Finding>, severity: Severity, confidence: nat)
    requires SameRanks(a, b)
    ensures OfRank(a, severity, confidence) == OfRank(b, severity, confidence)
  {
    hide OfRank;
  }

  lemma SameSnoc(p: seq<Finding>, x: Finding, q: seq<Finding>, y: Finding)
    requires p + [x] == q + [y]
    ensures p == q && x == y
  {
    assert p == (p + [x])[..|p + [x]| - 1] && q == (q + [y])[..|q + [y]| - 1];
    assert x == (p + [x])[|p + [x]| - 1] && y == (q + [y])[|q + [y]| - 1];
  }

  /** A stable sort has only one result. */
  lemma {:induction false} StableSortIsUnique(a: seq<Finding>, b: seq<Finding>)
    requires IsSorted(a) && IsSorted(b) && SameRanks(a, b)
    ensures a == b
    decreases |a|
  {
    hide SameRanks, Outranks;
    if a == [] || b == [] {
      if a != [] {
        SameMembers(a, b, a[0]);
      }
      if b != [] {
        SameRanksSymmetric(a, b);
        SameMembers(b, a, b[0]);
      }
    } else {
      var m, n := |a| - 1, |b| - 1;
      SameRanksSymmetric(a, b);
      LastRanksNoLower(a, b);
      LastRanksNoLower(b, a);
      SameRank(a[m], b[n]);
      assert a == a[..m] + [a[m]] && b == b[..n] + [b[n]];
      SameRanksSnoc(a[..m], a[m], b[..n], b[n], a[m].severity, a[m].confidence);
      FrontsSameRanks(a[..m], a[m], b[..n], b[n]);
      StableSortIsUnique(a[..m], b[..n]);
    }
  }

  lemma SameRanksSymmetric(a: seq<Finding>, b: seq<Finding>)
    requires SameRanks(a, b)
    ensures SameRanks(b, a)
  {
    hide OfRank;
  }

  lemma FrontsSameRanks(a: seq<Finding>, x: Finding, b: seq<Finding>, y: Finding)
    requires SameRanks(a + [x], b + [y]) && x.severity == y.severity && x.confidence == y.confidence
    ensures SameRanks(a, b)
  {
    forall s, c ensures OfRank(a, s, c) == OfRank(b, s, c) {
      SameRanksSnoc(a, x, b, y, s, c);
    }
  }

  // ---- maximum severity ----

  function MaxSeverity(findings: seq<Finding>): (r: Option<Severity>)
    ensures r.None? <==> findings == []
    ensures r.Some? ==> (forall f | f in findings :: Level(f.severity) <= Level(r.value))
                        && exists f :: f in findings && f.severity == r.value
  {
    if findings == [] then None
    else
      var n := |findings| - 1;
      var r := MaxSeverity(findings[..n]);
      assert findings == findings[..n] + [findings[n]];
      if r.Some? && Level(findings[n].severity) < Level(r.value) then r else Some(findings[n].severity)
  }

  // ---- the report ----

  function Report(turns: seq<Turn>): seq<Finding> {
    Sorted(Deduplicated(Derived(turns)))
  }

  function ToolsCalled(turns: seq<Turn>): set<string> {
    set t | t in turns && t.call.Some? :: t.call.value.tool
  }

  /** The source's sequence of passes. The last one finds nothing to tag. */
  method AssembleReport(turns: seq<Turn>) returns (findings: seq<Finding>, maxSeverity: Option<Severity>)
    ensures findings == Report(turns) && maxSeverity == Some(Report(turns)[0].severity)
  {
    findings := DeriveFindings(turns);
    findings := DeduplicateFindings(findings);
    findings := Sorted(findings);
    ghost var before := findings;
    var primary := ToolsCalled(turns);
    ReportIsPrimary(turns);
    for i := 0 to |findings|
      invariant findings == before
    {
      var tool := findings[i].pointer.tool;
      if tool.Some? && tool.value !in primary {
        findings := findings[i := findings[i].(relevance := Supplementary)];
      }
    }
    maxSeverity := MaxSeverity(findings);
    ReportIsNotEmpty(turns);
  }

  // ---- what the passes keep ----

  /** Deduplicating and sorting drop findings but make none up. */
  lemma ReportMembers(turns: seq<Turn>)
    ensures forall f | f in Report(turns) :: f in Derived(turns)
  {
    var derived := Derived(turns);
    var kept := Deduplicated(derived);
    DeduplicatedIsSelection(derived);
    SortedIsStableSort(kept);
    forall f | f in Report(turns) ensures f in derived {
      assert f in multiset(kept);
      var p :| 0 <= p < |kept| && kept[p] == f;
      assert Stands(derived, Openings(derived)[p], kept[p]);
    }
  }

  lemma DeduplicatedIsNotEmpty(findings: seq<Finding>)
    requires findings != []
    ensures Deduplicated(findings) != []
  {
    DeduplicatedIsSelection(findings);
    OpeningsExactly(findings);
    assert Opens(findings, 0);
  }

  lemma ReportIsNotEmpty(turns: seq<Turn>)
    ensures Report(turns) != [] && MaxSeverity(Report(turns)) == Some(Report(turns)[0].severity)
  {
    hide Deduplicated, Derived, Sorted, MaxSeverity, OfRank;
    var report := Report(turns);
    DeduplicatedIsNotEmpty(Derived(turns));
    SortedIsStableSort(Deduplicated(Derived(turns)));
    assert |report| == |multiset(report)|;
    SortedHead(report);
  }

  lemma SortedHead(findings: seq<Finding>)
    requires findings != [] && IsSorted(findings)
    ensures MaxSeverity(findings) == Some(findings[0].severity)
  {
    hide MaxSeverity;
    assert findings[0] in findings;
    forall f | f in findings ensures Level(f.severity) <= Level(findings[0].severity) {
      var i :| 0 <= i < |findings| && findings[i] == f;
    }
  }

  lemma SoleFindingStays(f: Finding)
    ensures Sorted(Deduplicated([f])) == [f]
  {
    assert [f][..0] == [];
    assert KeptAll([], [f]) == Kept(KeptAll([], []), f) == [f];
    assert Sorted([f]) == Inserted(Sorted([]), f) == [f];
  }

  /** Every finding of a report points to a turn of the run, its tool and its observation; or the
      report is just the finding that nothing was found. */
  lemma ReportPointersResolve(turns: seq<Turn>)
    ensures (forall f | f in Report(turns) :: Resolves(f.pointer, turns)) || Report(turns) == [NOTHING_FOUND]
  {
    hide Derived, Resolves;
    DerivedResolve(turns);
    ReportMembers(turns);
    SoleFindingStays(NOTHING_FOUND);
  }

  lemma ReportIsPrimary(turns: seq<Turn>)
    ensures forall f | f in Report(turns) ::
      f.relevance == Primary && IsLabelled(f) && (f.pointer.tool.Some? ==> f.pointer.tool.value in ToolsCalled(turns))
  {
    ReportPointersResolve(turns);
    ReportMembers(turns);
    DerivedResolve(turns);
    forall f | f in Report(turns) && f.pointer.tool.Some? ensures f.pointer.tool.value in ToolsCalled(turns) {
      assert turns[f.pointer.turn.value - 1] in turns;
    }
  }

  // ---- failed calls ----

  predicate IsFailure(f: Finding) {
    f.pointer.field == ERROR_FIELD
  }

  function Failures(findings: seq<Finding>): seq<Finding> {
    if findings == [] then []
    else Failures(findings[..|findings| - 1])
         + if IsFailure(findings[|findings| - 1]) then [findings[|findings| - 1]] else []
  }

  lemma {:induction false} FailuresOfTwo(a: seq<Finding>, b: seq<Finding>)
    ensures Failures(a + b) == Failures(a) + Failures(b)
    decreases |b|
  {
    if b == [] {
      assert a + b == a;
    } else {
      assert (a + b)[..|a + b| - 1] == a + b[..|b| - 1];
      FailuresOfTwo(a, b[..|b| - 1]);
    }
  }

  lemma FailuresSnoc(findings: seq<Finding>, f: Finding)
    ensures Failures(findings + [f]) == Failures(findings) + if IsFailure(f) then [f] else []
  {
    assert (findings + [f])[..|findings|] == findings;
  }

  /** One finding per failed call, in the order of the calls. */
  function FailedCalls(turns: seq<Turn>): seq<Finding> {
    if turns == [] then []
    else
      var n := |turns|;
      var failed := turns[n - 1].observation.Some? && ReportsError(turns[n - 1].observation.value);
      FailedCalls(turns[..n - 1]) + if failed then [FailedCall(SiteOf(turns, n))] else []
  }

  lemma {:induction false} NoFailures(findings: seq<Finding>)
    requires forall f | f in findings :: !IsFailure(f)
    ensures Failures(findings) == []
  {
    if findings != [] {
      NoFailures(findings[..|findings| - 1]);
    }
  }

  lemma {:induction false} CollectedFailures(turns: seq<Turn>)
    ensures Failures(Collected(turns)) == FailedCalls(turns)
  {
    if turns != [] {
      var n := |turns|;
      CollectedFailures(turns[..n - 1]);
      FailuresOfTwo(Collected(turns[..n - 1]), TurnFindings(turns[n - 1], n));
      hide Collected, Failures;
      TurnFailures(turns);
    }
  }

  lemma TurnFailures(turns: seq<Turn>)
    requires turns != []
    ensures var n := |turns|;
            var failed := turns[n - 1].observation.Some? && ReportsError(turns[n - 1].observation.value);
            Failures(TurnFindings(turns[n - 1], n)) == if failed then [FailedCall(SiteOf(turns, n))] else []
  {
    var n := |turns|;
    var t := turns[n - 1];
    if t.observation.Some? {
      SiteStemsFrom(SiteOf(turns, n));
      if ReportsError(t.observation.value) {
        FailuresSnoc([], FailedCall(SiteOf(turns, n)));
      } else {
        hide SiteFindings, ResolvesAt, FailedCall;
        NoFailures(TurnFindings(t, n));
      }
    }
  }

  lemma {:induction false} FailuresMembers(findings: seq<Finding>)
    ensures forall f :: f in Failures(findings) <==> f in findings && IsFailure(f)
  {
    if findings != [] {
      var n := |findings| - 1;
      FailuresMembers(findings[..n]);
      assert findings == findings[..n] + [findings[n]];
    }
  }

  /** As the source makes them for failed calls. */
  ghost predicate AreUniform(failures: seq<Finding>) {
    forall f | f in failures && IsFailure(f) :: f.severity == High && f.confidence == 95 && f.confidenceLabel == LabelFor(95)
  }

  lemma {:induction false} FailedCallsAreUniform(turns: seq<Turn>)
    ensures AreUniform(FailedCalls(turns))
  {
    if turns != [] {
      FailedCallsAreUniform(turns[..|turns| - 1]);
    }
  }

  lemma {:induction false} AdjustedFailures(findings: seq<Finding>, bonus: nat)
    requires AreUniform(findings)
    ensures Failures(AdjustAll(findings, bonus)) == Failures(findings)
  {
    if findings != [] {
      var n := |findings| - 1;
      assert AdjustAll(findings, bonus)[..n] == AdjustAll(findings[..n], bonus);
      AdjustedFailures(findings[..n], bonus);
    }
  }

  /** Exempt findings are failures and the finding that nothing was found. */
  lemma {:induction false} FailuresOfExempt(findings: seq<Finding>)
    ensures Failures(ExemptOf(findings)) == Failures(findings)
  {
    if findings != [] {
      var n := |findings| - 1;
      FailuresOfExempt(findings[..n]);
      if Exempt(findings[n]) {
        FailuresSnoc(ExemptOf(findings[..n]), findings[n]);
      } else {
        assert ExemptOf(findings) == ExemptOf(findings[..n]);
      }
    }
  }

  lemma {:induction false} FailuresOfRank(findings: seq<Finding>)
    requires AreUniform(findings)
    ensures Failures(OfRank(findings, High, 95)) == Failures(findings)
  {
    if findings != [] {
      var n := |findings| - 1;
      var f := findings[n];
      FailuresOfRank(findings[..n]);
      if f.severity == High && f.confidence == 95 {
        FailuresSnoc(OfRank(findings[..n], High, 95), f);
      } else {
        assert OfRank(findings, High, 95) == OfRank(findings[..n], High, 95);
      }
    }
  }

  lemma SortedFailures(findings: seq<Finding>)
    requires AreUniform(findings)
    ensures Failures(Sorted(findings)) == Failures(findings)
  {
    SortedIsStableSort(findings);
    assert forall f :: f in Sorted(findings) <==> f in multiset(Sorted(findings));
    hide Failures, OfRank, Sorted, SameRanks, IsSorted;
    SameRanksAt(Sorted(findings), findings, High, 95);
    FailuresOfRank(findings);
    FailuresOfRank(Sorted(findings));
  }

  lemma DeduplicatedFailures(findings: seq<Finding>)
    ensures Failures(Deduplicated(findings)) == Failures(findings)
  {
    ExemptFindingsStay(findings);
    FailuresOfExempt(findings);
    FailuresOfExempt(Deduplicated(findings));
  }

  /** Every failed call is reported, once and in the order of the calls. */
  lemma FailedCallsAreReported(turns: seq<Turn>)
    ensures Failures(Report(turns)) == FailedCalls(turns)
  {
    var collected, derived := OrFallback(Collected(turns)), Derived(turns);
    CollectedFailures(turns);
    FailuresSnoc([], NOTHING_FOUND);
    assert Failures(collected) == FailedCalls(turns);
    hide Failures, Collected, Deduplicated, Sorted, FailedCalls, AdjustAll, ToolsNamed, OrFallback;
    FailedCallsAreUniform(turns);
    FailuresMembers(collected);
    AdjustedFailures(collected, Bonus(|ToolsNamed(collected)|));
    DeduplicatedFailures(derived);
    FailuresMembers(Deduplicated(derived));
    SortedFailures(Deduplicated(derived));
  }
}
