/** Choosing and ordering findings (core_engine/src/lib.rs, `deduplicate_findings`, `sort_findings`,
    `max_severity`). */
module FindingSelection {
  import opened Wrappers
  import opened Findings

  function Authority(tool: Option<string>): nat {
    match tool
    case None => 0
    case Some(name) =>
      if name == "correlate_process_network" || name == "audit_account_changes" then 3
      else if name == "inspect_persistence_locations" then 2
      else if name == "scan_network" || name == "check_privilege_escalation_vectors" then 1
      else 0
  }

  /** Never deduplicated. */
  predicate Exempt(f: Finding) {
    f.pointer.field == FINAL_ANSWER || f.pointer.field == ERROR_FIELD
  }

  predicate Beats(a: Finding, b: Finding) {
    || Authority(a.pointer.tool) > Authority(b.pointer.tool)
    || (Authority(a.pointer.tool) == Authority(b.pointer.tool) && a.confidence > b.confidence)
  }

  predicate SameField(a: Finding, b: Finding) {
    a.pointer.field == b.pointer.field
  }

  /** The place of the finding that has the field of `f`. */
  function Holder(kept: seq<Finding>, f: Finding): (r: Option<nat>)
    ensures r.Some? ==> r.value < |kept| && SameField(kept[r.value], f)
    ensures r.Some? ==> forall i :: 0 <= i < r.value ==> !SameField(kept[i], f)
    ensures r.None? ==> forall i :: 0 <= i < |kept| ==> !SameField(kept[i], f)
  {
    if kept == [] then None
    else if SameField(kept[0], f) then Some(0)
    else
      match Holder(kept[1..], f)
      case Some(i) => Some(i + 1)
      case None => None
  }

  /** What one more finding does to those kept so far. */
  function Kept(kept: seq<Finding>, f: Finding): seq<Finding> {
    if Exempt(f) || Holder(kept, f).None? then kept + [f]
    else
      var i := Holder(kept, f).value;
      if Beats(f, kept[i]) then kept[i := f] else kept
  }

  function KeptAll(kept: seq<Finding>, findings: seq<Finding>): seq<Finding>
    decreases |findings|
  {
    if findings == [] then kept
    else Kept(KeptAll(kept, findings[..|findings| - 1]), findings[|findings| - 1])
  }

  function Deduplicated(findings: seq<Finding>): seq<Finding> {
    KeptAll([], findings)
  }

  function FieldsOf(findings: seq<Finding>): set<string> {
    set f | f in findings && !Exempt(f) :: f.pointer.field
  }

  /** Overwrites in place the finding whose field is met again with a better one. */
  method DeduplicateFindings(findings: seq<Finding>) returns (deduped: seq<Finding>)
    ensures deduped == Deduplicated(findings)
  {
    deduped := [];
    var seen: set<string> := {};
    for n := 0 to |findings|
      invariant deduped == Deduplicated(findings[..n])
      invariant seen == FieldsOf(deduped)
    {
      var finding := findings[n];
      assert findings[..n + 1][..n] == findings[..n];
      ghost var before := deduped;
      if Exempt(finding) {
        deduped := deduped + [finding];
      } else if finding.pointer.field in seen {
        var i := 0;
        while i < |deduped| && !SameField(deduped[i], finding)
          invariant 0 <= i <= |deduped|
          invariant forall j :: 0 <= j < i ==> !SameField(deduped[j], finding)
        {
          i := i + 1;
        }
        if i < |deduped| && Beats(finding, deduped[i]) {
          deduped := deduped[i := finding];
        }
      } else {
        seen := seen + {finding.pointer.field};
        deduped := deduped + [finding];
      }
      FieldsAfter(before, finding);
    }
    assert findings[..|findings|] == findings;
  }

  lemma FieldsAfter(kept: seq<Finding>, f: Finding)
    ensures FieldsOf(Kept(kept, f)) == FieldsOf(kept) + (if Exempt(f) then {} else {f.pointer.field})
  {
    var after := Kept(kept, f);
    if Exempt(f) || Holder(kept, f).None? {
      assert forall g :: g in after <==> g in kept || g == f;
    } else {
      var i := Holder(kept, f).value;
      assert forall j :: 0 <= j < |kept| ==> SameField(after[j], kept[j]) && (Exempt(after[j]) <==> Exempt(kept[j]));
      forall name | name in FieldsOf(kept) ensures name in FieldsOf(after) {
        var j :| 0 <= j < |kept| && !Exempt(kept[j]) && kept[j].pointer.field == name;
        assert after[j] in after;
      }
      forall name | name in FieldsOf(after) ensures name in FieldsOf(kept) {
        var j :| 0 <= j < |after| && !Exempt(after[j]) && after[j].pointer.field == name;
        assert kept[j] in kept;
      }
      assert kept[i] in kept;
    }
  }

  // ---- which findings are kept, and where ----

  /** Exempt, or the first with its field. */
  predicate Opens(findings: seq<Finding>, i: nat)
    requires i < |findings|
  {
    Exempt(findings[i]) || forall j :: 0 <= j < i ==> !SameField(findings[j], findings[i])
  }

  /** The places that open, in order. */
  function Openings(findings: seq<Finding>): (places: seq<nat>)
    ensures forall p :: 0 <= p < |places| ==> places[p] < |findings| && Opens(findings, places[p])
  {
    if findings == [] then []
    else
      var n := |findings| - 1;
      assert forall i :: 0 <= i < n ==> Opens(findings, i) == Opens(findings[..n], i);
      Openings(findings[..n]) + if Opens(findings, n) then [n] else []
  }

  lemma OpensInFront(findings: seq<Finding>, n: nat, i: nat)
    requires i < n <= |findings|
    ensures Opens(findings[..n], i) == Opens(findings, i)
  {
    hide Exempt;
  }

  lemma {:induction false} OpeningsAscend(findings: seq<Finding>)
    ensures forall p, q :: 0 <= p < q < |Openings(findings)| ==> Openings(findings)[p] < Openings(findings)[q]
  {
    hide Opens;
    if findings != [] {
      OpeningsAscend(findings[..|findings| - 1]);
    }
  }

  lemma {:induction false} OpeningIsListed(findings: seq<Finding>, i: nat)
    requires i < |findings| && Opens(findings, i)
    ensures i in Openings(findings)
  {
    var n := |findings| - 1;
    if i < n {
      OpensInFront(findings, n, i);
      hide Opens;
      OpeningIsListed(findings[..n], i);
    }
  }

  lemma OpeningsExactly(findings: seq<Finding>)
    ensures var places := Openings(findings);
            && (forall p, q :: 0 <= p < q < |places| ==> places[p] < places[q])
            && (forall i :: 0 <= i < |findings| && Opens(findings, i) ==> i in places)
  {
    hide Opens, Openings;
    OpeningsAscend(findings);
    forall i | 0 <= i < |findings| && Opens(findings, i) ensures i in Openings(findings) {
      OpeningIsListed(findings, i);
    }
  }

  /** The finding at `k` is the best with its field, and the first of the best. */
  ghost predicate IsChampion(findings: seq<Finding>, k: nat) {
    && k < |findings|
    && forall j :: 0 <= j < |findings| && SameField(findings[j], findings[k]) ==>
         !Beats(findings[j], findings[k]) && (j < k ==> Beats(findings[k], findings[j]))
  }

  /** What stands at a place that opened with `findings[i]`. */
  ghost predicate Stands(findings: seq<Finding>, i: nat, f: Finding)
    requires i < |findings|
  {
    if Exempt(findings[i]) then f == findings[i]
    else exists k: nat :: IsChampion(findings, k) && SameField(findings[k], findings[i]) && f == findings[k]
  }

  ghost predicate IsSelection(findings: seq<Finding>, kept: seq<Finding>) {
    var places := Openings(findings);
    |kept| == |places| && forall p :: 0 <= p < |kept| ==> Stands(findings, places[p], kept[p])
  }

  lemma ChampionKept(before: seq<Finding>, f: Finding, k: nat)
    requires IsChampion(before, k) && (SameField(f, before[k]) ==> !Beats(f, before[k]))
    ensures IsChampion(before + [f], k)
  {
  }

  lemma ChampionReplaced(before: seq<Finding>, f: Finding, k: nat)
    requires IsChampion(before, k) && SameField(f, before[k]) && Beats(f, before[k])
    ensures IsChampion(before + [f], |before|)
  {
  }

  lemma StandsUnless(before: seq<Finding>, f: Finding, i: nat, g: Finding)
    requires i < |before| && Stands(before, i, g) && (!SameField(f, before[i]) || Exempt(f))
    ensures Stands(before + [f], i, g)
  {
    if !Exempt(before[i]) {
      var k: nat :| IsChampion(before, k) && SameField(before[k], before[i]) && g == before[k];
      ChampionKept(before, f, k);
    }
  }

  lemma SelectionFields(before: seq<Finding>, kept: seq<Finding>, p: nat)
    requires IsSelection(before, kept) && p < |kept|
    ensures SameField(kept[p], before[Openings(before)[p]])
  {
    hide Beats;
    assert Stands(before, Openings(before)[p], kept[p]);
  }

  /** A field of the input has its holder among the kept, and no other. */
  lemma HolderOpens(before: seq<Finding>, kept: seq<Finding>, f: Finding)
    requires IsSelection(before, kept) && !Exempt(f)
    ensures Holder(kept, f).Some? <==> exists j :: 0 <= j < |before| && SameField(before[j], f)
    ensures Holder(kept, f).Some? ==>
      forall p :: 0 <= p < |kept| && p != Holder(kept, f).value ==> !SameField(before[Openings(before)[p]], f)
  {
    hide Stands, Openings, Holder;
    var places := Openings(before);
    OpeningsExactly(before);
    forall p | 0 <= p < |kept| ensures SameField(kept[p], before[places[p]]) {
      SelectionFields(before, kept, p);
    }
    if j :| 0 <= j < |before| && SameField(before[j], f) {
      var first := FirstWith(before, f, j);
      assert first in places;
    }
    forall p, q | 0 <= p < q < |kept| ensures !(SameField(before[places[p]], f) && SameField(before[places[q]], f)) {
      assert Opens(before, places[q]);
    }
  }

  lemma {:induction false} FirstWith(findings: seq<Finding>, f: Finding, j: nat) returns (first: nat)
    requires j < |findings| && SameField(findings[j], f)
    ensures first < |findings| && SameField(findings[first], f) && Opens(findings, first)
    decreases j
  {
    if i :| 0 <= i < j && SameField(findings[i], f) {
      first := FirstWith(findings, f, i);
    } else {
      first := j;
    }
  }

  lemma OpensLast(before: seq<Finding>, f: Finding)
    ensures Opens(before + [f], |before|) <==> Exempt(f) || forall j :: 0 <= j < |before| ==> !SameField(before[j], f)
  {
    hide Exempt;
    var after := before + [f];
    assert forall j :: 0 <= j < |before| ==> after[j] == before[j];
  }

  lemma OpeningsGrow(before: seq<Finding>, f: Finding)
    ensures Openings(before + [f]) == Openings(before) + if Opens(before + [f], |before|) then [|before|] else []
  {
    hide Opens;
    assert (before + [f])[..|before|] == before;
  }

  lemma SelectionAppends(before: seq<Finding>, kept: seq<Finding>, f: Finding)
    requires IsSelection(before, kept)
    requires Exempt(f) || forall j :: 0 <= j < |before| ==> !SameField(before[j], f)
    ensures IsSelection(before + [f], kept + [f])
  {
    hide Openings, Authority;
    var after, places := before + [f], Openings(before);
    OpeningsGrow(before, f);
    OpensLast(before, f);
    if !Exempt(f) {
      assert !Beats(f, f) && IsChampion(after, |before|);
    }
    assert Stands(after, |before|, f);
    hide Stands, IsChampion, Beats;
    forall p | 0 <= p < |kept| ensures Stands(after, places[p], kept[p]) {
      StandsUnless(before, f, places[p], kept[p]);
    }
  }

  lemma HolderStands(before: seq<Finding>, f: Finding, i: nat, held: Finding)
    requires i < |before| && Stands(before, i, held) && SameField(before[i], f) && !Exempt(f)
    ensures Stands(before + [f], i, if Beats(f, held) then f else held)
  {
    var k: nat :| IsChampion(before, k) && SameField(before[k], before[i]) && held == before[k];
    if Beats(f, held) {
      ChampionReplaced(before, f, k);
    } else {
      ChampionKept(before, f, k);
    }
  }

  lemma SelectionHolds(before: seq<Finding>, kept: seq<Finding>, f: Finding)
    requires IsSelection(before, kept) && !Exempt(f) && Holder(kept, f).Some?
    ensures IsSelection(before + [f], Kept(kept, f))
  {
    var after, places, i := before + [f], Openings(before), Holder(kept, f).value;
    HolderOpens(before, kept, f);
    SelectionFields(before, kept, i);
    OpeningsGrow(before, f);
    OpensLast(before, f);
    hide Openings, Beats, Stands, Holder;
    HolderStands(before, f, places[i], kept[i]);
    forall p | 0 <= p < |kept| && p != i ensures Stands(after, places[p], kept[p]) {
      StandsUnless(before, f, places[p], kept[p]);
    }
  }

  lemma SelectionGrows(before: seq<Finding>, kept: seq<Finding>, f: Finding)
    requires IsSelection(before, kept)
    ensures IsSelection(before + [f], Kept(kept, f))
  {
    hide IsSelection;
    if !Exempt(f) {
      HolderOpens(before, kept, f);
    }
    if Exempt(f) || Holder(kept, f).None? {
      SelectionAppends(before, kept, f);
    } else {
      SelectionHolds(before, kept, f);
    }
  }

  /** Exempt findings stay; of the others each field keeps its best finding, the earliest of the
      best, at the place where the field first occurs. */
  lemma {:induction false} DeduplicatedIsSelection(findings: seq<Finding>)
    ensures IsSelection(findings, Deduplicated(findings))
  {
    if findings != [] {
      var n := |findings| - 1;
      DeduplicatedIsSelection(findings[..n]);
      SelectionGrows(findings[..n], Deduplicated(findings[..n]), findings[n]);
      assert findings == findings[..n] + [findings[n]];
    }
  }

  /** There is only one champion per field, so a selection is determined by the input. */
  lemma SelectionIsUnique(findings: seq<Finding>, a: seq<Finding>, b: seq<Finding>)
    requires IsSelection(findings, a) && IsSelection(findings, b)
    ensures a == b
  {
    var places := Openings(findings);
    forall p | 0 <= p < |places| ensures a[p] == b[p] {
      assert Stands(findings, places[p], a[p]) && Stands(findings, places[p], b[p]);
      if !Exempt(findings[places[p]]) {
        var j: nat :| IsChampion(findings, j) && SameField(findings[j], findings[places[p]]) && a[p] == findings[j];
        var k: nat :| IsChampion(findings, k) && SameField(findings[k], findings[places[p]]) && b[p] == findings[k];
        assert j == k;
      }
    }
  }

  // ---- deduplicating twice ----

  lemma {:induction false} KeptAllOfTwo(kept: seq<Finding>, a: seq<Finding>, b: seq<Finding>)
    ensures KeptAll(kept, a + b) == KeptAll(KeptAll(kept, a), b)
    decreases |b|
  {
    if b == [] {
      assert a + b == a;
    } else {
      var n := |b| - 1;
      assert (a + b)[..|a + b| - 1] == a + b[..n];
      KeptAllOfTwo(kept, a, b[..n]);
    }
  }

  ghost predicate DistinctFields(findings: seq<Finding>) {
    forall i, j :: 0 <= i < j < |findings| && !Exempt(findings[j]) ==> !SameField(findings[i], findings[j])
  }

  lemma {:induction false} DistinctFieldsStay(findings: seq<Finding>)
    requires DistinctFields(findings)
    ensures Deduplicated(findings) == findings
  {
    if findings != [] {
      var n := |findings| - 1;
      DistinctFieldsStay(findings[..n]);
      assert findings == findings[..n] + [findings[n]];
    }
  }

  lemma DeduplicatedIsDistinct(findings: seq<Finding>)
    ensures DistinctFields(Deduplicated(findings))
  {
    DeduplicatedIsSelection(findings);
    OpeningsExactly(findings);
    var kept, places := Deduplicated(findings), Openings(findings);
    assert forall p :: 0 <= p < |kept| ==> Stands(findings, places[p], kept[p]);
    assert forall p :: 0 <= p < |kept| ==> SameField(kept[p], findings[places[p]]);
  }

  lemma DeduplicatingTwice(findings: seq<Finding>)
    ensures Deduplicated(Deduplicated(findings)) == Deduplicated(findings)
  {
    DeduplicatedIsDistinct(findings);
    DistinctFieldsStay(Deduplicated(findings));
  }

  /** Findings may be deduplicated as they arrive. */
  lemma DeduplicatingInTwoSteps(a: seq<Finding>, b: seq<Finding>)
    ensures Deduplicated(a + b) == Deduplicated(Deduplicated(a) + b)
  {
    KeptAllOfTwo([], a, b);
    KeptAllOfTwo([], Deduplicated(a), b);
    DeduplicatingTwice(a);
  }

  // ---- exempt findings ----

  function ExemptOf(findings: seq<Finding>): seq<Finding> {
    if findings == [] then []
    else ExemptOf(findings[..|findings| - 1])
         + if Exempt(findings[|findings| - 1]) then [findings[|findings| - 1]] else []
  }

  lemma {:induction false} ExemptOfTwo(a: seq<Finding>, b: seq<Finding>)
    ensures ExemptOf(a + b) == ExemptOf(a) + ExemptOf(b)
    decreases |b|
  {
    if b == [] {
      assert a + b == a;
    } else {
      assert (a + b)[..|a + b| - 1] == a + b[..|b| - 1];
      ExemptOfTwo(a, b[..|b| - 1]);
    }
  }

  lemma {:induction false} ExemptOfReplaced(kept: seq<Finding>, i: nat, f: Finding)
    requires i < |kept| && !Exempt(kept[i]) && !Exempt(f)
    ensures ExemptOf(kept[i := f]) == ExemptOf(kept)
  {
    var n := |kept| - 1;
    if i < n {
      assert kept[i := f][..n] == kept[..n][i := f];
      ExemptOfReplaced(kept[..n], i, f);
    } else {
      assert kept[i := f][..n] == kept[..n];
    }
  }

  /** No exempt finding is lost, doubled or reordered. */
  lemma {:induction false} ExemptFindingsStay(findings: seq<Finding>)
    ensures ExemptOf(Deduplicated(findings)) == ExemptOf(findings)
  {
    if findings != [] {
      var n := |findings| - 1;
      var kept, f := Deduplicated(findings[..n]), findings[n];
      ExemptFindingsStay(findings[..n]);
      ExemptOfTwo(kept, [f]);
      assert [f][..0] == [];
      if !Exempt(f) && Holder(kept, f).Some? && Beats(f, kept[Holder(kept, f).value]) {
        ExemptOfReplaced(kept, Holder(kept, f).value, f);
      }
    }
  }
}
