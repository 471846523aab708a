/** Lists of strings compared without regard to ASCII case (cyber_tools/src/lib.rs,
    `sort_dedup_case_insensitive` and `normalize_lookup_value`). */
module CaseInsensitive {
  import opened Text

  // ---- the order of strings ----

  predicate AtMost(a: string, b: string) {
    a == "" || (b != "" && (a[0] < b[0] || (a[0] == b[0] && AtMost(a[1..], b[1..]))))
  }

  lemma {:induction false} AtMostTotal(a: string, b: string)
    ensures AtMost(a, b) || AtMost(b, a)
    ensures AtMost(a, b) && AtMost(b, a) ==> a == b
  {
    if a != "" && b != "" {
      AtMostTotal(a[1..], b[1..]);
      assert a == [a[0]] + a[1..] && b == [b[0]] + b[1..];
    }
  }

  lemma {:induction false} AtMostTransitive(a: string, b: string, c: string)
    requires AtMost(a, b) && AtMost(b, c)
    ensures AtMost(a, c)
  {
    if a != "" {
      if a[0] == b[0] == c[0] {
        AtMostTransitive(a[1..], b[1..], c[1..]);
      }
    }
  }

  // ---- sorting by the lower-case form ----

  function Inserted(sorted: seq<string>, value: string): seq<string>
    decreases |sorted|
  {
    if sorted == [] || AtMost(Lower(sorted[|sorted| - 1]), Lower(value)) then sorted + [value]
    else Inserted(sorted[..|sorted| - 1], value) + [sorted[|sorted| - 1]]
  }

  /** `sort_by_cached_key(to_ascii_lowercase)`, a stable sort. */
  function SortedByLower(values: seq<string>): seq<string> {
    if values == [] then []
    else Inserted(SortedByLower(values[..|values| - 1]), values[|values| - 1])
  }

  /** `dedup_by(eq_ignore_ascii_case)`: keeps the first of each run. */
  function Runs(sorted: seq<string>): seq<string> {
    if sorted == [] then [] else WithRun(Runs(sorted[..|sorted| - 1]), sorted[|sorted| - 1])
  }

  function SortedDistinct(values: seq<string>): seq<string> {
    Runs(SortedByLower(values))
  }

  method SortDedup(values: seq<string>) returns (r: seq<string>)
    ensures r == SortedDistinct(values)
  {
    var sorted := SortedByLower(values);
    r := [];
    for i := 0 to |sorted|
      invariant r == Runs(sorted[..i])
    {
      assert sorted[..i + 1][..i] == sorted[..i];
      if r == [] || Lower(r[|r| - 1]) != Lower(sorted[i]) {
        r := r + [sorted[i]];
      }
    }
    assert sorted[..|sorted|] == sorted;
  }

  // ---- what sorting and deduplicating give ----

  ghost predicate Ascending(values: seq<string>) {
    forall i, j :: 0 <= i < j < |values| ==> AtMost(Lower(values[i]), Lower(values[j]))
  }

  /** Ascending, and no two equal up to case. */
  ghost predicate StrictlyAscending(values: seq<string>) {
    Ascending(values) && forall i, j :: 0 <= i < j < |values| ==> Lower(values[i]) != Lower(values[j])
  }

  /** The first of the values that equal `value` up to case. */
  ghost predicate IsFirstOfCase(values: seq<string>, value: string) {
    exists k :: 0 <= k < |values| && values[k] == value && forall j :: 0 <= j < k ==> Lower(values[j]) != Lower(value)
  }

  lemma {:induction false} InsertedElements(sorted: seq<string>, value: string)
    ensures forall v :: v in Inserted(sorted, value) <==> v in sorted || v == value
    decreases |sorted|
  {
    if sorted != [] {
      var n := |sorted| - 1;
      InsertedElements(sorted[..n], value);
      assert sorted == sorted[..n] + [sorted[n]];
    }
  }

  lemma {:induction false} InsertedAscends(sorted: seq<string>, value: string)
    requires Ascending(sorted)
    ensures Ascending(Inserted(sorted, value))
    decreases |sorted|
  {
    if sorted == [] {
    } else {
      var n := |sorted| - 1;
      var last := sorted[n];
      if AtMost(Lower(last), Lower(value)) {
        forall i | 0 <= i < n ensures AtMost(Lower(sorted[i]), Lower(value)) {
          AtMostTransitive(Lower(sorted[i]), Lower(last), Lower(value));
        }
      } else {
        var rest := Inserted(sorted[..n], value);
        InsertedAscends(sorted[..n], value);
        InsertedElements(sorted[..n], value);
        AtMostTotal(Lower(last), Lower(value));
        forall i | 0 <= i < |rest| ensures AtMost(Lower(rest[i]), Lower(last)) {
          assert rest[i] in rest;
        }
      }
    }
  }

  /** The strings of one lower-case form, in order. */
  function OfCase(values: seq<string>, lower: string): seq<string> {
    if values == [] then []
    else OfCase(values[..|values| - 1], lower)
         + if Lower(values[|values| - 1]) == lower then [values[|values| - 1]] else []
  }

  lemma OfCaseSnoc(values: seq<string>, value: string, lower: string)
    ensures OfCase(values + [value], lower) == OfCase(values, lower) + if Lower(value) == lower then [value] else []
  {
    assert (values + [value])[..|values|] == values;
  }

  lemma {:induction false} InsertedOfCase(sorted: seq<string>, value: string, lower: string)
    ensures OfCase(Inserted(sorted, value), lower) == OfCase(sorted + [value], lower)
    decreases |sorted|
  {
    hide OfCase;
    if sorted != [] && !AtMost(Lower(sorted[|sorted| - 1]), Lower(value)) {
      var n := |sorted| - 1;
      var last := sorted[n];
      AtMostTotal(Lower(last), Lower(value));
      InsertedOfCase(sorted[..n], value, lower);
      assert sorted == sorted[..n] + [last];
      OfCaseSnoc(sorted[..n], last, lower);
      OfCaseSnoc(sorted[..n], value, lower);
      OfCaseSnoc(sorted, value, lower);
      OfCaseSnoc(Inserted(sorted[..n], value), last, lower);
    }
  }

  lemma {:induction false} SortedByLowerIsSorted(values: seq<string>)
    ensures Ascending(SortedByLower(values))
    ensures forall v :: v in SortedByLower(values) <==> v in values
    ensures forall lower :: OfCase(SortedByLower(values), lower) == OfCase(values, lower)
  {
    if values != [] {
      var n := |values| - 1;
      SortedByLowerIsSorted(values[..n]);
      var sorted := SortedByLower(values[..n]);
      InsertedAscends(sorted, values[n]);
      InsertedElements(sorted, values[n]);
      assert values == values[..n] + [values[n]];
      forall lower ensures OfCase(SortedByLower(values), lower) == OfCase(values, lower) {
        InsertedOfCase(sorted, values[n], lower);
        OfCaseSnoc(sorted, values[n], lower);
      }
    }
  }

  lemma {:induction false} OfCaseFirst(values: seq<string>, lower: string)
    ensures OfCase(values, lower) == [] <==> forall v | v in values :: Lower(v) != lower
    ensures OfCase(values, lower) != [] ==> Lower(OfCase(values, lower)[0]) == lower && IsFirstOfCase(values, OfCase(values, lower)[0])
  {
    if values != [] {
      var n := |values| - 1;
      OfCaseFirst(values[..n], lower);
      assert values == values[..n] + [values[n]];
      if OfCase(values[..n], lower) != [] {
        var v := OfCase(values, lower)[0];
        var k :| 0 <= k < n && values[..n][k] == v && forall j :: 0 <= j < k ==> Lower(values[..n][j]) != Lower(v);
        assert values[k] == v && forall j :: 0 <= j < k ==> Lower(values[j]) != Lower(v);
      }
    }
  }

  /** The first of its case. */
  ghost predicate IsHead(values: seq<string>, value: string) {
    OfCase(values, Lower(value)) != [] && OfCase(values, Lower(value))[0] == value
  }

  ghost predicate AreHeads(values: seq<string>, heads: seq<string>) {
    forall v | v in heads :: IsHead(values, v)
  }

  /** Every case occurs. */
  ghost predicate Covers(heads: seq<string>, values: seq<string>) {
    forall v | v in values :: exists w :: w in heads && Lower(w) == Lower(v)
  }

  lemma HeadStays(values: seq<string>, value: string, head: string)
    requires IsHead(values, head)
    ensures IsHead(values + [value], head)
  {
    OfCaseSnoc(values, value, Lower(head));
  }

  lemma HeadsStay(values: seq<string>, value: string, heads: seq<string>)
    requires AreHeads(values, heads)
    ensures AreHeads(values + [value], heads)
  {
    forall v | v in heads ensures IsHead(values + [value], v) {
      HeadStays(values, value, v);
    }
  }

  lemma NewHead(values: seq<string>, value: string)
    requires forall v | v in values :: Lower(v) != Lower(value)
    ensures IsHead(values + [value], value)
  {
    OfCaseFirst(values, Lower(value));
    OfCaseSnoc(values, value, Lower(value));
  }

  lemma LastIsNew(before: seq<string>, value: string)
    requires Ascending(before + [value]) && before != [] && Lower(before[|before| - 1]) != Lower(value)
    ensures forall v | v in before :: AtMost(Lower(v), Lower(value)) && Lower(v) != Lower(value)
  {
    var sorted, last := before + [value], before[|before| - 1];
    forall i | 0 <= i < |before| ensures AtMost(Lower(before[i]), Lower(value)) && Lower(before[i]) != Lower(value) {
      assert AtMost(Lower(sorted[i]), Lower(sorted[|before|]));
      assert AtMost(Lower(sorted[|before| - 1]), Lower(sorted[|before|]));
      assert i < |before| - 1 ==> AtMost(Lower(sorted[i]), Lower(sorted[|before| - 1]));
      AtMostTotal(Lower(last), Lower(value));
    }
  }

  lemma StrictSnoc(heads: seq<string>, value: string)
    requires StrictlyAscending(heads)
    requires forall v | v in heads :: AtMost(Lower(v), Lower(value)) && Lower(v) != Lower(value)
    ensures StrictlyAscending(heads + [value])
  {
    hide AtMost;
    var all := heads + [value];
    forall i, j | 0 <= i < j < |all| ensures AtMost(Lower(all[i]), Lower(all[j])) && Lower(all[i]) != Lower(all[j]) {
      if j == |heads| {
        assert all[i] in heads;
      }
    }
  }

  lemma SnocHead(before: seq<string>, heads: seq<string>, value: string)
    requires AreHeads(before, heads) && Covers(heads, before) && forall v | v in before :: Lower(v) != Lower(value)
    ensures AreHeads(before + [value], heads + [value]) && Covers(heads + [value], before + [value])
  {
    hide IsHead, Lower;
    HeadsStay(before, value, heads);
    NewHead(before, value);
    forall v | v in before ensures exists w :: w in heads + [value] && Lower(w) == Lower(v) {
      var w :| w in heads && Lower(w) == Lower(v);
      assert w in heads + [value];
    }
    assert value in heads + [value];
  }

  lemma SameHead(before: seq<string>, heads: seq<string>, value: string)
    requires AreHeads(before, heads) && Covers(heads, before)
    requires heads != [] && Lower(heads[|heads| - 1]) == Lower(value)
    ensures AreHeads(before + [value], heads) && Covers(heads, before + [value])
  {
    hide IsHead, Lower;
    HeadsStay(before, value, heads);
    assert heads[|heads| - 1] in heads;
  }

  /** One string of each case, the first, in ascending order. */
  ghost predicate AreRuns(sorted: seq<string>, runs: seq<string>) {
    && StrictlyAscending(runs) && AreHeads(sorted, runs) && Covers(runs, sorted)
    && (forall v | v in runs :: v in sorted)
    && (sorted != [] ==> runs != [] && Lower(runs[|runs| - 1]) == Lower(sorted[|sorted| - 1]))
  }

  function WithRun(runs: seq<string>, value: string): seq<string> {
    if runs != [] && Lower(runs[|runs| - 1]) == Lower(value) then runs else runs + [value]
  }

  lemma RunsGrow(before: seq<string>, runs: seq<string>, value: string)
    requires Ascending(before + [value]) && AreRuns(before, runs)
    ensures AreRuns(before + [value], WithRun(runs, value))
  {
    hide StrictlyAscending, AreHeads, Covers, Lower, AtMost, Ascending;
    if runs != [] && Lower(runs[|runs| - 1]) == Lower(value) {
      SameHead(before, runs, value);
    } else {
      if before != [] {
        LastIsNew(before, value);
      }
      SnocHead(before, runs, value);
      StrictSnoc(runs, value);
    }
  }

  lemma {:induction false} RunsAreRuns(sorted: seq<string>)
    requires Ascending(sorted)
    ensures AreRuns(sorted, Runs(sorted))
  {
    if sorted != [] {
      var n := |sorted| - 1;
      RunsAreRuns(sorted[..n]);
      assert sorted == sorted[..n] + [sorted[n]];
      hide AreRuns;
      RunsGrow(sorted[..n], Runs(sorted[..n]), sorted[n]);
    }
  }

  /** Ascending without regard to case; exactly one string for each lower-case form of the input, and
      that is its first. */
  lemma SortedDistinctIs(values: seq<string>)
    ensures StrictlyAscending(SortedDistinct(values))
    ensures forall v | v in SortedDistinct(values) :: IsFirstOfCase(values, v)
    ensures forall v | v in values :: exists w :: w in SortedDistinct(values) && Lower(w) == Lower(v)
  {
    var sorted := SortedByLower(values);
    SortedByLowerIsSorted(values);
    RunsAreRuns(sorted);
    forall v | v in SortedDistinct(values) ensures IsFirstOfCase(values, v) {
      assert IsHead(sorted, v);
      assert OfCase(sorted, Lower(v)) == OfCase(values, Lower(v));
      OfCaseFirst(values, Lower(v));
    }
  }

  // ---- lookup values ----

  /** `normalize_lookup_value` */
  function Normalized(value: string): string {
    Lower(Trim(value))
  }

  function NormalizedAll(values: seq<string>): set<string> {
    set v | v in values :: Normalized(v)
  }

  lemma SameCaseSameLookup(a: string, b: string)
    requires Lower(a) == Lower(b)
    ensures Normalized(a) == Normalized(b)
  {
    LowerOfTrim(a);
    LowerOfTrim(b);
  }

  /** Sorting and deduplicating lose no lookup value. */
  lemma SortedDistinctLookups(values: seq<string>)
    ensures NormalizedAll(SortedDistinct(values)) == NormalizedAll(values)
    ensures forall v | v in SortedDistinct(values) :: v in values
    ensures |SortedDistinct(values)| <= |values|
  {
    SortedDistinctIs(values);
    hide SortedDistinct, Normalized;
    forall v | v in SortedDistinct(values) ensures v in values {
      assert IsFirstOfCase(values, v);
    }
    forall v | v in values ensures Normalized(v) in NormalizedAll(SortedDistinct(values)) {
      var w :| w in SortedDistinct(values) && Lower(w) == Lower(v);
      SameCaseSameLookup(v, w);
    }
    SortedDistinctIsShorter(values);
  }

  lemma {:induction false} InsertedLength(sorted: seq<string>, value: string)
    ensures |Inserted(sorted, value)| == |sorted| + 1
    decreases |sorted|
  {
    if sorted != [] {
      InsertedLength(sorted[..|sorted| - 1], value);
    }
  }

  lemma {:induction false} SortedByLowerLength(values: seq<string>)
    ensures |SortedByLower(values)| == |values|
  {
    if values != [] {
      SortedByLowerLength(values[..|values| - 1]);
      InsertedLength(SortedByLower(values[..|values| - 1]), values[|values| - 1]);
    }
  }

  lemma {:induction false} RunsLength(sorted: seq<string>)
    ensures |Runs(sorted)| <= |sorted|
  {
    if sorted != [] {
      RunsLength(sorted[..|sorted| - 1]);
    }
  }

  lemma SortedDistinctIsShorter(values: seq<string>)
    ensures |SortedDistinct(values)| <= |values|
  {
    SortedByLowerLength(values);
    RunsLength(SortedByLower(values));
  }
}
