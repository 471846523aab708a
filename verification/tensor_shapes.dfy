/** Tensor shape arithmetic (inference_bridge/src/onnx_vitis.rs): counting elements, filling in the
    dynamic dimensions of a template, and fitting values to a size. */
module TensorShapes {
  import opened Wrappers

  /** `usize` is taken to be 64 bits wide. */
  const USIZE_MAX: nat := 0xFFFF_FFFF_FFFF_FFFF

  datatype ShapeError = UnresolvedDimension | TooLarge

  // ---- counting elements ----

  function Product(shape: seq<int>): int {
    if shape == [] then 1 else shape[0] * Product(shape[1..])
  }

  /** Multiplies the dimensions into `total`, stopping at a negative one or at an overflow. */
  function CheckedProduct(shape: seq<int>, total: nat): Result<nat, ShapeError> {
    if shape == [] then Success(total)
    else if shape[0] < 0 then Failure(UnresolvedDimension)
    else if total * shape[0] > USIZE_MAX then Failure(TooLarge)
    else CheckedProduct(shape[1..], total * shape[0])
  }

  method NumElements(shape: seq<int>) returns (r: Result<nat, ShapeError>)
    ensures r == CheckedProduct(shape, 1)
  {
    var total: nat := 1;
    for i := 0 to |shape|
      invariant CheckedProduct(shape, 1) == CheckedProduct(shape[i..], total)
    {
      if shape[i] < 0 {
        return Failure(UnresolvedDimension);
      }
      if total * shape[i] > USIZE_MAX {
        return Failure(TooLarge);
      }
      total := total * shape[i];
    }
    r := Success(total);
  }

  predicate NonNegative(shape: seq<int>) {
    forall i :: 0 <= i < |shape| ==> shape[i] >= 0
  }

  predicate Positive(shape: seq<int>) {
    forall i :: 0 <= i < |shape| ==> shape[i] > 0
  }

  /** How many dimensions come before the first one that is not positive. */
  function PositiveCount(shape: seq<int>): (n: nat)
    ensures n <= |shape| && Positive(shape[..n]) && (n < |shape| ==> shape[n] <= 0)
  {
    if shape == [] || shape[0] <= 0 then 0
    else
      var n := 1 + PositiveCount(shape[1..]);
      assert forall i :: 0 < i < n ==> shape[..n][i] == shape[1..][..n - 1][i - 1];
      n
  }

  /** The dimensions before the first one that is not positive. */
  function LeadingPositive(shape: seq<int>): seq<int> {
    shape[..PositiveCount(shape)]
  }

  lemma {:induction false} ProductPositive(shape: seq<int>)
    requires Positive(shape)
    ensures Product(shape) >= 1
  {
    if shape == [] {
    } else {
      ProductPositive(shape[1..]);
    }
  }

  lemma {:induction false} ZeroStaysZero(shape: seq<int>)
    ensures CheckedProduct(shape, 0).Success? <==> NonNegative(shape)
    ensures CheckedProduct(shape, 0).Success? ==> CheckedProduct(shape, 0).value == 0
  {
    if shape == [] {
    } else {
      ZeroStaysZero(shape[1..]);
      assert forall i :: 0 < i < |shape| ==> shape[i] == shape[1..][i - 1];
    }
  }

  /** The step of the loop at a positive dimension, on the true product. */
  lemma ProductStep(total: nat, d: nat, rest: seq<int>)
    requires total >= 1 && d >= 1
    ensures total * Product([d] + rest) == (total * d) * Product(rest)
    ensures total * d >= 1
    ensures Positive(rest) ==> total * d <= (total * d) * Product(rest)
  {
    assert ([d] + rest)[1..] == rest;
    var product := Product(rest);
    assert Product([d] + rest) == d * product;
    if Positive(rest) {
      ProductPositive(rest);
    }
    hide Product, Positive;
    ProductAssociates(total, d, product);
    ProductGrows(total, d);
    if product >= 1 {
      ProductGrows(total * d, product);
    }
  }

  lemma ProductAssociates(a: int, b: int, c: int)
    ensures a * (b * c) == (a * b) * c
  {
  }

  lemma ProductGrows(a: nat, b: nat)
    requires b >= 1
    ensures a <= a * b
  {
  }

  lemma {:induction false} CheckedProductExact(shape: seq<int>, total: nat)
    requires 1 <= total <= USIZE_MAX
    ensures CheckedProduct(shape, total).Success? <==>
            NonNegative(shape) && total * Product(LeadingPositive(shape)) <= USIZE_MAX
    ensures CheckedProduct(shape, total).Success? ==> CheckedProduct(shape, total).value == total * Product(shape)
  {
    if shape == [] {
    } else {
      var d, rest := shape[0], shape[1..];
      assert forall i :: 0 < i < |shape| ==> shape[i] == rest[i - 1];
      assert shape == [d] + rest;
      if d == 0 {
        ZeroStaysZero(rest);
      } else if d > 0 {
        var lead := LeadingPositive(rest);
        assert LeadingPositive(shape) == [d] + lead;
        ProductStep(total, d, lead);
        ProductStep(total, d, rest);
        if total * d <= USIZE_MAX {
          CheckedProductExact(rest, total * d);
        }
      }
    }
  }

  /** `num_elements` succeeds exactly when no dimension is negative and the dimensions before the
      first zero multiply to a `usize`; it then returns the true product. */
  lemma NumElementsExact(shape: seq<int>)
    ensures CheckedProduct(shape, 1).Success? <==>
            NonNegative(shape) && Product(LeadingPositive(shape)) <= USIZE_MAX
    ensures CheckedProduct(shape, 1).Success? ==> CheckedProduct(shape, 1).value == Product(shape)
    ensures Positive(shape) ==> (CheckedProduct(shape, 1).Success? <==> Product(shape) <= USIZE_MAX)
  {
    CheckedProductExact(shape, 1);
    if Positive(shape) {
      assert PositiveCount(shape) == |shape| && shape[..|shape|] == shape;
    }
  }

  /** A zero dimension makes the product zero, but not if an overflow comes first. */
  lemma ZeroDimensionMayOverflow()
    ensures var shape := [USIZE_MAX, 2, 0]; Product(shape) == 0 && CheckedProduct(shape, 1) == Failure(TooLarge)
  {
    var shape := [USIZE_MAX, 2, 0];
    assert shape[1..] == [2, 0] && shape[1..][1..] == [0];
    assert Product([2, 0]) == 0;
    assert CheckedProduct(shape, 1) == CheckedProduct([2, 0], USIZE_MAX);
  }

  // ---- filling in dynamic dimensions ----

  /** The shape with `len` for a dynamic dimension on `axis` and 1 for one elsewhere; zero counts as
      dynamic, and a scalar template has rank one. */
  ghost predicate FillsIn(shape: seq<int>, template: seq<int>, axis: nat, len: nat) {
    && |shape| == (if template == [] then 1 else |template|)
    && (template == [] ==> shape == [len])
    && (forall i :: 0 <= i < |template| ==>
          shape[i] == if template[i] > 0 then template[i] else if i == axis then len else 1)
  }

  function FilledIn(template: seq<int>, axis: nat, len: nat): (shape: seq<int>)
    ensures FillsIn(shape, template, axis, len)
    ensures len >= 1 ==> Positive(shape)
  {
    if template == [] then [len]
    else seq(|template|, i requires 0 <= i < |template| =>
               if template[i] > 0 then template[i] else if i == axis then len else 1)
  }

  /** Some runtimes reject zero-length dimensions, so the past is padded to one entry unless the
      environment allows it to be empty. */
  function EffectivePastLen(pastLen: nat, allowZero: bool): nat {
    if allowZero || pastLen >= 1 then pastLen else 1
  }

  method MaterializeCacheShape(template: seq<int>, pastAxis: nat, pastLen: nat, allowZero: bool)
    returns (shape: seq<int>)
    requires template == [] ==> pastAxis == 0
    ensures shape == FilledIn(template, pastAxis, EffectivePastLen(pastLen, allowZero))
  {
    var len := EffectivePastLen(pastLen, allowZero);
    shape := if template == [] then [len] else template;
    ghost var start := shape;
    for idx := 0 to |shape|
      invariant |shape| == |start|
      invariant forall i :: idx <= i < |shape| ==> shape[i] == start[i]
      invariant forall i :: 0 <= i < idx ==>
        shape[i] == if start[i] > 0 then start[i]
                    else if i == pastAxis then (if start[i] < 0 then len else 0) else 1
    {
      if shape[idx] < 0 {
        shape := shape[idx := if idx == pastAxis then len else 1];
      }
      if idx != pastAxis && shape[idx] == 0 {
        shape := shape[idx := 1];
      }
    }
    if pastAxis < |shape| && shape[pastAxis] <= 0 {
      shape := shape[pastAxis := len];
    }
  }

  function LastAxis(template: seq<int>): nat {
    if template == [] then 0 else |template| - 1
  }

  method MaterializeSequenceShape(template: seq<int>, sequenceLen: nat) returns (shape: seq<int>)
    ensures shape == FilledIn(template, LastAxis(template), sequenceLen)
  {
    shape := if template == [] then [sequenceLen] else template;
    ghost var start := shape;
    var seqAxis := |shape| - 1;
    for idx := 0 to |shape|
      invariant |shape| == |start|
      invariant forall i :: idx <= i < |shape| ==> shape[i] == start[i]
      invariant forall i :: 0 <= i < idx ==>
        shape[i] == if start[i] > 0 then start[i]
                    else if i == seqAxis then (if start[i] < 0 then sequenceLen else 0) else 1
    {
      if shape[idx] < 0 {
        shape := shape[idx := if idx == seqAxis then sequenceLen else 1];
      }
      if idx != seqAxis && shape[idx] == 0 {
        shape := shape[idx := 1];
      }
    }
    if seqAxis < |shape| && shape[seqAxis] <= 0 {
      shape := shape[seqAxis := sequenceLen];
    }
  }

  // ---- fitting values ----

  /** Cuts the values to a size, or repeats the last one up to it. */
  function FitIntValues(values: seq<int>, targetLen: nat): (r: seq<int>)
    ensures |r| == targetLen
    ensures forall i :: 0 <= i < targetLen ==>
      r[i] == if i < |values| then values[i] else if values == [] then 0 else values[|values| - 1]
  {
    if targetLen == 0 then []
    else if targetLen <= |values| then values[..targetLen]
    else
      var pad := if values == [] then 0 else values[|values| - 1];
      values + seq(targetLen - |values|, _ => pad)
  }

  /** A batch of one with the sequence length left open. */
  predicate IsBatchOneDynamic(template: seq<int>) {
    template == []
    || (template[|template| - 1] <= 0 && forall i :: 0 <= i < |template| - 1 ==> template[i] <= 1)
  }

  lemma {:induction false} ProductAppend(shape: seq<int>, d: int)
    ensures Product(shape + [d]) == Product(shape) * d
  {
    if shape == [] {
      assert shape + [d] == [d];
    } else {
      ProductAppend(shape[1..], d);
      assert (shape + [d])[1..] == shape[1..] + [d];
    }
  }

  lemma {:induction false} ProductOfOnes(shape: seq<int>)
    requires Positive(shape)
    ensures Product(shape) == 1 <==> forall i :: 0 <= i < |shape| ==> shape[i] == 1
  {
    if shape == [] {
    } else {
      var d, rest := shape[0], shape[1..];
      ProductPositive(rest);
      ProductOfOnes(rest);
      assert forall i :: 0 < i < |shape| ==> shape[i] == rest[i - 1];
      ProductStep(1, d, rest);
      assert shape == [d] + rest;
    }
  }

  /** The product of a filled-in template splits at its last axis. */
  lemma FilledProduct(template: seq<int>, n: nat)
    requires template != []
    ensures var shape := FilledIn(template, LastAxis(template), n);
            var k := |template| - 1;
            && Product(shape) == Product(shape[..k]) * (if template[k] > 0 then template[k] else n)
            && shape[..k] == FilledIn(template, LastAxis(template), 1)[..k]
            && Positive(shape[..k])
            && ((forall i :: 0 <= i < k ==> shape[..k][i] == 1) <==> forall i :: 0 <= i < k ==> template[i] <= 1)
  {
    var shape := FilledIn(template, LastAxis(template), n);
    var k := |template| - 1;
    assert shape == shape[..k] + [shape[k]];
    ProductAppend(shape[..k], shape[k]);
    forall i | 0 <= i < k
      ensures template[i] <= 1 <==> shape[..k][i] == 1
    {
    }
  }

  /** A sequence input holds exactly the values it is given, for every length, exactly when its
      template is a batch of one with a dynamic last axis. */
  lemma NoPaddingExactly(template: seq<int>)
    ensures IsBatchOneDynamic(template) <==>
            forall n: nat | n >= 1 :: Product(FilledIn(template, LastAxis(template), n)) == n
  {
    if template == [] {
      forall n: nat | n >= 1
        ensures Product(FilledIn(template, LastAxis(template), n)) == n
      {
        assert FilledIn(template, 0, n) == [n];
        ProductAppend([], n);
        assert [] + [n] == [n];
      }
    } else {
      var k := |template| - 1;
      var batch := FilledIn(template, LastAxis(template), 1)[..k];
      FilledProduct(template, 1);
      FilledProduct(template, 2);
      ProductOfOnes(batch);
      if IsBatchOneDynamic(template) {
        forall n: nat | n >= 1
          ensures Product(FilledIn(template, LastAxis(template), n)) == n
        {
          FilledProduct(template, n);
        }
      }
    }
  }

  lemma NothingCutOrPadded(template: seq<int>, values: seq<int>)
    requires IsBatchOneDynamic(template) && 1 <= |values| <= USIZE_MAX
    ensures var count := CheckedProduct(FilledIn(template, LastAxis(template), |values|), 1);
            count == Success(|values|) && FitIntValues(values, count.value) == values
  {
    var shape := FilledIn(template, LastAxis(template), |values|);
    NoPaddingExactly(template);
    assert Product(shape) == |values|;
    NumElementsExact(shape);
  }
}
