/**
 * The argument checks of the fused layer-norm and RMS-norm bindings: the
 * shape validation that computes n1 (the number of rows normalised) and n2
 * (the size of each row), the checks on gamma and beta, the dtype of the
 * statistics and the sizes of the returned tensors, and the argument
 * asserts of the n-gram repeat blocker. Tensors are described by their
 * sizes and dtype only; the kernels themselves are not part of this model.
 */
module LayerNorm {
  import opened Results

  // ---------------------------------------------------------------------
  // 32-bit `int`
  // ---------------------------------------------------------------------

  const Half32: int := 0x8000_0000
  const Mod32: int := 0x1_0000_0000

  /** A value stored into a C `int`: reduced modulo 2^32 into [-2^31, 2^31). */
  function ToInt32(x: int): (r: int)
    ensures -Half32 <= r < Half32
    ensures -Half32 <= x < Half32 ==> r == x
  {
    (x + Half32) % Mod32 - Half32
  }

  /** Adding a multiple of 2^32 does not change the stored value. */
  lemma WrapShift(x: int, j: int)
    ensures ToInt32(x + j * Mod32) == ToInt32(x)
  {
    var z := x + Half32;
    var q, r := z / Mod32, z % Mod32;
    assert z == q * Mod32 + r;
    assert z + j * Mod32 == (q + j) * Mod32 + r;
  }

  /** Wrapping a factor before the multiplication gives the same stored value as wrapping after it. */
  lemma WrapMul(a: int, s: int)
    ensures ToInt32(ToInt32(a) * s) == ToInt32(a * s)
  {
    var k := (a + Half32) / Mod32;
    assert ToInt32(a) == a - k * Mod32;
    assert ToInt32(a) * s == a * s + (-k * s) * Mod32;
    WrapShift(a * s, -k * s);
  }

  /** The product of a list of sizes. */
  function Product(xs: seq<nat>): nat {
    if xs == [] then 1 else Product(xs[..|xs| - 1]) * xs[|xs| - 1]
  }

  lemma {:induction false} ProductSplit(a: seq<nat>, b: seq<nat>)
    ensures Product(a + b) == Product(a) * Product(b)
  {
    if b == [] {
      assert a + b == a;
    } else {
      var init := b[..|b| - 1];
      assert (a + b)[..|a + b| - 1] == a + init;
      ProductSplit(a, init);
      assert Product(a + b) == Product(a) * Product(init) * b[|b| - 1];
    }
  }

  /** The value of `int` p after `p = 1; for each size s: p *= s`. */
  function WrappedProduct(xs: seq<nat>): int {
    if xs == [] then 1 else ToInt32(WrappedProduct(xs[..|xs| - 1]) * xs[|xs| - 1])
  }

  /** Wrapping at every step gives the whole product wrapped once. */
  lemma {:induction false} WrappedProductWrapsOnce(xs: seq<nat>)
    ensures WrappedProduct(xs) == ToInt32(Product(xs))
  {
    if xs != [] {
      var init := xs[..|xs| - 1];
      WrappedProductWrapsOnce(init);
      WrapMul(Product(init), xs[|xs| - 1]);
    }
  }

  /** A normalised shape of 65536 x 32768 makes n2 wrap to -2^31. */
  lemma N2Wraps()
    ensures WrappedProduct([65536, 32768]) == -Half32
  {
    assert [65536, 32768][..1] == [65536];
    assert [65536][..0] == [];
  }

  // ---------------------------------------------------------------------
  // `compute_n1_n2` and the `check_args` overloads
  // ---------------------------------------------------------------------

  /** The leading dimensions of the input, those in front of the normalised shape. */
  function Leading(input: seq<nat>, normalized: seq<nat>): seq<nat>
    requires |normalized| <= |input|
  {
    input[..|input| - |normalized|]
  }

  /**
   * `compute_n1_n2`: n2 multiplies up the normalised shape, n1 the leading
   * dimensions of the input, both in a C `int`. The caller has made sure
   * the trailing dimensions of the input are the normalised shape.
   */
  method ComputeN1N2(input: seq<nat>, normalized: seq<nat>) returns (n1: int, n2: int)
    requires |normalized| <= |input| && input[|input| - |normalized|..] == normalized
    ensures n1 == ToInt32(Product(Leading(input, normalized)))
    ensures n2 == ToInt32(Product(normalized))
    ensures Product(Leading(input, normalized)) < Half32 && Product(normalized) < Half32 ==> n1 * n2 == Product(input)
  {
    var idiff := |input| - |normalized|;
    n2 := 1;
    var i := 0;
    while i < |normalized|
      invariant 0 <= i <= |normalized|
      invariant n2 == WrappedProduct(normalized[..i])
    {
      assert input[i + idiff] == normalized[i];
      assert normalized[..i + 1][..i] == normalized[..i];
      n2 := ToInt32(n2 * normalized[i]);
      i := i + 1;
    }
    n1 := 1;
    i := 0;
    while i < idiff
      invariant 0 <= i <= idiff
      invariant n1 == WrappedProduct(input[..i])
    {
      assert input[..i + 1][..i] == input[..i];
      n1 := ToInt32(n1 * input[i]);
      i := i + 1;
    }
    assert normalized[..|normalized|] == normalized;
    WrappedProductWrapsOnce(normalized);
    WrappedProductWrapsOnce(input[..idiff]);
    ProductSplit(input[..idiff], normalized);
    assert input[..idiff] + normalized == input;
  }

  /** Why a check fails; each is the error the binding throws. */
  datatype ShapeError =
    | NormalizedShapeEmpty   // normalized_shape must have at least one dimension
    | InputShapeMismatch     // the input must have shape [*, normalized_shape]
    | GammaShapeMismatch     // gamma, when defined, must have the normalised shape
    | BetaShapeMismatch      // beta, when defined, must have the normalised shape
    | NegativeSize           // allocating the statistics with a wrapped, negative n1

  /** The sizes of a tensor argument, None when the tensor is undefined. */
  type Sizes = Option<seq<nat>>

  /** `check_args(normalized_shape, gamma)`. */
  function CheckGamma(normalized: seq<nat>, gamma: Sizes): (r: Option<ShapeError>)
    ensures r.None? <==> gamma.None? || gamma.value == normalized
    ensures r.Some? ==> r.value == GammaShapeMismatch
  {
    if gamma.Some? && gamma.value != normalized then Some(GammaShapeMismatch) else None
  }

  /** `check_args(normalized_shape, gamma, beta)`: gamma is checked first. */
  function CheckGammaBeta(normalized: seq<nat>, gamma: Sizes, beta: Sizes): (r: Option<ShapeError>)
    ensures r.None? <==> (gamma.None? || gamma.value == normalized) && (beta.None? || beta.value == normalized)
    ensures r == Some(BetaShapeMismatch) ==> gamma.None? || gamma.value == normalized
  {
    if CheckGamma(normalized, gamma).Some? then Some(GammaShapeMismatch)
    else if beta.Some? && beta.value != normalized then Some(BetaShapeMismatch)
    else None
  }

  /** The input has at least as many dimensions as the normalised shape and ends with it. */
  predicate EndsWith(input: seq<nat>, normalized: seq<nat>) {
    |normalized| <= |input| && input[|input| - |normalized|..] == normalized
  }

  /** `check_args(input, normalized_shape, n1, n2)`: the shape guards, then `compute_n1_n2`. */
  method CheckArgs(input: seq<nat>, normalized: seq<nat>) returns (r: Result<(int, int), ShapeError>)
    ensures |normalized| < 1 ==> r == Err(NormalizedShapeEmpty)
    ensures |normalized| >= 1 && !EndsWith(input, normalized) ==> r == Err(InputShapeMismatch)
    ensures r.Ok? <==> |normalized| >= 1 && EndsWith(input, normalized)
    ensures r.Ok? ==> r.value == (ToInt32(Product(Leading(input, normalized))), ToInt32(Product(normalized)))
  {
    if |normalized| < 1 {
      return Err(NormalizedShapeEmpty);
    }
    if |input| < |normalized| || input[|input| - |normalized|..] != normalized {
      return Err(InputShapeMismatch);
    }
    var n1, n2 := ComputeN1N2(input, normalized);
    r := Ok((n1, n2));
  }

  /** `check_args(input, normalized_shape, gamma, beta, n1, n2)`. */
  method CheckArgsAffine(input: seq<nat>, normalized: seq<nat>, gamma: Sizes, beta: Sizes) returns (r: Result<(int, int), ShapeError>)
    ensures r.Ok? <==> |normalized| >= 1 && EndsWith(input, normalized) && CheckGammaBeta(normalized, gamma, beta).None?
    ensures r.Ok? ==> r.value == (ToInt32(Product(Leading(input, normalized))), ToInt32(Product(normalized)))
    ensures |normalized| >= 1 && EndsWith(input, normalized) && r.Err? ==> r.error == CheckGammaBeta(normalized, gamma, beta).value
    ensures |normalized| < 1 ==> r == Err(NormalizedShapeEmpty)
    ensures |normalized| >= 1 && !EndsWith(input, normalized) ==> r == Err(InputShapeMismatch)
  {
    r := CheckArgs(input, normalized);
    if r.Ok? {
      var e := CheckGammaBeta(normalized, gamma, beta);
      if e.Some? {
        r := Err(e.value);
      }
    }
  }

  /** `check_args(input, normalized_shape, gamma, n1, n2)`. */
  method CheckArgsGamma(input: seq<nat>, normalized: seq<nat>, gamma: Sizes) returns (r: Result<(int, int), ShapeError>)
    ensures r.Ok? <==> |normalized| >= 1 && EndsWith(input, normalized) && CheckGamma(normalized, gamma).None?
    ensures r.Ok? ==> r.value == (ToInt32(Product(Leading(input, normalized))), ToInt32(Product(normalized)))
    ensures |normalized| >= 1 && EndsWith(input, normalized) && r.Err? ==> r.error == GammaShapeMismatch
    ensures |normalized| < 1 ==> r == Err(NormalizedShapeEmpty)
    ensures |normalized| >= 1 && !EndsWith(input, normalized) ==> r == Err(InputShapeMismatch)
  {
    r := CheckArgs(input, normalized);
    if r.Ok? {
      var e := CheckGamma(normalized, gamma);
      if e.Some? {
        r := Err(e.value);
      }
    }
  }

  // ---------------------------------------------------------------------
  // The statistics and the returned tensors
  // ---------------------------------------------------------------------

  datatype ScalarType = Half | BFloat16 | Float | Double | OtherType

  /** The dtype of `mean` and `invvar`: half-precision inputs keep their statistics in Float. */
  function StatsDtype(t: ScalarType): (s: ScalarType)
    ensures s != Half && s != BFloat16
    ensures t != Half && t != BFloat16 ==> s == t
    ensures t == Half || t == BFloat16 ==> s == Float
  {
    if t == Half || t == BFloat16 then Float else t
  }

  /** A tensor's sizes and dtype. */
  datatype Meta = Meta(sizes: seq<nat>, dtype: ScalarType)

  /** The forward bindings. */
  datatype Entry =
    | LayerNormPlain | LayerNormAffine | LayerNormAffineMixed
    | RmsNormPlain | RmsNormAffine | RmsNormAffineMixed

  predicate IsLayerNorm(e: Entry) {
    e == LayerNormPlain || e == LayerNormAffine || e == LayerNormAffineMixed
  }

  predicate IsMixed(e: Entry) {
    e == LayerNormAffineMixed || e == RmsNormAffineMixed
  }

  /**
   * A forward binding up to the kernel call: its checks (the affine ones
   * check gamma, and beta for layer norm; the plain and mixed-dtype ones
   * check the input shape only), then the tensors it allocates: the output
   * shaped like the input (in gamma's dtype for the mixed-dtype ones), and
   * n1 statistics in the stats dtype: `mean` and `invvar` for layer norm,
   * `invvar` alone for RMS norm.
   */
  method NormForward(entry: Entry, input: Meta, normalized: seq<nat>, gamma: Meta, beta: Meta) returns (r: Result<seq<Meta>, ShapeError>)
    ensures r.Ok? <==>
      && |normalized| >= 1 && EndsWith(input.sizes, normalized)
      && ToInt32(Product(Leading(input.sizes, normalized))) >= 0
      && (entry == LayerNormAffine ==> CheckGammaBeta(normalized, Some(gamma.sizes), Some(beta.sizes)).None?)
      && (entry == RmsNormAffine ==> CheckGamma(normalized, Some(gamma.sizes)).None?)
    ensures r.Ok? ==>
      var n1 := ToInt32(Product(Leading(input.sizes, normalized)));
      var stats := Meta([n1 as nat], StatsDtype(input.dtype));
      && n1 >= 0
      && |r.value| >= 2
      && r.value[0] == Meta(input.sizes, if IsMixed(entry) then gamma.dtype else input.dtype)
      && r.value[1..] == if IsLayerNorm(entry) then [stats, stats] else [stats]
    ensures r.Ok? && Product(Leading(input.sizes, normalized)) < Half32 ==>
      |r.value| >= 2 && r.value[1].sizes == [Product(Leading(input.sizes, normalized))]
    ensures r.Err? && |normalized| >= 1 && EndsWith(input.sizes, normalized) && Product(Leading(input.sizes, normalized)) < Half32 ==>
      r.error != NegativeSize
    ensures |normalized| < 1 ==> r == Err(NormalizedShapeEmpty)
  {
    var checked: Result<(int, int), ShapeError>;
    if entry == LayerNormAffine {
      checked := CheckArgsAffine(input.sizes, normalized, Some(gamma.sizes), Some(beta.sizes));
    } else if entry == RmsNormAffine {
      checked := CheckArgsGamma(input.sizes, normalized, Some(gamma.sizes));
    } else {
      checked := CheckArgs(input.sizes, normalized);
    }
    if checked.Err? {
      return Err(checked.error);
    }
    var n1 := checked.value.0;
    if n1 < 0 {
      r := Err(NegativeSize);
      return;
    }
    var output := Meta(input.sizes, if IsMixed(entry) then gamma.dtype else input.dtype);
    var stats := Meta([n1], StatsDtype(input.dtype));
    if IsLayerNorm(entry) {
      r := Ok([output, stats, stats]);
    } else {
      r := Ok([output, stats]);
    }
  }

  /** The backward bindings. */
  datatype GradientEntry = LayerNormGradient | LayerNormGradientAffine | RmsNormGradient | RmsNormGradientAffine

  /**
   * A backward binding up to the kernel call: the same checks as the
   * matching forward binding, then gradients shaped and typed like what
   * they are gradients of: the input, and gamma (and beta, for layer norm)
   * in the affine bindings.
   */
  method NormBackward(entry: GradientEntry, input: Meta, normalized: seq<nat>, gamma: Meta, beta: Meta) returns (r: Result<seq<Meta>, ShapeError>)
    ensures r.Ok? <==>
      && |normalized| >= 1 && EndsWith(input.sizes, normalized)
      && (entry == LayerNormGradientAffine ==> CheckGammaBeta(normalized, Some(gamma.sizes), Some(beta.sizes)).None?)
      && (entry == RmsNormGradientAffine ==> CheckGamma(normalized, Some(gamma.sizes)).None?)
    ensures r.Ok? ==> r.value == match entry
      case LayerNormGradient => [input]
      case LayerNormGradientAffine => [input, gamma, beta]
      case RmsNormGradient => [input]
      case RmsNormGradientAffine => [input, gamma]
    ensures |normalized| < 1 ==> r == Err(NormalizedShapeEmpty)
  {
    var checked: Result<(int, int), ShapeError>;
    if entry == LayerNormGradientAffine {
      checked := CheckArgsAffine(input.sizes, normalized, Some(gamma.sizes), Some(beta.sizes));
    } else if entry == RmsNormGradientAffine {
      checked := CheckArgsGamma(input.sizes, normalized, Some(gamma.sizes));
    } else {
      checked := CheckArgs(input.sizes, normalized);
    }
    if checked.Err? {
      return Err(checked.error);
    }
    match entry
    case LayerNormGradient => r := Ok([input]);
    case LayerNormGradientAffine => r := Ok([input, gamma, beta]);
    case RmsNormGradient => r := Ok([input]);
    case RmsNormGradientAffine => r := Ok([input, gamma]);
  }

  // ---------------------------------------------------------------------
  // `ngram_repeat_block_forward`
  // ---------------------------------------------------------------------

  /** The first of the argument asserts that fails. */
  datatype NgramError = BszNotPositive | StepNegative | BeamSizeNotPositive | NgramSizeNotPositive

  /** The asserts of `ngram_repeat_block_forward`, in their order, before the kernel runs. */
  function NgramRepeatBlockArgs(bsz: int, step: int, beamSize: int, noRepeatNgramSize: int): (r: Option<NgramError>)
    ensures r.None? <==> bsz > 0 && step >= 0 && beamSize > 0 && noRepeatNgramSize > 0
    ensures r == Some(StepNegative) ==> bsz > 0
    ensures r == Some(BeamSizeNotPositive) ==> bsz > 0 && step >= 0
    ensures r == Some(NgramSizeNotPositive) ==> bsz > 0 && step >= 0 && beamSize > 0
  {
    if bsz <= 0 then Some(BszNotPositive)
    else if step < 0 then Some(StepNegative)
    else if beamSize <= 0 then Some(BeamSizeNotPositive)
    else if noRepeatNgramSize <= 0 then Some(NgramSizeNotPositive)
    else None
  }
}
