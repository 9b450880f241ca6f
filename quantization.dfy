/**
 * The quantization adapter (`process_input` / `process_output`): the affine map between real
 * values and the int8/uint8 representation of a tensor, with numpy's round-half-to-even and the
 * clamp that keeps the cast from wrapping, and the removal of a leading batch dimension of size 1.
 */
module Quantization {
  import opened Wrappers

  datatype ElementType = Float32 | Int8 | UInt8

  /** A tensor descriptor's dtype and `quantization` pair (scale, zero_point). */
  datatype QuantParams = QuantParams(dtype: ElementType, scale: real, zeroPoint: int)

  /** One tensor element: a float, or an integer of a quantized tensor. */
  datatype Scalar = F(x: real) | I(n: int)

  /** A tensor in row-major order. */
  datatype Tensor<T> = Tensor(shape: seq<nat>, data: seq<T>)

  datatype ShapeError = NoLeadingDimension

  function Product(shape: seq<nat>): nat
  {
    if shape == [] then 1 else shape[0] * Product(shape[1..])
  }

  predicate WellShaped<T>(t: Tensor<T>)
  {
    |t.data| == Product(t.shape)
  }

  /** The representable range of each quantized element type. */
  function MinValue(t: ElementType): int
  {
    match t
    case Int8 => -128
    case UInt8 => 0
    case Float32 => 0
  }

  function MaxValue(t: ElementType): int
  {
    match t
    case Int8 => 127
    case UInt8 => 255
    case Float32 => 0
  }

  predicate Quantized(p: QuantParams)
  {
    p.dtype == Int8 || p.dtype == UInt8
  }

  /** numpy's `np.around`: nearest integer, ties to the even neighbour. */
  function RoundHalfEven(x: real): (n: int)
    ensures x - 0.5 <= n as real <= x + 0.5
    ensures (n as real - x == 0.5 || x - n as real == 0.5) ==> n % 2 == 0
  {
    var f := x.Floor;
    var frac := x - f as real;
    if frac < 0.5 then f
    else if frac > 0.5 then f + 1
    else if f % 2 == 0 then f
    else f + 1
  }

  /** `np.clip(n, lo, hi)`. */
  function Clamp(n: int, lo: int, hi: int): (r: int)
    requires lo <= hi
    ensures lo <= r <= hi
    ensures lo <= n <= hi ==> r == n
    ensures n < lo ==> r == lo
    ensures hi < n ==> r == hi
  {
    if n < lo then lo else if hi < n then hi else n
  }

  /** One element of `process_input`: float32 input passes through unchanged. */
  function QuantizeValue(p: QuantParams, x: real): (r: Scalar)
    requires Quantized(p) ==> p.scale != 0.0
    ensures p.dtype == Float32 ==> r == F(x)
    ensures Quantized(p) ==> r.I? && MinValue(p.dtype) <= r.n <= MaxValue(p.dtype)
    ensures Quantized(p) ==> r.n == Clamp(RoundHalfEven(x / p.scale + p.zeroPoint as real),
                                          MinValue(p.dtype), MaxValue(p.dtype))
  {
    if Quantized(p) then
      I(Clamp(RoundHalfEven(x / p.scale + p.zeroPoint as real), MinValue(p.dtype), MaxValue(p.dtype)))
    else
      F(x)
  }

  function AsReal(v: Scalar): real
  {
    match v
    case F(x) => x
    case I(n) => n as real
  }

  /** One element of `process_output`: `(v - zero_point) * scale` for int8/uint8 tensors. */
  function DequantizeValue(p: QuantParams, v: Scalar): (r: real)
    ensures Quantized(p) ==> r == (AsReal(v) - p.zeroPoint as real) * p.scale
    ensures p.dtype == Float32 ==> r == AsReal(v)
  {
    if Quantized(p) then (AsReal(v) - p.zeroPoint as real) * p.scale else AsReal(v)
  }

  /** `process_input` on a whole (flattened) input tensor. */
  function ProcessInput(p: QuantParams, data: seq<real>): (r: seq<Scalar>)
    requires Quantized(p) ==> p.scale != 0.0
    ensures |r| == |data|
    ensures p.dtype == Float32 ==> r == seq(|data|, i requires 0 <= i < |data| => F(data[i]))
    ensures Quantized(p) ==> forall i :: 0 <= i < |r| ==>
              r[i].I? && MinValue(p.dtype) <= r[i].n <= MaxValue(p.dtype)
    ensures forall i :: 0 <= i < |r| ==> r[i] == QuantizeValue(p, data[i])
  {
    seq(|data|, i requires 0 <= i < |data| => QuantizeValue(p, data[i]))
  }

  /** `process_output`: dequantize every element, then drop a leading batch dimension of size 1
      when `removeBatch` holds; indexing the shape of a 0-d tensor is an error. */
  function ProcessOutput(p: QuantParams, t: Tensor<Scalar>, removeBatch: bool): (r: Result<Tensor<real>, ShapeError>)
    ensures r.Err? <==> removeBatch && t.shape == []
    ensures r.Ok? ==> |r.value.data| == |t.data|
    ensures r.Ok? ==> forall i :: 0 <= i < |t.data| ==> r.value.data[i] == DequantizeValue(p, t.data[i])
    ensures r.Ok? && removeBatch && t.shape[0] == 1 ==> r.value.shape == t.shape[1..]
    ensures r.Ok? && !(removeBatch && t.shape[0] == 1) ==> r.value.shape == t.shape
    ensures r.Ok? && WellShaped(t) ==> WellShaped(r.value)
  {
    var data := seq(|t.data|, i requires 0 <= i < |t.data| => DequantizeValue(p, t.data[i]));
    if !removeBatch then Ok(Tensor(t.shape, data))
    else if t.shape == [] then Err(NoLeadingDimension)
    else if t.shape[0] == 1 then Ok(Tensor(t.shape[1..], data))
    else Ok(Tensor(t.shape, data))
  }

  /** An integer already in range survives dequantization followed by quantization unchanged. */
  lemma QuantizeDequantize(p: QuantParams, n: int)
    requires Quantized(p) && p.scale != 0.0
    requires MinValue(p.dtype) <= n <= MaxValue(p.dtype)
    ensures QuantizeValue(p, DequantizeValue(p, I(n))) == I(n)
  {
    var d := DequantizeValue(p, I(n));
    ScaleCancels(n as real - p.zeroPoint as real, p.scale);
    assert d / p.scale + p.zeroPoint as real == n as real;
    RoundIntegral(n);
    QuantizeInRange(p, d);
  }

  lemma ScaleCancels(a: real, s: real)
    requires s != 0.0
    ensures (a * s) / s == a
  {
  }

  /** An integer is its own rounding. */
  lemma RoundIntegral(n: int)
    ensures RoundHalfEven(n as real) == n
  {
    assert (n as real).Floor == n;
  }

  /** Within the representable range the clamp of `process_input` does nothing. */
  lemma QuantizeInRange(p: QuantParams, x: real)
    requires Quantized(p) && p.scale != 0.0
    requires MinValue(p.dtype) <= RoundHalfEven(x / p.scale + p.zeroPoint as real) <= MaxValue(p.dtype)
    ensures QuantizeValue(p, x) == I(RoundHalfEven(x / p.scale + p.zeroPoint as real))
  {
  }

  /** Quantizing a value that falls inside the representable range and dequantizing it again
      is off by at most half a quantization step. */
  lemma DequantizeQuantizeError(p: QuantParams, x: real)
    requires Quantized(p) && p.scale > 0.0
    requires MinValue(p.dtype) <= RoundHalfEven(x / p.scale + p.zeroPoint as real) <= MaxValue(p.dtype)
    ensures -p.scale / 2.0 <= DequantizeValue(p, QuantizeValue(p, x)) - x <= p.scale / 2.0
  {
    QuantizeInRange(p, x);
    DequantizeNear(p, QuantizeValue(p, x), x);
  }

  lemma DequantizeNear(p: QuantParams, v: Scalar, x: real)
    requires Quantized(p) && p.scale > 0.0 && v.I?
    requires x / p.scale + p.zeroPoint as real - 0.5 <= v.n as real <= x / p.scale + p.zeroPoint as real + 0.5
    ensures -p.scale / 2.0 <= DequantizeValue(p, v) - x <= p.scale / 2.0
  {
    RoundingError(v.n as real, p.zeroPoint as real, p.scale, x);
  }

  /** The arithmetic of DequantizeQuantizeError: `n` within half a unit of `x / s + z` puts
      `(n - z) * s` within half of `s` of `x`. */
  lemma RoundingError(n: real, z: real, s: real, x: real)
    requires s > 0.0
    requires x / s + z - 0.5 <= n <= x / s + z + 0.5
    ensures -s / 2.0 <= (n - z) * s - x <= s / 2.0
  {
    var e := n - (x / s + z);
    assert (n - z) * s - x == e * s by {
      assert (x / s) * s == x;
    }
    NonNegativeProduct(0.5 - e, s);
    NonNegativeProduct(e + 0.5, s);
  }

  lemma NonNegativeProduct(a: real, b: real)
    requires a >= 0.0 && b >= 0.0
    ensures a * b >= 0.0
  {
  }
}
