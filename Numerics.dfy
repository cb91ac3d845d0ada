/** Numeric and library conventions shared by the whole model.

    The library works on 32-bit floats; the model works on `real`, so that
    algebraic facts can be proved exactly.  The .NET math calls
    (MathF.Sin, Cos, Tan, Sqrt) and the number parsers (float.Parse,
    int.Parse) are not modelled by a definition: every operation that uses
    them takes them as a parameter, and a lemma that needs one of their
    properties states it as a hypothesis (SqrtLaws, TrigLaws). */
module Numerics {

  datatype Option<+T> = None | Some(value: T)

  datatype Result<+T, +E> = Success(value: T) | Failure(error: E)

  const INT32_MIN: int := -0x8000_0000
  const INT32_MAX: int := 0x7FFF_FFFF

  /** C#'s `int`. */
  type Int32 = x: int | INT32_MIN <= x <= INT32_MAX

  /** The value an unchecked C# `int` operation stores when its exact result is `x`:
      two's-complement wrap-around to 32 bits. */
  function Wrap32(x: int): (r: Int32)
    ensures (r - x) % 0x1_0000_0000 == 0
    ensures INT32_MIN <= x <= INT32_MAX ==> r == x
    ensures x == INT32_MIN - 1 ==> r == INT32_MAX
  {
    (x - INT32_MIN) % 0x1_0000_0000 + INT32_MIN
  }

  /** float.MaxValue, (2 - 2^-23) * 2^127. */
  const FLOAT_MAX: real := 340282346638528859811704183484516925440.0

  /** Float division.  IEEE gives an infinity or NaN for a zero divisor; the
      model yields 0 instead.  In Camera.Project a zero width, a zero width and
      height, or a zero tan(fov/2) make the library's x or y infinite or NaN,
      and RenderDistance == ClipPlane makes its depth infinite; the model's
      values are finite. */
  function FloatDiv(a: real, b: real): (r: real)
    ensures b != 0.0 ==> r * b == a
    ensures b == 0.0 ==> r == 0.0
  {
    if b == 0.0 then 0.0 else a / b
  }

  /** MathF.PI: the float nearest to pi. */
  const PI: real := 3.1415927410125732421875

  /** The four MathF functions the library calls. */
  datatype MathF = MathF(sin: real -> real, cos: real -> real, tan: real -> real, sqrt: real -> real)

  /** What the model assumes of Sqrt where a property needs it: it is zero at
      zero and positive on positive numbers, so on a non-negative argument it
      is zero exactly at zero. */
  ghost predicate SqrtLaws(m: MathF)
  {
    m.sqrt(0.0) == 0.0 && forall s: real :: 0.0 < s ==> m.sqrt(s) > 0.0
  }

  /** Sqrt is an exact square root on non-negative numbers: non-negative, and
      its square gives the argument back.  Only the unit length of a
      normalised vector assumes this. */
  ghost predicate ExactSqrt(m: MathF)
  {
    forall s: real :: 0.0 <= s ==> m.sqrt(s) >= 0.0 && m.sqrt(s) * m.sqrt(s) == s
  }

  /** What the model assumes of Sin and Cos where a property needs it: sine is odd,
      cosine is even, sin^2 + cos^2 == 1, and cos 0 == 1. */
  ghost predicate TrigLaws(m: MathF)
  {
    && m.cos(0.0) == 1.0
    && (forall t: real :: m.sin(-t) == -m.sin(t))
    && (forall t: real :: m.cos(-t) == m.cos(t))
    && (forall t: real :: m.sin(t) * m.sin(t) + m.cos(t) * m.cos(t) == 1.0)
  }

  lemma SinZero(m: MathF)
    requires TrigLaws(m)
    ensures m.sin(0.0) == 0.0 && m.cos(0.0) == 1.0
  {
    assert m.sin(-0.0) == -m.sin(0.0);
  }

  /** float.Parse and int.Parse: None stands for the FormatException either
      throws, and for int.Parse's OverflowException.  float.Parse returns an
      infinity on overflow rather than throwing; the model has no infinities,
      so what it yields for such a token is left to the parameter. */
  datatype Parsers = Parsers(parseFloat: string -> Option<real>, parseInt: string -> Option<Int32>)
}
