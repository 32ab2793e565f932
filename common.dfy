/** Value wrappers shared by every module: Java's nullable references
    become Option, and Java exceptions become the Failure arm of Result. */
module Common {

  datatype Option<+T> = None | Some(value: T)

  /** The exceptions the modelled code can raise, by Java class. */
  datatype Error =
    | NullPointer                 // NullPointerException
    | IndexOutOfBounds            // ArrayIndexOutOfBoundsException, IndexOutOfBoundsException
    | NegativeArraySize           // NegativeArraySizeException
    | IllegalArgument             // IllegalArgumentException from a library call
    | UnknownAsset(asset: string) // IllegalArgumentException("Unknown asset: ...")
    | FetchFailed(symbol: string) // an I/O or parse exception from a price download
    | NotEnoughPicks              // RuntimeException("Could not select 6 valid tickers ...")

  datatype Result<+T> = Success(value: T) | Failure(error: Error)

  /** Java `int` range. */
  const IntMin: int := -0x8000_0000
  const IntMax: int := 0x7fff_ffff
  type Int32 = x: int | IntMin <= x <= IntMax

  /** The Java `int` with the same low 32 bits as `x`. */
  function Wrap32(x: int): (r: Int32)
    ensures IntMin <= x <= IntMax ==> r == x
    ensures (r - x) % 0x1_0000_0000 == 0
  {
    (x - IntMin) % 0x1_0000_0000 + IntMin
  }

  /** Java 32-bit multiplication, with its wrap-around. */
  function MulInt32(a: Int32, b: Int32): Int32
  {
    Wrap32(a * b)
  }

  /** Real division where a zero divisor gives 0.  Java would give NaN or an
      infinity there; the model does not carry those values. */
  function Div(a: real, b: real): (r: real)
    ensures b != 0.0 ==> r * b == a
    ensures b == 0.0 ==> r == 0.0
  {
    if b == 0.0 then 0.0 else a / b
  }

  function Min(a: int, b: int): int { if a <= b then a else b }
  function MaxReal(a: real, b: real): real { if a >= b then a else b }
  function MinReal(a: real, b: real): real { if a <= b then a else b }
  function Abs(x: real): real { if x < 0.0 then -x else x }
}
