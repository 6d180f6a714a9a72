/** Small shared vocabulary: optional values, the outcome of a call that may
    throw, and the HRESULT convention behind `ThrowIfFailed`. */
module Helpers {

  datatype Option<+T> = None | Some(value: T)

  /** The outcome of an operation that either completes or throws. */
  datatype Outcome = Pass | Thrown(reason: Failure)

  datatype Failure =
    | Hresult(hr: int)       // `ThrowIfFailed` saw a failing HRESULT
    | AssertionFailed        // an `assert` in the source fired
    | NullDereference        // a call through an empty COM pointer

  const S_OK: int := 0

  /** `FAILED(hr)`: an HRESULT is a failure exactly when its sign bit is set. */
  predicate Failed(hr: int) {
    hr < 0
  }

  /** `ThrowIfFailed` (Helpers.hpp): throws on a failing HRESULT and does nothing otherwise. */
  function ThrowIfFailed(hr: int): (r: Outcome)
    ensures r == Pass <==> !Failed(hr)
    ensures r.Thrown? ==> r.reason == Hresult(hr)
  {
    if Failed(hr) then Thrown(Hresult(hr)) else Pass
  }

  function Max(a: int, b: int): (m: int)
    ensures m >= a && m >= b && (m == a || m == b)
  {
    if a < b then b else a
  }

  const TwoTo32: nat := 0x1_0000_0000

  /** The value of a C++ conversion of `x` to a 32-bit unsigned integer (reduction modulo 2^32). */
  function ToUint32(x: int): (r: nat)
    ensures r < TwoTo32
    ensures 0 <= x < TwoTo32 ==> r == x
    ensures x < 0 && -x <= TwoTo32 ==> r == x + TwoTo32
  {
    x % TwoTo32
  }

  /** The value of a C++ conversion of a 32-bit unsigned value to a 32-bit signed `int`. */
  function ToInt32(x: nat): (r: int)
    requires x < TwoTo32
    ensures -0x8000_0000 <= r < 0x8000_0000
    ensures ToUint32(r) == x
  {
    if x < 0x8000_0000 then x else x - TwoTo32
  }

  /** C++ integer division, which truncates toward zero (Dafny's `/` is Euclidean): the
      quotient has the sign of `a` and the remainder `a - q * b` is smaller than `b` in
      magnitude and has the sign of `a`, which determines `q` uniquely. */
  function CDiv(a: int, b: int): (q: int)
    requires b > 0
    ensures a >= 0 ==> q >= 0 && 0 <= a - q * b < b
    ensures a < 0 ==> q <= 0 && -b < a - q * b <= 0
  {
    if a >= 0 then a / b
    else
      var m := (-a) / b;
      assert 0 <= (-a) - m * b < b;
      -m
  }
}
