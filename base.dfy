/**
 * Java value semantics the rest of the model relies on: nullable references,
 * exceptions, fixed-width integers with two's-complement wrap-around, and
 * Java's truncating integer division.
 */
module Base {

  /** A Java reference that may be null. */
  datatype Option<+T> = None | Some(value: T)

  /** The outcome of a Java call that either returns or throws. */
  datatype Result<+T> = Ok(value: T) | Err(exception: string)

  type int32 = x: int | -0x8000_0000 <= x < 0x8000_0000
  type int64 = x: int | -0x8000_0000_0000_0000 <= x < 0x8000_0000_0000_0000
  type uint8 = x: int | 0 <= x < 0x100

  const TWO_32: int := 0x1_0000_0000
  const TWO_64: int := 0x1_0000_0000_0000_0000

  /** Narrowing of an unbounded integer to a Java `int` (two's complement). */
  function Wrap32(x: int): (r: int32)
    ensures (x - r) % TWO_32 == 0
    ensures -0x8000_0000 <= x < 0x8000_0000 ==> r == x
  {
    (x + 0x8000_0000) % TWO_32 - 0x8000_0000
  }

  /** Narrowing of an unbounded integer to a Java `long` (two's complement). */
  function Wrap64(x: int): (r: int64)
    ensures (x - r) % TWO_64 == 0
    ensures -0x8000_0000_0000_0000 <= x < 0x8000_0000_0000_0000 ==> r == x
  {
    (x + 0x8000_0000_0000_0000) % TWO_64 - 0x8000_0000_0000_0000
  }

  /** Java's `/` on integers: the quotient is rounded toward zero. */
  function JavaDiv(a: int, b: int): (q: int)
    requires b > 0
    ensures a >= 0 ==> 0 <= a - q * b < b
    ensures a < 0 ==> 0 <= q * b - a < b
  {
    if a >= 0 then a / b else -((-a) / b)
  }

  /** Java's `>> 1` on a `long`: an arithmetic shift, i.e. division rounded toward minus infinity. */
  function ShiftRight1(x: int): (r: int)
    ensures 2 * r <= x < 2 * r + 2
  {
    x / 2
  }

  lemma MulLeft(a: int, b: int, c: int)
    requires a <= b && c >= 0
    ensures a * c <= b * c
  {
  }

  /** Concatenation regroups: appending to a concatenation appends to its second part. */
  lemma SeqAssoc<T>(a: seq<T>, b: seq<T>, c: seq<T>)
    ensures a + b + c == a + (b + c)
  {
  }

  /** Quotient and remainder are unique. */
  lemma ModUnique(a: int, w: int, q: int, r: int)
    requires w > 0 && 0 <= r < w && a == q * w + r
    ensures a / w == q && a % w == r
  {
    var q', r' := a / w, a % w;
    assert (q' - q) * w == r - r';
    if q' > q {
      MulLeft(1, q' - q, w);
    } else if q' < q {
      MulLeft(1, q - q', w);
    }
  }

  /** Narrowing to `int` depends only on the value modulo 2^32. */
  lemma Wrap32Congruent(x: int, y: int, k: int)
    requires x == y + k * TWO_32
    ensures Wrap32(x) == Wrap32(y)
  {
    var q, r := (y + 0x8000_0000) / TWO_32, (y + 0x8000_0000) % TWO_32;
    ModUnique(x + 0x8000_0000, TWO_32, q + k, r);
  }
}
