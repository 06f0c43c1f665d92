/** Options, results and the 64-bit arithmetic that every other module shares. */
module Basics {

  datatype Option<+T> = None | Some(value: T)

  datatype Result<+T, +E> = Ok(value: T) | Err(error: E)

  const MAX_INT64: int := 0x7FFF_FFFF_FFFF_FFFF
  const MAX_INT32: int := 0x7FFF_FFFF
  const MIN_INT64: int := -0x8000_0000_0000_0000

  /** The range of Go's int64 and of a Postgres bigint. */
  predicate IsInt64(x: int) {
    MIN_INT64 <= x <= MAX_INT64
  }

  /** Go's int and int64. */
  type Int64 = x: int | IsInt64(x)

  /** What an int64 operation leaves behind when its exact result is `x`. */
  function Wrap64(x: int): (r: int)
    ensures IsInt64(r)
    ensures IsInt64(x) ==> r == x
    ensures (r - x) % 0x1_0000_0000_0000_0000 == 0
  {
    (x - MIN_INT64) % 0x1_0000_0000_0000_0000 + MIN_INT64
  }

  /** Wrapping at every step or once at the end is the same. */
  lemma WrapAdd(a: int, b: int)
    ensures Wrap64(Wrap64(a) + Wrap64(b)) == Wrap64(a + b)
    ensures Wrap64(Wrap64(a) + b) == Wrap64(a + b)
  {
    var i, j := (Wrap64(a) - a) / 0x1_0000_0000_0000_0000, (Wrap64(b) - b) / 0x1_0000_0000_0000_0000;
    WrapShift(a + b, i);
    WrapShift(a + b, i + j);
  }

  lemma WrapShift(x: int, k: int)
    ensures Wrap64(x + k * 0x1_0000_0000_0000_0000) == Wrap64(x)
  {
  }

  /** Go's (and Postgres's) integer division, which truncates towards zero. */
  function TruncDiv(a: int, b: int): (q: int)
    requires b > 0
    ensures a >= 0 ==> q * b <= a < (q + 1) * b
    ensures a <= 0 ==> (q - 1) * b < a <= q * b
  {
    if a >= 0 then a / b else -((-a) / b)
  }

  lemma MulMono(x: int, y: int, z: int)
    requires x <= y && z >= 0
    ensures x * z <= y * z
  {
  }

  /** floor(a / b) moves past q exactly when a moves past q * b. */
  lemma FloorDiv(a: int, b: int, q: int)
    requires b > 0
    ensures q <= a / b <==> q * b <= a
  {
    var d := a / b;
    assert d * b <= a < d * b + b;
    if q <= d {
      assert q * b <= d * b;
    } else {
      assert q * b >= (d + 1) * b;
    }
  }
}
