/**
  Go's fixed-width integers and the conversions between them, plus the
  Option and Result wrappers the rest of the model uses for nil values,
  parse failures and error returns.
 */
module Base {

  type Byte = x: int | 0 <= x < 0x100
  type Uint16 = x: int | 0 <= x < 0x1_0000
  type Uint32 = x: int | 0 <= x < 0x1_0000_0000

  const MinInt64: int := -0x8000_0000_0000_0000
  const MaxInt64: int := 0x7FFF_FFFF_FFFF_FFFF
  const MaxUint64: int := 0xFFFF_FFFF_FFFF_FFFF

  predicate IsInt64(x: int) {
    MinInt64 <= x <= MaxInt64
  }

  datatype Option<+T> = None | Some(value: T)

  datatype Result<+T, +E> = Ok(value: T) | Err(error: E)

  /** The value held, or `default` where Go falls back after a failed parse. */
  function GetOr<T>(o: Option<T>, default: T): (r: T)
    ensures o.Some? ==> r == o.value
    ensures o.None? ==> r == default
  {
    match o
    case Some(v) => v
    case None => default
  }

  /** Go's `byte(x)`: the low 8 bits of the two's-complement value. */
  function ByteOf(x: int): (b: Byte)
    ensures 0 <= x < 0x100 ==> b == x
    ensures (x - b) % 0x100 == 0
  {
    x % 0x100
  }

  /** Go's `uint32(x)`: the low 32 bits of the two's-complement value. */
  function Uint32Of(x: int): (u: Uint32)
    ensures 0 <= x < 0x1_0000_0000 ==> u == x
    ensures (x - u) % 0x1_0000_0000 == 0
  {
    x % 0x1_0000_0000
  }

  /** Go's `int64` arithmetic: the result of an operation, wrapped into 64 bits. */
  function Int64Of(x: int): (r: int)
    ensures IsInt64(r)
    ensures IsInt64(x) ==> r == x
    ensures (x - r) % 0x1_0000_0000_0000_0000 == 0
  {
    (x - MinInt64) % 0x1_0000_0000_0000_0000 + MinInt64
  }

  /** Go's integer `/`, which truncates toward zero (Dafny's `/` is Euclidean). */
  function Quo(a: int, b: int): (q: int)
    requires b > 0
    ensures a >= 0 ==> 0 <= q && q * b <= a < q * b + b
    ensures a < 0 ==> q <= 0 && a <= q * b < a + b
  {
    if a >= 0 then a / b else -((-a) / b)
  }

  /** time.Second in nanoseconds. */
  const Second: int := 1_000_000_000

  /**
    `time.Duration(n) * time.Second`: `n` seconds in nanoseconds, as the
    int64 product, which wraps for counts beyond about 292 years.
   */
  function Seconds(n: int): (d: int)
    ensures IsInt64(d)
    ensures IsInt64(n * Second) ==> d == n * Second
  {
    Int64Of(n * Second)
  }
}
