/** Result and option types shared by the modules, and the machine integers of Go. */
module Common {

  datatype Option<+T> = None | Some(value: T)

  datatype Result<+T, +E> = Ok(value: T) | Err(error: E)

  /** A point in time. The zero time means "not set", as in Go. */
  type Time = int

  const ZERO_TIME: Time := 0

  // ---------- Machine integers ----------

  const INT64_LIMIT := 0x8000_0000_0000_0000

  /** Two's complement wrap-around to 64 bits. */
  function Wrap64(n: int): int {
    (n + INT64_LIMIT) % (2 * INT64_LIMIT) - INT64_LIMIT
  }

  lemma WrapFits(n: int)
    ensures Wrap64(n) == n <==> -INT64_LIMIT <= n < INT64_LIMIT
    ensures -INT64_LIMIT <= Wrap64(n) < INT64_LIMIT
  {
  }

  /** The one value of 64 bits that differs from `n` by whole turns. */
  lemma WrapTurns(n: int) returns (turns: int)
    ensures n == Wrap64(n) + turns * 0x1_0000_0000_0000_0000
    ensures -0x8000_0000_0000_0000 <= Wrap64(n) < 0x8000_0000_0000_0000
  {
    turns := (n + INT64_LIMIT) / (2 * INT64_LIMIT);
  }

  lemma WrapSum(a: int, b: int)
    ensures Wrap64(Wrap64(a) + b) == Wrap64(a + b)
  {
    var m := 2 * INT64_LIMIT;
    var k := (a + INT64_LIMIT) / m;
    assert Wrap64(a) == a - k * m;
    WrapShift(a + b, -k);
  }

  lemma WrapShift(n: int, k: int)
    ensures Wrap64(n + k * (2 * INT64_LIMIT)) == Wrap64(n)
  {
  }

  const INT32_LIMIT := 0x8000_0000

  /** What Go's conversion to a 32-bit integer keeps. */
  function Int32(n: int): int {
    (n + INT32_LIMIT) % (2 * INT32_LIMIT) - INT32_LIMIT
  }

  lemma Int32Fits(n: int)
    ensures Int32(n) == n <==> -INT32_LIMIT <= n < INT32_LIMIT
  {
  }

  /** The one value of 32 bits that differs from `n` by whole turns. */
  lemma Int32Turns(n: int) returns (turns: int)
    ensures n == Int32(n) + turns * 0x1_0000_0000
    ensures -0x8000_0000 <= Int32(n) < 0x8000_0000
  {
    turns := (n + INT32_LIMIT) / (2 * INT32_LIMIT);
  }
}
