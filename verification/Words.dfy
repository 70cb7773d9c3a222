/** Machine integers.

    `u64` arithmetic wraps, because the proxy is built in release mode without
    overflow checks. The `+` and `*` operators of `U256` abort on overflow, and
    its `overflowing_*` operations wrap and report the wrap in a flag.
 */
module Words {
  import opened Outcomes
  import opened Products

  const U64_MODULUS := 0x1_0000_0000_0000_0000
  const U256_MODULUS := 0x1_0000000000000000_0000000000000000_0000000000000000_0000000000000000

  type byte = x: int | 0 <= x < 256
  type u64 = x: int | 0 <= x < U64_MODULUS
  type i64 = x: int | -0x8000_0000_0000_0000 <= x < 0x8000_0000_0000_0000
  type u256 = x: int | 0 <= x < U256_MODULUS

  function Max(a: int, b: int): int {
    if a < b then b else a
  }

  function WrappingAdd(a: u64, b: u64): (r: u64)
    ensures r == a + b <==> a + b < U64_MODULUS
    ensures r == (a + b) % U64_MODULUS
  {
    if a + b < U64_MODULUS then a + b else a + b - U64_MODULUS
  }

  function OverflowingAdd(a: u256, b: u256): (r: (u256, bool))
    ensures r.1 <==> a + b != r.0
    ensures r.0 == (a + b) % U256_MODULUS
  {
    if a + b < U256_MODULUS then (a + b, false) else (a + b - U256_MODULUS, true)
  }

  function OverflowingSub(a: u256, b: u256): (r: (u256, bool))
    ensures r.1 <==> a - b != r.0
    ensures r.0 == (a - b) % U256_MODULUS
  {
    if b <= a then (a - b, false) else (a - b + U256_MODULUS, true)
  }

  function CheckedAdd(a: u256, b: u256): (r: Result<u256>)
    ensures r.Ok? ==> r.value == a + b
    ensures r.Err? ==> r == Err(Panic) && a + b >= U256_MODULUS
  {
    var (sum, flag) := OverflowingAdd(a, b);
    if flag then Err(Panic) else Ok(sum)
  }

  function CheckedMul(a: u256, b: u64): (r: Result<u256>)
    ensures r.Ok? ==> r.value == a * b
    ensures r.Err? ==> r == Err(Panic) && a * b >= U256_MODULUS
  {
    if a * b < U256_MODULUS then NonNegativeProduct(a, b); Ok(a * b) else Err(Panic)
  }
}
