/** Go's fixed-width integer arithmetic, where it can be observed. */
module Machine {
  const INT64_MAX: int := 0x7fff_ffff_ffff_ffff
  const INT64_MIN: int := -0x8000_0000_0000_0000
  const TWO_64: int := 0x1_0000_0000_0000_0000

  /** The int64 value that a mathematical integer wraps to. */
  function Wrap64(x: int): (r: int)
    ensures INT64_MIN <= r <= INT64_MAX
    ensures INT64_MIN <= x <= INT64_MAX ==> r == x
  {
    if INT64_MIN <= x <= INT64_MAX then x
    else (x - INT64_MIN) % TWO_64 + INT64_MIN
  }

  /** Wrapping moves a value by whole ranges. */
  lemma WrapQuotient(x: int) returns (k: int)
    ensures x == Wrap64(x) + k * TWO_64
  {
    k := if INT64_MIN <= x <= INT64_MAX then 0 else (x - INT64_MIN) / TWO_64;
  }

  /** Too large a value loses at least one whole range. */
  lemma WrapDrops(x: int)
    requires x > INT64_MAX
    ensures Wrap64(x) <= x - TWO_64
  {
    var k := WrapQuotient(x);
  }

  /** Too small a value gains at least one. */
  lemma WrapRises(x: int)
    requires x < INT64_MIN
    ensures Wrap64(x) >= x + TWO_64
  {
    var k := WrapQuotient(x);
  }

  /** Values a whole number of ranges apart wrap to the same. */
  lemma WrapUnique(x: int, y: int, k: int)
    requires x == y + k * TWO_64
    ensures Wrap64(x) == Wrap64(y)
  {
    var a := WrapQuotient(x);
    var b := WrapQuotient(y);
    hide Wrap64;
    assert Wrap64(x) - Wrap64(y) == (b + k - a) * TWO_64;
  }

  /** A running sum may be wrapped at every step or once at the end. */
  lemma WrapSum(x: int, y: int)
    ensures Wrap64(Wrap64(x) + y) == Wrap64(x + y)
  {
    var k := WrapQuotient(x);
    WrapUnique(x + y, Wrap64(x) + y, k);
  }

  /** An int accumulator of a mathematical sum. */
  method AddInt(acc: int, x: int, ghost sum: int) returns (r: int)
    requires acc == Wrap64(sum)
    ensures r == Wrap64(sum + x)
  {
    WrapSum(sum, x);
    r := Wrap64(acc + x);
  }

  /** A factor may be wrapped before the product is. */
  lemma WrapProduct(x: int, y: int)
    ensures Wrap64(Wrap64(x) * y) == Wrap64(x * y)
  {
    var k := WrapQuotient(x);
    var r := Wrap64(x);
    hide Wrap64;
    assert (r + k * TWO_64) * y == r * y + k * y * TWO_64;
    WrapUnique(x * y, r * y, k * y);
  }

  /** Go's integer division, which truncates toward zero. */
  function TruncDiv(x: int, d: int): (q: int)
    requires d > 0
    ensures 0 <= x ==> q * d <= x < (q + 1) * d
    ensures x < 0 ==> (q - 1) * d < x <= q * d
  {
    if x >= 0 then x / d else -((-x) / d)
  }
}
