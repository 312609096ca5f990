/** Fixed-width words, the multiply-shift hash family and bitmaps. */
module Words {
  const TWO32 := 0x1_0000_0000

  type Ip = x: int | 0 <= x < TWO32
  type Byte = x: int | 0 <= x < 256

  const A1 := 0x9E3779B1
  const A2 := 0x85EBCA77

  datatype Option<+T> = None | Some(value: T)

  function Min(a: int, b: int): int {
    if a < b then a else b
  }

  /** 2^n */
  function Pow2(n: nat): (p: nat)
    ensures p > 0
  {
    if n == 0 then 1 else 2 * Pow2(n - 1)
  }

  /** x & 0xF. */
  function Nibble(x: int): (r: nat)
    ensures r < 16
  {
    x % 16
  }

  lemma NibbleNext(n: int)
    ensures Nibble(Nibble(n) + 1) == Nibble(n + 1)
  {
  }

  /** Window `now` has the 4-bit number of window t. */
  predicate Reuses(now: int, t: int) {
    (now - t) % 16 == 0
  }

  lemma NibbleEq(a: int, b: int)
    ensures Nibble(a) == Nibble(b) <==> Reuses(a, b)
  {
  }

  lemma TooSoonToReuse(now: int, t: int)
    requires 0 < now - t < 16
    ensures !Reuses(now, t)
  {
  }

  /** x & 0xFFFF. */
  function Word16(x: int): (r: nat)
    ensures r < 0x1_0000
  {
    x % 0x1_0000
  }

  lemma Word16Next(n: int)
    ensures Word16(Word16(n) + 1) == Word16(n + 1)
  {
  }

  /** The low 32 bits. */
  function Word32(x: int): (r: nat)
    ensures r < TWO32
  {
    x % TWO32
  }

  lemma Word32Add(x: int, y: int)
    ensures Word32(Word32(x) + y) == Word32(x + y)
  {
  }

  lemma Word32Next(n: int)
    ensures Word32(Word32(n) + 1) == Word32(n + 1)
  {
  }

  lemma ModShift(x: int, k: int)
    ensures (x + 256 * k) % 256 == x % 256
  {
  }

  /** The low 32 bits of x * a, shifted right by the bits that `unit` (a power of two) stands for. */
  function MulShift(x: nat, a: nat, unit: nat): nat
    requires unit > 0
  {
    x * a % TWO32 / unit
  }

  /** It is one digit group of the product: the bits above it are cut, those below it dropped. */
  lemma ProductSplits(x: nat, a: nat, unit: nat) returns (high: nat, low: nat)
    requires unit > 0
    ensures x * a == high * 0x1_0000_0000 + (MulShift(x, a, unit) * unit + low)
    ensures low < unit && MulShift(x, a, unit) * unit + low < 0x1_0000_0000
  {
    var p := x * a;
    high, low := p / TWO32, p % TWO32 % unit;
  }

  lemma DigitGroup(x: nat, a: nat, unit: nat, high: nat, group: nat, low: nat)
    requires unit > 0 && low < unit && group * unit + low < TWO32
    requires x * a == high * TWO32 + (group * unit + low)
    ensures MulShift(x, a, unit) == group
  {
    CutHigh(x * a, high, group * unit + low);
    Quotient(group, unit, low);
  }

  lemma CutHigh(p: nat, high: nat, rest: nat)
    requires p == high * TWO32 + rest && rest < TWO32
    ensures p % TWO32 == rest
  {
  }

  lemma Quotient(q: nat, unit: nat, low: nat)
    requires unit > 0 && low < unit
    ensures (q * unit + low) / unit == q
  {
    var r, s := (q * unit + low) / unit, (q * unit + low) % unit;
    assert q * unit + low == r * unit + s;
    if q < r {
      Grows(q + 1, r, unit);
    } else if r < q {
      Grows(r + 1, q, unit);
    }
  }

  lemma Remainder(q: nat, unit: nat, low: nat)
    requires unit > 0 && low < unit
    ensures (q * unit + low) % unit == low
  {
    Quotient(q, unit, low);
    var p := q * unit + low;
    assert p == p / unit * unit + p % unit;
  }

  lemma HalveTwice(x: nat, p: nat)
    requires p > 0
    ensures x / 2 / p == x / (2 * p)
  {
    var q, r := x / 2 / p, x / 2 % p;
    assert x == 2 * (q * p + r) + x % 2;
    assert 2 * (q * p) == q * (2 * p);
    Quotient(q, 2 * p, 2 * r + x % 2);
  }

  lemma Grows(a: nat, b: nat, unit: nat)
    requires a <= b
    ensures a * unit <= b * unit
  {
  }

  /** A 16-bit bitmap is the set of positions of its ones: `|= 1 << k` inserts k, a population count is the size. */
  type Bitmap = s: set<nat> | forall k :: k in s ==> k < 16

  lemma SubsetSize<T>(a: set<T>, b: set<T>)
    requires a <= b
    ensures |a| <= |b|
  {
    assert b == a + (b - a);
  }
}
