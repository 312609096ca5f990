/** The HyperLogLog of distinct source addresses (hll.py): 2048 epoch-tagged ranks, with the
    scaled harmonic sum and the number of empty registers kept incrementally. */
module HyperLogLog {
  import opened Words
  import opened Stream

  const HLL_M := 2048
  const HLL_RANKBITS := 21
  const EMPTY_SUM := 2048 * TWO32

  // ----- the hash -----

  // One predicate per step of fmix32 (y is the step's output on x) and per step that undoes one:
  // an xor-shift by 16 undoes itself, one by 13 needs a second shifted copy, and a
  // multiplication by an odd number is undone by its inverse mod 2^32.
  predicate Xor16(x: bv32, y: bv32) { y == x ^ (x >> 16) }
  predicate Xor13(x: bv32, y: bv32) { y == x ^ (x >> 13) }
  predicate Unxor13(x: bv32, y: bv32) { y == x ^ (x >> 13) ^ (x >> 26) }
  predicate Mul1(x: bv32, y: bv32) { y == x * 0x85EBCA6B }
  predicate Unmul1(x: bv32, y: bv32) { y == x * 0xA5CB9243 }
  predicate Mul2(x: bv32, y: bv32) { y == x * 0xC2B2AE35 }
  predicate Unmul2(x: bv32, y: bv32) { y == x * 0x7ED1B41D }

  function DoXor16(x: bv32): (y: bv32)
    ensures Xor16(x, y)
  {
    x ^ (x >> 16)
  }

  function DoXor13(x: bv32): (y: bv32)
    ensures Xor13(x, y)
  {
    x ^ (x >> 13)
  }

  function DoUnxor13(x: bv32): (y: bv32)
    ensures Unxor13(x, y)
  {
    x ^ (x >> 13) ^ (x >> 26)
  }

  function DoMul1(x: bv32): (y: bv32)
    ensures Mul1(x, y)
  {
    x * 0x85EBCA6B
  }

  function DoUnmul1(x: bv32): (y: bv32)
    ensures Unmul1(x, y)
  {
    x * 0xA5CB9243
  }

  function DoMul2(x: bv32): (y: bv32)
    ensures Mul2(x, y)
  {
    x * 0xC2B2AE35
  }

  function DoUnmul2(x: bv32): (y: bv32)
    ensures Unmul2(x, y)
  {
    x * 0x7ED1B41D
  }

  lemma Xor16Undone(x: bv32, y: bv32)
    requires Xor16(x, y)
    ensures Xor16(y, x)
  {
  }

  lemma Xor13Undone(x: bv32, y: bv32)
    requires Xor13(x, y)
    ensures Unxor13(y, x)
  {
  }

  lemma Unxor13Undone(x: bv32, y: bv32)
    requires Unxor13(x, y)
    ensures Xor13(y, x)
  {
  }

  lemma Mul1Undone(x: bv32, y: bv32)
    requires Mul1(x, y)
    ensures Unmul1(y, x)
  {
  }

  lemma Unmul1Undone(x: bv32, y: bv32)
    requires Unmul1(x, y)
    ensures Mul1(y, x)
  {
  }

  lemma Mul2Undone(x: bv32, y: bv32)
    requires Mul2(x, y)
    ensures Unmul2(y, x)
  {
  }

  lemma Unmul2Undone(x: bv32, y: bv32)
    requires Unmul2(x, y)
    ensures Mul2(y, x)
  {
  }

  lemma StepsAreFunctions(x: bv32, y: bv32, z: bv32)
    ensures Xor16(x, y) && Xor16(x, z) ==> y == z
    ensures Xor13(x, y) && Xor13(x, z) ==> y == z
    ensures Unxor13(x, y) && Unxor13(x, z) ==> y == z
    ensures Mul1(x, y) && Mul1(x, z) ==> y == z
    ensures Unmul1(x, y) && Unmul1(x, z) ==> y == z
    ensures Mul2(x, y) && Mul2(x, z) ==> y == z
    ensures Unmul2(x, y) && Unmul2(x, z) ==> y == z
  {
  }

  function Fmix32(x: bv32): bv32 {
    var h := DoXor16(x);
    var h := DoMul1(h);
    var h := DoXor13(h);
    var h := DoMul2(h);
    DoXor16(h)
  }

  /** The steps of Fmix32 undone, last first. */
  function Unmix32(y: bv32): bv32 {
    var h := DoXor16(y);
    var h := DoUnmul2(h);
    var h := DoUnxor13(h);
    var h := DoUnmul1(h);
    DoXor16(h)
  }

  lemma UndoneOnBothSides(x: bv32)
    ensures DoXor16(DoXor16(x)) == x
    ensures DoUnxor13(DoXor13(x)) == x && DoXor13(DoUnxor13(x)) == x
    ensures DoUnmul1(DoMul1(x)) == x && DoMul1(DoUnmul1(x)) == x
    ensures DoUnmul2(DoMul2(x)) == x && DoMul2(DoUnmul2(x)) == x
  {
    hide *;
    Xor16Undone(x, DoXor16(x));
    StepsAreFunctions(DoXor16(x), x, DoXor16(DoXor16(x)));
    Xor13Undone(x, DoXor13(x));
    StepsAreFunctions(DoXor13(x), x, DoUnxor13(DoXor13(x)));
    Unxor13Undone(x, DoUnxor13(x));
    StepsAreFunctions(DoUnxor13(x), x, DoXor13(DoUnxor13(x)));
    Mul1Undone(x, DoMul1(x));
    StepsAreFunctions(DoMul1(x), x, DoUnmul1(DoMul1(x)));
    Unmul1Undone(x, DoUnmul1(x));
    StepsAreFunctions(DoUnmul1(x), x, DoMul1(DoUnmul1(x)));
    Mul2Undone(x, DoMul2(x));
    StepsAreFunctions(DoMul2(x), x, DoUnmul2(DoMul2(x)));
    Unmul2Undone(x, DoUnmul2(x));
    StepsAreFunctions(DoUnmul2(x), x, DoMul2(DoUnmul2(x)));
  }

  /** fmix32 is a permutation of the 32-bit words: Unmix32 is its two-sided inverse. */
  lemma Fmix32IsPermutation(x: bv32)
    ensures Unmix32(Fmix32(x)) == x
    ensures Fmix32(Unmix32(x)) == x
  {
    hide DoXor16, DoXor13, DoUnxor13, DoMul1, DoUnmul1, DoMul2, DoUnmul2;
    hide Xor16, Xor13, Unxor13, Mul1, Unmul1, Mul2, Unmul2;
    forall h: bv32
      ensures DoXor16(DoXor16(h)) == h
      ensures DoUnxor13(DoXor13(h)) == h && DoXor13(DoUnxor13(h)) == h
      ensures DoUnmul1(DoMul1(h)) == h && DoMul1(DoUnmul1(h)) == h
      ensures DoUnmul2(DoMul2(h)) == h && DoMul2(DoUnmul2(h)) == h
    {
      UndoneOnBothSides(h);
    }
  }

  /** The number that a word stands for. */
  function Number(h: bv32): Ip {
    h as int
  }

  /** h >> 21 */
  function Top11(h: bv32): (b: nat)
    ensures b < HLL_M
  {
    hide Number;
    Number(h) / 0x20_0000
  }

  /** h & (1 << 21) - 1 */
  function Low21(h: bv32): (w: nat)
    ensures w < 0x20_0000
  {
    Number(h) % 0x20_0000
  }

  function Bucket(ip: Ip): (b: nat)
    ensures b < HLL_M
  {
    hide Fmix32;
    Top11(Fmix32(ip as bv32))
  }

  function Suffix(ip: Ip): (w: nat)
    ensures w < 0x20_0000
  {
    hide Fmix32;
    Low21(Fmix32(ip as bv32))
  }

  /** Bucket and suffix are the hash's top 11 and low 21 bits: nothing of it is lost. */
  lemma HashSplits(ip: Ip)
    ensures Fmix32(ip as bv32) as nat == Bucket(ip) * 0x20_0000 + Suffix(ip)
  {
    hide Fmix32;
  }

  /** So no two sources, as 32-bit words, have the same bucket and the same suffix. */
  lemma SourcesAreToldApart(a: bv32, b: bv32)
    requires Bucket(Number(a)) == Bucket(Number(b)) && Suffix(Number(a)) == Suffix(Number(b))
    ensures a == b
  {
    hide Number, Fmix32, Bucket, Suffix;
    HashOfWord(a);
    HashOfWord(b);
    SameHash(a, b);
  }

  lemma HashOfWord(a: bv32)
    ensures Number(Fmix32(a)) == Bucket(Number(a)) * 0x20_0000 + Suffix(Number(a))
  {
    hide Fmix32, Bucket, Suffix;
    HashSplits(Number(a));
    ThereAndBack(a);
  }

  lemma SameHash(a: bv32, b: bv32)
    ensures Number(Fmix32(a)) == Number(Fmix32(b)) ==> a == b
  {
    hide Fmix32, Unmix32;
    ThereAndBack(Fmix32(a));
    ThereAndBack(Fmix32(b));
    Fmix32IsPermutation(a);
    Fmix32IsPermutation(b);
  }

  lemma ThereAndBack(a: bv32)
    ensures Number(a) as bv32 == a
  {
  }

  /** The hashes of 10.0.0.57 and 10.0.0.60. */
  lemma KnownHashes()
    ensures Fmix32(0x0A000039) == 0xC35A3D60 && Fmix32(0x0A00003C) == 0x71882D60
  {
  }

  // ----- the rank -----

  lemma Pow2Of21()
    ensures Pow2(20) == 0x10_0000 && Pow2(21) == 0x20_0000
  {
    assert Pow2(2) == 4 && Pow2(4) == 16 && Pow2(6) == 64;
    assert Pow2(8) == 256 && Pow2(10) == 1024 && Pow2(12) == 4096;
    assert Pow2(14) == 16384 && Pow2(16) == 65536 && Pow2(18) == 262144;
  }

  function BitLength(w: nat): nat {
    if w == 0 then 0 else 1 + BitLength(w / 2)
  }

  function RankOf(w: nat): int {
    HLL_RANKBITS + 1 - BitLength(w)
  }

  /** The rank is the position of the leftmost one among 21 bits, counted from 1; 22 when there is none. */
  lemma RankBounds(w: nat)
    requires w < 0x20_0000
    ensures 1 <= RankOf(w) <= 22
    ensures w == 0 <==> RankOf(w) == 22
    ensures w > 0 ==> Pow2(21 - RankOf(w)) <= w < Pow2(22 - RankOf(w))
  {
    Pow2Of21();
    BitLengthBounds(w, 21);
  }

  lemma {:induction false} BitLengthBounds(w: nat, n: nat)
    requires w < Pow2(n)
    ensures BitLength(w) <= n
    ensures w > 0 ==> BitLength(w) > 0 && Pow2(BitLength(w) - 1) <= w < Pow2(BitLength(w))
  {
    if w == 0 {
    } else {
      if n == 0 { assert false; }
      BitLengthBounds(w / 2, n - 1);
    }
  }

  lemma {:induction false} BitLengthUnique(w: nat, n: nat)
    requires n > 0 && Pow2(n - 1) <= w < Pow2(n)
    ensures BitLength(w) == n
  {
    if n > 1 {
      BitLengthUnique(w / 2, n - 1);
    } else {
      assert w == 1 && BitLength(w / 2) == 0;
    }
  }

  /** The top one of 21 bits. */
  predicate Msb(w: nat) {
    w / 0x10_0000 % 2 == 1
  }

  lemma MsbMeansLarge(w: nat)
    requires w < 0x20_0000
    ensures Msb(w) <==> 0x10_0000 <= w
  {
  }

  lemma {:induction false} DoubleLength(w: nat)
    requires w > 0
    ensures BitLength(w * 2) == BitLength(w) + 1
  {
    assert w * 2 / 2 == w;
  }

  method Rank(word: nat) returns (r: nat)
    requires word < 0x20_0000
    ensures r == RankOf(word)
  {
    hide Msb, BitLength;
    if word == 0 {
      assert RankOf(0) == HLL_RANKBITS + 1 by { NoBits(); }
      return HLL_RANKBITS + 1;
    }
    var w := word;
    r := 1;
    while !Msb(w)
      invariant 0 < w < 0x20_0000
      invariant RankOf(w) + r - 1 == RankOf(word)
      decreases 0x20_0000 - w
    {
      MsbMeansLarge(w);
      DoubleLength(w);
      r := r + 1;
      w := w * 2;
    }
    MsbMeansLarge(w);
    Pow2Of21();
    BitLengthUnique(w, 21);
  }

  lemma NoBits()
    ensures BitLength(0) == 0
  {
  }

  // ----- the registers -----

  datatype Reg = Reg(epoch: nat, rank: nat)
  datatype Hll = Hll(epoch: nat, reg: seq<Reg>, harmonicSum: int, zeros: int) {
    ghost predicate Valid() {
      && epoch < 16
      && |reg| == HLL_M
      && forall b :: 0 <= b < HLL_M ==> reg[b].rank <= 22
    }

    /** The rank a register holds in the current window: none when its tag is another epoch's. */
    function Live(b: nat): nat
      requires b < |reg|
    {
      if reg[b].epoch == epoch then reg[b].rank else 0
    }

    /** A packet of this source changes its register. */
    predicate Raises(ip: Ip)
      requires |reg| == HLL_M
    {
      IpRank(ip) > Live(Bucket(ip))
    }

    function Touch(ip: Ip): (s: Hll)
      requires Valid()
      ensures s.Valid() && s.epoch == epoch
    {
      var b := Bucket(ip);
      var newRank := IpRank(ip);
      if Raises(ip) then
        Hll(epoch, reg[b := Reg(epoch, newRank)], harmonicSum + Term(newRank) - Term(Live(b)),
            if Live(b) == 0 then zeros - 1 else zeros)
      else
        this
    }

    function Tick(): Hll {
      Hll(Nibble(epoch + 1), reg, EMPTY_SUM, HLL_M)
    }

    /** The sum that harmonicSum stands for, taken over the first n registers. */
    ghost function SumTo(n: nat): nat
      requires Valid() && n <= HLL_M
    {
      if n == 0 then 0 else SumTo(n - 1) + Term(Live(n - 1))
    }

    /** The number of registers among the first n that hold no rank in this window. */
    ghost function ZerosTo(n: nat): nat
      requires Valid() && n <= HLL_M
    {
      if n == 0 then 0 else ZerosTo(n - 1) + if Live(n - 1) == 0 then 1 else 0
    }

    ghost predicate Clean()
      requires Valid()
    {
      forall b :: 0 <= b < HLL_M ==> Live(b) == 0
    }
  }

  function IpRank(ip: Ip): (r: nat)
    ensures 1 <= r <= 22
  {
    RankBounds(Suffix(ip));
    RankOf(Suffix(ip))
  }

  /** 2^(32 - rank). */
  function Term(rank: nat): nat
    requires rank <= 22
  {
    Pow2(32 - rank)
  }

  function FreshRegs(): (regs: seq<Reg>)
    ensures |regs| == HLL_M && forall b :: 0 <= b < HLL_M ==> regs[b] == Reg(0, 0)
  {
    seq(HLL_M, _ => Reg(0, 0))
  }

  function Fresh(): (s: Hll)
    ensures s.Valid() && s.Clean()
  {
    Hll(0, FreshRegs(), EMPTY_SUM, HLL_M)
  }

  class HyperLogLog {
    var epoch: nat
    var reg: seq<Reg>
    var harmonicSum: int
    var zeros: int

    ghost function State(): Hll
      reads this
    {
      Hll(epoch, reg, harmonicSum, zeros)
    }

    ghost predicate Valid()
      reads this
    {
      State().Valid()
    }

    constructor ()
      ensures State() == Fresh() && Valid()
    {
      epoch := 0;
      reg := seq(HLL_M, _ => Reg(0, 0));
      harmonicSum := EMPTY_SUM;
      zeros := HLL_M;
    }

    function RankVal(b: nat): (r: nat)
      requires Valid() && b < HLL_M
      reads this
      ensures r == State().Live(b) && r <= 22
    {
      var Reg(e, r) := reg[b];
      if e == epoch then r else 0
    }

    method Update(ip: Ip)
      requires Valid()
      modifies this
      ensures Valid() && State() == old(State()).Touch(ip)
    {
      var b := Bucket(ip);
      var w := Suffix(ip);
      var newRank := Rank(w);
      RankBounds(w);
      var oldRank := RankVal(b);
      if newRank > oldRank {
        if oldRank == 0 {
          zeros := zeros - 1;
        }
        harmonicSum := harmonicSum + (Term(newRank) - Term(oldRank));
        reg := reg[b := Reg(epoch, newRank)];
      }
    }

    method WindowTick()
      requires Valid()
      modifies this
      ensures Valid() && State() == old(State()).Tick()
    {
      epoch := Nibble(epoch + 1);
      harmonicSum := EMPTY_SUM;
      zeros := HLL_M;
    }
  }

  // ----- whole runs -----

  ghost function After(es: seq<Event>): (s: Hll)
    ensures s.Valid()
  {
    if es == [] then Fresh()
    else match Last(es)
      case Packet(ip) => After(Init(es)).Touch(ip)
      case Tick => After(Init(es)).Tick()
  }

  lemma {:induction false} OneRegisterChanges(s: Hll, t: Hll, b: nat, n: nat)
    requires s.Valid() && t.Valid() && b < HLL_M && n <= HLL_M
    requires forall i :: 0 <= i < HLL_M && i != b ==> s.Live(i) == t.Live(i)
    ensures t.SumTo(n) == s.SumTo(n) + if b < n then Term(t.Live(b)) - Term(s.Live(b)) else 0
    ensures t.ZerosTo(n) == s.ZerosTo(n)
      + if b < n then (if t.Live(b) == 0 then 1 else 0) - (if s.Live(b) == 0 then 1 else 0) else 0
  {
    hide Term;
    if n == 0 {
    } else {
      OneRegisterChanges(s, t, b, n - 1);
    }
  }

  /** The incremental sum and zero count differ from the true ones by exactly what stale registers
      held at the window's start. */
  lemma {:induction false} AggregatesDrift(es: seq<Event>)
    ensures var s, w := After(es), After(Start(es));
      && s.harmonicSum == s.SumTo(HLL_M) + EMPTY_SUM - w.SumTo(HLL_M)
      && s.zeros == s.ZerosTo(HLL_M) + HLL_M - w.ZerosTo(HLL_M)
  {
    hide Bucket, IpRank, Term;
    if es == [] {
    } else if Last(es).Packet? {
      AggregatesDrift(Init(es));
      OneRegisterChanges(After(Init(es)), After(es), Bucket(Last(es).src), HLL_M);
    }
  }

  lemma TermBounds(r: nat)
    requires r <= 22
    ensures 0x400 <= Term(r) <= TWO32
    ensures Term(r) == TWO32 <==> r == 0
  {
    assert Pow2(2) == 4 && Pow2(4) == 16 && Pow2(6) == 64 && Pow2(8) == 256 && Pow2(10) == 1024;
    PowersGrow(10, 32 - r);
    Pow2Of21();
    assert Pow2(23) == 0x80_0000 && Pow2(25) == 0x200_0000 && Pow2(27) == 0x800_0000 && Pow2(29) == 0x2000_0000;
    assert Pow2(31) == 0x8000_0000 && Pow2(32) == TWO32;
    if r > 0 {
      PowersGrow(32 - r, 31);
    }
  }

  lemma {:induction false} PowersGrow(a: nat, b: nat)
    requires a <= b
    ensures Pow2(a) <= Pow2(b)
  {
    if a == b {
    } else {
      PowersGrow(a, b - 1);
    }
  }

  lemma {:induction false} SumBounds(s: Hll, n: nat)
    requires s.Valid() && n <= HLL_M
    ensures n * 0x400 <= s.SumTo(n) <= n * TWO32
    ensures s.SumTo(n) == n * TWO32 <==> forall b :: 0 <= b < n ==> s.Live(b) == 0
    ensures s.ZerosTo(n) <= n
    ensures s.ZerosTo(n) == n <==> forall b :: 0 <= b < n ==> s.Live(b) == 0
  {
    hide Term;
    if n == 0 {
    } else {
      SumBounds(s, n - 1);
      TermBounds(s.Live(n - 1));
    }
  }

  lemma {:induction false} SumShrinks(s: Hll, t: Hll, n: nat)
    requires s.Valid() && t.Valid() && n <= HLL_M
    requires forall i :: 0 <= i < HLL_M ==> s.Live(i) <= t.Live(i)
    ensures t.SumTo(n) <= s.SumTo(n) && t.ZerosTo(n) <= s.ZerosTo(n)
  {
    hide Pow2;
    if n == 0 {
    } else {
      SumShrinks(s, t, n - 1);
      PowersGrow(32 - t.Live(n - 1), 32 - s.Live(n - 1));
    }
  }

  lemma {:induction false} RanksGrow(es: seq<Event>, b: nat)
    requires b < HLL_M
    ensures After(Start(es)).Live(b) <= After(es).Live(b)
  {
    hide Bucket, IpRank, Term;
    if es == [] {
    } else if Last(es).Packet? {
      RanksGrow(Init(es), b);
    }
  }

  /** The aggregates are those of the live registers exactly when the window started clean. */
  lemma {:induction false} AggregatesExactIffClean(es: seq<Event>)
    ensures After(es).harmonicSum == After(es).SumTo(HLL_M) <==> After(Start(es)).Clean()
    ensures After(es).zeros == After(es).ZerosTo(HLL_M) <==> After(Start(es)).Clean()
  {
    AggregatesDrift(es);
    SumBounds(After(Start(es)), HLL_M);
  }

  /** Clean or not, both aggregates stay in range: the estimate's divisor is never zero. */
  lemma {:induction false} AggregatesInRange(es: seq<Event>)
    ensures 0x20_0000 <= After(es).harmonicSum <= EMPTY_SUM
    ensures 0 <= After(es).zeros <= HLL_M
  {
    var s, w := After(es), After(Start(es));
    AggregatesDrift(es);
    SumBounds(s, HLL_M);
    SumBounds(w, HLL_M);
    forall b | 0 <= b < HLL_M
      ensures w.Live(b) <= s.Live(b)
    {
      RanksGrow(es, b);
    }
    SumShrinks(w, s, HLL_M);
  }

  /** A packet raises its source's register to the source's rank if that is higher, and no other. */
  lemma TouchRaises(s: Hll, ip: Ip, b: nat)
    requires s.Valid() && b < HLL_M
    ensures s.Touch(ip).Live(b) == if Bucket(ip) == b && IpRank(ip) > s.Live(b) then IpRank(ip) else s.Live(b)
  {
  }

  /** r is the largest rank among the sources of h that fall in bucket b, 0 when there are none. */
  ghost predicate IsMaxRank(h: seq<Ip>, b: nat, r: nat) {
    && (forall x <- h :: Bucket(x) == b ==> IpRank(x) <= r)
    && (r == 0 || exists x <- h :: Bucket(x) == b && IpRank(x) == r)
  }

  lemma {:induction false} RegistersHoldMaxRank(es: seq<Event>, b: nat)
    requires After(Start(es)).Clean() && b < HLL_M
    ensures IsMaxRank(Window(es), b, After(es).Live(b))
  {
    hide Hll.Touch, Bucket, IpRank;
    if es == [] {
    } else if Last(es).Packet? {
      RegistersHoldMaxRank(Init(es), b);
      var h, x := Window(Init(es)), Last(es).src;
      TouchRaises(After(Init(es)), x, b);
      assert Window(es) == h + [x];
      assert forall y :: y in h + [x] <==> y in h || y == x;
    }
  }

  lemma {:induction false} SameRanksSameSums(s: Hll, t: Hll, n: nat)
    requires s.Valid() && t.Valid() && n <= HLL_M
    requires forall i :: 0 <= i < HLL_M ==> s.Live(i) == t.Live(i)
    ensures t.SumTo(n) == s.SumTo(n) && t.ZerosTo(n) == s.ZerosTo(n)
  {
    if n == 0 {
    } else {
      SameRanksSameSums(s, t, n - 1);
    }
  }

  /** Clean windows with the same set of sources, in whatever order and multiplicity, read the same. */
  lemma {:induction false} OnlyTheSourceSetMatters(es: seq<Event>, fs: seq<Event>)
    requires After(Start(es)).Clean() && After(Start(fs)).Clean()
    requires forall x :: x in Window(es) <==> x in Window(fs)
    ensures forall b :: 0 <= b < HLL_M ==> After(es).Live(b) == After(fs).Live(b)
    ensures After(es).harmonicSum == After(fs).harmonicSum && After(es).zeros == After(fs).zeros
  {
    forall b | 0 <= b < HLL_M
      ensures After(es).Live(b) == After(fs).Live(b)
    {
      RegistersHoldMaxRank(es, b);
      RegistersHoldMaxRank(fs, b);
      SameMaxRank(Window(es), Window(fs), b, After(es).Live(b), After(fs).Live(b));
    }
    SameRanksSameSums(After(es), After(fs), HLL_M);
    AggregatesExactIffClean(es);
    AggregatesExactIffClean(fs);
  }

  lemma SameMaxRank(h: seq<Ip>, k: seq<Ip>, b: nat, r: nat, q: nat)
    requires forall x :: x in h <==> x in k
    requires IsMaxRank(h, b, r) && IsMaxRank(k, b, q)
    ensures r == q
  {
  }

  /** The index of the window that last saw a packet of bucket b, -1 when none has. */
  function LastTouch(es: seq<Event>, b: nat): int {
    if es == [] then -1
    else if Last(es).Packet? && Bucket(Last(es).src) == b then Ticks(es)
    else LastTouch(Init(es), b)
  }

  /** Whether or not a packet raises its register, it leaves it tagged with the current epoch. */
  lemma TouchTags(s: Hll, ip: Ip, b: nat)
    requires s.Valid() && b < HLL_M
    ensures var r := s.Touch(ip).reg[b];
      if Bucket(ip) == b then r.epoch == s.epoch && r.rank > 0 else r == s.reg[b]
  {
    hide Bucket, IpRank, Term;
  }

  /** The register was last tagged in window t; never when t is negative. */
  predicate TaggedAt(r: Reg, t: int) {
    if t < 0 then r == Reg(0, 0) else r.epoch == Nibble(t) && r.rank > 0
  }

  lemma {:induction false} EpochCountsTicks(es: seq<Event>)
    ensures After(es).epoch == Nibble(Ticks(es))
  {
    assert Nibble(0) == 0;
    hide Nibble, Hll.Touch;
    if es == [] {
    } else {
      NibbleNext(Ticks(Init(es)));
      EpochCountsTicks(Init(es));
    }
  }

  lemma {:induction false} TagIsLastTouch(es: seq<Event>, b: nat)
    requires b < HLL_M
    ensures -1 <= LastTouch(es, b) <= Ticks(es)
    ensures TaggedAt(After(es).reg[b], LastTouch(es, b))
  {
    hide Nibble, Bucket, Hll.Touch;
    if es == [] {
    } else {
      TagIsLastTouch(Init(es), b);
      if Last(es).Packet? {
        EpochCountsTicks(Init(es));
        TouchTags(After(Init(es)), Last(es).src, b);
      } else {
        hide TaggedAt;
      }
    }
  }

  /** The next window does not reuse the number of the window that last touched the register. */
  predicate Retired(es: seq<Event>, b: nat) {
    LastTouch(es, b) < 0 || !Reuses(Ticks(es) + 1, LastTouch(es, b))
  }

  /** A tick empties exactly the registers so retired. */
  lemma {:induction false} TickEmptiesRegisterIff(es: seq<Event>, b: nat)
    requires b < HLL_M
    ensures After(es + [Tick]).Live(b) == 0 <==> Retired(es, b)
  {
    hide Nibble, Reuses, LastTouch;
    TagIsLastTouch(es, b);
    EpochCountsTicks(es);
    NibbleNext(Ticks(es));
    NibbleEq(Ticks(es) + 1, LastTouch(es, b));
    assert Init(es + [Tick]) == es;
  }

  lemma {:induction false} NextWindowIsCleanIff(es: seq<Event>)
    ensures After(es + [Tick]).Clean() <==> forall b :: 0 <= b < HLL_M ==> Retired(es, b)
  {
    var s := After(es + [Tick]);
    forall b | 0 <= b < HLL_M
      ensures s.Live(b) == 0 <==> Retired(es, b)
    {
      TickEmptiesRegisterIff(es, b);
    }
    hide After, Retired;
  }

  lemma {:induction false} FirstSixteenWindowsAreClean(es: seq<Event>)
    requires Ticks(es) < 16
    ensures After(Start(es)).Clean()
  {
    assert After([]) == Fresh();
    hide After, Reuses, LastTouch;
    if es == [] {
    } else if Last(es).Tick? {
      var was := Init(es);
      assert was + [Tick] == es && Ticks(es) == Ticks(was) + 1;
      forall b | 0 <= b < HLL_M
        ensures Retired(was, b)
      {
        TagIsLastTouch(was, b);
        if LastTouch(was, b) >= 0 {
          TooSoonToReuse(Ticks(was) + 1, LastTouch(was, b));
        }
      }
      NextWindowIsCleanIff(was);
    } else {
      FirstSixteenWindowsAreClean(Init(es));
    }
  }
}
