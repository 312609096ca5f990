/** The Bloom filter of blocked addresses (bloom.py) and its image in the device's memory. */
module Bloom {
  import opened Words

  const M_BITS := 0x1_0000
  const M_BYTES := 0x2000
  const M_WORDS := 0x1000

  type Word = x: int | 0 <= x < 0x1_0000

  function H1(x: Ip): (i: nat)
    ensures i < M_BITS
  {
    MulShift(x, A1, 0x1_0000)
  }

  function H2(x: Ip): (i: nat)
    ensures i < M_BITS
  {
    MulShift(x, A2, 0x1_0000)
  }

  /** Each index is the top 16 bits of the low 32 of a product with its own constant. */
  lemma HashesSplit(x: Ip) returns (high1: nat, low1: nat, high2: nat, low2: nat)
    ensures x * 0x9E3779B1 == high1 * 0x1_0000_0000 + (H1(x) * 0x1_0000 + low1) && low1 < 0x1_0000
    ensures x * 0x85EBCA77 == high2 * 0x1_0000_0000 + (H2(x) * 0x1_0000 + low2) && low2 < 0x1_0000
  {
    high1, low1 := ProductSplits(x, A1, 0x1_0000);
    high2, low2 := ProductSplits(x, A2, 0x1_0000);
  }

  /** The indices of 198.51.100.1, which differ. */
  lemma KnownIndices()
    ensures H1(0xC6336401) == 0x6E03 && H2(0xC6336401) == 0x00B7
  {
    DigitGroup(0xC6336401, A1, 0x1_0000, 0x7A7EAAFA, 0x6E03, 0xC6336401 * A1 - 0x7A7EAAFA * TWO32 - 0x6E03 * 0x1_0000);
    DigitGroup(0xC6336401, A2, 0x1_0000, 0x67AF40E2, 0x00B7, 0xC6336401 * A2 - 0x67AF40E2 * TWO32 - 0x00B7 * 0x1_0000);
  }

  // ----- bits of bytes and words -----

  /** Bit k of x. */
  function BitOf(x: nat, k: nat): bool {
    if k == 0 then x % 2 == 1 else BitOf(x / 2, k - 1)
  }

  /** It is the digit of weight 2^k. */
  lemma {:induction false} BitIsDigit(x: nat, k: nat)
    ensures BitOf(x, k) <==> x / Pow2(k) % 2 == 1
  {
    if k == 0 {
    } else {
      BitIsDigit(x / 2, k - 1);
      HalveTwice(x, Pow2(k - 1));
    }
  }

  /** x | 1 << k */
  function OrBit(x: nat, k: nat): nat {
    if k == 0 then (if x % 2 == 1 then x else x + 1) else 2 * OrBit(x / 2, k - 1) + x % 2
  }

  lemma {:induction false} OrBitFits(x: nat, k: nat, n: nat)
    requires x < Pow2(n) && k < n
    ensures OrBit(x, k) < Pow2(n)
  {
    if k == 0 {
      OneMoreFits(x, Pow2(n - 1));
    } else {
      OrBitFits(x / 2, k - 1, n - 1);
    }
  }

  lemma OneMoreFits(x: nat, half: nat)
    requires x < 2 * half
    ensures x % 2 != 1 ==> x + 1 < 2 * half
  {
  }

  lemma {:induction false} OrBitSets(x: nat, k: nat, j: nat)
    ensures BitOf(OrBit(x, k), j) <==> j == k || BitOf(x, j)
  {
    var y := OrBit(x, k);
    if k == 0 {
      assert y / 2 == x / 2 && y % 2 == 1;
    } else {
      assert y / 2 == OrBit(x / 2, k - 1) && y % 2 == x % 2;
      if j > 0 {
        OrBitSets(x / 2, k - 1, j - 1);
      }
    }
  }

  /** Two bytes side by side: the low one gives bits 0..7, the high one bits 8..15. */
  lemma {:induction false} JoinBits(lo: nat, hi: nat, k: nat, n: nat)
    requires lo < Pow2(n)
    ensures BitOf(lo + Pow2(n) * hi, k) == if k < n then BitOf(lo, k) else BitOf(hi, k - n)
  {
    if n == 0 {
    } else {
      var e := Pow2(n - 1) * hi;
      DoubleTimes(Pow2(n - 1), hi);
      HalfOf(lo, e);
      if k > 0 {
        JoinBits(lo / 2, hi, k - 1, n - 1);
      }
    }
  }

  lemma DoubleTimes(a: nat, b: nat)
    ensures 2 * a * b == 2 * (a * b)
  {
  }

  lemma HalfOf(lo: nat, e: nat)
    ensures (lo + 2 * e) / 2 == lo / 2 + e && (lo + 2 * e) % 2 == lo % 2
  {
  }

  // ----- the filter -----

  /** Bit i of the byte array: the position of bit i & 7 in byte i >> 3. */
  function GetBit(bits: seq<Byte>, i: nat): bool
    requires |bits| == M_BYTES && i < M_BITS
  {
    BitOf(bits[i / 8], i % 8)
  }

  class BloomFilter {
    const bits: array<Byte>

    constructor ()
      ensures fresh(bits) && bits.Length == M_BYTES == 8192
      ensures forall i :: 0 <= i < M_BITS ==> !GetBit(bits[..], i)
    {
      bits := new Byte[M_BYTES](_ => 0);
      new;
      assert forall k :: 0 <= k < M_BYTES ==> bits[..][k] == 0;
      forall i | 0 <= i < M_BITS
        ensures !GetBit(bits[..], i)
      {
        ZeroBits(i % 8);
      }
    }

    method Set(idx: nat)
      requires bits.Length == M_BYTES && idx < M_BITS
      modifies bits
      ensures forall i :: 0 <= i < M_BITS ==> (GetBit(bits[..], i) <==> i == idx || old(GetBit(bits[..], i)))
    {
      ghost var was := bits[..];
      var b := bits[idx / 8];
      assert Pow2(2) == 4 && Pow2(4) == 16 && Pow2(6) == 64 && Pow2(8) == 256;
      OrBitFits(b, idx % 8, 8);
      bits[idx / 8] := OrBit(b, idx % 8);
      assert bits[..] == was[idx / 8 := OrBit(b, idx % 8) as Byte];
      forall i | 0 <= i < M_BITS
        ensures GetBit(bits[..], i) <==> i == idx || GetBit(was, i)
      {
        SetGets(was, idx, i);
      }
    }

    function Get(idx: nat): (r: bool)
      requires bits.Length == M_BYTES && idx < M_BITS
      reads bits
      ensures r == GetBit(bits[..], idx)
    {
      BitOf(bits[idx / 8], idx % 8)
    }

    method Add(x: Ip)
      requires bits.Length == M_BYTES
      modifies bits
      ensures forall i :: 0 <= i < M_BITS ==>
        (GetBit(bits[..], i) <==> i == H1(x) || i == H2(x) || old(GetBit(bits[..], i)))
    {
      hide GetBit, H1, H2;
      Set(H1(x));
      Set(H2(x));
    }

    function Member(x: Ip): (r: bool)
      requires bits.Length == M_BYTES
      reads bits
      ensures r == (GetBit(bits[..], H1(x)) && GetBit(bits[..], H2(x)))
    {
      Get(H1(x)) && Get(H2(x))
    }
  }

  lemma {:induction false} ZeroBits(k: nat)
    ensures !BitOf(0, k)
  {
    if k == 0 {
    } else {
      ZeroBits(k - 1);
    }
  }

  lemma {:induction false} SetGets(bits: seq<Byte>, idx: nat, i: nat)
    requires |bits| == M_BYTES && idx < M_BITS && i < M_BITS
    ensures OrBit(bits[idx / 8], idx % 8) < 256
    ensures GetBit(bits[idx / 8 := OrBit(bits[idx / 8], idx % 8) as Byte], i) <==> i == idx || GetBit(bits, i)
  {
    assert Pow2(2) == 4 && Pow2(4) == 16 && Pow2(6) == 64 && Pow2(8) == 256;
    OrBitFits(bits[idx / 8], idx % 8, 8);
    OrBitSets(bits[idx / 8], idx % 8, i % 8);
  }

  /** The filter of a set of addresses holds bit i exactly when one of them hashes to it. */
  ghost predicate FilterOf(bits: seq<Byte>, ips: seq<Ip>)
    requires |bits| == M_BYTES
  {
    forall i :: 0 <= i < M_BITS ==> (GetBit(bits, i) <==> exists x <- ips :: i == H1(x) || i == H2(x))
  }

  method FromIps(ips: seq<Ip>) returns (bf: BloomFilter)
    ensures fresh(bf) && fresh(bf.bits) && bf.bits.Length == M_BYTES && FilterOf(bf.bits[..], ips)
  {
    hide GetBit, H1, H2;
    bf := new BloomFilter();
    for n := 0 to |ips|
      invariant FilterOf(bf.bits[..], ips[..n])
    {
      bf.Add(ips[n]);
      assert forall x :: x in ips[..n + 1] <==> x in ips[..n] || x == ips[n];
    }
    assert ips[..|ips|] == ips;
  }

  // ----- the image -----

  /** Word w of the image covers bits 16w .. 16w+15. */
  function WordAt(bits: seq<Byte>, w: nat): Word
    requires |bits| == M_BYTES && w < M_WORDS
  {
    bits[2 * w] as int + 256 * bits[2 * w + 1] as int
  }

  function BuildWords(bits: seq<Byte>): (words: seq<Word>)
    requires |bits| == M_BYTES
    ensures |words| == M_WORDS && forall w :: 0 <= w < M_WORDS ==> words[w] == WordAt(bits, w)
  {
    seq(M_WORDS, w requires 0 <= w < M_WORDS => WordAt(bits, w))
  }

  /** Bit i of the device's memory: bit i & 15 of word i >> 4. */
  function StoreBit(store: seq<Word>, i: nat): bool
    requires |store| == M_WORDS && i < M_BITS
  {
    BitOf(store[i / 16], i % 16)
  }

  /** The device reads every bit of the image as the filter holds it. */
  lemma ImageAgrees(bits: seq<Byte>, i: nat)
    requires |bits| == M_BYTES && i < M_BITS
    ensures StoreBit(BuildWords(bits), i) == GetBit(bits, i)
  {
    var w, k := i / 16, i % 16;
    assert Pow2(2) == 4 && Pow2(4) == 16 && Pow2(6) == 64 && Pow2(8) == 256;
    JoinBits(bits[2 * w], bits[2 * w + 1], k, 8);
    assert i / 8 == (if k < 8 then 2 * w else 2 * w + 1) && i % 8 == if k < 8 then k else k - 8;
  }

  function StoreMember(store: seq<Word>, x: Ip): bool
    requires |store| == M_WORDS
  {
    StoreBit(store, H1(x)) && StoreBit(store, H2(x))
  }

  /** A store part of the way through a bulk load: the first k words new, the others old. */
  function Mixed(old': seq<Word>, new': seq<Word>, k: nat): (s: seq<Word>)
    requires |old'| == |new'| == M_WORDS && k <= M_WORDS
    ensures |s| == M_WORDS
  {
    new'[..k] + old'[k..]
  }

  /** An address that both the old store and the new one hold is held at every point of the load. */
  lemma RetainedThroughout(old': seq<Word>, new': seq<Word>, k: nat, x: Ip)
    requires |old'| == |new'| == M_WORDS && k <= M_WORDS
    requires StoreMember(old', x) && StoreMember(new', x)
    ensures StoreMember(Mixed(old', new', k), x)
  {
    hide H1, H2;
  }

  /** After the load the store holds bit i exactly when some loaded address hashes to it. */
  lemma LoadedStoreIsFilter(bits: seq<Byte>, ips: seq<Ip>, i: nat)
    requires |bits| == M_BYTES && FilterOf(bits, ips) && i < M_BITS
    ensures StoreBit(BuildWords(bits), i) <==> exists x <- ips :: i == H1(x) || i == H2(x)
  {
    ImageAgrees(bits, i);
    hide H1, H2, GetBit, StoreBit;
  }

  // ----- the memory image file -----

  function HexDigit(d: nat): char
    requires d < 16
  {
    "0123456789abcdef"[d]
  }

  /** The four-digit hexadecimal form of a word. */
  function Hex4(w: Word): string {
    [HexDigit(w / 0x1000), HexDigit(w / 0x100 % 16), HexDigit(w / 0x10 % 16), HexDigit(w % 16)]
  }

  function JoinLines(lines: seq<string>): string {
    if lines == [] then "" else if |lines| == 1 then lines[0] else lines[0] + "\n" + JoinLines(lines[1..])
  }

  method ToMem(bf: BloomFilter) returns (text: string)
    requires bf.bits.Length == M_BYTES
    ensures text == MemText(BuildWords(bf.bits[..]))
  {
    var words: seq<string> := [];
    for w := 0 to M_WORDS
      invariant words == HexLines(BuildWords(bf.bits[..])[..w])
    {
      var word := bf.bits[2 * w] as int + 256 * bf.bits[2 * w + 1] as int;
      assert word == BuildWords(bf.bits[..])[w];
      assert BuildWords(bf.bits[..])[..w + 1] == BuildWords(bf.bits[..])[..w] + [word];
      words := words + [Hex4(word)];
    }
    assert BuildWords(bf.bits[..])[..M_WORDS] == BuildWords(bf.bits[..]);
    text := JoinLines(words) + "\n";
  }

  function HexLines(words: seq<Word>): (lines: seq<string>)
    ensures |lines| == |words| && forall w :: 0 <= w < |words| ==> lines[w] == Hex4(words[w])
  {
    seq(|words|, w requires 0 <= w < |words| => Hex4(words[w]))
  }

  function MemText(words: seq<Word>): string {
    JoinLines(HexLines(words)) + "\n"
  }

  function HexValue(c: char): nat {
    if '0' <= c <= '9' then (c - '0') as nat else if 'a' <= c <= 'f' then (c - 'a') as nat + 10 else 0
  }

  /** How the device's memory is loaded: each line's digits are one word. acc holds the digits of
      the line being read, if any. */
  function ReadMem(text: string, acc: Option<nat>): seq<nat> {
    if text == "" then (if acc.Some? then [acc.value] else [])
    else if text[0] == '\n' then (if acc.Some? then [acc.value] else []) + ReadMem(text[1..], None)
    else ReadMem(text[1..], Some((if acc.Some? then acc.value * 16 else 0) + HexValue(text[0])))
  }

  /** A last line needs no line break. */
  lemma {:induction false} LastBreakIsFree(text: string, acc: Option<nat>)
    ensures ReadMem(text + "\n", acc) == ReadMem(text, acc)
  {
    if text == "" {
      assert text + "\n" == "\n" && "\n"[1..] == "";
    } else {
      assert (text + "\n")[1..] == text[1..] + "\n";
      LastBreakIsFree(text[1..], if text[0] == '\n' then None
                                 else Some((if acc.Some? then acc.value * 16 else 0) + HexValue(text[0])));
    }
  }

  lemma {:induction false} ReadDigit(d: nat, rest: string, acc: Option<nat>)
    requires d < 16
    ensures ReadMem([HexDigit(d)] + rest, acc) == ReadMem(rest, Some((if acc.Some? then acc.value * 16 else 0) + d))
  {
    hide HexDigit, HexValue;
    DigitReads(d);
    var t := [HexDigit(d)] + rest;
    assert t[0] == HexDigit(d) && t[1..] == rest;
  }

  lemma DigitReads(d: nat)
    requires d < 16
    ensures HexDigit(d) != '\n' && HexValue(HexDigit(d)) == d
  {
  }

  lemma HexSplits(w: Word)
    ensures ((w / 0x1000 * 16 + w / 0x100 % 16) * 16 + w / 0x10 % 16) * 16 + w % 16 == w
  {
    assert w / 0x1000 == w / 0x100 / 16 && w / 0x100 == w / 0x10 / 16 by { DivTwice(w); }
    LowDigit(w / 0x100);
    LowDigit(w / 0x10);
    LowDigit(w);
  }

  lemma DivTwice(w: nat)
    ensures w / 0x1000 == w / 0x100 / 16 && w / 0x100 == w / 0x10 / 16
  {
  }

  lemma LowDigit(x: nat)
    ensures x / 16 * 16 + x % 16 == x
  {
  }

  lemma {:induction false} ReadDigits(a: nat, b: nat, c: nat, d: nat, rest: string)
    requires a < 16 && b < 16 && c < 16 && d < 16
    ensures var n := ((a * 16 + b) * 16 + c) * 16 + d;
      ReadMem([HexDigit(a), HexDigit(b), HexDigit(c), HexDigit(d)] + "\n" + rest, None) == [n] + ReadMem(rest, None)
  {
    hide HexDigit, ReadMem;
    var t4 := "\n" + rest;
    var t3 := [HexDigit(d)] + t4;
    var t2 := [HexDigit(c)] + t3;
    var t1 := [HexDigit(b)] + t2;
    assert [HexDigit(a), HexDigit(b), HexDigit(c), HexDigit(d)] + "\n" + rest == [HexDigit(a)] + t1;
    ReadDigit(a, t1, None);
    ReadDigit(b, t2, Some(a));
    ReadDigit(c, t3, Some(a * 16 + b));
    ReadDigit(d, t4, Some((a * 16 + b) * 16 + c));
    EndOfLine(((a * 16 + b) * 16 + c) * 16 + d, rest);
  }

  lemma {:induction false} ReadLine(w: Word, rest: string)
    ensures ReadMem(Hex4(w) + "\n" + rest, None) == [w as int] + ReadMem(rest, None)
  {
    HexSplits(w);
    hide HexDigit, ReadMem;
    ReadDigits(w / 0x1000, w / 0x100 % 16, w / 0x10 % 16, w % 16, rest);
  }

  lemma {:induction false} EndOfLine(n: nat, rest: string)
    ensures ReadMem("\n" + rest, Some(n)) == [n] + ReadMem(rest, None)
  {
    assert ("\n" + rest)[1..] == rest;
  }

  /** Reading the image file back gives the words that were written. */
  lemma {:induction false} MemTextReadsBack(words: seq<Word>)
    requires words != []
    ensures ReadMem(MemText(words), None) == words
  {
    hide Hex4;
    var lines := HexLines(words);
    if |words| == 1 {
      ReadLine(words[0], "");
      assert MemText(words) == Hex4(words[0]) + "\n" + "";
    } else {
      assert HexLines(words[1..]) == lines[1..];
      ReadLine(words[0], MemText(words[1..]));
      assert MemText(words) == Hex4(words[0]) + "\n" + MemText(words[1..]);
      MemTextReadsBack(words[1..]);
    }
  }
}
