/** The bulk reload of the device's Bloom memory (hot_load_bloom.py): 4096 word writes and a flush. */
module HotLoad {
  import opened Words
  import opened Stream
  import opened Wire
  import opened Device
  import opened Link
  import opened Bloom

  type Addr = x: int | 0 <= x < M_WORDS

  /** Before its t-th transfer of the load the device holds the first t new words and the other old ones. */
  ghost predicate LoadedUpTo(before: seq<Entry>, log: seq<Entry>, old': seq<Word>, new': seq<Word>, t: nat)
    requires |old'| == |new'| == M_WORDS && t <= M_WORDS && |before| + t < |log|
  {
    log[|before| + t].before.bloom == Mixed(old', new', t)
  }

  lemma OneWordMore(old': seq<Word>, new': seq<Word>, k: nat)
    requires |old'| == |new'| == M_WORDS && k < M_WORDS
    ensures Mixed(old', new', k)[k := new'[k]] == Mixed(old', new', k + 1)
  {
  }

  /** Send one word. */
  method WriteWord(link: Link, addr: nat, words: seq<Word>, ghost old': seq<Word>)
    requires link.Valid() && |words| == |old'| == M_WORDS && addr < M_WORDS && link.d.bloom == Mixed(old', words, addr)
    modifies link
    ensures link.Valid() && link.d.bloom == Mixed(old', words, addr + 1) && link.d.tx == Ack(OP_BLOOM_W)
    ensures |link.log| == |old(link.log)| + 1 && link.log[..|old(link.log)|] == old(link.log)
    ensures Last(link.log).before.bloom == Mixed(old', words, addr)
  {
    ghost var d := link.d;
    assert d.Valid();
    hide Respond, Consecutive, DevAfter, EncodeBloomWrite, Mixed, Dev.Valid, Ack;
    var rx := link.SendFrame(EncodeBloomWrite(addr, words[addr]));
    OnBloomWrite(Last(link.log).before, addr, words[addr], link.d);
    OneWordMore(old', words, addr);
  }

  /** The load: at every point the store is a mix of the two images, and at the end it is the new one;
      the flush returns the last write's acknowledgement. */
  method Load(link: Link, words: seq<Word>) returns (ack: Frame)
    requires link.Valid() && |words| == M_WORDS
    modifies link
    ensures link.Valid() && link.d.bloom == words && ack == Ack(OP_BLOOM_W)
    ensures |link.log| == |old(link.log)| + M_WORDS + 1 && link.log[..|old(link.log)|] == old(link.log)
    ensures forall t :: 0 <= t <= M_WORDS ==> LoadedUpTo(old(link.log), link.log, old(link.d.bloom), words, t)
  {
    ghost var before, old' := link.log, link.d.bloom;
    assert |old'| == M_WORDS && old' == Mixed(old', words, 0);
    hide Respond, Consecutive, DevAfter, EncodeBloomWrite, Mixed, Dev.Valid, Link.Valid, Follows, Ack;
    for addr := 0 to M_WORDS
      invariant link.Valid() && link.d.bloom == Mixed(old', words, addr)
      invariant addr > 0 ==> link.d.tx == Ack(OP_BLOOM_W)
      invariant |link.log| == |before| + addr && link.log[..|before|] == before
      invariant forall t :: 0 <= t < addr ==> LoadedUpTo(before, link.log, old', words, t)
    {
      ghost var log := link.log;
      WriteWord(link, addr, words, old');
      LoadGrows(before, log, link.log, old', words, addr);
    }
    ghost var log := link.log;
    ack := Finish(link, words, old');
    LoadGrows(before, log, link.log, old', words, M_WORDS);
  }

  lemma LoadGrows(before: seq<Entry>, log: seq<Entry>, log': seq<Entry>, old': seq<Word>, new': seq<Word>, n: nat)
    requires |old'| == |new'| == M_WORDS && n <= M_WORDS
    requires |log| == |before| + n && log[..|before|] == before
    requires |log'| == |log| + 1 && log'[..|log|] == log && Last(log').before.bloom == Mixed(old', new', n)
    requires forall t :: 0 <= t < n ==> LoadedUpTo(before, log, old', new', t)
    ensures log'[..|before|] == before
    ensures forall t :: 0 <= t <= n ==> LoadedUpTo(before, log', old', new', t)
  {
    hide Mixed;
    assert log'[..|before|] == log[..|before|];
    forall t | 0 <= t <= n
      ensures LoadedUpTo(before, log', old', new', t)
    {
      if t < n {
        assert LoadedUpTo(before, log, old', new', t) && log'[..|log|][|before| + t] == log'[|before| + t];
      }
    }
  }

  /** The flush that clocks out the last acknowledgement. */
  method Finish(link: Link, words: seq<Word>, ghost old': seq<Word>) returns (ack: Frame)
    requires link.Valid() && |words| == |old'| == M_WORDS && link.d.bloom == Mixed(old', words, M_WORDS)
    modifies link
    ensures link.Valid() && link.d.bloom == words && ack == old(link.d.tx)
    ensures |link.log| == |old(link.log)| + 1 && link.log[..|old(link.log)|] == old(link.log)
    ensures Last(link.log).before.bloom == Mixed(old', words, M_WORDS)
  {
    ghost var d := link.d;
    assert d.Valid() && Mixed(old', words, M_WORDS) == words;
    hide Consecutive, DevAfter, Mixed, VerdictOn;
    ack := link.SendFrame(Flush());
  }

  /** Whatever is retained by the new image is hit on every frame of the load: the verdict on a frame
      from it, given at that point, reports a Bloom hit. */
  lemma RetainedSourceIsHit(before: seq<Entry>, log: seq<Entry>, old': seq<Word>, new': seq<Word>, t: nat, f: Frame)
    requires |old'| == |new'| == M_WORDS && t <= M_WORDS && |before| + t < |log|
    requires LoadedUpTo(before, log, old', new', t) && log[|before| + t].before.Valid()
    requires StoreMember(old', SourceOf(f)) && StoreMember(new', SourceOf(f))
    ensures VerdictOn(log[|before| + t].before, f).bloomHit
  {
    RetainedThroughout(old', new', t, SourceOf(f));
    hide StoreMember, Mixed, SourceOf, DestOf, LookupRule;
  }

  // ----- the read-back -----

  /** How many of the addresses hold another word than expected. */
  function Mismatches(addrs: seq<Addr>, store: seq<Word>, words: seq<Word>): nat
    requires |store| == |words| == M_WORDS
  {
    if addrs == [] then 0
    else Mismatches(Init(addrs), store, words) + if store[Last(addrs)] != words[Last(addrs)] then 1 else 0
  }

  /** log' continues log, and the device held this store on every transfer since. */
  ghost predicate Quietly(log: seq<Entry>, log': seq<Entry>, store: seq<Word>) {
    && |log| <= |log'| && log'[..|log|] == log
    && forall t :: |log| <= t < |log'| ==> log'[t].before.bloom == store
  }

  lemma QuietlyOn(a: seq<Entry>, b: seq<Entry>, c: seq<Entry>, store: seq<Word>)
    requires Quietly(a, b, store) && Quietly(b, c, store)
    ensures Quietly(a, c, store)
  {
    assert c[..|a|] == b[..|a|];
    forall t | |a| <= t < |c|
      ensures c[t].before.bloom == store
    {
      if t < |b| {
        assert c[..|b|][t] == c[t];
      }
    }
  }

  lemma OneMoreQuietly(log: seq<Entry>, log': seq<Entry>, f: Frame, store: seq<Word>)
    requires Continues(log, log', [f]) && Last(log').before.bloom == store
    ensures Quietly(log, log', store)
  {
  }

  /** Send a frame that writes no Bloom word. */
  method SendQuietly(link: Link, f: Frame) returns (rx: Frame)
    requires link.Valid() && f[16] != OP_BLOOM_W
    modifies link
    ensures link.Valid() && rx == old(link.d).tx && link.d.bloom == old(link.d.bloom)
    ensures Quietly(old(link.log), link.log, old(link.d.bloom))
    ensures link.log != [] && Last(link.log).before.Valid() && Last(link.log).before.bloom == old(link.d.bloom)
    ensures link.d == Respond(Last(link.log).before, f)
  {
    ghost var d, log := link.d, link.log;
    assert d.Valid();
    hide Respond, TicksOf, Consecutive, DevAfter, Dev.Valid, VerdictOn, Quietly;
    rx := link.SendFrame(f);
    TicksKeep(d, link.ticks(|log|));
    OneMoreQuietly(log, link.log, f, d.bloom);
    BloomKept(Last(link.log).before, f);
  }

  lemma BloomKept(d: Dev, f: Frame)
    requires d.Valid() && f[16] != OP_BLOOM_W
    ensures Respond(d, f).bloom == d.bloom
  {
    hide VerdictOn, QueryReply, SnapshotReply, HllReply, Half, SourceOf, Ack, BloomReply, ThresholdReply, RuleReply,
      Word16;
  }

  /** Read one word back: the reply to the read comes with the flush after it. */
  method CheckWord(link: Link, addr: Addr, words: seq<Word>) returns (ok: bool)
    requires link.Valid() && |words| == |link.d.bloom| == M_WORDS
    modifies link
    ensures link.Valid() && link.d.bloom == old(link.d.bloom)
    ensures Quietly(old(link.log), link.log, old(link.d.bloom))
    ensures ok <==> old(link.d.bloom)[addr] == words[addr]
  {
    assert EncodeBloomRead(addr)[16] == OP_BLOOM_R;
    hide Respond, EncodeBloomRead, DecodeBloomRead, Quietly, Link.Valid, Dev.Valid;
    ghost var log := link.log;
    var before := SendQuietly(link, EncodeBloomRead(addr));
    OnBloomRead(Last(link.log).before, addr, link.d);
    ghost var log1 := link.log;
    var resp := SendQuietly(link, Flush());
    QuietlyOn(log, log1, link.log, old(link.d.bloom));
    var r := DecodeBloomRead(resp);
    ok := r.Ok? && r.value.0 == addr && r.value.1 == words[addr];
  }

  /** Read the listed words back: exactly the wrong ones are counted. */
  method ReadBack(link: Link, addrs: seq<Addr>, words: seq<Word>) returns (errs: nat)
    requires link.Valid() && |words| == |link.d.bloom| == M_WORDS
    modifies link
    ensures link.Valid() && link.d.bloom == old(link.d.bloom)
    ensures Quietly(old(link.log), link.log, old(link.d.bloom))
    ensures errs == Mismatches(addrs, old(link.d.bloom), words)
  {
    errs := 0;
    for k := 0 to |addrs|
      invariant link.Valid() && link.d.bloom == old(link.d.bloom)
      invariant Quietly(old(link.log), link.log, old(link.d.bloom))
      invariant errs == Mismatches(addrs[..k], old(link.d.bloom), words)
    {
      PrefixStep(addrs, k);
      ghost var log := link.log;
      var ok := CheckWord(link, addrs[k], words);
      QuietlyOn(old(link.log), log, link.log, old(link.d.bloom));
      if !ok {
        errs := errs + 1;
      }
    }
    assert addrs[..|addrs|] == addrs;
  }

  /** Each such entry of the list counts once. */
  lemma {:induction false} MismatchesCount(addrs: seq<Addr>, store: seq<Word>, words: seq<Word>)
    requires |store| == |words| == M_WORDS
    ensures Mismatches(addrs, store, words) == |set k: nat | k < |addrs| && store[addrs[k]] != words[addrs[k]]|
  {
    if addrs == [] {
    } else {
      var was, n := Init(addrs), |addrs| - 1;
      MismatchesCount(was, store, words);
      assert (set k: nat | k < |addrs| && store[addrs[k]] != words[addrs[k]])
        == (set k: nat | k < |was| && store[was[k]] != words[was[k]])
        + if store[addrs[n]] != words[addrs[n]] then {n} else {};
    }
  }

  lemma {:induction false} NoMismatches(addrs: seq<Addr>, words: seq<Word>)
    requires |words| == M_WORDS
    ensures Mismatches(addrs, words, words) == 0
  {
    if addrs == [] {
    } else {
      NoMismatches(Init(addrs), words);
    }
  }

  /** The store is the filter of these addresses: bit i is set exactly when one of them hashes to it. */
  ghost predicate HoldsSet(store: seq<Word>, ips: seq<Ip>) {
    && |store| == M_WORDS
    && forall i :: 0 <= i < M_BITS ==> (StoreBit(store, i) <==> exists x <- ips :: i == H1(x) || i == H2(x))
  }

  lemma SetIsHeld(store: seq<Word>, ips: seq<Ip>, x: Ip)
    requires HoldsSet(store, ips) && x in ips
    ensures |store| == M_WORDS && StoreMember(store, x)
  {
    hide StoreBit, H1, H2;
  }

  /** The device holds the address on the t-th transfer. */
  ghost predicate HeldAt(log: seq<Entry>, t: nat, x: Ip)
    requires t < |log|
  {
    |log[t].before.bloom| == M_WORDS && StoreMember(log[t].before.bloom, x)
  }

  ghost predicate HeldSince(log: seq<Entry>, n: nat, x: Ip) {
    forall t :: n <= t < |log| ==> HeldAt(log, t, x)
  }

  /** A frame from or to a held address is reported as a Bloom hit. */
  lemma HeldIsHit(log: seq<Entry>, t: nat, f: Frame, x: Ip)
    requires t < |log| && log[t].before.Valid() && HeldAt(log, t, x) && (SourceOf(f) == x || DestOf(f) == x)
    ensures VerdictOn(log[t].before, f).bloomHit
  {
    hide StoreMember, SourceOf, DestOf, LookupRule;
  }

  /** An address in the old store and the new one is held during the load and the read-back. */
  lemma RetainedSince(before: seq<Entry>, loaded: seq<Entry>, log: seq<Entry>, old': seq<Word>, new': seq<Word>, x: Ip)
    requires |old'| == |new'| == M_WORDS && |loaded| == |before| + M_WORDS + 1
    requires forall t :: 0 <= t <= M_WORDS ==> LoadedUpTo(before, loaded, old', new', t)
    requires Quietly(loaded, log, new') && StoreMember(old', x) && StoreMember(new', x)
    ensures HeldSince(log, |before|, x)
  {
    hide StoreMember, Mixed;
    forall t | |before| <= t < |log|
      ensures HeldAt(log, t, x)
    {
      if t < |loaded| {
        assert loaded[t] == log[..|loaded|][t] == log[t];
        assert LoadedUpTo(before, loaded, old', new', t - |before|);
        RetainedThroughout(old', new', t - |before|, x);
      }
    }
  }

  /** Rotate the device to a new set of blocked addresses and read any addresses back: no errors, and
      whatever the old store held of the new set is held on every transfer of the rotation. */
  method Rotate(link: Link, ips: seq<Ip>, addrs: seq<Addr>) returns (errs: nat)
    requires link.Valid()
    modifies link
    ensures link.Valid() && HoldsSet(link.d.bloom, ips) && errs == 0
    ensures |old(link.d.bloom)| == M_WORDS
    ensures forall x :: x in ips && StoreMember(old(link.d.bloom), x) ==> HeldSince(link.log, |old(link.log)|, x)
  {
    assert |link.d.bloom| == M_WORDS;
    hide StoreBit, StoreMember, H1, H2, Link.Valid, FilterOf, Dev.Valid, HeldSince, Quietly, LoadedUpTo, HoldsSet;
    var bf := FromIps(ips);
    var words := BuildWords(bf.bits[..]);
    ImageHoldsSet(bf.bits[..], ips);
    ghost var before, old' := link.log, link.d.bloom;
    var ack := Load(link, words);
    ghost var loaded := link.log;
    errs := ReadBack(link, addrs, words);
    NoMismatches(addrs, words);
    forall x | x in ips && StoreMember(old', x)
      ensures HeldSince(link.log, |before|, x)
    {
      SetIsHeld(words, ips, x);
      RetainedSince(before, loaded, link.log, old', words, x);
    }
  }

  lemma ImageHoldsSet(bits: seq<Byte>, ips: seq<Ip>)
    requires |bits| == M_BYTES && FilterOf(bits, ips)
    ensures HoldsSet(BuildWords(bits), ips)
  {
    forall i | 0 <= i < M_BITS
      ensures StoreBit(BuildWords(bits), i) <==> exists x <- ips :: i == H1(x) || i == H2(x)
    {
      LoadedStoreIsFilter(bits, ips, i);
    }
  }

  /** Rotating from one set to another: every address in both is held on every transfer. */
  method RotateSets(link: Link, first: seq<Ip>, second: seq<Ip>, addrs: seq<Addr>) returns (errs: nat)
    requires link.Valid() && HoldsSet(link.d.bloom, first)
    modifies link
    ensures link.Valid() && HoldsSet(link.d.bloom, second) && errs == 0
    ensures forall x :: x in first && x in second ==> HeldSince(link.log, |old(link.log)|, x)
  {
    hide HoldsSet, StoreMember, HeldSince, Link.Valid;
    forall x | x in first
      ensures |link.d.bloom| == M_WORDS && StoreMember(link.d.bloom, x)
    {
      SetIsHeld(link.d.bloom, first, x);
    }
    errs := Rotate(link, second, addrs);
  }
}
