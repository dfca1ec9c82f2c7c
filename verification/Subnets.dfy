/** Choosing an environment's IPv4 subnet out of the configured pool, and addressing its nodes. */
module Subnets {
  import opened Base

  // ---- Prefixes (section 3.1 of RFC 4632) ----

  function Pow2(n: nat): (r: nat)
    ensures r >= 1
  {
    if n == 0 then 1 else 2 * Pow2(n - 1)
  }

  const AddressSpace: nat := 0x1_0000_0000

  type Address = a: nat | a < AddressSpace

  type Bits = b: nat | b <= 32

  /** How many addresses a prefix of this length covers. */
  function Size(bits: Bits): (r: nat)
    ensures r >= 1
  {
    Pow2(32 - bits)
  }

  datatype Prefix = Prefix(addr: Address, bits: Bits) {
    /** The network's own address: the bits behind the prefix cleared. */
    function First(): Address {
      DivMod(addr, Size(bits));
      addr - addr % Size(bits)
    }

    function Masked(): Prefix { Prefix(First(), bits) }

    predicate IsMasked() { addr % Size(bits) == 0 }

    /** The leading bits agree. */
    predicate Contains(a: Address) { a / Size(bits) == addr / Size(bits) }
  }

  /** The address after this one; none follows the last. */
  function Next(a: Option<Address>): Option<Address> {
    if a.None? || a.value + 1 == AddressSpace then None else Some(a.value + 1)
  }

  predicate ContainsSome(p: Prefix, a: Option<Address>) { a.Some? && p.Contains(a.value) }

  // ---- Arithmetic ----

  lemma {:induction false} Pow2Adds(a: nat, b: nat)
    ensures Pow2(a + b) == Pow2(a) * Pow2(b)
  {
    if a > 0 {
      Pow2Adds(a - 1, b);
      assert Pow2(a + b) == 2 * (Pow2(a - 1) * Pow2(b)) == (2 * Pow2(a - 1)) * Pow2(b);
    }
  }

  lemma WholeSpace()
    ensures Pow2(32) == AddressSpace
  {
    assert Pow2(8) == 256;
    Pow2Adds(8, 8);
    Pow2Adds(16, 16);
  }

  /** A wider prefix is a whole number of narrower ones. */
  lemma SizesDivide(wide: Bits, narrow: Bits)
    requires wide <= narrow
    ensures Size(wide) == Pow2(narrow - wide) * Size(narrow)
  {
    Pow2Adds(narrow - wide, 32 - narrow);
  }

  lemma DivMod(a: nat, m: nat)
    requires m > 0
    ensures a == (a / m) * m + a % m && 0 <= a % m < m && 0 <= a / m && a % m <= a && 0 <= (a / m) * m
  {
    MulMono(0, a / m, m);
  }

  lemma MulMono(a: nat, b: nat, m: nat)
    ensures a <= b ==> a * m <= b * m
    ensures (a + 1) * m == a * m + m
  {
    if a <= b {
      assert (b - a) * m >= 0;
      assert b * m == (b - a) * m + a * m;
    }
  }

  lemma Quotient(a: nat, m: nat, q: nat)
    requires m > 0 && q * m <= a < q * m + m
    ensures a / m == q && a % m == a - q * m
  {
    var d := a / m;
    DivMod(a, m);
    MulMono(d + 1, q, m);
    MulMono(q + 1, d, m);
    MulMono(d, q, m);
    MulMono(q, d, m);
  }

  /** A prefix contains exactly the addresses from its first on, as many as its size. */
  lemma ContainsIsRange(p: Prefix, a: Address)
    ensures p.Contains(a) <==> p.First() <= a < p.First() + Size(p.bits)
    ensures p.First() == (p.addr / Size(p.bits)) * Size(p.bits)
  {
    hide Size;
    var m := Size(p.bits);
    DivMod(p.addr, m);
    DivMod(a, m);
    if p.First() <= a < p.First() + m { Quotient(a, m, p.addr / m); }
  }

  // ---- Slots of the pool ----

  datatype Config = Config(pool: Prefix, bits: nat, maxNodes: nat)

  /** The private ranges of section 3 of RFC 1918. */
  const PrivateRanges: seq<Prefix> := [Prefix(0x0A00_0000, 8), Prefix(0xAC10_0000, 12), Prefix(0xC0A8_0000, 16)]

  predicate IsPrivate(pool: Prefix) {
    exists i | 0 <= i < |PrivateRanges| :: pool.bits >= PrivateRanges[i].bits && PrivateRanges[i].Contains(pool.addr)
  }

  /** A masked private pool, and subnets strictly inside it. */
  predicate ValidPool(c: Config) {
    c.pool.IsMasked() && IsPrivate(c.pool) && 1 <= c.bits <= 30 && c.pool.bits < c.bits
  }

  /** What the configuration is checked for, as far as networks go. */
  predicate ValidConfig(c: Config) {
    ValidPool(c) && c.maxNodes >= 1 && Pow2(32 - c.bits) > 10 + c.maxNodes
  }

  function SlotCount(c: Config): nat
    requires c.pool.bits < c.bits
  {
    Pow2(c.bits - c.pool.bits)
  }

  /** 32-bit arithmetic, wrapping as the machine does. */
  function ChildSubnet(pool: Prefix, bits: Bits, slot: nat): Prefix {
    Prefix((pool.First() + (slot * Size(bits)) % AddressSpace) % AddressSpace, bits)
  }

  lemma Associate(a: nat, b: nat, m: nat)
    ensures a * (b * m) == (a * b) * m
    ensures a * m + b * m == (a + b) * m
  {
  }

  lemma MultipleOf(q: nat, m: nat)
    requires m > 0
    ensures (q * m) % m == 0
  {
    Quotient(q * m, m, q);
  }

  /** A masked prefix ends inside the address space. */
  lemma PoolFits(p: Prefix)
    requires p.IsMasked()
    ensures p.addr + Size(p.bits) <= AddressSpace && p.First() == p.addr
  {
    var m, n, k := Size(p.bits), Pow2(p.bits), p.addr / Size(p.bits);
    WholeSpace();
    SizesDivide(0, p.bits);
    Inside(p.addr, m, n, k);
  }

  lemma Inside(a: nat, m: nat, n: nat, k: nat)
    requires m > 0 && a < n * m && a % m == 0 && k == a / m
    ensures a == k * m && a + m <= n * m
  {
    DivMod(a, m);
    MulMono(n, k, m);
    MulMono(k + 1, n, m);
  }

  /** Where slot s of the pool lies: no wrap-around, and no further than the pool. */
  lemma SlotIs(c: Config, slot: nat)
    requires ValidPool(c) && slot < SlotCount(c)
    ensures slot * Size(c.bits) + Size(c.bits) <= Size(c.pool.bits)
    ensures c.pool.First() == c.pool.addr && c.pool.addr + Size(c.pool.bits) <= AddressSpace
    ensures ChildSubnet(c.pool, c.bits, slot).addr == c.pool.addr + slot * Size(c.bits)
    ensures ChildSubnet(c.pool, c.bits, slot).IsMasked()
  {
    hide Size, Pow2;
    var m, n := Size(c.bits), SlotCount(c);
    PoolFits(c.pool);
    SizesDivide(c.pool.bits, c.bits);
    MulMono(slot + 1, n, m);
    MulMono(slot, n, m);
    Small(slot * m);
    Small(c.pool.addr + slot * m);
    SlotMasked(c.pool.addr, slot, n, m);
  }

  lemma Small(a: nat)
    requires a < AddressSpace
    ensures a % AddressSpace == a
  {
  }

  lemma SlotMasked(a: nat, slot: nat, n: nat, m: nat)
    requires m > 0 && n * m > 0 && a % (n * m) == 0
    ensures (a + slot * m) % m == 0
  {
    var k := a / (n * m);
    DivMod(a, n * m);
    Associate(k, n, m);
    Associate(k * n, slot, m);
    MultipleOf(k * n + slot, m);
  }

  lemma SlotRange(c: Config, slot: nat, a: Address)
    requires ValidPool(c) && slot < SlotCount(c)
    ensures ChildSubnet(c.pool, c.bits, slot).Contains(a)
            <==> c.pool.addr + slot * Size(c.bits) <= a < c.pool.addr + slot * Size(c.bits) + Size(c.bits)
  {
    hide Size, Pow2, ChildSubnet, IsPrivate;
    ChildBits(c.pool, c.bits, slot);
    SlotIs(c, slot);
    MaskedFirst(ChildSubnet(c.pool, c.bits, slot));
    ContainsIsRange(ChildSubnet(c.pool, c.bits, slot), a);
  }

  lemma MaskedFirst(p: Prefix)
    requires p.IsMasked()
    ensures p.First() == p.addr
  {
  }

  lemma SlotContains(c: Config, slot: nat, a: Address)
    requires ValidPool(c) && slot < SlotCount(c)
    ensures ChildSubnet(c.pool, c.bits, slot).Contains(a) <==> a >= c.pool.addr && (a - c.pool.addr) / Size(c.bits) == slot
    ensures ChildSubnet(c.pool, c.bits, slot).Contains(a) ==> c.pool.Contains(a)
  {
    hide Size, Pow2, ChildSubnet, IsPrivate, Prefix.Contains, Prefix.First, Prefix.IsMasked;
    SlotRange(c, slot, a);
    SlotIs(c, slot);
    ContainsIsRange(c.pool, a);
    if a >= c.pool.addr {
      InSlot(a - c.pool.addr, slot, Size(c.bits));
    }
  }

  lemma ChildBits(pool: Prefix, bits: Bits, slot: nat)
    ensures ChildSubnet(pool, bits, slot).bits == bits
  {
  }

  lemma InSlot(d: nat, slot: nat, m: nat)
    requires m > 0
    ensures d / m == slot <==> slot * m <= d < slot * m + m
  {
    DivMod(d, m);
    if slot * m <= d < slot * m + m { Quotient(d, m, slot); }
  }

  /** The slot an address of the pool falls into. */
  lemma SlotOf(c: Config, a: Address) returns (slot: nat)
    requires ValidPool(c) && c.pool.Contains(a)
    ensures slot < SlotCount(c) && ChildSubnet(c.pool, c.bits, slot).Contains(a)
  {
    hide Size, Pow2, ChildSubnet;
    var m := Size(c.bits);
    SlotIs(c, 0);
    ContainsIsRange(c.pool, a);
    slot := (a - c.pool.addr) / m;
    DivMod(a - c.pool.addr, m);
    SizesDivide(c.pool.bits, c.bits);
    MulMono(SlotCount(c), slot, m);
    SlotContains(c, slot, a);
  }

  /** The slots tile the pool: an address is in the pool exactly when it is in some slot, and in one slot only. */
  lemma SlotsTile(c: Config, a: Address)
    requires ValidPool(c)
    ensures c.pool.Contains(a) <==> exists slot | 0 <= slot < SlotCount(c) :: ChildSubnet(c.pool, c.bits, slot).Contains(a)
    ensures forall i, j | 0 <= i < SlotCount(c) && 0 <= j < SlotCount(c)
                          && ChildSubnet(c.pool, c.bits, i).Contains(a) && ChildSubnet(c.pool, c.bits, j).Contains(a) :: i == j
  {
    hide Size, Pow2, ChildSubnet;
    forall slot | 0 <= slot < SlotCount(c)
      ensures ChildSubnet(c.pool, c.bits, slot).Contains(a) <==> a >= c.pool.addr && (a - c.pool.addr) / Size(c.bits) == slot
      ensures ChildSubnet(c.pool, c.bits, slot).Contains(a) ==> c.pool.Contains(a)
    {
      SlotContains(c, slot, a);
    }
    if c.pool.Contains(a) {
      var slot := SlotOf(c, a);
    }
  }

  /** Four bytes, the first the most significant. */
  function Dotted(a: nat, b: nat, c: nat, d: nat): nat { ((a * 256 + b) * 256 + c) * 256 + d }

  /** 10.0.0.0 to 10.255.255.255, 172.16.0.0 to 172.31.255.255, 192.168.0.0 to 192.168.255.255. */
  predicate InPrivateRange(a: Address) {
    || Dotted(10, 0, 0, 0) <= a <= Dotted(10, 255, 255, 255)
    || Dotted(172, 16, 0, 0) <= a <= Dotted(172, 31, 255, 255)
    || Dotted(192, 168, 0, 0) <= a <= Dotted(192, 168, 255, 255)
  }

  lemma RangesArePrivate(a: Address, i: nat)
    requires i < |PrivateRanges|
    ensures PrivateRanges[i].Contains(a)
            <==> match i
                 case 0 => Dotted(10, 0, 0, 0) <= a <= Dotted(10, 255, 255, 255)
                 case 1 => Dotted(172, 16, 0, 0) <= a <= Dotted(172, 31, 255, 255)
                 case _ => Dotted(192, 168, 0, 0) <= a <= Dotted(192, 168, 255, 255)
  {
    RangeSizes();
    ContainsIsRange(PrivateRanges[i], a);
    hide Pow2, Size, Prefix.First, Prefix.Contains;
  }

  lemma RangeSizes()
    ensures Size(8) == 0x100_0000 && Size(12) == 0x10_0000 && Size(16) == 0x1_0000
  {
    Pow2Adds(8, 8);
    Pow2Adds(16, 8);
    Pow2Adds(16, 4);
    assert Pow2(4) == 16 && Pow2(8) == 256;
  }

  /** A prefix wider than a private range reaches beyond it. */
  lemma WiderReachesOut(p: Prefix, i: nat) returns (out: Address)
    requires i < |PrivateRanges| && p.bits < PrivateRanges[i].bits && PrivateRanges[i].Contains(p.addr)
    ensures p.Contains(out) && !InPrivateRange(out)
  {
    var r := PrivateRanges[i];
    var first, size := p.First(), Size(p.bits);
    SizesDivide(p.bits, r.bits);
    SizesDivide(p.bits, p.bits + 1);
    SizesDivide(p.bits + 1, r.bits);
    MulMono(1, Pow2(r.bits - p.bits - 1), Size(r.bits));
    assert Pow2(1) == 2 && size >= 2 * Size(r.bits);
    RangesArePrivate(p.addr, i);
    ContainsIsRange(p, p.addr);
    EndsInside(p);
    RangeSizes();
    var (low, high) := match i
                     case 0 => (Dotted(10, 0, 0, 0), Dotted(10, 255, 255, 255))
                     case 1 => (Dotted(172, 16, 0, 0), Dotted(172, 31, 255, 255))
                     case _ => (Dotted(192, 168, 0, 0), Dotted(192, 168, 255, 255));
    out := if first < low then low - 1 else high + 1;
    ContainsIsRange(p, out);
  }

  lemma EndsInside(p: Prefix)
    ensures p.First() + Size(p.bits) <= AddressSpace
  {
    MaskedContains(p, p.addr);
    PoolFits(p.Masked());
  }

  /** The check on the pool accepts exactly the prefixes all of whose addresses are private. */
  lemma PrivateIff(p: Prefix)
    ensures IsPrivate(p) <==> forall a: Address :: p.Contains(a) ==> InPrivateRange(a)
  {
    hide Dotted, Pow2;
    if IsPrivate(p) {
      var i :| 0 <= i < |PrivateRanges| && p.bits >= PrivateRanges[i].bits && PrivateRanges[i].Contains(p.addr);
      forall a: Address | p.Contains(a) ensures InPrivateRange(a) {
        Nested(PrivateRanges[i], p, a);
        RangesArePrivate(a, i);
      }
    } else if forall a: Address :: p.Contains(a) ==> InPrivateRange(a) {
      assert p.Contains(p.addr);
      RangesArePrivate(p.addr, 0);
      RangesArePrivate(p.addr, 1);
      RangesArePrivate(p.addr, 2);
      var i: nat :| i < |PrivateRanges| && PrivateRanges[i].Contains(p.addr);
      var out := WiderReachesOut(p, i);
    }
  }

  /** Every address of every slot is private. */
  lemma SlotsArePrivate(c: Config, slot: nat, a: Address)
    requires ValidPool(c) && slot < SlotCount(c) && ChildSubnet(c.pool, c.bits, slot).Contains(a)
    ensures InPrivateRange(a)
  {
    SlotsAreInRanges(c, slot, a);
    var i :| 0 <= i < |PrivateRanges| && PrivateRanges[i].Contains(a);
    RangesArePrivate(a, i);
  }

  lemma SlotsAreInRanges(c: Config, slot: nat, a: Address)
    requires ValidPool(c) && slot < SlotCount(c) && ChildSubnet(c.pool, c.bits, slot).Contains(a)
    ensures exists i | 0 <= i < |PrivateRanges| :: PrivateRanges[i].Contains(a)
  {
    SlotsTile(c, a);
    assert c.pool.Contains(a);
    var i :| 0 <= i < |PrivateRanges| && c.pool.bits >= PrivateRanges[i].bits && PrivateRanges[i].Contains(c.pool.addr);
    Nested(PrivateRanges[i], c.pool, a);
  }

  /** A wider prefix that contains one address of a narrower one contains all of them. */
  lemma Nested(wide: Prefix, narrow: Prefix, a: Address)
    requires wide.bits <= narrow.bits && narrow.Contains(a)
    ensures wide.Contains(a) <==> wide.Contains(narrow.addr)
  {
    var m, n := Size(narrow.bits), Pow2(narrow.bits - wide.bits);
    SizesDivide(wide.bits, narrow.bits);
    DivideTwice(a, m, n);
    DivideTwice(narrow.addr, m, n);
  }

  lemma DivideTwice(a: nat, m: nat, n: nat)
    requires m > 0 && n > 0
    ensures n * m > 0 && a / (n * m) == (a / m) / n
  {
    var d := a / m;
    var q := d / n;
    DivMod(a, m);
    DivMod(d, n);
    MulMono(1, n, m);
    MulMono(q * n, d, m);
    MulMono(d + 1, (q + 1) * n, m);
    MulMono(q, q, n);
    MulMono(d, d, m);
    Associate(q, n, m);
    Associate(q + 1, n, m);
    MulMono(q, q, n * m);
    Quotient(a, n * m, q);
  }

  // ---- Overlap ----

  /** The test the allocator makes: one of the two contains the other's address. */
  predicate Overlap(p: Prefix, q: Prefix) { p.Contains(q.addr) || q.Contains(p.addr) }

  /** For masked prefixes that is exactly having an address in common. */
  lemma OverlapIsIntersection(p: Prefix, q: Prefix)
    requires p.IsMasked() && q.IsMasked()
    ensures Overlap(p, q) <==> exists a: Address :: p.Contains(a) && q.Contains(a)
  {
    assert p.Contains(p.addr) && q.Contains(q.addr);
    if a: Address :| p.Contains(a) && q.Contains(a) {
      if p.bits <= q.bits { Nested(p, q, a); } else { Nested(q, p, a); }
    }
  }

  /** Masking changes neither what a prefix contains nor, with a masked partner, what it overlaps. */
  lemma MaskedContains(p: Prefix, a: Address)
    ensures p.Masked().Contains(a) <==> p.Contains(a)
    ensures p.Masked().IsMasked()
  {
    var m, q := Size(p.bits), p.addr / Size(p.bits);
    DivMod(p.addr, m);
    MultipleOf(q, m);
    Quotient(q * m, m, q);
  }

  method OverlapsAny(candidate: Prefix, occupied: seq<Prefix>) returns (r: bool)
    ensures r <==> exists i | 0 <= i < |occupied| :: Overlap(candidate, occupied[i])
  {
    for i := 0 to |occupied|
      invariant forall j | 0 <= j < i :: !Overlap(candidate, occupied[j])
    {
      if candidate.Contains(occupied[i].addr) || occupied[i].Contains(candidate.addr) { return true; }
    }
    return false;
  }

  // ---- The choice ----

  /** Some existing network and the candidate have an address in common. */
  ghost predicate Taken(candidate: Prefix, networks: seq<Option<Prefix>>) {
    exists i, a: Address | 0 <= i < |networks| && networks[i].Some? :: candidate.Contains(a) && networks[i].value.Contains(a)
  }

  /** The slot probed at an offset: from the hashed start on, around the pool. */
  function Probe(c: Config, hash: nat, offset: nat): nat
    requires ValidPool(c)
  {
    (hash % SlotCount(c) + offset) % SlotCount(c)
  }

  lemma Wraps(a: nat, n: nat)
    requires 0 < n && a < 2 * n
    ensures a % n == if a < n then a else a - n
  {
    if a < n { Quotient(a, n, 0); } else { Quotient(a, n, 1); }
  }

  /** Probing reaches every slot. */
  lemma ProbesReach(c: Config, hash: nat, slot: nat) returns (offset: nat)
    requires ValidPool(c) && slot < SlotCount(c)
    ensures offset < SlotCount(c) && Probe(c, hash, offset) == slot
  {
    hide Pow2, IsPrivate;
    var n := SlotCount(c);
    var start := hash % n;
    DivMod(hash, n);
    offset := if slot >= start then slot - start else slot + n - start;
    Wraps(start + offset, n);
  }

  lemma ProbeInRange(c: Config, hash: nat, offset: nat)
    requires ValidPool(c) && offset < SlotCount(c)
    ensures Probe(c, hash, offset) < SlotCount(c)
  {
    hide Pow2, IsPrivate;
    DivMod(hash, SlotCount(c));
    Wraps(hash % SlotCount(c) + offset, SlotCount(c));
  }

  /** The masked prefixes of the networks whose address parses. */
  function Occupied(networks: seq<Option<Prefix>>): seq<Prefix> {
    if networks == [] then []
    else
      var last := networks[|networks| - 1];
      Occupied(networks[..|networks| - 1]) + (if last.Some? then [last.value.Masked()] else [])
  }

  lemma {:induction false} OccupiedAre(networks: seq<Option<Prefix>>, candidate: Prefix)
    requires candidate.IsMasked()
    ensures (exists i | 0 <= i < |Occupied(networks)| :: Overlap(candidate, Occupied(networks)[i])) <==> Taken(candidate, networks)
  {
    hide Prefix.Contains, Overlap, Taken;
    if networks == [] {
      NothingTaken(candidate);
    } else {
      var init, last := networks[..|networks| - 1], networks[|networks| - 1];
      OccupiedAre(init, candidate);
      TakenByLast(candidate, networks);
      if last.Some? {
        OverlapsOneMore(candidate, Occupied(init), last.value.Masked());
        OverlapUnmasked(candidate, last.value);
        assert Occupied(networks) == Occupied(init) + [last.value.Masked()];
      } else {
        assert Occupied(networks) == Occupied(init);
      }
    }
  }

  lemma NothingTaken(candidate: Prefix)
    ensures !Taken(candidate, [])
  {
  }

  lemma OverlapsOneMore(candidate: Prefix, prefixes: seq<Prefix>, p: Prefix)
    ensures var more := prefixes + [p];
            (exists i | 0 <= i < |more| :: Overlap(candidate, more[i]))
            <==> (exists i | 0 <= i < |prefixes| :: Overlap(candidate, prefixes[i])) || Overlap(candidate, p)
  {
    hide Overlap;
    var more := prefixes + [p];
    if i :| 0 <= i < |prefixes| && Overlap(candidate, prefixes[i]) { assert Overlap(candidate, more[i]); }
    if Overlap(candidate, p) { assert Overlap(candidate, more[|prefixes|]); }
  }

  /** The masked form of a network meets the same masked prefixes. */
  lemma OverlapUnmasked(candidate: Prefix, network: Prefix)
    requires candidate.IsMasked()
    ensures Overlap(candidate, network.Masked()) <==> exists a: Address :: candidate.Contains(a) && network.Contains(a)
  {
    hide Prefix.Contains, Overlap;
    forall a: Address ensures network.Masked().Contains(a) <==> network.Contains(a) {
      MaskedContains(network, a);
    }
    MaskedContains(network, network.addr);
    OverlapIsIntersection(candidate, network.Masked());
    if a: Address :| candidate.Contains(a) && network.Contains(a) { assert network.Masked().Contains(a); }
    if a: Address :| candidate.Contains(a) && network.Masked().Contains(a) { assert network.Contains(a); }
  }

  lemma TakenByLast(candidate: Prefix, networks: seq<Option<Prefix>>)
    requires networks != []
    ensures var init, last := networks[..|networks| - 1], networks[|networks| - 1];
            Taken(candidate, networks)
            <==> Taken(candidate, init) || (last.Some? && exists a: Address :: candidate.Contains(a) && last.value.Contains(a))
  {
    hide Prefix.Contains;
    var init, last := networks[..|networks| - 1], networks[|networks| - 1];
    if Taken(candidate, init) {
      var i, a :| 0 <= i < |init| && init[i].Some? && candidate.Contains(a) && init[i].value.Contains(a);
      assert networks[i] == init[i];
    }
    if Taken(candidate, networks) {
      var i, a :| 0 <= i < |networks| && networks[i].Some? && candidate.Contains(a) && networks[i].value.Contains(a);
      if i < |init| { assert networks[i] == init[i]; }
    }
  }

  /** The chosen subnet is the first free slot from the hashed start on; none is chosen only when every slot is taken. */
  method SelectSubnet(c: Config, networks: seq<Option<Prefix>>, hash: nat) returns (r: Outcome<Prefix>)
    ensures r == Err(Invalid) <==> !ValidPool(c)
    ensures r.Ok? ==> exists offset | 0 <= offset < SlotCount(c) ::
              && r.value == ChildSubnet(c.pool, c.bits, Probe(c, hash, offset)) && !Taken(r.value, networks)
              && forall o | 0 <= o < offset :: Taken(ChildSubnet(c.pool, c.bits, Probe(c, hash, o)), networks)
    ensures r.Err? && ValidPool(c) ==>
              r == Err(Unavailable) && forall slot | 0 <= slot < SlotCount(c) :: Taken(ChildSubnet(c.pool, c.bits, slot), networks)
  {
    hide Pow2, Taken, ChildSubnet, Prefix.Contains, Overlap, IsPrivate;
    if !ValidPool(c) { return Err(Invalid); }
    var slots := SlotCount(c);
    var occupied := [];
    for i := 0 to |networks|
      invariant occupied == Occupied(networks[..i])
    {
      assert networks[..i + 1][..i] == networks[..i];
      if networks[i].Some? { occupied := occupied + [networks[i].value.Masked()]; }
    }
    assert networks[..|networks|] == networks;
    var start := hash % slots;
    DivMod(hash, slots);
    for offset := 0 to slots
      invariant forall o | 0 <= o < offset :: Taken(ChildSubnet(c.pool, c.bits, Probe(c, hash, o)), networks)
    {
      var candidate := ChildSubnet(c.pool, c.bits, (start + offset) % slots);
      ProbeInRange(c, hash, offset);
      SlotIs(c, Probe(c, hash, offset));
      OccupiedAre(networks, candidate);
      var overlaps := OverlapsAny(candidate, occupied);
      if !overlaps { return Ok(candidate); }
    }
    forall slot | 0 <= slot < slots ensures Taken(ChildSubnet(c.pool, c.bits, slot), networks) {
      var offset := ProbesReach(c, hash, slot);
    }
    return Err(Unavailable);
  }

  // ---- Gateways ----

  /** The first address after the network's own. */
  function Gateway(p: Prefix): Option<Address> { Next(Some(p.First())) }

  /** An existing network's gateway, as its configuration has it; None when it does not parse. */
  function ValidateGateway(c: Config, value: Option<Prefix>): Outcome<Prefix> {
    if value.None? || value.value.bits != c.bits then Err(Invalid)
    else if !ValidPool(c) then Err(Invalid)
    else if !c.pool.Contains(value.value.Masked().addr) || Gateway(value.value.Masked()) != Some(value.value.addr) then Err(Invalid)
    else Ok(value.value)
  }

  lemma GatewayIs(p: Prefix, a: Address)
    ensures Gateway(p) == Some(a) <==> a == p.First() + 1
  {
  }

  /** Accepted are exactly the second addresses of the pool's slots, written with the slots' length. */
  lemma GatewaysOfSlots(c: Config, value: Prefix)
    requires ValidPool(c)
    ensures ValidateGateway(c, Some(value)).Ok?
            <==> exists slot | 0 <= slot < SlotCount(c) ::
                   value.bits == c.bits && value.addr == ChildSubnet(c.pool, c.bits, slot).First() + 1
  {
    hide SlotCount, ChildSubnet, ValidateGateway, Gateway, IsPrivate;
    AreGateways(c, value);
    forall slot: nat { GatewayIs(ChildSubnet(c.pool, c.bits, slot), value.addr); }
  }

  lemma AreGateways(c: Config, value: Prefix)
    requires ValidPool(c)
    ensures ValidateGateway(c, Some(value)).Ok?
            <==> exists slot | 0 <= slot < SlotCount(c) ::
                   value.bits == c.bits && Gateway(ChildSubnet(c.pool, c.bits, slot)) == Some(value.addr)
  {
    hide Pow2, Size, ChildSubnet, IsPrivate;
    if ValidateGateway(c, Some(value)).Ok? {
      var slot := SlotOf(c, value.First());
      SameFirst(c, slot, value);
    }
    forall slot | 0 <= slot < SlotCount(c) && value.bits == c.bits && Gateway(ChildSubnet(c.pool, c.bits, slot)) == Some(value.addr)
      ensures ValidateGateway(c, Some(value)).Ok?
    {
      SlotGateway(c, slot, value);
    }
  }

  /** A network that starts inside a slot and has its size is that slot. */
  lemma SameFirst(c: Config, slot: nat, value: Prefix)
    requires ValidPool(c) && slot < SlotCount(c) && value.bits == c.bits
    requires ChildSubnet(c.pool, c.bits, slot).Contains(value.First())
    ensures ChildSubnet(c.pool, c.bits, slot).First() == value.First()
  {
    hide Pow2, Size, ChildSubnet, IsPrivate;
    var child := ChildSubnet(c.pool, c.bits, slot);
    ChildBits(c.pool, c.bits, slot);
    MaskedContains(value, value.First());
    ContainsIsRange(value, value.First());
    ContainsIsRange(child, child.First());
  }

  lemma SlotGateway(c: Config, slot: nat, value: Prefix)
    requires ValidPool(c) && slot < SlotCount(c) && value.bits == c.bits
    requires Gateway(ChildSubnet(c.pool, c.bits, slot)) == Some(value.addr)
    ensures ValidateGateway(c, Some(value)).Ok?
  {
    hide Pow2, ChildSubnet, IsPrivate;
    var child := ChildSubnet(c.pool, c.bits, slot);
    SlotIs(c, slot);
    ChildBits(c.pool, c.bits, slot);
    AtLeastFour(c.bits);
    ContainsIsRange(child, value.addr);
    ContainsIsRange(value, value.addr);
    ContainsIsRange(child, child.First());
    SlotContains(c, slot, child.First());
    MaskedFirst(value.Masked());
    MaskedContains(value, value.addr);
  }

  lemma AtLeastFour(bits: Bits)
    requires bits <= 30
    ensures Size(bits) >= 4
  {
    Pow2Adds(30 - bits, 2);
    assert Pow2(2) == 4;
    MulMono(1, Pow2(30 - bits), 4);
  }
}
