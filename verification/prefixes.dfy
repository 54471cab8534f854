/** IP addresses and CIDR prefixes (section 3.1 of RFC 4632), as the daemon
    uses them through Go's net/netip.

    A prefix keeps the address it was made from: it is not masked. Overlaps
    and Contains follow the library: they compare the leading bits, that is,
    the values shifted right by the number of host bits. */
module Prefixes {

  datatype Family = V4 | V6

  function Width(f: Family): nat {
    match f
    case V4 => 32
    case V6 => 128
  }

  function Pow2(n: nat): (r: nat)
    ensures r >= 1
  {
    if n == 0 then 1 else 2 * Pow2(n - 1)
  }

  /** x shifted right by k bits. */
  function Shr(x: nat, k: nat): nat
    decreases k
  {
    if k == 0 then x else Shr(x / 2, k - 1)
  }

  datatype RawAddr = Addr(family: Family, value: nat)
  type Addr = a: RawAddr | a.value < Pow2(Width(a.family)) witness RawAddr.Addr(V4, 0)

  datatype RawPrefix = Prefix(addr: Addr, bits: nat)
  type Prefix = p: RawPrefix | p.bits <= Width(p.addr.family) witness RawPrefix.Prefix(RawAddr.Addr(V4, 0), 0)

  /** The prefix that holds exactly one address. */
  function Single(a: Addr): Prefix {
    RawPrefix.Prefix(a, Width(a.family))
  }

  predicate IsSingle(p: Prefix) {
    p.bits == Width(p.addr.family)
  }

  predicate Contains(p: Prefix, a: Addr) {
    && p.addr.family == a.family
    && var host := Width(a.family) - p.bits;
       Shr(p.addr.value, host) == Shr(a.value, host)
  }

  predicate Overlaps(p: Prefix, q: Prefix) {
    && p.addr.family == q.addr.family
    && var bits := if p.bits < q.bits then p.bits else q.bits;
       var host := Width(p.addr.family) - bits;
       bits == 0 || Shr(p.addr.value, host) == Shr(q.addr.value, host)
  }

  /** q lies inside p, as AddStatic decides it: they overlap and p is not the longer one. */
  predicate Within(q: Prefix, p: Prefix) {
    Overlaps(q, p) && p.bits <= q.bits
  }

  /** The prefix with its host bits cleared. */
  function Masked(p: Prefix): (r: Prefix)
    ensures r.bits == p.bits && r.addr.family == p.addr.family
  {
    var host := Width(p.addr.family) - p.bits;
    ShrInterval(p.addr.value, host, Shr(p.addr.value, host));
    RawPrefix.Prefix(RawAddr.Addr(p.addr.family, Shr(p.addr.value, host) * Pow2(host)), p.bits)
  }

  // ----- shifting -----

  lemma {:induction false} ShrAdd(x: nat, j: nat, k: nat)
    ensures Shr(x, j + k) == Shr(Shr(x, j), k)
    decreases j
  {
    if j > 0 {
      ShrAdd(x / 2, j - 1, k);
    }
  }

  /** Shifting right is division by a power of two, said without division. */
  lemma {:induction false} ShrInterval(x: nat, k: nat, n: nat)
    ensures Shr(x, k) == n <==> n * Pow2(k) <= x < (n + 1) * Pow2(k)
    decreases k
  {
    if k > 0 {
      ShrInterval(x / 2, k - 1, n);
      MulDouble(n, Pow2(k - 1));
      MulDouble(n + 1, Pow2(k - 1));
    } else {
      assert n * Pow2(0) == n && (n + 1) * Pow2(0) == n + 1;
    }
  }

  lemma MulDouble(n: nat, h: nat)
    ensures n * (2 * h) == 2 * (n * h)
  {}

  lemma {:induction false} Pow2Monotone(j: nat, k: nat)
    requires j < k
    ensures 2 * Pow2(j) <= Pow2(k)
    decreases k
  {
    if j < k - 1 {
      Pow2Monotone(j, k - 1);
    }
  }

  lemma ShrWhole(a: Addr)
    ensures Shr(a.value, Width(a.family)) == 0
  {
    ShrInterval(a.value, Width(a.family), 0);
  }

  /** Agreeing on the leading bits is kept when fewer bits are compared. */
  lemma ShrFewerBits(x: nat, y: nat, j: nat, k: nat)
    requires j <= k && Shr(x, j) == Shr(y, j)
    ensures Shr(x, k) == Shr(y, k)
  {
    ShrAdd(x, j, k - j);
    ShrAdd(y, j, k - j);
  }

  // ----- the meaning of Contains, Overlaps and Within -----

  /** A prefix of b bits covers the aligned block of 2^(w-b) addresses around its own address. */
  lemma ContainsIsBlock(p: Prefix, a: Addr)
    ensures Contains(p, a) <==>
            && a.family == p.addr.family
            && Masked(p).addr.value <= a.value < Masked(p).addr.value + Pow2(Width(p.addr.family) - p.bits)
  {
    var host := Width(p.addr.family) - p.bits;
    var n := Shr(p.addr.value, host);
    ShrInterval(a.value, host, n);
    assert (n + 1) * Pow2(host) == n * Pow2(host) + Pow2(host);
  }

  lemma OverlapsSymmetric(p: Prefix, q: Prefix)
    ensures Overlaps(p, q) == Overlaps(q, p)
  {}

  lemma OverlapsAsShift(p: Prefix, q: Prefix)
    requires p.addr.family == q.addr.family && p.bits <= q.bits
    ensures Overlaps(p, q) <==>
            var host := Width(p.addr.family) - p.bits;
            Shr(p.addr.value, host) == Shr(q.addr.value, host)
  {
    if p.bits == 0 {
      ShrWhole(p.addr);
      ShrWhole(q.addr);
    }
  }

  lemma WithinCovers(q: Prefix, p: Prefix, a: Addr)
    requires Within(q, p) && Contains(q, a)
    ensures Contains(p, a)
  {
    var w := Width(a.family);
    OverlapsAsShift(p, q);
    ShrFewerBits(q.addr.value, a.value, w - q.bits, w - p.bits);
  }

  lemma ContainsOwnAddr(p: Prefix)
    ensures Contains(p, p.addr)
  {}

  /** Two prefixes overlap exactly when some address is in both. */
  lemma OverlapsIffShared(p: Prefix, q: Prefix)
    ensures Overlaps(p, q) <==> exists a: Addr :: Contains(p, a) && Contains(q, a)
  {
    if q.bits < p.bits {
      OverlapsIffSharedOrdered(q, p);
      OverlapsSymmetric(p, q);
    } else {
      OverlapsIffSharedOrdered(p, q);
    }
  }

  lemma OverlapsIffSharedOrdered(p: Prefix, q: Prefix)
    requires p.bits <= q.bits
    ensures Overlaps(p, q) <==> exists a: Addr :: Contains(p, a) && Contains(q, a)
  {
    if Overlaps(p, q) {
      WithinCovers(q, p, q.addr);
      assert Contains(p, q.addr) && Contains(q, q.addr);
    } else if a: Addr :| Contains(p, a) && Contains(q, a) {
      var w := Width(a.family);
      ShrFewerBits(q.addr.value, a.value, w - q.bits, w - p.bits);
      OverlapsAsShift(p, q);
      assert false;
    }
  }

  /** Within is exactly inclusion of the covered addresses. */
  lemma WithinIffCovered(q: Prefix, p: Prefix)
    ensures Within(q, p) <==> forall a: Addr | Contains(q, a) :: Contains(p, a)
  {
    if Within(q, p) {
      forall a: Addr | Contains(q, a)
        ensures Contains(p, a)
      {
        WithinCovers(q, p, a);
      }
    } else if forall a: Addr | Contains(q, a) :: Contains(p, a) {
      ContainsOwnAddr(q);
      assert Contains(p, q.addr) && Contains(q, q.addr);
      OverlapsIffShared(q, p);
      NotCoveredByLonger(q, p);
    }
  }

  /** A prefix always covers an address that a longer one does not. */
  lemma NotCoveredByLonger(q: Prefix, p: Prefix)
    requires q.bits < p.bits && p.addr.family == q.addr.family
    ensures exists a: Addr :: Contains(q, a) && !Contains(p, a)
  {
    var w := Width(q.addr.family);
    var size := Pow2(w - q.bits);
    var first := Masked(q).addr;
    ContainsIsBlock(q, first);
    BlockFits(q);
    var last: Addr := RawAddr.Addr(first.family, first.value + size - 1);
    ContainsIsBlock(q, last);
    ContainsIsBlock(p, first);
    ContainsIsBlock(p, last);
    Pow2Monotone(w - p.bits, w - q.bits);
    assert !Contains(p, first) || !Contains(p, last);
  }

  lemma BlockFits(p: Prefix)
    ensures Masked(p).addr.value + Pow2(Width(p.addr.family) - p.bits) <= Pow2(Width(p.addr.family))
  {
    var w := Width(p.addr.family);
    var host := w - p.bits;
    var n := Shr(p.addr.value, host);
    ShrWhole(p.addr);
    ShrAdd(p.addr.value, host, p.bits);
    ShrInterval(n, p.bits, 0);
    Pow2Add(host, p.bits);
    LastBlock(n, Pow2(p.bits), Pow2(host));
  }

  lemma {:induction false} LastBlock(n: nat, blocks: nat, size: nat)
    requires n < blocks
    ensures n * size + size <= size * blocks
    decreases blocks
  {
    assert size * blocks == size * (blocks - 1) + size;
    if n < blocks - 1 {
      LastBlock(n, blocks - 1, size);
    }
  }

  lemma {:induction false} Pow2Add(j: nat, k: nat)
    ensures Pow2(j + k) == Pow2(j) * Pow2(k)
    decreases j
  {
    if j > 0 {
      Pow2Add(j - 1, k);
      assert Pow2(j) * Pow2(k) == 2 * (Pow2(j - 1) * Pow2(k));
    }
  }

  /** Masking forgets exactly the difference between overlapping prefixes of one length. */
  lemma MaskedEqual(p: Prefix, q: Prefix)
    ensures Masked(p) == Masked(q) <==> p.bits == q.bits && Overlaps(p, q)
  {
    if p.bits == q.bits && p.addr.family == q.addr.family {
      OverlapsAsShift(p, q);
      ContainsOwnAddr(p);
      ContainsIsBlock(p, p.addr);
      ContainsIsBlock(q, p.addr);
    }
  }

  lemma WithinTransitive(r: Prefix, q: Prefix, p: Prefix)
    requires Within(r, q) && Within(q, p)
    ensures Within(r, p)
  {
    var w := Width(p.addr.family);
    OverlapsAsShift(q, r);
    OverlapsAsShift(p, q);
    OverlapsAsShift(p, r);
    ShrFewerBits(q.addr.value, r.addr.value, w - q.bits, w - p.bits);
  }

  /** Of three prefixes, two that both meet a third and nest around it meet each other. */
  lemma NestedOverlap(u: Prefix, p: Prefix, v: Prefix)
    requires Within(u, p) && Within(p, v)
    ensures Overlaps(u, v)
  {
    WithinTransitive(u, p, v);
  }
}
