/** Addresses, CIDR prefixes and ranges, and the endpoint tests `addrMatchesQuery`,
    `prefixMatchesQuery` and `rangeMatchesQuery`.

    An address is a number below 2^w, where the width w tells its family: 32 for IPv4, 128 for
    IPv6, and here any width at all. A prefix of length n denotes one aligned block of 2^(w-n)
    addresses (section 3.1 of RFC 4632, section 2.3 of RFC 4291).
    IPv6 zones are outside the model. */
module Addresses {

  datatype Addr = Addr(width: nat, bits: int)

  datatype Prefix = Prefix(addr: Addr, len: nat)

  datatype Query = AddrQuery(a: Addr) | CidrQuery(p: Prefix)
  {
    function Width(): nat {
      if AddrQuery? then a.width else p.addr.width
    }
  }

  function Pow2(n: nat): (p: nat)
    ensures p > 0
  {
    if n == 0 then 1 else 2 * Pow2(n - 1)
  }

  predicate ValidAddr(a: Addr) {
    0 <= a.bits < Pow2(a.width)
  }

  predicate ValidPrefix(p: Prefix) {
    ValidAddr(p.addr) && p.len <= p.addr.width
  }

  /** The number of addresses in the block of a prefix. */
  function BlockSize(p: Prefix): (n: nat)
    requires ValidPrefix(p)
    ensures n > 0
  {
    Pow2(p.addr.width - p.len)
  }

  function Masked(p: Prefix): (m: Prefix)
    requires ValidPrefix(p)
    ensures ValidPrefix(m)
  {
    var n := BlockSize(p);
    BlockBelow(p.addr.bits, n);
    Prefix(Addr(p.addr.width, p.addr.bits / n * n), p.len)
  }

  /** `netip.Prefix.Contains`: same family and equal leading bits. */
  predicate Contains(p: Prefix, a: Addr)
    requires ValidPrefix(p)
  {
    a.width == p.addr.width && a.bits / BlockSize(p) == p.addr.bits / BlockSize(p)
  }

  /** A parsed query: `parseLookupQuery` masks the prefix. */
  predicate ValidQuery(q: Query) {
    match q
    case AddrQuery(a) => ValidAddr(a)
    case CidrQuery(p) => ValidPrefix(p) && Masked(p) == p
  }

  function MakeCidrQuery(p: Prefix): Query
    requires ValidPrefix(p)
  {
    CidrQuery(Masked(p))
  }

  predicate AddrMatches(a: Addr, q: Query)
    requires ValidQuery(q)
  {
    a.width == q.Width() && if q.CidrQuery? then Contains(q.p, a) else a == q.a
  }

  predicate PrefixMatches(p: Prefix, q: Query)
    requires ValidPrefix(p) && ValidQuery(q)
  {
    && p.addr.width == q.Width()
    && var mp := Masked(p);
       if q.CidrQuery? then Contains(mp, q.p.addr) || Contains(q.p, mp.addr) else Contains(mp, q.a)
  }

  predicate RangeMatches(lo: Addr, hi: Addr, q: Query)
    requires ValidQuery(q)
  {
    && lo.width == q.Width() && hi.width == q.Width()
    && if q.CidrQuery? then Contains(q.p, lo) || Contains(q.p, hi) || lo.bits <= q.p.addr.bits <= hi.bits
       else lo.bits <= q.a.bits <= hi.bits
  }

  // ---------------------------------------------------------------- denotations

  /** The addresses of a prefix, as the interval its notation stands for. */
  ghost predicate InPrefix(p: Prefix, x: Addr)
    requires ValidPrefix(p)
  {
    var n := BlockSize(p);
    x.width == p.addr.width && p.addr.bits / n * n <= x.bits < p.addr.bits / n * n + n
  }

  ghost predicate InRange(lo: Addr, hi: Addr, x: Addr) {
    lo.width == x.width == hi.width && lo.bits <= x.bits <= hi.bits
  }

  ghost predicate InQuery(q: Query, x: Addr)
    requires ValidQuery(q)
  {
    match q
    case AddrQuery(a) => x == a
    case CidrQuery(p) => InPrefix(p, x)
  }

  // ---------------------------------------------------------------- arithmetic of aligned blocks

  lemma {:induction false} Pow2Adds(m: nat, n: nat)
    ensures Pow2(m + n) == Pow2(m) * Pow2(n)
    decreases m
  {
    if m != 0 {
      Pow2Adds(m - 1, n);
    }
  }

  lemma MulMono(x: int, y: int, n: nat)
    requires x <= y
    ensures x * n <= y * n
  {
  }

  lemma UniqueQuotient(d: int, q: int, n: nat, a: int)
    requires d * n <= a < d * n + n && q * n <= a < q * n + n
    ensures d == q
  {
    assert (d + 1) * n == d * n + n && (q + 1) * n == q * n + n;
    if d < q {
      MulMono(d + 1, q, n);
    } else if q < d {
      MulMono(q + 1, d, n);
    }
  }

  lemma QuotientIs(a: int, n: nat, q: int)
    requires n > 0 && q * n <= a < q * n + n
    ensures a / n == q
  {
    QuotientBounds(a, n);
    UniqueQuotient(a / n, q, n, a);
  }

  lemma QuotientBounds(a: int, n: nat)
    requires n > 0
    ensures a / n * n <= a < a / n * n + n
  {
    assert a == a / n * n + a % n;
  }

  /** Equal quotients are membership of the aligned block. */
  lemma SameBlock(a: int, b: int, n: nat)
    requires n > 0
    ensures a / n == b / n <==> b / n * n <= a < b / n * n + n
  {
    QuotientBounds(a, n);
    if b / n * n <= a < b / n * n + n {
      QuotientIs(a, n, b / n);
    }
  }

  lemma ProductNat(a: nat, b: nat)
    ensures 0 <= a * b
  {
  }

  lemma BlockBelow(b: nat, n: nat)
    requires n > 0
    ensures 0 <= b / n * n <= b
  {
    QuotientBounds(b, n);
    ProductNat(b / n, n);
  }

  /** The start of a block is in it, and masking twice is masking once. */
  lemma BlockStart(b: nat, n: nat)
    requires n > 0
    ensures 0 <= b / n * n && b / n * n / n == b / n
  {
    ProductNat(b / n, n);
    QuotientIs(b / n * n, n, b / n);
  }

  /** Dividing by n and then by m is dividing by n * m. */
  lemma DivDiv(a: nat, n: nat, m: nat)
    requires n > 0 && m > 0
    ensures n * m > 0 && a / n / m == a / (n * m)
  {
    var d, q := a / n, a / n / m;
    QuotientBounds(a, n);
    QuotientBounds(d, m);
    Scaled(d, q, n, m);
    QuotientIs(a, n * m, q);
  }

  lemma Scaled(d: nat, q: nat, n: nat, m: nat)
    requires n > 0 && m > 0 && q * m <= d < q * m + m
    ensures n * m > 0 && q * (n * m) <= d * n && d * n + n <= q * (n * m) + n * m
  {
    MulMono(1, n, m);
    MulMono(q * m, d, n);
    MulMono(d + 1, q * m + m, n);
    assert q * m * n == q * (n * m) by { MulSwap(q, m, n); }
    assert (q * m + m) * n == q * m * n + m * n;
    assert (d + 1) * n == d * n + n;
  }

  lemma MulSwap(q: nat, m: nat, n: nat)
    ensures q * m * n == q * (n * m)
  {
  }

  /** `Contains` is membership in the block the prefix denotes. */
  lemma ContainsIsMembership(p: Prefix, x: Addr)
    requires ValidPrefix(p)
    ensures Contains(p, x) <==> InPrefix(p, x)
  {
    SameBlock(x.bits, p.addr.bits, BlockSize(p));
  }

  lemma MaskedValid(p: Prefix)
    requires ValidPrefix(p)
    ensures Masked(Masked(p)) == Masked(p) && Contains(Masked(p), Masked(p).addr)
    ensures forall x :: InPrefix(Masked(p), x) <==> InPrefix(p, x)
  {
    var n := BlockSize(p);
    BlockStart(p.addr.bits, n);
    QuotientBounds(p.addr.bits, n);
  }

  /** Every prefix that parses makes a valid query, for the addresses of that prefix. */
  lemma QueryIsMasked(p: Prefix)
    requires ValidPrefix(p)
    ensures ValidQuery(MakeCidrQuery(p)) && forall x :: InQuery(MakeCidrQuery(p), x) <==> InPrefix(p, x)
  {
    MaskedValid(p);
  }

  /** Two blocks of one family that share an address are nested: the shorter prefix contains
      the network address of the longer one. */
  lemma Nested(p: Prefix, q: Prefix, x: Addr)
    requires ValidPrefix(p) && ValidPrefix(q) && p.len <= q.len && Masked(q) == q
    requires InPrefix(p, x) && InPrefix(q, x)
    ensures Contains(p, q.addr)
  {
    var w := p.addr.width;
    var m := Pow2(q.len - p.len);
    Pow2Adds(w - q.len, q.len - p.len);
    var n := BlockSize(q);
    assert BlockSize(p) == n * m;
    ContainsIsMembership(p, x);
    ContainsIsMembership(q, x);
    DivDiv(x.bits, n, m);
    DivDiv(q.addr.bits, n, m);
  }

  // ---------------------------------------------------------------- the endpoint tests are exact

  lemma AddrMatchesExact(a: Addr, q: Query)
    requires ValidQuery(q) && ValidAddr(a)
    ensures AddrMatches(a, q) <==> InQuery(q, a)
  {
    if q.CidrQuery? {
      ContainsIsMembership(q.p, a);
    }
  }

  /** A prefix matches the query exactly when the two share an address. */
  lemma PrefixMatchesExact(p: Prefix, q: Query)
    requires ValidQuery(q) && ValidPrefix(p)
    ensures PrefixMatches(p, q) <==> exists x :: ValidAddr(x) && InPrefix(p, x) && InQuery(q, x)
  {
    MaskedValid(p);
    var mp := Masked(p);
    if q.AddrQuery? {
      ContainsIsMembership(mp, q.a);
      if PrefixMatches(p, q) {
        assert ValidAddr(q.a) && InPrefix(p, q.a) && InQuery(q, q.a);
      }
    } else {
      MaskedValid(q.p);
      ContainsIsMembership(mp, q.p.addr);
      ContainsIsMembership(q.p, mp.addr);
      ContainsIsMembership(mp, mp.addr);
      ContainsIsMembership(q.p, q.p.addr);
      if PrefixMatches(p, q) {
        var w := if Contains(mp, q.p.addr) then q.p.addr else mp.addr;
        assert ValidAddr(w) && InPrefix(p, w) && InQuery(q, w);
      }
      if x :| ValidAddr(x) && InPrefix(p, x) && InQuery(q, x) {
        if p.len <= q.p.len {
          Nested(mp, q.p, x);
        } else {
          Nested(q.p, mp, x);
        }
      }
    }
  }

  /** A range whose ends are in order matches the query exactly when the two share an address.
      With the ends reversed the range is empty, and the test still answers yes when the CIDR
      query contains one of the ends. */
  lemma RangeMatchesExact(lo: Addr, hi: Addr, q: Query)
    requires ValidQuery(q) && ValidAddr(lo) && ValidAddr(hi)
    ensures (RangeMatches(lo, hi, q) <==> exists x :: ValidAddr(x) && InRange(lo, hi, x) && InQuery(q, x))
            <==> (lo.width != hi.width || lo.bits <= hi.bits || !q.CidrQuery? || !(Contains(q.p, lo) || Contains(q.p, hi)))
  {
    if q.AddrQuery? {
      if RangeMatches(lo, hi, q) {
        assert ValidAddr(q.a) && InRange(lo, hi, q.a) && InQuery(q, q.a);
      }
    } else {
      ContainsIsMembership(q.p, lo);
      ContainsIsMembership(q.p, hi);
      ContainsIsMembership(q.p, q.p.addr);
      if lo.bits <= hi.bits {
        if RangeMatches(lo, hi, q) {
          var w := if Contains(q.p, lo) then lo else if Contains(q.p, hi) then hi else q.p.addr;
          assert ValidAddr(w) && InRange(lo, hi, w) && InQuery(q, w);
        }
      }
    }
  }

  /** The failing family is not empty: 10.0.0.9-10.0.0.1 denotes nothing, yet matches 10.0.0.0/24. */
  lemma ReversedRangeOvermatches()
    ensures var q := CidrQuery(Prefix(Addr(32, 0x0A000000), 24));
            var lo, hi := Addr(32, 0x0A000009), Addr(32, 0x0A000001);
            && ValidQuery(q) && RangeMatches(lo, hi, q)
            && !exists x :: InRange(lo, hi, x)
  {
    assert Pow2(8) == 256;
    assert Pow2(32) == 0x1_0000_0000 by {
      assert Pow2(16) == 65536;
      Pow2Adds(16, 16);
    }
  }
}
