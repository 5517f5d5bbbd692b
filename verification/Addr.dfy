/** IPv4 addresses, CIDR blocks and the arithmetic of pkg/util. */
module Results {
  datatype Option<+T> = None | Some(value: T)

  datatype Error =
    | BadCIDR          // the text does not parse
    | InvalidCIDR      // the address has host bits set
    | BlockSize        // mask longer than the block size
    | Shortage         // a range too small to hand out addresses
    | Api              // a store or controller call failed
    | NeedBridge       // "CreateNewBridge": the pool is exhausted
    | NoAddress        // every candidate was taken by someone else

  datatype Result<+T> = Ok(value: T) | Err(error: Error)
}

module Addr {
  import opened Results

  const SPACE: nat := 0x1_0000_0000
  const WORD: nat := 0x1_0000_0000_0000_0000

  type Byte = x: nat | x < 256

  /** The last four bytes of a net.IP. */
  datatype IPv4 = IPv4(b0: Byte, b1: Byte, b2: Byte, b3: Byte)

  function IP2Long(ip: IPv4): nat {
    ip.b0 * 0x100_0000 + ip.b1 * 0x1_0000 + ip.b2 * 0x100 + ip.b3
  }

  /** Each shift is followed by a truncation to a byte, so bits above 2^32 are dropped. */
  function Long2IP(n: nat): IPv4 {
    IPv4(n / 0x100_0000 % 256, n / 0x1_0000 % 256, n / 0x100 % 256, n % 256)
  }

  lemma Shifts(n: nat)
    ensures n / 0x1_0000 == n / 0x100 / 0x100
    ensures n / 0x100_0000 == n / 0x1_0000 / 0x100
  {
  }

  /** Long2IP keeps exactly the low 32 bits. */
  lemma IP2LongOfLong2IP(n: nat)
    ensures IP2Long(Long2IP(n)) == n % SPACE
  {
    Shifts(n);
    var a, b, c := n / 0x100, n / 0x1_0000, n / 0x100_0000;
    var q := c / 256;
    assert n == 256 * a + n % 256 && a == 256 * b + a % 256 && b == 256 * c + b % 256 && c == 256 * q + c % 256;
    assert IP2Long(Long2IP(n)) == n - q * SPACE;
  }

  /** Truncation of a number that passed 2^32 at most once. */
  lemma Truncation(n: nat)
    requires n < 2 * SPACE
    ensures IP2Long(Long2IP(n)) == if n < SPACE then n else n - SPACE
  {
    hide IP2Long, Long2IP;
    IP2LongOfLong2IP(n);
  }

  lemma Long2IPOfIP2Long(ip: IPv4)
    ensures IP2Long(ip) < SPACE
    ensures Long2IP(IP2Long(ip)) == ip
  {
    var n := IP2Long(ip);
    Shifts(n);
    assert n / 0x100 == ip.b0 * 0x1_0000 + ip.b1 * 0x100 + ip.b2;
    assert n / 0x1_0000 == ip.b0 * 0x100 + ip.b1;
  }

  /** Remainder, by repeated subtraction. */
  function Rem(a: nat, d: nat): (r: nat)
    requires d > 0
    ensures r < d && r <= a
  {
    if a < d then a else Rem(a - d, d)
  }

  lemma {:induction false} RemIsMod(a: nat)
    ensures Rem(a, 256) == a % 256
  {
    if a >= 256 { RemIsMod(a - 256); }
  }

  lemma {:induction false} RemOfSum(b: nat, o: nat, d: nat)
    requires d > 0 && Rem(b, d) == 0
    ensures Rem(b + o, d) == Rem(o, d)
    decreases b
  {
    if b >= d { RemOfSum(b - d, o, d); }
  }

  /** Two multiples of d are at least d apart. */
  lemma {:induction false} Apart(x: nat, y: nat, d: nat)
    requires d > 0 && Rem(x, d) == 0 && Rem(y, d) == 0 && x < y
    ensures x + d <= y
    decreases x
  {
    if x >= d { Apart(x - d, y - d, d); }
  }

  lemma {:induction false} RemOfMultiples(q: nat, d: nat)
    requires d > 0
    ensures Rem(q * d, d) == 0
  {
    if q > 0 {
      MulSucc(q - 1, d);
      RemOfMultiples(q - 1, d);
      RemOfSum((q - 1) * d, d, d);
      RemOfMultiple(d);
    }
  }

  lemma {:induction false} RemTransitive(b: nat, d: nat, e: nat)
    requires d > 0 && e > 0 && Rem(b, d) == 0 && Rem(d, e) == 0
    ensures Rem(b, e) == 0
    decreases b
  {
    if b >= d {
      RemTransitive(b - d, d, e);
      RemOfSum(b - d, d, e);
    }
  }

  function Pow2(k: nat): (r: nat)
    ensures r >= 1
  {
    if k == 0 then 1 else 2 * Pow2(k - 1)
  }

  lemma {:induction false} Pow2Divides(i: nat, j: nat)
    requires i <= j
    ensures Rem(Pow2(j), Pow2(i)) == 0 && Pow2(i) <= Pow2(j)
  {
    if i < j {
      Pow2Divides(i, j - 1);
      RemOfSum(Pow2(j - 1), Pow2(j - 1), Pow2(i));
    } else {
      assert Rem(Pow2(i) - Pow2(i), Pow2(i)) == 0;
    }
  }

  lemma Pow2Constants()
    ensures Pow2(1) == 2 && Pow2(2) == 4 && Pow2(3) == 8 && Pow2(7) == 128 && Pow2(8) == 256
    ensures Pow2(32) == SPACE
  {
    assert Pow2(4) == 16 && Pow2(8) == 256;
    assert Pow2(12) == 0x1000 && Pow2(16) == 0x1_0000;
    assert Pow2(20) == 0x10_0000 && Pow2(24) == 0x100_0000;
    assert Pow2(28) == 0x1000_0000;
  }

  // ---------------------------------------------------------------- CIDR blocks

  /** What ParseCIDR reads from "a.b.c.d/mask": the address as the number IP2Long gives it. */
  datatype Cidr = Cidr(ip: nat, mask: nat) {
    ghost predicate Wf() { ip < SPACE && mask <= 32 }
  }

  function Size(mask: nat): nat
    requires mask <= 32
  {
    Pow2(32 - mask)
  }

  /** The network address of `c`: ParseCIDR's ipnet.IP. */
  function Base(c: Cidr): nat
    requires c.mask <= 32
  {
    c.ip - Rem(c.ip, Size(c.mask))
  }

  predicate Aligned(c: Cidr) {
    c.ip < SPACE && c.mask <= 32 && Rem(c.ip, Size(c.mask)) == 0
  }

  predicate InRange(a: nat, r: Cidr)
    requires r.mask <= 32
  {
    r.ip <= a < r.ip + Size(r.mask)
  }

  function GetNextCIDR(text: Option<Cidr>): (r: Result<Cidr>)
    requires text.Some? ==> text.value.Wf()
  {
    if text.None? then Err(BadCIDR)
    else if text.value.ip != Base(text.value) then Err(InvalidCIDR)
    else Ok(Cidr(IP2Long(Long2IP(text.value.ip + Size(text.value.mask))), text.value.mask))
  }

  /** The size of a block divides the address space, and is a multiple of 256 up to /24. */
  lemma SizeFacts(mask: nat)
    requires mask <= 32
    ensures Rem(SPACE, Size(mask)) == 0 && Size(mask) <= SPACE
    ensures mask <= 24 ==> Size(mask) >= 256 && Rem(Size(mask), 256) == 0
    ensures mask > 24 ==> Size(mask) <= 128
    ensures if mask <= 30 then Size(mask) >= 4 else Size(mask) <= 2
    ensures if mask <= 29 then Size(mask) >= 8 else Size(mask) <= 4
    ensures mask == 30 ==> Size(mask) == 4
  {
    hide Pow2, Rem;
    Pow2Constants();
    Pow2Divides(32 - mask, 32);
    if mask <= 24 { Pow2Divides(8, 32 - mask); } else { Pow2Divides(32 - mask, 7); }
    if mask <= 29 { Pow2Divides(3, 32 - mask); } else { Pow2Divides(32 - mask, 2); }
    if mask <= 30 { Pow2Divides(2, 32 - mask); } else { Pow2Divides(32 - mask, 1); }
  }

  /** An aligned block never crosses the end of the address space. */
  lemma AlignedFits(c: Cidr)
    requires Aligned(c)
    ensures c.ip + Size(c.mask) <= SPACE
  {
    SizeFacts(c.mask);
    Apart(c.ip, SPACE, Size(c.mask));
  }

  /** GetNextCIDR accepts exactly the aligned blocks, and its answer is a block it accepts again:
      the adjacent one, or 0.0.0.0 with the same mask after the last block. */
  lemma NextCIDR(text: Option<Cidr>)
    requires text.Some? ==> text.value.Wf()
    ensures GetNextCIDR(text).Ok? <==> text.Some? && Aligned(text.value)
    ensures GetNextCIDR(text).Ok? ==>
              var c, n := text.value, GetNextCIDR(text).value;
              && Aligned(n) && n.mask == c.mask
              && n.ip == (if c.ip + Size(c.mask) == SPACE then 0 else c.ip + Size(c.mask))
  {
    hide IP2Long, Long2IP, Rem, Pow2;
    if text.Some? && Aligned(text.value) {
      var c := text.value;
      var d := Size(c.mask);
      AlignedFits(c);
      SizeFacts(c.mask);
      Truncation(c.ip + d);
      RemOfSum(c.ip, d, d);
      RemOfMultiple(d);
    }
  }

  /** The block GetNextCIDR names. */
  function Succ(g: Cidr): Cidr
    requires g.mask <= 32
  {
    Cidr(if g.ip + Size(g.mask) == SPACE then 0 else g.ip + Size(g.mask), g.mask)
  }

  lemma SuccIsNext(g: Cidr)
    requires Aligned(g)
    ensures GetNextCIDR(Some(g)) == Ok(Succ(g)) && Aligned(Succ(g))
  {
    hide GetNextCIDR, Rem;
    NextCIDR(Some(g));
  }

  /** The block before `g`, or the last one. */
  lemma BlockBefore(g: Cidr) returns (p: Cidr)
    requires Aligned(g) && g.mask <= 30
    ensures Aligned(p) && p.mask == g.mask && Succ(p) == g && (g.ip > 0 ==> p.ip < g.ip)
  {
    hide Rem, Pow2;
    var d := Size(g.mask);
    SizeFacts(g.mask);
    var end := if g.ip == 0 then SPACE else g.ip;
    if g.ip > 0 {
      RemOfMultiple(d);
      Apart(0, g.ip, d);
      AlignedFits(g);
    }
    RemDown(end, d);
    p := Cidr(end - d, g.mask);
  }

  lemma RemOfMultiple(d: nat)
    requires d > 0
    ensures Rem(0, d) == 0 && Rem(d, d) == 0
  {
  }

  /** The n-th block after `c`, counting from 0 and staying inside the address space. */
  function Nth(c: Cidr, n: nat): Cidr
    requires c.mask <= 32
  {
    Cidr(c.ip + n * Size(c.mask), c.mask)
  }

  /** n applications of GetNextCIDR. */
  function Iterate(c: Cidr, n: nat): (r: Result<Cidr>)
    requires Aligned(c)
    ensures r.Ok? && Aligned(r.value)
  {
    if n == 0 then Ok(c)
    else
      var p := Iterate(c, n - 1).value;
      assert GetNextCIDR(Some(p)).Ok? && Aligned(GetNextCIDR(Some(p)).value) by { NextCIDR(Some(p)); }
      GetNextCIDR(Some(p))
  }

  /** Before the address space wraps, the n-th block in a chain of GetNextCIDR calls is
      base + n * size. */
  lemma {:induction false} IterateIsNth(c: Cidr, n: nat)
    requires Aligned(c) && c.ip + (n + 1) * Size(c.mask) <= SPACE
    ensures Iterate(c, n) == Ok(Nth(c, n))
  {
    hide IP2Long, Long2IP, Rem, GetNextCIDR;
    var d := Size(c.mask);
    if n > 0 {
      MulSucc(n - 1, d);
      MulSucc(n, d);
      IterateIsNth(c, n - 1);
      NextCIDR(Some(Nth(c, n - 1)));
    }
  }

  lemma MulSucc(n: nat, d: nat)
    ensures (n + 1) * d == n * d + d
  {
  }

  /** Hence no two of them share an address. */
  lemma IteratesDisjoint(c: Cidr, i: nat, j: nat, a: nat)
    requires Aligned(c) && i < j && c.ip + (j + 1) * Size(c.mask) <= SPACE
    ensures !(InRange(a, Iterate(c, i).value) && InRange(a, Iterate(c, j).value))
  {
    hide IP2Long, Long2IP, Rem, Iterate, GetNextCIDR;
    var d := Size(c.mask);
    MulMonotone(i + 1, j, d);
    MulSucc(i, d);
    MulSucc(j, d);
    IterateIsNth(c, i);
    IterateIsNth(c, j);
  }

  lemma MulMonotone(x: nat, y: nat, d: nat)
    requires x <= y
    ensures x * d <= y * d
  {
  }

  // ---------------------------------------------------------------- addresses of a pool

  /** The addresses a pod range offers: not the first two, not the last, none ending in .254. */
  predicate Allocatable(mask: nat, a: nat)
    requires mask <= 32
  {
    2 <= Rem(a, Size(mask)) <= Size(mask) - 2 && a % 256 != 254
  }

  /** In an aligned block the offset of an address is its remainder. */
  lemma Offset(r: Cidr, a: nat)
    requires Aligned(r) && InRange(a, r)
    ensures Rem(a, Size(r.mask)) == a - r.ip
    ensures Base(Cidr(a, r.mask)) == r.ip
  {
    RemOfSum(r.ip, a - r.ip, Size(r.mask));
  }

  /** ReleaseIP's comparison of network and mask. */
  predicate SameNet(range: Cidr, v: Cidr)
    requires range.mask <= 32 && v.mask <= 32
  {
    Base(range) == Base(v) && range.mask == v.mask
  }

  /** The comparison says exactly that the address lies in the range and carries its mask. */
  lemma SameNetIsMembership(range: Cidr, v: Cidr)
    requires Aligned(range) && v.mask <= 32
    ensures SameNet(range, v) <==> InRange(v.ip, range) && range.mask == v.mask
  {
    if range.mask == v.mask && InRange(v.ip, range) { Offset(range, v.ip); }
  }

  /** The gateway of GetNewIP and of CreateBridgeLinkRouter. */
  function Gateway(v: Cidr): nat
    requires v.mask <= 32
  {
    IP2Long(Long2IP(Base(v) + 254))
  }

  /** GetNewIP computes, from any address of a range, the gateway CreateBridgeLinkRouter
      installed for the range; it lies in the subnet exactly for masks up to /24, and then no
      range of the tenant offers it. */
  lemma GatewayOfRange(r: Cidr, a: nat)
    requires Aligned(r) && InRange(a, r)
    ensures Gateway(Cidr(a, r.mask)) == Gateway(r)
    ensures InRange(Gateway(r), r) <==> r.mask <= 24
    ensures r.mask <= 24 ==> Gateway(r) % 256 == 254 && !Allocatable(r.mask, Gateway(r))
    ensures r.mask <= 24 ==> Gateway(r) / 256 == r.ip / 256
  {
    hide IP2Long, Long2IP;
    Offset(r, a);
    Offset(r, r.ip);
    SizeFacts(r.mask);
    AlignedFits(r);
    Truncation(r.ip + 254);
    if r.mask <= 24 {
      RemTransitive(r.ip, Size(r.mask), 256);
      RemOfSum(r.ip, 254, 256);
      RemIsMod(r.ip + 254);
      RemIsMod(r.ip);
    }
  }

  /** Above /24 the gateway, if it does not wrap, is the last but one address of a later block, and
      a range of the tenant's may offer it exactly if the block it belongs to is not the first of
      its 256 addresses. */
  lemma GatewayAbove24(r: Cidr)
    requires Aligned(r) && 24 < r.mask <= 30
    ensures Size(r.mask) <= 128 && (Allocatable(r.mask, Gateway(r)) <==> r.ip % 256 != 0)
    ensures r.ip + 256 <= SPACE ==>
              var s := Cidr(r.ip + 256 - Size(r.mask), r.mask);
              Aligned(s) && Gateway(r) == s.ip + Size(s.mask) - 2
    ensures r.ip + 256 > SPACE ==> Gateway(r) == r.ip + 254 - SPACE
  {
    hide IP2Long, Long2IP, Rem, Pow2;
    var d := Size(r.mask);
    SizeFacts(r.mask);
    AlignedFits(r);
    Offset(r, r.ip);
    Truncation(r.ip + 254);
    Pow2Constants();
    Pow2Divides(32 - r.mask, 8);
    RemDown(256, d);
    RemOfSum(r.ip, 256 - d, d);
    RemOfSum(r.ip + 256 - d, d - 2, d);
    RemSmall(d - 2, d);
    RemOfSum(256, SPACE - 256, d);
    if r.ip + 256 > SPACE { Apart(SPACE - 256, r.ip, d); }
    if r.ip + 254 >= SPACE { RemOfSum(SPACE, r.ip + 254 - SPACE, d); }
  }

  lemma RemDown(a: nat, d: nat)
    requires 0 < d <= a
    ensures Rem(a - d, d) == Rem(a, d)
  {
  }

  lemma RemSmall(a: nat, d: nat)
    requires a < d
    ensures Rem(a, d) == a
  {
  }

  lemma TwoBelow(a: nat)
    ensures (a + 2) % 256 == 254 <==> a % 256 == 252
  {
  }

  /** The third address of a block of eight or more is offered. */
  lemma AlignedTo8(r: Cidr)
    requires Aligned(r) && r.mask <= 29
    ensures (r.ip + 2) % 256 != 254
  {
    Pow2Constants();
    Pow2Divides(3, 32 - r.mask);
    RemTransitive(r.ip, Size(r.mask), 8);
    RemIsMod8(r.ip);
  }

  lemma {:induction false} RemIsMod8(a: nat)
    ensures Rem(a, 8) == a % 8
  {
    if a >= 8 { RemIsMod8(a - 8); }
  }
}
