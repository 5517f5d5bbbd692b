/** The pool-filling loop of pkg/ipam/etcd_ipam.go over the mutable range iterator, when nobody else
    touches the pool, and the exact set of addresses it offers. */
module Fill {
  import opened Results
  import opened Addr
  import opened Ranges
  import opened Tenant
  import opened TenantInv
  import opened TenantRuns
  import opened TenantProgress

  /** An etcd directory .../available: one node per address, and the node iprange. */
  class Directory {
    var nodes: map<nat, Cidr>
    var iprange: Option<Cidr>
    const reliable: bool // no operation fails

    constructor (reliable: bool)
      ensures nodes == map[] && iprange == None && this.reliable == reliable
    {
      nodes, iprange, this.reliable := map[], None, reliable;
    }

    /** A write whose error, if any, the caller does not look at. */
    method SetNode(a: nat, v: Cidr)
      modifies this`nodes
      ensures nodes == old(nodes) || nodes == old(nodes)[a := v]
      ensures reliable ==> nodes == old(nodes)[a := v]
    {
      var fails: bool := *;
      if reliable || !fails { nodes := nodes[a := v]; }
    }

    /** The write of iprange. An etcd error other than a connection failure does not stop the fill. */
    method SetRange(r: Cidr) returns (stop: bool)
      modifies this`iprange
      ensures iprange == old(iprange) || iprange == Some(r)
      ensures reliable ==> !stop && iprange == Some(r)
    {
      var fails: bool := *;
      if reliable || !fails {
        iprange := Some(r);
        return false;
      }
      var took: bool := *;
      if took { iprange := Some(r); }
      stop := *;
    }

    /** CreateIPsForTenantBridge: with reliable writes the pool gains exactly what the range offers,
        each address under its own name; otherwise it gains some of it, and nothing else. */
    method CreateIPsForTenantBridge(r: Cidr) returns (e: Result<()>)
      requires r.Wf()
      modifies this
      ensures e.Ok? ==> Aligned(r) && r.mask <= 30
      ensures reliable ==> (e.Ok? <==> Aligned(r) && r.mask <= 30)
      ensures reliable ==> iprange == Some(r)
      ensures reliable && e.Ok? ==> nodes == old(nodes) + FillMap(r)
      ensures e.Err? ==> nodes == old(nodes)
      ensures old(nodes).Keys <= nodes.Keys <= old(nodes).Keys + AllocFrom(r, r.ip)
      ensures forall a :: a in nodes ==> nodes[a] == Cidr(a, r.mask) || (a in old(nodes) && nodes[a] == old(nodes[a]))
    {
      hide IP2Long, Long2IP, Rem, AllocFrom, Allocatable;
      var stop := SetRange(r);
      if stop { return Err(Api); }
      var n := RangeLength(Some(r));
      SizeFacts(r.mask);
      if n < 4 { return Err(Shortage); }
      var g := NewRange(Some(r)); // which a positive length rules out to fail
      var it := g.value;
      FillFrom(it, r);
      return Ok(());
    }

    /** The loop: skip two addresses, then write all but the last. */
    method FillFrom(it: Range, r: Cidr)
      requires r.mask <= 30 && it.At(r, 0)
      modifies this`nodes, it
      ensures reliable ==> nodes == old(nodes) + FillMap(r)
      ensures old(nodes).Keys <= nodes.Keys <= old(nodes).Keys + AllocFrom(r, r.ip)
      ensures forall a :: a in nodes ==> nodes[a] == Cidr(a, r.mask) || (a in old(nodes) && nodes[a] == old(nodes[a]))
    {
      hide IP2Long, Long2IP, Rem, AllocFrom, Allocatable, FilledTo, FillMap, Grown;
      SizeFacts(r.mask);
      AlignedFits(r);
      ghost var old0 := nodes;
      var more := it.Advance(r, 0);
      more := it.Advance(r, 1);
      ghost var i: nat := 2;
      FilledEnds(r);
      GrownStart(old0, FilledTo(r, r.ip + 2), r.mask);
      while true
        invariant 2 <= i < Size(r.mask) && it.At(r, i) && it.mask == r.mask
        invariant Grown(old0, nodes, FilledTo(r, r.ip + i), r.mask)
        invariant reliable ==> nodes == old0 + FilledTo(r, r.ip + i)
        decreases Size(r.mask) - i
      {
        var v, mask := it.iplong, it.mask;
        more := it.Advance(r, i);
        if !more { break; }
        FilledStep(r, v);
        i := i + 1;
        if v % 256 == 254 { continue; }
        GrownStep(old0, nodes, FilledTo(r, v), v, mask);
        SetNode(v, Cidr(v, mask));
      }
      GrownEnd(old0, nodes, FilledTo(r, r.ip + i), r.mask);
    }
  }

  /** `now` is `was` with some of `extra`, each address under its own name. */
  ghost predicate Grown(was: map<nat, Cidr>, now: map<nat, Cidr>, extra: map<nat, Cidr>, mask: nat) {
    && was.Keys <= now.Keys <= was.Keys + extra.Keys
    && forall a :: a in now ==> now[a] == Cidr(a, mask) || (a in was && now[a] == was[a])
  }

  lemma GrownStart(was: map<nat, Cidr>, extra: map<nat, Cidr>, mask: nat)
    ensures Grown(was, was, extra, mask)
  {
  }

  lemma GrownStep(was: map<nat, Cidr>, now: map<nat, Cidr>, extra: map<nat, Cidr>, v: nat, mask: nat)
    requires Grown(was, now, extra, mask)
    ensures Grown(was, now, extra[v := Cidr(v, mask)], mask)
    ensures Grown(was, now[v := Cidr(v, mask)], extra[v := Cidr(v, mask)], mask)
  {
  }

  lemma GrownEnd(was: map<nat, Cidr>, now: map<nat, Cidr>, extra: map<nat, Cidr>, mask: nat)
    requires Grown(was, now, extra, mask)
    ensures was.Keys <= now.Keys <= was.Keys + extra.Keys
    ensures forall a :: a in now ==> now[a] == Cidr(a, mask) || (a in was && now[a] == was[a])
  {
  }

  /** Only offered addresses of `conf`, each under its own name. */
  ghost predicate OnlyOffered(conf: Cidr, nodes: map<nat, Cidr>)
    requires conf.mask <= 32
  {
    nodes.Keys <= AllocFrom(conf, conf.ip) && forall a :: a in nodes ==> nodes[a] == Cidr(a, conf.mask)
  }

  /** Tenant creation (initNetwork) fills the pool of a directory that is fresh, or that an earlier
      attempt left behind, and what that leaves is where the tenant protocol starts, whatever pool
      writes were lost. With reliable writes iprange names the range and every address it offers is in
      the pool. An attempt that fails leaves a directory for the next one. */
  method FillFirst(conf: Cidr, rules: Rules, d: Directory) returns (e: Result<()>, ghost s: State)
    requires conf.Wf() && OnlyOffered(conf, d.nodes)
    modifies d
    ensures OnlyOffered(conf, d.nodes)
    ensures e.Ok? && d.iprange == Some(conf) ==> Init(World(conf, rules), s) && s.pool == d.nodes && s.iprange == conf
    ensures d.reliable ==> (e.Ok? <==> Aligned(conf) && conf.mask <= 30)
    ensures d.reliable && e.Ok? ==> d.iprange == Some(conf) && d.nodes == FillMap(conf) && s.lost == {}
    ensures d.reliable && e.Ok? ==>
              forall a: nat :: a in d.nodes <==> conf.ip + 2 <= a <= conf.ip + Size(conf.mask) - 2 && a % 256 != 254
  {
    hide AllocFrom, FillMap;
    ghost var was := d.nodes;
    e := d.CreateIPsForTenantBridge(conf);
    s := StartState(conf, d.nodes);
    if d.reliable && e.Ok? { WholeFill(conf, was, d.nodes); }
  }

  /** All that a range offers, whatever of it was there before. */
  lemma WholeFill(conf: Cidr, was: map<nat, Cidr>, now: map<nat, Cidr>)
    requires Aligned(conf) && conf.mask <= 30 && OnlyOffered(conf, was) && now == was + FillMap(conf)
    ensures now == FillMap(conf) && now.Keys == AllocFrom(conf, conf.ip)
    ensures forall a: nat :: a in now <==> conf.ip + 2 <= a <= conf.ip + Size(conf.mask) - 2 && a % 256 != 254
  {
    hide Rem, Size, AllocFrom;
    assert FillMap(conf).Keys == AllocFrom(conf, conf.ip);
    assert forall a :: a in now ==> now[a] == Cidr(a, conf.mask) == FillMap(conf)[a];
    hide FillMap;
    forall a: nat { OfferedExactly(conf, a); }
  }

  // ---------------------------------------------------------------- how many

  /** The offered addresses, spelled out. */
  lemma OfferedExactly(r: Cidr, a: nat)
    requires Aligned(r) && r.mask <= 30
    ensures a in AllocFrom(r, r.ip) <==> r.ip + 2 <= a <= r.ip + Size(r.mask) - 2 && a % 256 != 254
  {
    AllocEnds(r);
    hide Rem, Allocatable;
    assert a !in AllocFrom(r, Last(r));
  }

  function Interval(lo: nat, hi: nat): set<nat>
    decreases hi
  {
    if hi <= lo then {} else Interval(lo, hi - 1) + {hi - 1}
  }

  lemma {:induction false} IntervalSize(lo: nat, hi: nat)
    requires lo <= hi
    ensures |Interval(lo, hi)| == hi - lo
    ensures forall a: nat :: a in Interval(lo, hi) <==> lo <= a < hi
    decreases hi
  {
    if lo < hi { IntervalSize(lo, hi - 1); }
  }

  /** The addresses ending in .254 among the n blocks of 256 from `lo` on. */
  function Gateways(lo: nat, n: nat): set<nat>
    decreases n
  {
    if n == 0 then {} else {lo + 254} + Gateways(lo + 256, n - 1)
  }

  lemma {:induction false} GatewaysAt(lo: nat, n: nat, a: nat)
    requires lo % 256 == 0
    ensures a in Gateways(lo, n) <==> lo <= a < lo + 256 * n && a % 256 == 254
    decreases n
  {
    if n > 0 {
      GatewaysAt(lo + 256, n - 1, a);
      assert lo + 256 + 256 * (n - 1) == lo + 256 * n;
      if lo <= a < lo + 256 { assert a % 256 == a - lo; }
      assert (lo + 254) % 256 == 254;
    }
  }

  lemma {:induction false} GatewaysSize(lo: nat, n: nat)
    requires lo % 256 == 0
    ensures |Gateways(lo, n)| == n
    decreases n
  {
    if n > 0 {
      GatewaysSize(lo + 256, n - 1);
      GatewaysAt(lo + 256, n - 1, lo + 254);
    }
  }

  lemma GatewaysInside(lo: nat, n: nat)
    requires lo % 256 == 0 && n > 0
    ensures Gateways(lo, n) <= Interval(lo + 2, lo + 256 * n - 1)
    ensures |Interval(lo + 2, lo + 256 * n - 1) - Gateways(lo, n)| == 256 * n - 3 - n
  {
    hide Interval, Gateways;
    var hi := lo + 256 * n - 1;
    IntervalSize(lo + 2, hi);
    GatewaysSize(lo, n);
    assert hi % 256 == 255;
    var all, gw := Interval(lo + 2, hi), Gateways(lo, n);
    forall a | a in gw ensures a in all { GatewaysAt(lo, n, a); assert a != lo && a != lo + 1 && a != hi; }
    assert all == (all - gw) + gw;
  }

  /** With k = 32 - mask >= 8 host bits a range offers 2^k - 3 - 2^(k-8) addresses. */
  lemma HowMany(r: Cidr)
    requires Aligned(r) && r.mask <= 24
    ensures |AllocFrom(r, r.ip)| == Pow2(32 - r.mask) - 3 - Pow2(24 - r.mask)
  {
    hide Rem, AllocFrom, Pow2, Interval, Gateways;
    var d, n := Size(r.mask), Pow2(24 - r.mask);
    SizeFacts(r.mask);
    Pow2Split(24 - r.mask);
    RemTransitive(r.ip, d, 256);
    RemIsMod(r.ip);
    var all, gw := Interval(r.ip + 2, r.ip + d - 1), Gateways(r.ip, n);
    IntervalSize(r.ip + 2, r.ip + d - 1);
    forall a: nat ensures a in AllocFrom(r, r.ip) <==> a in all - gw { OfferedExactly(r, a); GatewaysAt(r.ip, n, a); }
    assert AllocFrom(r, r.ip) == all - gw;
    GatewaysInside(r.ip, n);
  }

  lemma {:induction false} Pow2Split(j: nat)
    ensures Pow2(j + 8) == 256 * Pow2(j)
  {
    Pow2Constants();
    if j > 0 { Pow2Split(j - 1); }
  }
}
