/** The allocator of router address pairs (GetRouterIP, refreshRouterAvailable). All calls run under
    the lock /midonet-cni/router_ip, so here they follow one another. */
module Routers {
  import opened Results
  import opened Addr
  import opened Ranges

  /** The directory /midonet-cni/ip/router/available. */
  datatype Store = Store(iprange: Option<Cidr>, nodes: map<nat, Cidr>)

  /** How the write of iprange ends: with success, with an etcd error the code goes on after, or with
      another error; the last two may or may not have taken effect. */
  datatype Reply = Done | Ignored(took: bool) | Stops(took: bool) {
    predicate Took() { Done? || took }
  }

  /** What chance decides in one call: the reply to the iprange write, the addresses whose pool write
      takes effect, the order of the listing, the deletes that succeed, and those that report an
      error but took effect. */
  datatype Luck = Luck(reply: Reply, written: set<nat>, order: seq<nat>, acked: set<nat>, removed: set<nat>)

  // ---------------------------------------------------------------- the calls as functions

  /** The addresses a refresh leaves in the pool, as far as `end`. */
  function SurplusTo(r: Cidr, written: set<nat>, end: int): map<nat, Cidr> {
    map a: nat | r.ip + 4 <= a < end && a in written :: Cidr(a, r.mask)
  }

  function Surplus(r: Cidr, written: set<nat>): map<nat, Cidr>
    requires r.mask <= 32
  {
    SurplusTo(r, written, r.ip + Size(r.mask) - 1)
  }

  lemma SurplusStep(r: Cidr, written: set<nat>, v: nat)
    requires v >= r.ip + 4
    ensures SurplusTo(r, written, v + 1) ==
            if v in written then SurplusTo(r, written, v)[v := Cidr(v, r.mask)] else SurplusTo(r, written, v)
  {
  }

  lemma SurplusStart(r: Cidr, written: set<nat>, end: int)
    requires end <= r.ip + 4
    ensures SurplusTo(r, written, end) == map[]
  {
  }

  function Refresh(s: Store, r: Cidr, luck: Luck): (Store, Result<seq<Cidr>>)
    requires r.Wf()
  {
    var t := if luck.reply.Took() then s.(iprange := Some(r)) else s;
    if luck.reply.Stops? then (t, Err(Api))
    else if !Aligned(r) then (t, Err(InvalidCIDR))
    else if r.mask > 30 then (t, Err(Shortage))
    else (t.(nodes := t.nodes + Surplus(r, luck.written)), Ok([Cidr(r.ip + 2, r.mask), Cidr(r.ip + 3, r.mask)]))
  }

  /** The first `want` successful deletes in listing order, and everything deleted on the way. */
  function Take(nodes: map<nat, Cidr>, order: seq<nat>, luck: Luck, want: nat): (r: (seq<Cidr>, set<nat>))
    requires forall a :: a in order ==> a in nodes
  {
    if want == 0 || order == [] then ([], {})
    else
      var a := order[0];
      if a in luck.acked then
        var rest := Take(nodes, order[1..], luck, want - 1);
        ([nodes[a]] + rest.0, {a} + rest.1)
      else
        var rest := Take(nodes, order[1..], luck, want);
        (rest.0, (if a in luck.removed then {a} else {}) + rest.1)
  }

  ghost predicate Lists(order: seq<nat>, nodes: map<nat, Cidr>) {
    && (forall a :: a in order <==> a in nodes)
    && (forall i, j :: 0 <= i < j < |order| ==> order[i] != order[j])
  }

  /** Nodes below the directory, iprange included. */
  function Count(s: Store): nat { |s.nodes| + if s.iprange.Some? then 1 else 0 }

  function GetRouterIP(conf: Cidr, s: Store, luck: Luck): (Store, Result<seq<Cidr>>)
    requires conf.Wf() && (s.iprange.Some? ==> s.iprange.value.Wf()) && Lists(luck.order, s.nodes)
  {
    if Count(s) == 0 then Refresh(s, conf, luck)
    else if Count(s) < 3 then
      if s.iprange.None? then (s, Err(Api))
      else match GetNextCIDR(s.iprange)
           case Err(e) => (s, Err(e))
           case Ok(next) => Refresh(s, next, luck)
    else
      var t := Take(s.nodes, luck.order, luck, 2);
      (s.(nodes := s.nodes - t.1), Ok(t.0))
  }

  // ---------------------------------------------------------------- the calls as they are written

  class RouterIpam {
    const conf: Cidr
    var iprange: Option<Cidr>
    var nodes: map<nat, Cidr>

    constructor (conf: Cidr)
      ensures this.conf == conf && Contents() == Store(None, map[])
    {
      this.conf, iprange, nodes := conf, None, map[];
    }

    function Contents(): Store
      reads this
    {
      Store(iprange, nodes)
    }

    /** refreshRouterAvailable: two addresses are skipped, two returned, the rest but the last goes
        to the pool. */
    method RefreshRouterAvailable(r: Cidr, luck: Luck) returns (ips: Result<seq<Cidr>>)
      requires r.Wf()
      modifies this`iprange, this`nodes
      ensures (Contents(), ips) == Refresh(old(Contents()), r, luck)
    {
      hide IP2Long, Long2IP, Rem, Pow2;
      if luck.reply.Took() { iprange := Some(r); }
      if luck.reply.Stops? { return Err(Api); }
      var g := NewRange(Some(r));
      if g.Err? {
        return Err(InvalidCIDR);
      }
      var it := g.value;
      AlignedFits(r);
      SizeFacts(r.mask);
      ghost var i: nat := 0;
      var k := 2;
      while k > 0
        invariant 0 <= k <= 2 && i == 2 - k && i < Size(r.mask) && it.At(r, i) && it.mask == r.mask
        invariant iprange == (Refresh(old(Contents()), r, luck)).0.iprange && nodes == old(nodes)
        decreases k
      {
        var more := it.Advance(r, i);
        if !more { return Err(Shortage); }
        i := i + 1;
        k := k - 1;
      }
      ips := TakePair(it, r, luck);
    }

    /** The middle loop and the last one, from the third address on. */
    method TakePair(it: Range, r: Cidr, luck: Luck) returns (ips: Result<seq<Cidr>>)
      requires Aligned(r) && it.At(r, 2) && 2 < Size(r.mask) && r.mask <= 30
      modifies this`nodes, it
      ensures nodes == old(nodes) + Surplus(r, luck.written)
      ensures ips == Ok([Cidr(r.ip + 2, r.mask), Cidr(r.ip + 3, r.mask)])
    {
      hide IP2Long, Long2IP, Rem, Pow2, Aligned, SurplusTo;
      SizeFacts(r.mask);
      SurplusStart(r, luck.written, r.ip + 4);
      SurplusStart(r, luck.written, r.ip + 3);
      var out: seq<Cidr> := [Cidr(it.iplong, it.mask)];
      var more := it.Advance(r, 2);
      out := out + [Cidr(it.iplong, it.mask)];
      assert out == [Cidr(r.ip + 2, r.mask), Cidr(r.ip + 3, r.mask)];
      more := it.Advance(r, 3);
      if !more {
        assert Surplus(r, luck.written) == map[];
        assert nodes + Surplus(r, luck.written) == nodes;
        return Ok(out);
      }
      ghost var i: nat := 4;
      ghost var old0 := nodes;
      while true
        invariant 4 <= i < Size(r.mask) && it.At(r, i) && it.mask == r.mask
        invariant nodes == old0 + SurplusTo(r, luck.written, r.ip + i)
        decreases Size(r.mask) - i
      {
        var v, mask := it.iplong, it.mask;
        more := it.Advance(r, i);
        if !more { break; }
        SurplusStep(r, luck.written, v);
        i := i + 1;
        if v in luck.written { nodes := nodes[v := Cidr(v, mask)]; }
      }
      return Ok(out);
    }

    method GetPair(luck: Luck) returns (ips: Result<seq<Cidr>>)
      requires conf.Wf() && (iprange.Some? ==> iprange.value.Wf()) && Lists(luck.order, nodes)
      modifies this`iprange, this`nodes
      ensures (Contents(), ips) == GetRouterIP(conf, old(Contents()), luck)
    {
      hide Refresh, GetNextCIDR;
      var count := |nodes| + if iprange.Some? then 1 else 0;
      if count == 0 {
        ips := RefreshRouterAvailable(conf, luck);
      } else if count < 3 {
        if iprange.None? { return Err(Api); }
        var next := GetNextCIDR(iprange);
        if next.Err? { return Err(next.error); }
        NextCIDR(iprange);
        ips := RefreshRouterAvailable(next.value, luck);
      } else {
        ips := TakeFromPool(luck);
      }
    }

    /** The loop over the listing. */
    method TakeFromPool(luck: Luck) returns (ips: Result<seq<Cidr>>)
      requires Lists(luck.order, nodes)
      modifies this`nodes
      ensures var t := Take(old(nodes), luck.order, luck, 2);
              ips == Ok(t.0) && nodes == old(nodes) - t.1
    {
      hide Take, Prepend;
      var listing, order := nodes, luck.order;
      var out: seq<Cidr> := [];
      ghost var gone: set<nat> := {};
      var i := 0;
      ghost var all := Take(listing, order, luck, 2);
      assert order[0..] == order;
      PrependNone(all);
      while i < |order| && |out| < 2
        invariant 0 <= i <= |order| && |out| <= 2
        invariant nodes == listing - gone
        invariant all == Prepend(out, gone, Take(listing, order[i..], luck, 2 - |out|))
      {
        var a := order[i];
        TakeStep(listing, order, luck, 2, i, out, gone);
        assert gone + {} == gone;
        if a in luck.acked {
          nodes, out, gone := nodes - {a}, out + [listing[a]], gone + {a};
        } else if a in luck.removed {
          nodes, gone := nodes - {a}, gone + {a};
        }
        i := i + 1;
      }
      TakeEnd(listing, order, luck, 2 - |out|, i, out, gone);
      return Ok(out);
    }
  }

  function Prepend(out: seq<Cidr>, gone: set<nat>, rest: (seq<Cidr>, set<nat>)): (seq<Cidr>, set<nat>) {
    (out + rest.0, gone + rest.1)
  }

  lemma {:induction false} PrependNone(rest: (seq<Cidr>, set<nat>))
    ensures Prepend([], {}, rest) == rest
  {
    assert [] + rest.0 == rest.0 && {} + rest.1 == rest.1;
  }

  lemma {:induction false} TakeStep(nodes: map<nat, Cidr>, order: seq<nat>, luck: Luck, want: nat, i: nat,
                                    out: seq<Cidr>, gone: set<nat>)
    requires (forall a :: a in order ==> a in nodes) && i < |order| && |out| < want
    ensures var a := order[i];
            Prepend(out, gone, Take(nodes, order[i..], luck, want - |out|)) ==
            if a in luck.acked
            then Prepend(out + [nodes[a]], gone + {a}, Take(nodes, order[i + 1..], luck, want - |out| - 1))
            else Prepend(out, gone + (if a in luck.removed then {a} else {}),
                         Take(nodes, order[i + 1..], luck, want - |out|))
  {
    var a := order[i];
    assert order[i..][0] == a && order[i..][1..] == order[i + 1..];
    var rest := Take(nodes, order[i + 1..], luck, if a in luck.acked then want - |out| - 1 else want - |out|);
    assert a in nodes && (out + [nodes[a]]) + rest.0 == out + ([nodes[a]] + rest.0);
    assert gone + {a} + rest.1 == gone + ({a} + rest.1);
    assert gone + {} + rest.1 == gone + ({} + rest.1);
  }

  lemma {:induction false} TakeEnd(nodes: map<nat, Cidr>, order: seq<nat>, luck: Luck, want: nat, i: nat,
                                   out: seq<Cidr>, gone: set<nat>)
    requires (forall a :: a in order ==> a in nodes) && i <= |order| && (i == |order| || want == 0)
    ensures Prepend(out, gone, Take(nodes, order[i..], luck, want)) == (out, gone)
  {
    assert out + [] == out && gone + {} == gone;
  }
}
