/** Whether the allocator ever hands out the gateway of one of the tenant's own ranges. */
module Gateways {
  import opened Results
  import opened Addr
  import opened Tenant
  import opened TenantInv
  import opened TenantFree
  import opened TenantRuns
  import opened TenantRounds
  import opened TenantProgress

  /** `a` can be claimed, or has been. */
  predicate HandedOut(t: State, a: nat) { a in t.pool || a in HeldAddrs(t) }

  /** In every reachable state, no gateway of a range opened so far is handed out. */
  ghost predicate GatewaysStayOut(w: World) {
    forall s, ls, i :: Init(w, s) && Exec(w, s, ls).Some? && 0 <= i < |Exec(w, s, ls).value.ranges|
                       ==> StaysOut(Exec(w, s, ls).value, i)
  }

  predicate StaysOut(t: State, i: nat)
    requires i < |t.ranges|
  {
    t.ranges[i].mask <= 32 ==> !HandedOut(t, Gateway(t.ranges[i]))
  }

  /** Where the gateway of a block belongs to a later block: the mask is above 24 and the block does not
      start in the last 256 addresses. */
  predicate Collides(g: Cidr) { g.mask > 24 && g.ip + 256 < SPACE }

  /** The tenant never gets to such a block with a later one: small masks, or a start in the last 256
      addresses that the tenant does not leave. */
  predicate KeepsOff(w: World) { w.conf.mask <= 24 || (w.rules.bounded && w.conf.ip + 256 >= SPACE) }

  lemma SafeState(w: World, t: State, i: nat)
    requires FreeInv(w, t) && KeepsOff(w) && i < |t.ranges|
    ensures StaysOut(t, i)
  {
    assert OwnRange(w, t.ranges[i]);
    hide FreeInv, Rem, Size, Gateway, Allocatable, HandedOut, Aligned;
    OutIsOffered(w, t, Gateway(t.ranges[i]));
    GatewayIsSafe(w, t.ranges[i]);
  }

  lemma OutIsOffered(w: World, t: State, a: nat)
    requires FreeInv(w, t)
    ensures w.conf.mask <= 30 && Aligned(w.conf)
    ensures HandedOut(t, a) ==> Allocatable(w.conf.mask, a) && (w.rules.bounded ==> w.conf.ip <= a)
  {
    hide Rem, Size, Allocatable, PcIn;
    if HandedOut(t, a) { assert a in Offerable(w); }
  }

  lemma GatewayIsSafe(w: World, r: Cidr)
    requires Wf(w) && OwnRange(w, r) && KeepsOff(w)
    ensures !(Allocatable(r.mask, Gateway(r)) && (w.rules.bounded ==> w.conf.ip <= Gateway(r)))
  {
    SizeFacts(r.mask);
    hide Rem, Size, Gateway, Allocatable;
    if r.mask <= 24 { GatewayOfRange(r, r.ip); } else { GatewayAbove24(r); }
  }

  /** From a block that collides: it or the next one, and the later block that offers its gateway. */
  lemma Pair(base: Cidr) returns (r: Cidr, g: Cidr)
    requires Aligned(base) && base.mask <= 30 && Collides(base)
    ensures Aligned(r) && r == (if base.ip % 256 == 0 then Succ(base) else base) && base.ip <= r.ip < g.ip
    ensures Aligned(g) && g.mask == r.mask == base.mask
    ensures Gateway(r) in FillMap(g) && !(g.mask == 30 && g.ip % 256 == 252)
  {
    hide Rem, Gateway;
    var d := Size(base.mask);
    SizeFacts(base.mask);
    r := if base.ip % 256 == 0 then Succ(base) else base;
    NextIsSucc(base);
    Multiples(base.ip, d);
    GatewayAbove24(r);
    g := Cidr(r.ip + 256 - d, base.mask);
    assert InRange(Gateway(r), g);
    if g.mask == 30 { FourBelow(r.ip); }
  }

  lemma Multiples(a: nat, d: nat)
    requires 4 <= d <= 128
    ensures a % 256 == 0 ==> (a + d) % 256 != 0
    ensures a % 256 == 0 && a + 256 < SPACE ==> a + d + 256 <= SPACE
  {
  }

  lemma FourBelow(a: nat)
    ensures (a + 252) % 256 == 252 <==> a % 256 == 0
  {
  }

  lemma {:induction false} ExecAppend(w: World, s: State, ls: seq<Step>, more: seq<Step>)
    requires Exec(w, s, ls).Some?
    ensures Exec(w, s, ls + more) == Exec(w, Exec(w, s, ls).value, more)
    decreases |more|
  {
    hide Enabled, Apply;
    if more == [] {
      assert ls + more == ls;
    } else {
      var k := |more| - 1;
      ExecAppend(w, s, ls, more[..k]);
      assert (ls + more)[..|ls| + k] == ls + more[..k];
    }
  }

  /** A tenant at a block that collides: `i` is the number of its first range that has its gateway in a
      later block `g`, and it is at that range now. */
  lemma AtPair(r: Run) returns (r': Run, i: nat, g: Cidr)
    requires r.Ok() && Dry(r, 1) && r.s.iprange.mask <= 30 && Collides(r.s.iprange) && EndsAtRange(r.s)
    ensures r'.Ok() && r'.w == r.w && r'.from == r.from && Dry(r', 1)
    ensures i < |r'.s.ranges| && r'.s.ranges[i] == r'.s.iprange
    ensures Aligned(g) && g.mask == r'.s.iprange.mask <= 30 && r'.s.iprange.ip < g.ip
    ensures Gateway(r'.s.iprange) in FillMap(g) && !(g.mask == 30 && g.ip % 256 == 252)
  {
    hide Exec, Rem, Size, AllocFrom, FillMap, Gateway, Aligned;
    var here;
    here, g := Pair(r.s.iprange);
    r' := r;
    if here != r.s.iprange { r' := SkipRange(r, 1); }
    i := |r'.s.ranges| - 1;
  }

  /** The last range opened is the one iprange names. */
  predicate EndsAtRange(s: State) { |s.ranges| > 0 && s.ranges[|s.ranges| - 1] == s.iprange }

  /** A container goes on through the ranges up to `g` and takes an address there. */
  lemma TakeFrom(r: Run, g: Cidr, i: nat) returns (ls: seq<Step>, t: State)
    requires r.Ok() && Init(r.w, r.from) && Dry(r, 1) && i < |r.s.ranges|
    requires Aligned(g) && g.mask == r.s.iprange.mask <= 30 && r.s.iprange.ip < g.ip
    requires !(g.mask == 30 && g.ip % 256 == 252)
    ensures Exec(r.w, r.from, ls) == Some(t) && i < |t.ranges| && t.ranges[i] == r.s.ranges[i]
    ensures forall a :: a in FillMap(g) ==> HandedOut(t, a)
  {
    hide Exec, Init, Rem, Size, AllocFrom, FillMap;
    var p := BlockBefore(g);
    PreviousFits(r.s.iprange, p, g);
    var r' := Climb(r, 1, p);
    r' := Adds(r', 1, Start);
    DryPhase(r', 1);
    var more;
    more, t := RunsToEnd(r.w, p, g, r'.s, 1);
    RangesStay(r.w, r'.s, more);
    ProgressAfterExhaustion(r', more, t, 1);
    ExecAppend(r.w, r.from, r'.ls, more);
    ls := r'.ls + more;
    AllHandedOut(g, t, 1);
  }

  /** What has been opened stays in the history. */
  lemma {:induction false} RangesStay(w: World, s: State, ls: seq<Step>)
    requires Exec(w, s, ls).Some?
    ensures s.ranges <= Exec(w, s, ls).value.ranges
    decreases |ls|
  {
    if ls == [] {
      assert Exec(w, s, ls) == Some(s);
    } else {
      ExecLast(w, s, ls);
      hide Exec, Enabled, Apply, MovesRange;
      RangesStay(w, s, ls[..|ls| - 1]);
      RangeChange(w, Exec(w, s, ls[..|ls| - 1]).value, ls[|ls| - 1]);
    }
  }

  lemma AllHandedOut(g: Cidr, t: State, c: Container)
    requires g.mask <= 30 && t.At(c).Binding? && Got(g, t, c, t.At(c).v)
    ensures forall a :: a in FillMap(g) ==> HandedOut(t, a)
  {
    hide FillMap;
    assert Hold(c, t.At(c).v.ip).a in HeldAddrs(t);
  }

  lemma PreviousFits(conf: Cidr, p: Cidr, g: Cidr)
    requires Aligned(conf) && Aligned(p) && Aligned(g) && conf.mask == p.mask == g.mask <= 30
    requires Succ(p) == g && p.ip < g.ip && conf.ip < g.ip
    ensures conf.ip <= p.ip && p.ip + Size(p.mask) == g.ip && After(p) == g
  {
    hide Rem;
    SizeFacts(conf.mask);
    if conf.ip > p.ip { Apart(p.ip, conf.ip, Size(p.mask)); }
  }

  /** A tenant at a range that collides, at once or after the space has wrapped. */
  lemma GetThere(w: World) returns (r: Run)
    requires Wf(w) && !KeepsOff(w)
    ensures r.Ok() && Init(r.w, r.from) && r.w == w && Dry(r, 1)
    ensures EndsAtRange(r.s) && r.s.iprange.mask <= 30 && Collides(r.s.iprange)
  {
    hide Exec, Init, Rem, Size, AllocFrom;
    r := BeginEmpty(w);
    assert Dry(r, 1);
    if !Collides(w.conf) {
      SizeFacts(w.conf.mask);
      var last := BlockBefore(Cidr(0, w.conf.mask));
      AlignedFits(w.conf);
      r := Climb(r, 1, last);
      r := SkipRange(r, 1);
    }
  }

  lemma UnsafeRun(w: World) returns (s: State, ls: seq<Step>, i: nat)
    requires Wf(w) && !KeepsOff(w)
    ensures Init(w, s) && Exec(w, s, ls).Some? && i < |Exec(w, s, ls).value.ranges|
    ensures !StaysOut(Exec(w, s, ls).value, i)
  {
    hide Exec, Init, Rem, Size, Gateway, FillMap, Aligned, KeepsOff;
    var r := GetThere(w);
    var g, t;
    r, i, g := AtPair(r);
    ls, t := TakeFrom(r, g, i);
    s := r.from;
  }

  /** Whatever the environment does: over all runs the gateway of a range the tenant has opened is never
      handed out, exactly for masks up to /24, and for smaller blocks that start in the last 256
      addresses if the space does not wrap. */
  lemma GatewaysExactly(w: World)
    requires Wf(w)
    ensures GatewaysStayOut(w) <==> w.conf.mask <= 24 || (w.rules.bounded && w.conf.ip >= SPACE - 256)
  {
    hide Exec, Init, FreeInv, StaysOut;
    if !KeepsOff(w) {
      var s, ls, i := UnsafeRun(w);
    } else {
      forall s, ls, i | Init(w, s) && Exec(w, s, ls).Some? && 0 <= i < |Exec(w, s, ls).value.ranges|
        ensures StaysOut(Exec(w, s, ls).value, i)
      {
        AlwaysFree(w, s, ls);
        SafeState(w, Exec(w, s, ls).value, i);
      }
    }
  }
}
