/** Refill after refill: a tenant that moves on through its ranges, up to any later one and, where
    nothing forbids that, round the whole address space. */
module TenantRounds {
  import opened Results
  import opened Addr
  import opened Tenant
  import opened TenantRuns

  lemma NextIsSucc(g: Cidr)
    requires Aligned(g)
    ensures Next(g) == Ok(Succ(g)) && Aligned(Succ(g)) && Succ(g).mask == g.mask
  {
    hide GetNextCIDR, Rem;
    SuccIsNext(g);
  }

  /** Everything but the ranges themselves is as before, those opened so far stay, and `c` is idle. */
  ghost predicate OnlyRanges(s: State, t: State, c: Container) {
    && s.ranges <= t.ranges
    && t == s.(iprange := t.iprange, ranges := t.ranges, pending := t.pending, lost := t.lost, pcs := t.pcs)
    && t.pcs == s.pcs[c := Idle]
  }

  /** `c` can begin an ADD, the pool is empty, and nobody is in the bridge lock. */
  predicate Dry(r: Run, c: Container) {
    Ready(r, c) && r.s.pool == map[] && r.s.lockers == {} && Aligned(r.s.iprange)
  }

  /** A refill opens the next range and crashes before it has filled anything. */
  lemma SkipRange(r: Run, c: Container) returns (r': Run)
    requires r.Ok() && Dry(r, c) && r.s.iprange.mask <= 30
    requires r.w.rules.bounded ==> Succ(r.s.iprange).ip > r.s.iprange.ip
    ensures r'.Ok() && r'.w == r.w && r'.from == r.from
    ensures OnlyRanges(r.s, r'.s, c) && r'.s.iprange == Succ(r.s.iprange) && Dry(r', c)
    ensures r'.s.ranges == r.s.ranges + [Succ(r.s.iprange)]
  {
    NextIsSucc(r.s.iprange);
    hide Exec, Enabled, Apply, Effect, Target, AllocFrom, Size, Aligned, Next, Succ;
    r' := BeginRefill(r, c);
    r' := OpenNothing(r', c);
  }

  lemma OpenNothing(r: Run, c: Container) returns (r': Run)
    requires r.Ok() && r.s.At(c).Writing?
    ensures r'.Ok() && r'.w == r.w && r'.from == r.from
    ensures var t := r'.s;
            && t.ranges == r.s.ranges + [r.s.At(c).next]
            && t == r.s.(iprange := r.s.At(c).next, ranges := t.ranges, pending := t.pending, lost := t.lost,
                    pcs := r.s.pcs[c := Idle], lockers := r.s.lockers - {c})
  {
    hide Exec, Enabled, Apply, Effect, Target, AllocFrom;
    r' := Refills(r, c, WriteRange(true));
    r' := Stops(r', c);
  }

  /** Refills go up to any later range. */
  lemma {:induction false} Climb(r: Run, c: Container, target: Cidr) returns (r': Run)
    requires r.Ok() && Dry(r, c) && Aligned(target) && target.mask == r.s.iprange.mask <= 30
    requires r.s.iprange.ip <= target.ip
    ensures r'.Ok() && r'.w == r.w && r'.from == r.from
    ensures OnlyRanges(r.s, r'.s, c) && r'.s.iprange == target && Dry(r', c)
    decreases target.ip - r.s.iprange.ip
  {
    hide Exec, Rem, Size, AllocFrom;
    var g := r.s.iprange;
    if g.ip == target.ip {
      r' := Stops(r, c);
    } else {
      AlignedFits(target);
      SizeFacts(g.mask);
      Apart(g.ip, target.ip, Size(g.mask));
      r' := SkipRange(r, c);
      r' := Climb(r', c, target);
    }
  }

  /** Without a bound, refills come round to the range before the current one. */
  lemma Around(r: Run, c: Container) returns (r': Run)
    requires r.Ok() && Dry(r, c) && !r.w.rules.bounded && r.s.iprange.mask <= 30
    ensures r'.Ok() && r'.w == r.w && r'.from == r.from
    ensures OnlyRanges(r.s, r'.s, c) && Dry(r', c) && r'.s.iprange.mask <= 30 && Succ(r'.s.iprange) == r.s.iprange
  {
    hide Exec, Rem, Size, AllocFrom;
    var g := r.s.iprange;
    SizeFacts(g.mask);
    var last := BlockBefore(Cidr(0, g.mask));
    AlignedFits(g);
    r' := Climb(r, c, last);
    if g.ip > 0 {
      var p := BlockBefore(g);
      r' := SkipRange(r', c);
      r' := Climb(r', c, p);
    }
  }

  /** From any configuration, one or two refills open a range whose third address is offered. */
  lemma ThirdOffered(g: Cidr)
    requires Aligned(g) && g.mask <= 30
    ensures Aligned(Succ(g)) && (ThirdFree(g) || ThirdFree(Succ(g)))
  {
    NextIsSucc(g);
    if g.mask <= 29 { AlignedTo8(g); } else { ThirdOf30(g); }
    hide Size, Aligned, Next, Succ;
  }

  lemma ThirdOf30(g: Cidr)
    requires Aligned(g) && g.mask == 30
    ensures ThirdFree(g) || ThirdFree(Succ(g))
  {
    SizeFacts(30);
    hide Size, Aligned;
    SixAbove(g.ip);
  }

  lemma SixAbove(a: nat)
    ensures (a + 2) % 256 == 254 ==> (a + 6) % 256 == 2
  {
  }

  /** A tenant whose first range lost all its pool writes. */
  lemma BeginEmpty(w: World) returns (r: Run)
    requires Wf(w)
    ensures r.Ok() && Init(r.w, r.from) && r.w == w && r.s == StartState(w.conf, map[])
  {
    hide AllocFrom, Rem, Size;
    r := Run(w, StartState(w.conf, map[]), [], StartState(w.conf, map[]));
  }

  /** `c` opens the next range, fills its third address and crashes; `d` takes that address. */
  lemma OpenAndTake(r: Run, c: Container, d: Container) returns (r': Run)
    requires r.Ok() && Dry(r, c) && Ready(r, d) && c != d && r.s.iprange.mask <= 30
    requires r.w.rules.bounded ==> Succ(r.s.iprange).ip > r.s.iprange.ip
    requires ThirdFree(Succ(r.s.iprange))
    ensures r'.Ok() && r'.w == r.w && r'.from == r.from && Dry(r', c) && r'.s.iprange == Succ(r.s.iprange)
    ensures r'.s.held == r.s.held + {Hold(d, Succ(r.s.iprange).ip + 2)}
    ensures r'.s.results == r.s.results && r'.s.gone == r.s.gone && r'.s.pcs == r.s.pcs[c := Idle][d := r'.s.At(d)]
  {
    NextIsSucc(r.s.iprange);
    hide Exec, Enabled, Apply, Effect, Target, AllocFrom, Size, Aligned, Next, Succ, GetNextCIDR, ThirdFree;
    r' := OpenOne(r, c);
    r' := TakeThird(r', Succ(r.s.iprange), d);
  }

  /** `d` takes the only address of the pool. */
  lemma TakeThird(r: Run, g: Cidr, d: Container) returns (r': Run)
    requires r.Ok() && Ready(r, d) && ThirdFree(g) && r.s.pool == map[g.ip + 2 := Cidr(g.ip + 2, g.mask)]
    requires r.s.lockers == {}
    ensures r'.Ok() && r'.w == r.w && r'.from == r.from && Rest(r.s, r'.s, d, Claimed(Cidr(g.ip + 2, g.mask)))
    ensures r'.s.iprange == r.s.iprange && r'.s.pool == map[] && r'.s.lockers == {}
    ensures r'.s.held == r.s.held + {Hold(d, g.ip + 2)} && r'.s.results == r.s.results && r'.s.gone == r.s.gone
  {
    hide Exec, Enabled, Apply, Effect, Target;
    r' := Take(r, d, g.ip + 2);
    assert r'.s.pool == map[];
  }

  lemma LastIsFar(g: Cidr)
    requires Aligned(g) && g.mask <= 30
    ensures g.ip + 2 < Last(g)
  {
    SizeFacts(g.mask);
    hide Rem, Pow2, Size;
  }

  lemma FreeIsFree(w: World, s: State)
    requires s.lockers == {}
    ensures LockFree(w, s)
  {
  }

  lemma OpenOne(r: Run, c: Container) returns (r': Run)
    requires r.Ok() && Dry(r, c) && r.s.iprange.mask <= 30
    requires r.w.rules.bounded ==> Succ(r.s.iprange).ip > r.s.iprange.ip
    requires ThirdFree(Succ(r.s.iprange))
    ensures r'.Ok() && r'.w == r.w && r'.from == r.from
    ensures var g, t := Succ(r.s.iprange), r'.s;
            && t.iprange == g && t.lockers == {} && t.pcs == r.s.pcs[c := Idle]
            && t == r.s.(pool := map[g.ip + 2 := Cidr(g.ip + 2, g.mask)], pcs := t.pcs,
                    iprange := t.iprange, ranges := t.ranges, pending := t.pending, lost := t.lost)
  {
    hide Exec, Enabled, Apply, Effect, Target, AllocFrom, Size, Aligned, Next, GetNextCIDR;
    hide Succ, Last, ThirdFree, LockFree;
    var g := Succ(r.s.iprange);
    NextIsSucc(r.s.iprange);
    LastIsFar(g);
    assert LockFree(r.w, r.s) by { FreeIsFree(r.w, r.s); }
    r' := BeginRefill(r, c);
    r' := FillOne(r', c, true);
  }

  /** After the last range comes the first one again: whatever the configured range, enough refills
      hand out an address a second time. */
  lemma WrapBreaks(w: World) returns (r: Run)
    requires Wf(w) && !w.rules.bounded
    ensures Doubles(r) && r.w == w
  {
    hide Exec, Init, Rem, Size, AllocFrom, ThirdFree;
    r := BeginEmpty(w);
    assert Dry(r, 1) && Ready(r, 3) && Ready(r, 4);
    ThirdOffered(w.conf);
    ThirdOffered(Succ(w.conf));
    if !ThirdFree(Succ(w.conf)) { r := SkipRange(r, 1); }
    var g := Succ(r.s.iprange);
    r := OpenAndTake(r, 1, 3);
    assert Ready(r, 4);
    r := Around(r, 1);
    assert Ready(r, 4);
    r := OpenAndTake(r, 1, 4);
    TwoHold(r, 3, 4, g.ip + 2);
  }
}
