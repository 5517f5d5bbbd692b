/** What every run of the tenant protocol guarantees. */
module TenantTheorems {
  import opened Results
  import opened Addr
  import opened Tenant
  import opened TenantInv
  import opened TenantFree
  import opened TenantRuns
  import opened TenantRounds

  // ---------------------------------------------------------------- no double assignment

  lemma {:induction false} Reached(w: World, s: State, ls: seq<Step>, t: State)
    requires Init(w, s) && Sound(w.rules) && Exec(w, s, ls) == Some(t)
    ensures Inv(w, t)
  {
    hide Exec, Inv, Init;
    InitInv(w, s);
    RunsKeepInv(w, s, ls);
  }

  /** No address is ever held by two containers, over all configured ranges and all runs, exactly
      when refills are serialised, iprange writes are not lost, the address space does not wrap, a
      port is deleted once, and either container ids are fresh or records are reliably written and
      results reliably deleted. An address counts as held from the claim, or from an ADD that returns
      it as its stored result. */
  lemma NoDoubleAssignment(rules: Rules)
    ensures Safe(rules) <==> Sound(rules)
  {
    hide Exec, Init, Inv, NoDouble;
    if Sound(rules) {
      forall conf, s, ls | Init(World(conf, rules), s) && Exec(World(conf, rules), s, ls).Some?
        ensures NoDouble(Exec(World(conf, rules), s, ls).value)
      {
        var t := Exec(World(conf, rules), s, ls).value;
        Reached(World(conf, rules), s, ls, t);
        NoDoubleOfInv(World(conf, rules), t);
      }
    } else {
      var r: Run;
      NetAligned();
      if !rules.serial { r := UnserialBreaks(rules); }
      else if !rules.rangeWrites { r := LostRangeBreaks(rules); }
      else if !rules.bounded { r := WrapBreaks(World(NET, rules)); }
      else if !rules.portOnce { r := TwoPortDeletesBreak(rules); }
      else if !rules.recordWrites { r := StaleRecordBreaks(rules); }
      else { r := StaleResultBreaks(rules); }
      assert r.w == World(r.w.conf, rules);
      assert Exec(World(r.w.conf, rules), r.from, r.ls) == Some(r.s);
    }
  }

  lemma NoDoubleOfInv(w: World, t: State)
    requires Inv(w, t)
    ensures NoDouble(t)
  {
  }

  // ---------------------------------------------------------------- ranges

  /** The ranges written to iprange are the iterates of GetNextCIDR on the configured one: the n-th
      is base + n * 2^(32-mask). */
  lemma {:induction false} RangesAreIterates(w: World, t: State, i: nat)
    requires Wf(w) && RangeInv(w, t) && i < |t.ranges|
    ensures t.ranges[i] == Nth(w.conf, i) == Iterate(w.conf, i).value
    ensures w.conf.ip + (i + 1) * Size(w.conf.mask) <= SPACE
  {
    hide Rem, Iterate;
    AlignedFits(t.iprange);
    RangesByCount(w, t, i);
    RangesByCount(w, t, |t.ranges| - 1);
    var d := Size(w.conf.mask);
    MulMonotone(i + 1, |t.ranges|, d);
    MulSucc(|t.ranges| - 1, d);
    IterateIsNth(w.conf, i);
  }

  lemma {:induction false} RangesByCount(w: World, t: State, i: nat)
    requires Wf(w) && RangeInv(w, t) && i < |t.ranges|
    ensures t.ranges[i] == Nth(w.conf, i)
  {
    hide Rem, Aligned;
    if i > 0 {
      RangesByCount(w, t, i - 1);
      MulSucc(i - 1, Size(w.conf.mask));
    }
  }

  /** Every address below the end of the newest range lies in one of the ranges. */
  lemma {:induction false} Covered(w: World, t: State, a: nat, n: nat) returns (i: nat)
    requires Wf(w) && RangeInv(w, t) && n < |t.ranges|
    requires w.conf.ip <= a < t.ranges[n].ip + Size(w.conf.mask)
    ensures i <= n && InRange(a, t.ranges[i])
  {
    hide Rem, Aligned;
    if a >= t.ranges[n].ip { i := n; } else { i := Covered(w, t, a, n - 1); }
  }

  /** Some range opened so far offers `a`. */
  ghost predicate InSomeRange(w: World, t: State, a: nat)
    requires w.conf.mask <= 32
  {
    Allocatable(w.conf.mask, a) &&
    exists i: nat :: i < |t.ranges| && InRange(a, Nth(w.conf, i))
  }

  lemma OfferedIsInSomeRange(w: World, t: State, a: nat)
    requires Wf(w) && RangeInv(w, t)
    ensures Offered(w, t, a) <==> InSomeRange(w, t, a)
  {
    hide Offered, InSomeRange;
    if Offered(w, t, a) { OfferedIn(w, t, a); }
    if InSomeRange(w, t, a) { InOffered(w, t, a); }
  }

  lemma OfferedIn(w: World, t: State, a: nat)
    requires Wf(w) && RangeInv(w, t) && Offered(w, t, a)
    ensures InSomeRange(w, t, a)
  {
    hide Rem, Aligned, Allocatable, Size;
    var i := Covered(w, t, a, |t.ranges| - 1);
    RangesByCount(w, t, i);
  }

  lemma InOffered(w: World, t: State, a: nat)
    requires Wf(w) && RangeInv(w, t) && InSomeRange(w, t, a)
    ensures Offered(w, t, a)
  {
    hide Rem, Aligned, Allocatable, Size;
    var i: nat :| i < |t.ranges| && InRange(a, Nth(w.conf, i));
    var last := |t.ranges| - 1;
    RangesByCount(w, t, last);
    MulMonotone(i, last, Size(w.conf.mask));
  }

  /** If refills are serialised and the space does not wrap, then in every reachable state the n-th
      refill after initialisation has written base + n * 2^(32-mask), and no two of the ranges share an
      address. Nothing else is asked of the environment. */
  lemma {:induction false} RefillsNeverReuse(w: World, s: State, ls: seq<Step>, t: State, i: nat, j: nat, a: nat)
    requires Init(w, s) && w.rules.serial && w.rules.bounded && Exec(w, s, ls) == Some(t) && i < j < |t.ranges|
    ensures t.ranges[i] == Nth(w.conf, i) && t.ranges[j] == Nth(w.conf, j)
    ensures !(InRange(a, t.ranges[i]) && InRange(a, t.ranges[j]))
  {
    AlwaysGrowing(w, s, ls);
    hide Exec, Init, Iterate, Rem, LockInv, Aligned, InRange, Size;
    RangesAreIterates(w, t, i);
    RangesAreIterates(w, t, j);
    IteratesDisjoint(w.conf, i, j, a);
  }

  /** Two of the ranges written to iprange have an address in common. */
  ghost predicate Reuses(t: State) {
    exists i, j, a :: 0 <= i < j < |t.ranges| && InBoth(t.ranges[i], t.ranges[j], a)
  }

  predicate InBoth(g: Cidr, h: Cidr, a: nat) { g.mask <= 32 && h.mask <= 32 && InRange(a, g) && InRange(a, h) }

  ghost predicate NeverReuse(rules: Rules) {
    forall conf, s, ls ::
      Init(World(conf, rules), s) && Exec(World(conf, rules), s, ls).Some?
      ==> !Reuses(Exec(World(conf, rules), s, ls).value)
  }

  /** Over all configured ranges and all runs no two of the ranges ever written to iprange overlap,
      exactly if refills are serialised and the space does not wrap. */
  lemma RangesNeverOverlap(rules: Rules)
    ensures NeverReuse(rules) <==> rules.serial && rules.bounded
  {
    hide Exec, Init, Reuses;
    if rules.serial && rules.bounded {
      forall conf, s, ls | Init(World(conf, rules), s) && Exec(World(conf, rules), s, ls).Some?
        ensures !Reuses(Exec(World(conf, rules), s, ls).value)
      {
        NoReuse(World(conf, rules), s, ls);
      }
    } else {
      var r: Run;
      if rules.serial { r := WrapReuses(rules); } else { r := UnserialReuses(rules); }
      assert Exec(World(NET, rules), r.from, r.ls) == Some(r.s);
    }
  }

  lemma {:induction false} NoReuse(w: World, s: State, ls: seq<Step>)
    requires Init(w, s) && w.rules.serial && w.rules.bounded && Exec(w, s, ls).Some?
    ensures !Reuses(Exec(w, s, ls).value)
  {
    hide Exec, Init, InRange;
    var t := Exec(w, s, ls).value;
    if i, j, a :| 0 <= i < j < |t.ranges| && InBoth(t.ranges[i], t.ranges[j], a) {
      RefillsNeverReuse(w, s, ls, t, i, j, a);
    }
  }

  /** The base of a range that was written twice. */
  lemma SameTwice(t: State, i: nat, j: nat)
    requires i < j < |t.ranges| && t.ranges[i] == t.ranges[j] && t.ranges[i].mask <= 30
    ensures Reuses(t)
  {
    SizeFacts(t.ranges[i].mask);
    hide Size;
    assert InBoth(t.ranges[i], t.ranges[j], t.ranges[i].ip);
  }

  /** Two refills inside the lock write the same next range. */
  lemma UnserialReuses(rules: Rules) returns (r: Run)
    requires !rules.serial
    ensures r.Ok() && Init(r.w, r.from) && r.w == World(NET, rules) && Reuses(r.s)
  {
    hide Exec, Init, Next, AllocFrom, Size, Enabled, Apply, Effect, Target, Reuses;
    NetAligned();
    r := Begin(rules, {});
    assert r.s.pool == map[];
    r := BeginRefill(r, 1);
    r := BeginRefill(r, 2);
    r := OpenNothing(r, 1);
    r := OpenNothing(r, 2);
    SameTwice(r.s, 1, 2);
  }

  /** Refills come round the space to the first range. */
  lemma WrapReuses(rules: Rules) returns (r: Run)
    requires !rules.bounded
    ensures r.Ok() && Init(r.w, r.from) && r.w == World(NET, rules) && Reuses(r.s)
  {
    hide Exec, Init, Size, AllocFrom, Rem, Reuses;
    NetAligned();
    r := BeginEmpty(World(NET, rules));
    assert Dry(r, 1) && r.s.ranges == [NET];
    r := Around(r, 1);
    r := SkipRange(r, 1);
    SameTwice(r.s, 0, |r.s.ranges| - 1);
  }

  /** If refills are serialised, iprange writes are not lost and the space does not wrap, a refill that
      is about to write iprange opens the next range, of which nothing is in the pool, held, pending or lost, nor
      in any record, result or value a command carries, whatever became of earlier refills. */
  lemma {:induction false} RefillOpensNewGround(w: World, s: State, ls: seq<Step>, t: State, c: Container, a: nat)
    requires Init(w, s) && w.rules.serial && w.rules.rangeWrites && w.rules.bounded && Exec(w, s, ls) == Some(t)
    requires t.At(c).Writing? && (t.At(c).next.mask <= 32 ==> InRange(a, t.At(c).next))
    ensures t.At(c).next == Nth(w.conf, |t.ranges|)
    ensures a !in t.pool && a !in HeldAddrs(t) && a !in t.pending && a !in t.lost
    ensures forall d :: (d in t.records ==> t.records[d].ip != a) && (d in t.results ==> t.results[d].ip != a)
    ensures forall d: Container :: Carried(t.At(d)).Some? ==> Carried(t.At(d)).value.ip != a
  {
    AlwaysGrowing(w, s, ls);
    AlwaysOpened(w, s, ls);
    hide Exec, Init, AllIn, Opened, LockInv;
    NextIsNew(w, t, c, a);
    NotOpened(w, t, a);
  }

  lemma NextIsNew(w: World, t: State, c: Container, a: nat)
    requires Growing(w, t) && t.At(c).Writing? && (t.At(c).next.mask <= 32 ==> InRange(a, t.At(c).next))
    ensures t.At(c).next == Nth(w.conf, |t.ranges|) && !InOpened(t, a)
  {
    hide Rem, Aligned, LockInv, Size;
    var n := |t.ranges| - 1;
    RangesByCount(w, t, n);
    MulSucc(n, Size(w.conf.mask));
    if i :| 0 <= i < |t.ranges| && t.ranges[i].mask <= 32 && InRange(a, t.ranges[i]) {
      RangesByCount(w, t, i);
      MulMonotone(i, n, Size(w.conf.mask));
    }
  }

  lemma NotOpened(w: World, t: State, a: nat)
    requires AllIn(w, Opened(t), t) && !InOpened(t, a)
    ensures a !in t.pool && a !in HeldAddrs(t) && a !in t.pending && a !in t.lost
    ensures forall d :: (d in t.records ==> t.records[d].ip != a) && (d in t.results ==> t.results[d].ip != a)
    ensures forall d: Container :: Carried(t.At(d)).Some? ==> Carried(t.At(d)).value.ip != a
  {
    assert a !in Opened(t);
    forall d: Container | Carried(t.At(d)).Some? ensures Carried(t.At(d)).value.ip != a {
      assert PcIn(w, Opened(t), t.At(d));
    }
  }

  // ---------------------------------------------------------------- conservation and pool

  /** In every reachable state the addresses offered by all ranges opened so far are partitioned
      into not yet filled, in the pool, held, and lost. */
  lemma {:induction false} Conservation(w: World, s: State, ls: seq<Step>, t: State)
    requires Init(w, s) && Sound(w.rules) && Exec(w, s, ls) == Some(t)
    ensures forall a: nat :: InSomeRange(w, t, a) <==> a in t.pending + t.pool.Keys + HeldAddrs(t) + t.lost
    ensures t.pending !! t.pool.Keys !! HeldAddrs(t) !! t.lost
    ensures NoDouble(t)
  {
    Reached(w, s, ls, t);
    hide Exec, Init, LockInv, RefillInv, ValueInv, OwnerInv, RangeInv, Size, Allocatable, InSomeRange;
    forall a: nat { OfferedIsInSomeRange(w, t, a); }
  }

  /** In every reachable state, whatever the environment does, a pool address is one that a range of the
      tenant's may offer, and its value names its own key with the tenant's mask. If iprange writes are
      not lost, a range opened so far has it. For masks up to /24 no gateway of any opened range is in
      the pool. */
  lemma {:induction false} PoolIsClean(w: World, s: State, ls: seq<Step>, t: State, a: nat, i: nat)
    requires Init(w, s) && Exec(w, s, ls) == Some(t) && a in t.pool && i < |t.ranges|
    ensures w.conf.mask <= 30 && Allocatable(w.conf.mask, a) && t.pool[a] == Cidr(a, w.conf.mask)
    ensures w.rules.rangeWrites ==> InOpened(t, a)
    ensures t.ranges[i].mask <= 32 && (w.conf.mask <= 24 ==> a != Gateway(t.ranges[i]))
  {
    AlwaysFree(w, s, ls);
    if w.rules.rangeWrites {
      AlwaysOpened(w, s, ls);
      assert a in Opened(t);
    }
    hide Exec, Init, Allocatable, InOpened, Gateway, Rem;
    assert a in Offerable(w) && OwnRange(w, t.ranges[i]);
    GatewayOfRange(t.ranges[i], t.ranges[i].ip);
  }

  // ---------------------------------------------------------------- what moves where

  /** The part of the partition an address is in. */
  datatype Place = Unopened | Pending | Pool | Held | Lost

  function PlaceOf(s: State, a: nat): Place {
    if a in s.pending then Pending
    else if a in s.pool then Pool
    else if a in HeldAddrs(s) then Held
    else if a in s.lost then Lost
    else Unopened
  }

  /** The only ways in which a step can move an address. */
  predicate CanMove(l: Step, a: nat, p: Place, q: Place) {
    match p
    case Unopened =>
      l.Refill? && ((q.Pending? && l.refill == WriteRange(true)) || (q.Lost? && l.refill == WriteFails(true)))
    case Pending =>
      || (q.Pool? && l.Refill? && l.refill == Fill(a, true))
      || (q.Lost? && ((l.Refill? && l.refill == Fill(a, false)) || l.Abort?))
    case Pool => l.Add? && ((q.Held? && l.add == Claim(a)) || (q.Lost? && l.add == Miss(a, true)))
    case Held => l.Del? && ((q.Pool? && l.del == Put(a, true)) || (q.Lost? && l.del == Forget(true)))
    case Lost => false
  }

  /** Every step leaves an address where it is or moves it between the parts in the one way its
      operation stands for. In particular what is lost stays lost. */
  lemma StepMoves(w: World, s: State, l: Step, a: nat)
    requires Inv(w, s) && Sound(w.rules) && Enabled(w, s, l)
    ensures var p, q := PlaceOf(s, a), PlaceOf(Apply(w, s, l), a); p == q || CanMove(l, a, p, q)
  {
    var e, t := Effect(w, s, l), Apply(w, s, l);
    assert t.pool == e.pool && t.pending == e.pending && t.held == e.held && t.lost == e.lost by {
      hide AddEffect, DelEffect, RefillEffect, AddTarget, DelTarget, RefillTarget;
    }
    SamePlace(e, t, a);
    PartsApart(w, s);
    NextIsUnopened(w, s, a);
    assert LocalInv(w, s, l.c) && NoDouble(s);
    hide AddEffect, DelEffect, RefillEffect, AddEnabled, DelEnabled, RefillEnabled, Apply, PlaceOf, CanMove, Apart4;
    hide PartitionInv, ValueInv, OwnerInv, AllocFrom;
    match l {
      case Add(c, x) => AddPlaces(w, s, c, x, a);
      case Del(c, x) => DelPlaces(w, s, c, x, a);
      case Refill(c, x) =>
        RefillInside(w, s, c, x);
        RefillingInside(w, s, c);
        RefillPlaces(w, s, c, x, a);
      case Abort(c) => AbortPlaces(w, s, c, a);
    }
  }

  /** Nothing of the next range is accounted for yet. */
  lemma NextIsUnopened(w: World, s: State, a: nat)
    requires Inv(w, s)
    ensures a in AllocFrom(After(s.iprange), After(s.iprange).ip) ==> PlaceOf(s, a).Unopened?
  {
    hide Rem, Allocatable, HeldAddrs, LockInv, RefillInv, ValueInv, OwnerInv;
    if a in AllocFrom(After(s.iprange), After(s.iprange).ip) { assert !Offered(w, s, a); }
  }

  lemma AbortPlaces(w: World, s: State, c: Container, a: nat)
    requires Apart4(s)
    ensures var p, q := PlaceOf(s, a), PlaceOf(Effect(w, s, Abort(c)), a); p == q || CanMove(Abort(c), a, p, q)
  {
    HeldSame(s, Effect(w, s, Abort(c)));
    hide HeldAddrs;
  }

  lemma SamePlace(s: State, t: State, a: nat)
    requires t.pool == s.pool && t.pending == s.pending && t.held == s.held && t.lost == s.lost
    ensures PlaceOf(s, a) == PlaceOf(t, a)
  {
  }

  lemma HeldIs(s: State, a: nat)
    ensures a in HeldAddrs(s) <==> exists c :: Hold(c, a) in s.held
  {
    if a in HeldAddrs(s) {
      var h :| h in s.held && h.a == a;
      assert Hold(h.c, a) in s.held;
    }
    if c :| Hold(c, a) in s.held { assert Hold(c, a).a in HeldAddrs(s); }
  }

  /** No address is in two places, and none in the pool ends in .254. */
  ghost predicate Apart4(s: State) {
    s.pending !! s.pool.Keys !! HeldAddrs(s) !! s.lost && forall a :: a in s.pool ==> a % 256 != 254
  }

  lemma PartsApart(w: World, s: State)
    requires Inv(w, s)
    ensures Apart4(s)
  {
    assert forall a :: a in s.pool ==> Offered(w, s, a);
    hide HeldAddrs, LockInv, RangeInv, RefillInv, ValueInv, OwnerInv;
  }

  lemma AddPlaces(w: World, s: State, c: Container, x: AddStep, a: nat)
    requires Apart4(s) && AddEnabled(w, s, c, x) && Sound(w.rules) && LocalInv(w, s, c)
    ensures var p, q := PlaceOf(s, a), PlaceOf(AddEffect(w, s, c, x), a); p == q || CanMove(Add(c, x), a, p, q)
  {
    var t := AddEffect(w, s, c, x);
    assert x.Cached? ==> t.held == s.held by { if x.Cached? { CachedOwns(w, s, c); } }
    hide LocalInv;
    HeldIs(s, a);
    HeldIs(t, a);
    hide HeldAddrs;
  }

  lemma DelPlaces(w: World, s: State, c: Container, x: DelStep, a: nat)
    requires Apart4(s) && NoDouble(s) && DelEnabled(w, s, c, x)
    requires s.At(c).Putting? ==> Hold(c, s.At(c).v.ip) in s.held
    ensures var p, q := PlaceOf(s, a), PlaceOf(DelEffect(w, s, c, x), a); p == q || CanMove(Del(c, x), a, p, q)
  {
    HeldIs(s, a);
    HeldIs(DelEffect(w, s, c, x), a);
    HeldByHas(s, c, a);
    hide HeldAddrs, SameNet, HeldBy;
  }

  lemma HeldByHas(s: State, c: Container, a: nat)
    ensures Hold(c, a) in s.held <==> a in HeldBy(s, c)
  {
    if a in HeldBy(s, c) {
      var h :| h in s.held && h.c == c && h.a == a;
      assert h == Hold(c, a);
    }
  }

  lemma RefillPlaces(w: World, s: State, c: Container, x: RefillStep, a: nat)
    requires Wf(w) && Apart4(s) && Refilling(w, s, s.At(c)) && RefillEnabled(w, s, c, x) && w.rules.rangeWrites
    requires a in AllocFrom(After(s.iprange), After(s.iprange).ip) ==> PlaceOf(s, a).Unopened?
    ensures var p, q := PlaceOf(s, a), PlaceOf(RefillEffect(w, s, c, x), a); p == q || CanMove(Refill(c, x), a, p, q)
  {
    hide Apart4, RefillEnabled, RefillEffect, PlaceOf, CanMove, AllocFrom, Rem, Size;
    match x
    case Fill(b, took) => FillPlaces(w, s, c, b, took, a);
    case Filled => FilledPlaces(w, s, c, a);
    case WriteRange(took) => OpenPlaces(w, s, c, x, a);
    case WriteFails(took) => OpenPlaces(w, s, c, x, a);
    case _ => QuietPlaces(w, s, c, x, a);
  }

  lemma FillPlaces(w: World, s: State, c: Container, b: nat, took: bool, a: nat)
    requires Wf(w) && Apart4(s) && Refilling(w, s, s.At(c)) && RefillEnabled(w, s, c, Fill(b, took))
    ensures var p, q := PlaceOf(s, a), PlaceOf(RefillEffect(w, s, c, Fill(b, took)), a);
            p == q || CanMove(Refill(c, Fill(b, took)), a, p, q)
  {
    AllocEnds(s.iprange);
    AllocStep(s.iprange, b);
    HeldSame(s, RefillEffect(w, s, c, Fill(b, took)));
    hide HeldAddrs, AllocFrom, Size, Next, Rem, RangeInv;
  }

  lemma FilledPlaces(w: World, s: State, c: Container, a: nat)
    requires Wf(w) && Refilling(w, s, s.At(c)) && RefillEnabled(w, s, c, Filled)
    ensures PlaceOf(s, a) == PlaceOf(RefillEffect(w, s, c, Filled), a)
  {
    AllocEnds(s.iprange);
    HeldSame(s, RefillEffect(w, s, c, Filled));
    hide HeldAddrs, AllocFrom, Size, Next, Rem, RangeInv;
  }

  lemma OpenPlaces(w: World, s: State, c: Container, x: RefillStep, a: nat)
    requires Wf(w) && Refilling(w, s, s.At(c)) && RefillEnabled(w, s, c, x) && w.rules.rangeWrites
    requires x.WriteRange? || x.WriteFails?
    requires a in AllocFrom(After(s.iprange), After(s.iprange).ip) ==> PlaceOf(s, a).Unopened?
    ensures var p, q := PlaceOf(s, a), PlaceOf(RefillEffect(w, s, c, x), a); p == q || CanMove(Refill(c, x), a, p, q)
  {
    HeldSame(s, RefillEffect(w, s, c, x));
    hide HeldAddrs, AllocFrom, Size, Next, Rem, RangeInv;
  }

  lemma QuietPlaces(w: World, s: State, c: Container, x: RefillStep, a: nat)
    requires RefillEnabled(w, s, c, x) && !x.WriteRange? && !x.WriteFails? && !x.Fill? && !x.Filled?
    ensures PlaceOf(s, a) == PlaceOf(RefillEffect(w, s, c, x), a)
  {
    hide Next, Size;
  }

  lemma HeldSame(s: State, t: State)
    requires s.held == t.held
    ensures HeldAddrs(s) == HeldAddrs(t)
  {
  }

  // ---------------------------------------------------------------- claims without any lock

  predicate Claims(l: Step, a: nat) { l.Add? && l.add == Claim(a) }

  predicate Sets(l: Step, a: nat) {
    (l.Refill? && l.refill == Fill(a, true)) || (l.Del? && l.del == Put(a, true))
  }

  function CountClaims(ls: seq<Step>, a: nat): nat {
    if ls == [] then 0 else CountClaims(ls[..|ls| - 1], a) + if Claims(ls[|ls| - 1], a) then 1 else 0
  }

  function CountSets(ls: seq<Step>, a: nat): nat {
    if ls == [] then 0 else CountSets(ls[..|ls| - 1], a) + if Sets(ls[|ls| - 1], a) then 1 else 0
  }

  function Bit(b: bool): nat { if b then 1 else 0 }

  lemma AddPool(w: World, s: State, c: Container, x: AddStep, a: nat)
    requires AddEnabled(w, s, c, x)
    ensures a in AddEffect(w, s, c, x).pool ==> a in s.pool
    ensures x == Claim(a) ==> a in s.pool && a !in AddEffect(w, s, c, x).pool
  {
  }

  lemma RefillPool(w: World, s: State, c: Container, x: RefillStep, a: nat)
    requires RefillEnabled(w, s, c, x)
    ensures a in RefillEffect(w, s, c, x).pool ==> a in s.pool || x == Fill(a, true)
  {
  }

  lemma DelPool(w: World, s: State, c: Container, x: DelStep, a: nat)
    requires DelEnabled(w, s, c, x)
    ensures a in DelEffect(w, s, c, x).pool ==> a in s.pool || x == Put(a, true)
  {
  }

  lemma PoolChange(w: World, s: State, l: Step, a: nat)
    requires Enabled(w, s, l)
    ensures a in Apply(w, s, l).pool ==> a in s.pool || Sets(l, a)
    ensures Claims(l, a) ==> a in s.pool && a !in Apply(w, s, l).pool
  {
    hide AddTarget, RefillTarget, DelTarget, AddEffect, RefillEffect, DelEffect, AddEnabled, RefillEnabled, DelEnabled;
    match l
    case Add(c, x) => AddPool(w, s, c, x, a);
    case Refill(c, x) => RefillPool(w, s, c, x, a);
    case Del(c, x) => DelPool(w, s, c, x, a);
    case Abort(c) =>
  }

  /** The code as it is, under no assumption at all: every successful claim of an address uses up a
      write of it, although candidates come from stale listings. */
  lemma {:induction false} ClaimsBySets(w: World, s: State, ls: seq<Step>, a: nat)
    requires Exec(w, s, ls).Some?
    ensures CountClaims(ls, a) + Bit(a in Exec(w, s, ls).value.pool) <= CountSets(ls, a) + Bit(a in s.pool)
    decreases |ls|
  {
    hide Enabled, Apply;
    if ls != [] {
      var k := |ls| - 1;
      ClaimsBySets(w, s, ls[..k], a);
      PoolChange(w, Exec(w, s, ls[..k]).value, ls[k], a);
    }
  }

  lemma {:induction false} SetBetween(w: World, s: State, ls: seq<Step>, a: nat) returns (k: nat)
    requires Exec(w, s, ls).Some? && a !in s.pool && a in Exec(w, s, ls).value.pool
    ensures k < |ls| && Sets(ls[k], a)
    decreases |ls|
  {
    hide Enabled, Apply;
    var n := |ls| - 1;
    PoolChange(w, Exec(w, s, ls[..n]).value, ls[n], a);
    if Sets(ls[n], a) { k := n; } else { k := SetBetween(w, s, ls[..n], a); }
  }

  /** A run splits at any point. */
  lemma {:induction false} ExecSplit(w: World, s: State, ls: seq<Step>, k: nat)
    requires Exec(w, s, ls).Some? && k <= |ls|
    ensures Exec(w, s, ls[..k]).Some?
    ensures Exec(w, Exec(w, s, ls[..k]).value, ls[k..]) == Exec(w, s, ls)
    decreases |ls|
  {
    hide Enabled, Apply;
    if k == |ls| {
      assert ls[..k] == ls && ls[k..] == [];
    } else {
      var n := |ls| - 1;
      ExecSplit(w, s, ls[..n], k);
      assert ls[..n][..k] == ls[..k] && ls[k..][..n - k] == ls[..n][k..];
    }
  }

  /** Between any two successful claims of one address there is a write of it. */
  lemma {:induction false} ClaimsAreSeparated(w: World, s: State, ls: seq<Step>, a: nat, i: nat, j: nat)
    returns (k: nat)
    requires Exec(w, s, ls).Some? && i < j < |ls| && Claims(ls[i], a) && Claims(ls[j], a)
    ensures i < k < j && Sets(ls[k], a)
  {
    hide *;
    AroundClaim(w, s, ls, a, j);
    var head := ls[..j];
    AroundClaim(w, s, head, a, i);
    ExecSplit(w, s, head, i + 1);
    var tail := head[i + 1..];
    k := SetBetween(w, Exec(w, s, head[..i + 1]).value, tail, a);
    assert tail[k] == ls[k + i + 1];
    k := k + i + 1;
  }

  lemma {:induction false} AroundClaim(w: World, s: State, ls: seq<Step>, a: nat, i: nat)
    requires Exec(w, s, ls).Some? && i < |ls| && Claims(ls[i], a)
    ensures Exec(w, s, ls[..i]).Some? && a in Exec(w, s, ls[..i]).value.pool
    ensures Exec(w, s, ls[..i + 1]).Some? && a !in Exec(w, s, ls[..i + 1]).value.pool
  {
    hide Enabled, Apply;
    ExecSplit(w, s, ls, i + 1);
    assert ls[..i + 1][..i] == ls[..i];
    PoolChange(w, Exec(w, s, ls[..i]).value, ls[i], a);
  }
}
