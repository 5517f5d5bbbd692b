/** The invariant of the tenant protocol and its preservation by every step. */
module TenantInv {
  import opened Results
  import opened Addr
  import opened Tenant

  // ---------------------------------------------------------------- the parts

  /** The lock: who is in its critical section, and that it is one process. */
  ghost predicate LockInv(s: State) {
    && (forall c: Container :: InCs(s.At(c)) <==> c in s.lockers)
    && (forall c, d :: c in s.lockers && d in s.lockers ==> c == d)
  }

  /** The block after `r`. */
  function After(r: Cidr): Cidr
    requires r.mask <= 32
  {
    Cidr(r.ip + Size(r.mask), r.mask)
  }

  /** The ranges opened so far follow each other without gap, and iprange is the last one. */
  ghost predicate RangeInv(w: World, s: State) {
    && Aligned(s.iprange) && s.iprange.mask == w.conf.mask && w.conf.ip <= s.iprange.ip
    && |s.ranges| >= 1 && s.ranges[0] == w.conf && s.ranges[|s.ranges| - 1] == s.iprange
    && (forall i :: 0 <= i < |s.ranges| ==> s.ranges[i].mask == w.conf.mask)
    && (forall i :: 0 < i < |s.ranges| ==> s.ranges[i] == After(s.ranges[i - 1]))
  }

  /** The refill in progress works on the next, or the newest, range. */
  ghost predicate RefillInv(w: World, s: State)
    requires RangeInv(w, s)
  {
    && (forall c: Container :: s.At(c).Writing? ==> s.At(c).next == After(s.iprange) && Aligned(s.At(c).next))
    && (forall c: Container :: s.At(c).Filling? ==>
                                 && s.At(c).range == s.iprange
                                 && s.iprange.ip + 2 <= s.At(c).at <= Last(s.iprange)
                                 && s.pending == AllocFrom(s.iprange, s.At(c).at))
    && (s.pending != {} ==> exists c: Container :: s.At(c).Filling?)
  }

  /** An address of some range opened so far that the pool may offer. */
  ghost predicate Offered(w: World, s: State, a: nat)
    requires w.conf.mask <= 32 && s.iprange.mask <= 32
  {
    w.conf.ip <= a < s.iprange.ip + Size(s.iprange.mask) && Allocatable(w.conf.mask, a)
  }

  function HeldAddrs(s: State): set<nat> { set h | h in s.held :: h.a }

  /** Every offered address is in exactly one of the four places. */
  ghost predicate PartitionInv(w: World, s: State)
    requires w.conf.mask <= 32 && s.iprange.mask <= 32
  {
    && (forall a: nat :: Offered(w, s, a) <==>
                         a in s.pending || a in s.pool || a in HeldAddrs(s) || a in s.lost)
    && s.pending !! s.pool.Keys !! HeldAddrs(s) !! s.lost
    && NoDouble(s)
  }

  /** `v` names its own key: the address it is stored under, with the tenant's fixed mask. */
  predicate Names(w: World, a: nat, v: Cidr) { v == Cidr(a, w.conf.mask) }

  ghost predicate ValueInv(w: World, s: State) {
    && (forall a :: a in s.pool ==> Names(w, a, s.pool[a]))
    && (forall c :: c in s.records ==> s.records[c].mask == w.conf.mask)
    && (forall c: Container, a :: s.At(c).Trying? && a in s.At(c).left ==> Names(w, a, s.At(c).left[a]))
  }

  predicate Owns(w: World, s: State, c: Container, v: Cidr) {
    Hold(c, v.ip) in s.held && v.mask == w.conf.mask
  }

  /** The recorded address, if any, is still the container's own. */
  predicate RecordOwned(w: World, s: State, c: Container) {
    c in s.records ==> Owns(w, s, c, s.records[c])
  }

  /** The container's binding names a port that still exists. */
  predicate Live(s: State, c: Container) { c in s.bindings && s.bindings[c] in s.ports }

  function Lookup<V>(m: map<Container, V>, c: Container): Option<V> { if c in m then Some(m[c]) else None }

  predicate Deleting(pc: Pc) { !pc.Idle? && !Adding(pc) }

  /** What a container's command knows at position `pc`. */
  ghost predicate Knows(w: World, s: State, c: Container, pc: Pc) {
    match pc
    case Claimed(v) => Owns(w, s, c, v)
    case Binding(v) => Owns(w, s, c, v) && RecordOwned(w, s, c)
    case Saving(v) => Owns(w, s, c, v)
    case Porting(p, _) => c in s.bindings && s.bindings[c] == p
    case Dropping(deleted) => deleted ==> !Live(s, c) && RecordOwned(w, s, c)
    case ReadingRecord => !Live(s, c) && RecordOwned(w, s, c)
    case Releasing(v) => !Live(s, c) && Owns(w, s, c, v) && Lookup(s.records, c) == Some(v)
    case WantPut(v) => !Live(s, c) && Owns(w, s, c, v) && Lookup(s.records, c) == Some(v)
    case Putting(v) => !Live(s, c) && Owns(w, s, c, v) && Lookup(s.records, c) == Some(v)
    case Forgetting => !Live(s, c)
    case _ => true
  }

  /** What holds of it at any position. */
  ghost predicate Always(w: World, s: State, c: Container, pc: Pc) {
    && (Live(s, c) ==> RecordOwned(w, s, c))
    && (w.rules.freshIds ==> (c !in s.gone ==> RecordOwned(w, s, c)) && (Adding(pc) ==> c !in s.gone))
    && (Deleting(pc) ==> c in s.gone)
    && (w.rules.resultDeletes && Deleting(pc) ==> c !in s.results)
    && (c in s.results && (w.rules.resultDeletes || c !in s.gone) ==> Owns(w, s, c, s.results[c]))
    && (c in s.bindings ==> s.bindings[c] < s.nextPort)
  }

  ghost predicate LocalAt(w: World, s: State, c: Container, pc: Pc) { Knows(w, s, c, pc) && Always(w, s, c, pc) }

  ghost predicate LocalInv(w: World, s: State, c: Container) { LocalAt(w, s, c, s.At(c)) }

  ghost predicate OwnerInv(w: World, s: State) {
    && (forall p :: p in s.ports ==> p < s.nextPort)
    && (forall c: Container :: LocalInv(w, s, c))
  }

  ghost predicate Inv(w: World, s: State) {
    && Wf(w) && LockInv(s) && RangeInv(w, s) && RefillInv(w, s)
    && PartitionInv(w, s) && ValueInv(w, s) && OwnerInv(w, s)
  }

  // ---------------------------------------------------------------- preservation

  lemma InitInv(w: World, s: State)
    requires Init(w, s)
    ensures Inv(w, s)
  {
    assert HeldAddrs(s) == {};
  }

  /** One position further in the fill loop. */
  lemma AllocStep(r: Cidr, at: nat)
    requires r.mask <= 32
    ensures AllocFrom(r, at + 1) == AllocFrom(r, at) - {at}
    ensures at in AllocFrom(r, at) <==> at < r.ip + Size(r.mask) && Allocatable(r.mask, at)
  {
  }

  /** The ends of an aligned block are not offered: the loop may start at the third address and
      stop before the last. */
  lemma AllocEnds(r: Cidr)
    requires Aligned(r) && r.mask <= 30
    ensures AllocFrom(r, r.ip) == AllocFrom(r, r.ip + 2)
    ensures AllocFrom(r, Last(r)) == {}
    ensures forall a: nat :: r.ip + 2 <= a < Last(r) ==> (Allocatable(r.mask, a) <==> a % 256 != 254)
  {
    SizeFacts(r.mask);
    forall a: nat | InRange(a, r) ensures Rem(a, Size(r.mask)) == a - r.ip { Offset(r, a); }
  }

  /** GetNextCIDR of the cell, when it does not wrap. */
  lemma NextIsAfter(w: World, s: State)
    requires RangeInv(w, s) && Next(s.iprange).Ok? && Next(s.iprange).value.ip > s.iprange.ip
    ensures Next(s.iprange).value == After(s.iprange) && Aligned(After(s.iprange))
  {
    hide GetNextCIDR, AllocFrom, Rem;
    NextCIDR(Some(s.iprange));
  }

  /** And it does not wrap while the space has room. */
  lemma NextFits(g: Cidr)
    requires Aligned(g) && g.ip + Size(g.mask) < SPACE
    ensures Next(g) == Ok(After(g)) && Aligned(After(g))
  {
    hide GetNextCIDR, AllocFrom, Rem;
    NextCIDR(Some(g));
  }

  /** How a step moves the acting container in and out of the lock. */
  lemma LockMoves(w: World, s: State, l: Step)
    requires Enabled(w, s, l)
    ensures InCs(Target(w, s, l)) && !InCs(s.At(l.c)) ==> LockFree(w, s)
    ensures (l.Add? || l.Del?) && InCs(Target(w, s, l)) ==> Target(w, s, l).Putting?
    ensures (l.Add? || l.Del?) ==> !s.At(l.c).Filling? && !s.At(l.c).Writing?
  {
    hide AllocFrom, Next, SameNet, Last, Size, Rem;
  }

  lemma KeepsLock(w: World, s: State, l: Step)
    requires w.rules.serial && LockInv(s) && Enabled(w, s, l)
    ensures LockInv(Apply(w, s, l))
  {
    LockMoves(w, s, l);
    hide Effect, Target, Enabled;
  }

  // ---------------------------------------------------------------- ranges and refill

  /** Only the refill touches iprange, its history and what is pending. */
  lemma AddFrame(w: World, s: State, c: Container, x: AddStep)
    requires AddEnabled(w, s, c, x)
    ensures var t := AddEffect(w, s, c, x);
            t.iprange == s.iprange && t.ranges == s.ranges && t.pending == s.pending
  {
  }

  lemma DelFrame(w: World, s: State, c: Container, x: DelStep)
    requires DelEnabled(w, s, c, x)
    ensures var t := DelEffect(w, s, c, x);
            t.iprange == s.iprange && t.ranges == s.ranges && t.pending == s.pending
  {
    hide DelEnabled, DelEffect;
    match x
    case Put(_, _) => LateFrame(w, s, c, x);
    case Forget(_) => LateFrame(w, s, c, x);
    case _ => EarlyFrame(w, s, c, x);
  }

  lemma EarlyFrame(w: World, s: State, c: Container, x: DelStep)
    requires DelEnabled(w, s, c, x) && !x.Put? && !x.Forget?
    ensures var t := DelEffect(w, s, c, x);
            t.iprange == s.iprange && t.ranges == s.ranges && t.pending == s.pending
  {
    hide SameNet, HeldBy, Size;
  }

  lemma LateFrame(w: World, s: State, c: Container, x: DelStep)
    requires DelEnabled(w, s, c, x) && (x.Put? || x.Forget?)
    ensures var t := DelEffect(w, s, c, x);
            t.iprange == s.iprange && t.ranges == s.ranges && t.pending == s.pending
  {
    hide SameNet, HeldBy, Size;
  }

  /** RangeInv and RefillInv seen from the one container that is refilling. */
  ghost predicate Refilling(w: World, s: State, pc: Pc) {
    && RangeInv(w, s)
    && (pc.Writing? ==> pc.next == After(s.iprange) && Aligned(pc.next))
    && (if pc.Filling?
        then pc.range == s.iprange && s.iprange.ip + 2 <= pc.at <= Last(s.iprange)
             && s.pending == AllocFrom(s.iprange, pc.at)
        else s.pending == {})
  }

  lemma RefillKeepsWrite(w: World, s: State, c: Container, took: bool)
    requires Wf(w) && w.rules.rangeWrites && RefillEnabled(w, s, c, WriteRange(took)) && Refilling(w, s, s.At(c))
    ensures Refilling(w, RefillEffect(w, s, c, WriteRange(took)), RefillTarget(w, s, c, WriteRange(took)))
  {
    hide AllocFrom, Rem, Next, Size, Allocatable;
    AllocEnds(s.At(c).next);
    SizeFacts(s.At(c).next.mask);
  }

  lemma RefillKeepsFail(w: World, s: State, c: Container, took: bool)
    requires Wf(w) && RefillEnabled(w, s, c, WriteFails(took)) && Refilling(w, s, s.At(c))
    ensures Refilling(w, RefillEffect(w, s, c, WriteFails(took)), RefillTarget(w, s, c, WriteFails(took)))
  {
    hide AllocFrom, Rem, Next, Size, Allocatable;
  }

  lemma RefillKeepsFill(w: World, s: State, c: Container, x: RefillStep)
    requires Wf(w) && RefillEnabled(w, s, c, x) && Refilling(w, s, s.At(c)) && (x.Fill? || x.Skip?)
    ensures Refilling(w, RefillEffect(w, s, c, x), RefillTarget(w, s, c, x))
  {
    hide AllocFrom, Rem, Next, Size;
    AllocEnds(s.iprange);
    AllocStep(s.iprange, s.At(c).at);
  }

  lemma RefillKeepsRest(w: World, s: State, c: Container, x: RefillStep)
    requires Wf(w) && w.rules.bounded && RefillEnabled(w, s, c, x) && Refilling(w, s, s.At(c))
    requires !x.WriteRange? && !x.WriteFails? && !x.Fill? && !x.Skip?
    ensures Refilling(w, RefillEffect(w, s, c, x), RefillTarget(w, s, c, x))
  {
    hide AllocFrom, Rem, Next, Size, Allocatable;
    if x.ReadRange? { NextIsAfter(w, s); }
  }

  lemma RefillKeeps(w: World, s: State, c: Container, x: RefillStep)
    requires Wf(w) && w.rules.rangeWrites && w.rules.bounded && RefillEnabled(w, s, c, x)
    requires Refilling(w, s, s.At(c))
    ensures Refilling(w, RefillEffect(w, s, c, x), RefillTarget(w, s, c, x))
  {
    hide RefillEnabled, RefillEffect, RefillTarget, Refilling;
    match x
    case WriteRange(took) => RefillKeepsWrite(w, s, c, took);
    case WriteFails(took) => RefillKeepsFail(w, s, c, took);
    case Fill(_, _) => RefillKeepsFill(w, s, c, x);
    case Skip => RefillKeepsFill(w, s, c, x);
    case _ => RefillKeepsRest(w, s, c, x);
  }

  /** A refill step happens inside the lock, except for taking it. */
  lemma RefillInside(w: World, s: State, c: Container, x: RefillStep)
    requires RefillEnabled(w, s, c, x)
    ensures if x.Lock? then LockFree(w, s) && RefillEffect(w, s, c, x) == s else InCs(s.At(c))
  {
  }

  /** The same two invariants for all containers, when only `c` moved: it was alone inside the
      lock, or it touched nothing they speak about. */
  lemma RefillingIsEnough(w: World, s: State, t: State, c: Container)
    requires LockInv(s) && RangeInv(w, s) && RefillInv(w, s)
    requires forall d: Container :: d != c ==> t.At(d) == s.At(d)
    requires (InCs(s.At(c)) || s.lockers == {}) && Refilling(w, t, t.At(c))
    ensures RangeInv(w, t) && RefillInv(w, t)
  {
    hide AllocFrom, Rem, Size, Allocatable;
    assert forall d: Container :: d != c ==> !InCs(s.At(d));
  }

  lemma UntouchedIsEnough(w: World, s: State, t: State, c: Container)
    requires RangeInv(w, s) && RefillInv(w, s)
    requires forall d: Container :: d != c ==> t.At(d) == s.At(d)
    requires t.iprange == s.iprange && t.ranges == s.ranges && t.pending == s.pending
    requires !s.At(c).Filling? && !t.At(c).Filling? && !t.At(c).Writing?
    ensures RangeInv(w, t) && RefillInv(w, t)
  {
    hide AllocFrom, Rem, Size, Allocatable;
    if t.pending != {} {
      var d: Container :| s.At(d).Filling?;
      assert t.At(d).Filling?;
    }
  }

  lemma RefillingInside(w: World, s: State, c: Container)
    requires LockInv(s) && RangeInv(w, s) && RefillInv(w, s) && (InCs(s.At(c)) || s.lockers == {})
    ensures Refilling(w, s, s.At(c))
  {
    hide AllocFrom, Rem, Size, Allocatable;
    if s.pending != {} {
      var d: Container :| s.At(d).Filling?;
      assert d in s.lockers;
    }
  }

  /** Only the acting container's command moves. */
  lemma OthersStay(w: World, s: State, l: Step)
    requires Enabled(w, s, l)
    ensures var t := Apply(w, s, l);
            t.At(l.c) == Target(w, s, l) && forall d: Container :: d != l.c ==> t.At(d) == s.At(d)
  {
    hide AddEffect, DelEffect, RefillEffect, AddTarget, DelTarget, RefillTarget, AddEnabled, DelEnabled, RefillEnabled;
  }

  lemma AbortKeepsRefill(w: World, s: State, c: Container)
    requires LockInv(s) && RangeInv(w, s) && RefillInv(w, s)
    ensures var t := Apply(w, s, Abort(c)); RangeInv(w, t) && RefillInv(w, t)
  {
    hide AllocFrom, Rem, Size, Allocatable;
    var t := Apply(w, s, Abort(c));
    OthersStay(w, s, Abort(c));
    if s.At(c).Filling? { RefillingIsEnough(w, s, t, c); } else { UntouchedIsEnough(w, s, t, c); }
  }

  lemma KeepsRefill(w: World, s: State, l: Step)
    requires w.rules.serial && w.rules.rangeWrites && w.rules.bounded
    requires Wf(w) && LockInv(s) && RangeInv(w, s) && RefillInv(w, s) && Enabled(w, s, l)
    ensures RangeInv(w, Apply(w, s, l)) && RefillInv(w, Apply(w, s, l))
  {
    hide Apply, RangeInv, RefillInv, LockInv, AddEnabled, DelEnabled, RefillEnabled;
    match l {
      case Add(c, x) => OutsideKeepsRefill(w, s, l);
      case Del(c, x) => OutsideKeepsRefill(w, s, l);
      case Refill(c, x) => InsideKeepsRefill(w, s, c, x);
      case Abort(c) => AbortKeepsRefill(w, s, c);
    }
  }

  /** A step of GetNewIP or of a DEL has nothing to do with ranges. */
  lemma OutsideKeepsRefill(w: World, s: State, l: Step)
    requires RangeInv(w, s) && RefillInv(w, s) && Enabled(w, s, l) && (l.Add? || l.Del?)
    ensures RangeInv(w, Apply(w, s, l)) && RefillInv(w, Apply(w, s, l))
  {
    var t := Apply(w, s, l);
    LockMoves(w, s, l);
    OthersStay(w, s, l);
    hide AddEffect, DelEffect, RefillEffect, AddTarget, DelTarget, RefillTarget, AddEnabled, DelEnabled, RefillEnabled;
    hide RangeInv, RefillInv;
    match l {
      case Add(c, x) => AddFrame(w, s, c, x);
      case Del(c, x) => DelFrame(w, s, c, x);
    }
    hide Target;
    UntouchedIsEnough(w, s, t, l.c);
  }

  lemma InsideKeepsRefill(w: World, s: State, c: Container, x: RefillStep)
    requires w.rules.serial && w.rules.rangeWrites && w.rules.bounded
    requires Wf(w) && LockInv(s) && RangeInv(w, s) && RefillInv(w, s) && RefillEnabled(w, s, c, x)
    ensures var t := Apply(w, s, Refill(c, x)); RangeInv(w, t) && RefillInv(w, t)
  {
    var t := Apply(w, s, Refill(c, x));
    OthersStay(w, s, Refill(c, x));
    RefillInside(w, s, c, x);
    hide RefillEffect, RefillTarget, RefillEnabled;
    hide Refilling, RangeInv, RefillInv, LockInv, InCs;
    RefillingInside(w, s, c);
    RefillKeeps(w, s, c, x);
    RefillingSame(w, RefillEffect(w, s, c, x), t, RefillTarget(w, s, c, x));
    RefillingIsEnough(w, s, t, c);
  }

  lemma RefillingSame(w: World, e: State, t: State, pc: Pc)
    requires Refilling(w, e, pc) && t.iprange == e.iprange && t.ranges == e.ranges && t.pending == e.pending
    ensures Refilling(w, t, pc)
  {
    hide AllocFrom, Rem, Size;
  }

  // ---------------------------------------------------------------- conservation

  /** The four places, as far as the partition is concerned. */
  predicate SamePlaces(s: State, t: State) {
    && t.iprange == s.iprange && t.pending == s.pending && t.pool.Keys == s.pool.Keys
    && t.held == s.held && t.lost == s.lost
  }

  lemma SamePlacesSame(w: World, s: State, t: State)
    requires w.conf.mask <= 32 && s.iprange.mask <= 32 && PartitionInv(w, s) && SamePlaces(s, t)
    ensures PartitionInv(w, t)
  {
    hide Rem, Size, Allocatable;
    assert HeldAddrs(t) == HeldAddrs(s);
  }

  /** `c` takes `a` out of the pool. */
  lemma ClaimMoves(w: World, s: State, c: Container, a: nat, t: State)
    requires w.conf.mask <= 32 && s.iprange.mask <= 32 && PartitionInv(w, s) && a in s.pool
    requires t == s.(pool := s.pool - {a}, held := s.held + {Hold(c, a)})
    ensures PartitionInv(w, t)
  {
    hide Rem, Size, Allocatable;
    assert Hold(c, a) in t.held;
    assert HeldAddrs(t) == HeldAddrs(s) + {a};
  }

  /** `c` puts back an address it holds. */
  lemma PutMoves(w: World, s: State, c: Container, a: nat, v: Cidr, t: State)
    requires w.conf.mask <= 32 && s.iprange.mask <= 32 && PartitionInv(w, s) && Hold(c, a) in s.held
    requires t == s.(pool := s.pool[a := v], held := s.held - {Hold(c, a)})
    ensures PartitionInv(w, t)
  {
    hide Rem, Size, Allocatable;
    assert a in HeldAddrs(s);
    forall h | h in t.held ensures h.a != a { assert h == Hold(h.c, h.a); }
    assert HeldAddrs(t) == HeldAddrs(s) - {a} by {
      forall b | b in HeldAddrs(s) && b != a ensures b in HeldAddrs(t) {
        var h :| h in s.held && h.a == b;
        assert h in t.held;
      }
    }
  }

  /** What `c` holds is given up with its record. */
  lemma ForgetMoves(w: World, s: State, c: Container, t: State)
    requires w.conf.mask <= 32 && s.iprange.mask <= 32 && PartitionInv(w, s)
    requires t == s.(records := s.records - {c}, lost := s.lost + HeldBy(s, c), held := set h | h in s.held && h.c != c)
    ensures PartitionInv(w, t)
  {
    hide Rem, Size, Allocatable;
    assert HeldBy(s, c) <= HeldAddrs(s);
    forall h | h in t.held ensures h.a !in HeldBy(s, c) {
      assert h == Hold(h.c, h.a);
      forall g | g in s.held && g.c == c ensures g.a != h.a { assert g == Hold(g.c, g.a); }
    }
    assert HeldAddrs(t) == HeldAddrs(s) - HeldBy(s, c) by {
      forall a | a in HeldAddrs(s) && a !in HeldBy(s, c) ensures a in HeldAddrs(t) {
        var h :| h in s.held && h.a == a;
        assert h in t.held;
      }
    }
  }

  /** A new range enters as pending. */
  lemma OpenMoves(w: World, s: State, t: State)
    requires Wf(w) && RangeInv(w, s) && PartitionInv(w, s) && t == Open(s, After(s.iprange))
    ensures PartitionInv(w, t)
  {
    hide Rem, Size;
    assert HeldAddrs(t) == HeldAddrs(s);
    forall a: nat ensures Offered(w, t, a) <==> Offered(w, s, a) || a in t.pending { }
    forall a: nat | a in t.pending ensures !Offered(w, s, a) { }
  }

  lemma AbandonMoves(w: World, s: State, t: State)
    requires w.conf.mask <= 32 && s.iprange.mask <= 32 && PartitionInv(w, s) && t == Abandon(s)
    ensures PartitionInv(w, t)
  {
    hide Rem, Size, Allocatable;
    assert HeldAddrs(t) == HeldAddrs(s);
  }

  lemma AddKeepsPartition(w: World, s: State, c: Container, x: AddStep)
    requires Wf(w) && RangeInv(w, s) && PartitionInv(w, s) && AddEnabled(w, s, c, x)
    requires x.Cached? ==> Owns(w, s, c, s.results[c])
    ensures PartitionInv(w, AddEffect(w, s, c, x))
  {
    hide Rem, Size, Allocatable, Offered, PartitionInv;
    var t := AddEffect(w, s, c, x);
    match x {
      case Claim(a) =>
        if a % 256 == 254 { LoseFromPool(w, s, a, t); } else { ClaimMoves(w, s, c, a, t); }
      case Miss(a, took) =>
        if took { LoseFromPool(w, s, a, t); }
      case Cached =>
        assert t.held == s.held;
        SamePlacesSame(w, s, t);
      case _ => SamePlacesSame(w, s, t);
    }
  }

  lemma LoseFromPool(w: World, s: State, a: nat, t: State)
    requires w.conf.mask <= 32 && s.iprange.mask <= 32 && PartitionInv(w, s) && a in s.pool
    requires t == s.(pool := s.pool - {a}, lost := s.lost + {a})
    ensures PartitionInv(w, t)
  {
    hide Rem, Size, Allocatable;
    assert HeldAddrs(t) == HeldAddrs(s);
  }

  /** A pending address is written to the pool, or its write is lost. */
  lemma FillMoves(w: World, s: State, a: nat, v: Cidr, took: bool, t: State)
    requires w.conf.mask <= 32 && s.iprange.mask <= 32 && PartitionInv(w, s) && a in s.pending
    requires t == if took then s.(pending := s.pending - {a}, pool := s.pool[a := v])
                  else s.(pending := s.pending - {a}, lost := s.lost + {a})
    ensures PartitionInv(w, t)
  {
    hide Rem, Size, Allocatable;
    assert HeldAddrs(t) == HeldAddrs(s);
  }

  lemma RefillKeepsPartition(w: World, s: State, c: Container, x: RefillStep)
    requires Wf(w) && Refilling(w, s, s.At(c)) && PartitionInv(w, s) && RefillEnabled(w, s, c, x)
    ensures RefillEffect(w, s, c, x).iprange.mask <= 32 && PartitionInv(w, RefillEffect(w, s, c, x))
  {
    hide Rem, Size, Allocatable, Offered, PartitionInv;
    var t := RefillEffect(w, s, c, x);
    match x {
      case WriteRange(took) =>
        if took { OpenMoves(w, s, t); }
      case WriteFails(took) =>
        if took {
          OpenMoves(w, s, Open(s, s.At(c).next));
          AbandonMoves(w, Open(s, s.At(c).next), t);
        }
      case Fill(a, took) =>
        AllocEnds(s.iprange);
        AllocStep(s.iprange, a);
        FillMoves(w, s, a, Cidr(a, s.iprange.mask), took, t);
      case Filled => AbandonMoves(w, s, t);
      case _ =>
    }
  }

  lemma DelKeepsPartition(w: World, s: State, c: Container, x: DelStep)
    requires Wf(w) && RangeInv(w, s) && PartitionInv(w, s) && DelEnabled(w, s, c, x)
    requires s.At(c).Putting? ==> Owns(w, s, c, s.At(c).v)
    ensures PartitionInv(w, DelEffect(w, s, c, x))
  {
    hide Rem, Size, Allocatable, Offered, PartitionInv;
    var t := DelEffect(w, s, c, x);
    match x {
      case Put(a, took) =>
        if took { PutMoves(w, s, c, a, s.At(c).v, t); }
      case Forget(took) =>
        if took { ForgetMoves(w, s, c, t); }
      case _ => SamePlacesSame(w, s, t);
    }
  }

  /** A stored result may be returned only while its address is the container's own. */
  lemma CachedOwns(w: World, s: State, c: Container)
    requires Sound(w.rules) && LocalInv(w, s, c)
    ensures AddEnabled(w, s, c, Cached) ==> Owns(w, s, c, s.results[c])
  {
  }

  lemma KeepsPartition(w: World, s: State, l: Step)
    requires Inv(w, s) && Sound(w.rules) && Enabled(w, s, l)
    ensures Apply(w, s, l).iprange.mask <= 32 && PartitionInv(w, Apply(w, s, l))
  {
    KeepsRefill(w, s, l);
    var e, t := Effect(w, s, l), Apply(w, s, l);
    assert SamePlaces(e, t) by { hide AddEffect, DelEffect, RefillEffect, AddTarget, DelTarget, RefillTarget; }
    assert LocalInv(w, s, l.c);
    hide AddEffect, DelEffect, RefillEffect, AddTarget, DelTarget, RefillTarget, AddEnabled, DelEnabled, RefillEnabled;
    hide PartitionInv, RangeInv, RefillInv, LockInv, ValueInv;
    assert l.Add? && l.add.Cached? ==> Owns(w, s, l.c, s.results[l.c]) by { CachedOwns(w, s, l.c); }
    match l {
      case Add(c, x) => AddKeepsPartition(w, s, c, x);
      case Del(c, x) => DelKeepsPartition(w, s, c, x);
      case Refill(c, x) =>
        RefillInside(w, s, c, x);
        RefillingInside(w, s, c);
        RefillKeepsPartition(w, s, c, x);
      case Abort(c) => AbandonMoves(w, s, Abandon(s));
    }
    SamePlacesSame(w, e, t);
  }

  // ---------------------------------------------------------------- stored values

  /** ValueInv without the command positions. */
  ghost predicate StoredValues(w: World, s: State) {
    && (forall a :: a in s.pool ==> Names(w, a, s.pool[a]))
    && (forall c :: c in s.records ==> s.records[c].mask == w.conf.mask)
  }

  ghost predicate ListedValues(w: World, pc: Pc) { pc.Trying? ==> forall a :: a in pc.left ==> Names(w, a, pc.left[a]) }

  lemma AddKeepsValues(w: World, s: State, c: Container, x: AddStep)
    requires StoredValues(w, s) && ListedValues(w, s.At(c)) && AddEnabled(w, s, c, x)
    requires s.At(c).Claimed? ==> Owns(w, s, c, s.At(c).v)
    ensures StoredValues(w, AddEffect(w, s, c, x)) && ListedValues(w, AddTarget(w, s, c, x))
  {
    hide AddEffect, AddTarget, StoredValues, ListedValues, Owns;
    assert x.Record? ==> s.At(c).Claimed?;
    hide AddEnabled;
    match x
    case Record(took) => RecordKeepsValues(w, s, c, took);
    case _ => OtherAddKeepsValues(w, s, c, x);
  }

  lemma RecordKeepsValues(w: World, s: State, c: Container, took: bool)
    requires StoredValues(w, s) && AddEnabled(w, s, c, Record(took)) && Owns(w, s, c, s.At(c).v)
    ensures StoredValues(w, AddEffect(w, s, c, Record(took))) && ListedValues(w, AddTarget(w, s, c, Record(took)))
  {
  }

  lemma OtherAddKeepsValues(w: World, s: State, c: Container, x: AddStep)
    requires StoredValues(w, s) && ListedValues(w, s.At(c)) && AddEnabled(w, s, c, x) && !x.Record?
    ensures StoredValues(w, AddEffect(w, s, c, x)) && ListedValues(w, AddTarget(w, s, c, x))
  {
    OtherAddStores(w, s, c, x);
    OtherAddLists(w, s, c, x);
  }

  lemma OtherAddStores(w: World, s: State, c: Container, x: AddStep)
    requires AddEnabled(w, s, c, x) && !x.Record? && StoredValues(w, s)
    ensures StoredValues(w, AddEffect(w, s, c, x))
  {
    hide Names;
  }

  lemma OtherAddLists(w: World, s: State, c: Container, x: AddStep)
    requires StoredValues(w, s) && ListedValues(w, s.At(c)) && AddEnabled(w, s, c, x) && !x.Record?
    ensures ListedValues(w, AddTarget(w, s, c, x))
  {
    hide Names;
  }

  lemma RefillKeepsValues(w: World, s: State, c: Container, x: RefillStep)
    requires StoredValues(w, s) && RefillEnabled(w, s, c, x) && Refilling(w, s, s.At(c))
    ensures StoredValues(w, RefillEffect(w, s, c, x)) && ListedValues(w, RefillTarget(w, s, c, x))
  {
    hide Rem, Size, Allocatable, AllocFrom, Aligned, Next;
  }

  lemma DelKeepsValues(w: World, s: State, c: Container, x: DelStep)
    requires StoredValues(w, s) && DelEnabled(w, s, c, x)
    requires s.At(c).Putting? ==> Owns(w, s, c, s.At(c).v)
    ensures StoredValues(w, DelEffect(w, s, c, x)) && ListedValues(w, DelTarget(w, s, c, x))
  {
  }

  lemma ValuesLift(w: World, s: State, e: State, t: State, c: Container)
    requires ValueInv(w, s) && StoredValues(w, e) && ListedValues(w, t.At(c))
    requires forall d: Container :: d != c ==> t.At(d) == s.At(d)
    requires t.pool == e.pool && t.records == e.records
    ensures ValueInv(w, t)
  {
  }

  lemma KeepsValues(w: World, s: State, l: Step)
    requires Inv(w, s) && Sound(w.rules) && Enabled(w, s, l)
    ensures ValueInv(w, Apply(w, s, l))
  {
    var t := Apply(w, s, l);
    OthersStay(w, s, l);
    assert StoredValues(w, s) && ListedValues(w, s.At(l.c)) && LocalInv(w, s, l.c);
    assert Effect(w, s, l).pool == t.pool && Effect(w, s, l).records == t.records by {
      hide AddEffect, DelEffect, RefillEffect, AddTarget, DelTarget, RefillTarget;
    }
    hide PartitionInv, OwnerInv, ValueInv, StoredValues, ListedValues, Apply;
    StepKeepsValues(w, s, l);
    hide Effect, Target, Enabled, Inv;
    ValuesLift(w, s, Effect(w, s, l), t, l.c);
  }

  lemma StepKeepsValues(w: World, s: State, l: Step)
    requires Wf(w) && w.rules.serial && LockInv(s) && RangeInv(w, s) && RefillInv(w, s)
    requires LocalInv(w, s, l.c) && Enabled(w, s, l)
    requires StoredValues(w, s) && ListedValues(w, s.At(l.c))
    ensures StoredValues(w, Effect(w, s, l)) && ListedValues(w, Target(w, s, l))
  {
    hide AddEffect, DelEffect, RefillEffect, AddTarget, DelTarget, RefillTarget, AddEnabled, DelEnabled, RefillEnabled;
    hide RangeInv, RefillInv, LockInv, Names, StoredValues;
    match l {
      case Add(c, x) => AddKeepsValues(w, s, c, x);
      case Del(c, x) => DelKeepsValues(w, s, c, x);
      case Refill(c, x) =>
        RefillInside(w, s, c, x);
        RefillingInside(w, s, c);
        RefillKeepsValues(w, s, c, x);
      case Abort(c) => SameValues(w, s, Effect(w, s, l));
    }
  }

  lemma SameValues(w: World, s: State, t: State)
    requires StoredValues(w, s) && t.pool == s.pool && t.records == s.records
    ensures StoredValues(w, t)
  {
  }

  // ---------------------------------------------------------------- ownership

  /** A step of `c` keeps what another container knows: nothing of its own changes, and a new port
      is not the one it is bound to. */
  ghost predicate Foreign(s: State, t: State, d: Container) {
    && (d in t.records <==> d in s.records) && (d in s.records ==> t.records[d] == s.records[d])
    && (d in t.results <==> d in s.results) && (d in s.results ==> t.results[d] == s.results[d])
    && (d in t.bindings <==> d in s.bindings) && (d in s.bindings ==> t.bindings[d] == s.bindings[d])
    && (forall a :: Hold(d, a) in t.held <==> Hold(d, a) in s.held)
    && (d in t.gone <==> d in s.gone)
    && s.nextPort <= t.nextPort && (forall p :: p in t.ports && p < s.nextPort ==> p in s.ports)
  }

  lemma AddForeign(w: World, s: State, c: Container, x: AddStep, d: Container)
    requires AddEnabled(w, s, c, x) && d != c
    ensures Foreign(s, AddEffect(w, s, c, x), d)
  {
  }

  lemma DelForeign(w: World, s: State, c: Container, x: DelStep, d: Container)
    requires DelEnabled(w, s, c, x) && d != c
    ensures Foreign(s, DelEffect(w, s, c, x), d)
  {
  }

  lemma RefillForeign(w: World, s: State, c: Container, x: RefillStep, d: Container)
    requires RefillEnabled(w, s, c, x)
    ensures Foreign(s, RefillEffect(w, s, c, x), d)
    ensures RefillEffect(w, s, c, x).ports == s.ports && RefillEffect(w, s, c, x).nextPort == s.nextPort
  {
  }

  lemma ForeignKeeps(w: World, s: State, t: State, d: Container)
    requires LocalInv(w, s, d) && Foreign(s, t, d) && t.At(d) == s.At(d)
    ensures LocalInv(w, t, d)
  {
  }

  ghost predicate PortsBelow(s: State) { forall p :: p in s.ports ==> p < s.nextPort }

  lemma ClaimKeepsOwner(w: World, s: State, c: Container, a: nat)
    requires AddEnabled(w, s, c, Claim(a)) && LocalInv(w, s, c) && PortsBelow(s) && ListedValues(w, s.At(c))
    ensures LocalAt(w, AddEffect(w, s, c, Claim(a)), c, AddTarget(w, s, c, Claim(a)))
    ensures PortsBelow(AddEffect(w, s, c, Claim(a)))
  {
    assert Names(w, a, s.At(c).left[a]);
  }

  lemma RecordKeepsOwner(w: World, s: State, c: Container, took: bool)
    requires w.rules.freshIds || w.rules.recordWrites
    requires AddEnabled(w, s, c, Record(took)) && LocalInv(w, s, c) && PortsBelow(s)
    ensures LocalAt(w, AddEffect(w, s, c, Record(took)), c, AddTarget(w, s, c, Record(took)))
    ensures PortsBelow(AddEffect(w, s, c, Record(took)))
  {
  }

  lemma BindKeepsOwner(w: World, s: State, c: Container)
    requires AddEnabled(w, s, c, Bind) && LocalInv(w, s, c) && PortsBelow(s)
    ensures LocalAt(w, AddEffect(w, s, c, Bind), c, AddTarget(w, s, c, Bind))
    ensures PortsBelow(AddEffect(w, s, c, Bind))
  {
  }

  lemma AddKeepsOwner(w: World, s: State, c: Container, x: AddStep)
    requires w.rules.freshIds || w.rules.recordWrites
    requires AddEnabled(w, s, c, x) && LocalInv(w, s, c) && PortsBelow(s)
    requires ListedValues(w, s.At(c))
    ensures LocalAt(w, AddEffect(w, s, c, x), c, AddTarget(w, s, c, x)) && PortsBelow(AddEffect(w, s, c, x))
  {
    match x
    case Claim(a) => ClaimKeepsOwner(w, s, c, a);
    case Record(took) => RecordKeepsOwner(w, s, c, took);
    case Bind => BindKeepsOwner(w, s, c);
    case Save(took) => SaveKeepsOwner(w, s, c, took);
    case BindFails(took) => BindFailsKeepsOwner(w, s, c, took);
    case _ => QuietAddKeepsOwner(w, s, c, x);
  }

  lemma SaveKeepsOwner(w: World, s: State, c: Container, took: bool)
    requires AddEnabled(w, s, c, Save(took)) && LocalInv(w, s, c) && PortsBelow(s)
    ensures LocalAt(w, AddEffect(w, s, c, Save(took)), c, AddTarget(w, s, c, Save(took)))
    ensures PortsBelow(AddEffect(w, s, c, Save(took)))
  {
  }

  lemma BindFailsKeepsOwner(w: World, s: State, c: Container, took: bool)
    requires AddEnabled(w, s, c, BindFails(took)) && LocalInv(w, s, c) && PortsBelow(s)
    ensures LocalAt(w, AddEffect(w, s, c, BindFails(took)), c, AddTarget(w, s, c, BindFails(took)))
    ensures PortsBelow(AddEffect(w, s, c, BindFails(took)))
  {
  }

  lemma QuietAddKeepsOwner(w: World, s: State, c: Container, x: AddStep)
    requires !x.Claim? && !x.Record? && !x.Bind? && !x.BindFails? && !x.Save?
    requires AddEnabled(w, s, c, x) && LocalInv(w, s, c) && PortsBelow(s)
    ensures LocalAt(w, AddEffect(w, s, c, x), c, AddTarget(w, s, c, x)) && PortsBelow(AddEffect(w, s, c, x))
  {
  }

  /** The first half of a DEL, up to the binding record. */
  predicate Detaching(x: DelStep) {
    x.DelStart? || x.ReadBinding? || x.PortOk? || x.PortFails? || x.DropBinding?
  }

  lemma FindKeepsOwner(w: World, s: State, c: Container, x: DelStep)
    requires (x.DelStart? || x.ReadBinding?) && DelEnabled(w, s, c, x) && LocalInv(w, s, c) && PortsBelow(s)
    ensures LocalAt(w, DelEffect(w, s, c, x), c, DelTarget(w, s, c, x)) && PortsBelow(DelEffect(w, s, c, x))
  {
  }

  lemma PortKeepsOwner(w: World, s: State, c: Container, x: DelStep)
    requires w.rules.portOnce && (x.PortOk? || x.PortFails?)
    requires DelEnabled(w, s, c, x) && LocalInv(w, s, c) && PortsBelow(s)
    ensures LocalAt(w, DelEffect(w, s, c, x), c, DelTarget(w, s, c, x)) && PortsBelow(DelEffect(w, s, c, x))
  {
  }

  lemma DropKeepsOwner(w: World, s: State, c: Container, took: bool)
    requires DelEnabled(w, s, c, DropBinding(took)) && LocalInv(w, s, c) && PortsBelow(s)
    ensures LocalAt(w, DelEffect(w, s, c, DropBinding(took)), c, DelTarget(w, s, c, DropBinding(took)))
    ensures PortsBelow(DelEffect(w, s, c, DropBinding(took)))
  {
  }

  lemma DetachKeepsOwner(w: World, s: State, c: Container, x: DelStep)
    requires w.rules.portOnce && Detaching(x) && DelEnabled(w, s, c, x) && LocalInv(w, s, c) && PortsBelow(s)
    ensures LocalAt(w, DelEffect(w, s, c, x), c, DelTarget(w, s, c, x)) && PortsBelow(DelEffect(w, s, c, x))
  {
    hide DelEnabled, DelEffect, DelTarget, LocalInv, LocalAt, PortsBelow;
    match x
    case DropBinding(took) => DropKeepsOwner(w, s, c, took);
    case DelStart(_) => FindKeepsOwner(w, s, c, x);
    case ReadBinding(_) => FindKeepsOwner(w, s, c, x);
    case _ => PortKeepsOwner(w, s, c, x);
  }

  lemma ReleaseKeepsOwner(w: World, s: State, c: Container, x: DelStep)
    requires !Detaching(x) && DelEnabled(w, s, c, x) && LocalInv(w, s, c) && PortsBelow(s)
    ensures LocalAt(w, DelEffect(w, s, c, x), c, DelTarget(w, s, c, x)) && PortsBelow(DelEffect(w, s, c, x))
  {
    hide SameNet;
  }

  lemma RefillKeepsOwner(w: World, s: State, c: Container, x: RefillStep)
    requires RefillEnabled(w, s, c, x) && LocalInv(w, s, c)
    ensures LocalAt(w, RefillEffect(w, s, c, x), c, RefillTarget(w, s, c, x))
  {
    RefillForeign(w, s, c, x, c);
    RefillStays(w, s, c, x);
    hide RefillEnabled, RefillEffect, RefillTarget, LocalInv, LocalAt, Foreign, Adding, Refiller;
    PlainKeeps(w, s, RefillEffect(w, s, c, x), c, RefillTarget(w, s, c, x));
  }

  /** Positions at which a command knows nothing of its own. */
  predicate Refiller(pc: Pc) {
    pc.Idle? || pc.Listing? || pc.WantLock? || pc.Recheck? || pc.Reading? || pc.Writing? || pc.Filling?
  }

  lemma RefillStays(w: World, s: State, c: Container, x: RefillStep)
    requires RefillEnabled(w, s, c, x)
    ensures Adding(s.At(c)) && Refiller(RefillTarget(w, s, c, x))
  {
    hide Next, Size;
  }

  lemma PlainKeeps(w: World, s: State, e: State, c: Container, pc: Pc)
    requires LocalInv(w, s, c) && Adding(s.At(c)) && Refiller(pc) && Foreign(s, e, c)
    ensures LocalAt(w, e, c, pc)
  {
  }

  lemma KeepsOwner(w: World, s: State, l: Step)
    requires Inv(w, s) && Sound(w.rules) && Enabled(w, s, l)
    ensures OwnerInv(w, Apply(w, s, l))
  {
    var t := Apply(w, s, l);
    OthersStay(w, s, l);
    assert LocalInv(w, s, l.c) && PortsBelow(s);
    assert ListedValues(w, s.At(l.c));
    OwnStep(w, s, l);
    hide Apply, Enabled, LocalInv, PartitionInv, RangeInv, RefillInv, LockInv, ValueInv, Foreign;
    forall d: Container ensures LocalInv(w, t, d) {
      assert LocalInv(w, s, d);
      if d != l.c {
        StepForeign(w, s, l, d);
        ForeignKeeps(w, s, t, d);
      }
    }
  }

  lemma StepForeign(w: World, s: State, l: Step, d: Container)
    requires Enabled(w, s, l) && l.c != d
    ensures Foreign(s, Apply(w, s, l), d)
  {
    var e, t := Effect(w, s, l), Apply(w, s, l);
    hide AddEffect, DelEffect, RefillEffect, AddTarget, DelTarget, RefillTarget, HeldBy;
    hide AddEnabled, DelEnabled, RefillEnabled;
    match l {
      case Add(c, x) => AddForeign(w, s, c, x, d);
      case Del(c, x) => DelForeign(w, s, c, x, d);
      case Refill(c, x) => RefillForeign(w, s, c, x, d);
      case Abort(c) =>
    }
    assert t == e.(pcs := t.pcs, lockers := t.lockers);
  }

  lemma LocalLift(w: World, e: State, t: State, c: Container, pc: Pc)
    requires LocalAt(w, e, c, pc) && PortsBelow(e) && t.At(c) == pc
    requires t == e.(pcs := t.pcs, lockers := t.lockers)
    ensures LocalInv(w, t, c) && PortsBelow(t)
  {
  }

  lemma AbortKeepsOwner(w: World, s: State, c: Container)
    requires LocalInv(w, s, c)
    ensures LocalAt(w, Effect(w, s, Abort(c)), c, Idle)
  {
  }

  lemma OwnStep(w: World, s: State, l: Step)
    requires Sound(w.rules) && Enabled(w, s, l) && LocalInv(w, s, l.c) && PortsBelow(s) && ListedValues(w, s.At(l.c))
    ensures LocalInv(w, Apply(w, s, l), l.c) && PortsBelow(Apply(w, s, l))
  {
    var e, t, pc := Effect(w, s, l), Apply(w, s, l), Target(w, s, l);
    OthersStay(w, s, l);
    hide AddEffect, DelEffect, RefillEffect, AddTarget, DelTarget, RefillTarget, AddEnabled, DelEnabled, RefillEnabled;
    assert t == e.(pcs := t.pcs, lockers := t.lockers);
    hide LocalInv, LocalAt, PortsBelow, Apply, ListedValues, InCs, Detaching;
    match l {
      case Add(c, x) => AddKeepsOwner(w, s, c, x);
      case Del(c, x) => if Detaching(x) { DetachKeepsOwner(w, s, c, x); } else { ReleaseKeepsOwner(w, s, c, x); }
      case Refill(c, x) => RefillKeepsOwner(w, s, c, x); RefillForeign(w, s, c, x, c);
      case Abort(c) => AbortKeepsOwner(w, s, c);
    }
    assert PortsBelow(e);
    LocalLift(w, e, t, l.c, pc);
  }

  // ---------------------------------------------------------------- all of it, over all runs

  lemma StepKeepsInv(w: World, s: State, l: Step)
    requires Inv(w, s) && Sound(w.rules) && Enabled(w, s, l)
    ensures Inv(w, Apply(w, s, l))
  {
    KeepsLock(w, s, l);
    KeepsRefill(w, s, l);
    KeepsPartition(w, s, l);
    KeepsValues(w, s, l);
    KeepsOwner(w, s, l);
  }

  lemma {:induction false} RunsKeepInv(w: World, s: State, ls: seq<Step>)
    requires Inv(w, s) && Sound(w.rules) && Exec(w, s, ls).Some?
    ensures Inv(w, Exec(w, s, ls).value)
    decreases |ls|
  {
    hide Inv, Apply, Enabled;
    if ls != [] {
      var k := |ls| - 1;
      RunsKeepInv(w, s, ls[..k]);
      StepKeepsInv(w, Exec(w, s, ls[..k]).value, ls[k]);
    }
  }
}
