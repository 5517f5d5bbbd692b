/** What a refill offers, and that an ADD which finds the pool empty always gets an address of the
    next range when nobody interferes and nothing fails. */
module TenantProgress {
  import opened Results
  import opened Addr
  import opened Tenant
  import opened TenantInv
  import opened TenantFree
  import opened TenantRuns

  // ---------------------------------------------------------------- what a range offers

  /** The pool a complete refill leaves. */
  function FillMap(r: Cidr): map<nat, Cidr>
    requires r.mask <= 32
  {
    map a | a in AllocFrom(r, r.ip) :: Cidr(a, r.mask)
  }

  /** What the fill loop has written when it stands at `at`. */
  function FilledTo(r: Cidr, at: nat): map<nat, Cidr>
    requires r.mask <= 32
  {
    map a | a in AllocFrom(r, r.ip) && a < at :: Cidr(a, r.mask)
  }

  lemma FilledEnds(r: Cidr)
    requires Aligned(r) && r.mask <= 30
    ensures FilledTo(r, r.ip + 2) == map[]
    ensures FilledTo(r, Last(r)) == FillMap(r)
    ensures FillMap(r).Keys == AllocFrom(r, r.ip)
  {
    hide Rem, Allocatable;
    AllocEnds(r);
    forall a | a in AllocFrom(r, r.ip) ensures a < Last(r) { assert a !in AllocFrom(r, Last(r)); }
  }

  lemma FilledStep(r: Cidr, v: nat)
    requires Aligned(r) && r.mask <= 30 && r.ip + 2 <= v < Last(r)
    ensures FilledTo(r, v + 1) == if v % 256 == 254 then FilledTo(r, v) else FilledTo(r, v)[v := Cidr(v, r.mask)]
  {
    hide Rem, Allocatable;
    AllocEnds(r);
    assert v in AllocFrom(r, r.ip) <==> v % 256 != 254;
  }

  /** A range offers nothing only if it is a /30 whose single candidate ends in .254. */
  lemma OffersSomething(r: Cidr)
    requires Aligned(r) && r.mask <= 30
    ensures FillMap(r) == map[] <==> r.mask == 30 && r.ip % 256 == 252
  {
    hide Rem, Allocatable;
    AllocEnds(r);
    SizeFacts(r.mask);
    assert FillMap(r).Keys == AllocFrom(r, r.ip);
    assert FillMap(r) == map[] <==> AllocFrom(r, r.ip) == {};
    hide FillMap;
    if r.mask <= 29 {
      AlignedTo8(r);
      assert r.ip + 2 in AllocFrom(r, r.ip);
    } else {
      TwoBelow(r.ip);
      assert r.ip % 256 != 252 ==> r.ip + 2 in AllocFrom(r, r.ip);
      AllocStep(r, r.ip + 2);
      assert AllocFrom(r, r.ip + 3) == {};
    }
  }

  lemma OffersAfter(prev: Cidr, g: Cidr)
    requires prev.mask <= 32 && Aligned(g) && g == After(prev) && g.mask <= 30
    ensures FillMap(g) == map[] ==> prev.mask == 30 && (prev.ip + 4) % 256 == 252
  {
    OffersSomething(g);
    SizeFacts(prev.mask);
    hide Pow2, Rem, Size, FillMap;
  }

  // ---------------------------------------------------------------- a command that runs alone

  /** A step of `c`'s allocation in which no operation fails. Exhausted is not a failing operation
      but the code's own verdict. */
  predicate Smooth(c: Container, l: Step) {
    l.c == c &&
    match l
    case Add(_, x) => x.List? || x.Claim? || x == Record(true) || x.Exhausted?
    case Refill(_, x) => !x.WriteFails? && (x.WriteRange? || x.Fill? ==> x.took)
    case _ => false
  }

  ghost predicate AllSmooth(c: Container, ls: seq<Step>) { forall l :: l in ls ==> Smooth(c, l) }

  /** Where such a command can be, with the pool empty and iprange at `prev` when it first listed the
      pool, and `g` the range after `prev`. */
  ghost predicate Phase(prev: Cidr, g: Cidr, s: State, c: Container)
    requires g.mask <= 30
  {
    && s.lockers == (if InCs(s.At(c)) then {c} else {})
    && match s.At(c)
       case Listing(again) =>
         if again then s.iprange == g && s.pool == FillMap(g) else s.iprange == prev && s.pool == map[]
       case WantLock => s.iprange == prev && s.pool == map[]
       case Recheck => s.iprange == prev && s.pool == map[]
       case Reading => s.iprange == prev && s.pool == map[]
       case Writing(next) => next == g && s.pool == map[]
       case Filling(range, at) =>
         range == g && s.iprange == g && g.ip + 2 <= at <= Last(g) && s.pool == FilledTo(g, at)
       case Trying(left) => s.iprange == g && s.pool == FillMap(g) && left == FillMap(g) && left != map[]
       case Claimed(v) => s.iprange == g && Got(g, s, c, v)
       case Binding(v) => s.iprange == g && Got(g, s, c, v) && Lookup(s.records, c) == Some(v)
       case Idle => s.iprange == g && s.pool == map[] && FillMap(g) == map[]
       case _ => false
  }

  /** `c` has got `v`, an address of `g`, and the rest of `g` is in the pool. */
  ghost predicate Got(g: Cidr, s: State, c: Container, v: Cidr)
    requires g.mask <= 30
  {
    v.ip in FillMap(g) && v == FillMap(g)[v.ip] && s.pool == FillMap(g) - {v.ip} && Hold(c, v.ip) in s.held
  }

  predicate Ended(pc: Pc) { pc.Binding? || pc.Idle? }

  /** An upper bound for the steps still to come. */
  function Left(g: Cidr, pc: Pc): nat
    requires g.mask <= 30
  {
    match pc
    case Listing(again) => if again then 3 else Size(g.mask) + 9
    case WantLock => Size(g.mask) + 8
    case Recheck => Size(g.mask) + 7
    case Reading => Size(g.mask) + 6
    case Writing(_) => Size(g.mask) + 5
    case Filling(_, at) => if at <= Last(g) then Last(g) - at + 4 else 0
    case Trying(_) => 2
    case Claimed(_) => 1
    case _ => 0
  }

  /** What a complete refill leaves names its keys, and none of them ends in .254. */
  ghost predicate WellNamed(g: Cidr)
    requires g.mask <= 30
  {
    forall a :: a in FillMap(g) ==> FillMap(g)[a].ip == a && a % 256 != 254
  }

  lemma AddPhase(w: World, prev: Cidr, g: Cidr, s: State, c: Container, x: AddStep)
    requires g.mask <= 30 && WellNamed(g)
    requires Phase(prev, g, s, c) && Smooth(c, Add(c, x)) && AddEnabled(w, s, c, x)
    ensures var t := Moved(AddEffect(w, s, c, x), c, AddTarget(w, s, c, x));
            Phase(prev, g, t, c) && Left(g, t.At(c)) < Left(g, s.At(c))
  {
    hide FillMap, Phase, Left, AddEnabled, AddEffect, AddTarget, WellNamed;
    match x
    case List =>
      if s.At(c) == Listing(false) { FirstListPhase(w, prev, g, s, c); } else { SecondListPhase(w, prev, g, s, c); }
    case Claim(a) => ClaimPhase(w, prev, g, s, c, a);
    case Record(_) => RecordPhase(w, prev, g, s, c);
    case Exhausted => NeverExhausted(w, prev, g, s, c);
  }

  lemma FirstListPhase(w: World, prev: Cidr, g: Cidr, s: State, c: Container)
    requires g.mask <= 30 && s.At(c) == Listing(false)
    requires Phase(prev, g, s, c) && AddEnabled(w, s, c, List)
    ensures var t := Moved(AddEffect(w, s, c, List), c, AddTarget(w, s, c, List));
            Phase(prev, g, t, c) && Left(g, t.At(c)) < Left(g, s.At(c))
  {
    assert s.pool == map[] && s.iprange == prev && s.Nodes() < 2;
    assert AddTarget(w, s, c, List) == WantLock && AddEffect(w, s, c, List) == s;
    hide AddTarget, AddEffect, AddEnabled, State.Nodes, Got, FillMap, FilledTo, Size, Next, Aligned, AllocFrom;
  }

  lemma SecondListPhase(w: World, prev: Cidr, g: Cidr, s: State, c: Container)
    requires g.mask <= 30 && s.At(c) != Listing(false)
    requires Phase(prev, g, s, c) && AddEnabled(w, s, c, List)
    ensures var t := Moved(AddEffect(w, s, c, List), c, AddTarget(w, s, c, List));
            Phase(prev, g, t, c) && Left(g, t.At(c)) < Left(g, s.At(c))
  {
    assert s.pool != map[] <==> s.Nodes() >= 2;
    hide State.Nodes, InCs, FillMap, FilledTo, Size, Next, Aligned, AllocFrom;
  }

  lemma ClaimPhase(w: World, prev: Cidr, g: Cidr, s: State, c: Container, a: nat)
    requires g.mask <= 30 && WellNamed(g)
    requires Phase(prev, g, s, c) && AddEnabled(w, s, c, Claim(a))
    ensures var t := Moved(AddEffect(w, s, c, Claim(a)), c, AddTarget(w, s, c, Claim(a)));
            Phase(prev, g, t, c) && Left(g, t.At(c)) < Left(g, s.At(c))
  {
    hide FillMap, FilledTo, Size, Next, Aligned, AllocFrom;
  }

  lemma RecordPhase(w: World, prev: Cidr, g: Cidr, s: State, c: Container)
    requires g.mask <= 30
    requires Phase(prev, g, s, c) && AddEnabled(w, s, c, Record(true))
    ensures var t := Moved(AddEffect(w, s, c, Record(true)), c, AddTarget(w, s, c, Record(true)));
            Phase(prev, g, t, c) && Left(g, t.At(c)) < Left(g, s.At(c))
  {
    hide FillMap, FilledTo, Size, Next, Aligned, AllocFrom;
  }

  lemma NeverExhausted(w: World, prev: Cidr, g: Cidr, s: State, c: Container)
    requires g.mask <= 30 && Phase(prev, g, s, c)
    ensures !AddEnabled(w, s, c, Exhausted)
  {
    hide FillMap, FilledTo, Size, Next, Aligned, AllocFrom;
  }

  lemma RefillPhase(w: World, prev: Cidr, g: Cidr, s: State, c: Container, x: RefillStep)
    requires g.mask <= 30 && Aligned(g) && Next(prev) == Ok(g)
    requires Phase(prev, g, s, c) && Smooth(c, Refill(c, x)) && RefillEnabled(w, s, c, x)
    ensures var t := Moved(RefillEffect(w, s, c, x), c, RefillTarget(w, s, c, x));
            Phase(prev, g, t, c) && Left(g, t.At(c)) < Left(g, s.At(c))
  {
    hide FillMap, FilledTo, Size, Next, Aligned, AllocFrom, Phase, Left, RefillEnabled, RefillEffect, RefillTarget;
    match x
    case Fill(a, _) => FillPhase(w, prev, g, s, c, x);
    case Skip => FillPhase(w, prev, g, s, c, x);
    case WriteRange(_) => WritePhase(w, prev, g, s, c);
    case Filled => FilledPhase(w, prev, g, s, c);
    case Lock => LockPhase(w, prev, g, s, c);
    case Empty => EmptyPhase(w, prev, g, s, c);
    case ReadRange => ReadPhase(w, prev, g, s, c);
    case Refilled => RecheckPhase(w, prev, g, s, c);
  }

  lemma FillPhase(w: World, prev: Cidr, g: Cidr, s: State, c: Container, x: RefillStep)
    requires g.mask <= 30 && Aligned(g) && (x.Skip? || (x.Fill? && x.took))
    requires Phase(prev, g, s, c) && RefillEnabled(w, s, c, x)
    ensures var t := Moved(RefillEffect(w, s, c, x), c, RefillTarget(w, s, c, x));
            Phase(prev, g, t, c) && Left(g, t.At(c)) < Left(g, s.At(c))
  {
    FilledStep(g, s.At(c).at);
    hide FillMap, FilledTo, Size, Next, Aligned, AllocFrom;
  }

  lemma WritePhase(w: World, prev: Cidr, g: Cidr, s: State, c: Container)
    requires g.mask <= 30 && Aligned(g)
    requires Phase(prev, g, s, c) && RefillEnabled(w, s, c, WriteRange(true))
    ensures var t := Moved(RefillEffect(w, s, c, WriteRange(true)), c, RefillTarget(w, s, c, WriteRange(true)));
            Phase(prev, g, t, c) && Left(g, t.At(c)) < Left(g, s.At(c))
  {
    SizeFacts(g.mask);
    FilledEnds(g);
    hide FillMap, FilledTo, Size, Next, Aligned, AllocFrom;
  }

  lemma FilledPhase(w: World, prev: Cidr, g: Cidr, s: State, c: Container)
    requires g.mask <= 30 && Aligned(g)
    requires Phase(prev, g, s, c) && RefillEnabled(w, s, c, Filled)
    ensures var t := Moved(RefillEffect(w, s, c, Filled), c, RefillTarget(w, s, c, Filled));
            Phase(prev, g, t, c) && Left(g, t.At(c)) < Left(g, s.At(c))
  {
    FilledEnds(g);
    hide FillMap, FilledTo, Size, Next, Aligned, AllocFrom;
  }

  lemma LockPhase(w: World, prev: Cidr, g: Cidr, s: State, c: Container)
    requires g.mask <= 30
    requires Phase(prev, g, s, c) && RefillEnabled(w, s, c, Lock)
    ensures var t := Moved(RefillEffect(w, s, c, Lock), c, RefillTarget(w, s, c, Lock));
            Phase(prev, g, t, c) && Left(g, t.At(c)) < Left(g, s.At(c))
  {
    hide FillMap, FilledTo, Size, Next, Aligned, AllocFrom;
  }

  lemma EmptyPhase(w: World, prev: Cidr, g: Cidr, s: State, c: Container)
    requires g.mask <= 30
    requires Phase(prev, g, s, c) && RefillEnabled(w, s, c, Empty)
    ensures var t := Moved(RefillEffect(w, s, c, Empty), c, RefillTarget(w, s, c, Empty));
            Phase(prev, g, t, c) && Left(g, t.At(c)) < Left(g, s.At(c))
  {
    hide FillMap, FilledTo, Size, Next, Aligned, AllocFrom;
  }

  lemma ReadPhase(w: World, prev: Cidr, g: Cidr, s: State, c: Container)
    requires g.mask <= 30 && Next(prev) == Ok(g)
    requires Phase(prev, g, s, c) && RefillEnabled(w, s, c, ReadRange)
    ensures var t := Moved(RefillEffect(w, s, c, ReadRange), c, RefillTarget(w, s, c, ReadRange));
            Phase(prev, g, t, c) && Left(g, t.At(c)) < Left(g, s.At(c))
  {
    hide FillMap, FilledTo, Size, Next, Aligned, AllocFrom;
  }

  /** The recheck finds the pool as empty as the first listing did. */
  lemma RecheckPhase(w: World, prev: Cidr, g: Cidr, s: State, c: Container)
    requires g.mask <= 30 && Phase(prev, g, s, c)
    ensures !RefillEnabled(w, s, c, Refilled)
  {
    hide FillMap, FilledTo, Size, Next, Aligned, AllocFrom;
  }

  // ---------------------------------------------------------------- always an address

  lemma AlwaysNamed(g: Cidr)
    requires g.mask <= 30
    ensures WellNamed(g)
  {
    hide Rem, Size;
  }

  lemma StepPhase(w: World, prev: Cidr, g: Cidr, s: State, c: Container, l: Step)
    requires Aligned(g) && g.mask <= 30 && Next(prev) == Ok(g)
    requires Phase(prev, g, s, c) && Smooth(c, l) && Enabled(w, s, l)
    ensures Phase(prev, g, Apply(w, s, l), c) && Left(g, Apply(w, s, l).At(c)) < Left(g, s.At(c))
  {
    hide Phase, Left, AddEnabled, RefillEnabled, AddEffect, RefillEffect, AddTarget, RefillTarget, Moved, Apply;
    match l {
      case Add(_, x) =>
        AlwaysNamed(g);
        AddPhase(w, prev, g, s, c, x);
        AddMoves(w, s, c, x);
      case Refill(_, x) =>
        RefillPhase(w, prev, g, s, c, x);
        RefillMoves(w, s, c, x);
    }
  }

  /** Until the command has ended, some step of it can be taken. */
  lemma SomeStep(w: World, prev: Cidr, g: Cidr, s: State, c: Container) returns (l: Step)
    requires Aligned(g) && g.mask <= 30 && Next(prev) == Ok(g) && (w.rules.bounded ==> g.ip > prev.ip)
    requires Phase(prev, g, s, c) && !Ended(s.At(c))
    ensures Smooth(c, l) && Enabled(w, s, l)
  {
    hide Size, Next, Aligned, AllocFrom, FillMap, FilledTo;
    match s.At(c) {
      case Listing(_) => l := Add(c, List);
      case Trying(left) =>
        var a :| a in left;
        l := Add(c, Claim(a));
      case Claimed(_) => l := Add(c, Record(true));
      case WantLock => l := Refill(c, Lock);
      case Recheck => l := Refill(c, Empty);
      case Reading => l := Refill(c, ReadRange);
      case Writing(_) => l := Refill(c, WriteRange(true));
      case Filling(range, at) =>
        l := if at == Last(range) then Refill(c, Filled)
        else if at % 256 == 254 then Refill(c, Skip) else Refill(c, Fill(at, true));
    }
  }

  lemma {:induction false} SmoothRun(w: World, prev: Cidr, g: Cidr, s: State, ls: seq<Step>, c: Container)
    requires Aligned(g) && g.mask <= 30 && Next(prev) == Ok(g)
    requires Phase(prev, g, s, c) && AllSmooth(c, ls) && Exec(w, s, ls).Some?
    ensures Phase(prev, g, Exec(w, s, ls).value, c)
    ensures |ls| + Left(g, Exec(w, s, ls).value.At(c)) <= Left(g, s.At(c))
    decreases |ls|
  {
    if ls == [] {
      assert Exec(w, s, ls) == Some(s);
    } else {
      ExecLast(w, s, ls);
      hide Exec, Enabled, Apply, Phase, Left, Smooth, Next, Aligned;
      var k := |ls| - 1;
      assert ls[k] in ls && forall l :: l in ls[..k] ==> l in ls;
      SmoothRun(w, prev, g, s, ls[..k], c);
      StepPhase(w, prev, g, Exec(w, s, ls[..k]).value, c, ls[k]);
    }
  }

  /** The state in which GetNewIP is about to find an empty pool, with room for one more range. */
  ghost predicate RunDry(r: Run, c: Container) {
    && r.Ok() && Init(r.w, r.from)
    && r.s.At(c) == Listing(false) && r.s.pool == map[] && r.s.lockers == {}
    && r.s.iprange.mask <= 32 && r.s.iprange.ip + Size(r.s.iprange.mask) < SPACE
  }

  /** From every state with an empty pool and nobody in the lock that is reachable under any rules, a
      GetNewIP that runs alone and meets no failure goes on through "CreateNewBridge" and the second
      GetNewIP, whichever candidates it picks: it never gets stuck, it ends after at most Size + 9 steps,
      and it ends with an address of the next range, recorded and held, exactly if that range offers any. */
  lemma {:induction false} ProgressAfterExhaustion(r: Run, ls: seq<Step>, t: State, c: Container)
    requires RunDry(r, c) && AllSmooth(c, ls) && Exec(r.w, r.s, ls) == Some(t)
    ensures After(r.s.iprange).mask <= 30
    ensures |ls| + Left(After(r.s.iprange), t.At(c)) <= Size(r.s.iprange.mask) + 9
    ensures !Ended(t.At(c)) ==> exists l :: Smooth(c, l) && Enabled(r.w, t, l)
    ensures var g := After(r.s.iprange);
            Ended(t.At(c)) ==>
              && t.iprange == g && t.lockers == {}
              && (t.At(c).Idle? <==> g.mask == 30 && g.ip % 256 == 252)
              && (t.At(c).Binding? ==> Got(g, t, c, t.At(c).v) && InRange(t.At(c).v.ip, g)
                                       && Lookup(t.records, c) == Some(t.At(c).v))
  {
    var g := After(r.s.iprange);
    DryPhase(r, c);
    hide *;
    SmoothRun(r.w, r.s.iprange, g, r.s, ls, c);
    if Ended(t.At(c)) { EndPhase(r.s.iprange, g, t, c); } else { var l := SomeStep(r.w, r.s.iprange, g, t, c); }
  }

  lemma DryPhase(r: Run, c: Container)
    requires RunDry(r, c)
    ensures After(r.s.iprange).mask <= 30 && Aligned(After(r.s.iprange)) && After(r.s.iprange).ip > r.s.iprange.ip
    ensures Next(r.s.iprange) == Ok(After(r.s.iprange)) && Phase(r.s.iprange, After(r.s.iprange), r.s, c)
    ensures Left(After(r.s.iprange), r.s.At(c)) == Size(r.s.iprange.mask) + 9
  {
    AlwaysFree(r.w, r.from, r.ls);
    NextFits(r.s.iprange);
    hide Exec, Init, Next, Size, Aligned, AllIn;
  }

  lemma EndPhase(prev: Cidr, g: Cidr, t: State, c: Container)
    requires Aligned(g) && g.mask <= 30 && Phase(prev, g, t, c) && Ended(t.At(c))
    ensures t.iprange == g && t.lockers == {}
    ensures t.At(c).Idle? <==> g.mask == 30 && g.ip % 256 == 252
    ensures t.At(c).Binding? ==> Got(g, t, c, t.At(c).v) && InRange(t.At(c).v.ip, g)
                                 && Lookup(t.records, c) == Some(t.At(c).v)
  {
    OffersSomething(g);
    FilledEnds(g);
    hide Aligned, Rem, Size, Allocatable;
  }

  /** Hence such a command can be run to its end. */
  lemma {:induction false} RunsToEnd(w: World, prev: Cidr, g: Cidr, s: State, c: Container)
    returns (ls: seq<Step>, t: State)
    requires Aligned(g) && g.mask <= 30 && Next(prev) == Ok(g) && (w.rules.bounded ==> g.ip > prev.ip)
    requires Phase(prev, g, s, c)
    ensures AllSmooth(c, ls) && Exec(w, s, ls) == Some(t) && Ended(t.At(c))
    decreases Left(g, s.At(c))
  {
    if Ended(s.At(c)) {
      ls, t := [], s;
    } else {
      hide Exec, Enabled, Apply, Phase, Left, Next, Aligned, Smooth;
      var l := SomeStep(w, prev, g, s, c);
      StepPhase(w, prev, g, s, c, l);
      ls, t := RunsToEnd(w, prev, g, Apply(w, s, l), c);
      ExecCons(w, s, l, ls);
      ls := [l] + ls;
    }
  }

  lemma {:induction false} ExecCons(w: World, s: State, l: Step, ls: seq<Step>)
    requires Enabled(w, s, l) && Exec(w, Apply(w, s, l), ls).Some?
    ensures Exec(w, s, [l] + ls) == Exec(w, Apply(w, s, l), ls)
    decreases |ls|
  {
    hide Enabled, Apply;
    if ls == [] {
      assert [l] + ls == [l] && [l][..0] == [];
      assert Exec(w, s, []) == Some(s);
    } else {
      var k := |ls| - 1;
      ExecCons(w, s, l, ls[..k]);
      assert ([l] + ls)[..k + 1] == [l] + ls[..k];
    }
  }
}
