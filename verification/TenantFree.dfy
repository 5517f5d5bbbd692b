/** What the tenant protocol keeps whatever the environment does: the code as it is, with any lock, lost
    writes, returning container ids and a space that wraps. */
module TenantFree {
  import opened Results
  import opened Addr
  import opened Tenant
  import opened TenantInv

  // ---------------------------------------------------------------- ranges

  /** A block with the tenant's mask; if the space does not wrap, one from the configured block on. */
  predicate OwnRange(w: World, r: Cidr) {
    Aligned(r) && r.mask == w.conf.mask && (w.rules.bounded ==> w.conf.ip <= r.ip)
  }

  /** What a command knows about the range it works on. */
  predicate PlainPc(w: World, ranges: seq<Cidr>, pc: Pc) {
    match pc
    case Writing(next) => OwnRange(w, next)
    case Filling(range, at) => OwnRange(w, range) && range.ip + 2 <= at && (w.rules.rangeWrites ==> range in ranges)
    case _ => true
  }

  ghost predicate Plain(w: World, s: State) {
    && Wf(w) && OwnRange(w, s.iprange)
    && |s.ranges| > 0 && (forall r :: r in s.ranges ==> OwnRange(w, r))
    && (forall c: Container :: PlainPc(w, s.ranges, s.At(c)))
  }

  /** The write of iprange takes effect. */
  predicate MovesRange(l: Step) {
    l.Refill? && (l.refill == WriteRange(true) || l.refill == WriteFails(true))
  }

  /** iprange and the ranges opened so far change only there. */
  lemma RangeChange(w: World, s: State, l: Step)
    requires Enabled(w, s, l)
    ensures MovesRange(l) ==> s.At(l.c).Writing?
    ensures var t, c := Apply(w, s, l), l.c;
            && t.iprange == (if MovesRange(l) then s.At(c).next else s.iprange)
            && t.ranges == (if MovesRange(l) then s.ranges + [s.At(c).next] else s.ranges)
  {
    hide AddTarget, DelTarget, RefillTarget, AddEffect, DelEffect, RefillEffect, AddEnabled, DelEnabled, RefillEnabled;
    match l {
      case Add(c, x) => AddFrame(w, s, c, x);
      case Del(c, x) => DelFrame(w, s, c, x);
      case Refill(c, x) => RefillChange(w, s, c, x);
      case Abort(_) =>
    }
  }

  lemma RefillChange(w: World, s: State, c: Container, x: RefillStep)
    requires RefillEnabled(w, s, c, x)
    ensures MovesRange(Refill(c, x)) ==> s.At(c).Writing?
    ensures var t, moves := RefillEffect(w, s, c, x), MovesRange(Refill(c, x));
            && t.iprange == (if moves then s.At(c).next else s.iprange)
            && t.ranges == (if moves then s.ranges + [s.At(c).next] else s.ranges)
  {
    hide AllocFrom, Size, Next;
  }

  /** Where a command gets its range from. */
  lemma RangeSource(w: World, s: State, l: Step)
    requires Enabled(w, s, l)
    ensures var pc, pc' := s.At(l.c), Target(w, s, l);
            && (pc'.Writing? ==> l.Refill? && l.refill.ReadRange? && Next(s.iprange) == Ok(pc'.next)
                                 && (w.rules.bounded ==> pc'.next.ip > s.iprange.ip))
            && (pc'.Filling? ==>
                  || (l.Refill? && l.refill.WriteRange? && pc.Writing? && pc'.range == pc.next
                      && pc'.at == pc.next.ip + 2 && (w.rules.rangeWrites ==> MovesRange(l)))
                  || (pc.Filling? && pc'.range == pc.range && pc'.at >= pc.at))
  {
    hide AllocFrom, Size, Next, SameNet;
  }

  lemma NextIsOwn(w: World, s: State)
    requires Wf(w) && OwnRange(w, s.iprange) && Next(s.iprange).Ok?
    requires w.rules.bounded ==> Next(s.iprange).value.ip > s.iprange.ip
    ensures OwnRange(w, Next(s.iprange).value)
  {
    NextCIDR(Some(s.iprange));
    hide GetNextCIDR, Rem, Size;
  }

  lemma KeepsPlain(w: World, s: State, l: Step)
    requires Plain(w, s) && Enabled(w, s, l)
    ensures Plain(w, Apply(w, s, l))
  {
    var t := Apply(w, s, l);
    OthersStay(w, s, l);
    RangeChange(w, s, l);
    assert PlainPc(w, s.ranges, s.At(l.c));
    hide Apply, Enabled, OwnRange;
    OwnPlain(w, s, l);
    forall c: Container ensures PlainPc(w, t.ranges, t.At(c)) { assert c != l.c ==> PlainPc(w, s.ranges, s.At(c)); }
  }

  lemma OwnPlain(w: World, s: State, l: Step)
    requires Wf(w) && OwnRange(w, s.iprange) && Enabled(w, s, l) && PlainPc(w, s.ranges, s.At(l.c))
    ensures PlainPc(w, Apply(w, s, l).ranges, Target(w, s, l))
  {
    RangeSource(w, s, l);
    RangeChange(w, s, l);
    hide Apply, Target, OwnRange, Next;
    if l.Refill? && l.refill.ReadRange? { ReadIsOwn(w, s, l.c); }
  }

  lemma ReadIsOwn(w: World, s: State, c: Container)
    requires Wf(w) && OwnRange(w, s.iprange) && RefillEnabled(w, s, c, ReadRange)
    ensures OwnRange(w, Next(s.iprange).value)
  {
    NextIsOwn(w, s);
  }

  // ---------------------------------------------------------------- addresses

  /** The value a command carries from one operation to the next. */
  function Carried(pc: Pc): Option<Cidr> {
    match pc
    case Claimed(v) => Some(v)
    case Binding(v) => Some(v)
    case Saving(v) => Some(v)
    case Releasing(v) => Some(v)
    case WantPut(v) => Some(v)
    case Putting(v) => Some(v)
    case _ => None
  }

  /** `v` has the tenant's mask and an address of `g`. */
  ghost predicate ValueIn(w: World, g: iset<nat>, v: Cidr) { v.mask == w.conf.mask && v.ip in g }

  /** The entries of a pool or of a listing name their keys and lie in `g`. */
  ghost predicate NodesIn(w: World, g: iset<nat>, m: map<nat, Cidr>) {
    forall a :: a in m ==> a in g && m[a] == Cidr(a, w.conf.mask)
  }

  ghost predicate ValuesIn(w: World, g: iset<nat>, m: map<Container, Cidr>) {
    forall c :: c in m ==> ValueIn(w, g, m[c])
  }

  ghost predicate PcIn(w: World, g: iset<nat>, pc: Pc) {
    && (pc.Trying? ==> NodesIn(w, g, pc.left))
    && (Carried(pc).Some? ==> ValueIn(w, g, Carried(pc).value))
  }

  ghost predicate StoreIn(w: World, g: iset<nat>, s: State) {
    && NodesIn(w, g, s.pool) && ValuesIn(w, g, s.records) && ValuesIn(w, g, s.results)
    && (forall h :: h in s.held ==> h.a in g)
    && (forall a :: a in s.lost ==> a in g) && (forall a :: a in s.pending ==> a in g)
  }

  /** Every address the tenant knows of, wherever it is, lies in `g`. */
  ghost predicate AllIn(w: World, g: iset<nat>, s: State) {
    StoreIn(w, g, s) && forall c: Container :: PcIn(w, g, s.At(c))
  }

  /** New addresses come only from a fill and from a write of iprange. */
  ghost predicate Brings(w: World, g: iset<nat>, s: State, l: Step) {
    && (l.Refill? && l.refill.Fill? && s.At(l.c).Filling? ==> l.refill.a in g && s.At(l.c).range.mask == w.conf.mask)
    && (MovesRange(l) && s.At(l.c).Writing? ==>
          forall a :: s.At(l.c).next.mask <= 32 && a in AllocFrom(s.At(l.c).next, s.At(l.c).next.ip) ==> a in g)
  }

  lemma AddIn(w: World, g: iset<nat>, s: State, c: Container, x: AddStep)
    requires AddEnabled(w, s, c, x) && StoreIn(w, g, s) && PcIn(w, g, s.At(c))
    ensures StoreIn(w, g, AddEffect(w, s, c, x)) && PcIn(w, g, AddTarget(w, s, c, x))
  {
    hide StoreIn, PcIn, AddEnabled, AddEffect, AddTarget;
    match x
    case Cached => CachedIn(w, g, s, c);
    case List => ListIn(w, g, s, c);
    case Claim(a) => ClaimIn(w, g, s, c, a);
    case Miss(a, took) => MissIn(w, g, s, c, a, took);
    case _ => CarryIn(w, g, s, c, x);
  }

  lemma CachedIn(w: World, g: iset<nat>, s: State, c: Container)
    requires AddEnabled(w, s, c, Cached) && StoreIn(w, g, s)
    ensures StoreIn(w, g, AddEffect(w, s, c, Cached)) && PcIn(w, g, AddTarget(w, s, c, Cached))
  {
  }

  lemma ListIn(w: World, g: iset<nat>, s: State, c: Container)
    requires AddEnabled(w, s, c, List) && StoreIn(w, g, s)
    ensures StoreIn(w, g, AddEffect(w, s, c, List)) && PcIn(w, g, AddTarget(w, s, c, List))
  {
    hide NodesIn;
  }

  lemma ClaimIn(w: World, g: iset<nat>, s: State, c: Container, a: nat)
    requires AddEnabled(w, s, c, Claim(a)) && StoreIn(w, g, s) && PcIn(w, g, s.At(c))
    ensures StoreIn(w, g, AddEffect(w, s, c, Claim(a))) && PcIn(w, g, AddTarget(w, s, c, Claim(a)))
  {
    hide ValuesIn;
  }

  lemma MissIn(w: World, g: iset<nat>, s: State, c: Container, a: nat, took: bool)
    requires AddEnabled(w, s, c, Miss(a, took)) && StoreIn(w, g, s) && PcIn(w, g, s.At(c))
    ensures StoreIn(w, g, AddEffect(w, s, c, Miss(a, took))) && PcIn(w, g, AddTarget(w, s, c, Miss(a, took)))
  {
    hide ValuesIn;
  }

  lemma CarryIn(w: World, g: iset<nat>, s: State, c: Container, x: AddStep)
    requires AddEnabled(w, s, c, x) && StoreIn(w, g, s) && PcIn(w, g, s.At(c))
    requires !x.Cached? && !x.List? && !x.Claim? && !x.Miss?
    ensures StoreIn(w, g, AddEffect(w, s, c, x)) && PcIn(w, g, AddTarget(w, s, c, x))
  {
    hide NodesIn, ValueIn;
  }

  lemma DelIn(w: World, g: iset<nat>, s: State, c: Container, x: DelStep)
    requires DelEnabled(w, s, c, x) && StoreIn(w, g, s) && PcIn(w, g, s.At(c))
    ensures StoreIn(w, g, DelEffect(w, s, c, x)) && PcIn(w, g, DelTarget(w, s, c, x))
  {
    hide StoreIn, PcIn, DelEnabled, DelEffect, DelTarget;
    match x
    case Put(a, took) => PutIn(w, g, s, c, a, took);
    case Forget(took) => ForgetIn(w, g, s, c, took);
    case _ => QuietDelIn(w, g, s, c, x);
  }

  lemma PutIn(w: World, g: iset<nat>, s: State, c: Container, a: nat, took: bool)
    requires DelEnabled(w, s, c, Put(a, took)) && StoreIn(w, g, s) && PcIn(w, g, s.At(c))
    ensures StoreIn(w, g, DelEffect(w, s, c, Put(a, took))) && PcIn(w, g, DelTarget(w, s, c, Put(a, took)))
  {
    hide ValuesIn;
  }

  lemma ForgetIn(w: World, g: iset<nat>, s: State, c: Container, took: bool)
    requires DelEnabled(w, s, c, Forget(took)) && StoreIn(w, g, s)
    ensures StoreIn(w, g, DelEffect(w, s, c, Forget(took))) && PcIn(w, g, DelTarget(w, s, c, Forget(took)))
  {
    hide NodesIn, ValueIn;
  }

  lemma QuietDelIn(w: World, g: iset<nat>, s: State, c: Container, x: DelStep)
    requires DelEnabled(w, s, c, x) && StoreIn(w, g, s) && PcIn(w, g, s.At(c)) && !x.Put? && !x.Forget?
    ensures StoreIn(w, g, DelEffect(w, s, c, x)) && PcIn(w, g, DelTarget(w, s, c, x))
  {
    hide NodesIn, ValueIn, SameNet;
  }

  lemma RefillIn(w: World, g: iset<nat>, s: State, c: Container, x: RefillStep)
    requires RefillEnabled(w, s, c, x) && StoreIn(w, g, s) && Brings(w, g, s, Refill(c, x))
    ensures StoreIn(w, g, RefillEffect(w, s, c, x)) && PcIn(w, g, RefillTarget(w, s, c, x))
  {
    RefillPcIn(w, g, s, c, x);
    hide StoreIn, PcIn, Brings, RefillEnabled, RefillEffect, RefillTarget;
    match x
    case Fill(a, took) => FillIn(w, g, s, c, a, took);
    case WriteRange(took) => OpenIn(w, g, s, c, x);
    case WriteFails(took) => OpenIn(w, g, s, c, x);
    case _ => QuietRefillIn(w, g, s, c, x);
  }

  lemma RefillPcIn(w: World, g: iset<nat>, s: State, c: Container, x: RefillStep)
    requires RefillEnabled(w, s, c, x)
    ensures PcIn(w, g, RefillTarget(w, s, c, x))
  {
    hide Next, Size, NodesIn, ValueIn;
  }

  lemma FillIn(w: World, g: iset<nat>, s: State, c: Container, a: nat, took: bool)
    requires RefillEnabled(w, s, c, Fill(a, took)) && StoreIn(w, g, s) && Brings(w, g, s, Refill(c, Fill(a, took)))
    ensures StoreIn(w, g, RefillEffect(w, s, c, Fill(a, took)))
  {
    hide ValuesIn, Size, AllocFrom;
  }

  lemma OpenIn(w: World, g: iset<nat>, s: State, c: Container, x: RefillStep)
    requires RefillEnabled(w, s, c, x) && StoreIn(w, g, s) && Brings(w, g, s, Refill(c, x))
    requires x.WriteRange? || x.WriteFails?
    ensures StoreIn(w, g, RefillEffect(w, s, c, x))
  {
    hide NodesIn, ValuesIn, Size, AllocFrom;
  }

  lemma QuietRefillIn(w: World, g: iset<nat>, s: State, c: Container, x: RefillStep)
    requires RefillEnabled(w, s, c, x) && StoreIn(w, g, s) && !x.Fill? && !x.WriteRange? && !x.WriteFails?
    ensures StoreIn(w, g, RefillEffect(w, s, c, x))
  {
    hide NodesIn, ValuesIn, Size, Next;
  }

  lemma KeepsIn(w: World, g: iset<nat>, s: State, l: Step)
    requires AllIn(w, g, s) && Enabled(w, s, l) && Brings(w, g, s, l)
    ensures AllIn(w, g, Apply(w, s, l))
  {
    var t := Apply(w, s, l);
    OthersStay(w, s, l);
    assert PcIn(w, g, s.At(l.c));
    hide PcIn, StoreIn, Brings, Apply;
    OwnIn(w, g, s, l);
    forall c: Container ensures PcIn(w, g, t.At(c)) { assert c != l.c ==> PcIn(w, g, s.At(c)); }
  }

  lemma OwnIn(w: World, g: iset<nat>, s: State, l: Step)
    requires Enabled(w, s, l) && StoreIn(w, g, s) && PcIn(w, g, s.At(l.c)) && Brings(w, g, s, l)
    ensures StoreIn(w, g, Apply(w, s, l)) && PcIn(w, g, Target(w, s, l))
  {
    EffectIn(w, g, s, l);
    StoreSame(w, g, Effect(w, s, l), Apply(w, s, l));
  }

  lemma EffectIn(w: World, g: iset<nat>, s: State, l: Step)
    requires Enabled(w, s, l) && StoreIn(w, g, s) && PcIn(w, g, s.At(l.c)) && Brings(w, g, s, l)
    ensures StoreIn(w, g, Effect(w, s, l)) && PcIn(w, g, Target(w, s, l))
  {
    hide AddTarget, DelTarget, RefillTarget, AddEffect, DelEffect, RefillEffect, AddEnabled, DelEnabled, RefillEnabled;
    hide Brings, NodesIn, ValuesIn;
    match l {
      case Add(c, x) => AddIn(w, g, s, c, x);
      case Del(c, x) => DelIn(w, g, s, c, x);
      case Refill(c, x) => RefillIn(w, g, s, c, x);
      case Abort(_) =>
    }
  }

  lemma StoreSame(w: World, g: iset<nat>, s: State, t: State)
    requires StoreIn(w, g, s) && t == s.(pcs := t.pcs, lockers := t.lockers)
    ensures StoreIn(w, g, t)
  {
    hide NodesIn, ValuesIn;
  }

  lemma InMore(w: World, g: iset<nat>, g': iset<nat>, s: State)
    requires AllIn(w, g, s) && forall a :: a in g ==> a in g'
    ensures AllIn(w, g', s)
  {
    forall c: Container ensures PcIn(w, g', s.At(c)) { assert PcIn(w, g, s.At(c)); }
  }

  // ---------------------------------------------------------------- over all runs

  /** The addresses a tenant may offer at all. */
  ghost function Offerable(w: World): iset<nat>
    requires w.conf.mask <= 32
  {
    iset a: nat | Allocatable(w.conf.mask, a) && (w.rules.bounded ==> w.conf.ip <= a)
  }

  ghost predicate FreeInv(w: World, s: State) { Plain(w, s) && AllIn(w, Offerable(w), s) }

  lemma InitFree(w: World, s: State)
    requires Init(w, s)
    ensures FreeInv(w, s)
  {
    hide Rem, Allocatable, Size;
  }

  lemma BringsOfferable(w: World, s: State, l: Step)
    requires Plain(w, s) && Enabled(w, s, l)
    ensures Brings(w, Offerable(w), s, l)
  {
    assert PlainPc(w, s.ranges, s.At(l.c));
    hide Plain, Enabled;
    if l.Refill? && l.refill.Fill? { FillIsOfferable(w, s, l.c, l.refill.a, l.refill.took) by { FillPart(w, s, l); } }
    if MovesRange(l) && s.At(l.c).Writing? { RangeIsOfferable(w, s.At(l.c).next); }
    hide Offerable, AllocFrom, OwnRange;
  }

  lemma FillPart(w: World, s: State, l: Step)
    requires Enabled(w, s, l) && l.Refill?
    ensures RefillEnabled(w, s, l.c, l.refill)
  {
  }

  lemma FillIsOfferable(w: World, s: State, c: Container, a: nat, took: bool)
    requires Wf(w) && RefillEnabled(w, s, c, Fill(a, took)) && PlainPc(w, s.ranges, s.At(c))
    ensures a in Offerable(w) && s.At(c).range.mask == w.conf.mask
  {
    AllocEnds(s.At(c).range);
    hide Rem, Allocatable, AllocFrom;
  }

  lemma RangeIsOfferable(w: World, r: Cidr)
    requires Wf(w) && OwnRange(w, r)
    ensures forall a :: a in AllocFrom(r, r.ip) ==> a in Offerable(w)
  {
    hide Rem, Allocatable;
  }

  lemma KeepsFree(w: World, s: State, l: Step)
    requires FreeInv(w, s) && Enabled(w, s, l)
    ensures FreeInv(w, Apply(w, s, l))
  {
    KeepsPlain(w, s, l);
    BringsOfferable(w, s, l);
    hide Plain, Apply, Enabled, AllIn, Brings;
    KeepsIn(w, Offerable(w), s, l);
  }

  /** In every run, under any rules: the ranges are aligned blocks with the tenant's mask, and every
      address anywhere is one that a block of the tenant's may offer. */
  lemma {:induction false} AlwaysFree(w: World, s: State, ls: seq<Step>)
    requires Init(w, s) && Exec(w, s, ls).Some?
    ensures FreeInv(w, Exec(w, s, ls).value)
    decreases |ls|
  {
    if ls == [] {
      InitFree(w, s);
    } else {
      ExecLast(w, s, ls);
      hide Exec, Init, FreeInv, Enabled, Apply;
      AlwaysFree(w, s, ls[..|ls| - 1]);
      KeepsFree(w, Exec(w, s, ls[..|ls| - 1]).value, ls[|ls| - 1]);
    }
  }

  /** Some range opened so far has `a`. */
  predicate InOpened(s: State, a: nat) {
    exists i :: 0 <= i < |s.ranges| && s.ranges[i].mask <= 32 && InRange(a, s.ranges[i])
  }

  ghost function Opened(s: State): iset<nat> { iset a: nat | InOpened(s, a) }

  lemma InitOpened(w: World, s: State)
    requires Init(w, s)
    ensures AllIn(w, Opened(s), s)
  {
    hide Rem, Allocatable, Size;
    assert s.ranges[0] == w.conf;
  }

  lemma BringsOpened(w: World, s: State, l: Step)
    requires Plain(w, s) && w.rules.rangeWrites && Enabled(w, s, l)
    ensures Brings(w, Opened(Apply(w, s, l)), s, l)
    ensures forall a :: a in Opened(s) ==> a in Opened(Apply(w, s, l))
  {
    var t := Apply(w, s, l);
    RangeChange(w, s, l);
    assert forall i :: 0 <= i < |s.ranges| ==> t.ranges[i] == s.ranges[i];
    assert PlainPc(w, s.ranges, s.At(l.c));
    hide Plain, Apply, Allocatable, Size;
    if l.Refill? && l.refill.Fill? { FillIsOpened(w, s, l.c, l.refill.a, l.refill.took); }
    if MovesRange(l) && s.At(l.c).Writing? {
      assert t.ranges[|s.ranges|] == s.At(l.c).next;
    }
  }

  lemma FillIsOpened(w: World, s: State, c: Container, a: nat, took: bool)
    requires RefillEnabled(w, s, c, Fill(a, took)) && PlainPc(w, s.ranges, s.At(c)) && w.rules.rangeWrites
    ensures a in Opened(s) && s.At(c).range.mask == w.conf.mask
  {
    hide Size;
    var i :| 0 <= i < |s.ranges| && s.ranges[i] == s.At(c).range;
    assert InRange(a, s.ranges[i]);
  }

  /** If iprange writes are not lost, every address anywhere lies in a range opened so far. */
  lemma {:induction false} AlwaysOpened(w: World, s: State, ls: seq<Step>)
    requires Init(w, s) && w.rules.rangeWrites && Exec(w, s, ls).Some?
    ensures AllIn(w, Opened(Exec(w, s, ls).value), Exec(w, s, ls).value)
    decreases |ls|
  {
    if ls == [] {
      InitOpened(w, s);
    } else {
      ExecLast(w, s, ls);
      var k := |ls| - 1;
      var u, l := Exec(w, s, ls[..k]).value, ls[k];
      AlwaysFree(w, s, ls[..k]);
      assert Plain(w, u);
      hide Exec, Init, FreeInv, Plain, Enabled, Apply, AllIn, Opened, Brings;
      AlwaysOpened(w, s, ls[..k]);
      BringsOpened(w, u, l);
      InMore(w, Opened(u), Opened(Apply(w, u, l)), u);
      KeepsIn(w, Opened(Apply(w, u, l)), u, l);
    }
  }

  // ---------------------------------------------------------------- what a DEL knows

  /** A DEL that deletes a port has it from the binding, and one that releases an address has it from
      the record. */
  predicate Tracked(s: State, c: Container, pc: Pc) {
    && (pc.Porting? ==> Lookup(s.bindings, c) == Some(pc.p))
    && (pc.Releasing? || pc.WantPut? || pc.Putting? ==> Lookup(s.records, c) == Some(pc.v))
    && (c in s.bindings ==> s.bindings[c] < s.nextPort)
  }

  ghost predicate Tracks(s: State) { PortsBelow(s) && forall c: Container :: Tracked(s, c, s.At(c)) }

  lemma AddTracked(w: World, s: State, c: Container, x: AddStep)
    requires AddEnabled(w, s, c, x) && PortsBelow(s) && Tracked(s, c, s.At(c))
    ensures PortsBelow(AddEffect(w, s, c, x)) && Tracked(AddEffect(w, s, c, x), c, AddTarget(w, s, c, x))
  {
  }

  lemma DelTracked(w: World, s: State, c: Container, x: DelStep)
    requires DelEnabled(w, s, c, x) && PortsBelow(s) && Tracked(s, c, s.At(c))
    ensures PortsBelow(DelEffect(w, s, c, x)) && Tracked(DelEffect(w, s, c, x), c, DelTarget(w, s, c, x))
  {
    hide SameNet, HeldBy;
  }

  lemma RefillTracked(w: World, s: State, c: Container, x: RefillStep)
    requires RefillEnabled(w, s, c, x) && PortsBelow(s) && Tracked(s, c, s.At(c))
    ensures PortsBelow(RefillEffect(w, s, c, x)) && Tracked(RefillEffect(w, s, c, x), c, RefillTarget(w, s, c, x))
  {
    hide AllocFrom, Size, Next;
  }

  lemma OwnTracked(w: World, s: State, l: Step)
    requires Enabled(w, s, l) && PortsBelow(s) && Tracked(s, l.c, s.At(l.c))
    ensures PortsBelow(Apply(w, s, l)) && Tracked(Apply(w, s, l), l.c, Target(w, s, l))
  {
    hide AddTarget, DelTarget, RefillTarget, AddEffect, DelEffect, RefillEffect, AddEnabled, DelEnabled, RefillEnabled;
    match l {
      case Add(c, x) => AddTracked(w, s, c, x);
      case Del(c, x) => DelTracked(w, s, c, x);
      case Refill(c, x) => RefillTracked(w, s, c, x);
      case Abort(_) =>
    }
  }

  lemma ForeignTracked(s: State, t: State, d: Container)
    requires Tracked(s, d, s.At(d)) && Foreign(s, t, d) && t.At(d) == s.At(d)
    ensures Tracked(t, d, t.At(d))
  {
  }

  lemma KeepsTracks(w: World, s: State, l: Step)
    requires Tracks(s) && Enabled(w, s, l)
    ensures Tracks(Apply(w, s, l))
  {
    var t := Apply(w, s, l);
    OthersStay(w, s, l);
    OwnTracked(w, s, l);
    hide Apply, Enabled, Tracked, Foreign, PortsBelow;
    forall d: Container ensures Tracked(t, d, t.At(d)) {
      if d != l.c {
        StepForeign(w, s, l, d);
        ForeignTracked(s, t, d);
      }
    }
  }

  /** In every run, under any rules. */
  lemma {:induction false} AlwaysTracks(w: World, s: State, ls: seq<Step>)
    requires Init(w, s) && Exec(w, s, ls).Some?
    ensures Tracks(Exec(w, s, ls).value)
    decreases |ls|
  {
    if ls != [] {
      ExecLast(w, s, ls);
      hide Exec, Init, Tracks, Enabled, Apply;
      AlwaysTracks(w, s, ls[..|ls| - 1]);
      KeepsTracks(w, Exec(w, s, ls[..|ls| - 1]).value, ls[|ls| - 1]);
    }
  }

  // ---------------------------------------------------------------- ranges that only grow

  /** With exclusion and without a wrap, the ranges follow each other without gap, and the refill in
      progress works on the next one. */
  ghost predicate Growing(w: World, s: State) {
    && Wf(w) && LockInv(s) && RangeInv(w, s)
    && (forall c: Container :: s.At(c).Writing? ==> s.At(c).next == After(s.iprange) && Aligned(s.At(c).next))
  }

  lemma KeepsGrowing(w: World, s: State, l: Step)
    requires w.rules.serial && w.rules.bounded && Growing(w, s) && Enabled(w, s, l)
    ensures Growing(w, Apply(w, s, l))
  {
    KeepsLock(w, s, l);
    RangeChange(w, s, l);
    OthersStay(w, s, l);
    OwnWriting(w, s, l);
    hide Apply, Enabled, Aligned, Size;
    if MovesRange(l) { MoverIsAlone(s, l.c); }
  }

  lemma OwnWriting(w: World, s: State, l: Step)
    requires w.rules.bounded && Wf(w) && RangeInv(w, s) && Enabled(w, s, l)
    ensures var pc := Target(w, s, l); pc.Writing? ==> !MovesRange(l) && pc.next == After(s.iprange) && Aligned(pc.next)
  {
    RangeSource(w, s, l);
    hide Enabled, Target;
    if l.Refill? && l.refill.ReadRange? && Next(s.iprange).Ok? && Next(s.iprange).value.ip > s.iprange.ip {
      NextIsAfter(w, s);
    }
  }

  lemma MoverIsAlone(s: State, c: Container)
    requires LockInv(s) && s.At(c).Writing?
    ensures forall d: Container :: d != c ==> !s.At(d).Writing?
  {
    assert c in s.lockers;
    forall d: Container | s.At(d).Writing? ensures d == c { assert d in s.lockers; }
  }

  /** Exclusion keeps the lock's bookkeeping, whatever else happens. */
  lemma {:induction false} AlwaysLocked(w: World, s: State, ls: seq<Step>)
    requires Init(w, s) && w.rules.serial && Exec(w, s, ls).Some?
    ensures LockInv(Exec(w, s, ls).value)
    decreases |ls|
  {
    if ls != [] {
      ExecLast(w, s, ls);
      hide Exec, Init, LockInv, Enabled, Apply;
      AlwaysLocked(w, s, ls[..|ls| - 1]);
      KeepsLock(w, Exec(w, s, ls[..|ls| - 1]).value, ls[|ls| - 1]);
    }
  }

  /** With exclusion and without a wrap, in every run. */
  lemma {:induction false} AlwaysGrowing(w: World, s: State, ls: seq<Step>)
    requires Init(w, s) && w.rules.serial && w.rules.bounded && Exec(w, s, ls).Some?
    ensures Growing(w, Exec(w, s, ls).value)
    decreases |ls|
  {
    if ls != [] {
      ExecLast(w, s, ls);
      hide Exec, Init, Growing, Enabled, Apply;
      AlwaysGrowing(w, s, ls[..|ls| - 1]);
      KeepsGrowing(w, Exec(w, s, ls[..|ls| - 1]).value, ls[|ls| - 1]);
    }
  }
}
