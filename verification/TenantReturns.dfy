/** Where an address goes back to. ReleaseIP compares it with the iprange it read before it waited for
    the lock, so by the time it is put back the tenant may have moved on. */
module TenantReturns {
  import opened Results
  import opened Addr
  import opened Tenant
  import opened TenantInv
  import opened TenantFree
  import opened TenantRuns
  import opened TenantTheorems
  import opened TenantLife

  // ---------------------------------------------------------------- a return that comes too late

  /** Whatever the environment guarantees, an address can go back to the pool after its range has been
      left: a refill fits between the reading of iprange and the lock. */
  lemma LateReturn(rules: Rules) returns (r: Run, a: nat)
    ensures r.Ok() && Init(r.w, r.from) && r.w.rules == rules
    ensures r.ls != [] && r.ls[|r.ls| - 1] == Del(1, Put(a, true))
    ensures r.s.iprange.mask <= 32 && a in r.s.pool && !InRange(a, r.s.iprange)
  {
    hide Exec, Init, Next, AllocFrom, Enabled, SameNet, Apply, Effect, Target;
    a := NET.ip + 2;
    r := MovedOn(rules);
    r := TakesLock(r, 1);
    r := Puts(r, 1);
  }

  /** Meanwhile container 2 has opened the next range. */
  lemma MovedOn(rules: Rules) returns (r: Run)
    ensures r.Ok() && Init(r.w, r.from) && r.w.rules == rules && r.s.lockers == {}
    ensures r.s.At(1) == WantPut(Cidr(NET.ip + 2, 29)) && r.s.iprange == Cidr(NET.ip + 8, 29)
  {
    hide Exec, Init, Next, AllocFrom, Size, Enabled, SameNet, Apply, Effect, Target;
    NetFacts();
    r := ReadAndWait(rules);
    r := BeginRefill(r, 2);
    r := FillOne(r, 2, true);
  }

  /** Container 1 has taken the only address of the pool, and its DEL has read iprange. */
  lemma ReadAndWait(rules: Rules) returns (r: Run)
    ensures r.Ok() && Init(r.w, r.from) && r.w.rules == rules
    ensures r.s.At(1) == WantPut(Cidr(NET.ip + 2, 29)) && Ready(r, 2)
    ensures r.s.iprange == NET && r.s.pool == map[] && r.s.lockers == {}
  {
    hide Exec, Init, Next, AllocFrom, Size, Enabled, SameNet, Apply, Effect, Target;
    NetFacts();
    r := Unbound(rules);
    r := ReadsRecord(r, 1);
    r := ReadsNet(r, 1);
  }

  /** Its port is gone. */
  lemma Unbound(rules: Rules) returns (r: Run)
    ensures r.Ok() && Init(r.w, r.from) && r.w.rules == rules
    ensures r.s.At(1).ReadingRecord? && Lookup(r.s.records, 1) == Some(Cidr(NET.ip + 2, 29)) && Ready(r, 2)
    ensures r.s.iprange == NET && r.s.pool == map[] && r.s.lockers == {}
  {
    hide Exec, Init, Next, AllocFrom, Size, Enabled, SameNet, Apply, Effect, Target;
    r := TakeOnly(rules);
    r := Attach(r, 1, true);
    r := DetachPort(r, 1, true);
  }

  lemma TakeOnly(rules: Rules) returns (r: Run)
    ensures r.Ok() && Init(r.w, r.from) && r.w.rules == rules
    ensures r.s.At(1) == Claimed(Cidr(NET.ip + 2, 29)) && Ready(r, 2) && r.s.bindings == map[]
    ensures r.s.iprange == NET && r.s.pool == map[] && r.s.lockers == {} && r.s.ports == {}
  {
    hide Exec, Init, Next, AllocFrom, Size, Enabled, SameNet, Apply, Effect, Target;
    NetFacts();
    r := Begin(rules, {2});
    r := Take(r, 1, NET.ip + 2);
  }

  // ---------------------------------------------------------------- exactly when a return is in time

  /** iprange is written only inside the lock: a caller that held the lock from its reading of iprange to
      its insertion would always return in time. */
  lemma {:induction false} MovesInside(w: World, s: State, ls: seq<Step>, t: State, l: Step)
    requires Init(w, s) && w.rules.serial && Exec(w, s, ls) == Some(t) && Enabled(w, t, l) && MovesRange(l)
    ensures t.lockers == {l.c}
  {
    AlwaysLocked(w, s, ls);
    RangeChange(w, t, l);
    hide Exec, Init, Enabled;
    assert l.c in t.lockers;
  }

  /** A step leaves iprange alone, or moves it up by a whole range. */
  lemma RangeStep(w: World, s: State, l: Step)
    requires w.rules.bounded && Growing(w, s) && Enabled(w, s, l)
    ensures var t := Apply(w, s, l); t.iprange == if MovesRange(l) then After(s.iprange) else s.iprange
  {
    RangeChange(w, s, l);
    hide Apply, Enabled, MovesRange, LockInv, RangeInv, Aligned, Size;
  }

  /** No write of iprange takes effect in the run. */
  ghost predicate Stays(ls: seq<Step>) { forall l :: l in ls ==> !MovesRange(l) }

  /** Over a run, iprange stays where it is exactly if no write of it took effect, and moves up otherwise. */
  lemma {:induction false} RangeOverRun(w: World, s: State, ls: seq<Step>)
    requires w.rules.serial && w.rules.bounded && Growing(w, s) && Exec(w, s, ls).Some?
    ensures var t := Exec(w, s, ls).value;
            Growing(w, t) && if Stays(ls) then t.iprange == s.iprange else t.iprange.ip > s.iprange.ip
    decreases |ls|
  {
    if ls == [] {
      assert Exec(w, s, ls) == Some(s);
    } else {
      ExecLast(w, s, ls);
      hide Exec, Enabled, Apply, Growing, MovesRange;
      var k := |ls| - 1;
      var u := Exec(w, s, ls[..k]).value;
      RangeOverRun(w, s, ls[..k]);
      RangeStep(w, u, ls[k]);
      KeepsGrowing(w, u, ls[k]);
      StaysSnoc(ls);
      AfterIsUp(w, u);
    }
  }

  lemma {:induction false} StaysSnoc(ls: seq<Step>)
    requires ls != []
    ensures Stays(ls) <==> Stays(ls[..|ls| - 1]) && !MovesRange(ls[|ls| - 1])
  {
    hide MovesRange;
    assert forall l :: l in ls <==> l in ls[..|ls| - 1] || l == ls[|ls| - 1];
  }

  lemma AfterIsUp(w: World, s: State)
    requires Growing(w, s)
    ensures After(s.iprange).ip > s.iprange.ip
  {
    SizeFacts(s.iprange.mask);
    hide Size;
  }

  /** A DEL between its reading of iprange and its insertion. */
  predicate Waiting(pc: Pc) { pc.WantPut? || pc.Putting? }

  lemma WaitEdge(w: World, u: State, l: Step, c: Container)
    requires Enabled(w, u, l) && Waiting(Apply(w, u, l).At(c))
    ensures var pc, pc' := u.At(c), Apply(w, u, l).At(c);
            || (l == Del(c, ReadNet) && pc.Releasing? && pc.v == pc'.v && pc.v.mask <= 32 && u.iprange.mask <= 32
                && SameNet(u.iprange, pc.v))
            || (Waiting(pc) && pc.v == pc'.v && (l.c == c ==> l == Del(c, LockPut)))
  {
    OthersStay(w, u, l);
    hide AddEnabled, RefillEnabled, AddTarget, RefillTarget, Apply, SameNet;
    if l.c == c {
      match l {
        case Add(_, x) => AddIsElsewhere(w, u, c, x);
        case Refill(_, x) => RefillIsElsewhere(w, u, c, x);
        case Del(_, x) =>
        case Abort(_) =>
      }
    }
  }

  /** Where the command that waits at the end of the run read iprange. */
  ghost predicate ReadAt(w: World, s: State, ls: seq<Step>, c: Container, i: nat, v: Cidr)
    requires i < |ls|
  {
    && ls[i] == Del(c, ReadNet) && Exec(w, s, ls[..i]).Some?
    && var u := Exec(w, s, ls[..i]).value;
    && v.mask <= 32 && u.iprange.mask <= 32 && SameNet(u.iprange, v)
  }

  lemma {:induction false} ReadNetBefore(w: World, s: State, ls: seq<Step>, c: Container, v: Cidr) returns (i: nat)
    requires Exec(w, s, ls).Some? && !Waiting(s.At(c))
    requires Waiting(Exec(w, s, ls).value.At(c)) && Exec(w, s, ls).value.At(c).v == v
    ensures i < |ls| && ReadAt(w, s, ls, c, i, v)
    ensures forall k :: i < k < |ls| && ls[k].c == c ==> ls[k] == Del(c, LockPut)
    decreases |ls|
  {
    hide *;
    var n, waits := WaitsBefore(w, s, ls, c, v);
    if waits {
      i := ReadNetBefore(w, s, ls[..n], c, v);
      ReadAtLonger(w, s, ls, n, c, i, v);
      assert forall k :: i < k < n ==> ls[..n][k] == ls[k];
    } else {
      i := n;
    }
  }

  lemma {:induction false} WaitsBefore(w: World, s: State, ls: seq<Step>, c: Container, v: Cidr)
    returns (n: nat, waits: bool)
    requires Exec(w, s, ls).Some? && !Waiting(s.At(c))
    requires Waiting(Exec(w, s, ls).value.At(c)) && Exec(w, s, ls).value.At(c).v == v
    ensures |ls| == n + 1 && Exec(w, s, ls[..n]).Some?
    ensures !waits ==> ReadAt(w, s, ls, c, n, v)
    ensures var pc := Exec(w, s, ls[..n]).value.At(c);
            waits ==> Waiting(pc) && pc.v == v && (ls[n].c == c ==> ls[n] == Del(c, LockPut))
  {
    assert ls == [] ==> Exec(w, s, ls) == Some(s);
    n := |ls| - 1;
    ExecLast(w, s, ls);
    var u := Exec(w, s, ls[..n]).value;
    WaitEdge(w, u, ls[n], c);
    hide Exec, Enabled, Apply, SameNet;
    waits := Waiting(u.At(c)) && u.At(c).v == v && (ls[n].c == c ==> ls[n] == Del(c, LockPut));
  }

  lemma {:induction false} ReadAtLonger(w: World, s: State, ls: seq<Step>, n: nat, c: Container, i: nat, v: Cidr)
    requires i < n <= |ls| && ReadAt(w, s, ls[..n], c, i, v)
    ensures ReadAt(w, s, ls, c, i, v)
  {
    hide Exec, SameNet;
    assert ls[..n][..i] == ls[..i];
  }

  /** Two ranges of the tenant, one further up than the other, share no address. */
  lemma UpIsElsewhere(w: World, u: State, t: State, v: Cidr)
    requires Growing(w, u) && Growing(w, t) && v.mask <= 32 && u.iprange.mask <= 32 && SameNet(u.iprange, v)
    requires t.iprange == u.iprange || t.iprange.ip > u.iprange.ip
    ensures t.iprange.mask <= 32 && (InRange(v.ip, t.iprange) <==> t.iprange == u.iprange)
  {
    SameNetIsMembership(u.iprange, v);
    hide Rem, Size, SameNet, LockInv;
    if t.iprange.ip > u.iprange.ip { Apart(u.iprange.ip, t.iprange.ip, Size(w.conf.mask)); }
  }

  /** Without a write iprange stays where it is, under any rules. */
  lemma {:induction false} StaysPut(w: World, s: State, ls: seq<Step>)
    requires Exec(w, s, ls).Some? && Stays(ls)
    ensures Exec(w, s, ls).value.iprange == s.iprange
    decreases |ls|
  {
    if ls != [] {
      ExecLast(w, s, ls);
      StaysSnoc(ls);
      hide Exec, Enabled, Apply, MovesRange, Stays;
      var k := |ls| - 1;
      StaysPut(w, s, ls[..k]);
      RangeChange(w, Exec(w, s, ls[..k]).value, ls[k]);
    } else {
      assert Exec(w, s, ls) == Some(s);
    }
  }

  /** What the DEL compared lies in the range that iprange named. */
  lemma ReadInRange(w: World, u: State, v: Cidr)
    requires FreeInv(w, u) && v.mask <= 32 && u.iprange.mask <= 32 && SameNet(u.iprange, v)
    ensures InRange(v.ip, u.iprange)
  {
    SameNetIsMembership(u.iprange, v);
    hide SameNet, Aligned, AllIn;
  }

  /** The address that a DEL puts back is in the range that iprange names then if no write of iprange
      took effect between the reading of iprange by this command and its insertion, whatever the
      environment does; if refills are serialised and the space does not wrap, exactly then. */
  lemma {:induction false} ReturnsInTime(w: World, s: State, ls: seq<Step>, j: nat, c: Container, a: nat)
    returns (i: nat, t: State)
    requires Init(w, s) && Exec(w, s, ls).Some?
    requires j < |ls| && ls[j] == Del(c, Put(a, true))
    ensures i < j && ls[i] == Del(c, ReadNet)
    ensures forall k :: i < k < j && ls[k].c == c ==> ls[k] == Del(c, LockPut)
    ensures Exec(w, s, ls[..j + 1]) == Some(t) && a in t.pool && t.iprange.mask <= 32
    ensures Stays(ls[i..j]) ==> InRange(a, t.iprange)
    ensures w.rules.serial && w.rules.bounded && InRange(a, t.iprange) ==> Stays(ls[i..j])
  {
    hide Exec, Init, FreeInv, Enabled, Apply, Waiting, SameNet, MovesRange, Stays, InRange;
    EnabledAt(w, s, ls, j);
    var p, v := Exec(w, s, ls[..j]).value, Cidr(a, w.conf.mask);
    AlwaysFree(w, s, ls[..j]);
    PutWaits(w, s, p, c, a);
    i := ReadNetBefore(w, s, ls[..j], c, v);
    assert ls[..j][..i] == ls[..i] && ls[..j][i..] == ls[i..j];
    ExecSplit(w, s, ls[..j], i);
    StillThere(w, s, ls[..i], ls[i..j], v);
    t := Apply(w, p, ls[j]);
    ExecSnoc(w, s, ls[..j], ls[j]);
    assert ls[..j] + [ls[j]] == ls[..j + 1];
    PutPuts(w, p, c, a);
    MaskOf(w, p);
  }

  lemma MaskOf(w: World, p: State)
    requires FreeInv(w, p)
    ensures p.iprange.mask <= 32
  {
  }

  /** From a reading of iprange that named the range of `v` to any later state. */
  lemma {:induction false} StillThere(w: World, s: State, before: seq<Step>, ls: seq<Step>, v: Cidr)
    requires Init(w, s) && Exec(w, s, before).Some? && Exec(w, Exec(w, s, before).value, ls).Some?
    requires v.mask <= 32 && Exec(w, s, before).value.iprange.mask <= 32
    requires SameNet(Exec(w, s, before).value.iprange, v)
    ensures var p := Exec(w, Exec(w, s, before).value, ls).value;
            p.iprange.mask <= 32 ==>
              && (Stays(ls) ==> InRange(v.ip, p.iprange))
              && (w.rules.serial && w.rules.bounded && InRange(v.ip, p.iprange) ==> Stays(ls))
  {
    hide Exec, Init, FreeInv, Growing, SameNet, MovesRange, Stays, InRange;
    var u := Exec(w, s, before).value;
    var p := Exec(w, u, ls).value;
    if Stays(ls) {
      AlwaysFree(w, s, before);
      StaysPut(w, u, ls);
      ReadInRange(w, u, v);
    } else if w.rules.serial && w.rules.bounded {
      AlwaysGrowing(w, s, before);
      RangeOverRun(w, u, ls);
      RangeStays(u, p);
      UpIsElsewhere(w, u, p, v);
    }
  }

  lemma RangeStays(u: State, p: State)
    ensures p.iprange.ip > u.iprange.ip ==> p.iprange != u.iprange
  {
  }

  lemma PutWaits(w: World, s: State, p: State, c: Container, a: nat)
    requires Init(w, s) && FreeInv(w, p) && Enabled(w, p, Del(c, Put(a, true)))
    ensures !Waiting(s.At(c)) && Waiting(p.At(c)) && p.At(c).v == Cidr(a, w.conf.mask)
  {
    assert PcIn(w, Offerable(w), p.At(c));
    hide AllIn, Plain, Offerable;
  }

  lemma PutPuts(w: World, p: State, c: Container, a: nat)
    requires Enabled(w, p, Del(c, Put(a, true)))
    ensures var t := Apply(w, p, Del(c, Put(a, true))); a in t.pool && t.iprange == p.iprange
  {
  }
}
