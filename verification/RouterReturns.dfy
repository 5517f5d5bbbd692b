/** Where a router address goes back to. Like ReleaseIP, ReleaseRouterIP reads iprange before it waits
    for the lock. */
module RouterReturns {
  import opened Results
  import opened Addr
  import opened RouterRuns

  // ---------------------------------------------------------------- a return that comes too late

  /** Whatever the environment guarantees, an address can go back to the pool after its range has been
      left. */
  lemma LateReturn(rules: Rules) returns (r: Run, v: Cidr)
    ensures r.Ok() && r.rules == rules && r.ls != [] && r.ls[|r.ls| - 1] == Put(2, true) && v.ip in r.s.nodes
    ensures r.s.iprange.Some? && r.s.iprange.value.mask <= 32 && !InRange(v.ip, r.s.iprange.value)
  {
    var conf := Pool();
    PoolFacts(conf);
    v := Cidr(conf.ip + 2, 24);
    hide *;
    r := FirstPair(conf, rules);
    BareStore(r.s, conf);
    r := GiveAndJudge(r, conf, v);
    r := MoveOnAndPut(r, conf, v);
  }

  lemma MoveOnAndPut(r: Run, g: Cidr, v: Cidr) returns (r': Run)
    requires r.Ok() && r.s.At(1).Outside? && r.s.iprange == Some(g) && r.s.nodes == map[] && r.s.lockers == {}
    requires Aligned(g) && g.mask <= 30 && Succ(g).ip > v.ip >= g.ip && r.s.At(2) == WantPut(v)
    ensures r'.Ok() && r'.rules == r.rules && |r'.ls| > 0 && r'.ls[|r'.ls| - 1] == Put(2, true)
    ensures r'.s.iprange.Some? && r'.s.iprange.value.mask <= 32 && v.ip in r'.s.nodes
    ensures !InRange(v.ip, r'.s.iprange.value)
  {
    SuccMask(g);
    hide Exec, Enabled, Apply, Succ, Aligned, Size;
    r' := NextBeside(r, g);
    r' := PutLate(r', v);
  }

  lemma PoolFacts(conf: Cidr)
    requires Aligned(conf) && conf == Cidr(0xAC10_0000, 24)
    ensures Succ(conf) == Cidr(conf.ip + 256, 24) && Aligned(Succ(conf)) && Size(24) == 256
    ensures SameNet(conf, Cidr(conf.ip + 2, 24)) && Contains(PairOf(conf), conf.ip + 2)
  {
    hide Rem, Pow2;
    Pow2Constants();
    assert Size(24) == 256;
    SuccIsNext(conf);
    SameNetIsMembership(conf, Cidr(conf.ip + 2, 24));
    assert PairOf(conf)[0].ip == conf.ip + 2;
  }

  lemma BareStore(s: State, g: Cidr)
    requires Bare(s, g)
    ensures s.iprange == Some(g) && s.nodes == map[] && s.lockers == {} && s.At(1).Outside? && s.At(2).Outside?
  {
  }

  /** Process 2 gives back `v` and finds it in the current range. */
  lemma GiveAndJudge(r: Run, g: Cidr, v: Cidr) returns (r': Run)
    requires r.Ok() && r.s.At(2).Outside? && r.s.log == [Got(PairOf(g))] && Contains(PairOf(g), v.ip)
    requires r.s.lockers == {}
    requires v.mask == r.conf.mask <= 32 && g.mask <= 32 && r.s.iprange == Some(g) && SameNet(g, v)
    ensures r'.Ok() && r'.conf == r.conf && r'.rules == r.rules
    ensures r'.s == r.s.(pcs := r.s.pcs[2 := WantPut(v)])
    ensures r'.s.At(1) == r.s.At(1) && r'.s.At(2) == WantPut(v)
  {
    hide Exec, SameNet, PairOf, Contains;
    assert r.s.log[0].Got? && Contains(r.s.log[0].ips, v.ip);
    r' := Then(r, Give(2, v));
    r' := Then(r', Judge(2));
  }

  /** Process 1 opens the next range meanwhile. */
  lemma NextBeside(r: Run, g: Cidr) returns (r': Run)
    requires r.Ok() && r.s.At(1).Outside? && r.s.iprange == Some(g) && r.s.nodes == map[] && r.s.lockers == {}
    requires Aligned(g) && g.mask <= 30 && Succ(g).ip > g.ip
    ensures r'.Ok() && r'.conf == r.conf && r'.rules == r.rules
    ensures r'.s.iprange == Some(Succ(g)) && r'.s.lockers == {} && r'.s.At(2) == r.s.At(2)
  {
    SuccIsNext(g);
    SuccMask(g);
    hide Exec, Succ, Aligned, PairOf, Enabled, Apply;
    r' := AskBeside(r, g);
    r' := BareRefresh(r', 1, true);
  }

  lemma AskBeside(r: Run, g: Cidr) returns (r': Run)
    requires r.Ok() && r.s.At(1).Outside? && r.s.iprange == Some(g) && r.s.nodes == map[] && r.s.lockers == {}
    requires Aligned(g) && Succ(g).ip > g.ip
    ensures r'.Ok() && r'.conf == r.conf && r'.rules == r.rules
    ensures r'.s == r.s.(pcs := r.s.pcs[1 := Writing(Succ(g))], lockers := {1})
  {
    hide Exec, Succ, Aligned;
    r' := Then(r, Enter(1));
    r' := Then(r', List(1));
    r' := Then(r', ReadRange(1));
  }

  lemma PutLate(r: Run, v: Cidr) returns (r': Run)
    requires r.Ok() && r.s.At(2) == WantPut(v) && r.s.lockers == {}
    ensures r'.Ok() && r'.conf == r.conf && r'.rules == r.rules && |r'.ls| > 0 && r'.ls[|r'.ls| - 1] == Put(2, true)
    ensures r'.s.iprange == r.s.iprange && v.ip in r'.s.nodes
  {
    hide Exec;
    r' := Then(r, Lock(2));
    r' := Then(r', Put(2, true));
  }

  // ---------------------------------------------------------------- exactly when a return is in time

  /** The write of iprange takes effect. */
  predicate MovesRange(l: Step) { (l.WriteRange? || l.WriteFails?) && l.took }

  /** No write of iprange takes effect. */
  ghost predicate Stays(ls: seq<Step>) { forall l :: l in ls ==> !MovesRange(l) }

  /** iprange of `t` is that of `s`, or a range further up. */
  predicate Same(s: State, t: State) { t.iprange == s.iprange }

  predicate Up(s: State, t: State) {
    s.iprange.Some? && t.iprange.Some? && t.iprange.value.ip > s.iprange.value.ip
  }

  /** A block of the configured size. */
  predicate Block(conf: Cidr, r: Cidr) { Aligned(r) && r.mask == conf.mask }

  predicate BlockPc(conf: Cidr, pc: Pc) {
    match pc
    case Writing(next) => Block(conf, next)
    case Judging(v) => v.mask == conf.mask
    case WantPut(v) => v.mask == conf.mask
    case Putting(v) => v.mask == conf.mask
    case _ => true
  }

  /** Every range is such a block, and so is the mask of what is given back. */
  ghost predicate Blocks(conf: Cidr, s: State) {
    (s.iprange.Some? ==> Block(conf, s.iprange.value)) && forall p: Proc :: BlockPc(conf, s.At(p))
  }

  /** iprange changes only by a write, and only to what the writer is about to write. */
  lemma RangeChange(conf: Cidr, rules: Rules, s: State, l: Step)
    requires Enabled(conf, rules, s, l)
    ensures MovesRange(l) ==> s.At(l.p).Writing?
    ensures Apply(conf, rules, s, l).iprange == if MovesRange(l) then Some(s.At(l.p).next) else s.iprange
  {
    hide SameNet, Given, Succ, Size, PairOf, State.Count, Aligned;
  }

  lemma OwnBlock(conf: Cidr, rules: Rules, s: State, l: Step)
    requires Aligned(conf) && Enabled(conf, rules, s, l) && BlockPc(conf, s.At(l.p))
    requires s.iprange.Some? ==> Block(conf, s.iprange.value)
    ensures BlockPc(conf, Apply(conf, rules, s, l).At(l.p))
  {
    if l.ReadRange? { SuccIsNext(s.iprange.value); }
    hide SameNet, Given, Size, PairOf, State.Count, Aligned;
  }

  lemma KeepsBlocks(conf: Cidr, rules: Rules, s: State, l: Step)
    requires Aligned(conf) && Blocks(conf, s) && Enabled(conf, rules, s, l)
    ensures Blocks(conf, Apply(conf, rules, s, l))
  {
    var t := Apply(conf, rules, s, l);
    OthersStay(conf, rules, s, l);
    assert BlockPc(conf, s.At(l.p));
    hide Apply, Enabled, Block;
    RangeChange(conf, rules, s, l);
    OwnBlock(conf, rules, s, l);
    forall p: Proc ensures BlockPc(conf, t.At(p)) { assert p != l.p ==> BlockPc(conf, s.At(p)); }
  }

  lemma {:induction false} AlwaysBlocks(conf: Cidr, rules: Rules, ls: seq<Step>)
    requires Aligned(conf) && Exec(conf, rules, ls).Some?
    ensures Blocks(conf, Exec(conf, rules, ls).value)
    decreases |ls|
  {
    if ls != [] {
      LastStep(conf, rules, ls);
      hide Exec, Enabled, Apply, Blocks;
      AlwaysBlocks(conf, rules, ls[..|ls| - 1]);
      KeepsBlocks(conf, rules, Exec(conf, rules, ls[..|ls| - 1]).value, ls[|ls| - 1]);
    }
  }

  /** With exclusion and without a wrap, whoever is about to write iprange moves it up. */
  ghost predicate Upward(s: State) {
    && LockInv(s)
    && forall p: Proc :: s.At(p).Writing? && s.iprange.Some? ==> s.At(p).next.ip > s.iprange.value.ip
  }

  lemma OwnUpward(conf: Cidr, rules: Rules, s: State, l: Step)
    requires rules.bounded && Enabled(conf, rules, s, l)
    ensures var t := Apply(conf, rules, s, l);
            t.At(l.p).Writing? && t.iprange.Some? ==> t.At(l.p).next.ip > t.iprange.value.ip
  {
    hide SameNet, Given, Size, PairOf, Aligned, Succ;
  }

  lemma KeepsUpward(conf: Cidr, rules: Rules, s: State, l: Step)
    requires rules.serial && rules.bounded && Upward(s) && Enabled(conf, rules, s, l)
    ensures Upward(Apply(conf, rules, s, l))
  {
    OthersStay(conf, rules, s, l);
    LockKeeps(conf, rules, s, l);
    RangeChange(conf, rules, s, l);
    OwnUpward(conf, rules, s, l);
    hide Apply, Enabled, LockInv, MovesRange;
  }

  lemma {:induction false} AlwaysUpward(conf: Cidr, rules: Rules, ls: seq<Step>)
    requires rules.serial && rules.bounded && Exec(conf, rules, ls).Some?
    ensures Upward(Exec(conf, rules, ls).value)
    decreases |ls|
  {
    if ls != [] {
      LastStep(conf, rules, ls);
      hide Exec, Enabled, Apply, Upward;
      AlwaysUpward(conf, rules, ls[..|ls| - 1]);
      KeepsUpward(conf, rules, Exec(conf, rules, ls[..|ls| - 1]).value, ls[|ls| - 1]);
    }
  }

  lemma {:induction false} LastStep(conf: Cidr, rules: Rules, ls: seq<Step>)
    requires Exec(conf, rules, ls).Some? && ls != []
    ensures var k := |ls| - 1;
            && Exec(conf, rules, ls[..k]).Some? && Enabled(conf, rules, Exec(conf, rules, ls[..k]).value, ls[k])
            && Exec(conf, rules, ls).value == Apply(conf, rules, Exec(conf, rules, ls[..k]).value, ls[k])
  {
    hide Enabled, Apply;
  }

  /** All states a run passes through are states of its prefixes. */
  lemma {:induction false} Prefix(conf: Cidr, rules: Rules, ls: seq<Step>, i: nat)
    requires Exec(conf, rules, ls).Some? && i <= |ls|
    ensures Exec(conf, rules, ls[..i]).Some?
    ensures i < |ls| ==> Enabled(conf, rules, Exec(conf, rules, ls[..i]).value, ls[i])
    decreases |ls|
  {
    hide Enabled, Apply;
    if i == |ls| {
      assert ls[..i] == ls;
    } else {
      LastStep(conf, rules, ls);
      var k := |ls| - 1;
      Prefix(conf, rules, ls[..k], i);
      assert ls[..k][..i] == ls[..i] && (i < k ==> ls[..k][i] == ls[i]);
    }
  }

  /** From any point of a run on, iprange stays where it is without a write of it, and with one it moves
      up if the lock excludes and the space does not wrap. */
  lemma {:induction false} RangeSince(conf: Cidr, rules: Rules, ls: seq<Step>, i: nat)
    requires Exec(conf, rules, ls).Some? && i <= |ls|
    requires Exec(conf, rules, ls[..i]).Some? && Exec(conf, rules, ls[..i]).value.iprange.Some?
    ensures var s, t := Exec(conf, rules, ls[..i]).value, Exec(conf, rules, ls).value;
            && t.iprange.Some? && (Stays(ls[i..]) ==> Same(s, t))
            && (rules.serial && rules.bounded && !Stays(ls[i..]) ==> Up(s, t))
    decreases |ls|
  {
    hide Exec, Enabled, Apply, MovesRange, LockInv;
    if i == |ls| {
      assert ls[..i] == ls && ls[i..] == [];
    } else {
      LastStep(conf, rules, ls);
      var k := |ls| - 1;
      assert ls[..k][..i] == ls[..i] && ls[..k][i..] == ls[i..][..k - i] && ls[i..][k - i] == ls[k];
      RangeSince(conf, rules, ls[..k], i);
      if rules.serial && rules.bounded { AlwaysUpward(conf, rules, ls[..k]); }
      RangeChange(conf, rules, Exec(conf, rules, ls[..k]).value, ls[k]);
      StaysSnoc(ls[i..]);
    }
  }

  lemma {:induction false} StaysSnoc(ls: seq<Step>)
    requires ls != []
    ensures Stays(ls) <==> Stays(ls[..|ls| - 1]) && !MovesRange(ls[|ls| - 1])
  {
    hide MovesRange;
    assert forall l :: l in ls <==> l in ls[..|ls| - 1] || l == ls[|ls| - 1];
  }

  /** A return between its reading of iprange and its insertion. */
  predicate Waiting(pc: Pc) { pc.WantPut? || pc.Putting? }

  lemma WaitEdge(conf: Cidr, rules: Rules, u: State, l: Step, p: Proc)
    requires Enabled(conf, rules, u, l) && Waiting(Apply(conf, rules, u, l).At(p))
    ensures var pc, pc' := u.At(p), Apply(conf, rules, u, l).At(p);
            || (l == Judge(p) && pc.Judging? && pc.v == pc'.v && pc.v.mask <= 32
                && u.iprange.Some? && u.iprange.value.mask <= 32 && SameNet(u.iprange.value, pc.v))
            || (Waiting(pc) && pc.v == pc'.v && (l.p == p ==> l == Lock(p)))
  {
    hide SameNet, Given, Aligned, Succ, Size;
  }

  /** Where the return that waits at the end of the run read iprange. */
  ghost predicate ReadAt(conf: Cidr, rules: Rules, ls: seq<Step>, p: Proc, i: nat, v: Cidr)
    requires i < |ls|
  {
    && ls[i] == Judge(p) && Exec(conf, rules, ls[..i]).Some?
    && var u := Exec(conf, rules, ls[..i]).value;
    && v.mask <= 32 && u.iprange.Some? && u.iprange.value.mask <= 32 && SameNet(u.iprange.value, v)
  }

  lemma {:induction false} JudgeBefore(conf: Cidr, rules: Rules, ls: seq<Step>, p: Proc, v: Cidr) returns (i: nat)
    requires Exec(conf, rules, ls).Some?
    requires Waiting(Exec(conf, rules, ls).value.At(p)) && Exec(conf, rules, ls).value.At(p).v == v
    ensures i < |ls| && ReadAt(conf, rules, ls, p, i, v)
    ensures forall k :: i < k < |ls| && ls[k].p == p ==> ls[k] == Lock(p)
    decreases |ls|
  {
    hide *;
    var n, waits := WaitsBefore(conf, rules, ls, p, v);
    if waits {
      i := JudgeBefore(conf, rules, ls[..n], p, v);
      ReadAtLonger(conf, rules, ls, n, p, i, v);
      assert forall k :: i < k < n ==> ls[..n][k] == ls[k];
    } else {
      i := n;
    }
  }

  lemma {:induction false} WaitsBefore(conf: Cidr, rules: Rules, ls: seq<Step>, p: Proc, v: Cidr)
    returns (n: nat, waits: bool)
    requires Exec(conf, rules, ls).Some?
    requires Waiting(Exec(conf, rules, ls).value.At(p)) && Exec(conf, rules, ls).value.At(p).v == v
    ensures |ls| == n + 1 && Exec(conf, rules, ls[..n]).Some?
    ensures !waits ==> ReadAt(conf, rules, ls, p, n, v)
    ensures var pc := Exec(conf, rules, ls[..n]).value.At(p);
            waits ==> Waiting(pc) && pc.v == v && (ls[n].p == p ==> ls[n] == Lock(p))
  {
    assert ls == [] ==> Exec(conf, rules, ls) == Some(START);
    n := |ls| - 1;
    LastStep(conf, rules, ls);
    var u := Exec(conf, rules, ls[..n]).value;
    WaitEdge(conf, rules, u, ls[n], p);
    hide Exec, Enabled, Apply, SameNet;
    waits := Waiting(u.At(p)) && u.At(p).v == v && (ls[n].p == p ==> ls[n] == Lock(p));
  }

  lemma {:induction false} ReadAtLonger(conf: Cidr, rules: Rules, ls: seq<Step>, n: nat, p: Proc, i: nat, v: Cidr)
    requires i < n <= |ls| && ReadAt(conf, rules, ls[..n], p, i, v)
    ensures ReadAt(conf, rules, ls, p, i, v)
  {
    hide Exec, SameNet;
    assert ls[..n][..i] == ls[..i];
  }

  lemma UpIsElsewhere(conf: Cidr, u: State, t: State, v: Cidr)
    requires Blocks(conf, u) && Blocks(conf, t) && (Same(u, t) || Up(u, t))
    requires v.mask <= 32 && u.iprange.Some? && u.iprange.value.mask <= 32 && SameNet(u.iprange.value, v)
    ensures t.iprange.Some? && t.iprange.value.mask <= 32 && (InRange(v.ip, t.iprange.value) <==> Same(u, t))
  {
    SameNetIsMembership(u.iprange.value, v);
    hide Rem, Size, SameNet;
    if Up(u, t) { Apart(u.iprange.value.ip, t.iprange.value.ip, Size(conf.mask)); }
  }

  /** The address that ReleaseRouterIP puts back is in the range that iprange names then if no write of
      iprange took effect between the reading of iprange by this call and its insertion, whatever the
      environment does; if the lock excludes and the space does not wrap, exactly then. */
  lemma {:induction false} ReturnsInTime(conf: Cidr, rules: Rules, ls: seq<Step>, j: nat, p: Proc)
    returns (i: nat, v: Cidr, t: State)
    requires Aligned(conf) && Exec(conf, rules, ls).Some? && j < |ls| && ls[j] == Put(p, true)
    ensures i < j && ls[i] == Judge(p)
    ensures forall k :: i < k < j && ls[k].p == p ==> ls[k] == Lock(p)
    ensures Exec(conf, rules, ls[..j + 1]) == Some(t) && v.ip in t.nodes
    ensures t.log != [] && t.log[|t.log| - 1] == Returned(v.ip)
    ensures t.iprange.Some? && t.iprange.value.mask <= 32
    ensures Stays(ls[i..j]) ==> InRange(v.ip, t.iprange.value)
    ensures rules.serial && rules.bounded && InRange(v.ip, t.iprange.value) ==> Stays(ls[i..j])
  {
    hide Exec, Blocks, Enabled, Apply, Waiting, SameNet, MovesRange, Stays, InRange;
    Prefix(conf, rules, ls, j);
    var s := Exec(conf, rules, ls[..j]).value;
    v := PutWaits(conf, rules, s, p);
    i := JudgeBefore(conf, rules, ls[..j], p, v);
    assert ls[..j][..i] == ls[..i] && ls[..j][i..] == ls[i..j];
    var u := Exec(conf, rules, ls[..i]).value;
    AlwaysBlocks(conf, rules, ls[..j]);
    AlwaysBlocks(conf, rules, ls[..i]);
    RangeSince(conf, rules, ls[..j], i);
    BlockMask(conf, s);
    if Same(u, s) || Up(u, s) { UpIsElsewhere(conf, u, s, v); }
    UpIsNotSame(u, s);
    Prefix(conf, rules, ls, j + 1);
    LastStep(conf, rules, ls[..j + 1]);
    assert ls[..j + 1][..j] == ls[..j];
    t := Apply(conf, rules, s, ls[j]);
  }

  lemma BlockMask(conf: Cidr, s: State)
    requires Blocks(conf, s)
    ensures s.iprange.Some? ==> s.iprange.value.mask <= 32
  {
  }

  lemma UpIsNotSame(s: State, t: State)
    ensures Up(s, t) ==> !Same(s, t)
  {
  }

  lemma PutWaits(conf: Cidr, rules: Rules, s: State, p: Proc) returns (v: Cidr)
    requires Enabled(conf, rules, s, Put(p, true))
    ensures Waiting(s.At(p)) && s.At(p).v == v
    ensures var t := Apply(conf, rules, s, Put(p, true));
            t.iprange == s.iprange && v.ip in t.nodes && t.log != [] && t.log[|t.log| - 1] == Returned(v.ip)
  {
    v := s.At(p).v;
  }
}
