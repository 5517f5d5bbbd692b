/** The router pair allocator as a concurrent protocol: any number of processes run GetRouterIP and
    ReleaseRouterIP, operation by operation, and the question is which addresses two answers share. */
module RouterRuns {
  import opened Results
  import opened Addr
  import opened Routers

  type Proc = nat

  /** What the environment guarantees. */
  datatype Rules = Rules(
    serial: bool,      // at most one process is inside the lock /midonet-cni/router_ip
    rangeWrites: bool, // an iprange write after which the refresh goes on has taken effect
    bounded: bool)     // no range beyond 255.255.255.255 is opened

  /** Where a process is. */
  datatype Pc =
    | Outside
      // GetRouterIP, lock held
    | Listing
    | Asking                                          // fewer than three nodes: about to read iprange
    | Writing(next: Cidr)                             // refreshRouterAvailable
    | Filling(range: Cidr, at: nat)                   // the pair is chosen; the rest goes to the pool
    | Taking(left: map<nat, Cidr>, got: seq<Cidr>)
      // ReleaseRouterIP, for one address
    | Judging(v: Cidr)
    | WantPut(v: Cidr)
    | Putting(v: Cidr)

  predicate InCs(pc: Pc) { !pc.Outside? && !pc.Judging? && !pc.WantPut? }

  datatype Event = Got(ips: seq<Cidr>) | Returned(a: nat)

  datatype State = State(
    iprange: Option<Cidr>, nodes: map<nat, Cidr>, lockers: set<Proc>, pcs: map<Proc, Pc>, log: seq<Event>)
  {
    function At(p: Proc): Pc { if p in pcs then pcs[p] else Outside }
    /** Nodes below the directory. */
    function Count(): nat { |nodes| + if iprange.Some? then 1 else 0 }
    function Goto(p: Proc, pc: Pc): State {
      this.(pcs := pcs[p := pc], lockers := if InCs(pc) then lockers + {p} else lockers - {p})
    }
  }

  datatype Step =
      // GetRouterIP
    | Enter(p: Proc)
    | List(p: Proc)
    | ReadRange(p: Proc)
    | WriteRange(p: Proc, took: bool)      // the refresh goes on
    | WriteFails(p: Proc, took: bool)      // it stops: another error, or a block it cannot use
    | Fill(p: Proc, took: bool)
    | Filled(p: Proc)
    | Take(p: Proc, a: nat)
    | Miss(p: Proc, a: nat, took: bool)
    | Answer(p: Proc)
      // ReleaseRouterIP
    | Give(p: Proc, v: Cidr)
    | Judge(p: Proc)                       // reads iprange, before the lock
    | Lock(p: Proc)
    | Put(p: Proc, took: bool)
      // any other error return, or a crash
    | Stop(p: Proc)

  /** The two addresses a refresh returns. */
  function PairOf(r: Cidr): seq<Cidr> { [Cidr(r.ip + 2, r.mask), Cidr(r.ip + 3, r.mask)] }

  predicate Contains(ips: seq<Cidr>, a: nat) { exists i :: 0 <= i < |ips| && ips[i].ip == a }

  /** `a` is in some answer. */
  predicate Given(log: seq<Event>, a: nat) { exists i :: 0 <= i < |log| && log[i].Got? && Contains(log[i].ips, a) }

  predicate LockFree(rules: Rules, s: State) { rules.serial ==> s.lockers == {} }

  function Last(r: Cidr): int
    requires r.mask <= 32
  {
    r.ip + Size(r.mask) - 1
  }

  predicate Enabled(conf: Cidr, rules: Rules, s: State, l: Step) {
    var pc := s.At(l.p);
    match l
    case Enter(_) => pc.Outside? && LockFree(rules, s)
    case List(_) => pc.Listing?
    case ReadRange(_) =>
      && pc.Asking? && s.iprange.Some? && Aligned(s.iprange.value)
      && (rules.bounded ==> Succ(s.iprange.value).ip > s.iprange.value.ip)
    case WriteRange(_, took) => pc.Writing? && Aligned(pc.next) && pc.next.mask <= 30 && (rules.rangeWrites ==> took)
    case WriteFails(_, _) => pc.Writing?
    case Fill(_, _) => pc.Filling? && pc.range.mask <= 32 && pc.at < Last(pc.range)
    case Filled(_) => pc.Filling? && pc.range.mask <= 32 && pc.at >= Last(pc.range)
    case Take(_, a) => pc.Taking? && |pc.got| < 2 && a in pc.left && a in s.nodes
    case Miss(_, a, took) => pc.Taking? && |pc.got| < 2 && a in pc.left && (took ==> a in s.nodes)
    case Answer(_) => pc.Taking? && (|pc.got| == 2 || pc.left == map[])
    case Give(_, v) => pc.Outside? && v.mask == conf.mask && Given(s.log, v.ip)
    case Judge(_) => pc.Judging? && s.iprange.Some? && s.iprange.value.mask <= 32 && pc.v.mask <= 32
    case Lock(_) => pc.WantPut? && LockFree(rules, s)
    case Put(_, _) => pc.Putting?
    case Stop(_) => true
  }

  /** What a listing leads to. */
  function Listed(conf: Cidr, s: State): Pc {
    if s.Count() == 0 then Writing(conf) else if s.Count() < 3 then Asking else Taking(s.nodes, [])
  }

  function Apply(conf: Cidr, rules: Rules, s: State, l: Step): State
    requires Enabled(conf, rules, s, l)
  {
    var p, pc := l.p, s.At(l.p);
    match l
    case Enter(_) => s.Goto(p, Listing)
    case List(_) => s.Goto(p, Listed(conf, s))
    case ReadRange(_) => s.Goto(p, Writing(Succ(s.iprange.value)))
    case WriteRange(_, took) =>
      (if took then s.(iprange := Some(pc.next)) else s).Goto(p, Filling(pc.next, pc.next.ip + 4))
    case WriteFails(_, took) => (if took then s.(iprange := Some(pc.next)) else s).Goto(p, Outside)
    case Fill(_, took) =>
      (if took then s.(nodes := s.nodes[pc.at := Cidr(pc.at, pc.range.mask)]) else s)
      .Goto(p, Filling(pc.range, pc.at + 1))
    case Filled(_) => s.(log := s.log + [Got(PairOf(pc.range))]).Goto(p, Outside)
    case Take(_, a) => s.(nodes := s.nodes - {a}).Goto(p, Taking(pc.left - {a}, pc.got + [pc.left[a]]))
    case Miss(_, a, took) => (if took then s.(nodes := s.nodes - {a}) else s).Goto(p, Taking(pc.left - {a}, pc.got))
    case Answer(_) => s.(log := s.log + [Got(pc.got)]).Goto(p, Outside)
    case Give(_, v) => s.Goto(p, Judging(v))
    case Judge(_) => s.Goto(p, if SameNet(s.iprange.value, pc.v) then WantPut(pc.v) else Outside)
    case Lock(_) => s.Goto(p, Putting(pc.v))
    case Put(_, took) =>
      (if took then s.(nodes := s.nodes[pc.v.ip := pc.v], log := s.log + [Returned(pc.v.ip)]) else s).Goto(p, Outside)
    case Stop(_) => s.Goto(p, Outside)
  }

  const START := State(None, map[], {}, map[], [])

  /** The state after a run, if every step of it was enabled. */
  function Exec(conf: Cidr, rules: Rules, ls: seq<Step>): Option<State>
    decreases |ls|
  {
    if ls == [] then Some(START)
    else
      var k := |ls| - 1;
      match Exec(conf, rules, ls[..k])
      case None => None
      case Some(s) => if Enabled(conf, rules, s, ls[k]) then Some(Apply(conf, rules, s, ls[k])) else None
  }

  // ---------------------------------------------------------------- what answers share

  /** Handed out, and not put back since. */
  predicate Out(log: seq<Event>, a: nat) {
    log != [] &&
    var last, before := log[|log| - 1], Out(log[..|log| - 1], a);
    if last.Got? then Contains(last.ips, a) || before else last.a != a && before
  }

  /** No address twice in one answer. */
  ghost predicate Distinct(ips: seq<Cidr>) { forall i, j :: 0 <= i < j < |ips| ==> ips[i].ip != ips[j].ip }

  /** Each answer has distinct addresses, and an address in two answers was put back in between. */
  ghost predicate NoOverlap(log: seq<Event>) {
    && (forall i :: 0 <= i < |log| ==> DistinctAt(log, i))
    && (forall i, j, a :: 0 <= i < j < |log| && GotAt(log, i, a) && GotAt(log, j, a) ==> ReturnedIn(log, i, j, a))
  }

  ghost predicate DistinctAt(log: seq<Event>, i: nat)
    requires i < |log|
  {
    log[i].Got? ==> Distinct(log[i].ips)
  }

  /** The i-th event is an answer with `a` in it. */
  predicate GotAt(log: seq<Event>, i: nat, a: nat)
    requires i < |log|
  {
    log[i].Got? && Contains(log[i].ips, a)
  }

  ghost predicate ReturnedIn(log: seq<Event>, i: nat, j: nat, a: nat)
    requires j <= |log|
  {
    exists k :: i < k < j && log[k] == Returned(a)
  }

  lemma {:induction false} OutSince(log: seq<Event>, i: nat, a: nat) returns (k: nat)
    requires i < |log| && log[i].Got? && Contains(log[i].ips, a) && !Out(log, a)
    ensures i < k < |log| && log[k] == Returned(a)
    decreases |log|
  {
    var n := |log| - 1;
    if log[n] == Returned(a) { k := n; } else { k := OutSince(log[..n], i, a); }
  }

  lemma {:induction false} OutSnoc(log: seq<Event>, e: Event, a: nat)
    ensures e.Got? ==> (Out(log + [e], a) <==> Contains(e.ips, a) || Out(log, a))
    ensures e.Returned? ==> (Out(log + [e], a) <==> e.a != a && Out(log, a))
  {
    assert (log + [e])[..|log|] == log;
  }

  lemma {:induction false} OverlapSnoc(log: seq<Event>, e: Event)
    requires NoOverlap(log)
    requires e.Got? ==> Distinct(e.ips) && forall a :: Contains(e.ips, a) ==> !Out(log, a)
    ensures NoOverlap(log + [e])
  {
    hide Out, Contains, Distinct, DistinctAt, GotAt, ReturnedIn;
    var log' := log + [e];
    forall i | 0 <= i < |log'| ensures DistinctAt(log', i) {
      assert i < |log| ==> DistinctAt(log, i);
      DistinctSnoc(log, e, i);
    }
    forall i: nat, j: nat, a | i < j < |log'| && GotAt(log', i, a) && GotAt(log', j, a)
      ensures ReturnedIn(log', i, j, a)
    {
      assert j < |log| && GotAt(log, i, a) && GotAt(log, j, a) ==> ReturnedIn(log, i, j, a);
      ReturnedSnoc(log, e, i, j, a);
    }
  }

  lemma {:induction false} DistinctSnoc(log: seq<Event>, e: Event, i: nat)
    requires i <= |log| && (i < |log| ==> DistinctAt(log, i)) && (e.Got? ==> Distinct(e.ips))
    ensures DistinctAt(log + [e], i)
  {
    hide Distinct;
  }

  lemma {:induction false} ReturnedSnoc(log: seq<Event>, e: Event, i: nat, j: nat, a: nat)
    requires i < j <= |log| && GotAt(log + [e], i, a) && GotAt(log + [e], j, a)
    requires j < |log| && GotAt(log, i, a) && GotAt(log, j, a) ==> ReturnedIn(log, i, j, a)
    requires e.Got? && Contains(e.ips, a) ==> !Out(log, a)
    ensures ReturnedIn(log + [e], i, j, a)
  {
    hide Out, Contains;
    var log' := log + [e];
    assert log'[i] == log[i];
    var k: nat;
    if j < |log| {
      assert log'[j] == log[j];
      k :| i < k < j && log[k] == Returned(a);
    } else {
      assert log'[j] == e;
      k := OutSince(log, i, a);
    }
    assert log'[k] == log[k];
  }

  lemma {:induction false} OutIsGiven(log: seq<Event>, a: nat)
    requires Out(log, a)
    ensures Given(log, a)
    decreases |log|
  {
    var n := |log| - 1;
    if log[n].Got? && Contains(log[n].ips, a) {
    } else {
      OutIsGiven(log[..n], a);
      var i :| 0 <= i < n && log[..n][i].Got? && Contains(log[..n][i].ips, a);
      assert log[i].Got? && Contains(log[i].ips, a);
    }
  }

  lemma {:induction false} GivenSnoc(log: seq<Event>, e: Event, a: nat)
    ensures Given(log + [e], a) <==> Given(log, a) || (e.Got? && Contains(e.ips, a))
  {
    hide Contains;
    var log' := log + [e];
    assert log'[|log|] == e && forall i :: 0 <= i < |log| ==> log'[i] == log[i];
    if Given(log, a) {
      var i :| 0 <= i < |log| && log[i].Got? && Contains(log[i].ips, a);
      assert log'[i].Got? && Contains(log'[i].ips, a);
    }
  }

  lemma {:induction false} LogSnoc(log: seq<Event>, e: Event)
    ensures forall a: nat :: Given(log + [e], a) <==> Given(log, a) || (e.Got? && Contains(e.ips, a))
    ensures forall a: nat ::
              Out(log + [e], a) <==> if e.Got? then Contains(e.ips, a) || Out(log, a) else e.a != a && Out(log, a)
  {
    hide Given, Out, Contains;
    forall a: nat ensures Given(log + [e], a) <==> Given(log, a) || (e.Got? && Contains(e.ips, a)) {
      GivenSnoc(log, e, a);
    }
    forall a: nat
      ensures Out(log + [e], a) <==> if e.Got? then Contains(e.ips, a) || Out(log, a) else e.a != a && Out(log, a)
    {
      OutSnoc(log, e, a);
    }
  }

  // ---------------------------------------------------------------- the invariant

  ghost predicate LockInv(s: State) {
    && (forall p: Proc :: InCs(s.At(p)) <==> p in s.lockers)
    && (forall p, q :: p in s.lockers && q in s.lockers ==> p == q)
  }

  /** `a` lies below the end of the newest range. */
  predicate Below(s: State, a: nat) {
    s.iprange.Some? && s.iprange.value.mask <= 32 && a < s.iprange.value.ip + Size(s.iprange.value.mask)
  }

  /** The pool and what is handed out lie in the ranges opened so far, and nothing is in both. */
  ghost predicate Ground(conf: Cidr, s: State) {
    && (s.iprange.Some? ==> Aligned(s.iprange.value) && s.iprange.value.mask == conf.mask)
    && (forall a :: a in s.nodes ==> Below(s, a) && s.nodes[a] == Cidr(a, conf.mask))
    && (forall a: nat :: Given(s.log, a) ==> Below(s, a))
    && (forall a: nat :: Out(s.log, a) ==> a !in s.nodes)
    && NoOverlap(s.log)
  }

  /** What a process knows, by its position. */
  ghost predicate Local(conf: Cidr, s: State, pc: Pc) {
    match pc
    case Writing(next) => Aligned(next) && next.mask == conf.mask && forall a: nat :: Below(s, a) ==> a < next.ip
    case Filling(range, at) =>
      && s.iprange == Some(range) && range.mask <= 30 && at >= range.ip + 4
      && (forall a: nat :: Given(s.log, a) ==> a < range.ip)
      && (forall a :: a in s.nodes ==> a < range.ip || a >= range.ip + 4)
    case Taking(left, got) =>
      && (forall a :: a in left ==> left[a] == Cidr(a, conf.mask))
      && Distinct(got) && (forall a :: Contains(got, a) ==> Below(s, a) && a !in s.nodes && !Out(s.log, a))
    case Judging(v) => v.mask == conf.mask && Below(s, v.ip)
    case WantPut(v) => v.mask == conf.mask && Below(s, v.ip)
    case Putting(v) => v.mask == conf.mask && Below(s, v.ip)
    case _ => true
  }

  ghost predicate Inv(conf: Cidr, s: State) {
    Aligned(conf) && LockInv(s) && Ground(conf, s) && forall p: Proc :: Local(conf, s, s.At(p))
  }

  /** The fields a step can change apart from positions. */
  ghost predicate SameStore(s: State, t: State) { t.iprange == s.iprange && t.nodes == s.nodes && t.log == s.log }

  predicate Outward(l: Step) { l.Enter? || l.Give? || l.Judge? || l.Lock? || l.Stop? || l.List? || l.ReadRange? }

  lemma OutwardSame(conf: Cidr, rules: Rules, s: State, l: Step)
    requires Outward(l) && Enabled(conf, rules, s, l)
    ensures SameStore(s, Apply(conf, rules, s, l))
  {
    hide SameNet, Succ, Size;
  }

  lemma SameKeeps(conf: Cidr, s: State, t: State, pc: Pc)
    requires SameStore(s, t)
    ensures Ground(conf, s) ==> Ground(conf, t)
    ensures Local(conf, s, pc) ==> Local(conf, t, pc)
  {
    BelowDepends(s, t);
    hide Rem, Size, NoOverlap, Out, Given, Contains, Distinct;
  }

  lemma ListLocal(conf: Cidr, s: State)
    requires Ground(conf, s) && Aligned(conf)
    ensures s.Count() == 0 ==> Local(conf, s, Writing(conf))
    ensures Local(conf, s, Taking(s.nodes, []))
  {
    hide Rem, Size, NoOverlap, Out, Given;
  }

  lemma ReadLocal(conf: Cidr, s: State)
    requires Ground(conf, s) && s.iprange.Some? && Aligned(s.iprange.value)
    requires Succ(s.iprange.value).ip > s.iprange.value.ip
    ensures Local(conf, s, Writing(Succ(s.iprange.value)))
  {
    SuccIsNext(s.iprange.value);
    hide Rem, Size, NoOverlap, Out, Given;
  }

  /** A step that only moves its process. */
  lemma OutwardLocal(conf: Cidr, rules: Rules, s: State, l: Step)
    requires Outward(l) && Enabled(conf, rules, s, l)
    requires Ground(conf, s) && Local(conf, s, s.At(l.p)) && Aligned(conf)
    requires rules.bounded
    ensures Local(conf, s, Apply(conf, rules, s, l).At(l.p))
  {
    hide Ground, Local, Below, SameNet, Given, Apply, Succ, Aligned;
    if l.List? || l.ReadRange? { ListReadLocal(conf, rules, s, l); } else { MoveLocal(conf, rules, s, l); }
  }

  lemma ListReadLocal(conf: Cidr, rules: Rules, s: State, l: Step)
    requires (l.List? || l.ReadRange?) && Enabled(conf, rules, s, l)
    requires Ground(conf, s) && Local(conf, s, s.At(l.p)) && Aligned(conf)
    requires rules.bounded
    ensures Local(conf, s, Apply(conf, rules, s, l).At(l.p))
  {
    ListLocal(conf, s);
    if l.ReadRange? { ReadLocal(conf, s); }
    hide SameNet, Ground, Aligned, NoOverlap, Out, Given, Contains, Distinct, Succ, Below;
  }

  lemma MoveLocal(conf: Cidr, rules: Rules, s: State, l: Step)
    requires Outward(l) && !l.List? && !l.ReadRange? && Enabled(conf, rules, s, l)
    requires Ground(conf, s) && Local(conf, s, s.At(l.p)) && Aligned(conf)
    requires rules.bounded
    ensures Local(conf, s, Apply(conf, rules, s, l).At(l.p))
  {
    if l.Give? { GivenBelow(conf, s, l.v.ip); }
    hide SameNet, Ground, Aligned, NoOverlap, Out, Given, Contains, Distinct, Succ, Below;
  }

  lemma GivenBelow(conf: Cidr, s: State, a: nat)
    requires Ground(conf, s)
    ensures Given(s.log, a) ==> Below(s, a)
  {
  }

  /** Steps inside the lock that change the store, one lemma for each command: what they leave of the
      ground, and of their own process's knowledge. */
  lemma WriteKeeps(conf: Cidr, s: State, t: State, next: Cidr)
    requires Ground(conf, s) && Local(conf, s, Writing(next)) && t == s.(iprange := Some(next))
    ensures Ground(conf, t) && (next.mask <= 30 ==> Local(conf, t, Filling(next, next.ip + 4)))
    ensures forall a :: Below(s, a) ==> Below(t, a)
  {
    hide Rem, NoOverlap, Out, Given, Contains, Distinct;
    SizeFacts(next.mask);
  }

  lemma FillKeeps(conf: Cidr, s: State, t: State, range: Cidr, at: nat)
    requires Ground(conf, s) && Local(conf, s, Filling(range, at)) && at < Last(range)
    requires t == s.(nodes := s.nodes[at := Cidr(at, range.mask)])
    ensures Ground(conf, t) && Local(conf, t, Filling(range, at + 1))
  {
    hide Rem, NoOverlap, Given, Contains, Distinct, Out;
    if Out(s.log, at) { OutIsGiven(s.log, at); }
  }

  lemma FilledKeeps(conf: Cidr, s: State, t: State, range: Cidr, at: nat)
    requires Ground(conf, s) && Local(conf, s, Filling(range, at))
    requires t == s.(log := s.log + [Got(PairOf(range))])
    ensures Ground(conf, t)
  {
    hide Rem, NoOverlap, Given, Out;
    SizeFacts(range.mask);
    var ips := PairOf(range);
    forall a: nat ensures Contains(ips, a) <==> a == range.ip + 2 || a == range.ip + 3 {
      assert ips[0].ip == range.ip + 2 && ips[1].ip == range.ip + 3;
    }
    forall a: nat ensures Out(s.log, a) ==> Given(s.log, a) { if Out(s.log, a) { OutIsGiven(s.log, a); } }
    LogSnoc(s.log, Got(ips));
    OverlapSnoc(s.log, Got(ips));
  }

  lemma {:induction false} TakeKeeps(conf: Cidr, s: State, t: State, left: map<nat, Cidr>, got: seq<Cidr>, a: nat)
    requires Ground(conf, s) && Local(conf, s, Taking(left, got)) && a in left && a in s.nodes
    requires t == s.(nodes := s.nodes - {a})
    ensures Ground(conf, t)
    ensures Local(conf, t, Taking(left - {a}, got + [left[a]])) && Local(conf, t, Taking(left - {a}, got))
  {
    hide Rem, Size, NoOverlap, Given, Out, Aligned;
    var more := got + [left[a]];
    forall b: nat ensures Contains(more, b) <==> Contains(got, b) || b == a { ContainsSnoc(got, left[a], b); }
    hide Contains;
    DistinctMore(got, left[a]);
  }

  lemma {:induction false} ContainsSnoc(ips: seq<Cidr>, v: Cidr, a: nat)
    ensures Contains(ips + [v], a) <==> Contains(ips, a) || v.ip == a
  {
    var more := ips + [v];
    assert more[|ips|] == v;
    if Contains(ips, a) {
      var i :| 0 <= i < |ips| && ips[i].ip == a;
      assert more[i].ip == a;
    }
  }

  lemma {:induction false} DistinctMore(ips: seq<Cidr>, v: Cidr)
    requires Distinct(ips) && !Contains(ips, v.ip)
    ensures Distinct(ips + [v])
  {
  }

  lemma {:induction false} AnswerKeeps(conf: Cidr, s: State, t: State, left: map<nat, Cidr>, got: seq<Cidr>)
    requires Ground(conf, s) && Local(conf, s, Taking(left, got)) && t == s.(log := s.log + [Got(got)])
    ensures Ground(conf, t)
  {
    hide Rem, Size, NoOverlap, Given, Out, Contains, Distinct, Aligned;
    LogSnoc(s.log, Got(got));
    OverlapSnoc(s.log, Got(got));
  }

  lemma PutKeeps(conf: Cidr, s: State, t: State, v: Cidr)
    requires Ground(conf, s) && Local(conf, s, Putting(v))
    requires t == s.(nodes := s.nodes[v.ip := v], log := s.log + [Returned(v.ip)])
    ensures Ground(conf, t)
  {
    hide Rem, Size, NoOverlap, Given, Out, Contains, Distinct, Aligned;
    LogSnoc(s.log, Returned(v.ip));
    OverlapSnoc(s.log, Returned(v.ip));
  }

  /** What a step inside the lock does to the store, by its command. */
  lemma InwardKeeps(conf: Cidr, rules: Rules, s: State, l: Step)
    requires rules.rangeWrites && !Outward(l) && Enabled(conf, rules, s, l)
    requires Ground(conf, s) && Local(conf, s, s.At(l.p))
    ensures var t := Apply(conf, rules, s, l);
            Ground(conf, t) && Local(conf, t, t.At(l.p)) && (forall a :: Below(s, a) ==> Below(t, a)) && InCs(s.At(l.p))
  {
    hide Ground, Local, Below, Enabled, Apply;
    if Refreshing(l) { RefreshKeeps(conf, rules, s, l); } else { PoolKeeps(conf, rules, s, l); }
  }

  /** The steps of refreshRouterAvailable. */
  predicate Refreshing(l: Step) { l.WriteRange? || l.WriteFails? || l.Fill? || l.Filled? }

  lemma RefreshKeeps(conf: Cidr, rules: Rules, s: State, l: Step)
    requires rules.rangeWrites && Refreshing(l) && Enabled(conf, rules, s, l)
    requires Ground(conf, s) && Local(conf, s, s.At(l.p))
    ensures var t := Apply(conf, rules, s, l);
            Ground(conf, t) && Local(conf, t, t.At(l.p)) && (forall a :: Below(s, a) ==> Below(t, a)) && InCs(s.At(l.p))
  {
    hide Ground, Local, Below, Enabled, Apply;
    if l.WriteRange? || l.WriteFails? { WritingKeeps(conf, rules, s, l); } else { FillingKeeps(conf, rules, s, l); }
  }

  lemma WritingKeeps(conf: Cidr, rules: Rules, s: State, l: Step)
    requires rules.rangeWrites && (l.WriteRange? || l.WriteFails?) && Enabled(conf, rules, s, l)
    requires Ground(conf, s) && Local(conf, s, s.At(l.p))
    ensures var t := Apply(conf, rules, s, l);
            Ground(conf, t) && Local(conf, t, t.At(l.p)) && (forall a :: Below(s, a) ==> Below(t, a)) && InCs(s.At(l.p))
  {
    var t, pc := Apply(conf, rules, s, l), s.At(l.p);
    hide Ground, Local, Below, Aligned, Last;
    match l {
      case WriteRange(_, took) =>
        WriteKeeps(conf, s, s.(iprange := Some(pc.next)), pc.next);
        SameKeeps(conf, s.(iprange := Some(pc.next)), t, t.At(l.p));
        BelowDepends(s.(iprange := Some(pc.next)), t);
      case WriteFails(_, took) =>
        var u := if took then s.(iprange := Some(pc.next)) else s;
        if took { WriteKeeps(conf, s, u, pc.next); }
        SameKeeps(conf, u, t, Outside);
        BelowDepends(u, t);
        OutsideLocal(conf, t);
    }
  }

  lemma FillingKeeps(conf: Cidr, rules: Rules, s: State, l: Step)
    requires rules.rangeWrites && (l.Fill? || l.Filled?) && Enabled(conf, rules, s, l)
    requires Ground(conf, s) && Local(conf, s, s.At(l.p))
    ensures var t := Apply(conf, rules, s, l);
            Ground(conf, t) && Local(conf, t, t.At(l.p)) && (forall a :: Below(s, a) ==> Below(t, a)) && InCs(s.At(l.p))
  {
    hide Ground, Local, Below, Enabled, Apply;
    if l.Fill? { FillStepKeeps(conf, rules, s, l); } else { FilledStepKeeps(conf, rules, s, l); }
  }

  lemma FillStepKeeps(conf: Cidr, rules: Rules, s: State, l: Step)
    requires rules.rangeWrites && l.Fill? && Enabled(conf, rules, s, l)
    requires Ground(conf, s) && Local(conf, s, s.At(l.p))
    ensures var t := Apply(conf, rules, s, l);
            Ground(conf, t) && Local(conf, t, t.At(l.p)) && (forall a :: Below(s, a) ==> Below(t, a)) && InCs(s.At(l.p))
  {
    var t, pc := Apply(conf, rules, s, l), s.At(l.p);
    hide Ground, Local, Below, Aligned, Last;
    var u := s.(nodes := s.nodes[pc.at := Cidr(pc.at, pc.range.mask)]);
    FillKeeps(conf, s, u, pc.range, pc.at);
    FillSkips(conf, s, pc.range, pc.at);
    SameKeeps(conf, if l.took then u else s, t, Filling(pc.range, pc.at + 1));
    BelowDepends(s, t);
  }

  lemma FilledStepKeeps(conf: Cidr, rules: Rules, s: State, l: Step)
    requires rules.rangeWrites && l.Filled? && Enabled(conf, rules, s, l)
    requires Ground(conf, s) && Local(conf, s, s.At(l.p))
    ensures var t := Apply(conf, rules, s, l);
            Ground(conf, t) && Local(conf, t, t.At(l.p)) && (forall a :: Below(s, a) ==> Below(t, a)) && InCs(s.At(l.p))
  {
    var t, pc := Apply(conf, rules, s, l), s.At(l.p);
    hide Ground, Local, Below, Aligned, Last;
    var u := s.(log := s.log + [Got(PairOf(pc.range))]);
    FilledKeeps(conf, s, u, pc.range, pc.at);
    SameKeeps(conf, u, t, Outside);
    BelowDepends(s, t);
    OutsideLocal(conf, t);
  }

  lemma PoolKeeps(conf: Cidr, rules: Rules, s: State, l: Step)
    requires rules.rangeWrites && !Outward(l) && !Refreshing(l) && Enabled(conf, rules, s, l)
    requires Ground(conf, s) && Local(conf, s, s.At(l.p))
    ensures var t := Apply(conf, rules, s, l);
            Ground(conf, t) && Local(conf, t, t.At(l.p)) && (forall a :: Below(s, a) ==> Below(t, a)) && InCs(s.At(l.p))
  {
    var t, pc := Apply(conf, rules, s, l), s.At(l.p);
    hide Ground, Local, Below, Aligned, Last;
    match l {
      case Take(_, a) =>
        var u := s.(nodes := s.nodes - {a});
        TakeKeeps(conf, s, u, pc.left, pc.got, a);
        SameKeeps(conf, u, t, t.At(l.p));
        BelowDepends(s, t);
      case Miss(_, a, took) =>
        var u := if took then s.(nodes := s.nodes - {a}) else s;
        if took { TakeKeeps(conf, s, u, pc.left, pc.got, a); } else { TakeSkips(conf, s, pc.left, pc.got, a); }
        SameKeeps(conf, u, t, t.At(l.p));
        BelowDepends(s, t);
      case Answer(_) =>
        var u := s.(log := s.log + [Got(pc.got)]);
        AnswerKeeps(conf, s, u, pc.left, pc.got);
        SameKeeps(conf, u, t, Outside);
        BelowDepends(s, t);
        OutsideLocal(conf, t);
      case Put(_, took) =>
        var u := if took then s.(nodes := s.nodes[pc.v.ip := pc.v], log := s.log + [Returned(pc.v.ip)]) else s;
        if took { PutKeeps(conf, s, u, pc.v); }
        SameKeeps(conf, u, t, Outside);
        BelowDepends(s, t);
        OutsideLocal(conf, t);
    }
  }

  lemma BelowDepends(s: State, t: State)
    requires s.iprange == t.iprange
    ensures forall a :: Below(s, a) <==> Below(t, a)
  {
  }

  lemma OutsideLocal(conf: Cidr, s: State)
    ensures Local(conf, s, Outside)
  {
  }

  lemma FillSkips(conf: Cidr, s: State, range: Cidr, at: nat)
    requires Local(conf, s, Filling(range, at))
    ensures Local(conf, s, Filling(range, at + 1))
  {
  }

  lemma {:induction false} TakeSkips(conf: Cidr, s: State, left: map<nat, Cidr>, got: seq<Cidr>, a: nat)
    requires Local(conf, s, Taking(left, got))
    ensures Local(conf, s, Taking(left - {a}, got))
  {
    hide Distinct, Contains, Out, Below;
  }

  /** What a process outside the lock knows survives whatever happens inside. */
  lemma OthersLocal(conf: Cidr, s: State, t: State, pc: Pc)
    requires Local(conf, s, pc) && !InCs(pc) && forall a :: Below(s, a) ==> Below(t, a)
    ensures Local(conf, t, pc)
  {
  }

  lemma OthersStay(conf: Cidr, rules: Rules, s: State, l: Step)
    requires Enabled(conf, rules, s, l)
    ensures var t := Apply(conf, rules, s, l);
            && (forall q: Proc :: q != l.p ==> t.At(q) == s.At(q))
            && t.lockers == (if InCs(t.At(l.p)) then s.lockers + {l.p} else s.lockers - {l.p})
  {
    hide SameNet, Succ, Size, Given, Aligned, PairOf, State.Count, InCs, Enabled;
  }

  lemma EntersFree(conf: Cidr, rules: Rules, s: State, l: Step)
    requires Enabled(conf, rules, s, l)
    ensures InCs(Apply(conf, rules, s, l).At(l.p)) && !InCs(s.At(l.p)) ==> LockFree(rules, s)
  {
    hide SameNet, Succ, Size, Given, Aligned, PairOf, State.Count;
  }

  lemma LockKeeps(conf: Cidr, rules: Rules, s: State, l: Step)
    requires rules.serial && LockInv(s) && Enabled(conf, rules, s, l)
    ensures LockInv(Apply(conf, rules, s, l))
    ensures InCs(s.At(l.p)) ==> forall q: Proc :: q != l.p ==> !InCs(s.At(q))
  {
    OthersStay(conf, rules, s, l);
    EntersFree(conf, rules, s, l);
    hide Enabled, Apply;
    LockMoves(s, Apply(conf, rules, s, l), l.p);
  }

  lemma LockMoves(s: State, t: State, p: Proc)
    requires LockInv(s) && (InCs(t.At(p)) && !InCs(s.At(p)) ==> s.lockers == {})
    requires forall q: Proc :: q != p ==> t.At(q) == s.At(q)
    requires t.lockers == if InCs(t.At(p)) then s.lockers + {p} else s.lockers - {p}
    ensures LockInv(t)
    ensures InCs(s.At(p)) ==> forall q: Proc :: q != p ==> !InCs(s.At(q))
  {
    hide InCs;
  }

  lemma StepKeeps(conf: Cidr, rules: Rules, s: State, l: Step)
    requires rules.serial && rules.rangeWrites && rules.bounded && Inv(conf, s) && Enabled(conf, rules, s, l)
    ensures Inv(conf, Apply(conf, rules, s, l))
  {
    var t := Apply(conf, rules, s, l);
    OthersStay(conf, rules, s, l);
    LockKeeps(conf, rules, s, l);
    assert Local(conf, s, s.At(l.p));
    hide Enabled, Apply, Ground, Local, Below, LockInv, Outward;
    if Outward(l) {
      OutwardSame(conf, rules, s, l);
      OutwardLocal(conf, rules, s, l);
      SameKeeps(conf, s, t, t.At(l.p));
      forall q: Proc ensures Local(conf, t, t.At(q)) {
        if q != l.p { SameKeeps(conf, s, t, s.At(q)); }
      }
    } else {
      InwardKeeps(conf, rules, s, l);
      forall q: Proc ensures Local(conf, t, t.At(q)) {
        if q != l.p { OthersLocal(conf, s, t, s.At(q)); }
      }
    }
  }

  lemma {:induction false} RunsKeep(conf: Cidr, rules: Rules, ls: seq<Step>)
    requires Aligned(conf) && rules.serial && rules.rangeWrites && rules.bounded && Exec(conf, rules, ls).Some?
    ensures Inv(conf, Exec(conf, rules, ls).value)
    decreases |ls|
  {
    hide Enabled, Apply, Inv;
    if ls != [] {
      var k := |ls| - 1;
      RunsKeep(conf, rules, ls[..k]);
      StepKeeps(conf, rules, Exec(conf, rules, ls[..k]).value, ls[k]);
    } else {
      StartInv(conf);
    }
  }

  lemma StartInv(conf: Cidr)
    requires Aligned(conf)
    ensures Inv(conf, START)
  {
  }

  ghost predicate Safe(rules: Rules) {
    forall conf, ls :: Aligned(conf) && Exec(conf, rules, ls).Some? ==> NoOverlap(Exec(conf, rules, ls).value.log)
  }

  // ---------------------------------------------------------------- the runs that overlap

  /** A run in the making: `s` is where it has arrived. */
  datatype Run = Run(conf: Cidr, rules: Rules, ls: seq<Step>, s: State) {
    ghost predicate Ok() { Aligned(conf) && Exec(conf, rules, ls) == Some(s) }
  }

  lemma Then(r: Run, l: Step) returns (r': Run)
    requires r.Ok() && Enabled(r.conf, r.rules, r.s, l)
    ensures r'.Ok() && r' == r.(ls := r.ls + [l], s := Apply(r.conf, r.rules, r.s, l))
  {
    hide Enabled, Apply;
    r' := r.(ls := r.ls + [l], s := Apply(r.conf, r.rules, r.s, l));
    assert r'.ls[..|r.ls|] == r.ls;
  }

  lemma Begin(conf: Cidr, rules: Rules) returns (r: Run)
    requires Aligned(conf)
    ensures r.Ok() && r == Run(conf, rules, [], START)
  {
    r := Run(conf, rules, [], START);
  }

  /** `p` enters and finds no iprange. */
  lemma FirstList(r: Run, p: Proc) returns (r': Run)
    requires r.Ok() && r.s.At(p).Outside? && LockFree(r.rules, r.s) && r.s.iprange.None? && r.s.nodes == map[]
    ensures r'.Ok() && r'.conf == r.conf && r'.rules == r.rules && r'.s == r.s.Goto(p, Writing(r.conf))
  {
    hide Exec;
    r' := Then(r, Enter(p));
    r' := Then(r', List(p));
  }

  /** `p` writes iprange, or that is lost, and every write to the pool is lost. */
  lemma BareRefresh(r: Run, p: Proc, took: bool) returns (r': Run)
    requires r.Ok() && r.s.At(p).Writing? && (r.rules.rangeWrites ==> took)
    requires Aligned(r.s.At(p).next) && r.s.At(p).next.mask <= 30
    ensures r'.Ok() && r'.conf == r.conf && r'.rules == r.rules
    ensures var n := r.s.At(p).next;
            var u := r.s.(iprange := if took then Some(n) else r.s.iprange, log := r.s.log + [Got(PairOf(n))]);
            r'.s == u.Goto(p, Outside)
  {
    hide Exec, Aligned, Rem, Size, PairOf;
    r' := Then(r, WriteRange(p, took));
    SizeFacts(r.s.At(p).next.mask);
    r' := FillNone(r', p);
    r' := Then(r', Filled(p));
  }

  lemma {:induction false} FillNone(r: Run, p: Proc) returns (r': Run)
    requires r.Ok() && r.s.At(p).Filling? && r.s.At(p).range.mask <= 32
    ensures r'.Ok() && r'.conf == r.conf && r'.rules == r.rules
    ensures var pc := r'.s.At(p); pc.Filling? && pc.range == r.s.At(p).range && pc.at >= Last(pc.range)
    ensures r'.s.Goto(p, Outside) == r.s.Goto(p, Outside)
    decreases Last(r.s.At(p).range) - r.s.At(p).at
  {
    hide Exec, Size;
    r' := r;
    if r.s.At(p).at < Last(r.s.At(p).range) {
      r' := Then(r, Fill(p, false));
      r' := FillNone(r', p);
    }
  }

  /** No answer is put back in this log, and its first and last answers are the same. */
  lemma {:induction false} SamePairTwice(log: seq<Event>, ips: seq<Cidr>)
    requires |log| >= 2 && log[0] == log[|log| - 1] == Got(ips) && |ips| > 0
    requires forall i :: 0 <= i < |log| ==> log[i].Got?
    ensures !NoOverlap(log)
  {
    var a := ips[0].ip;
    assert Contains(ips, a);
    assert GotAt(log, 0, a) && GotAt(log, |log| - 1, a) && !ReturnedIn(log, 0, |log| - 1, a);
  }

  ghost predicate Overlaps(r: Run) { r.Ok() && !NoOverlap(r.s.log) }

  /** Two processes inside the lock at once both find nothing and take the first pair. */
  lemma UnserialBreaks(rules: Rules) returns (r: Run)
    requires !rules.serial
    ensures Overlaps(r) && r.rules == rules
  {
    hide Exec, Enabled, Apply, Rem, Aligned, NoOverlap;
    var conf := Pool();
    r := Begin(conf, rules);
    r := FirstList(r, 1);
    r := FirstList(r, 2);
    r := BareRefresh(r, 1, true);
    r := BareRefresh(r, 2, true);
    SamePairTwice(r.s.log, PairOf(conf));
  }

  /** An iprange write that fails with an etcd error is ignored: nothing records the range. */
  lemma LostRangeBreaks(rules: Rules) returns (r: Run)
    requires !rules.rangeWrites
    ensures Overlaps(r) && r.rules == rules
  {
    hide Exec, Enabled, Apply, Rem, Aligned, NoOverlap;
    var conf := Pool();
    r := Begin(conf, rules);
    r := FirstList(r, 1);
    r := BareRefresh(r, 1, false);
    r := FirstList(r, 1);
    r := BareRefresh(r, 1, false);
    SamePairTwice(r.s.log, PairOf(conf));
  }

  /** 172.16.0.0/24 */
  lemma Pool() returns (conf: Cidr)
    ensures Aligned(conf) && conf == Cidr(0xAC10_0000, 24)
  {
    conf := Cidr(0xAC10_0000, 24);
    hide Rem, Pow2;
    Pow2Constants();
    assert Size(24) == 256;
    RemOfMultiples(conf.ip / 256, 256);
  }

  /** Every process is outside, the pool is empty, and only answers are in the log, the last of them
      the pair of the newest range. */
  ghost predicate Bare(s: State, g: Cidr) {
    && s.iprange == Some(g) && g.mask <= 30 && s.nodes == map[] && s.lockers == {}
    && (forall p: Proc :: s.At(p).Outside?)
    && |s.log| > 0 && s.log[|s.log| - 1] == Got(PairOf(g)) && forall i :: 0 <= i < |s.log| ==> s.log[i].Got?
  }

  /** A refresh of which nothing reaches the pool, from a pool that is empty. */
  lemma NextPair(r: Run, g: Cidr) returns (r': Run)
    requires r.Ok() && Bare(r.s, g) && Aligned(g) && (r.rules.bounded ==> Succ(g).ip > g.ip)
    ensures r'.Ok() && Bare(r'.s, Succ(g)) && Aligned(Succ(g)) && r'.conf == r.conf && r'.rules == r.rules
    ensures r'.s.log == r.s.log + [Got(PairOf(Succ(g)))]
  {
    SuccIsNext(g);
    SuccMask(g);
    r' := AskNext(r, g);
    assert r'.s.At(1) == Writing(Succ(g)) && Succ(g).mask <= 30;
    hide *;
    r' := BareRefresh(r', 1, true);
    BareAgain(r.s, g, Succ(g));
  }

  lemma BareAgain(s: State, g: Cidr, n: Cidr)
    requires Bare(s, g) && n.mask == g.mask
    ensures Bare(s.Goto(1, Writing(n)).(iprange := Some(n), log := s.log + [Got(PairOf(n))]).Goto(1, Outside), n)
  {
    hide PairOf;
    var t := s.Goto(1, Writing(n)).(iprange := Some(n), log := s.log + [Got(PairOf(n))]).Goto(1, Outside);
    assert t.lockers == {} && t.nodes == map[] && t.iprange == Some(n);
    assert forall p: Proc :: p != 1 ==> t.At(p) == s.At(p);
    assert t.At(1).Outside?;
    assert t.log == s.log + [Got(PairOf(n))];
  }

  lemma AskNext(r: Run, g: Cidr) returns (r': Run)
    requires r.Ok() && Bare(r.s, g) && Aligned(g) && (r.rules.bounded ==> Succ(g).ip > g.ip)
    ensures r'.Ok() && r'.conf == r.conf && r'.rules == r.rules && r'.s == r.s.Goto(1, Writing(Succ(g)))
  {
    hide Exec, Rem, Size, PairOf, Succ, Aligned;
    r' := Then(r, Enter(1));
    r' := Then(r', List(1));
    r' := Then(r', ReadRange(1));
  }

  lemma SuccMask(g: Cidr)
    requires g.mask <= 32
    ensures Succ(g).mask == g.mask
  {
  }

  lemma {:induction false} Climb(r: Run, g: Cidr, target: Cidr) returns (r': Run)
    requires r.Ok() && Bare(r.s, g) && Aligned(g) && Aligned(target) && target.mask == g.mask && g.ip <= target.ip
    ensures r'.Ok() && Bare(r'.s, target) && r'.conf == r.conf && r'.rules == r.rules && r.s.log <= r'.s.log
    decreases target.ip - g.ip
  {
    hide Exec, Rem, Size, PairOf, Bare;
    r' := r;
    if g.ip < target.ip {
      assert Succ(g).ip <= target.ip && Succ(g).ip > g.ip && Succ(g).mask == g.mask by {
        AlignedFits(target);
        SizeFacts(g.mask);
        Apart(g.ip, target.ip, Size(g.mask));
      }
      hide Succ, Aligned;
      r' := NextPair(r, g);
      r' := Climb(r', Succ(g), target);
    }
  }

  /** After the last range comes the first one again: whatever the configured range, enough answers
      give a pair a second time. */
  lemma WrapBreaks(conf: Cidr, rules: Rules) returns (r: Run)
    requires Aligned(conf) && conf.mask <= 30 && !rules.bounded
    ensures Overlaps(r) && r.conf == conf && r.rules == rules
  {
    hide Exec, Bare, NoOverlap, PairOf, Succ, Aligned, Size, Rem, Enabled, Apply;
    var last := LastBlock(conf);
    r := FirstPair(conf, rules);
    r := Round(r, conf, last);
    BareEnds(r.s, conf);
    SamePairTwice(r.s.log, PairOf(conf));
  }

  /** Up to the last range, and from 0.0.0.0 up to the first one again. */
  lemma Round(r: Run, conf: Cidr, last: Cidr) returns (r': Run)
    requires r.Ok() && Bare(r.s, conf) && |r.s.log| > 0 && Aligned(conf) && !r.rules.bounded
    requires Aligned(last) && last.mask == conf.mask && conf.ip <= last.ip
    requires Succ(last) == Cidr(0, conf.mask) && Aligned(Succ(last))
    ensures r'.Ok() && Bare(r'.s, conf) && r'.conf == r.conf && r'.rules == r.rules
    ensures |r'.s.log| > |r.s.log| && r'.s.log[0] == r.s.log[0]
  {
    hide *;
    r' := Climb(r, conf, last);
    var more := NextPair(r', last);
    r' := Climb(more, Cidr(0, conf.mask), conf);
  }

  lemma FirstPair(conf: Cidr, rules: Rules) returns (r: Run)
    requires Aligned(conf) && conf.mask <= 30
    ensures r.Ok() && r.conf == conf && r.rules == rules && Bare(r.s, conf) && r.s.log == [Got(PairOf(conf))]
  {
    hide Exec, Enabled, Apply, Rem, PairOf, Size, Aligned;
    r := Begin(conf, rules);
    r := FirstList(r, 1);
    r := BareRefresh(r, 1, true);
  }

  lemma BareEnds(s: State, g: Cidr)
    requires Bare(s, g)
    ensures |s.log| > 0 && s.log[|s.log| - 1] == Got(PairOf(g)) && forall i :: 0 <= i < |s.log| ==> s.log[i].Got?
  {
  }

  lemma LastBlock(conf: Cidr) returns (last: Cidr)
    requires Aligned(conf) && conf.mask <= 30
    ensures Aligned(last) && last.mask == conf.mask && conf.ip <= last.ip
    ensures Succ(last) == Cidr(0, conf.mask) && Aligned(Succ(last)) && |PairOf(conf)| == 2
  {
    hide Rem;
    RemOfMultiple(Size(conf.mask));
    last := BlockBefore(Cidr(0, conf.mask));
    AlignedFits(conf);
    SizeFacts(conf.mask);
  }

  /** Over every run of GetRouterIP and ReleaseRouterIP by any number of processes, first fill, pool,
      refresh and the leftover address of a refresh included: every answer has distinct addresses,
      and two answers share an address only if it was put back in between. This holds exactly if the
      lock excludes, iprange writes are not lost and the address space does not wrap. */
  lemma PairsNeverOverlap(rules: Rules)
    ensures Safe(rules) <==> rules.serial && rules.rangeWrites && rules.bounded
  {
    hide Exec, NoOverlap, Inv;
    if rules.serial && rules.rangeWrites && rules.bounded {
      forall conf, ls | Aligned(conf) && Exec(conf, rules, ls).Some?
        ensures NoOverlap(Exec(conf, rules, ls).value.log)
      {
        RunsKeep(conf, rules, ls);
        InvNoOverlap(conf, Exec(conf, rules, ls).value);
      }
    } else {
      var conf := Pool();
      var r: Run;
      if !rules.serial { r := UnserialBreaks(rules); }
      else if !rules.rangeWrites { r := LostRangeBreaks(rules); }
      else { r := WrapBreaks(conf, rules); }
      assert Exec(r.conf, rules, r.ls) == Some(r.s);
    }
  }

  lemma InvNoOverlap(conf: Cidr, s: State)
    requires Inv(conf, s)
    ensures NoOverlap(s.log)
  {
  }

  // ---------------------------------------------------------------- the calls as functions

  /** A refresh splits its range: the pair it returns and what it writes to the pool are disjoint,
      lie in the range, and with all writes taking effect are everything from the third address to
      the last but one (for a /30, the pair alone). */
  lemma RefreshSplits(s: Store, r: Cidr, luck: Luck, a: nat)
    requires Aligned(r) && r.mask <= 30 && !luck.reply.Stops?
    requires forall b: nat :: InRange(b, r) ==> b in luck.written
    ensures var ips := Refresh(s, r, luck).1;
            && ips.Ok? && |ips.value| == 2 && Distinct(ips.value)
            && (InRange(a, r) ==>
                  && !(Contains(ips.value, a) && a in Surplus(r, luck.written))
                  && (Contains(ips.value, a) || a in Surplus(r, luck.written) <==>
                      r.ip + 2 <= a && (a < r.ip + Size(r.mask) - 1 || Size(r.mask) == 4)))
            && (Contains(ips.value, a) || a in Surplus(r, luck.written) ==> InRange(a, r))
    ensures Refresh(s, r, luck).0.nodes == s.nodes + Surplus(r, luck.written)
  {
    hide Rem, Pow2;
    SizeFacts(r.mask);
    var ips := Refresh(s, r, luck).1.value;
    assert ips[0].ip == r.ip + 2 && ips[1].ip == r.ip + 3;
    assert Contains(ips, a) <==> a == r.ip + 2 || a == r.ip + 3;
  }

  /** The run `r'` continues `r` with steps of `p` only. */
  ghost predicate Alone(r: Run, r': Run, p: Proc) {
    && r'.Ok() && r'.conf == r.conf && r'.rules == r.rules
    && r.ls <= r'.ls && forall i :: |r.ls| <= i < |r'.ls| ==> r'.ls[i].p == p
  }

  /** Where a call of `p` stands: the positions of others are as before. */
  function StoreOf(s: State): Store { Store(s.iprange, s.nodes) }

  /** The fill loop, with the writes of `written` taking effect. */
  lemma {:induction false} FillAlone(r: Run, p: Proc, written: set<nat>, base: map<nat, Cidr>) returns (r': Run)
    requires r.Ok() && r.s.At(p).Filling?
    requires var g, at := r.s.At(p).range, r.s.At(p).at;
             && g.mask <= 30 && r.s.nodes == base + SurplusTo(g, written, at)
             && g.ip + 4 <= at && (at == g.ip + 4 || at <= Last(g))
    ensures Alone(r, r', p) && r'.s.iprange == r.s.iprange && r'.s.log == r.s.log
    ensures var g, pc := r.s.At(p).range, r'.s.At(p); pc.Filling? && pc.range == g && pc.at >= Last(g)
    ensures r'.s.nodes == base + Surplus(r.s.At(p).range, written)
    decreases Last(r.s.At(p).range) - r.s.At(p).at
  {
    hide Exec, Size, SurplusTo;
    var g, at := r.s.At(p).range, r.s.At(p).at;
    r' := r;
    if at < Last(g) {
      SurplusStep(g, written, at);
      r' := Then(r, Fill(p, at in written));
      r' := FillAlone(r', p, written, base);
    } else if at > Last(g) {
      SurplusStart(g, written, at);
      SurplusStart(g, written, Last(g));
    }
  }

  /** refreshRouterAvailable, from the write of iprange on. */
  lemma RefreshAlone(r: Run, p: Proc, luck: Luck) returns (r': Run)
    requires r.Ok() && r.s.At(p).Writing? && r.s.At(p).next.Wf()
    requires r.rules.rangeWrites && luck.reply.Ignored? ==> luck.reply.took
    ensures Alone(r, r', p) && r'.s.At(p).Outside?
    ensures var res := Refresh(StoreOf(r.s), r.s.At(p).next, luck);
            StoreOf(r'.s) == res.0 && r'.s.log == if res.1.Ok? then r.s.log + [Got(res.1.value)] else r.s.log
  {
    hide Exec, Size, SurplusTo, Aligned;
    var n, took := r.s.At(p).next, luck.reply.Took();
    if luck.reply.Stops? || !Aligned(n) || n.mask > 30 {
      r' := Then(r, WriteFails(p, took));
    } else {
      r' := Then(r, WriteRange(p, took));
      SurplusStart(n, luck.written, n.ip + 4);
      r' := FillAlone(r', p, luck.written, r.s.nodes);
      r' := Then(r', Filled(p));
    }
  }

  /** `order` names the candidates still in `left`, all of them nodes with the values of `listing`. */
  ghost predicate InOrder(order: seq<nat>, left: map<nat, Cidr>, nodes: map<nat, Cidr>, listing: map<nat, Cidr>) {
    && (forall a :: a in order <==> a in left)
    && (forall i, j :: 0 <= i < j < |order| ==> order[i] != order[j])
    && (forall a :: a in order ==> a in nodes && a in listing && left[a] == listing[a])
  }

  lemma {:induction false} OrderTail(order: seq<nat>, left: map<nat, Cidr>, nodes: map<nat, Cidr>,
                                     listing: map<nat, Cidr>, gone: set<nat>)
    requires InOrder(order, left, nodes, listing) && order != [] && gone <= {order[0]}
    ensures InOrder(order[1..], left - {order[0]}, nodes - gone, listing)
    ensures order[0] in left && order[0] in nodes && order[0] in listing && left[order[0]] == listing[order[0]]
  {
    assert forall b :: b in order[1..] <==> b in order && b != order[0];
  }

  lemma {:induction false} OrderNames(order: seq<nat>, left: map<nat, Cidr>, nodes: map<nat, Cidr>,
                                      listing: map<nat, Cidr>)
    requires InOrder(order, left, nodes, listing)
    ensures (forall a :: a in order ==> a in listing) && (order == [] ==> left == map[])
  {
  }

  /** The loop over a listing, in the order chance gives it. */
  lemma {:induction false} TakeAlone(r: Run, p: Proc, listing: map<nat, Cidr>, order: seq<nat>, luck: Luck)
    returns (r': Run)
    requires r.Ok() && r.s.At(p).Taking? && |r.s.At(p).got| <= 2
    requires InOrder(order, r.s.At(p).left, r.s.nodes, listing)
    ensures Alone(r, r', p) && r'.s.iprange == r.s.iprange && r'.s.log == r.s.log && r'.s.At(p).Taking?
    ensures |r'.s.At(p).got| == 2 || r'.s.At(p).left == map[]
    ensures forall a :: a in order ==> a in listing
    ensures var t := Routers.Take(listing, order, luck, 2 - |r.s.At(p).got|);
            r'.s.At(p).got == r.s.At(p).got + t.0 && r'.s.nodes == r.s.nodes - t.1
    decreases |order|
  {
    hide Exec, Enabled, Apply, Routers.Take, InOrder;
    var got, left := r.s.At(p).got, r.s.At(p).left;
    OrderNames(order, left, r.s.nodes, listing);
    r' := r;
    if |got| < 2 && order != [] {
      var a := order[0];
      TakeCons(listing, order, luck, 2 - |got|);
      OrderTail(order, left, r.s.nodes, listing, if a in luck.acked || a in luck.removed then {a} else {});
      r' := OneAlone(r, p, a, luck);
      r' := TakeAlone(r', p, listing, order[1..], luck);
    } else {
      TakeNone(listing, order, luck, 2 - |got|);
    }
  }

  /** One candidate. */
  lemma OneAlone(r: Run, p: Proc, a: nat, luck: Luck) returns (r': Run)
    requires r.Ok() && r.s.At(p).Taking? && |r.s.At(p).got| < 2 && a in r.s.At(p).left && a in r.s.nodes
    ensures Alone(r, r', p) && r'.s.iprange == r.s.iprange && r'.s.log == r.s.log
    ensures r'.s.nodes == r.s.nodes - (if a in luck.acked || a in luck.removed then {a} else {})
    ensures var got, left := r.s.At(p).got, r.s.At(p).left;
            r'.s.At(p) == Taking(left - {a}, if a in luck.acked then got + [left[a]] else got)
  {
    hide Exec;
    if a in luck.acked { r' := Then(r, Step.Take(p, a)); } else { r' := Then(r, Miss(p, a, a in luck.removed)); }
  }

  lemma {:induction false} TakeCons(nodes: map<nat, Cidr>, order: seq<nat>, luck: Luck, want: nat)
    requires (forall a :: a in order ==> a in nodes) && order != [] && want > 0
    ensures var a := order[0];
            var rest := Routers.Take(nodes, order[1..], luck, if a in luck.acked then want - 1 else want);
            var all := Routers.Take(nodes, order, luck, want);
            && all.0 == (if a in luck.acked then [nodes[a]] else []) + rest.0
            && all.1 == (if a in luck.acked || a in luck.removed then {a} else {}) + rest.1
  {
  }

  lemma {:induction false} TakeNone(nodes: map<nat, Cidr>, order: seq<nat>, luck: Luck, want: nat)
    requires (forall a :: a in order ==> a in nodes) && (order == [] || want == 0)
    ensures Routers.Take(nodes, order, luck, want) == ([], {})
  {
  }

  /** The range after the current one, if any, does not wrap. */
  predicate Roomy(s: State) {
    s.iprange.Some? && Aligned(s.iprange.value) ==> Succ(s.iprange.value).ip > s.iprange.value.ip
  }

  /** GetRouterIP as one call is a run of the protocol in which its process is alone: same store, same
      answer. So is what the class computes, and the theorem speaks about it. */
  lemma CallIsRun(r: Run, p: Proc, luck: Luck) returns (r': Run)
    requires r.Ok() && r.s.At(p).Outside? && r.s.lockers == {}
    requires (r.s.iprange.Some? ==> r.s.iprange.value.Wf()) && Lists(luck.order, r.s.nodes)
    requires r.rules.rangeWrites && luck.reply.Ignored? ==> luck.reply.took
    requires r.rules.bounded ==> Roomy(r.s)
    ensures Alone(r, r', p) && r'.s.At(p).Outside?
    ensures var res := GetRouterIP(r.conf, StoreOf(r.s), luck);
            StoreOf(r'.s) == res.0 && r'.s.log == if res.1.Ok? then r.s.log + [Got(res.1.value)] else r.s.log
  {
    assert r.conf.Wf();
    hide Exec, Enabled, Apply, Refresh, Routers.Take, Succ, Aligned, GetNextCIDR, Size, Alone;
    assert Count(StoreOf(r.s)) == r.s.Count();
    var r1 := ListAlone(r, p);
    if r.s.Count() == 0 {
      r' := RefreshAlone(r1, p, luck);
    } else if r.s.Count() < 3 {
      r' := AskAlone(r1, p, luck);
    } else {
      r' := PoolAlone(r1, p, luck);
    }
    AloneThen(r, r1, r', p);
  }

  lemma AloneThen(r: Run, r1: Run, r2: Run, p: Proc)
    requires Alone(r, r1, p) && Alone(r1, r2, p)
    ensures Alone(r, r2, p)
  {
    hide Exec;
    forall i | |r.ls| <= i < |r2.ls| ensures r2.ls[i].p == p {
      if i < |r1.ls| { assert r2.ls[i] == r1.ls[i]; }
    }
  }

  lemma ListAlone(r: Run, p: Proc) returns (r': Run)
    requires r.Ok() && r.s.At(p).Outside? && r.s.lockers == {}
    ensures Alone(r, r', p) && StoreOf(r'.s) == StoreOf(r.s) && r'.s.log == r.s.log
    ensures r'.s.At(p) == Listed(r.conf, r.s)
  {
    hide Exec, State.Count;
    r' := Then(r, Enter(p));
    assert r'.s.Count() == r.s.Count() by { CountDepends(r.s, r'.s); }
    r' := Then(r', List(p));
  }

  lemma CountDepends(s: State, t: State)
    requires StoreOf(s) == StoreOf(t)
    ensures s.Count() == t.Count()
  {
  }

  /** Three nodes or more: two of them are taken. */
  lemma PoolAlone(r: Run, p: Proc, luck: Luck) returns (r': Run)
    requires r.Ok() && r.s.At(p) == Taking(r.s.nodes, []) && Lists(luck.order, r.s.nodes)
    ensures Alone(r, r', p) && r'.s.At(p).Outside? && r'.s.iprange == r.s.iprange
    ensures var t := Routers.Take(r.s.nodes, luck.order, luck, 2);
            r'.s.nodes == r.s.nodes - t.1 && r'.s.log == r.s.log + [Got(t.0)]
  {
    hide Exec, Routers.Take;
    assert InOrder(luck.order, r.s.nodes, r.s.nodes, r.s.nodes);
    hide InOrder;
    r' := TakeAlone(r, p, r.s.nodes, luck.order, luck);
    assert [] + Routers.Take(r.s.nodes, luck.order, luck, 2).0 == Routers.Take(r.s.nodes, luck.order, luck, 2).0;
    r' := Then(r', Answer(p));
  }

  /** Fewer than three nodes: the next range, if there is one. */
  lemma AskAlone(r: Run, p: Proc, luck: Luck) returns (r': Run)
    requires r.Ok() && r.s.At(p).Asking? && (r.s.iprange.Some? ==> r.s.iprange.value.Wf())
    requires r.rules.rangeWrites && luck.reply.Ignored? ==> luck.reply.took
    requires r.rules.bounded ==> Roomy(r.s)
    ensures Alone(r, r', p) && r'.s.At(p).Outside?
    ensures var next := GetNextCIDR(r.s.iprange);
            if next.Ok? then
              var res := Refresh(StoreOf(r.s), next.value, luck);
              StoreOf(r'.s) == res.0 && r'.s.log == if res.1.Ok? then r.s.log + [Got(res.1.value)] else r.s.log
            else StoreOf(r'.s) == StoreOf(r.s) && r'.s.log == r.s.log
  {
    NextCIDR(r.s.iprange);
    if r.s.iprange.Some? && Aligned(r.s.iprange.value) {
      SuccIsNext(r.s.iprange.value);
      hide Refresh, Succ, Aligned, GetNextCIDR, Size, Enabled, Apply, Alone;
      var r1 := AskOnly(r, p);
      r' := RefreshAlone(r1, p, luck);
      AloneThen(r, r1, r', p);
    } else {
      hide Exec, Refresh, Succ, Aligned, GetNextCIDR, Size;
      r' := Then(r, Stop(p));
    }
  }

  lemma AskOnly(r: Run, p: Proc) returns (r': Run)
    requires r.Ok() && r.s.At(p).Asking? && r.s.iprange.Some? && Aligned(r.s.iprange.value)
    requires r.rules.bounded ==> Succ(r.s.iprange.value).ip > r.s.iprange.value.ip
    ensures Alone(r, r', p) && StoreOf(r'.s) == StoreOf(r.s) && r'.s.log == r.s.log
    ensures r'.s.At(p) == Writing(Succ(r.s.iprange.value)) && Succ(r.s.iprange.value).Wf()
  {
    SuccIsNext(r.s.iprange.value);
    hide Exec, Succ, Size;
    r' := Then(r, ReadRange(p));
  }
}
