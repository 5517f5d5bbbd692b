/** Whether the two addresses of a router pair are in one network. A refresh leaves what the pool still
    had, so an answer from the pool may be one old and one new address. */
module RouterNets {
  import opened Results
  import opened Addr
  import opened RouterRuns
  import opened RouterReturns

  /** The network a node's value names. */
  function Net(v: Cidr): Cidr { if v.mask <= 32 then Cidr(Base(v), v.mask) else v }

  ghost predicate OneNet(ips: seq<Cidr>) { forall i, j :: 0 <= i < j < |ips| ==> Net(ips[i]) == Net(ips[j]) }

  ghost predicate Uniform(nodes: map<nat, Cidr>) {
    forall a, b :: a in nodes && b in nodes ==> Net(nodes[a]) == Net(nodes[b])
  }

  /** `p` answers in this step. */
  predicate Replies(l: Step, p: Proc) { l == Answer(p) || l == Filled(p) }

  ghost predicate EndsInOneNet(log: seq<Event>) {
    |log| > 0 && log[|log| - 1].Got? && OneNet(log[|log| - 1].ips)
  }

  /** Whatever all processes do after the listing that ends the run, the answer of this call of `p`, if
      it comes, is in one network. */
  ghost predicate AnswersInOneNet(conf: Cidr, rules: Rules, ls: seq<Step>, p: Proc) {
    forall more ::
      Exec(conf, rules, ls + more).Some? && EndsCall(more, p) ==> EndsInOneNet(Exec(conf, rules, ls + more).value.log)
  }

  /** The last of these steps is the answer of the call that `p` is in. */
  predicate EndsCall(more: seq<Step>, p: Proc) {
    more != [] && Replies(more[|more| - 1], p) && SameCall(more, p)
  }

  /** `p` begins no new call. */
  predicate SameCall(more: seq<Step>, p: Proc) { forall i :: 0 <= i < |more| ==> more[i] != Enter(p) }

  // ---------------------------------------------------------------- one network

  /** Everything a call can still answer with, at this position, is in one network. */
  ghost predicate Narrow(pc: Pc) {
    match pc
    case Listing => false
    case Filling(range, _) => Aligned(range) && range.mask <= 30
    case Taking(left, got) =>
      Uniform(left) && OneNet(got) && forall i, a :: 0 <= i < |got| && a in left ==> Net(got[i]) == Net(left[a])
    case _ => true
  }

  lemma PairInOneNet(r: Cidr)
    requires Aligned(r) && r.mask <= 30
    ensures OneNet(PairOf(r))
  {
    SizeFacts(r.mask);
    Offset(r, r.ip + 2);
    Offset(r, r.ip + 3);
    hide Rem, Size;
  }

  /** One more address of a listing in one network. */
  lemma {:induction false} TakeNarrow(left: map<nat, Cidr>, got: seq<Cidr>, a: nat)
    requires Narrow(Taking(left, got)) && a in left
    ensures Narrow(Taking(left - {a}, got + [left[a]])) && Narrow(Taking(left - {a}, got))
  {
    hide Net;
  }

  lemma StepNarrow(conf: Cidr, rules: Rules, s: State, l: Step)
    requires Enabled(conf, rules, s, l) && Narrow(s.At(l.p)) && !l.Enter?
    ensures Narrow(Apply(conf, rules, s, l).At(l.p))
  {
    if l.Take? || l.Miss? { TakeNarrow(s.At(l.p).left, s.At(l.p).got, l.a); }
    hide SameNet, Given, Succ, Size, PairOf, State.Count, Aligned, OneNet, Uniform, Net;
  }

  lemma ReplyInOneNet(conf: Cidr, rules: Rules, s: State, l: Step, p: Proc)
    requires Enabled(conf, rules, s, l) && Narrow(s.At(p)) && Replies(l, p)
    ensures EndsInOneNet(Apply(conf, rules, s, l).log)
  {
    if l.Filled? { PairInOneNet(s.At(p).range); }
    hide SameNet, Given, Succ, Size, PairOf, State.Count, Aligned, OneNet, Uniform;
  }

  lemma {:induction false} LastOfSum(ls: seq<Step>, more: seq<Step>)
    requires more != []
    ensures var k, all := |more| - 1, ls + more; all[..|all| - 1] == ls + more[..k] && all[|all| - 1] == more[k]
  {
  }

  /** The last step of a longer run. */
  lemma {:induction false} LastOfMore(conf: Cidr, rules: Rules, ls: seq<Step>, more: seq<Step>, p: Proc)
    returns (before: seq<Step>, u: State, l: Step)
    requires Exec(conf, rules, ls + more).Some? && more != [] && SameCall(more, p)
    ensures more == before + [l] && SameCall(before, p) && l != Enter(p)
    ensures Exec(conf, rules, ls + before) == Some(u) && Enabled(conf, rules, u, l)
    ensures Exec(conf, rules, ls + more).value == Apply(conf, rules, u, l)
  {
    hide Exec, Enabled, Apply;
    before, l := more[..|more| - 1], more[|more| - 1];
    LastStep(conf, rules, ls + more);
    LastOfSum(ls, more);
    u := Exec(conf, rules, ls + before).value;
  }

  lemma {:induction false} StaysNarrow(conf: Cidr, rules: Rules, ls: seq<Step>, more: seq<Step>, p: Proc)
    requires Exec(conf, rules, ls).Some? && Narrow(Exec(conf, rules, ls).value.At(p))
    requires Exec(conf, rules, ls + more).Some? && SameCall(more, p)
    ensures Narrow(Exec(conf, rules, ls + more).value.At(p))
    decreases |more|
  {
    hide Exec, Enabled, Apply, Narrow, SameCall;
    if more == [] {
      assert ls + more == ls;
    } else {
      var before, u, l := LastOfMore(conf, rules, ls, more, p);
      StaysNarrow(conf, rules, ls, before, p);
      OthersStay(conf, rules, u, l);
      if l.p == p { StepNarrow(conf, rules, u, l); }
    }
  }

  // ---------------------------------------------------------------- two networks

  /** A call that has listed nodes of two networks may take one of each. */
  lemma TakesBoth(r: Run, p: Proc, a: nat, b: nat) returns (r': Run)
    requires r.Ok() && r.s.At(p) == Taking(r.s.nodes, []) && a in r.s.nodes && b in r.s.nodes
    requires Net(r.s.nodes[a]) != Net(r.s.nodes[b])
    ensures r'.Ok() && r'.conf == r.conf && r'.rules == r.rules && r'.ls == r.ls + [Take(p, a), Take(p, b), Answer(p)]
    ensures r'.s.log == r.s.log + [Got([r.s.nodes[a], r.s.nodes[b]])] && !EndsInOneNet(r'.s.log)
  {
    hide Exec, Net, EndsInOneNet, SameNet, Given, Aligned;
    var ips := [r.s.nodes[a], r.s.nodes[b]];
    r' := Then(r, Take(p, a));
    r' := Then(r', Take(p, b));
    assert r'.s.At(p).got == ips;
    r' := Then(r', Answer(p));
    TwoNets(r.s.log, ips);
  }

  lemma {:induction false} TwoNets(log: seq<Event>, ips: seq<Cidr>)
    requires |ips| == 2 && Net(ips[0]) != Net(ips[1])
    ensures !EndsInOneNet(log + [Got(ips)])
  {
    assert !OneNet(ips);
    hide OneNet;
    assert EndsInOneNet(log + [Got(ips)]) ==> OneNet(ips);
  }

  /** Where a listing leads: with fewer than three nodes to a refresh, else to the nodes listed. */
  lemma {:induction false} AfterList(conf: Cidr, rules: Rules, ls: seq<Step>, s: State, p: Proc)
    requires Exec(conf, rules, ls) == Some(s) && s.At(p).Listing?
    ensures Exec(conf, rules, ls + [List(p)]).Some?
    ensures var t := Exec(conf, rules, ls + [List(p)]).value;
            && t.nodes == s.nodes && t.At(p) == Listed(conf, s)
            && (Narrow(t.At(p)) <==> s.Count() < 3 || Uniform(s.nodes))
  {
    assert (ls + [List(p)])[..|ls|] == ls;
    hide Uniform, State.Count;
  }

  /** Whatever the environment does: the answer to a listing is sure to be in one network exactly if the
      listing shows fewer than three nodes, so that a refresh follows, or all its addresses are of one
      network. */
  lemma {:induction false} OneNetworkExactly(conf: Cidr, rules: Rules, ls: seq<Step>, s: State, p: Proc)
    requires Aligned(conf) && Exec(conf, rules, ls) == Some(s) && s.At(p).Listing?
    ensures AnswersInOneNet(conf, rules, ls + [List(p)], p) <==> s.Count() < 3 || Uniform(s.nodes)
  {
    AfterList(conf, rules, ls, s, p);
    hide Exec, Enabled, Apply, State.Count, Narrow, EndsInOneNet, Aligned, Uniform;
    var ls' := ls + [List(p)];
    if s.Count() < 3 || Uniform(s.nodes) {
      forall more | Exec(conf, rules, ls' + more).Some? && EndsCall(more, p)
        ensures EndsInOneNet(Exec(conf, rules, ls' + more).value.log)
      {
        LastInOneNet(conf, rules, ls', more, p);
      }
    } else {
      NotAlways(conf, rules, ls', Exec(conf, rules, ls').value, p);
    }
  }

  lemma {:induction false} NotAlways(conf: Cidr, rules: Rules, ls: seq<Step>, t: State, p: Proc)
    requires Aligned(conf) && Exec(conf, rules, ls) == Some(t) && t.At(p) == Taking(t.nodes, []) && !Uniform(t.nodes)
    ensures !AnswersInOneNet(conf, rules, ls, p)
  {
    hide Exec, Net, Aligned, EndsInOneNet, Enabled, Apply;
    var a, b :| a in t.nodes && b in t.nodes && Net(t.nodes[a]) != Net(t.nodes[b]);
    hide Uniform;
    var r := TakesBoth(Run(conf, rules, ls, t), p, a, b);
    assert EndsCall([Take(p, a), Take(p, b), Answer(p)], p);
  }

  lemma {:induction false} LastInOneNet(conf: Cidr, rules: Rules, ls: seq<Step>, more: seq<Step>, p: Proc)
    requires Exec(conf, rules, ls).Some? && Narrow(Exec(conf, rules, ls).value.At(p))
    requires Exec(conf, rules, ls + more).Some? && EndsCall(more, p)
    ensures EndsInOneNet(Exec(conf, rules, ls + more).value.log)
  {
    hide Exec, Enabled, Apply, Narrow, EndsInOneNet, SameCall;
    var before, u, l := LastOfMore(conf, rules, ls, more, p);
    StaysNarrow(conf, rules, ls, before, p);
    ReplyInOneNet(conf, rules, u, l, p);
  }

  // ---------------------------------------------------------------- a pair of two networks

  ghost predicate OnlyBy(ls: seq<Step>, p: Proc) { forall i :: 0 <= i < |ls| ==> ls[i].p == p }

  /** With one process, the lock is free when it is outside. */
  lemma {:induction false} SoloLock(conf: Cidr, rules: Rules, ls: seq<Step>, p: Proc)
    requires Exec(conf, rules, ls).Some? && OnlyBy(ls, p)
    ensures var s := Exec(conf, rules, ls).value; s.lockers == if InCs(s.At(p)) then {p} else {}
    decreases |ls|
  {
    hide Enabled, Apply;
    if ls != [] {
      var k := |ls| - 1;
      SoloLock(conf, rules, ls[..k], p);
      OthersStay(conf, rules, Exec(conf, rules, ls[..k]).value, ls[k]);
    }
  }

  /** A single process is outside, iprange names `g`, and the pool has these nodes. */
  ghost predicate At(r: Run, g: Cidr, nodes: map<nat, Cidr>) {
    && r.Ok() && OnlyBy(r.ls, 1) && r.s.At(1).Outside? && r.s.lockers == {}
    && r.s.iprange == Some(g) && r.s.nodes == nodes
  }

  /** A refresh of which one address reaches the pool. */
  lemma {:induction false} RefreshOne(r: Run, g: Cidr, v: Cidr) returns (r': Run)
    requires r.Ok() && OnlyBy(r.ls, 1) && r.s.At(1) == Writing(g) && Aligned(g) && g.mask <= 29
    requires v == Cidr(g.ip + 4, g.mask)
    ensures At(r', g, r.s.nodes[v.ip := v]) && r'.conf == r.conf && r'.rules == r.rules
  {
    OneSurplus(StoreOf(r.s), g, v);
    hide *;
    r' := RefreshAlone(r, 1, Chance(v.ip));
    IsSolo(r, r');
    StoreParts(r'.s);
  }

  /** iprange is written, and one pool write takes effect. */
  function Chance(a: nat): Routers.Luck { Routers.Luck(Routers.Done, {a}, [], {}, {}) }

  lemma OneSurplus(s: Routers.Store, g: Cidr, v: Cidr)
    requires Aligned(g) && g.mask <= 29 && v == Cidr(g.ip + 4, g.mask)
    ensures Routers.Refresh(s, g, Chance(v.ip)).0 == Routers.Store(Some(g), s.nodes[v.ip := v])
    ensures !Chance(v.ip).reply.Ignored? && g.Wf()
  {
    SizeFacts(g.mask);
    hide Size, Rem;
    assert Routers.Surplus(g, {v.ip}) == map[v.ip := v];
    assert s.nodes + map[v.ip := v] == s.nodes[v.ip := v];
  }

  lemma StoreParts(s: State)
    ensures StoreOf(s) == Routers.Store(s.iprange, s.nodes)
  {
  }

  lemma {:induction false} IsSolo(r: Run, r': Run)
    requires OnlyBy(r.ls, 1) && Alone(r, r', 1) && r'.s.At(1).Outside?
    ensures r'.Ok() && OnlyBy(r'.ls, 1) && r'.s.lockers == {} && r'.conf == r.conf && r'.rules == r.rules
  {
    hide Exec, OnlyBy;
    OnlyLonger(r.ls, r'.ls, 1);
    SoloLock(r'.conf, r'.rules, r'.ls, 1);
  }

  lemma {:induction false} OnlyLonger(ls: seq<Step>, ls': seq<Step>, p: Proc)
    requires OnlyBy(ls, p) && ls <= ls' && forall i :: |ls| <= i < |ls'| ==> ls'[i].p == p
    ensures OnlyBy(ls', p)
  {
  }

  lemma {:induction false} SoloThen(r: Run, l: Step) returns (r': Run)
    requires r.Ok() && OnlyBy(r.ls, 1) && l.p == 1 && Enabled(r.conf, r.rules, r.s, l)
    ensures r'.Ok() && r' == r.(ls := r.ls + [l], s := Apply(r.conf, r.rules, r.s, l)) && OnlyBy(r'.ls, 1)
  {
    hide Exec, Enabled, Apply;
    r' := Then(r, l);
  }

  /** The first call finds nothing. */
  lemma {:induction false} BeginsAlone(conf: Cidr, rules: Rules) returns (r: Run)
    requires Aligned(conf)
    ensures r.Ok() && OnlyBy(r.ls, 1) && r.conf == conf && r.rules == rules
    ensures r.s.At(1) == Writing(conf) && r.s.nodes == map[]
  {
    hide Exec, Aligned, OnlyBy;
    r := Begin(conf, rules);
    assert OnlyBy(r.ls, 1) by { OnlyNone(1); }
    r := SoloThen(r, Enter(1));
    r := SoloThen(r, List(1));
  }

  lemma OnlyNone(p: Proc)
    ensures OnlyBy([], p)
  {
  }

  /** With one address left, the next call asks for the next range. */
  lemma {:induction false} Asks(r: Run, g: Cidr, v: Cidr) returns (r': Run)
    requires At(r, g, map[v.ip := v]) && Aligned(g) && Succ(g).ip > g.ip
    ensures r'.Ok() && OnlyBy(r'.ls, 1) && r'.s.At(1) == Writing(Succ(g)) && r'.s.nodes == map[v.ip := v]
    ensures r'.conf == r.conf && r'.rules == r.rules
  {
    hide Exec, Succ, Aligned, OnlyBy;
    r' := SoloThen(r, Enter(1));
    r' := SoloThen(r', List(1));
    r' := SoloThen(r', ReadRange(1));
  }

  /** With two addresses left, the call after that takes both. */
  lemma {:induction false} Empties(r: Run, g: Cidr, u: Cidr, v: Cidr) returns (r': Run)
    requires At(r, g, map[u.ip := u, v.ip := v]) && u.ip != v.ip && Net(u) != Net(v)
    ensures r'.Ok() && r'.conf == r.conf && r'.rules == r.rules && r'.s.log == r.s.log + [Got([u, v])]
  {
    hide Exec, Net;
    assert r.s.nodes.Keys == {u.ip, v.ip};
    assert r.s.Count() == 3;
    r' := Then(r, Enter(1));
    CountDepends(r.s, r'.s);
    hide State.Count;
    r' := Then(r', List(1));
    r' := TakesBoth(r', 1, u.ip, v.ip);
  }

  /** Whatever the environment guarantees, three calls of one process, of which the last is answered
      with an address of the first range and one of the second. */
  lemma PairSpansNetworks(rules: Rules) returns (r: Run, u: Cidr, v: Cidr)
    ensures r.Ok() && r.rules == rules && Net(u) != Net(v)
    ensures |r.s.log| > 0 && r.s.log[|r.s.log| - 1] == Got([u, v])
  {
    var conf := Pool();
    PoolFacts(conf);
    var n := Succ(conf);
    u, v := Cidr(conf.ip + 4, 24), Cidr(n.ip + 4, 24);
    NetsDiffer(conf, u, v);
    hide *;
    r := BeginsAlone(conf, rules);
    r := RefreshOne(r, conf, u);
    r := Asks(r, conf, u);
    r := RefreshOne(r, n, v);
    r := Empties(r, n, u, v);
  }

  lemma NetsDiffer(conf: Cidr, u: Cidr, v: Cidr)
    requires Aligned(conf) && conf.mask == 24 && Succ(conf) == Cidr(conf.ip + 256, 24) && Size(24) == 256
    requires Aligned(Succ(conf)) && u == Cidr(conf.ip + 4, 24) && v == Cidr(conf.ip + 260, 24)
    ensures Net(u) != Net(v)
  {
    Offset(conf, u.ip);
    Offset(Succ(conf), v.ip);
    hide Rem, Size, Aligned;
  }
}
