/** The life of one container across all interleavings: repeated ADDs, what a DEL undoes, and the
    order of its steps. */
module TenantLife {
  import opened Results
  import opened Addr
  import opened Tenant
  import opened TenantInv
  import opened TenantFree
  import opened TenantRuns
  import opened TenantTheorems

  // ---------------------------------------------------------------- repeated ADD

  /** What belongs to container `c` alone. */
  datatype Own = Own(
    pc: Pc, record: Option<Cidr>, binding: Option<Port>, result: Option<Cidr>, held: set<nat>, gone: bool)

  function OwnOf(s: State, c: Container): Own {
    Own(s.At(c), Lookup(s.records, c), Lookup(s.bindings, c), Lookup(s.results, c), HeldBy(s, c), c in s.gone)
  }

  lemma ForeignHeld(s: State, t: State, d: Container)
    requires Foreign(s, t, d)
    ensures HeldBy(t, d) == HeldBy(s, d)
  {
    forall a ensures a in HeldBy(t, d) <==> a in HeldBy(s, d) {
      assert Hold(d, a) in t.held <==> Hold(d, a) in s.held;
      if a in HeldBy(t, d) { var h :| h in t.held && h.c == d && h.a == a; assert h == Hold(d, a); }
      if a in HeldBy(s, d) { var h :| h in s.held && h.c == d && h.a == a; assert h == Hold(d, a); }
    }
  }

  /** A step of another container changes nothing of `d`'s own. */
  lemma OtherStep(w: World, s: State, l: Step, d: Container)
    requires Enabled(w, s, l) && l.c != d
    ensures OwnOf(Apply(w, s, l), d) == OwnOf(s, d)
  {
    OthersStay(w, s, l);
    StepForeign(w, s, l, d);
    hide Apply, Enabled, OwnOf, Foreign;
    ForeignOwn(s, Apply(w, s, l), d);
  }

  lemma ForeignOwn(s: State, t: State, d: Container)
    requires Foreign(s, t, d) && t.At(d) == s.At(d)
    ensures OwnOf(t, d) == OwnOf(s, d)
  {
    ForeignHeld(s, t, d);
    hide HeldBy;
  }

  /** All steps of a run by others. */
  ghost predicate ByOthers(c: Container, ls: seq<Step>) { forall i :: 0 <= i < |ls| ==> ls[i].c != c }

  lemma {:induction false} OtherSteps(w: World, s: State, ls: seq<Step>, c: Container)
    requires Exec(w, s, ls).Some? && ByOthers(c, ls)
    ensures OwnOf(Exec(w, s, ls).value, c) == OwnOf(s, c)
    decreases |ls|
  {
    hide Enabled, Apply, OwnOf;
    if ls != [] {
      var k := |ls| - 1;
      OtherSteps(w, s, ls[..k], c);
      OtherStep(w, Exec(w, s, ls[..k]).value, ls[k], c);
    }
  }

  /** What etcd and MidoNet show of a state. */
  datatype Store = Store(
    iprange: Cidr, pool: map<nat, Cidr>, records: map<Container, Cidr>, bindings: map<Container, Port>,
    results: map<Container, Cidr>, ports: set<Port>)

  function StoreOf(s: State): Store { Store(s.iprange, s.pool, s.records, s.bindings, s.results, s.ports) }

  /** The address an ADD returns in this step, if it ends successfully here. */
  function Answer(s: State, l: Step): Option<Cidr> {
    if l.Add? && l.add.Cached? then Lookup(s.results, l.c)
    else if l.Add? && l.add.Save? && s.At(l.c).Saving? then Some(s.At(l.c).v)
    else None
  }

  /** Step `i` of the run leaves the store alone, and if it answers an ADD, then with the result that
      was stored in `s`. */
  ghost predicate JustReturns(w: World, s: State, ls: seq<Step>, i: nat, c: Container)
    requires i < |ls|
  {
    && Exec(w, s, ls[..i]).Some? && Enabled(w, Exec(w, s, ls[..i]).value, ls[i])
    && var u := Exec(w, s, ls[..i]).value;
    && StoreOf(Apply(w, u, ls[i])) == StoreOf(u)
    && (Answer(u, ls[i]).Some? ==> Answer(u, ls[i]) == Lookup(s.results, c))
  }

  /** No step of a DEL for `c`. */
  predicate NoDel(ls: seq<Step>, c: Container) { forall i :: 0 <= i < |ls| && ls[i].c == c ==> !ls[i].Del? }

  ghost predicate AllReturn(w: World, s: State, ls: seq<Step>, c: Container) {
    forall i :: 0 <= i < |ls| && ls[i].c == c ==> JustReturns(w, s, ls, i, c)
  }

  /** Nothing of `c`'s own changes, except that it may be given its result again. */
  ghost predicate Kept(s: State, t: State, c: Container) {
    && t.At(c) == s.At(c) && Lookup(t.records, c) == Lookup(s.records, c)
    && Lookup(t.bindings, c) == Lookup(s.bindings, c) && Lookup(t.results, c) == Lookup(s.results, c)
    && (c in t.gone <==> c in s.gone)
    && (forall a :: Hold(c, a) in s.held ==> Hold(c, a) in t.held)
    && (forall a :: Hold(c, a) in t.held ==> Hold(c, a) in s.held || (c in s.results && a == s.results[c].ip))
  }

  /** Once an ADD has stored its result, and until a DEL for the container begins, whatever other
      containers do: every further ADD returns that result, and neither the pool nor any record,
      binding or port is changed by it. Needs only that an existing result can be read. */
  lemma {:induction false} RepeatedAdd(w: World, s: State, ls: seq<Step>, c: Container)
    requires w.rules.faithful && Exec(w, s, ls).Some?
    requires c in s.results && s.At(c).Idle? && NoDel(ls, c)
    ensures Kept(s, Exec(w, s, ls).value, c) && AllReturn(w, s, ls, c)
    decreases |ls|
  {
    if ls != [] {
      ExecLast(w, s, ls);
      hide *;
      NoDelBefore(ls, c);
      RepeatedAdd(w, s, ls[..|ls| - 1], c);
      RepeatedLast(w, s, ls, c);
      ReturnsSnoc(w, s, ls, c);
    }
  }

  lemma {:induction false} NoDelBefore(ls: seq<Step>, c: Container)
    requires ls != [] && NoDel(ls, c)
    ensures NoDel(ls[..|ls| - 1], c) && (ls[|ls| - 1].c == c ==> !ls[|ls| - 1].Del?)
  {
  }

  lemma {:induction false} ReturnsSnoc(w: World, s: State, ls: seq<Step>, c: Container)
    requires ls != [] && AllReturn(w, s, ls[..|ls| - 1], c)
    requires ls[|ls| - 1].c == c ==> JustReturns(w, s, ls, |ls| - 1, c)
    ensures AllReturn(w, s, ls, c)
  {
    hide JustReturns;
    forall i | 0 <= i < |ls| && ls[i].c == c ensures JustReturns(w, s, ls, i, c) {
      if i < |ls| - 1 {
        assert ls[..|ls| - 1][i] == ls[i];
        ReturnsLonger(w, s, ls, |ls| - 1, i, c);
      }
    }
  }

  lemma {:induction false} RepeatedLast(w: World, s: State, ls: seq<Step>, c: Container)
    requires w.rules.faithful && Exec(w, s, ls).Some? && ls != []
    requires c in s.results && s.At(c).Idle? && (ls[|ls| - 1].c == c ==> !ls[|ls| - 1].Del?)
    requires var u := Exec(w, s, ls[..|ls| - 1]); u.Some? && Kept(s, u.value, c)
    ensures Kept(s, Exec(w, s, ls).value, c)
    ensures ls[|ls| - 1].c == c ==> JustReturns(w, s, ls, |ls| - 1, c)
  {
    ExecLast(w, s, ls);
    hide Exec, Enabled, Apply, StoreOf, Answer;
    var l := ls[|ls| - 1];
    var u := Exec(w, s, ls[..|ls| - 1]).value;
    if l.c != c {
      OthersKeep(w, s, u, l, c);
    } else {
      CachedOnly(w, s, u, l, c);
    }
  }

  lemma OthersKeep(w: World, s: State, u: State, l: Step, c: Container)
    requires Kept(s, u, c) && Enabled(w, u, l) && l.c != c
    ensures Kept(s, Apply(w, u, l), c)
  {
    OtherStep(w, u, l, c);
    OwnShows(u, Apply(w, u, l), c);
    hide Apply, Enabled, OwnOf;
  }

  lemma {:induction false} ReturnsLonger(w: World, s: State, ls: seq<Step>, k: nat, i: nat, c: Container)
    requires i < k <= |ls| && JustReturns(w, s, ls[..k], i, c)
    ensures JustReturns(w, s, ls, i, c)
  {
    hide Exec, Enabled, Apply;
    assert ls[..k][..i] == ls[..i];
  }

  lemma OwnShows(s: State, u: State, c: Container)
    requires OwnOf(u, c) == OwnOf(s, c)
    ensures u.At(c) == s.At(c) && Lookup(u.results, c) == Lookup(s.results, c) && (c in u.gone <==> c in s.gone)
    ensures Lookup(u.records, c) == Lookup(s.records, c) && Lookup(u.bindings, c) == Lookup(s.bindings, c)
    ensures forall a :: Hold(c, a) in u.held <==> Hold(c, a) in s.held
  {
    forall a ensures Hold(c, a) in u.held <==> Hold(c, a) in s.held { HeldByHas(u, c, a); HeldByHas(s, c, a); }
  }

  lemma CachedOnly(w: World, s: State, u: State, l: Step, c: Container)
    requires w.rules.faithful && l.c == c && !l.Del? && Enabled(w, u, l) && u.At(c).Idle?
    requires Kept(s, u, c) && c in s.results
    ensures Kept(s, Apply(w, u, l), c) && StoreOf(Apply(w, u, l)) == StoreOf(u)
    ensures Answer(u, l).Some? ==> Answer(u, l) == Lookup(s.results, c)
  {
    hide RefillEffect, RefillTarget;
    OthersStay(w, u, l);
    if l.Refill? { RefillNotIdle(w, u, c, l.refill); }
    if l.Add? { assert l.add.Cached?; }
  }

  /** ADD is idempotent: from any reachable state in which a container has a stored result and no
      command is under way for it, over every continuation without a DEL for it. */
  ghost predicate Idempotent(rules: Rules) {
    forall conf, s, ls, ls', c ::
      Init(World(conf, rules), s) && Exec(World(conf, rules), s, ls).Some?
      && HasResult(Exec(World(conf, rules), s, ls).value, c) && NoDel(ls', c)
      && Exec(World(conf, rules), Exec(World(conf, rules), s, ls).value, ls').Some?
      ==> AllReturn(World(conf, rules), Exec(World(conf, rules), s, ls).value, ls', c)
  }

  predicate HasResult(s: State, c: Container) { c in s.results && s.At(c).Idle? }

  /** ADD is idempotent over all runs exactly if an existing result can always be read. */
  lemma AddIsIdempotent(rules: Rules)
    ensures Idempotent(rules) <==> rules.faithful
  {
    hide Exec, Init, AllReturn, NoDel;
    if rules.faithful {
      forall conf, s, ls, ls', c |
        Init(World(conf, rules), s) && Exec(World(conf, rules), s, ls).Some?
        && HasResult(Exec(World(conf, rules), s, ls).value, c) && NoDel(ls', c)
        && Exec(World(conf, rules), Exec(World(conf, rules), s, ls).value, ls').Some?
        ensures AllReturn(World(conf, rules), Exec(World(conf, rules), s, ls).value, ls', c)
      {
        RepeatedAdd(World(conf, rules), Exec(World(conf, rules), s, ls).value, ls', c);
      }
    } else {
      var r, r' := UnreadResultReallocates(rules);
      assert r.w == World(r.w.conf, rules);
      assert Exec(World(r.w.conf, rules), r.from, r.ls).value == r.s;
    }
  }

  lemma RefillNotIdle(w: World, s: State, c: Container, x: RefillStep)
    requires RefillEnabled(w, s, c, x)
    ensures !s.At(c).Idle?
  {
  }

  /** The address in a stored result stays the container's own, and nobody else's, until its DEL. */
  lemma {:induction false} ResultIsOwn(w: World, s: State, ls: seq<Step>, t: State, c: Container, d: Container)
    requires Init(w, s) && Sound(w.rules) && Exec(w, s, ls) == Some(t)
    requires c in t.results && c !in t.gone
    ensures Hold(c, t.results[c].ip) in t.held
    ensures Hold(d, t.results[c].ip) in t.held ==> d == c
  {
    Reached(w, s, ls, t);
    assert LocalInv(w, t, c);
  }

  /** A DEL that has deleted its port puts the recorded address back and forgets the record. */
  lemma PutAndForget(r: Run, c: Container) returns (r': Run)
    requires r.Ok() && r.s.At(c).ReadingRecord? && r.s.lockers == {}
    requires c in r.s.records && r.s.records[c].mask <= 32 && r.s.iprange.mask <= 32
    requires SameNet(r.s.iprange, r.s.records[c]) && HeldBy(r.s, c) == {r.s.records[c].ip}
    ensures r'.Ok() && r'.w == r.w && r'.from == r.from
    ensures r'.ls == r.ls + DelFromRecord(c, r.s.records[c].ip)
    ensures var t, v := r'.s, r.s.records[c];
            && t.At(c).Idle? && t.lockers == {}
            && t == r.s.(pool := r.s.pool[v.ip := v], held := r.s.held - {Hold(c, v.ip)}, records := r.s.records - {c},
                    pcs := t.pcs, lockers := t.lockers)
  {
    hide Exec, Enabled, Apply, Effect, Target, SameNet, HeldBy;
    var v := r.s.records[c];
    r' := ReadsRecord(r, c);
    r' := ReadsNet(r', c);
    r' := PutInLock(r', c);
    LastHold(r.s, c, v.ip, r'.s.held);
    r' := ForgetOnly(r', c);
  }

  lemma PutInLock(r: Run, c: Container) returns (r': Run)
    requires r.Ok() && r.s.At(c).WantPut? && r.s.lockers == {}
    ensures r'.Ok() && r'.w == r.w && r'.from == r.from
    ensures r'.ls == r.ls + [Del(c, LockPut), Del(c, Put(r.s.At(c).v.ip, true))]
    ensures var v := r.s.At(c).v;
            r'.s == r.s.(pool := r.s.pool[v.ip := v], held := r.s.held - {Hold(c, v.ip)},
            pcs := r.s.pcs[c := Forgetting], lockers := {})
  {
    hide Exec, Enabled, Apply, Effect, Target;
    r' := TakesLock(r, c);
    r' := Puts(r', c);
  }

  /** The record goes, of a container that holds nothing. */
  lemma ForgetOnly(r: Run, c: Container) returns (r': Run)
    requires r.Ok() && r.s.At(c).Forgetting? && forall h :: h in r.s.held ==> h.c != c
    ensures r'.Ok() && r'.w == r.w && r'.from == r.from && r'.ls == r.ls + [Del(c, Forget(true))]
    ensures r'.s == r.s.(records := r.s.records - {c}, pcs := r.s.pcs[c := Idle], lockers := r.s.lockers - {c})
  {
    hide Exec, Enabled, Apply, Effect, Target, HeldBy;
    HeldByDepends(r.s, c);
    r' := Dels(r, c, Forget(true));
    assert r'.s.lost == r.s.lost + {} == r.s.lost;
    assert r'.s.held == r.s.held;
  }

  lemma HeldByDepends(s: State, c: Container)
    requires forall h :: h in s.held ==> h.c != c
    ensures HeldBy(s, c) == {}
  {
  }

  lemma LastHold(s: State, c: Container, a: nat, held: set<Hold>)
    requires HeldBy(s, c) == {a} && held == s.held - {Hold(c, a)}
    ensures forall h :: h in held ==> h.c != c
    ensures (set h | h in held && h.c != c) == held
  {
    forall h | h in s.held && h.c == c ensures h == Hold(c, a) { assert h.a in HeldBy(s, c); }
  }

  /** An ADD that claims `a` and meets no failure, operation by operation. */
  function WholeAdd(c: Container, a: nat): seq<Step> {
    [Add(c, Start), Add(c, List), Add(c, Claim(a)), Add(c, Record(true)), Add(c, Bind), Add(c, Save(true))]
  }

  /** A DEL that releases `a` and meets no failure, operation by operation. */
  function WholeDel(c: Container, a: nat): seq<Step> {
    DelToRecord(c) + DelFromRecord(c, a)
  }

  function DelToRecord(c: Container): seq<Step> {
    [Del(c, DelStart(true)), Del(c, ReadBinding(true)), Del(c, PortOk), Del(c, DropBinding(true))]
  }

  function DelFromRecord(c: Container, a: nat): seq<Step> {
    [Del(c, ReadRecord(true)), Del(c, ReadNet), Del(c, LockPut), Del(c, Put(a, true)), Del(c, Forget(true))]
  }

  /** From any state reachable under any rules, an ADD and the DEL after it, alone and without failures, can be taken
      step by step; the ADD returns the address it claimed, and after the DEL the whole store is as
      it was: pool, records, bindings, results and ports, and nobody's hold has changed. */
  lemma DelUndoesAdd(r: Run, c: Container, a: nat) returns (mid: Run, r': Run)
    requires r.Ok() && Init(r.w, r.from) && r.s.lockers == {}
    requires Ready(r, c) && c !in r.s.records && c !in r.s.bindings && HeldBy(r.s, c) == {}
    requires a in r.s.pool && r.s.iprange.mask <= 32 && InRange(a, r.s.iprange)
    ensures mid.Ok() && mid.w == r.w && mid.from == r.from && mid.ls == r.ls + WholeAdd(c, a)
    ensures c in mid.s.results && mid.s.results[c].ip == a && Hold(c, a) in mid.s.held && a !in mid.s.pool
    ensures r'.Ok() && r'.w == r.w && r'.from == r.from && r'.ls == mid.ls + WholeDel(c, a)
    ensures r'.s.At(c).Idle?
    ensures r'.s == r.s.(nextPort := r.s.nextPort + 1, gone := r.s.gone + {c}, pcs := r'.s.pcs)
  {
    hide *;
    PoolEntry(r, a);
    NotHeld(r.s, c, a);
    mid := AddAlone(r, c, a);
    r' := DelBack(mid, r.s, c, a);
  }

  /** The DEL after an ADD that found the store as in `s`. */
  lemma DelBack(r: Run, s: State, c: Container, a: nat) returns (r': Run)
    requires r.Ok() && r.s.At(c).Idle? && s.lockers == {} && HeldBy(s, c) == {} && Hold(c, a) !in s.held
    requires c !in s.records && c !in s.bindings && c !in s.results && s.nextPort !in s.ports
    requires a in s.pool && s.pool[a].ip == a && s.pool[a].mask <= 32 && s.iprange.mask <= 32
    requires SameNet(s.iprange, s.pool[a])
    requires var v, p := s.pool[a], s.nextPort;
             r.s == s.(pool := s.pool - {a}, held := s.held + {Hold(c, a)}, records := s.records[c := v],
             results := s.results[c := v], bindings := s.bindings[c := p], ports := s.ports + {p},
             nextPort := p + 1, pcs := r.s.pcs)
    ensures r'.Ok() && r'.w == r.w && r'.from == r.from && r'.ls == r.ls + WholeDel(c, a)
    ensures r'.s.At(c).Idle?
    ensures r'.s == s.(nextPort := s.nextPort + 1, gone := s.gone + {c}, pcs := r'.s.pcs)
  {
    assert WholeDel(c, a) == DelToRecord(c) + DelFromRecord(c, a);
    hide *;
    r' := DetachNew(r, s.bindings, s.results, s.ports, c);
    OnlyHold(s, r'.s, c, a);
    r' := PutBackNew(r', s.pool, s.held, s.records, c, a);
  }

  /** The second half of a DEL, for a record and a hold that are the newest. */
  lemma PutBackNew(r: Run, pool: map<nat, Cidr>, held: set<Hold>, records: map<Container, Cidr>, c: Container, a: nat)
    returns (r': Run)
    requires r.Ok() && r.s.At(c).ReadingRecord? && r.s.lockers == {} && HeldBy(r.s, c) == {a}
    requires a in pool && pool[a].ip == a && pool[a].mask <= 32
    requires r.s.iprange.mask <= 32 && SameNet(r.s.iprange, pool[a])
    requires c !in records && r.s.records == records[c := pool[a]] && r.s.pool == pool - {a}
    requires Hold(c, a) !in held && r.s.held == held + {Hold(c, a)}
    ensures r'.Ok() && r'.w == r.w && r'.from == r.from && r'.ls == r.ls + DelFromRecord(c, a)
    ensures r'.s.At(c).Idle? && r'.s == r.s.(pool := pool, held := held, records := records, pcs := r'.s.pcs)
  {
    hide Exec, Enabled, Apply, Effect, Target, SameNet, HeldBy, DelFromRecord;
    r' := PutAndForget(r, c);
    assert r'.s.held == held;
    PutBackEntry(pool, a);
    RemoveNew(records, c, pool[a]);
  }

  lemma PutBackEntry<V>(m: map<nat, V>, a: nat)
    requires a in m
    ensures (m - {a})[a := m[a]] == m
  {
  }

  lemma RemoveNew<V>(m: map<nat, V>, a: nat, v: V)
    requires a !in m
    ensures m[a := v] - {a} == m
  {
  }

  lemma AddAlone(r: Run, c: Container, a: nat) returns (r': Run)
    requires r.Ok() && r.s.lockers == {} && Ready(r, c) && c !in r.s.bindings
    requires a in r.s.pool && a % 256 != 254
    ensures r'.Ok() && r'.w == r.w && r'.from == r.from && r'.s.At(c).Idle? && r'.ls == r.ls + WholeAdd(c, a)
    ensures var v, p := r.s.pool[a], r.s.nextPort;
            r'.s == r.s.(pool := r.s.pool - {a}, held := r.s.held + {Hold(c, a)}, records := r.s.records[c := v],
            results := r.s.results[c := v], bindings := r.s.bindings[c := p], ports := r.s.ports + {p},
            nextPort := p + 1, pcs := r'.s.pcs)
    ensures c !in r.s.results
  {
    hide Exec, Enabled, Apply, Effect, Target;
    r' := Take(r, c, a);
    r' := Complete(r', c);
  }

  /** The first half of a DEL, for a binding and a result that are the newest. */
  lemma DetachNew(r: Run, bindings: map<Container, Port>, results: map<Container, Cidr>, ports: set<Port>, c: Container)
    returns (r': Run)
    requires r.Ok() && r.s.At(c).Idle? && r.s.lockers == {} && c in r.s.bindings && c in r.s.results
    requires c !in bindings && r.s.bindings == bindings[c := r.s.bindings[c]]
    requires c !in results && r.s.results == results[c := r.s.results[c]]
    requires r.s.bindings[c] !in ports && r.s.ports == ports + {r.s.bindings[c]}
    ensures r'.Ok() && r'.w == r.w && r'.from == r.from && r'.s.At(c).ReadingRecord? && r'.ls == r.ls + DelToRecord(c)
    ensures r'.s == r.s.(bindings := bindings, results := results, ports := ports, gone := r.s.gone + {c},
                    pcs := r'.s.pcs)
  {
    hide Exec, Enabled, Apply, Effect, Target;
    r' := DetachPort(r, c, true);
    RemoveNew(bindings, c, r.s.bindings[c]);
    RemoveNew(results, c, r.s.results[c]);
    assert r'.s.ports == ports;
  }

  lemma PoolEntry(r: Run, a: nat)
    requires r.Ok() && Init(r.w, r.from)
    requires a in r.s.pool && r.s.iprange.mask <= 32 && InRange(a, r.s.iprange)
    ensures r.s.pool[a] == Cidr(a, r.s.iprange.mask) && a % 256 != 254
    ensures SameNet(r.s.iprange, r.s.pool[a]) && r.s.nextPort !in r.s.ports
  {
    AlwaysFree(r.w, r.from, r.ls);
    AlwaysTracks(r.w, r.from, r.ls);
    hide Exec, Init;
    PoolEntryAt(r.w, r.s, a);
  }

  lemma PoolEntryAt(w: World, t: State, a: nat)
    requires FreeInv(w, t) && Tracks(t) && a in t.pool && InRange(a, t.iprange)
    ensures t.pool[a] == Cidr(a, t.iprange.mask) && a % 256 != 254
    ensures SameNet(t.iprange, t.pool[a]) && t.nextPort !in t.ports
  {
    assert NodesIn(w, Offerable(w), t.pool) && PortsBelow(t);
    hide StoreIn, PcIn, SameNet, Tracked, Aligned, InRange;
    SameNetIsMembership(t.iprange, t.pool[a]);
  }

  lemma NotHeld(s: State, c: Container, a: nat)
    requires HeldBy(s, c) == {}
    ensures Hold(c, a) !in s.held
  {
    assert Hold(c, a) in s.held ==> a in HeldBy(s, c);
  }

  lemma OnlyHold(s: State, t: State, c: Container, a: nat)
    requires HeldBy(s, c) == {} && t.held == s.held + {Hold(c, a)}
    ensures HeldBy(t, c) == {a}
  {
    assert Hold(c, a) in t.held;
    assert forall h :: h in s.held && h.c == c ==> h.a in HeldBy(s, c);
    forall b | b in HeldBy(t, c) ensures b == a {
      var h :| h in t.held && h.c == c && h.a == b;
    }
  }

  /** If reading the stored result may fail, an ADD after the stored result takes a second address. */
  lemma UnreadResultReallocates(rules: Rules) returns (r: Run, r': Run)
    requires !rules.faithful
    ensures r.Ok() && Init(r.w, r.from) && r.w.rules == rules && HasResult(r.s, 1)
    ensures r'.Ok() && r'.w == r.w && r'.from == r.s
    ensures r'.ls == [Add(1, Start), Add(1, List), Add(1, Claim(NET.ip + 3))] && NoDel(r'.ls, 1)
    ensures r.s.results[1].ip == NET.ip + 2 && r'.s.held == {Hold(1, NET.ip + 2), Hold(1, NET.ip + 3)}
    ensures !AllReturn(r.w, r.s, r'.ls, 1)
  {
    hide Exec, Init, Next, AllocFrom, Size, Enabled, Apply, Effect, Target, AllReturn;
    NetFacts();
    r := Finished(rules);
    r' := Run(r.w, r.s, [], r.s);
    assert r'.Ok() by { ExecStart(r.w, r.s); }
    r' := Take(r', 1, NET.ip + 3);
    ClaimIsNoReturn(r', 1, NET.ip + 3);
  }

  /** Container 1 has completed an ADD, and another address is still there. */
  lemma Finished(rules: Rules) returns (r: Run)
    ensures r.Ok() && Init(r.w, r.from) && r.w.rules == rules && r.s.At(1).Idle? && r.s.gone == {}
    ensures Lookup(r.s.results, 1) == Some(Cidr(NET.ip + 2, 29)) && NET.ip + 3 in r.s.pool
    ensures r.s.held == {Hold(1, NET.ip + 2)}
  {
    hide Exec, Init, Next, AllocFrom, Size, Enabled, Apply, Effect, Target;
    NetFacts();
    r := Begin(rules, {2, 3});
    r := Take(r, 1, NET.ip + 2);
    r := Complete(r, 1);
  }

  lemma ExecStart(w: World, s: State)
    ensures Exec(w, s, []) == Some(s)
  {
  }

  lemma ClaimIsNoReturn(r: Run, c: Container, a: nat)
    requires r.Ok() && |r.ls| > 0 && r.ls[|r.ls| - 1] == Add(c, Claim(a)) && a !in r.s.pool
    ensures !AllReturn(r.w, r.from, r.ls, c)
  {
    var k := |r.ls| - 1;
    ExecLast(r.w, r.from, r.ls);
    var u := Exec(r.w, r.from, r.ls[..k]).value;
    assert Enabled(r.w, u, Add(c, Claim(a))) && a in u.pool;
    hide Exec, Enabled, Apply;
    assert StoreOf(Apply(r.w, u, r.ls[k])) != StoreOf(u) by { assert r.s == Apply(r.w, u, r.ls[k]); }
    assert !JustReturns(r.w, r.from, r.ls, k, c);
  }

  // ---------------------------------------------------------------- a port goes before its address

  /** A DEL past its successful port deletion and before the end of ReleaseIP. */
  predicate PortGone(pc: Pc) {
    pc == Dropping(true) || pc.ReadingRecord? || pc.Releasing? || pc.WantPut? || pc.Putting?
  }

  /** The steps between the two. */
  predicate Between(l: Step) {
    l.Del? && (l.del.DropBinding? || l.del.ReadRecord? || l.del.ReadNet? || l.del.LockPut?)
  }

  lemma ReachesPut(w: World, s: State, c: Container, x: DelStep)
    requires DelEnabled(w, s, c, x) && PortGone(DelTarget(w, s, c, x))
    ensures x == PortOk || (PortGone(s.At(c)) && Between(Del(c, x)))
  {
  }

  lemma AddIsElsewhere(w: World, s: State, c: Container, x: AddStep)
    requires AddEnabled(w, s, c, x)
    ensures !PortGone(AddTarget(w, s, c, x))
  {
  }

  lemma RefillIsElsewhere(w: World, s: State, c: Container, x: RefillStep)
    requires RefillEnabled(w, s, c, x)
    ensures !PortGone(RefillTarget(w, s, c, x))
  {
  }

  /** A DEL about to release has deleted its port in the same command. Any rules. */
  lemma {:induction false} PortStepBefore(w: World, s: State, ls: seq<Step>, c: Container) returns (i: nat)
    requires Exec(w, s, ls).Some? && !PortGone(s.At(c)) && PortGone(Exec(w, s, ls).value.At(c))
    ensures i < |ls| && ls[i] == Del(c, PortOk)
    ensures forall k :: i < k < |ls| && ls[k].c == c ==> Between(ls[k])
    decreases |ls|
  {
    hide *;
    var n := PortEdge(w, s, ls, c);
    if ls[n] == Del(c, PortOk) {
      i := n;
    } else {
      i := PortStepBefore(w, s, ls[..n], c);
      assert forall k :: i < k < n ==> ls[..n][k] == ls[k];
    }
  }

  lemma {:induction false} PortEdge(w: World, s: State, ls: seq<Step>, c: Container) returns (n: nat)
    requires Exec(w, s, ls).Some? && !PortGone(s.At(c)) && PortGone(Exec(w, s, ls).value.At(c))
    ensures |ls| == n + 1 && Exec(w, s, ls[..n]).Some?
    ensures ls[n] == Del(c, PortOk)
            || (PortGone(Exec(w, s, ls[..n]).value.At(c)) && (ls[n].c == c ==> Between(ls[n])))
  {
    hide Enabled, Apply, PortGone, Between;
    assert ls != [];
    n := |ls| - 1;
    PortEdgeStep(w, Exec(w, s, ls[..n]).value, ls[n], c);
  }

  lemma PortEdgeStep(w: World, u: State, l: Step, c: Container)
    requires Enabled(w, u, l) && PortGone(Apply(w, u, l).At(c))
    ensures l == Del(c, PortOk) || (PortGone(u.At(c)) && (l.c == c ==> Between(l)))
  {
    OthersStay(w, u, l);
    hide AddEnabled, DelEnabled, RefillEnabled, AddTarget, RefillTarget, DelTarget, Apply, Between;
    if l.c == c {
      match l {
        case Add(_, x) => AddIsElsewhere(w, u, c, x);
        case Refill(_, x) => RefillIsElsewhere(w, u, c, x);
        case Del(_, x) => ReachesPut(w, u, c, x);
        case Abort(_) =>
      }
    }
  }

  /** ReleaseIP goes on to the insertion exactly when the recorded address numerically lies in the range
      that iprange names at that moment; otherwise the address is dropped with its record. Any rules. */
  lemma {:induction false} ReleasedIffInRange(w: World, s: State, ls: seq<Step>, t: State, c: Container)
    requires Init(w, s) && Exec(w, s, ls) == Some(t) && t.At(c).Releasing?
    ensures Enabled(w, t, Del(c, ReadNet)) && Lookup(t.records, c) == Some(t.At(c).v)
    ensures Target(w, t, Del(c, ReadNet)) ==
            if InRange(t.At(c).v.ip, t.iprange) then WantPut(t.At(c).v) else Forgetting
  {
    AlwaysFree(w, s, ls);
    AlwaysTracks(w, s, ls);
    hide Exec, Init;
    AtReadNet(w, t, c);
  }

  lemma AtReadNet(w: World, t: State, c: Container)
    requires FreeInv(w, t) && Tracks(t) && t.At(c).Releasing?
    ensures Enabled(w, t, Del(c, ReadNet)) && Lookup(t.records, c) == Some(t.At(c).v)
    ensures Target(w, t, Del(c, ReadNet)) ==
            if InRange(t.At(c).v.ip, t.iprange) then WantPut(t.At(c).v) else Forgetting
  {
    assert PcIn(w, Offerable(w), t.At(c)) && Tracked(t, c, t.At(c));
    hide StoreIn, SameNet, Aligned, InRange, Offerable, AllIn, Tracks;
    SameNetIsMembership(t.iprange, t.At(c).v);
  }

  lemma {:induction false} EnabledAt(w: World, s: State, ls: seq<Step>, j: nat)
    requires Exec(w, s, ls).Some? && j < |ls|
    ensures Exec(w, s, ls[..j]).Some? && Enabled(w, Exec(w, s, ls[..j]).value, ls[j])
  {
    hide Enabled, Apply;
    ExecSplit(w, s, ls, j + 1);
    assert ls[..j + 1][..j] == ls[..j];
  }

  /** What a DEL that is about to put `a` back knows, under any rules. */
  lemma AtPut(w: World, v: State, c: Container, a: nat, took: bool)
    requires FreeInv(w, v) && Tracks(v) && Enabled(w, v, Del(c, Put(a, took)))
    ensures Lookup(v.records, c) == Some(Cidr(a, w.conf.mask)) && PortGone(v.At(c))
  {
    assert PcIn(w, Offerable(w), v.At(c)) && Tracked(v, c, v.At(c));
    hide AllIn, Plain, Offerable;
  }

  lemma AtPortOk(w: World, u: State, c: Container)
    requires Tracks(u) && Enabled(w, u, Del(c, PortOk))
    ensures u.At(c).Porting? && Lookup(u.bindings, c) == Some(u.At(c).p)
    ensures w.rules.portOnce ==> u.At(c).p in u.ports
    ensures var t := Apply(w, u, Del(c, PortOk)); u.At(c).p !in t.ports && u.At(c).p < t.nextPort
  {
    assert Tracked(u, c, u.At(c));
  }

  lemma StartsIdle(w: World, s: State, c: Container)
    requires Init(w, s)
    ensures !PortGone(s.At(c))
  {
  }

  /** In every run, whatever the environment does, an address goes back to the pool only by the DEL of
      a container that has it on record, and only after that DEL, in the same command, has deleted the
      port its binding named. */
  lemma {:induction false} PortBeforeRelease(w: World, s: State, ls: seq<Step>, j: nat, c: Container,
                                             a: nat, took: bool)
    returns (i: nat)
    requires Init(w, s) && Exec(w, s, ls).Some?
    requires j < |ls| && ls[j] == Del(c, Put(a, took))
    ensures i < j && ls[i] == Del(c, PortOk)
    ensures forall k :: i < k < j && ls[k].c == c ==> Between(ls[k])
    ensures Exec(w, s, ls[..i]).Some? && Exec(w, s, ls[..j]).Some?
    ensures var u, v := Exec(w, s, ls[..i]).value, Exec(w, s, ls[..j]).value;
            && u.At(c).Porting? && Lookup(u.bindings, c) == Some(u.At(c).p)
            && (w.rules.portOnce ==> u.At(c).p in u.ports)
            && Lookup(v.records, c) == Some(Cidr(a, w.conf.mask))
  {
    hide Exec, Init, Enabled, Between, Apply, PortGone, Lookup, FreeInv, Tracks;
    EnabledAt(w, s, ls, j);
    var v := Exec(w, s, ls[..j]).value;
    StartsIdle(w, s, c);
    AlwaysFree(w, s, ls[..j]);
    AlwaysTracks(w, s, ls[..j]);
    AtPut(w, v, c, a, took);
    i := PortStepBefore(w, s, ls[..j], c);
    EnabledAt(w, s, ls, i);
    AlwaysTracks(w, s, ls[..i]);
    AtPortOk(w, Exec(w, s, ls[..i]).value, c);
  }

  /** With the protocol's guarantees that container is also the one holder of the address. */
  lemma {:induction false} ReleasedByHolder(w: World, s: State, ls: seq<Step>, j: nat, c: Container, d: Container,
                                            a: nat, took: bool)
    requires Init(w, s) && Sound(w.rules) && Exec(w, s, ls).Some?
    requires j < |ls| && ls[j] == Del(c, Put(a, took))
    ensures Exec(w, s, ls[..j]).Some?
    ensures Hold(d, a) in Exec(w, s, ls[..j]).value.held <==> d == c
  {
    hide Exec, Init, Inv, Enabled;
    EnabledAt(w, s, ls, j);
    var v := Exec(w, s, ls[..j]).value;
    Reached(w, s, ls[..j], v);
    HolderAtPut(w, v, c, d, a, took);
  }

  lemma HolderAtPut(w: World, v: State, c: Container, d: Container, a: nat, took: bool)
    requires Inv(w, v) && Enabled(w, v, Del(c, Put(a, took)))
    ensures Hold(d, a) in v.held <==> d == c
  {
    hide RangeInv, RefillInv, ValueInv, LockInv;
    assert LocalInv(w, v, c);
  }

  // ---------------------------------------------------------------- one port, one release

  /** Port numbers are handed out in order, and a deleted one never comes back. Any rules. */
  lemma PortsOnlyFresh(w: World, s: State, l: Step)
    requires Enabled(w, s, l)
    ensures var t := Apply(w, s, l);
            s.nextPort <= t.nextPort && forall p :: p in t.ports ==> p in s.ports || s.nextPort <= p < t.nextPort
  {
    hide AddTarget, RefillTarget, DelTarget, AddEnabled, RefillEnabled, DelEnabled, AddEffect, RefillEffect, DelEffect;
    match l
    case Add(c, x) => AddPorts(w, s, c, x);
    case Refill(c, x) => RefillForeign(w, s, c, x, c);
    case Del(c, x) => DelPorts(w, s, c, x);
    case Abort(_) =>
  }

  lemma AddPorts(w: World, s: State, c: Container, x: AddStep)
    requires AddEnabled(w, s, c, x)
    ensures var t := AddEffect(w, s, c, x);
            s.nextPort <= t.nextPort && forall p :: p in t.ports ==> p in s.ports || s.nextPort <= p < t.nextPort
  {
  }

  lemma DelPorts(w: World, s: State, c: Container, x: DelStep)
    requires DelEnabled(w, s, c, x)
    ensures var t := DelEffect(w, s, c, x); s.nextPort == t.nextPort && t.ports <= s.ports
  {
  }

  lemma {:induction false} DeletedForGood(w: World, s: State, ls: seq<Step>, p: Port)
    requires Exec(w, s, ls).Some? && p < s.nextPort && p !in s.ports
    ensures p !in Exec(w, s, ls).value.ports && p < Exec(w, s, ls).value.nextPort
    decreases |ls|
  {
    hide Enabled, Apply;
    if ls != [] {
      var k := |ls| - 1;
      DeletedForGood(w, s, ls[..k], p);
      PortsOnlyFresh(w, Exec(w, s, ls[..k]).value, ls[k]);
    }
  }

  /** If a port is deleted successfully only once, then whatever else the environment does, two
      releases by one container, however its DELs were repeated or interrupted, belong to two different
      ports: no binding releases twice. */
  lemma {:induction false} OneReleasePerPort(w: World, s: State, ls: seq<Step>, j: nat, j': nat, c: Container,
                                             a: nat, took: bool, a': nat, took': bool) returns (i: nat, i': nat)
    requires Init(w, s) && w.rules.portOnce && Exec(w, s, ls).Some?
    requires j < j' < |ls| && ls[j] == Del(c, Put(a, took)) && ls[j'] == Del(c, Put(a', took'))
    ensures i < j < i' < j' && ls[i] == ls[i'] == Del(c, PortOk)
    ensures Exec(w, s, ls[..i]).Some? && Exec(w, s, ls[..i']).Some?
    ensures var u, u' := Exec(w, s, ls[..i]).value, Exec(w, s, ls[..i']).value;
            u.At(c).Porting? && u'.At(c).Porting? && u.At(c).p != u'.At(c).p
  {
    hide Exec, Init, Enabled, Apply, Lookup, Tracks;
    i := PortBeforeRelease(w, s, ls, j, c, a, took);
    i' := PortBeforeRelease(w, s, ls, j', c, a', took');
    assert !Between(ls[j]);
    var u := Exec(w, s, ls[..i]).value;
    EnabledAt(w, s, ls, i);
    AlwaysTracks(w, s, ls[..i]);
    AtPortOk(w, u, c);
    ExecSnoc(w, s, ls[..i], ls[i]);
    assert ls[..i] + [ls[i]] == ls[..i + 1] == ls[..i'][..i + 1];
    ExecSplit(w, s, ls[..i'], i + 1);
    DeletedForGood(w, Apply(w, u, ls[i]), ls[..i'][i + 1..], u.At(c).p);
  }

  // ---------------------------------------------------------------- ports of calls that fail

  /** A deletion of a port that took effect although it reported an error is never made up for: as long
      as one success per port is all there is, no DEL ever gets past the deletion of that port again,
      so none releases an address on its account. */
  lemma {:induction false} FailedDeleteIsFinal(w: World, s: State, ls: seq<Step>, k: nat, i: nat,
                                               c: Container, d: Container)
    requires Init(w, s) && w.rules.portOnce && Exec(w, s, ls).Some?
    requires k < i < |ls| && ls[k] == Del(c, PortFails(true)) && ls[i] == Del(d, PortOk)
    ensures Exec(w, s, ls[..k]).Some? && Exec(w, s, ls[..i]).Some?
    ensures var u, v := Exec(w, s, ls[..k]).value, Exec(w, s, ls[..i]).value;
            u.At(c).Porting? && v.At(d).Porting? && u.At(c).p != v.At(d).p
  {
    hide Exec, Init, Enabled, Apply, Tracks;
    EnabledAt(w, s, ls, k);
    EnabledAt(w, s, ls, i);
    var u := Exec(w, s, ls[..k]).value;
    AlwaysTracks(w, s, ls[..k]);
    AlwaysTracks(w, s, ls[..i]);
    AtPortFails(w, u, c);
    AtPortOk(w, Exec(w, s, ls[..i]).value, d);
    ExecSnoc(w, s, ls[..k], ls[k]);
    assert ls[..k] + [ls[k]] == ls[..k + 1] == ls[..i][..k + 1];
    ExecSplit(w, s, ls[..i], k + 1);
    DeletedForGood(w, Apply(w, u, ls[k]), ls[..i][k + 1..], u.At(c).p);
  }

  lemma AtPortFails(w: World, u: State, c: Container)
    requires Tracks(u) && Enabled(w, u, Del(c, PortFails(true)))
    ensures u.At(c).Porting?
    ensures var t := Apply(w, u, Del(c, PortFails(true))); u.At(c).p !in t.ports && u.At(c).p < t.nextPort
  {
    assert Tracked(u, c, u.At(c));
  }

  /** The port exists, and no binding and no DEL knows of it. */
  ghost predicate Orphan(s: State, p: Port) {
    && p in s.ports && p < s.nextPort && (forall d :: d in s.bindings ==> s.bindings[d] != p)
    && forall d: Container :: s.At(d).Porting? ==> s.At(d).p != p
  }

  lemma OrphanStep(w: World, s: State, l: Step, p: Port)
    requires Enabled(w, s, l) && Orphan(s, p)
    ensures Orphan(Apply(w, s, l), p)
  {
    OthersStay(w, s, l);
    OrphanEffect(w, s, l, p);
    hide Apply, Enabled;
  }

  lemma OrphanEffect(w: World, s: State, l: Step, p: Port)
    requires Enabled(w, s, l) && Orphan(s, p)
    ensures var t, pc := Apply(w, s, l), Target(w, s, l);
            && p in t.ports && p < t.nextPort && (forall d :: d in t.bindings ==> t.bindings[d] != p)
            && (pc.Porting? ==> pc.p != p)
  {
    hide AddTarget, DelTarget, RefillTarget, AddEffect, DelEffect, RefillEffect, AddEnabled, DelEnabled, RefillEnabled;
    match l {
      case Add(c, x) => OrphanAdd(w, s, c, x, p);
      case Del(c, x) => OrphanDel(w, s, c, x, p);
      case Refill(c, x) => OrphanRefill(w, s, c, x, p);
      case Abort(_) =>
    }
  }

  lemma OrphanAdd(w: World, s: State, c: Container, x: AddStep, p: Port)
    requires AddEnabled(w, s, c, x) && Orphan(s, p)
    ensures var t, pc := AddEffect(w, s, c, x), AddTarget(w, s, c, x);
            && p in t.ports && p < t.nextPort && (forall d :: d in t.bindings ==> t.bindings[d] != p)
            && (pc.Porting? ==> pc.p != p)
  {
  }

  lemma OrphanDel(w: World, s: State, c: Container, x: DelStep, p: Port)
    requires DelEnabled(w, s, c, x) && Orphan(s, p)
    ensures var t, pc := DelEffect(w, s, c, x), DelTarget(w, s, c, x);
            && p in t.ports && p < t.nextPort && (forall d :: d in t.bindings ==> t.bindings[d] != p)
            && (pc.Porting? ==> pc.p != p)
  {
    hide SameNet, HeldBy;
  }

  lemma OrphanRefill(w: World, s: State, c: Container, x: RefillStep, p: Port)
    requires RefillEnabled(w, s, c, x) && Orphan(s, p)
    ensures var t, pc := RefillEffect(w, s, c, x), RefillTarget(w, s, c, x);
            && p in t.ports && p < t.nextPort && (forall d :: d in t.bindings ==> t.bindings[d] != p)
            && (pc.Porting? ==> pc.p != p)
  {
    hide AllocFrom, Size, Next;
  }

  lemma {:induction false} OrphanStays(w: World, s: State, ls: seq<Step>, p: Port)
    requires Exec(w, s, ls).Some? && Orphan(s, p)
    ensures Orphan(Exec(w, s, ls).value, p)
    decreases |ls|
  {
    if ls != [] {
      ExecLast(w, s, ls);
      hide Exec, Enabled, Apply, Orphan;
      OrphanStays(w, s, ls[..|ls| - 1], p);
      OrphanStep(w, Exec(w, s, ls[..|ls| - 1]).value, ls[|ls| - 1], p);
    } else {
      assert Exec(w, s, ls) == Some(s);
    }
  }

  /** A Bingding that fails after it has made its port leaves that port. If the binding was written all
      the same, the next attempt finds it. If not, nobody ever deletes the port, whatever follows. */
  lemma {:induction false} FailedBinding(w: World, s: State, ls: seq<Step>, t: State, c: Container, took: bool,
                                         more: seq<Step>)
    requires Init(w, s) && Exec(w, s, ls) == Some(t) && Enabled(w, t, Add(c, BindFails(took)))
    requires Exec(w, Apply(w, t, Add(c, BindFails(took))), more).Some?
    ensures var u := Apply(w, t, Add(c, BindFails(took)));
            took ==> Enabled(w, u, Add(c, Bound)) && Lookup(u.bindings, c) == Some(t.nextPort) && t.nextPort in u.ports
    ensures var u := Apply(w, t, Add(c, BindFails(took)));
            !took ==> u.bindings == t.bindings && Orphan(Exec(w, u, more).value, t.nextPort)
  {
    AlwaysTracks(w, s, ls);
    hide Exec, Init;
    var u := Apply(w, t, Add(c, BindFails(took)));
    BindingFails(w, t, c, took);
    hide Apply, Enabled, Orphan, Tracks;
    if !took { OrphanStays(w, u, more, t.nextPort); }
  }

  lemma BindingFails(w: World, t: State, c: Container, took: bool)
    requires Tracks(t) && Enabled(w, t, Add(c, BindFails(took)))
    ensures var u := Apply(w, t, Add(c, BindFails(took)));
            if took
            then Enabled(w, u, Add(c, Bound)) && Lookup(u.bindings, c) == Some(t.nextPort) && t.nextPort in u.ports
            else u.bindings == t.bindings && Orphan(u, t.nextPort)
  {
    forall d: Container
      ensures d in t.bindings ==> t.bindings[d] < t.nextPort
      ensures t.At(d).Porting? ==> t.At(d).p < t.nextPort
    {
      assert Tracked(t, d, t.At(d));
    }
    OthersStay(w, t, Add(c, BindFails(took)));
    hide Tracks, PortsBelow, Tracked;
  }
}
