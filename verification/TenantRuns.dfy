/** Runs of the tenant protocol that hand one address to two containers, one for each guarantee
    the environment may fail to give. Every run respects all the other guarantees. */
module TenantRuns {
  import opened Results
  import opened Addr
  import opened Tenant
  import opened TenantInv

  /** A run in the making: it starts in `from`, and `s` is where it has arrived. */
  datatype Run = Run(w: World, from: State, ls: seq<Step>, s: State) {
    ghost predicate Ok() { Exec(w, from, ls) == Some(s) }
  }

  lemma Then(r: Run, l: Step) returns (r': Run)
    requires r.Ok() && Enabled(r.w, r.s, l)
    ensures r'.Ok() && r' == r.(ls := r.ls + [l], s := Apply(r.w, r.s, l))
  {
    hide Enabled, Apply;
    ExecSnoc(r.w, r.from, r.ls, l);
    r' := r.(ls := r.ls + [l], s := Apply(r.w, r.s, l));
  }

  /** `s` with container `c` moved to `pc`. */
  function Moved(s: State, c: Container, pc: Pc): State {
    s.(pcs := s.pcs[c := pc], lockers := if InCs(pc) then s.lockers + {c} else s.lockers - {c})
  }

  lemma Adds(r: Run, c: Container, x: AddStep) returns (r': Run)
    requires r.Ok() && AddEnabled(r.w, r.s, c, x)
    ensures r'.Ok() && r'.w == r.w && r'.from == r.from
    ensures r'.ls == r.ls + [Add(c, x)]
    ensures r'.s == Moved(AddEffect(r.w, r.s, c, x), c, AddTarget(r.w, r.s, c, x))
  {
    AddMoves(r.w, r.s, c, x);
    r' := Then(r, Add(c, x));
  }

  lemma AddMoves(w: World, s: State, c: Container, x: AddStep)
    requires AddEnabled(w, s, c, x)
    ensures Enabled(w, s, Add(c, x))
    ensures Apply(w, s, Add(c, x)) == Moved(AddEffect(w, s, c, x), c, AddTarget(w, s, c, x))
  {
    AddCommand(w, s, c, x);
    hide AddEffect, AddTarget, AddEnabled, InCs;
  }

  lemma AddCommand(w: World, s: State, c: Container, x: AddStep)
    requires AddEnabled(w, s, c, x)
    ensures AddEffect(w, s, c, x).pcs == s.pcs && AddEffect(w, s, c, x).lockers == s.lockers
  {
  }

  lemma Refills(r: Run, c: Container, x: RefillStep) returns (r': Run)
    requires r.Ok() && RefillEnabled(r.w, r.s, c, x)
    ensures r'.Ok() && r'.w == r.w && r'.from == r.from
    ensures r'.ls == r.ls + [Refill(c, x)]
    ensures r'.s == Moved(RefillEffect(r.w, r.s, c, x), c, RefillTarget(r.w, r.s, c, x))
  {
    RefillMoves(r.w, r.s, c, x);
    r' := Then(r, Refill(c, x));
  }

  lemma RefillMoves(w: World, s: State, c: Container, x: RefillStep)
    requires RefillEnabled(w, s, c, x)
    ensures Enabled(w, s, Refill(c, x))
    ensures Apply(w, s, Refill(c, x)) == Moved(RefillEffect(w, s, c, x), c, RefillTarget(w, s, c, x))
  {
    RefillCommand(w, s, c, x);
    hide RefillEffect, RefillTarget, RefillEnabled, InCs;
  }

  lemma RefillCommand(w: World, s: State, c: Container, x: RefillStep)
    requires RefillEnabled(w, s, c, x)
    ensures RefillEffect(w, s, c, x).pcs == s.pcs && RefillEffect(w, s, c, x).lockers == s.lockers
  {
    hide Next, Size, AllocFrom;
  }

  lemma Dels(r: Run, c: Container, x: DelStep) returns (r': Run)
    requires r.Ok() && DelEnabled(r.w, r.s, c, x)
    ensures r'.Ok() && r'.w == r.w && r'.from == r.from
    ensures r'.ls == r.ls + [Del(c, x)]
    ensures r'.s == Moved(DelEffect(r.w, r.s, c, x), c, DelTarget(r.w, r.s, c, x))
  {
    DelMoves(r.w, r.s, c, x);
    r' := Then(r, Del(c, x));
  }

  lemma DelMoves(w: World, s: State, c: Container, x: DelStep)
    requires DelEnabled(w, s, c, x)
    ensures Enabled(w, s, Del(c, x))
    ensures Apply(w, s, Del(c, x)) == Moved(DelEffect(w, s, c, x), c, DelTarget(w, s, c, x))
  {
    DelCommand(w, s, c, x);
    hide DelEffect, DelTarget, DelEnabled, InCs;
  }

  lemma DelCommand(w: World, s: State, c: Container, x: DelStep)
    requires DelEnabled(w, s, c, x)
    ensures DelEffect(w, s, c, x).pcs == s.pcs && DelEffect(w, s, c, x).lockers == s.lockers
  {
  }

  lemma Stops(r: Run, c: Container) returns (r': Run)
    requires r.Ok()
    ensures r'.Ok() && r'.w == r.w && r'.from == r.from
    ensures r'.s == Moved(if r.s.At(c).Filling? then Abandon(r.s) else r.s, c, Idle)
  {
    r' := Then(r, Abort(c));
  }

  // ---------------------------------------------------------------- one step each

  lemma Starts(r: Run, c: Container) returns (r': Run)
    requires r.Ok() && r.s.At(c).Idle? && (r.w.rules.faithful ==> c !in r.s.results)
    requires r.w.rules.freshIds ==> c !in r.s.gone
    ensures r'.Ok() && r'.w == r.w && r'.from == r.from && r'.ls == r.ls + [Add(c, Start)]
    ensures r'.s == Moved(r.s, c, Listing(false))
  {
    hide Exec, Enabled, Apply, Effect, Target, SameNet, Next;
    r' := Adds(r, c, Start);
  }

  lemma Lists(r: Run, c: Container) returns (r': Run)
    requires r.Ok() && r.s.At(c).Listing? && r.s.pool != map[]
    ensures r'.Ok() && r'.w == r.w && r'.from == r.from && r'.ls == r.ls + [Add(c, List)]
    ensures r'.s == Moved(r.s, c, Trying(r.s.pool))
  {
    hide Exec, Enabled, Apply, Effect, Target, SameNet, Next;
    assert r.s.Nodes() >= 2;
    r' := Adds(r, c, List);
  }

  lemma Claims(r: Run, c: Container, a: nat) returns (r': Run)
    requires r.Ok() && r.s.At(c).Trying? && a in r.s.At(c).left && a in r.s.pool && a % 256 != 254
    ensures r'.Ok() && r'.w == r.w && r'.from == r.from && r'.ls == r.ls + [Add(c, Claim(a))]
    ensures var t := r.s.(pool := r.s.pool - {a}, held := r.s.held + {Hold(c, a)});
            r'.s == Moved(t, c, Claimed(r.s.At(c).left[a]))
  {
    hide Exec, Enabled, Apply, Effect, Target, SameNet, Next;
    r' := Adds(r, c, Claim(a));
  }

  lemma Records(r: Run, c: Container, took: bool) returns (r': Run)
    requires r.Ok() && r.s.At(c).Claimed? && (r.w.rules.recordWrites ==> took)
    ensures r'.Ok() && r'.w == r.w && r'.from == r.from && r'.ls == r.ls + [Add(c, Record(took))]
    ensures var t := r.s.(records := if took then r.s.records[c := r.s.At(c).v] else r.s.records);
            r'.s == Moved(t, c, Binding(r.s.At(c).v))
  {
    hide Exec, Enabled, Apply, Effect, Target, SameNet, Next;
    r' := Adds(r, c, Record(took));
  }

  lemma Binds(r: Run, c: Container) returns (r': Run)
    requires r.Ok() && r.s.At(c).Binding? && c !in r.s.bindings
    ensures r'.Ok() && r'.w == r.w && r'.from == r.from && r'.ls == r.ls + [Add(c, Bind)]
    ensures var p := r.s.nextPort;
            var t := r.s.(ports := r.s.ports + {p}, bindings := r.s.bindings[c := p], nextPort := p + 1);
            r'.s == Moved(t, c, Saving(r.s.At(c).v))
  {
    hide Exec, Enabled, Apply, Effect, Target, SameNet, Next;
    r' := Adds(r, c, Bind);
  }

  lemma Saves(r: Run, c: Container) returns (r': Run)
    requires r.Ok() && r.s.At(c).Saving?
    ensures r'.Ok() && r'.w == r.w && r'.from == r.from && r'.ls == r.ls + [Add(c, Save(true))]
    ensures r'.s == Moved(r.s.(results := r.s.results[c := r.s.At(c).v]), c, Idle)
  {
    hide Exec, Enabled, Apply, Effect, Target, SameNet, Next;
    r' := Adds(r, c, Save(true));
  }

  lemma StartsDel(r: Run, c: Container, took: bool) returns (r': Run)
    requires r.Ok() && r.s.At(c).Idle? && (r.w.rules.resultDeletes ==> took)
    ensures r'.Ok() && r'.w == r.w && r'.from == r.from && r'.ls == r.ls + [Del(c, DelStart(took))]
    ensures var t := r.s.(results := if took then r.s.results - {c} else r.s.results, gone := r.s.gone + {c});
            r'.s == Moved(t, c, Unbinding)
  {
    hide Exec, Enabled, Apply, Effect, Target, SameNet, Next;
    r' := Dels(r, c, DelStart(took));
  }

  lemma ReadsBinding(r: Run, c: Container) returns (r': Run)
    requires r.Ok() && r.s.At(c).Unbinding? && c in r.s.bindings
    ensures r'.Ok() && r'.w == r.w && r'.from == r.from && r'.ls == r.ls + [Del(c, ReadBinding(true))]
    ensures r'.s == Moved(r.s, c, Porting(r.s.bindings[c], 1))
  {
    hide Exec, Enabled, Apply, Effect, Target, SameNet, Next;
    r' := Dels(r, c, ReadBinding(true));
  }

  lemma DeletesPort(r: Run, c: Container) returns (r': Run)
    requires r.Ok() && r.s.At(c).Porting? && (r.w.rules.portOnce ==> r.s.At(c).p in r.s.ports)
    ensures r'.Ok() && r'.w == r.w && r'.from == r.from && r'.ls == r.ls + [Del(c, PortOk)]
    ensures r'.s == Moved(r.s.(ports := r.s.ports - {r.s.At(c).p}), c, Dropping(true))
  {
    hide Exec, Enabled, Apply, Effect, Target, SameNet, Next;
    r' := Dels(r, c, PortOk);
  }

  lemma DropsBinding(r: Run, c: Container, took: bool) returns (r': Run)
    requires r.Ok() && r.s.At(c) == Dropping(true)
    ensures r'.Ok() && r'.w == r.w && r'.from == r.from && r'.ls == r.ls + [Del(c, DropBinding(took))]
    ensures r'.s == Moved(r.s.(bindings := if took then r.s.bindings - {c} else r.s.bindings), c, ReadingRecord)
  {
    hide Exec, Enabled, Apply, Effect, Target, SameNet, Next;
    r' := Dels(r, c, DropBinding(took));
  }

  lemma ReadsRecord(r: Run, c: Container) returns (r': Run)
    requires r.Ok() && r.s.At(c).ReadingRecord? && c in r.s.records
    ensures r'.Ok() && r'.w == r.w && r'.from == r.from && r'.ls == r.ls + [Del(c, ReadRecord(true))]
    ensures r'.s == Moved(r.s, c, Releasing(r.s.records[c]))
  {
    hide Exec, Enabled, Apply, Effect, Target, SameNet, Next;
    r' := Dels(r, c, ReadRecord(true));
  }

  lemma ReadsNet(r: Run, c: Container) returns (r': Run)
    requires r.Ok() && r.s.At(c).Releasing? && r.s.At(c).v.mask <= 32
    requires r.s.iprange.mask <= 32 && SameNet(r.s.iprange, r.s.At(c).v)
    ensures r'.Ok() && r'.w == r.w && r'.from == r.from && r'.ls == r.ls + [Del(c, ReadNet)]
    ensures r'.s == Moved(r.s, c, WantPut(r.s.At(c).v))
  {
    hide Exec, Enabled, Apply, Effect, Target, SameNet, Next;
    r' := Dels(r, c, ReadNet);
  }

  lemma TakesLock(r: Run, c: Container) returns (r': Run)
    requires r.Ok() && r.s.At(c).WantPut? && r.s.lockers == {}
    ensures r'.Ok() && r'.w == r.w && r'.from == r.from && r'.ls == r.ls + [Del(c, LockPut)]
    ensures r'.s == Moved(r.s, c, Putting(r.s.At(c).v))
  {
    hide Exec, Enabled, Apply, Effect, Target, SameNet, Next;
    r' := Dels(r, c, LockPut);
  }

  lemma Puts(r: Run, c: Container) returns (r': Run)
    requires r.Ok() && r.s.At(c).Putting?
    ensures r'.Ok() && r'.w == r.w && r'.from == r.from && r'.ls == r.ls + [Del(c, Put(r.s.At(c).v.ip, true))]
    ensures var v := r.s.At(c).v;
            var t := r.s.(pool := r.s.pool[v.ip := v], held := r.s.held - {Hold(c, v.ip)});
            r'.s == Moved(t, c, Forgetting)
  {
    hide Exec, Enabled, Apply, Effect, Target, SameNet, Next;
    r' := Dels(r, c, Put(r.s.At(c).v.ip, true));
  }

  lemma StartsRefill(r: Run, c: Container) returns (r': Run)
    requires r.Ok() && r.s.At(c).WantLock? && LockFree(r.w, r.s)
    ensures r'.Ok() && r'.w == r.w && r'.from == r.from && r'.ls == r.ls + [Refill(c, Lock)]
    ensures r'.s == Moved(r.s, c, Recheck)
  {
    hide Exec, Enabled, Apply, Effect, Target, SameNet, Next;
    r' := Refills(r, c, Lock);
  }

  lemma FindsEmpty(r: Run, c: Container) returns (r': Run)
    requires r.Ok() && r.s.At(c).Recheck? && r.s.pool == map[]
    ensures r'.Ok() && r'.w == r.w && r'.from == r.from && r'.ls == r.ls + [Refill(c, Empty)]
    ensures r'.s == Moved(r.s, c, Reading)
  {
    hide Exec, Enabled, Apply, Effect, Target, SameNet, Next;
    r' := Refills(r, c, Empty);
  }

  lemma ReadsRange(r: Run, c: Container) returns (r': Run)
    requires r.Ok() && r.s.At(c).Reading? && Next(r.s.iprange).Ok?
    requires r.w.rules.bounded ==> Next(r.s.iprange).value.ip > r.s.iprange.ip
    ensures r'.Ok() && r'.w == r.w && r'.from == r.from && r'.ls == r.ls + [Refill(c, ReadRange)]
    ensures r'.s == Moved(r.s, c, Writing(Next(r.s.iprange).value))
  {
    hide Exec, Enabled, Apply, Effect, Target, SameNet, Next;
    r' := Refills(r, c, ReadRange);
  }

  // ---------------------------------------------------------------- several steps

  /** The fields that matter to later steps; `c` is the container that moved. */
  ghost predicate Rest(s: State, t: State, c: Container, pc: Pc) {
    && t.pcs == s.pcs[c := pc]
    && t.results.Keys <= s.results.Keys && t.gone <= s.gone + {c}
    && t.lockers == (if InCs(pc) then s.lockers + {c} else s.lockers - {c})
  }

  /** `c` may begin an ADD. */
  predicate Ready(r: Run, c: Container) { r.s.At(c).Idle? && c !in r.s.results && c !in r.s.gone }

  /** `c` lists a pool that is not empty. */
  lemma Opens(r: Run, c: Container) returns (r': Run)
    requires r.Ok() && r.s.At(c).Idle? && (r.w.rules.faithful ==> c !in r.s.results)
    requires (r.w.rules.freshIds ==> c !in r.s.gone) && r.s.pool != map[]
    ensures r'.Ok() && r'.w == r.w && r'.from == r.from && r'.ls == r.ls + [Add(c, Start), Add(c, List)]
    ensures r'.s == r.s.(pcs := r.s.pcs[c := Trying(r.s.pool)], lockers := r.s.lockers - {c})
  {
    hide Exec, Enabled, Apply, Effect, Target;
    r' := Starts(r, c);
    r' := Lists(r', c);
  }

  /** `c` runs GetNewIP and claims `a`. */
  lemma Take(r: Run, c: Container, a: nat) returns (r': Run)
    requires r.Ok() && r.s.At(c).Idle? && (r.w.rules.faithful ==> c !in r.s.results)
    requires r.w.rules.freshIds ==> c !in r.s.gone
    requires a in r.s.pool && a % 256 != 254
    ensures r'.Ok() && r'.w == r.w && r'.from == r.from
    ensures r'.ls == r.ls + [Add(c, Start), Add(c, List), Add(c, Claim(a))]
    ensures Rest(r.s, r'.s, c, Claimed(r.s.pool[a]))
    ensures var t := r'.s;
            t == r.s.(pool := r.s.pool - {a}, held := r.s.held + {Hold(c, a)}, pcs := t.pcs, lockers := t.lockers)
  {
    hide Exec, Enabled, Apply, Effect, Target, SameNet, Next;
    r' := Opens(r, c);
    r' := Claims(r', c, a);
  }

  /** After a claim `c` writes its record (or fails to), makes a port and binds it, and stops. */
  lemma Attach(r: Run, c: Container, took: bool) returns (r': Run)
    requires r.Ok() && r.s.At(c).Claimed? && c !in r.s.bindings && (r.w.rules.recordWrites ==> took)
    ensures r'.Ok() && r'.w == r.w && r'.from == r.from
    ensures var t, p := r'.s, r.s.nextPort;
            && Rest(r.s, t, c, Idle)
            && t == r.s.(records := if took then r.s.records[c := r.s.At(c).v] else r.s.records,
                    bindings := r.s.bindings[c := p], ports := r.s.ports + {p}, nextPort := p + 1,
                    pcs := t.pcs, lockers := t.lockers)
  {
    hide Exec, Enabled, Apply, Effect, Target;
    r' := Records(r, c, took);
    r' := Binds(r', c);
    r' := Stops(r', c);
  }

  /** After a claim, `c` completes its ADD. */
  lemma Complete(r: Run, c: Container) returns (r': Run)
    requires r.Ok() && r.s.At(c).Claimed? && c !in r.s.bindings
    ensures r'.Ok() && r'.w == r.w && r'.from == r.from
    ensures r'.ls == r.ls + [Add(c, Record(true)), Add(c, Bind), Add(c, Save(true))]
    ensures var t, v, p := r'.s, r.s.At(c).v, r.s.nextPort;
            && t.pcs == r.s.pcs[c := Idle] && t.lockers == r.s.lockers - {c}
            && t == r.s.(results := r.s.results[c := v], records := r.s.records[c := v],
                    bindings := r.s.bindings[c := p], ports := r.s.ports + {p}, nextPort := p + 1,
                    pcs := t.pcs, lockers := t.lockers)
  {
    hide Exec, Enabled, Apply, Effect, Target;
    r' := Records(r, c, true);
    r' := Binds(r', c);
    r' := Saves(r', c);
  }

  /** A DEL of `c` that deletes the port, keeps or drops the binding record, puts the recorded
      address back and stops before it removes the record. */
  lemma Detach(r: Run, c: Container, drop: bool) returns (r': Run)
    requires r.Ok() && r.s.At(c).Idle? && r.s.lockers == {}
    requires c in r.s.bindings && (r.w.rules.portOnce ==> r.s.bindings[c] in r.s.ports)
    requires c in r.s.records && r.s.records[c].mask <= 32 && r.s.iprange.mask <= 32
    requires SameNet(r.s.iprange, r.s.records[c])
    ensures r'.Ok() && r'.w == r.w && r'.from == r.from
    ensures var t, v := r'.s, r.s.records[c];
            && Rest(r.s, t, c, Idle)
            && t == r.s.(bindings := if drop then r.s.bindings - {c} else r.s.bindings,
                    ports := r.s.ports - {r.s.bindings[c]},
                    pool := r.s.pool[v.ip := v], held := r.s.held - {Hold(c, v.ip)},
                    pcs := t.pcs, lockers := t.lockers, gone := t.gone, results := t.results)
  {
    hide Exec, Enabled, Apply, Effect, Target, SameNet;
    r' := DetachPort(r, c, drop);
    r' := PutBack(r', c);
  }

  lemma DetachPort(r: Run, c: Container, drop: bool) returns (r': Run)
    requires r.Ok() && r.s.At(c).Idle?
    requires c in r.s.bindings && (r.w.rules.portOnce ==> r.s.bindings[c] in r.s.ports)
    ensures r'.Ok() && r'.w == r.w && r'.from == r.from
    ensures r'.ls == r.ls + [Del(c, DelStart(true)), Del(c, ReadBinding(true)),
                             Del(c, PortOk), Del(c, DropBinding(drop))]
    ensures var t := r'.s;
            && Rest(r.s, t, c, ReadingRecord)
            && t == r.s.(bindings := if drop then r.s.bindings - {c} else r.s.bindings,
                    ports := r.s.ports - {r.s.bindings[c]},
                    pcs := t.pcs, lockers := t.lockers,
                    gone := r.s.gone + {c}, results := r.s.results - {c})
  {
    hide Exec, Enabled, Apply, Effect, Target, SameNet, Next, InCs;
    r' := FindPort(r, c);
    r' := DropPort(r', c, drop);
  }

  lemma DropPort(r: Run, c: Container, drop: bool) returns (r': Run)
    requires r.Ok() && r.s.At(c).Porting? && (r.w.rules.portOnce ==> r.s.At(c).p in r.s.ports)
    ensures r'.Ok() && r'.w == r.w && r'.from == r.from && r'.ls == r.ls + [Del(c, PortOk), Del(c, DropBinding(drop))]
    ensures Rest(r.s, r'.s, c, ReadingRecord)
    ensures var t := r'.s;
            t == r.s.(bindings := if drop then r.s.bindings - {c} else r.s.bindings,
            ports := r.s.ports - {r.s.At(c).p}, pcs := t.pcs, lockers := t.lockers)
  {
    hide Exec, Enabled, Apply, Effect, Target;
    r' := DeletesPort(r, c);
    r' := DropsBinding(r', c, drop);
  }

  lemma FindPort(r: Run, c: Container) returns (r': Run)
    requires r.Ok() && r.s.At(c).Idle? && c in r.s.bindings
    ensures r'.Ok() && r'.w == r.w && r'.from == r.from
    ensures r'.ls == r.ls + [Del(c, DelStart(true)), Del(c, ReadBinding(true))]
    ensures Rest(r.s, r'.s, c, Porting(r.s.bindings[c], 1))
    ensures var t := r'.s;
            t == r.s.(pcs := t.pcs, lockers := t.lockers, gone := r.s.gone + {c}, results := r.s.results - {c})
  {
    hide Exec, Enabled, Apply, Effect, Target;
    r' := StartsDel(r, c, true);
    r' := ReadsBinding(r', c);
  }

  lemma PutBack(r: Run, c: Container) returns (r': Run)
    requires r.Ok() && r.s.At(c).ReadingRecord? && r.s.lockers == {}
    requires c in r.s.records && r.s.records[c].mask <= 32 && r.s.iprange.mask <= 32
    requires SameNet(r.s.iprange, r.s.records[c])
    ensures r'.Ok() && r'.w == r.w && r'.from == r.from
    ensures var t, v := r'.s, r.s.records[c];
            && Rest(r.s, t, c, Idle)
            && t == r.s.(pool := r.s.pool[v.ip := v], held := r.s.held - {Hold(c, v.ip)},
                    pcs := t.pcs, lockers := t.lockers)
  {
    hide Exec, Enabled, Apply, Effect, Target;
    hide SameNet;
    r' := ReadsRecord(r, c);
    r' := ReadsNet(r', c);
    r' := TakesLock(r', c);
    r' := Puts(r', c);
    r' := Stops(r', c);
  }

  /** With an empty pool, `c` goes into CreateNewBridge up to the write of iprange. */
  lemma BeginRefill(r: Run, c: Container) returns (r': Run)
    requires r.Ok() && Ready(r, c) && r.s.pool == map[] && LockFree(r.w, r.s)
    requires Next(r.s.iprange).Ok? && (r.w.rules.bounded ==> Next(r.s.iprange).value.ip > r.s.iprange.ip)
    ensures r'.Ok() && r'.w == r.w && r'.from == r.from
    ensures Rest(r.s, r'.s, c, Writing(Next(r.s.iprange).value))
    ensures var t := r'.s; t == r.s.(pcs := t.pcs, lockers := t.lockers)
  {
    hide Exec, Enabled, Apply, Effect, Target;
    hide Next;
    r' := FindEmpty(r, c);
    r' := StartsRefill(r', c);
    r' := FindsEmpty(r', c);
    r' := ReadsRange(r', c);
  }

  lemma FindEmpty(r: Run, c: Container) returns (r': Run)
    requires r.Ok() && Ready(r, c) && r.s.pool == map[]
    ensures r'.Ok() && r'.w == r.w && r'.from == r.from
    ensures var t := r'.s; t == r.s.(pcs := r.s.pcs[c := WantLock], lockers := r.s.lockers - {c})
  {
    hide Exec, Enabled, Apply, Effect, Target;
    r' := Adds(r, c, Start);
    r' := Adds(r', c, List);
  }

  /** The third address of a block does not end in .254. */
  predicate ThirdFree(n: Cidr) { (n.ip + 2) % 256 != 254 }

  /** The refill writes iprange (or that is lost), fills its first address and crashes. */
  lemma FillOne(r: Run, c: Container, took: bool) returns (r': Run)
    requires r.Ok() && r.s.At(c).Writing? && (r.w.rules.rangeWrites ==> took)
    requires var n := r.s.At(c).next; n.mask <= 32 && n.ip + 2 < Last(n) && ThirdFree(n)
    ensures r'.Ok() && r'.w == r.w && r'.from == r.from
    ensures var t, n := r'.s, r.s.At(c).next;
            && Rest(r.s, t, c, Idle)
            && t.iprange == (if took then n else r.s.iprange)
            && t == r.s.(pool := r.s.pool[n.ip + 2 := Cidr(n.ip + 2, n.mask)], pcs := t.pcs, lockers := t.lockers,
                    iprange := t.iprange, ranges := t.ranges, pending := t.pending, lost := t.lost)
  {
    hide Exec, Enabled, Apply, Effect, Target;
    hide AllocFrom, Size;
    r' := Refills(r, c, WriteRange(took));
    r' := Refills(r', c, Fill(r.s.At(c).next.ip + 2, true));
    r' := Stops(r', c);
  }

  // ---------------------------------------------------------------- where the runs start

  function StartState(conf: Cidr, pool: map<nat, Cidr>): State
    requires conf.mask <= 32
  {
    State(conf, pool, map[], map[], map[], {}, 0, {}, map[],
          [conf], {}, {}, AllocFrom(conf, conf.ip) - pool.Keys, {})
  }

  /** 192.168.0.0/29 */
  const NET := Cidr(0xC0A8_0000, 29)

  lemma NetFacts()
    ensures Aligned(NET) && Size(29) == 8
    ensures Next(NET) == Ok(Cidr(NET.ip + 8, 29))
    ensures forall a: nat :: NET.ip + 2 <= a <= NET.ip + 6 ==>
                               a % 256 != 254 && a in AllocFrom(NET, NET.ip) && SameNet(NET, Cidr(a, 29))
  {
    NetAligned();
    forall a: nat | NET.ip + 2 <= a <= NET.ip + 6
      ensures a % 256 != 254 && a in AllocFrom(NET, NET.ip) && SameNet(NET, Cidr(a, 29))
    {
      NetOffers(a);
    }
  }

  lemma NetAligned()
    ensures Aligned(NET) && Size(29) == 8
    ensures Next(NET) == Ok(Cidr(NET.ip + 8, 29))
  {
    hide Rem, Pow2, GetNextCIDR, IP2Long, Long2IP;
    Pow2Constants();
    assert Size(29) == 8;
    RemOfMultiples(NET.ip / 8, 8);
    NextCIDR(Some(NET));
  }

  lemma NetOffers(a: nat)
    requires NET.ip + 2 <= a <= NET.ip + 6
    ensures a % 256 != 254 && a in AllocFrom(NET, NET.ip) && SameNet(NET, Cidr(a, 29))
  {
    NetAligned();
    hide Rem, Pow2, Next, SameNet;
    AllocEnds(NET);
    SameNetIsMembership(NET, Cidr(a, 29));
  }

  /** A run from 192.168.0.0/29 with the given offsets still in the pool. */
  lemma Begin(rules: Rules, offsets: set<nat>) returns (r: Run)
    requires forall o :: o in offsets ==> 2 <= o <= 6
    ensures r.Ok() && Init(r.w, r.from) && r.w == World(NET, rules) && r.from == r.s
    ensures r.s == StartState(NET, map o | o in (set x | x in offsets :: NET.ip + x) :: Cidr(o, 29))
  {
    hide AllocFrom, Rem, Size, Aligned, Next, SameNet;
    NetFacts();
    var pool := map o | o in (set x | x in offsets :: NET.ip + x) :: Cidr(o, 29);
    var s := StartState(NET, pool);
    assert pool.Keys <= AllocFrom(NET, NET.ip);
    r := Run(World(NET, rules), s, [], s);
  }

  ghost predicate Doubles(r: Run) { r.Ok() && Init(r.w, r.from) && !NoDouble(r.s) }

  lemma TwoHold(r: Run, c: Container, d: Container, a: nat)
    requires r.Ok() && Init(r.w, r.from) && c != d && Hold(c, a) in r.s.held && Hold(d, a) in r.s.held
    ensures Doubles(r)
  {
  }

  // ---------------------------------------------------------------- one run for each guarantee

  /** Two refills inside the lock at once compute the same next range. */
  lemma UnserialBreaks(rules: Rules) returns (r: Run)
    requires !rules.serial
    ensures Doubles(r) && r.w.rules == rules
  {
    hide Exec, Init, Next, AllocFrom, Size, Enabled, Apply, Effect, Target;
    NetFacts();
    var a := NET.ip + 10;
    r := Begin(rules, {});
    assert r.s.pool == map[];
    r := BeginRefill(r, 1);
    r := BeginRefill(r, 2);
    r := FillOne(r, 1, true);
    r := Take(r, 3, a);
    r := FillOne(r, 2, true);
    r := Take(r, 4, a);
    TwoHold(r, 3, 4, a);
  }

  /** The write of iprange fails with an etcd error that the code ignores: the refill goes on, and
      the next one fills the same range again. */
  lemma LostRangeBreaks(rules: Rules) returns (r: Run)
    requires !rules.rangeWrites
    ensures Doubles(r) && r.w.rules == rules
  {
    hide Exec, Init, Next, AllocFrom, Size, Enabled, Apply, Effect, Target;
    NetFacts();
    var a := NET.ip + 10;
    r := LoseRange(rules);
    r := BeginRefill(r, 2);
    r := FillOne(r, 2, true);
    r := Take(r, 4, a);
    TwoHold(r, 3, 4, a);
  }

  /** Container 3 has an address of a range that nothing records. */
  lemma LoseRange(rules: Rules) returns (r: Run)
    requires !rules.rangeWrites
    ensures r.Ok() && Init(r.w, r.from) && r.w == World(NET, rules)
    ensures var s := r.s;
            && s.iprange == NET && s.pool == map[] && s.lockers == {} && s.results == map[] && s.gone <= {1, 3}
            && s.At(2).Idle? && s.At(4).Idle? && Hold(3, NET.ip + 10) in s.held
  {
    hide Exec, Init, Next, AllocFrom, Size, Enabled, Apply, Effect, Target;
    NetFacts();
    r := Begin(rules, {});
    assert r.s.pool == map[];
    r := BeginRefill(r, 1);
    r := FillOne(r, 1, false);
    r := Take(r, 3, NET.ip + 10);
    assert r.s.pool == map[];
  }

  /** A port is deleted twice with success: the second DEL puts back an address that meanwhile
      went to somebody else. */
  lemma TwoPortDeletesBreak(rules: Rules) returns (r: Run)
    requires !rules.portOnce
    ensures Doubles(r) && r.w.rules == rules
  {
    hide Exec, Init, Next, AllocFrom, Size, Enabled, Apply, Effect, Target, SameNet;
    NetFacts();
    var a := NET.ip + 2;
    r := StaleBinding(rules);
    r := Detach(r, 1, false);
    r := Take(r, 3, a);
    TwoHold(r, 2, 3, a);
  }

  /** Container 1 has released its address but kept its binding, and container 2 has the address. */
  lemma StaleBinding(rules: Rules) returns (r: Run)
    ensures r.Ok() && Init(r.w, r.from) && r.w.rules == rules
    ensures var s, v := r.s, Cidr(NET.ip + 2, 29);
            && s.At(1).Idle? && s.At(3).Idle? && s.iprange == NET && s.lockers == {}
            && 1 in s.bindings && s.results == map[] && s.gone <= {1}
            && Lookup(s.records, 1) == Some(v) && Hold(2, v.ip) in s.held
  {
    hide Exec, Init, Next, AllocFrom, Size, Enabled, Apply, Effect, Target, SameNet;
    NetFacts();
    r := Come(rules);
    r := Detach(r, 1, false);
    assert r.s.results == map[];
    r := Take(r, 2, NET.ip + 2);
  }

  /** A container id comes back after a DEL that crashed before removing the record, and the new
      record cannot be written: the next DEL finds the old one. */
  lemma StaleRecordBreaks(rules: Rules) returns (r: Run)
    requires !rules.freshIds && !rules.recordWrites
    ensures Doubles(r) && r.w.rules == rules
  {
    hide Exec, Init, Next, AllocFrom, Size, Enabled, Apply, Effect, Target, SameNet;
    NetFacts();
    var a := NET.ip + 2;
    r := ComeBack(rules);
    r := Attach(r, 1, false);
    r := Detach(r, 1, true);
    r := Take(r, 3, a);
    TwoHold(r, 2, 3, a);
  }

  /** Container 1 comes back with its old record, whose address container 2 has taken. */
  lemma ComeBack(rules: Rules) returns (r: Run)
    requires !rules.freshIds && !rules.recordWrites
    ensures r.Ok() && Init(r.w, r.from) && r.w.rules == rules
    ensures var s, v := r.s, Cidr(NET.ip + 2, 29);
            && s.At(1).Claimed? && s.At(3).Idle? && s.iprange == NET && s.lockers == {}
            && s.bindings == map[] && s.results == map[]
            && Lookup(s.records, 1) == Some(v) && Hold(2, v.ip) in s.held
  {
    hide Exec, Init, Next, AllocFrom, Size, Enabled, Apply, Effect, Target, SameNet;
    r := LeaveRecord(rules);
    r := Take(r, 2, NET.ip + 2);
    r := Take(r, 1, NET.ip + 3);
  }

  /** Container 1 has come, and another address is still there. */
  lemma Come(rules: Rules) returns (r: Run)
    ensures r.Ok() && Init(r.w, r.from) && r.w.rules == rules
    ensures var s, v := r.s, Cidr(NET.ip + 2, 29);
            && s.pcs == map[1 := Idle] && s.iprange == NET && s.lockers == {}
            && s.bindings == map[1 := 0] && s.ports == {0} && s.results == map[] && s.records == map[1 := v]
            && v.ip + 1 in s.pool && s.gone == {}
  {
    hide Exec, Init, Next, AllocFrom, Size, Enabled, Apply, Effect, Target, SameNet;
    NetFacts();
    r := Begin(rules, {2, 3});
    r := Take(r, 1, NET.ip + 2);
    r := Attach(r, 1, true);
  }

  /** Container 1 has come and gone, but its record is still there. */
  lemma LeaveRecord(rules: Rules) returns (r: Run)
    ensures r.Ok() && Init(r.w, r.from) && r.w.rules == rules
    ensures var s, v := r.s, Cidr(NET.ip + 2, 29);
            && s.At(1).Idle? && s.At(2).Idle? && s.At(3).Idle? && s.iprange == NET && s.lockers == {}
            && s.bindings == map[] && s.results == map[] && Lookup(s.records, 1) == Some(v)
            && v.ip in s.pool && v.ip + 1 in s.pool
  {
    hide Exec, Init, Next, AllocFrom, Size, Enabled, Apply, Effect, Target, SameNet;
    NetFacts();
    r := Come(rules);
    r := Detach(r, 1, true);
    assert r.s.bindings == map[];
  }

  /** A container id comes back after a DEL that could not delete the stored result: its ADD returns
      an address that somebody else holds by now. */
  lemma StaleResultBreaks(rules: Rules) returns (r: Run)
    requires !rules.freshIds && !rules.resultDeletes
    ensures Doubles(r) && r.w.rules == rules
  {
    hide Exec, Init, Next, AllocFrom, Size, Enabled, Apply, Effect, Target, SameNet;
    var a := NET.ip + 2;
    r := LeaveResult(rules);
    r := Take(r, 2, a);
    r := Adds(r, 1, Cached);
    TwoHold(r, 1, 2, a);
  }

  /** Container 1 has come and gone, but its result is still there. */
  lemma LeaveResult(rules: Rules) returns (r: Run)
    requires !rules.resultDeletes
    ensures r.Ok() && Init(r.w, r.from) && r.w.rules == rules
    ensures var s, v := r.s, Cidr(NET.ip + 2, 29);
            && s.At(1).Idle? && s.At(2).Idle? && 2 !in s.results && 2 !in s.gone && v.ip in s.pool
            && Lookup(s.results, 1) == Some(v)
  {
    hide Exec, Init, Next, AllocFrom, Size, Enabled, Apply, Effect, Target, SameNet;
    NetFacts();
    var a := NET.ip + 2;
    r := Begin(rules, {2});
    r := Take(r, 1, a);
    r := Complete(r, 1);
    r := DetachKeepingResult(r, 1);
    r := PutBack(r, 1);
  }

  /** A DEL up to the release whose deletion of the result fails. */
  lemma DetachKeepingResult(r: Run, c: Container) returns (r': Run)
    requires r.Ok() && r.s.At(c).Idle? && !r.w.rules.resultDeletes
    requires c in r.s.bindings && r.s.bindings[c] in r.s.ports
    ensures r'.Ok() && r'.w == r.w && r'.from == r.from
    ensures var t := r'.s;
            && Rest(r.s, t, c, ReadingRecord)
            && t == r.s.(bindings := r.s.bindings - {c}, ports := r.s.ports - {r.s.bindings[c]},
                    pcs := t.pcs, lockers := t.lockers, gone := r.s.gone + {c})
  {
    hide Exec, Enabled, Apply, Effect, Target, SameNet, Next;
    r' := StartsDel(r, c, false);
    r' := ReadsBinding(r', c);
    r' := DropPort(r', c, true);
  }
}
