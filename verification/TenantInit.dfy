/** The double-checked creation of a tenant (GetTenant, InitTenant): why allocation starts from a
    range that is filled once and for all. */
module TenantInit {
  import opened Results

  type Proc = nat

  datatype Pc =
    | Outside
    | Asking    // GetTenant, before it reads the tenant's info key
    | Waiting   // InitTenant, before the lock .../create
    | Checking  // lock held, before the second read
    | Building  // initNetwork, which fills the first range
    | Storing   // about to write the info key
    | Ready     // GetTenant returned the tenant

  predicate InLock(pc: Pc) { pc.Checking? || pc.Building? || pc.Storing? }

  datatype State = State(info: bool, lockers: set<Proc>, pcs: map<Proc, Pc>) {
    function At(p: Proc): Pc { if p in pcs then pcs[p] else Outside }
    function Goto(p: Proc, pc: Pc): State {
      this.(pcs := pcs[p := pc], lockers := if InLock(pc) then lockers + {p} else lockers - {p})
    }
  }

  datatype Step =
    | Ask(p: Proc)
    | Read(p: Proc)
    | Lock(p: Proc)
    | Recheck(p: Proc)
    | Built(p: Proc)
    | Store(p: Proc)
    | StoreFails(p: Proc, took: bool)
    | Stop(p: Proc) // any other error, a crash, or the end of the command

  predicate Enabled(serial: bool, s: State, l: Step) {
    match l
    case Ask(p) => s.At(p).Outside?
    case Read(p) => s.At(p).Asking?
    case Lock(p) => s.At(p).Waiting? && (serial ==> s.lockers == {})
    case Recheck(p) => s.At(p).Checking?
    case Built(p) => s.At(p).Building?
    case Store(p) => s.At(p).Storing?
    case StoreFails(p, _) => s.At(p).Storing?
    case Stop(p) => true
  }

  function Apply(serial: bool, s: State, l: Step): State
    requires Enabled(serial, s, l)
  {
    match l
    case Ask(p) => s.Goto(p, Asking)
    case Read(p) => s.Goto(p, if s.info then Ready else Waiting)
    case Lock(p) => s.Goto(p, Checking)
    case Recheck(p) => s.Goto(p, if s.info then Ready else Building)
    case Built(p) => s.Goto(p, Storing)
    case Store(p) => s.(info := true).Goto(p, Ready)
    case StoreFails(p, took) => s.(info := s.info || took).Goto(p, Outside)
    case Stop(p) => s.Goto(p, Outside)
  }

  const START := State(false, {}, map[])

  function Exec(serial: bool, ls: seq<Step>): Option<State>
    decreases |ls|
  {
    if ls == [] then Some(START)
    else
      var k := |ls| - 1;
      match Exec(serial, ls[..k])
      case None => None
      case Some(s) => if Enabled(serial, s, ls[k]) then Some(Apply(serial, s, ls[k])) else None
  }

  ghost predicate Inv(s: State) {
    && (forall p: Proc :: InLock(s.At(p)) <==> p in s.lockers)
    && (forall p, q :: p in s.lockers && q in s.lockers ==> p == q)
    && (forall p: Proc :: s.At(p).Building? || s.At(p).Storing? ==> !s.info)
  }

  lemma StepKeeps(s: State, l: Step)
    requires Inv(s) && Enabled(true, s, l)
    ensures Inv(Apply(true, s, l))
  {
  }

  lemma {:induction false} RunsKeep(ls: seq<Step>)
    requires Exec(true, ls).Some?
    ensures Inv(Exec(true, ls).value)
    decreases |ls|
  {
    if ls != [] {
      RunsKeep(ls[..|ls| - 1]);
      StepKeeps(Exec(true, ls[..|ls| - 1]).value, ls[|ls| - 1]);
    }
  }

  /** Nobody allocates for a tenant whose info is not stored, lock or no lock. */
  lemma {:induction false} ReadyMeansStored(serial: bool, ls: seq<Step>, p: Proc)
    requires Exec(serial, ls).Some? && Exec(serial, ls).value.At(p).Ready?
    ensures Exec(serial, ls).value.info
    decreases |ls|
  {
    var k := |ls| - 1;
    var s := Exec(serial, ls[..k]).value;
    if s.At(p).Ready? { ReadyMeansStored(serial, ls[..k], p); }
  }

  /** Once the info is stored, hence whenever anybody allocates, no network is being built and the
      first range is not filled again. */
  ghost predicate Settled(s: State) {
    forall p: Proc :: s.At(p).Building? ==> !s.info && forall q: Proc :: !s.At(q).Ready?
  }

  ghost predicate Safe(serial: bool) {
    forall ls :: Exec(serial, ls).Some? ==> Settled(Exec(serial, ls).value)
  }

  lemma {:induction false} Then(serial: bool, ls: seq<Step>, s: State, l: Step) returns (ls': seq<Step>, s': State)
    requires Exec(serial, ls) == Some(s) && Enabled(serial, s, l)
    ensures ls' == ls + [l] && s' == Apply(serial, s, l) && Exec(serial, ls') == Some(s')
  {
    ls', s' := ls + [l], Apply(serial, s, l);
    assert ls'[..|ls|] == ls;
  }

  /** Without exclusion a process gets to the building of a tenant that is not stored. */
  lemma {:induction false} Begins(ls: seq<Step>, s: State, p: Proc) returns (ls': seq<Step>, s': State)
    requires Exec(false, ls) == Some(s) && s.At(p).Outside? && !s.info
    ensures Exec(false, ls') == Some(s') && !s'.info && s'.At(p).Building?
    ensures forall q: Proc :: q != p ==> s'.At(q) == s.At(q)
  {
    hide Exec;
    ls', s' := Then(false, ls, s, Ask(p));
    ls', s' := Then(false, ls', s', Read(p));
    ls', s' := Then(false, ls', s', Lock(p));
    ls', s' := Then(false, ls', s', Recheck(p));
  }

  /** Without exclusion a second process is still building when the first one's tenant is in use. */
  lemma TwoBuilders() returns (ls: seq<Step>)
    ensures Exec(false, ls).Some? && !Settled(Exec(false, ls).value)
  {
    var s;
    ls, s := [], START;
    assert Exec(false, ls) == Some(s);
    hide Exec;
    ls, s := Begins(ls, s, 1);
    ls, s := Begins(ls, s, 2);
    ls, s := Then(false, ls, s, Built(1));
    ls, s := Then(false, ls, s, Store(1));
    assert s.At(2).Building? && s.info;
  }

  /** The double check does its work over all runs exactly when the lock excludes. */
  lemma CreatedOnce(serial: bool)
    ensures Safe(serial) <==> serial
  {
    if serial {
      forall ls | Exec(serial, ls).Some? ensures Settled(Exec(serial, ls).value) {
        var s := Exec(serial, ls).value;
        RunsKeep(ls);
        forall q: Proc | s.At(q).Ready? ensures s.info { ReadyMeansStored(serial, ls, q); }
      }
    } else {
      var ls := TwoBuilders();
      assert !Settled(Exec(serial, ls).value);
    }
  }

  // ---------------------------------------------------------------- everybody gets the tenant

  /** What a call of `p` still does, if nothing fails: it builds exactly if the info is not stored when
      it looks for the second time. */
  function Rest(info: bool, p: Proc, pc: Pc): (r: seq<Step>)
    ensures pc.Outside? ==> r == [Ask(p), Read(p)] + if info then [] else [Lock(p), Recheck(p), Built(p), Store(p)]
    ensures pc.Waiting? ==> r == [Lock(p), Recheck(p)] + if info then [] else [Built(p), Store(p)]
    decreases Left(pc)
  {
    match pc
    case Outside => [Ask(p)] + Rest(info, p, Asking)
    case Asking => [Read(p)] + Rest(info, p, if info then Ready else Waiting)
    case Waiting => [Lock(p)] + Rest(info, p, Checking)
    case Checking => [Recheck(p)] + Rest(info, p, if info then Ready else Building)
    case Building => [Built(p)] + Rest(info, p, Storing)
    case Storing => [Store(p)] + Rest(info, p, Ready)
    case Ready => []
  }

  function Left(pc: Pc): nat {
    match pc
    case Outside => 6
    case Asking => 5
    case Waiting => 4
    case Checking => 3
    case Building => 2
    case Storing => 1
    case Ready => 0
  }

  /** From every reachable state, with an excluding lock or without, a process that nobody else keeps
      out of the lock and whose operations do not fail goes on, from wherever it is, step by step to
      the tenant: it has it in the end, its info is stored, and it has left the lock. */
  lemma {:induction false} GetTenantReturns(serial: bool, ls: seq<Step>, s: State, p: Proc) returns (t: State)
    requires Exec(serial, ls) == Some(s) && (serial ==> s.lockers <= {p})
    ensures Exec(serial, ls + Rest(s.info, p, s.At(p))) == Some(t)
    ensures t.At(p).Ready? && t.info && p !in t.lockers
    decreases Left(s.At(p))
  {
    var rest := Rest(s.info, p, s.At(p));
    assert s.At(p).Ready? ==> rest == [];
    hide Exec, Enabled, Apply, Rest, InLock, Left;
    if s.At(p).Ready? {
      assert ls + rest == ls;
      ReadyMeansStored(serial, ls, p);
      LockersAre(serial, ls, p);
      assert !InLock(Ready);
      t := s;
    } else {
      LockersAre(serial, ls, p);
      RestStep(serial, s, p);
      var ls', u := Then(serial, ls, s, rest[0]);
      t := GetTenantReturns(serial, ls', u, p);
      Shift(ls, rest);
    }
  }

  lemma {:induction false} Shift(ls: seq<Step>, rest: seq<Step>)
    requires rest != []
    ensures ls + [rest[0]] + rest[1..] == ls + rest
  {
  }

  /** The first of these steps can be taken, and leads to the others. */
  lemma RestStep(serial: bool, s: State, p: Proc)
    requires !s.At(p).Ready? && (serial ==> s.lockers <= {p}) && (p in s.lockers <==> InLock(s.At(p)))
    ensures var rest := Rest(s.info, p, s.At(p));
            && rest != [] && Enabled(serial, s, rest[0])
            && var t := Apply(serial, s, rest[0]);
            && rest[1..] == Rest(t.info, p, t.At(p)) && Left(t.At(p)) < Left(s.At(p))
            && (serial ==> t.lockers <= {p})
  {
    var l := First(p, s.At(p));
    RestHead(s.info, p, s.At(p));
    hide Rest, Left;
    FirstStep(serial, s, p);
  }

  function First(p: Proc, pc: Pc): Step
    requires !pc.Ready?
  {
    match pc
    case Outside => Ask(p)
    case Asking => Read(p)
    case Waiting => Lock(p)
    case Checking => Recheck(p)
    case Building => Built(p)
    case Storing => Store(p)
  }

  /** Where that step leads: it depends on the info at the two reads only. */
  function After(info: bool, pc: Pc): Pc
    requires !pc.Ready?
  {
    match pc
    case Outside => Asking
    case Asking => if info then Ready else Waiting
    case Waiting => Checking
    case Checking => if info then Ready else Building
    case Building => Storing
    case Storing => Ready
  }

  lemma RestHead(info: bool, p: Proc, pc: Pc)
    requires !pc.Ready?
    ensures Rest(info, p, pc) == [First(p, pc)] + Rest(info, p, After(info, pc)) && Left(After(info, pc)) < Left(pc)
    ensures pc.Storing? ==> Rest(info, p, After(info, pc)) == Rest(true, p, After(true, pc))
  {
  }

  lemma FirstStep(serial: bool, s: State, p: Proc)
    requires !s.At(p).Ready? && (serial ==> s.lockers <= {p}) && (p in s.lockers <==> InLock(s.At(p)))
    ensures Enabled(serial, s, First(p, s.At(p)))
    ensures var t := Apply(serial, s, First(p, s.At(p)));
            && t.At(p) == After(s.info, s.At(p)) && t.info == (s.info || s.At(p).Storing?)
            && (serial ==> t.lockers <= {p})
  {
  }

  /** The lock's bookkeeping, with exclusion or without. */
  lemma {:induction false} LockersAre(serial: bool, ls: seq<Step>, p: Proc)
    requires Exec(serial, ls).Some?
    ensures var s := Exec(serial, ls).value; p in s.lockers <==> InLock(s.At(p))
    decreases |ls|
  {
    if ls != [] {
      var k := |ls| - 1;
      LockersAre(serial, ls[..k], p);
      LockersStep(serial, Exec(serial, ls[..k]).value, ls[k], p);
      hide Enabled, Apply, InLock;
    }
  }

  lemma LockersStep(serial: bool, s: State, l: Step, p: Proc)
    requires Enabled(serial, s, l) && (p in s.lockers <==> InLock(s.At(p)))
    ensures var t := Apply(serial, s, l); p in t.lockers <==> InLock(t.At(p))
  {
  }

  /** A tenant that is stored is returned after a single read, and never built again. */
  lemma {:induction false} StoredIsReturned(serial: bool, ls: seq<Step>, s: State, p: Proc) returns (t: State)
    requires Exec(serial, ls) == Some(s) && s.info && s.At(p).Outside?
    ensures Exec(serial, ls + [Ask(p), Read(p)]) == Some(t) && t.At(p).Ready? && t.info && t.lockers == s.lockers
  {
    LockersAre(serial, ls, p);
    assert s.lockers - {p} - {p} == s.lockers;
    hide Exec;
    var ls', u := Then(serial, ls, s, Ask(p));
    assert u == s.Goto(p, Asking) && u.At(p).Asking?;
    ls', t := Then(serial, ls', u, Read(p));
    assert t == u.Goto(p, Ready) && t.At(p).Ready?;
    assert ls + [Ask(p)] + [Read(p)] == ls + [Ask(p), Read(p)];
  }

  /** Also if the process that stored it was told that it failed. */
  lemma {:induction false} StoredAnyway(serial: bool, ls: seq<Step>, s: State, p: Proc, q: Proc) returns (t: State)
    requires Exec(serial, ls) == Some(s) && s.At(p).Storing? && (q == p || s.At(q).Outside?)
    ensures Exec(serial, ls + [StoreFails(p, true), Ask(q), Read(q)]) == Some(t) && t.At(q).Ready?
  {
    hide Exec;
    var ls', u := Then(serial, ls, s, StoreFails(p, true));
    t := StoredIsReturned(serial, ls', u, q);
    assert ls' + [Ask(q), Read(q)] == ls + [StoreFails(p, true), Ask(q), Read(q)];
  }

  /** A process that stops in the lock, at whatever point, leaves it to others: any other process can
      go on to the tenant, and builds it if need be. */
  lemma {:induction false} StopFreesLock(ls: seq<Step>, s: State, p: Proc, q: Proc) returns (t: State)
    requires Exec(true, ls) == Some(s) && InLock(s.At(p)) && q != p
    ensures Exec(true, ls + [Stop(p)] + Rest(s.info, q, s.At(q))) == Some(t) && t.At(q).Ready? && t.info
  {
    RunsKeep(ls);
    assert s.lockers == {p};
    hide Exec, Inv, Rest;
    var ls', u := Then(true, ls, s, Stop(p));
    assert u.At(q) == s.At(q) && u.lockers == {} && u.info == s.info;
    t := GetTenantReturns(true, ls', u, q);
  }
}
