/** CmdAddK8s, CmdDelK8s and the functions under them as they are written: loops, retries and early
    returns over a store that other processes change between any two operations. Each method is
    proved to take only steps of the tenant protocol, so the theorems about its runs apply. */
module Plugin {
  import opened Results
  import opened Addr
  import opened Tenant
  import opened TenantInv
  import opened TenantFree
  import opened TenantRuns
  import opened TenantTheorems
  import opened TenantLife
  import opened TenantProgress

  // ---------------------------------------------------------------- what nobody's failure explains

  /** The tenant may open no further range. */
  predicate NoRoom(w: World, s: State) {
    w.rules.bounded && s.iprange.mask <= 32 && s.iprange.ip + Size(s.iprange.mask) >= SPACE
  }

  predicate Busy(w: World, s: State) { w.rules.serial && s.lockers != {} }

  /** The step is the one an operation that succeeds makes in `s`: writes and deletes take effect, what
      exists is found, a candidate is lost only to somebody else, and the command is cut short only by
      a lock that others are in, by a space that has no further range, or over its binding. Attempts at
      Bingding may fail; how many do is counted apart. */
  predicate AddFaultless(w: World, s: State, c: Container, x: AddStep) {
    match x
    case Start => c !in s.results
    case Miss(a, _) => a !in s.pool
    case Record(took) => took
    case Bind => c !in s.bindings
    case Save(took) => took
    case _ => true
  }

  predicate RefillFaultless(x: RefillStep) {
    match x
    case WriteRange(took) => took
    case WriteFails(_) => false
    case Fill(_, took) => took
    case _ => true
  }

  predicate DelFaultless(w: World, s: State, c: Container, x: DelStep) {
    match x
    case DelStart(took) => took
    case ReadBinding(found) => found <==> c in s.bindings
    case PortFails(_) => s.At(c).Porting? && s.At(c).p !in s.ports
    case DropBinding(took) => took
    case ReadRecord(found) => found <==> c in s.records
    case NoRelease => s.At(c).WantPut? && Busy(w, s)
    case Put(_, took) => took
    case Forget(took) => took
    case _ => true
  }

  predicate CutFaultless(w: World, s: State, c: Container) {
    (s.At(c).WantLock? && Busy(w, s)) || (s.At(c).Reading? && NoRoom(w, s)) || s.At(c).Binding?
  }

  predicate StepFaultless(w: World, s: State, l: Step) {
    match l
    case Add(c, x) => AddFaultless(w, s, c, x)
    case Refill(_, x) => RefillFaultless(x)
    case Del(c, x) => DelFaultless(w, s, c, x)
    case Abort(c) => CutFaultless(w, s, c)
  }

  /** Every step of `c` in the run is faultless in the state in which it is taken. */
  ghost predicate Faultless(w: World, from: State, ls: seq<Step>, c: Container) {
    forall i :: 0 <= i < |ls| && ls[i].c == c ==> FaultlessAt(w, from, ls, i)
  }

  ghost predicate FaultlessAt(w: World, from: State, ls: seq<Step>, i: nat)
    requires i < |ls|
  {
    Exec(w, from, ls[..i]).Some? && StepFaultless(w, Exec(w, from, ls[..i]).value, ls[i])
  }

  lemma {:induction false} FaultlessSnoc(w: World, from: State, ls: seq<Step>, l: Step)
    requires Exec(w, from, ls).Some?
    ensures Faultless(w, from, ls, l.c) && StepFaultless(w, Exec(w, from, ls).value, l)
            ==> Faultless(w, from, ls + [l], l.c)
  {
    hide Exec, StepFaultless;
    if Faultless(w, from, ls, l.c) && StepFaultless(w, Exec(w, from, ls).value, l) {
      forall i | 0 <= i < |ls| + 1 && (ls + [l])[i].c == l.c ensures FaultlessAt(w, from, ls + [l], i) {
        assert (ls + [l])[..i] == ls[..i];
        assert i < |ls| ==> FaultlessAt(w, from, ls, i);
      }
    }
  }

  /** Steps of others change nothing. */
  lemma {:induction false} FaultlessBesides(w: World, from: State, ls: seq<Step>, ls': seq<Step>, c: Container)
    requires ls <= ls' && forall i :: |ls| <= i < |ls'| ==> ls'[i].c != c
    ensures Faultless(w, from, ls, c) ==> Faultless(w, from, ls', c)
  {
    hide Exec, StepFaultless;
    if Faultless(w, from, ls, c) {
      forall i | 0 <= i < |ls'| && ls'[i].c == c ensures FaultlessAt(w, from, ls', i) {
        assert ls'[..i] == ls[..i] && FaultlessAt(w, from, ls, i);
      }
    }
  }

  // ---------------------------------------------------------------- why there is no address

  /** At position `i` the delete of candidate `a` fails; if nothing of c's fails, somebody else had `a`. */
  ghost predicate MissedAt(w: World, from: State, ls: seq<Step>, c: Container, works: bool, i: nat, a: nat)
    requires i < |ls|
  {
    && ls[i].Add? && ls[i].c == c && ls[i].add.Miss? && ls[i].add.a == a
    && (works ==> Exec(w, from, ls[..i]).Some? && a !in Exec(w, from, ls[..i]).value.pool)
  }

  ghost predicate MissedSince(w: World, from: State, ls: seq<Step>, c: Container, works: bool, since: nat, a: nat) {
    exists i :: since <= i < |ls| && MissedAt(w, from, ls, c, works, i, a)
  }

  lemma {:induction false} MissedLonger(w: World, from: State, ls: seq<Step>, ls': seq<Step>, c: Container,
                                        works: bool, since: nat, a: nat)
    requires ls <= ls' && MissedSince(w, from, ls, c, works, since, a)
    ensures MissedSince(w, from, ls', c, works, since, a)
  {
    hide Exec;
    var i :| since <= i < |ls| && MissedAt(w, from, ls, c, works, i, a);
    assert ls'[..i] == ls[..i] && MissedAt(w, from, ls', c, works, i, a);
  }

  /** At position `k` the container lists the pool. */
  ghost predicate ListsAt(w: World, from: State, ls: seq<Step>, c: Container, k: nat)
    requires k < |ls|
  {
    ls[k] == Add(c, List) && Exec(w, from, ls[..k]).Some?
  }

  /** The container has listed the pool since, and has lost every address of the listing. */
  ghost predicate LostAll(w: World, from: State, ls: seq<Step>, c: Container, works: bool, since: nat) {
    exists k :: since <= k < |ls| && ListsAt(w, from, ls, c, k) && LostFrom(w, from, ls, c, works, k)
  }

  ghost predicate LostFrom(w: World, from: State, ls: seq<Step>, c: Container, works: bool, k: nat)
    requires k < |ls| && ListsAt(w, from, ls, c, k)
  {
    forall a :: a in Exec(w, from, ls[..k]).value.pool ==> MissedSince(w, from, ls, c, works, k + 1, a)
  }

  class Process {
    const w: World
    const c: Container
    const works: bool // its own operations do not fail, attempts at Bingding apart
    const flaky: nat  // how many attempts at Bingding may fail
    const patience: nat // how often it looks again at a lock that others are in
    const alone: bool // nobody else takes a step
    var s: State
    var failed: nat   // how many attempts at Bingding have failed
    var polls: nat    // how often it has looked again at such a lock
    ghost const from: State
    ghost var trace: seq<Step>

    /** A process for container `c` on a tenant that has just been initialised. */
    constructor (w: World, c: Container, works: bool, flaky: nat, patience: nat, alone: bool, s: State)
      requires Init(w, s)
      ensures Valid() && this.w == w && this.c == c && this.works == works && this.alone == alone
      ensures this.flaky == flaky && failed == 0 && this.patience == patience && polls == 0
      ensures this.s == s && from == s && trace == [] && Here(Idle)
    {
      this.w, this.c, this.works, this.flaky, this.patience, this.alone := w, c, works, flaky, patience, alone;
      this.s, from, trace, failed, polls := s, s, [], 0, 0;
    }

    ghost predicate Valid()
      reads this
    {
      Init(w, from) && Exec(w, from, trace) == Some(s)
    }

    /** What the process knows of its own, in the words of the protocol. */
    ghost predicate Here(pc: Pc)
      reads this
    {
      Valid() && s.At(c) == pc
    }

    /** The process has run on from `trace0`. If its operations do not fail, each step it took is the
        one the code takes then, for as long as that was so before. */
    ghost predicate Ran(trace0: seq<Step>)
      reads this
    {
      Valid() && trace0 <= trace && (works && Faultless(w, from, trace0, c) ==> Faultless(w, from, trace, c))
    }

    /** From position `since` on, every own step is a step of CmdDelK8s: the command was not cut short. */
    ghost predicate OwnDels(since: nat)
      reads this
    {
      forall i :: since <= i < |trace| && trace[i].c == c ==> trace[i].Del?
    }

    /** No own step. */
    ghost predicate NoOwn(since: nat)
      reads this
    {
      forall i :: since <= i < |trace| ==> trace[i].c != c
    }

    /** Own steps come from the part of CmdDelK8s before the release, and none but a successful one
        deletes a port with success. */
    ghost predicate OwnFirst(since: nat, port: bool)
      reads this
    {
      forall i :: since <= i < |trace| && trace[i].c == c ==>
                    trace[i].Del? && !trace[i].del.Put? && (trace[i].del.PortOk? ==> port)
    }

    /** Other processes run. */
    method Others()
      requires Valid()
      modifies this`s, this`trace
      ensures Ran(old(trace)) && ByOthers(c, trace[|old(trace)|..])
      ensures alone ==> s == old(s) && trace == old(trace)
    {
      assert trace[|trace|..] == [];
    }

    method Yield()
      requires Valid()
      modifies this`s, this`trace
      ensures Ran(old(trace)) && OwnOf(s, c) == old(OwnOf(s, c)) && NoOwn(|old(trace)|)
      ensures alone ==> s == old(s) && trace == old(trace)
      ensures s.At(c) == old(s.At(c)) && (c in s.gone <==> c in old(s.gone))
      ensures Lookup(s.records, c) == old(Lookup(s.records, c)) && Lookup(s.results, c) == old(Lookup(s.results, c))
      ensures Lookup(s.bindings, c) == old(Lookup(s.bindings, c))
    {
      ghost var before, s0 := trace, s;
      Others();
      NoneOwn(trace, |before|);
      hide Exec, Init, OwnOf, ByOthers, FaultlessAt;
      FaultlessBesides(w, from, before, trace, c);
      hide Faultless;
      ExecSplit(w, from, trace, |before|);
      assert trace[..|before|] == before;
      OtherSteps(w, s0, trace[|before|..], c);
      OwnParts(s, s0);
    }

    lemma {:induction false} NoneOwn(ls: seq<Step>, k: nat)
      requires k <= |ls| && ByOthers(c, ls[k..])
      ensures forall i :: k <= i < |ls| ==> ls[i].c != c
    {
      assert forall i :: k <= i < |ls| ==> ls[i] == ls[k..][i - k];
    }

    lemma OwnParts(t: State, u: State)
      requires OwnOf(t, c) == OwnOf(u, c)
      ensures t.At(c) == u.At(c) && (c in t.gone <==> c in u.gone)
      ensures Lookup(t.records, c) == Lookup(u.records, c) && Lookup(t.results, c) == Lookup(u.results, c)
      ensures Lookup(t.bindings, c) == Lookup(u.bindings, c)
    {
    }

    method DoAdd(x: AddStep)
      requires Valid() && AddEnabled(w, s, c, x) && (works ==> AddFaultless(w, s, c, x))
      modifies this`s, this`trace
      ensures Ran(old(trace)) && s == Moved(AddEffect(w, old(s), c, x), c, AddTarget(w, old(s), c, x))
      ensures trace == old(trace) + [Add(c, x)]
    {
      hide Exec, Init, AddEnabled, AddEffect, AddTarget, Enabled, Apply, Moved, AddFaultless, Faultless;
      AddMoves(w, s, c, x);
      ExecSnoc(w, from, trace, Add(c, x));
      FaultlessSnoc(w, from, trace, Add(c, x));
      s, trace := Apply(w, s, Add(c, x)), trace + [Add(c, x)];
    }

    method DoRefill(x: RefillStep)
      requires Valid() && RefillEnabled(w, s, c, x) && (works ==> RefillFaultless(x))
      modifies this`s, this`trace
      ensures Ran(old(trace)) && s == Moved(RefillEffect(w, old(s), c, x), c, RefillTarget(w, old(s), c, x))
      ensures trace == old(trace) + [Refill(c, x)]
    {
      hide Exec, Init, RefillEnabled, RefillEffect, RefillTarget, Enabled, Apply, Moved, RefillFaultless, Faultless;
      RefillMoves(w, s, c, x);
      ExecSnoc(w, from, trace, Refill(c, x));
      FaultlessSnoc(w, from, trace, Refill(c, x));
      s, trace := Apply(w, s, Refill(c, x)), trace + [Refill(c, x)];
    }

    method DoDel(x: DelStep)
      requires Valid() && DelEnabled(w, s, c, x) && (works ==> DelFaultless(w, s, c, x))
      modifies this`s, this`trace
      ensures Ran(old(trace)) && s == Moved(DelEffect(w, old(s), c, x), c, DelTarget(w, old(s), c, x))
      ensures trace == old(trace) + [Del(c, x)]
    {
      hide Exec, Init, DelEnabled, DelEffect, DelTarget, Enabled, Apply, Moved, DelFaultless, Faultless;
      DelMoves(w, s, c, x);
      ExecSnoc(w, from, trace, Del(c, x));
      FaultlessSnoc(w, from, trace, Del(c, x));
      s, trace := Apply(w, s, Del(c, x)), trace + [Del(c, x)];
    }

    /** An error return. */
    method Fail()
      requires Valid() && (works ==> CutFaultless(w, s, c))
      modifies this`s, this`trace
      ensures Ran(old(trace)) && s.At(c).Idle? && s.gone == old(s.gone)
      ensures s.iprange == old(s.iprange) && s.lockers == old(s.lockers) - {c}
    {
      FaultlessSnoc(w, from, trace, Abort(c));
      hide Faultless, CutFaultless;
      ExecSnoc(w, from, trace, Abort(c));
      s, trace := Apply(w, s, Abort(c)), trace + [Abort(c)];
    }

    /** The address of every pool node is its key, and none ends in .254. */
    ghost predicate Clean(pool: map<nat, Cidr>) { forall a :: a in pool ==> pool[a].ip == a && a % 256 != 254 }

    lemma PoolClean()
      requires Valid()
      ensures Clean(s.pool)
    {
      AlwaysFree(w, from, trace);
      hide Exec, Faultless, Init, Plain, PcIn, Rem, Size;
      assert NodesIn(w, Offerable(w), s.pool);
    }

    /** Nobody interferes and nothing fails. */
    predicate Smoothly() { alone && works }

    /** An own successful delete since `since` took `v` out of the pool. */
    ghost predicate ClaimedSince(since: nat, v: Cidr)
      reads this
    {
      exists i, a ::
        since <= i < |trace| && trace[i] == Add(c, Claim(a)) && a % 256 != 254 && a == v.ip
    }

    /** GetNewIP: list, then try to delete one candidate after the other until a delete succeeds. It
        gives up only after it has lost every address of its listing, and asks for a new bridge only if
        the listing is empty. */
    method GetNewIP(again: bool) returns (r: Result<Cidr>)
      requires Here(Listing(again))
      modifies this`s, this`trace
      ensures Ran(old(trace)) && (c in s.gone <==> c in old(s.gone))
      ensures match r
              case Ok(v) =>
                s.At(c) == Binding(v) && ClaimedSince(|old(trace)|, v) && (Sound(w.rules) ==> Exclusively(v))
              case Err(NeedBridge) => s.At(c) == if again then Idle else WantLock
              case Err(_) => s.At(c) == Idle
      ensures works ==> r.Ok? || r == Err(NoAddress) || r == Err(NeedBridge)
      ensures r == Err(NoAddress) ==> LostAll(w, from, trace, c, works, |old(trace)|)
      ensures r == Err(NeedBridge) ==> |trace| > |old(trace)| && trace[|trace| - 1] == Add(c, List) && s.pool == map[]
      ensures Smoothly() ==> if old(s.pool) != map[] then r.Ok? else r == Err(NeedBridge)
      ensures alone && r == Err(NeedBridge) ==> s.pool == old(s.pool) == map[] && s.iprange == old(s.iprange)
      ensures alone && r == Err(NeedBridge) ==> s.lockers == old(s.lockers) - {c}
    {
      hide Exec, Init, OwnOf, Enabled, Apply, Effect, Target, Sound, Exclusively, Clean, Faultless, ListsAt, LostAll;
      var listed := ListPool(again);
      if !listed { return Err(Api); }
      if !s.At(c).Trying? { return Err(NeedBridge); }
      ghost var k, before, pool := |trace| - 1, trace, s.pool;
      r := TakeOne();
      if r == Err(NoAddress) { AllLost(before, k, pool, |old(trace)|); }
    }

    lemma {:induction false} AllLost(before: seq<Step>, k: nat, pool: map<nat, Cidr>, since: nat)
      requires since <= k && k + 1 == |before| && before <= trace
      requires ListsAt(w, from, before, c, k) && Exec(w, from, before[..k]).value.pool == pool
      requires forall a :: a in pool ==> MissedSince(w, from, trace, c, works, k + 1, a)
      ensures LostAll(w, from, trace, c, works, since)
    {
      hide Exec, MissedSince;
      assert trace[..k] == before[..k];
      assert ListsAt(w, from, trace, c, k) && LostFrom(w, from, trace, c, works, k);
    }

    /** The listing of the pool. */
    method ListPool(again: bool) returns (listed: bool)
      requires Here(Listing(again))
      modifies this`s, this`trace
      ensures Ran(old(trace)) && (c in s.gone <==> c in old(s.gone))
      ensures works ==> listed
      ensures !listed ==> s.At(c) == Idle
      ensures listed ==> s.At(c).Trying? || s.At(c) == if again then Idle else WantLock
      ensures s.At(c).Trying? ==> Clean(s.At(c).left)
      ensures listed ==> |trace| > |old(trace)| && trace[|trace| - 1] == Add(c, List)
      ensures listed ==> ListsAt(w, from, trace, c, |trace| - 1)
      ensures listed ==> Exec(w, from, trace[..|trace| - 1]).value.pool == s.pool
      ensures listed ==> if s.pool == map[] then !s.At(c).Trying? else s.At(c) == Trying(s.pool)
      ensures listed && alone ==> s.pool == old(s.pool) && s.iprange == old(s.iprange)
      ensures listed && alone ==> s.lockers == old(s.lockers) - {c}
    {
      hide Exec, Init, OwnOf, Enabled, Apply, Effect, Target, Clean, Faultless;
      Yield();
      var unread: bool := *;
      if unread && !works {
        Fail();
        return false;
      }
      assert s.pool != map[] <==> s.Nodes() >= 2;
      PoolClean();
      ghost var before := trace;
      DoAdd(List);
      assert trace[..|before|] == before;
      return true;
    }

    /** The loop over the listing. */
    method TakeOne() returns (r: Result<Cidr>)
      requires Valid() && s.At(c).Trying? && Clean(s.At(c).left)
      modifies this`s, this`trace
      ensures Ran(old(trace)) && (c in s.gone <==> c in old(s.gone))
      ensures match r
              case Ok(v) =>
                s.At(c) == Binding(v) && ClaimedSince(|old(trace)|, v) && (Sound(w.rules) ==> Exclusively(v))
              case Err(e) => s.At(c) == Idle && e == NoAddress
      ensures r.Err? ==> forall a :: a in old(s.At(c)).left ==> MissedSince(w, from, trace, c, works, |old(trace)|, a)
      ensures Smoothly() && old(s.At(c)).left == old(s.pool) != map[] ==> r.Ok?
    {
      hide Exec, Init, OwnOf, Enabled, Apply, Effect, Target, Sound, Exclusively, Faultless, MissedSince, Tried;
      hide ClaimedSince;
      var left := s.At(c).left;
      ghost var listed := left;
      NoneTried(listed, |trace|);
      while left != map[]
        invariant Ran(old(trace)) && s.At(c) == Trying(left)
        invariant c in s.gone <==> c in old(s.gone)
        invariant Clean(left) && left.Keys <= listed.Keys
        invariant Tried(trace, listed, left, |old(trace)|)
        invariant Smoothly() && old(s.At(c)).left == old(s.pool) != map[] ==> left == s.pool != map[]
        decreases left.Keys
      {
        var a :| a in left;
        ghost var before := trace;
        var claimed := TakeCandidate(a, left);
        if claimed.Some? {
          ClaimedEarlier(|before|, |old(trace)|, claimed.value);
          return Ok(claimed.value);
        }
        StillMissed(listed, left, before, a, |old(trace)|);
        left := left - {a};
      }
      GiveUp(listed, |old(trace)|);
      return Err(NoAddress);
    }

    lemma ClaimedEarlier(since: nat, before: nat, v: Cidr)
      requires before <= since && ClaimedSince(since, v)
      ensures ClaimedSince(before, v)
    {
    }

    /** One candidate, and its record if it can be had. */
    method TakeCandidate(a: nat, left: map<nat, Cidr>) returns (claimed: Option<Cidr>)
      requires Here(Trying(left)) && a in left && left[a].ip == a && a % 256 != 254
      modifies this`s, this`trace
      ensures Ran(old(trace)) && (c in s.gone <==> c in old(s.gone))
      ensures claimed.Some? ==>
                s.At(c) == Binding(claimed.value) && ClaimedSince(|old(trace)|, claimed.value)
                && (Sound(w.rules) ==> Exclusively(claimed.value))
      ensures claimed.None? ==>
                s.At(c) == Trying(left - {a}) && MissedSince(w, from, trace, c, works, |old(trace)|, a)
      ensures works && alone && a in old(s.pool) ==> claimed.Some?
    {
      hide Exec, Init, OwnOf, Enabled, Apply, Effect, Target, Sound, Exclusively, Faultless, MissedSince;
      claimed := TryDelete(a, left);
      if claimed.Some? {
        ghost var i := |trace| - 1;
        WriteRecord(claimed.value);
        assert trace[i] == Add(c, Claim(a));
      }
    }

    /** No candidate is left. */
    method GiveUp(ghost listed: map<nat, Cidr>, ghost since: nat)
      requires Here(Trying(map[])) && Tried(trace, listed, map[], since)
      modifies this`s, this`trace
      ensures Ran(old(trace)) && (c in s.gone <==> c in old(s.gone)) && s.At(c).Idle?
      ensures forall a :: a in listed ==> MissedSince(w, from, trace, c, works, since, a)
    {
      hide Exec, Init, Enabled, Apply, Effect, Target, Faultless, MissedSince;
      ghost var before := trace;
      DoAdd(Exhausted);
      StillMissed(listed, map[], before, 0, since);
    }

    /** Every address of the listing that is no candidate any more has been missed since. */
    ghost predicate Tried(ls: seq<Step>, listed: map<nat, Cidr>, left: map<nat, Cidr>, since: nat) {
      forall a :: a in listed && a !in left ==> MissedSince(w, from, ls, c, works, since, a)
    }

    lemma NoneTried(listed: map<nat, Cidr>, since: nat)
      ensures Tried(trace, listed, listed, since)
    {
    }

    /** What has been missed stays missed, and `a` is missed by now. */
    lemma {:induction false} StillMissed(listed: map<nat, Cidr>, left: map<nat, Cidr>, before: seq<Step>, a: nat,
                                         since: nat)
      requires before <= trace
      requires Tried(before, listed, left, since)
      requires a in left ==> exists k :: k >= since && MissedSince(w, from, trace, c, works, k, a)
      ensures Tried(trace, listed, left - {a}, since)
    {
      hide MissedAt;
      forall b | b in listed && b !in left - {a} ensures MissedSince(w, from, trace, c, works, since, b) {
        if b !in left { MissedLonger(w, from, before, trace, c, works, since, b); }
      }
    }

    /** The record of the container; a failed write is only logged. */
    method WriteRecord(v: Cidr)
      requires Here(Claimed(v))
      modifies this`s, this`trace
      ensures Ran(old(trace)) && (c in s.gone <==> c in old(s.gone)) && s.At(c) == Binding(v)
      ensures w.rules.recordWrites || works ==> Lookup(s.records, c) == Some(v)
      ensures Sound(w.rules) ==> Exclusively(v)
    {
      hide Exec, Faultless, Init, OwnOf, Enabled, Apply, Effect, Target;
      Yield();
      var took: bool := *;
      DoAdd(Record(took || works || w.rules.recordWrites));
      if Sound(w.rules) { Exclusive(v); }
    }

    /** One delete of a candidate. */
    method TryDelete(a: nat, left: map<nat, Cidr>) returns (claimed: Option<Cidr>)
      requires Here(Trying(left)) && a in left
      modifies this`s, this`trace
      ensures Ran(old(trace)) && (c in s.gone <==> c in old(s.gone))
      ensures s.At(c) == if claimed.Some? then Claimed(claimed.value) else Trying(left - {a})
      ensures claimed.Some? ==>
                && |trace| > |old(trace)| && trace[|trace| - 1] == Add(c, Claim(a))
                && claimed.value == left[a] && a % 256 != 254 && a !in s.pool && Hold(c, a) in s.held
      ensures works && alone && a in old(s.pool) && a % 256 != 254 ==> claimed.Some?
      ensures claimed.None? && a % 256 != 254 ==> MissedSince(w, from, trace, c, works, |old(trace)|, a)
    {
      hide Exec, Init, OwnOf, Enabled, Apply, Effect, Target, Faultless;
      Yield();
      var fails: bool := *;
      if (works || !fails) && a in s.pool {
        DoAdd(Claim(a));
        return if a % 256 == 254 then None else Some(left[a]);
      }
      var took: bool := *;
      MissIn(a, took && a in s.pool);
      return None;
    }

    /** The last step since, and no other, is an own one. */
    ghost predicate OneOwnStep(since: nat)
      reads this
    {
      && |trace| > since && trace[|trace| - 1].c == c
      && forall i :: since <= i < |trace| - 1 ==> trace[i].c != c
    }

    /** A failed delete. */
    method MissIn(a: nat, took: bool)
      requires Valid() && AddEnabled(w, s, c, Miss(a, took)) && (works ==> a !in s.pool)
      modifies this`s, this`trace
      ensures Ran(old(trace)) && (c in s.gone <==> c in old(s.gone)) && trace == old(trace) + [Add(c, Miss(a, took))]
      ensures s.At(c) == Trying(old(s.At(c)).left - {a})
      ensures MissedSince(w, from, trace, c, works, |old(trace)|, a)
    {
      hide Exec, Init, OwnOf, Enabled, Apply, Effect, Target, Faultless;
      ghost var before := trace;
      DoAdd(Miss(a, took));
      assert trace[..|before|] == before;
      assert MissedAt(w, from, trace, c, works, |before|, a);
    }

    /** Bingding: one attempt. */
    method Bingding(v: Cidr) returns (ok: bool)
      requires Here(Binding(v))
      modifies this`s, this`trace, this`failed
      ensures Ran(old(trace)) && (c in s.gone <==> c in old(s.gone))
      ensures s.At(c) == if ok then Saving(v) else Binding(v)
      ensures failed == old(failed) + if ok then 0 else 1
      ensures !ok ==> failed <= flaky
      ensures ok ==> OneOwnStep(|old(trace)|) && c in s.bindings
      ensures (works || w.rules.faithful) && c in old(s.bindings) ==>
                ok && Lookup(s.bindings, c) == old(Lookup(s.bindings, c)) && trace[|trace| - 1] == Add(c, Bound)
      ensures alone && ok && c !in old(s.bindings) ==>
                var p := old(s.nextPort);
                s.bindings == old(s.bindings)[c := p] && s.ports == old(s.ports) + {p} && s.nextPort == p + 1
    {
      hide Exec, Faultless, Init, Enabled, Apply, Effect, Target;
      Yield();
      var unread: bool := *;
      if c in s.bindings && (w.rules.faithful || works || !unread) {
        KeepBinding(v);
        return true;
      }
      ok := MakePort(v);
    }

    method KeepBinding(v: Cidr)
      requires Here(Binding(v)) && c in s.bindings
      modifies this`s, this`trace
      ensures Ran(old(trace)) && s.At(c) == Saving(v) && trace == old(trace) + [Add(c, Bound)]
      ensures s.bindings == old(s.bindings) && s.gone == old(s.gone)
    {
      hide Exec, Faultless, Init, Enabled, Apply, Effect, Target;
      DoAdd(Bound);
    }

    /** A port is made, bound and stored. */
    method MakePort(v: Cidr) returns (ok: bool)
      requires Here(Binding(v)) && (w.rules.faithful || works ==> c !in s.bindings)
      modifies this`s, this`trace, this`failed
      ensures Ran(old(trace)) && (c in s.gone <==> c in old(s.gone))
      ensures s.At(c) == if ok then Saving(v) else Binding(v)
      ensures failed == old(failed) + if ok then 0 else 1
      ensures !ok ==> failed <= flaky
      ensures ok ==> c in s.bindings && trace == old(trace) + [Add(c, Bind)]
      ensures ok ==> var p := old(s.nextPort);
                     s.bindings == old(s.bindings)[c := p] && s.ports == old(s.ports) + {p} && s.nextPort == p + 1
    {
      hide Exec, Faultless, Init, Enabled, Apply, Effect, Target;
      var fails: bool, made: bool, took: bool := *, *, *;
      if failed >= flaky || !fails {
        DoAdd(Bind);
        return true;
      }
      failed := failed + 1;
      if made { DoAdd(BindFails(took)); }
      return false;
    }

    /** CreateIPsForTenantBridge, after iprange is written: the loop over the range. */
    method FillPool(g: Cidr) returns (ok: bool)
      requires Here(Filling(g, g.ip + 2)) && Aligned(g) && g.mask <= 30
      modifies this`s, this`trace
      ensures Ran(old(trace)) && (c in s.gone <==> c in old(s.gone))
      ensures works ==> ok
      ensures s.At(c) == if ok then Listing(true) else Idle
      ensures ok ==> |trace| > |old(trace)| && trace[|trace| - 1] == Refill(c, Filled)
      ensures works && alone && old(s.pool) == map[] && old(s.iprange) == g ==> s.pool == FillMap(g) && s.iprange == g
    {
      hide Exec, Faultless, Init, OwnOf, Enabled, Apply, Effect, Target, AllocFrom, FilledTo, FillMap;
      SizeFacts(g.mask);
      FilledEnds(g);
      var at := g.ip + 2;
      while at < Last(g)
        invariant g.ip + 2 <= at <= Last(g) && Ran(old(trace)) && s.At(c) == Filling(g, at)
        invariant c in s.gone <==> c in old(s.gone)
        invariant works && alone && old(s.pool) == map[] ==> s.pool == FilledTo(g, at)
        invariant works && alone && old(s.iprange) == g ==> s.iprange == g
      {
        FillStep(g, at);
        at := at + 1;
      }
      ok := LinkBridge(g);
    }

    /** CreateBridgeLinkRouter and the write of bridge/usage. */
    method LinkBridge(g: Cidr) returns (ok: bool)
      requires g.mask <= 30 && Here(Filling(g, if Last(g) >= 0 then Last(g) else 0))
      modifies this`s, this`trace
      ensures Ran(old(trace)) && (c in s.gone <==> c in old(s.gone))
      ensures works ==> ok
      ensures s.At(c) == if ok then Listing(true) else Idle
      ensures ok ==> |trace| > |old(trace)| && trace[|trace| - 1] == Refill(c, Filled)
      ensures works && alone ==> s.pool == old(s.pool) && s.iprange == old(s.iprange)
    {
      hide Exec, Faultless, Init, OwnOf, Enabled, Apply, Effect, Target, AllocFrom;
      Yield();
      var linked: bool := *;
      if !works && !linked {
        Fail();
        return false;
      }
      DoRefill(Filled);
      return true;
    }

    /** One round of the loop. */
    method FillStep(g: Cidr, at: nat)
      requires Here(Filling(g, at)) && Aligned(g) && g.mask <= 30 && g.ip + 2 <= at < Last(g)
      modifies this`s, this`trace
      ensures Ran(old(trace)) && (c in s.gone <==> c in old(s.gone)) && s.At(c) == Filling(g, at + 1)
      ensures works && alone && old(s.pool) == FilledTo(g, at) ==> s.pool == FilledTo(g, at + 1)
      ensures works && alone ==> s.iprange == old(s.iprange)
    {
      hide Exec, Faultless, Init, OwnOf, Enabled, Apply, Effect, Target, AllocFrom, FilledTo;
      FilledStep(g, at);
      Yield();
      if at % 256 == 254 {
        DoRefill(Skip);
      } else {
        var took: bool := *;
        DoRefill(Fill(at, took || works));
      }
    }

    /** The last own step: the recheck found addresses, or the fill was completed. */
    ghost predicate Refilled(since: nat)
      reads this
    {
      |trace| > since && trace[|trace| - 1] in {Refill(c, RefillStep.Refilled), Refill(c, Filled)}
    }

    /** The pool is empty and the space has room for a range. */
    predicate DryAt(u: State) { u.pool == map[] && u.iprange.mask <= 32 && u.iprange.ip + Size(u.iprange.mask) < SPACE }

    /** The container's result and binding are as before. */
    predicate KeepsRest(u: State, t: State) {
      Lookup(t.results, c) == Lookup(u.results, c) && Lookup(t.bindings, c) == Lookup(u.bindings, c)
    }

    /** Wait while others are in the lock, until patience runs out. */
    method Wait()
      requires Valid()
      modifies this`s, this`trace, this`polls
      ensures Ran(old(trace)) && NoOwn(|old(trace)|) && Lookup(s.records, c) == old(Lookup(s.records, c))
      ensures KeepsRest(old(s), s)
      ensures Busy(w, s) ==> polls == old(polls) + patience
      ensures alone ==> s == old(s) && trace == old(trace)
      ensures s.At(c) == old(s.At(c)) && (c in s.gone <==> c in old(s.gone))
    {
      hide Exec, Faultless, Init, OwnOf;
      var left := patience;
      while left > 0 && w.rules.serial && s.lockers != {}
        invariant 0 <= left <= patience && polls == old(polls) + patience - left
        invariant Ran(old(trace)) && NoOwn(|old(trace)|) && Lookup(s.records, c) == old(Lookup(s.records, c))
        invariant KeepsRest(old(s), s)
        invariant alone ==> s == old(s) && trace == old(trace)
        invariant s.At(c) == old(s.At(c)) && (c in s.gone <==> c in old(s.gone))
      {
        Yield();
        polls, left := polls + 1, left - 1;
      }
    }

    /** CreateNewBridge. It waits for the lock. */
    method CreateNewBridge() returns (ok: bool)
      requires Here(WantLock)
      modifies this`s, this`trace, this`polls
      ensures Ran(old(trace)) && (c in s.gone <==> c in old(s.gone))
      ensures s.At(c) == if ok then Listing(true) else Idle
      ensures ok ==> Refilled(|old(trace)|)
      ensures works && !ok ==> (Busy(w, s) && polls == old(polls) + patience) || NoRoom(w, s)
      ensures Smoothly() && old(s.lockers) == {} && old(s.pool) != map[] ==>
                ok && s.pool == old(s.pool) && s.iprange == old(s.iprange)
      ensures Smoothly() && old(s.lockers) == {} && DryAt(old(s)) ==>
                ok && s.iprange == After(old(s.iprange)) && s.iprange.mask <= 30 && s.pool == FillMap(s.iprange)
    {
      hide Exec, Faultless, Init, OwnOf, Enabled, Apply, Effect, Target, AllocFrom, Next, FillMap, Size;
      ok := EnterBridgeLock();
      if ok { ok := RefillIfEmpty(); }
    }

    /** The bridge lock, on the way into CreateNewBridge. */
    method EnterBridgeLock() returns (ok: bool)
      requires Here(WantLock)
      modifies this`s, this`trace, this`polls
      ensures Ran(old(trace)) && (c in s.gone <==> c in old(s.gone))
      ensures s.At(c) == if ok then Recheck else Idle
      ensures !ok ==> polls == old(polls) + patience && Busy(w, s)
      ensures alone && old(s.lockers) == {} ==> ok && s.pool == old(s.pool) && s.iprange == old(s.iprange)
    {
      hide Exec, Faultless, Init, OwnOf, NoOwn, Lookup, Enabled, Apply, Effect, Target;
      Yield();
      Wait();
      if w.rules.serial && s.lockers != {} {
        NotInside();
        Fail();
        return false;
      }
      DoRefill(Lock);
      return true;
    }

    lemma NotInside()
      requires Valid() && !InCs(s.At(c)) && w.rules.serial
      ensures c !in s.lockers
    {
      AlwaysLocked(w, from, trace);
      hide Exec, Faultless, Init;
    }

    /** Inside the lock. */
    method RefillIfEmpty() returns (ok: bool)
      requires Here(Recheck)
      modifies this`s, this`trace
      ensures Ran(old(trace)) && (c in s.gone <==> c in old(s.gone))
      ensures s.At(c) == if ok then Listing(true) else Idle
      ensures ok ==> Refilled(|old(trace)|)
      ensures works && !ok ==> NoRoom(w, s)
      ensures Smoothly() && old(s.pool) != map[] ==> ok && s.pool == old(s.pool) && s.iprange == old(s.iprange)
      ensures Smoothly() && DryAt(old(s)) ==>
                ok && s.iprange == After(old(s.iprange)) && s.iprange.mask <= 30 && s.pool == FillMap(s.iprange)
    {
      hide Exec, Faultless, Init, OwnOf, NoOwn, Lookup, Enabled, Apply, Effect, Target, AllocFrom, Next, FillMap, Size;
      Yield();
      var unread: bool := *;
      if unread && !works {
        Fail();
        return false;
      }
      ok := Recount();
      if !ok { ok := OpenRange(); }
    }

    /** The recheck: fewer than two nodes means that the pool is empty. */
    method Recount() returns (refilled: bool)
      requires Here(Recheck)
      modifies this`s, this`trace
      ensures Ran(old(trace)) && s.gone == old(s.gone) && s.pool == old(s.pool) && s.iprange == old(s.iprange)
      ensures refilled <==> s.pool != map[]
      ensures s.At(c) == if refilled then Listing(true) else Reading
      ensures refilled ==> Refilled(|old(trace)|)
    {
      hide Exec, Faultless, Init, Enabled, Apply, Effect, Target, AllocFrom, Next, Size;
      assert s.pool != map[] <==> s.Nodes() >= 2;
      refilled := s.Nodes() >= 2;
      DoRefill(if refilled then RefillStep.Refilled else Empty);
    }

    /** The next range is computed, written to iprange and filled. */
    method OpenRange() returns (ok: bool)
      requires Here(Reading)
      modifies this`s, this`trace
      ensures Ran(old(trace)) && (c in s.gone <==> c in old(s.gone))
      ensures s.At(c) == if ok then Listing(true) else Idle
      ensures ok ==> Refilled(|old(trace)|)
      ensures works && !ok ==> NoRoom(w, s)
      ensures Smoothly() && DryAt(old(s)) ==>
                ok && s.iprange == After(old(s.iprange)) && s.iprange.mask <= 30 && s.pool == FillMap(s.iprange)
    {
      hide Exec, Faultless, Init, OwnOf, Enabled, Apply, Effect, Target, AllocFrom, Next, Rem, Size,
        FillMap, NoOwn, Lookup;
      Yield();
      if DryAt(s) { Room(); }
      RoomOrNot();
      var n := Next(s.iprange);
      var unread: bool := *;
      if (unread && !works) || n.Err? || n.value.mask > 30 || (w.rules.bounded && n.value.ip <= s.iprange.ip) {
        Fail();
        return false;
      }
      var next := n.value;
      NextIsAligned(s.iprange);
      ReadNext(next);
      ok := WriteAndFill(next);
    }

    method ReadNext(next: Cidr)
      requires Here(Reading) && Next(s.iprange) == Ok(next) && (w.rules.bounded ==> next.ip > s.iprange.ip)
      modifies this`s, this`trace
      ensures Ran(old(trace)) && s.gone == old(s.gone) && s.pool == old(s.pool) && s.iprange == old(s.iprange)
      ensures s.At(c) == Writing(next)
    {
      hide Exec, Faultless, Init, Enabled, Apply, Effect, Target, AllocFrom, Next, Size;
      DoRefill(ReadRange);
    }

    /** The next range can be computed and used, unless the space has none. */
    lemma RoomOrNot()
      requires Valid()
      ensures Next(s.iprange).Ok? && Next(s.iprange).value.mask <= 30
      ensures w.rules.bounded && Next(s.iprange).value.ip <= s.iprange.ip ==> NoRoom(w, s)
    {
      AlwaysFree(w, from, trace);
      hide Exec, Faultless, Init, AllIn;
      NextOrEnd(s.iprange);
    }

    lemma NextOrEnd(g: Cidr)
      requires Aligned(g) && g.mask <= 30
      ensures Next(g).Ok? && Next(g).value.mask == g.mask
      ensures Next(g).value.ip <= g.ip ==> g.ip + Size(g.mask) >= SPACE
    {
      SizeFacts(g.mask);
      NextCIDR(Some(g));
      hide GetNextCIDR, Rem, Size;
    }

    lemma Room()
      requires Valid() && DryAt(s)
      ensures Next(s.iprange) == Ok(After(s.iprange)) && After(s.iprange).mask <= 30
      ensures After(s.iprange).ip > s.iprange.ip
    {
      AlwaysFree(w, from, trace);
      NextFits(s.iprange);
      hide Exec, Faultless, Init, AllIn, Next, Aligned, Size;
    }

    /** The write of iprange; any error but an existing key stops the refill or is ignored. */
    method WriteAndFill(next: Cidr) returns (ok: bool)
      requires Here(Writing(next)) && Aligned(next) && next.mask <= 30
      modifies this`s, this`trace
      ensures Ran(old(trace)) && (c in s.gone <==> c in old(s.gone))
      ensures works ==> ok
      ensures s.At(c) == if ok then Listing(true) else Idle
      ensures ok ==> Refilled(|old(trace)|)
      ensures works && alone && old(s.pool) == map[] ==> s.iprange == next && s.pool == FillMap(next)
    {
      hide Exec, Faultless, Init, OwnOf, Enabled, Apply, Effect, Target, AllocFrom, Rem, Size, FillMap;
      WriteNext(next);
      if s.At(c).Idle? { return false; }
      ok := FillPool(next);
    }

    method WriteNext(next: Cidr)
      requires Here(Writing(next))
      modifies this`s, this`trace
      ensures Ran(old(trace)) && (c in s.gone <==> c in old(s.gone))
      ensures s.At(c) == Idle || s.At(c) == Filling(next, next.ip + 2)
      ensures works ==> s.At(c) != Idle
      ensures works && alone ==> s.iprange == next && s.pool == old(s.pool)
    {
      hide Exec, Faultless, Init, OwnOf, Enabled, Apply, Effect, Target, AllocFrom, Rem, Size;
      Yield();
      var stops: bool, took: bool := *, *;
      if stops && !works {
        DoRefill(WriteFails(took));
      } else {
        DoRefill(WriteRange(took || works || w.rules.rangeWrites));
      }
    }

    lemma NextIsAligned(r: Cidr)
      requires Next(r).Ok?
      ensures Aligned(Next(r).value)
    {
      NextCIDR(Some(r));
    }

    /** The address is this container's and nobody else's. */
    ghost predicate Exclusively(v: Cidr)
      reads this
    {
      Hold(c, v.ip) in s.held && forall d :: Hold(d, v.ip) in s.held ==> d == c
    }

    /** An address can be had: the pool has one, or the next range offers some. */
    predicate Available(u: State) {
      u.pool != map[] || (DryAt(u) && !(u.iprange.mask == 30 && (u.iprange.ip + 4) % 256 == 252))
    }

    /** Why an ADD got no address although none of its operations failed: it has lost every address of a
        listing, others were in the lock, the space has no further range, or the range that was opened
        for it is used up, or offers nothing, when it lists the pool again. */
    ghost predicate NoneToHave(since: nat)
      reads this
    {
      || LostAll(w, from, trace, c, works, since) || Busy(w, s) || NoRoom(w, s)
      || (|trace| > since && trace[|trace| - 1] == Add(c, List) && s.pool == map[])
    }

    lemma LostEarlier(since: nat, before: nat)
      requires before <= since && LostAll(w, from, trace, c, works, since)
      ensures LostAll(w, from, trace, c, works, before)
    {
      hide ListsAt, LostFrom;
    }

    /** The allocation part of CmdAddK8s: GetNewIP, and once more after CreateNewBridge. */
    method Allocate() returns (r: Result<Cidr>)
      requires Here(Listing(false))
      modifies this`s, this`trace, this`polls
      ensures Ran(old(trace)) && s.At(c) == if r.Ok? then Binding(r.value) else Idle
      ensures works && r.Err? ==> NoneToHave(|old(trace)|)
      ensures Smoothly() && old(s.lockers) == {} && Available(old(s)) ==> r.Ok?
    {
      hide Exec, Faultless, LostAll, Init, OwnOf, Enabled, Apply, Effect, Target, Sound, FillMap, Size;
      hide ClaimedSince, Exclusively;
      r := GetNewIP(false);
      ghost var since := |trace|;
      if r == Err(NeedBridge) {
        r := OpenAndRetry();
        if r.Err? && LostAll(w, from, trace, c, works, since) { LostEarlier(since, |old(trace)|); }
      }
    }

    /** A new range, and the second GetNewIP. */
    method OpenAndRetry() returns (r: Result<Cidr>)
      requires Here(WantLock)
      modifies this`s, this`trace, this`polls
      ensures Ran(old(trace)) && s.At(c) == if r.Ok? then Binding(r.value) else Idle
      ensures works && r.Err? ==> NoneToHave(|old(trace)|)
      ensures Smoothly() && old(s.lockers) == {} && old(s.pool) == map[] && Available(old(s)) ==> r.Ok?
    {
      hide Exec, Faultless, LostAll, Init, OwnOf, Enabled, Apply, Effect, Target, Sound, FillMap, Size;
      hide ClaimedSince, Exclusively;
      var ok := CreateNewBridge();
      if !ok { return Err(Api); }
      if Smoothly() && old(s.lockers) == {} && DryAt(old(s)) { Offers(old(s.iprange)); }
      ghost var since := |trace|;
      r := GetNewIP(true);
      if r == Err(NoAddress) { LostEarlier(since, |old(trace)|); }
    }

    lemma Offers(prev: Cidr)
      requires Valid() && prev.mask <= 32 && s.iprange == After(prev) && s.iprange.mask <= 30
      ensures FillMap(s.iprange) == map[] ==> prev.mask == 30 && (prev.ip + 4) % 256 == 252
    {
      AlwaysFree(w, from, trace);
      hide Exec, Faultless, Init, Size, FillMap, AllIn;
      OffersAfter(prev, s.iprange);
    }

    /** Bingding with its one repetition, and the network interface. */
    method Attach(v: Cidr) returns (ok: bool)
      requires Here(Binding(v))
      modifies this`s, this`trace, this`failed
      ensures Ran(old(trace)) && s.At(c) == if ok then Saving(v) else Idle
      ensures works && !ok ==> failed == old(failed) + 2 <= flaky
    {
      hide Exec, Faultless, Init, OwnOf, Enabled, Apply, Effect, Target, Lookup, OneOwnStep;
      ok := Bingding(v);
      if !ok { ok := Bingding(v); }
      if !ok {
        Fail();
        return false;
      }
      ok := Wire(v);
    }

    /** DoNetworking. */
    method Wire(v: Cidr) returns (ok: bool)
      requires Here(Saving(v))
      modifies this`s, this`trace
      ensures Ran(old(trace)) && s.At(c) == if ok then Saving(v) else Idle
      ensures works ==> ok
    {
      var wired: bool := *;
      ok := works || wired;
      if !ok { Fail(); }
    }

    /** CmdAddK8s. Whatever other processes do at any point: an address it returns is held by this
        container and by no other, and is the stored result unless storing it just failed. A stored
        result that can be read is returned at once. Alone and without failures, except that one attempt
        at Bingding may fail, it returns an address whenever there is one to be had. */
    method CmdAdd() returns (r: Result<Cidr>)
      requires Here(Idle) && (w.rules.freshIds ==> c !in s.gone)
      modifies this`s, this`trace, this`failed, this`polls
      ensures Ran(old(trace)) && s.At(c).Idle?
      ensures (works || w.rules.faithful) && c in old(s.results) ==>
                r == Ok(old(s.results[c])) && |trace| > |old(trace)| && trace[|trace| - 1] == Add(c, Cached)
                && forall i :: |old(trace)| <= i < |trace| - 1 ==> trace[i].c != c
      ensures r.Ok? && Sound(w.rules) ==> Exclusively(r.value)
      ensures works && r.Err? ==> NoneToHave(|old(trace)|) || failed == old(failed) + 2 <= flaky
      ensures r.Ok? ==> trace != old(trace)
      ensures r.Ok? ==> (!works && trace[|trace| - 1] == Add(c, Save(false))) || Lookup(s.results, c) == Some(r.value)
      ensures Smoothly() && old(s.lockers) == {} && Available(old(s)) && flaky <= old(failed) + 1 ==> r.Ok?
    {
      hide Exec, Faultless, LostAll, Init, OwnOf, Enabled, Apply, Effect, Target, Sound, Exclusively;
      Yield();
      var unread: bool := *;
      if c in s.results && (w.rules.faithful || works || !unread) {
        r := ReturnStored();
      } else {
        StartAdd();
        ghost var since := |trace|;
        r := AddNew();
        if r.Err? && LostAll(w, from, trace, c, works, since) { LostEarlier(since, |old(trace)|); }
      }
    }

    method ReturnStored() returns (r: Result<Cidr>)
      requires Here(Idle) && c in s.results && (w.rules.freshIds ==> c !in s.gone)
      modifies this`s, this`trace
      ensures Ran(old(trace)) && s.At(c).Idle? && trace == old(trace) + [Add(c, Cached)]
      ensures r == Ok(old(s.results[c])) && Lookup(s.results, c) == Some(r.value)
      ensures Sound(w.rules) ==> Exclusively(r.value)
    {
      hide Exec, Faultless, Init, OwnOf, Enabled, Apply, Effect, Target, Sound, Exclusively;
      r := Ok(s.results[c]);
      DoAdd(Cached);
      if Sound(w.rules) { CachedExclusive(r.value); }
    }

    method StartAdd()
      requires Here(Idle) && (w.rules.faithful || works ==> c !in s.results) && (w.rules.freshIds ==> c !in s.gone)
      modifies this`s, this`trace
      ensures Ran(old(trace)) && s.At(c) == Listing(false)
      ensures s.pool == old(s.pool) && s.iprange == old(s.iprange) && (old(s.lockers) == {} ==> s.lockers == {})
    {
      hide Exec, Faultless, Init, OwnOf, Enabled, Apply, Effect, Target;
      DoAdd(Start);
    }

    /** CmdAddK8s without a stored result. */
    method AddNew() returns (r: Result<Cidr>)
      requires Here(Listing(false))
      modifies this`s, this`trace, this`failed, this`polls
      ensures Ran(old(trace)) && s.At(c).Idle?
      ensures r.Ok? && Sound(w.rules) ==> Exclusively(r.value)
      ensures works && r.Err? ==> NoneToHave(|old(trace)|) || failed == old(failed) + 2 <= flaky
      ensures r.Ok? ==> trace != old(trace)
      ensures r.Ok? ==> (!works && trace[|trace| - 1] == Add(c, Save(false))) || Lookup(s.results, c) == Some(r.value)
      ensures Smoothly() && old(s.lockers) == {} && Available(old(s)) && flaky <= old(failed) + 1 ==> r.Ok?
    {
      hide Exec, Faultless, LostAll, Init, OwnOf, Enabled, Apply, Effect, Target, Sound;
      r := Allocate();
      if r.Err? { return; }
      var ok := Attach(r.value);
      if !ok { return Err(Api); }
      SaveResult(r.value);
    }

    /** The result is stored; a failure is only logged. */
    method SaveResult(v: Cidr)
      requires Here(Saving(v))
      modifies this`s, this`trace
      ensures Ran(old(trace)) && trace != old(trace) && s.At(c).Idle?
      ensures Sound(w.rules) ==> Exclusively(v)
      ensures (!works && trace[|trace| - 1] == Add(c, Save(false))) || Lookup(s.results, c) == Some(v)
    {
      hide Exec, Faultless, Init, OwnOf, Enabled, Apply, Effect, Target, Sound;
      Yield();
      if Sound(w.rules) { Exclusive(v); }
      var took: bool := *;
      DoAdd(Save(took || works));
    }

    lemma CachedExclusive(v: Cidr)
      requires Valid() && Sound(w.rules) && Hold(c, v.ip) in s.held
      ensures Exclusively(v)
    {
      Reached(w, from, trace, s);
    }

    /** The protocol's invariant, read at this container's position. */
    lemma Exclusive(v: Cidr)
      requires Valid() && Sound(w.rules)
      requires s.At(c) == Binding(v) || s.At(c) == Saving(v)
      ensures Exclusively(v)
    {
      Reached(w, from, trace, s);
      assert LocalInv(w, s, c);
    }

    /** An address that iprange covers, and a lock that nobody is in. */
    predicate InTime(u: State, v: Cidr) { u.lockers == {} && u.iprange.mask <= 32 && InRange(v.ip, u.iprange) }

    /** What an undisturbed DEL leaves alone before it releases. */
    predicate Quiet(u: State, t: State) {
      t.iprange == u.iprange && t.pool == u.pool && (u.lockers == {} ==> t.lockers == {})
    }

    /** The last step has read an iprange that does not cover `v`. */
    ghost predicate Refused(v: Cidr)
      reads this
    {
      && |trace| > 0 && trace[|trace| - 1] == Del(c, ReadNet)
      && s.iprange.mask <= 32 && !InRange(v.ip, s.iprange)
    }

    /** ReleaseIP. An address stays out only because iprange does not cover it when it is read, or
        because the lock was taken as long as the process had patience. */
    method ReleaseIP(v: Cidr) returns (put: bool)
      requires Here(Releasing(v))
      modifies this`s, this`trace, this`polls
      ensures OwnDels(|old(trace)|)
      ensures KeepsRest(old(s), s)
      ensures Ran(old(trace)) && s.At(c) == Forgetting && (c in s.gone <==> c in old(s.gone))
      ensures !put ==> NoPut(|old(trace)|)
      ensures put ==> |trace| > |old(trace)| && trace[|trace| - 1] == Del(c, Put(v.ip, true))
      ensures works && !put ==> Refused(v) || (Busy(w, s) && polls == old(polls) + patience)
      ensures Smoothly() && InTime(old(s), v) ==> put && s.pool == old(s.pool)[v.ip := v]
    {
      hide Exec, Faultless, Init, OwnOf, Enabled, Apply, Effect, Target, InRange;
      Compare(v);
      if s.At(c).Forgetting? { return false; }
      put := Reinsert(v);
    }

    /** The first part of ReleaseIP: iprange is read and compared. */
    method Compare(v: Cidr)
      requires Here(Releasing(v))
      modifies this`s, this`trace
      ensures KeepsRest(old(s), s)
      ensures OwnDels(|old(trace)|) && Ran(old(trace)) && (c in s.gone <==> c in old(s.gone)) && NoPut(|old(trace)|)
      ensures s.At(c) == Forgetting || s.At(c) == WantPut(v)
      ensures works && s.At(c) == Forgetting ==> Refused(v)
      ensures Smoothly() && InTime(old(s), v) ==> s.At(c) == WantPut(v)
      ensures alone ==> Quiet(old(s), s)
    {
      hide Exec, Faultless, Init, OwnOf, Enabled, Apply, Effect, Target, InRange;
      Yield();
      ReadAndCompare(v);
    }

    method ReadAndCompare(v: Cidr)
      requires Here(Releasing(v))
      modifies this`s, this`trace
      ensures KeepsRest(old(s), s) && Ran(old(trace)) && (c in s.gone <==> c in old(s.gone)) && Quiet(old(s), s)
      ensures trace == old(trace) + [Del(c, ReadNet)] || trace == old(trace) + [Del(c, NoRelease)]
      ensures s.At(c) == Forgetting || s.At(c) == WantPut(v)
      ensures works && s.At(c) == Forgetting ==> Refused(v)
      ensures works && InTime(old(s), v) ==> s.At(c) == WantPut(v)
    {
      hide Exec, Faultless, Init, OwnOf, Enabled, Apply, Effect, Target, SameNet, InRange;
      Comparable(v);
      var unread: bool := *;
      if (unread && !works) || v.mask > 32 || s.iprange.mask > 32 {
        DoDel(NoRelease);
      } else {
        DoDel(ReadNet);
      }
    }

    lemma Comparable(v: Cidr)
      requires Here(Releasing(v))
      ensures v.mask <= 32 && s.iprange.mask <= 32 && (SameNet(s.iprange, v) <==> InRange(v.ip, s.iprange))
    {
      AlwaysFree(w, from, trace);
      assert PcIn(w, Offerable(w), s.At(c));
      hide Exec, Faultless, Init, StoreIn, AllIn, Aligned, InRange, SameNet;
      SameNetIsMembership(s.iprange, v);
    }

    /** The second part of ReleaseIP: the insertion under the bridge lock. */
    method Reinsert(v: Cidr) returns (put: bool)
      requires Here(WantPut(v))
      modifies this`s, this`trace, this`polls
      ensures OwnDels(|old(trace)|)
      ensures KeepsRest(old(s), s)
      ensures Ran(old(trace)) && s.At(c) == Forgetting && (c in s.gone <==> c in old(s.gone))
      ensures !put ==> NoPut(|old(trace)|)
      ensures put ==> |trace| > |old(trace)| && trace[|trace| - 1] == Del(c, Put(v.ip, true))
      ensures works && !put ==> Busy(w, s) && polls == old(polls) + patience
      ensures alone && works && old(s.lockers) == {} ==> put && s.pool == old(s.pool)[v.ip := v]
    {
      hide Exec, Faultless, Init, OwnOf, Enabled, Apply, Effect, Target;
      EnterLock(v);
      if s.At(c).Forgetting? { return false; }
      put := Insert(v);
    }

    /** The wait for the lock, which may end in an error. */
    method EnterLock(v: Cidr)
      requires Here(WantPut(v))
      modifies this`s, this`trace, this`polls
      ensures KeepsRest(old(s), s)
      ensures OwnDels(|old(trace)|) && Ran(old(trace)) && (c in s.gone <==> c in old(s.gone)) && NoPut(|old(trace)|)
      ensures s.At(c) == Forgetting || s.At(c) == Putting(v)
      ensures s.At(c) == Forgetting ==> Busy(w, s) && polls == old(polls) + patience
      ensures alone && old(s.lockers) == {} ==> s.At(c) == Putting(v) && s.pool == old(s.pool)
    {
      hide Exec, Faultless, Init, OwnOf, Enabled, Apply, Effect, Target;
      Wait();
      if w.rules.serial && s.lockers != {} {
        NotInside();
        DoDel(NoRelease);
      } else {
        DoDel(LockPut);
      }
    }

    /** Inside the lock. */
    method Insert(v: Cidr) returns (put: bool)
      requires Here(Putting(v))
      modifies this`s, this`trace
      ensures OwnDels(|old(trace)|)
      ensures KeepsRest(old(s), s)
      ensures Ran(old(trace)) && s.At(c) == Forgetting && (c in s.gone <==> c in old(s.gone))
      ensures !put ==> NoPut(|old(trace)|)
      ensures put ==> |trace| > |old(trace)| && trace[|trace| - 1] == Del(c, Put(v.ip, true))
      ensures works ==> put
      ensures alone && works ==> s.pool == old(s.pool)[v.ip := v]
    {
      hide Exec, Faultless, Init, OwnOf, Enabled, Apply, Effect, Target;
      Yield();
      var took: bool := *;
      DoDel(Put(v.ip, took || works));
      return took || works;
    }

    /** No insertion of this container's has taken effect since. */
    ghost predicate NoPut(since: nat)
      reads this
    {
      forall i :: since <= i < |trace| && trace[i].c == c && trace[i].Del? && trace[i].del.Put? ==> !trace[i].del.took
    }

    /** Since position `since` of the trace this container has deleted a port and, after that, put
        `v` back. */
    ghost predicate ReleasedSince(since: nat, v: Cidr)
      reads this
    {
      exists i, j :: since <= i < j < |trace| && trace[i] == Del(c, PortOk) && trace[j] == Del(c, Put(v.ip, true))
    }

    /** No deletion of a port has been reported to this container since. */
    ghost predicate NoPort(since: nat)
      reads this
    {
      forall i :: since <= i < |trace| ==> trace[i] != Del(c, PortOk)
    }

    /** The container's port exists, and its address is recorded. */
    predicate Attached(u: State) { c in u.bindings && u.bindings[c] in u.ports && c in u.records }

    /** CmdDelK8s goes through to its end, and if it puts an address back, then only after it has
        deleted the port. Without own failures the stored result and the binding are gone then, and so is
        the record if a port was deleted. Alone as well, it puts back the recorded address whenever
        iprange covers it. */
    method CmdDel() returns (released: Option<Cidr>)
      requires Here(Idle)
      modifies this`s, this`trace, this`polls
      ensures released.Some? ==> released == old(Lookup(s.records, c))
      ensures released.None? ==> NoPut(|old(trace)|)
      ensures works || w.rules.resultDeletes ==> c !in s.results
      ensures works ==> c !in s.bindings && (c !in s.records || NoPort(|old(trace)|))
      ensures OwnDels(|old(trace)|)
      ensures Ran(old(trace)) && s.At(c).Idle? && c in s.gone
      ensures released.Some? ==> ReleasedSince(|old(trace)|, released.value)
      ensures Smoothly() && Attached(old(s)) && InTime(old(s), old(s).records[c]) ==>
                var v := old(s).records[c]; released == Some(v) && s.pool == old(s.pool)[v.ip := v]
    {
      hide Exec, Faultless, Init, OwnOf, Enabled, Apply, Effect, Target, InRange;
      var deleted := Unbind();
      if !deleted { return None; }
      ghost var port: nat :| |old(trace)| <= port < |trace| && trace[port] == Del(c, PortOk);
      released := ReleaseRecorded();
      if released.Some? {
        ghost var j: nat :| port < j < |trace| && trace[j] == Del(c, Put(released.value.ip, true));
        assert trace[port] == Del(c, PortOk);
      }
    }

    /** The first part of CmdDelK8s: the result, the port and the binding record go. */
    method Unbind() returns (deleted: bool)
      requires Here(Idle)
      modifies this`s, this`trace
      ensures Lookup(s.records, c) == old(Lookup(s.records, c))
      ensures works || w.rules.resultDeletes ==> c !in s.results
      ensures works ==> c !in s.bindings
      ensures OwnFirst(|old(trace)|, deleted)
      ensures Ran(old(trace)) && c in s.gone && s.At(c) == if deleted then ReadingRecord else Idle
      ensures deleted ==> exists i :: |old(trace)| <= i < |trace| && trace[i] == Del(c, PortOk)
      ensures alone ==> Quiet(old(s), s)
      ensures alone && works && Attached(old(s)) ==> deleted
    {
      hide Exec, Faultless, Init, OwnOf, Enabled, Apply, Effect, Target;
      FindBinding();
      if s.At(c).Idle? { return false; }
      deleted := DeletePort();
      ghost var port: nat := |trace| - 1;
      DropBindingRecord(deleted);
      assert deleted ==> trace[port] == Del(c, PortOk);
    }

    method DropBindingRecord(deleted: bool)
      requires Here(Dropping(deleted))
      modifies this`s, this`trace
      ensures Lookup(s.records, c) == old(Lookup(s.records, c)) && OwnFirst(|old(trace)|, false)
      ensures Lookup(s.results, c) == old(Lookup(s.results, c))
      ensures works ==> c !in s.bindings
      ensures Ran(old(trace)) && (c in s.gone <==> c in old(s.gone))
      ensures s.At(c) == if deleted then ReadingRecord else Idle
      ensures alone ==> Quiet(old(s), s)
    {
      hide Exec, Faultless, Init, OwnOf, Enabled, Apply, Effect, Target;
      Yield();
      var took: bool := *;
      DoDel(DropBinding(took || works));
    }

    /** The result goes, and the binding record is read. */
    method FindBinding()
      requires Here(Idle)
      modifies this`s, this`trace
      ensures Lookup(s.records, c) == old(Lookup(s.records, c))
      ensures works || w.rules.resultDeletes ==> c !in s.results
      ensures works ==> if c in old(s.bindings) then s.At(c) == Porting(old(s.bindings[c]), 1)
                else s.At(c).Idle? && c !in s.bindings
      ensures OwnFirst(|old(trace)|, false)
      ensures Ran(old(trace)) && c in s.gone
      ensures s.At(c).Idle? || (s.At(c).Porting? && s.At(c).tries == 1)
      ensures alone ==> Quiet(old(s), s) && s.ports == old(s.ports)
    {
      hide Exec, Faultless, Init, OwnOf, Enabled, Apply, Effect, Target;
      DropResult();
      ReadBindingRecord();
    }

    method DropResult()
      requires Here(Idle)
      modifies this`s, this`trace
      ensures Lookup(s.records, c) == old(Lookup(s.records, c)) && Lookup(s.bindings, c) == old(Lookup(s.bindings, c))
      ensures works || w.rules.resultDeletes ==> c !in s.results
      ensures OwnFirst(|old(trace)|, false) && Ran(old(trace)) && c in s.gone && s.At(c) == Unbinding
      ensures alone ==> Quiet(old(s), s) && s.ports == old(s.ports)
    {
      hide Exec, Faultless, Init, OwnOf, Enabled, Apply, Effect, Target;
      Yield();
      var took: bool := *;
      DoDel(DelStart(took || works || w.rules.resultDeletes));
    }

    method ReadBindingRecord()
      requires Here(Unbinding)
      modifies this`s, this`trace
      ensures Lookup(s.records, c) == old(Lookup(s.records, c)) && Lookup(s.results, c) == old(Lookup(s.results, c))
      ensures works ==> if c in old(s.bindings) then s.At(c) == Porting(old(s.bindings[c]), 1)
                else s.At(c).Idle? && c !in s.bindings
      ensures OwnFirst(|old(trace)|, false) && Ran(old(trace)) && (c in s.gone <==> c in old(s.gone))
      ensures s.At(c).Idle? || (s.At(c).Porting? && s.At(c).tries == 1)
      ensures alone ==> Quiet(old(s), s) && s.ports == old(s.ports)
    {
      hide Exec, Faultless, Init, OwnOf, Enabled, Apply, Effect, Target;
      Yield();
      var unread: bool := *;
      DoDel(ReadBinding((works || !unread) && c in s.bindings));
    }

    /** The last part of CmdDelK8s, once the port is gone. */
    method ReleaseRecorded() returns (released: Option<Cidr>)
      requires Here(ReadingRecord)
      modifies this`s, this`trace, this`polls
      ensures released.Some? ==> released == old(Lookup(s.records, c))
      ensures works ==> c !in s.records
      ensures KeepsRest(old(s), s) && (released.None? ==> NoPut(|old(trace)|))
      ensures OwnDels(|old(trace)|)
      ensures Ran(old(trace)) && s.At(c).Idle? && (c in s.gone <==> c in old(s.gone))
      ensures released.Some? ==>
                exists j :: |old(trace)| <= j < |trace| && trace[j] == Del(c, Put(released.value.ip, true))
      ensures Smoothly() && c in old(s.records) && InTime(old(s), old(s.records[c])) ==>
                var v := old(s.records[c]); released == Some(v) && s.pool == old(s.pool)[v.ip := v]
    {
      hide Exec, Faultless, Init, OwnOf, Enabled, Apply, Effect, Target, InRange;
      ReadOwnRecord();
      if s.At(c).Idle? { return None; }
      var v := s.At(c).v;
      var put := ReleaseIP(v);
      ghost var j: nat := |trace| - 1;
      DropRecord();
      if put {
        assert trace[j] == Del(c, Put(v.ip, true));
        return Some(v);
      }
      return None;
    }

    method ReadOwnRecord()
      requires Here(ReadingRecord)
      modifies this`s, this`trace
      ensures OwnDels(|old(trace)|) && Ran(old(trace)) && (c in s.gone <==> c in old(s.gone))
      ensures Lookup(s.records, c) == old(Lookup(s.records, c)) && KeepsRest(old(s), s) && NoPut(|old(trace)|)
      ensures s.At(c) == Idle || (c in s.records && s.At(c) == Releasing(s.records[c]))
      ensures works && c in s.records ==> s.At(c) != Idle
      ensures alone ==> Quiet(old(s), s)
    {
      hide Exec, Faultless, Init, OwnOf, Enabled, Apply, Effect, Target;
      Yield();
      var unread: bool := *;
      DoDel(ReadRecord((works || !unread) && c in s.records));
    }

    method DropRecord()
      requires Here(Forgetting)
      modifies this`s, this`trace
      ensures works ==> c !in s.records
      ensures KeepsRest(old(s), s) && NoPut(|old(trace)|)
      ensures OwnDels(|old(trace)|)
      ensures Ran(old(trace)) && s.At(c).Idle? && (c in s.gone <==> c in old(s.gone))
      ensures alone ==> s.pool == old(s.pool)
    {
      hide Exec, Faultless, Init, OwnOf, Enabled, Apply, Effect, Target;
      Yield();
      var took: bool := *;
      DoDel(Forget(took || works));
    }

    /** At most two attempts to delete the port. */
    method DeletePort() returns (deleted: bool)
      requires Valid() && s.At(c).Porting? && s.At(c).tries == 1
      modifies this`s, this`trace
      ensures Lookup(s.records, c) == old(Lookup(s.records, c)) && Lookup(s.results, c) == old(Lookup(s.results, c))
      ensures OwnFirst(|old(trace)|, deleted)
      ensures Ran(old(trace)) && s.At(c) == Dropping(deleted) && (c in s.gone <==> c in old(s.gone))
      ensures |trace| > |old(trace)| && (deleted ==> trace[|trace| - 1] == Del(c, PortOk))
      ensures alone ==> Quiet(old(s), s)
      ensures alone && works && old(s.At(c)).p in old(s.ports) ==> deleted
    {
      hide Exec, Faultless, Init, OwnOf, Enabled, Apply, Effect, Target;
      var i := 2;
      deleted := false;
      while i > 0 && !deleted
        invariant 0 <= i <= 2 && Ran(old(trace)) && (c in s.gone <==> c in old(s.gone))
        invariant (i == 2 || |trace| > |old(trace)|) && OwnFirst(|old(trace)|, deleted)
        invariant Lookup(s.records, c) == old(Lookup(s.records, c)) && Lookup(s.results, c) == old(Lookup(s.results, c))
        invariant deleted ==> |trace| > |old(trace)| && trace[|trace| - 1] == Del(c, PortOk)
        invariant deleted ==> s.At(c) == Dropping(true)
        invariant !deleted ==> if i > 0 then s.At(c).Porting? && s.At(c).tries == 3 - i else s.At(c) == Dropping(false)
        invariant alone ==> Quiet(old(s), s)
        invariant alone && works && old(s.At(c)).p in old(s.ports) ==> deleted || s == old(s)
        decreases i
      {
        deleted := TryPort();
        i := i - 1;
      }
    }

    /** One attempt. */
    method TryPort() returns (deleted: bool)
      requires Valid() && s.At(c).Porting? && s.At(c).tries <= 2
      modifies this`s, this`trace
      ensures Lookup(s.records, c) == old(Lookup(s.records, c)) && Lookup(s.results, c) == old(Lookup(s.results, c))
      ensures OwnFirst(|old(trace)|, deleted) && |trace| > |old(trace)|
      ensures Ran(old(trace)) && (c in s.gone <==> c in old(s.gone))
      ensures deleted ==> trace[|trace| - 1] == Del(c, PortOk) && s.At(c) == Dropping(true)
      ensures var k, p := old(s.At(c)).tries, old(s.At(c)).p;
              !deleted ==> s.At(c) == if k < 2 then Porting(p, k + 1) else Dropping(false)
      ensures alone ==> Quiet(old(s), s)
      ensures alone && works && old(s.At(c)).p in old(s.ports) ==> deleted
    {
      hide Exec, Faultless, Init, OwnOf, Enabled, Apply, Effect, Target;
      Yield();
      var fails: bool := *;
      deleted := (works || !fails) && (s.At(c).p in s.ports || !w.rules.portOnce);
      if deleted { PortGoes(); } else { PortStays(); }
    }

    method PortGoes()
      requires Valid() && s.At(c).Porting? && (w.rules.portOnce ==> s.At(c).p in s.ports)
      modifies this`s, this`trace
      ensures Ran(old(trace)) && trace == old(trace) + [Del(c, PortOk)] && s.At(c) == Dropping(true)
      ensures s.records == old(s.records) && s.results == old(s.results) && s.gone == old(s.gone) && Quiet(old(s), s)
    {
      hide Exec, Faultless, Init, OwnOf, Enabled, Apply, Effect, Target;
      DoDel(PortOk);
    }

    method PortStays()
      requires Valid() && s.At(c).Porting? && (works ==> s.At(c).p !in s.ports)
      modifies this`s, this`trace
      ensures Ran(old(trace)) && exists took :: trace == old(trace) + [Del(c, PortFails(took))]
      ensures var k, p := old(s.At(c)).tries, old(s.At(c)).p;
              s.At(c) == if k < 2 then Porting(p, k + 1) else Dropping(false)
      ensures s.records == old(s.records) && s.results == old(s.results) && s.gone == old(s.gone) && Quiet(old(s), s)
    {
      hide Exec, Faultless, Init, OwnOf, Enabled, Apply, Effect, Target;
      var took: bool := *;
      DoDel(PortFails(took));
    }
  }
}
