/** One tenant's pod addresses as a concurrent protocol: any number of containers, each running
    CmdAddK8s or CmdDelK8s as a sequence of atomic operations on the shared etcd store and on the
    MidoNet API. A step is one operation; a run interleaves them arbitrarily. */
module Tenant {
  import opened Results
  import opened Addr

  type Container = nat
  type Port = nat

  /** Where a container's current command is. */
  datatype Pc =
    | Idle
      // CmdAddK8s -> GetNewIP
    | Listing(again: bool)                     // about to list the pool; again: after CreateNewBridge
    | Trying(left: map<nat, Cidr>)             // candidates of the listing not tried yet
    | Claimed(v: Cidr)                         // a delete succeeded; about to write the record
      // CmdAddK8s -> Bingding, DoNetworking, result
    | Binding(v: Cidr)
    | Saving(v: Cidr)
      // CmdAddK8s -> CreateNewBridge -> CreateIPsForTenantBridge
    | WantLock
    | Recheck
    | Reading
    | Writing(next: Cidr)
    | Filling(range: Cidr, at: nat)
      // CmdDelK8s
    | Unbinding
    | Porting(p: Port, tries: nat)
    | Dropping(deleted: bool)
    | ReadingRecord
    | Releasing(v: Cidr)                       // ReleaseIP, before it reads iprange
    | WantPut(v: Cidr)
    | Putting(v: Cidr)
    | Forgetting

  /** Inside the lock .../bridge/create. */
  predicate InCs(pc: Pc) {
    pc.Recheck? || pc.Reading? || pc.Writing? || pc.Filling? || pc.Putting?
  }

  predicate Adding(pc: Pc) {
    pc.Listing? || pc.Trying? || pc.Claimed? || pc.Binding? || pc.Saving?
    || pc.WantLock? || pc.Recheck? || pc.Reading? || pc.Writing? || pc.Filling?
  }

  datatype Hold = Hold(c: Container, a: nat)

  /** The first fields are the store and the controller. The last five are history: the ranges
      written to iprange; which container was given which address, by a claim or as its stored
      result, and has neither returned it nor had its record removed; the part of a range still to
      be filled; the addresses nobody can ever use again; and the containers a DEL was begun for. */
  datatype State = State(
    iprange: Cidr,
    pool: map<nat, Cidr>,
    records: map<Container, Cidr>,
    bindings: map<Container, Port>,
    results: map<Container, Cidr>,
    ports: set<Port>,
    nextPort: Port,
    lockers: set<Container>,
    pcs: map<Container, Pc>,
    ranges: seq<Cidr>,
    held: set<Hold>,
    pending: set<nat>,
    lost: set<nat>,
    gone: set<Container>)
  {
    function At(c: Container): Pc { if c in pcs then pcs[c] else Idle }
    /** Nodes under .../available: the addresses and iprange itself. */
    function Nodes(): nat { |pool| + 1 }
  }

  /** What the environment guarantees. Each flag that is false lets the named thing happen. */
  datatype Rules = Rules(
    serial: bool,       // at most one process is inside the bridge lock
    rangeWrites: bool,  // an iprange write after which the refill goes on has taken effect
    bounded: bool,      // the tenant does not open a range beyond 255.255.255.255
    portOnce: bool,     // deleting a port succeeds at most once
    freshIds: bool,     // no ADD for a container after a DEL for it was begun
    recordWrites: bool, // writing a container's record takes effect
    resultDeletes: bool, // deleting a container's result takes effect
    faithful: bool)     // reading a result or a binding that exists does not fail

  datatype World = World(conf: Cidr, rules: Rules)

  ghost predicate Wf(w: World) { Aligned(w.conf) && w.conf.mask <= 30 }

  /** CmdAddK8s, GetNewIP and Bingding. */
  datatype AddStep =
    | Cached                       // the stored result is returned
    | Start                        // no result; the tenant exists
    | List                         // GetNewIP lists the pool
    | Claim(a: nat)                // delete of a candidate succeeded
    | Miss(a: nat, took: bool)     // delete failed; took: it removed the node all the same
    | Exhausted                    // no candidate left
    | Record(took: bool)
    | Bound                        // a binding exists, nothing to do
    | Bind
    | BindFails(took: bool)        // the port was made, an error after that
    | Save(took: bool)

  /** CreateNewBridge and CreateIPsForTenantBridge. */
  datatype RefillStep =
    | Lock
    | Refilled                     // the recheck finds addresses
    | Empty
    | ReadRange
    | WriteRange(took: bool)       // the refill goes on
    | WriteFails(took: bool)       // the refill stops with an error
    | Fill(a: nat, took: bool)
    | Skip                         // low octet 254
    | Filled

  /** CmdDelK8s and ReleaseIP. */
  datatype DelStep =
    | DelStart(took: bool)
    | ReadBinding(found: bool)     // not found: there is none, or the read fails
    | PortOk
    | PortFails(took: bool)
    | DropBinding(took: bool)
    | ReadRecord(found: bool)
    | ReadNet
    | NoRelease                    // ReleaseIP fails: iprange unreadable, or no lock
    | LockPut
    | Put(a: nat, took: bool)
    | Forget(took: bool)

  /** A step of container `c`. Abort is any other error return, or a crash. */
  datatype Step =
    | Add(c: Container, add: AddStep)
    | Refill(c: Container, refill: RefillStep)
    | Del(c: Container, del: DelStep)
    | Abort(c: Container)

  predicate LockFree(w: World, s: State) { w.rules.serial ==> s.lockers == {} }

  /** The last address of a block. */
  function Last(r: Cidr): int
    requires r.mask <= 32
  {
    r.ip + Size(r.mask) - 1
  }

  /** GetNextCIDR of the iprange cell. */
  function Next(iprange: Cidr): Result<Cidr> {
    if iprange.ip < SPACE && iprange.mask <= 32 then GetNextCIDR(Some(iprange)) else Err(BadCIDR)
  }

  predicate AddEnabled(w: World, s: State, c: Container, x: AddStep) {
    var rules, pc := w.rules, s.At(c);
    match x
    case Cached => pc.Idle? && c in s.results && (rules.freshIds ==> c !in s.gone)
    case Start => pc.Idle? && (rules.faithful ==> c !in s.results) && (rules.freshIds ==> c !in s.gone)
    case List => pc.Listing?
    case Claim(a) => pc.Trying? && a in pc.left && a in s.pool
    case Miss(a, took) => pc.Trying? && a in pc.left && (took ==> a in s.pool)
    case Exhausted => pc.Trying? && pc.left == map[]
    case Record(took) => pc.Claimed? && (rules.recordWrites ==> took)
    case Bound => pc.Binding? && c in s.bindings
    case Bind => pc.Binding? && (rules.faithful ==> c !in s.bindings)
    case BindFails(_) => pc.Binding? && (rules.faithful ==> c !in s.bindings)
    case Save(took) => pc.Saving?
  }

  predicate RefillEnabled(w: World, s: State, c: Container, x: RefillStep) {
    var rules, pc := w.rules, s.At(c);
    match x
    case Lock => pc.WantLock? && LockFree(w, s)
    case Refilled => pc.Recheck? && s.Nodes() >= 2
    case Empty => pc.Recheck? && s.Nodes() < 2
    case ReadRange => pc.Reading? && Next(s.iprange).Ok? && (rules.bounded ==> Next(s.iprange).value.ip > s.iprange.ip)
    case WriteRange(took) => pc.Writing? && (rules.rangeWrites ==> took)
    case WriteFails(took) => pc.Writing?
    case Fill(a, took) =>
      pc.Filling? && pc.range.mask <= 32 && pc.at == a && a < Last(pc.range) && a % 256 != 254
    case Skip => pc.Filling? && pc.range.mask <= 32 && pc.at < Last(pc.range) && pc.at % 256 == 254
    case Filled => pc.Filling? && pc.range.mask <= 32 && pc.at >= Last(pc.range)
  }

  predicate DelEnabled(w: World, s: State, c: Container, x: DelStep) {
    var rules, pc := w.rules, s.At(c);
    match x
    case DelStart(took) => pc.Idle? && (rules.resultDeletes ==> took)
    case ReadBinding(found) => pc.Unbinding? && (found ==> c in s.bindings)
    case PortOk => pc.Porting? && (rules.portOnce ==> pc.p in s.ports)
    case PortFails(took) => pc.Porting?
    case DropBinding(took) => pc.Dropping?
    case ReadRecord(found) => pc.ReadingRecord? && (found ==> c in s.records)
    case ReadNet => pc.Releasing? && pc.v.mask <= 32 && s.iprange.mask <= 32
    case NoRelease => pc.Releasing? || pc.WantPut?
    case LockPut => pc.WantPut? && LockFree(w, s)
    case Put(a, took) => pc.Putting? && pc.v.ip == a
    case Forget(took) => pc.Forgetting?
  }

  predicate Enabled(w: World, s: State, l: Step) {
    match l
    case Add(c, x) => AddEnabled(w, s, c, x)
    case Refill(c, x) => RefillEnabled(w, s, c, x)
    case Del(c, x) => DelEnabled(w, s, c, x)
    case Abort(_) => true
  }

  // ---------------------------------------------------------------- control flow

  function AddTarget(w: World, s: State, c: Container, x: AddStep): Pc
    requires AddEnabled(w, s, c, x)
  {
    var pc := s.At(c);
    match x
    case Cached => Idle
    case Start => Listing(false)
    case List => if s.Nodes() >= 2 then Trying(s.pool) else if pc.again then Idle else WantLock
    case Claim(a) => if a % 256 == 254 then Trying(pc.left - {a}) else Claimed(pc.left[a])
    case Miss(a, _) => Trying(pc.left - {a})
    case Exhausted => Idle
    case Record(_) => Binding(pc.v)
    case Bound => Saving(pc.v)
    case Bind => Saving(pc.v)
    case BindFails(_) => pc
    case Save(_) => Idle
  }

  function RefillTarget(w: World, s: State, c: Container, x: RefillStep): Pc
    requires RefillEnabled(w, s, c, x)
  {
    var pc := s.At(c);
    match x
    case Lock => Recheck
    case Refilled => Listing(true)
    case Empty => Reading
    case ReadRange => Writing(Next(s.iprange).value)
    case WriteRange(_) => Filling(pc.next, pc.next.ip + 2)
    case WriteFails(_) => Idle
    case Fill(a, _) => Filling(pc.range, a + 1)
    case Skip => Filling(pc.range, pc.at + 1)
    case Filled => Listing(true)
  }

  function DelTarget(w: World, s: State, c: Container, x: DelStep): Pc
    requires DelEnabled(w, s, c, x)
  {
    var pc := s.At(c);
    match x
    case DelStart(_) => Unbinding
    case ReadBinding(found) => if found then Porting(s.bindings[c], 1) else Idle
    case PortOk => Dropping(true)
    case PortFails(_) => if pc.tries < 2 then Porting(pc.p, pc.tries + 1) else Dropping(false)
    case DropBinding(_) => if pc.deleted then ReadingRecord else Idle
    case ReadRecord(found) => if found then Releasing(s.records[c]) else Idle
    case ReadNet => if SameNet(s.iprange, pc.v) then WantPut(pc.v) else Forgetting
    case NoRelease => Forgetting
    case LockPut => Putting(pc.v)
    case Put(_, _) => Forgetting
    case Forget(_) => Idle
  }

  function Target(w: World, s: State, l: Step): Pc
    requires Enabled(w, s, l)
  {
    match l
    case Add(c, x) => AddTarget(w, s, c, x)
    case Refill(c, x) => RefillTarget(w, s, c, x)
    case Del(c, x) => DelTarget(w, s, c, x)
    case Abort(_) => Idle
  }

  // ---------------------------------------------------------------- effects on store and history

  /** The allocatable addresses of `r` from `at` on. */
  function AllocFrom(r: Cidr, at: nat): set<nat>
    requires r.mask <= 32
  {
    set a: nat | at <= a < r.ip + Size(r.mask) && Allocatable(r.mask, a)
  }

  function HeldBy(s: State, c: Container): set<nat> { set h | h in s.held && h.c == c :: h.a }

  /** The iprange cell is set: all addresses of the range become pending, and what an interrupted
      refill had left pending is lost. */
  function Open(s: State, next: Cidr): State {
    s.(iprange := next, ranges := s.ranges + [next], lost := s.lost + s.pending,
    pending := if next.mask <= 32 then AllocFrom(next, next.ip) else {})
  }

  /** A refill that ends leaves the unfilled part of its range to nobody. */
  function Abandon(s: State): State { s.(lost := s.lost + s.pending, pending := {}) }

  function AddEffect(w: World, s: State, c: Container, x: AddStep): State
    requires AddEnabled(w, s, c, x)
  {
    var pc := s.At(c);
    match x
    case Cached => s.(held := s.held + {Hold(c, s.results[c].ip)})
    case Claim(a) =>
      if a % 256 == 254 then s.(pool := s.pool - {a}, lost := s.lost + {a})
      else s.(pool := s.pool - {a}, held := s.held + {Hold(c, a)})
    case Miss(a, took) => if took then s.(pool := s.pool - {a}, lost := s.lost + {a}) else s
    case Record(took) => if took then s.(records := s.records[c := pc.v]) else s
    case Bind =>
      s.(ports := s.ports + {s.nextPort}, bindings := s.bindings[c := s.nextPort], nextPort := s.nextPort + 1)
    case BindFails(took) =>
      s.(ports := s.ports + {s.nextPort}, nextPort := s.nextPort + 1,
      bindings := if took then s.bindings[c := s.nextPort] else s.bindings)
    case Save(took) => if took then s.(results := s.results[c := pc.v]) else s
    case _ => s
  }

  function RefillEffect(w: World, s: State, c: Container, x: RefillStep): State
    requires RefillEnabled(w, s, c, x)
  {
    var pc := s.At(c);
    match x
    case WriteRange(took) => if took then Open(s, pc.next) else s
    case WriteFails(took) => if took then Abandon(Open(s, pc.next)) else s
    case Fill(a, took) =>
      if took then s.(pending := s.pending - {a}, pool := s.pool[a := Cidr(a, pc.range.mask)])
      else s.(pending := s.pending - {a}, lost := s.lost + {a})
    case Filled => Abandon(s)
    case _ => s
  }

  function DelEffect(w: World, s: State, c: Container, x: DelStep): State
    requires DelEnabled(w, s, c, x)
  {
    var pc := s.At(c);
    match x
    case DelStart(took) =>
      if took then s.(results := s.results - {c}, gone := s.gone + {c}) else s.(gone := s.gone + {c})
    case PortOk => s.(ports := s.ports - {pc.p})
    case PortFails(took) => if took then s.(ports := s.ports - {pc.p}) else s
    case DropBinding(took) => if took then s.(bindings := s.bindings - {c}) else s
    case Put(a, took) => if took then s.(pool := s.pool[a := pc.v], held := s.held - {Hold(c, a)}) else s
    case Forget(took) =>
      if took
      then s.(records := s.records - {c}, lost := s.lost + HeldBy(s, c), held := set h | h in s.held && h.c != c)
      else s
    case _ => s
  }

  function Effect(w: World, s: State, l: Step): State
    requires Enabled(w, s, l)
  {
    match l
    case Add(c, x) => AddEffect(w, s, c, x)
    case Refill(c, x) => RefillEffect(w, s, c, x)
    case Del(c, x) => DelEffect(w, s, c, x)
    case Abort(c) => if s.At(c).Filling? then Abandon(s) else s
  }

  /** One step. The bridge lock is held exactly while the command is in its critical section. */
  function Apply(w: World, s: State, l: Step): State
    requires Enabled(w, s, l)
  {
    var pc := Target(w, s, l);
    Effect(w, s, l).(
    pcs := s.pcs[l.c := pc],
    lockers := if InCs(pc) then s.lockers + {l.c} else s.lockers - {l.c})
  }

  /** Right after the tenant was initialised: the first range is open, and each of its addresses is
      in the pool or its write was lost. */
  ghost predicate Init(w: World, s: State) {
    && Wf(w)
    && s.iprange == w.conf && s.ranges == [w.conf]
    && s.pool.Keys <= AllocFrom(w.conf, w.conf.ip)
    && (forall a :: a in s.pool ==> s.pool[a] == Cidr(a, w.conf.mask))
    && s.lost == AllocFrom(w.conf, w.conf.ip) - s.pool.Keys
    && s.records == map[] && s.bindings == map[] && s.results == map[] && s.pcs == map[]
    && s.ports == {} && s.nextPort == 0 && s.lockers == {}
    && s.held == {} && s.pending == {} && s.gone == {}
  }

  /** The state after a run, if every step of it was enabled. */
  function Exec(w: World, s: State, ls: seq<Step>): Option<State>
    decreases |ls|
  {
    if ls == [] then Some(s)
    else
      var k := |ls| - 1;
      match Exec(w, s, ls[..k])
      case None => None
      case Some(t) => if Enabled(w, t, ls[k]) then Some(Apply(w, t, ls[k])) else None
  }

  lemma {:induction false} ExecSnoc(w: World, s: State, ls: seq<Step>, l: Step)
    requires Exec(w, s, ls).Some?
    ensures var t := Exec(w, s, ls).value;
            Exec(w, s, ls + [l]) == if Enabled(w, t, l) then Some(Apply(w, t, l)) else None
  {
    assert (ls + [l])[..|ls|] == ls;
  }

  lemma {:induction false} ExecLast(w: World, s: State, ls: seq<Step>)
    requires Exec(w, s, ls).Some? && ls != []
    ensures var k := |ls| - 1;
            && Exec(w, s, ls[..k]).Some? && Enabled(w, Exec(w, s, ls[..k]).value, ls[k])
            && Exec(w, s, ls).value == Apply(w, Exec(w, s, ls[..k]).value, ls[k])
  {
    hide Enabled, Apply;
  }

  // ---------------------------------------------------------------- what the runs are to keep

  /** No address is held by two containers. */
  ghost predicate NoDouble(s: State) {
    forall c, d, a :: Hold(c, a) in s.held && Hold(d, a) in s.held ==> c == d
  }

  ghost predicate Safe(rules: Rules) {
    forall conf, s, ls ::
      Init(World(conf, rules), s) && Exec(World(conf, rules), s, ls).Some?
      ==> NoDouble(Exec(World(conf, rules), s, ls).value)
  }

  /** What the protocol needs from its environment. */
  predicate Sound(rules: Rules) {
    && rules.serial && rules.rangeWrites && rules.bounded && rules.portOnce
    && (rules.freshIds || (rules.recordWrites && rules.resultDeletes))
  }
}
