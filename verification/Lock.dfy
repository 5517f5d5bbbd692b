/** The distributed mutex of pkg/etcd/etcd_util.go as a step machine over etcd's event log. */
module Lock {
  import opened Results

  type Proc = nat

  /** The store's log. `Created`, `Deleted` and `Expired` concern the lock key; `Elsewhere` is any
      event that does not change it. An event's index is its position in the log plus one. */
  datatype Event = Created(owner: Proc) | Deleted | Expired | Elsewhere

  predicate Wakes(e: Event) { e.Deleted? || e.Expired? }

  /** The value of the lock key after the events of `log`. */
  function KeyAfter(log: seq<Event>): Option<Proc> {
    if log == [] then None
    else match log[|log| - 1]
         case Created(p) => Some(p)
         case Deleted => None
         case Expired => None
         case Elsewhere => KeyAfter(log[..|log| - 1])
  }

  /** Where a process is in Lock / lock / Unlock. `attempt` counts Lock's tries and Unlock's tries. */
  datatype Pc =
    | Out
    | Creating(attempt: nat)
    | Getting(attempt: nat)
    | Watching(attempt: nat, got: nat, at: nat) // Get answered at index `got`; next event to read is log[at]
    | Inside                                     // Lock returned nil
    | Leaving(attempt: nat)                      // in Unlock

  const TRIES: nat := 3

  /** The four ways in which the intended lock differs from the code or from its environment. The
      code is the case retryOnWake == propagate == ownDelete == false. */
  datatype Rules = Rules(
    retryOnWake: bool, // after delete/expire the waiter goes back to create-if-absent
    propagate: bool,   // Lock reports failure after three failed tries
    ownDelete: bool,   // Unlock deletes the key only while it holds the caller's id
    ttlHolds: bool)    // the TTL does not run out while the owner is inside

  datatype State = State(log: seq<Event>, pcs: map<Proc, Pc>) {
    function At(p: Proc): Pc { if p in pcs then pcs[p] else Out }
    function Key(): Option<Proc> { KeyAfter(log) }
    function Goto(p: Proc, pc: Pc): State { this.(pcs := pcs[p := pc]) }
    function Log(e: Event): State { this.(log := log + [e]) }
  }

  datatype Step =
    | Enter(p: Proc)
    | CreateOk(p: Proc)
    | CreateExists(p: Proc)
    | CreateFails(p: Proc, took: bool)  // an error other than NodeExist; it may have taken effect
    | GetOk(p: Proc)
    | GetFails(p: Proc)
    | Read(p: Proc)                     // watcher.Next returns the next event
    | WatchFails(p: Proc)
    | Leave(p: Proc)
    | DeleteOk(p: Proc)
    | DeleteMissing(p: Proc)
    | DeleteFails(p: Proc, took: bool)
    | Crash(p: Proc)
    | Expire
    | Other

  /** A failed call to lock(): try again, and after the third failure Lock returns its named
      result, which was never assigned. */
  function AfterFailure(rules: Rules, attempt: nat): Pc {
    if attempt < TRIES then Creating(attempt + 1) else if rules.propagate then Out else Inside
  }

  predicate CanDelete(rules: Rules, s: State, p: Proc) {
    s.Key().Some? && (rules.ownDelete ==> s.Key() == Some(p))
  }

  predicate Enabled(rules: Rules, s: State, l: Step) {
    match l
    case Enter(p) => s.At(p).Out?
    case CreateOk(p) => s.At(p).Creating? && s.Key().None?
    case CreateExists(p) => s.At(p).Creating? && s.Key().Some?
    case CreateFails(p, took) => s.At(p).Creating? && (took ==> s.Key().None?)
    case GetOk(p) => s.At(p).Getting? && s.Key().Some?
    case GetFails(p) => s.At(p).Getting?
    case Read(p) => s.At(p).Watching? && s.At(p).at < |s.log|
    case WatchFails(p) => s.At(p).Watching?
    case Leave(p) => s.At(p).Inside?
    case DeleteOk(p) => s.At(p).Leaving? && CanDelete(rules, s, p)
    case DeleteMissing(p) => s.At(p).Leaving? && !CanDelete(rules, s, p)
    case DeleteFails(p, took) => s.At(p).Leaving? && (took ==> CanDelete(rules, s, p))
    case Crash(p) => true
    case Expire => s.Key().Some? && (rules.ttlHolds ==> !s.At(s.Key().value).Inside?)
    case Other => true
  }

  function Apply(rules: Rules, s: State, l: Step): State
    requires Enabled(rules, s, l)
  {
    match l
    case Enter(p) => s.Goto(p, Creating(1))
    case CreateOk(p) => s.Log(Created(p)).Goto(p, Inside)
    case CreateExists(p) => s.Goto(p, Getting(s.At(p).attempt))
    case CreateFails(p, took) =>
      (if took then s.Log(Created(p)) else s).Goto(p, AfterFailure(rules, s.At(p).attempt))
    case GetOk(p) => s.Goto(p, Watching(s.At(p).attempt, |s.log|, |s.log|))
    case GetFails(p) => s.Goto(p, AfterFailure(rules, s.At(p).attempt))
    case Read(p) =>
      var w := s.At(p);
      if !Wakes(s.log[w.at]) then s.Goto(p, w.(at := w.at + 1))
      else if rules.retryOnWake then s.Goto(p, Creating(w.attempt))
      else s.Goto(p, Inside)
    case WatchFails(p) => s.Goto(p, AfterFailure(rules, s.At(p).attempt))
    case Leave(p) => s.Goto(p, Leaving(1))
    case DeleteOk(p) => s.Log(Deleted).Goto(p, Out)
    case DeleteMissing(p) => s.Goto(p, Out)
    case DeleteFails(p, took) =>
      var k := s.At(p).attempt;
      (if took then s.Log(Deleted) else s).Goto(p, if k < TRIES then Leaving(k + 1) else Out)
    case Crash(p) => s.Goto(p, Out)
    case Expire => s.Log(Expired)
    case Other => s.Log(Elsewhere)
  }

  const START := State([], map[])

  /** The state after a run, if every step of it was enabled. */
  function Exec(rules: Rules, ls: seq<Step>): Option<State>
    decreases |ls|
  {
    if ls == [] then Some(START)
    else
      var k := |ls| - 1;
      match Exec(rules, ls[..k])
      case None => None
      case Some(s) => if Enabled(rules, s, ls[k]) then Some(Apply(rules, s, ls[k])) else None
  }

  lemma {:induction false} ExecSnoc(rules: Rules, ls: seq<Step>, l: Step)
    requires Exec(rules, ls).Some?
    ensures Exec(rules, ls + [l]) ==
            if Enabled(rules, Exec(rules, ls).value, l) then Some(Apply(rules, Exec(rules, ls).value, l)) else None
  {
    assert (ls + [l])[..|ls|] == ls;
  }

  lemma {:induction false} KeySnoc(log: seq<Event>, e: Event)
    ensures KeyAfter(log + [e]) == match e
                                   case Created(p) => Some(p)
                                   case Elsewhere => KeyAfter(log)
                                   case _ => None
  {
    assert (log + [e])[..|log|] == log;
  }

  // ---------------------------------------------------------------- mutual exclusion

  ghost predicate Exclusive(s: State) {
    forall p: Proc, q: Proc :: s.At(p).Inside? && s.At(q).Inside? ==> p == q
  }

  /** Everybody inside owns the key: its value is that process's id. */
  ghost predicate Owned(s: State) {
    forall p: Proc :: s.At(p).Inside? ==> s.Key() == Some(p)
  }

  ghost predicate Safe(rules: Rules) {
    forall ls :: Exec(rules, ls).Some? ==> Exclusive(Exec(rules, ls).value)
  }

  predicate Intended(rules: Rules) {
    rules.retryOnWake && rules.propagate && rules.ownDelete && rules.ttlHolds
  }

  lemma StepKeepsOwned(rules: Rules, s: State, l: Step)
    requires Intended(rules) && Owned(s) && Enabled(rules, s, l)
    ensures Owned(Apply(rules, s, l))
  {
    var t := Apply(rules, s, l);
    if |t.log| > |s.log| { KeySnoc(s.log, t.log[|s.log|]); }
  }

  /** The intended lock, over every run: at most one process is inside, and the key holds its id. */
  lemma {:induction false} IntendedRuns(rules: Rules, ls: seq<Step>)
    requires Intended(rules) && Exec(rules, ls).Some?
    ensures Owned(Exec(rules, ls).value) && Exclusive(Exec(rules, ls).value)
    decreases |ls|
  {
    if ls != [] {
      var k := |ls| - 1;
      IntendedRuns(rules, ls[..k]);
      StepKeepsOwned(rules, Exec(rules, ls[..k]).value, ls[k]);
    }
  }

  /** Extends a run by one step that is enabled. */
  lemma {:induction false} Then(rules: Rules, ls: seq<Step>, s: State, l: Step) returns (ls': seq<Step>, s': State)
    requires Exec(rules, ls) == Some(s) && Enabled(rules, s, l)
    ensures ls' == ls + [l] && s' == Apply(rules, s, l) && Exec(rules, ls') == Some(s')
    ensures s'.log == s.log || (|s'.log| == |s.log| + 1 && s'.log[..|s.log|] == s.log)
    ensures s'.log != s.log ==> s'.Key() == match s'.log[|s.log|]
                                            case Created(p) => Some(p)
                                            case Elsewhere => s.Key()
                                            case _ => None
  {
    ExecSnoc(rules, ls, l);
    ls', s' := ls + [l], Apply(rules, s, l);
    if s'.log != s.log { KeySnoc(s.log, s'.log[|s.log|]); }
  }

  /** Process 1 takes the free lock. */
  lemma FirstInside(rules: Rules) returns (ls: seq<Step>, s: State)
    ensures Exec(rules, ls) == Some(s)
    ensures s.Key() == Some(1) && s.pcs == map[1 := Inside] && |s.log| == 1
  {
    ls, s := [], START;
    ls, s := Then(rules, ls, s, Enter(1));
    ls, s := Then(rules, ls, s, CreateOk(1));
  }

  /** `p` finds the key taken and starts to watch. */
  lemma {:induction false} Waits(rules: Rules, ls: seq<Step>, s: State, p: Proc) returns (ls': seq<Step>, s': State)
    requires Exec(rules, ls) == Some(s) && s.At(p).Out? && s.Key().Some?
    ensures Exec(rules, ls') == Some(s') && s' == s.Goto(p, Watching(1, |s.log|, |s.log|))
  {
    ls', s' := Then(rules, ls, s, Enter(p));
    ls', s' := Then(rules, ls', s', CreateExists(p));
    ls', s' := Then(rules, ls', s', GetOk(p));
  }

  /** The code's wake-up: one unlock wakes two waiters, and both return from Lock. */
  lemma WakeBreaks(rules: Rules) returns (ls: seq<Step>)
    requires !rules.retryOnWake
    ensures Exec(rules, ls).Some? && !Exclusive(Exec(rules, ls).value)
  {
    var s;
    ls, s := FirstInside(rules);
    ls, s := Waits(rules, ls, s, 2);
    ls, s := Waits(rules, ls, s, 3);
    ls, s := Then(rules, ls, s, Leave(1));
    ls, s := Then(rules, ls, s, DeleteOk(1));
    ls, s := Then(rules, ls, s, Read(2));
    ls, s := Then(rules, ls, s, Read(3));
    assert s.At(2).Inside? && s.At(3).Inside?;
  }

  /** The code's lost error: three failed tries count as success. */
  lemma SwallowedErrorBreaks(rules: Rules) returns (ls: seq<Step>)
    requires !rules.propagate
    ensures Exec(rules, ls).Some? && !Exclusive(Exec(rules, ls).value)
  {
    var s;
    ls, s := FirstInside(rules);
    ls, s := Then(rules, ls, s, Enter(2));
    ls, s := Then(rules, ls, s, CreateFails(2, false));
    ls, s := Then(rules, ls, s, CreateFails(2, false));
    ls, s := Then(rules, ls, s, CreateFails(2, false));
    assert s.At(1).Inside? && s.At(2).Inside?;
  }

  /** The code's unlock: a delete that took effect but reported an error is repeated, and the
      repetition deletes the next owner's key. */
  lemma BlindDeleteBreaks(rules: Rules) returns (ls: seq<Step>)
    requires !rules.ownDelete
    ensures Exec(rules, ls).Some? && !Exclusive(Exec(rules, ls).value)
  {
    var s;
    ls, s := BlindDelete(rules);
    hide Exec, KeyAfter;
    ls, s := Then(rules, ls, s, Enter(3));
    ls, s := Then(rules, ls, s, CreateOk(3));
    assert s.At(2).Inside? && s.At(3).Inside?;
  }

  /** Process 2 is inside, and its key is gone. */
  lemma BlindDelete(rules: Rules) returns (ls: seq<Step>, s: State)
    requires !rules.ownDelete
    ensures Exec(rules, ls) == Some(s) && s.At(2).Inside? && s.At(3).Out? && s.Key().None?
  {
    ls, s := FirstInside(rules);
    hide Exec, KeyAfter;
    ls, s := Then(rules, ls, s, Leave(1));
    ls, s := Then(rules, ls, s, DeleteFails(1, true));
    ls, s := Then(rules, ls, s, Enter(2));
    ls, s := Then(rules, ls, s, CreateOk(2));
    ls, s := Then(rules, ls, s, DeleteOk(1));
  }

  lemma ExpiryBreaks(rules: Rules) returns (ls: seq<Step>)
    requires !rules.ttlHolds
    ensures Exec(rules, ls).Some? && !Exclusive(Exec(rules, ls).value)
  {
    var s;
    ls, s := FirstInside(rules);
    ls, s := Then(rules, ls, s, Expire);
    ls, s := Then(rules, ls, s, Enter(2));
    ls, s := Then(rules, ls, s, CreateOk(2));
    assert s.At(1).Inside? && s.At(2).Inside?;
  }

  /** Mutual exclusion holds over all runs exactly for the intended lock. The code as written
      misses three of the four conditions, whatever the TTL. */
  lemma MutualExclusion(rules: Rules)
    ensures Safe(rules) <==> Intended(rules)
  {
    if Intended(rules) {
      forall ls | Exec(rules, ls).Some? ensures Exclusive(Exec(rules, ls).value) {
        IntendedRuns(rules, ls);
      }
    } else {
      var ls;
      if !rules.retryOnWake { ls := WakeBreaks(rules); }
      else if !rules.propagate { ls := SwallowedErrorBreaks(rules); }
      else if !rules.ownDelete { ls := BlindDeleteBreaks(rules); }
      else { ls := ExpiryBreaks(rules); }
      assert !Exclusive(Exec(rules, ls).value);
    }
  }

  /** Whatever the rules: while the key does not hold the id of someone inside, a newcomer gets
      inside too after at most three steps. So Owned is not only sufficient for exclusion to last,
      it is necessary; every entry that is not a create gives it up. */
  lemma {:induction false} UnownedIsFragile(rules: Rules, ls: seq<Step>, s: State, p: Proc, q: Proc)
    returns (ls': seq<Step>, s': State)
    requires Exec(rules, ls) == Some(s) && s.At(p).Inside? && s.Key() != Some(p)
    requires s.At(q).Out? && q != p
    ensures Exec(rules, ls') == Some(s') && ls <= ls' && |ls'| <= |ls| + 3
    ensures !Exclusive(s')
  {
    hide Exec, KeyAfter, Wakes;
    ls', s' := ls, s;
    if s.Key().Some? {
      var r := s.Key().value;
      if s.At(r).Inside? { assert s.At(r).Inside? && s.At(p).Inside?; return; }
      ls', s' := Then(rules, ls', s', Expire);
    }
    ls', s' := Then(rules, ls', s', Enter(q));
    ls', s' := Then(rules, ls', s', CreateOk(q));
    assert s'.At(p).Inside? && s'.At(q).Inside?;
  }

  // ---------------------------------------------------------------- no lost wake-up

  /** What a watcher has read since its Get: nothing that wakes. At the Get the key was there. */
  ghost predicate Attentive(s: State) { forall p: Proc :: s.At(p).Watching? ==> AttentiveAt(s, p) }

  ghost predicate AttentiveAt(s: State, p: Proc)
    requires s.At(p).Watching?
  {
    var w := s.At(p);
    && w.got <= w.at <= |s.log|
    && KeyAfter(s.log[..w.got]).Some?
    && forall i :: w.got <= i < w.at ==> !Wakes(s.log[i])
  }

  lemma StepKeepsAttentive(rules: Rules, s: State, l: Step)
    requires Attentive(s) && Enabled(rules, s, l)
    ensures Attentive(Apply(rules, s, l))
  {
    var t := Apply(rules, s, l);
    assert s.log <= t.log;
    forall p: Proc | t.At(p).Watching? ensures AttentiveAt(t, p) {
      assert s.At(p).Watching? ==> AttentiveAt(s, p);
      WatchStep(rules, s, l, p);
      hide Apply, Enabled, AttentiveAt, KeyAfter;
      if t.At(p) == Watching(t.At(p).attempt, |s.log|, |s.log|) && t.log == s.log && s.Key().Some? {
        AttentiveNew(t, p);
      } else {
        AttentiveLonger(s, t, p);
      }
    }
  }

  /** A process that watches after a step has just begun to, has read on, or has not moved. */
  lemma WatchStep(rules: Rules, s: State, l: Step, p: Proc)
    requires Enabled(rules, s, l) && Apply(rules, s, l).At(p).Watching?
    ensures var t := Apply(rules, s, l);
            || (t.At(p) == Watching(t.At(p).attempt, |s.log|, |s.log|) && t.log == s.log && s.Key().Some?)
            || (s.At(p).Watching? && t.At(p).got == s.At(p).got
                && (t.At(p).at == s.At(p).at
                    || (t.At(p).at == s.At(p).at + 1 <= |s.log| && !Wakes(s.log[s.At(p).at]))))
  {
    hide KeyAfter;
  }

  lemma AttentiveNew(s: State, p: Proc)
    requires s.At(p).Watching? && s.At(p).got == s.At(p).at == |s.log| && s.Key().Some?
    ensures AttentiveAt(s, p)
  {
    assert s.log[..|s.log|] == s.log;
  }

  lemma AttentiveLonger(s: State, t: State, p: Proc)
    requires s.At(p).Watching? && t.At(p).Watching? && AttentiveAt(s, p) && s.log <= t.log
    requires t.At(p).got == s.At(p).got
    requires t.At(p).at == s.At(p).at || (t.At(p).at == s.At(p).at + 1 <= |s.log| && !Wakes(s.log[s.At(p).at]))
    ensures AttentiveAt(t, p)
  {
    hide KeyAfter, Wakes;
    assert t.log[..t.At(p).got] == s.log[..t.At(p).got];
  }

  lemma {:induction false} RunsAttentive(rules: Rules, ls: seq<Step>)
    requires Exec(rules, ls).Some?
    ensures Attentive(Exec(rules, ls).value)
    decreases |ls|
  {
    if ls != [] {
      var k := |ls| - 1;
      RunsAttentive(rules, ls[..k]);
      StepKeepsAttentive(rules, Exec(rules, ls[..k]).value, ls[k]);
    }
  }

  /** If nothing after index `from` wakes, the key keeps its value unless it was absent. */
  lemma {:induction false} KeyStays(log: seq<Event>, from: nat)
    requires from <= |log| && KeyAfter(log[..from]).Some?
    requires forall i :: from <= i < |log| ==> !Wakes(log[i])
    ensures KeyAfter(log).Some?
    decreases |log|
  {
    if from == |log| {
      assert log[..from] == log;
    } else {
      var prefix := log[..|log| - 1];
      assert prefix[..from] == log[..from];
      KeyStays(prefix, from);
    }
  }

  /** The position of the first delete/expire at or after `from`. */
  function FirstWake(log: seq<Event>, from: nat): (r: Option<nat>)
    requires from <= |log|
    ensures r.Some? ==> from <= r.value < |log| && Wakes(log[r.value])
    ensures forall i :: from <= i < (if r.Some? then r.value else |log|) ==> !Wakes(log[i])
    decreases |log| - from
  {
    if from == |log| then None
    else if Wakes(log[from]) then Some(from)
    else FirstWake(log, from + 1)
  }

  /** Reads by p alone, up to and including position `stop`. */
  lemma {:induction false} ReadUpTo(rules: Rules, ls: seq<Step>, s: State, p: Proc, stop: nat)
    returns (ls': seq<Step>, s': State)
    requires Exec(rules, ls) == Some(s) && s.At(p).Watching?
    requires s.At(p).at <= stop < |s.log| && Wakes(s.log[stop])
    requires forall i :: s.At(p).at <= i < stop ==> !Wakes(s.log[i])
    ensures |ls'| == |ls| + stop - s.At(p).at + 1
    ensures ls <= ls' && forall i :: |ls| <= i < |ls'| ==> ls'[i] == Read(p)
    ensures Exec(rules, ls') == Some(s') && s'.log == s.log
    ensures s'.At(p) == (if rules.retryOnWake then Creating(s.At(p).attempt) else Inside)
    decreases stop - s.At(p).at
  {
    ls', s' := Then(rules, ls, s, Read(p));
    if s.At(p).at < stop {
      ls', s' := ReadUpTo(rules, ls', s', p, stop);
    }
  }

  /** No lost wake-up, whatever events intervene and for the code as for the intended lock: once
      the key seen by a waiter's Get has disappeared, even if it was created again since, the waiter's
      own reads are all enabled and end at the first delete/expire after the Get. */
  lemma {:induction false} NoLostWakeup(rules: Rules, ls: seq<Step>, s: State, p: Proc, gone: nat)
    returns (wake: nat, ls': seq<Step>, s': State)
    requires Exec(rules, ls) == Some(s) && s.At(p).Watching?
    requires s.At(p).got <= gone <= |s.log| && KeyAfter(s.log[..gone]).None?
    ensures wake < gone && FirstWake(s.log, s.At(p).got) == Some(wake)
    ensures s.At(p).at <= wake && |ls'| == |ls| + wake - s.At(p).at + 1
    ensures ls <= ls' && (forall i :: |ls| <= i < |ls'| ==> ls'[i] == Read(p))
    ensures Exec(rules, ls') == Some(s')
    ensures s'.At(p) == (if rules.retryOnWake then Creating(s.At(p).attempt) else Inside)
  {
    RunsAttentive(rules, ls);
    var w := s.At(p);
    var first := FirstWake(s.log, w.got);
    if first.None? || first.value >= gone {
      assert s.log[..gone][..w.got] == s.log[..w.got];
      KeyStays(s.log[..gone], w.got);
      assert false;
    }
    wake := first.value;
    ls', s' := ReadUpTo(rules, ls, s, p, wake);
  }

  /** The watch reports success only on such an event: a Read takes the waiter out of the watch
      exactly when it reads the first delete/expire after the Get. */
  lemma {:induction false} WakeOnlyOnEvent(rules: Rules, ls: seq<Step>, s: State, p: Proc)
    requires Exec(rules, ls) == Some(s) && Enabled(rules, s, Read(p))
    ensures !Apply(rules, s, Read(p)).At(p).Watching? <==>
            s.At(p).got <= |s.log| && FirstWake(s.log, s.At(p).got) == Some(s.At(p).at)
  {
    RunsAttentive(rules, ls);
    assert AttentiveAt(s, p);
    hide Exec, KeyAfter;
  }

  // ---------------------------------------------------------------- keys that outlive their owner's hold

  /** A create that took effect although it reported an error makes the process wait for its own key:
      its next try finds the key with its own id, and watches it. */
  lemma {:induction false} OwnKeyShutsOut(rules: Rules, ls: seq<Step>, s: State, p: Proc) returns (t: State)
    requires Exec(rules, ls) == Some(s) && s.At(p).Creating? && s.At(p).attempt < TRIES && s.Key().None?
    ensures Exec(rules, ls + [CreateFails(p, true), CreateExists(p), GetOk(p)]) == Some(t)
    ensures t.Key() == Some(p) && t.At(p) == Watching(s.At(p).attempt + 1, |t.log|, |t.log|)
  {
    hide Exec, KeyAfter;
    var ls1, u := Then(rules, ls, s, CreateFails(p, true));
    ls1, u := Then(rules, ls1, u, CreateExists(p));
    ls1, t := Then(rules, ls1, u, GetOk(p));
    assert ls1 == ls + [CreateFails(p, true), CreateExists(p), GetOk(p)];
  }

  /** A process that crashes inside leaves its key, which keeps everybody out until it expires;
      then the next one gets in and owns it. */
  lemma {:induction false} CrashedOwnerIsReplaced(rules: Rules, ls: seq<Step>, s: State, p: Proc, q: Proc)
    returns (u: State, t: State)
    requires Exec(rules, ls) == Some(s) && s.At(p).Inside? && s.Key() == Some(p) && s.At(q).Out? && q != p
    ensures Exec(rules, ls + [Crash(p), Enter(q)]) == Some(u) && u.Key() == Some(p) && u.At(p).Out?
    ensures !Enabled(rules, u, CreateOk(q))
    ensures Exec(rules, ls + [Crash(p), Enter(q), Expire, CreateOk(q)]) == Some(t)
    ensures t.At(q).Inside? && t.Key() == Some(q) && !t.At(p).Inside?
  {
    hide Exec, KeyAfter;
    var ls1;
    ls1, u := Then(rules, ls, s, Crash(p));
    ls1, u := Then(rules, ls1, u, Enter(q));
    assert ls1 == ls + [Crash(p), Enter(q)];
    ls1, t := Then(rules, ls1, u, Expire);
    ls1, t := Then(rules, ls1, t, CreateOk(q));
    assert ls1 == ls + [Crash(p), Enter(q), Expire, CreateOk(q)];
  }

  /** The process that moves the key in this step, if any does, and what it does with it. */
  function Moves(l: Step): Option<Option<Proc>> {
    match l
    case CreateOk(p) => Some(Some(p))
    case CreateFails(p, true) => Some(Some(p))
    case DeleteOk(_) => Some(None)
    case DeleteFails(_, true) => Some(None)
    case Expire => Some(None)
    case _ => None
  }

  /** The key moves exactly in these steps, and an index of the log is used up exactly by them and by
      events elsewhere. */
  lemma KeyMoves(rules: Rules, s: State, l: Step)
    requires Enabled(rules, s, l)
    ensures var t := Apply(rules, s, l);
            && t.Key() == (if Moves(l).Some? then Moves(l).value else s.Key())
            && s.log <= t.log && |t.log| == |s.log| + if Moves(l).Some? || l.Other? then 1 else 0
  {
    var t := Apply(rules, s, l);
    if t.log != s.log { KeySnoc(s.log, t.log[|s.log|]); }
  }

  // ---------------------------------------------------------------- the code, step by step

  function Actor(l: Step): Option<Proc> {
    match l
    case Expire => None
    case Other => None
    case _ => Some(l.p)
  }

  ghost predicate ByOthers(p: Proc, ls: seq<Step>, from: nat) {
    forall i :: from <= i < |ls| ==> Actor(ls[i]) != Some(p)
  }

  /** Whatever others do, a process stays where it is in its own code. */
  lemma {:induction false} OthersKeep(rules: Rules, ls: seq<Step>, ls': seq<Step>, p: Proc)
    requires Exec(rules, ls).Some? && Exec(rules, ls').Some? && ls <= ls' && ByOthers(p, ls', |ls|)
    ensures Exec(rules, ls').value.At(p) == Exec(rules, ls).value.At(p)
    ensures Exec(rules, ls).value.log <= Exec(rules, ls').value.log
    decreases |ls'|
  {
    if |ls'| == |ls| {
      assert ls' == ls;
    } else {
      OthersKeep(rules, ls, ls'[..|ls'| - 1], p);
    }
  }

  /** The step is the one an operation that succeeds makes in `s`: an error only from a key that is not
      there any more, or from a watch that is given up. */
  predicate StepFaultless(s: State, l: Step) {
    match l
    case CreateFails(_, _) => false
    case GetFails(_) => s.Key().None?
    case DeleteFails(_, _) => false
    case Crash(_) => false
    case _ => true
  }

  /** Every step of `p` in the run is faultless in the state in which it is taken. */
  ghost predicate Faultless(rules: Rules, ls: seq<Step>, p: Proc) {
    forall i :: 0 <= i < |ls| && Actor(ls[i]) == Some(p) ==> FaultlessAt(rules, ls, i)
  }

  ghost predicate FaultlessAt(rules: Rules, ls: seq<Step>, i: nat)
    requires i < |ls|
  {
    Exec(rules, ls[..i]).Some? && StepFaultless(Exec(rules, ls[..i]).value, ls[i])
  }

  lemma {:induction false} FaultlessSnoc(rules: Rules, ls: seq<Step>, l: Step, p: Proc)
    requires Exec(rules, ls).Some?
    ensures Faultless(rules, ls, p) && StepFaultless(Exec(rules, ls).value, l) ==> Faultless(rules, ls + [l], p)
  {
    hide Exec, StepFaultless;
    if Faultless(rules, ls, p) && StepFaultless(Exec(rules, ls).value, l) {
      forall i | 0 <= i < |ls| + 1 && Actor((ls + [l])[i]) == Some(p) ensures FaultlessAt(rules, ls + [l], i) {
        assert (ls + [l])[..i] == ls[..i];
        assert i < |ls| ==> FaultlessAt(rules, ls, i);
      }
    }
  }

  lemma {:induction false} FaultlessBesides(rules: Rules, ls: seq<Step>, ls': seq<Step>, p: Proc)
    requires ls <= ls' && ByOthers(p, ls', |ls|)
    ensures Faultless(rules, ls, p) ==> Faultless(rules, ls', p)
  {
    hide Exec, StepFaultless;
    if Faultless(rules, ls, p) {
      forall i | 0 <= i < |ls'| && Actor(ls'[i]) == Some(p) ensures FaultlessAt(rules, ls', i) {
        assert ls'[..i] == ls[..i] && FaultlessAt(rules, ls, i);
      }
    }
  }

  /** A Mutex of process `id` together with the store it shares with all other processes. Between
      any two of its own store operations others take any number of steps. */
  class Mutex {
    const rules: Rules
    const id: Proc
    const works: bool // its own operations do not fail
    const alone: bool // nobody else takes a step
    var s: State
    ghost var trace: seq<Step>

    constructor (rules: Rules, id: Proc, works: bool, alone: bool)
      ensures Valid() && this.rules == rules && this.id == id && this.works == works && this.alone == alone
      ensures s == START && trace == []
    {
      this.rules, this.id, this.works, this.alone, s, trace := rules, id, works, alone, START, [];
    }

    ghost predicate Valid() reads this { Exec(rules, trace) == Some(s) }

    /** The process has run on from `trace0`. If its operations do not fail, each step it took is the
        one the code takes then, for as long as that was so before. */
    ghost predicate Ran(trace0: seq<Step>) reads this {
      && Valid() && trace0 <= trace
      && (works && Faultless(rules, trace0, id) ==> Faultless(rules, trace, id))
    }

    method Others()
      requires Valid()
      modifies this`s, this`trace
      ensures Valid() && old(trace) <= trace && ByOthers(id, trace, |old(trace)|)
      ensures alone ==> s == old(s) && trace == old(trace)
    {
    }

    /** One own store operation. */
    method Do(l: Step)
      requires Valid() && Enabled(rules, s, l) && (works ==> StepFaultless(s, l))
      modifies this`s, this`trace
      ensures Ran(old(trace)) && trace == old(trace) + [l] && s == Apply(rules, old(s), l)
    {
      hide Exec, Enabled, Apply, StepFaultless, Faultless;
      ExecSnoc(rules, trace, l);
      FaultlessSnoc(rules, trace, l, id);
      s, trace := Apply(rules, s, l), trace + [l];
    }

    method Yield()
      requires Valid()
      modifies this`s, this`trace
      ensures Ran(old(trace)) && s.At(id) == old(s.At(id)) && old(s.log) <= s.log
      ensures alone ==> s == old(s) && trace == old(trace)
    {
      hide Exec, Faultless;
      ghost var before := trace;
      Others();
      OthersKeep(rules, before, trace, id);
      FaultlessBesides(rules, before, trace, id);
    }

    /** The last step is the one that let the process in: its own create, or, if the rules allow
        that, the reading of an event. */
    ghost predicate WonBy(since: nat) reads this {
      |trace| > since && trace[|trace| - 1] in (if rules.retryOnWake then {CreateOk(id)} else {CreateOk(id), Read(id)})
    }

    /** lock(): `patience` bounds the rounds of the watch. */
    method TryLock(attempt: nat, patience: nat) returns (ok: bool)
      requires Valid() && s.At(id) == Creating(attempt)
      modifies this`s, this`trace
      ensures Ran(old(trace))
      ensures s.At(id) == if ok then Inside else AfterFailure(rules, attempt)
      ensures ok ==> WonBy(|old(trace)|)
      ensures works && alone && old(s.Key()).None? ==>
                ok && trace == old(trace) + [CreateOk(id)] && s.Key() == Some(id)
      ensures works && !ok ==> Waited(|old(trace)|)
      decreases patience, 1
    {
      hide Exec, Faultless, KeyAfter;
      Yield();
      var fails: bool := *;
      if fails && !works {
        var took: bool := *;
        Do(CreateFails(id, took && s.Key().None?));
        return false;
      }
      if s.Key().None? {
        KeySnoc(s.log, Created(id));
        Do(CreateOk(id));
        return true;
      }
      Do(CreateExists(id));
      ok := GetAndWatch(attempt, patience);
    }

    /** With a store that answers, a try fails only if the key vanished before the Get, or the watch was
        given up. */
    ghost predicate Waited(since: nat) reads this {
      |trace| > since && trace[|trace| - 1] in {GetFails(id), WatchFails(id)}
    }

    /** The key exists: its value is read, and the key watched. */
    method GetAndWatch(attempt: nat, patience: nat) returns (ok: bool)
      requires Valid() && s.At(id) == Getting(attempt)
      modifies this`s, this`trace
      ensures Ran(old(trace))
      ensures s.At(id) == if ok then Inside else AfterFailure(rules, attempt)
      ensures ok ==> WonBy(|old(trace)|)
      ensures works && !ok ==> Waited(|old(trace)|)
      decreases patience, 0, 1
    {
      hide Exec, Faultless, KeyAfter;
      Yield();
      var lost: bool := *;
      if (lost && !works) || s.Key().None? {
        Do(GetFails(id));
        return false;
      }
      Do(GetOk(id));
      ok := Watch(attempt, patience);
    }

    /** The loop over watcher.Next. If nobody interferes, it does not miss a wake-up that is already in
        the log and that its rounds reach. */
    method Watch(attempt: nat, patience: nat) returns (ok: bool)
      requires Valid() && s.At(id).Watching? && s.At(id).attempt == attempt
      modifies this`s, this`trace
      ensures Ran(old(trace))
      ensures s.At(id) == if ok then Inside else AfterFailure(rules, attempt)
      ensures ok ==> WonBy(|old(trace)|)
      ensures works && !ok ==> Waited(|old(trace)|)
      ensures works && alone && WakeWithin(old(s), patience) && (rules.retryOnWake ==> old(s.Key()).None?) ==> ok
      decreases patience, 0, 0
    {
      hide Exec, Faultless, KeyAfter;
      var left: nat := patience;
      while left > 0
        invariant Ran(old(trace)) && left <= patience
        invariant s.At(id).Watching? && s.At(id).attempt == attempt
        invariant alone && WakeWithin(old(s), patience) ==> WakeWithin(s, left) && s.log == old(s.log)
      {
        left := left - 1;
        Yield();
        if s.At(id).at < |s.log| {
          Do(Read(id));
          if s.At(id).Inside? { return true; }
          if s.At(id).Creating? {
            ok := TryLock(attempt, left);
            return;
          }
        }
      }
      Do(WatchFails(id));
      return false;
    }

    /** A delete or expiry is among the next `n` events to read. */
    predicate WakeWithin(u: State, n: nat) {
      u.At(id).Watching? && exists i :: u.At(id).at <= i < u.At(id).at + n && i < |u.log| && Wakes(u.log[i])
    }

    /** Lock reports an error only if the rules let it: the code never does. With a store that answers
        and nobody else about, a free lock is taken at once. */
    method Lock(patience: nat) returns (ok: bool)
      requires Valid() && s.At(id).Out?
      modifies this`s, this`trace
      ensures Ran(old(trace))
      ensures s.At(id) == if ok then Inside else Out
      ensures !rules.propagate ==> ok
      ensures ok && rules.propagate ==> WonBy(|old(trace)|)
      ensures works && alone && old(s.Key()).None? ==>
                ok && trace == old(trace) + [Enter(id), CreateOk(id)] && s.Key() == Some(id)
      ensures works && !WonBy(|old(trace)|) ==> Waited(|old(trace)|)
    {
      hide Exec, Faultless, KeyAfter;
      Do(Enter(id));
      var attempt := 1;
      ok := false;
      while attempt <= TRIES && !ok
        invariant 1 <= attempt <= TRIES + 1 && Ran(old(trace)) && |trace| > |old(trace)|
        invariant ok ==> s.At(id).Inside? && WonBy(|old(trace)|)
        invariant !ok ==> s.At(id) == if attempt <= TRIES then Creating(attempt)
                                      else if rules.propagate then Out else Inside
        invariant attempt == 1 ==> trace == old(trace) + [Enter(id)] && s.log == old(s.log)
        invariant works && !ok && attempt > 1 ==> Waited(|old(trace)|)
        invariant works && alone && old(s.Key()).None? && attempt > 1 ==>
                    ok && trace == old(trace) + [Enter(id), CreateOk(id)] && s.Key() == Some(id)
        decreases TRIES + 1 - attempt
      {
        ok := TryLock(attempt, patience);
        attempt := attempt + 1;
      }
      ok := ok || !rules.propagate;
    }

    /** With a store that answers, the first delete settles it: the key is gone if it was the caller's. */
    method Unlock() returns (ok: bool)
      requires Valid() && s.At(id).Inside?
      modifies this`s, this`trace
      ensures Ran(old(trace)) && s.At(id).Out? && LeftBy(|old(trace)|, ok)
      ensures works ==> ok
      ensures works && alone ==>
                |trace| == |old(trace)| + 2 && (old(s.Key()) == Some(id) || !rules.ownDelete ==> s.Key().None?)
      ensures works && alone && rules.ownDelete && old(s.Key()) != Some(id) ==> s.Key() == old(s.Key())
    {
      hide Exec, Faultless, KeyAfter;
      Do(Leave(id));
      var i := 1;
      ok := false;
      while i <= TRIES && !ok
        invariant 1 <= i <= TRIES + 1 && Ran(old(trace))
        invariant s.At(id) == if i <= TRIES && !ok then Leaving(i) else Out
        invariant i == 1 ==> !ok && s.log == old(s.log) && |trace| == |old(trace)| + 1
        invariant i > 1 ==> LeftBy(|old(trace)|, ok) && (works ==> ok)
        invariant works && alone && i > 1 ==> |trace| == |old(trace)| + 2 && Freed(old(s), s)
        decreases TRIES + 1 - i
      {
        ok := TryUnlock(i);
        i := i + 1;
      }
    }

    /** The key is gone, unless it is somebody else's and the rules spare it. */
    predicate Freed(u: State, t: State) {
      t.Key() == if CanDelete(rules, u, id) then None else u.Key()
    }

    /** The last step is the delete that Unlock reports. */
    ghost predicate LeftBy(since: nat, ok: bool) reads this {
      |trace| > since && trace[|trace| - 1] in (if ok then {DeleteOk(id), DeleteMissing(id)}
                                                else {DeleteFails(id, true), DeleteFails(id, false)})
    }

    /** One delete. */
    method TryUnlock(i: nat) returns (ok: bool)
      requires Valid() && s.At(id) == Leaving(i)
      modifies this`s, this`trace
      ensures Ran(old(trace)) && LeftBy(|old(trace)|, ok)
      ensures s.At(id) == if ok || i >= TRIES then Out else Leaving(i + 1)
      ensures works ==> ok
      ensures works && alone ==> |trace| == |old(trace)| + 1 && Freed(old(s), s)
    {
      hide Exec, Faultless, KeyAfter;
      Yield();
      var fails: bool := *;
      if fails && !works {
        var took: bool := *;
        Do(DeleteFails(id, took && CanDelete(rules, s, id)));
        return false;
      }
      KeySnoc(s.log, Deleted);
      if CanDelete(rules, s, id) { Do(DeleteOk(id)); } else { Do(DeleteMissing(id)); }
      return true;
    }
  }

  /** Under the intended rules a caller for whom Lock returned success is alone and owns the key,
      whatever everybody else has done meanwhile. */
  method LockedAlone(m: Mutex, patience: nat) returns (ok: bool)
    requires m.Valid() && m.s.At(m.id).Out? && Intended(m.rules)
    modifies m`s, m`trace
    ensures m.Ran(old(m.trace))
    ensures !ok ==> !m.s.At(m.id).Inside?
    ensures m.works && m.alone && old(m.s.Key()).None? ==> ok
    ensures ok ==> m.s.Key() == Some(m.id) && forall q: Proc :: m.s.At(q).Inside? <==> q == m.id
  {
    ok := m.Lock(patience);
    if ok { m.Yield(); }
    IntendedRuns(m.rules, m.trace);
  }
}
