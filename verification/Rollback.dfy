/** Creation of MidoNet resources with compensating deletes (pkg/midonet/midonet.go). Which calls fail
    is an input, and so is which of the failing ones took effect all the same. */
module Rollback {
  import opened Results

  /** The calls of initNetwork that can fail it, in their order. The last four before Usage are those
      of CreateBridgeLinkRouter. */
  datatype Call =
    | InChain | OutChain | RouterItself
    | Addresses                            // GetRouterIP and the checks of its answer
    | RemotePort | LocalPort | PortLink
    | OutRoute | InRoute                   // CreateDefaultRoute
    | RuleOne | RuleTwo | RuleThree        // CreateDefaultRule
    | FirstBridge
    | Pool                                 // CreateIPsForTenantBridge
    | RouterSide | BridgeSide | SideLink | SideRoute
    | Usage                                // the write of bridge/usage

  function Rank(c: Call): (r: nat)
    ensures r < 19
  {
    match c
    case InChain => 0
    case OutChain => 1
    case RouterItself => 2
    case Addresses => 3
    case RemotePort => 4
    case LocalPort => 5
    case PortLink => 6
    case OutRoute => 7
    case InRoute => 8
    case RuleOne => 9
    case RuleTwo => 10
    case RuleThree => 11
    case FirstBridge => 12
    case Pool => 13
    case RouterSide => 14
    case BridgeSide => 15
    case SideLink => 16
    case SideRoute => 17
    case Usage => 18
  }

  /** A resource in MidoNet: one that was there before, or the one a call of this run makes. UUIDs do
      not repeat, so these are all different. */
  datatype Resource = Prior(id: nat) | New(call: Call)

  /** Calls that make no MidoNet resource. */
  predicate Makes(c: Call) { !c.Addresses? && !c.Pool? && !c.Usage? }

  function News(cs: set<Call>): set<Resource> { set c | c in cs && Makes(c) :: New(c) }

  function Device(): set<Call> { {InChain, OutChain, RouterItself} }
  function Links(): set<Call> { {RemotePort, LocalPort, PortLink} }
  function Routes(): set<Call> { {OutRoute, InRoute} }
  function Rules(): set<Call> { {RuleOne, RuleTwo, RuleThree} }
  function Sides(): set<Call> { {RouterSide, BridgeSide, SideLink, SideRoute} }

  /** The outcome of the calls from rank `lo` up to `hi`: nothing failed, or the first that did. */
  ghost predicate Outcome(lo: nat, hi: nat, fails: set<Call>, failed: Option<Call>) {
    match failed
    case None => forall c :: c in fails ==> !(lo <= Rank(c) < hi)
    case Some(f) =>
      f in fails && lo <= Rank(f) < hi && forall c :: c in fails && lo <= Rank(c) ==> Rank(f) <= Rank(c)
  }

  function Base(): set<Call> { Device() + Links() }
  function Bridge(): set<Call> { {FirstBridge, Pool} + Sides() + {Usage} }
  function Rest(): set<Call> { Rules() + Bridge() }
  function Every(): set<Call> { Base() + Routes() + Rest() }

  /** What is left of the first bridge when `f` is the first call that fails. */
  function KeptOfBridge(f: Call): set<Call> {
    if f in Sides() then {FirstBridge} else if f.Usage? then {FirstBridge} + Sides() else {}
  }

  /** What is left of everything after the default routes. */
  function KeptOfRest(f: Call): set<Call> { if f in Bridge() then Rules() + KeptOfBridge(f) else {} }

  /** What initNetwork does not undo when `f` is the first call that fails: the chains and the router
      if no addresses could be had, and the routes, the rules and the bridge if something later fails. */
  function Kept(f: Call): set<Call> {
    if f.Addresses? then Device() else if f in Rest() then Routes() + KeptOfRest(f) else {}
  }

  /** The resource of a call that failed but took effect. */
  function Stray(f: Call, applied: set<Call>): set<Call> { if f in applied then {f} else {} }

  lemma NewsOf(a: set<Call>, b: set<Call>)
    ensures News(a + b) == News(a) + News(b)
    ensures a !! b ==> News(a) !! News(b)
    ensures a <= b ==> News(a) <= News(b)
  {
  }

  /** One group of calls after the other. */
  lemma OutcomeOfTwo(lo: nat, mid: nat, hi: nat, fails: set<Call>, failed: Option<Call>)
    requires lo <= mid <= hi
    requires Outcome(lo, mid, fails, failed) || (Outcome(lo, mid, fails, None) && Outcome(mid, hi, fails, failed))
    requires failed.None? ==> Outcome(mid, hi, fails, None) && Outcome(lo, mid, fails, None)
    ensures Outcome(lo, hi, fails, failed)
  {
    hide Rank;
  }

  /** The groups, by rank. */
  lemma ByRank(f: Call)
    ensures f in Device() <==> Rank(f) < 3
    ensures f in Links() <==> 4 <= Rank(f) < 7
    ensures f in Routes() <==> 7 <= Rank(f) < 9
    ensures f in Rules() <==> 9 <= Rank(f) < 12
    ensures f in Sides() <==> 14 <= Rank(f) < 18
    ensures f in Bridge() <==> 12 <= Rank(f)
    ensures f.Addresses? <==> Rank(f) == 3
    ensures f.FirstBridge? <==> Rank(f) == 12
    ensures f.Pool? <==> Rank(f) == 13
    ensures f.Usage? <==> Rank(f) == 18
  {
  }

  lemma GroupsApart()
    ensures Device() !! Links() && Base() !! Routes() + Rest() && Routes() !! Rest() && Rules() !! Bridge()
    ensures forall c :: c in Rules() + {FirstBridge} + Sides() ==> c !in Base()
  {
  }

  lemma One(c: Call, fails: set<Call>)
    ensures Outcome(Rank(c), Rank(c) + 1, fails, if c in fails then Some(c) else None)
  {
    forall d ensures Rank(c) <= Rank(d) < Rank(c) + 1 ==> d == c { ByRankOne(c, d); }
    hide Rank;
  }

  lemma ByRankOne(c: Call, d: Call)
    ensures Rank(c) == Rank(d) ==> c == d
  {
  }

  /** Undoing the base after some other calls `xs` leaves what these made. */
  lemma AfterUndo(before: set<Resource>, xs: set<Call>, base: set<Call>,
                  mid: set<Resource>, end: set<Resource>, sure: bool)
    requires xs !! base && before <= mid && (sure ==> mid == before + News(xs))
    requires mid - News(base) <= end && (sure ==> end == mid - News(base))
    ensures before - News(base) <= end && (sure ==> end == (before - News(base)) + News(xs))
  {
    NewsOf(xs, base);
    hide News;
  }

  lemma Together(before: set<Resource>, xs: set<Call>, ys: set<Call>)
    ensures before + News(xs) + News(ys) == before + News(xs + ys)
  {
  }

  lemma NewsOfGroups()
    ensures News(Device()) == {New(InChain), New(OutChain), New(RouterItself)}
    ensures News(Links()) == {New(RemotePort), New(LocalPort), New(PortLink)}
    ensures News(Routes()) == {New(OutRoute), New(InRoute)}
    ensures News(Rules()) == {New(RuleOne), New(RuleTwo), New(RuleThree)}
    ensures News(Sides()) == {New(RouterSide), New(BridgeSide), New(SideLink), New(SideRoute)}
  {
    NewsOfThrees();
    NewsOfSides();
    hide News, Device, Links, Rules, Sides;
    NewsOfTwo();
  }

  lemma NewsOfThrees()
    ensures News(Device()) == {New(InChain), New(OutChain), New(RouterItself)}
    ensures News(Links()) == {New(RemotePort), New(LocalPort), New(PortLink)}
    ensures News(Rules()) == {New(RuleOne), New(RuleTwo), New(RuleThree)}
  {
  }

  lemma NewsOfTwo()
    ensures News(Routes()) == {New(OutRoute), New(InRoute)}
  {
  }

  lemma NewsOfSides()
    ensures News(Sides()) == {New(RouterSide), New(BridgeSide), New(SideLink), New(SideRoute)}
  {
  }

  // The outcome of each group of calls in a row.

  lemma OfDevice(fails: set<Call>)
    ensures InChain in fails ==> Outcome(0, 3, fails, Some(InChain))
    ensures InChain !in fails && OutChain in fails ==> Outcome(0, 3, fails, Some(OutChain))
    ensures fails !! {InChain, OutChain} && RouterItself in fails ==> Outcome(0, 3, fails, Some(RouterItself))
    ensures InChain !in fails && OutChain !in fails && RouterItself !in fails ==> Outcome(0, 3, fails, None)
  {
  }

  lemma OfLinks(fails: set<Call>)
    ensures RemotePort in fails ==> Outcome(4, 7, fails, Some(RemotePort))
    ensures RemotePort !in fails && LocalPort in fails ==> Outcome(4, 7, fails, Some(LocalPort))
    ensures RemotePort !in fails && LocalPort !in fails && PortLink in fails ==> Outcome(4, 7, fails, Some(PortLink))
    ensures RemotePort !in fails && LocalPort !in fails && PortLink !in fails ==> Outcome(4, 7, fails, None)
  {
  }

  lemma OfRules(fails: set<Call>)
    ensures RuleOne in fails ==> Outcome(9, 12, fails, Some(RuleOne))
    ensures RuleOne !in fails && RuleTwo in fails ==> Outcome(9, 12, fails, Some(RuleTwo))
    ensures RuleOne !in fails && RuleTwo !in fails && RuleThree in fails ==> Outcome(9, 12, fails, Some(RuleThree))
    ensures RuleOne !in fails && RuleTwo !in fails && RuleThree !in fails ==> Outcome(9, 12, fails, None)
  {
  }

  lemma OfSides(fails: set<Call>)
    ensures RouterSide in fails ==> Outcome(14, 18, fails, Some(RouterSide))
    ensures RouterSide !in fails && BridgeSide in fails ==> Outcome(14, 18, fails, Some(BridgeSide))
    ensures RouterSide !in fails && BridgeSide !in fails && SideLink in fails ==> Outcome(14, 18, fails, Some(SideLink))
    ensures fails !! Sides() - {SideRoute} && SideRoute in fails ==> Outcome(14, 18, fails, Some(SideRoute))
    ensures fails !! Sides() ==> Outcome(14, 18, fails, None)
  {
  }

  class Midonet {
    var res: set<Resource>
    const fails: set<Call>   // the calls that report an error
    const applied: set<Call> // those of them that took effect
    const sure: bool         // compensating deletes succeed

    constructor (res: set<Resource>, fails: set<Call>, applied: set<Call>, sure: bool)
      requires forall r :: r in res ==> r.Prior?
      ensures this.res == res && this.fails == fails && this.applied == applied && this.sure == sure
      ensures Fresh(Every())
    {
      this.res, this.fails, this.applied, this.sure := res, fails, applied, sure;
    }

    /** None of these calls has left anything yet. */
    ghost predicate Fresh(group: set<Call>)
      reads this
    {
      forall c :: c in group ==> New(c) !in res
    }

    /** A create; one that fails may have taken effect, and then leaves a stray resource. */
    method Create(c: Call) returns (ok: bool)
      requires Makes(c)
      modifies this`res
      ensures ok <==> c !in fails
      ensures ok ==> res == old(res) + {New(c)}
      ensures !ok ==> res == old(res) + News(Stray(c, applied)) && News(Stray(c, applied)) <= {New(c)}
    {
      NewsOfStray(c, applied);
      hide Stray, News;
      ok := c !in fails;
      if ok || c in applied { res := res + {New(c)}; }
    }

    /** A compensating delete; its error is only logged. */
    method Delete(c: Call)
      modifies this`res
      ensures res == old(res) || res == old(res) - {New(c)}
      ensures sure ==> res == old(res) - {New(c)}
    {
      var lost: bool := *;
      if sure || !lost { res := res - {New(c)}; }
    }

    /** What a failed group of calls leaves: with successful deletes nothing but a stray resource of
        the failing call, and never less than there was. */
    ghost predicate RolledBack(before: set<Resource>, failed: Option<Call>)
      reads this
    {
      failed.Some? ==> before <= res && (sure ==> res == before + News(Stray(failed.value, applied)))
    }

    /** CreateBridgeLinkRouter. */
    method CreateBridgeLinkRouter() returns (failed: Option<Call>)
      requires Fresh(Sides())
      modifies this`res
      ensures Outcome(14, 18, fails, failed) && RolledBack(old(res), failed)
      ensures failed.None? ==> res == old(res) + News(Sides())
    {
      OfSides(fails);
      NewsOfGroups();
      hide Outcome, Rank, News, Stray;
      var ok := Create(RouterSide);
      if !ok { return Some(RouterSide); }
      ok := Create(BridgeSide);
      if !ok {
        Delete(RouterSide);
        return Some(BridgeSide);
      }
      failed := LinkSides();
    }

    /** Its second half. */
    method LinkSides() returns (failed: Option<Call>)
      requires New(SideLink) !in res && New(SideRoute) !in res && New(RouterSide) in res && New(BridgeSide) in res
      modifies this`res
      ensures failed ==
              if SideLink in fails then Some(SideLink) else if SideRoute in fails then Some(SideRoute) else None
      ensures failed.None? ==> res == old(res) + {New(SideLink), New(SideRoute)}
      ensures failed.Some? ==> old(res) - {New(RouterSide), New(BridgeSide)} <= res
      ensures failed.Some? && sure ==>
                res == (old(res) - {New(RouterSide), New(BridgeSide)}) + News(Stray(failed.value, applied))
    {
      hide News, Stray;
      var ok := Create(SideLink);
      if !ok {
        Delete(RouterSide);
        Delete(BridgeSide);
        return Some(SideLink);
      }
      ok := Create(SideRoute);
      if !ok {
        Delete(SideLink);
        Delete(RouterSide);
        Delete(BridgeSide);
        return Some(SideRoute);
      }
      return None;
    }

    /** CreateDefaultRoute. */
    method CreateDefaultRoute() returns (failed: Option<Call>)
      requires Fresh(Routes())
      modifies this`res
      ensures Outcome(7, 9, fails, failed) && RolledBack(old(res), failed)
      ensures failed.None? ==> res == old(res) + News(Routes())
    {
      var ok := Create(OutRoute);
      if !ok { return Some(OutRoute); }
      ok := Create(InRoute);
      if !ok {
        Delete(OutRoute);
        return Some(InRoute);
      }
      return None;
    }

    /** CreateDefaultRule. */
    method CreateDefaultRule() returns (failed: Option<Call>)
      requires Fresh(Rules())
      modifies this`res
      ensures Outcome(9, 12, fails, failed) && RolledBack(old(res), failed)
      ensures failed.None? ==> res == old(res) + News(Rules())
    {
      OfRules(fails);
      NewsOfGroups();
      hide Outcome, Rank, News, Stray;
      var ok := Create(RuleOne);
      if !ok { return Some(RuleOne); }
      ok := Create(RuleTwo);
      if !ok {
        Delete(RuleOne);
        return Some(RuleTwo);
      }
      ok := Create(RuleThree);
      if !ok {
        Delete(RuleOne);
        Delete(RuleTwo);
        return Some(RuleThree);
      }
      return None;
    }

    method DeleteDevice()
      modifies this`res
      ensures old(res) - News(Device()) <= res <= old(res)
      ensures sure ==> res == old(res) - News(Device())
    {
      Delete(InChain);
      Delete(OutChain);
      Delete(RouterItself);
    }

    /** The deletes that follow every failure after the port link was made. */
    method UndoBase()
      modifies this`res
      ensures old(res) - News(Base()) <= res <= old(res)
      ensures sure ==> res == old(res) - News(Base())
    {
      Delete(PortLink);
      Delete(RemotePort);
      Delete(LocalPort);
      DeleteDevice();
    }

    /** The chains and the router. */
    method CreateDevice() returns (failed: Option<Call>)
      requires Fresh(Device())
      modifies this`res
      ensures Outcome(0, 3, fails, failed) && RolledBack(old(res), failed)
      ensures failed.None? ==> res == old(res) + News(Device())
    {
      OfDevice(fails);
      NewsOfGroups();
      hide Outcome, Rank, News, Stray;
      var ok := Create(InChain);
      if !ok { return Some(InChain); }
      ok := Create(OutChain);
      if !ok {
        Delete(InChain);
        return Some(OutChain);
      }
      ok := Create(RouterItself);
      if !ok {
        Delete(InChain);
        Delete(OutChain);
        return Some(RouterItself);
      }
      return None;
    }

    /** The two router ports and their link, undone together with the chains and the router. */
    method CreateLink() returns (failed: Option<Call>)
      requires Fresh(Links())
      modifies this`res
      ensures Outcome(4, 7, fails, failed)
      ensures failed.None? ==> res == old(res) + News(Links())
      ensures failed.Some? ==> old(res) - News(Device()) <= res
      ensures failed.Some? && sure ==> res == (old(res) - News(Device())) + News(Stray(failed.value, applied))
    {
      OfLinks(fails);
      NewsOfGroups();
      hide Outcome, Rank, News, Stray;
      var ok := Create(RemotePort);
      if !ok {
        DeleteDevice();
        return Some(RemotePort);
      }
      ok := Create(LocalPort);
      if !ok {
        DeleteDevice();
        Delete(RemotePort);
        return Some(LocalPort);
      }
      ok := Create(PortLink);
      if !ok {
        Delete(RemotePort);
        Delete(LocalPort);
        DeleteDevice();
        return Some(PortLink);
      }
      return None;
    }

    /** From the first bridge on. */
    method CreateFirstBridge() returns (failed: Option<Call>)
      requires Fresh(Bridge())
      modifies this`res
      ensures Outcome(12, 19, fails, failed)
      ensures failed.None? ==> res == old(res) + News(Bridge())
      ensures failed.Some? ==> old(res) - News(Base()) <= res
      ensures failed.Some? && sure ==>
                res == (old(res) - News(Base())) + News(KeptOfBridge(failed.value) + Stray(failed.value, applied))
    {
      ghost var before := res;
      One(FirstBridge, fails);
      var ok := Create(FirstBridge);
      if !ok {
        ghost var mid := res;
        NewsOfStray(FirstBridge, applied);
        hide Outcome, Rank, News, Stray;
        OutcomeOfTwo(12, 13, 19, fails, Some(FirstBridge));
        UndoBase();
        AfterUndo(before, Stray(FirstBridge, applied), Base(), mid, res, sure);
        return Some(FirstBridge);
      }
      failed := FillAndLink(before);
      hide Rank, News, Stray;
      OutcomeOfTwo(12, 13, 19, fails, failed);
    }

    /** The pool, the link to the router and bridge/usage. */
    method FillAndLink(ghost before: set<Resource>) returns (failed: Option<Call>)
      requires Fresh(Sides()) && New(FirstBridge) !in before && res == before + {New(FirstBridge)}
      modifies this`res
      ensures Outcome(13, 19, fails, failed)
      ensures failed.None? ==> res == before + News(Bridge())
      ensures failed.Some? ==> before - News(Base()) <= res
      ensures failed.Some? && sure ==>
                res == (before - News(Base())) + News(KeptOfBridge(failed.value) + Stray(failed.value, applied))
    {
      One(Pool, fails);
      if Pool in fails {
        NewsOfStray(Pool, applied);
        hide Outcome, Rank, News, Stray;
        OutcomeOfTwo(13, 14, 19, fails, Some(Pool));
        Delete(FirstBridge);
        UndoBase();
        return Some(Pool);
      }
      failed := LinkBridge(before);
      hide Rank, News, Stray;
      OutcomeOfTwo(13, 14, 19, fails, failed);
    }

    method LinkBridge(ghost before: set<Resource>) returns (failed: Option<Call>)
      requires Fresh(Sides()) && res == before + {New(FirstBridge)}
      modifies this`res
      ensures Outcome(14, 19, fails, failed)
      ensures failed.None? ==> res == before + News(Bridge())
      ensures failed.Some? ==> before - News(Base()) <= res
      ensures failed.Some? && sure ==>
                res == (before - News(Base())) + News(KeptOfBridge(failed.value) + Stray(failed.value, applied))
    {
      NewsOfBridge();
      One(Usage, fails);
      hide News, Outcome, Rank, Stray, KeptOfBridge;
      failed := CreateBridgeLinkRouter();
      ghost var mid := res;
      if failed.Some? {
        ghost var f := failed.value;
        RankOfSides(f, fails);
        OutcomeOfTwo(14, 18, 19, fails, failed);
        Together(before, {FirstBridge}, Stray(f, applied));
        UndoBase();
        AfterUndo(before, {FirstBridge} + Stray(f, applied), Base(), mid, res, sure);
        return;
      }
      Together(before, {FirstBridge}, Sides());
      failed := StoreUsage(before);
      OutcomeOfTwo(14, 18, 19, fails, failed);
    }

    method StoreUsage(ghost before: set<Resource>) returns (failed: Option<Call>)
      requires res == before + News({FirstBridge} + Sides())
      modifies this`res
      ensures Outcome(18, 19, fails, failed)
      ensures failed.None? ==> res == before + News(Bridge())
      ensures failed.Some? ==> before - News(Base()) <= res
      ensures failed.Some? && sure ==>
                res == (before - News(Base())) + News(KeptOfBridge(failed.value) + Stray(failed.value, applied))
    {
      NewsOfBridge();
      One(Usage, fails);
      UsageKept();
      hide News, Outcome, Rank, Stray, KeptOfBridge;
      if Usage in fails {
        ghost var mid := res;
        UndoBase();
        AfterUndo(before, {FirstBridge} + Sides(), Base(), mid, res, sure);
        return Some(Usage);
      }
      return None;
    }

    lemma UsageKept()
      ensures ({FirstBridge} + Sides()) !! Base() && Rank(Usage) == 18
      ensures News(KeptOfBridge(Usage) + Stray(Usage, applied)) == News({FirstBridge} + Sides())
    {
      NewsOf({FirstBridge} + Sides(), Stray(Usage, applied));
    }

    lemma NewsOfBridge()
      ensures News({FirstBridge}) == {New(FirstBridge)} && News({FirstBridge} + Sides()) == News(Bridge())
    {
    }

    lemma NewsOfStray(f: Call, applied: set<Call>)
      ensures News(Stray(f, applied)) == if f in applied && Makes(f) then {New(f)} else {}
      ensures Stray(f, applied) <= {f} && KeptOfBridge(Pool) == {}
      ensures News({} + Stray(f, applied)) == News(Stray(f, applied))
    {
      assert {} + Stray(f, applied) == Stray(f, applied);
    }

    lemma RankOfSides(f: Call, fs: set<Call>)
      requires Outcome(14, 18, fs, Some(f))
      ensures f in Sides() && KeptOfBridge(f) == {FirstBridge} && Stray(f, applied) !! Base()
    {
      ByRank(f);
    }

    /** From the default rules on. */
    method CreateRest() returns (failed: Option<Call>)
      requires Fresh(Rest())
      modifies this`res
      ensures Outcome(9, 19, fails, failed)
      ensures failed.None? ==> res == old(res) + News(Rest())
      ensures failed.Some? ==> old(res) - News(Base()) <= res
      ensures failed.Some? && sure ==>
                res == (old(res) - News(Base())) + News(KeptOfRest(failed.value) + Stray(failed.value, applied))
    {
      ghost var before := res;
      GroupsApart();
      NewsOf(Rules(), Bridge());
      FreshAfter(Rules(), Bridge(), before);
      hide News, Outcome, Rank, Stray, KeptOfBridge, KeptOfRest, Device, Links, Rules, Base, Bridge;
      failed := CreateDefaultRule();
      ghost var mid := res;
      if failed.Some? {
        RankOfRules(failed.value, fails);
        OutcomeOfTwo(9, 12, 19, fails, failed);
        UndoBase();
        AfterUndo(before, Stray(failed.value, applied), Base(), mid, res, sure);
        return;
      }
      failed := CreateFirstBridge();
      OutcomeOfTwo(9, 12, 19, fails, failed);
      if failed.Some? {
        RankOfBridge(failed.value, fails);
        Later(before, Rules(), KeptOfBridge(failed.value) + Stray(failed.value, applied), Base(), mid, res, sure);
      }
    }

    /** What an earlier group left stays when a later one undoes the base. */
    lemma Later(before: set<Resource>, xs: set<Call>, ys: set<Call>, base: set<Call>,
                mid: set<Resource>, end: set<Resource>, sure: bool)
      requires xs !! base && mid == before + News(xs)
      requires mid - News(base) <= end && (sure ==> end == (mid - News(base)) + News(ys))
      ensures before - News(base) <= end && (sure ==> end == (before - News(base)) + News(xs + ys))
    {
      NewsOf(xs, base);
      NewsOf(xs, ys);
      hide News;
    }

    lemma FreshAfter(xs: set<Call>, ys: set<Call>, before: set<Resource>)
      requires xs !! ys && forall c :: c in ys ==> New(c) !in before
      ensures forall c :: c in ys ==> New(c) !in before + News(xs)
    {
    }

    lemma RankOfRules(f: Call, fs: set<Call>)
      requires Outcome(9, 12, fs, Some(f))
      ensures f in Rules() && Stray(f, applied) !! Base() && KeptOfRest(f) + Stray(f, applied) == Stray(f, applied)
    {
      ByRank(f);
    }

    lemma RankOfBridge(f: Call, fs: set<Call>)
      requires Outcome(12, 19, fs, Some(f))
      ensures KeptOfRest(f) + Stray(f, applied) == Rules() + (KeptOfBridge(f) + Stray(f, applied)) && Rules() !! Base()
    {
      ByRank(f);
      hide Rank;
    }

    /** initNetwork up to the port link. */
    method CreateBase() returns (failed: Option<Call>)
      requires Fresh(Base())
      modifies this`res
      ensures Outcome(0, 7, fails, failed)
      ensures failed.None? ==> res == old(res) + News(Base())
      ensures failed.Some? ==> old(res) <= res
      ensures failed.Some? && sure ==> res == old(res) + News(Kept(failed.value) + Stray(failed.value, applied))
    {
      ghost var before := res;
      GroupsApart();
      NewsOf(Device(), Links());
      FreshAfter(Device(), Links(), before);
      One(Addresses, fails);
      AddressesKept();
      hide News, Outcome, Rank, Stray, Kept, Device, Links;
      failed := CreateDevice();
      if failed.Some? {
        OutcomeOfTwo(0, 3, 7, fails, failed);
        RankOfDevice(failed.value, fails);
        return;
      }
      if Addresses in fails {
        OutcomeOfTwo(3, 4, 7, fails, Some(Addresses));
        OutcomeOfTwo(0, 3, 7, fails, Some(Addresses));
        return Some(Addresses);
      }
      ghost var mid := res;
      failed := CreateLink();
      OutcomeOfTwo(3, 4, 7, fails, failed);
      OutcomeOfTwo(0, 3, 7, fails, failed);
      if failed.Some? {
        RankOfLink(failed.value, fails);
        Restored(before, Device(), {}, Stray(failed.value, applied), mid, res, sure);
      }
    }

    lemma AddressesKept()
      ensures News(Kept(Addresses) + Stray(Addresses, applied)) == News(Device()) && Rank(Addresses) == 3
    {
      NewsOf(Device(), Stray(Addresses, applied));
    }

    lemma RankOfDevice(f: Call, fs: set<Call>)
      requires Outcome(0, 3, fs, Some(f))
      ensures Kept(f) + Stray(f, applied) == Stray(f, applied)
    {
      ByRank(f);
    }

    lemma RankOfLink(f: Call, fs: set<Call>)
      requires Outcome(4, 7, fs, Some(f))
      ensures Kept(f) + Stray(f, applied) == {} + Stray(f, applied)
    {
      ByRank(f);
    }

    /** `base` and `xs` were made on top of `before`; `base` is undone, and `ys` is left besides. */
    lemma Restored(before: set<Resource>, base: set<Call>, xs: set<Call>, ys: set<Call>,
                   mid: set<Resource>, end: set<Resource>, sure: bool)
      requires base !! xs && before !! News(base) && mid == before + News(base) + News(xs)
      requires mid - News(base) <= end && (sure ==> end == (mid - News(base)) + News(ys))
      ensures before <= end && (sure ==> end == before + News(xs + ys))
    {
      NewsOf(base, xs);
      NewsOf(xs, ys);
      hide News;
    }

    /** From the default routes on, on top of everything before. */
    method CreateOnBase(ghost before: set<Resource>) returns (failed: Option<Call>)
      requires Fresh(Routes() + Rest()) && res == before + News(Base()) && before !! News(Base())
      modifies this`res
      ensures Outcome(7, 19, fails, failed)
      ensures failed.None? ==> res == before + News(Base()) + News(Routes()) + News(Rest())
      ensures failed.Some? ==> before <= res
      ensures failed.Some? && sure ==> res == before + News(Kept(failed.value) + Stray(failed.value, applied))
    {
      GroupsApart();
      NewsOf(Base(), Routes());
      NewsOfNone();
      FreshAfter(Routes(), Rest(), res);
      hide News, Outcome, Rank, Stray, Kept, KeptOfRest, Routes, Rest, Base;
      failed := CreateDefaultRoute();
      ghost var mid := res;
      if failed.Some? {
        ghost var f := failed.value;
        OutcomeOfTwo(7, 9, 19, fails, failed);
        RankOfRoutes(f, fails);
        UndoBase();
        AfterUndo(before + News(Base()), Stray(f, applied), Base(), mid, res, sure);
        Restored(before, Base(), {}, Stray(f, applied), before + News(Base()), res, sure);
        return;
      }
      failed := CreateRest();
      OutcomeOfTwo(7, 9, 19, fails, failed);
      if failed.Some? {
        ghost var f := failed.value;
        RankOfRest(f, fails);
        Restored(before, Base(), Routes(), KeptOfRest(f) + Stray(f, applied), mid, res, sure);
      }
    }

    lemma NewsOfNone()
      ensures News({}) == {}
    {
    }

    lemma RankOfRoutes(f: Call, fs: set<Call>)
      requires Outcome(7, 9, fs, Some(f))
      ensures Stray(f, applied) !! Base() && Kept(f) + Stray(f, applied) == {} + Stray(f, applied)
    {
      ByRank(f);
    }

    lemma RankOfRest(f: Call, fs: set<Call>)
      requires Outcome(9, 19, fs, Some(f))
      ensures Kept(f) + Stray(f, applied) == Routes() + (KeptOfRest(f) + Stray(f, applied))
    {
      ByRank(f);
      hide Rank;
    }

    /** initNetwork, from any prior resources. Nothing of what was there before is ever lost. With
        compensating deletes that succeed, the first call that fails decides exactly what is left, and
        nothing is left exactly if that call comes before the default rules, is not GetRouterIP, and
        did not take effect after all. */
    method InitNetwork() returns (failed: Option<Call>)
      requires forall r :: r in res ==> r.Prior?
      modifies this`res
      ensures Outcome(0, 19, fails, failed) && (failed.None? <==> fails == {})
      ensures old(res) <= res
      ensures failed.None? ==> res == old(res) + News(Every())
      ensures failed.Some? && sure ==>
                && res == old(res) + News(Kept(failed.value) + Stray(failed.value, applied))
                && (res == old(res) <==> failed.value in Base() + Routes() && failed.value !in applied)
    {
      ghost var before := res;
      NewsOfAll(before);
      hide News, Outcome, Rank, Stray, Kept;
      failed := CreateBase();
      if failed.None? {
        failed := CreateOnBase(before);
      }
      OutcomeOfTwo(0, 7, 19, fails, failed);
      AllRanks(failed);
      if failed.Some? { NothingLeft(before, failed.value); }
    }

    lemma NewsOfAll(before: set<Resource>)
      requires forall r :: r in before ==> r.Prior?
      ensures News(Every()) == News(Base()) + News(Routes()) + News(Rest())
      ensures before !! News(Base())
      ensures forall c :: New(c) !in before
      ensures forall c :: c in Routes() + Rest() ==> New(c) !in before + News(Base())
    {
      GroupsApart();
      NewsOf(Base(), Routes());
      NewsOf(Base() + Routes(), Rest());
      hide Base, Routes, Rest;
    }

    lemma AllRanks(failed: Option<Call>)
      requires Outcome(0, 19, fails, failed)
      ensures failed.None? <==> fails == {}
    {
    }

    lemma NothingLeft(before: set<Resource>, f: Call)
      requires forall r :: r in before ==> r.Prior?
      ensures before + News(Kept(f) + Stray(f, applied)) == before <==> f in Base() + Routes() && f !in applied
    {
      KeptMakes(f);
      NewsEmpty(Kept(f) + Stray(f, applied));
      hide Kept, Stray, Base, Routes;
      var left := News(Kept(f) + Stray(f, applied));
      assert forall r :: r in left ==> r !in before;
      assert before + left == before <==> left == {};
    }

    lemma NewsEmpty(cs: set<Call>)
      ensures News(cs) == {} <==> forall c :: c in cs ==> !Makes(c)
    {
      assert forall c :: c in cs && Makes(c) ==> New(c) in News(cs);
    }

    lemma KeptMakes(f: Call)
      ensures (forall c :: c in Kept(f) + Stray(f, applied) ==> !Makes(c)) <==> f in Base() + Routes() && f !in applied
    {
      KeptCases(f);
      hide Kept, Base, Rest;
      var cs := Kept(f) + Stray(f, applied);
      if f.Addresses? {
        assert InChain in cs && Makes(InChain);
      } else if f in Rest() {
        assert OutRoute in cs && Makes(OutRoute);
      } else {
        assert f in applied ==> f in cs && Makes(f);
      }
    }

    lemma KeptCases(f: Call)
      ensures f.Addresses? ==> InChain in Kept(f) && f !in Base() + Routes()
      ensures f in Rest() ==> OutRoute in Kept(f) && f !in Base() + Routes()
      ensures !f.Addresses? && f !in Rest() ==> Kept(f) == {} && Makes(f) && f in Base() + Routes()
    {
      ByRank(f);
    }
  }
}
