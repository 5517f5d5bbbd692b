# The midonet-cni address allocator, verified

midonet-cni is a container network plug-in. Many short-lived processes, one per ADD or DEL command,
share one etcd store and one MidoNet controller and hand out pod addresses from it. There is no
server: everything the plug-in promises about addresses has to hold over every interleaving of the
single etcd operations of those processes. This project models those operations and proves what the
interleavings keep.

## How the project is built

| file | what it models |
|---|---|
| `Addr.dfy`, `Dotted.dfy` | IPv4 numbers, CIDR blocks, GetNextCIDR, membership, gateways; dotted text and the ".254" test |
| `Ranges.dfy` | the mutable Range iterator, List, RangeLength, the size thresholds of the configuration |
| `Lock.dfy` | the distributed mutex: a step machine over etcd's event log, and the class Mutex that takes those steps |
| `Tenant.dfy` | one tenant's pod addresses as a protocol: the atomic steps of CmdAddK8s, CmdDelK8s, GetNewIP, ReleaseIP, CreateNewBridge, Bingding |
| `TenantInv.dfy` | the invariant of that protocol, preserved by every step if the environment keeps its guarantees |
| `TenantFree.dfy` | what the protocol keeps whatever the environment does, or with one or two of the guarantees |
| `TenantRuns.dfy`, `TenantRounds.dfy` | runs that assign an address twice, one for each guarantee of the environment that is dropped; refill after refill, up to any range and round the address space |
| `TenantTheorems.dfy`, `TenantLife.dfy`, `TenantProgress.dfy`, `Gateways.dfy` | the theorems about all runs |
| `Plugin.dfy` | the same functions in imperative form, with other processes running between any two operations; every method is proved to take only steps of the protocol |
| `Fill.dfy` | the pool-filling loop over the iterator, the exact set and number of addresses it offers, and where the protocol starts |
| `TenantReturns.dfy`, `RouterReturns.dfy` | when an address goes back to the range that iprange names, and when it comes too late |
| `Routers.dfy`, `RouterRuns.dfy`, `RouterNets.dfy` | the allocator of router address pairs: its calls as they are written, its runs, step by step, by any number of processes, and when a pair is in one network |
| `TenantInit.dfy` | double-checked tenant creation |
| `Rollback.dfy` | creation of MidoNet resources with compensating deletes |

`dafny verify dfyconfig.toml` checks everything.

A step of a protocol is one operation on the store or the controller. An operation that reports an
error may or may not have taken effect; both are steps (`took`). A crash or an error return is the
step `Abort` (or `Crash`, `Stop`), possible at any time. What the environment must guarantee is a
record of flags called `Rules`; a flag that is off lets the named failure happen. The main theorems are
equivalences: the property holds over all runs if and only if the flags are on. The flags for the
pod protocol are

* `serial`: at most one process is inside the bridge lock (the code's lock does not ensure this, see below);
* `rangeWrites`: a write of `iprange` after which the refill goes on has taken effect;
* `bounded`: no range beyond 255.255.255.255 is opened;
* `portOnce`: deleting one MidoNet port succeeds at most once;
* `freshIds`: no ADD for a container after a DEL for it was begun. Where ids do come back,
  `recordWrites` (the container's record is reliably written) and `resultDeletes` (its stored result
  is reliably deleted) are both needed instead;
* `faithful`: reading an existing result or binding does not fail. Only idempotence of ADD needs it.

`Sound` is what the first six need together; below, "under the guarantees" means `Sound`, and "under any
rules" that nothing is assumed: then the statement holds of the code as it is, with its own lock.

In the imperative classes `works` (`reliable` in `Fill.dfy`) says that the process's own operations do
not fail, and `alone` that nobody else takes a step; what they achieve then is stated separately. Under
`works`, whatever others do, every method of `Plugin.Process` and `Lock.Mutex` also promises (in `Ran`)
that each single step it took is the one the code takes when nothing fails in the state of that moment
(`Faultless`), so a command that gives up, skips an operation or takes a wrong turn is excluded. How
many attempts at Bingding may fail is counted apart (`flaky`), and so is how often a process looks again
at a lock that others are in (`patience`).

The state also carries history that the code does not have: which container was given which address,
by a claim or by an ADD that returned its stored result, which addresses of the newest range are still
to be filled, and which are lost to everybody.

## Where the code differs from what it says

* `Lock` names its result `err` and never assigns it, so three failures count as success; after a
  delete or expire event the waiter returns without creating the key; `Unlock` deletes without
  looking at the owner, and a delete that took effect but reported an error is repeated and can hit
  the next owner's key (`pkg/etcd/etcd_util.go:112-187`). `Lock.MutualExclusion` says that mutual
  exclusion holds exactly when these three are repaired and the TTL does not run out inside. The pod
  and router protocols therefore take exclusion as the assumption `serial`.
* A create of the lock key that took effect but reported an error makes the process wait for its own
  key (`Lock.OwnKeyShutsOut`).
* `GetNewIP` calls itself idempotent, but it stores a CIDR string and reads it back as JSON
  (`pkg/ipam/etcd_ipam.go:205-212,261`), so that branch never returns. The model always falls
  through. Idempotence of ADD comes from the stored result (`pkg/k8s/k8s.go:44-52`).
* A DEL whose deletion of the stored result fails only logs it (`pkg/k8s/k8s.go:145-148`) and goes on
  to release the address. If the container id comes back, its ADD returns an address that may be
  somebody else's by then: `TenantRuns.StaleResultBreaks`.
* `Bingding` calls itself idempotent, but an attempt that fails after it has made its port leaves that
  port (`pkg/midonet/midonet.go:735-763`), and if no binding was stored nobody ever deletes it
  (`TenantLife.FailedBinding`).
* An etcd error other than "node exists" on the write of `iprange` is dropped and the refill goes on
  (`pkg/ipam/etcd_ipam.go:161-170`), so the next refill computes the same range again:
  `TenantRuns.LostRangeBreaks`, `RouterRuns.LostRangeBreaks`.
* `ReleaseIP` and `ReleaseRouterIP` read `iprange` before they take the lock. An address may therefore
  return to the pool after its range has been left, whatever the environment guarantees
  (`TenantReturns.LateReturn`, `RouterReturns.LateReturn`). It is in the current range if no write of
  `iprange` took effect between that reading and the insertion and, where the lock excludes and the
  space does not wrap, only then (`TenantReturns.ReturnsInTime`, `RouterReturns.ReturnsInTime`); since
  such writes happen only inside the lock, holding one that excludes over both would do. What holds as
  long as no iprange write is lost is "in some range opened so far" (`TenantFree.AlwaysOpened`).
* The gateway is always base + 254, so it lies in the subnet only for masks up to 24
  (`Addr.GatewayOfRange`). Beyond, the tenant hands out the gateway of one of its own ranges as a pod
  address, unless it starts in the last 256 addresses of the space and never leaves them
  (`Gateways.GatewaysExactly`).
* Below three nodes GetRouterIP means to give the subnet up for the next one
  (`pkg/ipam/etcd_ipam.go:131-143`), but an address left in the pool stays there. A later answer may be
  one old and one new address, in two networks (`RouterNets.PairSpansNetworks`).
  `RouterNets.OneNetworkExactly` says when an answer is sure to be in one.
* `initNetwork` undoes failures up to the default routes, except that a failure of GetRouterIP leaves
  the two chains and the router; later failures leave routes, rules and possibly the bridge.
  `Rollback.Midonet.InitNetwork` states exactly what is left for every call that can fail first.

## Model

| member | source | states |
|---|---|---|
| Addr.IP2LongOfLong2IP | pkg/util/ip_util.go:6-13 | converting a 64-bit number to an address and back keeps exactly its low 32 bits |
| Addr.Long2IPOfIP2Long | pkg/util/ip_util.go:6-13 | converting an address to a number and back is the identity |
| Addr.NextCIDR | pkg/util/cidr_util.go:38-57 | GetNextCIDR succeeds exactly on aligned blocks; its answer is aligned again, keeps the mask, and is the next block or, after the last one, 0.0.0.0 |
| Addr.IterateIsNth | pkg/util/cidr_util.go:38-57 | repeating GetNextCIDR n times gives base + n * 2^(32-m) until the space ends, and is accepted at every step |
| Addr.IteratesDisjoint | pkg/util/cidr_util.go:38-57 | two different iterates before the end of the space share no address |
| Addr.SameNetIsMembership | pkg/ipam/etcd_ipam.go:280-290 | comparing network and mask texts is true exactly when the old address lies in the range and carries its mask |
| Addr.GatewayOfRange | pkg/midonet/midonet.go:644-650 | the gateway GetNewIP computes from any address of a block is the one installed for the block; it lies in the block exactly for masks up to 24, and is then the block's base with last octet 254 and never allocatable |
| Addr.GatewayAbove24 | pkg/ipam/etcd_ipam.go:256 | above /24 the gateway of a block may be handed out exactly if the block is not the first of its 256 addresses; unless it wraps, it is the last but one address of a later block |
| Gateways.GatewaysExactly | pkg/ipam/etcd_ipam.go:189-193 | under any rules: over all runs no gateway of an opened range is in the pool or held by a container, if and only if the mask is at most 24, or the tenant starts in the last 256 addresses and the space does not wrap |
| Dotted.TextInjective | pkg/util/cidr_util.go:118-120 | different addresses have different dotted texts, so an etcd key names one address |
| Dotted.TextReads | pkg/util/cidr_util.go:118-120 | split at the dots and read as decimal numbers, an address's text gives its four octets back, in order |
| Dotted.Suffix254OfNumber | pkg/ipam/etcd_ipam.go:190 | the ".254" suffix test on any key is true exactly when the low octet is 254 |
| Ranges.Range.Advance | pkg/util/cidr_util.go:111-116 | from position i of a block a step leads to position i + 1, and reports more exactly while i + 1 is in the block, also at 255.255.255.255 |
| Ranges.NewRangeWithBlockSize | pkg/util/cidr_util.go:68-99 | accepts exactly aligned blocks with mask <= block size <= 32, and starts at the base |
| Ranges.List | pkg/util/cidr_util.go:12-26 | terminates on every aligned block, 0.0.0.0/0 included, with base, base + 1, ..., base + 2^(32-m) - 1 in order |
| Ranges.RangeLength | pkg/util/cidr_util.go:29-35 | 2^(32-m) for an aligned block, 0 for anything else |
| Ranges.Default | pkg/types/config.go:100-117 | a usable setting is kept and any other becomes the fallback, so that the pod range has a mask up to 30 and the router range up to 29 |
| Lock.MutualExclusion | pkg/etcd/etcd_util.go:112-187 | over all runs at most one process is inside, if and only if wake-up goes back to create, failures propagate, unlock deletes only its own key, and the TTL holds |
| Lock.IntendedRuns | pkg/etcd/etcd_util.go:112-187 | in every run of the intended lock the key's value is the id of whoever is inside |
| Lock.WakeBreaks | pkg/etcd/etcd_util.go:159-161 | a run in which one unlock lets two waiters in |
| Lock.SwallowedErrorBreaks | pkg/etcd/etcd_util.go:112-125 | a run in which three failed tries count as success |
| Lock.BlindDeleteBreaks | pkg/etcd/etcd_util.go:172-187 | a run in which a repeated delete removes the next owner's key |
| Lock.UnownedIsFragile | pkg/etcd/etcd_util.go:127-164 | whatever the rules, if somebody inside does not own the key, three steps bring a second one inside: key ownership is necessary |
| Lock.NoLostWakeup | pkg/etcd/etcd_util.go:145-162 | once the key a waiter saw has disappeared, the waiter's own reads are all enabled and end at the first delete or expire after its Get, whatever else is in the log |
| Lock.WakeOnlyOnEvent | pkg/etcd/etcd_util.go:154-162 | a read ends the watch exactly when it reads the first delete or expire after the Get |
| Lock.KeyMoves | pkg/etcd/etcd_util.go:127-187 | the key changes exactly in creates and deletes that took effect, reported or not, and on expiry; the log grows exactly by those and by events elsewhere |
| Lock.OwnKeyShutsOut | pkg/etcd/etcd_util.go:127-153 | from every reachable state, after a create that took effect but reported an error the process's next try finds and watches the key with its own id |
| Lock.CrashedOwnerIsReplaced | pkg/etcd/etcd_util.go:127-187 | from every reachable state, the key of an owner that crashed inside keeps a newcomer from creating it until it expires, and then the newcomer owns it |
| Lock.Mutex.TryLock | pkg/etcd/etcd_util.go:127-164 | lock() against any interference: success means inside by its own create or, in the code's form, by reading an event; with a store that answers, failure means that the key vanished before the Get or the watch was given up; alone as well, a free key is created at once |
| Lock.Mutex.Watch | pkg/etcd/etcd_util.go:149-162 | the watch ends inside, or goes back to create, by an event that it read; a delete or expiry already in the log and within its rounds is not missed |
| Lock.Mutex.Lock | pkg/etcd/etcd_util.go:112-125 | three tries; in the code's form it never reports an error; alone with a store that answers, a free lock is taken by the first create and the key then holds the caller's id |
| Lock.Mutex.Unlock | pkg/etcd/etcd_util.go:172-187 | up to three deletes; success means the last one was done or found nothing; with a store that answers the first succeeds, and alone the caller's key is gone then |
| Lock.LockedAlone | pkg/etcd/etcd_util.go:112-125 | under the intended rules a caller whose Lock succeeded is the only one inside and the key holds its id, after any interference; alone with a store that answers Lock succeeds on a free key |
| TenantTheorems.NoDoubleAssignment | pkg/ipam/etcd_ipam.go:201-311 | over all configured ranges and all runs no address is given to two containers, stored results that are returned again included, if and only if serial, rangeWrites, bounded, portOnce, and either freshIds or both recordWrites and resultDeletes |
| TenantRuns.UnserialBreaks | pkg/midonet/midonet.go:788-830 | two refills at once fill the same range, and an address is held twice |
| TenantRuns.LostRangeBreaks | pkg/ipam/etcd_ipam.go:161-170 | a lost write of iprange makes the next refill reuse the range |
| TenantRounds.WrapBreaks | pkg/util/cidr_util.go:55-56 | whatever the configured range, enough refills come round the space and hand out an address a second time |
| TenantRuns.TwoPortDeletesBreak | pkg/k8s/k8s.go:168-193 | if one port can be deleted twice, a repeated DEL releases an address somebody else holds by then |
| TenantRuns.StaleRecordBreaks | pkg/ipam/etcd_ipam.go:261-264 | a container id that comes back with an unwritten record releases its predecessor's address |
| TenantRuns.StaleResultBreaks | pkg/k8s/k8s.go:145-148 | a container id that comes back with an undeleted result is given an address that somebody else holds |
| Fill.FillFirst | pkg/midonet/midonet.go:526-558 | the fill of a directory that is fresh, or that earlier attempts left, leaves a state in which the protocol starts, whatever pool writes were lost; with reliable writes iprange names the range, and the pool is exactly base + 2 .. base + 2^(32-m) - 2 without low octet 254; a failed one leaves a directory for the next |
| TenantInv.InitInv | pkg/midonet/midonet.go:526-558 | such a state satisfies the invariant |
| TenantInv.StepKeepsInv | pkg/ipam/etcd_ipam.go:160-311 | under the guarantees every step of every process keeps the invariant: lock, ranges, refill, partition, pool values, ownership |
| TenantFree.AlwaysFree | pkg/ipam/etcd_ipam.go:160-311 | in every run under any rules: every range is an aligned block with the tenant's mask, and every address in the pool, a listing, a record, a result, a hold or on its way is one such a block may offer, stored under its own name |
| TenantFree.AlwaysOpened | pkg/ipam/etcd_ipam.go:160-197 | if iprange writes are not lost, and under no other assumption, every such address lies in a range opened so far |
| TenantFree.AlwaysTracks | pkg/k8s/k8s.go:151-208 | in every run under any rules: the port a DEL is deleting is the one in the container's binding, and the address it is releasing is the one on its record |
| TenantTheorems.RefillsNeverReuse | pkg/midonet/midonet.go:799-830 | with serial and bounded, and under no other assumption: in every reachable state the n-th refill has written base + n * 2^(32-m), and no two of the ranges share an address |
| TenantTheorems.RangesNeverOverlap | pkg/midonet/midonet.go:799-830 | over all configured ranges and all runs no two ranges written to iprange share an address, if and only if serial and bounded |
| TenantTheorems.RefillOpensNewGround | pkg/midonet/midonet.go:812-830 | with serial, rangeWrites and bounded: the range a refill is about to write contains no address that is in the pool, held, pending, lost, on record, stored as a result or carried by a command, even after crashed refills |
| TenantTheorems.Conservation | pkg/ipam/etcd_ipam.go:160-311 | under the guarantees: in every reachable state the allocatable addresses of all opened ranges are partitioned into pending, pool, held and lost |
| TenantTheorems.StepMoves | pkg/ipam/etcd_ipam.go:160-311 | under the guarantees: every step leaves an address in its part or moves it in the one way its operation stands for: opened by a write of iprange, filled, claimed, put back, or lost; what is lost stays lost |
| TenantTheorems.PoolIsClean | pkg/ipam/etcd_ipam.go:189-193 | in every run under any rules: a pool address is one a range with the tenant's mask may offer, its value names its own key with that mask, and up to /24 it is no gateway of an opened range; if iprange writes are not lost, an opened range has it |
| TenantTheorems.ClaimsBySets | pkg/ipam/etcd_ipam.go:214-246 | with no assumption at all, successful claims of an address never outnumber its writes |
| TenantTheorems.ClaimsAreSeparated | pkg/ipam/etcd_ipam.go:214-246 | with no assumption at all, between two successful claims of an address there is a write of it |
| TenantLife.OtherStep | pkg/k8s/k8s.go:27-214 | a step of one container changes nothing of another's position, record, binding, result or holds |
| TenantLife.RepeatedAdd | pkg/k8s/k8s.go:44-52 | if an existing result can be read, and under no other assumption: after a stored result and before a DEL, in every interleaving each further step of an ADD leaves the store as it is, and each answer is that result |
| TenantLife.AddIsIdempotent | pkg/k8s/k8s.go:44-52 | that holds from every reachable state and over every continuation, if and only if an existing result can always be read |
| TenantLife.UnreadResultReallocates | pkg/k8s/k8s.go:44-52 | if it may not, three steps of a second ADD after the stored result claim a second address |
| TenantLife.ResultIsOwn | pkg/k8s/k8s.go:114-121 | under the guarantees: the address in a stored result is held by that container and by nobody else until its DEL |
| TenantLife.DelUndoesAdd | pkg/k8s/k8s.go:27-214 | from any state reachable under any rules, for a container that has nothing yet and an address of the current range: the steps of an ADD and of a DEL without failure, spelled out, can be taken one after the other; in between the result is stored and held, and afterwards pool, records, bindings, results, ports and holds are as before |
| TenantLife.ReleasedIffInRange | pkg/ipam/etcd_ipam.go:271-310 | in every state reachable under any rules ReleaseIP goes on to the insertion exactly when the address, which is the recorded one, lies in the range iprange names |
| TenantReturns.LateReturn | pkg/ipam/etcd_ipam.go:274-308 | whatever the environment guarantees, a run in which a DEL puts an address back that is not in the range iprange names by then |
| TenantReturns.ReturnsInTime | pkg/ipam/etcd_ipam.go:274-308 | in every run the address a DEL puts back is in the range iprange names then if no write of iprange took effect between the command's reading of it and its insertion, under any rules; and only if, with serial and bounded |
| TenantReturns.MovesInside | pkg/midonet/midonet.go:775-827 | with serial: in every run iprange is written only by the one process inside the bridge lock |
| TenantLife.PortBeforeRelease | pkg/k8s/k8s.go:151-208 | in every run under any rules an address goes back to the pool only by a DEL that has it on record and has deleted, in the same command, the port its binding named; with portOnce that port existed until then |
| TenantLife.ReleasedByHolder | pkg/k8s/k8s.go:186-193 | under the guarantees that container is also the one holder of the address |
| TenantLife.OneReleasePerPort | pkg/k8s/k8s.go:168-193 | with portOnce, and under no other assumption: two releases by one container, over repeated and crashed DELs, follow deletions of two different ports |
| TenantLife.FailedDeleteIsFinal | pkg/k8s/k8s.go:168-193 | with portOnce: a port deletion that took effect but reported an error is never followed by a successful one of the same port, so no DEL ever releases an address on its account |
| TenantLife.FailedBinding | pkg/midonet/midonet.go:715-765 | under any rules: a Bingding that fails after making its port leaves the port; a binding stored all the same is found by the next attempt, and without one nobody ever deletes the port, in any continuation |
| TenantProgress.OffersSomething | pkg/ipam/etcd_ipam.go:171-194 | a range offers no address only if it is a /30 whose one candidate ends in .254 |
| TenantProgress.ProgressAfterExhaustion | pkg/k8s/k8s.go:73-88 | from every state reachable under any rules with an empty pool, nobody in the lock and room for a range, for every continuation by the steps of one container that do not fail: it never gets stuck, takes at most 2^(32-m) + 9 steps, and ends with a recorded address of the next range exactly if that range offers one |
| Plugin.Process.GetNewIP | pkg/ipam/etcd_ipam.go:201-268 | under interference, a listing that fails included: success means an own successful delete took the very address returned, which under the guarantees is then held here and nowhere else; it gives up only after a delete of every address it listed has failed, each, if nothing of its own fails, because the address was out of the pool by then; it asks for a new bridge only on an empty listing; alone and without failures it succeeds exactly on a pool that is not empty |
| Plugin.Process.TryDelete | pkg/ipam/etcd_ipam.go:228-246 | success means the last step was an own successful delete, the address is out of the pool, is held here and does not end in .254 |
| Plugin.Process.CreateNewBridge | pkg/midonet/midonet.go:769-855 | under interference: waits for the lock as long as it has patience; success means the recheck found addresses or the fill was completed; without own failures it fails only if the lock stayed taken or the space is used up; alone and without failures a pool that is not empty is left as it is, and an empty one becomes exactly the next range |
| Plugin.Process.CmdAdd | pkg/k8s/k8s.go:27-122 | under interference: a readable stored result is returned in a single own step; any address returned is the stored result unless storing it just failed, and under the guarantees is held by this container and no other; without own failures an error means that every listed address was lost, the lock stayed taken, the space or the newly opened range is used up, or Bingding failed twice; alone and without failures, but for one attempt at Bingding, an address is returned whenever one is available |
| Plugin.Process.ReleaseIP | pkg/ipam/etcd_ipam.go:271-311 | under interference: waits for the lock, reports a release exactly if its own insertion took effect, and is never cut short; without own failures it reports none only because the iprange it read does not cover the address or the lock stayed taken; alone and without failures an address in the current range is put back |
| Plugin.Process.CmdDel | pkg/k8s/k8s.go:125-214 | under interference: goes through all its steps; an address it puts back is the container's recorded one and goes back only after an own successful port deletion, and if it reports none, none was put back; without own failures the stored result and the binding are gone then, and the record too if the port was deleted; alone and without failures the recorded address goes back whenever its port exists and iprange covers it |
| Plugin.Process.Bingding | pkg/midonet/midonet.go:714-766 | under interference: success is one own step, and a binding is stored then; an existing binding that can be read is kept and ends the call; without one a new port is made and bound |
| Fill.Directory.CreateIPsForTenantBridge | pkg/ipam/etcd_ipam.go:160-197 | with reliable writes the pool gains exactly the offered addresses, each as address/m; otherwise part of them and nothing else; fails exactly on unaligned or too small ranges |
| Fill.OfferedExactly | pkg/ipam/etcd_ipam.go:178-194 | the offered addresses are base + 2 .. base + 2^(32-m) - 2 without low octet 254 |
| Fill.HowMany | pkg/ipam/etcd_ipam.go:184-194 | with k = 32 - m >= 8 they are 2^k - 3 - 2^(k-8) |
| Routers.RouterIpam.RefreshRouterAvailable | pkg/ipam/etcd_ipam.go:49-90 | the three loops compute Refresh for every order of failures |
| Routers.RouterIpam.GetPair | pkg/ipam/etcd_ipam.go:93-157 | first fill, refresh at fewer than three nodes, or two successful deletes from the listing |
| RouterRuns.CallIsRun | pkg/ipam/etcd_ipam.go:93-157 | each such call, whatever fails in it, is a run of the step-by-step protocol by a process that is alone: same store, same answer |
| RouterRuns.StepKeeps | pkg/ipam/etcd_ipam.go:49-157 | if the lock excludes, iprange writes are not lost and the space does not wrap, every step of GetRouterIP and ReleaseRouterIP keeps pool and handed-out addresses apart and inside the opened ranges |
| RouterRuns.PairsNeverOverlap | pkg/ipam/etcd_ipam.go:93-157 | over all interleavings answers have distinct addresses and two answers share one only if it was put back in between, if and only if the lock excludes, iprange writes are not lost and the space does not wrap |
| RouterReturns.LateReturn | pkg/ipam/etcd_ipam.go:317-352 | whatever the environment guarantees, a run in which ReleaseRouterIP puts an address back that is not in the range iprange names by then |
| RouterReturns.ReturnsInTime | pkg/ipam/etcd_ipam.go:317-352 | in every run the address ReleaseRouterIP puts back is in the range iprange names then if no write of iprange took effect between the call's reading of it and its insertion, under any rules; and only if, with an excluding lock and no wrap |
| RouterRuns.RefreshSplits | pkg/ipam/etcd_ipam.go:61-89 | a refresh returns base + 2 and base + 3 and writes base + 4 up to the last but one (nothing for a /30), all in the range and disjoint |
| RouterRuns.UnserialBreaks | pkg/ipam/etcd_ipam.go:96-122 | two first fills at once answer with the same pair |
| RouterRuns.LostRangeBreaks | pkg/ipam/etcd_ipam.go:51-60 | a lost write of iprange gives two tenants the same pair |
| RouterRuns.WrapBreaks | pkg/util/cidr_util.go:55-56 | whatever the configured range, enough calls come round the space and give a pair a second time |
| RouterNets.OneNetworkExactly | pkg/ipam/etcd_ipam.go:131-156 | under any rules: whatever happens after a listing, the answer to it is in one network, if and only if the listing shows fewer than three nodes, so that a refresh follows, or all its addresses are of one network |
| RouterNets.PairSpansNetworks | pkg/ipam/etcd_ipam.go:131-156 | whatever the environment guarantees, a run of three calls of which the last is answered with an address of the first range and one of the second |
| TenantInit.CreatedOnce | pkg/midonet/midonet.go:56-150 | over all runs nobody builds a network while the tenant is stored or in use, if and only if the creation lock excludes |
| TenantInit.ReadyMeansStored | pkg/midonet/midonet.go:56-83 | nobody allocates for a tenant whose info is not stored, lock or no lock |
| TenantInit.GetTenantReturns | pkg/midonet/midonet.go:56-150 | from every reachable state and from wherever the process is, if nobody else is in the lock and nothing fails, the spelled-out steps of its call can be taken one after the other, build exactly if the info is not stored at the second look, and end with the tenant returned and stored |
| TenantInit.StoredIsReturned | pkg/midonet/midonet.go:56-83 | from every reachable state a stored tenant is returned after one read, without the lock |
| TenantInit.StoredAnyway | pkg/midonet/midonet.go:131-141 | a store that took effect although it reported an error is found by the next call |
| TenantInit.StopFreesLock | pkg/midonet/midonet.go:84-150 | from every reachable state, a process that stops inside the lock, at whatever point, leaves every other process able to go on to the tenant |
| Rollback.Midonet.CreateBridgeLinkRouter | pkg/midonet/midonet.go:641-710 | for every set of failing calls: success exactly if none of its own is in it, with two ports, a link and a route added; else the first failing one is reported, and with successful deletes only its own resource remains, if it took effect |
| Rollback.Midonet.CreateDefaultRoute | pkg/midonet/midonet.go:175-216 | the same for its two routes |
| Rollback.Midonet.CreateDefaultRule | pkg/midonet/midonet.go:219-287 | the same for its three rules |
| Rollback.Midonet.InitNetwork | pkg/midonet/midonet.go:288-637 | from any prior resources and for every set of failing calls, taking effect or not: the first failing call decides exactly what is left, and with successful deletes nothing is left if and only if that call comes before the default rules, is not GetRouterIP and did not take effect; nothing older is ever lost |

## Left out

- The etcd and MidoNet HTTP clients, their own retries, timeouts, logging and error texts. An operation is one atomic step that succeeds or fails; a create that etcd's client repeats internally is one step.
- `pkg/vethctrl`, symlinks and namespaces. DoNetworking succeeds or fails.
- Argument and configuration loading (`LoadArgs`, configuration files) and `pkg/ipam/region.go`; of the configuration only the size thresholds are modelled.
- IPv6 and the parser of dotted text. ParseCIDR is an option on (address, mask), the notation of section 3.1 of RFC 4632; texts are modelled only where the code compares them (".254", network texts).
- DeleteTenant, and a tenant that is created again. One tenant lifetime is one run.
- The write of `iprange` during tenant creation is taken to have succeeded; every pool write of that first fill may be lost.
- ReleaseRouterIP's lock loop: its deferred unlocks make the second acquisition wait for the TTL. Each address is put back by a call of its own.
- GetRouterIP with an etcd error other than "key not found" on its listing dereferences a nil response; in the model such a call stops.
- A pair that initNetwork took and then failed to use is not put back by the code; in the runs such a pair simply stays out.
- The bridge and the links that CreateNewBridge makes: the pod protocol keeps the address side, and the linking step is a success or an error. In a failure the bridge stays, as in the code.
- Rollback.Midonet.InitNetwork: MidoNet's cascading deletes are not modelled, so routes and rules under a deleted router count as left. A resource is identified by the call that made it, since UUIDs do not repeat.
- Lock.Mutex.Lock: the index a watcher starts from is never too old; a cleared event index is a failing watch. The code's watch has no deadline; the model's is given up after `patience` rounds, whatever that number is, so that methods end.
- A process that stops inside a lock of the pod or router protocol leaves it at once; in the code the key stays until its TTL runs out, which only delays others.
- Reads of the listing are atomic snapshots, as etcd answers them.
- The branch of InitTenant that calls itself on "node exists": a plain write never answers that.
