/**
 The dashboard.  Its methods hold one mutex, so they do not interleave with each other, but every
 store call and every proxy call inside them may fail, with or without having taken effect.  The
 ghost field `trace` records the world after each effect; `Valid` says the record is a run of the
 protocol, so the theorems about runs hold at every intermediate point of every operation.
 */
module Topom {
  import opened Models
  import opened Context
  import opened Protocol
  import opened Cache
  import Routing
  import Integrity

  /** Refused: the arguments were not acceptable.  Failed: a store or proxy call failed. */
  datatype Status = Ok | Refused | Failed

  lemma ExtendRun(tr: seq<World>, s: Step, w': World)
    requires Run(tr) && StepBy(tr[|tr| - 1], s, w')
    ensures Run(tr + [w'])
  {
  }

  /** The proxy holds exactly the route the view prescribes for the slot. */
  ghost predicate Holds(routes: map<Token, seq<Route>>, c: Ctx, t: Token, sid: nat) {
    && t in routes && sid < |routes[t]| && sid < |c.slots|
    && routes[t][sid] == ToSlot(c.groups, c.slots[sid])
  }

  lemma OthersHold(routes: map<Token, seq<Route>>, c: Ctx, t: Token, sid: nat, routes': map<Token, seq<Route>>)
    requires t in routes && sid < |routes[t]| && sid < |c.slots|
    requires routes' == routes[t := routes[t][sid := ToSlot(c.groups, c.slots[sid])]]
    ensures Holds(routes', c, t, sid)
    ensures forall u, k :: Holds(routes, c, u, k) ==> Holds(routes', c, u, k)
  {
  }

  /** Why an operation may fail: the dashboard was not in service, or a call failed meanwhile. */
  ghost predicate Hindered(inService: bool, was: nat, faults: nat) {
    !inService || faults > was
  }

  class Topom {
    var store: Store
    var routes: map<Token, seq<Route>>
    var execs: multiset<Exec>

    var online: bool
    var closed: bool
    var disabled: bool
    var cache: Cache
    var hooks: seq<Hook>

    ghost var trace: seq<World>
    ghost var faults: nat    // how many calls to the store, the proxies and others have failed

    ghost function Now(): World
      reads this
    {
      World(store, routes, execs)
    }

    predicate InService()
      reads this
    {
      online && !closed
    }

    ghost predicate Traced()
      reads this
    {
      Run(trace) && trace[|trace| - 1] == Now()
    }

    ghost predicate Valid()
      reads this
    {
      Traced() && Coherent(cache, store, hooks)
    }

    /** A context has been opened: the cache is complete and equals the store. */
    ghost predicate Open()
      reads this
    {
      Traced() && Exact(cache, store) && hooks == [] && online && !closed
    }

    function CacheView(): Ctx
      reads this
    {
      Ctx(cache.slots, cache.groups)
    }

    lemma TracedInv()
      requires Traced()
      ensures Routing.Inv(Now())
    {
      Routing.RunsKeepInv(trace, |trace| - 1);
    }

    lemma RoutesRegistered()
      requires Traced()
      ensures routes.Keys == store.proxies.Keys
    {
      TracedInv();
    }

    lemma ActionHasTarget(sid: nat)
      requires Traced() && sid < |store.slots| && !store.slots[sid].action.state.Nothing?
      ensures store.slots[sid].action.target != 0
    {
      TracedInv();
      assert Integrity.SlotOk(store.groups, store.slots[sid]);
    }

    /** A new dashboard over a new store. */
    constructor ()
      ensures Valid() && !closed && online && fresh(this)
      ensures |trace| == 1 && store.proxies == map[]
    {
      store := Store(seq(MAX_SLOT_NUM, _ => OFFLINE), map[], map[]);
      routes := map[];
      execs := multiset{};
      online, closed, disabled := true, false, false;
      cache := EMPTY_CACHE;
      hooks := [];
      faults := 0;
      trace := [World(Store(seq(MAX_SLOT_NUM, _ => OFFLINE), map[], map[]), map[], multiset{})];
    }

    /** A new dashboard over a store that earlier dashboards left behind at any point of their run, with
        the proxies as they are and no executor of its own. */
    constructor TakeOver(store: Store, routes: map<Token, seq<Route>>, ghost tr: seq<World>)
      requires Run(tr) && tr[|tr| - 1] == World(store, routes, multiset{})
      ensures Valid() && !closed && online && fresh(this)
      ensures this.store == store && this.routes == routes && execs == multiset{} && trace == tr
    {
      this.store, this.routes := store, routes;
      execs := multiset{};
      online, closed, disabled := true, false, false;
      cache := EMPTY_CACHE;
      hooks := [];
      faults := 0;
      trace := tr;
    }

    /** The process ends and another one starts on the same store: executors, cache and hooks are gone. */
    method Restart()
      requires Valid()
      modifies this
      ensures Valid() && !closed && online && !disabled && old(trace) <= trace
      ensures store == old(store) && routes == old(routes) && execs == multiset{}
      ensures cache == EMPTY_CACHE && hooks == []
    {
      while execs != multiset{}
        invariant Valid() && old(trace) <= trace && store == old(store) && routes == old(routes)
        decreases |execs|
      {
        var e :| e in execs;
        EndExecutor(e);
      }
      cache, hooks := EMPTY_CACHE, [];
      online, closed, disabled := true, false, false;
    }

    /** Every cached record is dropped before the next operation. */
    method Reload() returns (status: Status)
      requires Valid()
      modifies `cache, `hooks, `faults
      ensures Valid() && !status.Refused? && (status.Ok? ==> DirtyAll in hooks)
      ensures status.Failed? ==> Hindered(InService(), old(faults), faults)
    {
      var open := NewContext();
      if !open { return Failed; }
      hooks := hooks + [DirtyAll];
      return Ok;
    }

    /** An operation that changed no record leaves no hook behind. */
    lemma OpenIsValid()
      requires Open()
      ensures Valid()
    {
    }

    /** A call to the store, a proxy or a server: it works or it fails. */
    method Call() returns (ok: bool)
      modifies `faults
      ensures faults == old(faults) + (if ok then 0 else 1)
    {
      ok := *;
      if !ok { faults := faults + 1; }
    }

    // ---------------------------------------------------------------- opening a context

    method RunHooks()
      requires Coherent(cache, store, hooks)
      modifies `cache, `hooks
      ensures hooks == [] && Coherent(cache, store, hooks)
    {
      while hooks != []
        invariant Coherent(cache, store, hooks)
        decreases |hooks|
      {
        RunHookCoherent(cache, store, hooks);
        var h := hooks[0];
        hooks := hooks[1..];
        cache := RunHook(cache, h);
      }
    }

    method RefillSlots() returns (ok: bool)
      requires hooks == [] && Coherent(cache, store, hooks)
      modifies `cache, `faults
      ensures Coherent(cache, store, hooks) && faults >= old(faults) + (if ok then 0 else 1)
      ensures cache == old(cache).(slotsLoaded := cache.slotsLoaded, slots := cache.slots, slotNil := cache.slotNil)
      ensures ok ==> cache.slotsLoaded && cache.slotNil == {}
    {
      if !cache.slotsLoaded {
        ok := Call();
        if ok {
          cache := cache.(slotsLoaded := true, slots := store.slots, slotNil := {});
        }
        return;
      }
      for i := 0 to |cache.slots|
        invariant Coherent(cache, store, hooks) && cache.slotsLoaded && |cache.slots| == |store.slots|
        invariant faults == old(faults)
        invariant cache == old(cache).(slots := cache.slots, slotNil := cache.slotNil)
        invariant |cache.slots| == |old(cache).slots|
        invariant forall k: nat :: k < i ==> k !in cache.slotNil
      {
        if i !in cache.slotNil { continue; }
        var loaded := Call();
        if !loaded { return false; }
        cache := cache.(slots := cache.slots[i := store.slots[i]], slotNil := cache.slotNil - {i});
      }
      return true;
    }

    method RefillGroups() returns (ok: bool)
      requires hooks == [] && Coherent(cache, store, hooks)
      modifies `cache, `faults
      ensures Coherent(cache, store, hooks) && faults >= old(faults) + (if ok then 0 else 1)
      ensures cache ==
          old(cache).(groupsLoaded := cache.groupsLoaded, groups := cache.groups, groupNil := cache.groupNil)
      ensures ok ==> cache.groupsLoaded && cache.groupNil == {}
    {
      if !cache.groupsLoaded {
        ok := Call();
        if ok {
          cache := cache.(groupsLoaded := true, groups := store.groups, groupNil := {});
        }
        return;
      }
      while cache.groupNil != {}
        invariant Coherent(cache, store, hooks) && cache.groupsLoaded && faults == old(faults)
        invariant cache == old(cache).(groups := cache.groups, groupNil := cache.groupNil)
        decreases |cache.groupNil|
      {
        var gid := AnyOf(cache.groupNil);
        var loaded := Call();
        if !loaded { return false; }
        var groups := if gid in store.groups then cache.groups[gid := store.groups[gid]] else cache.groups - {gid};
        cache := cache.(groups := groups, groupNil := cache.groupNil - {gid});
      }
      return true;
    }

    method RefillProxies() returns (ok: bool)
      requires hooks == [] && Coherent(cache, store, hooks)
      modifies `cache, `faults
      ensures Coherent(cache, store, hooks) && faults >= old(faults) + (if ok then 0 else 1)
      ensures cache ==
          old(cache).(proxiesLoaded := cache.proxiesLoaded, proxies := cache.proxies, proxyNil := cache.proxyNil)
      ensures ok ==> cache.proxiesLoaded && cache.proxyNil == {}
    {
      if !cache.proxiesLoaded {
        ok := Call();
        if ok {
          cache := cache.(proxiesLoaded := true, proxies := store.proxies, proxyNil := {});
        }
        return;
      }
      while cache.proxyNil != {}
        invariant Coherent(cache, store, hooks) && cache.proxiesLoaded && faults == old(faults)
        invariant cache == old(cache).(proxies := cache.proxies, proxyNil := cache.proxyNil)
        decreases |cache.proxyNil|
      {
        var t := AnyOf(cache.proxyNil);
        var loaded := Call();
        if !loaded { return false; }
        var proxies := if t in store.proxies then cache.proxies[t := store.proxies[t]] else cache.proxies - {t};
        cache := cache.(proxies := proxies, proxyNil := cache.proxyNil - {t});
      }
      return true;
    }

    /** After a successful call the cache equals the store; after a failed one nothing is lost. */
    method NewContext() returns (ok: bool)
      requires Valid()
      modifies `cache, `hooks, `faults
      ensures Valid() && faults >= old(faults)
      ensures if ok then Open() else Hindered(InService(), old(faults), faults)
    {
      if closed || !online { return false; }
      RunHooks();
      ok := RefillSlots();
      if !ok { return; }
      ok := RefillGroups();
      if !ok { return; }
      ok := RefillProxies();
      if ok { NoNilIsExact(cache, store); }
    }

    // ---------------------------------------------------------------- effects

    /** One store write; when it fails it may still have taken effect. */
    method Write(op: StoreOp) returns (ok: bool)
      requires Traced() && StoreEdge(store, op) && Guard(Now(), op)
      modifies `store, `routes, `trace, `faults
      ensures Traced() && old(trace) <= trace && faults >= old(faults) + (if ok then 0 else 1)
      ensures || (store == Apply(old(store), op) && routes == RoutesAfter(old(Now()), op))
              || (!ok && store == old(store) && routes == old(routes))
      ensures store != old(store) ==> trace == old(trace) + [Now()] && StepBy(old(Now()), Step.Write(op), Now())
    {
      var applied: bool := *;
      ok := Call();
      if applied || ok {
        ghost var w := Now();
        routes := match op
          case PutProxy(t, _) => if t in routes then routes else routes[t := FreshRoutes(|store.slots|)]
          case DropProxy(t) => routes - {t}
          case _ => routes;
        store := Apply(store, op);
        assert StepBy(w, Step.Write(op), Now());
        ExtendRun(trace, Step.Write(op), Now());
        trace := trace + [Now()];
      }
    }

    /** One slot of a FillSlots call takes effect on one proxy. */
    method FillOne(t: Token, sid: nat)
      requires Traced() && t in routes && ViewOk(store, sid, CacheView())
      modifies `routes, `trace
      ensures Traced() && old(trace) <= trace
      ensures |old(routes)[t]| == |store.slots|
      ensures routes == old(routes)[t := old(routes)[t][sid := ToSlot(cache.groups, cache.slots[sid])]]
    {
      TracedInv();
      ghost var w := Now();
      routes := routes[t := routes[t][sid := ToSlot(cache.groups, cache.slots[sid])]];
      assert StepBy(w, Fill(t, sid, CacheView()), Now());
      ExtendRun(trace, Fill(t, sid, CacheView()), Now());
      trace := trace + [Now()];
    }

    /** One slot of one FillSlots call: it may fail, with or without effect. */
    method FillCall(t: Token, sid: nat) returns (acked: bool)
      requires Traced() && t in routes && ViewOk(store, sid, CacheView())
      modifies `routes, `trace, `faults
      ensures Traced() && old(trace) <= trace && routes.Keys == old(routes).Keys
      ensures faults == old(faults) + (if acked then 0 else 1)
      ensures forall u, k :: Holds(old(routes), CacheView(), u, k) ==> Holds(routes, CacheView(), u, k)
      ensures acked ==> Holds(routes, CacheView(), t, sid)
    {
      var applied: bool := *;
      acked := Call();
      if applied || acked {
        ghost var before := routes;
        FillOne(t, sid);
        OthersHold(before, CacheView(), t, sid, routes);
      }
    }

    /** The fan-out of FillSlots calls.  Proxies work concurrently, so single fills happen in any
        order; any of them may fail, with or without effect. */
    method FanOut(tokens: set<Token>, sids: set<nat>) returns (ok: bool)
      requires Traced() && tokens <= routes.Keys
      requires forall sid :: sid in sids ==> ViewOk(store, sid, CacheView())
      modifies `routes, `trace, `faults
      ensures Traced() && old(trace) <= trace && routes.Keys == old(routes).Keys
      ensures faults >= old(faults) + (if ok then 0 else 1)
      ensures ok ==> forall t, sid :: t in tokens && sid in sids ==> Holds(routes, CacheView(), t, sid)
    {
      var pending := set t, sid | t in tokens && sid in sids :: (t, sid);
      ok := true;
      while pending != {}
        invariant Traced() && old(trace) <= trace && routes.Keys == old(routes).Keys
        invariant faults >= old(faults) + (if ok then 0 else 1)
        invariant forall c :: c in pending ==> c.0 in tokens && c.1 in sids
        invariant ok ==> forall t, sid :: t in tokens && sid in sids && (t, sid) !in pending ==>
                    Holds(routes, CacheView(), t, sid)
        decreases |pending|
      {
        var call :| call in pending;
        pending := pending - {call};
        var acked := FillCall(call.0, call.1);
        if !acked { ok := false; }
      }
    }

    /** resyncSlotMappings: tell every proxy what the cached view says about the given slots. */
    method ResyncSlotMappings(sids: set<nat>) returns (ok: bool)
      requires Traced() && cache.proxies.Keys == store.proxies.Keys
      requires forall sid :: sid in sids ==> ViewOk(store, sid, CacheView())
      modifies `routes, `trace, `faults
      ensures Traced() && old(trace) <= trace && faults >= old(faults) + (if ok then 0 else 1)
      ensures ok ==> forall sid :: sid in sids ==> Acked(Now(), CacheView(), sid)
    {
      RoutesRegistered();
      ok := FanOut(cache.proxies.Keys, sids);
      if ok {
        forall sid | sid in sids ensures Acked(Now(), CacheView(), sid) {
          assert ViewOk(store, sid, CacheView());
          assert forall t :: t in routes ==> Holds(routes, CacheView(), t, sid);
        }
      }
    }

    method StartExecutor(e: Exec)
      requires Valid() && StepBy(Now(), StartExec(e.sid), Now().(execs := execs + multiset{e}))
      modifies `execs, `trace
      ensures Valid() && old(trace) <= trace && execs == old(execs) + multiset{e}
    {
      ExtendRun(trace, StartExec(e.sid), Now().(execs := execs + multiset{e}));
      execs := execs + multiset{e};
      trace := trace + [Now()];
    }

    /** The deferred decrement when the migration closure returns. */
    method EndExecutor(e: Exec)
      requires Valid() && e in execs
      modifies `execs, `trace
      ensures Valid() && old(trace) <= trace && execs == old(execs) - multiset{e}
    {
      ghost var w := Now();
      execs := execs - multiset{e};
      assert StepBy(w, EndExec(e), Now());
      ExtendRun(trace, EndExec(e), Now());
      trace := trace + [Now()];
    }

    // ---------------------------------------------------------------- one record under change

    /** The tables of the cache are complete. */
    predicate Loaded()
      reads this
    {
      && cache.slotsLoaded && cache.slotNil == {} && cache.groupsLoaded && cache.groupNil == {}
      && cache.proxiesLoaded && cache.proxyNil == {}
    }

    /** An open context in which at most one slot mapping, cached or stored, has been changed. */
    ghost predicate OpenButSlot(sid: nat)
      reads this
    {
      && Traced() && hooks == [] && Loaded()
      && cache.groups == store.groups && cache.proxies == store.proxies
      && sid < |store.slots| == |cache.slots|
      && cache.slots == store.slots[sid := cache.slots[sid]]
    }

    /** Assign to a cached slot mapping in place. */
    method PokeSlot(sid: nat, m: SlotMapping)
      requires OpenButSlot(sid)
      modifies `cache
      ensures OpenButSlot(sid) && cache == old(cache).(slots := old(cache).slots[sid := m])
    {
      cache := cache.(slots := cache.slots[sid := m]);
    }

    method WriteSlot(sid: nat, m: SlotMapping) returns (ok: bool)
      requires OpenButSlot(sid) && SlotEdge(store, sid, m) && Guard(Now(), PutSlot(sid, m))
      modifies `store, `routes, `trace, `faults
      ensures faults >= old(faults) + (if ok then 0 else 1)
      ensures OpenButSlot(sid) && old(trace) <= trace && routes == old(routes)
      ensures store == Apply(old(store), PutSlot(sid, m)) || (!ok && store == old(store))
    {
      ok := Write(PutSlot(sid, m));
    }

    method ResyncSlot(sid: nat) returns (ok: bool)
      requires OpenButSlot(sid) && ViewOk(store, sid, CacheView())
      modifies `routes, `trace, `faults
      ensures faults >= old(faults) + (if ok then 0 else 1)
      ensures OpenButSlot(sid) && old(trace) <= trace
      ensures ok ==> Acked(Now(), CacheView(), sid)
    {
      ok := ResyncSlotMappings({sid});
    }

    /** Return from the operation, leaving the hooks of the changed slots behind. */
    method LeaveSlots(sid: nat, others: seq<nat>)
      requires OpenButSlot(sid)
      modifies `hooks
      ensures Valid()
    {
      hooks := [DirtySlot(sid)] + seq(|others|, i requires 0 <= i < |others| => DirtySlot(others[i]));
      forall g ensures EntryCurrent(cache.groups, store.groups, g) {}
      forall i: nat | i < |store.slots| && i != sid ensures SlotCurrent(cache, store, i) {}
    }

    /** An open context in which at most one group record, cached or stored, has been changed. */
    ghost predicate OpenButGroup(gid: int)
      reads this
    {
      && Traced() && hooks == [] && Loaded()
      && cache.slots == store.slots && cache.proxies == store.proxies
      && cache.groups - {gid} == store.groups - {gid}
    }

    /** Assign to a cached group record in place. */
    method PokeGroup(gid: int, g: Group)
      requires OpenButGroup(gid)
      modifies `cache
      ensures OpenButGroup(gid) && cache == old(cache).(groups := old(cache).groups[gid := g])
    {
      cache := cache.(groups := cache.groups[gid := g]);
      assert cache.groups - {gid} == old(cache).groups - {gid};
    }

    method WriteGroup(gid: int, g: Group) returns (ok: bool)
      requires OpenButGroup(gid) && GroupEdge(store, gid, g) && Guard(Now(), PutGroup(gid, g))
      modifies `store, `routes, `trace, `faults
      ensures faults >= old(faults) + (if ok then 0 else 1)
      ensures OpenButGroup(gid) && old(trace) <= trace && routes == old(routes)
      ensures store == Apply(old(store), PutGroup(gid, g)) || (!ok && store == old(store))
    {
      ok := Write(PutGroup(gid, g));
      assert store.groups - {gid} == old(store).groups - {gid};
    }

    /** resyncSlotMappingsByGroupId. */
    method ResyncGroupSlots(gid: int) returns (ok: bool)
      requires OpenButGroup(gid)
      requires forall sid :: 0 <= sid < |store.slots| && Mentions(store.slots[sid], gid) ==>
          ViewOk(store, sid, CacheView())
      modifies `routes, `trace, `faults
      ensures faults >= old(faults) + (if ok then 0 else 1)
      ensures OpenButGroup(gid) && old(trace) <= trace
      ensures ok ==> forall sid :: 0 <= sid < |store.slots| && Mentions(store.slots[sid], gid) ==>
                Acked(Now(), CacheView(), sid)
    {
      var sids := SlotsOf(cache.slots, gid);
      ok := ResyncSlotMappings(sids);
      assert forall sid: nat :: sid < |store.slots| && Mentions(store.slots[sid], gid) ==> sid in sids;
    }

    /** Return from the operation, leaving the hook of the changed group behind. */
    method LeaveGroup(gid: int)
      requires OpenButGroup(gid)
      modifies `hooks
      ensures Valid()
    {
      hooks := [DirtyGroup(gid)];
      forall g | g != gid ensures EntryCurrent(cache.groups, store.groups, g) {
        assert g in cache.groups <==> g in cache.groups - {gid};
        assert g in store.groups <==> g in store.groups - {gid};
        if g in cache.groups {
          assert (cache.groups - {gid})[g] == (store.groups - {gid})[g];
        }
      }
      forall i: nat | i < |store.slots| ensures SlotCurrent(cache, store, i) {}
    }

    /** An open context in which at most one proxy record, cached or stored, has been changed. */
    ghost predicate OpenButProxy(t: Token)
      reads this
    {
      && Traced() && hooks == [] && Loaded()
      && cache.slots == store.slots && cache.groups == store.groups
      && cache.proxies - {t} == store.proxies - {t}
    }

    method WriteProxy(t: Token, op: StoreOp) returns (ok: bool)
      requires OpenButProxy(t) && ((op.PutProxy? && op.token == t) || op == DropProxy(t))
      modifies `store, `routes, `trace, `faults
      ensures faults >= old(faults) + (if ok then 0 else 1)
      ensures OpenButProxy(t) && old(trace) <= trace
      ensures || (store == Apply(old(store), op) && routes == RoutesAfter(old(Now()), op))
              || (!ok && store == old(store) && routes == old(routes))
      ensures store != old(store) ==> trace == old(trace) + [Now()] && StepBy(old(Now()), Step.Write(op), Now())
    {
      ok := Write(op);
      assert store.proxies - {t} == old(store).proxies - {t};
    }

    /** Send one proxy the cached view of every slot. */
    method FillAll(t: Token) returns (ok: bool)
      requires OpenButProxy(t) && t in store.proxies
      modifies `routes, `trace, `faults
      ensures faults >= old(faults) + (if ok then 0 else 1)
      ensures OpenButProxy(t) && old(trace) <= trace
      ensures ok ==> forall sid: nat :: sid < |store.slots| ==> Holds(routes, View(store), t, sid)
    {
      RoutesRegistered();
      ok := FanOut({t}, SlotIds(|cache.slots|));
      assert ok ==> forall sid: nat :: sid < |store.slots| ==> sid in SlotIds(|cache.slots|);
    }

    /** Ask a proxy to shut down: it drops every route.  A failed call may have had this effect. */
    method ShutdownProxy(t: Token) returns (ok: bool)
      requires OpenButProxy(t) && t in store.proxies
      modifies `routes, `trace, `faults
      ensures faults >= old(faults) + (if ok then 0 else 1)
      ensures OpenButProxy(t) && old(trace) <= trace && routes.Keys == old(routes).Keys
      ensures ok ==> trace == old(trace) + [Now()] && StepBy(old(Now()), Shutdown(t), Now())
    {
      RoutesRegistered();
      var applied: bool := *;
      ok := Call();
      if applied || ok {
        ghost var w := Now();
        routes := routes[t := FreshRoutes(|store.slots|)];
        assert StepBy(w, Shutdown(t), Now());
        ExtendRun(trace, Shutdown(t), Now());
        trace := trace + [Now()];
      }
    }

    method LeaveProxy(t: Token)
      requires OpenButProxy(t)
      modifies `hooks
      ensures Valid()
    {
      hooks := [DirtyProxy(t)];
      forall u | u != t ensures EntryCurrent(cache.proxies, store.proxies, u) {
        assert u in cache.proxies <==> u in cache.proxies - {t};
        assert u in store.proxies <==> u in store.proxies - {t};
        if u in cache.proxies {
          assert (cache.proxies - {t})[u] == (store.proxies - {t})[u];
        }
      }
      forall i: nat | i < |store.slots| ensures SlotCurrent(cache, store, i) {}
    }
  }
}
