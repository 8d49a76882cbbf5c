/**
 The dashboard's lazily refilled cache.  Operations change cached records in place and leave behind
 hooks; the hooks run when the next context is opened, and whatever they dropped is loaded again.
 */
module Cache {
  import opened Models
  import opened Protocol

  /** A nil entry of a loaded table is listed in the table's `nil` set. */
  datatype Cache = Cache(
    slotsLoaded: bool, slots: seq<SlotMapping>, slotNil: set<nat>,
    groupsLoaded: bool, groups: map<int, Group>, groupNil: set<int>,
    proxiesLoaded: bool, proxies: map<Token, Proxy>, proxyNil: set<Token>)

  const EMPTY_CACHE := Cache(false, [], {}, false, map[], {}, false, map[], {})

  datatype Hook = DirtySlot(sid: nat) | DirtyGroup(gid: int) | DirtyProxy(token: Token) | DirtyAll

  function RunHook(c: Cache, h: Hook): Cache {
    match h
    case DirtySlot(sid) => if c.slotsLoaded && sid < |c.slots| then c.(slotNil := c.slotNil + {sid}) else c
    case DirtyGroup(gid) =>
      if c.groupsLoaded then c.(groups := c.groups - {gid}, groupNil := c.groupNil + {gid}) else c
    case DirtyProxy(t) =>
      if c.proxiesLoaded then c.(proxies := c.proxies - {t}, proxyNil := c.proxyNil + {t}) else c
    case DirtyAll => EMPTY_CACHE
  }

  ghost predicate SlotCurrent(c: Cache, st: Store, i: nat)
    requires i < |st.slots|
  {
    |c.slots| == |st.slots| && c.slots[i] == st.slots[i]
  }

  ghost predicate EntryCurrent<K, V>(cached: map<K, V>, stored: map<K, V>, k: K) {
    (k in cached <==> k in stored) && (k in cached ==> cached[k] == stored[k])
  }

  /** Every cached record either equals the stored one, is nil, or is about to be dropped by a hook. */
  ghost predicate Coherent(c: Cache, st: Store, hooks: seq<Hook>) {
    DirtyAll in hooks || (SlotsCoherent(c, st, hooks) && GroupsCoherent(c, st, hooks) && ProxiesCoherent(c, st, hooks))
  }

  ghost predicate SlotsCoherent(c: Cache, st: Store, hooks: seq<Hook>) {
    c.slotsLoaded ==>
      && |c.slots| == |st.slots| && (forall i :: i in c.slotNil ==> i < |c.slots|)
      && forall i: nat :: i < |st.slots| ==> i in c.slotNil || DirtySlot(i) in hooks || SlotCurrent(c, st, i)
  }

  ghost predicate GroupsCoherent(c: Cache, st: Store, hooks: seq<Hook>) {
    c.groupsLoaded ==>
      forall g :: g in c.groupNil || DirtyGroup(g) in hooks || EntryCurrent(c.groups, st.groups, g)
  }

  ghost predicate ProxiesCoherent(c: Cache, st: Store, hooks: seq<Hook>) {
    c.proxiesLoaded ==>
      forall t :: t in c.proxyNil || DirtyProxy(t) in hooks || EntryCurrent(c.proxies, st.proxies, t)
  }

  /** The cache is complete and equals the store. */
  ghost predicate Exact(c: Cache, st: Store) {
    && c.slotsLoaded && c.slotNil == {} && c.slots == st.slots
    && c.groupsLoaded && c.groupNil == {} && c.groups == st.groups
    && c.proxiesLoaded && c.proxyNil == {} && c.proxies == st.proxies
  }

  lemma HookSlots(c: Cache, st: Store, h: Hook, rest: seq<Hook>)
    requires SlotsCoherent(c, st, [h] + rest)
    ensures SlotsCoherent(RunHook(c, h), st, rest)
  {
  }

  lemma HookGroups(c: Cache, st: Store, h: Hook, rest: seq<Hook>)
    requires GroupsCoherent(c, st, [h] + rest)
    ensures GroupsCoherent(RunHook(c, h), st, rest)
  {
  }

  lemma HookProxies(c: Cache, st: Store, h: Hook, rest: seq<Hook>)
    requires ProxiesCoherent(c, st, [h] + rest)
    ensures ProxiesCoherent(RunHook(c, h), st, rest)
  {
  }

  lemma RunHookCoherent(c: Cache, st: Store, hooks: seq<Hook>)
    requires hooks != [] && Coherent(c, st, hooks)
    ensures Coherent(RunHook(c, hooks[0]), st, hooks[1..])
  {
    var h, rest := hooks[0], hooks[1..];
    assert hooks == [h] + rest;
    if DirtyAll !in hooks {
      HookSlots(c, st, h, rest);
      HookGroups(c, st, h, rest);
      HookProxies(c, st, h, rest);
    }
  }

  lemma NoNilIsExact(c: Cache, st: Store)
    requires Coherent(c, st, [])
    requires c.slotsLoaded && c.slotNil == {} && c.groupsLoaded && c.groupNil == {}
    requires c.proxiesLoaded && c.proxyNil == {}
    ensures Exact(c, st)
  {
    forall i: nat | i < |st.slots| ensures c.slots[i] == st.slots[i] {
      assert SlotCurrent(c, st, i);
    }
    forall g ensures (g in c.groups <==> g in st.groups) && (g in c.groups ==> c.groups[g] == st.groups[g]) {
      assert EntryCurrent(c.groups, st.groups, g);
    }
    forall t ensures (t in c.proxies <==> t in st.proxies) && (t in c.proxies ==> c.proxies[t] == st.proxies[t]) {
      assert EntryCurrent(c.proxies, st.proxies, t);
    }
    assert c.groups == st.groups;
    assert c.proxies == st.proxies;
  }
}
