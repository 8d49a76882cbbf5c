/** The group operations of the dashboard. */
module TopomGroup {
  import opened Models
  import opened Context
  import opened Protocol
  import opened Cache
  import opened Topom
  import opened Service
  import Integrity
  import Routing

  predicate CanCreateGroup(st: Store, gid: int) {
    0 < gid <= MAX_GROUP_ID && gid !in st.groups
  }

  method CreateGroup(s: Topom, gid: int) returns (status: Status)
    requires s.Valid()
    modifies s
    ensures s.Valid() && old(s.trace) <= s.trace && s.routes == old(s.routes) && s.execs == old(s.execs)
    ensures status.Refused? ==> !CanCreateGroup(old(s.store), gid)
    ensures !CanCreateGroup(old(s.store), gid) ==> !status.Ok? && s.store == old(s.store)
    ensures CanCreateGroup(old(s.store), gid) ==>
              || s.store == Apply(old(s.store), PutGroup(gid, Group([], NO_PROMOTION, false)))
              || (!status.Ok? && s.store == old(s.store))
    ensures status.Failed? ==> Hindered(old(s.InService()), old(s.faults), s.faults)
  {
    var open := s.NewContext();
    if !open { return Failed; }
    if gid <= 0 || gid > MAX_GROUP_ID { return Refused; }
    if gid in s.cache.groups { return Refused; }
    var ok := s.WriteGroup(gid, Group([], NO_PROMOTION, false));
    s.LeaveGroup(gid);
    status := if ok then Ok else Failed;
  }

  predicate CanRemoveGroup(st: Store, gid: int) {
    gid in st.groups && st.groups[gid].servers == []
  }

  method RemoveGroup(s: Topom, gid: int) returns (status: Status)
    requires s.Valid()
    modifies s
    ensures s.Valid() && old(s.trace) <= s.trace && s.routes == old(s.routes) && s.execs == old(s.execs)
    ensures status.Refused? ==> !CanRemoveGroup(old(s.store), gid)
    ensures !CanRemoveGroup(old(s.store), gid) ==> !status.Ok? && s.store == old(s.store)
    ensures CanRemoveGroup(old(s.store), gid) ==>
              || s.store == Apply(old(s.store), DropGroup(gid))
              || (!status.Ok? && s.store == old(s.store))
    ensures status.Failed? ==> Hindered(old(s.InService()), old(s.faults), s.faults)
  {
    var open := s.NewContext();
    if !open { return Failed; }
    if gid !in s.cache.groups { return Refused; }
    if s.cache.groups[gid].servers != [] { return Refused; }
    var ok := s.Write(DropGroup(gid));
    assert s.cache.groups - {gid} == s.store.groups - {gid};
    s.LeaveGroup(gid);
    status := if ok then Ok else Failed;
  }

  /** Every proxy is up to date on the slots of the group: clear its mark. */
  method ClearOutOfSync(s: Topom, gid: int) returns (ok: bool)
    requires s.Open() && gid in s.store.groups
    requires forall sid :: 0 <= sid < |s.store.slots| && Mentions(s.store.slots[sid], gid) ==>
               Acked(s.Now(), View(s.store), sid)
    modifies s`cache, s`store, s`routes, s`trace, s`faults
    ensures s.faults >= old(s.faults) + (if ok then 0 else 1)
    ensures s.OpenButGroup(gid) && old(s.trace) <= s.trace && s.routes == old(s.routes)
    ensures || s.store == Apply(old(s.store), PutGroup(gid, old(s.store).groups[gid].(outOfSync := false)))
            || (!ok && s.store == old(s.store))
    ensures ok ==> GroupServes(s.Now(), gid)
  {
    var g := s.cache.groups[gid];
    ghost var c := View(s.store);
    s.PokeGroup(gid, g.(outOfSync := false));
    ok := s.WriteGroup(gid, s.cache.groups[gid]);
    if ok {
      s.TracedInv();
      AckedGroupServes(s.Now(), c, gid, g.(outOfSync := false));
    }
  }

  /** Bring every proxy up to date on the slots of the group, then clear its out-of-sync mark. */
  method ResyncGroup(s: Topom, gid: int) returns (status: Status)
    requires s.Valid()
    modifies s
    ensures s.Valid() && old(s.trace) <= s.trace && s.execs == old(s.execs) && s.store.slots == old(s.store).slots
    ensures status.Refused? ==> gid !in old(s.store).groups
    ensures status.Ok? ==>
              && gid in old(s.store).groups
              && s.store == Apply(old(s.store), PutGroup(gid, old(s.store).groups[gid].(outOfSync := false)))
              && forall sid :: 0 <= sid < |s.store.slots| && Mentions(s.store.slots[sid], gid) ==>
                   Acked(s.Now(), View(old(s.store)), sid)
    ensures status.Ok? ==> GroupServes(s.Now(), gid)
    ensures status.Failed? ==> Hindered(old(s.InService()), old(s.faults), s.faults)
  {
    var open := s.NewContext();
    if !open { return Failed; }
    if gid !in s.cache.groups { return Refused; }
    var ok := s.ResyncGroupSlots(gid);
    if !ok {
      s.OpenIsValid();
      return Failed;
    }
    ok := ClearOutOfSync(s, gid);
    s.LeaveGroup(gid);
    status := if ok then Ok else Failed;
  }

  // ---------------------------------------------------------------- servers

  predicate CanAddServer(st: Store, gid: int, addr: Addr) {
    && addr != "" && !HasAddr(st.groups, addr)
    && gid in st.groups && st.groups[gid].promoting.state.Unpromoted?
  }

  method GroupAddServer(s: Topom, gid: int, addr: Addr) returns (status: Status)
    requires s.Valid()
    modifies s
    ensures s.Valid() && old(s.trace) <= s.trace && s.routes == old(s.routes) && s.execs == old(s.execs)
    ensures status.Refused? ==> !CanAddServer(old(s.store), gid, addr)
    ensures !CanAddServer(old(s.store), gid, addr) ==> !status.Ok? && s.store == old(s.store)
    ensures CanAddServer(old(s.store), gid, addr) ==>
              || (var g := old(s.store).groups[gid];
                  s.store == Apply(old(s.store), PutGroup(gid, g.(servers := g.servers + [Server(addr, false)]))))
              || (!status.Ok? && s.store == old(s.store))
    ensures status.Failed? ==> Hindered(old(s.InService()), old(s.faults), s.faults)
  {
    var open := s.NewContext();
    if !open { return Failed; }
    if addr == "" { return Refused; }
    if HasAddr(s.cache.groups, addr) { return Refused; }
    if gid !in s.cache.groups { return Refused; }
    var g := s.cache.groups[gid];
    if !g.promoting.state.Unpromoted? { return Refused; }
    // Marking the sentinels out of sync and copying the access list to the server may fail.
    var marked := s.Call();
    if !marked { return Failed; }
    var copied := s.Call();
    if !copied {
      s.LeaveGroup(gid);
      return Failed;
    }
    s.PokeGroup(gid, g.(servers := g.servers + [Server(addr, false)]));
    var ok := s.WriteGroup(gid, s.cache.groups[gid]);
    s.LeaveGroup(gid);
    status := if ok then Ok else Failed;
  }

  /** The position of the address in the group, or -1. */
  method GroupIndex(g: Group, addr: Addr) returns (index: int)
    ensures index == -1 ==> forall i :: 0 <= i < |g.servers| ==> g.servers[i].addr != addr
    ensures index != -1 ==> 0 <= index < |g.servers| && g.servers[index].addr == addr
                            && forall i :: 0 <= i < index ==> g.servers[i].addr != addr
  {
    for i := 0 to |g.servers|
      invariant forall k :: 0 <= k < i ==> g.servers[k].addr != addr
    {
      if g.servers[i].addr == addr { return i; }
    }
    return -1;
  }

  method FilterOut(servers: seq<Server>, index: int) returns (slice: seq<Server>)
    requires 0 <= index < |servers|
    ensures slice == WithoutServer(servers, index)
  {
    slice := [];
    for i := 0 to |servers|
      invariant slice == if i <= index then servers[..i] else servers[..index] + servers[index + 1..i]
    {
      if i != index { slice := slice + [servers[i]]; }
    }
    assert servers[index + 1..|servers|] == servers[index + 1..];
  }

  /** The first position of the address, or the length when it is absent. */
  function PositionOf(servers: seq<Server>, addr: Addr): (r: nat)
    ensures r <= |servers|
    ensures r < |servers| ==> servers[r].addr == addr
    ensures forall i :: 0 <= i < r ==> servers[i].addr != addr
  {
    if servers == [] || servers[0].addr == addr then 0 else 1 + PositionOf(servers[1..], addr)
  }

  predicate CanDelServer(st: Store, gid: int, addr: Addr) {
    && gid in st.groups
    && var g := st.groups[gid];
    && PositionOf(g.servers, addr) < |g.servers|
    && g.promoting.state.Unpromoted?
    && (PositionOf(g.servers, addr) == 0 ==> |g.servers| == 1 && !IsGroupInUse(st.slots, gid))
  }

  /** The group without the server at a position; losing a replica makes the proxies out of date. */
  function GroupWithout(g: Group, index: int): Group
    requires 0 <= index < |g.servers|
  {
    var rest := WithoutServer(g.servers, index);
    Group(rest, g.promoting, rest != [] && (g.outOfSync || (index != 0 && g.servers[index].replica)))
  }

  /** The checks before a removal; -1 when one of them refuses. */
  method CheckDel(c: Ctx, gid: int, addr: Addr, ghost st: Store) returns (index: int)
    requires c == View(st)
    ensures index == -1 <==> !CanDelServer(st, gid, addr)
    ensures index != -1 ==> index == PositionOf(st.groups[gid].servers, addr)
  {
    if gid !in c.groups { return -1; }
    var g := c.groups[gid];
    index := GroupIndex(g, addr);
    if index == -1 { return -1; }
    assert index == PositionOf(g.servers, addr);
    if !g.promoting.state.Unpromoted? { return -1; }
    if index == 0 {
      if |g.servers| != 1 || IsGroupInUse(c.slots, gid) { return -1; }
    }
  }

  method GroupDelServer(s: Topom, gid: int, addr: Addr) returns (status: Status)
    requires s.Valid()
    modifies s
    ensures s.Valid() && old(s.trace) <= s.trace && s.routes == old(s.routes) && s.execs == old(s.execs)
    ensures status.Refused? ==> !CanDelServer(old(s.store), gid, addr)
    ensures !CanDelServer(old(s.store), gid, addr) ==> !status.Ok? && s.store == old(s.store)
    ensures CanDelServer(old(s.store), gid, addr) ==>
              var g := old(s.store).groups[gid];
              var g' := GroupWithout(g, PositionOf(g.servers, addr));
              && (forall i :: 0 <= i < |g'.servers| ==> g'.servers[i].addr != addr)
              && (s.store == Apply(old(s.store), PutGroup(gid, g')) || (!status.Ok? && s.store == old(s.store)))
    ensures status.Failed? ==> Hindered(old(s.InService()), old(s.faults), s.faults)
  {
    if CanDelServer(s.store, gid, addr) {
      OnlyOnce(s, gid, addr, PositionOf(s.store.groups[gid].servers, addr));
    }
    var open := s.NewContext();
    if !open { return Failed; }
    var index := CheckDel(s.CacheView(), gid, addr, s.store);
    if index == -1 { return Refused; }
    // The sentinel record, if there is one, is marked out of date first.
    var side := s.Call();
    if !side { return Failed; }
    var ok := DropServer(s, gid, index);
    s.LeaveGroup(gid);
    status := if ok then Ok else Failed;
  }

  method DropServer(s: Topom, gid: int, index: int) returns (ok: bool)
    requires s.Open() && gid in s.store.groups && 0 <= index < |s.store.groups[gid].servers|
    requires s.store.groups[gid].promoting.state.Unpromoted?
    requires index == 0 ==> |s.store.groups[gid].servers| == 1 && !IsGroupInUse(s.store.slots, gid)
    modifies s`cache, s`store, s`routes, s`trace, s`faults
    ensures s.faults >= old(s.faults) + (if ok then 0 else 1)
    ensures s.OpenButGroup(gid) && old(s.trace) <= s.trace && s.routes == old(s.routes)
    ensures || s.store == Apply(old(s.store), PutGroup(gid, GroupWithout(old(s.store).groups[gid], index)))
            || (!ok && s.store == old(s.store))
  {
    var g := s.cache.groups[gid];
    var outOfSync := g.outOfSync;
    if index != 0 && g.servers[index].replica { outOfSync := true; }
    var slice := FilterOut(g.servers, index);
    if |slice| == 0 { outOfSync := false; }
    s.PokeGroup(gid, g.(servers := slice, outOfSync := outOfSync));
    assert DelServerEdge(s.store, gid, g, s.cache.groups[gid]);
    ok := s.WriteGroup(gid, s.cache.groups[gid]);
  }

  /** Addresses are distinct, so removing one position removes the address. */
  lemma OnlyOnce(s: Topom, gid: int, addr: Addr, index: int)
    requires s.Traced() && gid in s.store.groups
    requires 0 <= index < |s.store.groups[gid].servers| && s.store.groups[gid].servers[index].addr == addr
    ensures var rest := WithoutServer(s.store.groups[gid].servers, index);
            forall i :: 0 <= i < |rest| ==> rest[i].addr != addr
  {
    s.TracedInv();
    DistinctWithout(s.store.groups, gid, addr, index);
  }

  lemma DistinctWithout(groups: map<int, Group>, gid: int, addr: Addr, index: int)
    requires Integrity.AddrsDistinct(groups) && gid in groups
    requires 0 <= index < |groups[gid].servers| && groups[gid].servers[index].addr == addr
    ensures var rest := WithoutServer(groups[gid].servers, index);
            forall i :: 0 <= i < |rest| ==> rest[i].addr != addr
  {
  }

  // ---------------------------------------------------------------- promotion

  predicate CanPromote(st: Store, execs: multiset<Exec>, gid: int, addr: Addr) {
    && gid in st.groups
    && (exists i :: 0 <= i < |st.groups[gid].servers| && st.groups[gid].servers[i].addr == addr)
    && (var index := PositionOf(st.groups[gid].servers, addr);
        if st.groups[gid].promoting.state.Unpromoted? then index != 0 else index == st.groups[gid].promoting.index)
    && execs == multiset{}
  }

  /** unpromoted to preparing: a store write only. */
  method PromoteBegin(s: Topom, gid: int, index: int) returns (ok: bool)
    requires s.Open() && s.execs == multiset{} && gid in s.store.groups
    requires s.store.groups[gid].promoting.state.Unpromoted? && 0 < index < |s.store.groups[gid].servers|
    modifies s`cache, s`store, s`routes, s`trace, s`faults
    ensures s.faults >= old(s.faults) + (if ok then 0 else 1)
    ensures s.OpenButGroup(gid) && old(s.trace) <= s.trace && (ok ==> s.Open())
    ensures || s.store ==
        Apply(old(s.store), PutGroup(gid, old(s.store).groups[gid].(promoting := Promoting(index, PromotePreparing))))
            || (!ok && s.store == old(s.store))
  {
    s.PokeGroup(gid, s.cache.groups[gid].(promoting := Promoting(index, PromotePreparing)));
    ok := s.WriteGroup(gid, s.cache.groups[gid]);
  }

  /** preparing to prepared: lock every slot of the group on every proxy, then write; roll the
      proxies back if any of them failed. */
  method PromoteLock(s: Topom, gid: int) returns (ok: bool)
    requires s.Open() && s.execs == multiset{} && gid in s.store.groups
    requires s.store.groups[gid].promoting.state.PromotePreparing?
    modifies s`cache, s`store, s`routes, s`trace, s`faults
    ensures s.faults >= old(s.faults) + (if ok then 0 else 1)
    ensures s.OpenButGroup(gid) && old(s.trace) <= s.trace && (ok ==> s.Open())
    ensures var g := old(s.store).groups[gid];
            || s.store == Apply(old(s.store), PutGroup(gid, g.(promoting := g.promoting.(state := PromotePrepared))))
            || (!ok && s.store == old(s.store))
    ensures s.store != old(s.store) ==>
              forall sid :: 0 <= sid < |s.store.slots| && Mentions(s.store.slots[sid], gid) ==>
                  Acked(s.Now(), View(s.store), sid)
  {
    var g := s.cache.groups[gid];
    s.PokeGroup(gid, g.(promoting := g.promoting.(state := PromotePrepared)));
    ok := s.ResyncGroupSlots(gid);
    if !ok {
      s.PokeGroup(gid, g);
      assert s.cache.groups == s.store.groups;
      var _ := s.ResyncGroupSlots(gid);
      return false;
    }
    ok := s.WriteGroup(gid, s.cache.groups[gid]);
  }

  /** The reordered server list, built the way the loop builds it. */
  method Reorder(servers: seq<Server>, index: int) returns (slice: seq<Server>)
    requires 0 < index < |servers|
    ensures slice == PromoteServers(servers, index)
  {
    slice := [servers[index]];
    for i := 0 to |servers|
      invariant slice == [servers[index]] +
                  (if i == 0 then [] else if i <= index then servers[1..i]
                      else servers[1..index] + servers[index + 1..i])
    {
      if i != index && i != 0 { slice := slice + [servers[i]]; }
    }
    slice := slice + [servers[0]];
  }

  /** prepared to finished: the new master is written while everything is locked. */
  method PromoteReorder(s: Topom, gid: int) returns (ok: bool, dirty: bool)
    requires s.Open() && s.execs == multiset{} && gid in s.store.groups
    requires s.store.groups[gid].promoting.state.PromotePrepared?
    requires 0 < s.store.groups[gid].promoting.index < |s.store.groups[gid].servers|
    modifies s`cache, s`store, s`routes, s`trace, s`faults
    ensures s.faults >= old(s.faults) + (if ok then 0 else 1)
    ensures s.OpenButGroup(gid) && old(s.trace) <= s.trace && (ok ==> s.Open())
    ensures var g := old(s.store).groups[gid];
            || s.store == Apply(old(s.store), PutGroup(gid,
                 Group(PromoteServers(g.servers, g.promoting.index), Promoting(0, PromoteFinished), g.outOfSync)))
            || (!ok && s.store == old(s.store))
    ensures !dirty ==> !ok && s.Open()
  {
    // Telling the sentinels to forget the group may fail, before anything is changed.
    ok := s.Call();
    dirty := ok;
    if !ok { return; }
    var g := s.cache.groups[gid];
    var slice := Reorder(g.servers, g.promoting.index);
    s.PokeGroup(gid, g.(servers := slice, promoting := Promoting(0, PromoteFinished)));
    ok := s.WriteGroup(gid, s.cache.groups[gid]);
  }

  /** finished to unpromoted: unlock every slot towards the new master, then write. */
  method PromoteEnd(s: Topom, gid: int) returns (ok: bool, dirty: bool)
    requires s.Open() && s.execs == multiset{} && gid in s.store.groups
    requires s.store.groups[gid].promoting.state.PromoteFinished?
    modifies s`store, s`routes, s`trace, s`faults
    ensures s.faults >= old(s.faults) + (if ok then 0 else 1)
    ensures s.OpenButGroup(gid) && old(s.trace) <= s.trace
    ensures || s.store ==
        Apply(old(s.store), PutGroup(gid, Group(old(s.store).groups[gid].servers, NO_PROMOTION, false)))
            || (!ok && s.store == old(s.store))
    ensures s.store != old(s.store) ==>
              forall sid :: 0 <= sid < |s.store.slots| && Mentions(s.store.slots[sid], gid) ==>
                  Acked(s.Now(), View(old(s.store)), sid)
    ensures ok ==> GroupServes(s.Now(), gid)
    ensures !dirty ==> !ok && s.Open()
  {
    ok := s.ResyncGroupSlots(gid);
    dirty := ok;
    if !ok { return; }
    ghost var c := View(s.store);
    var g := Group(s.cache.groups[gid].servers, NO_PROMOTION, false);
    ok := s.WriteGroup(gid, g);
    if ok {
      s.TracedInv();
      AckedGroupServes(s.Now(), c, gid, g);
    }
  }

  /** The call still has to store the preparing or the prepared state. */
  predicate PromoteStarts(g: Group) {
    g.promoting.state.Unpromoted? || g.promoting.state.PromotePreparing?
  }

  /** Up to and including the lock. */
  method PromoteToPrepared(s: Topom, gid: int, index: int) returns (ok: bool)
    requires s.Open() && s.execs == multiset{} && gid in s.store.groups
    requires s.store.groups[gid].promoting.state.Unpromoted? ==> 0 < index < |s.store.groups[gid].servers|
    modifies s`cache, s`store, s`routes, s`trace, s`faults
    ensures s.faults >= old(s.faults) + (if ok then 0 else 1)
    ensures s.OpenButGroup(gid) && old(s.trace) <= s.trace && (ok ==> s.Open())
    ensures OnlyPromoting(old(s.store), s.store, gid)
    ensures ok ==>
        s.store.groups[gid].promoting.state.PromotePrepared? || s.store.groups[gid].promoting.state.PromoteFinished?
    ensures ok ==> s.store.groups[gid].promoting.index ==
                   (if old(s.store).groups[gid].promoting.state.Unpromoted? then index
                       else old(s.store).groups[gid].promoting.index)
    ensures ok && s.store.groups[gid].promoting.state.PromoteFinished? ==> s.store == old(s.store)
    ensures old(s.store).groups[gid].promoting.state.PromoteFinished? ==> s.store == old(s.store)
    ensures !PromoteStarts(old(s.store).groups[gid]) ==> ok && s.cache == old(s.cache) && s.store == old(s.store)
  {
    ok := true;
    PromotingRefl(s.store, gid);
    if s.cache.groups[gid].promoting.state.Unpromoted? {
      ok := PromoteBegin(s, gid, index);
      if !ok { return; }
    }
    if s.cache.groups[gid].promoting.state.PromotePreparing? {
      ok := PromoteLock(s, gid);
    }
  }

  /** The stores differ at most in the promoting field of one group. */
  ghost predicate OnlyPromoting(st: Store, st': Store, gid: int) {
    && gid in st.groups && gid in st'.groups
    && st' == st.(groups := st.groups[gid := st.groups[gid].(promoting := st'.groups[gid].promoting)])
  }

  lemma PromotingRefl(st: Store, gid: int)
    requires gid in st.groups
    ensures OnlyPromoting(st, st, gid)
  {
  }

  /** What a promotion leaves of the servers: the old list, or the list reordered once. */
  function PromotedServers(g: Group, index: int): seq<Server>
    requires !g.promoting.state.PromoteFinished? ==> 0 < index < |g.servers|
  {
    if g.promoting.state.PromoteFinished? then g.servers else PromoteServers(g.servers, index)
  }

  /** The phases one after the other, starting wherever an earlier call stopped. */
  method RunPromotion(s: Topom, gid: int, index: int) returns (ok: bool, dirty: bool)
    requires s.Open() && s.execs == multiset{} && gid in s.store.groups
    requires var g := s.store.groups[gid];
             && (!g.promoting.state.PromoteFinished? ==> 0 < index < |g.servers|)
             && (!g.promoting.state.Unpromoted? ==> g.promoting.index == index)
    modifies s`cache, s`store, s`routes, s`trace, s`faults
    ensures s.faults >= old(s.faults) + (if ok then 0 else 1)
    ensures s.OpenButGroup(gid) && old(s.trace) <= s.trace && (!dirty ==> s.Open())
    ensures s.store.slots == old(s.store).slots
    ensures ok ==>
              var g := old(s.store).groups[gid];
              s.store == Apply(old(s.store), PutGroup(gid, Group(PromotedServers(g, index), NO_PROMOTION, false)))
    ensures ok ==> GroupServes(s.Now(), gid)
  {
    ghost var st0 := s.store;
    var later: bool;
    dirty := PromoteStarts(s.cache.groups[gid]);
    ok := PromoteToPrepared(s, gid, index);
    if !ok { return; }
    if s.cache.groups[gid].promoting.state.PromotePrepared? {
      ok, later := PromoteReorder(s, gid);
      dirty := dirty || later;
      if !ok { return; }
    }
    ghost var st2 := s.store;
    ok, later := PromoteEnd(s, gid);
    dirty := dirty || later;
    if ok {
      assert st2.groups[gid].servers == PromotedServers(st0.groups[gid], index);
    }
  }

  method GroupPromoteServer(s: Topom, gid: int, addr: Addr) returns (status: Status)
    requires s.Valid()
    modifies s
    ensures s.Valid() && old(s.trace) <= s.trace && s.execs == old(s.execs) && s.store.slots == old(s.store).slots
    ensures status.Refused? ==> !CanPromote(old(s.store), old(s.execs), gid, addr)
    ensures !CanPromote(old(s.store), old(s.execs), gid, addr) ==>
              !status.Ok? && s.store == old(s.store) && s.routes == old(s.routes)
    ensures status.Ok? ==>
              var g := old(s.store).groups[gid];
              var index := PositionOf(g.servers, addr);
              && (!g.promoting.state.PromoteFinished? ==> 0 < index < |g.servers|)
              && s.store == Apply(old(s.store), PutGroup(gid, Group(PromotedServers(g, index), NO_PROMOTION, false)))
              && s.store.groups[gid].servers[0].addr == addr
    ensures status.Ok? ==> GroupServes(s.Now(), gid)
    ensures status.Failed? ==> Hindered(old(s.InService()), old(s.faults), s.faults)
  {
    var open := s.NewContext();
    if !open { return Failed; }
    var index := CheckPromote(s.cache.groups, s.execs, gid, addr, s.store);
    if index == -1 { return Refused; }
    PromoteIndexOk(s, gid);
    PromotedFirst(s.store.groups[gid], index, addr);
    var ok, dirty := RunPromotion(s, gid, index);
    if dirty { s.LeaveGroup(gid); } else { s.OpenIsValid(); }
    status := if ok then Ok else Failed;
  }

  /** The checks before a promotion; -1 when one of them refuses. */
  method CheckPromote(groups: map<int, Group>, execs: multiset<Exec>, gid: int, addr: Addr, ghost st: Store)
      returns (index: int)
    requires groups == st.groups
    ensures index == -1 <==> !CanPromote(st, execs, gid, addr)
    ensures index != -1 ==> index == PositionOf(groups[gid].servers, addr) && 0 <= index < |groups[gid].servers|
  {
    if gid !in groups { return -1; }
    var g := groups[gid];
    index := GroupIndex(g, addr);
    if index == -1 { return -1; }
    assert index == PositionOf(g.servers, addr);
    if !g.promoting.state.Unpromoted? {
      if index != g.promoting.index { return -1; }
    } else if index == 0 {
      return -1;
    }
    if execs != multiset{} { return -1; }
  }

  /** The promoted server comes first. */
  lemma PromotedFirst(g: Group, index: int, addr: Addr)
    requires 0 <= index < |g.servers| && g.servers[index].addr == addr
    requires g.promoting.state.PromoteFinished? ==> index == 0
    requires !g.promoting.state.PromoteFinished? ==> 0 < index
    ensures |PromotedServers(g, index)| > 0 && PromotedServers(g, index)[0].addr == addr
  {
  }

  lemma PromoteIndexOk(s: Topom, gid: int)
    requires s.Traced() && gid in s.store.groups
    ensures Integrity.GroupOk(gid, s.store.groups[gid])
  {
    s.TracedInv();
  }
}
