/**
 What a proxy that is up to date does with a slot, read off the stored records: when it serves the
 slot, from which server, and from where it moves keys first.
 */
module Service {
  import opened Models
  import opened Context
  import opened Protocol
  import opened Integrity
  import opened Routing

  /** The group's servers are being swapped. */
  predicate Swapping(groups: map<int, Group>, gid: int) {
    gid in groups && groups[gid].promoting.state == PromotePrepared
  }

  /** The group that is in charge of the slot. */
  function Home(m: SlotMapping): int {
    if m.action.state in {Prepared, Migrating, Finished} then m.action.target else m.gid
  }

  /** Between the lock and the migration nobody serves the slot, and nobody serves from a group whose
      servers are being swapped; a migration needs the source as well. */
  predicate MayServe(groups: map<int, Group>, m: SlotMapping) {
    && m.action.state != Prepared
    && !Swapping(groups, Home(m))
    && (m.action.state == Migrating ==> !Swapping(groups, m.gid))
  }

  /** The address is that of the group's first server. */
  predicate IsFirst(groups: map<int, Group>, gid: int, addr: Addr) {
    gid in groups && |groups[gid].servers| > 0 && addr == groups[gid].servers[0].addr
  }

  /** ... or there is no server. */
  predicate FirstServer(groups: map<int, Group>, gid: int, addr: Addr) {
    IsFirst(groups, gid, addr) || (addr == "" && (gid in groups ==> groups[gid].servers == []))
  }

  /** The route is unlocked exactly when the slot may be served; it leads to the first server of the
      group in charge, and it names the first server of the source exactly when keys may still be
      there. */
  lemma RouteServes(groups: map<int, Group>, m: SlotMapping)
    ensures var r := ToSlot(groups, m);
            && (!r.locked <==> MayServe(groups, m))
            && FirstServer(groups, Home(m), r.backend)
            && (m.action.state in {Prepared, Migrating} ==> FirstServer(groups, m.gid, r.migrateFrom))
            && (m.action.state !in {Prepared, Migrating} ==> r.migrateFrom == "")
  {
  }

  /** This proxy serves the slot if and only if it may be served and has a group, from the first server
      of the group in charge, and while it is migrating from the first server of its old group. */
  ghost predicate Serves(w: World, t: Token, sid: nat) {
    && sid < |w.store.slots| && t in w.routes && sid < |w.routes[t]|
    && var groups, m, r := w.store.groups, w.store.slots[sid], w.routes[t][sid];
    && (!Quiet(r) <==> MayServe(groups, m) && Home(m) != 0)
    && (!Quiet(r) ==> IsFirst(groups, Home(m), r.backend))
    && (!Quiet(r) && m.action.state == Migrating && m.gid != 0 ==> IsFirst(groups, m.gid, r.migrateFrom))
    && (!Quiet(r) && (m.action.state != Migrating || m.gid == 0) ==> r.migrateFrom == "")
  }

  lemma HolderServes(w: World, t: Token, sid: nat)
    requires Inv(w) && sid < |w.store.slots| && t in w.routes && sid < |w.routes[t]|
    requires w.routes[t][sid] == ToSlot(w.store.groups, w.store.slots[sid])
    ensures Serves(w, t, sid)
  {
    var groups, m := w.store.groups, w.store.slots[sid];
    RouteServes(groups, m);
    assert SlotOk(groups, m);
    if Serving(groups, m.gid) { assert GroupOk(m.gid, groups[m.gid]); }
    if Serving(groups, m.action.target) { assert GroupOk(m.action.target, groups[m.action.target]); }
  }

  /** Every registered proxy serves the slot. */
  ghost predicate AllServe(w: World, sid: nat) {
    forall t :: t in w.routes ==> Serves(w, t, sid)
  }

  /** What was acknowledged still prescribes the same route. */
  lemma AckedServe(w: World, c: Ctx, sid: nat)
    requires Inv(w) && Acked(w, c, sid) && sid < |w.store.slots|
    requires ToSlot(c.groups, c.slots[sid]) == ToSlot(w.store.groups, w.store.slots[sid])
    ensures AllServe(w, sid)
  {
    forall t | t in w.routes ensures Serves(w, t, sid) { HolderServes(w, t, sid); }
  }

  /** A group that keeps its first server and is not being swapped changes no route. */
  lemma SameFirstSameRoute(groups: map<int, Group>, gid: int, g': Group, m: SlotMapping)
    requires gid in groups && g'.servers == groups[gid].servers
    requires groups[gid].promoting.state.PromotePrepared? <==> g'.promoting.state.PromotePrepared?
    ensures ToSlot(groups[gid := g'], m) == ToSlot(groups, m)
  {
  }

  /** Every registered proxy serves every slot of the group. */
  ghost predicate GroupServes(w: World, gid: int) {
    forall sid :: 0 <= sid < |w.store.slots| && Mentions(w.store.slots[sid], gid) ==> AllServe(w, sid)
  }

  lemma AckedGroupServes(w: World, c: Ctx, gid: int, g': Group)
    requires Inv(w) && gid in c.groups && w.store.slots == c.slots && w.store.groups == c.groups[gid := g']
    requires g'.servers == c.groups[gid].servers
    requires c.groups[gid].promoting.state.PromotePrepared? <==> g'.promoting.state.PromotePrepared?
    requires forall sid :: 0 <= sid < |c.slots| && Mentions(c.slots[sid], gid) ==> Acked(w, c, sid)
    ensures GroupServes(w, gid)
  {
    forall sid | 0 <= sid < |w.store.slots| && Mentions(w.store.slots[sid], gid)
      ensures AllServe(w, sid)
    {
      SameFirstSameRoute(c.groups, gid, g', c.slots[sid]);
      AckedServe(w, c, sid);
    }
  }

  /** The proxy serves every slot. */
  ghost predicate ServesAll(w: World, t: Token) {
    forall sid: nat :: sid < |w.store.slots| ==> Serves(w, t, sid)
  }
}
