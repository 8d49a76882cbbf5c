/**
 Routing agreement.  Whatever store writes, fills and failures interleave, a proxy that serves a
 slot serves it from the master the stored state names, so no two proxies ever serve the same slot
 from different servers; and that master changes only while every proxy holds the slot locked.
 */
module Routing {
  import opened Models
  import opened Context
  import opened Protocol
  import opened Integrity

  /** The group whose master is the one place a slot may be served from. */
  function AuthGroup(m: SlotMapping): int {
    match m.action.state
    case Nothing | Pending | Preparing => m.gid
    case Prepared | Migrating | Finished => m.action.target
  }

  function Authority(st: Store, sid: nat): Addr
    requires sid < |st.slots|
  {
    GroupMaster(st.groups, AuthGroup(st.slots[sid]))
  }

  /** The proxy does not serve the slot: it is locked, or it was never given a backend. */
  predicate Quiet(r: Route) {
    r.locked || r.backend == ""
  }

  /** What a proxy serving a slot may be doing, by the stored state. */
  predicate RouteOk(groups: map<int, Group>, m: SlotMapping, r: Route) {
    && r.backend == GroupMaster(groups, AuthGroup(m))
    && !IsGroupLocked(groups, AuthGroup(m))
    && match m.action.state
       case Nothing | Pending | Preparing => r.migrateFrom == ""
       case Prepared | Migrating =>
         r.migrateFrom == GroupMaster(groups, m.gid) && !IsGroupLocked(groups, m.gid)
       case Finished =>
         r.migrateFrom == "" || (r.migrateFrom == GroupMaster(groups, m.gid) && !IsGroupLocked(groups, m.gid))
  }

  ghost predicate WellFormed(w: World) {
    && |w.store.slots| == MAX_SLOT_NUM
    && w.routes.Keys == w.store.proxies.Keys
    && forall t :: t in w.routes ==> |w.routes[t]| == |w.store.slots|
  }

  ghost predicate RoutesFollowStore(w: World) {
    forall t, sid :: t in w.routes && 0 <= sid < |w.store.slots| && sid < |w.routes[t]| ==>
      Quiet(w.routes[t][sid]) || RouteOk(w.store.groups, w.store.slots[sid], w.routes[t][sid])
  }

  /** A running migration still migrates the slot, between masters that are still the masters. */
  predicate ExecOk(st: Store, e: Exec) {
    && e.sid < |st.slots|
    && var m := st.slots[e.sid];
    && m.action.state.Migrating? && m.gid == e.gid && m.action.target == e.target
    && !IsGroupPromoting(st.groups, e.gid) && !IsGroupPromoting(st.groups, e.target)
    && e.from == GroupMaster(st.groups, e.gid) && e.dest == GroupMaster(st.groups, e.target)
  }

  ghost predicate ExecsOk(w: World) {
    forall e :: e in w.execs ==> ExecOk(w.store, e)
  }

  ghost predicate Inv(w: World) {
    WellFormed(w) && Intact(w.store) && RoutesFollowStore(w) && ExecsOk(w)
  }

  // ---------------------------------------------------------------- what a fill may install

  lemma ViewRouteOk(st: Store, sid: nat, c: Ctx)
    requires ViewOk(st, sid, c)
    ensures var r := ToSlot(c.groups, c.slots[sid]);
            Quiet(r) || RouteOk(st.groups, st.slots[sid], r)
  {
  }

  lemma FillKeeps(w: World, t: Token, sid: nat, c: Ctx, w': World)
    requires Inv(w) && StepBy(w, Fill(t, sid, c), w')
    ensures Inv(w')
  {
    ViewRouteOk(w.store, sid, c);
  }

  // ---------------------------------------------------------------- slot writes

  lemma AckedRoutes(w: World, c: Ctx, sid: nat)
    requires Acked(w, c, sid)
    ensures forall t :: t in w.routes ==>
              Quiet(w.routes[t][sid]) || RouteOk(c.groups, c.slots[sid], w.routes[t][sid])
  {
  }

  lemma PutSlotRoutes(w: World, sid: nat, m: SlotMapping)
    requires Inv(w) && SlotEdge(w.store, sid, m) && Guard(w, PutSlot(sid, m))
    ensures forall t :: t in w.routes ==>
              Quiet(w.routes[t][sid]) || RouteOk(w.store.groups, m, w.routes[t][sid])
  {
  }

  lemma PutSlotKeeps(w: World, sid: nat, m: SlotMapping, w': World)
    requires Inv(w) && StepBy(w, Write(PutSlot(sid, m)), w')
    ensures Inv(w')
  {
    EdgeKeepsIntegrity(w.store, PutSlot(sid, m));
    PutSlotRoutes(w, sid, m);
    forall e | e in w'.execs ensures ExecOk(w'.store, e) {
      assert ExecOk(w.store, e);
    }
  }

  // ---------------------------------------------------------------- group writes

  /** The group keeps its master and its lock, so nothing about any route changes. */
  predicate SameMaster(groups: map<int, Group>, gid: int, g': Group) {
    var groups' := groups[gid := g'];
    && GroupMaster(groups', gid) == GroupMaster(groups, gid)
    && IsGroupLocked(groups', gid) == IsGroupLocked(groups, gid)
  }

  lemma SameMasterRoutes(groups: map<int, Group>, gid: int, g': Group, m: SlotMapping, r: Route)
    requires SameMaster(groups, gid, g') && RouteOk(groups, m, r)
    ensures RouteOk(groups[gid := g'], m, r)
  {
  }

  /** While a group is locked no serving proxy depends on its master, so it may change. */
  lemma ReorderRoutes(groups: map<int, Group>, gid: int, g': Group, m: SlotMapping, r: Route)
    requires IsGroupLocked(groups, gid) && RouteOk(groups, m, r)
    requires m.action.state.Finished? ==> m.gid != gid || r.migrateFrom == "" || !IsGroupLocked(groups, m.gid)
    ensures RouteOk(groups[gid := g'], m, r)
  {
  }

  lemma InUseHasServer(st: Store, gid: int, sid: nat)
    requires Intact(st) && gid in st.groups && sid < |st.slots| && Mentions(st.slots[sid], gid)
    ensures st.groups[gid].servers != []
  {
  }

  lemma ServerEditKeepsMaster(st: Store, gid: int, g': Group, sid: nat)
    requires Intact(st) && gid in st.groups && sid < |st.slots| && Mentions(st.slots[sid], gid)
    requires var g := st.groups[gid];
             AddServerEdge(st, g, g') || DelServerEdge(st, gid, g, g') || FlagEdge(g, g')
    ensures SameMaster(st.groups, gid, g')
    ensures g'.promoting == st.groups[gid].promoting
  {
    InUseHasServer(st, gid, sid);
    var g := st.groups[gid];
    if FlagEdge(g, g') {
      assert |Addrs(g'.servers)| == |Addrs(g.servers)|;
      assert Addrs(g'.servers)[0] == Addrs(g.servers)[0];
    } else if DelServerEdge(st, gid, g, g') {
      var index :| 0 <= index < |g.servers| && g'.servers == WithoutServer(g.servers, index)
                   && (index == 0 ==> |g.servers| == 1 && !IsGroupInUse(st.slots, gid));
      assert index != 0;
    }
  }

  lemma MentionedRoutes(w: World, gid: int, g': Group, sid: nat, r: Route)
    requires Inv(w) && gid in w.store.groups && GroupEdge(w.store, gid, g') && Guard(w, PutGroup(gid, g'))
    requires sid < |w.store.slots| && Mentions(w.store.slots[sid], gid)
    requires exists t :: t in w.routes && w.routes[t][sid] == r
    ensures Quiet(r) || RouteOk(w.store.groups[gid := g'], w.store.slots[sid], r)
  {
    var st, g := w.store, w.store.groups[gid];
    var m := st.slots[sid];
    assert Quiet(r) || RouteOk(st.groups, m, r);
    if AddServerEdge(st, g, g') || DelServerEdge(st, gid, g, g') || FlagEdge(g, g') {
      ServerEditKeepsMaster(st, gid, g', sid);
      if !Quiet(r) { SameMasterRoutes(st.groups, gid, g', m, r); }
    } else {
      InUseHasServer(st, gid, sid);
      match g.promoting.state
      case Unpromoted => if !Quiet(r) { SameMasterRoutes(st.groups, gid, g', m, r); }
      case PromotePreparing =>
        assert Acked(w, Ctx(st.slots, st.groups[gid := g']), sid);
        AckedRoutes(w, Ctx(st.slots, st.groups[gid := g']), sid);
      case PromotePrepared => if !Quiet(r) { ReorderRoutes(st.groups, gid, g', m, r); }
      case PromoteFinished => if !Quiet(r) { SameMasterRoutes(st.groups, gid, g', m, r); }
    }
  }

  lemma GroupWriteKeepsExec(w: World, gid: int, g': Group, e: Exec)
    requires Inv(w) && GroupEdge(w.store, gid, g') && Guard(w, PutGroup(gid, g')) && e in w.execs
    ensures ExecOk(w.store.(groups := w.store.groups[gid := g']), e)
  {
    var st := w.store;
    assert ExecOk(st, e);
    assert SlotOk(st.groups, st.slots[e.sid]);
    if gid in st.groups && Mentions(st.slots[e.sid], gid) {
      var g := st.groups[gid];
      assert g.promoting.state.Unpromoted?;
      ServerEditKeepsMaster(st, gid, g', e.sid);
    }
  }

  lemma PutGroupKeeps(w: World, gid: int, g': Group, w': World)
    requires Inv(w) && StepBy(w, Write(PutGroup(gid, g')), w')
    ensures Inv(w')
  {
    EdgeKeepsIntegrity(w.store, PutGroup(gid, g'));
    forall t, sid | t in w.routes && 0 <= sid < |w.store.slots|
      ensures Quiet(w.routes[t][sid]) || RouteOk(w'.store.groups, w.store.slots[sid], w.routes[t][sid])
    {
      var m, r := w.store.slots[sid], w.routes[t][sid];
      assert Quiet(r) || RouteOk(w.store.groups, m, r);
      assert SlotOk(w.store.groups, m);
      if gid in w.store.groups && Mentions(m, gid) {
        MentionedRoutes(w, gid, g', sid, r);
      } else if !Quiet(r) {
        UnmentionedOrNew(w.store, gid, g', m, r);
      }
    }
    forall e | e in w'.execs ensures ExecOk(w'.store, e) {
      GroupWriteKeepsExec(w, gid, g', e);
    }
  }

  lemma UnmentionedOrNew(st: Store, gid: int, g': Group, m: SlotMapping, r: Route)
    requires SlotOk(st.groups, m) && GroupEdge(st, gid, g')
    requires gid in st.groups ==> !Mentions(m, gid)
    requires RouteOk(st.groups, m, r)
    ensures RouteOk(st.groups[gid := g'], m, r)
  {
  }

  lemma DropGroupKeeps(w: World, gid: int, w': World)
    requires Inv(w) && StepBy(w, Write(DropGroup(gid)), w')
    ensures Inv(w')
  {
    EdgeKeepsIntegrity(w.store, DropGroup(gid));
    forall t, sid | t in w.routes && 0 <= sid < |w.store.slots|
      ensures Quiet(w.routes[t][sid]) || RouteOk(w'.store.groups, w.store.slots[sid], w.routes[t][sid])
    {
      assert SlotOk(w.store.groups, w.store.slots[sid]);
    }
    forall e | e in w'.execs ensures ExecOk(w'.store, e) {
      assert ExecOk(w.store, e);
      assert SlotOk(w.store.groups, w.store.slots[e.sid]);
    }
  }

  // ---------------------------------------------------------------- proxies and executors

  lemma ProxyWriteKeeps(w: World, op: StoreOp, w': World)
    requires Inv(w) && (op.PutProxy? || op.DropProxy?) && StepBy(w, Write(op), w')
    ensures Inv(w')
  {
    forall e | e in w'.execs ensures ExecOk(w'.store, e) {
      assert ExecOk(w.store, e);
    }
  }

  lemma ShutdownKeeps(w: World, t: Token, w': World)
    requires Inv(w) && StepBy(w, Shutdown(t), w')
    ensures Inv(w')
  {
  }

  lemma ExecKeeps(w: World, s: Step, w': World)
    requires Inv(w) && (s.StartExec? || s.EndExec?) && StepBy(w, s, w')
    ensures Inv(w')
  {
    forall e | e in w'.execs ensures ExecOk(w'.store, e) {
      if e in w.execs {
        assert ExecOk(w.store, e);
      } else {
        assert e == NewExec(w.store, s.sid);
      }
    }
  }

  // ---------------------------------------------------------------- all runs

  lemma NextKeeps(w: World, w': World)
    requires Inv(w) && Next(w, w')
    ensures Inv(w')
  {
    var s: Step :| StepBy(w, s, w');
    match s
    case Fill(t, sid, c) => FillKeeps(w, t, sid, c, w');
    case Write(PutSlot(sid, m)) => PutSlotKeeps(w, sid, m, w');
    case Write(PutGroup(gid, g)) => PutGroupKeeps(w, gid, g, w');
    case Write(DropGroup(gid)) => DropGroupKeeps(w, gid, w');
    case Write(PutProxy(_, _)) => ProxyWriteKeeps(w, s.op, w');
    case Write(DropProxy(_)) => ProxyWriteKeeps(w, s.op, w');
    case Shutdown(t) => ShutdownKeeps(w, t, w');
    case StartExec(_) => ExecKeeps(w, s, w');
    case EndExec(_) => ExecKeeps(w, s, w');
  }

  lemma {:induction false} RunsKeepInv(tr: seq<World>, i: nat)
    requires Run(tr) && i < |tr|
    ensures Inv(tr[i])
  {
    if i > 0 {
      RunsKeepInv(tr, i - 1);
      NextKeeps(tr[i - 1], tr[i]);
    }
  }

  /** In every state of every run, two proxies that serve a slot serve it from the same server,
      and it is the one the stored state names. */
  lemma RoutingAgreement(tr: seq<World>, i: nat, p: Token, q: Token, sid: nat)
    requires Run(tr) && i < |tr|
    requires p in tr[i].store.proxies && q in tr[i].store.proxies && sid < |tr[i].store.slots|
    ensures p in tr[i].routes && q in tr[i].routes
    ensures |tr[i].routes[p]| == |tr[i].routes[q]| == |tr[i].store.slots|
    ensures var a, b := tr[i].routes[p][sid], tr[i].routes[q][sid];
            !Quiet(a) && !Quiet(b) ==> a.backend == b.backend == Authority(tr[i].store, sid)
  {
    RunsKeepInv(tr, i);
    var w := tr[i];
    assert p in w.routes && q in w.routes;
    assert Quiet(w.routes[p][sid]) || RouteOk(w.store.groups, w.store.slots[sid], w.routes[p][sid]);
    assert Quiet(w.routes[q][sid]) || RouteOk(w.store.groups, w.store.slots[sid], w.routes[q][sid]);
  }

  /** A step that changes slots or groups in the store changes no route. */
  lemma StoreMovesAlone(w: World, s: Step, w': World)
    requires StepBy(w, s, w') && (w'.store.slots != w.store.slots || w'.store.groups != w.store.groups)
    ensures w'.routes == w.routes
  {
  }

  /** A route that fits both before and after a change of authority serves nothing. */
  lemma QuietIfMoved(w: World, w': World, sid: nat, t: Token)
    requires RoutesFollowStore(w) && RoutesFollowStore(w') && w'.routes == w.routes
    requires t in w.routes && sid < |w.store.slots| == |w'.store.slots| == |w.routes[t]|
    requires Authority(w.store, sid) != Authority(w'.store, sid)
    ensures Quiet(w.routes[t][sid])
  {
  }

  /** If a step of a run changes the server a slot belongs to, no proxy was serving the slot. */
  lemma AuthorityChangesOnlyLocked(tr: seq<World>, i: nat, sid: nat, t: Token)
    requires Run(tr) && i + 1 < |tr|
    requires sid < |tr[i].store.slots| && sid < |tr[i + 1].store.slots|
    requires Authority(tr[i].store, sid) != Authority(tr[i + 1].store, sid)
    requires t in tr[i].routes
    ensures |tr[i].routes[t]| == |tr[i].store.slots| && Quiet(tr[i].routes[t][sid])
    ensures t in tr[i + 1].routes && tr[i + 1].routes[t] == tr[i].routes[t]
  {
    RunsKeepInv(tr, i);
    RunsKeepInv(tr, i + 1);
    assert Next(tr[i + 1 - 1], tr[i + 1]);
    var s: Step :| StepBy(tr[i], s, tr[i + 1]);
    StoreMovesAlone(tr[i], s, tr[i + 1]);
    QuietIfMoved(tr[i], tr[i + 1], sid, t);
  }

  /** While a migration runs, neither of its groups is in any promoting state, and the masters it
      captured are still the masters. */
  lemma MigrationExcludesPromotion(tr: seq<World>, i: nat, e: Exec)
    requires Run(tr) && i < |tr| && e in tr[i].execs
    ensures !IsGroupPromoting(tr[i].store.groups, e.gid) && !IsGroupPromoting(tr[i].store.groups, e.target)
    ensures e.from == GroupMaster(tr[i].store.groups, e.gid) && e.dest == GroupMaster(tr[i].store.groups, e.target)
  {
    RunsKeepInv(tr, i);
    assert ExecOk(tr[i].store, e);
  }
}
