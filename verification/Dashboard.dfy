/**
 Whole runs of the dashboard: any sequence of its operations, with any arguments and any failures,
 keeps the routing, integrity, exclusion and cache guarantees at every intermediate point.
 */
module Dashboard {
  import opened Models
  import opened Context
  import opened Protocol
  import opened Cache
  import opened Topom
  import opened Service
  import opened Scheduler
  import opened TopomSlots
  import opened TopomGroup
  import opened TopomProxy
  import opened TopomRebalance
  import opened Integrity
  import opened Routing

  datatype Request =
    | CreateAction(sid: int, gid: int)
    | CreateActionSome(from: int, to: int, count: int)
    | CreateActionRange(beg: int, end: int, gid: int, must: bool)
    | RemoveAction(sid: int)
    | PrepareAction(k: Marks)
    | CompleteAction(sid: int)
    | Rebalance(confirm: bool)
    | StartMigration(sid: int)
    | EndMigration(e: Exec)
    | NewGroup(gid: int)
    | DeleteGroup(gid: int)
    | SyncGroup(gid: int)
    | AddServer(gid: int, addr: Addr)
    | DelServer(gid: int, addr: Addr)
    | Promote(gid: int, addr: Addr)
    | Register(token: Token, mustBeNew: bool)
    | Reinit(token: Token)
    | Unregister(token: Token)
    | SetDisabled(value: bool)
    | ReloadCache
    | Stop
    | RestartDashboard

  /** The executors are as before, but for the one that the request starts or ends. */
  ghost predicate ExecsKept(q: Request, was: multiset<Exec>, execs: multiset<Exec>) {
    && (forall e: Exec :: q != StartMigration(e.sid) ==> execs[e] <= was[e])
    && (forall e: Exec :: q != EndMigration(e) && q != RestartDashboard ==> execs[e] >= was[e])
  }

  /** The slot whose action the request completes. */
  function Completes(q: Request): int {
    if q.CompleteAction? then q.sid else -1
  }

  // ---------------------------------------------------------------- what a request is for

  /** A request about slots that succeeded has done this. */
  ghost predicate SlotsDone(q: Request, disabled: bool, w: World, w': World) {
    var st, st' := w.store, w'.store;
    match q
    case CreateAction(sid, gid) =>
      CanCreate(st, sid, gid) && st' == Apply(st, PutSlot(sid, NewAction(st.slots, sid, gid)))
    case CreateActionSome(from, to, count) =>
      var sids := Take(MovableSlots(st, 0, |st.slots|, to, Some(from)), count);
      Serving(st.groups, to) && StartedAll(st, st', EachTo(sids, to))
    case CreateActionRange(beg, end, gid, must) =>
      RangeOk(st, beg, end, gid, must) && StartedAll(st, st', EachTo(MovableSlots(st, beg, end + 1, gid, None), gid))
    case RemoveAction(sid) =>
      CanRemove(st, sid) && st' == Apply(st, PutSlot(sid, SlotMapping(st.slots[sid].gid, NO_ACTION)))
    case PrepareAction(k) =>
      || (NothingToChoose(st.slots, disabled, k) && st' == st)
      || exists sid :: WasPrepared(st, st', disabled, k, sid)
    case CompleteAction(sid) =>
      && CanComplete(st, sid) && AllServe(w', sid)
      && st' == Apply(st, PutSlot(sid, SlotMapping(st.slots[sid].action.target, NO_ACTION)))
    case Rebalance(confirm) => exists plans :: Rebalanced(st, st', confirm, plans)
    case StartMigration(sid) => CanComplete(st, sid) && st' == st
    case EndMigration(e) => e in w.execs && w'.execs == w.execs - multiset{e} && st' == st
    case _ => true
  }

  ghost predicate StartedAll(st: Store, st': Store, plan: seq<(nat, int)>) {
    PlanOk(st, plan) && st' == st.(slots := StartAll(st.slots, plan))
  }

  /** The chosen slot is migrating, or its migration has come to its end. */
  ghost predicate WasPrepared(st: Store, st': Store, disabled: bool, k: Marks, sid: nat) {
    Chosen(st.slots, disabled, k, sid) && OnlyAdvanced(st, st', sid) && CanComplete(st', sid)
  }

  ghost predicate Rebalanced(st: Store, st': Store, confirm: bool, plans: map<nat, int>) {
    && (exists gids :: GoodPlan(st, gids, plans))
    && if confirm then Started(st, st', plans) else st' == st
  }

  /** A request about slots is refused only in these cases. */
  ghost predicate SlotsRefuse(q: Request, w: World) {
    var st := w.store;
    match q
    case CreateAction(sid, gid) => !CanCreate(st, sid, gid)
    case CreateActionSome(_, to, _) => !Serving(st.groups, to)
    case CreateActionRange(beg, end, gid, must) => !RangeOk(st, beg, end, gid, must)
    case RemoveAction(sid) => !CanRemove(st, sid)
    case CompleteAction(sid) => !CanComplete(st, sid) || exists e :: e in w.execs && e.sid == sid
    case Rebalance(_) => forall g :: !Serving(st.groups, g)
    case StartMigration(sid) => !CanComplete(st, sid)
    case EndMigration(e) => e !in w.execs
    case _ => false
  }

  ghost predicate GroupsDone(q: Request, w: World, w': World) {
    var st, st' := w.store, w'.store;
    match q
    case NewGroup(gid) => CanCreateGroup(st, gid) && st' == Apply(st, PutGroup(gid, Group([], NO_PROMOTION, false)))
    case DeleteGroup(gid) => CanRemoveGroup(st, gid) && st' == Apply(st, DropGroup(gid))
    case SyncGroup(gid) => gid in st.groups && GroupServes(w', gid)
    case AddServer(gid, addr) =>
      && CanAddServer(st, gid, addr)
      && var g := st.groups[gid];
      && st' == Apply(st, PutGroup(gid, g.(servers := g.servers + [Server(addr, false)])))
    case DelServer(gid, addr) =>
      && CanDelServer(st, gid, addr)
      && var g := st.groups[gid];
      && st' == Apply(st, PutGroup(gid, GroupWithout(g, PositionOf(g.servers, addr))))
    case Promote(gid, addr) =>
      && CanPromote(st, w.execs, gid, addr) && gid in st'.groups && st'.groups[gid].promoting == NO_PROMOTION
      && IsFirst(st'.groups, gid, addr) && GroupServes(w', gid)
    case _ => true
  }

  ghost predicate GroupsRefuse(q: Request, w: World) {
    match q
    case NewGroup(gid) => !CanCreateGroup(w.store, gid)
    case DeleteGroup(gid) => !CanRemoveGroup(w.store, gid)
    case SyncGroup(gid) => gid !in w.store.groups
    case AddServer(gid, addr) => !CanAddServer(w.store, gid, addr)
    case DelServer(gid, addr) => !CanDelServer(w.store, gid, addr)
    case Promote(gid, addr) => !CanPromote(w.store, w.execs, gid, addr)
    case _ => false
  }

  ghost predicate ProxiesDone(q: Request, w: World, w': World) {
    match q
    case Register(t, mustBeNew) =>
      && (mustBeNew ==> t !in w.store.proxies)
      && Registered(w.store.proxies, w'.store.proxies, t) && ServesAll(w', t)
    case Reinit(t) => t in w.store.proxies && w'.store == w.store && ServesAll(w', t)
    case Unregister(t) => t in w.store.proxies && w'.store == Apply(w.store, DropProxy(t))
    case RestartDashboard => w'.store == w.store && w'.execs == multiset{}
    case _ => true
  }

  ghost predicate ProxiesRefuse(q: Request, w: World) {
    match q
    case Register(t, mustBeNew) => mustBeNew && t in w.store.proxies
    case Reinit(t) => t !in w.store.proxies
    case Unregister(t) => t !in w.store.proxies
    case _ => false
  }

  predicate IsGroupRequest(q: Request) {
    q.NewGroup? || q.DeleteGroup? || q.SyncGroup? || q.AddServer? || q.DelServer? || q.Promote?
  }

  predicate IsProxyRequest(q: Request) {
    || q.Register? || q.Reinit? || q.Unregister?
    || q.SetDisabled? || q.ReloadCache? || q.Stop? || q.RestartDashboard?
  }

  predicate IsSlotRequest(q: Request) {
    !IsGroupRequest(q) && !IsProxyRequest(q)
  }

  // ---------------------------------------------------------------- serving requests

  method ServeSlots(s: Topom, q: Request) returns (status: Status)
    requires s.Valid() && IsSlotRequest(q)
    modifies s
    ensures s.Valid() && old(s.trace) <= s.trace && ExecsKept(q, old(s.execs), s.execs)
    ensures UnderwayKept(old(s.store).slots, s.store.slots, Completes(q))
    ensures status.Ok? ==> SlotsDone(q, old(s.disabled), old(s.Now()), s.Now())
    ensures status.Refused? ==> SlotsRefuse(q, old(s.Now()))
    ensures status.Failed? ==> Hindered(old(s.InService()), old(s.faults), s.faults)
  {
    if q.PrepareAction? || q.CompleteAction? || q.Rebalance? {
      status := ServeActions(s, q);
    } else if q.StartMigration? || q.EndMigration? {
      status := ServeExecutors(s, q);
    } else {
      status := ServeNewActions(s, q);
    }
  }

  method ServeNewActions(s: Topom, q: Request) returns (status: Status)
    requires s.Valid() && (q.CreateAction? || q.CreateActionSome? || q.CreateActionRange? || q.RemoveAction?)
    modifies s
    ensures s.Valid() && old(s.trace) <= s.trace && s.execs == old(s.execs)
    ensures UnderwayKept(old(s.store).slots, s.store.slots, -1)
    ensures status.Ok? ==> SlotsDone(q, old(s.disabled), old(s.Now()), s.Now())
    ensures status.Refused? ==> SlotsRefuse(q, old(s.Now()))
    ensures status.Failed? ==> Hindered(old(s.InService()), old(s.faults), s.faults)
  {
    match q
    case CreateAction(sid, gid) => status := SlotCreateAction(s, sid, gid);
    case CreateActionSome(from, to, count) => status := SlotCreateActionSome(s, from, to, count);
    case CreateActionRange(beg, end, gid, must) => status := SlotCreateActionRange(s, beg, end, gid, must);
    case RemoveAction(sid) => status := SlotRemoveAction(s, sid);
  }

  method ServeActions(s: Topom, q: Request) returns (status: Status)
    requires s.Valid() && (q.PrepareAction? || q.CompleteAction? || q.Rebalance?)
    modifies s
    ensures s.Valid() && old(s.trace) <= s.trace && s.execs == old(s.execs)
    ensures UnderwayKept(old(s.store).slots, s.store.slots, Completes(q))
    ensures status.Ok? ==> SlotsDone(q, old(s.disabled), old(s.Now()), s.Now())
    ensures status.Refused? ==> SlotsRefuse(q, old(s.Now()))
    ensures status.Failed? ==> Hindered(old(s.InService()), old(s.faults), s.faults)
  {
    match q
    case PrepareAction(k) =>
      var picked, marks;
      picked, status, marks := SlotActionPrepareFilter(s, k);
      if picked.Some? && status.Ok? { assert WasPrepared(old(s.store), s.store, old(s.disabled), k, picked.value); }
    case CompleteAction(sid) =>
      // The worker of a slot completes it only after its own executor has returned.
      status := Refused;
      if forall e :: e in s.execs ==> e.sid != sid {
        status := SlotActionComplete(s, sid);
      }
    case Rebalance(confirm) =>
      var plans;
      status, plans := SlotsRebalance(s, confirm);
      if status.Ok? { assert Rebalanced(old(s.store), s.store, confirm, plans); }
  }

  method ServeExecutors(s: Topom, q: Request) returns (status: Status)
    requires s.Valid() && (q.StartMigration? || q.EndMigration?)
    modifies s
    ensures s.Valid() && old(s.trace) <= s.trace && ExecsKept(q, old(s.execs), s.execs) && s.store == old(s.store)
    ensures status.Ok? ==> SlotsDone(q, old(s.disabled), old(s.Now()), s.Now())
    ensures status.Refused? ==> SlotsRefuse(q, old(s.Now()))
    ensures status.Failed? ==> Hindered(old(s.InService()), old(s.faults), s.faults)
  {
    match q
    case StartMigration(sid) =>
      var x;
      status, x := NewSlotActionExecutor(s, sid);
    case EndMigration(e) =>
      status := Refused;
      if e in s.execs {
        s.EndExecutor(e);
        status := Ok;
      }
  }

  method ServeGroups(s: Topom, q: Request) returns (status: Status)
    requires s.Valid() && IsGroupRequest(q)
    modifies s
    ensures s.Valid() && old(s.trace) <= s.trace && s.execs == old(s.execs) && s.store.slots == old(s.store).slots
    ensures status.Ok? ==> GroupsDone(q, old(s.Now()), s.Now())
    ensures status.Refused? ==> GroupsRefuse(q, old(s.Now()))
    ensures status.Failed? ==> Hindered(old(s.InService()), old(s.faults), s.faults)
  {
    match q
    case NewGroup(gid) => status := CreateGroup(s, gid);
    case DeleteGroup(gid) => status := RemoveGroup(s, gid);
    case SyncGroup(gid) => status := ResyncGroup(s, gid);
    case AddServer(gid, addr) => status := GroupAddServer(s, gid, addr);
    case DelServer(gid, addr) => status := GroupDelServer(s, gid, addr);
    case Promote(gid, addr) => status := GroupPromoteServer(s, gid, addr);
  }

  method ServeProxies(s: Topom, q: Request) returns (status: Status)
    requires s.Valid() && IsProxyRequest(q)
    modifies s
    ensures s.Valid() && old(s.trace) <= s.trace && ExecsKept(q, old(s.execs), s.execs)
    ensures UnderwayKept(old(s.store).slots, s.store.slots, -1)
    ensures status.Ok? ==> ProxiesDone(q, old(s.Now()), s.Now())
    ensures status.Refused? ==> ProxiesRefuse(q, old(s.Now()))
    ensures status.Failed? ==> Hindered(old(s.InService()), old(s.faults), s.faults)
  {
    status := Ok;
    match q
    case Register(t, mustBeNew) => status := RegisterProxy(s, t, mustBeNew);
    case Reinit(t) => status := ReinitProxy(s, t);
    case Unregister(t) => status := RemoveProxy(s, t);
    case SetDisabled(value) => s.disabled := value;
    case ReloadCache => status := s.Reload();
    case Stop => s.closed := true;
    case RestartDashboard => s.Restart();
  }

  /** What a request is for. */
  ghost predicate Done(q: Request, disabled: bool, w: World, w': World) {
    if IsGroupRequest(q) then GroupsDone(q, w, w')
    else if IsProxyRequest(q) then ProxiesDone(q, w, w')
    else SlotsDone(q, disabled, w, w')
  }

  ghost predicate Refuses(q: Request, w: World) {
    if IsGroupRequest(q) then GroupsRefuse(q, w)
    else if IsProxyRequest(q) then ProxiesRefuse(q, w)
    else SlotsRefuse(q, w)
  }

  /** Serve one request: it does what it is for, or it is refused for a reason, or something failed. */
  method Serve(s: Topom, q: Request) returns (status: Status)
    requires s.Valid()
    modifies s
    ensures s.Valid() && old(s.trace) <= s.trace && ExecsKept(q, old(s.execs), s.execs)
    ensures UnderwayKept(old(s.store).slots, s.store.slots, Completes(q))
    ensures status.Ok? ==> Done(q, old(s.disabled), old(s.Now()), s.Now())
    ensures status.Refused? ==> Refuses(q, old(s.Now()))
    ensures status.Failed? ==> Hindered(old(s.InService()), old(s.faults), s.faults)
  {
    if IsGroupRequest(q) {
      status := ServeGroups(s, q);
    } else if IsProxyRequest(q) {
      status := ServeProxies(s, q);
    } else {
      status := ServeSlots(s, q);
    }
  }

  /** Requests that leave the worker of a slot alone: only the worker starts, ends and completes. */
  ghost predicate LeavesAlone(qs: seq<Request>, sid: nat) {
    && StartMigration(sid) !in qs && CompleteAction(sid) !in qs && RestartDashboard !in qs
    && forall e: Exec :: e.sid == sid ==> EndMigration(e) !in qs
  }

  /** The slot was under way and is as it was. */
  ghost predicate StillUnderway(slots: seq<SlotMapping>, slots': seq<SlotMapping>, sid: nat) {
    sid < |slots| && slots[sid].action.state in {Migrating, Finished} ==> sid < |slots'| && slots'[sid] == slots[sid]
  }

  method ServeMany(s: Topom, qs: seq<Request>, ghost sid: nat)
    requires s.Valid()
    modifies s
    ensures s.Valid() && old(s.trace) <= s.trace
    ensures LeavesAlone(qs, sid) ==>
              && (forall e: Exec :: e.sid == sid ==> s.execs[e] == old(s.execs)[e])
              && StillUnderway(old(s.store).slots, s.store.slots, sid)
    ensures qs == [] ==> s.InService() == old(s.InService()) && s.faults == old(s.faults)
  {
    for k := 0 to |qs|
      invariant s.Valid() && old(s.trace) <= s.trace
      invariant LeavesAlone(qs, sid) ==> forall e: Exec :: e.sid == sid ==> s.execs[e] == old(s.execs)[e]
      invariant LeavesAlone(qs, sid) ==> StillUnderway(old(s.store).slots, s.store.slots, sid)
      invariant k == 0 ==> s.InService() == old(s.InService()) && s.faults == old(s.faults)
    {
      assert qs[k] in qs;
      var _ := Serve(s, qs[k]);
    }
  }

  /** Two proxies that serve the slot in this world serve it from the same server. */
  ghost predicate Agree(w: World) {
    forall p, q, sid ::
      && p in w.routes && q in w.routes
      && 0 <= sid < |w.routes[p]| && sid < |w.routes[q]|
      && !Quiet(w.routes[p][sid]) && !Quiet(w.routes[q][sid])
      ==> w.routes[p][sid].backend == w.routes[q][sid].backend
  }

  lemma InvAgrees(w: World)
    requires Inv(w)
    ensures Agree(w)
  {
    forall p, q, sid |
      && p in w.routes && q in w.routes
      && 0 <= sid < |w.routes[p]| && sid < |w.routes[q]|
      && !Quiet(w.routes[p][sid]) && !Quiet(w.routes[q][sid])
      ensures w.routes[p][sid].backend == w.routes[q][sid].backend
    {
      assert RouteOk(w.store.groups, w.store.slots[sid], w.routes[p][sid]);
      assert RouteOk(w.store.groups, w.store.slots[sid], w.routes[q][sid]);
    }
  }

  /** After every effect of every operation of every run, the proxies agree, the store is intact and
      running migrations hold current masters. */
  method ServeAll(s: Topom, requests: seq<Request>)
    requires s.Valid()
    modifies s
    ensures s.Valid() && old(s.trace) <= s.trace
    ensures forall i :: 0 <= i < |s.trace| ==>
              Agree(s.trace[i]) && Intact(s.trace[i].store) && ExecsOk(s.trace[i])
  {
    ServeMany(s, requests, 0);
    forall i | 0 <= i < |s.trace|
      ensures Agree(s.trace[i]) && Intact(s.trace[i].store) && ExecsOk(s.trace[i])
    {
      RunsKeepInv(s.trace, i);
      InvAgrees(s.trace[i]);
    }
  }

  lemma ActionsHaveTargets(s: Topom)
    requires s.Valid()
    ensures forall sid: nat :: sid < |s.store.slots| && !s.store.slots[sid].action.state.Nothing? ==>
        s.store.slots[sid].action.target != 0
  {
    forall sid: nat | sid < |s.store.slots| && !s.store.slots[sid].action.state.Nothing?
      ensures s.store.slots[sid].action.target != 0
    {
      s.ActionHasTarget(sid);
    }
  }

  /** One pick of the planning loop: the slot, the mapping it had when it was picked, the new marks. */
  method PlanOne(s: Topom, k: Marks, plans: map<nat, SlotMapping>)
      returns (picked: Option<nat>, status: Status, k': Marks, plans': map<nat, SlotMapping>)
    requires s.Valid() && MarksFor(k, plans) && Disjoint(plans)
    modifies s
    ensures s.Valid() && old(s.trace) <= s.trace
    ensures MarksFor(k', plans') && Disjoint(plans')
    ensures s.InService() == old(s.InService()) && s.faults >= old(s.faults) && !status.Refused?
    ensures status.Failed? ==> Hindered(s.InService(), old(s.faults), s.faults)
    ensures picked.None? ==> plans' == plans && k' == k
    ensures picked.None? && status.Ok? ==> NothingToChoose(s.store.slots, s.disabled, k)
    ensures picked.Some? ==>
              && Chosen(old(s.store).slots, old(s.disabled), k, picked.value)
              && plans' == plans[picked.value := old(s.store).slots[picked.value]] && |plans'| == |plans| + 1
  {
    var slots := s.store.slots;
    ActionsHaveTargets(s);
    picked, status, k' := SlotActionPrepareFilter(s, k);
    plans' := plans;
    if picked.Some? {
      UpdateKeepsDisjoint(k, plans, picked.value, slots[picked.value]);
      plans' := plans[picked.value := slots[picked.value]];
    }
  }

  /** ProcessSlotAction's planning loop: the slots picked for one round, with the mapping each had
      when it was picked.  Other requests may be served between two picks. */
  method PlanRound(s: Topom, parallelSlots: int, between: seq<seq<Request>>)
      returns (plans: map<nat, SlotMapping>, status: Status)
    requires s.Valid()
    modifies s
    ensures s.Valid() && old(s.trace) <= s.trace && Disjoint(plans)
    ensures var parallel := if parallelSlots > 1 then parallelSlots else 1;
            && |plans| <= parallel
            && (status.Ok? && |plans| < parallel ==> Saturated(s.store.slots, s.disabled, plans))
    ensures !status.Refused?
    ensures status.Failed? && between == [] ==> Hindered(old(s.InService()), old(s.faults), s.faults)
  {
    plans := map[];
    var k := NO_MARKS;
    var parallel := if parallelSlots > 1 then parallelSlots else 1;
    status := Ok;
    while parallel > |plans|
      invariant s.Valid() && old(s.trace) <= s.trace
      invariant MarksFor(k, plans) && Disjoint(plans) && |plans| <= parallel && status.Ok?
      invariant between == [] ==> s.InService() == old(s.InService()) && s.faults >= old(s.faults)
      decreases parallel - |plans|
    {
      var picked;
      picked, status, k, plans := PlanOne(s, k, plans);
      if picked.None? && status.Ok? { NothingToChooseSaturated(s.store.slots, s.disabled, k, plans); }
      if picked.None? || !status.Ok? { return; }
      if |between| > |plans| { ServeMany(s, between[|plans|], 0); }
    }
  }
}
