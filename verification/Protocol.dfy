/**
 The resharding protocol as a transition system.  A world is the durable store, the routes every
 registered proxy currently holds, and the migration executors in flight.  One step is one store
 write that took effect, one slot of one FillSlots call that took effect, or an executor starting
 or ending; failed calls that had no effect are no step, failed calls that had one are.
 */
module Protocol {
  import opened Models
  import opened Context

  datatype Store = Store(slots: seq<SlotMapping>, groups: map<int, Group>, proxies: map<Token, Proxy>)

  function View(st: Store): Ctx {
    Ctx(st.slots, st.groups)
  }

  /** A running migration closure with what it captured when it was created. */
  datatype Exec = Exec(sid: nat, gid: int, target: int, from: Addr, dest: Addr)

  datatype World = World(store: Store, routes: map<Token, seq<Route>>, execs: multiset<Exec>)

  // ---------------------------------------------------------------- store writes

  datatype StoreOp =
    | PutSlot(sid: nat, m: SlotMapping)
    | PutGroup(gid: int, g: Group)
    | DropGroup(gid: int)
    | PutProxy(token: Token, p: Proxy)
    | DropProxy(token: Token)

  function Apply(st: Store, op: StoreOp): Store {
    match op
    case PutSlot(sid, m) => if sid < |st.slots| then st.(slots := st.slots[sid := m]) else st
    case PutGroup(gid, g) => st.(groups := st.groups[gid := g])
    case DropGroup(gid) => st.(groups := st.groups - {gid})
    case PutProxy(t, p) => st.(proxies := st.proxies[t := p])
    case DropProxy(t) => st.(proxies := st.proxies - {t})
  }

  function Advance(m: SlotMapping, state: ActionState): SlotMapping {
    m.(action := m.action.(state := state))
  }

  /** The edges of the slot state machine. */
  predicate SlotEdge(st: Store, sid: nat, m': SlotMapping) {
    sid < |st.slots| &&
    var m := st.slots[sid];
    match m.action.state
    case Nothing =>
      && m' == m.(action := Action(MaxSlotActionIndex(st.slots) + 1, Pending, m'.action.target))
      && Serving(st.groups, m'.action.target)
      && m'.action.target != m.gid
    case Pending => m' == SlotMapping(m.gid, NO_ACTION) || m' == Advance(m, Preparing)
    case Preparing => m' == Advance(m, Prepared)
    case Prepared => m' == Advance(m, Migrating)
    case Migrating => m' == Advance(m, Finished)
    case Finished => m' == SlotMapping(m.action.target, NO_ACTION)
  }

  /** An operator override (slots-assign): the mapping is replaced whatever its action was. */
  predicate OverrideEdge(st: Store, sid: nat, m': SlotMapping) {
    sid < |st.slots| && m'.action == NO_ACTION && (m'.gid == 0 || Serving(st.groups, m'.gid))
  }

  function Addrs(servers: seq<Server>): seq<Addr> {
    seq(|servers|, i requires 0 <= i < |servers| => servers[i].addr)
  }

  predicate HasAddr(groups: map<int, Group>, addr: Addr) {
    exists gid, i :: gid in groups && 0 <= i < |groups[gid].servers| && groups[gid].servers[i].addr == addr
  }

  function WithoutServer(servers: seq<Server>, index: int): seq<Server>
    requires 0 <= index < |servers|
  {
    servers[..index] + servers[index + 1..]
  }

  predicate AddServerEdge(st: Store, g: Group, g': Group) {
    && g.promoting.state.Unpromoted?
    && |g'.servers| == |g.servers| + 1
    && g' == g.(servers := g.servers + [g'.servers[|g.servers|]])
    && g'.servers[|g.servers|].addr != ""
    && !HasAddr(st.groups, g'.servers[|g.servers|].addr)
  }

  predicate DelServerEdge(st: Store, gid: int, g: Group, g': Group) {
    && g.promoting.state.Unpromoted?
    && g'.promoting == g.promoting
    && exists index | 0 <= index < |g.servers| ::
         && g'.servers == WithoutServer(g.servers, index)
         && (index == 0 ==> |g.servers| == 1 && !IsGroupInUse(st.slots, gid))
  }

  /** Only flags change: which servers serve reads, and whether the proxies may be out of date. */
  predicate FlagEdge(g: Group, g': Group) {
    g'.promoting == g.promoting && Addrs(g'.servers) == Addrs(g.servers)
  }

  /** The edges of the promotion state machine. */
  predicate PromoteEdge(g: Group, g': Group) {
    match g.promoting.state
    case Unpromoted =>
      && 0 < g'.promoting.index < |g.servers|
      && g' == g.(promoting := Promoting(g'.promoting.index, PromotePreparing))
    case PromotePreparing =>
      g' == g.(promoting := g.promoting.(state := PromotePrepared))
    case PromotePrepared =>
      && 0 < g.promoting.index < |g.servers|
      && g' == Group(PromoteServers(g.servers, g.promoting.index), Promoting(0, PromoteFinished), g.outOfSync)
    case PromoteFinished =>
      g' == Group(g.servers, NO_PROMOTION, false)
  }

  predicate GroupEdge(st: Store, gid: int, g': Group) {
    if gid in st.groups then
      var g := st.groups[gid];
      AddServerEdge(st, g, g') || DelServerEdge(st, gid, g, g') || FlagEdge(g, g') || PromoteEdge(g, g')
    else
      0 < gid <= MAX_GROUP_ID && g' == Group([], NO_PROMOTION, false)
  }

  predicate StoreEdge(st: Store, op: StoreOp) {
    match op
    case PutSlot(sid, m) => SlotEdge(st, sid, m)
    case PutGroup(gid, g) => GroupEdge(st, gid, g)
    case DropGroup(gid) => gid in st.groups && st.groups[gid].servers == []
    case PutProxy(_, _) => true
    case DropProxy(_) => true
  }

  // ---------------------------------------------------------------- steps of the whole system

  /** Every registered proxy holds exactly the route the given view prescribes for the slot. */
  ghost predicate Acked(w: World, c: Ctx, sid: nat) {
    sid < |c.slots| &&
    forall t :: t in w.routes ==> sid < |w.routes[t]| && w.routes[t][sid] == ToSlot(c.groups, c.slots[sid])
  }

  /** What must have been acknowledged, and what must not be running, before a store write. */
  ghost predicate Guard(w: World, op: StoreOp) {
    match op
    case PutSlot(sid, m) =>
      sid < |w.store.slots| &&
      (match w.store.slots[sid].action.state
       case Nothing | Pending => true
       case Preparing | Prepared => Acked(w, Ctx(w.store.slots[sid := m], w.store.groups), sid)
       case Migrating => forall e :: e in w.execs ==> e.sid != sid
       case Finished => Acked(w, View(w.store), sid))
    case PutGroup(gid, g) =>
      gid in w.store.groups && g.promoting.state != w.store.groups[gid].promoting.state ==>
        && w.execs == multiset{}
        && (g.promoting.state.PromotePrepared? ==>
              forall sid :: 0 <= sid < |w.store.slots| && Mentions(w.store.slots[sid], gid) ==>
                Acked(w, Ctx(w.store.slots, w.store.groups[gid := g]), sid))
        && (g.promoting.state.Unpromoted? ==>
              forall sid :: 0 <= sid < |w.store.slots| && Mentions(w.store.slots[sid], gid) ==>
                Acked(w, View(w.store), sid))
    case _ => true
  }

  /** The views a FillSlots call may be computed from: the stored one, or the stored one with one
      slot or one group already advanced to the state that is about to be written. */
  ghost predicate ViewOk(st: Store, sid: nat, c: Ctx) {
    && sid < |st.slots| == |c.slots|
    && (|| c == View(st)
        || (c.groups == st.groups && c.slots[sid] == Advance(st.slots[sid], Prepared)
            && st.slots[sid].action.state.Preparing?)
        || (c.groups == st.groups && c.slots[sid] == Advance(st.slots[sid], Migrating)
            && st.slots[sid].action.state.Prepared?)
        || (c.slots == st.slots && exists gid | gid in st.groups && st.groups[gid].promoting.state.PromotePreparing? ::
              c.groups == st.groups[gid :=
                  st.groups[gid].(promoting := st.groups[gid].promoting.(state := PromotePrepared))]))
  }

  function FreshRoutes(n: nat): seq<Route> {
    seq(n, _ => EMPTY_ROUTE)
  }

  function RoutesAfter(w: World, op: StoreOp): map<Token, seq<Route>> {
    match op
    case PutProxy(t, _) => if t in w.routes then w.routes else w.routes[t := FreshRoutes(|w.store.slots|)]
    case DropProxy(t) => w.routes - {t}
    case _ => w.routes
  }

  datatype Step =
    | Fill(token: Token, sid: nat, view: Ctx)
    | Write(op: StoreOp)
    | Shutdown(token: Token)
    | StartExec(sid: nat)
    | EndExec(e: Exec)

  ghost predicate StepBy(w: World, s: Step, w': World) {
    match s
    case Fill(t, sid, c) =>
      && t in w.routes && |w.routes[t]| == |w.store.slots|
      && ViewOk(w.store, sid, c)
      && w' == w.(routes := w.routes[t := w.routes[t][sid := ToSlot(c.groups, c.slots[sid])]])
    case Write(op) =>
      && StoreEdge(w.store, op) && Guard(w, op)
      && w' == World(Apply(w.store, op), RoutesAfter(w, op), w.execs)
    case Shutdown(t) =>
      && t in w.routes
      && w' == w.(routes := w.routes[t := FreshRoutes(|w.store.slots|)])
    case StartExec(sid) =>
      && sid < |w.store.slots|
      && var m := w.store.slots[sid];
      && m.action.state.Migrating?
      && !IsGroupPromoting(w.store.groups, m.gid) && !IsGroupPromoting(w.store.groups, m.action.target)
      && w' == w.(execs := w.execs + multiset{NewExec(w.store, sid)})
    case EndExec(e) =>
      && e in w.execs
      && w' == w.(execs := w.execs - multiset{e})
  }

  function NewExec(st: Store, sid: nat): Exec
    requires sid < |st.slots|
  {
    var m := st.slots[sid];
    Exec(sid, m.gid, m.action.target, GroupMaster(st.groups, m.gid), GroupMaster(st.groups, m.action.target))
  }

  ghost predicate Next(w: World, w': World) {
    exists s: Step :: StepBy(w, s, w')
  }

  ghost predicate Init(w: World) {
    && w.store == Store(seq(MAX_SLOT_NUM, _ => OFFLINE), map[], map[])
    && w.routes == map[]
    && w.execs == multiset{}
  }

  ghost predicate Run(tr: seq<World>) {
    && |tr| > 0 && Init(tr[0])
    && forall i :: 0 < i < |tr| ==> Next(tr[i - 1], tr[i])
  }
}
