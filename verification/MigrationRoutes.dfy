/** The routes the control plane installs are the modes the migration argument assumes. */
module MigrationRoutes {
  import opened Models
  import opened Context
  import opened Protocol
  import opened Routing
  import opened Integrity
  import Migration

  /** The stored authority of the slot is already its target group. */
  predicate Moved(m: SlotMapping) {
    m.action.state.Prepared? || m.action.state.Migrating? || m.action.state.Finished?
  }

  /** What a proxy holding this route does with the slot. */
  function ModeOf(m: SlotMapping, r: Route): Migration.Mode {
    if Quiet(r) then Migration.Blocked
    else if !Moved(m) then Migration.ToSource
    else if r.migrateFrom != "" then Migration.MigrateFirst
    else Migration.ToTarget
  }

  /** In every state of every run: no proxy serves from the source once the authority has moved, none
      serves from the target before, and migrate-from is dropped only when the action is finished or
      there was no source. */
  lemma RoutesGiveModes(tr: seq<World>, i: nat, t: Token, sid: nat)
    requires Run(tr) && i < |tr| && t in tr[i].routes && sid < |tr[i].store.slots|
    ensures sid < |tr[i].routes[t]|
    ensures var st := tr[i].store; var m := st.slots[sid]; var r := tr[i].routes[t][sid];
            match ModeOf(m, r)
            case Blocked => true
            case ToSource => !Moved(m) && r.backend == GroupMaster(st.groups, m.gid) && r.migrateFrom == ""
            case MigrateFirst =>
              && Moved(m) && r.backend == GroupMaster(st.groups, m.action.target)
              && r.migrateFrom == GroupMaster(st.groups, m.gid)
            case ToTarget =>
              && Moved(m) && r.backend == GroupMaster(st.groups, m.action.target)
              && (m.action.state.Finished? || m.gid == 0)
    ensures var m := tr[i].store.slots[sid];
            Migration.ModeAllowed(m.gid != 0, Moved(m), m.action.state.Finished?, ModeOf(m, tr[i].routes[t][sid]))
  {
    RunsKeepInv(tr, i);
    var st := tr[i].store;
    var m, r := st.slots[sid], tr[i].routes[t][sid];
    assert Quiet(r) || RouteOk(st.groups, m, r);
    assert SlotOk(st.groups, m);
    if Serving(st.groups, m.gid) { assert GroupOk(m.gid, st.groups[m.gid]); }
  }

  /** Only the write of the prepared state moves the authority, and its guard has every proxy locked. */
  lemma MoveIsPrepared(w: World, s: Step, w': World, sid: nat)
    requires StepBy(w, s, w') && sid < |w.store.slots| && sid < |w'.store.slots|
    requires !Moved(w.store.slots[sid]) && Moved(w'.store.slots[sid])
    ensures w'.store.slots[sid] == Advance(w.store.slots[sid], Prepared)
    ensures Acked(w, Ctx(w.store.slots[sid := w'.store.slots[sid]], w.store.groups), sid)
  {
    assert s == Write(PutSlot(sid, w'.store.slots[sid]));
  }

  /** The authority moves to the target only while no proxy serves the slot. */
  lemma SwitchOnlyBlocked(tr: seq<World>, i: nat, sid: nat, t: Token)
    requires Run(tr) && i + 1 < |tr| && t in tr[i].routes
    requires sid < |tr[i].store.slots| && sid < |tr[i + 1].store.slots|
    requires !Moved(tr[i].store.slots[sid]) && Moved(tr[i + 1].store.slots[sid])
    ensures sid < |tr[i].routes[t]| && Quiet(tr[i].routes[t][sid])
  {
    var w, w' := tr[i], tr[i + 1];
    assert Next(tr[i + 1 - 1], tr[i + 1]);
    var s: Step :| StepBy(w, s, w');
    MoveIsPrepared(w, s, w', sid);
    assert w.routes[t][sid] == ToSlot(w.store.groups, w'.store.slots[sid]);
  }

  // ---------------------------------------------------------------- every step of the control plane

  /** The migration state shows what the store and the proxies say about the slot; a proxy that is no
      longer registered does not serve it. */
  ghost predicate Mirrors(w: World, sid: nat, d: Migration.State) {
    && sid < |w.store.slots|
    && var m := w.store.slots[sid];
    && d.source == (m.gid != 0) && d.moved == Moved(m) && d.finished == m.action.state.Finished?
    && (forall t :: t in w.routes ==> t in d.modes && Held(w, t, sid) && d.modes[t] == ModeOf(m, w.routes[t][sid]))
    && (forall t :: t in d.modes && t !in w.routes ==> d.modes[t] == Migration.Blocked)
  }

  predicate Held(w: World, t: Token, sid: nat) {
    t in w.routes && sid < |w.routes[t]|
  }

  /** The route of the slot on this proxy is not what it was. */
  predicate Rerouted(w: World, w': World, t: Token, sid: nat) {
    Held(w, t, sid) != Held(w', t, sid) || (Held(w, t, sid) && w.routes[t][sid] != w'.routes[t][sid])
  }

  predicate Idle(d: Migration.State, t: Token) {
    forall id :: id in d.inflight ==> d.inflight[id].proxy != t
  }

  ghost predicate OneMove(d: Migration.State, d': Migration.State) {
    d' == d || exists a: Migration.Step :: Migration.Enabled(d, a) && d' == Migration.After(d, a)
  }

  lemma AllowedMode(w: World, t: Token, sid: nat)
    requires Inv(w) && Held(w, t, sid) && sid < |w.store.slots|
    ensures var m := w.store.slots[sid];
            Migration.ModeAllowed(m.gid != 0, Moved(m), m.action.state.Finished?, ModeOf(m, w.routes[t][sid]))
  {
    var st, m, r := w.store, w.store.slots[sid], w.routes[t][sid];
    assert Quiet(r) || RouteOk(st.groups, m, r);
    assert SlotOk(st.groups, m);
    if Serving(st.groups, m.gid) { assert GroupOk(m.gid, st.groups[m.gid]); }
  }

  function NewMode(w: World, t: Token, sid: nat): Migration.Mode
    requires sid < |w.store.slots|
  {
    if Held(w, t, sid) then ModeOf(w.store.slots[sid], w.routes[t][sid]) else Migration.Blocked
  }

  lemma RefillMirrors(w: World, w': World, sid: nat, t: Token, d: Migration.State)
    requires Mirrors(w, sid, d) && w'.store.slots == w.store.slots && (forall x :: x in w'.routes ==> Held(w', x, sid))
    requires forall x :: x != t ==> !Rerouted(w, w', x, sid)
    ensures Mirrors(w', sid, d.(modes := d.modes[t := NewMode(w', t, sid)]))
  {
    var m, modes := w.store.slots[sid], d.modes[t := NewMode(w', t, sid)];
    forall x | x in w'.routes
      ensures x in modes && modes[x] == ModeOf(m, w'.routes[x][sid])
    {
      assert x != t ==> !Rerouted(w, w', x, sid);
    }
    forall x | x in modes && x !in w'.routes
      ensures modes[x] == Migration.Blocked
    {
      assert x != t ==> !Rerouted(w, w', x, sid);
    }
  }

  /** One proxy gets another route, or comes or goes: a refill. */
  lemma RerouteMirrored(w: World, w': World, sid: nat, t: Token, d: Migration.State) returns (d': Migration.State)
    requires Inv(w') && Mirrors(w, sid, d) && Idle(d, t) && w'.store.slots == w.store.slots
    requires forall x :: x != t ==> !Rerouted(w, w', x, sid)
    ensures Mirrors(w', sid, d') && OneMove(d, d')
  {
    var a := Migration.Refill(t, NewMode(w', t, sid));
    if Held(w', t, sid) { AllowedMode(w', t, sid); }
    assert Migration.Enabled(d, a);
    d' := Migration.After(d, a);
    RefillMirrors(w, w', sid, t, d);
  }

  lemma LockedIsBlocked(w: World, m': SlotMapping, sid: nat, d: Migration.State)
    requires Mirrors(w, sid, d) && Guard(w, PutSlot(sid, m')) && m'.action.state.Prepared?
    requires w.store.slots[sid].action.state.Preparing?
    ensures Migration.Enabled(d, Migration.Switch)
    ensures forall t :: t in w.routes ==> Quiet(w.routes[t][sid])
  {
    forall t | t in w.routes ensures Quiet(w.routes[t][sid]) {}
  }

  /** The record changes, but nothing that the proxies' modes depend on. */
  lemma RecordMirrored(w: World, m': SlotMapping, w': World, sid: nat, d: Migration.State)
    requires Mirrors(w, sid, d) && w' == w.(store := Apply(w.store, PutSlot(sid, m')))
    requires var m := w.store.slots[sid];
             m'.gid == m.gid && (Moved(m') == Moved(m) || forall t :: t in w.routes ==> Quiet(w.routes[t][sid]))
    ensures Mirrors(w', sid, d.(moved := Moved(m'), finished := m'.action.state.Finished?))
  {
  }

  /** A write of the slot's own record. */
  lemma WriteMirrored(w: World, m': SlotMapping, w': World, sid: nat, d: Migration.State) returns (d': Migration.State)
    requires Mirrors(w, sid, d) && StepBy(w, Write(PutSlot(sid, m')), w') && !w.store.slots[sid].action.state.Finished?
    requires m'.action.state.Finished? ==> d.walk.Over? || !d.source
    ensures Mirrors(w', sid, d') && OneMove(d, d')
  {
    d' := d;
    if m'.action.state.Prepared? {
      LockedIsBlocked(w, m', sid, d);
      d' := Migration.After(d, Migration.Switch);
    } else if m'.action.state.Finished? {
      assert Migration.Enabled(d, Migration.Complete);
      d' := Migration.After(d, Migration.Complete);
    }
    RecordMirrored(w, m', w', sid, d);
  }

  lemma OnlyOneRerouted(w: World, s: Step, w': World, sid: nat, t: Token)
    requires WellFormed(w) && StepBy(w, s, w') && Rerouted(w, w', t, sid)
    ensures w'.store.slots == w.store.slots && forall x :: x != t ==> !Rerouted(w, w', x, sid)
  {
  }

  /** No proxy gets another route, and the slot's record stays. */
  lemma NothingMirrored(w: World, w': World, sid: nat, d: Migration.State)
    requires Mirrors(w, sid, d) && sid < |w'.store.slots| && w'.store.slots[sid] == w.store.slots[sid]
    requires (forall x :: x in w'.routes ==> Held(w', x, sid)) && forall x :: !Rerouted(w, w', x, sid)
    ensures Mirrors(w', sid, d)
  {
    forall t | t in w'.routes
      ensures t in d.modes && d.modes[t] == ModeOf(w.store.slots[sid], w'.routes[t][sid])
    {
      assert !Rerouted(w, w', t, sid);
    }
    forall t | t in d.modes && t !in w'.routes
      ensures d.modes[t] == Migration.Blocked
    {
      assert !Rerouted(w, w', t, sid);
    }
  }

  /** The finished state of the slot is stored here. */
  predicate Completes(w: World, w': World, sid: nat) {
    && sid < |w.store.slots| && sid < |w'.store.slots|
    && !w.store.slots[sid].action.state.Finished? && w'.store.slots[sid].action.state.Finished?
  }

  /** The finished action is dropped here: the migration is over. */
  predicate Ends(w: World, w': World, sid: nat) {
    && sid < |w.store.slots| && sid < |w'.store.slots|
    && w.store.slots[sid].action.state.Finished? && !w'.store.slots[sid].action.state.Finished?
  }

  lemma SlotKeptUnlessWritten(w: World, s: Step, w': World, sid: nat)
    requires StepBy(w, s, w') && sid < |w.store.slots| && !(s.Write? && s.op.PutSlot? && s.op.sid == sid)
    ensures sid < |w'.store.slots| && w'.store.slots[sid] == w.store.slots[sid]
  {
  }

  /** From the first fill to the finished state, every step of the control plane is one step of the
      migration or nothing, if fills find the proxy idle and the finished state is stored only when the
      walk is over. */
  lemma StepMirrored(w: World, s: Step, w': World, sid: nat, d: Migration.State) returns (d': Migration.State)
    requires Inv(w) && StepBy(w, s, w') && Mirrors(w, sid, d) && !Ends(w, w', sid)
    requires forall t :: Rerouted(w, w', t, sid) ==> Idle(d, t)
    requires Completes(w, w', sid) ==> d.walk.Over? || !d.source
    ensures Mirrors(w', sid, d') && OneMove(d, d')
  {
    assert Next(w, w');
    NextKeeps(w, w');
    if s.Write? && s.op.PutSlot? && s.op.sid == sid {
      d' := WriteMirrored(w, s.op.m, w', sid, d);
    } else if t :| Rerouted(w, w', t, sid) {
      OnlyOneRerouted(w, s, w', sid, t);
      d' := RerouteMirrored(w, w', sid, t, d);
    } else {
      SlotKeptUnlessWritten(w, s, w', sid);
      NothingMirrored(w, w', sid, d);
      d' := d;
    }
  }
}
