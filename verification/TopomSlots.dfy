/** The slot operations of the dashboard. */
module TopomSlots {
  import opened Models
  import opened Context
  import opened Protocol
  import opened Cache
  import opened Topom
  import opened Service
  import opened Scheduler
  import Integrity
  import Routing

  method ComputeMaxIndex(slots: seq<SlotMapping>) returns (maxIndex: int)
    ensures maxIndex == MaxSlotActionIndex(slots)
  {
    maxIndex := 0;
    for i := 0 to |slots|
      invariant maxIndex == MaxSlotActionIndex(slots[..i])
    {
      assert slots[..i + 1][..i] == slots[..i];
      if !slots[i].action.state.Nothing? && slots[i].action.index > maxIndex {
        maxIndex := slots[i].action.index;
      }
    }
    assert slots[..|slots|] == slots;
  }

  /** Every slot whose migration is under way, but for the given one, is as before. */
  ghost predicate UnderwayKept(slots: seq<SlotMapping>, slots': seq<SlotMapping>, but: int) {
    && |slots'| == |slots|
    && forall sid :: 0 <= sid < |slots| && sid != but && slots[sid].action.state in {Migrating, Finished} ==>
         slots'[sid] == slots[sid]
  }

  /** A slot that may be given a migration to the group. */
  predicate CanCreate(st: Store, sid: int, gid: int) {
    && Serving(st.groups, gid)
    && 0 <= sid < |st.slots|
    && st.slots[sid].action.state.Nothing?
    && st.slots[sid].gid != gid
  }

  /** The mapping a new migration starts from. */
  function NewAction(slots: seq<SlotMapping>, sid: nat, gid: int): SlotMapping
    requires sid < |slots|
  {
    slots[sid].(action := Action(MaxSlotActionIndex(slots) + 1, Pending, gid))
  }

  /** Put one new migration into the cache and the store. */
  method StartAction(s: Topom, sid: nat, gid: int) returns (ok: bool)
    requires s.Open() && CanCreate(s.store, sid, gid)
    modifies s`cache, s`store, s`routes, s`trace, s`faults
    ensures s.faults >= old(s.faults) + (if ok then 0 else 1)
    ensures s.OpenButSlot(sid) && old(s.trace) <= s.trace
    ensures s.routes == old(s.routes) && (ok ==> s.Open())
    ensures || s.store == Apply(old(s.store), PutSlot(sid, NewAction(old(s.store).slots, sid, gid)))
            || (!ok && s.store == old(s.store))
  {
    var maxIndex := ComputeMaxIndex(s.cache.slots);
    s.PokeSlot(sid, s.cache.slots[sid].(action := Action(maxIndex + 1, Pending, gid)));
    ok := s.WriteSlot(sid, s.cache.slots[sid]);
  }

  method SlotCreateAction(s: Topom, sid: int, gid: int) returns (status: Status)
    requires s.Valid()
    modifies s
    ensures s.Valid() && old(s.trace) <= s.trace
    ensures s.routes == old(s.routes) && s.execs == old(s.execs)
    ensures status.Refused? ==> !CanCreate(old(s.store), sid, gid)
    ensures !CanCreate(old(s.store), sid, gid) ==> !status.Ok? && s.store == old(s.store)
    ensures CanCreate(old(s.store), sid, gid) ==>
              || s.store == Apply(old(s.store), PutSlot(sid, NewAction(old(s.store).slots, sid, gid)))
              || (!status.Ok? && s.store == old(s.store))
    ensures status.Failed? ==> Hindered(old(s.InService()), old(s.faults), s.faults)
  {
    var open := s.NewContext();
    if !open { return Failed; }
    if gid !in s.cache.groups { return Refused; }
    if s.cache.groups[gid].servers == [] { return Refused; }
    if !(0 <= sid < |s.cache.slots|) { return Refused; }
    if !s.cache.slots[sid].action.state.Nothing? { return Refused; }
    if s.cache.slots[sid].gid == gid { return Refused; }
    var ok := StartAction(s, sid, gid);
    s.LeaveSlots(sid, []);
    status := if ok then Ok else Failed;
  }

  // ---------------------------------------------------------------- several slots in one operation

  /** The slots after starting the planned migrations one after the other. */
  function StartAll(slots: seq<SlotMapping>, plan: seq<(nat, int)>): (r: seq<SlotMapping>)
    requires forall i :: 0 <= i < |plan| ==> plan[i].0 < |slots|
    ensures |r| == |slots|
  {
    if plan == [] then slots
    else
      var (sid, gid) := plan[|plan| - 1];
      var before := StartAll(slots, plan[..|plan| - 1]);
      before[sid := NewAction(before, sid, gid)]
  }

  ghost predicate Planned(plan: seq<(nat, int)>, sid: nat) {
    exists i :: 0 <= i < |plan| && plan[i].0 == sid
  }

  /** Distinct slots, each of which may be given the planned migration. */
  ghost predicate PlanOk(st: Store, plan: seq<(nat, int)>) {
    && (forall i :: 0 <= i < |plan| ==> CanCreate(st, plan[i].0, plan[i].1))
    && (forall i, j :: 0 <= i < j < |plan| ==> plan[i].0 != plan[j].0)
  }

  lemma {:induction false} StartAllAt(slots: seq<SlotMapping>, plan: seq<(nat, int)>, sid: nat)
    requires forall i :: 0 <= i < |plan| ==> plan[i].0 < |slots|
    requires sid < |slots|
    ensures !Planned(plan, sid) ==> StartAll(slots, plan)[sid] == slots[sid]
  {
    if plan != [] && !Planned(plan, sid) {
      var front := plan[..|plan| - 1];
      assert plan[|plan| - 1].0 != sid;
      forall i | 0 <= i < |front| ensures front[i].0 != sid { assert plan[i].0 != sid; }
      StartAllAt(slots, front, sid);
    }
  }

  lemma {:induction false} StartAllMax(slots: seq<SlotMapping>, plan: seq<(nat, int)>)
    requires forall i :: 0 <= i < |plan| ==> plan[i].0 < |slots|
    ensures MaxSlotActionIndex(StartAll(slots, plan)) >= MaxSlotActionIndex(slots)
  {
    if plan != [] {
      var n := |plan| - 1;
      var before := StartAll(slots, plan[..n]);
      StartAllMax(slots, plan[..n]);
      var sid := plan[n].0;
      assert StartAll(slots, plan)[sid].action.index == MaxSlotActionIndex(before) + 1;
    }
  }

  /** The planned slots get indices above all existing ones. */
  lemma {:induction false} StartAllPlanned(slots: seq<SlotMapping>, plan: seq<(nat, int)>, i: nat)
    requires forall i :: 0 <= i < |plan| ==> plan[i].0 < |slots|
    requires forall i, j :: 0 <= i < j < |plan| ==> plan[i].0 != plan[j].0
    requires i < |plan|
    ensures var m := StartAll(slots, plan)[plan[i].0];
            && m.gid == slots[plan[i].0].gid
            && m.action.state.Pending? && m.action.target == plan[i].1
            && m.action.index > MaxSlotActionIndex(slots)
  {
    var n := |plan| - 1;
    var front := plan[..n];
    var before := StartAll(slots, front);
    var (sid, gid) := plan[n];
    assert StartAll(slots, plan) == before[sid := NewAction(before, sid, gid)];
    if i < n {
      StartAllPlanned(slots, front, i);
      assert front[i] == plan[i] && plan[i].0 != sid;
    } else {
      StartAllMax(slots, front);
      assert !Planned(front, sid);
      StartAllAt(slots, front, sid);
    }
  }

  /** The first `k` planned migrations have been started. */
  ghost predicate StartedPrefix(st: Store, st': Store, plan: seq<(nat, int)>, k: nat) {
    && k <= |plan| && (forall i :: 0 <= i < |plan| ==> plan[i].0 < |st.slots|)
    && st' == st.(slots := StartAll(st.slots, plan[..k]))
  }

  lemma StartedKeepsUnderway(st: Store, st': Store, plan: seq<(nat, int)>)
    requires PlanOk(st, plan) && exists k: nat :: StartedPrefix(st, st', plan, k)
    ensures UnderwayKept(st.slots, st'.slots, -1)
  {
    var k: nat :| StartedPrefix(st, st', plan, k);
    forall sid | 0 <= sid < |st.slots| && st.slots[sid].action.state in {Migrating, Finished}
      ensures st'.slots[sid] == st.slots[sid]
    {
      forall i | 0 <= i < k ensures plan[..k][i].0 != sid { assert CanCreate(st, plan[i].0, plan[i].1); }
      StartAllAt(st.slots, plan[..k], sid);
    }
  }

  method StartNth(s: Topom, plan: seq<(nat, int)>, i: nat, ghost st: Store) returns (ok: bool)
    requires s.Open() && PlanOk(st, plan) && i < |plan| && StartedPrefix(st, s.store, plan, i)
    modifies s`cache, s`store, s`routes, s`trace, s`faults
    ensures s.faults >= old(s.faults) + (if ok then 0 else 1)
    ensures s.OpenButSlot(plan[i].0) && old(s.trace) <= s.trace && s.routes == old(s.routes) && (ok ==> s.Open())
    ensures StartedPrefix(st, s.store, plan, i + 1) || (!ok && StartedPrefix(st, s.store, plan, i))
  {
    var (sid, gid) := plan[i];
    assert CanCreate(s.store, sid, gid) by {
      assert CanCreate(st, plan[i].0, plan[i].1);
      assert !Planned(plan[..i], sid);
      StartAllAt(st.slots, plan[..i], sid);
    }
    assert plan[..i + 1][..i] == plan[..i];
    ok := StartAction(s, sid, gid);
  }

  /** Start planned migrations until one store write fails. */
  method StartActions(s: Topom, plan: seq<(nat, int)>) returns (status: Status)
    requires s.Open() && PlanOk(s.store, plan)
    modifies s
    ensures s.Valid() && old(s.trace) <= s.trace
    ensures s.routes == old(s.routes) && s.execs == old(s.execs)
    ensures !status.Refused? && (status.Failed? ==> s.faults > old(s.faults))
    ensures exists k: nat :: StartedPrefix(old(s.store), s.store, plan, k) && (status.Ok? ==> k == |plan|)
  {
    ghost var st := s.store;
    var sids: seq<nat> := [];
    forall i | 0 <= i < |plan| ensures plan[i].0 < |st.slots| { assert CanCreate(st, plan[i].0, plan[i].1); }
    for i := 0 to |plan|
      invariant s.Open() && old(s.trace) <= s.trace && s.faults >= old(s.faults)
      invariant s.routes == old(s.routes) && s.execs == old(s.execs)
      invariant StartedPrefix(st, s.store, plan, i)
    {
      var ok := StartNth(s, plan, i, st);
      sids := sids + [plan[i].0];
      if !ok {
        s.LeaveSlots(plan[i].0, sids);
        return Failed;
      }
    }
    if plan != [] {
      s.LeaveSlots(plan[|plan| - 1].0, sids);
    }
    status := Ok;
  }

  function EachTo(sids: seq<nat>, gid: int): seq<(nat, int)> {
    seq(|sids|, i requires 0 <= i < |sids| => (sids[i], gid))
  }

  /** A slot the group could take; `from` restricts it to slots of one group. */
  predicate Movable(st: Store, sid: nat, gid: int, from: Option<int>) {
    CanCreate(st, sid, gid) && (from.Some? ==> st.slots[sid].gid == from.value)
  }

  /** The movable slots of a range, in order. */
  function MovableSlots(st: Store, beg: nat, end: nat, gid: int, from: Option<int>): seq<nat>
    requires beg <= end
    decreases end
  {
    if beg == end then []
    else if Movable(st, end - 1, gid, from) then MovableSlots(st, beg, end - 1, gid, from) + [end - 1]
    else MovableSlots(st, beg, end - 1, gid, from)
  }

  /** Exactly the movable slots of the range, each once, in increasing order. */
  ghost predicate ListsMovable(st: Store, beg: nat, end: nat, gid: int, from: Option<int>, r: seq<nat>) {
    && (forall sid: nat :: sid in r <==> beg <= sid < end && Movable(st, sid, gid, from))
    && (forall i, j :: 0 <= i < j < |r| ==> r[i] < r[j])
  }

  lemma ListsOneMore(st: Store, beg: nat, end: nat, gid: int, from: Option<int>, r: seq<nat>)
    requires beg <= end && ListsMovable(st, beg, end, gid, from, r)
    ensures ListsMovable(st, beg, end + 1, gid, from, if Movable(st, end, gid, from) then r + [end] else r)
  {
    forall i | 0 <= i < |r| ensures r[i] < end { assert r[i] in r; }
  }

  lemma {:induction false} MovableSlotsExact(st: Store, beg: nat, end: nat, gid: int, from: Option<int>)
    requires beg <= end
    ensures ListsMovable(st, beg, end, gid, from, MovableSlots(st, beg, end, gid, from))
    decreases end
  {
    if beg < end {
      MovableSlotsExact(st, beg, end - 1, gid, from);
      ListsOneMore(st, beg, end - 1, gid, from, MovableSlots(st, beg, end - 1, gid, from));
    }
  }

  lemma {:induction false} MovableSlotsPrefix(st: Store, k: nat, end: nat, gid: int, from: Option<int>)
    requires k <= end
    ensures MovableSlots(st, 0, k, gid, from) <= MovableSlots(st, 0, end, gid, from)
    decreases end
  {
    if k < end { MovableSlotsPrefix(st, k, end - 1, gid, from); }
  }

  /** As many as asked for, from the front, or all if there are fewer. */
  function Take(sids: seq<nat>, count: int): (r: seq<nat>)
    ensures r <= sids && (|r| == count || (count < 0 && r == []) || (|sids| < count && r == sids))
  {
    if count <= 0 then [] else if count < |sids| then sids[..count] else sids
  }

  /** The first movable slots of the group, at most as many as asked for. */
  method CollectSome(st: Store, from: int, to: int, count: int) returns (pending: seq<nat>)
    requires Serving(st.groups, to)
    ensures pending == Take(MovableSlots(st, 0, |st.slots|, to, Some(from)), count)
  {
    pending := [];
    for i := 0 to |st.slots|
      invariant pending == MovableSlots(st, 0, i, to, Some(from))
      invariant |pending| <= count || pending == []
    {
      if |pending| >= count {
        MovableSlotsPrefix(st, i, |st.slots|, to, Some(from));
        return;
      }
      var m := st.slots[i];
      if !m.action.state.Nothing? { continue; }
      if m.gid != from { continue; }
      if m.gid == to { continue; }
      pending := pending + [i];
    }
  }

  method CollectRange(st: Store, beg: nat, end: nat, gid: int, must: bool) returns (pending: seq<nat>, ok: bool)
    requires beg <= end < |st.slots| && Serving(st.groups, gid)
    ensures ok ==> pending == MovableSlots(st, beg, end + 1, gid, None)
    ensures ok <==> (must ==> forall sid :: beg <= sid <= end ==> CanCreate(st, sid, gid))
  {
    pending := [];
    for sid := beg to end + 1
      invariant pending == MovableSlots(st, beg, sid, gid, None)
      invariant must ==> forall k :: beg <= k < sid ==> CanCreate(st, k, gid)
    {
      var m := st.slots[sid];
      if !m.action.state.Nothing? || m.gid == gid {
        assert !CanCreate(st, sid, gid);
        if !must { continue; }
        return [], false;
      }
      pending := pending + [sid];
    }
    ok := true;
  }

  lemma EachToOk(st: Store, beg: nat, end: nat, gid: int, from: Option<int>, count: int)
    requires beg <= end
    ensures PlanOk(st, EachTo(Take(MovableSlots(st, beg, end, gid, from), count), gid))
    ensures PlanOk(st, EachTo(MovableSlots(st, beg, end, gid, from), gid))
  {
    MovableSlotsExact(st, beg, end, gid, from);
    var all := MovableSlots(st, beg, end, gid, from);
    forall i | 0 <= i < |all| ensures CanCreate(st, all[i], gid) {
      assert all[i] in all;
    }
  }

  method SlotCreateActionSome(s: Topom, groupFrom: int, groupTo: int, numSlots: int) returns (status: Status)
    requires s.Valid()
    modifies s
    ensures s.Valid() && old(s.trace) <= s.trace
    ensures s.routes == old(s.routes) && s.execs == old(s.execs)
    ensures status.Refused? ==> !Serving(old(s.store).groups, groupTo)
    ensures !Serving(old(s.store).groups, groupTo) ==> !status.Ok? && s.store == old(s.store)
    ensures status.Ok? ==>
              var sids := Take(MovableSlots(old(s.store), 0, |old(s.store).slots|, groupTo, Some(groupFrom)), numSlots);
              && PlanOk(old(s.store), EachTo(sids, groupTo))
              && s.store == old(s.store).(slots := StartAll(old(s.store).slots, EachTo(sids, groupTo)))
    ensures UnderwayKept(old(s.store).slots, s.store.slots, -1)
    ensures status.Failed? ==> Hindered(old(s.InService()), old(s.faults), s.faults)
  {
    var open := s.NewContext();
    if !open { return Failed; }
    if groupTo !in s.cache.groups { return Refused; }
    if s.cache.groups[groupTo].servers == [] { return Refused; }
    var pending := CollectSome(Store(s.cache.slots, s.cache.groups, s.cache.proxies), groupFrom, groupTo, numSlots);
    EachToOk(s.store, 0, |s.store.slots|, groupTo, Some(groupFrom), numSlots);
    var plan := EachTo(pending, groupTo);
    ghost var st := s.store;
    status := StartActions(s, plan);
    StartedKeepsUnderway(st, s.store, plan);
    assert plan[..|plan|] == plan;
  }

  ghost predicate RangeOk(st: Store, beg: int, end: int, gid: int, must: bool) {
    && 0 <= beg <= end < |st.slots|
    && Serving(st.groups, gid)
    && (must ==> forall sid :: beg <= sid <= end ==> CanCreate(st, sid, gid))
  }

  method SlotCreateActionRange(s: Topom, beg: int, end: int, gid: int, must: bool) returns (status: Status)
    requires s.Valid()
    modifies s
    ensures s.Valid() && old(s.trace) <= s.trace
    ensures s.routes == old(s.routes) && s.execs == old(s.execs)
    ensures status.Refused? ==> !RangeOk(old(s.store), beg, end, gid, must)
    ensures !RangeOk(old(s.store), beg, end, gid, must) ==> !status.Ok? && s.store == old(s.store)
    ensures status.Ok? ==>
              var plan := EachTo(MovableSlots(old(s.store), beg, end + 1, gid, None), gid);
              PlanOk(old(s.store), plan) && s.store == old(s.store).(slots := StartAll(old(s.store).slots, plan))
    ensures UnderwayKept(old(s.store).slots, s.store.slots, -1)
    ensures status.Failed? ==> Hindered(old(s.InService()), old(s.faults), s.faults)
  {
    var open := s.NewContext();
    if !open { return Failed; }
    if !(0 <= beg <= end < |s.cache.slots|) { return Refused; }
    if gid !in s.cache.groups { return Refused; }
    if s.cache.groups[gid].servers == [] { return Refused; }
    var pending, ok := CollectRange(Store(s.cache.slots, s.cache.groups, s.cache.proxies), beg, end, gid, must);
    if !ok { return Refused; }
    EachToOk(s.store, beg, end + 1, gid, None, 0);
    var plan := EachTo(pending, gid);
    ghost var st := s.store;
    status := StartActions(s, plan);
    StartedKeepsUnderway(st, s.store, plan);
    assert plan[..|plan|] == plan;
  }

  // ---------------------------------------------------------------- removing a pending action

  predicate CanRemove(st: Store, sid: int) {
    0 <= sid < |st.slots| && st.slots[sid].action.state.Pending?
  }

  method SlotRemoveAction(s: Topom, sid: int) returns (status: Status)
    requires s.Valid()
    modifies s
    ensures s.Valid() && old(s.trace) <= s.trace
    ensures s.routes == old(s.routes) && s.execs == old(s.execs)
    ensures status.Refused? ==> !CanRemove(old(s.store), sid)
    ensures !CanRemove(old(s.store), sid) ==> !status.Ok? && s.store == old(s.store)
    ensures CanRemove(old(s.store), sid) ==>
              || s.store == Apply(old(s.store), PutSlot(sid, SlotMapping(old(s.store).slots[sid].gid, NO_ACTION)))
              || (!status.Ok? && s.store == old(s.store))
    ensures status.Failed? ==> Hindered(old(s.InService()), old(s.faults), s.faults)
  {
    var open := s.NewContext();
    if !open { return Failed; }
    if !(0 <= sid < |s.cache.slots|) { return Refused; }
    var m := s.cache.slots[sid];
    if !m.action.state.Pending? { return Refused; }
    var ok := s.WriteSlot(sid, SlotMapping(m.gid, NO_ACTION));
    s.LeaveSlots(sid, []);
    status := if ok then Ok else Failed;
  }

  // ---------------------------------------------------------------- driving an action forward

  /** pending to preparing: a store write only. */
  method ToPreparing(s: Topom, sid: nat) returns (ok: bool)
    requires s.Open() && sid < |s.store.slots| && s.store.slots[sid].action.state.Pending?
    modifies s`cache, s`store, s`routes, s`trace, s`faults
    ensures s.faults >= old(s.faults) + (if ok then 0 else 1)
    ensures s.OpenButSlot(sid) && old(s.trace) <= s.trace && (ok ==> s.Open())
    ensures || s.store == Apply(old(s.store), PutSlot(sid, Advance(old(s.store).slots[sid], Preparing)))
            || (!ok && s.store == old(s.store))
  {
    s.PokeSlot(sid, Advance(s.cache.slots[sid], Preparing));
    ok := s.WriteSlot(sid, s.cache.slots[sid]);
  }

  /** preparing to prepared: lock the slot on every proxy, then write; roll the proxies back if any
      of them failed. */
  method ToPrepared(s: Topom, sid: nat) returns (ok: bool)
    requires s.Open() && sid < |s.store.slots| && s.store.slots[sid].action.state.Preparing?
    modifies s`cache, s`store, s`routes, s`trace, s`faults
    ensures s.faults >= old(s.faults) + (if ok then 0 else 1)
    ensures s.OpenButSlot(sid) && old(s.trace) <= s.trace && (ok ==> s.Open())
    ensures || s.store == Apply(old(s.store), PutSlot(sid, Advance(old(s.store).slots[sid], Prepared)))
            || (!ok && s.store == old(s.store))
    ensures s.store != old(s.store) ==> Acked(s.Now(), View(s.store), sid)
  {
    var m := s.cache.slots[sid];
    s.PokeSlot(sid, Advance(m, Prepared));
    ok := s.ResyncSlot(sid);
    if !ok {
      s.PokeSlot(sid, m);
      assert s.cache.slots == s.store.slots;
      var _ := s.ResyncSlot(sid);
      return false;
    }
    ok := s.WriteSlot(sid, s.cache.slots[sid]);
  }

  lemma NowServe(s: Topom, c: Ctx, sid: nat)
    requires s.Traced() && Acked(s.Now(), c, sid) && sid < |s.store.slots|
    requires ToSlot(c.groups, c.slots[sid]) == ToSlot(s.store.groups, s.store.slots[sid])
    ensures AllServe(s.Now(), sid)
  {
    s.TracedInv();
    AckedServe(s.Now(), c, sid);
  }

  /** prepared to migrating: unlock the slot towards its new group, then write. */
  method ToMigrating(s: Topom, sid: nat) returns (ok: bool)
    requires s.Open() && sid < |s.store.slots| && s.store.slots[sid].action.state.Prepared?
    modifies s`cache, s`store, s`routes, s`trace, s`faults
    ensures s.faults >= old(s.faults) + (if ok then 0 else 1)
    ensures s.OpenButSlot(sid) && old(s.trace) <= s.trace && (ok ==> s.Open())
    ensures || s.store == Apply(old(s.store), PutSlot(sid, Advance(old(s.store).slots[sid], Migrating)))
            || (!ok && s.store == old(s.store))
    ensures s.store != old(s.store) ==> Acked(s.Now(), View(s.store), sid)
    ensures ok ==> AllServe(s.Now(), sid)
  {
    s.PokeSlot(sid, Advance(s.cache.slots[sid], Migrating));
    ok := s.ResyncSlot(sid);
    if !ok { return; }
    ok := s.WriteSlot(sid, s.cache.slots[sid]);
    if ok {
      NowServe(s, View(s.store), sid);
    }
  }

  /** How far an action has come. */
  function Progress(state: ActionState): nat {
    match state
    case Nothing => 0
    case Pending => 1
    case Preparing => 2
    case Prepared => 3
    case Migrating => 4
    case Finished => 5
  }

  /** The store differs at most in how far the one slot's action has come, and it has not gone back. */
  ghost predicate OnlyAdvanced(st: Store, st': Store, sid: nat) {
    && sid < |st.slots|
    && exists state ::
         && Progress(st.slots[sid].action.state) <= Progress(state)
         && st' == st.(slots := st.slots[sid := Advance(st.slots[sid], state)])
  }

  lemma AdvanceAgain(st: Store, st': Store, sid: nat, state: ActionState)
    requires OnlyAdvanced(st, st', sid) && Progress(st'.slots[sid].action.state) <= Progress(state)
    ensures OnlyAdvanced(st, Apply(st', PutSlot(sid, Advance(st'.slots[sid], state))), sid)
  {
    var st'' := Apply(st', PutSlot(sid, Advance(st'.slots[sid], state)));
    assert st'' == st.(slots := st.slots[sid := Advance(st.slots[sid], state)]);
  }

  /** The migration is under way or has come to its end. */
  predicate CanComplete(st: Store, sid: int) {
    0 <= sid < |st.slots| && (st.slots[sid].action.state.Migrating? || st.slots[sid].action.state.Finished?)
  }

  /** Take the chosen action as far as prepared, if it is not there yet. */
  method DriveToPrepared(s: Topom, sid: nat) returns (ok: bool)
    requires s.Open() && sid < |s.store.slots| && !s.store.slots[sid].action.state.Nothing?
    modifies s`cache, s`store, s`routes, s`trace, s`faults
    ensures s.faults >= old(s.faults) + (if ok then 0 else 1)
    ensures s.OpenButSlot(sid) && old(s.trace) <= s.trace && OnlyAdvanced(old(s.store), s.store, sid)
    ensures ok ==> s.Open() && s.store.slots[sid].action.state in {Prepared, Migrating, Finished}
    ensures old(s.store).slots[sid].action.state in {Prepared, Migrating, Finished} ==>
              ok && s.Open() && s.store == old(s.store)
    ensures old(s.store).slots[sid].action.state !in {Prepared, Migrating, Finished} ==>
              ok ==> s.store.slots[sid].action.state == Prepared
  {
    ghost var st0 := s.store;
    assert st0 == st0.(slots := st0.slots[sid := Advance(st0.slots[sid], st0.slots[sid].action.state)]);
    ok := true;
    if s.cache.slots[sid].action.state.Pending? {
      AdvanceAgain(st0, s.store, sid, Preparing);
      ok := ToPreparing(s, sid);
      if !ok { return; }
    }
    if s.cache.slots[sid].action.state.Preparing? {
      AdvanceAgain(st0, s.store, sid, Prepared);
      ok := ToPrepared(s, sid);
    }
  }

  /** Take the chosen action as far as migrating. */
  method Drive(s: Topom, sid: nat) returns (ok: bool)
    requires s.Open() && sid < |s.store.slots| && !s.store.slots[sid].action.state.Nothing?
    modifies s`cache, s`store, s`routes, s`trace, s`faults
    ensures s.faults >= old(s.faults) + (if ok then 0 else 1)
    ensures s.OpenButSlot(sid) && old(s.trace) <= s.trace && OnlyAdvanced(old(s.store), s.store, sid)
    ensures ok ==> CanComplete(s.store, sid)
    ensures old(s.store).slots[sid].action.state in {Migrating, Finished} ==> s.Open() && s.store == old(s.store)
    ensures ok ==> old(s.store).slots[sid].action.state in {Migrating, Finished} || AllServe(s.Now(), sid)
  {
    ghost var st0 := s.store;
    ok := DriveToPrepared(s, sid);
    if ok && s.cache.slots[sid].action.state.Prepared? {
      AdvanceAgain(st0, s.store, sid, Migrating);
      ok := ToMigrating(s, sid);
    }
  }

  /** The rest of the operation once a slot has been picked. */
  method DrivePicked(s: Topom, sid: nat) returns (ok: bool)
    requires s.Open() && sid < |s.store.slots| && !s.store.slots[sid].action.state.Nothing?
    modifies s`cache, s`store, s`routes, s`trace, s`faults, s`hooks
    ensures s.Valid() && old(s.trace) <= s.trace && s.faults >= old(s.faults) + (if ok then 0 else 1)
    ensures OnlyAdvanced(old(s.store), s.store, sid) && UnderwayKept(old(s.store).slots, s.store.slots, -1)
    ensures ok ==> CanComplete(s.store, sid)
    ensures ok ==> old(s.store).slots[sid].action.state in {Migrating, Finished} || AllServe(s.Now(), sid)
  {
    var dirty := s.cache.slots[sid].action.state !in {Migrating, Finished};
    ok := Drive(s, sid);
    if dirty { s.LeaveSlots(sid, []); } else { s.OpenIsValid(); }
  }

  /** SlotActionPrepareFilter with the filters of a planning round. */
  method SlotActionPrepareFilter(s: Topom, k: Marks) returns (picked: Option<nat>, status: Status, k': Marks)
    requires s.Valid()
    modifies s
    ensures s.Valid() && old(s.trace) <= s.trace && s.execs == old(s.execs) && s.disabled == old(s.disabled)
    ensures s.InService() == old(s.InService()) && s.faults >= old(s.faults)
    ensures !status.Refused? && UnderwayKept(old(s.store).slots, s.store.slots, -1)
    ensures picked.None? ==> s.store == old(s.store) && k' == k
    ensures picked.None? && status.Ok? ==> NothingToChoose(old(s.store).slots, old(s.disabled), k)
    ensures picked.Some? ==>
              && Chosen(old(s.store).slots, old(s.disabled), k, picked.value)
              && k' == Update(k, picked.value, old(s.store).slots[picked.value])
              && OnlyAdvanced(old(s.store), s.store, picked.value)
    ensures picked.Some? && status.Ok? ==>
              CanComplete(s.store, picked.value)
    ensures picked.Some? && status.Ok? ==>
              old(s.store).slots[picked.value].action.state in {Migrating, Finished} || AllServe(s.Now(), picked.value)
    ensures status.Failed? ==> Hindered(old(s.InService()), old(s.faults), s.faults)
  {
    k', picked := k, None;
    var open := s.NewContext();
    if !open { return None, Failed, k; }
    picked := Pick(s.cache.slots, s.disabled, k);
    if picked.None? { return None, Ok, k; }
    var sid := picked.value;
    k' := Update(k, sid, s.cache.slots[sid]);
    var ok := DrivePicked(s, sid);
    status := if ok then Ok else Failed;
  }

  // ---------------------------------------------------------------- completing an action

  method ToFinished(s: Topom, sid: nat) returns (ok: bool)
    requires s.Open() && sid < |s.store.slots| && s.store.slots[sid].action.state.Migrating?
    requires forall e :: e in s.execs ==> e.sid != sid
    modifies s`cache, s`store, s`routes, s`trace, s`faults
    ensures s.faults >= old(s.faults) + (if ok then 0 else 1)
    ensures s.OpenButSlot(sid) && old(s.trace) <= s.trace && (ok ==> s.Open())
    ensures || s.store == Apply(old(s.store), PutSlot(sid, Advance(old(s.store).slots[sid], Finished)))
            || (!ok && s.store == old(s.store))
  {
    s.PokeSlot(sid, Advance(s.cache.slots[sid], Finished));
    ok := s.WriteSlot(sid, s.cache.slots[sid]);
  }

  /** finished to nothing: drop migrate-from on every proxy, then write the new mapping. */
  method ToNothing(s: Topom, sid: nat) returns (ok: bool, dirty: bool)
    requires s.Open() && sid < |s.store.slots| && s.store.slots[sid].action.state.Finished?
    modifies s`store, s`routes, s`trace, s`faults
    ensures s.faults >= old(s.faults) + (if ok then 0 else 1)
    ensures s.OpenButSlot(sid) && old(s.trace) <= s.trace
    ensures || s.store ==
        Apply(old(s.store), PutSlot(sid, SlotMapping(old(s.store).slots[sid].action.target, NO_ACTION)))
            || (!ok && s.store == old(s.store))
    ensures s.store != old(s.store) ==> Acked(s.Now(), View(old(s.store)), sid)
    ensures ok ==> AllServe(s.Now(), sid)
    ensures !dirty ==> !ok && s.Open()
  {
    ok := s.ResyncSlot(sid);
    dirty := ok;
    if !ok { return; }
    ghost var c := View(s.store);
    ok := s.WriteSlot(sid, SlotMapping(s.cache.slots[sid].action.target, NO_ACTION));
    if ok {
      NowServe(s, c, sid);
    }
  }

  /** The rest of the operation once the checks have passed. */
  method CompleteOpen(s: Topom, sid: nat) returns (ok: bool)
    requires s.Open() && CanComplete(s.store, sid) && forall e :: e in s.execs ==> e.sid != sid
    modifies s`cache, s`store, s`routes, s`trace, s`faults, s`hooks
    ensures s.Valid() && old(s.trace) <= s.trace && s.faults >= old(s.faults) + (if ok then 0 else 1)
    ensures UnderwayKept(old(s.store).slots, s.store.slots, sid)
    ensures ok ==>
              && s.store == Apply(old(s.store),
                   PutSlot(sid, SlotMapping(old(s.store).slots[sid].action.target, NO_ACTION)))
              && AllServe(s.Now(), sid)
  {
    var migrating := s.cache.slots[sid].action.state.Migrating?;
    if migrating {
      ok := ToFinished(s, sid);
      if !ok {
        s.LeaveSlots(sid, []);
        return;
      }
    }
    var dirty;
    ok, dirty := ToNothing(s, sid);
    if dirty || migrating { s.LeaveSlots(sid, []); } else { s.OpenIsValid(); }
  }

  /** Called by the goroutine that works on the slot, after its executor has returned. */
  method SlotActionComplete(s: Topom, sid: int) returns (status: Status)
    requires s.Valid() && forall e :: e in s.execs ==> e.sid != sid
    modifies s
    ensures s.Valid() && old(s.trace) <= s.trace && s.execs == old(s.execs)
    ensures UnderwayKept(old(s.store).slots, s.store.slots, sid)
    ensures status.Refused? ==> !CanComplete(old(s.store), sid)
    ensures !CanComplete(old(s.store), sid) ==> !status.Ok? && s.store == old(s.store)
    ensures status.Ok? ==>
              s.store == Apply(old(s.store),
                  PutSlot(sid, SlotMapping(old(s.store).slots[sid].action.target, NO_ACTION)))
    ensures status.Ok? ==> 0 <= sid < |s.store.slots| && AllServe(s.Now(), sid)
    ensures status.Failed? ==> Hindered(old(s.InService()), old(s.faults), s.faults)
  {
    var open := s.NewContext();
    if !open { return Failed; }
    if !(0 <= sid < |s.cache.slots|) { return Refused; }
    var m := s.cache.slots[sid];
    if !m.action.state.Migrating? && !m.action.state.Finished? { return Refused; }
    var ok := CompleteOpen(s, sid);
    status := if ok then Ok else Failed;
  }

  // ---------------------------------------------------------------- executors

  /** What newSlotActionExecutor hands out: a pause, a closure with nothing to do, or a migration. */
  datatype Executor = Pause | NothingLeft | Migrate(e: Exec)

  method NewSlotActionExecutor(s: Topom, sid: int) returns (status: Status, x: Executor)
    requires s.Valid()
    modifies s
    ensures s.Valid() && old(s.trace) <= s.trace
    ensures s.store == old(s.store) && s.routes == old(s.routes)
    ensures s.InService() == old(s.InService()) && s.faults >= old(s.faults)
    ensures status.Failed? ==> Hindered(old(s.InService()), old(s.faults), s.faults)
    ensures status.Refused? ==> !CanComplete(s.store, sid)
    ensures status.Ok? ==> CanComplete(s.store, sid)
    ensures status.Ok? && x.NothingLeft? ==> s.store.slots[sid].action.state.Finished?
    ensures status.Ok? && x.Migrate? ==>
              && s.store.slots[sid].action.state.Migrating?
              && x.e == NewExec(s.store, sid) && s.execs == old(s.execs) + multiset{x.e}
    ensures !(status.Ok? && x.Migrate?) ==> s.execs == old(s.execs)
    ensures status.Ok? && s.store.slots[sid].action.state.Migrating? ==>
              var m := s.store.slots[sid];
              x.Pause? <==>
                  s.disabled || IsGroupPromoting(s.store.groups, m.gid)
                      || IsGroupPromoting(s.store.groups, m.action.target)
  {
    x := Pause;
    var open := s.NewContext();
    if !open { return Failed, Pause; }
    if !(0 <= sid < |s.cache.slots|) { return Refused, Pause; }
    var m := s.cache.slots[sid];
    match m.action.state
    case Migrating =>
      status := Ok;
      if s.disabled { return; }
      if IsGroupPromoting(s.cache.groups, m.gid) { return; }
      if IsGroupPromoting(s.cache.groups, m.action.target) { return; }
      var from, dest := GroupMaster(s.cache.groups, m.gid), GroupMaster(s.cache.groups, m.action.target);
      var e := Exec(sid, m.gid, m.action.target, from, dest);
      s.StartExecutor(e);
      x := Migrate(e);
    case Finished => status, x := Ok, NothingLeft;
    case _ => status := Refused;
  }
}
