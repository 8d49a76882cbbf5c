/**
 Referential integrity of the store: what every legal store write keeps, including the operator
 overrides that bypass the lock phases.
 */
module Integrity {
  import opened Models
  import opened Context
  import opened Protocol

  predicate SlotOk(groups: map<int, Group>, m: SlotMapping) {
    && (m.gid == 0 || Serving(groups, m.gid))
    && (m.action.state.Nothing? <==> m.action.target == 0)
    && (m.action.state.Nothing? ==> m.action.index == 0)
    && (!m.action.state.Nothing? ==>
          m.action.index > 0 && Serving(groups, m.action.target) && m.action.target != m.gid)
  }

  predicate GroupOk(gid: int, g: Group) {
    && 0 < gid <= MAX_GROUP_ID
    && (match g.promoting.state
        case Unpromoted => g.promoting.index == 0
        case PromotePreparing | PromotePrepared => 0 < g.promoting.index < |g.servers|
        case PromoteFinished => g.promoting.index == 0 && g.servers != [])
    && forall i :: 0 <= i < |g.servers| ==> g.servers[i].addr != ""
  }

  /** No address appears twice, in one group or across groups. */
  ghost predicate AddrsDistinct(groups: map<int, Group>) {
    forall g1, i, g2, j ::
      && g1 in groups && 0 <= i < |groups[g1].servers|
      && g2 in groups && 0 <= j < |groups[g2].servers|
      && groups[g1].servers[i].addr == groups[g2].servers[j].addr
      ==> g1 == g2 && i == j
  }

  ghost predicate IndicesDistinct(slots: seq<SlotMapping>) {
    forall a, b ::
      && 0 <= a < |slots| && !slots[a].action.state.Nothing?
      && 0 <= b < |slots| && !slots[b].action.state.Nothing?
      && slots[a].action.index == slots[b].action.index
      ==> a == b
  }

  ghost predicate Intact(st: Store) {
    && (forall sid :: 0 <= sid < |st.slots| ==> SlotOk(st.groups, st.slots[sid]))
    && (forall gid :: gid in st.groups ==> GroupOk(gid, st.groups[gid]))
    && AddrsDistinct(st.groups)
    && IndicesDistinct(st.slots)
  }

  lemma PutSlotKeeps(st: Store, sid: nat, m: SlotMapping)
    requires Intact(st) && (SlotEdge(st, sid, m) || OverrideEdge(st, sid, m))
    ensures Intact(Apply(st, PutSlot(sid, m)))
  {
    forall gid | gid in st.groups ensures gid != 0 {
      assert GroupOk(gid, st.groups[gid]);
    }
    assert SlotOk(st.groups, st.slots[sid]);
    assert SlotOk(st.groups, m);
  }

  /** Replacing a group keeps the slots' references as long as it does not lose its last server
      while in use. */
  lemma SlotsStayServed(st: Store, gid: int, g: Group)
    requires Intact(st)
    requires Serving(st.groups, gid) && g.servers == [] ==> !IsGroupInUse(st.slots, gid)
    ensures forall sid :: 0 <= sid < |st.slots| ==> SlotOk(st.groups[gid := g], st.slots[sid])
  {
  }

  /** Every server of the new group is a server the old group had, at most once. */
  ghost predicate Inherits(g: Group, g': Group, from: seq<int>) {
    && |from| == |g'.servers|
    && (forall j :: 0 <= j < |from| ==> 0 <= from[j] < |g.servers| && g'.servers[j].addr == g.servers[from[j]].addr)
    && (forall j, k :: 0 <= j < |from| && 0 <= k < |from| && from[j] == from[k] ==> j == k)
  }

  lemma InheritKeeps(groups: map<int, Group>, gid: int, g': Group, from: seq<int>)
    requires AddrsDistinct(groups) && gid in groups && GroupOk(gid, groups[gid])
    requires Inherits(groups[gid], g', from)
    ensures AddrsDistinct(groups[gid := g'])
    ensures forall i :: 0 <= i < |g'.servers| ==> g'.servers[i].addr != ""
  {
  }

  lemma AddServerKeeps(st: Store, gid: int, g': Group)
    requires Intact(st) && gid in st.groups && AddServerEdge(st, st.groups[gid], g')
    ensures Intact(Apply(st, PutGroup(gid, g')))
  {
    SlotsStayServed(st, gid, g');
    var g := st.groups[gid];
    var n := |g.servers|;
    var groups' := st.groups[gid := g'];
    assert GroupOk(gid, g);
    forall g1, i, g2, j |
      && g1 in groups' && 0 <= i < |groups'[g1].servers|
      && g2 in groups' && 0 <= j < |groups'[g2].servers|
      && groups'[g1].servers[i].addr == groups'[g2].servers[j].addr
      ensures g1 == g2 && i == j
    {
      if !(g1 == gid && i == n) && !(g2 == gid && j == n) {
        assert st.groups[g1].servers[i].addr == st.groups[g2].servers[j].addr;
      }
    }
  }

  lemma DelServerKeeps(st: Store, gid: int, g': Group)
    requires Intact(st) && gid in st.groups && DelServerEdge(st, gid, st.groups[gid], g')
    ensures Intact(Apply(st, PutGroup(gid, g')))
  {
    var g := st.groups[gid];
    var index :| 0 <= index < |g.servers| && g'.servers == WithoutServer(g.servers, index)
                 && (index == 0 ==> |g.servers| == 1 && !IsGroupInUse(st.slots, gid));
    SlotsStayServed(st, gid, g');
    assert GroupOk(gid, g);
    InheritKeeps(st.groups, gid, g', seq(|g'.servers|, j => if j < index then j else j + 1));
  }

  lemma FlagKeeps(st: Store, gid: int, g': Group)
    requires Intact(st) && gid in st.groups && FlagEdge(st.groups[gid], g')
    ensures Intact(Apply(st, PutGroup(gid, g')))
  {
    var g := st.groups[gid];
    assert |Addrs(g'.servers)| == |Addrs(g.servers)|;
    SlotsStayServed(st, gid, g');
    assert GroupOk(gid, g);
    forall j | 0 <= j < |g'.servers| ensures g'.servers[j].addr == g.servers[j].addr {
      assert Addrs(g'.servers)[j] == Addrs(g.servers)[j];
    }
    InheritKeeps(st.groups, gid, g', seq(|g'.servers|, j => j));
  }

  /** Where each server of a reordered group comes from. */
  function PromoteOrigin(n: nat, k: int): seq<int> {
    seq(n, j => if j == 0 then k else if j == n - 1 then 0 else if j < k then j else j + 1)
  }

  lemma PromoteInherits(g: Group, k: int, g': Group)
    requires 0 < k < |g.servers| && g'.servers == PromoteServers(g.servers, k)
    ensures Inherits(g, g', PromoteOrigin(|g.servers|, k))
  {
  }

  lemma PromoteKeeps(st: Store, gid: int, g': Group)
    requires Intact(st) && gid in st.groups && PromoteEdge(st.groups[gid], g')
    ensures Intact(Apply(st, PutGroup(gid, g')))
  {
    var g := st.groups[gid];
    assert GroupOk(gid, g);
    SlotsStayServed(st, gid, g');
    if g.promoting.state.PromotePrepared? {
      PromoteInherits(g, g.promoting.index, g');
      InheritKeeps(st.groups, gid, g', PromoteOrigin(|g.servers|, g.promoting.index));
    } else {
      InheritKeeps(st.groups, gid, g', seq(|g.servers|, j => j));
    }
  }

  lemma DropGroupKeeps(st: Store, gid: int)
    requires Intact(st) && gid in st.groups && st.groups[gid].servers == []
    ensures Intact(Apply(st, DropGroup(gid)))
  {
  }

  lemma PutGroupKeeps(st: Store, gid: int, g': Group)
    requires Intact(st) && GroupEdge(st, gid, g')
    ensures Intact(Apply(st, PutGroup(gid, g')))
  {
    if gid in st.groups {
      var g := st.groups[gid];
      if AddServerEdge(st, g, g') {
        AddServerKeeps(st, gid, g');
      } else if DelServerEdge(st, gid, g, g') {
        DelServerKeeps(st, gid, g');
      } else if FlagEdge(g, g') {
        FlagKeeps(st, gid, g');
      } else {
        PromoteKeeps(st, gid, g');
      }
    } else {
      SlotsStayServed(st, gid, g');
    }
  }

  /** Any store write of the slot, group and proxy operations, overrides included. */
  ghost predicate AnyEdge(st: Store, op: StoreOp) {
    StoreEdge(st, op) || (op.PutSlot? && OverrideEdge(st, op.sid, op.m))
  }

  lemma EdgeKeepsIntegrity(st: Store, op: StoreOp)
    requires Intact(st) && AnyEdge(st, op)
    ensures Intact(Apply(st, op))
  {
    match op
    case PutSlot(sid, m) => PutSlotKeeps(st, sid, m);
    case PutGroup(gid, g) => PutGroupKeeps(st, gid, g);
    case DropGroup(gid) => DropGroupKeeps(st, gid);
    case PutProxy(_, _) =>
    case DropProxy(_) =>
  }

  function ApplyAll(st: Store, ops: seq<StoreOp>): Store {
    if ops == [] then st else Apply(ApplyAll(st, ops[..|ops| - 1]), ops[|ops| - 1])
  }

  ghost predicate LegalHistory(ops: seq<StoreOp>) {
    forall i :: 0 <= i < |ops| ==> AnyEdge(ApplyAll(InitialStore(), ops[..i]), ops[i])
  }

  function InitialStore(): Store {
    Store(seq(MAX_SLOT_NUM, _ => OFFLINE), map[], map[])
  }

  /** Every store reachable from the empty one has referential integrity. */
  lemma {:induction false} ReachableStoresHaveIntegrity(ops: seq<StoreOp>)
    requires LegalHistory(ops)
    ensures Intact(ApplyAll(InitialStore(), ops))
  {
    if ops != [] {
      var n := |ops| - 1;
      var pre := ops[..n];
      forall i | 0 <= i < |pre| ensures AnyEdge(ApplyAll(InitialStore(), pre[..i]), pre[i]) {
        assert pre[..i] == ops[..i];
      }
      ReachableStoresHaveIntegrity(pre);
      EdgeKeepsIntegrity(ApplyAll(InitialStore(), pre), ops[n]);
    }
  }
}
