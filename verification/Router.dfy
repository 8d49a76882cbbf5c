/**
 The router of a proxy, seen as the holder of references into its two connection pools: filling a
 slot, following a master switch, and closing.
 */
module Router {
  import opened Models
  import opened ConnPool

  const FORWARD_SYNC := 0
  const FORWARD_SEMI_ASYNC := 1

  /** What the dashboard sends for one slot. */
  datatype SlotSpec = SlotSpec(
    id: int, locked: bool,
    backendAddr: string, backendGroup: int,
    migrateFrom: string, migrateFromGroup: int,
    replicaGroups: seq<seq<string>>, forwardMethod: int)

  /** What a slot of the router holds. */
  datatype Slot = Slot(
    hold: bool, switched: bool,
    backend: Option<Handle>, backendId: int,
    migrate: Option<Handle>, migrateId: int,
    replicaGroups: seq<seq<Handle>>, forwardMethod: int)

  datatype FillError = NoError | ClosedRouter | InvalidSlotId | InvalidMethod

  // References

  function Has(s: Option<Handle>, h: Handle): nat {
    if s.Some? then One(s.value, h) else 0
  }

  function FlatTimes(groups: seq<seq<Handle>>, h: Handle): nat {
    if groups == [] then 0 else FlatTimes(groups[..|groups| - 1], h) + Times(groups[|groups| - 1], h)
  }

  function PrimaryTimes(s: Slot, h: Handle): nat {
    Has(s.backend, h) + Has(s.migrate, h)
  }

  /** How many references the slots hold on one connection of the primary pool. */
  function PrimaryRefs(slots: seq<Slot>, h: Handle): nat {
    if slots == [] then 0 else PrimaryRefs(slots[..|slots| - 1], h) + PrimaryTimes(slots[|slots| - 1], h)
  }

  /** How many references the slots hold on one connection of the replica pool. */
  function ReplicaRefs(slots: seq<Slot>, h: Handle): nat {
    if slots == [] then 0 else ReplicaRefs(slots[..|slots| - 1], h) + FlatTimes(slots[|slots| - 1].replicaGroups, h)
  }

  lemma {:induction false} RefsUpdate(slots: seq<Slot>, i: nat, s: Slot, h: Handle)
    requires i < |slots|
    ensures PrimaryRefs(slots, h) >= PrimaryTimes(slots[i], h)
    ensures PrimaryRefs(slots[i := s], h) == PrimaryRefs(slots, h) - PrimaryTimes(slots[i], h) + PrimaryTimes(s, h)
    ensures ReplicaRefs(slots, h) >= FlatTimes(slots[i].replicaGroups, h)
    ensures ReplicaRefs(slots[i := s], h)
         == ReplicaRefs(slots, h) - FlatTimes(slots[i].replicaGroups, h) + FlatTimes(s.replicaGroups, h)
  {
    var n := |slots| - 1;
    if i < n {
      RefsUpdate(slots[..n], i, s, h);
      assert slots[i := s][..n] == slots[..n][i := s];
    } else {
      assert slots[i := s][..n] == slots[..n];
    }
  }

  predicate Unconnected(s: Slot) {
    s.backend.None? && s.migrate.None? && s.replicaGroups == []
  }

  lemma {:induction false} NoRefs(slots: seq<Slot>, h: Handle)
    requires forall i :: 0 <= i < |slots| ==> Unconnected(slots[i])
    ensures PrimaryRefs(slots, h) == 0 && ReplicaRefs(slots, h) == 0
  {
    if slots != [] {
      NoRefs(slots[..|slots| - 1], h);
    }
  }

  lemma FlatPrefix(groups: seq<seq<Handle>>, i: nat, h: Handle)
    requires i < |groups|
    ensures FlatTimes(groups[..i + 1], h) == FlatTimes(groups[..i], h) + Times(groups[i], h)
  {
    assert groups[..i + 1][..i] == groups[..i];
  }

  lemma {:induction false} FlatBound(groups: seq<seq<Handle>>, i: nat, h: Handle)
    requires i <= |groups|
    ensures FlatTimes(groups[..i], h) <= FlatTimes(groups, h)
    decreases |groups| - i
  {
    if i < |groups| {
      FlatPrefix(groups, i, h);
      FlatBound(groups, i + 1, h);
    } else {
      assert groups[..i] == groups;
    }
  }

  // Snapshots

  function AddrOf(conns: seq<Conn>, h: Handle): string {
    if h < |conns| then conns[h].addr else ""
  }

  function AddrsOf(conns: seq<Conn>, hs: seq<Handle>): seq<string> {
    seq(|hs|, i requires 0 <= i < |hs| => AddrOf(conns, hs[i]))
  }

  function MaybeAddr(conns: seq<Conn>, h: Option<Handle>): string {
    if h.Some? then AddrOf(conns, h.value) else ""
  }

  /** snapshot: a slot described by addresses again. */
  function SnapshotOf(id: int, s: Slot, primary: seq<Conn>, replica: seq<Conn>): SlotSpec {
    SlotSpec(id, s.hold, MaybeAddr(primary, s.backend), s.backendId, MaybeAddr(primary, s.migrate), s.migrateId,
             seq(|s.replicaGroups|, i requires 0 <= i < |s.replicaGroups| => AddrsOf(replica, s.replicaGroups[i])),
             s.forwardMethod)
  }

  function NonEmpty(groups: seq<seq<string>>): (r: seq<seq<string>>)
    ensures forall g :: g in r <==> g in groups && g != []
  {
    if groups == [] then []
    else if groups[|groups| - 1] == [] then NonEmpty(groups[..|groups| - 1])
    else NonEmpty(groups[..|groups| - 1]) + [groups[|groups| - 1]]
  }

  /** What a fill leaves of a request: no group id without an address, no empty replica group, and no
      replica at all when only primaries are used. */
  function Filled(m: SlotSpec, primaryOnly: bool, forwardMethod: int): SlotSpec {
    SlotSpec(m.id, m.locked, m.backendAddr, if m.backendAddr == "" then 0 else m.backendGroup,
             m.migrateFrom, if m.migrateFrom == "" then 0 else m.migrateFromGroup,
             if primaryOnly then [] else NonEmpty(m.replicaGroups), forwardMethod)
  }

  /** The handles of a slot exist. */
  ghost predicate Known(s: Slot, primary: seq<Conn>, replica: seq<Conn>) {
    && (s.backend.Some? ==> s.backend.value < |primary|)
    && (s.migrate.Some? ==> s.migrate.value < |primary|)
    && (forall i, j :: 0 <= i < |s.replicaGroups| && 0 <= j < |s.replicaGroups[i]| ==>
        s.replicaGroups[i][j] < |replica|)
  }

  lemma SnapshotStable(id: int, s: Slot, primary: seq<Conn>, primary': seq<Conn>, replica: seq<Conn>,
      replica': seq<Conn>)
    requires Known(s, primary, replica) && SameAddrs(primary, primary') && SameAddrs(replica, replica')
    ensures SnapshotOf(id, s, primary', replica') == SnapshotOf(id, s, primary, replica)
  {
    forall i | 0 <= i < |s.replicaGroups|
      ensures AddrsOf(replica', s.replicaGroups[i]) == AddrsOf(replica, s.replicaGroups[i])
    {
    }
  }

  // Releasing and retaining what a slot refers to

  method ReleaseMaybe(pool: Pool, s: Option<Handle>)
    requires pool.Valid() && (s.Some? ==> Count(pool.conns, s.value) > 0)
    modifies pool
    ensures pool.Valid() && SameAddrs(old(pool.conns), pool.conns)
    ensures forall h: Handle :: Count(pool.conns, h) == Count(old(pool.conns), h) - Has(s, h)
  {
    if s.Some? {
      pool.Release(s.value);
    }
  }

  method RetainMaybe(pool: Pool, addr: string) returns (s: Option<Handle>)
    requires pool.Valid()
    modifies pool
    ensures pool.Valid() && SameAddrs(old(pool.conns), pool.conns)
    ensures forall h: Handle :: Count(pool.conns, h) == Count(old(pool.conns), h) + Has(s, h)
    ensures (s.Some? <==> addr != "") && MaybeAddr(pool.conns, s) == addr
    ensures s.Some? ==> s.value < |pool.conns|
  {
    s := None;
    if |addr| != 0 {
      var h := pool.Retain(addr);
      s := Some(h);
    }
  }

  method ReleaseGroups(pool: Pool, groups: seq<seq<Handle>>)
    requires pool.Valid() && forall h: Handle :: FlatTimes(groups, h) <= Count(pool.conns, h)
    modifies pool
    ensures pool.Valid() && SameAddrs(old(pool.conns), pool.conns)
    ensures forall h: Handle :: Count(pool.conns, h) == Count(old(pool.conns), h) - FlatTimes(groups, h)
  {
    for i := 0 to |groups|
      invariant pool.Valid() && SameAddrs(old(pool.conns), pool.conns)
      invariant forall h: Handle :: Count(pool.conns, h) == Count(old(pool.conns), h) - FlatTimes(groups[..i], h)
    {
      forall h: Handle
        ensures FlatTimes(groups[..i + 1], h) == FlatTimes(groups[..i], h) + Times(groups[i], h) <= FlatTimes(groups, h)
      {
        FlatPrefix(groups, i, h);
        FlatBound(groups, i + 1, h);
      }
      pool.ReleaseEach(groups[i]);
    }
    assert groups[..|groups|] == groups;
  }

  ghost predicate GroupsCarry(conns: seq<Conn>, groups: seq<seq<Handle>>, addrs: seq<seq<string>>) {
    |groups| == |addrs| && forall i :: 0 <= i < |groups| ==> Carry(conns, groups[i], addrs[i])
  }

  lemma OneMoreGroup(was: seq<Conn>, conns: seq<Conn>, groups: seq<seq<Handle>>, group: seq<Handle>,
                     addrs: seq<seq<string>>, i: nat)
    requires i < |addrs| && GroupsCarry(was, groups, NonEmpty(addrs[..i]))
    requires SameAddrs(was, conns) && Carry(conns, group, addrs[i])
    ensures group == [] ==> GroupsCarry(conns, groups, NonEmpty(addrs[..i + 1]))
    ensures group != [] ==> GroupsCarry(conns, groups + [group], NonEmpty(addrs[..i + 1]))
    ensures forall h: Handle :: FlatTimes(groups + [group], h) == FlatTimes(groups, h) + Times(group, h)
  {
    assert addrs[..i + 1][..i] == addrs[..i];
    assert (groups + [group])[..|groups|] == groups;
    forall j | 0 <= j < |groups|
      ensures Carry(conns, groups[j], NonEmpty(addrs[..i])[j])
    {
    }
  }

  method RetainGroups(pool: Pool, addrs: seq<seq<string>>) returns (groups: seq<seq<Handle>>)
    requires pool.Valid()
    modifies pool
    ensures pool.Valid() && SameAddrs(old(pool.conns), pool.conns)
    ensures forall h: Handle :: Count(pool.conns, h) == Count(old(pool.conns), h) + FlatTimes(groups, h)
    ensures GroupsCarry(pool.conns, groups, NonEmpty(addrs))
  {
    groups := [];
    for i := 0 to |addrs|
      invariant pool.Valid() && SameAddrs(old(pool.conns), pool.conns)
      invariant forall h: Handle :: Count(pool.conns, h) == Count(old(pool.conns), h) + FlatTimes(groups, h)
      invariant GroupsCarry(pool.conns, groups, NonEmpty(addrs[..i]))
    {
      ghost var was := pool.conns;
      var group := pool.RetainEach(addrs[i]);
      OneMoreGroup(was, pool.conns, groups, group, addrs, i);
      if |group| == 0 {
        continue;
      }
      groups := groups + [group];
    }
    assert addrs[..|addrs|] == addrs;
  }

  lemma SnapshotOfTaken(m: SlotSpec, s: Slot, primaryOnly: bool, primary: seq<Conn>, replica: seq<Conn>)
    requires MaybeAddr(primary, s.backend) == m.backendAddr && MaybeAddr(primary, s.migrate) == m.migrateFrom
    requires s.backendId == (if m.backendAddr == "" then 0 else m.backendGroup)
    requires s.migrateId == (if m.migrateFrom == "" then 0 else m.migrateFromGroup)
    requires GroupsCarry(replica, s.replicaGroups, if primaryOnly then [] else NonEmpty(m.replicaGroups))
    ensures SnapshotOf(m.id, s, primary, replica) == Filled(m, primaryOnly, s.forwardMethod).(locked := s.hold)
  {
    var addrs := if primaryOnly then [] else NonEmpty(m.replicaGroups);
    forall i | 0 <= i < |s.replicaGroups|
      ensures AddrsOf(replica, s.replicaGroups[i]) == addrs[i]
    {
      assert Carry(replica, s.replicaGroups[i], addrs[i]);
    }
  }

  // What a filled slot uses, field by field

  /** A connection to this address, or none if there is no address. */
  ghost predicate Uses(conns: seq<Conn>, h: Option<Handle>, addr: string) {
    if addr == "" then h.None? else h.Some? && h.value < |conns| && conns[h.value].addr == addr
  }

  /** `at` lists, in order, the positions of all non-empty given groups; the groups have connections to
      their addresses. */
  ghost predicate Selects(conns: seq<Conn>, groups: seq<seq<Handle>>, given: seq<seq<string>>, at: seq<nat>) {
    && |at| == |groups|
    && (forall i, j :: 0 <= i < j < |at| ==> at[i] < at[j])
    && (forall i :: 0 <= i < |at| ==> at[i] < |given| && given[at[i]] != [] && Carry(conns, groups[i], given[at[i]]))
    && (forall k: nat :: k < |given| && given[k] != [] ==> k in at)
  }

  /** `at` lists, in order, the positions of the non-empty groups, and `r` the groups there. */
  ghost predicate ListsNonEmpty(given: seq<seq<string>>, r: seq<seq<string>>, at: seq<nat>) {
    && |at| == |r| && (forall i, j :: 0 <= i < j < |at| ==> at[i] < at[j])
    && (forall i :: 0 <= i < |at| ==> at[i] < |given| && given[at[i]] == r[i] && r[i] != [])
    && (forall k: nat :: k < |given| && given[k] != [] ==> k in at)
  }

  lemma ListsNext(given: seq<seq<string>>, r: seq<seq<string>>, at: seq<nat>)
    requires given != [] && ListsNonEmpty(given[..|given| - 1], r, at)
    ensures given[|given| - 1] == [] ==> ListsNonEmpty(given, r, at)
    ensures given[|given| - 1] != [] ==> ListsNonEmpty(given, r + [given[|given| - 1]], at + [|given| - 1])
  {
    var n := |given| - 1;
    forall k: nat | k < |given| && given[k] != [] ensures k == n || k in at {
      if k < n { assert given[..n][k] == given[k]; }
    }
  }

  lemma {:induction false} NonEmptyAt(given: seq<seq<string>>) returns (at: seq<nat>)
    ensures ListsNonEmpty(given, NonEmpty(given), at)
  {
    if given == [] {
      at := [];
    } else {
      var n := |given| - 1;
      at := NonEmptyAt(given[..n]);
      ListsNext(given, NonEmpty(given[..n]), at);
      if given[n] != [] { at := at + [n]; }
    }
  }

  /** The slot does what it was told: it holds requests back exactly if locked, it uses the given
      primaries and the non-empty replica groups in order, unless only primaries are used. */
  ghost predicate DoesAs(s: Slot, m: SlotSpec, primaryOnly: bool, primary: seq<Conn>, replica: seq<Conn>) {
    && s.hold == m.locked
    && Uses(primary, s.backend, m.backendAddr)
    && s.backendId == (if m.backendAddr == "" then 0 else m.backendGroup)
    && Uses(primary, s.migrate, m.migrateFrom)
    && s.migrateId == (if m.migrateFrom == "" then 0 else m.migrateFromGroup)
    && if primaryOnly then s.replicaGroups == []
       else exists at :: Selects(replica, s.replicaGroups, m.replicaGroups, at)
  }

  lemma ReplicasSelected(conns: seq<Conn>, groups: seq<seq<Handle>>, given: seq<seq<string>>)
    requires GroupsCarry(conns, groups, NonEmpty(given))
    ensures exists at :: Selects(conns, groups, given, at)
  {
    var at := NonEmptyAt(given);
    assert Selects(conns, groups, given, at);
  }

  lemma TakenDoes(m: SlotSpec, s: Slot, primaryOnly: bool, primary: seq<Conn>, replica: seq<Conn>)
    requires s.hold == m.locked
    requires Uses(primary, s.backend, m.backendAddr) && Uses(primary, s.migrate, m.migrateFrom)
    requires s.backendId == (if m.backendAddr == "" then 0 else m.backendGroup)
    requires s.migrateId == (if m.migrateFrom == "" then 0 else m.migrateFromGroup)
    requires GroupsCarry(replica, s.replicaGroups, if primaryOnly then [] else NonEmpty(m.replicaGroups))
    ensures DoesAs(s, m, primaryOnly, primary, replica)
  {
    if !primaryOnly { ReplicasSelected(replica, s.replicaGroups, m.replicaGroups); }
  }

  lemma TimesHas(hs: seq<Handle>, i: nat)
    requires i < |hs|
    ensures Times(hs, hs[i]) > 0
  {
    TimesPrefix(hs, i, hs[i]);
    TimesBound(hs, i + 1, hs[i]);
  }

  lemma FlatHas(groups: seq<seq<Handle>>, i: nat, j: nat)
    requires i < |groups| && j < |groups[i]|
    ensures FlatTimes(groups, groups[i][j]) > 0
  {
    TimesHas(groups[i], j);
    FlatPrefix(groups, i, groups[i][j]);
    FlatBound(groups, i + 1, groups[i][j]);
  }

  lemma PooledAreCounted(conns: seq<Conn>, pool: map<string, Handle>)
    requires Consistent(conns, pool)
    ensures forall a :: a in pool ==> Count(conns, pool[a]) > 0
  {
  }

  lemma Unreferenced(conns: seq<Conn>, pool: map<string, Handle>)
    requires Consistent(conns, pool) && forall h: Handle :: Count(conns, h) == 0
    ensures pool == map[]
  {
    PooledAreCounted(conns, pool);
    assert forall a :: a !in pool;
  }

  /** Whether two addresses are taken for the same server: equal, or reporting the same run id. */
  function SameServer(a: string, b: string, runIds: map<string, string>): bool {
    a == b || (a in runIds && b in runIds && runIds[a] != "" && runIds[a] == runIds[b])
  }

  /** The address of a group's master after a switch: the new one, unless there is none or it is the
      same server under another address. */
  ghost predicate Follows(group: int, was: string, addr: string, masters: map<int, string>,
      runIds: map<string, string>) {
    if group !in masters || masters[group] == "" then addr == was
    else if SameServer(masters[group], was, runIds) then addr == was
    else addr == masters[group]
  }

  function NewMaster(group: int, addr: string, masters: map<int, string>, runIds: map<string, string>): string {
    if group in masters && masters[group] != "" && !SameServer(masters[group], addr, runIds) then masters[group]
    else addr
  }

  /** What a master switch makes of a slot. */
  function Switched(m: SlotSpec, masters: map<int, string>, runIds: map<string, string>): SlotSpec {
    m.(backendAddr := NewMaster(m.backendGroup, m.backendAddr, masters, runIds),
       migrateFrom := NewMaster(m.migrateFromGroup, m.migrateFrom, masters, runIds))
  }

  function AfterSwitch(m: SlotSpec, masters: map<int, string>, runIds: map<string, string>,
      primaryOnly: bool): SlotSpec {
    var m' := Switched(m, masters, runIds);
    if m' == m then m else Filled(m', primaryOnly, m.forwardMethod)
  }

  /** The connection is open, and the pool has it for its address. */
  ghost predicate InUse(p: Pool, h: Handle)
    reads p
  {
    h < |p.conns| && Kept(h, p.conns[h], p.pool) && !p.conns[h].closed
  }

  class Router {
    const primary: Pool
    const replica: Pool
    const primaryOnly: bool
    var slots: seq<Slot>
    var closed: bool

    /** Every count is the number of references the slots hold. */
    ghost predicate Valid()
      reads this, primary, replica
    {
      && primary != replica
      && |slots| == MAX_SLOT_NUM
      && primary.Valid() && (forall h: Handle :: Count(primary.conns, h) == PrimaryRefs(slots, h))
      && replica.Valid() && (forall h: Handle :: Count(replica.conns, h) == ReplicaRefs(slots, h))
    }

    constructor (primaryOnly: bool)
      ensures Valid() && !closed && fresh(primary) && fresh(replica)
      ensures this.primaryOnly == primaryOnly && forall i :: 0 <= i < |slots| ==> Unconnected(slots[i])
    {
      primary := new Pool();
      replica := new Pool();
      this.primaryOnly := primaryOnly;
      slots := seq(MAX_SLOT_NUM, _ => Slot(false, false, None, 0, None, 0, [], FORWARD_SYNC));
      closed := false;
      new;
      forall h: Handle
        ensures PrimaryRefs(slots, h) == 0 && ReplicaRefs(slots, h) == 0
      {
        NoRefs(slots, h);
      }
    }

    function Snapshot(i: nat): SlotSpec
      requires i < |slots|
      reads this, primary, replica
    {
      SnapshotOf(i, slots[i], primary.conns, replica.conns)
    }

    /** fillSlot, first half: the slot gives back all it holds. */
    method GiveBack(i: nat)
      requires Valid() && i < |slots|
      modifies `slots, primary, replica
      ensures Valid() && SameAddrs(old(primary.conns), primary.conns) && SameAddrs(old(replica.conns), replica.conns)
      ensures slots ==
          old(slots)[i :=
              old(slots[i]).(backend := None, backendId := 0, migrate := None, migrateId := 0, replicaGroups := [])]
    {
      var s := slots[i];
      var bare := s.(backend := None, backendId := 0, migrate := None, migrateId := 0, replicaGroups := []);
      forall h: Handle {
        RefsUpdate(slots, i, bare, h);
      }
      ReleaseMaybe(primary, s.backend);
      ReleaseMaybe(primary, s.migrate);
      ReleaseGroups(replica, s.replicaGroups);
      slots := slots[i := bare];
    }

    /** fillSlot, second half: the slot takes what it was told to use. */
    method TakePrimaries(i: nat, m: SlotSpec)
      requires Valid() && i < |slots| && Unconnected(slots[i]) && slots[i].backendId == 0 && slots[i].migrateId == 0
      modifies `slots, primary
      ensures Valid() && SameAddrs(old(primary.conns), primary.conns)
      ensures var s := slots[i];
              && slots == old(slots)[i :=
                  old(slots[i]).(backend := s.backend, backendId := s.backendId, migrate := s.migrate,
                                 migrateId := s.migrateId)]
              && Uses(primary.conns, s.backend, m.backendAddr) && MaybeAddr(primary.conns, s.backend) == m.backendAddr
              && Uses(primary.conns, s.migrate, m.migrateFrom) && MaybeAddr(primary.conns, s.migrate) == m.migrateFrom
              && s.backendId == (if m.backendAddr == "" then 0 else m.backendGroup)
              && s.migrateId == (if m.migrateFrom == "" then 0 else m.migrateFromGroup)
    {
      var backend := RetainMaybe(primary, m.backendAddr);
      var migrate := RetainMaybe(primary, m.migrateFrom);
      var s := slots[i].(backend := backend, backendId := if backend.Some? then m.backendGroup else 0,
                         migrate := migrate, migrateId := if migrate.Some? then m.migrateFromGroup else 0);
      forall h: Handle {
        RefsUpdate(slots, i, s, h);
      }
      slots := slots[i := s];
    }

    method TakeReplicas(i: nat, m: SlotSpec)
      requires Valid() && i < |slots| && slots[i].replicaGroups == []
      modifies `slots, replica
      ensures Valid() && SameAddrs(old(replica.conns), replica.conns)
      ensures slots == old(slots)[i := old(slots[i]).(replicaGroups := slots[i].replicaGroups)]
      ensures GroupsCarry(replica.conns, slots[i].replicaGroups, if primaryOnly then [] else NonEmpty(m.replicaGroups))
    {
      if !primaryOnly {
        var groups := RetainGroups(replica, m.replicaGroups);
        var s := slots[i].(replicaGroups := groups);
        forall h: Handle {
          RefsUpdate(slots, i, s, h);
        }
        slots := slots[i := s];
      }
    }

    /** Changes of a slot that touch none of its references. */
    method SetFlags(i: nat, hold: bool, switched: bool, forwardMethod: int)
      requires Valid() && i < |slots|
      modifies `slots
      ensures Valid()
      ensures slots ==
          old(slots)[i := old(slots[i]).(hold := hold, switched := switched, forwardMethod := forwardMethod)]
    {
      var s := slots[i].(hold := hold, switched := switched, forwardMethod := forwardMethod);
      forall h: Handle {
        RefsUpdate(slots, i, s, h);
      }
      slots := slots[i := s];
    }

    method Fill(m: SlotSpec, switched: bool, forwardMethod: Option<int>)
      requires Valid() && 0 <= m.id < |slots|
      modifies `slots, primary, replica
      ensures Valid() && SameAddrs(old(primary.conns), primary.conns) && SameAddrs(old(replica.conns), replica.conns)
      ensures slots == old(slots)[m.id := slots[m.id]] && slots[m.id].switched == switched
      ensures m.backendAddr == m.migrateFrom == "" && m.replicaGroups == [] ==> Unconnected(slots[m.id])
      ensures Snapshot(m.id)
           == Filled(m, primaryOnly, if forwardMethod.Some? then forwardMethod.value
                                     else old(slots[m.id].forwardMethod))
      ensures DoesAs(slots[m.id], m, primaryOnly, primary.conns, replica.conns)
    {
      var kind := if forwardMethod.Some? then forwardMethod.value else slots[m.id].forwardMethod;
      SetFlags(m.id, true, switched, kind);
      GiveBack(m.id);
      TakePrimaries(m.id, m);
      TakeReplicas(m.id, m);
      SetFlags(m.id, m.locked, switched, kind);
      SnapshotOfTaken(m, slots[m.id], primaryOnly, primary.conns, replica.conns);
      TakenDoes(m, slots[m.id], primaryOnly, primary.conns, replica.conns);
    }

    /** Every connection a slot uses, of the primary or the replica pool, is open and is the pooled one
        for its address. */
    lemma SlotsUseOpenConns(i: nat)
      requires Valid() && i < |slots|
      ensures Known(slots[i], primary.conns, replica.conns)
      ensures slots[i].backend.Some? ==> InUse(primary, slots[i].backend.value)
      ensures slots[i].migrate.Some? ==> InUse(primary, slots[i].migrate.value)
      ensures forall g, j :: 0 <= g < |slots[i].replicaGroups| && 0 <= j < |slots[i].replicaGroups[g]| ==>
                InUse(replica, slots[i].replicaGroups[g][j])
    {
      var s := slots[i];
      if s.backend.Some? {
        RefsUpdate(slots, i, s, s.backend.value);
      }
      if s.migrate.Some? {
        RefsUpdate(slots, i, s, s.migrate.value);
      }
      forall g, j | 0 <= g < |s.replicaGroups| && 0 <= j < |s.replicaGroups[g]|
        ensures InUse(replica, s.replicaGroups[g][j])
      {
        FlatHas(s.replicaGroups, g, j);
        RefsUpdate(slots, i, s, s.replicaGroups[g][j]);
      }
    }

    /** The pools hold exactly the addresses that some slot refers to. */
    lemma PoolsHoldReferenced(a: string)
      requires Valid()
      ensures a in primary.pool <==>
              exists h: Handle :: h < |primary.conns| && primary.conns[h].addr == a && PrimaryRefs(slots, h) > 0
      ensures a in replica.pool <==>
              exists h: Handle :: h < |replica.conns| && replica.conns[h].addr == a && ReplicaRefs(slots, h) > 0
    {
    }

    method FillSlot(m: SlotSpec) returns (err: FillError)
      requires Valid()
      modifies `slots, primary, replica
      ensures Valid()
      ensures err == if closed then ClosedRouter else if !(0 <= m.id < MAX_SLOT_NUM) then InvalidSlotId
                     else if m.forwardMethod !in {FORWARD_SYNC, FORWARD_SEMI_ASYNC} then InvalidMethod else NoError
      ensures err.NoError? ==>
                && slots == old(slots)[m.id := slots[m.id]]
                && Snapshot(m.id) == Filled(m, primaryOnly, m.forwardMethod)
                && DoesAs(slots[m.id], m, primaryOnly, primary.conns, replica.conns)
                && slots[m.id].forwardMethod == m.forwardMethod && !slots[m.id].switched
      ensures !err.NoError? ==> unchanged(this, primary, replica)
    {
      if closed {
        return ClosedRouter;
      }
      if m.id < 0 || m.id >= MAX_SLOT_NUM {
        return InvalidSlotId;
      }
      if m.forwardMethod != FORWARD_SYNC && m.forwardMethod != FORWARD_SEMI_ASYNC {
        return InvalidMethod;
      }
      Fill(m, false, Some(m.forwardMethod));
      return NoError;
    }

    method TrySwitchMaster(i: nat, masters: map<int, string>, runIds: map<string, string>)
      requires Valid() && i < |slots|
      modifies `slots, primary, replica
      ensures Valid() && SameAddrs(old(primary.conns), primary.conns) && SameAddrs(old(replica.conns), replica.conns)
      ensures slots == old(slots)[i := slots[i]]
      ensures Snapshot(i) == AfterSwitch(old(Snapshot(i)), masters, runIds, primaryOnly)
      ensures slots[i].hold == old(slots[i].hold) && slots[i].forwardMethod == old(slots[i].forwardMethod)
      ensures Follows(old(slots[i].backendId), old(MaybeAddr(primary.conns, slots[i].backend)),
                      MaybeAddr(primary.conns, slots[i].backend), masters, runIds)
      ensures Follows(old(slots[i].migrateId), old(MaybeAddr(primary.conns, slots[i].migrate)),
                      MaybeAddr(primary.conns, slots[i].migrate), masters, runIds)
    {
      var m := Snapshot(i);
      var switched := false;
      if m.backendGroup in masters && masters[m.backendGroup] != "" {
        if !SameServer(masters[m.backendGroup], m.backendAddr, runIds) {
          m, switched := m.(backendAddr := masters[m.backendGroup]), true;
        }
      }
      if m.migrateFromGroup in masters && masters[m.migrateFromGroup] != "" {
        if !SameServer(masters[m.migrateFromGroup], m.migrateFrom, runIds) {
          m, switched := m.(migrateFrom := masters[m.migrateFromGroup]), true;
        }
      }
      if switched {
        Fill(m, true, None);
      }
    }

    /** TrySwitchMaster, seen from the other slots: they read back as before. */
    method SwitchOne(i: nat, masters: map<int, string>, runIds: map<string, string>)
      requires Valid() && i < |slots|
      modifies `slots, primary, replica
      ensures Valid() && |slots| == |old(slots)|
      ensures Snapshot(i) == AfterSwitch(old(Snapshot(i)), masters, runIds, primaryOnly)
      ensures forall j: nat :: j < |slots| && j != i ==> Snapshot(j) == old(Snapshot(j))
      ensures forall j: nat :: j < |slots| ==> slots[j].hold == old(slots[j].hold)
    {
      forall j: nat | j < |slots| {
        SlotsUseOpenConns(j);
      }
      TrySwitchMaster(i, masters, runIds);
      forall j: nat | j < |slots| && j != i
        ensures Snapshot(j) == old(Snapshot(j))
      {
        SnapshotStable(j, slots[j], old(primary.conns), primary.conns, old(replica.conns), replica.conns);
      }
    }

    method SwitchMasters(masters: map<int, string>, runIds: map<string, string>) returns (err: FillError)
      requires Valid()
      modifies `slots, primary, replica
      ensures Valid()
      ensures err == if closed then ClosedRouter else NoError
      ensures err.NoError? ==>
                forall i :: 0 <= i < |slots| ==>
                    Snapshot(i) == AfterSwitch(old(Snapshot(i)), masters, runIds, primaryOnly)
      ensures |slots| == |old(slots)| && forall i :: 0 <= i < |slots| ==> slots[i].hold == old(slots[i].hold)
      ensures !err.NoError? ==> unchanged(this, primary, replica)
    {
      if closed {
        return ClosedRouter;
      }
      for i := 0 to |slots|
        invariant Valid()
        invariant forall j :: 0 <= j < i ==> Snapshot(j) == AfterSwitch(old(Snapshot(j)), masters, runIds, primaryOnly)
        invariant forall j :: i <= j < |slots| ==> Snapshot(j) == old(Snapshot(j))
        invariant forall j :: 0 <= j < |slots| ==> slots[j].hold == old(slots[j].hold)
      {
        SwitchOne(i, masters, runIds);
      }
      return NoError;
    }

    /** Closing gives every reference back: both pools are empty. */
    method Close()
      requires Valid()
      modifies this, primary, replica
      ensures Valid() && closed
      ensures !old(closed) ==>
                && primary.pool == map[] && replica.pool == map[]
                && forall i :: 0 <= i < |slots| ==> Unconnected(slots[i])
      ensures old(closed) ==> unchanged(this, primary, replica)
    {
      if closed {
        return;
      }
      closed := true;
      for i := 0 to |slots|
        invariant Valid() && closed
        invariant forall j :: 0 <= j < i ==> Unconnected(slots[j])
      {
        Fill(SlotSpec(i, false, "", 0, "", 0, [], FORWARD_SYNC), false, None);
      }
      forall h: Handle
        ensures PrimaryRefs(slots, h) == 0 && ReplicaRefs(slots, h) == 0
      {
        NoRefs(slots, h);
      }
      Unreferenced(primary.conns, primary.pool);
      Unreferenced(replica.conns, replica.pool);
    }
  }
}
