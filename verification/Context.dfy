/** The read-only computations over one consistent view of slots and groups. */
module Context {
  import opened Models

  datatype Ctx = Ctx(slots: seq<SlotMapping>, groups: map<int, Group>)

  /** The group exists and has at least one server. */
  predicate Serving(groups: map<int, Group>, gid: int) {
    gid in groups && groups[gid].servers != []
  }

  function GroupMaster(groups: map<int, Group>, gid: int): Addr {
    if gid in groups && groups[gid].servers != [] then groups[gid].servers[0].addr else ""
  }

  predicate IsGroupLocked(groups: map<int, Group>, gid: int) {
    gid in groups && groups[gid].promoting.state.PromotePrepared?
  }

  predicate IsGroupPromoting(groups: map<int, Group>, gid: int) {
    gid in groups && !groups[gid].promoting.state.Unpromoted?
  }

  predicate IsSlotLocked(groups: map<int, Group>, m: SlotMapping) {
    match m.action.state
    case Nothing | Pending | Preparing => IsGroupLocked(groups, m.gid)
    case Prepared => true
    case Migrating => IsGroupLocked(groups, m.gid) || IsGroupLocked(groups, m.action.target)
    case Finished => IsGroupLocked(groups, m.action.target)
  }

  function ToSlot(groups: map<int, Group>, m: SlotMapping): Route {
    var locked := IsSlotLocked(groups, m);
    match m.action.state
    case Nothing | Pending | Preparing =>
      Route(locked, GroupMaster(groups, m.gid), "")
    case Prepared | Migrating =>
      Route(locked, GroupMaster(groups, m.action.target), GroupMaster(groups, m.gid))
    case Finished =>
      Route(locked, GroupMaster(groups, m.action.target), "")
  }

  predicate Mentions(m: SlotMapping, gid: int) {
    m.gid == gid || m.action.target == gid
  }

  function SlotsOf(slots: seq<SlotMapping>, gid: int): set<nat> {
    set sid: nat | sid < |slots| && Mentions(slots[sid], gid)
  }

  /** The slot ids below `n`. */
  function SlotIds(n: nat): (r: set<nat>)
    ensures forall sid: nat :: sid in r <==> sid < n
  {
    if n == 0 then {} else SlotIds(n - 1) + {n - 1}
  }

  predicate IsGroupInUse(slots: seq<SlotMapping>, gid: int) {
    exists sid :: 0 <= sid < |slots| && Mentions(slots[sid], gid)
  }

  /** The largest action index in use, or zero. */
  function MaxSlotActionIndex(slots: seq<SlotMapping>): (r: int)
    ensures r >= 0
    ensures forall sid :: 0 <= sid < |slots| && !slots[sid].action.state.Nothing? ==> slots[sid].action.index <= r
    ensures r == 0 || exists sid ::
              0 <= sid < |slots| && !slots[sid].action.state.Nothing? && slots[sid].action.index == r
  {
    if slots == [] then 0
    else
      var last := slots[|slots| - 1];
      var rest := MaxSlotActionIndex(slots[..|slots| - 1]);
      if !last.action.state.Nothing? && last.action.index > rest then last.action.index else rest
  }

  /** The server list after promoting position `index`: it comes first, the old master goes last. */
  function PromoteServers(servers: seq<Server>, index: int): seq<Server>
    requires 0 < index < |servers|
  {
    [servers[index]] + servers[1..index] + servers[index + 1..] + [servers[0]]
  }

  /** The promoted server comes first, the old master last, and those in between keep their order. */
  lemma PromoteOrder(servers: seq<Server>, index: int)
    requires 0 < index < |servers|
    ensures |PromoteServers(servers, index)| == |servers|
    ensures PromoteServers(servers, index)[0] == servers[index]
    ensures PromoteServers(servers, index)[|servers| - 1] == servers[0]
    ensures forall i :: 0 < i < index ==> PromoteServers(servers, index)[i] == servers[i]
    ensures forall i :: index < i < |servers| ==> PromoteServers(servers, index)[i - 1] == servers[i]
  {
  }

  /** Promotion only reorders the servers. */
  lemma PromotePermutes(servers: seq<Server>, index: int)
    requires 0 < index < |servers|
    ensures multiset(PromoteServers(servers, index)) == multiset(servers)
  {
    var mid, tail := servers[1..index], servers[index + 1..];
    assert servers == [servers[0]] + mid + [servers[index]] + tail;
  }
}
