/** slots-rebalance as an operation of the dashboard. */
module TopomRebalance {
  import opened Models
  import opened Context
  import opened Protocol
  import opened Cache
  import opened Topom
  import opened TopomSlots
  import opened Sums
  import opened IdLists
  import opened Rebalance
  import opened RebalancePlan
  import opened RebalanceGoals
  import Integrity

  /** The groups with servers, each once. */
  method ServingGroups(groups: map<int, Group>) returns (gids: seq<int>)
    requires forall g :: g in groups ==> g > 0
    ensures Distinct(gids) && forall g :: g in gids <==> Serving(groups, g)
    ensures forall i, j :: 0 <= i < j < |gids| ==> gids[i] <= gids[j]
  {
    var ids: seq<nat> := [];
    var rest := groups.Keys;
    while rest != {}
      invariant rest <= groups.Keys && Distinct(ids)
      invariant forall g: nat :: g in ids <==> g in groups && g !in rest && Serving(groups, g)
      decreases |rest|
    {
      var g := AnyOf(rest);
      rest := rest - {g};
      if groups[g].servers != [] { ids := ids + [g]; }
    }
    SortIdsSorted(ids);
    SameElements(ids, SortIds(ids));
    var sorted := SortIds(ids);
    gids := seq(|sorted|, i requires 0 <= i < |sorted| => sorted[i] as int);
    forall g ensures g in gids <==> Serving(groups, g) {
      if Serving(groups, g) {
        assert g in sorted;
        var i :| 0 <= i < |sorted| && sorted[i] == g;
        assert gids[i] == g;
      }
    }
  }

  lemma StoreIsHoused(st: Store, gids: seq<int>)
    requires Integrity.Intact(st) && Distinct(gids) && forall g :: g in gids <==> Serving(st.groups, g)
    ensures Housed(st.slots, gids)
  {
  }

  method ListIds(plans: map<nat, int>) returns (ids: seq<nat>)
    ensures Distinct(ids) && forall sid :: sid in ids <==> sid in plans
  {
    ids := [];
    var rest := plans.Keys;
    while rest != {}
      invariant rest <= plans.Keys && Distinct(ids)
      invariant forall sid :: sid in ids <==> sid in plans && sid !in rest
      decreases |rest|
    {
      var sid := AnyOf(rest);
      rest := rest - {sid};
      ids := ids + [sid];
    }
  }

  /** The plan as a list, in slot order. */
  method ListPlan(plans: map<nat, int>) returns (plan: seq<(nat, int)>)
    ensures forall i :: 0 <= i < |plan| ==> plan[i].0 in plans && plans[plan[i].0] == plan[i].1
    ensures forall i, j :: 0 <= i < j < |plan| ==> plan[i].0 < plan[j].0
    ensures forall sid :: sid in plans ==> Planned(plan, sid)
  {
    var ids := ListIds(plans);
    SortIdsSorted(ids);
    SameElements(ids, SortIds(ids));
    var sorted := SortIds(ids);
    assert forall i :: 0 <= i < |sorted| ==> sorted[i] in plans;
    plan := seq(|sorted|, i requires 0 <= i < |sorted| => (sorted[i], plans[sorted[i]]));
    forall sid | sid in plans ensures Planned(plan, sid) {
      assert sid in sorted;
      var i :| 0 <= i < |sorted| && sorted[i] == sid;
      assert plan[i].0 == sid;
    }
  }

  /** The planned migrations bring the groups of the store as close to even as they can get. */
  ghost predicate GoodPlan(st: Store, gids: seq<int>, plans: map<nat, int>) {
    && gids != [] && (forall g :: g in gids <==> Serving(st.groups, g))
    && PlansWell(st.slots, gids, plans)
    && GivesSurplus(st.slots, plans, LowerBound(|st.slots|, |gids|))
    && AsEvenAsPossible(st.slots, gids, plans, LowerBound(|st.slots|, |gids|))
    && (NoActions(st.slots) ==> PerfectlyEven(st.slots, gids, plans) && FewestMoves(st.slots, gids, plans))
    && OvertakesNone(st.slots, plans) && (AlreadyEven(st.slots, gids) ==> plans == map[])
    && PlansLargest(st.slots, plans) && InSlotOrder(plans)
  }

  lemma GoodPlanStarts(st: Store, gids: seq<int>, plans: map<nat, int>, plan: seq<(nat, int)>)
    requires GoodPlan(st, gids, plans)
    requires forall i :: 0 <= i < |plan| ==> plan[i].0 in plans && plans[plan[i].0] == plan[i].1
    requires forall i, j :: 0 <= i < j < |plan| ==> plan[i].0 < plan[j].0
    ensures PlanOk(st, plan)
  {
  }

  lemma GroupIdsPositive(s: Topom)
    requires s.Traced()
    ensures forall g :: g in s.store.groups ==> g > 0
  {
    s.TracedInv();
    forall g | g in s.store.groups ensures g > 0 { assert Integrity.GroupOk(g, s.store.groups[g]); }
  }

  /** The list has every planned slot, in order, each with its planned target. */
  ghost predicate Lists(plan: seq<(nat, int)>, plans: map<nat, int>) {
    && (forall sid :: Planned(plan, sid) <==> sid in plans)
    && (forall i :: 0 <= i < |plan| ==> plan[i].0 in plans && plans[plan[i].0] == plan[i].1)
    && (forall i, j :: 0 <= i < j < |plan| ==> plan[i].0 < plan[j].0)
  }

  /** Exactly the planned migrations have been started. */
  ghost predicate Started(st: Store, st': Store, plans: map<nat, int>) {
    exists plan :: PlanOk(st, plan) && Lists(plan, plans) && st' == st.(slots := StartAll(st.slots, plan))
  }

  method StartPlans(s: Topom, plans: map<nat, int>, ghost gids: seq<int>) returns (status: Status)
    requires s.Open() && GoodPlan(s.store, gids, plans)
    modifies s
    ensures s.Valid() && old(s.trace) <= s.trace && !status.Refused?
    ensures s.routes == old(s.routes) && s.execs == old(s.execs)
    ensures status.Ok? ==> Started(old(s.store), s.store, plans)
    ensures UnderwayKept(old(s.store).slots, s.store.slots, -1)
    ensures status.Failed? ==> Hindered(old(s.InService()), old(s.faults), s.faults)
  {
    var plan := ListPlan(plans);
    assert Lists(plan, plans);
    GoodPlanStarts(s.store, gids, plans, plan);
    ghost var st := s.store;
    status := StartActions(s, plan);
    StartedKeepsUnderway(st, s.store, plan);
    assert plan[..|plan|] == plan;
  }

  method SlotsRebalance(s: Topom, confirm: bool) returns (status: Status, plans: map<nat, int>)
    requires s.Valid()
    modifies s
    ensures s.Valid() && old(s.trace) <= s.trace
    ensures s.routes == old(s.routes) && s.execs == old(s.execs)
    ensures status.Refused? ==> forall g :: !Serving(old(s.store).groups, g)
    ensures status.Ok? ==> exists gids :: GoodPlan(old(s.store), gids, plans)
    ensures !confirm || status.Refused? ==> s.store == old(s.store)
    ensures status.Ok? && confirm ==> Started(old(s.store), s.store, plans)
    ensures UnderwayKept(old(s.store).slots, s.store.slots, -1)
    ensures status.Failed? ==> Hindered(old(s.InService()), old(s.faults), s.faults)
  {
    plans := map[];
    var open := s.NewContext();
    if !open { return Failed, plans; }
    GroupIdsPositive(s);
    var gids := ServingGroups(s.cache.groups);
    if gids == [] {
      forall g ensures !Serving(s.store.groups, g) { assert g !in gids; }
      return Refused, plans;
    }
    assert Housed(s.store.slots, gids) by {
      s.TracedInv();
      StoreIsHoused(s.store, gids);
    }
    plans := Plan(s.cache.slots, gids);
    assert GoodPlan(s.store, gids, plans);
    if !confirm { return Ok, plans; }
    status := StartPlans(s, plans, gids);
  }
}
