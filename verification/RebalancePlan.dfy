/** Turning the balancer's counters into a plan, and what the plan achieves. */
module RebalancePlan {
  import opened Models
  import opened GroupTree
  import opened Sums
  import opened IdLists
  import opened Rebalance
  import opened RebalanceGoals

  // ---------------------------------------------------------------- collecting what moves

  /** The listed slots that currently belong to the group. */
  ghost function GivenBy(slots: seq<SlotMapping>, docking: seq<nat>, g: int): set<nat> {
    set sid | sid in docking && sid < |slots| && slots[sid].gid == g
  }

  ghost predicate DockingOk(slots: seq<SlotMapping>, docking: seq<nat>) {
    Distinct(docking) && forall sid :: sid in docking ==> sid < |slots| && slots[sid].action.state.Nothing?
  }

  lemma AddGiven(slots: seq<SlotMapping>, docking: seq<nat>, take: seq<nat>, g: int)
    requires DockingOk(slots, docking) && Distinct(take)
    requires forall sid :: sid in take ==> sid < |slots| && Idle(slots[sid], g)
    requires GivenBy(slots, docking, g) == {}
    ensures DockingOk(slots, docking + take)
    ensures |GivenBy(slots, docking + take, g)| == |take|
    ensures forall h :: h != g ==> GivenBy(slots, docking + take, h) == GivenBy(slots, docking, h)
  {
    forall sid | sid in take ensures sid !in docking {
      assert sid !in GivenBy(slots, docking, g);
    }
    var all := docking + take;
    forall i, j | 0 <= i < j < |all| ensures all[i] != all[j] {
      if i < |docking| <= j { assert all[i] in docking && all[j] in take; }
    }
    forall sid | sid in docking ensures slots[sid].gid != g {
      assert sid !in GivenBy(slots, docking, g);
    }
    assert GivenBy(slots, all, g) == SetOf(take);
    SetOfSize(take);
    forall h | h != g ensures GivenBy(slots, all, h) == GivenBy(slots, docking, h) {}
  }

  /** How many slots a group has given once the groups in `todo` are still to be handled. */
  ghost predicate GaveSoFar(slots: seq<SlotMapping>, docking: seq<nat>, t: Tally, todo: set<int>, g: int) {
    g != 0 ==> |GivenBy(slots, docking, g)| == if g in todo then 0 else Positive(At(t.moveout, g))
  }

  /** What the last loop has left in `moveout`: only the receiving groups. */
  ghost predicate LeftSoFar(t: Tally, left: map<int, int>, todo: set<int>, g: int) {
    At(left, g) == if g in todo || At(t.moveout, g) < 0 then At(t.moveout, g) else 0
  }

  ghost predicate CanGive(slots: seq<SlotMapping>, t: Tally) {
    forall g :: PendingOk(slots, |slots|, t.Pending(g), g) && At(t.moveout, g) <= |t.Pending(g)|
                && (|t.Pending(g)| > 0 ==> g != 0)
  }

  /** What is listed of a group has larger ids than what is not. */
  ghost predicate LargestListed(slots: seq<SlotMapping>, docking: seq<nat>) {
    forall a, b: nat :: a in docking && b !in docking && SameIdle(slots, a, b) ==> b < a
  }

  lemma AddLargest(slots: seq<SlotMapping>, docking: seq<nat>, p: seq<nat>, take: seq<nat>, g: int)
    requires LargestListed(slots, docking) && GivenBy(slots, docking, g) == {} && g != 0
    requires PendingOk(slots, |slots|, p, g) && StaysFirst(slots, |slots|, p, g)
    requires (forall x :: x in take ==> x in p) && forall x, y :: x in take && y in p && y !in take ==> y < x
    ensures LargestListed(slots, docking + take)
  {
    forall a, b: nat | a in docking + take && b !in docking + take && SameIdle(slots, a, b) ensures b < a {
      if a in take {
        assert b in p || b < a;
      } else {
        assert a in docking && b !in docking;
      }
    }
  }

  /** Take the largest slot ids of every group that gives. */
  method Undock(slots: seq<SlotMapping>, t: Tally, offline: seq<nat>) returns (docking: seq<nat>, left: map<int, int>)
    requires Distinct(offline) && forall sid :: sid in offline ==> sid < |slots| && Idle(slots[sid], 0)
    requires CanGive(slots, t) && AllStayFirst(slots, |slots|, t)
    ensures DockingOk(slots, docking) && GivenBy(slots, docking, 0) == SetOf(offline)
    ensures LargestListed(slots, docking)
    ensures forall g :: GaveSoFar(slots, docking, t, {}, g)
    ensures forall g :: LeftSoFar(t, left, {}, g)
  {
    docking, left := offline, t.moveout;
    var todo := t.moveout.Keys;
    assert GivenBy(slots, docking, 0) == SetOf(offline);
    forall g ensures GaveSoFar(slots, docking, t, todo, g) {
      if g != 0 { assert GivenBy(slots, docking, g) == {}; }
    }
    while todo != {}
      invariant DockingOk(slots, docking) && GivenBy(slots, docking, 0) == SetOf(offline)
      invariant LargestListed(slots, docking)
      invariant forall g :: GaveSoFar(slots, docking, t, todo, g)
      invariant forall g :: LeftSoFar(t, left, todo, g)
      invariant todo <= t.moveout.Keys
      decreases |todo|
    {
      var gid := AnyOf(todo);
      var n := t.moveout[gid];
      docking, left := UndockOne(slots, t, docking, left, gid, n, todo);
      todo := todo - {gid};
    }
  }

  method UndockOne(slots: seq<SlotMapping>, t: Tally, docking: seq<nat>, left: map<int, int>, gid: int, n: int,
      ghost todo: set<int>)
      returns (docking': seq<nat>, left': map<int, int>)
    requires CanGive(slots, t) && AllStayFirst(slots, |slots|, t) && gid in todo && n == At(t.moveout, gid)
    requires DockingOk(slots, docking) && LargestListed(slots, docking)
    requires forall g :: GaveSoFar(slots, docking, t, todo, g)
    requires forall g :: LeftSoFar(t, left, todo, g)
    ensures DockingOk(slots, docking') && GivenBy(slots, docking', 0) == GivenBy(slots, docking, 0)
    ensures LargestListed(slots, docking')
    ensures forall g :: GaveSoFar(slots, docking', t, todo - {gid}, g)
    ensures forall g :: LeftSoFar(t, left', todo - {gid}, g)
  {
    docking', left' := docking, left;
    ghost var rest := todo - {gid};
    assert GaveSoFar(slots, docking, t, todo, gid) && LeftSoFar(t, left, todo, gid);
    if n >= 0 {
      if n > 0 {
        assert PendingOk(slots, |slots|, t.Pending(gid), gid) && n <= |t.Pending(gid)| && gid != 0;
        LargestTaken(t.Pending(gid), n);
        var take := Largest(t.Pending(gid), n);
        AddGiven(slots, docking, take, gid);
        AddLargest(slots, docking, t.Pending(gid), take, gid);
        docking' := docking + take;
      }
      left' := left - {gid};
    }
    forall g ensures GaveSoFar(slots, docking', t, rest, g) && LeftSoFar(t, left', rest, g) {
      assert GaveSoFar(slots, docking, t, todo, g) && LeftSoFar(t, left, todo, g);
    }
  }

  // ---------------------------------------------------------------- handing it out

  ghost function ReceivedBy(plans: map<nat, int>, g: int): set<nat> {
    set sid | sid in plans && plans[sid] == g
  }

  function Wanted(left: map<int, int>, g: int): nat {
    Positive(-At(left, g))
  }

  lemma AddReceived(plans: map<nat, int>, sid: nat, g: int)
    requires sid !in plans
    ensures |ReceivedBy(plans[sid := g], g)| == |ReceivedBy(plans, g)| + 1
    ensures forall h :: h != g ==> ReceivedBy(plans[sid := g], h) == ReceivedBy(plans, h)
  {
    var plans' := plans[sid := g];
    assert ReceivedBy(plans', g) == ReceivedBy(plans, g) + {sid};
    forall h | h != g ensures ReceivedBy(plans', h) == ReceivedBy(plans, h) {}
  }

  /** The first `c` docked slots have been handed out. */
  ghost predicate HandedOut(docking: seq<nat>, c: nat, plans: map<nat, int>)
    requires c <= |docking|
  {
    plans.Keys == SetOf(docking[..c])
  }

  method HandTo(docking: seq<nat>, c: nat, plans: map<nat, int>, gid: int, want: nat)
      returns (c': nat, plans': map<nat, int>)
    requires Distinct(docking) && c + want <= |docking| && HandedOut(docking, c, plans)
    requires ReceivedBy(plans, gid) == {}
    ensures c' == c + want && HandedOut(docking, c', plans')
    ensures |ReceivedBy(plans', gid)| == want
    ensures forall h :: h != gid ==> ReceivedBy(plans', h) == ReceivedBy(plans, h)
    ensures (forall sid :: sid in plans ==> sid in plans' && plans'[sid] == plans[sid])
    ensures forall i :: c <= i < c' ==> docking[i] in plans' && plans'[docking[i]] == gid
  {
    c', plans' := c, plans;
    var i := 0;
    while i < want && c' < |docking|
      invariant 0 <= i <= want && c' == c + i && HandedOut(docking, c', plans')
      invariant |ReceivedBy(plans', gid)| == i
      invariant forall h :: h != gid ==> ReceivedBy(plans', h) == ReceivedBy(plans, h)
      invariant (forall sid :: sid in plans ==> sid in plans' && plans'[sid] == plans[sid])
      invariant forall k :: c <= k < c' ==> docking[k] in plans' && plans'[docking[k]] == gid
    {
      var sid := docking[c'];
      assert docking[..c' + 1] == docking[..c'] + [sid];
      assert sid !in docking[..c'];
      AddReceived(plans', sid, gid);
      plans' := plans'[sid := gid];
      c', i := c' + 1, i + 1;
    }
  }

  lemma SumSplit(gids: seq<int>, f: int -> int, k: nat)
    requires k < |gids|
    ensures Sum(gids[k..], f) == f(gids[k]) + Sum(gids[k + 1..], f)
  {
  }

  /** The first `c` docked slots went to the first groups, in order. */
  ghost predicate HandedInOrder(gids: seq<int>, docking: seq<nat>, c: nat, plans: map<nat, int>, k: nat)
    requires c <= |docking| && k <= |gids|
  {
    && (forall i :: 0 <= i < c ==> docking[i] in plans && plans[docking[i]] in gids[..k])
    && forall i, j :: 0 <= i < j < c ==> plans[docking[i]] <= plans[docking[j]]
  }

  ghost predicate Rising(s: seq<int>) {
    forall i, j :: 0 <= i < j < |s| ==> s[i] < s[j]
  }

  lemma NextInOrder(gids: seq<int>, docking: seq<nat>, c: nat, plans: map<nat, int>, c': nat, plans': map<nat, int>,
      k: nat)
    requires Rising(gids) && k < |gids| && c <= c' <= |docking| && HandedInOrder(gids, docking, c, plans, k)
    requires forall sid :: sid in plans ==> sid in plans' && plans'[sid] == plans[sid]
    requires forall i :: c <= i < c' ==> docking[i] in plans' && plans'[docking[i]] == gids[k]
    ensures HandedInOrder(gids, docking, c', plans', k + 1)
  {
    assert gids[..k + 1] == gids[..k] + [gids[k]];
  }

  lemma OrderIsSlotOrder(gids: seq<int>, docking: seq<nat>, plans: map<nat, int>)
    requires HandedInOrder(gids, docking, |docking|, plans, |gids|)
    requires plans.Keys == SetOf(docking) && Ascending(docking)
    ensures InSlotOrder(plans)
  {
    forall a, b | a in plans && b in plans && a < b ensures plans[a] <= plans[b] {
      assert a in SetOf(docking) && b in SetOf(docking);
      var i :| 0 <= i < |docking| && docking[i] == a;
      var j :| 0 <= j < |docking| && docking[j] == b;
      assert i < j;
    }
  }

  /** The first `k` groups have received what they want. */
  ghost predicate Handed(gids: seq<int>, left: map<int, int>, docking: seq<nat>, c: nat, plans: map<nat, int>, k: nat)
    requires k <= |gids| && c <= |docking|
  {
    && HandedOut(docking, c, plans) && (Rising(gids) ==> HandedInOrder(gids, docking, c, plans, k))
    && forall g :: |ReceivedBy(plans, g)| == if g in gids[..k] then Wanted(left, g) else 0
  }

  method HandNext(gids: seq<int>, left: map<int, int>, docking: seq<nat>, c: nat, plans: map<nat, int>, k: nat)
      returns (c': nat, plans': map<nat, int>)
    requires Distinct(gids) && Distinct(docking) && k < |gids| && c + Wanted(left, gids[k]) <= |docking|
    requires Handed(gids, left, docking, c, plans, k)
    ensures c' == c + Wanted(left, gids[k]) && Handed(gids, left, docking, c', plans', k + 1)
  {
    assert gids[k] !in gids[..k];
    assert gids[..k + 1] == gids[..k] + [gids[k]];
    assert ReceivedBy(plans, gids[k]) == {};
    c', plans' := HandTo(docking, c, plans, gids[k], Wanted(left, gids[k]));
    if Rising(gids) { NextInOrder(gids, docking, c, plans, c', plans', k); }
  }

  /** Hand out exactly as many slots as the groups want, in group order. */
  method MakePlans(gids: seq<int>, left: map<int, int>, docking: seq<nat>) returns (plans: map<nat, int>)
    requires Distinct(gids) && Distinct(docking) && Sum(gids, g => Wanted(left, g)) == |docking|
    ensures plans.Keys == SetOf(docking)
    ensures Rising(gids) ==> HandedInOrder(gids, docking, |docking|, plans, |gids|)
    ensures forall g :: |ReceivedBy(plans, g)| == if g in gids then Wanted(left, g) else 0
  {
    plans := map[];
    var c: nat := 0;
    ghost var want := (g: int) => Wanted(left, g);
    SumSame(gids, g => Wanted(left, g), want);
    assert gids[0..] == gids;
    forall g ensures ReceivedBy(plans, g) == {} {}
    for k := 0 to |gids|
      invariant c <= |docking| && Handed(gids, left, docking, c, plans, k)
      invariant Sum(gids[k..], want) == |docking| - c
    {
      SumSplit(gids, want, k);
      SumAtLeast(gids[k + 1..], want, 0);
      c, plans := HandNext(gids, left, docking, c, plans, k);
    }
    assert gids[|gids|..] == [] && gids[..|gids|] == gids && docking[..|docking|] == docking;
  }

  // ---------------------------------------------------------------- the plan

  /** What the counters and the plan have in common. */
  ghost predicate PlanMatches(slots: seq<SlotMapping>, gids: seq<int>, t: Tally, docking: seq<nat>,
      plans: map<nat, int>) {
    && DockingOk(slots, docking) && plans.Keys == SetOf(docking)
    && (forall g :: GaveSoFar(slots, docking, t, {}, g))
    && (forall g :: |ReceivedBy(plans, g)| == if g in gids then Positive(-At(t.moveout, g)) else 0)
  }

  lemma GivesOrReceives(slots: seq<SlotMapping>, gids: seq<int>, t: Tally, docking: seq<nat>, plans: map<nat, int>,
      sid: nat)
    requires PlanMatches(slots, gids, t, docking, plans) && sid in plans
    ensures sid < |slots| && slots[sid].action.state.Nothing?
    ensures plans[sid] in gids && At(t.moveout, plans[sid]) < 0
    ensures slots[sid].gid != 0 ==> At(t.moveout, slots[sid].gid) > 0
  {
    assert sid in SetOf(docking);
    assert sid in ReceivedBy(plans, plans[sid]);
    assert sid in GivenBy(slots, docking, slots[sid].gid);
    assert GaveSoFar(slots, docking, t, {}, slots[sid].gid);
  }

  /** A group ends up exactly as large as the balancer counted. */
  lemma LoadIsSize(slots: seq<SlotMapping>, gids: seq<int>, t: Tally, docking: seq<nat>, plans: map<nat, int>, g: int)
    requires Housed(slots, gids) && g in gids
    requires t.Base(g) == |Heading(slots, |slots|, g)| + |Idlers(slots, |slots|, g)|
    requires PlanMatches(slots, gids, t, docking, plans)
    ensures Load(slots, plans, g) == t.Size(g)
  {
    var home, given, received := HomeSet(slots, g), GivenBy(slots, docking, g), ReceivedBy(plans, g);
    HomeSetSize(slots, gids, g);
    assert GaveSoFar(slots, docking, t, {}, g);
    forall sid | sid in received ensures sid < |slots| {
      assert sid in SetOf(docking);
    }
    forall sid | sid in home && sid in plans ensures sid in given {
      assert sid in SetOf(docking);
    }
    assert given <= home;
    forall sid | sid in given ensures sid in plans {
      assert sid in SetOf(docking);
    }
    assert Residents(slots, plans, g) == (home - given) + received;
    forall sid | sid in home - given ensures sid !in received {}
  }

  /** As many slots are handed out as were collected. */
  lemma WantedIsDocked(slots: seq<SlotMapping>, gids: seq<int>, t: Tally, docking: seq<nat>, left: map<int, int>)
    requires Distinct(gids) && 0 !in gids && DockingOk(slots, docking)
    requires forall g :: GaveSoFar(slots, docking, t, {}, g) && LeftSoFar(t, left, {}, g)
    requires forall sid :: sid in docking ==> slots[sid].gid == 0 || slots[sid].gid in gids
    requires TotalMoveout(gids, t) == -|GivenBy(slots, docking, 0)|
    ensures Sum(gids, g => Wanted(left, g)) == |docking|
  {
    var all := SetOf(docking);
    var key := (sid: nat) => if sid < |slots| then slots[sid].gid else 0;
    var offline := GivenBy(slots, docking, 0);
    SetOfSize(docking);
    Partition(all - offline, key, gids);
    forall g | g in gids ensures |Part(all - offline, key, g)| == Positive(At(t.moveout, g)) {
      assert Part(all - offline, key, g) == GivenBy(slots, docking, g);
      assert GaveSoFar(slots, docking, t, {}, g);
    }
    var part := (g: int) => |Part(all - offline, key, g)| as int;
    var gave := (g: int) => Positive(At(t.moveout, g)) as int;
    var moved := (g: int) => At(t.moveout, g);
    var want := (g: int) => Wanted(left, g) as int;
    SumSame(gids, g => |Part(all - offline, key, g)|, part);
    SumSame(gids, part, gave);
    SumSame(gids, g => At(t.moveout, g), moved);
    forall g | g in gids ensures gave(g) == moved(g) + want(g) {
      assert LeftSoFar(t, left, {}, g);
    }
    SumAdd(gids, moved, want, gave);
    SumSame(gids, want, g => Wanted(left, g));
    assert offline <= all;
  }

  // ---------------------------------------------------------------- how even the groups become

  /** If no group above the lower bound exceeds another by more than one, all are between the bounds. */
  lemma EvenSizes(gids: seq<int>, t: Tally, total: nat)
    requires Distinct(gids) && gids != [] && TotalSize(gids, t) == total
    requires forall g, h :: g in gids && h in gids && t.Size(g) > LowerBound(total, |gids|) ==>
        t.Size(g) <= t.Size(h) + 1
    ensures forall g :: g in gids ==> LowerBound(total, |gids|) <= t.Size(g) <= UpperBound(total, |gids|)
  {
    var lower, upper := LowerBound(total, |gids|), UpperBound(total, |gids|);
    Bounds(total, |gids|);
    var size := (g: int) => t.Size(g);
    SumSame(gids, g => t.Size(g), size);
    if g :| g in gids && t.Size(g) > upper {
      forall h | h in gids ensures size(h) >= upper {}
      SumAtLeast(gids, size, upper);
    }
    if h :| h in gids && t.Size(h) < lower {
      forall g | g in gids ensures size(g) <= lower {}
      SumAtMost(gids, size, lower);
    }
  }

  /** The counters the balancer ends with, tied to the slots they count. */
  ghost predicate CountedFor(slots: seq<SlotMapping>, gids: seq<int>, t: Tally, lower: int) {
    && (forall g :: GroupTally(slots, |slots|, t, lower, g))
    && (forall g :: At(t.moveout, g) <= |t.Pending(g)|)
    && Balanced(gids, t, lower)
    && TotalSize(gids, t) == |slots|
  }

  /** A group that is exhausted and yet above the lower bound has given every slot it could. */
  lemma ExhaustedGaveAll(slots: seq<SlotMapping>, gids: seq<int>, t: Tally, lower: int, docking: seq<nat>,
      plans: map<nat, int>, sid: nat)
    requires CountedFor(slots, gids, t, lower) && PlanMatches(slots, gids, t, docking, plans)
    requires sid < |slots| && slots[sid].action.state.Nothing? && slots[sid].gid != 0
    requires t.Exhausted(slots[sid].gid) && t.Size(slots[sid].gid) > lower
    ensures sid in plans
  {
    var g := slots[sid].gid;
    assert GroupTally(slots, |slots|, t, lower, g) && GaveSoFar(slots, docking, t, {}, g);
    var given, idlers := GivenBy(slots, docking, g), Idlers(slots, |slots|, g);
    assert |given| == |idlers|;
    assert given <= idlers;
    SubsetOfSameSize(given, idlers);
    assert sid in idlers;
    assert sid in SetOf(docking);
  }

  lemma SubsetOfSameSize(a: set<nat>, b: set<nat>)
    requires a <= b && |a| == |b|
    ensures a == b
  {
    assert |b - a| == 0;
  }

  lemma PlanIsEven(slots: seq<SlotMapping>, gids: seq<int>, t: Tally, lower: int, docking: seq<nat>,
      plans: map<nat, int>)
    requires Housed(slots, gids) && CountedFor(slots, gids, t, lower) && PlanMatches(slots, gids, t, docking, plans)
    requires PlansWell(slots, gids, plans)
    ensures AsEvenAsPossible(slots, gids, plans, lower)
  {
    forall sid: nat, h |
      && sid < |slots| && sid !in plans && slots[sid].action.state.Nothing? && h in gids
      && Load(slots, plans, slots[sid].gid) > lower
      ensures Load(slots, plans, slots[sid].gid) <= Load(slots, plans, h) + 1
    {
      var g := slots[sid].gid;
      assert g != 0 by { assert g == 0 ==> Idle(slots[sid], 0); }
      assert g in gids;
      assert GroupTally(slots, |slots|, t, lower, g) && GroupTally(slots, |slots|, t, lower, h);
      LoadIsSize(slots, gids, t, docking, plans, g);
      LoadIsSize(slots, gids, t, docking, plans, h);
      assert Settled(gids, t, lower, g);
      if t.Exhausted(g) { ExhaustedGaveAll(slots, gids, t, lower, docking, plans, sid); }
    }
  }

  lemma PlanIsPerfect(slots: seq<SlotMapping>, gids: seq<int>, t: Tally, docking: seq<nat>, plans: map<nat, int>)
    requires gids != [] && Housed(slots, gids) && NoActions(slots)
    requires CountedFor(slots, gids, t, LowerBound(|slots|, |gids|)) && PlanMatches(slots, gids, t, docking, plans)
    ensures PerfectlyEven(slots, gids, plans)
  {
    var lower := LowerBound(|slots|, |gids|);
    forall g ensures At(t.held, g) <= lower {
      assert GroupTally(slots, |slots|, t, lower, g);
      assert Heading(slots, |slots|, g) == {};
    }
    forall g, h | g in gids && h in gids && t.Size(g) > lower ensures t.Size(g) <= t.Size(h) + 1 {
      assert Settled(gids, t, lower, g);
    }
    EvenSizes(gids, t, |slots|);
    forall g | g in gids ensures Load(slots, plans, g) == t.Size(g) {
      assert GroupTally(slots, |slots|, t, lower, g);
      LoadIsSize(slots, gids, t, docking, plans, g);
    }
  }

  lemma PlanGivesSurplus(slots: seq<SlotMapping>, gids: seq<int>, t: Tally, lower: int, docking: seq<nat>,
      plans: map<nat, int>)
    requires Housed(slots, gids) && CountedFor(slots, gids, t, lower) && PlanMatches(slots, gids, t, docking, plans)
    ensures GivesSurplus(slots, plans, lower)
  {
    forall a, b | a in plans && b in plans && b < |slots| ensures plans[a] != slots[b].gid {
      GivesOrReceives(slots, gids, t, docking, plans, a);
      GivesOrReceives(slots, gids, t, docking, plans, b);
      assert plans[a] != 0;
    }
    forall sid | sid in plans && sid < |slots| && slots[sid].gid != 0
      ensures Load(slots, plans, slots[sid].gid) >= lower
    {
      var g := slots[sid].gid;
      GivesOrReceives(slots, gids, t, docking, plans, sid);
      assert GroupTally(slots, |slots|, t, lower, g);
      assert Home(slots[sid]) == g && g in gids;
      LoadIsSize(slots, gids, t, docking, plans, g);
    }
  }

  /** What the counters say about givers and receivers holds of the groups. */
  lemma PlanOvertakesNone(slots: seq<SlotMapping>, gids: seq<int>, t: Tally, lower: int, docking: seq<nat>,
      plans: map<nat, int>)
    requires Housed(slots, gids) && CountedFor(slots, gids, t, lower) && PlanMatches(slots, gids, t, docking, plans)
    requires NoneOvertaken(gids, t)
    ensures OvertakesNone(slots, plans)
  {
    forall a, b | a in plans && b in plans && a < |slots| && slots[a].gid != 0
      ensures Load(slots, plans, plans[b]) <= Load(slots, plans, slots[a].gid)
    {
      var g, h := slots[a].gid, plans[b];
      GivesOrReceives(slots, gids, t, docking, plans, a);
      GivesOrReceives(slots, gids, t, docking, plans, b);
      assert Home(slots[a]) == g && g in gids;
      assert GroupTally(slots, |slots|, t, lower, g) && GroupTally(slots, |slots|, t, lower, h);
      LoadIsSize(slots, gids, t, docking, plans, g);
      LoadIsSize(slots, gids, t, docking, plans, h);
    }
  }

  lemma PlanIsWell(slots: seq<SlotMapping>, gids: seq<int>, t: Tally, docking: seq<nat>, plans: map<nat, int>)
    requires Housed(slots, gids) && PlanMatches(slots, gids, t, docking, plans)
    requires GivenBy(slots, docking, 0) == SetOf(OfflineIds(slots, |slots|))
    ensures PlansWell(slots, gids, plans)
  {
    forall sid | sid in plans
      ensures sid < |slots| && slots[sid].action.state.Nothing? && plans[sid] in gids && plans[sid] != slots[sid].gid
    {
      GivesOrReceives(slots, gids, t, docking, plans, sid);
    }
    OfflineIdsExact(slots, |slots|);
    forall sid: nat | sid < |slots| && Idle(slots[sid], 0) ensures sid in plans {
      assert sid in OfflineIds(slots, |slots|);
      assert sid in GivenBy(slots, docking, 0);
      assert sid in SetOf(docking);
    }
  }

  /** Place the offline slots, then even out the groups. */
  method Spread(slots: seq<SlotMapping>, gids: seq<int>, t0: Tally, tree0: Tree, lower: int, upper: int)
      returns (t: Tally, docking: seq<nat>)
    requires gids != [] && Distinct(gids) && |slots| <= upper * |gids|
    requires LoopInv(gids, t0, tree0, |slots| - |OfflineIds(slots, |slots|)|, 0)
    requires (forall g :: g in gids ==> g in Keys(tree0)) && t0.moveout == map[]
    ensures t.held == t0.held && t.pendings == t0.pendings && NoneOvertaken(gids, t)
    ensures docking == OfflineIds(slots, |slots|)
    ensures Balanced(gids, t, lower) && TotalSize(gids, t) == |slots| && TotalMoveout(gids, t) == -|docking|
    ensures forall g :: At(t.moveout, g) <= |t.Pending(g)|
    ensures forall g :: g !in gids ==> At(t.moveout, g) == 0
  {
    var tree;
    ghost var ts, dests;
    t, tree, docking, ts, dests := PlaceOffline(slots, gids, t0, tree0, |slots| - |OfflineIds(slots, |slots|)|);
    OnlyReceivedFrugal(gids, t, Keys(tree));
    t := Balance(gids, t, tree, lower, upper, |slots|, |docking|);
  }

  /** Balancing changes only how many slots move. */
  lemma CarriedOver(slots: seq<SlotMapping>, gids: seq<int>, t0: Tally, t: Tally, lower: int)
    requires forall g :: GroupTally(slots, |slots|, t0, lower, g)
    requires t.held == t0.held && t.pendings == t0.pendings
    ensures forall g :: GroupTally(slots, |slots|, t, lower, g)
    ensures (forall g :: At(t.moveout, g) <= |t.Pending(g)|) ==> CanGive(slots, t)
  {
    forall g
      ensures GroupTally(slots, |slots|, t, lower, g)
      ensures PendingOk(slots, |slots|, t.Pending(g), g) && (|t.Pending(g)| > 0 ==> g != 0)
    {
      assert GroupTally(slots, |slots|, t0, lower, g);
    }
  }

  lemma HomesOfDocked(slots: seq<SlotMapping>, gids: seq<int>, docking: seq<nat>)
    requires Housed(slots, gids) && DockingOk(slots, docking)
    ensures forall sid :: sid in docking ==> slots[sid].gid == 0 || slots[sid].gid in gids
  {
  }

  method SortDocking(slots: seq<SlotMapping>, docking: seq<nat>) returns (sorted: seq<nat>)
    requires DockingOk(slots, docking)
    ensures DockingOk(slots, sorted) && |sorted| == |docking| && Ascending(sorted)
    ensures forall g :: GivenBy(slots, sorted, g) == GivenBy(slots, docking, g)
    ensures SetOf(sorted) == SetOf(docking)
  {
    SortIdsSorted(docking);
    SameElements(docking, SortIds(docking));
    sorted := SortIds(docking);
    forall g ensures GivenBy(slots, sorted, g) == GivenBy(slots, docking, g) {}
  }

  lemma MatchUp(slots: seq<SlotMapping>, gids: seq<int>, t: Tally, docking: seq<nat>, left: map<int, int>,
      plans: map<nat, int>)
    requires DockingOk(slots, docking) && plans.Keys == SetOf(docking)
    requires forall g :: GaveSoFar(slots, docking, t, {}, g)
    requires forall g :: LeftSoFar(t, left, {}, g)
    requires forall g :: |ReceivedBy(plans, g)| == if g in gids then Wanted(left, g) else 0
    ensures PlanMatches(slots, gids, t, docking, plans)
  {
    forall g ensures |ReceivedBy(plans, g)| == if g in gids then Positive(-At(t.moveout, g)) else 0 {
      assert LeftSoFar(t, left, {}, g);
    }
  }

  /** The counting half: how many slots each group gives or receives. */
  method Tabulate(slots: seq<SlotMapping>, gids: seq<int>) returns (t: Tally, offline: seq<nat>)
    requires gids != [] && Housed(slots, gids)
    ensures CountedFor(slots, gids, t, LowerBound(|slots|, |gids|)) && CanGive(slots, t)
    ensures NoneOvertaken(gids, t) && AllStayFirst(slots, |slots|, t)
    ensures offline == OfflineIds(slots, |slots|) && TotalMoveout(gids, t) == -|offline|
  {
    var lower, upper := LowerBound(|slots|, |gids|), UpperBound(|slots|, |gids|);
    var held := CountActions(slots);
    var t0 := CountIdle(slots, held, lower);
    var tree := BuildTree(gids, t0);
    StartInv(slots, gids, t0, lower, tree);
    Bounds(|slots|, |gids|);
    t, offline := Spread(slots, gids, t0, tree, lower, upper);
    CarriedOver(slots, gids, t0, t, lower);
    assert forall g :: t.Pending(g) == t0.Pending(g);
  }

  lemma LargestPlanned(slots: seq<SlotMapping>, undocked: seq<nat>, docking: seq<nat>, plans: map<nat, int>)
    requires LargestListed(slots, undocked) && SetOf(docking) == SetOf(undocked) && plans.Keys == SetOf(docking)
    ensures PlansLargest(slots, plans)
  {
    forall a, b: nat | a in plans && b !in plans && SameIdle(slots, a, b) ensures b < a {
      assert a in SetOf(undocked) && b !in SetOf(undocked);
    }
  }

  /** The planning half: which slots, and where to. */
  method Issue(slots: seq<SlotMapping>, gids: seq<int>, t: Tally, offline: seq<nat>)
      returns (docking: seq<nat>, plans: map<nat, int>)
    requires Housed(slots, gids) && CanGive(slots, t) && AllStayFirst(slots, |slots|, t)
    requires offline == OfflineIds(slots, |slots|) && TotalMoveout(gids, t) == -|offline|
    ensures PlanMatches(slots, gids, t, docking, plans)
    ensures GivenBy(slots, docking, 0) == SetOf(offline)
    ensures PlansLargest(slots, plans) && (Rising(gids) ==> InSlotOrder(plans))
  {
    OfflineIdsExact(slots, |slots|);
    SetOfSize(offline);
    var undocked, left := Undock(slots, t, offline);
    HomesOfDocked(slots, gids, undocked);
    WantedIsDocked(slots, gids, t, undocked, left);
    docking := SortDocking(slots, undocked);
    forall g ensures GaveSoFar(slots, docking, t, {}, g) {
      assert GaveSoFar(slots, undocked, t, {}, g);
    }
    plans := MakePlans(gids, left, docking);
    MatchUp(slots, gids, t, docking, left, plans);
    LargestPlanned(slots, undocked, docking, plans);
    if Rising(gids) { OrderIsSlotOrder(gids, docking, plans); }
  }

  /** SlotsRebalance without confirmation. */
  method Plan(slots: seq<SlotMapping>, gids: seq<int>) returns (plans: map<nat, int>)
    requires gids != [] && Housed(slots, gids)
    ensures PlansWell(slots, gids, plans)
    ensures GivesSurplus(slots, plans, LowerBound(|slots|, |gids|))
    ensures AsEvenAsPossible(slots, gids, plans, LowerBound(|slots|, |gids|))
    ensures NoActions(slots) ==> PerfectlyEven(slots, gids, plans)
    ensures PlansLargest(slots, plans) && (Rising(gids) ==> InSlotOrder(plans))
    ensures OvertakesNone(slots, plans)
    ensures NoActions(slots) ==> FewestMoves(slots, gids, plans)
    ensures AlreadyEven(slots, gids) ==> plans == map[]
  {
    var t, offline := Tabulate(slots, gids);
    var docking;
    docking, plans := Issue(slots, gids, t, offline);
    PlanIsWell(slots, gids, t, docking, plans);
    PlanGivesSurplus(slots, gids, t, LowerBound(|slots|, |gids|), docking, plans);
    PlanIsEven(slots, gids, t, LowerBound(|slots|, |gids|), docking, plans);
    PlanOvertakesNone(slots, gids, t, LowerBound(|slots|, |gids|), docking, plans);
    if NoActions(slots) {
      PlanIsPerfect(slots, gids, t, docking, plans);
      PlanHasFewest(slots, gids, plans, LowerBound(|slots|, |gids|));
    }
    if AlreadyEven(slots, gids) { EvenNeedsNothing(slots, gids, plans, LowerBound(|slots|, |gids|)); }
  }
}
