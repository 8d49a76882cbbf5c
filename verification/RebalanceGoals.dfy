/**
 What makes a plan of migrations good: it is even, it moves only what it may, and it moves no more than
 it must.  Nothing here knows how the plan was made.
 */
module RebalanceGoals {
  import opened Models
  import opened Sums
  import opened Rebalance

  function Positive(n: int): nat {
    if n > 0 then n else 0
  }

  /** Where a slot belongs once the plan and the actions in flight are done. */
  function FinalHome(slots: seq<SlotMapping>, plans: map<nat, int>, sid: nat): int
    requires sid < |slots|
  {
    if sid in plans then plans[sid] else Home(slots[sid])
  }

  ghost function Residents(slots: seq<SlotMapping>, plans: map<nat, int>, g: int): set<nat> {
    set sid: nat | sid < |slots| && FinalHome(slots, plans, sid) == g
  }

  /** The size of a group once everything is done. */
  ghost function Load(slots: seq<SlotMapping>, plans: map<nat, int>, g: int): nat {
    |Residents(slots, plans, g)|
  }

  function LowerBound(total: nat, groups: nat): nat
    requires groups > 0
  {
    total / groups
  }

  function UpperBound(total: nat, groups: nat): nat
    requires groups > 0
  {
    (total + groups - 1) / groups
  }

  lemma Bounds(total: nat, n: nat)
    requires n > 0
    ensures LowerBound(total, n) * n <= total <= UpperBound(total, n) * n
    ensures LowerBound(total, n) <= UpperBound(total, n)
  {
  }

  lemma BoundsClose(total: nat, n: nat)
    requires n > 0
    ensures UpperBound(total, n) <= LowerBound(total, n) + 1
  {
    var q, u := LowerBound(total, n), UpperBound(total, n);
    assert total < (q + 1) * n && u * n <= total + n - 1;
    assert u >= q + 2 ==> u * n >= (q + 2) * n;
  }

  ghost predicate NoActions(slots: seq<SlotMapping>) {
    forall sid :: 0 <= sid < |slots| ==> slots[sid].action.state.Nothing?
  }

  /** Only slots without an action are planned, to a different group, and every offline one is. */
  ghost predicate PlansWell(slots: seq<SlotMapping>, gids: seq<int>, plans: map<nat, int>) {
    && (forall sid :: sid in plans ==>
          sid < |slots| && slots[sid].action.state.Nothing? && plans[sid] in gids && plans[sid] != slots[sid].gid)
    && (forall sid: nat :: sid < |slots| && Idle(slots[sid], 0) ==> sid in plans)
  }

  /** No group both gives and receives, and what a group gives it has above the lower bound. */
  ghost predicate GivesSurplus(slots: seq<SlotMapping>, plans: map<nat, int>, lower: int) {
    && (forall a, b :: a in plans && b in plans && b < |slots| ==> plans[a] != slots[b].gid)
    && (forall sid :: sid in plans && sid < |slots| && slots[sid].gid != 0 ==>
        Load(slots, plans, slots[sid].gid) >= lower)
  }

  /** A group above the lower bound that still keeps a slot it could give is at most one larger than
      every other group. */
  ghost predicate AsEvenAsPossible(slots: seq<SlotMapping>, gids: seq<int>, plans: map<nat, int>, lower: int) {
    forall sid: nat, h ::
      && sid < |slots| && sid !in plans && slots[sid].action.state.Nothing? && h in gids
      && Load(slots, plans, slots[sid].gid) > lower
      ==> Load(slots, plans, slots[sid].gid) <= Load(slots, plans, h) + 1
  }

  /** Without actions in flight the groups end up with floor(N/n) or ceil(N/n) slots each. */
  ghost predicate PerfectlyEven(slots: seq<SlotMapping>, gids: seq<int>, plans: map<nat, int>)
    requires gids != []
  {
    forall g :: g in gids ==>
      LowerBound(|slots|, |gids|) <= Load(slots, plans, g) <= UpperBound(|slots|, |gids|)
  }

  /** No receiving group ends larger than a giving one. */
  ghost predicate OvertakesNone(slots: seq<SlotMapping>, plans: map<nat, int>) {
    forall a, b :: a in plans && b in plans && a < |slots| && slots[a].gid != 0 ==>
      Load(slots, plans, plans[b]) <= Load(slots, plans, slots[a].gid)
  }

  /** Any other plan that is well-formed and perfectly even moves at least as many slots. */
  ghost predicate FewestMoves(slots: seq<SlotMapping>, gids: seq<int>, plans: map<nat, int>)
    requires gids != []
  {
    forall other: map<nat, int> ::
      PlansWell(slots, gids, other) && PerfectlyEven(slots, gids, other) ==> |plans| <= |other|
  }

  /** No slot waits for a group, and no two groups differ by more than one. */
  ghost predicate AlreadyEven(slots: seq<SlotMapping>, gids: seq<int>) {
    && (forall sid: nat :: sid < |slots| ==> !Idle(slots[sid], 0))
    && forall g, h :: g in gids && h in gids ==> Load(slots, map[], g) <= Load(slots, map[], h) + 1
  }

  /** Of every group, the idle slots with the largest ids are planned. */
  ghost predicate PlansLargest(slots: seq<SlotMapping>, plans: map<nat, int>) {
    forall a, b: nat :: a in plans && b !in plans && SameIdle(slots, a, b) ==> b < a
  }

  /** Two slots of one group, neither with an action. */
  predicate SameIdle(slots: seq<SlotMapping>, a: nat, b: nat) {
    a < |slots| && b < |slots| && slots[a].gid != 0 && Idle(slots[a], slots[a].gid) && Idle(slots[b], slots[a].gid)
  }

  /** Slots with smaller ids go to groups with smaller ids. */
  ghost predicate InSlotOrder(plans: map<nat, int>) {
    forall a, b :: a in plans && b in plans && a < b ==> plans[a] <= plans[b]
  }

  // ---------------------------------------------------------------- giving and receiving

  /** The planned slots of a group. */
  ghost function Out(slots: seq<SlotMapping>, plans: map<nat, int>, g: int): set<nat> {
    set sid | sid in plans && sid < |slots| && slots[sid].gid == g
  }

  ghost predicate Receives(plans: map<nat, int>, g: int) {
    exists sid :: sid in plans && plans[sid] == g
  }

  /** A group loses at most what is planned out of it, and exactly that if it receives nothing. */
  lemma LossIsOut(slots: seq<SlotMapping>, gids: seq<int>, plans: map<nat, int>, g: int)
    requires PlansWell(slots, gids, plans)
    ensures Load(slots, map[], g) <= Load(slots, plans, g) + |Out(slots, plans, g)|
    ensures !Receives(plans, g) ==> Load(slots, map[], g) == Load(slots, plans, g) + |Out(slots, plans, g)|
  {
    var before, after, out := Residents(slots, map[], g), Residents(slots, plans, g), Out(slots, plans, g);
    assert before <= after + out;
    if !Receives(plans, g) { assert before == after + out && after !! out; }
    CardinalityOfUnion(before, after, out);
  }

  lemma CardinalityOfUnion(whole: set<nat>, a: set<nat>, b: set<nat>)
    requires whole <= a + b
    ensures |whole| <= |a| + |b|
    ensures a !! b && whole == a + b ==> |whole| == |a| + |b|
  {
    SubsetIsSmaller(whole, a + b);
    assert a + b == a + (b - a);
    SubsetIsSmaller(b - a, b);
  }

  lemma {:induction false} SubsetIsSmaller(a: set<nat>, b: set<nat>)
    requires a <= b
    ensures |a| <= |b|
  {
    assert b == a + (b - a);
  }

  /** A group that gives nothing does not shrink, and grows if it receives. */
  lemma GainWithoutLoss(slots: seq<SlotMapping>, gids: seq<int>, plans: map<nat, int>, g: int)
    requires PlansWell(slots, gids, plans) && Out(slots, plans, g) == {}
    ensures Load(slots, map[], g) <= Load(slots, plans, g)
    ensures Receives(plans, g) ==> Load(slots, map[], g) < Load(slots, plans, g)
  {
    var before, after := Residents(slots, map[], g), Residents(slots, plans, g);
    forall sid | sid in before ensures sid in after {
      assert sid !in Out(slots, plans, g);
    }
    SubsetIsSmaller(before, after);
    if sid :| sid in plans && plans[sid] == g {
      assert sid in after && sid !in before;
      SubsetIsSmaller(before + {sid}, after);
    }
  }

  /** The plan is empty where nothing needs to move. */
  lemma EvenNeedsNothing(slots: seq<SlotMapping>, gids: seq<int>, plans: map<nat, int>, lower: int)
    requires Housed(slots, gids) && PlansWell(slots, gids, plans) && GivesSurplus(slots, plans, lower)
    requires OvertakesNone(slots, plans) && AlreadyEven(slots, gids)
    ensures plans == map[]
  {
    if plans != map[] {
      var sid :| sid in plans;
      var g, h := slots[sid].gid, plans[sid];
      assert !Idle(slots[sid], 0) && Home(slots[sid]) == g;
      assert sid in Out(slots, plans, g) && !Receives(plans, g);
      LossIsOut(slots, gids, plans, g);
      assert Out(slots, plans, h) == {};
      GainWithoutLoss(slots, gids, plans, h);
    }
  }

  // ---------------------------------------------------------------- no more than necessary

  /** How much a group has to lose to get from one size to another. */
  ghost function Surplus(slots: seq<SlotMapping>, plans: map<nat, int>, g: int): nat {
    Positive(Load(slots, map[], g) - Load(slots, plans, g))
  }

  lemma OutIsSurplus(slots: seq<SlotMapping>, gids: seq<int>, plans: map<nat, int>, lower: int, g: int)
    requires PlansWell(slots, gids, plans) && GivesSurplus(slots, plans, lower)
    ensures |Out(slots, plans, g)| == Surplus(slots, plans, g)
  {
    LossIsOut(slots, gids, plans, g);
    if Out(slots, plans, g) == {} {
      GainWithoutLoss(slots, gids, plans, g);
    } else {
      var sid :| sid in Out(slots, plans, g);
      assert !Receives(plans, g);
    }
  }

  /** What is planned is what leaves the groups, and the slots that have none. */
  lemma PlanSize(slots: seq<SlotMapping>, gids: seq<int>, plans: map<nat, int>)
    requires Housed(slots, gids) && PlansWell(slots, gids, plans)
    ensures |plans| == |Idlers(slots, |slots|, 0)| + Sum(gids, g => |Out(slots, plans, g)|)
  {
    var all, offline := plans.Keys, Idlers(slots, |slots|, 0);
    var key := (sid: nat) => if sid < |slots| then slots[sid].gid else 0;
    assert offline <= all;
    forall sid | sid in all - offline ensures key(sid) in gids { assert Home(slots[sid]) == slots[sid].gid; }
    Partition(all - offline, key, gids);
    forall g | g in gids ensures Part(all - offline, key, g) == Out(slots, plans, g) {}
    SumSame(gids, g => |Part(all - offline, key, g)|, g => |Out(slots, plans, g)|);
  }

  /** Without actions a plan leaves every slot in some group. */
  lemma LoadsAddUp(slots: seq<SlotMapping>, gids: seq<int>, plans: map<nat, int>)
    requires Housed(slots, gids) && PlansWell(slots, gids, plans) && NoActions(slots)
    ensures Sum(gids, g => Load(slots, plans, g)) == |slots|
  {
    var all := AllIds(|slots|);
    var key := (sid: nat) => if sid < |slots| then FinalHome(slots, plans, sid) else 0;
    forall sid | sid in all ensures key(sid) in gids {
      assert Idle(slots[sid], 0) ==> sid in plans;
    }
    Partition(all, key, gids);
    forall g | g in gids ensures Part(all, key, g) == Residents(slots, plans, g) {}
    SumSame(gids, g => |Part(all, key, g)|, g => Load(slots, plans, g));
  }

  lemma {:induction false} SumAtMostSum(gids: seq<int>, f: int -> int, h: int -> int)
    requires forall g :: g in gids ==> f(g) <= h(g)
    ensures Sum(gids, f) <= Sum(gids, h)
  {
    if gids != [] {
      var g := gids[0];
      assert g in gids && f(g) <= h(g);
      SumAtMostSum(gids[1..], f, h);
      assert Sum(gids, f) == f(gids[0]) + Sum(gids[1..], f);
      assert Sum(gids, h) == h(gids[0]) + Sum(gids[1..], h);
    }
  }

  /** The sizes before, and two ways to even them out with what the groups lose. */
  datatype Sizing = Sizing(n: int -> int, f: int -> int, loss: int -> int) {
    ghost predicate EvenAt(gids: seq<int>, low: int) {
      forall g :: g in gids ==> low <= f(g) <= low + 1 && loss(g) == Positive(n(g) - f(g))
    }
  }

  /** Where whoever is above the lower size ends at the higher, each loses least. */
  lemma LeastWhereHighStays(gids: seq<int>, a: Sizing, b: Sizing, low: int)
    requires a.n == b.n && a.EvenAt(gids, low) && b.EvenAt(gids, low)
    requires forall g :: g in gids && a.n(g) > low ==> a.f(g) == low + 1
    ensures Sum(gids, a.loss) <= Sum(gids, b.loss)
  {
    forall g | g in gids ensures a.loss(g) <= b.loss(g) {}
    SumAtMostSum(gids, a.loss, b.loss);
  }

  /** Where only those above the lower size end at the higher, the total decides. */
  lemma LeastWhereLowStays(gids: seq<int>, a: Sizing, b: Sizing, low: int)
    requires a.n == b.n && a.EvenAt(gids, low) && b.EvenAt(gids, low) && Sum(gids, a.f) == Sum(gids, b.f)
    requires forall g :: g in gids && a.f(g) == low + 1 ==> a.n(g) > low
    ensures Sum(gids, a.loss) <= Sum(gids, b.loss)
  {
    var before, after := (g: int) => a.loss(g) + a.f(g), (g: int) => b.loss(g) + b.f(g);
    forall g | g in gids ensures before(g) <= after(g) {}
    SumAdd(gids, a.loss, a.f, before);
    SumAdd(gids, b.loss, b.f, after);
    SumAtMostSum(gids, before, after);
  }

  /** From the same sizes to sizes of `low` or one more, with the same total: giving up least if no one
      is raised to the higher size while another goes down to the lower. */
  lemma LeastSurplus(gids: seq<int>, a: Sizing, b: Sizing, low: int)
    requires a.n == b.n && a.EvenAt(gids, low) && b.EvenAt(gids, low) && Sum(gids, a.f) == Sum(gids, b.f)
    requires forall g, h :: g in gids && h in gids && a.n(g) > a.f(g) && a.n(h) < a.f(h) ==> a.f(h) <= a.f(g)
    ensures Sum(gids, a.loss) <= Sum(gids, b.loss)
  {
    if forall g :: g in gids && a.n(g) > low ==> a.f(g) == low + 1 {
      LeastWhereHighStays(gids, a, b, low);
    } else {
      var g :| g in gids && a.n(g) > low && a.f(g) == low;
      LeastWhereLowStays(gids, a, b, low);
    }
  }

  /** A group that ends smaller gives, one that ends larger receives. */
  lemma SizesTell(slots: seq<SlotMapping>, gids: seq<int>, plans: map<nat, int>, g: int)
    requires PlansWell(slots, gids, plans)
    ensures Load(slots, map[], g) > Load(slots, plans, g) ==> exists a :: a in Out(slots, plans, g)
    ensures Load(slots, map[], g) < Load(slots, plans, g) ==> Receives(plans, g)
  {
    LossIsOut(slots, gids, plans, g);
    if Load(slots, map[], g) > Load(slots, plans, g) { assert Out(slots, plans, g) != {}; }
  }

  ghost function SizingOf(slots: seq<SlotMapping>, plans: map<nat, int>): Sizing {
    Sizing(g => Load(slots, map[], g), g => Load(slots, plans, g), g => Surplus(slots, plans, g))
  }

  lemma SizingIsEven(slots: seq<SlotMapping>, gids: seq<int>, plans: map<nat, int>)
    requires gids != [] && PerfectlyEven(slots, gids, plans)
    ensures SizingOf(slots, plans).EvenAt(gids, LowerBound(|slots|, |gids|))
  {
    BoundsClose(|slots|, |gids|);
    var a, low := SizingOf(slots, plans), LowerBound(|slots|, |gids|);
    forall g | g in gids ensures low <= a.f(g) <= low + 1 {}
  }

  /** Between a group that shrinks and one that grows. */
  lemma ShrunkNotOvertaken(slots: seq<SlotMapping>, gids: seq<int>, plans: map<nat, int>, g: int, h: int)
    requires PlansWell(slots, gids, plans) && OvertakesNone(slots, plans) && g != 0
    requires Load(slots, map[], g) > Load(slots, plans, g) && Load(slots, map[], h) < Load(slots, plans, h)
    ensures Load(slots, plans, h) <= Load(slots, plans, g)
  {
    SizesTell(slots, gids, plans, g);
    SizesTell(slots, gids, plans, h);
    var a :| a in Out(slots, plans, g);
    var b :| b in plans && plans[b] == h;
  }

  lemma SurplusIsLeast(slots: seq<SlotMapping>, gids: seq<int>, plans: map<nat, int>, other: map<nat, int>)
    requires gids != [] && Housed(slots, gids) && NoActions(slots)
    requires PlansWell(slots, gids, plans) && PerfectlyEven(slots, gids, plans) && OvertakesNone(slots, plans)
    requires PlansWell(slots, gids, other) && PerfectlyEven(slots, gids, other)
    ensures Sum(gids, SizingOf(slots, plans).loss) <= Sum(gids, SizingOf(slots, other).loss)
  {
    var a, b := SizingOf(slots, plans), SizingOf(slots, other);
    LoadsAddUp(slots, gids, plans);
    LoadsAddUp(slots, gids, other);
    SumSame(gids, g => Load(slots, plans, g), a.f);
    SumSame(gids, g => Load(slots, other, g), b.f);
    SizingIsEven(slots, gids, plans);
    SizingIsEven(slots, gids, other);
    forall g, h | g in gids && h in gids && a.n(g) > a.f(g) && a.n(h) < a.f(h) ensures a.f(h) <= a.f(g) {
      ShrunkNotOvertaken(slots, gids, plans, g, h);
    }
    var b' := b.(n := a.n);
    assert b'.EvenAt(gids, LowerBound(|slots|, |gids|)) by {
      forall g | g in gids ensures b'.n(g) == b.n(g) {}
    }
    LeastSurplus(gids, a, b', LowerBound(|slots|, |gids|));
  }

  lemma LossIsPlanned(slots: seq<SlotMapping>, gids: seq<int>, plans: map<nat, int>, other: map<nat, int>, lower: int)
    requires PlansWell(slots, gids, plans) && GivesSurplus(slots, plans, lower) && PlansWell(slots, gids, other)
    ensures Sum(gids, g => |Out(slots, plans, g)|) == Sum(gids, SizingOf(slots, plans).loss)
    ensures Sum(gids, g => |Out(slots, other, g)|) >= Sum(gids, SizingOf(slots, other).loss)
  {
    var a, b := SizingOf(slots, plans), SizingOf(slots, other);
    forall g | g in gids ensures |Out(slots, plans, g)| == a.loss(g) {
      OutIsSurplus(slots, gids, plans, lower, g);
    }
    SumSame(gids, g => |Out(slots, plans, g)|, a.loss);
    forall g | g in gids ensures b.loss(g) <= |Out(slots, other, g)| {
      LossIsOut(slots, gids, other, g);
    }
    SumAtMostSum(gids, b.loss, g => |Out(slots, other, g)|);
  }

  /** Without actions, an even plan in which nobody both gives and receives, and nobody is overtaken, moves
      as few slots as any even plan. */
  lemma PlanHasFewest(slots: seq<SlotMapping>, gids: seq<int>, plans: map<nat, int>, lower: int)
    requires gids != [] && Housed(slots, gids) && NoActions(slots)
    requires PlansWell(slots, gids, plans) && PerfectlyEven(slots, gids, plans)
    requires GivesSurplus(slots, plans, lower) && OvertakesNone(slots, plans)
    ensures FewestMoves(slots, gids, plans)
  {
    forall other: map<nat, int> | PlansWell(slots, gids, other) && PerfectlyEven(slots, gids, other)
      ensures |plans| <= |other|
    {
      PlanSize(slots, gids, plans);
      PlanSize(slots, gids, other);
      SurplusIsLeast(slots, gids, plans, other);
      LossIsPlanned(slots, gids, plans, other, lower);
    }
  }
}
