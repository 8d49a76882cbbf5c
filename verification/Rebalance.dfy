/**
 The greedy balancer behind slots-rebalance: it plans migrations so that the groups end up as even
 as the actions already in flight allow.
 */
module Rebalance {
  import opened Models
  import opened GroupTree
  import opened Sums

  /** The three counters kept per group: slots that stay, slots that may go, and how many of the latter
      are given away; `moveout` is negative for a group that receives. */
  datatype Tally = Tally(held: map<int, int>, pendings: map<int, seq<nat>>, moveout: map<int, int>) {
    function Pending(g: int): seq<nat> {
      if g in pendings then pendings[g] else []
    }

    function Base(g: int): int {
      At(held, g) + |Pending(g)|
    }

    function Size(g: int): int {
      Base(g) - At(moveout, g)
    }

    /** Every pending slot of the group is already given away. */
    predicate Exhausted(g: int) {
      |Pending(g)| == At(moveout, g)
    }

    function Bump(g: int, d: int): Tally {
      this.(moveout := moveout[g := At(moveout, g) + d])
    }
  }

  /** What the comparator of the tree sees. */
  function Sizes(t: Tally, gids: seq<int>): map<int, int> {
    map g | g in gids :: t.Size(g)
  }

  ghost function TotalSize(gids: seq<int>, t: Tally): int {
    Sum(gids, g => t.Size(g))
  }

  ghost function TotalMoveout(gids: seq<int>, t: Tally): int {
    Sum(gids, g => At(t.moveout, g))
  }

  ghost function Squares(gids: seq<int>, t: Tally): (r: nat) {
    SumAtLeast(gids, g => t.Size(g) * t.Size(g), 0);
    Sum(gids, g => t.Size(g) * t.Size(g))
  }

  lemma BumpSize(t: Tally, g: int, d: int)
    ensures t.Bump(g, d).Size(g) == t.Size(g) - d
    ensures forall h :: h != g ==> t.Bump(g, d).Size(h) == t.Size(h)
  {
  }

  lemma BumpTotals(gids: seq<int>, t: Tally, g: int, d: int)
    requires Distinct(gids) && g in gids
    ensures TotalSize(gids, t.Bump(g, d)) == TotalSize(gids, t) - d
    ensures TotalMoveout(gids, t.Bump(g, d)) == TotalMoveout(gids, t) + d
  {
    var t' := t.Bump(g, d);
    SumChange(gids, g => t.Size(g), g => t'.Size(g), g);
    SumChange(gids, g => At(t.moveout, g), g => At(t'.moveout, g), g);
  }

  lemma BumpSquares(gids: seq<int>, t: Tally, g: int, d: int)
    requires Distinct(gids) && g in gids
    ensures Squares(gids, t.Bump(g, d)) ==
            Squares(gids, t) + (t.Size(g) - d) * (t.Size(g) - d) - t.Size(g) * t.Size(g)
  {
    var t' := t.Bump(g, d);
    BumpSize(t, g, d);
    SumChange(gids, g => t.Size(g) * t.Size(g), g => t'.Size(g) * t'.Size(g), g);
  }

  lemma SquaresShrink(a: int, b: int)
    requires a - b > 1
    ensures (a - 1) * (a - 1) + (b + 1) * (b + 1) < a * a + b * b
  {
  }

  /** Moving one slot from a larger to a smaller group makes the sum of squares smaller. */
  lemma MoveShrinksSquares(gids: seq<int>, t: Tally, from: int, dest: int)
    requires Distinct(gids) && from in gids && dest in gids && from != dest
    requires t.Size(from) - t.Size(dest) > 1
    ensures Squares(gids, t.Bump(from, 1).Bump(dest, -1)) < Squares(gids, t)
  {
    BumpSquares(gids, t, from, 1);
    BumpSize(t, from, 1);
    BumpSquares(gids, t.Bump(from, 1), dest, -1);
    SquaresShrink(t.Size(from), t.Size(dest));
  }

  // ---------------------------------------------------------------- moving between groups

  /** One group's counters in the balancing loop, with `keys` still in the tree. */
  ghost predicate CounterOk(gids: seq<int>, t: Tally, keys: set<int>, g: int) {
    && (g in keys ==> g in gids)
    && At(t.moveout, g) <= |t.Pending(g)|
    && (g !in gids ==> At(t.moveout, g) == 0)
    && (g in gids && g !in keys ==> t.Exhausted(g) && forall h :: h in keys ==> t.Size(h) <= t.Size(g))
  }

  /** All counters: `total` slots, `offline` of them newly placed. */
  ghost predicate CountersOk(gids: seq<int>, t: Tally, keys: set<int>, total: int, offline: int) {
    && (forall g :: CounterOk(gids, t, keys, g))
    && TotalSize(gids, t) == total
    && TotalMoveout(gids, t) == -offline
  }

  lemma CounterFacts(gids: seq<int>, t: Tally, keys: set<int>, total: int, offline: int)
    requires Distinct(gids) && CountersOk(gids, t, keys, total, offline)
    ensures forall g :: g in keys ==> g in gids
    ensures forall g :: At(t.moveout, g) <= |t.Pending(g)|
    ensures forall g :: g !in gids ==> At(t.moveout, g) == 0
    ensures forall d, h :: d in gids && d !in keys && h in keys ==> t.Size(h) <= t.Size(d)
    ensures forall d :: d in gids && d !in keys ==> t.Exhausted(d)
  {
    forall g
      ensures g in keys ==> g in gids
      ensures At(t.moveout, g) <= |t.Pending(g)|
      ensures g !in gids ==> At(t.moveout, g) == 0
      ensures g in gids && g !in keys ==> t.Exhausted(g)
    {
      assert CounterOk(gids, t, keys, g);
    }
    forall d, h | d in gids && d !in keys && h in keys ensures t.Size(h) <= t.Size(d) {
      assert CounterOk(gids, t, keys, d);
    }
  }

  ghost predicate LoopInv(gids: seq<int>, t: Tally, tree: Tree, total: int, offline: int) {
    CountersOk(gids, t, Keys(tree), total, offline) && Ordered(tree, Sizes(t, gids))
  }

  /** Nothing more to gain from this group. */
  ghost predicate Settled(gids: seq<int>, t: Tally, lower: int, g: int) {
    t.Size(g) <= lower || t.Exhausted(g) || forall h :: h in gids ==> t.Size(g) <= t.Size(h) + 1
  }

  ghost predicate Balanced(gids: seq<int>, t: Tally, lower: int) {
    forall g :: g in gids ==> Settled(gids, t, lower, g)
  }

  /** The largest and the smallest group of the tree, as the loop finds them. */
  ghost predicate Extremes(gids: seq<int>, t: Tally, tree: Tree, from: int, dest: int) {
    && from in Keys(tree) && dest in Keys(tree) && from != dest
    && forall g :: g in Keys(tree) ==> t.Size(dest) <= t.Size(g) <= t.Size(from)
  }

  lemma FindExtremes(gids: seq<int>, t: Tally, tree: Tree)
    requires Count(tree) >= 2 && Ordered(tree, Sizes(t, gids)) && forall g :: g in Keys(tree) ==> g in gids
    ensures var from := Rightmost(tree);
            var rest := Remove(tree, Sizes(t, gids), from);
            && rest.Node? && Count(rest) == Count(tree) - 1 && Ordered(rest, Sizes(t, gids))
            && Keys(rest) == Keys(tree) - {from}
            && Extremes(gids, t, tree, from, Leftmost(rest))
  {
    var size := Sizes(t, gids);
    var from := Rightmost(tree);
    RightIsMaximum(tree, size);
    RemoveOrdered(tree, size, from);
    var rest := Remove(tree, size, from);
    LeftIsMinimum(rest, size);
    var dest := Leftmost(rest);
    forall g | g in Keys(tree) ensures t.Size(dest) <= t.Size(g) <= t.Size(from) {
      assert At(size, g) == t.Size(g) && At(size, dest) == t.Size(dest) && At(size, from) == t.Size(from);
      assert g == from || Compare(size, g, from) < 0;
      assert g == from || g == dest || Compare(size, dest, g) < 0;
      assert Compare(size, dest, from) < 0;
    }
  }

  lemma StopBalanced(gids: seq<int>, t: Tally, tree: Tree, total: int, offline: int,
                     lower: int, upper: int, from: int, dest: int)
    requires Distinct(gids) && LoopInv(gids, t, tree, total, offline) && Extremes(gids, t, tree, from, dest)
    requires total <= upper * |gids|
    requires t.Size(from) <= lower || t.Size(dest) >= upper || t.Size(from) - t.Size(dest) <= 1
    ensures Balanced(gids, t, lower)
  {
    CounterFacts(gids, t, Keys(tree), total, offline);
    if t.Size(from) > lower && t.Size(from) - t.Size(dest) > 1 {
      forall g | g in gids ensures t.Size(g) >= upper {
        if g !in Keys(tree) { assert t.Size(from) <= t.Size(g); }
      }
      SumAtLeast(gids, g => t.Size(g), upper);
    }
  }

  lemma EmptyBalanced(gids: seq<int>, t: Tally, tree: Tree, total: int, offline: int, lower: int)
    requires Distinct(gids) && LoopInv(gids, t, tree, total, offline) && Count(tree) < 2
    ensures Balanced(gids, t, lower)
  {
    CounterFacts(gids, t, Keys(tree), total, offline);
    if tree.Node? {
      assert tree.left.Leaf? && tree.right.Leaf?;
      assert Keys(tree) == {tree.key};
    }
  }

  lemma DropKeeps(gids: seq<int>, t: Tally, tree: Tree, total: int, offline: int, from: int, rest: Tree)
    requires Distinct(gids) && LoopInv(gids, t, tree, total, offline)
    requires from in Keys(tree) && (forall g :: g in Keys(tree) ==> t.Size(g) <= t.Size(from))
    requires t.Exhausted(from)
    requires Ordered(rest, Sizes(t, gids)) && Keys(rest) == Keys(tree) - {from}
    ensures LoopInv(gids, t, rest, total, offline)
  {
    forall g ensures CounterOk(gids, t, Keys(rest), g) {
      assert CounterOk(gids, t, Keys(tree), g);
    }
  }

  lemma MoveSizes(t: Tally, from: int, dest: int)
    requires from != dest
    ensures var t' := t.Bump(from, 1).Bump(dest, -1);
            && t'.Size(from) == t.Size(from) - 1 && t'.Size(dest) == t.Size(dest) + 1
            && (forall g :: g != from && g != dest ==> t'.Size(g) == t.Size(g) && At(t'.moveout, g) == At(t.moveout, g))
            && At(t'.moveout, from) == At(t.moveout, from) + 1 && At(t'.moveout, dest) == At(t.moveout, dest) - 1
            && (forall g :: t'.Pending(g) == t.Pending(g))
  {
  }

  lemma TwoPuts(rest: Tree, size: map<int, int>, keys: set<int>, from: int, dest: int)
    requires from in keys && dest in keys && from != dest
    requires Ordered(rest, size) && Keys(rest) == keys - {from} - {dest}
    ensures var tree' := Put(Put(rest, size, from), size, dest);
            Ordered(tree', size) && Keys(tree') == keys && Count(tree') == Count(rest) + 2
  {
    PutOrdered(rest, size, from);
    PutOrdered(Put(rest, size, from), size, dest);
  }

  lemma SameSizesIn(gids: seq<int>, t: Tally, t': Tally, keys: set<int>)
    requires forall g :: g in keys ==> g in gids && t'.Size(g) == t.Size(g)
    ensures forall g :: g in keys ==> At(Sizes(t', gids), g) == At(Sizes(t, gids), g)
  {
  }

  lemma MoveTree(gids: seq<int>, t: Tally, t': Tally, keys: set<int>, from: int, dest: int, rest: Tree)
    requires from in keys && dest in keys && from != dest && (forall g :: g in keys ==> g in gids)
    requires forall g :: g != from && g != dest ==> t'.Size(g) == t.Size(g)
    requires Ordered(rest, Sizes(t, gids)) && Keys(rest) == keys - {from} - {dest}
    ensures var tree' := Put(Put(rest, Sizes(t', gids), from), Sizes(t', gids), dest);
            Ordered(tree', Sizes(t', gids)) && Keys(tree') == keys && Count(tree') == Count(rest) + 2
  {
    SameSizesIn(gids, t, t', Keys(rest));
    OrderedElsewhere(rest, Sizes(t, gids), Sizes(t', gids));
    TwoPuts(rest, Sizes(t', gids), keys, from, dest);
  }

  lemma MoveCounters(gids: seq<int>, t: Tally, keys: set<int>, total: int, offline: int, from: int, dest: int)
    requires Distinct(gids) && CountersOk(gids, t, keys, total, offline) && from in keys && dest in keys && from != dest
    requires forall g :: g in keys ==> t.Size(g) <= t.Size(from)
    requires !t.Exhausted(from) && t.Size(from) - t.Size(dest) > 1
    ensures CountersOk(gids, t.Bump(from, 1).Bump(dest, -1), keys, total, offline)
  {
    assert CounterOk(gids, t, keys, from) && CounterOk(gids, t, keys, dest);
    BumpTotals(gids, t, from, 1);
    BumpTotals(gids, t.Bump(from, 1), dest, -1);
    MoveSizes(t, from, dest);
    var t' := t.Bump(from, 1).Bump(dest, -1);
    forall g ensures CounterOk(gids, t', keys, g) {
      assert CounterOk(gids, t, keys, g) && CounterOk(gids, t, keys, from) && CounterOk(gids, t, keys, dest);
    }
  }

  lemma MoveKeeps(gids: seq<int>, t: Tally, tree: Tree, total: int, offline: int, from: int, dest: int, rest: Tree)
    requires Distinct(gids) && LoopInv(gids, t, tree, total, offline) && Extremes(gids, t, tree, from, dest)
    requires !t.Exhausted(from) && t.Size(from) - t.Size(dest) > 1
    requires Ordered(rest, Sizes(t, gids)) && Keys(rest) == Keys(tree) - {from} - {dest}
    ensures var t' := t.Bump(from, 1).Bump(dest, -1);
            var tree' := Put(Put(rest, Sizes(t', gids), from), Sizes(t', gids), dest);
            && LoopInv(gids, t', tree', total, offline) && Count(tree') == Count(rest) + 2
            && Keys(tree') == Keys(tree)
  {
    CounterFacts(gids, t, Keys(tree), total, offline);
    MoveCounters(gids, t, Keys(tree), total, offline, from, dest);
    MoveSizes(t, from, dest);
    MoveTree(gids, t, t.Bump(from, 1).Bump(dest, -1), Keys(tree), from, dest, rest);
  }

  // ---------------------------------------------------------------- moving no more than needed

  /** A group that has given is at most one smaller than any in the tree, one that has received is at most
      one larger than any other, and none of the latter is larger than one of the former. */
  ghost predicate FrugalPair(t: Tally, keys: set<int>, g: int, h: int) {
    && (At(t.moveout, g) > 0 && h in keys ==> t.Size(h) <= t.Size(g) + 1)
    && (At(t.moveout, g) < 0 ==> t.Size(g) <= t.Size(h) + 1)
    && (At(t.moveout, g) > 0 && At(t.moveout, h) < 0 ==> t.Size(h) <= t.Size(g))
  }

  ghost predicate Frugal(gids: seq<int>, t: Tally, keys: set<int>) {
    forall g, h :: g in gids && h in gids ==> FrugalPair(t, keys, g, h)
  }

  lemma MoveFrugal(gids: seq<int>, t: Tally, keys: set<int>, from: int, dest: int)
    requires Frugal(gids, t, keys) && from in keys && dest in keys && from != dest
    requires forall g :: g in keys ==> g in gids && t.Size(dest) <= t.Size(g) <= t.Size(from)
    requires forall d, h :: d in gids && d !in keys && h in keys ==> t.Size(h) <= t.Size(d)
    requires t.Size(from) - t.Size(dest) > 1
    ensures Frugal(gids, t.Bump(from, 1).Bump(dest, -1), keys)
  {
    var t' := t.Bump(from, 1).Bump(dest, -1);
    MoveSizes(t, from, dest);
    forall g, h | g in gids && h in gids ensures FrugalPair(t', keys, g, h) {
      assert FrugalPair(t, keys, g, h) && FrugalPair(t, keys, g, from) && FrugalPair(t, keys, g, dest);
      assert FrugalPair(t, keys, from, dest) && FrugalPair(t, keys, dest, from);
    }
  }

  lemma DropFrugal(gids: seq<int>, t: Tally, keys: set<int>, keys': set<int>)
    requires Frugal(gids, t, keys) && keys' <= keys
    ensures Frugal(gids, t, keys')
  {
    forall g, h | g in gids && h in gids ensures FrugalPair(t, keys', g, h) { assert FrugalPair(t, keys, g, h); }
  }

  /** No receiving group ends larger than a giving one. */
  ghost predicate NoneOvertaken(gids: seq<int>, t: Tally) {
    forall g, h :: g in gids && h in gids && At(t.moveout, g) > 0 && At(t.moveout, h) < 0 ==> t.Size(h) <= t.Size(g)
  }

  lemma FrugalOvertakesNone(gids: seq<int>, t: Tally, keys: set<int>)
    requires Frugal(gids, t, keys)
    ensures NoneOvertaken(gids, t)
  {
    forall g, h | g in gids && h in gids && At(t.moveout, g) > 0 && At(t.moveout, h) < 0
      ensures t.Size(h) <= t.Size(g)
    {
      assert FrugalPair(t, keys, g, h);
    }
  }

  /** Move slots from the largest to the smallest group until it no longer helps. */
  method Balance(gids: seq<int>, t0: Tally, tree0: Tree, lower: int, upper: int, ghost total: int, ghost offline: int)
      returns (t: Tally)
    requires Distinct(gids) && LoopInv(gids, t0, tree0, total, offline) && total <= upper * |gids|
    requires Frugal(gids, t0, Keys(tree0))
    ensures t.held == t0.held && t.pendings == t0.pendings
    ensures NoneOvertaken(gids, t)
    ensures Balanced(gids, t, lower)
    ensures TotalSize(gids, t) == total && TotalMoveout(gids, t) == -offline
    ensures forall g :: At(t.moveout, g) <= |t.Pending(g)|
    ensures forall g :: g !in gids ==> At(t.moveout, g) == 0
  {
    t := t0;
    var tree := tree0;
    while Count(tree) >= 2
      invariant LoopInv(gids, t, tree, total, offline) && Frugal(gids, t, Keys(tree))
      invariant t.held == t0.held && t.pendings == t0.pendings
      decreases Count(tree), Squares(gids, t)
    {
      FrugalOvertakesNone(gids, t, Keys(tree));
      CounterFacts(gids, t, Keys(tree), total, offline);
      FindExtremes(gids, t, tree);
      ghost var before := tree;
      var from := Rightmost(tree);
      tree := Remove(tree, Sizes(t, gids), from);
      if |t.Pending(from)| == At(t.moveout, from) {
        DropKeeps(gids, t, before, total, offline, from, tree);
        DropFrugal(gids, t, Keys(before), Keys(tree));
        continue;
      }
      var dest := Leftmost(tree);
      RemoveOrdered(tree, Sizes(t, gids), dest);
      tree := Remove(tree, Sizes(t, gids), dest);
      if t.Size(from) <= lower || t.Size(dest) >= upper || t.Size(from) - t.Size(dest) <= 1 {
        StopBalanced(gids, t, before, total, offline, lower, upper, from, dest);
        return;
      }
      MoveKeeps(gids, t, before, total, offline, from, dest, tree);
      MoveFrugal(gids, t, Keys(before), from, dest);
      MoveShrinksSquares(gids, t, from, dest);
      t := t.Bump(from, 1).Bump(dest, -1);
      tree := Put(tree, Sizes(t, gids), from);
      tree := Put(tree, Sizes(t, gids), dest);
    }
    FrugalOvertakesNone(gids, t, Keys(tree));
    EmptyBalanced(gids, t, tree, total, offline, lower);
    CounterFacts(gids, t, Keys(tree), total, offline);
  }

  // ---------------------------------------------------------------- counting

  predicate HeadsTo(m: SlotMapping, g: int) {
    !m.action.state.Nothing? && m.action.target == g
  }

  predicate Idle(m: SlotMapping, g: int) {
    m.action.state.Nothing? && m.gid == g
  }

  /** Slots below `n` on their way to the group. */
  ghost function Heading(slots: seq<SlotMapping>, n: nat, g: int): set<nat>
    requires n <= |slots|
  {
    set sid: nat | sid < n && HeadsTo(slots[sid], g)
  }

  /** Slots below `n` of the group without an action. */
  ghost function Idlers(slots: seq<SlotMapping>, n: nat, g: int): set<nat>
    requires n <= |slots|
  {
    set sid: nat | sid < n && Idle(slots[sid], g)
  }

  lemma HeadingStep(slots: seq<SlotMapping>, n: nat, g: int)
    requires n < |slots|
    ensures |Heading(slots, n + 1, g)| == |Heading(slots, n, g)| + if HeadsTo(slots[n], g) then 1 else 0
  {
    var a, b := Heading(slots, n, g), Heading(slots, n + 1, g);
    if HeadsTo(slots[n], g) { assert b == a + {n}; } else { assert b == a; }
  }

  lemma IdlersStep(slots: seq<SlotMapping>, n: nat, g: int)
    requires n < |slots|
    ensures |Idlers(slots, n + 1, g)| == |Idlers(slots, n, g)| + if Idle(slots[n], g) then 1 else 0
  {
    var a, b := Idlers(slots, n, g), Idlers(slots, n + 1, g);
    if Idle(slots[n], g) { assert b == a + {n}; } else { assert b == a; }
  }

  method CountActions(slots: seq<SlotMapping>) returns (held: map<int, int>)
    ensures forall g :: At(held, g) == |Heading(slots, |slots|, g)|
  {
    held := map[];
    forall g ensures |Heading(slots, 0, g)| == 0 { assert Heading(slots, 0, g) == {}; }
    for i := 0 to |slots|
      invariant forall g :: At(held, g) == |Heading(slots, i, g)|
    {
      var m := slots[i];
      ghost var before := held;
      if !m.action.state.Nothing? {
        held := held[m.action.target := At(held, m.action.target) + 1];
      }
      forall g ensures At(held, g) == |Heading(slots, i + 1, g)| {
        HeadingStep(slots, i, g);
        assert At(before, g) == |Heading(slots, i, g)|;
      }
    }
  }

  /** A group's movable slots: distinct idle slots of the group, below `n`. */
  ghost predicate PendingOk(slots: seq<SlotMapping>, n: nat, p: seq<nat>, g: int)
    requires n <= |slots|
  {
    Distinct(p) && forall i :: 0 <= i < |p| ==> p[i] < n && Idle(slots[p[i]], g)
  }

  /** One group's counters after the slots below `n` have been sorted into those that stay and those
      that may go. */
  ghost predicate GroupTally(slots: seq<SlotMapping>, n: nat, t: Tally, lower: int, g: int)
    requires n <= |slots|
  {
    var heading := |Heading(slots, |slots|, g)|;
    && (g != 0 ==> t.Base(g) == heading + |Idlers(slots, n, g)|)
    && PendingOk(slots, n, t.Pending(g), g)
    && (|t.Pending(g)| > 0 ==> g != 0 && At(t.held, g) >= lower)
    && (At(t.held, g) == heading || At(t.held, g) <= lower)
  }

  ghost predicate TallyOk(slots: seq<SlotMapping>, n: nat, t: Tally, lower: int)
    requires n <= |slots|
  {
    t.moveout == map[] && forall g :: GroupTally(slots, n, t, lower, g)
  }

  /** What may go has larger ids than what stays. */
  ghost predicate StaysFirst(slots: seq<SlotMapping>, n: nat, p: seq<nat>, g: int)
    requires n <= |slots|
  {
    forall sid: nat, x :: sid < n && Idle(slots[sid], g) && sid !in p && x in p ==> sid < x
  }

  ghost predicate AllStayFirst(slots: seq<SlotMapping>, n: nat, t: Tally)
    requires n <= |slots|
  {
    forall g :: g != 0 ==> StaysFirst(slots, n, t.Pending(g), g)
  }

  /** A slot that stays finds nothing that may go, and one that may go comes last. */
  lemma NextStaysFirst(slots: seq<SlotMapping>, n: nat, t: Tally, t': Tally, lower: int)
    requires n < |slots| && TallyOk(slots, n, t, lower) && AllStayFirst(slots, n, t)
    requires var m := slots[n];
             || (t'.pendings == t.pendings && (!Idle(m, m.gid) || m.gid == 0 || t.Size(m.gid) < lower))
             || t'.pendings == t.pendings[m.gid := t.Pending(m.gid) + [n]]
    ensures AllStayFirst(slots, n + 1, t')
  {
    var m := slots[n];
    forall g | g != 0 ensures StaysFirst(slots, n + 1, t'.Pending(g), g) {
      assert GroupTally(slots, n, t, lower, g) && StaysFirst(slots, n, t.Pending(g), g);
      assert forall x :: x in t.Pending(g) ==> x < n;
    }
  }

  lemma StayKeeps(slots: seq<SlotMapping>, n: nat, t: Tally, lower: int)
    requires n < |slots| && TallyOk(slots, n, t, lower)
    requires slots[n].action.state.Nothing? && slots[n].gid != 0 && t.Size(slots[n].gid) < lower
    ensures TallyOk(slots, n + 1, t.(held := t.held[slots[n].gid := At(t.held, slots[n].gid) + 1]), lower)
  {
    var t' := t.(held := t.held[slots[n].gid := At(t.held, slots[n].gid) + 1]);
    var next := n + 1;
    forall g ensures GroupTally(slots, next, t', lower, g) {
      assert GroupTally(slots, n, t, lower, g);
      IdlersStep(slots, n, g);
    }
  }

  lemma MayGoKeeps(slots: seq<SlotMapping>, n: nat, t: Tally, lower: int)
    requires n < |slots| && TallyOk(slots, n, t, lower)
    requires slots[n].action.state.Nothing? && slots[n].gid != 0 && t.Size(slots[n].gid) >= lower
    ensures TallyOk(slots, n + 1, t.(pendings := t.pendings[slots[n].gid := t.Pending(slots[n].gid) + [n]]), lower)
  {
    var t' := t.(pendings := t.pendings[slots[n].gid := t.Pending(slots[n].gid) + [n]]);
    var next := n + 1;
    forall g ensures GroupTally(slots, next, t', lower, g) {
      assert GroupTally(slots, n, t, lower, g);
      IdlersStep(slots, n, g);
    }
  }

  lemma SkipKeeps(slots: seq<SlotMapping>, n: nat, t: Tally, lower: int)
    requires n < |slots| && TallyOk(slots, n, t, lower)
    requires !slots[n].action.state.Nothing? || slots[n].gid == 0
    ensures TallyOk(slots, n + 1, t, lower)
  {
    var next := n + 1;
    forall g ensures GroupTally(slots, next, t, lower, g) {
      assert GroupTally(slots, n, t, lower, g);
      IdlersStep(slots, n, g);
    }
  }

  method CountIdle(slots: seq<SlotMapping>, held: map<int, int>, lower: int) returns (t: Tally)
    requires forall g :: At(held, g) == |Heading(slots, |slots|, g)|
    ensures TallyOk(slots, |slots|, t, lower) && AllStayFirst(slots, |slots|, t)
  {
    t := Tally(held, map[], map[]);
    forall g ensures GroupTally(slots, 0, t, lower, g) { assert Idlers(slots, 0, g) == {}; }
    for i := 0 to |slots|
      invariant TallyOk(slots, i, t, lower) && AllStayFirst(slots, i, t)
    {
      var m := slots[i];
      ghost var was := t;
      if !m.action.state.Nothing? || m.gid == 0 {
        SkipKeeps(slots, i, t, lower);
      } else if t.Size(m.gid) < lower {
        StayKeeps(slots, i, t, lower);
        t := t.(held := t.held[m.gid := At(t.held, m.gid) + 1]);
      } else {
        MayGoKeeps(slots, i, t, lower);
        t := t.(pendings := t.pendings[m.gid := t.Pending(m.gid) + [i]]);
      }
      NextStaysFirst(slots, i, was, t, lower);
    }
  }

  // ---------------------------------------------------------------- placing offline slots

  /** The group a slot belongs to once the actions in flight are done; zero when offline. */
  function Home(m: SlotMapping): int {
    if m.action.state.Nothing? then m.gid else m.action.target
  }

  /** Every slot is offline, in one of the groups, or on its way to one of them. */
  ghost predicate Housed(slots: seq<SlotMapping>, gids: seq<int>) {
    && Distinct(gids) && 0 !in gids
    && forall sid :: 0 <= sid < |slots| ==>
         && (!slots[sid].action.state.Nothing? ==> slots[sid].action.target in gids)
         && (Home(slots[sid]) == 0 || Home(slots[sid]) in gids)
  }

  ghost function HomeSet(slots: seq<SlotMapping>, g: int): set<nat> {
    set sid: nat | sid < |slots| && Home(slots[sid]) == g
  }

  lemma HomeSetSize(slots: seq<SlotMapping>, gids: seq<int>, g: int)
    requires Housed(slots, gids) && g in gids
    ensures |HomeSet(slots, g)| == |Heading(slots, |slots|, g)| + |Idlers(slots, |slots|, g)|
  {
    assert HomeSet(slots, g) == Heading(slots, |slots|, g) + Idlers(slots, |slots|, g);
  }

  ghost function AllIds(n: nat): (r: set<nat>)
    ensures |r| == n && forall sid: nat :: sid in r <==> sid < n
  {
    if n == 0 then {} else AllIds(n - 1) + {n - 1}
  }

  /** The groups together hold every slot that is not offline. */
  lemma TotalIsAll(slots: seq<SlotMapping>, gids: seq<int>, t: Tally, lower: int)
    requires Housed(slots, gids) && TallyOk(slots, |slots|, t, lower)
    ensures TotalSize(gids, t) == |slots| - |Idlers(slots, |slots|, 0)|
  {
    var n := |slots|;
    var key := (sid: nat) => if sid < |slots| then Home(slots[sid]) else 0;
    var all, offline := AllIds(n), Idlers(slots, n, 0);
    forall sid: nat | sid < n ensures Home(slots[sid]) == 0 <==> sid in offline {
      if !slots[sid].action.state.Nothing? { assert slots[sid].action.target in gids; }
    }
    assert offline <= all;
    Partition(all - offline, key, gids);
    forall g | g in gids ensures |Part(all - offline, key, g)| == t.Size(g) {
      assert Part(all - offline, key, g) == HomeSet(slots, g);
      HomeSetSize(slots, gids, g);
      assert GroupTally(slots, n, t, lower, g);
    }
    SumSame(gids, g => |Part(all - offline, key, g)|, g => t.Size(g));
  }

  lemma NoMoveout(gids: seq<int>, t: Tally)
    requires t.moveout == map[]
    ensures TotalMoveout(gids, t) == 0
  {
    SumAtLeast(gids, g => At(t.moveout, g), 0);
    SumAtMost(gids, g => At(t.moveout, g), 0);
  }

  method BuildTree(gids: seq<int>, t: Tally) returns (tree: Tree)
    ensures Ordered(tree, Sizes(t, gids)) && (forall g :: g in Keys(tree) <==> g in gids)
  {
    tree := Leaf;
    for i := 0 to |gids|
      invariant Ordered(tree, Sizes(t, gids)) && (forall g :: g in Keys(tree) <==> g in gids[..i])
    {
      PutOrdered(tree, Sizes(t, gids), gids[i]);
      tree := Put(tree, Sizes(t, gids), gids[i]);
      assert gids[..i + 1] == gids[..i] + [gids[i]];
    }
    assert gids[..|gids|] == gids;
  }

  lemma ReceiveCounters(gids: seq<int>, t: Tally, keys: set<int>, total: int, offline: int, dest: int)
    requires Distinct(gids) && CountersOk(gids, t, keys, total, offline)
    requires dest in keys && forall g :: g in gids ==> g in keys
    ensures CountersOk(gids, t.Bump(dest, -1), keys, total + 1, offline + 1)
  {
    var t' := t.Bump(dest, -1);
    assert CounterOk(gids, t, keys, dest);
    BumpTotals(gids, t, dest, -1);
    BumpSize(t, dest, -1);
    forall g ensures CounterOk(gids, t', keys, g) {
      assert CounterOk(gids, t, keys, g);
    }
  }

  lemma OtherSizesStay(gids: seq<int>, t: Tally, dest: int)
    ensures forall x :: x != dest ==> At(Sizes(t.Bump(dest, -1), gids), x) == At(Sizes(t, gids), x)
  {
    BumpSize(t, dest, -1);
  }

  /** A key whose size has changed while it was out of the tree. */
  lemma PutBack(rest: Tree, size: map<int, int>, size': map<int, int>, dest: int)
    requires Ordered(rest, size) && dest !in Keys(rest) && forall x :: x != dest ==> At(size', x) == At(size, x)
    ensures Ordered(Put(rest, size', dest), size') && Keys(Put(rest, size', dest)) == Keys(rest) + {dest}
  {
    OrderedElsewhere(rest, size, size');
    PutOrdered(rest, size', dest);
  }

  lemma ReceiveTree(gids: seq<int>, t: Tally, tree: Tree, dest: int)
    requires Ordered(tree, Sizes(t, gids)) && dest in Keys(tree)
    ensures var rest := Remove(tree, Sizes(t, gids), dest);
            var t' := t.Bump(dest, -1);
            var tree' := Put(rest, Sizes(t', gids), dest);
            Ordered(tree', Sizes(t', gids)) && Keys(tree') == Keys(tree)
  {
    var t' := t.Bump(dest, -1);
    var size, size' := Sizes(t, gids), Sizes(t', gids);
    RemoveOrdered(tree, size, dest);
    var rest := Remove(tree, size, dest);
    OtherSizesStay(gids, t, dest);
    PutBack(rest, size, size', dest);
  }

  /** The offline slots without an action, in order. */
  function OfflineIds(slots: seq<SlotMapping>, n: nat): seq<nat>
    requires n <= |slots|
  {
    if n == 0 then []
    else if Idle(slots[n - 1], 0) then OfflineIds(slots, n - 1) + [n - 1]
    else OfflineIds(slots, n - 1)
  }

  lemma OfflineStep(slots: seq<SlotMapping>, n: nat)
    requires n < |slots|
    ensures OfflineIds(slots, n + 1) == if Idle(slots[n], 0) then OfflineIds(slots, n) + [n] else OfflineIds(slots, n)
  {
  }

  lemma {:induction false} OfflineIdsExact(slots: seq<SlotMapping>, n: nat)
    requires n <= |slots|
    ensures var r := OfflineIds(slots, n);
            && Distinct(r) && (forall sid: nat :: sid in r <==> sid < n && Idle(slots[sid], 0))
            && |r| == |Idlers(slots, n, 0)|
  {
    if n == 0 {
      assert Idlers(slots, 0, 0) == {};
    } else {
      OfflineIdsExact(slots, n - 1);
      IdlersStep(slots, n - 1, 0);
      var front, r := OfflineIds(slots, n - 1), OfflineIds(slots, n);
      assert n - 1 !in front;
      if Idle(slots[n - 1], 0) {
        assert r == front + [n - 1];
        forall sid: nat ensures sid in r <==> sid < n && Idle(slots[sid], 0) {
          assert sid in r <==> sid in front || sid == n - 1;
        }
      } else {
        assert r == front;
      }
    }
  }

  lemma StartInv(slots: seq<SlotMapping>, gids: seq<int>, t: Tally, lower: int, tree: Tree)
    requires Housed(slots, gids) && TallyOk(slots, |slots|, t, lower)
    requires Ordered(tree, Sizes(t, gids)) && (forall g :: g in Keys(tree) <==> g in gids)
    ensures LoopInv(gids, t, tree, |slots| - |OfflineIds(slots, |slots|)|, 0)
  {
    TotalIsAll(slots, gids, t, lower);
    NoMoveout(gids, t);
    OfflineIdsExact(slots, |slots|);
  }

  /** The loop invariant with every group still in the tree. */
  ghost predicate PlaceInv(gids: seq<int>, t: Tally, tree: Tree, total: int, offline: int) {
    LoopInv(gids, t, tree, total, offline) && forall g :: g in gids ==> g in Keys(tree)
  }

  /** One group got one more slot, and no group was smaller. */
  ghost predicate ToSmallest(gids: seq<int>, t: Tally, t': Tally, dest: int) {
    dest in gids && t' == t.Bump(dest, -1) && forall g :: g in gids ==> t.Size(dest) <= t.Size(g)
  }

  /** The counters from slot to slot: each goes to a group that is smallest at that moment. */
  ghost predicate PlacedSmallest(gids: seq<int>, t0: Tally, ts: seq<Tally>, dests: seq<int>, t: Tally) {
    && |ts| == |dests| + 1 && ts[0] == t0 && ts[|dests|] == t
    && forall i :: 0 <= i < |dests| ==> ToSmallest(gids, ts[i], ts[i + 1], dests[i])
  }

  lemma PlacedOneMore(gids: seq<int>, t0: Tally, ts: seq<Tally>, dests: seq<int>, t: Tally, t': Tally, dest: int)
    requires PlacedSmallest(gids, t0, ts, dests, t) && ToSmallest(gids, t, t', dest)
    ensures PlacedSmallest(gids, t0, ts + [t'], dests + [dest], t')
  {
  }

  lemma LeftIsSmallest(gids: seq<int>, t: Tally, tree: Tree, total: int, offline: int)
    requires PlaceInv(gids, t, tree, total, offline) && tree.Node?
    ensures Leftmost(tree) in gids && forall g :: g in gids ==> t.Size(Leftmost(tree)) <= t.Size(g)
  {
    var size, dest := Sizes(t, gids), Leftmost(tree);
    LeftIsMinimum(tree, size);
    assert CounterOk(gids, t, Keys(tree), dest);
    forall g | g in gids ensures t.Size(dest) <= t.Size(g) {
      assert At(size, g) == t.Size(g) && At(size, dest) == t.Size(dest);
      assert g == dest || Compare(size, dest, g) < 0;
    }
  }

  /** One more slot for the smallest group. */
  method Receive(gids: seq<int>, t: Tally, tree: Tree, ghost total: int, ghost offline: int)
      returns (t': Tally, tree': Tree, ghost dest: int)
    requires Distinct(gids) && gids != [] && PlaceInv(gids, t, tree, total, offline)
    ensures ToSmallest(gids, t, t', dest) && t'.held == t.held && t'.pendings == t.pendings
    ensures PlaceInv(gids, t', tree', total + 1, offline + 1)
  {
    assert gids[0] in Keys(tree);
    LeftIsMinimum(tree, Sizes(t, gids));
    var smallest := Leftmost(tree);
    dest := smallest;
    LeftIsSmallest(gids, t, tree, total, offline);
    ReceiveCounters(gids, t, Keys(tree), total, offline, dest);
    ReceiveTree(gids, t, tree, dest);
    tree' := Remove(tree, Sizes(t, gids), smallest);
    t' := t.Bump(smallest, -1);
    tree' := Put(tree', Sizes(t', gids), smallest);
  }

  /** Nothing has been given yet, and whoever received is at most one larger than any other. */
  ghost predicate OnlyReceived(gids: seq<int>, t: Tally) {
    forall g, h :: g in gids && h in gids ==>
      At(t.moveout, g) <= 0 && (At(t.moveout, g) < 0 ==> t.Size(g) <= t.Size(h) + 1)
  }

  lemma ReceiveKeepsOnly(gids: seq<int>, t: Tally, t': Tally, dest: int)
    requires OnlyReceived(gids, t) && ToSmallest(gids, t, t', dest)
    ensures OnlyReceived(gids, t')
  {
    BumpSize(t, dest, -1);
  }

  lemma OnlyReceivedFrugal(gids: seq<int>, t: Tally, keys: set<int>)
    requires OnlyReceived(gids, t)
    ensures Frugal(gids, t, keys)
  {
    forall g, h | g in gids && h in gids ensures FrugalPair(t, keys, g, h) {}
  }

  /** The counters with their history: `dests` has been given one slot each. */
  ghost predicate Placing(gids: seq<int>, t0: Tally, base: int, t: Tally, tree: Tree, ts: seq<Tally>, dests: seq<int>) {
    && t.held == t0.held && t.pendings == t0.pendings
    && PlaceInv(gids, t, tree, base + |dests|, |dests|)
    && PlacedSmallest(gids, t0, ts, dests, t) && OnlyReceived(gids, t)
  }

  method PlaceOne(gids: seq<int>, ghost t0: Tally, ghost base: int, t: Tally, tree: Tree,
      ghost ts: seq<Tally>, ghost dests: seq<int>)
      returns (t': Tally, tree': Tree, ghost ts': seq<Tally>, ghost dests': seq<int>)
    requires Distinct(gids) && gids != [] && Placing(gids, t0, base, t, tree, ts, dests)
    ensures Placing(gids, t0, base, t', tree', ts', dests') && |dests'| == |dests| + 1
  {
    ghost var dest;
    t', tree', dest := Receive(gids, t, tree, base + |dests|, |dests|);
    PlacedOneMore(gids, t0, ts, dests, t, t', dest);
    ReceiveKeepsOnly(gids, t, t', dest);
    ts', dests' := ts + [t'], dests + [dest];
  }

  /** Give every offline slot without an action to the group that is smallest at that moment. */
  method PlaceOffline(slots: seq<SlotMapping>, gids: seq<int>, t0: Tally, tree0: Tree, ghost base: int)
      returns (t: Tally, tree: Tree, docking: seq<nat>, ghost ts: seq<Tally>, ghost dests: seq<int>)
    requires Distinct(gids) && gids != [] && PlaceInv(gids, t0, tree0, base, 0) && t0.moveout == map[]
    ensures t.held == t0.held && t.pendings == t0.pendings && OnlyReceived(gids, t)
    ensures PlaceInv(gids, t, tree, base + |docking|, |docking|)
    ensures docking == OfflineIds(slots, |slots|)
    ensures |dests| == |docking| && PlacedSmallest(gids, t0, ts, dests, t)
  {
    t, tree, docking, ts, dests := t0, tree0, [], [t0], [];
    for i := 0 to |slots|
      invariant Placing(gids, t0, base, t, tree, ts, dests)
      invariant docking == OfflineIds(slots, i) && |dests| == |docking|
    {
      var m := slots[i];
      OfflineStep(slots, i);
      if m.action.state.Nothing? && m.gid == 0 {
        t, tree, ts, dests := PlaceOne(gids, t0, base, t, tree, ts, dests);
        docking := docking + [i];
      }
    }
  }
}
