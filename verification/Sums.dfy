/** Sums over a list of group ids. */
module Sums {
  ghost function Sum(gids: seq<int>, f: int -> int): int {
    if gids == [] then 0 else f(gids[0]) + Sum(gids[1..], f)
  }

  ghost predicate Distinct<T>(s: seq<T>) {
    forall i, j :: 0 <= i < j < |s| ==> s[i] != s[j]
  }

  lemma {:induction false} SumSame(gids: seq<int>, f: int -> int, h: int -> int)
    requires forall g :: g in gids ==> f(g) == h(g)
    ensures Sum(gids, f) == Sum(gids, h)
  {
    if gids != [] {
      var g := gids[0];
      assert g in gids && f(g) == h(g);
      SumSame(gids[1..], f, h);
      assert Sum(gids, f) == f(gids[0]) + Sum(gids[1..], f);
      assert Sum(gids, h) == h(gids[0]) + Sum(gids[1..], h);
    }
  }

  /** Changing one summand changes the sum by as much. */
  lemma {:induction false} SumChange(gids: seq<int>, f: int -> int, h: int -> int, k: int)
    requires Distinct(gids) && k in gids
    requires forall g :: g in gids && g != k ==> f(g) == h(g)
    ensures Sum(gids, h) == Sum(gids, f) + h(k) - f(k)
  {
    if gids[0] == k {
      SumSame(gids[1..], f, h);
    } else {
      SumChange(gids[1..], f, h, k);
    }
  }

  lemma {:induction false} SumAtLeast(gids: seq<int>, f: int -> int, c: int)
    requires forall g :: g in gids ==> f(g) >= c
    ensures Sum(gids, f) >= c * |gids|
    ensures Sum(gids, f) <= c * |gids| ==> forall g :: g in gids ==> f(g) == c
  {
    if gids != [] {
      var g := gids[0];
      assert g in gids && c * |gids| == c + c * |gids[1..]|;
      SumAtLeast(gids[1..], f, c);
      assert Sum(gids, f) == f(gids[0]) + Sum(gids[1..], f);
      assert forall g :: g in gids ==> g == gids[0] || g in gids[1..];
    }
  }

  lemma {:induction false} SumAtMost(gids: seq<int>, f: int -> int, c: int)
    requires forall g :: g in gids ==> f(g) <= c
    ensures Sum(gids, f) <= c * |gids|
    ensures Sum(gids, f) >= c * |gids| ==> forall g :: g in gids ==> f(g) == c
  {
    if gids != [] {
      var g := gids[0];
      assert g in gids && c * |gids| == c + c * |gids[1..]|;
      SumAtMost(gids[1..], f, c);
      assert Sum(gids, f) == f(gids[0]) + Sum(gids[1..], f);
      assert forall g :: g in gids ==> g == gids[0] || g in gids[1..];
    }
  }

  lemma {:induction false} SumAdd(gids: seq<int>, f: int -> int, h: int -> int, both: int -> int)
    requires forall g :: g in gids ==> both(g) == f(g) + h(g)
    ensures Sum(gids, both) == Sum(gids, f) + Sum(gids, h)
  {
    if gids != [] {
      var g := gids[0];
      assert g in gids && both(g) == f(g) + h(g);
      SumAdd(gids[1..], f, h, both);
      assert Sum(gids, f) == f(gids[0]) + Sum(gids[1..], f);
      assert Sum(gids, h) == h(gids[0]) + Sum(gids[1..], h);
      assert Sum(gids, both) == both(gids[0]) + Sum(gids[1..], both);
    }
  }

  ghost function Part(s: set<nat>, key: nat -> int, g: int): set<nat> {
    set x | x in s && key(x) == g
  }

  /** A set is the disjoint union of its parts by key. */
  lemma {:induction false} Partition(s: set<nat>, key: nat -> int, gids: seq<int>)
    requires Distinct(gids) && forall x :: x in s ==> key(x) in gids
    ensures |s| == Sum(gids, g => |Part(s, key, g)|)
  {
    if gids == [] {
      assert s == {};
    } else {
      var g := gids[0];
      var rest := s - Part(s, key, g);
      Partition(rest, key, gids[1..]);
      forall h | h in gids[1..] ensures Part(rest, key, h) == Part(s, key, h) {
        assert h != g;
      }
      SumSame(gids[1..], g => |Part(rest, key, g)|, g => |Part(s, key, g)|);
      assert s == rest + Part(s, key, g);
    }
  }
}
