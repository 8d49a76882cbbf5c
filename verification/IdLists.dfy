/** Sorting slot ids, and what sorting keeps. */
module IdLists {
  import opened Sums

  function Insert(x: nat, s: seq<nat>): seq<nat> {
    if s == [] || x <= s[0] then [x] + s else [s[0]] + Insert(x, s[1..])
  }

  /** sort.Ints. */
  function SortIds(s: seq<nat>): seq<nat> {
    if s == [] then [] else Insert(s[0], SortIds(s[1..]))
  }

  ghost predicate Ascending(s: seq<nat>) {
    forall i, j :: 0 <= i < j < |s| ==> s[i] <= s[j]
  }

  lemma {:induction false} InsertElements(x: nat, s: seq<nat>)
    ensures multiset(Insert(x, s)) == multiset(s) + multiset{x}
  {
    if s != [] && x > s[0] {
      InsertElements(x, s[1..]);
      assert s == [s[0]] + s[1..];
    }
  }

  lemma {:induction false} InsertSorted(x: nat, s: seq<nat>)
    requires Ascending(s)
    ensures Ascending(Insert(x, s))
    ensures forall i :: 0 <= i < |Insert(x, s)| ==> Insert(x, s)[i] == x || Insert(x, s)[i] in s
  {
    if s != [] && x > s[0] {
      InsertSorted(x, s[1..]);
      var rest := Insert(x, s[1..]);
      forall i | 0 <= i < |rest| ensures s[0] <= rest[i] {
        assert rest[i] == x || rest[i] in s[1..];
      }
    }
  }

  lemma {:induction false} SortIdsSorted(s: seq<nat>)
    ensures Ascending(SortIds(s)) && multiset(SortIds(s)) == multiset(s)
  {
    if s != [] {
      SortIdsSorted(s[1..]);
      InsertSorted(s[0], SortIds(s[1..]));
      InsertElements(s[0], SortIds(s[1..]));
      assert s == [s[0]] + s[1..];
    }
  }

  lemma Twice(s: seq<nat>, i: nat, j: nat)
    requires i < j < |s| && s[i] == s[j]
    ensures multiset(s)[s[i]] >= 2
  {
    assert s == s[..i] + [s[i]] + s[i + 1..j] + [s[j]] + s[j + 1..];
  }

  lemma SameElements(a: seq<nat>, b: seq<nat>)
    requires multiset(a) == multiset(b)
    ensures |a| == |b| && (forall x :: x in a <==> x in b)
    ensures Distinct(a) ==> Distinct(b)
  {
    assert |multiset(a)| == |a| && |multiset(b)| == |b|;
    forall x ensures x in a <==> x in b {
      assert x in a <==> x in multiset(a);
    }
    if Distinct(a) {
      forall i, j | 0 <= i < j < |b| ensures b[i] != b[j] {
        Occurrences(a, b[i]);
        if b[i] == b[j] { Twice(b, i, j); }
      }
    }
  }

  lemma {:induction false} Occurrences(s: seq<nat>, x: nat)
    requires Distinct(s)
    ensures multiset(s)[x] <= 1
  {
    if s != [] {
      Occurrences(s[1..], x);
      assert s == [s[0]] + s[1..];
      assert s[0] !in s[1..];
    }
  }

  function Reversed(s: seq<nat>): (r: seq<nat>)
    ensures |r| == |s| && forall i :: 0 <= i < |s| ==> r[i] == s[|s| - 1 - i]
  {
    if s == [] then [] else Reversed(s[1..]) + [s[0]]
  }

  /** The `n` largest of the ids. */
  function Largest(s: seq<nat>, n: nat): seq<nat>
    requires n <= |SortIds(s)|
  {
    Reversed(SortIds(s))[..n]
  }

  /** In an ascending list, what is left when the last `n` are taken is smaller. */
  lemma LargestAbove(sorted: seq<nat>, n: nat, x: nat, y: nat)
    requires Ascending(sorted) && n <= |sorted| && x in Reversed(sorted)[..n]
    requires y in sorted && y !in Reversed(sorted)[..n]
    ensures y < x
  {
    var last := Reversed(sorted);
    var i :| 0 <= i < n && last[i] == x;
    var j :| 0 <= j < |sorted| && sorted[j] == y;
    assert last[|sorted| - 1 - j] == y;
    assert forall k :: 0 <= k < n ==> last[..n][k] == last[k] != y;
  }

  lemma LargestTaken(s: seq<nat>, n: nat)
    requires Distinct(s) && n <= |s|
    ensures |SortIds(s)| == |s|
    ensures Distinct(Largest(s, n)) && |Largest(s, n)| == n
    ensures forall x :: x in Largest(s, n) ==> x in s
    ensures forall x, y :: x in Largest(s, n) && y in s && y !in Largest(s, n) ==> y < x
  {
    SortIdsSorted(s);
    SameElements(s, SortIds(s));
    var sorted := SortIds(s);
    forall x | x in Largest(s, n) ensures x in s {
      assert x in sorted;
    }
    forall x, y | x in Largest(s, n) && y in s && y !in Largest(s, n) ensures y < x {
      LargestAbove(sorted, n, x, y);
    }
  }

  ghost function SetOf(s: seq<nat>): set<nat> {
    set x | x in s
  }

  lemma {:induction false} SetOfSize(s: seq<nat>)
    requires Distinct(s)
    ensures |SetOf(s)| == |s|
  {
    if s != [] {
      SetOfSize(s[1..]);
      assert SetOf(s) == SetOf(s[1..]) + {s[0]};
    }
  }
}
