/**
 The ordered set of group ids the balancer works with.  Its comparator reads the current sizes of
 the groups, so it is only a search tree as long as no size changes while the key is inside.
 */
module GroupTree {
  /** Reading a counter that was never set gives zero. */
  function At(m: map<int, int>, k: int): int {
    if k in m then m[k] else 0
  }

  /** Negative, zero or positive, as the comparator returns it. */
  function Compare(size: map<int, int>, x: int, y: int): int {
    if x != y then
      if At(size, x) != At(size, y) then At(size, x) - At(size, y) else x - y
    else 0
  }

  datatype Tree = Leaf | Node(left: Tree, key: int, right: Tree)

  ghost function Keys(t: Tree): set<int> {
    match t
    case Leaf => {}
    case Node(l, k, r) => Keys(l) + {k} + Keys(r)
  }

  function Count(t: Tree): nat {
    match t
    case Leaf => 0
    case Node(l, _, r) => Count(l) + 1 + Count(r)
  }

  ghost predicate Ordered(t: Tree, size: map<int, int>) {
    match t
    case Leaf => true
    case Node(l, k, r) =>
      && Ordered(l, size) && Ordered(r, size)
      && (forall x :: x in Keys(l) ==> Compare(size, x, k) < 0)
      && (forall x :: x in Keys(r) ==> Compare(size, k, x) < 0)
  }

  function Put(t: Tree, size: map<int, int>, k: int): Tree {
    match t
    case Leaf => Node(Leaf, k, Leaf)
    case Node(l, x, r) =>
      if Compare(size, k, x) == 0 then t
      else if Compare(size, k, x) < 0 then Node(Put(l, size, k), x, r)
      else Node(l, x, Put(r, size, k))
  }

  function Leftmost(t: Tree): int
    requires t.Node?
  {
    if t.left.Leaf? then t.key else Leftmost(t.left)
  }

  function Rightmost(t: Tree): int
    requires t.Node?
  {
    if t.right.Leaf? then t.key else Rightmost(t.right)
  }

  /** Searches by comparator, so it only finds keys that are where their size puts them. */
  function Remove(t: Tree, size: map<int, int>, k: int): Tree {
    match t
    case Leaf => Leaf
    case Node(l, x, r) =>
      if Compare(size, k, x) < 0 then Node(Remove(l, size, k), x, r)
      else if Compare(size, k, x) > 0 then Node(l, x, Remove(r, size, k))
      else if l.Leaf? then r
      else Node(Remove(l, size, Rightmost(l)), Rightmost(l), r)
  }

  lemma {:induction false} LeftIsMinimum(t: Tree, size: map<int, int>)
    requires t.Node? && Ordered(t, size)
    ensures Leftmost(t) in Keys(t)
    ensures forall x :: x in Keys(t) && x != Leftmost(t) ==> Compare(size, Leftmost(t), x) < 0
  {
    if t.left.Node? { LeftIsMinimum(t.left, size); }
  }

  lemma {:induction false} RightIsMaximum(t: Tree, size: map<int, int>)
    requires t.Node? && Ordered(t, size)
    ensures Rightmost(t) in Keys(t)
    ensures forall x :: x in Keys(t) && x != Rightmost(t) ==> Compare(size, x, Rightmost(t)) < 0
  {
    if t.right.Node? { RightIsMaximum(t.right, size); }
  }

  /** Every key of one set comes before every key of the other. */
  ghost predicate Before(size: map<int, int>, a: set<int>, b: set<int>) {
    forall x, y :: x in a && y in b ==> Compare(size, x, y) < 0
  }

  lemma Join(l: Tree, k: int, r: Tree, size: map<int, int>)
    requires Ordered(l, size) && Ordered(r, size)
    requires Before(size, Keys(l), {k}) && Before(size, {k}, Keys(r))
    ensures Ordered(Node(l, k, r), size)
  {
  }

  lemma Unjoin(t: Tree, size: map<int, int>)
    requires t.Node? && Ordered(t, size)
    ensures Before(size, Keys(t.left), {t.key}) && Before(size, {t.key}, Keys(t.right))
    ensures Before(size, Keys(t.left), Keys(t.right))
    ensures t.key !in Keys(t.left) && t.key !in Keys(t.right) && Keys(t.left) !! Keys(t.right)
  {
    forall x | x in Keys(t.left) ensures x !in Keys(t.right) {
      assert Compare(size, x, t.key) < 0;
    }
  }

  lemma PutBelow(t: Tree, size: map<int, int>, k: int, l': Tree)
    requires t.Node? && Ordered(t, size) && Compare(size, k, t.key) < 0
    requires Ordered(l', size) && Keys(l') == Keys(t.left) + {k}
    ensures Ordered(Node(l', t.key, t.right), size)
    ensures Keys(Node(l', t.key, t.right)) == Keys(t) + {k}
    ensures k in Keys(t) <==> k in Keys(t.left)
  {
  }

  lemma PutAbove(t: Tree, size: map<int, int>, k: int, r': Tree)
    requires t.Node? && Ordered(t, size) && Compare(size, k, t.key) > 0
    requires Ordered(r', size) && Keys(r') == Keys(t.right) + {k}
    ensures Ordered(Node(t.left, t.key, r'), size)
    ensures Keys(Node(t.left, t.key, r')) == Keys(t) + {k}
    ensures k in Keys(t) <==> k in Keys(t.right)
  {
  }

  lemma {:induction false} PutOrdered(t: Tree, size: map<int, int>, k: int)
    requires Ordered(t, size)
    ensures Ordered(Put(t, size, k), size)
    ensures Keys(Put(t, size, k)) == Keys(t) + {k}
    ensures Count(Put(t, size, k)) == if k in Keys(t) then Count(t) else Count(t) + 1
  {
    if t.Node? {
      if Compare(size, k, t.key) < 0 {
        PutOrdered(t.left, size, k);
        PutBelow(t, size, k, Put(t.left, size, k));
      } else if Compare(size, k, t.key) > 0 {
        PutOrdered(t.right, size, k);
        PutAbove(t, size, k, Put(t.right, size, k));
      }
    }
  }

  lemma RemoveBelow(t: Tree, size: map<int, int>, k: int, l': Tree)
    requires t.Node? && Ordered(t, size) && Compare(size, k, t.key) < 0
    requires Ordered(l', size) && Keys(l') == Keys(t.left) - {k}
    ensures Ordered(Node(l', t.key, t.right), size)
    ensures Keys(Node(l', t.key, t.right)) == Keys(t) - {k}
    ensures k in Keys(t) <==> k in Keys(t.left)
  {
  }

  lemma RemoveAbove(t: Tree, size: map<int, int>, k: int, r': Tree)
    requires t.Node? && Ordered(t, size) && Compare(size, k, t.key) > 0
    requires Ordered(r', size) && Keys(r') == Keys(t.right) - {k}
    ensures Ordered(Node(t.left, t.key, r'), size)
    ensures Keys(Node(t.left, t.key, r')) == Keys(t) - {k}
    ensures k in Keys(t) <==> k in Keys(t.right)
  {
  }

  lemma RemoveRoot(t: Tree, size: map<int, int>, l': Tree)
    requires t.Node? && t.left.Node? && Ordered(t, size)
    requires Ordered(l', size) && Keys(l') == Keys(t.left) - {Rightmost(t.left)}
    ensures Ordered(Node(l', Rightmost(t.left), t.right), size)
    ensures Keys(Node(l', Rightmost(t.left), t.right)) == Keys(t) - {t.key}
  {
    Unjoin(t, size);
    RightIsMaximum(t.left, size);
    Join(l', Rightmost(t.left), t.right, size);
  }

  lemma {:induction false} RemoveOrdered(t: Tree, size: map<int, int>, k: int)
    requires Ordered(t, size)
    ensures Ordered(Remove(t, size, k), size)
    ensures Keys(Remove(t, size, k)) == Keys(t) - {k}
    ensures Count(Remove(t, size, k)) == if k in Keys(t) then Count(t) - 1 else Count(t)
  {
    if t.Node? {
      if Compare(size, k, t.key) < 0 {
        RemoveOrdered(t.left, size, k);
        RemoveBelow(t, size, k, Remove(t.left, size, k));
      } else if Compare(size, k, t.key) > 0 {
        RemoveOrdered(t.right, size, k);
        RemoveAbove(t, size, k, Remove(t.right, size, k));
      } else if t.left.Node? {
        RightIsMaximum(t.left, size);
        RemoveOrdered(t.left, size, Rightmost(t.left));
        RemoveRoot(t, size, Remove(t.left, size, Rightmost(t.left)));
      } else {
        Unjoin(t, size);
      }
    }
  }

  /** Sizes of keys outside the tree may change freely. */
  lemma {:induction false} OrderedElsewhere(t: Tree, size: map<int, int>, size': map<int, int>)
    requires Ordered(t, size)
    requires forall x :: x in Keys(t) ==> At(size', x) == At(size, x)
    ensures Ordered(t, size')
  {
    match t
    case Leaf =>
    case Node(l, k, r) =>
      OrderedElsewhere(l, size, size');
      OrderedElsewhere(r, size, size');
  }

  lemma {:induction false} CountIsCardinality(t: Tree, size: map<int, int>)
    requires Ordered(t, size)
    ensures |Keys(t)| == Count(t)
  {
    match t
    case Leaf =>
    case Node(l, k, r) =>
      Unjoin(t, size);
      CountIsCardinality(l, size);
      CountIsCardinality(r, size);
      assert |Keys(l) + {k}| == |Keys(l)| + 1;
  }
}
