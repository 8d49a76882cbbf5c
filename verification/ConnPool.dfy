/**
 The connections a proxy shares between slots. A pool keeps one counted connection per address and
 hands out handles on them; the last release closes the connection and drops its address.
 */
module ConnPool {
  type Handle = nat

  datatype Conn = Conn(addr: string, refcnt: int, closed: bool)

  /** A connection is in the pool, and open, exactly while its count is positive. */
  ghost predicate Kept(h: Handle, c: Conn, pool: map<string, Handle>) {
    && c.refcnt >= 0
    && c.closed == (c.refcnt == 0)
    && (c.refcnt > 0 <==> c.addr in pool && pool[c.addr] == h)
  }

  ghost predicate Consistent(conns: seq<Conn>, pool: map<string, Handle>) {
    && (forall h: Handle :: h < |conns| ==> Kept(h, conns[h], pool))
    && (forall a :: a in pool ==> pool[a] < |conns| && conns[pool[a]].addr == a)
  }

  /** The count of a connection, zero for one that was never made. */
  ghost function Count(conns: seq<Conn>, h: Handle): int {
    if h < |conns| then conns[h].refcnt else 0
  }

  function One(h: Handle, g: Handle): nat {
    if h == g then 1 else 0
  }

  function Times(hs: seq<Handle>, h: Handle): nat {
    if hs == [] then 0 else Times(hs[..|hs| - 1], h) + One(hs[|hs| - 1], h)
  }

  lemma TimesPrefix(hs: seq<Handle>, i: nat, h: Handle)
    requires i < |hs|
    ensures Times(hs[..i + 1], h) == Times(hs[..i], h) + One(hs[i], h)
  {
    assert hs[..i + 1][..i] == hs[..i];
  }

  lemma {:induction false} TimesBound(hs: seq<Handle>, i: nat, h: Handle)
    requires i <= |hs|
    ensures Times(hs[..i], h) <= Times(hs, h)
    decreases |hs| - i
  {
    if i < |hs| {
      TimesPrefix(hs, i, h);
      TimesBound(hs, i + 1, h);
    } else {
      assert hs[..i] == hs;
    }
  }

  /** Every connection keeps its address. */
  ghost predicate SameAddrs(was: seq<Conn>, conns: seq<Conn>) {
    |was| <= |conns| && forall h: Handle :: h < |was| ==> conns[h].addr == was[h].addr
  }

  /** The handles are on connections to these addresses, in order. */
  ghost predicate Carry(conns: seq<Conn>, hs: seq<Handle>, addrs: seq<string>) {
    |hs| == |addrs| && forall i :: 0 <= i < |hs| ==> hs[i] < |conns| && conns[hs[i]].addr == addrs[i]
  }

  /** The counts are those of before and one for each of the handles. */
  ghost predicate Added(was: seq<Conn>, conns: seq<Conn>, hs: seq<Handle>) {
    forall h: Handle :: Count(conns, h) == Count(was, h) + Times(hs, h)
  }

  /** The counts are those of before less one for each of the handles. */
  ghost predicate Removed(was: seq<Conn>, conns: seq<Conn>, hs: seq<Handle>) {
    forall h: Handle :: Count(conns, h) == Count(was, h) - Times(hs, h)
  }

  class Pool {
    var conns: seq<Conn>          // every connection ever made, by handle
    var pool: map<string, Handle> // the open ones, by address

    ghost predicate Valid()
      reads this
    {
      Consistent(conns, pool)
    }

    constructor ()
      ensures Valid() && conns == [] && pool == map[]
    {
      conns := [];
      pool := map[];
    }

    /** Takes one more reference to the connection for an address, made now if there is none. */
    method Retain(addr: string) returns (h: Handle)
      requires Valid()
      modifies this
      ensures Valid() && SameAddrs(old(conns), conns)
      ensures forall g: Handle :: Count(conns, g) == Count(old(conns), g) + One(h, g)
      ensures h < |conns| && conns[h].addr == addr
      ensures addr in old(pool) ==> h == old(pool)[addr]
    {
      if addr in pool {
        h := pool[addr];
        assert Kept(h, conns[h], pool) && conns[h].refcnt > 0; // the panic on a closed connection is out of reach
        conns := conns[h := conns[h].(refcnt := conns[h].refcnt + 1)];
      } else {
        h := |conns|;
        conns := conns + [Conn(addr, 1, false)];
        pool := pool[addr := h];
        assert forall g: Handle :: g < |conns| - 1 ==> Kept(g, conns[g], old(pool));
      }
    }

    /** Gives one reference back. The panic on releasing too often needs a count of zero. */
    method Release(h: Handle)
      requires Valid() && Count(conns, h) > 0
      modifies this
      ensures Valid() && SameAddrs(old(conns), conns)
      ensures forall g: Handle :: Count(conns, g) == Count(old(conns), g) - One(h, g)
    {
      assert Kept(h, conns[h], pool);
      conns := conns[h := conns[h].(refcnt := conns[h].refcnt - 1)];
      if conns[h].refcnt != 0 {
        return;
      }
      conns := conns[h := conns[h].(closed := true)];
      pool := pool - {conns[h].addr};
      assert forall g: Handle :: g < |conns| && g != h ==> Kept(g, conns[g], old(pool));
    }

    method RetainEach(addrs: seq<string>) returns (hs: seq<Handle>)
      requires Valid()
      modifies this
      ensures Valid() && SameAddrs(old(conns), conns) && Added(old(conns), conns, hs)
      ensures Carry(conns, hs, addrs)
    {
      hs := [];
      for i := 0 to |addrs|
        invariant Valid() && SameAddrs(old(conns), conns) && Added(old(conns), conns, hs)
        invariant Carry(conns, hs, addrs[..i])
      {
        ghost var mid := conns;
        var h := Retain(addrs[i]);
        OneMoreRetained(old(conns), mid, conns, hs, h, addrs, i);
        hs := hs + [h];
      }
      assert addrs[..|addrs|] == addrs;
    }

    method ReleaseEach(hs: seq<Handle>)
      requires Valid() && forall h: Handle :: Times(hs, h) <= Count(conns, h)
      modifies this
      ensures Valid() && SameAddrs(old(conns), conns) && Removed(old(conns), conns, hs)
    {
      for i := 0 to |hs|
        invariant Valid() && SameAddrs(old(conns), conns) && Removed(old(conns), conns, hs[..i])
      {
        TimesPrefix(hs, i, hs[i]);
        TimesBound(hs, i + 1, hs[i]);
        ghost var mid := conns;
        Release(hs[i]);
        OneMoreReleased(old(conns), mid, conns, hs, i);
      }
      assert hs[..|hs|] == hs;
    }
  }

  lemma OneMoreRetained(was: seq<Conn>, mid: seq<Conn>, conns: seq<Conn>, hs: seq<Handle>, h: Handle,
      addrs: seq<string>, i: nat)
    requires SameAddrs(was, mid) && SameAddrs(mid, conns) && Added(was, mid, hs)
    requires i < |addrs| && Carry(mid, hs, addrs[..i])
    requires h < |conns| && conns[h].addr == addrs[i]
    requires forall g: Handle :: Count(conns, g) == Count(mid, g) + One(h, g)
    ensures SameAddrs(was, conns) && Carry(conns, hs + [h], addrs[..i + 1]) && Added(was, conns, hs + [h])
  {
  }

  lemma OneMoreReleased(was: seq<Conn>, mid: seq<Conn>, conns: seq<Conn>, hs: seq<Handle>, i: nat)
    requires i < |hs| && Removed(was, mid, hs[..i])
    requires forall g: Handle :: Count(conns, g) == Count(mid, g) - One(hs[i], g)
    ensures Removed(was, conns, hs[..i + 1])
  {
    forall h: Handle
      ensures Count(conns, h) == Count(was, h) - Times(hs[..i + 1], h)
    {
      TimesPrefix(hs, i, h);
    }
  }
}
