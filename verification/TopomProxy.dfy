/** Registering, refilling and removing proxies. */
module TopomProxy {
  import opened Models
  import opened Context
  import opened Protocol
  import opened Cache
  import opened Topom
  import opened Service
  import Routing

  /** The largest proxy id in use, or zero. */
  method MaxProxyId(proxies: map<Token, Proxy>) returns (maxId: int)
    ensures maxId >= 0 && forall t :: t in proxies ==> proxies[t].id <= maxId
    ensures maxId == 0 || exists t :: t in proxies && proxies[t].id == maxId
  {
    maxId := 0;
    var rest := proxies.Keys;
    while rest != {}
      invariant rest <= proxies.Keys && maxId >= 0
      invariant forall t :: t in proxies && t !in rest ==> proxies[t].id <= maxId
      invariant maxId == 0 || exists t :: t in proxies && proxies[t].id == maxId
      decreases |rest|
    {
      var t := AnyOf(rest);
      rest := rest - {t};
      if proxies[t].id > maxId { maxId := proxies[t].id; }
    }
  }

  /** The proxy holds, for every slot, the route the stored state prescribes. */
  ghost predicate UpToDate(s: Topom, t: Token)
    reads s
  {
    t in s.store.proxies && forall sid: nat :: sid < |s.store.slots| ==> Holds(s.routes, View(s.store), t, sid)
  }

  lemma UpToDateServes(s: Topom, t: Token)
    requires Routing.Inv(s.Now()) && UpToDate(s, t)
    ensures ServesAll(s.Now(), t)
  {
    forall sid: nat | sid < |s.store.slots| ensures Serves(s.Now(), t, sid) {
      assert Holds(s.routes, View(s.store), t, sid);
      HolderServes(s.Now(), t, sid);
    }
  }

  /** reinitProxy: fill every slot, then hand over the settings; any of the calls may fail. */
  method ReinitWith(s: Topom, t: Token) returns (ok: bool)
    requires s.OpenButProxy(t) && t in s.store.proxies
    modifies s`routes, s`trace, s`faults
    ensures s.faults >= old(s.faults) + (if ok then 0 else 1)
    ensures s.OpenButProxy(t) && old(s.trace) <= s.trace
    ensures ok ==> UpToDate(s, t) && ServesAll(s.Now(), t)
  {
    ok := s.FillAll(t);
    if ok { ok := s.Call(); }
    if ok {
      s.TracedInv();
      UpToDateServes(s, t);
    }
  }

  /** The proxy keeps its record or has a new one with the largest id; the others are untouched. */
  ghost predicate Registered(was: map<Token, Proxy>, proxies: map<Token, Proxy>, t: Token) {
    && t in proxies && proxies == was[t := proxies[t]]
    && if t in was then proxies[t] == was[t] else forall u :: u in was ==> was[u].id < proxies[t].id
  }

  /** The record of the proxy, or a new one with the next id. */
  method ProxyRecord(proxies: map<Token, Proxy>, t: Token) returns (p: Proxy)
    ensures Registered(proxies, proxies[t := p], t)
  {
    var maxId := MaxProxyId(proxies);
    p := if t in proxies then proxies[t] else Proxy(maxId + 1);
  }

  /** Store the record, then fill the proxy. */
  method Enroll(s: Topom, t: Token) returns (ok: bool)
    requires s.Open()
    modifies s`store, s`routes, s`trace, s`faults
    ensures s.faults >= old(s.faults) + (if ok then 0 else 1)
    ensures s.OpenButProxy(t) && old(s.trace) <= s.trace
    ensures s.store.slots == old(s.store).slots && s.store.groups == old(s.store).groups
    ensures ok ==> UpToDate(s, t) && ServesAll(s.Now(), t) && Registered(old(s.store).proxies, s.store.proxies, t)
  {
    var p := ProxyRecord(s.cache.proxies, t);
    ok := s.WriteProxy(t, PutProxy(t, p));
    if ok { ok := ReinitWith(s, t); }
  }

  /** CreateProxy when the token must be new, OnlineProxy otherwise. */
  method RegisterProxy(s: Topom, t: Token, mustBeNew: bool) returns (status: Status)
    requires s.Valid()
    modifies s
    ensures s.Valid() && old(s.trace) <= s.trace && s.execs == old(s.execs)
    ensures s.store.slots == old(s.store).slots && s.store.groups == old(s.store).groups
    ensures status.Refused? ==> mustBeNew && t in old(s.store).proxies
    ensures mustBeNew && t in old(s.store).proxies ==> !status.Ok? && s.store == old(s.store)
    ensures status.Ok? ==> UpToDate(s, t) && Registered(old(s.store).proxies, s.store.proxies, t)
    ensures status.Ok? ==> ServesAll(s.Now(), t)
    ensures status.Failed? ==> Hindered(old(s.InService()), old(s.faults), s.faults)
  {
    var open := s.NewContext();
    if !open { return Failed; }
    // Fetching the proxy's model and pinging it may fail.
    var reached := s.Call();
    if !reached { return Failed; }
    if mustBeNew && t in s.cache.proxies { return Refused; }
    var ok := Enroll(s, t);
    s.LeaveProxy(t);
    status := if ok then Ok else Failed;
  }

  method ReinitProxy(s: Topom, t: Token) returns (status: Status)
    requires s.Valid()
    modifies s
    ensures s.Valid() && old(s.trace) <= s.trace && s.execs == old(s.execs) && s.store == old(s.store)
    ensures status.Refused? ==> t !in s.store.proxies
    ensures status.Ok? ==> UpToDate(s, t) && ServesAll(s.Now(), t)
    ensures status.Failed? ==> Hindered(old(s.InService()), old(s.faults), s.faults)
  {
    var open := s.NewContext();
    if !open { return Failed; }
    if t !in s.cache.proxies { return Refused; }
    var ok := ReinitWith(s, t);
    s.OpenIsValid();
    status := if ok then Ok else Failed;
  }

  /** The last two steps of the run: the proxy shuts down, holding no route, and is forgotten. */
  ghost predicate ShutDownThenForgotten(before: seq<World>, tr: seq<World>, t: Token) {
    && before != [] && |tr| == |before| + 2 && before <= tr
    && StepBy(before[|before| - 1], Shutdown(t), tr[|before|])
    && StepBy(tr[|before|], Write(DropProxy(t)), tr[|before| + 1])
  }

  /** Removal without force: only a proxy that confirmed its shutdown is forgotten. */
  method RemoveProxy(s: Topom, t: Token) returns (status: Status)
    requires s.Valid()
    modifies s
    ensures s.Valid() && old(s.trace) <= s.trace && s.execs == old(s.execs)
    ensures status.Refused? ==> t !in old(s.store).proxies
    ensures || (t in old(s.store).proxies && s.store == Apply(old(s.store), DropProxy(t)))
            || (!status.Ok? && s.store == old(s.store))
    ensures s.store != old(s.store) ==> ShutDownThenForgotten(old(s.trace), s.trace, t)
    ensures status.Failed? ==> Hindered(old(s.InService()), old(s.faults), s.faults)
  {
    var open := s.NewContext();
    if !open { return Failed; }
    if t !in s.cache.proxies { return Refused; }
    var ok := s.ShutdownProxy(t);
    if !ok {
      s.OpenIsValid();
      return Failed;
    }
    ok := s.WriteProxy(t, DropProxy(t));
    s.LeaveProxy(t);
    status := if ok then Ok else Failed;
  }
}
