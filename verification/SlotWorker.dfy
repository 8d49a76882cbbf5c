/**
 The worker of one migrating slot: it walks over the databases of the source and completes the
 action only when no database holds a key of the slot any more.  What it does to the two servers
 are steps of the migration; client commands, refills and dashboard requests go on all the time.
 */
module SlotWorker {
  import opened Models
  import opened Context
  import opened Protocol
  import opened Topom
  import opened TopomSlots
  import opened Service
  import opened Dashboard
  import Integrity
  import Routing
  import M = Migration
  import Safety = MigrationSafety

  /** The states the two servers have gone through, each by one step of the migration. */
  ghost predicate Path(tr: seq<M.State>) {
    |tr| > 0 && forall i :: 0 < i < |tr| ==> Follows(tr[i - 1], tr[i])
  }

  ghost predicate Follows(s: M.State, s': M.State) {
    exists a: M.Step :: M.Enabled(s, a) && s' == M.After(s, a)
  }

  /** The servers are here, on a path that keeps what every migration keeps. */
  ghost predicate At(data: M.State, tr: seq<M.State>) {
    Path(tr) && tr[|tr| - 1] == data && Safety.Inv(data) && data.moved && !data.finished
  }

  /** One step of the migration. */
  method Take(data: M.State, a: M.Step, ghost tr: seq<M.State>) returns (data': M.State, ghost tr': seq<M.State>)
    requires At(data, tr) && M.Enabled(data, a) && !a.Complete?
    ensures data' == M.After(data, a) && At(data', tr') && tr' == tr + [data']
  {
    data' := M.After(data, a);
    Safety.StepKeeps(data, a);
    tr' := tr + [data'];
    assert Follows(tr[|tr| - 1], data');
  }

  /** Only the worker walks, and the authority has moved already. */
  predicate ByOthers(a: M.Step) {
    !a.Count? && !a.List? && !a.Restart? && !a.Complete? && !a.Switch?
  }

  /** Clients, proxies and other moves, as far as they are possible. */
  method Others(data: M.State, steps: seq<M.Step>, ghost tr: seq<M.State>)
      returns (data': M.State, ghost tr': seq<M.State>)
    requires At(data, tr)
    ensures At(data', tr') && tr <= tr' && data'.walk == data.walk
  {
    data', tr' := data, tr;
    for i := 0 to |steps|
      invariant At(data', tr') && tr <= tr' && data'.walk == data.walk
    {
      if ByOthers(steps[i]) && M.Enabled(data', steps[i]) {
        data', tr' := Take(data', steps[i], tr');
      }
    }
  }

  /** Some keys of one database, with all keys of their tags. */
  method SomeTags(src: M.Keyspace, db: nat) returns (keys: set<M.Key>)
    ensures M.TagClosed(src, keys)
  {
    var wanted: set<M.Key> := *;
    keys := set k | k in src && exists w :: w in wanted && w.db == db && M.SameTag(k, w);
  }

  /** INFO keyspace: the databases with keys, of this slot or of others. */
  method NonEmptyDbs(src: M.Keyspace) returns (dbs: set<nat>)
    ensures forall k :: k in src ==> k.db in dbs
  {
    var others: set<nat> := *;
    dbs := others + (set k | k in src :: k.db);
  }

  /** The smallest listed database above the current one, or -1. */
  method NextDb(dbs: set<nat>, db: nat) returns (nextdb: int)
    ensures M.IsNext(dbs, db, nextdb)
  {
    nextdb := -1;
    var rest := dbs;
    while rest != {}
      invariant rest <= dbs
      invariant nextdb == -1 ==> forall d :: d in dbs && d !in rest ==> d <= db
      invariant nextdb != -1 ==>
                  nextdb > db && nextdb in dbs && forall d :: d in dbs && d !in rest && d > db ==> nextdb <= d
      decreases |rest|
    {
      var i := AnyOf(rest);
      rest := rest - {i};
      if (nextdb == -1 || i < nextdb) && db < i { nextdb := i; }
    }
  }

  function KeysIn(src: M.Keyspace, db: nat): set<M.Key> {
    set k | k in src && k.db == db
  }

  /** MigrateSlot: some keys of the database are moved, and the rest is counted. */
  method MoveAndCount(data: M.State, db: nat, ghost tr: seq<M.State>)
      returns (data': M.State, remains: nat, ghost tr': seq<M.State>)
    requires At(data, tr) && data.walk == M.Emptying(db)
    ensures At(data', tr') && tr <= tr' && data'.walk == data.walk
    ensures remains == |KeysIn(data'.src, db)| && (remains == 0 ==> M.Enabled(data', M.Count))
  {
    var keys := SomeTags(data.src, db);
    data', tr' := Take(data, M.MoveKeys(keys), tr);
    remains := |KeysIn(data'.src, db)|;
    if remains == 0 {
      assert forall k :: k in data'.src && k.db == db ==> k in KeysIn(data'.src, db);
    }
  }

  /** INFO keyspace: the walk goes on at the next database, or is over with an empty source. */
  method ListNext(data: M.State, db: nat, ghost tr: seq<M.State>)
      returns (data': M.State, nextdb: int, ghost tr': seq<M.State>)
    requires At(data, tr) && data.walk == M.Counted(db)
    ensures At(data', tr') && tr <= tr'
    ensures nextdb != -1 ==> nextdb > db && data'.walk == M.Emptying(nextdb)
    ensures nextdb == -1 ==> data'.walk.Over? && data'.src == map[]
  {
    var dbs := NonEmptyDbs(data.src);
    nextdb := NextDb(dbs, db);
    data', tr' := Take(data, M.List(dbs, nextdb), tr);
    if nextdb == -1 { assert forall k :: k !in data'.src; }
  }

  /** Which of the calls of a migration closure to the source work. */
  datatype Net = Net(reached: bool, answered: bool, listed: bool) {
    predicate Up() { reached && answered && listed }
  }

  /** One call of the migration closure. */
  method RunExecutor(from: Addr, data: M.State, db: nat, net: Net, between: seq<M.Step>, ghost tr: seq<M.State>)
      returns (data': M.State, remains: nat, nextdb: int, failed: bool, ghost tr': seq<M.State>)
    requires At(data, tr) && data.walk == M.Emptying(db)
    ensures At(data', tr') && tr <= tr'
    ensures !failed && remains != 0 ==> nextdb == db && remains == |KeysIn(data'.src, db)|
    ensures !failed && remains == 0 && nextdb != -1 ==> nextdb > db
    ensures !failed && nextdb != -1 ==> nextdb >= 0 && data'.walk == M.Emptying(nextdb)
    ensures failed ==> !data'.walk.Over? && !net.Up()
    ensures !failed && remains == 0 && nextdb == -1 ==> from == "" || (data'.walk.Over? && data'.src == map[])
  {
    data', tr', remains, nextdb, failed := data, tr, 0, -1, false;
    if from == "" { return; }
    if !net.reached { failed := true; return; }
    data', remains, tr' := MoveAndCount(data, db, tr);
    if !net.answered { failed := true; return; }
    if remains != 0 { nextdb := db; return; }
    data', tr' := Take(data', M.Count, tr');
    data', tr' := Others(data', between, tr');
    if !net.listed { failed := true; return; }
    data', nextdb, tr' := ListNext(data', db, tr');
  }

  /** How a round of the worker ended. */
  datatype Outcome = Running | CallFailed | Completed(status: Status)

  /** What goes on besides the worker in one of its rounds: dashboard requests before it and while its
      executor runs, steps of clients and proxies, and failing calls. */
  datatype Meanwhile = Meanwhile(
    before: seq<Request>, during: seq<Request>, clients: seq<M.Step>, listing: seq<M.Step>, net: Net)

  ghost predicate NoExecutor(s: Topom, sid: nat)
    reads s
  {
    forall e: Exec :: e.sid == sid ==> s.execs[e] == 0
  }

  /** The executor of the slot runs while other requests are served. */
  method Migrate(s: Topom, e: Exec, data: M.State, db: nat, meanwhile: Meanwhile, ghost tr: seq<M.State>)
      returns (data': M.State, remains: nat, nextdb: int, failed: bool, ghost tr': seq<M.State>)
    requires s.Valid() && At(data, tr) && data.walk == M.Emptying(db)
    requires s.execs[e] == 1 && forall x: Exec :: x.sid == e.sid && x != e ==> s.execs[x] == 0
    requires LeavesAlone(meanwhile.during, e.sid)
    modifies s
    ensures s.Valid() && old(s.trace) <= s.trace && NoExecutor(s, e.sid)
    ensures StillUnderway(old(s.store).slots, s.store.slots, e.sid)
    ensures At(data', tr') && tr <= tr'
    ensures !failed && nextdb != -1 ==> nextdb >= 0 && data'.walk == M.Emptying(nextdb)
    ensures !failed && remains != 0 ==> nextdb == db && remains == |KeysIn(data'.src, db)|
    ensures !failed && remains == 0 && nextdb != -1 ==> nextdb > db
    ensures failed ==> !data'.walk.Over? && !meanwhile.net.Up()
    ensures meanwhile.during == [] ==> s.InService() == old(s.InService()) && s.faults == old(s.faults)
    ensures !failed && remains == 0 && nextdb == -1 ==> e.from == "" || (data'.walk.Over? && data'.src == map[])
  {
    ServeMany(s, meanwhile.during, e.sid);
    data', remains, nextdb, failed, tr' := RunExecutor(e.from, data, db, meanwhile.net, meanwhile.listing, tr);
    s.EndExecutor(e);
  }

  /** An executor without a source address is one of a slot that was offline. */
  lemma NoSourceIsOffline(s: Topom, e: Exec)
    requires s.Valid() && e in s.execs
    ensures e.from == "" ==> e.gid == 0
  {
    s.TracedInv();
    var st := s.store;
    assert Routing.ExecOk(st, e);
    assert Integrity.SlotOk(st.groups, st.slots[e.sid]);
    if e.gid != 0 { assert Integrity.GroupOk(e.gid, st.groups[e.gid]); }
  }

  /** The slot's action was completed: it belongs to the target its action had, has no action any more,
      and every proxy serves it. */
  ghost predicate Ended(was: seq<SlotMapping>, w: World, sid: nat) {
    && sid < |was| && sid < |w.store.slots|
    && w.store.slots[sid] == SlotMapping(was[sid].action.target, NO_ACTION)
    && AllServe(w, sid)
  }

  /** One round of the worker: ask for an executor, run it, and complete the action if the source is
      empty. */
  method WorkOnce(s: Topom, sid: nat, data: M.State, db: nat, meanwhile: Meanwhile, ghost tr: seq<M.State>)
      returns (outcome: Outcome, data': M.State, db': nat, migrating: bool, gid: int, ghost tr': seq<M.State>)
    requires s.Valid() && NoExecutor(s, sid) && LeavesAlone(meanwhile.during, sid)
    requires At(data, tr) && data.walk == M.Emptying(db)
    modifies s
    ensures s.Valid() && old(s.trace) <= s.trace && NoExecutor(s, sid)
    ensures At(data', tr') && tr <= tr' && (outcome.Running? ==> data'.walk == M.Emptying(db'))
    ensures outcome.Completed? && migrating ==> gid == 0 || (data'.walk.Over? && data'.src == map[])
    ensures data'.walk.Over? ==> outcome.Completed?
    ensures outcome.CallFailed? ==>
              || !meanwhile.net.Up() || !CanComplete(old(s.store), sid)
              || Hindered(old(s.InService()), old(s.faults), s.faults)
    ensures outcome != Completed(Refused)
    ensures outcome == Completed(Failed) && meanwhile.during == [] ==>
              Hindered(old(s.InService()), old(s.faults), s.faults)
    ensures outcome == Completed(Ok) ==> Ended(old(s.store).slots, s.Now(), sid)
    ensures outcome.Running? && migrating ==> db' > db || (db' == db && KeysIn(data'.src, db) != {})
    ensures outcome.Running? ==> CanComplete(old(s.store), sid) && StillUnderway(old(s.store).slots, s.store.slots, sid)
  {
    data', tr', db', migrating, gid := data, tr, db, false, 0;
    var status, x := NewSlotActionExecutor(s, sid);
    if !status.Ok? { outcome := CallFailed; return; }
    match x
    case Pause => outcome := Running;
    case NothingLeft =>
      var done := SlotActionComplete(s, sid);
      outcome := Completed(done);
    case Migrate(e) =>
      NoSourceIsOffline(s, e);
      var remains, nextdb, failed;
      data', remains, nextdb, failed, tr' := Migrate(s, e, data, db, meanwhile, tr);
      migrating, gid := true, e.gid;
      if failed { outcome := CallFailed; return; }
      if remains == 0 && nextdb == -1 {
        var done := SlotActionComplete(s, sid);
        outcome := Completed(done);
      } else {
        outcome, db' := Running, nextdb;
      }
  }

  /** processSlotAction, from the first database on; `rounds` is what happens as long as the dashboard
      stays online.  Completion of a migrating slot means that the source has no key of it, or that the
      slot had no group. */
  method ProcessSlotAction(s: Topom, sid: nat, data: M.State, rounds: seq<Meanwhile>, ghost tr: seq<M.State>)
      returns (outcome: Outcome, data': M.State, migrating: bool, gid: int, ghost tr': seq<M.State>)
    requires s.Valid() && NoExecutor(s, sid) && At(data, tr)
    requires forall i :: 0 <= i < |rounds| ==> LeavesAlone(rounds[i].before, sid) && LeavesAlone(rounds[i].during, sid)
    modifies s
    ensures s.Valid() && old(s.trace) <= s.trace && At(data', tr') && tr <= tr'
    ensures outcome.Completed? && migrating ==> gid == 0 || (data'.walk.Over? && data'.src == map[])
    ensures data'.walk.Over? ==> outcome.Completed?
    ensures CanComplete(old(s.store), sid) && outcome == Completed(Ok) ==> Ended(old(s.store).slots, s.Now(), sid)
  {
    migrating, gid, outcome := false, 0, Running;
    var db: nat := 0;
    data', tr' := Take(data, M.Restart, tr);
    for k := 0 to |rounds|
      invariant s.Valid() && old(s.trace) <= s.trace && NoExecutor(s, sid)
      invariant At(data', tr') && tr <= tr' && data'.walk == M.Emptying(db) && outcome.Running?
      invariant StillUnderway(old(s.store).slots, s.store.slots, sid)
    {
      ServeMany(s, rounds[k].before, sid);
      data', tr' := Others(data', rounds[k].clients, tr');
      outcome, data', db, migrating, gid, tr' := WorkOnce(s, sid, data', db, rounds[k], tr');
      if !outcome.Running? { return; }
    }
  }
}
