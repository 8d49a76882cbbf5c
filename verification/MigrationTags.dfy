/**
 Migrations in which tags stay whole: the exec-wrapper forwards a command only when no key of its
 tag is left on the source.
 */
module MigrationTags {
  import opened Models
  import opened Migration
  import opened MigrationSafety

  /** No tag has keys on both servers. */
  ghost predicate Whole(s: State) {
    forall a, b :: a in s.src && b in s.dst ==> !SameTag(a, b)
  }

  /** A request on its way to the target finds its whole tag there. */
  ghost predicate LandedCall(s: State, p: Call) {
    p.stage == AtTarget && p.cmd.touches != {} ==> forall k :: k in s.src ==> !SameTag(k, p.cmd.hkey)
  }

  ghost predicate Landed(s: State) {
    forall id :: id in s.inflight ==> LandedCall(s, s.inflight[id])
  }

  /** A command with the empty hash key names no key while migrating, and when the exec-wrapper does not
      find the hash key, no other key of its tag is there either. */
  predicate TagWise(s: State, a: Step)
    requires Enabled(s, a)
  {
    match a
    case Admit(_, p) => s.modes[p.proxy] == MigrateFirst && p.cmd.hkey.name == "" ==> p.cmd.touches == {}
    case WrapperAbsent(id) => TagKeys(s.src, s.inflight[id].cmd.hkey) == {}
    case _ => true
  }

  lemma WholeIsApart(s: State)
    requires Whole(s)
    ensures Apart(s)
  {
  }

  lemma TagWiseIsClean(s: State, a: Step)
    requires Inv(s) && Whole(s) && Landed(s) && Enabled(s, a)
    ensures Clean(s, a)
  {
    if Executes(a) {
      assert CallOk(s, s.inflight[a.id]) && LandedCall(s, s.inflight[a.id]);
    }
  }

  /** What a command puts on a server has its tag. */
  lemma NewKeysHaveTag(m: Keyspace, c: Command, k: Key)
    requires WellTagged(c) && k in RunCommand(m, c)
    ensures k in m || (SameTag(k, c.hkey) && c.touches != {})
  {
    NewKeysAreNamed(m, c);
    assert k in m || k in c.touches;
  }

  /** New keys on the source have a tag that is there already. */
  lemma SourceKeepsWhole(s: State, c: Command)
    requires Whole(s) && WellTagged(c) && c.hkey in s.src
    ensures Whole(s.(src := RunCommand(s.src, c)))
  {
    forall a, b | a in RunCommand(s.src, c) && b in s.dst
      ensures !SameTag(a, b)
    {
      NewKeysHaveTag(s.src, c, a);
      assert !SameTag(c.hkey, b);
    }
  }

  lemma SourceKeepsLanded(s: State, c: Command)
    requires Landed(s) && WellTagged(c) && c.hkey in s.src
    ensures Landed(s.(src := RunCommand(s.src, c)))
  {
    var s' := s.(src := RunCommand(s.src, c));
    forall id | id in s.inflight && s.inflight[id].stage == AtTarget && s.inflight[id].cmd.touches != {}
      ensures LandedCall(s', s.inflight[id])
    {
      var h := s.inflight[id].cmd.hkey;
      assert LandedCall(s, s.inflight[id]) && !SameTag(c.hkey, h);
      forall k | k in s'.src ensures !SameTag(k, h) { NewKeysHaveTag(s.src, c, k); }
    }
  }

  lemma TargetKeepsWhole(s: State, id: nat)
    requires Whole(s) && Landed(s) && Waiting(s, id, AtTarget) && WellTagged(s.inflight[id].cmd)
    ensures Whole(s.(dst := RunCommand(s.dst, s.inflight[id].cmd)))
  {
    var c := s.inflight[id].cmd;
    assert LandedCall(s, s.inflight[id]);
    forall a, b | a in s.src && b in RunCommand(s.dst, c)
      ensures !SameTag(a, b)
    {
      NewKeysHaveTag(s.dst, c, b);
    }
  }

  lemma MoveKeepsWhole(s: State, keys: set<Key>)
    requires Whole(s) && Landed(s) && TagClosed(s.src, keys)
    ensures Whole(MoveAll(s, keys)) && Landed(MoveAll(s, keys))
  {
    var s' := MoveAll(s, keys);
    forall id | id in s.inflight
      ensures LandedCall(s', s'.inflight[id])
    {
      assert LandedCall(s, s.inflight[id]);
    }
  }

  /** A request reaches the target only after its tag. */
  lemma ForwardLands(s: State, id: nat)
    requires Whole(s) && Landed(s) && id in s.inflight && TagKeys(s.src, s.inflight[id].cmd.hkey) == {}
    ensures Whole(Forwarded(s, id)) && Landed(Forwarded(s, id))
  {
    var s' := Forwarded(s, id);
    forall x | x in s'.inflight
      ensures LandedCall(s', s'.inflight[x])
    {
      assert LandedCall(s, s.inflight[x]);
      assert forall k :: k in s.src && SameTag(k, s.inflight[id].cmd.hkey) ==>
               k in TagKeys(s.src, s.inflight[id].cmd.hkey);
    }
  }

  lemma AdmitLands(s: State, a: Step)
    requires Inv(s) && Whole(s) && Landed(s) && Enabled(s, a) && TagWise(s, a) && a.Admit?
    ensures Whole(After(s, a)) && Landed(After(s, a))
  {
    var s' := After(s, a);
    assert ModeAllowed(s.source, s.moved, s.finished, s.modes[a.p.proxy]);
    forall x | x in s'.inflight
      ensures LandedCall(s', s'.inflight[x])
    {
      if x != a.id { assert LandedCall(s, s.inflight[x]); }
    }
  }

  lemma DoneKeeps(s: State, id: nat)
    requires Whole(s) && Landed(s)
    ensures Whole(Done(s, id)) && Landed(Done(s, id))
  {
    forall x | x in Done(s, id).inflight
      ensures LandedCall(Done(s, id), Done(s, id).inflight[x])
    {
      assert LandedCall(s, s.inflight[x]);
    }
  }

  lemma ExecuteKeepsWhole(s: State, a: Step)
    requires Inv(s) && Whole(s) && Landed(s) && Enabled(s, a) && Executes(a)
    ensures Whole(After(s, a)) && Landed(After(s, a))
  {
    var id, c := a.id, s.inflight[a.id].cmd;
    assert CallOk(s, s.inflight[id]);
    if Waiting(s, id, AtTarget) {
      TargetKeepsWhole(s, id);
      var s1 := s.(dst := RunCommand(s.dst, c));
      assert Landed(s1) by {
        forall x | x in s.inflight ensures LandedCall(s1, s1.inflight[x]) { assert LandedCall(s, s.inflight[x]); }
      }
      DoneKeeps(s1, id);
    } else if a.WrapperExecuted? {
      SourceKeepsWhole(s, c);
      SourceKeepsLanded(s, c);
      DoneKeeps(s.(src := RunCommand(s.src, c)), id);
    } else {
      forall x | x in s.inflight ensures s.inflight[x].stage != AtTarget { assert CallOk(s, s.inflight[x]); }
    }
  }

  /** The worker, the dashboard and the fills touch neither keys nor requests. */
  lemma OthersKeep(s: State, a: Step)
    requires Whole(s) && Landed(s) && Enabled(s, a)
    requires a.Count? || a.List? || a.Restart? || a.Complete? || a.Switch? || a.Refill?
    ensures Whole(After(s, a)) && Landed(After(s, a))
  {
    var s' := After(s, a);
    forall x | x in s'.inflight ensures LandedCall(s', s'.inflight[x]) { assert LandedCall(s, s.inflight[x]); }
  }

  lemma TagWiseKeeps(s: State, a: Step)
    requires Inv(s) && Whole(s) && Landed(s) && Enabled(s, a) && TagWise(s, a)
    ensures Whole(After(s, a)) && Landed(After(s, a))
  {
    if a.Admit? {
      AdmitLands(s, a);
    } else if Executes(a) {
      ExecuteKeepsWhole(s, a);
    } else if a.MigrateTag? {
      MoveKeepsWhole(s, a.keys);
      assert TagKeys(s.src - a.keys, s.inflight[a.id].cmd.hkey) == {};
      ForwardLands(MoveAll(s, a.keys), a.id);
    } else if a.MigrateFailed? {
      MoveKeepsWhole(s, a.keys);
      DoneKeeps(MoveAll(s, a.keys), a.id);
    } else if a.MoveKeys? {
      MoveKeepsWhole(s, a.keys);
    } else if a.WrapperAbsent? {
      ForwardLands(s, a.id);
    } else if a.WrapperBusy? || a.Drop? {
      DoneKeeps(s, a.id);
    } else {
      OthersKeep(s, a);
    }
  }

  ghost predicate TagWiseRun(tr: seq<State>, steps: seq<Step>) {
    Run(tr, steps) && forall i :: 0 <= i < |steps| ==> TagWise(tr[i], steps[i])
  }

  lemma {:induction false} TagWisePrefix(tr: seq<State>, steps: seq<Step>, n: nat)
    requires TagWiseRun(tr, steps) && n <= |steps|
    ensures Whole(tr[n]) && Landed(tr[n])
    ensures forall i :: 0 <= i < n ==> Clean(tr[i], steps[i])
  {
    if n > 0 {
      TagWisePrefix(tr, steps, n - 1);
      RunsKeepInv(tr, steps, n - 1);
      TagWiseIsClean(tr[n - 1], steps[n - 1]);
      TagWiseKeeps(tr[n - 1], steps[n - 1]);
      assert tr[n - 1 + 1] == After(tr[n - 1], steps[n - 1]);
    }
  }

  /** Any commands within one tag, with either forwarding method: as long as the exec-wrapper misses a
      hash key only when nothing of its tag is left on the source, clients see one map and no tag is
      ever split. */
  lemma TagWiseRunsRefine(tr: seq<State>, steps: seq<Step>)
    requires TagWiseRun(tr, steps)
    ensures CleanRun(tr, steps) && forall i :: 0 <= i < |tr| ==> Whole(tr[i])
    ensures Together(tr[|steps|]) == Sequentially(Together(tr[0]), Effects(tr, steps))
    ensures RepliesRight(Together(tr[0]), Effects(tr, steps))
  {
    forall i | 0 <= i < |tr| ensures Whole(tr[i]) { TagWisePrefix(tr, steps, i); }
    TagWisePrefix(tr, steps, |steps|);
    RunRefinesOneMap(tr, steps);
  }
}
