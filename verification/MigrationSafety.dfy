/**
 What every run of a migration keeps, and when the two servers together behave as one map.
 */
module MigrationSafety {
  import opened Models
  import opened Migration

  // ---------------------------------------------------------------- what every run keeps

  /** No key is left in the databases the walk has passed. */
  ghost predicate WalkOk(s: State) {
    forall k :: k in s.src ==>
      match s.walk
      case Emptying(db) => db <= k.db
      case Counted(db) => db < k.db
      case Over => false
  }

  ghost predicate CallOk(s: State, p: Call) {
    && WellTagged(p.cmd) && p.proxy in s.modes
    && match p.stage
       case AtSource => !s.moved && s.modes[p.proxy] == ToSource
       case AtProxy => s.moved && s.modes[p.proxy] == MigrateFirst
       case AtTarget => s.moved && s.modes[p.proxy] in {MigrateFirst, ToTarget}
  }

  ghost predicate CallsOk(s: State) {
    forall id :: id in s.inflight ==> CallOk(s, s.inflight[id])
  }

  ghost predicate Inv(s: State) {
    && (!s.source ==> s.src == map[])
    && (!s.moved ==> s.dst == map[] && s.walk == Emptying(0) && !s.finished)
    && WalkOk(s)
    && (s.finished ==> s.src == map[])
    && (forall t :: t in s.modes ==> ModeAllowed(s.source, s.moved, s.finished, s.modes[t]))
    && CallsOk(s)
  }

  /** Executing a command puts only keys it names on a server. */
  lemma NewKeysAreNamed(m: Keyspace, c: Command)
    ensures RunCommand(m, c).Keys <= m.Keys + c.touches
  {
  }

  /** A command is executed on the source only where the database of its keys has a key already, or
      before the walk. */
  lemma SourceKeeps(s: State, id: nat)
    requires Inv(s) && id in s.inflight
    requires s.inflight[id].stage == AtSource || (s.inflight[id].stage == AtProxy && s.inflight[id].cmd.hkey in s.src)
    ensures Inv(Done(s.(src := RunCommand(s.src, s.inflight[id].cmd)), id))
  {
    var p := s.inflight[id];
    assert CallOk(s, p);
    var src := RunCommand(s.src, p.cmd);
    NewKeysAreNamed(s.src, p.cmd);
    forall k | k in src && k !in s.src
      ensures SameTag(k, p.cmd.hkey) && k.db == p.cmd.hkey.db
    {
    }
  }

  lemma RequestStepKeeps(s: State, a: Step)
    requires Inv(s) && Enabled(s, a)
    requires a.Admit? || a.WrapperAbsent? || a.WrapperBusy? || a.WrapperExecuted? || a.Execute? || a.Drop?
    ensures Inv(After(s, a))
  {
    match a
    case WrapperExecuted(id) => SourceKeeps(s, id);
    case Execute(id) =>
      assert CallOk(s, s.inflight[id]);
      if Waiting(s, id, AtSource) { SourceKeeps(s, id); }
    case _ =>
  }

  lemma MoveStepKeeps(s: State, a: Step)
    requires Inv(s) && Enabled(s, a) && (a.MigrateTag? || a.MigrateFailed? || a.MoveKeys?)
    ensures Inv(After(s, a))
  {
    if !a.MoveKeys? { assert CallOk(s, s.inflight[a.id]); }
  }

  lemma WalkStepKeeps(s: State, a: Step)
    requires Inv(s) && Enabled(s, a) && (a.Count? || a.List? || a.Restart? || a.Complete?)
    ensures Inv(After(s, a))
  {
  }

  lemma RouteStepKeeps(s: State, a: Step)
    requires Inv(s) && Enabled(s, a) && (a.Switch? || a.Refill?)
    ensures Inv(After(s, a))
  {
  }

  lemma StepKeeps(s: State, a: Step)
    requires Inv(s) && Enabled(s, a)
    ensures Inv(After(s, a))
  {
    if a.Count? || a.List? || a.Restart? || a.Complete? {
      WalkStepKeeps(s, a);
    } else if a.MigrateTag? || a.MigrateFailed? || a.MoveKeys? {
      MoveStepKeeps(s, a);
    } else if a.Switch? || a.Refill? {
      RouteStepKeeps(s, a);
    } else {
      RequestStepKeeps(s, a);
    }
  }

  lemma {:induction false} RunsKeepInv(tr: seq<State>, steps: seq<Step>, i: nat)
    requires Run(tr, steps) && i < |tr|
    ensures Inv(tr[i])
  {
    if i > 0 {
      RunsKeepInv(tr, steps, i - 1);
      assert Enabled(tr[i - 1], steps[i - 1]) && tr[i - 1 + 1] == After(tr[i - 1], steps[i - 1]);
      StepKeeps(tr[i - 1], steps[i - 1]);
    }
  }

  /** When the finished state is stored, and whenever a proxy has dropped migrate-from, the source has
      no key of the slot: in every run, whatever the clients do. */
  lemma FinishedMeansSourceEmpty(tr: seq<State>, steps: seq<Step>, i: nat)
    requires Run(tr, steps) && i < |tr|
    ensures tr[i].finished ==> tr[i].src == map[]
    ensures forall t :: t in tr[i].modes && tr[i].modes[t] == ToTarget ==> tr[i].src == map[]
  {
    RunsKeepInv(tr, steps, i);
  }

  // ---------------------------------------------------------------- the one map

  /** The target's value if there is one, else the source's. */
  function Together(s: State): Keyspace {
    s.src + s.dst
  }

  ghost predicate Apart(s: State) {
    s.src.Keys !! s.dst.Keys
  }

  predicate Executes(a: Step) {
    a.WrapperExecuted? || a.Execute?
  }

  /** The server a waiting request is not executed on. */
  function There(s: State, a: Step): Keyspace {
    match a
    case Execute(id) => if Waiting(s, id, AtTarget) then s.src else s.dst
    case _ => s.dst
  }

  /** A command is executed where no key it names is missed. */
  ghost predicate Clean(s: State, a: Step)
    requires Enabled(s, a)
  {
    Executes(a) ==> s.inflight[a.id].cmd.touches !! There(s, a).Keys
  }

  /** What the clients see of a step. */
  ghost predicate Refines(before: Keyspace, e: Effect, after: Keyspace) {
    match e
    case NoEffect => after == before
    case Effect(c, reply) => after == RunCommand(before, c) && reply == ReplyOf(before, c)
  }

  lemma MoveKeepsTogether(s: State, keys: set<Key>)
    requires keys <= s.src.Keys && Apart(s)
    ensures Together(MoveAll(s, keys)) == Together(s) && Apart(MoveAll(s, keys))
  {
  }

  lemma UnionCommutes(a: Keyspace, b: Keyspace)
    requires a.Keys !! b.Keys
    ensures a + b == b + a
  {
  }

  /** A command that misses nothing runs as on the union of two servers. */
  lemma RunsOnUnion(here: Keyspace, there: Keyspace, c: Command)
    requires here.Keys !! there.Keys && c.touches !! there.Keys
    ensures RunCommand(here, c).Keys !! there.Keys
    ensures RunCommand(here, c) + there == RunCommand(here + there, c)
    ensures ReplyOf(here, c) == ReplyOf(here + there, c)
  {
    assert Only(here, c.touches) == Only(here + there, c.touches);
  }

  lemma SourceRefines(s: State, c: Command)
    requires Apart(s) && c.touches !! s.dst.Keys
    ensures var s' := s.(src := RunCommand(s.src, c));
            Apart(s') && Refines(Together(s), Effect(c, ReplyOf(s.src, c)), Together(s'))
  {
    RunsOnUnion(s.src, s.dst, c);
  }

  lemma TargetRefines(s: State, c: Command)
    requires Apart(s) && c.touches !! s.src.Keys
    ensures var s' := s.(dst := RunCommand(s.dst, c));
            Apart(s') && Refines(Together(s), Effect(c, ReplyOf(s.dst, c)), Together(s'))
  {
    RunsOnUnion(s.dst, s.src, c);
    UnionCommutes(s.src, s.dst);
    UnionCommutes(s.src, RunCommand(s.dst, c));
  }

  /** Every clean step is, to the clients, either nothing or one command on the one map. */
  lemma StepRefines(s: State, a: Step)
    requires Apart(s) && Enabled(s, a) && Clean(s, a)
    ensures Apart(After(s, a)) && Refines(Together(s), EffectOf(s, a), Together(After(s, a)))
  {
    if a.Execute? && Waiting(s, a.id, AtTarget) {
      TargetRefines(s, s.inflight[a.id].cmd);
    } else if Executes(a) {
      SourceRefines(s, s.inflight[a.id].cmd);
    } else if a.MigrateTag? || a.MigrateFailed? || a.MoveKeys? {
      MoveKeepsTogether(s, a.keys);
    }
  }

  ghost function Effects(tr: seq<State>, steps: seq<Step>): (es: seq<Effect>)
    requires Run(tr, steps)
    ensures |es| == |steps|
  {
    seq(|steps|, i requires 0 <= i < |steps| => EffectOf(tr[i], steps[i]))
  }

  /** One map executing the commands one after the other. */
  ghost function Sequentially(m: Keyspace, es: seq<Effect>): Keyspace {
    if es == [] then m
    else
      var before := Sequentially(m, es[..|es| - 1]);
      match es[|es| - 1]
      case NoEffect => before
      case Effect(c, _) => RunCommand(before, c)
  }

  /** Every reply is the one that map gives. */
  ghost predicate RepliesRight(m: Keyspace, es: seq<Effect>) {
    forall i :: 0 <= i < |es| && es[i].Effect? ==> es[i].reply == ReplyOf(Sequentially(m, es[..i]), es[i].cmd)
  }

  ghost predicate CleanRun(tr: seq<State>, steps: seq<Step>) {
    Run(tr, steps) && forall i :: 0 <= i < |steps| ==> Clean(tr[i], steps[i])
  }

  lemma {:induction false} CleanPrefix(tr: seq<State>, steps: seq<Step>, n: nat)
    requires CleanRun(tr, steps) && n <= |steps|
    ensures Apart(tr[n]) && Together(tr[n]) == Sequentially(Together(tr[0]), Effects(tr, steps)[..n])
  {
    if n > 0 {
      var es := Effects(tr, steps);
      CleanPrefix(tr, steps, n - 1);
      StepRefines(tr[n - 1], steps[n - 1]);
      assert es[..n][..n - 1] == es[..n - 1];
      assert tr[n - 1 + 1] == After(tr[n - 1], steps[n - 1]);
    }
  }

  /** In a run whose commands miss nothing, clients see one map. */
  lemma RunRefinesOneMap(tr: seq<State>, steps: seq<Step>)
    requires CleanRun(tr, steps)
    ensures Together(tr[|steps|]) == Sequentially(Together(tr[0]), Effects(tr, steps))
    ensures RepliesRight(Together(tr[0]), Effects(tr, steps))
  {
    var es := Effects(tr, steps);
    forall i | 0 <= i < |es| && es[i].Effect?
      ensures es[i].reply == ReplyOf(Sequentially(Together(tr[0]), es[..i]), es[i].cmd)
    {
      CleanPrefix(tr, steps, i);
      StepRefines(tr[i], steps[i]);
    }
    CleanPrefix(tr, steps, |steps|);
    assert es[..|steps|] == es;
  }

  // ---------------------------------------------------------------- which runs are clean

  /** What a request may rely on once it is on its way to the target. */
  ghost predicate Cleared(s: State) {
    forall id :: id in s.inflight && s.inflight[id].stage == AtTarget ==> s.inflight[id].cmd.touches !! s.src.Keys
  }

  /** A condition on the command alone: with the empty hash key it names no key while migrating, and
      behind the exec-wrapper it names no key but its hash key.  There is none on SLOTSMGRTTAGONE. */
  predicate Careful(s: State, a: Step)
    requires Enabled(s, a)
  {
    match a
    case Admit(_, p) => s.modes[p.proxy] == MigrateFirst && p.cmd.hkey.name == "" ==> p.cmd.touches == {}
    case WrapperAbsent(id) => s.inflight[id].cmd.touches <= {s.inflight[id].cmd.hkey}
    case WrapperExecuted(id) => s.inflight[id].cmd.touches <= {s.inflight[id].cmd.hkey}
    case _ => true
  }

  lemma CarefulIsClean(s: State, a: Step)
    requires Inv(s) && Apart(s) && Cleared(s) && Enabled(s, a) && Careful(s, a)
    ensures Clean(s, a)
  {
    if Executes(a) { assert CallOk(s, s.inflight[a.id]); }
  }

  /** A tag move clears every key of the tag off the source. */
  lemma TagMoveClears(s: State, c: Command, keys: set<Key>)
    requires WellTagged(c) && TagKeys(s.src, c.hkey) <= keys
    ensures c.touches !! MoveAll(s, keys).src.Keys
  {
    forall x | x in c.touches && x in s.src
      ensures x in keys
    {
      assert x in TagKeys(s.src, c.hkey);
    }
  }

  lemma CarefulKeepsCleared(s: State, a: Step)
    requires Inv(s) && Apart(s) && Cleared(s) && Enabled(s, a) && Careful(s, a)
    ensures Cleared(After(s, a))
  {
    match a
    case MigrateTag(id, keys) =>
      assert CallOk(s, s.inflight[id]);
      TagMoveClears(s, s.inflight[id].cmd, keys);
    case WrapperExecuted(id) => NewKeysAreNamed(s.src, s.inflight[id].cmd);
    case Execute(id) =>
      assert CallOk(s, s.inflight[id]);
      forall x | x in s.inflight ensures CallOk(s, s.inflight[x]) {}
    case _ =>
  }

  ghost predicate CarefulRun(tr: seq<State>, steps: seq<Step>) {
    Run(tr, steps) && forall i :: 0 <= i < |steps| ==> Careful(tr[i], steps[i])
  }

  lemma {:induction false} CarefulPrefix(tr: seq<State>, steps: seq<Step>, n: nat)
    requires CarefulRun(tr, steps) && n <= |steps|
    ensures Apart(tr[n]) && Cleared(tr[n])
    ensures forall i :: 0 <= i < n ==> Clean(tr[i], steps[i])
  {
    if n > 0 {
      CarefulPrefix(tr, steps, n - 1);
      RunsKeepInv(tr, steps, n - 1);
      var s, a := tr[n - 1], steps[n - 1];
      CarefulIsClean(s, a);
      CarefulKeepsCleared(s, a);
      StepRefines(s, a);
      assert tr[n - 1 + 1] == After(s, a);
    }
  }

  /** With careful commands clients see one map: any commands within one tag when tags are moved first,
      any commands on one key behind the exec-wrapper. */
  lemma CarefulRunsRefine(tr: seq<State>, steps: seq<Step>)
    requires CarefulRun(tr, steps)
    ensures CleanRun(tr, steps)
    ensures Together(tr[|steps|]) == Sequentially(Together(tr[0]), Effects(tr, steps))
    ensures RepliesRight(Together(tr[0]), Effects(tr, steps))
  {
    CarefulPrefix(tr, steps, |steps|);
    RunRefinesOneMap(tr, steps);
  }

  predicate NoWrapper(steps: seq<Step>) {
    forall i :: 0 <= i < |steps| ==> !steps[i].WrapperAbsent? && !steps[i].WrapperExecuted?
  }

  /** Without the exec-wrapper, commands within one tag and with a non-empty hash key always see one map. */
  lemma TagMovesRefine(tr: seq<State>, steps: seq<Step>)
    requires Run(tr, steps)
    requires NoWrapper(steps)
    requires forall i :: 0 <= i < |steps| && steps[i].Admit? ==> steps[i].p.cmd.hkey.name != ""
    ensures Together(tr[|steps|]) == Sequentially(Together(tr[0]), Effects(tr, steps))
    ensures RepliesRight(Together(tr[0]), Effects(tr, steps))
  {
    CarefulRunsRefine(tr, steps);
  }

  /** Once some proxy has dropped migrate-from, the target alone is the whole map. */
  lemma DroppedMeansTargetIsAll(tr: seq<State>, steps: seq<Step>, t: Token)
    requires CleanRun(tr, steps) && t in tr[|steps|].modes && tr[|steps|].modes[t] == ToTarget
    ensures tr[|steps|].dst == Sequentially(Together(tr[0]), Effects(tr, steps))
  {
    RunRefinesOneMap(tr, steps);
    FinishedMeansSourceEmpty(tr, steps, |steps|);
  }
}
