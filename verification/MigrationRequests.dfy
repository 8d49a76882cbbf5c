/**
 What becomes of a request during a migration: it is executed exactly once, or the client is told that
 it failed; and nothing is executed that was not asked for.
 */
module MigrationRequests {
  import opened Models
  import opened Migration
  import opened MigrationSafety

  /** The client gets an error, or the proxy tries again from the beginning. */
  predicate Fails(a: Step, id: nat) {
    a == Drop(id) || a == WrapperBusy(id) || (a.MigrateFailed? && a.id == id)
  }

  /** The step executes this command for this request. */
  ghost predicate ExecutesFor(s: State, a: Step, id: nat, c: Command) {
    && Enabled(s, a) && Executes(a) && a.id == id
    && EffectOf(s, a).Effect? && EffectOf(s, a).cmd == c
  }

  /** A request that a step leaves in place keeps its command and at most moves on to the target. */
  lemma StaysSame(s: State, a: Step, id: nat)
    requires Enabled(s, a) && id in s.inflight && id in After(s, a).inflight
    ensures var p, p' := s.inflight[id], After(s, a).inflight[id];
            p' == p || (p' == p.(stage := AtTarget) && (a.MigrateTag? || a.WrapperAbsent?) && a.id == id)
  {
  }

  lemma OwnEndTakesAway(s: State, a: Step, id: nat)
    requires Enabled(s, a) && (Fails(a, id) || (Executes(a) && a.id == id))
    ensures id in s.inflight && id !in After(s, a).inflight
  {
  }

  /** A step that takes a request away executes its command, or is a failure of this request. */
  lemma GoneIsExecutedOrFailed(s: State, a: Step, id: nat)
    requires Enabled(s, a) && id in s.inflight && id !in After(s, a).inflight
    ensures Fails(a, id) || ExecutesFor(s, a, id, s.inflight[id].cmd)
  {
  }

  /** Once the tag has been moved, or the hash key was not found, the request is on its way to the
      target. */
  lemma ForwardedStays(s: State, a: Step)
    requires Enabled(s, a) && (a.MigrateTag? || a.WrapperAbsent?)
    ensures a.id in After(s, a).inflight
    ensures After(s, a).inflight[a.id] == s.inflight[a.id].(stage := AtTarget)
  {
  }

  /** Only requests that are on their way have an effect. */
  lemma EffectIsRequested(s: State, a: Step)
    requires Enabled(s, a)
    ensures EffectOf(s, a).Effect? <==> Executes(a)
    ensures Executes(a) ==>
              && a.id in s.inflight && a.id !in After(s, a).inflight
              && EffectOf(s, a) == Effect(s.inflight[a.id].cmd, ReplyOf(Here(s, a), s.inflight[a.id].cmd))
  {
  }

  // ---------------------------------------------------------------- whole runs

  /** The request is on its way with this command. */
  ghost predicate OnItsWay(s: State, id: nat, c: Command) {
    id in s.inflight && s.inflight[id].cmd == c
  }

  predicate Acts(steps: seq<Step>, x: nat, id: nat) {
    x < |steps| && Executes(steps[x]) && steps[x].id == id
  }

  predicate FailsAt(steps: seq<Step>, x: nat, id: nat) {
    x < |steps| && Fails(steps[x], id)
  }

  predicate AdmitsAt(steps: seq<Step>, x: nat, id: nat) {
    x < |steps| && steps[x].Admit? && steps[x].id == id
  }

  /** What one step of a run does to a request. */
  lemma WaitingStep(tr: seq<State>, steps: seq<Step>, j: nat, id: nat, c: Command)
    requires Run(tr, steps) && j < |steps| && OnItsWay(tr[j], id, c)
    ensures id in tr[j + 1].inflight ==> OnItsWay(tr[j + 1], id, c) && !Acts(steps, j, id)
    ensures id !in tr[j + 1].inflight ==> FailsAt(steps, j, id) || ExecutesFor(tr[j], steps[j], id, c)
  {
    if id in tr[j + 1].inflight {
      StaysSame(tr[j], steps[j], id);
      if Acts(steps, j, id) { OwnEndTakesAway(tr[j], steps[j], id); }
    } else {
      GoneIsExecutedOrFailed(tr[j], steps[j], id);
    }
  }

  lemma AbsentStep(tr: seq<State>, steps: seq<Step>, j: nat, id: nat)
    requires Run(tr, steps) && j < |steps| && id !in tr[j].inflight
    ensures !Acts(steps, j, id)
    ensures id in tr[j + 1].inflight ==> AdmitsAt(steps, j, id) && OnItsWay(tr[j + 1], id, steps[j].p.cmd)
  {
    EffectIsRequested(tr[j], steps[j]);
  }

  lemma AdmitStep(tr: seq<State>, steps: seq<Step>, i: nat)
    requires Run(tr, steps) && i < |steps| && steps[i].Admit?
    ensures OnItsWay(tr[i + 1], steps[i].id, steps[i].p.cmd)
  {
    assert tr[i + 1] == After(tr[i], steps[i]);
  }

  /** Of all steps from `i` to `j`, step `k` alone is the request's, and it executes the command. */
  ghost predicate OnlyEffect(tr: seq<State>, steps: seq<Step>, i: nat, j: nat, id: nat, c: Command, k: nat) {
    && i <= k < j <= |steps| && |tr| == |steps| + 1 && ExecutesFor(tr[k], steps[k], id, c)
    && forall x: nat :: i <= x < j && Acts(steps, x, id) ==> x == k
  }

  lemma EffectStaysOnly(tr: seq<State>, steps: seq<Step>, i: nat, j: nat, id: nat, c: Command, k: nat)
    requires OnlyEffect(tr, steps, i, j, id, c, k) && j < |steps| && !Acts(steps, j, id)
    ensures OnlyEffect(tr, steps, i, j + 1, id, c, k)
  {
  }

  lemma FirstEffectIsOnly(tr: seq<State>, steps: seq<Step>, i: nat, j: nat, id: nat, c: Command)
    requires i <= j < |steps| && |tr| == |steps| + 1 && ExecutesFor(tr[j], steps[j], id, c)
    requires forall x: nat :: i <= x < j ==> !Acts(steps, x, id)
    ensures OnlyEffect(tr, steps, i, j + 1, id, c, j)
  {
  }

  /** From the state in which it is on its way. */
  lemma {:induction false} Fate(tr: seq<State>, steps: seq<Step>, i: nat, j: nat, id: nat, c: Command) returns (k: nat)
    requires Run(tr, steps) && i <= j <= |steps| && OnItsWay(tr[i], id, c)
    requires forall x: nat :: i <= x < j ==> !FailsAt(steps, x, id) && !AdmitsAt(steps, x, id)
    ensures || (OnItsWay(tr[j], id, c) && forall x: nat :: i <= x < j ==> !Acts(steps, x, id))
            || (id !in tr[j].inflight && OnlyEffect(tr, steps, i, j, id, c, k))
    decreases j
  {
    k := i;
    if i < j {
      k := Fate(tr, steps, i, j - 1, id, c);
      assert !FailsAt(steps, j - 1, id) && !AdmitsAt(steps, j - 1, id);
      if OnItsWay(tr[j - 1], id, c) {
        WaitingStep(tr, steps, j - 1, id, c);
        if id !in tr[j].inflight {
          k := j - 1;
          FirstEffectIsOnly(tr, steps, i, k, id, c);
        }
      } else {
        AbsentStep(tr, steps, j - 1, id);
        EffectStaysOnly(tr, steps, i, j - 1, id, c, k);
      }
    }
  }

  /** In every run, a request that was let in and is gone, without having failed, has been executed
      exactly once, and what was executed is the command that was let in. */
  lemma ExecutedOnce(tr: seq<State>, steps: seq<Step>, i: nat, j: nat) returns (k: nat)
    requires Run(tr, steps) && i < j <= |steps| && steps[i].Admit? && steps[i].id !in tr[j].inflight
    requires forall x: nat :: i < x < j ==> !FailsAt(steps, x, steps[i].id) && !AdmitsAt(steps, x, steps[i].id)
    ensures OnlyEffect(tr, steps, i + 1, j, steps[i].id, steps[i].p.cmd, k)
  {
    AdmitStep(tr, steps, i);
    k := Fate(tr, steps, i + 1, j, steps[i].id, steps[i].p.cmd);
  }

  /** In every run, what is on its way was let in before with that command, has been on its way ever
      since, and has had no effect. */
  lemma {:induction false} NothingUnasked(tr: seq<State>, steps: seq<Step>, j: nat, id: nat) returns (i: nat)
    requires Run(tr, steps) && j <= |steps| && id in tr[j].inflight
    ensures i < j && AdmitsAt(steps, i, id) && OnItsWay(tr[j], id, steps[i].p.cmd)
    ensures forall x: nat :: i <= x < j ==> !Acts(steps, x, id)
    decreases j
  {
    assert j > 0;
    if id in tr[j - 1].inflight {
      i := NothingUnasked(tr, steps, j - 1, id);
      WaitingStep(tr, steps, j - 1, id, steps[i].p.cmd);
    } else {
      i := j - 1;
      AbsentStep(tr, steps, i, id);
    }
  }

  // ---------------------------------------------------------------- nothing gets stuck

  lemma TagIsClosed(m: Keyspace, h: Key)
    ensures TagClosed(m, TagKeys(m, h))
  {
  }

  lemma Extend(tr: seq<State>, steps: seq<Step>, a: Step) returns (tr': seq<State>, steps': seq<Step>)
    requires Run(tr, steps) && Enabled(tr[|steps|], a)
    ensures Run(tr', steps') && tr' == tr + [After(tr[|steps|], a)] && steps' == steps + [a]
  {
    tr', steps' := tr + [After(tr[|steps|], a)], steps + [a];
  }

  /** Whatever has happened, a request that is on its way can be executed within two more steps. */
  lemma CanBeExecuted(tr: seq<State>, steps: seq<Step>, id: nat) returns (tr': seq<State>, steps': seq<Step>)
    requires Run(tr, steps) && id in tr[|steps|].inflight
    ensures Run(tr', steps') && tr <= tr' && steps < steps' && |steps'| <= |steps| + 2
    ensures ExecutesFor(tr'[|steps'| - 1], steps'[|steps'| - 1], id, tr[|steps|].inflight[id].cmd)
  {
    tr', steps' := tr, steps;
    var s := tr[|steps|];
    if s.inflight[id].stage == AtProxy {
      var keys := TagKeys(s.src, s.inflight[id].cmd.hkey);
      TagIsClosed(s.src, s.inflight[id].cmd.hkey);
      tr', steps' := Extend(tr, steps, MigrateTag(id, keys));
      ForwardedStays(s, MigrateTag(id, keys));
    }
    tr', steps' := Extend(tr', steps', Execute(id));
  }

  /** With an empty source the walk comes to its end. */
  lemma WalkOut(tr: seq<State>, steps: seq<Step>) returns (tr': seq<State>, steps': seq<Step>)
    requires Run(tr, steps) && tr[|steps|].moved && tr[|steps|].src == map[] && tr[|steps|].walk == Emptying(0)
    ensures Run(tr', steps') && tr <= tr' && steps < steps' && |steps'| <= |steps| + 3
    ensures tr'[|steps'|].finished && tr'[|steps'|].src == map[]
  {
    tr', steps' := Extend(tr, steps, Count);
    tr', steps' := Extend(tr', steps', List({}, -1));
    tr', steps' := Extend(tr', steps', Complete);
  }

  /** Once the authority has moved, the migration can be finished within five more steps. */
  lemma CanBeFinished(tr: seq<State>, steps: seq<Step>) returns (tr': seq<State>, steps': seq<Step>)
    requires Run(tr, steps) && tr[|steps|].moved && !tr[|steps|].finished
    ensures Run(tr', steps') && tr <= tr' && steps < steps' && |steps'| <= |steps| + 5
    ensures tr'[|steps'|].finished && tr'[|steps'|].src == map[]
  {
    tr', steps' := Extend(tr, steps, MoveKeys(tr[|steps|].src.Keys));
    tr', steps' := Extend(tr', steps', Restart);
    tr', steps' := WalkOut(tr', steps');
  }
}
