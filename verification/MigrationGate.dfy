/**
 The gates of all proxies beside the migration: a proxy acts for a request only inside its gate or
 before the answer, and a fill is acknowledged when the gate has installed it.
 */
module MigrationGate {
  import opened Models
  import M = Migration
  import SlotGate

  datatype Joint<R> = Joint(gates: map<Token, SlotGate.Gate<R>>, data: M.State)

  /** A step of clients, servers, the worker or the dashboard; requests are let in inside the gate. */
  ghost predicate DataStep<R(!new)>(j: Joint<R>, a: M.Step, j': Joint<R>) {
    && M.Enabled(j.data, a) && !a.Refill?
    && (a.Admit? ==> a.p.proxy in j.gates && a.id in j.gates[a.p.proxy].readers)
    && j' == j.(data := M.After(j.data, a))
  }

  /** After this step of the gate, the request is neither inside nor unanswered. */
  predicate Leaves<R>(g: SlotGate.Gate<R>, a: SlotGate.Step<R>) {
    a.Answer? || (a.Leave? && a.id !in g.unanswered)
  }

  /** A step of one gate; a request leaves it for good only when the proxy is done with it. */
  ghost predicate GateStep<R(!new)>(j: Joint<R>, t: Token, a: SlotGate.Step<R>, j': Joint<R>) {
    && t in j.gates && t in j'.gates && !a.Install?
    && SlotGate.StepBy(j.gates[t], a, j'.gates[t]) && j' == j.(gates := j.gates[t := j'.gates[t]])
    && (Leaves(j.gates[t], a) ==> a.id !in j.data.inflight || j.data.inflight[a.id].proxy != t)
  }

  /** A gate installs a route that the control plane allows.  Nothing is asked of the requests. */
  ghost predicate FillStep<R(!new)>(j: Joint<R>, t: Token, mode: M.Mode, j': Joint<R>) {
    && t in j.gates && t in j'.gates
    && SlotGate.StepBy(j.gates[t], SlotGate.Install, j'.gates[t])
    && M.ModeAllowed(j.data.source, j.data.moved, j.data.finished, mode)
    && j' == Joint(j.gates[t := j'.gates[t]], j.data.(modes := j.data.modes[t := mode]))
  }

  ghost predicate Next<R(!new)>(j: Joint<R>, j': Joint<R>) {
    || (exists a: M.Step :: DataStep(j, a, j'))
    || (exists t: Token, a: SlotGate.Step<R> :: GateStep(j, t, a, j'))
    || (exists t: Token, mode: M.Mode :: FillStep(j, t, mode, j'))
  }

  ghost predicate Run<R(!new)>(tr: seq<Joint<R>>) {
    && |tr| > 0 && M.Init(tr[0].data) && (forall t :: t in tr[0].gates ==> SlotGate.Init(tr[0].gates[t]))
    && forall i :: 0 < i < |tr| ==> Next(tr[i - 1], tr[i])
  }

  /** What a proxy is doing is inside its gate or not yet answered. */
  ghost predicate Covered<R(!new)>(j: Joint<R>) {
    forall id :: id in j.data.inflight ==>
      j.data.inflight[id].proxy in j.gates && id in SlotGate.InFlight(j.gates[j.data.inflight[id].proxy])
  }

  ghost predicate Inv<R(!new)>(j: Joint<R>) {
    (forall t :: t in j.gates ==> SlotGate.Inv(j.gates[t])) && Covered(j)
  }

  lemma DataStepKeeps<R(!new)>(j: Joint<R>, a: M.Step, j': Joint<R>)
    requires Inv(j) && DataStep(j, a, j')
    ensures Inv(j')
  {
  }

  lemma GateStepKeeps<R(!new)>(j: Joint<R>, t: Token, a: SlotGate.Step<R>, j': Joint<R>)
    requires Inv(j) && GateStep(j, t, a, j')
    ensures Inv(j')
  {
    SlotGate.StepKeeps(j.gates[t], a, j'.gates[t]);
  }

  /** When a gate installs a route, its proxy is doing nothing: the fill is a legal refill. */
  lemma FillIsRefill<R(!new)>(j: Joint<R>, t: Token, mode: M.Mode, j': Joint<R>)
    requires Inv(j) && FillStep(j, t, mode, j')
    ensures Inv(j') && M.Enabled(j.data, M.Refill(t, mode)) && j'.data == M.After(j.data, M.Refill(t, mode))
  {
    SlotGate.StepKeeps(j.gates[t], SlotGate.Install, j'.gates[t]);
    SlotGate.ReadyIsDrained(j.gates[t]);
  }

  ghost predicate Moves(s: M.State, s': M.State) {
    s' == s || exists a: M.Step :: M.Enabled(s, a) && s' == M.After(s, a)
  }

  lemma NextKeeps<R(!new)>(j: Joint<R>, j': Joint<R>)
    requires Inv(j) && Next(j, j')
    ensures Inv(j') && Moves(j.data, j'.data)
  {
    if a: M.Step :| DataStep(j, a, j') {
      DataStepKeeps(j, a, j');
    } else if t: Token, a: SlotGate.Step<R> :| GateStep(j, t, a, j') {
      GateStepKeeps(j, t, a, j');
    } else {
      var t: Token, mode: M.Mode :| FillStep(j, t, mode, j');
      FillIsRefill(j, t, mode, j');
    }
  }

  /** Whatever the gates of the proxies do, the servers go through a run of the migration: every fill
      that a proxy acknowledges finds none of its requests on the way. */
  lemma {:induction false} RunsAreMigrations<R(!new)>(tr: seq<Joint<R>>, i: nat)
    requires Run(tr) && i < |tr|
    ensures Inv(tr[i]) && (i > 0 ==> Moves(tr[i - 1].data, tr[i].data))
  {
    if i > 0 {
      RunsAreMigrations(tr, i - 1);
      NextKeeps(tr[i - 1], tr[i]);
    }
  }
}
