/**
 The gate of one slot in a proxy: requests pass it under a read lock and are counted until they are
 answered; a fill closes it, waits until the count is zero, and only then changes the route.
 Requests, replies and fills interleave freely; fills of one proxy follow each other.
 */
module SlotGate {
  /** Where the one fill in progress stands: setting the lock, waiting for the count, or ready to
      change the route. */
  datatype Phase<R> =
    | NoFill
    | Locking(route: R, locked: bool)
    | Waiting(route: R, locked: bool)
    | Ready(route: R, locked: bool)

  datatype Gate<R> = Gate(
    hold: bool,              // lock.hold
    writer: bool,            // the lock is held exclusively
    readers: set<nat>,       // requests inside the read lock
    refs: int,               // the wait group's counter
    route: R,
    unanswered: map<nat, R>, // requests let through, with the route they were let through on
    phase: Phase<R>)

  datatype Step<R> =
    | BeginFill(route: R, locked: bool) // blockAndWait: mark the slot held, start to lock
    | GetLock                           // no reader is left, the exclusive lock is granted
    | Counted                           // the wait group has reached zero
    | Install                           // fillSlot changes the route and, unless told not to, unblocks
    | Enter(id: nat)                    // Forward: RLock
    | LetThrough(id: nat)               // process: refs.Add(1)
    | Leave(id: nat)                    // RUnlock, with or without having been let through
    | Answer(id: nat)                   // setResponse: Group.Done()

  ghost predicate StepBy<R(!new)>(g: Gate<R>, a: Step<R>, g': Gate<R>) {
    match a
    case BeginFill(r, locked) =>
      && g.phase.NoFill?
      && g' == if g.hold then g.(phase := Waiting(r, locked)) else g.(hold := true, phase := Locking(r, locked))
    case GetLock =>
      && g.phase.Locking? && g.readers == {}
      && g' == g.(writer := true, phase := Waiting(g.phase.route, g.phase.locked))
    case Counted =>
      && g.phase.Waiting? && g.refs == 0
      && g' == g.(phase := Ready(g.phase.route, g.phase.locked))
    case Install =>
      && g.phase.Ready?
      && g' == g.(route := g.phase.route, hold := g.hold && g.phase.locked,
               writer := g.writer && g.phase.locked, phase := NoFill)
    case Enter(id) =>
      && !g.writer && id !in g.readers && id !in g.unanswered
      && g' == g.(readers := g.readers + {id})
    case LetThrough(id) =>
      && id in g.readers && id !in g.unanswered
      && g' == g.(refs := g.refs + 1, unanswered := g.unanswered[id := g.route])
    case Leave(id) =>
      && id in g.readers
      && g' == g.(readers := g.readers - {id})
    case Answer(id) =>
      && id in g.unanswered && id !in g.readers
      && g' == g.(refs := g.refs - 1, unanswered := g.unanswered - {id})
  }

  ghost predicate Inv<R(!new)>(g: Gate<R>) {
    && g.refs == |g.unanswered|
    && (g.writer ==> g.readers == {})
    && (forall id :: id in g.unanswered ==> g.unanswered[id] == g.route)
    && (match g.phase
        case NoFill => g.hold == g.writer && (g.hold ==> g.unanswered == map[])
        case Locking(_, _) => g.hold && !g.writer
        case Waiting(_, _) => g.hold && g.writer
        case Ready(_, _) => g.hold && g.writer && g.unanswered == map[])
  }

  lemma StepKeeps<R(!new)>(g: Gate<R>, a: Step<R>, g': Gate<R>)
    requires Inv(g) && StepBy(g, a, g')
    ensures Inv(g')
  {
  }

  ghost predicate Next<R(!new)>(g: Gate<R>, g': Gate<R>) {
    exists a: Step<R> :: StepBy(g, a, g')
  }

  /** A slot as the router creates it, with any route, before any request or fill. */
  ghost predicate Init<R(!new)>(g: Gate<R>) {
    g == Gate(false, false, {}, 0, g.route, map[], NoFill)
  }

  ghost predicate Run<R(!new)>(tr: seq<Gate<R>>) {
    |tr| > 0 && Init(tr[0]) && forall i :: 0 < i < |tr| ==> Next(tr[i - 1], tr[i])
  }

  lemma {:induction false} RunsKeepInv<R(!new)>(tr: seq<Gate<R>>, i: nat)
    requires Run(tr) && i < |tr|
    ensures Inv(tr[i])
  {
    if i > 0 {
      RunsKeepInv(tr, i - 1);
      assert Next(tr[i - 1], tr[i]);
      var a: Step<R> :| StepBy(tr[i - 1], a, tr[i]);
      StepKeeps(tr[i - 1], a, tr[i]);
    }
  }

  /** The route changes only while no request is inside the gate and none is unanswered. */
  lemma DrainBeforeReroute<R(!new)>(tr: seq<Gate<R>>, i: nat)
    requires Run(tr) && i + 1 < |tr| && tr[i].route != tr[i + 1].route
    ensures tr[i].unanswered == map[] && tr[i].readers == {}
    ensures tr[i + 1].unanswered == map[] && tr[i + 1].readers == {}
  {
    RunsKeepInv(tr, i);
    assert Next(tr[i + 1 - 1], tr[i + 1]);
    var a: Step<R> :| StepBy(tr[i], a, tr[i + 1]);
    assert a.Install?;
  }

  /** The requests inside the gate or not yet answered. */
  function InFlight<R>(g: Gate<R>): set<nat> {
    g.readers + g.unanswered.Keys
  }

  /** A fill is about to be installed, and then acknowledged, only when there are none. */
  lemma ReadyIsDrained<R(!new)>(g: Gate<R>)
    requires Inv(g) && g.phase.Ready?
    ensures InFlight(g) == {}
  {
  }

  /** After a fill is installed a new request gets in, unless the fill is to keep the slot locked. */
  lemma OpensUnlessLocked<R(!new)>(g: Gate<R>, g': Gate<R>, id: nat)
    requires Inv(g) && StepBy(g, Install, g')
    ensures (exists g'': Gate<R> :: StepBy(g', Enter(id), g'')) <==> !g.phase.locked
    ensures g'.route == g.phase.route
  {
    ReadyIsDrained(g);
    if !g.phase.locked {
      assert StepBy(g', Enter(id), g'.(readers := g'.readers + {id}));
    }
  }

  /** Every unanswered request was let through on the route the slot still has, so the connections
      it uses are still retained. */
  lemma UnansweredUseCurrentRoute<R(!new)>(tr: seq<Gate<R>>, i: nat, id: nat)
    requires Run(tr) && i < |tr| && id in tr[i].unanswered
    ensures tr[i].unanswered[id] == tr[i].route
  {
    RunsKeepInv(tr, i);
  }

  /** Once a locked fill has been acknowledged, nothing is in flight and nothing gets in, until the
      next fill is installed. */
  lemma {:induction false} LockedFillIsQuiet<R(!new)>(tr: seq<Gate<R>>, i: nat, j: nat)
    requires Run(tr) && i <= j < |tr|
    requires tr[i].phase.NoFill? && tr[i].hold
    requires forall k :: i < k <= j && tr[k].phase.NoFill? ==> tr[k].hold
    ensures tr[j].unanswered == map[] && tr[j].readers == {} && tr[j].hold && tr[j].writer
    decreases j
  {
    RunsKeepInv(tr, j);
    if i < j {
      LockedFillIsQuiet(tr, i, j - 1);
      assert Next(tr[j - 1], tr[j]);
      var a: Step<R> :| StepBy(tr[j - 1], a, tr[j]);
    }
  }

  // Nothing gets stuck

  lemma Extend<R(!new)>(tr: seq<Gate<R>>, a: Step<R>, g: Gate<R>) returns (tr': seq<Gate<R>>)
    requires Run(tr) && StepBy(tr[|tr| - 1], a, g)
    ensures Run(tr') && tr' == tr + [g]
  {
    tr' := tr + [g];
    assert Next(tr[|tr| - 1], g);
  }

  /** How far a fill is from being installed. */
  function Left<R>(g: Gate<R>): nat {
    |g.readers| + |g.unanswered| +
    match g.phase
    case NoFill => 0
    case Locking(_, _) => 3
    case Waiting(_, _) => 2
    case Ready(_, _) => 1
  }

  /** Some step brings the fill closer. */
  lemma Closer<R(!new)>(g: Gate<R>) returns (a: Step<R>, g': Gate<R>)
    requires Inv(g) && !g.phase.NoFill?
    ensures StepBy(g, a, g') && Left(g') < Left(g)
    ensures if g'.phase.NoFill? then g'.route == g.phase.route else g'.phase.route == g.phase.route
  {
    if g.readers != {} {
      var id :| id in g.readers;
      a, g' := Leave(id), g.(readers := g.readers - {id});
    } else if g.unanswered != map[] {
      var id :| id in g.unanswered;
      a, g' := Answer(id), g.(refs := g.refs - 1, unanswered := g.unanswered - {id});
      assert g'.unanswered.Keys == g.unanswered.Keys - {id};
    } else if g.phase.Locking? {
      a, g' := GetLock, g.(writer := true, phase := Waiting(g.phase.route, g.phase.locked));
    } else if g.phase.Waiting? {
      a, g' := Counted, g.(phase := Ready(g.phase.route, g.phase.locked));
    } else {
      a := Install;
      g' := g.(route := g.phase.route, hold := g.hold && g.phase.locked, writer := g.writer && g.phase.locked,
               phase := NoFill);
    }
  }

  /** Whatever has happened, when requests leave and are answered a fill in progress can be installed. */
  lemma {:induction false} CanBeInstalled<R(!new)>(tr: seq<Gate<R>>) returns (tr': seq<Gate<R>>)
    requires Run(tr) && !tr[|tr| - 1].phase.NoFill?
    ensures Run(tr') && tr < tr'
    ensures tr'[|tr'| - 1].phase.NoFill? && tr'[|tr'| - 1].route == tr[|tr| - 1].phase.route
    decreases Left(tr[|tr| - 1])
  {
    RunsKeepInv(tr, |tr| - 1);
    var a, g := Closer(tr[|tr| - 1]);
    tr' := Extend(tr, a, g);
    if !g.phase.NoFill? { tr' := CanBeInstalled(tr'); }
  }
}
