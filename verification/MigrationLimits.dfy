/**
 Exactly which commands are safe during a migration, with runs that go wrong for all the others.
 */
module MigrationLimits {
  import opened Models
  import opened Migration
  import opened MigrationSafety
  import opened MigrationTags

  // ---------------------------------------------------------------- one execution

  /** The command does on one server what it would do on both together. */
  ghost predicate RightHere(here: Keyspace, there: Keyspace, c: Command) {
    && ReplyOf(here, c) == ReplyOf(here + there, c)
    && RunCommand(here, c) + there == RunCommand(here + there, c)
  }

  /** A command that tells whether a key is there. */
  function Probe(x: Key): Keyspace -> (Keyspace, Reply) {
    (m: Keyspace) => (m, if x in m then Reply("1") else Reply("0"))
  }

  lemma ProbeMisses(here: Keyspace, there: Keyspace, h: Key, touches: set<Key>, x: Key)
    requires x in touches && x in there && x !in here
    ensures !RightHere(here, there, Command(h, touches, Probe(x)))
  {
    var c := Command(h, touches, Probe(x));
    assert x !in Only(here, touches) && x in Only(here + there, touches);
    assert ReplyOf(here, c) == Reply("0") && ReplyOf(here + there, c) == Reply("1");
  }

  /** Executing on one server is right for every command on the given keys exactly when none of the
      keys is on the other server. */
  lemma ExecutionExact(here: Keyspace, there: Keyspace, h: Key, touches: set<Key>)
    requires here.Keys !! there.Keys
    ensures (forall c: Command :: c.hkey == h && c.touches == touches ==> RightHere(here, there, c))
            <==> touches !! there.Keys
  {
    if touches !! there.Keys {
      forall c: Command | c.hkey == h && c.touches == touches
        ensures RightHere(here, there, c)
      {
        RunsOnUnion(here, there, c);
      }
    } else {
      var x :| x in touches && x in there;
      ProbeMisses(here, there, h, touches, x);
    }
  }

  /** Where the exec-wrapper sends a command: the source if the hash key is there. */
  function Chosen(s: State, h: Key): Keyspace {
    if h in s.src then s.src else s.dst
  }

  function Other(s: State, h: Key): Keyspace {
    if h in s.src then s.dst else s.src
  }

  /** The exec-wrapper's choice is right for every command within the tag exactly when no key of the tag
      is on the other server. */
  lemma WrapperExact(s: State, h: Key)
    requires Apart(s)
    ensures (forall c: Command :: c.hkey == h && WellTagged(c) ==> RightHere(Chosen(s, h), Other(s, h), c))
            <==> TagKeys(Other(s, h), h) == {}
  {
    var here, there := Chosen(s, h), Other(s, h);
    if TagKeys(there, h) == {} {
      forall c: Command | c.hkey == h && WellTagged(c)
        ensures RightHere(here, there, c)
      {
        assert forall x :: x in c.touches && x in there ==> x in TagKeys(there, h);
        RunsOnUnion(here, there, c);
      }
    } else {
      var x :| x in TagKeys(there, h);
      ProbeMisses(here, there, h, {x}, x);
      assert WellTagged(Command(h, {x}, Probe(x)));
    }
  }

  /** In every run that has kept tags whole, that is: the hash key is on the source, or no key of its tag
      is. */
  lemma WrapperExactInRuns(tr: seq<State>, steps: seq<Step>, h: Key)
    requires TagWiseRun(tr, steps)
    ensures var s := tr[|steps|];
            (forall c: Command :: c.hkey == h && WellTagged(c) ==> RightHere(Chosen(s, h), Other(s, h), c))
            <==> h in s.src || TagKeys(s.src, h) == {}
  {
    var s := tr[|steps|];
    TagWiseRunsRefine(tr, steps);
    WholeIsApart(s);
    WrapperExact(s, h);
    if h in s.src {
      assert forall k :: k in TagKeys(s.dst, h) ==> SameTag(h, k);
      assert TagKeys(s.dst, h) == {};
    }
  }

  // ---------------------------------------------------------------- runs that go wrong

  const P := "p"

  /** One proxy, and the keys of the slot on the source. */
  function Before(src: Keyspace): State {
    State(src, map[], true, false, false, Emptying(0), map[P := Blocked], map[])
  }

  function Started(src: Keyspace): State {
    Before(src).(moved := true, modes := map[P := MigrateFirst])
  }

  /** A clean run goes on by one clean step. */
  lemma GoOn(tr: seq<State>, steps: seq<Step>, a: Step) returns (tr': seq<State>, steps': seq<Step>)
    requires CleanRun(tr, steps) && Enabled(tr[|steps|], a) && Clean(tr[|steps|], a)
    ensures CleanRun(tr', steps') && steps' == steps + [a] && tr'[|steps'|] == After(tr[|steps|], a) && tr'[0] == tr[0]
  {
    tr', steps' := tr + [After(tr[|steps|], a)], steps + [a];
  }

  /** A clean run goes wrong with an execution that misses something. */
  lemma GoWrong(tr: seq<State>, steps: seq<Step>, a: Step) returns (tr': seq<State>, steps': seq<Step>)
    requires CleanRun(tr, steps) && Enabled(tr[|steps|], a) && Executes(a)
    requires var s := tr[|steps|];
        ReplyOf(Here(s, a), s.inflight[a.id].cmd) != ReplyOf(Together(s), s.inflight[a.id].cmd)
    ensures Run(tr', steps') && steps' == steps + [a] && tr'[|steps|] == tr[|steps|] && tr'[0] == tr[0]
    ensures !RepliesRight(Together(tr'[0]), Effects(tr', steps'))
  {
    RunRefinesOneMap(tr, steps);
    tr', steps' := tr + [After(tr[|steps|], a)], steps + [a];
    var es := Effects(tr', steps');
    assert es[..|steps|] == Effects(tr, steps) && es[|steps|] == EffectOf(tr[|steps|], a);
  }

  lemma StartRun(src: Keyspace) returns (tr: seq<State>, steps: seq<Step>)
    ensures CleanRun(tr, steps) && tr[0] == Before(src) && tr[|steps|] == Started(src)
    ensures steps == [Switch, Refill(P, MigrateFirst)]
  {
    tr, steps := GoOn([Before(src)], [], Switch);
    tr, steps := GoOn(tr, steps, Refill(P, MigrateFirst));
  }

  /** The proxy has let one command in. */
  lemma CallRun(src: Keyspace, c: Command, stage: Stage) returns (tr: seq<State>, steps: seq<Step>)
    requires WellTagged(c) && stage == StageFor(MigrateFirst, c)
    ensures CleanRun(tr, steps) && tr[0] == Before(src)
    ensures tr[|steps|] == Started(src).(inflight := map[0 := Call(P, c, stage)])
    ensures steps == [Switch, Refill(P, MigrateFirst), Admit(0, Call(P, c, stage))]
  {
    tr, steps := StartRun(src);
    tr, steps := GoOn(tr, steps, Admit(0, Call(P, c, stage)));
  }

  /** ... and the exec-wrapper did not find its hash key. */
  lemma AbsentRun(src: Keyspace, c: Command) returns (tr: seq<State>, steps: seq<Step>)
    requires WellTagged(c) && c.hkey.name != "" && c.hkey !in src
    ensures CleanRun(tr, steps) && tr[0] == Before(src)
    ensures tr[|steps|] == Started(src).(inflight := map[0 := Call(P, c, AtTarget)])
    ensures steps == [Switch, Refill(P, MigrateFirst), Admit(0, Call(P, c, AtProxy)), WrapperAbsent(0)]
  {
    tr, steps := CallRun(src, c, AtProxy);
    tr, steps := GoOn(tr, steps, WrapperAbsent(0));
  }

  /** A probe is about to be executed on one server while its key is on the other. */
  ghost predicate Misses(s: State, a: Step, x: Key) {
    && Enabled(s, a) && Executes(a)
    && s.inflight[a.id].cmd.act == Probe(x) && x in s.inflight[a.id].cmd.touches
    && x !in Here(s, a) && x in Together(s)
  }

  lemma ProbeGoesWrong(tr: seq<State>, steps: seq<Step>, a: Step, x: Key) returns (tr': seq<State>, steps': seq<Step>)
    requires CleanRun(tr, steps) && Misses(tr[|steps|], a, x)
    ensures Run(tr', steps') && steps' == steps + [a] && tr'[|steps|] == tr[|steps|] && tr'[0] == tr[0]
    ensures !RepliesRight(Together(tr'[0]), Effects(tr', steps'))
  {
    var s := tr[|steps|];
    assert x in Only(Together(s), s.inflight[a.id].cmd.touches) && x !in Only(Here(s, a), s.inflight[a.id].cmd.touches);
    tr', steps' := GoWrong(tr, steps, a);
  }

  /** A probe on its way to the target, its key on the source. */
  lemma ForwardedMisses(c: Command, x: Key)
    requires c.act == Probe(x) && x in c.touches
    ensures Misses(Started(map[x := "v"]).(inflight := map[0 := Call(P, c, AtTarget)]), Execute(0), x)
  {
  }

  /** All requests of the run have this hash key and name these keys. */
  ghost predicate OnlyShape(steps: seq<Step>, h: Key, touches: set<Key>) {
    forall i :: 0 <= i < |steps| && steps[i].Admit? ==> steps[i].p.cmd.hkey == h && steps[i].p.cmd.touches == touches
  }

  /** Behind the exec-wrapper, a command that names another key of its tag can miss it: the hash key is
      absent, the other key is on the source. */
  lemma WrapperMisses(h: Key, touches: set<Key>, x: Key) returns (tr: seq<State>, steps: seq<Step>)
    requires h.name != "" && x in touches && x != h && (forall y :: y in touches ==> SameTag(y, h))
    ensures Run(tr, steps) && OnlyShape(steps, h, touches)
    ensures !RepliesRight(Together(tr[0]), Effects(tr, steps))
  {
    tr, steps := AbsentRun(map[x := "v"], Command(h, touches, Probe(x)));
    ForwardedMisses(Command(h, touches, Probe(x)), x);
    tr, steps := ProbeGoesWrong(tr, steps, Execute(0), x);
  }

  /** SUNIONSTORE of one set into another: the answer is the number of members. */
  function UnionStore(dst: Key, a: Key): Command {
    Command(dst, {dst, a}, (m: Keyspace) => if a in m then (m[dst := m[a]], Reply("1")) else (m - {dst}, Reply("0")))
  }

  lemma OneTag(db: nat)
    ensures SameTag(Key(db, "{t}a"), Key(db, "{t}dst"))
  {
    assert IndexOf("{t}a", '{') == 0 && IndexOf("{t}dst", '{') == 0;
    assert "{t}a"[1..] == "t}a" && "{t}dst"[1..] == "t}dst";
    assert "t}a"[1..] == "}a" && "t}dst"[1..] == "}dst";
    assert IndexOf("t}a", '}') == 1 && IndexOf("t}dst", '}') == 1;
    assert "{t}a"[1..2] == "t" && "{t}dst"[1..2] == "t";
  }

  lemma UnionStoreAnswers(dst: Key, a: Key)
    ensures ReplyOf(map[], UnionStore(dst, a)) == Reply("0")
    ensures ReplyOf(map[a := "x"], UnionStore(dst, a)) == Reply("1")
  {
    assert a in Only(map[a := "x"], {dst, a});
  }

  lemma UnionStoreRun(dst: Key, a: Key) returns (tr: seq<State>, steps: seq<Step>)
    requires dst != a && SameTag(a, dst) && dst.name != ""
    ensures Run(tr, steps) && tr[0].src == map[a := "x"]
    ensures |steps| > 2 && steps[2] == Admit(0, Call(P, UnionStore(dst, a), AtProxy))
    ensures !RepliesRight(Together(tr[0]), Effects(tr, steps))
  {
    var c := UnionStore(dst, a);
    tr, steps := AbsentRun(map[a := "x"], c);
    UnionStoreAnswers(dst, a);
    assert Together(tr[|steps|]) == map[a := "x"];
    tr, steps := GoWrong(tr, steps, Execute(0));
  }

  /** SUNIONSTORE {t}dst {t}a with {t}a on the source and no {t}dst: the answer is 0 instead of 1. */
  lemma UnionStoreMisses(db: nat) returns (tr: seq<State>, steps: seq<Step>)
    ensures Run(tr, steps) && tr[0].src == map[Key(db, "{t}a") := "x"]
    ensures |steps| > 2 && steps[2] == Admit(0, Call(P, UnionStore(Key(db, "{t}dst"), Key(db, "{t}a")), AtProxy))
    ensures !RepliesRight(Together(tr[0]), Effects(tr, steps))
  {
    OneTag(db);
    tr, steps := UnionStoreRun(Key(db, "{t}dst"), Key(db, "{t}a"));
  }

  /** With the empty hash key migrate-first is skipped, and the key can be missed. */
  lemma EmptyKeyMisses(db: nat) returns (tr: seq<State>, steps: seq<Step>)
    ensures Run(tr, steps) && OnlyShape(steps, Key(db, ""), {Key(db, "")}) && NoWrapper(steps)
    ensures !RepliesRight(Together(tr[0]), Effects(tr, steps))
  {
    var h := Key(db, "");
    tr, steps := CallRun(map[h := "v"], Command(h, {h}, Probe(h)), AtTarget);
    ForwardedMisses(Command(h, {h}, Probe(h)), h);
    tr, steps := ProbeGoesWrong(tr, steps, Execute(0), h);
  }

  /** One key on the source, and another of its tag written to the target behind the exec-wrapper. */
  lemma SplitRun(h: Key, x: Key) returns (tr: seq<State>, steps: seq<Step>)
    requires h != x && x.name != ""
    ensures CleanRun(tr, steps) && tr[|steps|] == Started(map[h := "v"]).(dst := map[x := "w"])
  {
    var put := Command(x, {x}, (m: Keyspace) => (map[x := "w"], Reply("OK")));
    tr, steps := AbsentRun(map[h := "v"], put);
    assert RunCommand(map[], put) == map[x := "w"];
    tr, steps := GoOn(tr, steps, Execute(0));
  }

  /** The tag is split, and a command on both keys has been let in. */
  function SplitCall(h: Key, x: Key, c: Command): State {
    Started(map[h := "v"]).(dst := map[x := "w"], inflight := map[1 := Call(P, c, AtProxy)])
  }

  lemma SplitCallRun(h: Key, x: Key, c: Command) returns (tr: seq<State>, steps: seq<Step>)
    requires h != x && x.name != "" && c.hkey == h && h.name != "" && WellTagged(c)
    ensures CleanRun(tr, steps) && tr[|steps|] == SplitCall(h, x, c)
  {
    tr, steps := SplitRun(h, x);
    tr, steps := GoOn(tr, steps, Admit(1, Call(P, c, AtProxy)));
  }

  lemma SplitMisses(h: Key, x: Key, c: Command)
    requires h != x && c.hkey == h && c.act == Probe(x) && x in c.touches
    ensures Misses(SplitCall(h, x, c), WrapperExecuted(1), x)
  {
  }

  /** A hash key on the source is not enough: on a split tag the rest of the tag is missed. */
  lemma SplitTagMisses(h: Key, x: Key) returns (tr: seq<State>, steps: seq<Step>)
    requires h != x && SameTag(x, h) && h.name != "" && x.name != ""
    ensures Run(tr, steps) && |steps| > 0 && steps[|steps| - 1] == WrapperExecuted(1)
    ensures tr[|steps| - 1].src == map[h := "v"] && tr[|steps| - 1].dst == map[x := "w"]
    ensures !RepliesRight(Together(tr[0]), Effects(tr, steps))
  {
    var c := Command(h, {h, x}, Probe(x));
    tr, steps := SplitCallRun(h, x, c);
    SplitMisses(h, x, c);
    tr, steps := ProbeGoesWrong(tr, steps, WrapperExecuted(1), x);
  }

  // ---------------------------------------------------------------- the exact condition

  /** Commands with this hash key on these keys see one map in every run. */
  ghost predicate AlwaysRight(h: Key, touches: set<Key>) {
    forall tr, steps :: Run(tr, steps) && OnlyShape(steps, h, touches) ==>
        RepliesRight(Together(tr[0]), Effects(tr, steps))
  }

  /** The same for runs without the exec-wrapper. */
  ghost predicate RightByTagMoves(h: Key, touches: set<Key>) {
    forall tr, steps ::
      && Run(tr, steps) && OnlyShape(steps, h, touches)
      && NoWrapper(steps)
      ==> RepliesRight(Together(tr[0]), Effects(tr, steps))
  }

  lemma ShapeAdmitted(tr: seq<State>, steps: seq<Step>, h: Key, touches: set<Key>, i: nat)
    requires Run(tr, steps) && OnlyShape(steps, h, touches) && i < |tr|
    ensures forall id :: id in tr[i].inflight ==>
        tr[i].inflight[id].cmd.hkey == h && tr[i].inflight[id].cmd.touches == touches
  {
    if i > 0 {
      ShapeAdmitted(tr, steps, h, touches, i - 1);
      assert Enabled(tr[i - 1], steps[i - 1]) && tr[i - 1 + 1] == After(tr[i - 1], steps[i - 1]);
    }
  }

  /** Whatever the forwarding method, a command is safe during a migration exactly when it names at most
      its hash key, and with the empty hash key none. */
  lemma CommandsExact(h: Key, touches: set<Key>)
    requires forall x :: x in touches ==> SameTag(x, h)
    ensures AlwaysRight(h, touches) <==> if h.name == "" then touches == {} else touches <= {h}
  {
    if h.name == "" && touches != {} {
      var x :| x in touches;
      assert TagOf("").None?;
      assert touches == {h};
      var tr, steps := EmptyKeyMisses(h.db);
    } else if !(touches <= {h}) {
      var x :| x in touches && x != h;
      var tr, steps := WrapperMisses(h, touches, x);
    } else {
      forall tr, steps | Run(tr, steps) && OnlyShape(steps, h, touches)
        ensures RepliesRight(Together(tr[0]), Effects(tr, steps))
      {
        forall i | 0 <= i < |steps| ensures Careful(tr[i], steps[i]) { ShapeAdmitted(tr, steps, h, touches, i); }
        CarefulRunsRefine(tr, steps);
      }
    }
  }

  /** When tags are moved first, every command within one tag is safe, but for the empty hash key. */
  lemma TagMovesExact(h: Key, touches: set<Key>)
    requires forall x :: x in touches ==> SameTag(x, h)
    ensures RightByTagMoves(h, touches) <==> h.name != "" || touches == {}
  {
    if h.name == "" && touches != {} {
      var x :| x in touches;
      assert TagOf("").None?;
      assert touches == {h};
      var tr, steps := EmptyKeyMisses(h.db);
    } else {
      forall tr, steps |
        && Run(tr, steps) && OnlyShape(steps, h, touches)
        && NoWrapper(steps)
        ensures RepliesRight(Together(tr[0]), Effects(tr, steps))
      {
        CarefulRunsRefine(tr, steps);
      }
    }
  }
}
