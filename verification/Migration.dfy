/**
 Moving one slot while clients keep using it.  The source and target hold the slot's keys; each
 proxy serves the slot from the source, with migrate-first, from the target alone, or not at all.
 Client commands, tag moves, the worker's walk over the databases and refills interleave freely.
 */
module Migration {
  import opened Models

  datatype Key = Key(db: nat, name: string)
  type Val = string
  type Keyspace = map<Key, Val>

  datatype Reply = Reply(text: string)

  // ---------------------------------------------------------------- hash tags

  function IndexOf(s: string, c: char): (r: int)
    ensures -1 <= r < |s|
    ensures r >= 0 ==> s[r] == c
    ensures forall i :: 0 <= i < (if r >= 0 then r else |s|) ==> s[i] != c
  {
    if s == [] then -1
    else if s[0] == c then 0
    else
      var r := IndexOf(s[1..], c);
      if r < 0 then -1 else r + 1
  }

  /** What is between the first '{' and the next '}', if there is such a part. */
  function TagOf(name: string): Option<string> {
    var beg := IndexOf(name, '{');
    if beg < 0 then None
    else
      var end := IndexOf(name[beg + 1..], '}');
      if end < 0 then None else Some(name[beg + 1..beg + 1 + end])
  }

  lemma IndexIs(s: string, c: char, i: nat)
    requires i < |s| && s[i] == c && c !in s[..i]
    ensures IndexOf(s, c) == i
  {
    assert forall j :: 0 <= j < i ==> s[..i][j] == s[j];
  }

  /** The tag is what stands between the first opening brace and the next closing one. */
  lemma TagIsBetween(p: string, t: string, r: string)
    requires '{' !in p && '}' !in t
    ensures TagOf(p + "{" + t + "}" + r) == Some(t)
  {
    var name := p + "{" + t + "}" + r;
    assert name[|p|] == '{' && name[..|p|] == p;
    IndexIs(name, '{', |p|);
    var rest := name[|p| + 1..];
    assert rest == t + "}" + r && rest[|t|] == '}' && rest[..|t|] == t;
    IndexIs(rest, '}', |t|);
    assert name[|p| + 1..|p| + 1 + |t|] == t;
  }

  /** There is one exactly when some opening brace has a closing one after it. */
  lemma TagWhenBraced(name: string)
    ensures TagOf(name).Some? <==> exists i, j :: 0 <= i < j < |name| && name[i] == '{' && name[j] == '}'
  {
    var beg := IndexOf(name, '{');
    if beg >= 0 {
      var rest := name[beg + 1..];
      var end := IndexOf(rest, '}');
      if end >= 0 { assert name[beg + 1 + end] == '}'; }
      assert forall j :: beg < j < |name| ==> name[j] == rest[j - beg - 1];
    }
  }

  /** Keys that are always moved together: those with one tag, or a key without a tag on its own. */
  predicate SameTag(a: Key, b: Key) {
    a == b || (a.db == b.db && TagOf(a.name).Some? && TagOf(a.name) == TagOf(b.name))
  }

  function TagKeys(m: Keyspace, k: Key): set<Key> {
    set x | x in m && SameTag(x, k)
  }

  /** The keys are on this server, and none of them leaves a key of its tag behind. */
  predicate TagClosed(m: Keyspace, keys: set<Key>) {
    keys <= m.Keys && forall a, b :: a in keys && b in m && SameTag(a, b) ==> b in keys
  }

  // ---------------------------------------------------------------- commands

  /** Any command on any keys: the proxy routes it by one of them, the hash key.  It reads and writes
      the keys it names and no others. */
  datatype Command = Command(hkey: Key, touches: set<Key>, act: Keyspace -> (Keyspace, Reply))

  /** Clients name only keys of the hash key's tag. */
  predicate WellTagged(c: Command) {
    forall x :: x in c.touches ==> SameTag(x, c.hkey)
  }

  function Only(m: Keyspace, keys: set<Key>): Keyspace {
    map k | k in m && k in keys :: m[k]
  }

  /** Run a command on a map. */
  function RunCommand(m: Keyspace, c: Command): Keyspace {
    (m - c.touches) + Only(c.act(Only(m, c.touches)).0, c.touches)
  }

  function ReplyOf(m: Keyspace, c: Command): Reply {
    c.act(Only(m, c.touches)).1
  }

  // ---------------------------------------------------------------- states

  datatype Mode = Blocked | ToSource | MigrateFirst | ToTarget

  /** Where a request that a proxy has let in is waiting. */
  datatype Stage = AtProxy | AtSource | AtTarget

  datatype Call = Call(proxy: Token, cmd: Command, stage: Stage)

  /** The worker's walk: emptying a database, having counted no key in it, or past the last one. */
  datatype Walk = Emptying(db: nat) | Counted(db: nat) | Over

  datatype State = State(
    src: Keyspace, dst: Keyspace,
    source: bool,                 // the slot had a group before
    moved: bool,                  // the stored authority is the target
    finished: bool,               // the stored action is finished
    walk: Walk,
    modes: map<Token, Mode>,
    inflight: map<nat, Call>)

  /** What the control plane lets a proxy do with the slot. */
  predicate ModeAllowed(source: bool, moved: bool, finished: bool, mode: Mode) {
    match mode
    case Blocked => true
    case ToSource => source && !moved
    case MigrateFirst => source && moved
    case ToTarget => moved && (finished || !source)
  }

  // ---------------------------------------------------------------- steps

  datatype Step =
    | Admit(id: nat, p: Call)
    | MigrateTag(id: nat, keys: set<Key>)    // SLOTSMGRTTAGONE answered
    | MigrateFailed(id: nat, keys: set<Key>) // ... with an error, having moved something or not
    | WrapperAbsent(id: nat)                 // SLOTSMGRT-EXEC-WRAPPER: no such key here
    | WrapperBusy(id: nat)                   // ... the key is being moved, try again
    | WrapperExecuted(id: nat)               // ... executed on the source
    | Execute(id: nat)
    | Drop(id: nat)                          // connection reset before execution
    | MoveKeys(keys: set<Key>)               // the background migration
    | Count                                  // no key of the slot is left in the current database
    | List(dbs: set<nat>, next: int)         // the databases that have keys, of this slot or of others
    | Restart                                // the walk begins again
    | Complete                               // the finished state is stored
    | Switch                                 // the stored authority becomes the target
    | Refill(t: Token, mode: Mode)           // an acknowledged FillSlot, after the drain

  /** What a step did for a client. */
  datatype Effect = NoEffect | Effect(cmd: Command, reply: Reply)

  /** Migrate-first is skipped for the empty hash key. */
  function StageFor(mode: Mode, c: Command): Stage {
    match mode
    case ToSource => AtSource
    case MigrateFirst => if c.hkey.name == "" then AtTarget else AtProxy
    case _ => AtTarget
  }

  function MoveAll(s: State, keys: set<Key>): State {
    s.(src := s.src - keys, dst := s.dst + Only(s.src, keys))
  }

  function Done(s: State, id: nat): State {
    s.(inflight := s.inflight - {id})
  }

  function Forwarded(s: State, id: nat): State
    requires id in s.inflight
  {
    s.(inflight := s.inflight[id := s.inflight[id].(stage := AtTarget)])
  }

  predicate Waiting(s: State, id: nat, stage: Stage) {
    id in s.inflight && s.inflight[id].stage == stage
  }

  /** The smallest listed database above the current one, or -1. */
  predicate IsNext(dbs: set<nat>, db: nat, next: int) {
    if next == -1 then forall d :: d in dbs ==> d <= db
    else next in dbs && db < next && forall d :: d in dbs && db < d ==> next <= d
  }

  predicate Enabled(s: State, a: Step) {
    match a
    case Admit(id, p) =>
      && id !in s.inflight && WellTagged(p.cmd)
      && p.proxy in s.modes && !s.modes[p.proxy].Blocked? && p.stage == StageFor(s.modes[p.proxy], p.cmd)
    case MigrateTag(id, keys) =>
      && Waiting(s, id, AtProxy) && TagClosed(s.src, keys)
      && TagKeys(s.src, s.inflight[id].cmd.hkey) <= keys
    case MigrateFailed(id, keys) => Waiting(s, id, AtProxy) && TagClosed(s.src, keys)
    case WrapperAbsent(id) => Waiting(s, id, AtProxy) && s.inflight[id].cmd.hkey !in s.src
    case WrapperBusy(id) => Waiting(s, id, AtProxy)
    case WrapperExecuted(id) => Waiting(s, id, AtProxy) && s.inflight[id].cmd.hkey in s.src
    case Execute(id) => Waiting(s, id, AtSource) || Waiting(s, id, AtTarget)
    case Drop(id) => id in s.inflight
    case MoveKeys(keys) => s.moved && TagClosed(s.src, keys)
    case Count => s.moved && s.walk.Emptying? && forall k :: k in s.src ==> k.db != s.walk.db
    case List(dbs, next) =>
      s.walk.Counted? && (forall k :: k in s.src ==> k.db in dbs) && IsNext(dbs, s.walk.db, next)
    case Restart => s.moved && !s.finished
    case Complete => s.moved && (s.walk.Over? || !s.source)
    case Switch => !s.moved && forall t :: t in s.modes ==> s.modes[t].Blocked?
    case Refill(t, mode) =>
      && (forall id :: id in s.inflight ==> s.inflight[id].proxy != t)
      && ModeAllowed(s.source, s.moved, s.finished, mode)
  }

  /** The server a waiting request is executed on. */
  function Here(s: State, a: Step): Keyspace {
    match a
    case Execute(id) => if Waiting(s, id, AtTarget) then s.dst else s.src
    case _ => s.src
  }

  function After(s: State, a: Step): State
    requires Enabled(s, a)
  {
    match a
    case Admit(id, p) => s.(inflight := s.inflight[id := p])
    case MigrateTag(id, keys) => Forwarded(MoveAll(s, keys), id)
    case MigrateFailed(id, keys) => Done(MoveAll(s, keys), id)
    case WrapperAbsent(id) => Forwarded(s, id)
    case WrapperBusy(id) => Done(s, id)
    case WrapperExecuted(id) => Done(s.(src := RunCommand(s.src, s.inflight[id].cmd)), id)
    case Execute(id) =>
      if Waiting(s, id, AtTarget) then Done(s.(dst := RunCommand(s.dst, s.inflight[id].cmd)), id)
      else Done(s.(src := RunCommand(s.src, s.inflight[id].cmd)), id)
    case Drop(id) => Done(s, id)
    case MoveKeys(keys) => MoveAll(s, keys)
    case Count => s.(walk := Counted(s.walk.db))
    case List(_, next) => s.(walk := if next == -1 then Over else Emptying(next))
    case Restart => s.(walk := Emptying(0))
    case Complete => s.(finished := true)
    case Switch => s.(moved := true)
    case Refill(t, mode) => s.(modes := s.modes[t := mode])
  }

  function EffectOf(s: State, a: Step): Effect
    requires Enabled(s, a)
  {
    if a.WrapperExecuted? || a.Execute? then
      Effect(s.inflight[a.id].cmd, ReplyOf(Here(s, a), s.inflight[a.id].cmd))
    else NoEffect
  }

  // ---------------------------------------------------------------- runs

  /** Before the migration: the target has no keys of the slot, and no request is in flight. */
  ghost predicate Init(s: State) {
    && s.dst == map[] && !s.moved && !s.finished && s.walk == Emptying(0) && s.inflight == map[]
    && (!s.source ==> s.src == map[])
    && forall t :: t in s.modes ==> ModeAllowed(s.source, false, false, s.modes[t])
  }

  /** The states a sequence of steps goes through. */
  ghost predicate Run(tr: seq<State>, steps: seq<Step>) {
    && |tr| == |steps| + 1 && Init(tr[0])
    && forall i :: 0 <= i < |steps| ==> Enabled(tr[i], steps[i]) && tr[i + 1] == After(tr[i], steps[i])
  }
}
