/**
 One connection of a proxy to a Redis server: a writer that takes requests from an input queue and
 writes them out, round by round, and for each round a reader that matches replies to the requests
 written. A round ends on an error; its reader may go on after the next round has begun.
 The connection is not closed in this model.
 */
module BackendConn {
  import opened Models

  type Id = nat

  /** What a request was answered with: the k-th reply of a round, or an error. */
  datatype Outcome = Reply(round: nat, k: nat) | Broken | ConnFailure | Reset

  datatype Answer = Answer(id: Id, outcome: Outcome)

  datatype Writer =
    | Dialing            // between rounds
    | Ready              // in the loop, waiting for a request
    | Holding(id: Id)    // has taken a request
    | Encoded(id: Id)    // has written the request, not yet passed it to the reader
    | Leaving            // an error ended the loop
    | Draining(n: nat)   // answering what was queued when the round ended
    | Waiting            // before the next attempt

  datatype Round = Round(
    written: seq<Id>,     // requests encoded, in order
    sent: nat,            // how many of them were passed to the reader
    tasks: seq<Id>,       // the queue to the reader
    taken: nat,           // how many the reader has received
    reading: Option<Id>,  // the one it is decoding a reply for
    decoded: nat,         // replies decoded
    alive: bool,          // the reader has met no error
    open: bool)           // the queue to the reader is open

  datatype State = State(
    pushed: set<Id>, input: seq<Id>, writer: Writer, fails: nat, rounds: seq<Round>,
    log: seq<Answer>)     // every answer given, in order

  datatype Step =
    | Push(id: Id)
    | DialFails | DialWorks
    | Receive | SkipBroken | EncodeFails | EncodeWorks | FlushFails | FlushWorks
    | EndRound | DrainOne | DrainDone | RetryDrain | RetryDone
    | Take(j: nat) | DecodeWorks(j: nat) | DecodeFails(j: nat) | ReaderDrain(j: nat)

  const MAX_QUIET_FAILS := 10

  ghost predicate StepBy(s: State, a: Step, s': State) {
    var cur := |s.rounds| - 1;
    match a
    case Push(id) =>
      id !in s.pushed && s' == s.(pushed := s.pushed + {id}, input := s.input + [id])
    case DialFails =>
      s.writer.Dialing? && s' == s.(writer := Draining(|s.input|))
    case DialWorks =>
      && s.writer.Dialing?
      && s' == s.(writer := Ready, fails := 0, rounds := s.rounds + [Round([], 0, [], 0, None, 0, true, true)])
    case Receive =>
      && s.writer.Ready? && s.input != []
      && s' == s.(writer := Holding(s.input[0]), input := s.input[1..])
    case SkipBroken =>
      s.writer.Holding? && s' == s.(writer := Ready, log := s.log + [Answer(s.writer.id, Broken)])
    case EncodeFails =>
      s.writer.Holding? && s' == s.(writer := Leaving, log := s.log + [Answer(s.writer.id, ConnFailure)])
    case EncodeWorks =>
      && s.writer.Holding? && cur >= 0
      && s' == s.(writer := Encoded(s.writer.id),
                  rounds := s.rounds[cur := s.rounds[cur].(written := s.rounds[cur].written + [s.writer.id])])
    case FlushFails =>
      s.writer.Encoded? && s' == s.(writer := Leaving, log := s.log + [Answer(s.writer.id, ConnFailure)])
    case FlushWorks =>
      && s.writer.Encoded? && cur >= 0
      && s' == s.(writer := Ready,
                  rounds := s.rounds[cur :=
                      s.rounds[cur].(sent := s.rounds[cur].sent + 1, tasks := s.rounds[cur].tasks + [s.writer.id])])
    case EndRound =>
      && s.writer.Leaving? && cur >= 0
      && s' == s.(writer := Draining(|s.input|), rounds := s.rounds[cur := s.rounds[cur].(open := false)])
    case DrainOne =>
      && s.writer.Draining? && s.writer.n > 0 && s.input != []
      && s' == s.(writer := Draining(s.writer.n - 1), input := s.input[1..], log := s.log + [Answer(s.input[0], Reset)])
    case DrainDone =>
      s.writer == Draining(0) && s' == s.(writer := Waiting, fails := s.fails + 1)
    case RetryDrain =>
      && s.writer.Waiting? && s.fails > MAX_QUIET_FAILS && s.input != []
      && s' == s.(input := s.input[1..], log := s.log + [Answer(s.input[0], Reset)])
    case RetryDone =>
      s.writer.Waiting? && s' == s.(writer := Dialing)
    case Take(j) =>
      && j < |s.rounds| && var r := s.rounds[j];
      && r.alive && r.reading.None? && r.tasks != []
      && s' == s.(rounds := s.rounds[j := r.(reading := Some(r.tasks[0]), tasks := r.tasks[1..], taken := r.taken + 1)])
    case DecodeWorks(j) =>
      && j < |s.rounds| && var r := s.rounds[j];
      && r.reading.Some?
      && s' == s.(rounds := s.rounds[j := r.(reading := None, decoded := r.decoded + 1)],
                  log := s.log + [Answer(r.reading.value, Reply(j, r.decoded))])
    case DecodeFails(j) =>
      && j < |s.rounds| && var r := s.rounds[j];
      && r.reading.Some?
      && s' == s.(rounds := s.rounds[j := r.(reading := None, alive := false)],
                  log := s.log + [Answer(r.reading.value, ConnFailure)])
    case ReaderDrain(j) =>
      && j < |s.rounds| && var r := s.rounds[j];
      && !r.alive && r.tasks != []
      && s' == s.(rounds := s.rounds[j := r.(tasks := r.tasks[1..], taken := r.taken + 1)],
                  log := s.log + [Answer(r.tasks[0], Reset)])
  }

  // Where a request is

  datatype Place = InInput | WithWriter | InTasks(j: nat) | WithReader(j: nat) | Answered(outcome: Outcome)

  ghost predicate NoRepeats(ids: seq<Id>) {
    forall i, k :: 0 <= i < k < |ids| ==> ids[i] != ids[k]
  }

  /** Where the i-th request written in round j is. */
  ghost predicate WrittenAt(j: nat, r: Round, i: nat, p: Place) {
    if i < r.decoded then p == Answered(Reply(j, i))
    else if i < r.taken then
      if r.reading.Some? then p == WithReader(j) else p.Answered? && !p.outcome.Reply?
    else if i < r.sent then p == InTasks(j)
    else p == WithWriter || (p.Answered? && !p.outcome.Reply?)
  }

  ghost predicate RoundOk(j: nat, r: Round, place: map<Id, Place>) {
    && r.decoded <= r.taken <= r.sent <= |r.written| <= r.sent + 1
    && NoRepeats(r.written)
    && (forall i :: 0 <= i < |r.written| ==> r.written[i] in place && WrittenAt(j, r, i, place[r.written[i]]))
    && r.tasks == r.written[r.taken..r.sent]
    && (r.reading.Some? ==> r.alive && r.taken == r.decoded + 1 && r.reading.value == r.written[r.decoded])
    && (r.alive && r.reading.None? ==> r.taken == r.decoded)
  }

  ghost predicate WriterOk(s: State, place: map<Id, Place>) {
    match s.writer
    case Ready => |s.rounds| > 0 && s.rounds[|s.rounds| - 1].sent == |s.rounds[|s.rounds| - 1].written|
    case Holding(id) =>
      && |s.rounds| > 0 && s.rounds[|s.rounds| - 1].sent == |s.rounds[|s.rounds| - 1].written|
      && id in place && place[id] == WithWriter
      && forall j :: 0 <= j < |s.rounds| ==> id !in s.rounds[j].written
    case Encoded(id) =>
      && |s.rounds| > 0 && |s.rounds[|s.rounds| - 1].written| == s.rounds[|s.rounds| - 1].sent + 1
      && s.rounds[|s.rounds| - 1].written[s.rounds[|s.rounds| - 1].sent] == id
      && id in place && place[id] == WithWriter
      && forall j :: 0 <= j < |s.rounds| - 1 ==> id !in s.rounds[j].written
    case Leaving => |s.rounds| > 0
    case Draining(n) => n <= |s.input|
    case _ => true
  }

  /** A request is where its place says. */
  ghost predicate IdOk(s: State, id: Id, p: Place) {
    match p
    case InInput => id in s.input && forall j :: 0 <= j < |s.rounds| ==> id !in s.rounds[j].written
    case WithWriter => s.writer == Holding(id) || s.writer == Encoded(id)
    case InTasks(j) => j < |s.rounds| && id in s.rounds[j].tasks
    case WithReader(j) => j < |s.rounds| && s.rounds[j].reading == Some(id)
    case Answered(o) => Answer(id, o) in s.log
  }

  ghost predicate LogOk(s: State, place: map<Id, Place>) {
    && (forall m :: 0 <= m < |s.log| ==> s.log[m].id in place && place[s.log[m].id] == Answered(s.log[m].outcome))
    && (forall m, n :: 0 <= m < n < |s.log| ==> s.log[m].id != s.log[n].id)
    && (forall m :: 0 <= m < |s.log| && s.log[m].outcome.Reply? ==> ReplyOk(s, s.log[m]))
    && (forall m, n :: 0 <= m < n < |s.log| ==> InOrder(s.log[m].outcome, s.log[n].outcome))
  }

  ghost predicate ReplyOk(s: State, a: Answer)
    requires a.outcome.Reply?
  {
    var j, k := a.outcome.round, a.outcome.k;
    j < |s.rounds| && k < s.rounds[j].decoded <= |s.rounds[j].written| && s.rounds[j].written[k] == a.id
  }

  ghost predicate InOrder(a: Outcome, b: Outcome) {
    a.Reply? && b.Reply? && a.round == b.round ==> a.k < b.k
  }

  ghost predicate Inv(s: State, place: map<Id, Place>) {
    && place.Keys == s.pushed
    && InputOk(s, place)
    && WriterOk(s, place)
    && RoundsOk(s, place)
    && IdsOk(s, place)
    && LogOk(s, place)
  }

  ghost predicate InputOk(s: State, place: map<Id, Place>) {
    NoRepeats(s.input) && forall i :: 0 <= i < |s.input| ==> s.input[i] in place && place[s.input[i]] == InInput
  }

  ghost predicate RoundsOk(s: State, place: map<Id, Place>) {
    forall j :: 0 <= j < |s.rounds| ==> RoundOk(j, s.rounds[j], place)
  }

  ghost predicate IdsOk(s: State, place: map<Id, Place>) {
    forall id :: id in place ==> IdOk(s, id, place[id])
  }

  ghost predicate Next(s: State, s': State) {
    exists a: Step :: StepBy(s, a, s')
  }

  ghost predicate Init(s: State) {
    s == State({}, [], Dialing, 0, [], [])
  }

  ghost predicate Run(tr: seq<State>) {
    |tr| > 0 && Init(tr[0]) && forall i :: 0 < i < |tr| ==> Next(tr[i - 1], tr[i])
  }

  // Every step keeps the invariant

  /** An answer is given to a request that had none. */
  lemma AnswerKeepsLog(s: State, place: map<Id, Place>, s': State, id: Id, o: Outcome)
    requires LogOk(s, place) && id in place && !place[id].Answered?
    requires s'.log == s.log + [Answer(id, o)]
    requires forall m :: 0 <= m < |s.log| && s.log[m].outcome.Reply? ==> ReplyOk(s', s.log[m])
    requires o.Reply? ==> ReplyOk(s', Answer(id, o))
    requires o.Reply? ==> o.round < |s.rounds| && s.rounds[o.round].decoded == o.k
    ensures LogOk(s', place[id := Answered(o)])
  {
    var place' := place[id := Answered(o)];
    forall m | 0 <= m < |s.log|
      ensures s.log[m].id != id && InOrder(s.log[m].outcome, o)
    {
    }
  }

  /** A round does not notice that a request it never wrote moves. */
  lemma OtherRound(j: nat, r: Round, place: map<Id, Place>, id: Id, p: Place)
    requires RoundOk(j, r, place) && id !in r.written
    ensures RoundOk(j, r, place[id := p])
  {
  }

  lemma PushKeeps(s: State, id: Id, place: map<Id, Place>)
    requires Inv(s, place) && id !in s.pushed
    ensures Inv(s.(pushed := s.pushed + {id}, input := s.input + [id]), place[id := InInput])
  {
    var s', place' := s.(pushed := s.pushed + {id}, input := s.input + [id]), place[id := InInput];
    forall j | 0 <= j < |s.rounds|
      ensures id !in s.rounds[j].written
    {
      assert RoundOk(j, s.rounds[j], place);
    }
    UnwrittenMoves(s, id, InInput, place);
    assert s'.input[|s.input|] == id;
    forall x | x in place'
      ensures IdOk(s', x, place'[x])
    {
      assert x != id ==> IdOk(s, x, place[x]);
    }
  }

  lemma UnwrittenMoves(s: State, id: Id, p: Place, place: map<Id, Place>)
    requires RoundsOk(s, place) && forall j :: 0 <= j < |s.rounds| ==> id !in s.rounds[j].written
    ensures RoundsOk(s, place[id := p])
  {
  }

  lemma PopKeepsIds(s: State, s': State, p: Place, place: map<Id, Place>)
    requires IdsOk(s, place) && s.input != [] && s.input[0] in place
    requires s' == s.(writer := s'.writer, input := s.input[1..], log := s'.log)
    requires !s.writer.Holding? && !s.writer.Encoded? && s.log <= s'.log && IdOk(s', s.input[0], p)
    ensures IdsOk(s', place[s.input[0] := p])
  {
  }

  lemma PopKeepsInput(s: State, s': State, p: Place, place: map<Id, Place>)
    requires InputOk(s, place) && s.input != [] && s'.input == s.input[1..]
    ensures InputOk(s', place[s.input[0] := p])
  {
  }

  lemma UnansweredMoves(s: State, s': State, id: Id, p: Place, place: map<Id, Place>)
    requires LogOk(s, place) && s'.log == s.log && s'.rounds == s.rounds && id in place && !place[id].Answered?
    ensures LogOk(s', place[id := p])
  {
  }

  lemma FirstIsUnwritten(s: State, place: map<Id, Place>)
    requires InputOk(s, place) && IdsOk(s, place) && s.input != []
    ensures s.input[0] in place && place[s.input[0]] == InInput
    ensures forall j :: 0 <= j < |s.rounds| ==> s.input[0] !in s.rounds[j].written
  {
  }

  /** The first request of the input queue goes to the writer. */
  lemma ReceiveKeeps(s: State, place: map<Id, Place>)
    requires Inv(s, place) && s.input != [] && s.writer.Ready?
    ensures Inv(s.(writer := Holding(s.input[0]), input := s.input[1..]), place[s.input[0] := WithWriter])
  {
    var id := s.input[0];
    var s' := s.(writer := Holding(id), input := s.input[1..]);
    FirstIsUnwritten(s, place);
    UnwrittenMoves(s, id, WithWriter, place);
    assert RoundsOk(s', place[id := WithWriter]);
    PopKeepsInput(s, s', WithWriter, place);
    UnansweredMoves(s, s', id, WithWriter, place);
    PopKeepsIds(s, s', WithWriter, place);
  }

  /** The first request of the input queue is answered with a reset. */
  lemma DropKeeps(s: State, w: Writer, place: map<Id, Place>)
    requires Inv(s, place) && s.input != []
    requires (s.writer.Draining? && s.writer.n > 0 && w == Draining(s.writer.n - 1))
        || (s.writer.Waiting? && w == Waiting)
    ensures Inv(s.(writer := w, input := s.input[1..], log := s.log + [Answer(s.input[0], Reset)]),
        place[s.input[0] := Answered(Reset)])
  {
    var id := s.input[0];
    var s' := s.(writer := w, input := s.input[1..], log := s.log + [Answer(id, Reset)]);
    FirstIsUnwritten(s, place);
    UnwrittenMoves(s, id, Answered(Reset), place);
    assert RoundsOk(s', place[id := Answered(Reset)]);
    PopKeepsInput(s, s', Answered(Reset), place);
    AnswerKeepsLog(s, place, s', id, Reset);
    assert s'.log[|s.log|] == Answer(id, Reset);
    PopKeepsIds(s, s', Answered(Reset), place);
  }

  lemma HeldIsAnswered(s: State, w: Writer, o: Outcome, place: map<Id, Place>)
    requires Inv(s, place) && (s.writer.Holding? || s.writer.Encoded?) && !o.Reply?
    requires w.Leaving? || (w.Ready? && s.writer.Holding?)
    ensures Inv(s.(writer := w, log := s.log + [Answer(s.writer.id, o)]), place[s.writer.id := Answered(o)])
  {
    var id := s.writer.id;
    var s', place' := s.(writer := w, log := s.log + [Answer(id, o)]), place[id := Answered(o)];
    forall j | 0 <= j < |s.rounds|
      ensures RoundOk(j, s.rounds[j], place')
    {
      if id !in s.rounds[j].written {
        OtherRound(j, s.rounds[j], place, id, Answered(o));
      }
    }
    forall x | x in place'
      ensures IdOk(s', x, place'[x])
    {
      assert IdOk(s, x, place[x]);
    }
    AnswerKeepsLog(s, place, s', id, o);
  }

  lemma EncodeRound(j: nat, r: Round, place: map<Id, Place>, id: Id)
    requires RoundOk(j, r, place) && r.sent == |r.written|
    requires id !in r.written && id in place && place[id] == WithWriter
    ensures RoundOk(j, r.(written := r.written + [id]), place)
  {
  }

  lemma FlushRound(j: nat, r: Round, place: map<Id, Place>, id: Id)
    requires RoundOk(j, r, place) && r.sent + 1 == |r.written| && r.written[r.sent] == id
    ensures RoundOk(j, r.(sent := r.sent + 1, tasks := r.tasks + [id]), place[id := InTasks(j)])
  {
  }

  /** The current round changes in what was written or passed to its reader. */
  ghost predicate WriterMoves(s: State, s': State, id: Id) {
    var cur := |s.rounds| - 1;
    && cur >= 0 && |s'.rounds| == |s.rounds|
    && s' == s.(writer := s'.writer, rounds := s.rounds[cur := s'.rounds[cur]])
    && (s.writer == Holding(id) || s.writer == Encoded(id))
    && var r, r' := s.rounds[cur], s'.rounds[cur];
    && (r'.written == r.written || r'.written == r.written + [id])
    && r'.reading == r.reading && r'.decoded == r.decoded
    && forall x :: x in r.tasks ==> x in r'.tasks
  }

  lemma WriterKeepsIds(s: State, s': State, id: Id, p: Place, place: map<Id, Place>)
    requires WriterMoves(s, s', id) && IdsOk(s, place) && id in place && place[id] == WithWriter && IdOk(s', id, p)
    ensures IdsOk(s', place[id := p])
  {
  }

  lemma WriterKeepsLog(s: State, s': State, id: Id, p: Place, place: map<Id, Place>)
    requires WriterMoves(s, s', id) && LogOk(s, place) && id in place && place[id] == WithWriter
    ensures LogOk(s', place[id := p])
  {
    forall m | 0 <= m < |s.log| && s.log[m].outcome.Reply?
      ensures ReplyOk(s', s.log[m])
    {
      assert ReplyOk(s, s.log[m]);
    }
  }

  lemma EncodeKeeps(s: State, place: map<Id, Place>)
    requires Inv(s, place) && s.writer.Holding?
    ensures var cur := |s.rounds| - 1;
            && cur >= 0
            && Inv(s.(writer := Encoded(s.writer.id),
                      rounds := s.rounds[cur := s.rounds[cur].(written := s.rounds[cur].written + [s.writer.id])]),
                   place)
  {
    var cur, id := |s.rounds| - 1, s.writer.id;
    var r := s.rounds[cur];
    var s' := s.(writer := Encoded(id), rounds := s.rounds[cur := r.(written := r.written + [id])]);
    EncodeRound(cur, r, place, id);
    WriterKeepsIds(s, s', id, WithWriter, place);
    WriterKeepsLog(s, s', id, WithWriter, place);
    assert place[id := WithWriter] == place;
  }

  lemma FlushKeepsRounds(s: State, s': State, place: map<Id, Place>)
    requires RoundsOk(s, place) && WriterOk(s, place) && s.writer.Encoded?
    requires var cur := |s.rounds| - 1;
             s' == s.(writer := Ready,
                      rounds := s.rounds[cur :=
                          s.rounds[cur].(sent := s.rounds[cur].sent + 1, tasks := s.rounds[cur].tasks + [s.writer.id])])
    ensures RoundsOk(s', place[s.writer.id := InTasks(|s.rounds| - 1)])
        && WriterOk(s', place[s.writer.id := InTasks(|s.rounds| - 1)])
  {
    var cur, id := |s.rounds| - 1, s.writer.id;
    FlushRound(cur, s.rounds[cur], place, id);
    forall j | 0 <= j < cur
      ensures RoundOk(j, s.rounds[j], place[id := InTasks(cur)])
    {
      OtherRound(j, s.rounds[j], place, id, InTasks(cur));
    }
  }

  lemma FlushKeeps(s: State, place: map<Id, Place>)
    requires Inv(s, place) && s.writer.Encoded?
    ensures var cur := |s.rounds| - 1;
            && cur >= 0
            && Inv(s.(writer := Ready,
                      rounds := s.rounds[cur :=
                          s.rounds[cur].(sent := s.rounds[cur].sent + 1,
                                         tasks := s.rounds[cur].tasks + [s.writer.id])]),
                   place[s.writer.id := InTasks(cur)])
  {
    var cur, id := |s.rounds| - 1, s.writer.id;
    var r := s.rounds[cur];
    var s' := s.(writer := Ready, rounds := s.rounds[cur := r.(sent := r.sent + 1, tasks := r.tasks + [id])]);
    FlushKeepsRounds(s, s', place);
    assert s'.rounds[cur].tasks[|r.tasks|] == id;
    WriterKeepsIds(s, s', id, InTasks(cur), place);
    WriterKeepsLog(s, s', id, InTasks(cur), place);
  }

  lemma DialWorksKeeps(s: State, place: map<Id, Place>)
    requires Inv(s, place) && s.writer.Dialing?
    ensures Inv(s.(writer := Ready, fails := 0, rounds := s.rounds + [Round([], 0, [], 0, None, 0, true, true)]), place)
  {
    var s' := s.(writer := Ready, fails := 0, rounds := s.rounds + [Round([], 0, [], 0, None, 0, true, true)]);
    forall x | x in place
      ensures IdOk(s', x, place[x])
    {
      assert IdOk(s, x, place[x]);
    }
    assert forall m :: 0 <= m < |s.log| && s.log[m].outcome.Reply? ==> ReplyOk(s, s.log[m]);
  }

  /** Closing the queue to a reader changes nothing that was written, queued or read. */
  ghost predicate ClosesQueue(s: State, s': State) {
    var cur := |s.rounds| - 1;
    && cur >= 0
    && s' == s.(writer := Draining(|s.input|), rounds := s.rounds[cur := s.rounds[cur].(open := false)])
  }

  lemma ClosingKeepsRounds(s: State, s': State, place: map<Id, Place>)
    requires ClosesQueue(s, s') && RoundsOk(s, place)
    ensures RoundsOk(s', place)
  {
  }

  lemma ClosingKeepsIds(s: State, s': State, place: map<Id, Place>)
    requires ClosesQueue(s, s') && IdsOk(s, place) && s.writer.Leaving?
    ensures IdsOk(s', place)
  {
  }

  lemma ClosingKeepsLog(s: State, s': State, place: map<Id, Place>)
    requires ClosesQueue(s, s') && LogOk(s, place)
    ensures LogOk(s', place)
  {
  }

  lemma EndRoundKeeps(s: State, s': State, place: map<Id, Place>)
    requires Inv(s, place) && s.writer.Leaving? && ClosesQueue(s, s')
    ensures Inv(s', place)
  {
    ClosingKeepsRounds(s, s', place);
    ClosingKeepsIds(s, s', place);
    ClosingKeepsLog(s, s', place);
  }

  lemma IdleKeeps(s: State, w: Writer, fails: nat, place: map<Id, Place>)
    requires Inv(s, place) && (s.writer.Dialing? || s.writer.Draining? || s.writer.Waiting?)
    requires w.Dialing? || w.Waiting? || w == Draining(|s.input|)
    ensures Inv(s.(writer := w, fails := fails), place)
  {
    var s' := s.(writer := w, fails := fails);
    forall x | x in place
      ensures IdOk(s', x, place[x])
    {
      assert IdOk(s, x, place[x]);
    }
  }

  ghost predicate ReaderMoves(s: State, s': State, j: nat, id: Id, p: Place, place: map<Id, Place>) {
    && j < |s.rounds| && |s'.rounds| == |s.rounds|
    && s' == s.(rounds := s.rounds[j := s'.rounds[j]], log := s'.log)
    && s'.rounds[j].written == s.rounds[j].written && s'.rounds[j].sent == s.rounds[j].sent
    && id in place && (place[id] == InTasks(j) || place[id] == WithReader(j)) && (p == WithReader(j) || p.Answered?)
    && IdOk(s', id, p)
    && (forall x :: x != id && x in s.rounds[j].tasks ==> x in s'.rounds[j].tasks)
    && (forall x :: x != id && s.rounds[j].reading == Some(x) ==> s'.rounds[j].reading == Some(x))
    && s.log <= s'.log
  }

  lemma ReaderKeepsRounds(s: State, s': State, j: nat, id: Id, p: Place, place: map<Id, Place>)
    requires ReaderMoves(s, s', j, id, p, place) && RoundsOk(s, place)
    requires RoundOk(j, s'.rounds[j], place[id := p])
    ensures RoundsOk(s', place[id := p])
  {
  }

  lemma ReaderKeepsIds(s: State, s': State, j: nat, id: Id, p: Place, place: map<Id, Place>)
    requires ReaderMoves(s, s', j, id, p, place) && IdsOk(s, place)
    ensures IdsOk(s', place[id := p])
  {
  }

  lemma ReaderKeepsWriter(s: State, s': State, j: nat, id: Id, p: Place, place: map<Id, Place>)
    requires ReaderMoves(s, s', j, id, p, place) && WriterOk(s, place) && InputOk(s, place)
    ensures WriterOk(s', place[id := p]) && InputOk(s', place[id := p])
  {
  }

  /** A reader moves or answers one request of its round. */
  lemma ReaderKeeps(s: State, s': State, j: nat, id: Id, p: Place, place: map<Id, Place>)
    requires Inv(s, place) && ReaderMoves(s, s', j, id, p, place)
    requires RoundOk(j, s'.rounds[j], place[id := p]) && LogOk(s', place[id := p])
    ensures Inv(s', place[id := p])
  {
    ReaderKeepsRounds(s, s', j, id, p, place);
    ReaderKeepsIds(s, s', j, id, p, place);
    ReaderKeepsWriter(s, s', j, id, p, place);
  }

  lemma TakeKeeps(s: State, j: nat, s': State, place: map<Id, Place>)
    requires Inv(s, place) && j < |s.rounds|
    requires s.rounds[j].alive && s.rounds[j].reading.None? && s.rounds[j].tasks != []
    requires var r := s.rounds[j];
             s' == s.(rounds :=
                 s.rounds[j := r.(reading := Some(r.tasks[0]), tasks := r.tasks[1..], taken := r.taken + 1)])
    ensures Inv(s', place[s.rounds[j].tasks[0] := WithReader(j)])
  {
    var r := s.rounds[j];
    var id := r.tasks[0];
    TakeRound(j, r, place);
    assert LogOk(s', place[id := WithReader(j)]) by {
      assert forall m :: 0 <= m < |s.log| && s.log[m].outcome.Reply? ==> ReplyOk(s, s.log[m]);
    }
    ReaderKeeps(s, s', j, id, WithReader(j), place);
  }

  lemma TakeRound(j: nat, r: Round, place: map<Id, Place>)
    requires RoundOk(j, r, place) && r.alive && r.reading.None? && r.tasks != []
    ensures r.tasks[0] in place && place[r.tasks[0]] == InTasks(j)
    ensures RoundOk(j, r.(reading := Some(r.tasks[0]), tasks := r.tasks[1..], taken := r.taken + 1),
        place[r.tasks[0] := WithReader(j)])
  {
  }

  lemma ReaderDrainRound(j: nat, r: Round, place: map<Id, Place>)
    requires RoundOk(j, r, place) && !r.alive && r.tasks != []
    ensures r.tasks[0] in place && place[r.tasks[0]] == InTasks(j)
    ensures RoundOk(j, r.(tasks := r.tasks[1..], taken := r.taken + 1), place[r.tasks[0] := Answered(Reset)])
  {
  }

  lemma ReaderDrainKeeps(s: State, j: nat, s': State, place: map<Id, Place>)
    requires Inv(s, place) && j < |s.rounds| && !s.rounds[j].alive && s.rounds[j].tasks != []
    requires var r := s.rounds[j];
             s' == s.(rounds := s.rounds[j := r.(tasks := r.tasks[1..], taken := r.taken + 1)],
                      log := s.log + [Answer(r.tasks[0], Reset)])
    ensures Inv(s', place[s.rounds[j].tasks[0] := Answered(Reset)])
  {
    var r := s.rounds[j];
    var id := r.tasks[0];
    ReaderDrainRound(j, r, place);
    RepliesStay(s, s', place);
    AnswerKeepsLog(s, place, s', id, Reset);
    assert s'.log[|s.log|] == Answer(id, Reset);
    ReaderKeeps(s, s', j, id, Answered(Reset), place);
  }

  /** Replies recorded so far stay right while rounds only grow. */
  lemma RepliesStay(s: State, s': State, place: map<Id, Place>)
    requires LogOk(s, place) && |s'.rounds| == |s.rounds|
    requires forall j :: 0 <= j < |s.rounds| ==>
                           s'.rounds[j].written == s.rounds[j].written
                               && s.rounds[j].decoded <= s'.rounds[j].decoded <= |s.rounds[j].written|
    ensures forall m :: 0 <= m < |s.log| && s.log[m].outcome.Reply? ==> ReplyOk(s', s.log[m])
  {
  }

  lemma DecodeRound(j: nat, r: Round, place: map<Id, Place>, works: bool)
    requires RoundOk(j, r, place) && r.reading.Some?
    ensures r.reading.value in place && place[r.reading.value] == WithReader(j)
    ensures works ==>
        RoundOk(j, r.(reading := None, decoded := r.decoded + 1),
            place[r.reading.value := Answered(Reply(j, r.decoded))])
    ensures !works ==> RoundOk(j, r.(reading := None, alive := false), place[r.reading.value := Answered(ConnFailure)])
  {
  }

  ghost function Decoded(j: nat, r: Round, works: bool): Outcome {
    if works then Reply(j, r.decoded) else ConnFailure
  }

  lemma DecodeKeeps(s: State, j: nat, works: bool, s': State, place: map<Id, Place>)
    requires Inv(s, place) && j < |s.rounds| && s.rounds[j].reading.Some?
    requires var r := s.rounds[j];
             var r' := if works then r.(reading := None, decoded := r.decoded + 1)
                 else r.(reading := None, alive := false);
             s' == s.(rounds := s.rounds[j := r'], log := s.log + [Answer(r.reading.value, Decoded(j, r, works))])
    ensures Inv(s', place[s.rounds[j].reading.value := Answered(Decoded(j, s.rounds[j], works))])
  {
    var r := s.rounds[j];
    var id, o := r.reading.value, Decoded(j, r, works);
    DecodeRound(j, r, place, works);
    RepliesStay(s, s', place);
    AnswerKeepsLog(s, place, s', id, o);
    assert s'.log[|s.log|] == Answer(id, o);
    ReaderKeeps(s, s', j, id, Answered(o), place);
  }

  lemma QueueStepKeeps(s: State, a: Step, s': State, place: map<Id, Place>) returns (place': map<Id, Place>)
    requires Inv(s, place) && StepBy(s, a, s')
    requires || a.Push? || a.DialFails? || a.DialWorks? || a.EndRound?
             || a.DrainOne? || a.DrainDone? || a.RetryDrain? || a.RetryDone?
    ensures Inv(s', place')
  {
    place' := place;
    match a
    case Push(id) => PushKeeps(s, id, place); place' := place[id := InInput];
    case DialFails => IdleKeeps(s, s'.writer, s.fails, place);
    case DialWorks => DialWorksKeeps(s, place);
    case EndRound => EndRoundKeeps(s, s', place);
    case DrainOne => DropKeeps(s, s'.writer, place); place' := place[s.input[0] := Answered(Reset)];
    case DrainDone => IdleKeeps(s, Waiting, s.fails + 1, place);
    case RetryDrain => DropKeeps(s, Waiting, place); place' := place[s.input[0] := Answered(Reset)];
    case RetryDone => IdleKeeps(s, Dialing, s.fails, place);
  }

  lemma WriterStepKeeps(s: State, a: Step, s': State, place: map<Id, Place>) returns (place': map<Id, Place>)
    requires Inv(s, place) && StepBy(s, a, s')
    requires a.Receive? || a.SkipBroken? || a.EncodeFails? || a.EncodeWorks? || a.FlushFails? || a.FlushWorks?
    ensures Inv(s', place')
  {
    place' := place;
    match a
    case Receive => ReceiveKeeps(s, place); place' := place[s.input[0] := WithWriter];
    case SkipBroken => HeldIsAnswered(s, Ready, Broken, place); place' := place[s.writer.id := Answered(Broken)];
    case EncodeFails =>
      HeldIsAnswered(s, Leaving, ConnFailure, place);
      place' := place[s.writer.id := Answered(ConnFailure)];
    case EncodeWorks => EncodeKeeps(s, place);
    case FlushFails =>
      HeldIsAnswered(s, Leaving, ConnFailure, place);
      place' := place[s.writer.id := Answered(ConnFailure)];
    case FlushWorks => FlushKeeps(s, place); place' := place[s.writer.id := InTasks(|s.rounds| - 1)];
  }

  lemma QueueReadKeeps(s: State, a: Step, s': State, place: map<Id, Place>) returns (place': map<Id, Place>)
    requires Inv(s, place) && StepBy(s, a, s') && (a.Take? || a.ReaderDrain?)
    ensures Inv(s', place')
  {
    var id := s.rounds[a.j].tasks[0];
    if a.Take? {
      TakeKeeps(s, a.j, s', place);
      place' := place[id := WithReader(a.j)];
    } else {
      ReaderDrainKeeps(s, a.j, s', place);
      place' := place[id := Answered(Reset)];
    }
  }

  lemma ReplyReadKeeps(s: State, a: Step, s': State, place: map<Id, Place>) returns (place': map<Id, Place>)
    requires Inv(s, place) && StepBy(s, a, s') && (a.DecodeWorks? || a.DecodeFails?)
    ensures Inv(s', place')
  {
    DecodeKeeps(s, a.j, a.DecodeWorks?, s', place);
    place' := place[s.rounds[a.j].reading.value := Answered(Decoded(a.j, s.rounds[a.j], a.DecodeWorks?))];
  }

  lemma StepKeeps(s: State, a: Step, s': State, place: map<Id, Place>) returns (place': map<Id, Place>)
    requires Inv(s, place) && StepBy(s, a, s')
    ensures Inv(s', place')
  {
    if a.Take? || a.ReaderDrain? {
      place' := QueueReadKeeps(s, a, s', place);
    } else if a.DecodeWorks? || a.DecodeFails? {
      place' := ReplyReadKeeps(s, a, s', place);
    } else if a.Receive? || a.SkipBroken? || a.EncodeFails? || a.EncodeWorks? || a.FlushFails? || a.FlushWorks? {
      place' := WriterStepKeeps(s, a, s', place);
    } else {
      place' := QueueStepKeeps(s, a, s', place);
    }
  }

  lemma {:induction false} RunsKeepInv(tr: seq<State>, i: nat) returns (place: map<Id, Place>)
    requires Run(tr) && i < |tr|
    ensures Inv(tr[i], place)
  {
    if i == 0 {
      place := map[];
    } else {
      place := RunsKeepInv(tr, i - 1);
      assert Next(tr[i - 1], tr[i]);
      var a: Step :| StepBy(tr[i - 1], a, tr[i]);
      place := StepKeeps(tr[i - 1], a, tr[i], place);
    }
  }

  // What follows for every run

  function Bit(b: bool): nat {
    if b then 1 else 0
  }

  predicate ByWriter(s: State, id: Id) {
    s.writer == Holding(id) || s.writer == Encoded(id)
  }

  predicate InSomeTasks(s: State, id: Id) {
    exists j :: 0 <= j < |s.rounds| && id in s.rounds[j].tasks
  }

  predicate BySomeReader(s: State, id: Id) {
    exists j :: 0 <= j < |s.rounds| && s.rounds[j].reading == Some(id)
  }

  predicate IsAnswered(s: State, id: Id) {
    exists m :: 0 <= m < |s.log| && s.log[m].id == id
  }

  lemma Placed(s: State, place: map<Id, Place>, id: Id)
    requires Inv(s, place) && id in place
    ensures id in s.input <==> place[id] == InInput
    ensures ByWriter(s, id) <==> place[id] == WithWriter
    ensures InSomeTasks(s, id) <==> place[id].InTasks?
    ensures BySomeReader(s, id) <==> place[id].WithReader?
    ensures IsAnswered(s, id) <==> place[id].Answered?
  {
    assert IdOk(s, id, place[id]);
    forall j | 0 <= j < |s.rounds|
      ensures id in s.rounds[j].tasks ==> place[id] == InTasks(j)
      ensures s.rounds[j].reading == Some(id) ==> place[id] == WithReader(j)
    {
      assert RoundOk(j, s.rounds[j], place);
    }
  }

  /** Every pushed request is in exactly one of: the input queue, the writer, a task queue, a reader,
      the answers. */
  lemma ExactlyOnePlace(tr: seq<State>, i: nat, id: Id)
    requires Run(tr) && i < |tr| && id in tr[i].pushed
    ensures var s := tr[i];
            Bit(id in s.input) + Bit(ByWriter(s, id)) + Bit(InSomeTasks(s, id)) + Bit(BySomeReader(s, id))
              + Bit(IsAnswered(s, id)) == 1
  {
    var place := RunsKeepInv(tr, i);
    Placed(tr[i], place, id);
  }

  /** No request is answered twice, on any path. */
  lemma NeverAnsweredTwice(tr: seq<State>, i: nat, m: nat, n: nat)
    requires Run(tr) && i < |tr| && m < n < |tr[i].log|
    ensures tr[i].log[m].id != tr[i].log[n].id
  {
    var _ := RunsKeepInv(tr, i);
  }

  lemma {:induction false} AnswersStay(tr: seq<State>, i: nat, j: nat)
    requires Run(tr) && i <= j < |tr|
    ensures tr[i].log <= tr[j].log
    decreases j
  {
    if i < j {
      AnswersStay(tr, i, j - 1);
      assert Next(tr[j - 1], tr[j]);
    }
  }

  /** The k-th reply decoded in a round answers the k-th request written in it, and the replies of a
      round are given out in order. */
  lemma RepliesInOrder(tr: seq<State>, i: nat, n: nat)
    requires Run(tr) && i < |tr| && n < |tr[i].log| && tr[i].log[n].outcome.Reply?
    ensures var s, o := tr[i], tr[i].log[n].outcome;
            && o.round < |s.rounds| && o.k < |s.rounds[o.round].written|
            && s.rounds[o.round].written[o.k] == s.log[n].id
            && forall m :: 0 <= m < n && s.log[m].outcome.Reply? && s.log[m].outcome.round == o.round ==>
                s.log[m].outcome.k < o.k
  {
    var _ := RunsKeepInv(tr, i);
    assert ReplyOk(tr[i], tr[i].log[n]);
    assert forall m :: 0 <= m < n ==> InOrder(tr[i].log[m].outcome, tr[i].log[n].outcome);
  }

  /** The drain at the end of a round finds all the requests it means to answer: it never waits. */
  lemma DrainNeverWaits(tr: seq<State>, i: nat)
    requires Run(tr) && i < |tr| && tr[i].writer.Draining?
    ensures tr[i].writer.n <= |tr[i].input|
  {
    var _ := RunsKeepInv(tr, i);
  }
}
