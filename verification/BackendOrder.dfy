/**
 Two more promises of a connection to a server: requests are written in the order in which they were
 pushed, and no request is ever stuck.
 */
module BackendOrder {
  import opened Models
  import opened BackendConn

  // ---------------------------------------------------------------- first in, first out

  /** What may be said of a request and another one that was pushed after it. */
  ghost predicate InTurn(s: State, a: Id, b: Id) {
    && (a in s.input && b in s.pushed ==> b in s.input)
    && (forall p, q :: 0 <= p < |s.input| && 0 <= q < |s.input| && s.input[p] == a && s.input[q] == b ==> p < q)
    && (s.writer == Holding(a) && b in s.pushed ==> b in s.input)
    && (forall j :: 0 <= j < |s.rounds| ==> WrittenInTurn(s.rounds[j], a, b))
  }

  ghost predicate WrittenInTurn(r: Round, a: Id, b: Id) {
    forall p, q :: 0 <= p < |r.written| && 0 <= q < |r.written| && r.written[p] == a && r.written[q] == b ==> p < q
  }

  /** The input queue grows at its end and shrinks at its front. */
  lemma QueueStep(s: State, x: Step, s': State)
    requires StepBy(s, x, s')
    ensures || (s'.input == s.input && s'.pushed == s.pushed)
            || (x.Push? && s'.input == s.input + [x.id] && s'.pushed == s.pushed + {x.id} && x.id !in s.pushed)
            || (s.input != [] && s'.input == s.input[1..] && s'.pushed == s.pushed)
  {
  }

  lemma QueueInTurn(s: State, x: Step, s': State, a: Id, b: Id)
    requires StepBy(s, x, s') && InTurn(s, a, b) && a in s.pushed && NoRepeats(s.input)
    requires forall i :: 0 <= i < |s.input| ==> s.input[i] in s.pushed
    ensures a in s'.input && b in s'.pushed ==> b in s'.input
    ensures forall p, q :: 0 <= p < |s'.input| && 0 <= q < |s'.input| && s'.input[p] == a && s'.input[q] == b ==> p < q
  {
    QueueStep(s, x, s');
    if s.input != [] && s'.input == s.input[1..] && a in s'.input && b in s'.pushed {
      var p :| 0 <= p < |s'.input| && s'.input[p] == a;
      assert s.input[p + 1] == a;
      var q :| 0 <= q < |s.input| && s.input[q] == b;
      assert s'.input[q - 1] == b;
    }
  }

  lemma HeldInTurn(s: State, x: Step, s': State, a: Id, b: Id)
    requires StepBy(s, x, s') && InTurn(s, a, b) && a in s.pushed && a != b
    ensures s'.writer == Holding(a) && b in s'.pushed ==> b in s'.input
  {
    if x.Receive? && s.input[0] == a && b in s.pushed {
      var q :| 0 <= q < |s.input| && s.input[q] == b;
      assert s.input[1..][q - 1] == b;
    }
  }

  lemma WrittenStep(s: State, x: Step, s': State, j: nat)
    requires StepBy(s, x, s') && j < |s'.rounds|
    ensures || (j < |s.rounds| && s'.rounds[j].written == s.rounds[j].written)
            || s'.rounds[j].written == []
            || (j == |s.rounds| - 1 && s.writer.Holding? && s'.rounds[j].written == s.rounds[j].written + [s.writer.id])
  {
  }

  lemma RoundsInTurn(s: State, x: Step, s': State, place: map<Id, Place>, a: Id, b: Id)
    requires Inv(s, place) && StepBy(s, x, s') && InTurn(s, a, b) && a != b
    ensures forall j :: 0 <= j < |s'.rounds| ==> WrittenInTurn(s'.rounds[j], a, b)
  {
    forall j | 0 <= j < |s'.rounds|
      ensures WrittenInTurn(s'.rounds[j], a, b)
    {
      WrittenStep(s, x, s', j);
      if j < |s.rounds| {
        assert WrittenInTurn(s.rounds[j], a, b);
        WrittenArePushed(s, place, j, b);
        if s.writer == Holding(a) && b in s.pushed { InputNotWritten(s, place, b); }
      }
    }
  }

  lemma WrittenArePushed(s: State, place: map<Id, Place>, j: nat, b: Id)
    requires Inv(s, place) && j < |s.rounds|
    ensures b in s.rounds[j].written ==> b in s.pushed
  {
    assert RoundOk(j, s.rounds[j], place);
  }

  lemma InputNotWritten(s: State, place: map<Id, Place>, b: Id)
    requires Inv(s, place) && b in s.input
    ensures forall j :: 0 <= j < |s.rounds| ==> b !in s.rounds[j].written
  {
    assert IdOk(s, b, place[b]);
  }

  lemma StepInTurn(s: State, x: Step, s': State, place: map<Id, Place>, a: Id, b: Id)
    requires Inv(s, place) && StepBy(s, x, s') && InTurn(s, a, b) && a in s.pushed && a != b
    ensures InTurn(s', a, b)
  {
    QueueInTurn(s, x, s', a, b);
    HeldInTurn(s, x, s', a, b);
    RoundsInTurn(s, x, s', place, a, b);
  }

  /** A request that is not pushed yet is nowhere. */
  lemma NotYetPushed(s: State, place: map<Id, Place>, a: Id, b: Id)
    requires Inv(s, place) && b !in s.pushed
    ensures InTurn(s, a, b)
  {
    forall j | 0 <= j < |s.rounds| ensures WrittenInTurn(s.rounds[j], a, b) { WrittenArePushed(s, place, j, b); }
  }

  lemma {:induction false} RunInTurn(tr: seq<State>, i: nat, j: nat, a: Id, b: Id)
    requires Run(tr) && i <= j < |tr| && a in tr[i].pushed && b !in tr[i].pushed
    ensures a in tr[j].pushed && InTurn(tr[j], a, b)
    decreases j
  {
    if i == j {
      var place := RunsKeepInv(tr, i);
      NotYetPushed(tr[i], place, a, b);
    } else {
      RunInTurn(tr, i, j - 1, a, b);
      var place := RunsKeepInv(tr, j - 1);
      assert Next(tr[j - 1], tr[j]);
      var x: Step :| StepBy(tr[j - 1], x, tr[j]);
      StepInTurn(tr[j - 1], x, tr[j], place, a, b);
      QueueStep(tr[j - 1], x, tr[j]);
    }
  }

  /** In every run, a request does not wait in the queue while one pushed later has left it. */
  lemma NeverOvertaken(tr: seq<State>, i: nat, j: nat, a: Id, b: Id)
    requires Run(tr) && i <= j < |tr| && a in tr[i].pushed && b !in tr[i].pushed
    requires a in tr[j].input && b in tr[j].pushed
    ensures b in tr[j].input
  {
    RunInTurn(tr, i, j, a, b);
  }

  /** In every run, of two requests written in one round the one that was pushed first is written first. */
  lemma WrittenInPushOrder(tr: seq<State>, i: nat, j: nat, a: Id, b: Id, k: nat, p: nat, q: nat)
    requires Run(tr) && i <= j < |tr| && a in tr[i].pushed && b !in tr[i].pushed && k < |tr[j].rounds|
    requires p < |tr[j].rounds[k].written| && tr[j].rounds[k].written[p] == a
    requires q < |tr[j].rounds[k].written| && tr[j].rounds[k].written[q] == b
    ensures p < q
  {
    RunInTurn(tr, i, j, a, b);
    assert WrittenInTurn(tr[j].rounds[k], a, b);
  }

  // ---------------------------------------------------------------- nothing gets stuck

  lemma Extend(tr: seq<State>, x: Step, s: State) returns (tr': seq<State>)
    requires Run(tr) && StepBy(tr[|tr| - 1], x, s)
    ensures Run(tr') && tr' == tr + [s]
  {
    tr' := tr + [s];
    assert Next(tr[|tr| - 1], s);
  }

  function Last(tr: seq<State>): State
    requires tr != []
  {
    tr[|tr| - 1]
  }

  /** What the reader has in hand gets its reply. */
  lemma AnswerRead(tr: seq<State>, j: nat, id: Id) returns (tr': seq<State>)
    requires Run(tr) && j < |Last(tr).rounds| && Last(tr).rounds[j].reading == Some(id)
    ensures Run(tr') && tr < tr' && IsAnswered(Last(tr'), id)
  {
    var s := Last(tr);
    var r := s.rounds[j];
    var s' := s.(rounds := s.rounds[j := r.(reading := None, decoded := r.decoded + 1)],
                 log := s.log + [Answer(id, Reply(j, r.decoded))]);
    tr' := Extend(tr, DecodeWorks(j), s');
    assert s'.log[|s.log|].id == id;
  }

  function ReaderLeft(r: Round): nat {
    2 * |r.tasks| + if r.reading.Some? then 1 else 0
  }

  /** One step of a reader that still has something to do. */
  lemma ReaderStep(s: State, j: nat) returns (x: Step, s': State)
    requires j < |s.rounds| && s.rounds[j].tasks != []
    ensures StepBy(s, x, s') && j < |s'.rounds| && ReaderLeft(s'.rounds[j]) < ReaderLeft(s.rounds[j])
    ensures var r, r' := s.rounds[j], s'.rounds[j];
            || r'.tasks == r.tasks
            || (r'.tasks == r.tasks[1..] && (r'.reading == Some(r.tasks[0]) || IsAnswered(s', r.tasks[0])))
  {
    var r := s.rounds[j];
    if r.reading.Some? {
      x := DecodeWorks(j);
      s' := s.(rounds := s.rounds[j := r.(reading := None, decoded := r.decoded + 1)],
               log := s.log + [Answer(r.reading.value, Reply(j, r.decoded))]);
    } else if r.alive {
      x := Take(j);
      s' := s.(rounds := s.rounds[j := r.(reading := Some(r.tasks[0]), tasks := r.tasks[1..], taken := r.taken + 1)]);
    } else {
      x := ReaderDrain(j);
      s' := s.(rounds := s.rounds[j := r.(tasks := r.tasks[1..], taken := r.taken + 1)],
               log := s.log + [Answer(r.tasks[0], Reset)]);
      assert s'.log[|s.log|].id == r.tasks[0];
    }
  }

  /** What is queued for a reader is answered. */
  lemma {:induction false} AnswerTask(tr: seq<State>, j: nat, id: Id) returns (tr': seq<State>)
    requires Run(tr) && j < |Last(tr).rounds| && id in Last(tr).rounds[j].tasks
    ensures Run(tr') && tr < tr' && IsAnswered(Last(tr'), id)
    decreases ReaderLeft(Last(tr).rounds[j])
  {
    var r := Last(tr).rounds[j];
    var x, s' := ReaderStep(Last(tr), j);
    tr' := Extend(tr, x, s');
    if id in s'.rounds[j].tasks {
      tr' := AnswerTask(tr', j, id);
    } else if s'.rounds[j].reading == Some(id) {
      tr' := AnswerRead(tr', j, id);
    } else {
      assert id in r.tasks && id !in r.tasks[1..];
    }
  }

  /** What the writer has written is passed on and answered. */
  lemma AnswerEncoded(tr: seq<State>, id: Id) returns (tr': seq<State>)
    requires Run(tr) && Last(tr).writer == Encoded(id) && Last(tr).rounds != []
    ensures Run(tr') && tr < tr' && IsAnswered(Last(tr'), id)
  {
    var s := Last(tr);
    var cur := |s.rounds| - 1;
    var r := s.rounds[cur];
    var s' := s.(writer := Ready, rounds := s.rounds[cur := r.(sent := r.sent + 1, tasks := r.tasks + [id])]);
    tr' := Extend(tr, FlushWorks, s');
    assert s'.rounds[cur].tasks[|r.tasks|] == id;
    tr' := AnswerTask(tr', cur, id);
  }

  lemma WriterHasRound(tr: seq<State>, id: Id)
    requires Run(tr) && ByWriter(Last(tr), id)
    ensures Last(tr).rounds != []
  {
    var place := RunsKeepInv(tr, |tr| - 1);
    assert WriterOk(Last(tr), place);
  }

  /** What the writer has in hand is written, passed on and answered. */
  lemma AnswerHeld(tr: seq<State>, id: Id) returns (tr': seq<State>)
    requires Run(tr) && ByWriter(Last(tr), id)
    ensures Run(tr') && tr < tr' && IsAnswered(Last(tr'), id)
  {
    WriterHasRound(tr, id);
    tr' := tr;
    var s := Last(tr);
    if s.writer.Holding? {
      var cur := |s.rounds| - 1;
      var r := s.rounds[cur];
      tr' := Extend(tr, EncodeWorks,
                    s.(writer := Encoded(id), rounds := s.rounds[cur := r.(written := r.written + [id])]));
    }
    tr' := AnswerEncoded(tr', id);
  }

  /** How far the writer is from the end of its queue. */
  function WriterLeft(s: State): nat {
    10 * |s.input| +
    match s.writer
    case Ready => 1
    case Dialing => 2
    case Encoded(_) => 2
    case Holding(_) => 3
    case Waiting => 3
    case Draining(n) => 4 + n
    case Leaving => 5 + |s.input|
  }

  /** Steps of a writer between two requests. */
  lemma WriterRests(s: State, place: map<Id, Place>) returns (x: Step, s': State)
    requires Inv(s, place) && s.input != [] && (s.writer.Dialing? || s.writer.Waiting? || s.writer.Leaving?)
    ensures StepBy(s, x, s') && WriterLeft(s') < WriterLeft(s) && s'.input == s.input
  {
    var cur := |s.rounds| - 1;
    match s.writer
    case Dialing =>
      x := DialWorks;
      s' := s.(writer := Ready, fails := 0, rounds := s.rounds + [Round([], 0, [], 0, None, 0, true, true)]);
    case Waiting => x, s' := RetryDone, s.(writer := Dialing);
    case Leaving =>
      x := EndRound;
      s' := s.(writer := Draining(|s.input|), rounds := s.rounds[cur := s.rounds[cur].(open := false)]);
  }

  lemma WriterDrains(s: State, place: map<Id, Place>) returns (x: Step, s': State)
    requires Inv(s, place) && s.input != [] && s.writer.Draining?
    ensures StepBy(s, x, s') && WriterLeft(s') < WriterLeft(s)
    ensures s'.input == s.input || (s'.input == s.input[1..] && IsAnswered(s', s.input[0]))
  {
    if s.writer.n > 0 {
      x := DrainOne;
      s' := s.(writer := Draining(s.writer.n - 1), input := s.input[1..], log := s.log + [Answer(s.input[0], Reset)]);
      assert s'.log[|s.log|].id == s.input[0];
    } else {
      x, s' := DrainDone, s.(writer := Waiting, fails := s.fails + 1);
    }
  }

  lemma WriterWorks(s: State, place: map<Id, Place>) returns (x: Step, s': State)
    requires Inv(s, place) && s.input != [] && (s.writer.Ready? || s.writer.Holding? || s.writer.Encoded?)
    ensures StepBy(s, x, s') && WriterLeft(s') < WriterLeft(s)
    ensures s'.input == s.input || (s'.input == s.input[1..] && ByWriter(s', s.input[0]))
  {
    var cur := |s.rounds| - 1;
    match s.writer
    case Ready => x, s' := Receive, s.(writer := Holding(s.input[0]), input := s.input[1..]);
    case Holding(id) =>
      x := EncodeWorks;
      s' := s.(writer := Encoded(id),
               rounds := s.rounds[cur := s.rounds[cur].(written := s.rounds[cur].written + [id])]);
    case Encoded(id) =>
      var r := s.rounds[cur];
      x := FlushWorks;
      s' := s.(writer := Ready, rounds := s.rounds[cur := r.(sent := r.sent + 1, tasks := r.tasks + [id])]);
  }

  /** Some step of the writer brings its queue forward. */
  lemma WriterStep(s: State, place: map<Id, Place>) returns (x: Step, s': State)
    requires Inv(s, place) && s.input != []
    ensures StepBy(s, x, s') && WriterLeft(s') < WriterLeft(s)
    ensures || s'.input == s.input
            || (s'.input == s.input[1..] && (ByWriter(s', s.input[0]) || IsAnswered(s', s.input[0])))
  {
    if s.writer.Draining? {
      x, s' := WriterDrains(s, place);
    } else if s.writer.Dialing? || s.writer.Waiting? || s.writer.Leaving? {
      x, s' := WriterRests(s, place);
    } else {
      x, s' := WriterWorks(s, place);
    }
  }

  /** What waits in the queue is answered. */
  lemma {:induction false} AnswerQueued(tr: seq<State>, id: Id) returns (tr': seq<State>)
    requires Run(tr) && id in Last(tr).input
    ensures Run(tr') && tr < tr' && IsAnswered(Last(tr'), id)
    decreases WriterLeft(Last(tr))
  {
    var s := Last(tr);
    var place := RunsKeepInv(tr, |tr| - 1);
    var x, s' := WriterStep(s, place);
    tr' := Extend(tr, x, s');
    if id in s'.input {
      tr' := AnswerQueued(tr', id);
    } else if ByWriter(s', id) {
      tr' := AnswerHeld(tr', id);
    } else {
      assert id in s.input && id !in s.input[1..];
    }
  }

  /** Whatever has happened, every pushed request has been answered or can still be answered. */
  lemma CanBeAnswered(tr: seq<State>, id: Id) returns (tr': seq<State>)
    requires Run(tr) && id in Last(tr).pushed
    ensures Run(tr') && tr <= tr' && IsAnswered(Last(tr'), id)
  {
    tr' := tr;
    ExactlyOnePlace(tr, |tr| - 1, id);
    var s := Last(tr);
    if id in s.input {
      tr' := AnswerQueued(tr, id);
    } else if ByWriter(s, id) {
      tr' := AnswerHeld(tr, id);
    } else if InSomeTasks(s, id) {
      var j :| 0 <= j < |s.rounds| && id in s.rounds[j].tasks;
      tr' := AnswerTask(tr, j, id);
    } else if BySomeReader(s, id) {
      var j :| 0 <= j < |s.rounds| && s.rounds[j].reading == Some(id);
      tr' := AnswerRead(tr, j, id);
    }
  }
}
