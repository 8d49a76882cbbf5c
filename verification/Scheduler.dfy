/** Which slot action is worked on next, and which ones may be worked on side by side. */
module Scheduler {
  import opened Models
  import opened Context
  import opened Protocol
  import opened Integrity
  import opened Routing

  /** What a planning round has marked so far: groups in use and slots chosen. */
  datatype Marks = Marks(groups: set<int>, slots: set<nat>)

  const NO_MARKS := Marks({}, {})

  predicate Accept(k: Marks, sid: nat, m: SlotMapping) {
    m.gid !in k.groups && m.action.target !in k.groups && sid !in k.slots
  }

  function Update(k: Marks, sid: nat, m: SlotMapping): Marks {
    Marks(k.groups + (if m.gid != 0 then {m.gid} else {}) + {m.action.target}, k.slots + {sid})
  }

  predicate Candidate(slots: seq<SlotMapping>, pending: bool, k: Marks, sid: nat)
    requires sid < |slots|
  {
    && !slots[sid].action.state.Nothing?
    && slots[sid].action.state.Pending? == pending
    && Accept(k, sid, slots[sid])
  }

  /** Smallest index among the candidates of the first `n` slots. */
  ghost predicate SmallestUpTo(slots: seq<SlotMapping>, n: nat, pending: bool, k: Marks, sid: nat)
    requires n <= |slots|
  {
    && sid < n && Candidate(slots, pending, k, sid)
    && forall o: nat :: o < n && Candidate(slots, pending, k, o) ==>
         slots[sid].action.index <= slots[o].action.index
  }

  ghost predicate NoCandidateUpTo(slots: seq<SlotMapping>, n: nat, pending: bool, k: Marks)
    requires n <= |slots|
  {
    forall o: nat :: o < n ==> !Candidate(slots, pending, k, o)
  }

  ghost predicate Smallest(slots: seq<SlotMapping>, pending: bool, k: Marks, sid: nat) {
    SmallestUpTo(slots, |slots|, pending, k, sid)
  }

  ghost predicate NoCandidate(slots: seq<SlotMapping>, pending: bool, k: Marks) {
    NoCandidateUpTo(slots, |slots|, pending, k)
  }

  /** One pass for the smallest index; the scan keeps the last of equals. */
  method MinActionIndex(slots: seq<SlotMapping>, pending: bool, k: Marks) returns (picked: Option<nat>)
    ensures picked.Some? ==> Smallest(slots, pending, k, picked.value)
    ensures picked.None? ==> NoCandidate(slots, pending, k)
  {
    picked := None;
    for i := 0 to |slots|
      invariant picked.Some? ==> SmallestUpTo(slots, i, pending, k, picked.value)
      invariant picked.None? ==> NoCandidateUpTo(slots, i, pending, k)
    {
      var m := slots[i];
      if m.action.state.Nothing? { continue; }
      if m.action.state.Pending? != pending { continue; }
      if picked.Some? && slots[picked.value].action.index < m.action.index { continue; }
      if Accept(k, i, m) { picked := Some(i); }
    }
  }

  /** The choice: actions under way come before pending ones, and pending ones only when enabled. */
  ghost predicate Chosen(slots: seq<SlotMapping>, disabled: bool, k: Marks, sid: nat) {
    || Smallest(slots, false, k, sid)
    || (NoCandidate(slots, false, k) && !disabled && Smallest(slots, true, k, sid))
  }

  ghost predicate NothingToChoose(slots: seq<SlotMapping>, disabled: bool, k: Marks) {
    NoCandidate(slots, false, k) && (disabled || NoCandidate(slots, true, k))
  }

  method Pick(slots: seq<SlotMapping>, disabled: bool, k: Marks) returns (picked: Option<nat>)
    ensures picked.Some? ==> Chosen(slots, disabled, k, picked.value)
    ensures picked.None? ==> NothingToChoose(slots, disabled, k)
  {
    picked := MinActionIndex(slots, false, k);
    if picked.Some? || disabled { return; }
    picked := MinActionIndex(slots, true, k);
  }

  /** In every state of every run the choice is unique. */
  lemma ChoiceIsUnique(tr: seq<World>, i: nat, disabled: bool, k: Marks, a: nat, b: nat)
    requires Run(tr) && i < |tr|
    requires Chosen(tr[i].store.slots, disabled, k, a) && Chosen(tr[i].store.slots, disabled, k, b)
    ensures a == b
  {
    RunsKeepInv(tr, i);
    assert IndicesDistinct(tr[i].store.slots);
  }

  /** The groups a migration touches; group zero stands for "offline" and is nobody's. */
  function Touches(m: SlotMapping): set<int> {
    {m.gid, m.action.target} - {0}
  }

  /** A set of chosen slots that do not share a group. */
  ghost predicate Disjoint(plans: map<nat, SlotMapping>) {
    forall a, b :: a in plans && b in plans && a != b ==> Touches(plans[a]) !! Touches(plans[b])
  }

  ghost predicate MarksFor(k: Marks, plans: map<nat, SlotMapping>) {
    && k.slots == plans.Keys
    && 0 !in k.groups
    && forall g :: g in k.groups <==> exists a :: a in plans && g in Touches(plans[a])
  }

  /** A slot is acceptable exactly when it is not chosen yet and shares no group with a chosen one. */
  lemma AcceptExact(k: Marks, plans: map<nat, SlotMapping>, sid: nat, m: SlotMapping)
    requires MarksFor(k, plans)
    ensures Accept(k, sid, m) <==> sid !in plans && forall a :: a in plans ==> Touches(m) !! Touches(plans[a])
  {
    if forall a :: a in plans ==> Touches(m) !! Touches(plans[a]) {
      forall g | g in k.groups ensures g != m.gid && g != m.action.target {
        var a :| a in plans && g in Touches(plans[a]);
        assert g !in Touches(m);
      }
    } else {
      var a, g :| a in plans && g in Touches(m) && g in Touches(plans[a]);
      assert g in k.groups;
    }
  }

  /** Every action that may be worked on is chosen or shares a group with a chosen one. */
  ghost predicate Saturated(slots: seq<SlotMapping>, disabled: bool, plans: map<nat, SlotMapping>) {
    forall sid: nat :: sid < |slots| && MayWork(slots[sid], disabled) && sid !in plans ==>
      exists a :: a in plans && !(Touches(slots[sid]) !! Touches(plans[a]))
  }

  predicate MayWork(m: SlotMapping, disabled: bool) {
    !m.action.state.Nothing? && !(disabled && m.action.state.Pending?)
  }

  lemma NothingToChooseSaturated(slots: seq<SlotMapping>, disabled: bool, k: Marks, plans: map<nat, SlotMapping>)
    requires MarksFor(k, plans) && NothingToChoose(slots, disabled, k)
    ensures Saturated(slots, disabled, plans)
  {
    forall sid: nat | sid < |slots| && MayWork(slots[sid], disabled) && sid !in plans
      ensures exists a :: a in plans && !(Touches(slots[sid]) !! Touches(plans[a]))
    {
      AcceptExact(k, plans, sid, slots[sid]);
      assert !Candidate(slots, slots[sid].action.state.Pending?, k, sid);
    }
  }

  lemma UpdateKeepsDisjoint(k: Marks, plans: map<nat, SlotMapping>, sid: nat, m: SlotMapping)
    requires MarksFor(k, plans) && Disjoint(plans) && Accept(k, sid, m) && m.action.target != 0
    ensures MarksFor(Update(k, sid, m), plans[sid := m]) && Disjoint(plans[sid := m])
    ensures |plans[sid := m]| == |plans| + 1
  {
    var plans', k' := plans[sid := m], Update(k, sid, m);
    forall g ensures g in k'.groups <==> exists a :: a in plans' && g in Touches(plans'[a]) {
      if g in k.groups {
        var a :| a in plans && g in Touches(plans[a]);
        assert a in plans' && g in Touches(plans'[a]);
      } else if g in Touches(m) {
        assert sid in plans' && g in Touches(plans'[sid]);
      }
    }
    assert plans'.Keys == plans.Keys + {sid};
  }
}
