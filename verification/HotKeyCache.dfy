/**
 A proxy's cache of hot keys: a map of entries beside a list in order of use, and version tokens
 that keep a value read before an invalidation from being stored after it.
 The history of what happened gives the reference the cache is compared with.
 */
module HotKeyCache {
  import opened Models

  datatype Key = Key(database: int, key: string)

  datatype Entry = Entry(value: seq<bv8>, slot: nat, expireAt: int)

  datatype Token = Token(ok: bool, key: Key, slot: nat, slotVersion: nat, cacheVersion: nat)

  const NO_TOKEN := Token(false, Key(0, ""), 0, 0, 0)

  /** What an invalidation is aimed at. */
  datatype Target = Keys(keys: set<Key>) | Database(database: int) | SlotOf(slot: nat)

  datatype Event =
    | Issued(token: Token)
    | Struck(target: Target)
    | Stored(token: Token, value: seq<bv8>, at: int)
    | Hit(key: Key)

  predicate Covers(t: Target, k: Key, slot: nat) {
    match t
    case Keys(keys) => k in keys
    case Database(d) => k.database == d
    case SlotOf(s) => slot == s
  }

  // The reference: what was stored last for a key and not invalidated since

  ghost function Live(h: seq<Event>, k: Key): Option<Event>
    ensures Live(h, k).Some? ==> Live(h, k).value.Stored? && Live(h, k).value.token.key == k
  {
    if h == [] then None
    else
      var e, before := h[|h| - 1], h[..|h| - 1];
      if e.Stored? && e.token.key == k then Some(e)
      else if e.Struck? && Live(before, k).Some? && Covers(e.target, k, Live(before, k).value.token.slot) then None
      else Live(before, k)
  }

  /** One past the last time a key was stored or found. */
  ghost function LastUse(h: seq<Event>, k: Key): nat {
    if h == [] then 0
    else
      var e := h[|h| - 1];
      if (e.Stored? && e.token.key == k) || e == Hit(k) then |h| else LastUse(h[..|h| - 1], k)
  }

  /** How many invalidations there were. */
  ghost function Strikes(h: seq<Event>): nat {
    if h == [] then 0 else Strikes(h[..|h| - 1]) + if h[|h| - 1].Struck? then 1 else 0
  }

  /** Tokens carry the number of invalidations at their issue, and a value is stored only with an
      issued token and at that number. */
  ghost predicate HistoryOk(h: seq<Event>) {
    if h == [] then true
    else
      var e, before := h[|h| - 1], h[..|h| - 1];
      && HistoryOk(before)
      && (e.Issued? ==> e.token.cacheVersion == Strikes(before))
      && (e.Stored? ==> e.token.cacheVersion == Strikes(before) && Issued(e.token) in before)
  }

  lemma {:induction false} HistoryAt(h: seq<Event>, i: nat)
    requires HistoryOk(h) && i < |h|
    ensures h[i].Issued? ==> h[i].token.cacheVersion == Strikes(h[..i])
    ensures h[i].Stored? ==> h[i].token.cacheVersion == Strikes(h[..i]) && Issued(h[i].token) in h[..i]
  {
    var before := h[..|h| - 1];
    if i < |before| {
      HistoryAt(before, i);
      assert before[..i] == h[..i];
    }
  }

  lemma {:induction false} StrikesGrow(h: seq<Event>, i: nat, k: nat)
    requires i <= k <= |h|
    ensures Strikes(h[..i]) <= Strikes(h[..k])
  {
    if i < k {
      StrikesGrow(h, i, k - 1);
      assert h[..k][..k - 1] == h[..k - 1];
    }
  }

  lemma StrikeCounts(h: seq<Event>, i: nat, j: nat, k: nat)
    requires i <= j < k <= |h| && h[j].Struck?
    ensures Strikes(h[..i]) < Strikes(h[..k])
  {
    StrikesGrow(h, i, j);
    assert h[..j + 1][..j] == h[..j];
    StrikesGrow(h, j + 1, k);
  }

  /** Nothing read before an invalidation is stored after it: the token of a stored value was issued
      after every invalidation that came before the store. */
  lemma NeverResurrects(h: seq<Event>, j: nat, k: nat)
    requires HistoryOk(h) && j < k < |h| && h[j].Struck? && h[k].Stored?
    ensures exists i :: j < i < k && h[i] == Issued(h[k].token)
  {
    HistoryAt(h, k);
    var i :| 0 <= i < k && h[..k][i] == Issued(h[k].token);
    HistoryAt(h, i);
    if i <= j {
      StrikeCounts(h, i, j, k);
    }
  }

  /** What the reference holds for a key was read, with the token it was stored with, after every
      invalidation that covers it. */
  lemma {:induction false} LiveIsFresh(h: seq<Event>, k: Key, j: nat)
    requires HistoryOk(h) && Live(h, k).Some?
    requires j < |h| && h[j].Struck? && Covers(h[j].target, k, Live(h, k).value.token.slot)
    ensures exists i :: j < i < |h| && h[i] == Issued(Live(h, k).value.token)
  {
    var n := |h| - 1;
    if h[n] == Live(h, k).value {
      NeverResurrects(h, j, n);
    } else {
      LiveIsFresh(h[..n], k, j);
      var i :| j < i < n && h[..n][i] == Issued(Live(h, k).value.token);
      assert h[i] == Issued(Live(h, k).value.token);
    }
  }

  // The list in order of use

  ghost predicate NoRepeats(ks: seq<Key>) {
    forall i, j :: 0 <= i < j < |ks| ==> ks[i] != ks[j]
  }

  ghost predicate SameKeys(entries: map<Key, Entry>, lru: seq<Key>) {
    NoRepeats(lru) && forall k :: k in entries <==> k in lru
  }

  /** Most recently used first. */
  ghost predicate ByUse(h: seq<Event>, lru: seq<Key>) {
    forall i, j :: 0 <= i < j < |lru| ==> LastUse(h, lru[i]) > LastUse(h, lru[j])
  }

  ghost predicate Agrees(h: seq<Event>, k: Key, e: Entry, ttl: int) {
    var l := Live(h, k);
    l.Some? && l.value.value == e.value && l.value.token.slot == e.slot && l.value.at + ttl == e.expireAt
  }

  function Without(ks: seq<Key>, k: Key): (r: seq<Key>) {
    if ks == [] then [] else if ks[0] == k then ks[1..] else [ks[0]] + Without(ks[1..], k)
  }

  lemma {:induction false} WithoutMembers(ks: seq<Key>, k: Key)
    requires NoRepeats(ks)
    ensures forall x :: x in Without(ks, k) <==> x in ks && x != k
  {
    if ks != [] {
      assert forall x :: x in ks <==> x == ks[0] || x in ks[1..];
      if ks[0] != k {
        WithoutMembers(ks[1..], k);
      }
    }
  }

  lemma PrependByUse(h: seq<Event>, x: Key, rest: seq<Key>)
    requires ByUse(h, rest) && forall y :: y in rest ==> LastUse(h, x) > LastUse(h, y)
    ensures ByUse(h, [x] + rest)
  {
  }

  lemma {:induction false} WithoutOrder(ks: seq<Key>, k: Key, h: seq<Event>)
    requires NoRepeats(ks) && ByUse(h, ks)
    ensures ByUse(h, Without(ks, k))
  {
    if ks != [] && ks[0] != k {
      WithoutOrder(ks[1..], k, h);
      WithoutMembers(ks[1..], k);
      PrependByUse(h, ks[0], Without(ks[1..], k));
    }
  }

  lemma ByUseHasNoRepeats(h: seq<Event>, ks: seq<Key>)
    requires ByUse(h, ks)
    ensures NoRepeats(ks)
  {
  }

  lemma WithoutKeeps(ks: seq<Key>, k: Key, h: seq<Event>)
    requires NoRepeats(ks) && ByUse(h, ks)
    ensures NoRepeats(Without(ks, k)) && ByUse(h, Without(ks, k))
    ensures forall x :: x in Without(ks, k) <==> x in ks && x != k
  {
    WithoutMembers(ks, k);
    WithoutOrder(ks, k, h);
    ByUseHasNoRepeats(h, Without(ks, k));
  }

  lemma {:induction false} LastUseBound(h: seq<Event>, k: Key)
    ensures LastUse(h, k) <= |h|
  {
    if h != [] {
      LastUseBound(h[..|h| - 1], k);
    }
  }

  predicate Touches(e: Event, k: Key) {
    (e.Stored? && e.token.key == k) || e == Hit(k)
  }

  lemma UsedLast(h: seq<Event>, e: Event, k: Key, x: Key)
    requires Touches(e, k)
    ensures LastUse(h + [e], k) == |h| + 1
    ensures x != k ==> LastUse(h + [e], x) == LastUse(h, x) <= |h|
  {
    assert (h + [e])[..|h|] == h;
    LastUseBound(h, x);
  }

  /** An event that uses one key moves it to the front and leaves the others in order. */
  lemma MovedToFront(h: seq<Event>, e: Event, lru: seq<Key>, k: Key)
    requires NoRepeats(lru) && ByUse(h, lru) && Touches(e, k)
    ensures NoRepeats([k] + Without(lru, k)) && ByUse(h + [e], [k] + Without(lru, k))
    ensures forall x :: x in [k] + Without(lru, k) <==> x == k || x in lru
  {
    WithoutKeeps(lru, k, h);
    FrontByUse(h, e, Without(lru, k), k);
  }

  lemma FrontByUse(h: seq<Event>, e: Event, rest: seq<Key>, k: Key)
    requires k !in rest && ByUse(h, rest) && Touches(e, k)
    ensures ByUse(h + [e], [k] + rest)
  {
    var h', front := h + [e], [k] + rest;
    forall i, j | 0 <= i < j < |front|
      ensures LastUse(h', front[i]) > LastUse(h', front[j])
    {
      assert front[j] == rest[j - 1];
      UsedLast(h, e, k, front[j]);
      if i > 0 {
        assert front[i] == rest[i - 1];
        UsedLast(h, e, k, front[i]);
      }
    }
  }

  lemma StillAgrees(h: seq<Event>, e: Event, k: Key, entry: Entry, ttl: int)
    requires Agrees(h, k, entry, ttl)
    requires e.Issued? || e.Hit? || (e.Stored? && e.token.key != k) || (e.Struck? && !Covers(e.target, k, entry.slot))
    ensures Agrees(h + [e], k, entry, ttl)
  {
  }

  ghost predicate AllAgree(h: seq<Event>, entries: map<Key, Entry>, ttl: int) {
    forall k :: k in entries ==> Agrees(h, k, entries[k], ttl)
  }

  /** The map and the list hold the same keys, the list in order of use, and no more than allowed. */
  ghost predicate ListOk(h: seq<Event>, entries: map<Key, Entry>, lru: seq<Key>, limit: int) {
    SameKeys(entries, lru) && ByUse(h, lru) && |entries| <= limit
  }

  /** The list is in order and every entry is what the reference holds. */
  ghost predicate Sound(h: seq<Event>, entries: map<Key, Entry>, lru: seq<Key>, limit: int, ttl: int) {
    ListOk(h, entries, lru, limit) && AllAgree(h, entries, ttl)
  }

  ghost predicate VersionsOk(h: seq<Event>, version: nat, slotVersions: seq<nat>) {
    HistoryOk(h) && version == Strikes(h) && |slotVersions| == MAX_SLOT_NUM
  }

  lemma RemoveKeeps(h: seq<Event>, entries: map<Key, Entry>, lru: seq<Key>, limit: int, ttl: int, k: Key)
    requires Sound(h, entries, lru, limit, ttl) && k in entries
    ensures Sound(h, entries - {k}, Without(lru, k), limit, ttl) && |entries - {k}| == |entries| - 1
  {
    WithoutKeeps(lru, k, h);
    assert (entries - {k}).Keys == entries.Keys - {k};
  }

  lemma FrontKeeps(h: seq<Event>, e: Event, entries: map<Key, Entry>, lru: seq<Key>, limit: int, k: Key)
    requires ListOk(h, entries, lru, limit) && k in entries && Touches(e, k)
    ensures ListOk(h + [e], entries, [k] + Without(lru, k), limit)
  {
    MovedToFront(h, e, lru, k);
  }

  /** A hit keeps everything as it is but the order of use. */
  lemma HitKeeps(h: seq<Event>, k: Key, entries: map<Key, Entry>, ttl: int)
    requires AllAgree(h, entries, ttl)
    ensures AllAgree(h + [Hit(k)], entries, ttl)
    ensures HistoryOk(h) ==> HistoryOk(h + [Hit(k)]) && Strikes(h + [Hit(k)]) == Strikes(h)
  {
  }

  lemma IssueKeeps(h: seq<Event>, token: Token, entries: map<Key, Entry>, lru: seq<Key>, limit: int, ttl: int)
    requires Sound(h, entries, lru, limit, ttl)
    ensures Sound(h + [Issued(token)], entries, lru, limit, ttl)
    ensures HistoryOk(h) && token.cacheVersion == Strikes(h) ==>
              HistoryOk(h + [Issued(token)]) && Strikes(h + [Issued(token)]) == Strikes(h)
  {
  }

  lemma {:induction false} WithoutAbsent(ks: seq<Key>, k: Key)
    requires k !in ks
    ensures Without(ks, k) == ks
  {
    if ks != [] {
      WithoutAbsent(ks[1..], k);
    }
  }

  lemma InsertKeeps(h: seq<Event>, e: Event, entries: map<Key, Entry>, lru: seq<Key>, limit: int, ttl: int)
    requires Sound(h, entries, lru, limit, ttl) && e.Stored?
    ensures var k := e.token.key;
            Sound(h + [e], entries[k := Entry(e.value, e.token.slot, e.at + ttl)], [k] + Without(lru, k), limit + 1,
                ttl)
    ensures HistoryOk(h) && e.token.cacheVersion == Strikes(h) && Issued(e.token) in h ==>
              HistoryOk(h + [e]) && Strikes(h + [e]) == Strikes(h)
  {
    var k := e.token.key;
    var entries' := entries[k := Entry(e.value, e.token.slot, e.at + ttl)];
    assert (h + [e])[..|h|] == h;
    MovedToFront(h, e, lru, k);
    assert entries'.Keys == entries.Keys + {k};
    forall x | x in entries'
      ensures Agrees(h + [e], x, entries'[x], ttl)
    {
      if x != k {
        StillAgrees(h, e, x, entries[x], ttl);
      }
    }
  }

  lemma Inserted(h: seq<Event>, e: Event, was: map<Key, Entry>, wasLru: seq<Key>,
                 h': seq<Event>, entries: map<Key, Entry>, lru: seq<Key>, limit: int, ttl: int)
    requires Sound(h, was, wasLru, limit, ttl) && e.Stored? && h' == h + [e]
    requires entries == was[e.token.key := Entry(e.value, e.token.slot, e.at + ttl)]
    requires lru == [e.token.key] + Without(wasLru, e.token.key)
    ensures Sound(h', entries, lru, limit + 1, ttl)
    ensures HistoryOk(h) && e.token.cacheVersion == Strikes(h) && Issued(e.token) in h ==>
              HistoryOk(h') && Strikes(h') == Strikes(h)
  {
    InsertKeeps(h, e, was, wasLru, limit, ttl);
  }

  lemma {:induction false} SizesAgree(entries: map<Key, Entry>, lru: seq<Key>)
    requires SameKeys(entries, lru)
    ensures |lru| == |entries|
  {
    if lru == [] {
      assert entries.Keys == {};
    } else {
      var k := lru[0];
      assert (entries - {k}).Keys == entries.Keys - {k};
      assert forall x :: x in lru <==> x == k || x in lru[1..];
      SizesAgree(entries - {k}, lru[1..]);
    }
  }

  /** The entry that was used longest ago. */
  ghost predicate LeastUsed(h: seq<Event>, entries: map<Key, Entry>, v: Key) {
    v in entries && forall x :: x in entries && x != v ==> LastUse(h, x) > LastUse(h, v)
  }

  /** Storing a key leaves the other entries alone, but for the least recently used one if there was
      no room. */
  ghost predicate MadeRoom(h: seq<Event>, was: map<Key, Entry>, entries: map<Key, Entry>, k: Key, e: Entry,
      limit: int) {
    if k in was || |was| < limit then entries == was[k := e]
    else exists v :: LeastUsed(h, was, v) && entries == was[k := e] - {v}
  }

  ghost function Evicted(entries: map<Key, Entry>, lru: seq<Key>, limit: int): map<Key, Entry> {
    if |entries| > limit && lru != [] then entries - {lru[|lru| - 1]} else entries
  }

  class HotKeyCache {
    const enabled: bool
    const ttl: int
    const maxEntries: int
    const maxValueSize: int
    const keys: set<string>
    var entries: map<Key, Entry>
    var lru: seq<Key>
    var version: nat
    var slotVersions: seq<nat>
    ghost var history: seq<Event>

    predicate Enabled() {
      enabled && ttl > 0 && maxEntries > 0 && keys != {}
    }

    function Limit(): int {
      if Enabled() then maxEntries else 0
    }

    ghost predicate Valid()
      reads this
    {
      Sound(history, entries, lru, Limit(), ttl) && VersionsOk(history, version, slotVersions)
    }

    constructor (enabled: bool, ttl: int, maxEntries: int, maxValueSize: int, keys: set<string>)
      ensures Valid() && entries == map[] && history == []
    {
      this.enabled, this.ttl, this.maxEntries, this.maxValueSize, this.keys :=
          enabled, ttl, maxEntries, maxValueSize, keys;
      entries, lru, version, history := map[], [], 0, [];
      slotVersions := seq(MAX_SLOT_NUM, _ => 0);
    }

    method RemoveElement(k: Key)
      modifies `entries, `lru
      ensures entries == old(entries) - {k} && lru == Without(old(lru), k)
    {
      entries := entries - {k};
      lru := Without(lru, k);
    }

    method Expire(k: Key)
      requires Valid() && k in entries
      modifies `entries, `lru
      ensures Valid() && entries == old(entries) - {k} && lru == Without(old(lru), k)
    {
      RemoveKeeps(history, entries, lru, Limit(), ttl, k);
      RemoveElement(k);
    }

    /** Moves a key that was found to the front. */
    method Use(k: Key)
      requires Valid() && k in entries
      modifies `lru, `history
      ensures Valid() && lru == [k] + Without(old(lru), k) && history == old(history) + [Hit(k)]
    {
      FrontKeeps(history, Hit(k), entries, lru, Limit(), k);
      HitKeeps(history, k, entries, ttl);
      lru := [k] + Without(lru, k);
      history := history + [Hit(k)];
    }

    /** A hit is exactly what the reference holds, and younger than the time to live. */
    method Get(k: Key, now: int) returns (value: seq<bv8>, hit: bool)
      requires Valid()
      modifies `entries, `lru, `history
      ensures Valid()
      ensures hit <==> k in old(entries) && now < old(entries)[k].expireAt
      ensures hit ==> Young(old(history), k, value, now, ttl) && value == old(entries)[k].value
      ensures hit ==> entries == old(entries) && lru == [k] + Without(old(lru), k) && history == old(history) + [Hit(k)]
      ensures !hit ==> history == old(history) && value == []
      ensures !hit && k in old(entries) ==> entries == old(entries) - {k} && lru == Without(old(lru), k)
      ensures !hit && k !in old(entries) ==> entries == old(entries) && lru == old(lru)
    {
      value, hit := [], false;
      if k !in entries {
        return;
      }
      if now >= entries[k].expireAt {
        Expire(k);
        return;
      }
      HitIsYoung(history, entries, k, now, ttl);
      value, hit := entries[k].value, true;
      Use(k);
    }

    /** A token for a configured key of a stable slot, with the versions of now. */
    method IssueToken(k: Key, slot: nat, stable: bool) returns (token: Token)
      requires Valid() && slot < MAX_SLOT_NUM
      modifies `history
      ensures Valid()
      ensures token.ok <==> Enabled() && k.key in keys && stable
      ensures token.ok ==>
          token == Token(true, k, slot, slotVersions[slot], version) && history == old(history) + [Issued(token)]
      ensures !token.ok ==> history == old(history)
    {
      if !Enabled() || k.key !in keys || !stable {
        return NO_TOKEN;
      }
      token := Token(true, k, slot, slotVersions[slot], version);
      IssueKeeps(history, token, entries, lru, Limit(), ttl);
      history := history + [Issued(token)];
    }

    /** Whether a value may be stored with a token now. */
    predicate Accepts(token: Token, value: Option<seq<bv8>>, stable: bool)
      reads this
    {
      && token.ok && value.Some? && stable
      && token.slot < |slotVersions| && slotVersions[token.slot] == token.slotVersion
      && version == token.cacheVersion
      && Enabled() && |value.value| <= maxValueSize
    }

    /** Stores a value unless its token is out of date; when the cache is full, the least recently
        used entry makes room. */
    method Store(token: Token, value: Option<seq<bv8>>, stable: bool, now: int)
      requires Valid() && (token.ok ==> Issued(token) in history && token.slot < MAX_SLOT_NUM)
      modifies `entries, `lru, `history
      ensures Valid()
      ensures !old(Accepts(token, value, stable)) ==> unchanged(this)
      ensures old(Accepts(token, value, stable)) ==>
                && history == old(history) + [Stored(token, value.value, now)]
                && MadeRoom(old(history), old(entries), entries, token.key, Entry(value.value, token.slot, now + ttl),
                    maxEntries)
                && token.key in entries && entries[token.key] == Entry(value.value, token.slot, now + ttl)
    {
      if !token.ok || value.None? {
        return;
      }
      if slotVersions[token.slot] != token.slotVersion || version != token.cacheVersion || !stable {
        return;
      }
      if !Enabled() || |value.value| > maxValueSize {
        return;
      }
      Put(token, value.value, now);
    }

    method Put(token: Token, value: seq<bv8>, now: int)
      requires Valid() && Enabled() && version == token.cacheVersion && Issued(token) in history
      modifies `entries, `lru, `history
      ensures Valid() && history == old(history) + [Stored(token, value, now)]
      ensures MadeRoom(old(history), old(entries), entries, token.key, Entry(value, token.slot, now + ttl), maxEntries)
      ensures token.key in entries && entries[token.key] == Entry(value, token.slot, now + ttl)
    {
      var e := Entry(value, token.slot, now + ttl);
      InsertLogged(token, value, now);
      label Full:
      EvictOver();
      RoomIsMade(old(history), old(entries), old(lru), old@Full(entries), old@Full(lru), entries, token.key, e,
          maxEntries);
      RoomHasEntry(old(history), old(entries), entries, token.key, e, maxEntries);
    }

    method InsertLogged(token: Token, value: seq<bv8>, now: int)
      requires Valid() && Enabled() && version == token.cacheVersion && Issued(token) in history
      modifies `entries, `lru, `history
      ensures Sound(history, entries, lru, maxEntries + 1, ttl) && VersionsOk(history, version, slotVersions)
      ensures history == old(history) + [Stored(token, value, now)]
      ensures entries == old(entries)[token.key := Entry(value, token.slot, now + ttl)]
      ensures lru == [token.key] + Without(old(lru), token.key)
    {
      Insert(token.key, Entry(value, token.slot, now + ttl));
      history := history + [Stored(token, value, now)];
      Inserted(old(history), Stored(token, value, now), old(entries), old(lru), history, entries, lru, maxEntries, ttl);
    }

    /** store, up to the eviction loop. */
    method Insert(k: Key, e: Entry)
      requires SameKeys(entries, lru)
      modifies `entries, `lru
      ensures entries == old(entries)[k := e] && lru == [k] + Without(old(lru), k)
    {
      if k in entries {
        entries := entries[k := e];
        lru := [k] + Without(lru, k);
        return;
      }
      WithoutAbsent(lru, k);
      lru := [k] + lru;
      entries := entries[k := e];
    }

    method EvictOver()
      requires maxEntries > 0 && Sound(history, entries, lru, maxEntries + 1, ttl)
      modifies `entries, `lru
      ensures Sound(history, entries, lru, maxEntries, ttl)
      ensures entries == Evicted(old(entries), old(lru), maxEntries)
    {
      while |entries| > maxEntries
        invariant Sound(history, entries, lru, maxEntries + 1, ttl)
        invariant Evicted(entries, lru, maxEntries) == Evicted(old(entries), old(lru), maxEntries)
        decreases |entries|
      {
        EvictStep(history, entries, lru, maxEntries, ttl);
        RemoveElement(lru[|lru| - 1]);
      }
    }

    /** The loop over all entries of a database or of a slot. */
    method Sweep(t: Target)
      requires Sound(history, entries, lru, Limit(), ttl)
      modifies `entries, `lru
      ensures Sound(history, entries, lru, Limit(), ttl) && Swept(old(entries), entries, t)
    {
      var todo := entries.Keys;
      while todo != {}
        invariant Sound(history, entries, lru, Limit(), ttl)
        invariant SweptBut(old(entries), entries, t, todo)
      {
        var k := AnyOf(todo);
        if Covers(t, k, entries[k].slot) {
          RemoveKeeps(history, entries, lru, Limit(), ttl, k);
          RemoveElement(k);
        }
        todo := todo - {k};
      }
    }

    /** The reference forgets what the invalidation covers, as the entries have done. */
    ghost method Strike(t: Target)
      requires version > 0 && Sound(history, entries, lru, Limit(), ttl)
          && VersionsOk(history, version - 1, slotVersions)
      requires forall k :: k in entries ==> !Covers(t, k, entries[k].slot)
      modifies `history
      ensures Valid() && history == old(history) + [Struck(t)]
    {
      StrikeKeeps(history, t, entries, lru, Limit(), ttl);
      history := history + [Struck(t)];
    }

    method RemoveIfPresent(k: Key) returns (n: nat)
      requires Sound(history, entries, lru, Limit(), ttl)
      modifies `entries, `lru
      ensures Sound(history, entries, lru, Limit(), ttl) && n == |old(entries)| - |entries|
      ensures entries == if k in old(entries) then old(entries) - {k} else old(entries)
    {
      n := 0;
      if k in entries {
        RemoveKeeps(history, entries, lru, Limit(), ttl, k);
        RemoveElement(k);
        n := 1;
      }
    }

    method DropOne(k: Key)
      requires Sound(history, entries, lru, Limit(), ttl)
      modifies `entries, `lru
      ensures Sound(history, entries, lru, Limit(), ttl)
      ensures Swept(old(entries), entries, Keys({k})) && entries == old(entries) - {k}
    {
      DropKey(entries, k);
      var _ := RemoveIfPresent(k);
      SweptKeyIs(old(entries), entries, k);
    }

    method InvalidateKey(k: Key)
      requires Valid()
      modifies `entries, `lru, `version, `history
      ensures Valid()
      ensures !Enabled() ==> unchanged(this)
      ensures Enabled() ==>
                && Swept(old(entries), entries, Keys({k}))
                && version == old(version) + 1 && history == old(history) + [Struck(Keys({k}))]
      ensures Enabled() ==> entries == old(entries) - {k}
    {
      if !Enabled() {
        return;
      }
      version := version + 1;
      DropOne(k);
      NoneCovered(old(entries), entries, Keys({k}));
      Strike(Keys({k}));
    }

    method InvalidateDatabase(database: int)
      requires Valid()
      modifies `entries, `lru, `version, `history
      ensures Valid()
      ensures !Enabled() ==> unchanged(this)
      ensures Enabled() ==>
                && Swept(old(entries), entries, Database(database))
                && version == old(version) + 1 && history == old(history) + [Struck(Database(database))]
      ensures Enabled() ==>
                entries == map k | k in old(entries) && k.database != database :: old(entries)[k]
    {
      if !Enabled() {
        return;
      }
      version := version + 1;
      Sweep(Database(database));
      Strike(Database(database));
    }

    /** What filling a slot does to the cache. */
    method InvalidateSlot(slot: nat)
      requires Valid() && slot < MAX_SLOT_NUM
      modifies `entries, `lru, `version, `slotVersions, `history
      ensures Valid() && slotVersions == old(slotVersions)[slot := old(slotVersions[slot]) + 1]
      ensures !Enabled() ==>
          entries == old(entries) && lru == old(lru) && version == old(version) && history == old(history)
      ensures Enabled() ==>
                && Swept(old(entries), entries, SlotOf(slot))
                && version == old(version) + 1 && history == old(history) + [Struck(SlotOf(slot))]
      ensures Enabled() ==>
                entries == map k | k in old(entries) && old(entries)[k].slot != slot :: old(entries)[k]
    {
      slotVersions := slotVersions[slot := slotVersions[slot] + 1];
      if !Enabled() {
        return;
      }
      version := version + 1;
      Sweep(SlotOf(slot));
      Strike(SlotOf(slot));
    }

    /** An invalidation sent by another proxy: only configured keys count. */
    method InvalidateRemote(database: int, ks: seq<string>) returns (n: nat)
      requires Valid()
      modifies `entries, `lru, `version, `history
      ensures Valid() && n == |old(entries)| - |entries|
      ensures var hit := RemoteKeys(database, ks, keys);
              if Enabled() && hit != {}
              then Swept(old(entries), entries, Keys(hit)) && version == old(version) + 1
                  && history == old(history) + [Struck(Keys(hit))]
              else unchanged(this)
      ensures Enabled() ==>
                forall k :: k in entries <==>
                  k in old(entries) && !(k.database == database && k.key in ks && k.key in keys)
    {
      n := 0;
      if !Enabled() {
        return;
      }
      var configured := false;
      for i := 0 to |ks|
        invariant configured <==> exists j :: 0 <= j < i && ks[j] in keys
      {
        if ks[i] in keys {
          configured := true;
        }
      }
      RemoteKeysSome(database, ks, keys);
      if !configured {
        return;
      }
      version := version + 1;
      n := RemoveListed(database, ks);
      Strike(Keys(RemoteKeys(database, ks, keys)));
    }

    method RemoveListed(database: int, ks: seq<string>) returns (n: nat)
      requires Sound(history, entries, lru, Limit(), ttl)
      modifies `entries, `lru
      ensures Sound(history, entries, lru, Limit(), ttl) && n == |old(entries)| - |entries|
      ensures Swept(old(entries), entries, Keys(RemoteKeys(database, ks, keys)))
    {
      n := 0;
      for i := 0 to |ks|
        invariant Sound(history, entries, lru, Limit(), ttl) && n == |old(entries)| - |entries|
        invariant Swept(old(entries), entries, Keys(RemoteKeys(database, ks[..i], keys)))
      {
        RemoteKeysNext(database, ks, keys, i);
        if ks[i] !in keys {
          continue;
        }
        var k := Key(database, ks[i]);
        SweptKey(old(entries), entries, RemoteKeys(database, ks[..i], keys), k);
        var m := RemoveIfPresent(k);
        n := n + m;
      }
      assert ks[..|ks|] == ks;
    }
  }

  ghost function RemoteKeys(database: int, ks: seq<string>, configured: set<string>): set<Key> {
    set k | k in ks && k in configured :: Key(database, k)
  }

  lemma RemoteKeysSome(database: int, ks: seq<string>, configured: set<string>)
    ensures RemoteKeys(database, ks, configured) != {} <==> exists j :: 0 <= j < |ks| && ks[j] in configured
  {
    if j :| 0 <= j < |ks| && ks[j] in configured {
      assert Key(database, ks[j]) in RemoteKeys(database, ks, configured);
    }
  }

  lemma RemoteKeysNext(database: int, ks: seq<string>, configured: set<string>, i: nat)
    requires i < |ks|
    ensures RemoteKeys(database, ks[..i + 1], configured)
         == RemoteKeys(database, ks[..i], configured) + if ks[i] in configured then {Key(database, ks[i])} else {}
  {
  }

  lemma SweptKey(was: map<Key, Entry>, entries: map<Key, Entry>, done: set<Key>, k: Key)
    requires Swept(was, entries, Keys(done))
    ensures k in entries ==> Swept(was, entries - {k}, Keys(done + {k}))
    ensures k !in entries ==> Swept(was, entries, Keys(done + {k}))
  {
  }

  lemma DropKey(entries: map<Key, Entry>, k: Key)
    ensures k in entries ==> Swept(entries, entries - {k}, Keys({k}))
    ensures k !in entries ==> Swept(entries, entries, Keys({k}))
  {
  }

  /** Exactly the entries an invalidation covers are gone. */
  lemma SweptKeyIs(was: map<Key, Entry>, entries: map<Key, Entry>, k: Key)
    requires Swept(was, entries, Keys({k}))
    ensures entries == was - {k}
  {
  }

  lemma NoneCovered(was: map<Key, Entry>, entries: map<Key, Entry>, t: Target)
    requires Swept(was, entries, t)
    ensures forall k :: k in entries ==> !Covers(t, k, entries[k].slot)
  {
  }

  lemma RoomHasEntry(h: seq<Event>, was: map<Key, Entry>, entries: map<Key, Entry>, k: Key, e: Entry, limit: int)
    requires MadeRoom(h, was, entries, k, e, limit)
    ensures k in entries && entries[k] == e
  {
  }

  ghost predicate Swept(was: map<Key, Entry>, entries: map<Key, Entry>, t: Target) {
    SweptBut(was, entries, t, {})
  }

  ghost predicate SweptBut(was: map<Key, Entry>, entries: map<Key, Entry>, t: Target, todo: set<Key>) {
    && (forall k :: k in entries ==> k in was && entries[k] == was[k])
    && (forall k :: k in was ==> (k in entries <==> k in todo || !Covers(t, k, was[k].slot)))
    && todo <= was.Keys
  }

  lemma StrikeKeeps(h: seq<Event>, t: Target, entries: map<Key, Entry>, lru: seq<Key>, limit: int, ttl: int)
    requires Sound(h, entries, lru, limit, ttl)
    requires forall k :: k in entries ==> !Covers(t, k, entries[k].slot)
    ensures Sound(h + [Struck(t)], entries, lru, limit, ttl)
    ensures HistoryOk(h) ==> HistoryOk(h + [Struck(t)]) && Strikes(h + [Struck(t)]) == Strikes(h) + 1
  {
  }

  lemma HitIsYoung(h: seq<Event>, entries: map<Key, Entry>, k: Key, now: int, ttl: int)
    requires AllAgree(h, entries, ttl) && k in entries && now < entries[k].expireAt
    ensures Young(h, k, entries[k].value, now, ttl)
  {
  }

  /** The value is the one stored last and not invalidated since, less than the time to live ago. */
  ghost predicate Young(h: seq<Event>, k: Key, value: seq<bv8>, now: int, ttl: int) {
    var s := Live(h, k);
    s.Some? && s.value.value == value && now - s.value.at < ttl
  }

  lemma EvictStep(h: seq<Event>, entries: map<Key, Entry>, lru: seq<Key>, limit: int, ttl: int)
    requires Sound(h, entries, lru, limit + 1, ttl) && |entries| > limit > 0
    ensures |lru| > 0
    ensures var k := lru[|lru| - 1];
            && Sound(h, entries - {k}, Without(lru, k), limit + 1, ttl)
            && |entries - {k}| <= limit && entries - {k} == Evicted(entries, lru, limit)
  {
    SizesAgree(entries, lru);
    RemoveKeeps(h, entries, lru, limit + 1, ttl, lru[|lru| - 1]);
  }

  lemma LastIsLeastUsed(h: seq<Event>, was: map<Key, Entry>, lru: seq<Key>)
    requires SameKeys(was, lru) && ByUse(h, lru) && lru != []
    ensures LeastUsed(h, was, lru[|lru| - 1])
  {
  }

  lemma RoomByLast(h: seq<Event>, was: map<Key, Entry>, order: seq<Key>, k: Key, e: Entry, limit: int)
    requires |was| <= limit && order != []
    requires k !in was && |was| == limit ==> LeastUsed(h, was, order[|order| - 1])
    ensures MadeRoom(h, was, Evicted(was[k := e], order, limit), k, e, limit)
  {
  }

  lemma LastOfOrder(lru: seq<Key>, k: Key)
    requires k !in lru && lru != []
    ensures var order := [k] + Without(lru, k); order[|order| - 1] == lru[|lru| - 1]
  {
  }

  lemma MakesRoom(h: seq<Event>, was: map<Key, Entry>, lru: seq<Key>, k: Key, e: Entry, limit: int)
    requires SameKeys(was, lru) && ByUse(h, lru) && |was| <= limit && limit > 0
    ensures MadeRoom(h, was, Evicted(was[k := e], [k] + Without(lru, k), limit), k, e, limit)
  {
    var order := [k] + Without(lru, k);
    assert k !in was && |was| == limit ==> LeastUsed(h, was, order[|order| - 1]) by {
      if k !in was && |was| == limit {
        SizesAgree(was, lru);
        LastOfOrder(lru, k);
        LastIsLeastUsed(h, was, lru);
      }
    }
    RoomByLast(h, was, order, k, e, limit);
  }

  lemma RoomIsMade(h: seq<Event>, was: map<Key, Entry>, wasLru: seq<Key>, full: map<Key, Entry>, fullLru: seq<Key>,
                   entries: map<Key, Entry>, k: Key, e: Entry, limit: int)
    requires SameKeys(was, wasLru) && ByUse(h, wasLru) && |was| <= limit && limit > 0
    requires full == was[k := e] && fullLru == [k] + Without(wasLru, k) && entries == Evicted(full, fullLru, limit)
    ensures MadeRoom(h, was, entries, k, e, limit)
  {
    MakesRoom(h, was, wasLru, k, e, limit);
  }

  /** A value read under a token and stored with it, with no invalidation in between, is found until its
      time is over. */
  method StoredIsFound(c: HotKeyCache, k: Key, slot: nat, v: seq<bv8>, now: int, later: int)
      returns (value: seq<bv8>, hit: bool)
    requires c.Valid() && c.Enabled() && k.key in c.keys && slot < MAX_SLOT_NUM && |v| <= c.maxValueSize
    requires later < now + c.ttl
    modifies c
    ensures c.Valid() && hit && value == v
  {
    var token := c.IssueToken(k, slot, true);
    c.Store(token, Some(v), true, now);
    value, hit := c.Get(k, later);
  }
}
