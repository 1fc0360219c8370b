/** The cache against a timed map, against its own touch order, and against a larger cache. */
module CacheTheorems {
  import opened Common
  import opened TtlCache

  // ------------------------------------------------------------------
  // Size and keys
  // ------------------------------------------------------------------

  lemma AppendKeepsDistinct(s: Entries, e: Entry)
    requires DistinctKeys(s) && e.key !in Keys(s)
    ensures DistinctKeys(s + [e])
  {
    assert forall i :: 0 <= i < |s| ==> s[i].key in Keys(s);
  }

  lemma EvictionBounds(s: Entries, ceiling: nat)
    requires DistinctKeys(s)
    ensures DistinctKeys(Evicted(s, ceiling)) && |Evicted(s, ceiling)| <= ceiling
  {
  }

  lemma WriteIsBounded(s: Entries, e: Entry, ceiling: nat)
    requires DistinctKeys(s)
    ensures var kept := Evicted(Without(s, e.key) + [e], ceiling); DistinctKeys(kept) && |kept| <= ceiling
  {
    WithoutKeepsDistinct(s, e.key);
    AppendKeepsDistinct(Without(s, e.key), e);
    EvictionBounds(Without(s, e.key) + [e], ceiling);
  }

  lemma GetIsBounded(s: Entries, key: Key, now: Time, ceiling: nat)
    requires DistinctKeys(s) && |s| <= ceiling
    ensures DistinctKeys(AfterGet(s, key, now)) && |AfterGet(s, key, now)| <= ceiling
  {
    WithoutKeepsDistinct(s, key);
    LookupNone(s, key);
    if IsLive(Lookup(s, key), now) {
      var e := Lookup(s, key).value;
      AppendKeepsDistinct(Without(s, key), e);
      assert exists i :: 0 <= i < |s| && s[i] == e;
    }
  }

  lemma AfterIsBounded(s: Entries, c: Call, ttl: Time, ceiling: nat)
    requires DistinctKeys(s) && |s| <= ceiling
    ensures DistinctKeys(After(s, c, ttl, ceiling)) && |After(s, c, ttl, ceiling)| <= ceiling
  {
    if c.Set? {
      WriteIsBounded(s, Entry(c.key, c.value, c.now + ttl), ceiling);
    } else if c.Get? {
      GetIsBounded(s, c.key, c.now, ceiling);
    } else if c.Invalidate? {
      WithoutKeepsDistinct(s, c.key);
    }
  }

  lemma {:induction false} CachedIsBounded(trace: seq<Call>, ttl: Time, ceiling: nat)
    ensures DistinctKeys(Cached(trace, ttl, ceiling)) && |Cached(trace, ttl, ceiling)| <= ceiling
  {
    if trace != [] {
      CachedIsBounded(trace[..|trace| - 1], ttl, ceiling);
      AfterIsBounded(Cached(trace[..|trace| - 1], ttl, ceiling), trace[|trace| - 1], ttl, ceiling);
    }
  }

  // ------------------------------------------------------------------
  // A hit is the latest write
  // ------------------------------------------------------------------

  /** The latest write of the key not invalidated or cleared since, with its time. */
  function LastWrite(trace: seq<Call>, key: Key): Option<(Payload, Time)> {
    if trace == [] then None
    else
      var c := trace[|trace| - 1];
      if c.Set? && c.key == key then Some((c.value, c.now))
      else if c.Clear? || (c.Invalidate? && c.key == key) then None
      else LastWrite(trace[..|trace| - 1], key)
  }

  /** The entry is the record of that write. */
  ghost predicate Records(e: Entry, write: Option<(Payload, Time)>, ttl: Time) {
    write.Some? && e.value == write.value.0 && e.expiresAt == write.value.1 + ttl
  }

  lemma {:induction false} EntriesAreLastWrites(trace: seq<Call>, ttl: Time, ceiling: nat, e: Entry)
    requires e in Cached(trace, ttl, ceiling)
    ensures Records(e, LastWrite(trace, e.key), ttl)
  {
    var before := trace[..|trace| - 1];
    var c := trace[|trace| - 1];
    CachedIsBounded(before, ttl, ceiling);
    AfterMembers(Cached(before, ttl, ceiling), c, ttl, ceiling, e);
    if !(c.Set? && e == Entry(c.key, c.value, c.now + ttl)) {
      EntriesAreLastWrites(before, ttl, ceiling, e);
    }
  }

  /** A hit returns the latest write of the key, younger than the TTL, not invalidated since. */
  lemma HitIsTheLatestWrite(trace: seq<Call>, ttl: Time, ceiling: nat, key: Key, now: Time)
    requires Answer(Cached(trace, ttl, ceiling), key, now).Some?
    ensures var write := LastWrite(trace, key);
            && write.Some? && now < write.value.1 + ttl
            && Answer(Cached(trace, ttl, ceiling), key, now) == Some(write.value.0)
  {
    LookupNone(Cached(trace, ttl, ceiling), key);
    EntriesAreLastWrites(trace, ttl, ceiling, Lookup(Cached(trace, ttl, ceiling), key).value);
  }

  // ------------------------------------------------------------------
  // Entry order is last-touch order
  // ------------------------------------------------------------------

  /** The key the last call of the trace touched: written, or read and found. */
  function Touch(trace: seq<Call>, ttl: Time, ceiling: nat): Option<Key>
    requires trace != []
  {
    var c := trace[|trace| - 1];
    match c
    case Set(key, _, _) => Some(key)
    case Get(key, now) =>
      if Answer(Cached(trace[..|trace| - 1], ttl, ceiling), key, now).Some? then Some(key) else None
    case _ => None
  }

  /** The distinct other keys touched after the last touch of this one. */
  function TouchedSince(trace: seq<Call>, ttl: Time, ceiling: nat, key: Key): (since: set<Key>)
    ensures key !in since
  {
    if trace == [] then {}
    else
      var touch := Touch(trace, ttl, ceiling);
      var before := trace[..|trace| - 1];
      if touch == Some(key) then {}
      else if touch.Some? then TouchedSince(before, ttl, ceiling, key) + {touch.value}
      else TouchedSince(before, ttl, ceiling, key)
  }

  ghost function Since(trace: seq<Call>, ttl: Time, ceiling: nat): Key -> set<Key> {
    key => TouchedSince(trace, ttl, ceiling, key)
  }

  /** Of any two entries the later one was touched after the earlier one's last touch. */
  ghost predicate InTouchOrder(s: Entries, since: Key -> set<Key>) {
    forall i, j :: 0 <= i < j < |s| ==> s[j].key in since(s[i].key)
  }

  lemma WithoutKeepsOrder(s: Entries, key: Key, since: Key -> set<Key>)
    requires DistinctKeys(s) && InTouchOrder(s, since)
    ensures InTouchOrder(Without(s, key), since)
  {
    if key in Keys(s) {
      var i :| 0 <= i < |s| && s[i].key == key;
      WithoutAt(s, i);
    } else {
      WithoutNone(s, key);
    }
  }

  /** What a call does to the order, given what it touched. */
  lemma AfterKeepsOrder(s: Entries, c: Call, ttl: Time, ceiling: nat, before: Key -> set<Key>, since: Key -> set<Key>)
    requires DistinctKeys(s) && InTouchOrder(s, before)
    requires (c.Set? || (c.Get? && Answer(s, c.key, c.now).Some?)) ==>
               forall k :: k != c.key ==> before(k) + {c.key} <= since(k)
    requires !(c.Set? || (c.Get? && Answer(s, c.key, c.now).Some?)) ==> forall k :: before(k) <= since(k)
    ensures InTouchOrder(After(s, c, ttl, ceiling), since)
  {
    if !c.Clear? {
      WithoutKeepsOrder(s, c.key, before);
      WithoutKeepsDistinct(s, c.key);
      LookupNone(s, c.key);
    }
  }

  lemma {:induction false} EntryOrderIsTouchOrder(trace: seq<Call>, ttl: Time, ceiling: nat)
    ensures InTouchOrder(Cached(trace, ttl, ceiling), Since(trace, ttl, ceiling))
  {
    if trace != [] {
      var before := trace[..|trace| - 1];
      EntryOrderIsTouchOrder(before, ttl, ceiling);
      CachedIsBounded(before, ttl, ceiling);
      AfterKeepsOrder(Cached(before, ttl, ceiling), trace[|trace| - 1], ttl, ceiling,
                      Since(before, ttl, ceiling), Since(trace, ttl, ceiling));
    }
  }

  // ------------------------------------------------------------------
  // A live key is missing only for want of room
  // ------------------------------------------------------------------

  predicate Monotone(trace: seq<Call>) {
    forall i, j :: 0 <= i <= j < |trace| ==> trace[i].now <= trace[j].now
  }

  /** Written within the TTL, and not invalidated since. */
  predicate LiveWrite(trace: seq<Call>, ttl: Time, key: Key, now: Time) {
    LastWrite(trace, key).Some? && now < LastWrite(trace, key).value.1 + ttl
  }

  /** A read leaves its key in the cache exactly when it is answered: what has expired is dropped. */
  lemma AReadKeepsOnlyTheLive(trace: seq<Call>, ttl: Time, ceiling: nat, key: Key, now: Time)
    ensures var before, after := Cached(trace, ttl, ceiling), Cached(trace + [Get(key, now)], ttl, ceiling);
            && (key in Keys(after) <==> Answer(before, key, now).Some?)
            && forall other :: other != key ==> (other in Keys(after) <==> other in Keys(before))
  {
    var s := Cached(trace, ttl, ceiling);
    assert (trace + [Get(key, now)])[..|trace|] == trace;
    KeysWithout(s, key);
    LookupNone(s, key);
    if IsLive(Lookup(s, key), now) {
      KeysAppend(Without(s, key), Lookup(s, key).value);
    }
  }

  lemma KeysAsMany(s: Entries)
    requires DistinctKeys(s)
    ensures |Keys(s)| == |s|
  {
    if s != [] {
      var n := |s| - 1;
      KeysAsMany(s[..n]);
      assert s == s[..n] + [s[n]];
      assert Keys(s) == Keys(s[..n]) + {s[n].key};
    }
  }

  lemma Enough<T>(small: set<T>, large: set<T>)
    requires small <= large
    ensures |small| <= |large|
  {
    assert large == small + (large - small);
  }

  lemma {:induction false} MissingMeansCrowdedOut(trace: seq<Call>, ttl: Time, ceiling: nat, key: Key, now: Time)
    requires Monotone(trace) && (trace != [] ==> trace[|trace| - 1].now <= now)
    requires LiveWrite(trace, ttl, key, now) && key !in Keys(Cached(trace, ttl, ceiling))
    ensures |TouchedSince(trace, ttl, ceiling, key)| >= ceiling
  {
    var before := trace[..|trace| - 1];
    var c := trace[|trace| - 1];
    var s := Cached(before, ttl, ceiling);
    CachedIsBounded(before, ttl, ceiling);
    if c.Set? && c.key == key {
      if ceiling > 0 {
        WrittenIsThere(s, c, ttl, ceiling);
      }
    } else if key in Keys(s) {
      JustEvicted(before, c, ttl, ceiling, key, now);
      assert TouchedSince(trace, ttl, ceiling, key) == TouchedSince(before, ttl, ceiling, key) + {c.key};
    } else {
      LookupNone(s, key);
      assert Touch(trace, ttl, ceiling) != Some(key);
      MissingMeansCrowdedOut(before, ttl, ceiling, key, now);
      Enough(TouchedSince(before, ttl, ceiling, key), TouchedSince(trace, ttl, ceiling, key));
    }
  }

  /** The call that loses a live key is a write of another. */
  lemma JustEvicted(before: seq<Call>, c: Call, ttl: Time, ceiling: nat, key: Key, now: Time)
    requires LiveWrite(before, ttl, key, now) && c.now <= now && !c.Clear?
    requires !(c.Set? && c.key == key) && !(c.Invalidate? && c.key == key)
    requires var s := Cached(before, ttl, ceiling); key in Keys(s) && key !in Keys(After(s, c, ttl, ceiling))
    ensures c.Set? && |TouchedSince(before, ttl, ceiling, key) + {c.key}| >= ceiling
  {
    var s := Cached(before, ttl, ceiling);
    CachedIsBounded(before, ttl, ceiling);
    var i :| 0 <= i < |s| && s[i].key == key;
    EntriesAreLastWrites(before, ttl, ceiling, s[i]);
    AfterKeeps(s, c, ttl, ceiling, s[i]);
    EntryOrderIsTouchOrder(before, ttl, ceiling);
    EvictedKeyIsOldest(s, Since(before, ttl, ceiling), Entry(c.key, c.value, c.now + ttl), ceiling, s[i]);
  }

  lemma WrittenIsThere(s: Entries, c: Call, ttl: Time, ceiling: nat)
    requires c.Set? && ceiling > 0
    ensures c.key in Keys(After(s, c, ttl, ceiling))
  {
    var e := Entry(c.key, c.value, c.now + ttl);
    var kept := After(s, c, ttl, ceiling);
    assert kept[|kept| - 1] == e;
  }

  lemma StillThere(s: Entries, key: Key, e: Entry)
    requires e in s && e.key != key
    ensures e in Without(s, key)
  {
    WithoutMembers(s, key);
  }

  /** The write that loses a key leaves the cache full of keys touched since. */
  lemma EvictedKeyIsOldest(s: Entries, since: Key -> set<Key>, newest: Entry, ceiling: nat, e: Entry)
    requires DistinctKeys(s) && InTouchOrder(s, since) && newest.key != e.key && e in s
    requires e.key !in Keys(Evicted(Without(s, newest.key) + [newest], ceiling))
    ensures |since(e.key) + {newest.key}| >= ceiling
  {
    WriteIsBounded(s, newest, ceiling);
    StillThere(s, newest.key, e);
    WithoutKeepsOrder(s, newest.key, since);
    EvictedFromRest(Without(s, newest.key), since, newest, ceiling, e);
  }

  lemma EvictedFromRest(rest: Entries, since: Key -> set<Key>, newest: Entry, ceiling: nat, e: Entry)
    requires InTouchOrder(rest, since) && e in rest
    requires DistinctKeys(Evicted(rest + [newest], ceiling)) && e.key !in Keys(Evicted(rest + [newest], ceiling))
    ensures |since(e.key) + {newest.key}| >= ceiling
  {
    var i :| 0 <= i < |rest| && rest[i] == e;
    EvictionKeepsTheTail(rest, newest, ceiling, i);
    KeptWereTouched(rest, Evicted(rest + [newest], ceiling), since(e.key) + {newest.key}, newest.key, i);
  }

  lemma KeptWereTouched(rest: Entries, kept: Entries, touched: set<Key>, newest: Key, i: nat)
    requires DistinctKeys(kept) && newest in touched && i < |rest|
    requires forall at :: i < at < |rest| ==> rest[at].key in touched
    requires forall j :: 0 <= j < |kept| ==>
               kept[j].key == newest || exists at :: i < at < |rest| && rest[at].key == kept[j].key
    ensures |touched| >= |kept|
  {
    KeysAsMany(kept);
    Enough(Keys(kept), touched);
  }

  /** What eviction keeps comes after what it drops. */
  lemma EvictionKeepsTheTail(rest: Entries, newest: Entry, ceiling: nat, i: nat)
    requires i < |rest| && rest[i].key !in Keys(Evicted(rest + [newest], ceiling))
    ensures var kept := Evicted(rest + [newest], ceiling);
            && |kept| == ceiling
            && forall j :: 0 <= j < |kept| ==>
                 kept[j].key == newest.key || exists at :: i < at < |rest| && rest[at].key == kept[j].key
  {
    var full := rest + [newest];
    var kept := Evicted(full, ceiling);
    assert full[i] == rest[i];
    assert forall j :: |full| - |kept| <= j < |full| ==> full[j] == kept[j - (|full| - |kept|)];
    assert forall j :: |full| - |kept| <= j < |full| ==> full[j].key in Keys(kept);
    forall j | 0 <= j < |kept|
      ensures kept[j].key == newest.key || exists at :: i < at < |rest| && rest[at].key == kept[j].key
    {
      var at := j + |full| - |kept|;
      assert kept[j] == full[at];
      if at < |rest| {
        assert rest[at].key == kept[j].key;
      }
    }
  }

  // ------------------------------------------------------------------
  // With room to spare the cache is a timed map
  // ------------------------------------------------------------------

  ghost function Written(trace: seq<Call>): set<Key> {
    set c | c in trace && c.Set? :: c.key
  }

  lemma {:induction false} LastWriteWasWritten(trace: seq<Call>, key: Key)
    requires LastWrite(trace, key).Some?
    ensures key in Written(trace)
  {
    var n := |trace| - 1;
    assert trace == trace[..n] + [trace[n]];
    if trace[n].Set? && trace[n].key == key {
      assert trace[n] in trace;
    } else {
      LastWriteWasWritten(trace[..n], key);
    }
  }

  lemma {:induction false} TouchedWasWritten(trace: seq<Call>, ttl: Time, ceiling: nat, key: Key)
    ensures TouchedSince(trace, ttl, ceiling, key) <= Written(trace) - {key}
  {
    if trace != [] {
      var n := |trace| - 1;
      assert trace == trace[..n] + [trace[n]];
      TouchedWasWritten(trace[..n], ttl, ceiling, key);
      var c := trace[n];
      if c.Get? && Answer(Cached(trace[..n], ttl, ceiling), c.key, c.now).Some? {
        HitIsTheLatestWrite(trace[..n], ttl, ceiling, c.key, c.now);
        LastWriteWasWritten(trace[..n], c.key);
      }
    }
  }

  /** While no more keys are ever written than fit, every read is answered as by a timed map. */
  lemma RoomyCacheIsATimedMap(trace: seq<Call>, ttl: Time, ceiling: nat, key: Key, now: Time)
    requires Monotone(trace) && (trace != [] ==> trace[|trace| - 1].now <= now)
    requires |Written(trace)| <= ceiling
    ensures Answer(Cached(trace, ttl, ceiling), key, now)
            == if LiveWrite(trace, ttl, key, now) then Some(LastWrite(trace, key).value.0) else None
  {
    var s := Cached(trace, ttl, ceiling);
    LookupNone(s, key);
    if Lookup(s, key).Some? {
      EntriesAreLastWrites(trace, ttl, ceiling, Lookup(s, key).value);
    } else if LiveWrite(trace, ttl, key, now) {
      MissingMeansCrowdedOut(trace, ttl, ceiling, key, now);
      TouchedWasWritten(trace, ttl, ceiling, key);
      LastWriteWasWritten(trace, key);
      Enough(TouchedSince(trace, ttl, ceiling, key), Written(trace) - {key});
    }
  }

  // ------------------------------------------------------------------
  // A larger cache contains a smaller one
  // ------------------------------------------------------------------

  /** The entries under one of these keys, in order. */
  function Restricted(s: Entries, keys: set<Key>): Entries {
    if s == [] then []
    else Restricted(s[..|s| - 1], keys) + if s[|s| - 1].key in keys then [s[|s| - 1]] else []
  }

  /** The smaller cache is the larger one cut down to its keys, and lags it by the capacity gap at most. */
  ghost predicate Coupled(small: Entries, large: Entries, gap: nat) {
    && DistinctKeys(small) && DistinctKeys(large)
    && small == Restricted(large, Keys(small))
    && |large| <= |small| + gap
  }

  lemma {:induction false} RestrictedWithout(s: Entries, keys: set<Key>, key: Key)
    ensures Restricted(Without(s, key), keys - {key}) == Without(Restricted(s, keys), key)
  {
    if s != [] {
      var n := |s| - 1;
      RestrictedWithout(s[..n], keys, key);
      if s[n].key == key {
        assert Without(s, key) == Without(s[..n], key);
      } else {
        RestrictedAppend(Without(s[..n], key), s[n], keys - {key});
      }
      if s[n].key in keys {
        WithoutAppend(Restricted(s[..n], keys), s[n], key);
      } else {
        assert Restricted(s, keys) == Restricted(s[..n], keys);
      }
    }
  }

  lemma RestrictedAppend(s: Entries, e: Entry, keys: set<Key>)
    ensures Restricted(s + [e], keys) == Restricted(s, keys) + if e.key in keys then [e] else []
  {
    assert (s + [e])[..|s|] == s;
  }

  lemma WithoutAppend(s: Entries, e: Entry, key: Key)
    ensures Without(s + [e], key) == Without(s, key) + if e.key == key then [] else [e]
  {
    assert (s + [e])[..|s|] == s;
  }

  lemma {:induction false} RestrictedMembers(s: Entries, keys: set<Key>)
    ensures forall e :: e in Restricted(s, keys) <==> e in s && e.key in keys
    ensures Keys(s) <= keys ==> Restricted(s, keys) == s
  {
    if s != [] {
      var n := |s| - 1;
      assert s == s[..n] + [s[n]];
      assert s[n] in s && forall e <- s[..n] :: e in s;
      RestrictedMembers(s[..n], keys);
    }
  }

  /** Dropping the oldest entry. */
  lemma {:induction false} RestrictedTail(s: Entries, keys: set<Key>)
    requires s != []
    ensures Restricted(s, keys) == (if s[0].key in keys then [s[0]] else []) + Restricted(s[1..], keys)
  {
    var n := |s| - 1;
    if n > 0 {
      RestrictedTail(s[..n], keys);
      assert s[..n][1..] == s[1..][..n - 1];
    }
  }

  lemma {:induction false} RestrictedDrop(s: Entries, keys: set<Key>, key: Key)
    requires key !in Keys(s)
    ensures Restricted(s, keys - {key}) == Restricted(s, keys) == Restricted(s, keys + {key})
  {
    if s != [] {
      var n := |s| - 1;
      assert s[n] in s && forall e <- s[..n] :: e in s;
      RestrictedDrop(s[..n], keys, key);
    }
  }

  /** What both caches look up is the same entry, whenever the smaller one has it. */
  lemma CoupledLookup(small: Entries, large: Entries, gap: nat, key: Key)
    requires Coupled(small, large, gap)
    ensures Lookup(small, key).Some? ==> Lookup(large, key) == Lookup(small, key)
    ensures Keys(small) <= Keys(large)
  {
    RestrictedMembers(large, Keys(small));
    LookupNone(small, key);
    if Lookup(small, key).Some? {
      var i :| 0 <= i < |large| && large[i] == Lookup(small, key).value;
      LookupAt(large, i);
    }
  }

  lemma CoupledWithout(small: Entries, large: Entries, gap: nat, key: Key)
    requires Coupled(small, large, gap)
    ensures Coupled(Without(small, key), Without(large, key), gap)
    ensures key !in Keys(small) && key in Keys(large) ==> |Without(large, key)| < |Without(small, key)| + gap
  {
    CoupledLookup(small, large, gap, key);
    WithoutKeepsDistinct(small, key);
    WithoutKeepsDistinct(large, key);
    RestrictedWithout(large, Keys(small), key);
    KeysWithout(small, key);
  }

  lemma {:induction false} KeysWithout(s: Entries, key: Key)
    ensures Keys(Without(s, key)) == Keys(s) - {key}
  {
    if s != [] {
      var n := |s| - 1;
      assert s == s[..n] + [s[n]];
      KeysWithout(s[..n], key);
      KeysAppend(s[..n], s[n]);
      KeysAppend(Without(s[..n], key), s[n]);
      if s[n].key == key {
        assert Without(s, key) == Without(s[..n], key);
      }
    }
  }

  lemma CoupledAppend(small: Entries, large: Entries, gap: nat, e: Entry)
    requires Coupled(small, large, gap) && e.key !in Keys(large)
    ensures Coupled(small + [e], large + [e], gap)
  {
    CoupledLookup(small, large, gap, e.key);
    RestrictedAppend(large, e, Keys(small) + {e.key});
    RestrictedDrop(large, Keys(small), e.key);
    KeysAppend(small, e);
  }

  lemma {:induction false} RestrictedFewer(s: Entries, keys: set<Key>, key: Key)
    ensures Restricted(s, keys - {key}) == Without(Restricted(s, keys), key)
    ensures |Restricted(s, keys)| <= |s|
  {
    if s != [] {
      var n := |s| - 1;
      RestrictedFewer(s[..n], keys, key);
      if s[n].key in keys {
        WithoutAppend(Restricted(s[..n], keys), s[n], key);
      } else {
        assert Restricted(s, keys) == Restricted(s[..n], keys);
      }
    }
  }

  /** Dropping the oldest entry is dropping its key. */
  lemma OldestDropped(s: Entries)
    requires DistinctKeys(s) && s != []
    ensures DistinctKeys(s[1..]) && Without(s, s[0].key) == s[1..] && Keys(s[1..]) == Keys(s) - {s[0].key}
  {
    OldestIsWithout(s);
    KeysWithout(s, s[0].key);
  }

  lemma OldestIsWithout(s: Entries)
    requires DistinctKeys(s) && s != []
    ensures Without(s, s[0].key) == s[1..]
  {
    WithoutAt(s, 0);
    assert s[..0] + s[1..] == s[1..];
  }

  /** Only the smaller cache evicts. */
  lemma SmallerEvicts(small: Entries, large: Entries, gap: nat)
    requires Coupled(small, large, gap + 1) && small != [] && |large| < |small| + gap
    ensures Coupled(small[1..], large, gap)
  {
    OldestDropped(small);
    RestrictedFewer(large, Keys(small), small[0].key);
  }

  /** Both evict: the larger one's oldest is the smaller one's oldest, or not in it at all. */
  lemma BothEvict(small: Entries, large: Entries, gap: nat)
    requires Coupled(small, large, gap) && small != [] && large != []
    ensures Coupled(small[1..], large[1..], gap)
  {
    OldestDropped(small);
    OldestDropped(large);
    RestrictedTail(large, Keys(small));
    if large[0].key in Keys(small) {
      assert small == [large[0]] + Restricted(large[1..], Keys(small));
      RestrictedDrop(large[1..], Keys(small), large[0].key);
    } else {
      assert small == Restricted(large[1..], Keys(small));
      RestrictedFewer(large[1..], Keys(small), small[0].key);
    }
  }

  lemma EvictionKeepsCoupled(small: Entries, large: Entries, m: nat, n: nat)
    requires m <= n && |small| <= m + 1 && |large| <= n + 1 && Coupled(small, large, n - m)
    ensures Coupled(Evicted(small, m), Evicted(large, n), n - m)
  {
    if |large| == n + 1 {
      BothEvict(small, large, n - m);
    } else if |small| == m + 1 {
      SmallerEvicts(small, large, n - m);
    }
  }

  lemma AfterKeepsCoupled(small: Entries, large: Entries, c: Call, ttl: Time, m: nat, n: nat)
    requires m <= n && |small| <= m && |large| <= n && Coupled(small, large, n - m)
    ensures Coupled(After(small, c, ttl, m), After(large, c, ttl, n), n - m)
  {
    if c.Clear? {
      assert Keys([]) == {};
    } else {
      CoupledWithout(small, large, n - m, c.key);
      WithoutKeepsDistinct(small, c.key);
      WithoutKeepsDistinct(large, c.key);
      if c.Set? {
        var e := Entry(c.key, c.value, c.now + ttl);
        CoupledAppend(Without(small, c.key), Without(large, c.key), n - m, e);
        EvictionKeepsCoupled(Without(small, c.key) + [e], Without(large, c.key) + [e], m, n);
      } else if c.Get? {
        ReadKeepsCoupled(small, large, n - m, c.key, c.now);
      }
    }
  }

  lemma ReadKeepsCoupled(small: Entries, large: Entries, gap: nat, key: Key, now: Time)
    requires Coupled(small, large, gap)
    ensures Coupled(AfterGet(small, key, now), AfterGet(large, key, now), gap)
  {
    CoupledLookup(small, large, gap, key);
    CoupledWithout(small, large, gap, key);
    WithoutKeepsDistinct(small, key);
    WithoutKeepsDistinct(large, key);
    LookupNone(small, key);
    LookupNone(large, key);
    var e := Lookup(large, key);
    if Lookup(small, key).Some? {
      if IsLive(e, now) {
        CoupledAppend(Without(small, key), Without(large, key), gap, e.value);
      }
    } else {
      WithoutNone(small, key);
      if IsLive(e, now) {
        RestrictedAppend(Without(large, key), e.value, Keys(small));
      }
    }
  }

  /** On the same trace the larger cache contains every entry of the smaller one, in the same order. */
  lemma {:induction false} LargerCacheContainsSmaller(trace: seq<Call>, ttl: Time, m: nat, n: nat)
    requires m <= n
    ensures Coupled(Cached(trace, ttl, m), Cached(trace, ttl, n), n - m)
  {
    if trace == [] {
      assert Keys([]) == {};
    } else {
      var before := trace[..|trace| - 1];
      LargerCacheContainsSmaller(before, ttl, m, n);
      CachedIsBounded(before, ttl, m);
      CachedIsBounded(before, ttl, n);
      AfterKeepsCoupled(Cached(before, ttl, m), Cached(before, ttl, n), trace[|trace| - 1], ttl, m, n);
    }
  }

  /** So it never misses where the smaller one hits, and answers the same. */
  lemma LargerCacheHitsWhereSmallerDoes(trace: seq<Call>, ttl: Time, m: nat, n: nat, key: Key, now: Time)
    requires m <= n && Answer(Cached(trace, ttl, m), key, now).Some?
    ensures Answer(Cached(trace, ttl, n), key, now) == Answer(Cached(trace, ttl, m), key, now)
  {
    LargerCacheContainsSmaller(trace, ttl, m, n);
    CoupledLookup(Cached(trace, ttl, m), Cached(trace, ttl, n), n - m, key);
  }
}
