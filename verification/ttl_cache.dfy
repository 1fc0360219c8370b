/**
  The bounded TTL cache. `entries` is the ordered dictionary, oldest touch first; the
  monotonic clock is the `now` each call is given.
 */
module TtlCache {
  import opened Common

  datatype Key = Key(text: string)

  /** A cached response; the cache never looks inside. */
  datatype Payload = Payload(text: string)

  datatype Entry = Entry(key: Key, value: Payload, expiresAt: Time)

  type Entries = seq<Entry>

  datatype Call =
    | Get(key: Key, now: Time)
    | Set(key: Key, value: Payload, now: Time)
    | Invalidate(key: Key, now: Time)
    | Clear(now: Time)

  // ------------------------------------------------------------------
  // The calls, as functions of the entries
  // ------------------------------------------------------------------

  function Keys(s: Entries): set<Key> {
    set i | 0 <= i < |s| :: s[i].key
  }

  function Without(s: Entries, key: Key): Entries {
    if s == [] then []
    else Without(s[..|s| - 1], key) + if s[|s| - 1].key == key then [] else [s[|s| - 1]]
  }

  function Lookup(s: Entries, key: Key): Option<Entry> {
    if s == [] then None
    else if s[|s| - 1].key == key then Some(s[|s| - 1])
    else Lookup(s[..|s| - 1], key)
  }

  predicate IsLive(e: Option<Entry>, now: Time) {
    e.Some? && now < e.value.expiresAt
  }

  /** Drop from the least recently used end down to the ceiling. */
  function Evicted(s: Entries, ceiling: nat): Entries {
    if |s| <= ceiling then s else s[|s| - ceiling..]
  }

  function AfterGet(s: Entries, key: Key, now: Time): Entries {
    var e := Lookup(s, key);
    if e.None? then s
    else if IsLive(e, now) then Without(s, key) + [e.value]
    else Without(s, key)
  }

  function Answer(s: Entries, key: Key, now: Time): Option<Payload> {
    var e := Lookup(s, key);
    if IsLive(e, now) then Some(e.value.value) else None
  }

  function AfterSet(s: Entries, key: Key, value: Payload, now: Time, ttl: Time, ceiling: nat): Entries {
    Evicted(Without(s, key) + [Entry(key, value, now + ttl)], ceiling)
  }

  function After(s: Entries, c: Call, ttl: Time, ceiling: nat): Entries {
    match c
    case Get(key, now) => AfterGet(s, key, now)
    case Set(key, value, now) => AfterSet(s, key, value, now, ttl, ceiling)
    case Invalidate(key, _) => Without(s, key)
    case Clear(_) => []
  }

  /** The entries after a whole trace of calls. */
  function Cached(trace: seq<Call>, ttl: Time, ceiling: nat): Entries {
    if trace == [] then []
    else After(Cached(trace[..|trace| - 1], ttl, ceiling), trace[|trace| - 1], ttl, ceiling)
  }

  predicate DistinctKeys(s: Entries) {
    forall i, j :: 0 <= i < j < |s| ==> s[i].key != s[j].key
  }

  // ------------------------------------------------------------------
  // The object
  // ------------------------------------------------------------------

  datatype ConstructionError = TtlNotPositive | CeilingTooSmall

  class TTLCache {
    const ttl: Time
    const maxEntries: nat
    var entries: Entries
    var hits: nat
    var misses: nat

    ghost predicate Valid()
      reads this
    {
      ttl > 0 && maxEntries >= 1 && DistinctKeys(entries) && |entries| <= maxEntries
    }

    constructor (ttlSeconds: Time, ceiling: nat)
      requires ttlSeconds > 0 && ceiling >= 1
      ensures Valid() && ttl == ttlSeconds && maxEntries == ceiling
      ensures entries == [] && hits == 0 && misses == 0
    {
      ttl, maxEntries, entries, hits, misses := ttlSeconds, ceiling, [], 0, 0;
    }

    method Find(key: Key) returns (i: nat)
      requires Valid()
      ensures i <= |entries|
      ensures i < |entries| ==> entries[i].key == key && Lookup(entries, key) == Some(entries[i])
      ensures i == |entries| ==> Lookup(entries, key).None? && key !in Keys(entries)
      ensures i < |entries| ==> entries[..i] + entries[i + 1..] == Without(entries, key)
    {
      i := 0;
      while i < |entries| && entries[i].key != key
        invariant i <= |entries| && forall j :: 0 <= j < i ==> entries[j].key != key
      {
        i := i + 1;
      }
      if i < |entries| {
        LookupAt(entries, i);
        WithoutAt(entries, i);
      } else {
        LookupNone(entries, key);
      }
    }

    method Get(key: Key, now: Time) returns (r: Option<Payload>)
      requires Valid()
      modifies this`entries, this`hits, this`misses
      ensures Valid()
      ensures r == Answer(old(entries), key, now) && entries == AfterGet(old(entries), key, now)
      ensures hits == old(hits) + (if r.Some? then 1 else 0)
      ensures misses == old(misses) + (if r.None? then 1 else 0)
    {
      var i := Find(key);
      if i == |entries| {
        misses := misses + 1;
        return None;
      }
      var e := entries[i];
      WithoutKeepsDistinct(entries, key);
      entries := entries[..i] + entries[i + 1..];
      if e.expiresAt <= now {
        misses := misses + 1;
        return None;
      }
      entries := entries + [e];
      hits := hits + 1;
      r := Some(e.value);
    }

    method Set(key: Key, value: Payload, now: Time)
      requires Valid()
      modifies this`entries
      ensures Valid()
      ensures entries == AfterSet(old(entries), key, value, now, ttl, maxEntries)
    {
      Invalidate(key);
      entries := entries + [Entry(key, value, now + ttl)];
      Trim();
    }

    /** Pop from the least recently used end while over the ceiling. */
    method Trim()
      modifies this`entries
      ensures entries == Evicted(old(entries), maxEntries)
    {
      ghost var full := entries;
      while |entries| > maxEntries
        invariant Min(|full|, maxEntries) <= |entries| <= |full|
        invariant entries == full[|full| - |entries|..]
      {
        entries := entries[1..];
      }
    }

    method Invalidate(key: Key)
      requires Valid()
      modifies this`entries
      ensures Valid() && entries == Without(old(entries), key)
      ensures key !in Keys(entries)
    {
      var i := Find(key);
      WithoutKeepsDistinct(entries, key);
      if i < |entries| {
        entries := entries[..i] + entries[i + 1..];
      } else {
        WithoutNone(entries, key);
      }
    }

    method Clear()
      requires Valid()
      modifies this`entries
      ensures Valid() && entries == []
    {
      entries := [];
    }
  }

  /** Construction with the argument checks made, in their order. */
  method Construct(ttlSeconds: Time, ceiling: int) returns (r: Result<TTLCache, ConstructionError>)
    ensures ttlSeconds <= 0 ==> r == Err(TtlNotPositive)
    ensures ttlSeconds > 0 && ceiling < 1 ==> r == Err(CeilingTooSmall)
    ensures ttlSeconds > 0 && ceiling >= 1 ==>
              r.Ok? && fresh(r.value) && r.value.Valid() && r.value.entries == []
              && r.value.ttl == ttlSeconds && r.value.maxEntries == ceiling
  {
    if ttlSeconds <= 0 {
      return Err(TtlNotPositive);
    }
    if ceiling < 1 {
      return Err(CeilingTooSmall);
    }
    var cache := new TTLCache(ttlSeconds, ceiling);
    r := Ok(cache);
  }

  // ------------------------------------------------------------------
  // Lookup and removal
  // ------------------------------------------------------------------

  lemma KeysAppend(s: Entries, e: Entry)
    ensures Keys(s + [e]) == Keys(s) + {e.key}
  {
    var t := s + [e];
    assert forall i :: 0 <= i < |s| ==> t[i] == s[i];
    assert t[|s|] == e;
    forall k | k in Keys(s) + {e.key}
      ensures k in Keys(t)
    {
      if k != e.key {
        var i :| 0 <= i < |s| && s[i].key == k;
        assert t[i].key == k;
      }
    }
  }

  lemma {:induction false} LookupNone(s: Entries, key: Key)
    ensures Lookup(s, key).None? <==> key !in Keys(s)
    ensures Lookup(s, key).Some? ==> Lookup(s, key).value in s && Lookup(s, key).value.key == key
  {
    if s != [] {
      LookupNone(s[..|s| - 1], key);
      assert s == s[..|s| - 1] + [s[|s| - 1]];
    }
  }

  lemma {:induction false} LookupAt(s: Entries, i: nat)
    requires DistinctKeys(s) && i < |s|
    ensures Lookup(s, s[i].key) == Some(s[i])
  {
    if i < |s| - 1 {
      LookupAt(s[..|s| - 1], i);
    }
  }

  lemma {:induction false} WithoutNone(s: Entries, key: Key)
    requires key !in Keys(s)
    ensures Without(s, key) == s
  {
    if s != [] {
      assert s == s[..|s| - 1] + [s[|s| - 1]];
      assert forall e <- s[..|s| - 1] :: e in s;
      assert s[|s| - 1] in s;
      WithoutNone(s[..|s| - 1], key);
    }
  }

  lemma {:induction false} WithoutAt(s: Entries, i: nat)
    requires DistinctKeys(s) && i < |s|
    ensures Without(s, s[i].key) == s[..i] + s[i + 1..]
  {
    var n := |s| - 1;
    if i == n {
      assert s[i].key !in Keys(s[..n]);
      WithoutNone(s[..n], s[i].key);
      assert s[i + 1..] == [];
    } else {
      WithoutAt(s[..n], i);
      assert s[..n][..i] + s[..n][i + 1..] + [s[n]] == s[..i] + s[i + 1..];
    }
  }

  lemma WithoutKeepsDistinct(s: Entries, key: Key)
    requires DistinctKeys(s)
    ensures DistinctKeys(Without(s, key)) && key !in Keys(Without(s, key))
    ensures |Without(s, key)| == |s| - if key in Keys(s) then 1 else 0
  {
    if key in Keys(s) {
      var i :| 0 <= i < |s| && s[i].key == key;
      WithoutAt(s, i);
    } else {
      WithoutNone(s, key);
    }
  }

  lemma {:induction false} WithoutMembers(s: Entries, key: Key)
    ensures forall e :: e in Without(s, key) <==> e in s && e.key != key
  {
    if s != [] {
      WithoutMembers(s[..|s| - 1], key);
      assert s == s[..|s| - 1] + [s[|s| - 1]];
    }
  }

  /** Every entry was there before, or is the one just written. */
  lemma AfterMembers(s: Entries, c: Call, ttl: Time, ceiling: nat, e: Entry)
    requires DistinctKeys(s) && e in After(s, c, ttl, ceiling)
    ensures (e in s && !c.Clear? && ((c.Set? || c.Invalidate?) ==> e.key != c.key))
            || (c.Set? && e == Entry(c.key, c.value, c.now + ttl))
  {
    if !c.Clear? {
      WithoutMembers(s, c.key);
      LookupNone(s, c.key);
    }
  }

  /** A key leaves the cache by being written out of it, expiring, being invalidated or cleared. */
  lemma AfterKeeps(s: Entries, c: Call, ttl: Time, ceiling: nat, e: Entry)
    requires DistinctKeys(s) && e in s
    ensures e.key in Keys(After(s, c, ttl, ceiling))
            || c.Clear? || c.Set? || (c.key == e.key && (c.Get? ==> e.expiresAt <= c.now))
  {
    if c.Get? || c.Invalidate? {
      var i :| 0 <= i < |s| && s[i] == e;
      LookupAt(s, i);
      WithoutMembers(s, c.key);
      var t := After(s, c, ttl, ceiling);
      if e.key != c.key {
        assert e in Without(s, c.key);
        if Lookup(s, c.key).Some? {
          assert e in t;
        }
      } else if c.Get? && c.now < e.expiresAt {
        assert t[|t| - 1] == e;
      }
    }
  }
}
