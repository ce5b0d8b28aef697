/** The client's in-memory cache: entries expire, and expired ones are removed lazily, on a read
    or by a cleanup. What a caller can observe is compared with the log of all operations. */
module ClientCache {
  import opened Wrappers

  type CacheKey = string

  datatype Entry<+V> = Entry(data: V, methodName: string, expiresAt: real)

  /** `Set` carries the clock reading its expiry was computed from. */
  datatype Operation<+V> =
    | Set(key: CacheKey, methodName: string, data: V, at: real)
    | Invalidate(methodName: string)
    | Clear

  const CLEANUP_INTERVAL := 100

  // ----- the specification: the log of operations -------------------------------------------------

  /** The last store under the key that no later operation covers, expired or not. */
  function Stored<V>(log: seq<Operation<V>>, key: CacheKey, ttl: real): Option<Entry<V>> {
    if log == [] then None
    else
      var earlier := Stored(log[..|log| - 1], key, ttl);
      match log[|log| - 1]
      case Set(k, name, data, at) => if k == key then Some(Entry(data, name, at + ttl)) else earlier
      case Invalidate(name) => if earlier.Some? && earlier.value.methodName == name then None else earlier
      case Clear => None
  }

  /** What a read at `now` should return. */
  function Answer<V>(log: seq<Operation<V>>, key: CacheKey, ttl: real, now: real): Option<V> {
    var stored := Stored(log, key, ttl);
    if stored.Some? && now <= stored.value.expiresAt then Some(stored.value.data) else None
  }

  /** The same, said of the log itself: some store of the key is the last one, is not covered
      by what follows it, and is young enough. */
  ghost predicate AnsweredBy<V>(log: seq<Operation<V>>, key: CacheKey, ttl: real, now: real, i: int) {
    && 0 <= i < |log| && log[i].Set? && log[i].key == key && now <= log[i].at + ttl
    && forall j :: i < j < |log| ==>
         !log[j].Clear? && !(log[j].Set? && log[j].key == key) && !(log[j].Invalidate? && log[j].methodName == log[i].methodName)
  }

  lemma {:induction false} AnswerIff<V(!new)>(log: seq<Operation<V>>, key: CacheKey, ttl: real, now: real)
    ensures Answer(log, key, ttl, now).Some? <==> exists i :: AnsweredBy(log, key, ttl, now, i)
    ensures forall i :: AnsweredBy(log, key, ttl, now, i) ==>
              Answer(log, key, ttl, now) == Some(log[i].data)
              && Stored(log, key, ttl) == Some(Entry(log[i].data, log[i].methodName, log[i].at + ttl))
    decreases |log|
  {
    if log != [] {
      var n := |log| - 1;
      AnswerIff(log[..n], key, ttl, now);
      forall i | AnsweredBy(log, key, ttl, now, i)
        ensures Stored(log, key, ttl) == Some(Entry(log[i].data, log[i].methodName, log[i].at + ttl))
      {
        if i < n { assert AnsweredBy(log[..n], key, ttl, now, i); }
      }
      if Answer(log, key, ttl, now).Some? {
        if log[n].Set? && log[n].key == key {
          assert AnsweredBy(log, key, ttl, now, n);
        } else {
          var i :| AnsweredBy(log[..n], key, ttl, now, i);
          assert AnsweredBy(log, key, ttl, now, i);
        }
      }
    }
  }

  /** The dictionary against the log: every entry is the log's, and an entry that is missing
      had expired by a clock reading already made. */
  ghost predicate Agrees<V(!new)>(entries: map<CacheKey, Entry<V>>, log: seq<Operation<V>>, ttl: real, clock: real) {
    forall key :: AgreesAt(entries, log, ttl, clock, key)
  }

  ghost predicate AgreesAt<V(!new)>(entries: map<CacheKey, Entry<V>>, log: seq<Operation<V>>, ttl: real, clock: real, key: CacheKey) {
    if key in entries then Stored(log, key, ttl) == Some(entries[key])
    else Stored(log, key, ttl).Some? ==> Stored(log, key, ttl).value.expiresAt < clock
  }

  function Later(clock: real, now: real): real {
    if clock < now then now else clock
  }

  function MethodKeys<V>(entries: map<CacheKey, Entry<V>>, methodName: string): set<CacheKey> {
    set key | key in entries && entries[key].methodName == methodName
  }

  class InMemoryCache<V(!new)> {
    const ttl: real
    var entries: map<CacheKey, Entry<V>>
    ghost var log: seq<Operation<V>>
    ghost var clock: real

    ghost predicate Valid()
      reads this
    {
      Agrees(entries, log, ttl, clock)
    }

    constructor (ttl: real)
      ensures Valid() && log == [] && this.ttl == ttl && entries == map[]
    {
      this.ttl, entries, log := ttl, map[], [];
    }

    /** With a clock that does not go back, the answer is the log's, whatever was deleted. */
    method Get(key: CacheKey, now: real) returns (r: Option<V>)
      requires Valid()
      modifies `entries, `clock
      ensures Valid() && clock == Later(old(clock), now)
      ensures entries == if key in old(entries) && old(entries)[key].expiresAt < now then old(entries) - {key} else old(entries)
      ensures old(clock) <= now ==> r == Answer(log, key, ttl, now)
    {
      assert AgreesAt(entries, log, ttl, clock, key);
      clock := Later(clock, now);
      ghost var before := entries;
      if key !in entries {
        r := None;
      } else if now > entries[key].expiresAt {
        entries := entries - {key};
        r := None;
      } else {
        r := Some(entries[key].data);
      }
      forall k
        ensures AgreesAt(entries, log, ttl, clock, k)
      {
        assert AgreesAt(before, log, ttl, old(clock), k);
      }
    }

    method CleanupExpired(now: real)
      requires Valid()
      modifies `entries, `clock
      ensures Valid() && clock == Later(old(clock), now)
      ensures entries == map key | key in old(entries) && now <= old(entries)[key].expiresAt :: old(entries)[key]
    {
      ghost var before := entries;
      var expired := set key | key in entries && now > entries[key].expiresAt;
      entries := entries - expired;
      clock := Later(clock, now);
      forall k
        ensures AgreesAt(entries, log, ttl, clock, k)
      {
        assert AgreesAt(before, log, ttl, old(clock), k);
      }
    }

    /** `cleaning` is the reading a cleanup makes if this store triggers one. */
    method Store(key: CacheKey, methodName: string, data: V, now: real, cleaning: real)
      requires Valid()
      modifies `entries, `log, `clock
      ensures Valid() && log == old(log) + [Set(key, methodName, data, now)]
      ensures old(clock) <= clock <= Later(Later(old(clock), now), cleaning)
      ensures var grown := old(entries)[key := Entry(data, methodName, now + ttl)];
              entries == if |grown| % 100 == 0
                         then map k | k in grown && cleaning <= grown[k].expiresAt :: grown[k]
                         else grown
    {
      ghost var before := log;
      entries := entries[key := Entry(data, methodName, now + ttl)];
      log := log + [Set(key, methodName, data, now)];
      assert log[..|log| - 1] == before;
      forall k
        ensures AgreesAt(entries, log, ttl, clock, k)
      {
        assert AgreesAt(old(entries), before, ttl, old(clock), k);
      }
      if |entries| % CLEANUP_INTERVAL == 0 {
        CleanupExpired(cleaning);
      }
    }

    method ClearAll()
      requires Valid()
      modifies `entries, `log
      ensures Valid() && entries == map[] && log == old(log) + [Clear]
    {
      entries := map[];
      log := log + [Clear];
    }

    method InvalidateMethod(methodName: string) returns (removed: nat)
      requires Valid()
      modifies `entries, `log
      ensures Valid() && log == old(log) + [Invalidate(methodName)]
      ensures removed == |MethodKeys(old(entries), methodName)|
      ensures entries == old(entries) - MethodKeys(old(entries), methodName)
      ensures forall key :: key in entries <==> key in old(entries) && old(entries)[key].methodName != methodName
    {
      ghost var before := log;
      var doomed := MethodKeys(entries, methodName);
      entries := entries - doomed;
      log := log + [Invalidate(methodName)];
      assert log[..|log| - 1] == before;
      forall k
        ensures AgreesAt(entries, log, ttl, clock, k)
      {
        assert AgreesAt(old(entries), before, ttl, clock, k);
      }
      removed := |doomed|;
    }
  }

  // ----- what deletion hides and what it shows --------------------------------------------------------

  /** Two dictionaries that agree with one log, however differently they were cleaned, answer
      every read alike from then on. */
  lemma DeletionInvisible<V(!new)>(entries: map<CacheKey, Entry<V>>, other: map<CacheKey, Entry<V>>, log: seq<Operation<V>>,
                                   ttl: real, clock: real, key: CacheKey, now: real)
    requires Agrees(entries, log, ttl, clock) && Agrees(other, log, ttl, clock) && clock <= now
    ensures (key in entries && now <= entries[key].expiresAt) <==> (key in other && now <= other[key].expiresAt)
    ensures key in entries && now <= entries[key].expiresAt ==> entries[key] == other[key]
    ensures Answer(log, key, ttl, now) == if key in entries && now <= entries[key].expiresAt then Some(entries[key].data) else None
  {
    assert AgreesAt(entries, log, ttl, clock, key);
    assert AgreesAt(other, log, ttl, clock, key);
  }

  function LiveKeys<V>(entries: map<CacheKey, Entry<V>>, methodName: string, now: real): set<CacheKey> {
    set key | key in entries && entries[key].methodName == methodName && now <= entries[key].expiresAt
  }

  /** The number `invalidate` returns is not hidden in the same way: it is at least the number
      of entries a read would still return, and equal exactly when no expired entry of the
      method is waiting to be deleted. */
  lemma InvalidateCountIff<V>(entries: map<CacheKey, Entry<V>>, methodName: string, now: real)
    ensures |MethodKeys(entries, methodName)| >= |LiveKeys(entries, methodName, now)|
    ensures |MethodKeys(entries, methodName)| == |LiveKeys(entries, methodName, now)| <==>
            forall key :: key in entries && entries[key].methodName == methodName ==> now <= entries[key].expiresAt
  {
    var all, live := MethodKeys(entries, methodName), LiveKeys(entries, methodName, now);
    assert live <= all;
    assert all == live + (all - live);
    assert |all| == |live| + |all - live|;
    if exists key :: key in entries && entries[key].methodName == methodName && now > entries[key].expiresAt {
      var key :| key in entries && entries[key].methodName == methodName && now > entries[key].expiresAt;
      assert key in all - live;
    } else {
      assert all - live == {};
    }
  }

  /** And the live entries are the log's, so two caches of one log differ in that number only
      by the expired entries they still hold. */
  lemma LiveKeysAgree<V(!new)>(entries: map<CacheKey, Entry<V>>, other: map<CacheKey, Entry<V>>, log: seq<Operation<V>>,
                               ttl: real, clock: real, methodName: string, now: real)
    requires Agrees(entries, log, ttl, clock) && Agrees(other, log, ttl, clock) && clock <= now
    ensures LiveKeys(entries, methodName, now) == LiveKeys(other, methodName, now)
  {
    forall key
      ensures key in LiveKeys(entries, methodName, now) <==> key in LiveKeys(other, methodName, now)
    {
      DeletionInvisible(entries, other, log, ttl, clock, key, now);
    }
  }

  /** One expired entry, invalidated unread or after a read. */
  method CountExpired(readFirst: bool) returns (removed: nat)
    ensures removed == if readFirst then 0 else 1
  {
    hide Agrees, Stored, Answer;
    var cache := new InMemoryCache<int>(600.0);
    cache.Store("k", "get_profiles", 1, 0.0, 0.0);
    assert cache.entries == map["k" := Entry(1, "get_profiles", 600.0)];
    if readFirst {
      var _ := cache.Get("k", 601.0);
      assert cache.entries == map[];
    }
    assert MethodKeys(cache.entries, "get_profiles") == if readFirst then {} else {"k"};
    removed := cache.InvalidateMethod("get_profiles");
  }

  /** One read of an expired entry changes what a following `invalidate` reports. */
  method ReadChangesCount() returns (unread: nat, read: nat)
    ensures unread == 1 && read == 0
  {
    unread := CountExpired(false);
    read := CountExpired(true);
  }
}
