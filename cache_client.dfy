/** CacheClient: three read strategies over the string keyspace of the store
    (pass-through with null caching, mutex-guarded rebuild, logical expiration
    with a background rebuild), the `set` primitives, and the SET NX lock they
    share.

    Each strategy is given twice: as a function from the keyspace before the
    call (and what the loader returns) to the reply and the keyspace after it,
    and as a method of `Client` that performs the same steps one store command
    at a time and is proved to agree with the function. The lemmas below are
    about the functions. */
module CacheClient {
  import opened Text
  import opened Common
  import opened Redis

  /** What `dbFallback.apply(id)` does: returns an object, returns null, or throws. */
  datatype Fetched<R> = Row(row: R) | NoRow | Failure

  /** What a read returns to its caller: an object, null, an exception (the
      loader's, propagated), or, for the mutex strategy only, nothing yet
      because the lock was still taken when the modelled schedule ran out. */
  datatype Answer<R> = Found(value: R) | NotFound | Raised | Waiting

  /** RedisData: the payload (null when the loader found nothing) and its
      logical expiry, in seconds. */
  datatype RedisData<R> = RedisData(data: Option<R>, expireTime: int)

  /** The three states a GET can report. */
  datatype Lookup = Miss | Tombstone | Payload(json: string)

  /** The client's fixed settings: CACHE_NULL_TTL (minutes), LOCK_SHOP_KEY,
      and JSON for payloads and for envelopes. */
  datatype Config<!R> = Config(cacheNullTtl: nat, lockShopKey: string,
                              json: Codec<R>, envelopes: Codec<RedisData<R>>)

  /** A read's effect: its answer, the string keyspace after it, and how many
      times it called the loader. */
  datatype Outcome<R> = Outcome(answer: Answer<R>, strings: map<string, Entry>, loads: nat)

  /** A logical-expiration read's effect: its answer, the keyspace after it,
      and whether it submitted a rebuild task. */
  datatype ExpireRead<R> = ExpireRead(answer: Option<R>, strings: map<string, Entry>, submitted: bool)

  /** A submitted rebuild: load `id` again, write a fresh envelope to `key`,
      and release `lockKey`. */
  datatype RebuildTask<R> = RebuildTask(key: string, lockKey: string, id: int,
                                        loader: int -> Fetched<R>, time: nat, unit: TimeUnit)

  /** The value and TTL tryLock writes. */
  const LockValue := "1"
  const LockTtl := Duration(10, Seconds)

  /** isNotBlank / `!= null` on the fetched string. */
  function Classify(v: Option<string>): (l: Lookup)
    ensures l.Miss? <==> v.None?
    ensures l.Tombstone? <==> v.Some? && IsBlank(v.value)
    ensures l.Payload? <==> v.Some? && !IsBlank(v.value)
    ensures l.Payload? ==> l.json == v.value
  {
    match v
    case None => Miss
    case Some(s) => if IsBlank(s) then Tombstone else Payload(s)
  }

  /** tryLock(key): SET key "1" NX EX 10. */
  function Acquire(strings: map<string, Entry>, lockKey: string): (bool, map<string, Entry>)
  {
    PutIfAbsent(strings, lockKey, Entry(LockValue, Some(LockTtl)))
  }

  /** set(key, value, time, unit): the JSON of the value, with the caller's TTL. */
  function Put<R>(c: Config<R>, strings: map<string, Entry>, key: string, value: R,
                  time: nat, unit: TimeUnit): map<string, Entry>
  {
    strings[key := Entry(c.json.encode(value), Some(Duration(time, unit)))]
  }

  /** The envelope setWithLogicalExpire writes at time `now`. */
  function Envelope<R>(value: Option<R>, time: nat, unit: TimeUnit, now: int): RedisData<R>
  {
    RedisData(value, now + ToSeconds(time, unit))
  }

  /** setWithLogicalExpire(key, value, time, unit): the JSON envelope, with no TTL. */
  function PutWithLogicalExpire<R>(c: Config<R>, strings: map<string, Entry>, key: string,
                                   value: Option<R>, time: nat, unit: TimeUnit, now: int): map<string, Entry>
  {
    strings[key := Entry(c.envelopes.encode(Envelope(value, time, unit, now)), None)]
  }

  /** The tombstone written for an id the loader does not know. */
  function Tomb<R>(c: Config<R>): Entry
  {
    Entry("", Some(Duration(c.cacheNullTtl, Minutes)))
  }

  /** After a miss: call the loader once, then cache a tombstone or the value. */
  function Fill<R>(c: Config<R>, strings: map<string, Entry>, key: string, fetched: Fetched<R>,
                   time: nat, unit: TimeUnit): Outcome<R>
  {
    match fetched
    case Failure => Outcome(Raised, strings, 1)
    case NoRow => Outcome(NotFound, strings[key := Tomb(c)], 1)
    case Row(r) => Outcome(Found(r), Put(c, strings, key, r, time, unit), 1)
  }

  /** queryWithPassThrough. `fetched` is what the loader returns for `id`. */
  function PassThrough<R>(c: Config<R>, strings: map<string, Entry>, keyPrefix: string, id: int,
                          fetched: Fetched<R>, time: nat, unit: TimeUnit): Outcome<R>
  {
    var key := keyPrefix + LongText(id);
    match Classify(Stored(strings, key))
    case Payload(json) => Outcome(Found(c.json.decode(json)), strings, 0)
    case Tombstone => Outcome(NotFound, strings, 0)
    case Miss => Fill(c, strings, key, fetched, time, unit)
  }

  /** queryWithMutex as written. After a lost tryLock the thread sleeps, and
      the store it then sees is the next element of `schedule` (what other
      clients did meanwhile); the retry's result is returned through the
      `finally`, which deletes the lock key whoever holds it. An exhausted
      schedule stands for a thread still sleeping: it has not returned, so
      no `finally` has run. */
  function Mutex<R>(c: Config<R>, strings: map<string, Entry>, keyPrefix: string, id: int,
                    fetched: Fetched<R>, time: nat, unit: TimeUnit,
                    schedule: seq<map<string, Entry>>): Outcome<R>
    decreases |schedule|
  {
    var key := keyPrefix + LongText(id);
    if !Classify(Stored(strings, key)).Miss? then PassThrough(c, strings, keyPrefix, id, fetched, time, unit)
    else
      var lockKey := c.lockShopKey + LongText(id);
      var (won, locked) := Acquire(strings, lockKey);
      if won then
        var o := Fill(c, locked, key, fetched, time, unit);
        o.(strings := o.strings - {lockKey})
      else if schedule == [] then Outcome(Waiting, strings, 0)
      else
        var o := Mutex(c, schedule[0], keyPrefix, id, fetched, time, unit, schedule[1..]);
        if o.answer.Waiting? then o else o.(strings := o.strings - {lockKey})
  }

  /** queryWithMutex as evidently intended: only the attempt that won the
      lock releases it. */
  function MutexGuarded<R>(c: Config<R>, strings: map<string, Entry>, keyPrefix: string, id: int,
                           fetched: Fetched<R>, time: nat, unit: TimeUnit,
                           schedule: seq<map<string, Entry>>): Outcome<R>
    decreases |schedule|
  {
    var key := keyPrefix + LongText(id);
    if !Classify(Stored(strings, key)).Miss? then PassThrough(c, strings, keyPrefix, id, fetched, time, unit)
    else
      var lockKey := c.lockShopKey + LongText(id);
      var (won, locked) := Acquire(strings, lockKey);
      if won then
        var o := Fill(c, locked, key, fetched, time, unit);
        o.(strings := o.strings - {lockKey})
      else if schedule == [] then Outcome(Waiting, strings, 0)
      else MutexGuarded(c, schedule[0], keyPrefix, id, fetched, time, unit, schedule[1..])
  }

  /** queryWithLogicalExpire at time `now`. The lock key is LOCK_SHOP_KEY + id,
      whatever `keyPrefix` is. */
  function LogicalExpire<R>(c: Config<R>, strings: map<string, Entry>, keyPrefix: string, id: int,
                            now: int): ExpireRead<R>
  {
    var json := Stored(strings, keyPrefix + LongText(id));
    if json.None? || IsBlank(json.value) then ExpireRead(None, strings, false)
    else
      var env := c.envelopes.decode(json.value);
      if env.expireTime > now then ExpireRead(env.data, strings, false)
      else
        var (won, locked) := Acquire(strings, c.lockShopKey + LongText(id));
        ExpireRead(env.data, locked, won)
  }

  /** The body of a rebuild task run at time `now`: reload, write a fresh
      envelope (unless the loader threw), and release the lock in `finally`. */
  function Rebuild<R>(c: Config<R>, strings: map<string, Entry>, key: string, lockKey: string,
                      fetched: Fetched<R>, time: nat, unit: TimeUnit, now: int): map<string, Entry>
  {
    var written :=
      match fetched
      case Failure => strings
      case NoRow => PutWithLogicalExpire(c, strings, key, None, time, unit, now)
      case Row(r) => PutWithLogicalExpire(c, strings, key, Some(r), time, unit, now);
    written - {lockKey}
  }

  // Pass-through

  /** A non-blank cached value is decoded and returned; the loader is not
      called and nothing is written. */
  lemma PassThroughHit<R>(c: Config<R>, strings: map<string, Entry>, keyPrefix: string, id: int,
                          fetched: Fetched<R>, time: nat, unit: TimeUnit)
    requires keyPrefix + LongText(id) in strings
    requires !IsBlank(strings[keyPrefix + LongText(id)].value)
    ensures PassThrough(c, strings, keyPrefix, id, fetched, time, unit)
            == Outcome(Found(c.json.decode(strings[keyPrefix + LongText(id)].value)), strings, 0)
  {
  }

  /** A blank cached value (a tombstone) answers null; the loader is not
      called and nothing is written. */
  lemma PassThroughTombstone<R>(c: Config<R>, strings: map<string, Entry>, keyPrefix: string, id: int,
                                fetched: Fetched<R>, time: nat, unit: TimeUnit)
    requires keyPrefix + LongText(id) in strings
    requires IsBlank(strings[keyPrefix + LongText(id)].value)
    ensures PassThrough(c, strings, keyPrefix, id, fetched, time, unit) == Outcome(NotFound, strings, 0)
  {
  }

  /** On an absent key the loader is called once. Null caches a tombstone for
      CACHE_NULL_TTL minutes, whatever TTL the caller asked for; a value is
      cached as JSON with the caller's TTL; an exception writes nothing. */
  lemma PassThroughMiss<R>(c: Config<R>, strings: map<string, Entry>, keyPrefix: string, id: int,
                           fetched: Fetched<R>, time: nat, unit: TimeUnit)
    requires keyPrefix + LongText(id) !in strings
    ensures var o := PassThrough(c, strings, keyPrefix, id, fetched, time, unit);
            var key := keyPrefix + LongText(id);
            && o.loads == 1
            && (fetched.Failure? ==> o.answer == Raised && o.strings == strings)
            && (fetched.NoRow? ==>
                  o.answer == NotFound
                  && o.strings == strings[key := Entry("", Some(Duration(c.cacheNullTtl, Minutes)))])
            && (fetched.Row? ==>
                  o.answer == Found(fetched.row)
                  && o.strings == strings[key := Entry(c.json.encode(fetched.row), Some(Duration(time, unit)))])
  {
  }

  /** Negative caching: once the loader has answered null for an id, later
      reads answer null without calling the loader, whatever it would now
      return. */
  lemma TombstoneStopsPenetration<R>(c: Config<R>, strings: map<string, Entry>, keyPrefix: string, id: int,
                                     later: Fetched<R>, time: nat, unit: TimeUnit)
    requires keyPrefix + LongText(id) !in strings
    ensures var first := PassThrough(c, strings, keyPrefix, id, NoRow, time, unit);
            var second := PassThrough(c, first.strings, keyPrefix, id, later, time, unit);
            first.loads == 1 && second == Outcome(NotFound, first.strings, 0)
  {
    EmptyIsBlank();
  }

  /** A loaded value is served from the cache afterwards, without a load. */
  lemma FillThenHit<R(!new)>(c: Config<R>, strings: map<string, Entry>, keyPrefix: string, id: int,
                             r: R, later: Fetched<R>, time: nat, unit: TimeUnit)
    requires Faithful(c.json)
    requires keyPrefix + LongText(id) !in strings
    ensures var first := PassThrough(c, strings, keyPrefix, id, Row(r), time, unit);
            var second := PassThrough(c, first.strings, keyPrefix, id, later, time, unit);
            first.answer == Found(r) && second == Outcome(Found(r), first.strings, 0)
  {
    assert !IsBlank(c.json.encode(r)) && c.json.decode(c.json.encode(r)) == r;
  }

  /** What the loader would return matters only to a read that calls it. */
  lemma LoaderUnusedWithoutLoad<R>(c: Config<R>, strings: map<string, Entry>, keyPrefix: string, id: int,
                                   f1: Fetched<R>, f2: Fetched<R>, time: nat, unit: TimeUnit)
    requires PassThrough(c, strings, keyPrefix, id, f1, time, unit).loads == 0
    ensures PassThrough(c, strings, keyPrefix, id, f1, time, unit)
            == PassThrough(c, strings, keyPrefix, id, f2, time, unit)
  {
  }

  // Mutex

  /** A read calls the loader at most once however often it retries, and a
      read still waiting for the lock has not called it. */
  lemma {:induction false} MutexLoadsAtMostOnce<R>(c: Config<R>, strings: map<string, Entry>, keyPrefix: string,
                                                   id: int, fetched: Fetched<R>, time: nat, unit: TimeUnit,
                                                   schedule: seq<map<string, Entry>>)
    ensures var o := Mutex(c, strings, keyPrefix, id, fetched, time, unit, schedule);
            o.loads <= 1 && (o.answer.Waiting? ==> o.loads == 0)
    decreases |schedule|
  {
    var key := keyPrefix + LongText(id);
    var lockKey := c.lockShopKey + LongText(id);
    if Classify(Stored(strings, key)).Miss? && lockKey in strings && schedule != [] {
      MutexLoadsAtMostOnce(c, schedule[0], keyPrefix, id, fetched, time, unit, schedule[1..]);
    }
  }

  /** On a hit or a tombstone the mutex read behaves as the pass-through read. */
  lemma MutexCachedLikePassThrough<R>(c: Config<R>, strings: map<string, Entry>, keyPrefix: string, id: int,
                                      fetched: Fetched<R>, time: nat, unit: TimeUnit,
                                      schedule: seq<map<string, Entry>>)
    requires keyPrefix + LongText(id) in strings
    ensures Mutex(c, strings, keyPrefix, id, fetched, time, unit, schedule)
            == PassThrough(c, strings, keyPrefix, id, fetched, time, unit)
  {
  }

  /** On a miss with the lock free: one load under the lock, without reading
      the cache again; the tombstone or value is written as by pass-through,
      and the lock key is gone afterwards. */
  lemma MutexWinsLock<R>(c: Config<R>, strings: map<string, Entry>, keyPrefix: string, id: int,
                         fetched: Fetched<R>, time: nat, unit: TimeUnit,
                         schedule: seq<map<string, Entry>>)
    requires keyPrefix != c.lockShopKey
    requires keyPrefix + LongText(id) !in strings
    requires c.lockShopKey + LongText(id) !in strings
    ensures Mutex(c, strings, keyPrefix, id, fetched, time, unit, schedule)
            == PassThrough(c, strings, keyPrefix, id, fetched, time, unit)
  {
    var key, lockKey := keyPrefix + LongText(id), c.lockShopKey + LongText(id);
    if key == lockKey {
      SameSuffixCancels(keyPrefix, c.lockShopKey, LongText(id));
    }
    var locked := strings[lockKey := Entry(LockValue, Some(LockTtl))];
    var o := Fill(c, locked, key, fetched, time, unit);
    assert o.strings - {lockKey} == Fill(c, strings, key, fetched, time, unit).strings;
  }

  /** The `finally` runs on every return after a miss: the lock key is absent
      afterwards, whether this read won the lock, retried, or saw the loader
      throw. */
  lemma MutexReleasesOnReturn<R>(c: Config<R>, strings: map<string, Entry>, keyPrefix: string, id: int,
                                 fetched: Fetched<R>, time: nat, unit: TimeUnit,
                                 schedule: seq<map<string, Entry>>)
    requires keyPrefix + LongText(id) !in strings
    ensures var o := Mutex(c, strings, keyPrefix, id, fetched, time, unit, schedule);
            !o.answer.Waiting? ==> c.lockShopKey + LongText(id) !in o.strings
  {
  }

  /** The defect: a read that lost the race for the lock deletes the lock when
      its retry returns. Another thread holds the lock and, while this one
      sleeps, caches the value but has not yet released; the retry hits the
      cache, and this read's `finally` removes the other thread's lock. */
  lemma MutexReleasesForeignLock<R>(c: Config<R>, strings: map<string, Entry>, keyPrefix: string, id: int,
                                    fetched: Fetched<R>, time: nat, unit: TimeUnit,
                                    later: map<string, Entry>)
    requires keyPrefix + LongText(id) !in strings
    requires c.lockShopKey + LongText(id) in strings
    requires keyPrefix + LongText(id) in later && !IsBlank(later[keyPrefix + LongText(id)].value)
    requires c.lockShopKey + LongText(id) in later
    ensures var o := Mutex(c, strings, keyPrefix, id, fetched, time, unit, [later]);
            && o.loads == 0
            && o.answer == Found(c.json.decode(later[keyPrefix + LongText(id)].value))
            && c.lockShopKey + LongText(id) !in o.strings
  {
  }

  /** What the deleted lock lets through. A rebuild of `id` for the cache
      under `p1` holds LOCK_SHOP_KEY + id; a mutex read of the same id under
      `p2` loses the lock, sleeps, finds its key filled by another client and
      returns, deleting the lock in `finally`. A stale logical-expiration read
      under `p1` then takes the lock and submits a second rebuild while the
      first is still running. */
  lemma ForeignReleaseAllowsSecondRebuild<R>(c: Config<R>, strings: map<string, Entry>, p1: string, p2: string,
                                             id: int, fetched: Fetched<R>, time: nat, unit: TimeUnit,
                                             later: map<string, Entry>, now: int)
    requires p1 != c.lockShopKey
    requires p2 + LongText(id) !in strings
    requires c.lockShopKey + LongText(id) in strings
    requires p2 + LongText(id) in later && !IsBlank(later[p2 + LongText(id)].value)
    requires c.lockShopKey + LongText(id) in later
    requires p1 + LongText(id) in later && !IsBlank(later[p1 + LongText(id)].value)
    requires c.envelopes.decode(later[p1 + LongText(id)].value).expireTime <= now
    ensures var o := Mutex(c, strings, p2, id, fetched, time, unit, [later]);
            LogicalExpire(c, o.strings, p1, id, now).submitted
  {
    var lockKey := c.lockShopKey + LongText(id);
    if p1 + LongText(id) == lockKey {
      SameSuffixCancels(p1, c.lockShopKey, LongText(id));
    }
  }

  /** The guarded read never writes unless it won the lock: a read that did
      not call the loader leaves the keyspace as it last found it. */
  lemma {:induction false} GuardedWritesOnlyUnderLock<R>(c: Config<R>, strings: map<string, Entry>, keyPrefix: string,
                                                         id: int, fetched: Fetched<R>, time: nat, unit: TimeUnit,
                                                         schedule: seq<map<string, Entry>>)
    ensures var o := MutexGuarded(c, strings, keyPrefix, id, fetched, time, unit, schedule);
            o.loads == 0 ==> o.strings in [strings] + schedule
    decreases |schedule|
  {
    var key := keyPrefix + LongText(id);
    var lockKey := c.lockShopKey + LongText(id);
    if Classify(Stored(strings, key)).Miss? && lockKey in strings && schedule != [] {
      GuardedWritesOnlyUnderLock(c, schedule[0], keyPrefix, id, fetched, time, unit, schedule[1..]);
      var o := MutexGuarded(c, schedule[0], keyPrefix, id, fetched, time, unit, schedule[1..]);
      if o.loads == 0 {
        assert o.strings in [schedule[0]] + schedule[1..];
        assert [schedule[0]] + schedule[1..] == schedule;
      }
    }
  }

  /** In the situation of MutexReleasesForeignLock the guarded read returns
      the cached value and leaves the other thread's lock in place. */
  lemma GuardedKeepsForeignLock<R>(c: Config<R>, strings: map<string, Entry>, keyPrefix: string, id: int,
                                   fetched: Fetched<R>, time: nat, unit: TimeUnit,
                                   later: map<string, Entry>)
    requires keyPrefix + LongText(id) !in strings
    requires c.lockShopKey + LongText(id) in strings
    requires keyPrefix + LongText(id) in later && !IsBlank(later[keyPrefix + LongText(id)].value)
    requires c.lockShopKey + LongText(id) in later
    ensures MutexGuarded(c, strings, keyPrefix, id, fetched, time, unit, [later])
            == Outcome(Found(c.json.decode(later[keyPrefix + LongText(id)].value)), later, 0)
  {
  }

  /** In the situation of ForeignReleaseAllowsSecondRebuild the guarded read
      leaves the lock in place, so the stale read submits nothing. */
  lemma GuardedBlocksSecondRebuild<R>(c: Config<R>, strings: map<string, Entry>, p1: string, p2: string,
                                      id: int, fetched: Fetched<R>, time: nat, unit: TimeUnit,
                                      later: map<string, Entry>, now: int)
    requires p2 + LongText(id) !in strings
    requires c.lockShopKey + LongText(id) in strings
    requires p2 + LongText(id) in later && !IsBlank(later[p2 + LongText(id)].value)
    requires c.lockShopKey + LongText(id) in later
    ensures var o := MutexGuarded(c, strings, p2, id, fetched, time, unit, [later]);
            !LogicalExpire(c, o.strings, p1, id, now).submitted
  {
  }

  // Logical expiration

  /** An absent or blank key answers null and takes no lock. */
  lemma LogicalExpireBlank<R>(c: Config<R>, strings: map<string, Entry>, keyPrefix: string, id: int, now: int)
    requires keyPrefix + LongText(id) in strings ==> IsBlank(strings[keyPrefix + LongText(id)].value)
    ensures LogicalExpire(c, strings, keyPrefix, id, now) == ExpireRead(None, strings, false)
  {
  }

  /** An envelope whose expiry is strictly after `now` is served as is. */
  lemma LogicalExpireFresh<R>(c: Config<R>, strings: map<string, Entry>, keyPrefix: string, id: int, now: int)
    requires keyPrefix + LongText(id) in strings
    requires !IsBlank(strings[keyPrefix + LongText(id)].value)
    requires c.envelopes.decode(strings[keyPrefix + LongText(id)].value).expireTime > now
    ensures LogicalExpire(c, strings, keyPrefix, id, now)
            == ExpireRead(c.envelopes.decode(strings[keyPrefix + LongText(id)].value).data, strings, false)
  {
  }

  /** An envelope expiring at or before `now` is still served, and a rebuild
      is submitted exactly when this read takes the lock. */
  lemma LogicalExpireStale<R>(c: Config<R>, strings: map<string, Entry>, keyPrefix: string, id: int, now: int)
    requires keyPrefix + LongText(id) in strings
    requires !IsBlank(strings[keyPrefix + LongText(id)].value)
    requires c.envelopes.decode(strings[keyPrefix + LongText(id)].value).expireTime <= now
    ensures var e := LogicalExpire(c, strings, keyPrefix, id, now);
            var lockKey := c.lockShopKey + LongText(id);
            && e.answer == c.envelopes.decode(strings[keyPrefix + LongText(id)].value).data
            && e.submitted == (lockKey !in strings)
            && e.strings == (if e.submitted then strings[lockKey := Entry("1", Some(Duration(10, Seconds)))] else strings)
  {
  }

  /** Two stale reads in a row: both serve the stale payload, and only the
      first submits a rebuild. */
  lemma SecondStaleReadSubmitsNothing<R>(c: Config<R>, strings: map<string, Entry>, keyPrefix: string, id: int,
                                         now: int, now2: int)
    requires keyPrefix != c.lockShopKey
    requires keyPrefix + LongText(id) in strings
    requires !IsBlank(strings[keyPrefix + LongText(id)].value)
    requires c.envelopes.decode(strings[keyPrefix + LongText(id)].value).expireTime <= now
    requires c.envelopes.decode(strings[keyPrefix + LongText(id)].value).expireTime <= now2
    requires c.lockShopKey + LongText(id) !in strings
    ensures var first := LogicalExpire(c, strings, keyPrefix, id, now);
            var second := LogicalExpire(c, first.strings, keyPrefix, id, now2);
            && first.submitted && !second.submitted
            && second.answer == first.answer && second.strings == first.strings
  {
    var key, lockKey := keyPrefix + LongText(id), c.lockShopKey + LongText(id);
    if key == lockKey {
      SameSuffixCancels(keyPrefix, c.lockShopKey, LongText(id));
    }
  }

  /** The lock ignores the key prefix: a stale read of one cache blocks the
      rebuild of the same id in a cache with another prefix. */
  lemma LockSharedAcrossPrefixes<R>(c: Config<R>, strings: map<string, Entry>, p1: string, p2: string, id: int,
                                    now: int)
    requires p1 != c.lockShopKey && p2 != c.lockShopKey
    requires p1 + LongText(id) in strings && !IsBlank(strings[p1 + LongText(id)].value)
    requires p2 + LongText(id) in strings && !IsBlank(strings[p2 + LongText(id)].value)
    requires c.envelopes.decode(strings[p1 + LongText(id)].value).expireTime <= now
    requires c.envelopes.decode(strings[p2 + LongText(id)].value).expireTime <= now
    requires c.lockShopKey + LongText(id) !in strings
    ensures var first := LogicalExpire(c, strings, p1, id, now);
            first.submitted && !LogicalExpire(c, first.strings, p2, id, now).submitted
  {
    var lockKey := c.lockShopKey + LongText(id);
    if p1 + LongText(id) == lockKey {
      SameSuffixCancels(p1, c.lockShopKey, LongText(id));
    }
    if p2 + LongText(id) == lockKey {
      SameSuffixCancels(p2, c.lockShopKey, LongText(id));
    }
  }

  /** A rebuild always releases its lock, even when the loader throws; then
      the stale envelope stays. */
  lemma RebuildReleasesLock<R>(c: Config<R>, strings: map<string, Entry>, key: string, lockKey: string,
                               fetched: Fetched<R>, time: nat, unit: TimeUnit, now: int)
    ensures lockKey !in Rebuild(c, strings, key, lockKey, fetched, time, unit, now)
    ensures fetched.Failure? ==> Rebuild(c, strings, key, lockKey, fetched, time, unit, now) == strings - {lockKey}
  {
  }

  /** After a rebuild at `now` that loaded r, reads until `now + unit.toSeconds(time)`
      (exclusive) serve r and submit nothing; the envelope has no store TTL. */
  lemma RebuildThenFresh<R(!new)>(c: Config<R>, strings: map<string, Entry>, keyPrefix: string, id: int,
                                  r: R, time: nat, unit: TimeUnit, now: int, later: int)
    requires Faithful(c.envelopes)
    requires keyPrefix != c.lockShopKey
    requires later < now + ToSeconds(time, unit)
    ensures var key, lockKey := keyPrefix + LongText(id), c.lockShopKey + LongText(id);
            var after := Rebuild(c, strings, key, lockKey, Row(r), time, unit, now);
            && key in after && after[key].ttl == None
            && LogicalExpire(c, after, keyPrefix, id, later) == ExpireRead(Some(r), after, false)
  {
    var key, lockKey := keyPrefix + LongText(id), c.lockShopKey + LongText(id);
    if key == lockKey {
      SameSuffixCancels(keyPrefix, c.lockShopKey, LongText(id));
    }
    var env := Envelope(Some(r), time, unit, now);
    assert !IsBlank(c.envelopes.encode(env)) && c.envelopes.decode(c.envelopes.encode(env)) == env;
  }

  /** CacheClient, over one payload type. `rebuilds` is the queue of tasks
      submitted to CACHE_REBUILD_EXECUTOR and not yet run. */
  class Client<R> {
    const redis: Store
    const config: Config<R>
    var rebuilds: seq<RebuildTask<R>>

    constructor (redis: Store, config: Config<R>)
      ensures this.redis == redis && this.config == config && rebuilds == []
    {
      this.redis := redis;
      this.config := config;
      rebuilds := [];
    }

    method TryLock(key: string) returns (ok: bool)
      modifies redis`strings
      ensures (ok, redis.strings) == Acquire(old(redis.strings), key)
    {
      ok := redis.SetIfAbsent(key, LockValue, LockTtl);
    }

    method Unlock(key: string)
      modifies redis`strings
      ensures redis.strings == old(redis.strings) - {key}
    {
      redis.Delete(key);
    }

    method Set(key: string, value: R, time: nat, unit: TimeUnit)
      modifies redis`strings
      ensures redis.strings == Put(config, old(redis.strings), key, value, time, unit)
    {
      redis.Set(key, config.json.encode(value), Some(Duration(time, unit)));
    }

    method SetWithLogicalExpire(key: string, value: Option<R>, time: nat, unit: TimeUnit, now: int)
      modifies redis`strings
      ensures redis.strings == PutWithLogicalExpire(config, old(redis.strings), key, value, time, unit, now)
    {
      var data := RedisData(value, now + ToSeconds(time, unit));
      redis.Set(key, config.envelopes.encode(data), None);
    }

    method QueryWithPassThrough(keyPrefix: string, id: int, loader: int -> Fetched<R>,
                                time: nat, unit: TimeUnit) returns (a: Answer<R>)
      modifies redis`strings
      ensures var o := PassThrough(config, old(redis.strings), keyPrefix, id, loader(id), time, unit);
              a == o.answer && redis.strings == o.strings
    {
      var key := keyPrefix + LongText(id);
      var json := redis.Get(key);
      if json.Some? && !IsBlank(json.value) {
        return Found(config.json.decode(json.value));
      }
      if json.Some? {
        return NotFound;
      }
      var r := loader(id);
      match r
      case Failure =>
        a := Raised;
      case NoRow =>
        redis.Set(key, "", Some(Duration(config.cacheNullTtl, Minutes)));
        a := NotFound;
      case Row(v) =>
        Set(key, v, time, unit);
        a := Found(v);
    }

    method QueryWithLogicalExpire(keyPrefix: string, id: int, loader: int -> Fetched<R>,
                                  time: nat, unit: TimeUnit, now: int) returns (a: Option<R>)
      modifies this`rebuilds, redis`strings
      ensures var e := LogicalExpire(config, old(redis.strings), keyPrefix, id, now);
              && a == e.answer && redis.strings == e.strings
              && rebuilds == old(rebuilds) +
                   (if e.submitted
                    then [RebuildTask(keyPrefix + LongText(id), config.lockShopKey + LongText(id), id, loader, time, unit)]
                    else [])
    {
      var key := keyPrefix + LongText(id);
      var json := redis.Get(key);
      if json.None? || IsBlank(json.value) {
        return None;
      }
      var data := config.envelopes.decode(json.value);
      if data.expireTime > now {
        return data.data;
      }
      var lockKey := config.lockShopKey + LongText(id);
      var gotLock := TryLock(lockKey);
      if gotLock {
        rebuilds := rebuilds + [RebuildTask(key, lockKey, id, loader, time, unit)];
      }
      a := data.data;
    }

    /** A pool thread runs the oldest submitted rebuild at time `now`. */
    method RunRebuild(now: int)
      requires rebuilds != []
      modifies this`rebuilds, redis`strings
      ensures rebuilds == old(rebuilds)[1..]
      ensures var t := old(rebuilds)[0];
              redis.strings == Rebuild(config, old(redis.strings), t.key, t.lockKey, t.loader(t.id), t.time, t.unit, now)
    {
      var t := rebuilds[0];
      rebuilds := rebuilds[1..];
      var r := t.loader(t.id);
      match r {
        case Failure =>
        case NoRow =>
          SetWithLogicalExpire(t.key, None, t.time, t.unit, now);
        case Row(v) =>
          SetWithLogicalExpire(t.key, Some(v), t.time, t.unit, now);
      }
      Unlock(t.lockKey);
    }

    /** Thread.sleep(50): other clients act meanwhile, leaving the keyspace `others`. */
    method Sleep(others: map<string, Entry>)
      modifies redis`strings
      ensures redis.strings == others
    {
      redis.strings := others;
    }

    method QueryWithMutex(keyPrefix: string, id: int, loader: int -> Fetched<R>,
                          time: nat, unit: TimeUnit, schedule: seq<map<string, Entry>>) returns (a: Answer<R>)
      modifies redis`strings
      ensures var o := Mutex(config, old(redis.strings), keyPrefix, id, loader(id), time, unit, schedule);
              a == o.answer && redis.strings == o.strings
      decreases |schedule|
    {
      var key := keyPrefix + LongText(id);
      var json := redis.Get(key);
      if json.Some? && !IsBlank(json.value) {
        return Found(config.json.decode(json.value));
      }
      if json.Some? {
        return NotFound;
      }
      var lockKey := config.lockShopKey + LongText(id);
      var isLock := TryLock(lockKey);
      if !isLock {
        if schedule == [] {
          return Waiting;
        }
        Sleep(schedule[0]);
        a := QueryWithMutex(keyPrefix, id, loader, time, unit, schedule[1..]);
        if a != Waiting {
          Unlock(lockKey);
        }
        return;
      }
      var r := loader(id);
      match r {
        case Failure =>
          a := Raised;
        case NoRow =>
          redis.Set(key, "", Some(Duration(config.cacheNullTtl, Minutes)));
          a := NotFound;
        case Row(v) =>
          Set(key, v, time, unit);
          a := Found(v);
      }
      Unlock(lockKey);
    }

    /** queryWithMutex with the release moved to the attempt that locked. */
    method QueryWithMutexGuarded(keyPrefix: string, id: int, loader: int -> Fetched<R>,
                                 time: nat, unit: TimeUnit, schedule: seq<map<string, Entry>>) returns (a: Answer<R>)
      modifies redis`strings
      ensures var o := MutexGuarded(config, old(redis.strings), keyPrefix, id, loader(id), time, unit, schedule);
              a == o.answer && redis.strings == o.strings
      decreases |schedule|
    {
      var key := keyPrefix + LongText(id);
      var json := redis.Get(key);
      if json.Some? && !IsBlank(json.value) {
        return Found(config.json.decode(json.value));
      }
      if json.Some? {
        return NotFound;
      }
      var lockKey := config.lockShopKey + LongText(id);
      var isLock := TryLock(lockKey);
      if !isLock {
        if schedule == [] {
          return Waiting;
        }
        Sleep(schedule[0]);
        a := QueryWithMutexGuarded(keyPrefix, id, loader, time, unit, schedule[1..]);
        return;
      }
      var r := loader(id);
      match r {
        case Failure =>
          a := Raised;
        case NoRow =>
          redis.Set(key, "", Some(Duration(config.cacheNullTtl, Minutes)));
          a := NotFound;
        case Row(v) =>
          Set(key, v, time, unit);
          a := Found(v);
      }
      Unlock(lockKey);
    }
  }
}
