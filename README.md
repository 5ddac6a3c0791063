# hmdp cache core in Dafny

This project models the caching layer of hmdp, a Spring Boot review and
shop site that keeps Redis in front of MySQL. Five pieces are covered:

- **`CacheClient`** has three read strategies over Redis string keys.
  - Pass-through caches a blank tombstone for ids the database does not know.
  - Mutex rebuild lets one thread load a missing key under a SET NX lock.
    The others sleep and retry.
  - Logical expiration keeps an envelope with an expiry time. A stale read
    answers the stale value and submits a rebuild to a thread pool.
- **`ShopServiceImpl`** has its own copies of those strategies for shops, plus
  `saveShop2Redis` and `update` (write the database, then delete the cache key).
- **`SimpleRedisLock`** is a named lock. Its token is a process UUID plus the
  thread id, and its release script is assumed to be an atomic
  compare-and-delete.
- **`ShopTypeServiceImpl.queryShopType`** caches the shop-type list as a Redis
  list. A one-element `[""]` list means the table is empty.
- **`BlogServiceImpl.likeBlog` and `isBlogLiked`** form a like/unlike toggle. It
  keeps a per-blog Redis set of user ids in step with the `liked` counter.

Redis is modelled by the `Redis.Store` class, which has a map each for
strings, lists and sets. Each read strategy is written twice:

- as a function from the keyspace before the call, and what the loader
  returns, to the answer and the keyspace after the call;
- as a method of the service class that issues the same store commands one at
  a time, proved equal to that function.

The properties are lemmas about the functions.

Time is an explicit `now` in whole seconds. The loader is a function
`int -> Fetched<R>`: a row, null, or an exception. JSON is a `Codec` pair of
functions. Lemmas that need a round trip assume it holds (`Faithful`): the
JSON of any value is non-blank and decodes back to the value.

`Thread.sleep` in the mutex retry becomes a step to the next element of a
`schedule` of keyspaces. Each element is what other clients left in the store
while this thread slept. An exhausted schedule answers `Waiting`: the thread
has not returned yet.

The rebuild executors are queues of submitted tasks. `RunRebuild` and
`RunSave` run the oldest task.

The constants in `RedisConstants` (`CACHE_NULL_TTL`, `LOCK_SHOP_KEY`,
`CACHE_SHOP_KEY`, `BLOG_LIKED_KEY`) and the script `unlock.lua` are not part of
this model. The constants are parameters, and the script is taken to be an
atomic compare-and-delete of the key against the caller's token.

Two properties of the locks shape what is proved:

- **Lock key.** The rebuild lock is `LOCK_SHOP_KEY + id` whatever the key
  prefix is, so caches with different prefixes share one lock per id
  (`LockSharedAcrossPrefixes`).
- **Unlock.** `CacheClient` and `ShopServiceImpl` unlock with an unconditional
  `delete` (see Findings). Only `SimpleRedisLock` compares tokens before
  deleting.

`ID_PREFIX` is a static field of `SimpleRedisLock`, one random value for the
whole process. The model passes it to each `Lock` object, so two `Lock`
objects of one process share it only when they are given the same UUID.

## Model

| member | source | states |
|---|---|---|
| Text.IsBlankChar | src/main/java/com/hmdp/utils/CacheClient.java:56 | defines the characters Hutool's blank test treats as blank |
| Text.IsBlank | src/main/java/com/hmdp/utils/CacheClient.java:56 | defines StrUtil.isBlank on a non-null string: every character is blank, so "" is blank |
| Text.LongText | src/main/java/com/hmdp/utils/CacheClient.java:54 | defines Long.toString, the text an id contributes to every key |
| Redis.Store.constructor | src/main/java/com/hmdp/utils/CacheClient.java:28-30 | a fresh store is empty and satisfies the no-empty-collection invariant; its fields are public, so a client can be given any keyspace |
| CacheClient.Fill | src/main/java/com/hmdp/utils/CacheClient.java:62-68 | defines the load after a miss: one loader call, then a tombstone, the value's JSON, or no write when it throws |
| CacheClient.PassThrough | src/main/java/com/hmdp/utils/CacheClient.java:52-69 | defines queryWithPassThrough's answer, keyspace and load count; its properties are the PassThrough lemmas |
| CacheClient.Mutex | src/main/java/com/hmdp/utils/CacheClient.java:102-133 | defines queryWithMutex as written, retries and `finally` included; its properties are the Mutex lemmas |
| CacheClient.MutexGuarded | src/main/java/com/hmdp/utils/CacheClient.java:102-133 | defines the corrected mutex read, in which only the attempt that locked releases |
| CacheClient.LogicalExpire | src/main/java/com/hmdp/utils/CacheClient.java:72-100 | defines queryWithLogicalExpire's answer, keyspace and whether it submits a rebuild |
| CacheClient.Rebuild | src/main/java/com/hmdp/utils/CacheClient.java:88-97 | defines the submitted task: reload, write a fresh envelope unless the loader threw, then delete the lock |
| CacheClient.ForeignReleaseAllowsSecondRebuild | src/main/java/com/hmdp/utils/CacheClient.java:85-131 | when a mutex read under another prefix deletes a rebuild's lock in its `finally`, a stale logical-expiration read of the same id submits a second rebuild |
| CacheClient.GuardedBlocksSecondRebuild | src/main/java/com/hmdp/utils/CacheClient.java:85-131 | in that situation the corrected mutex read keeps the lock, and the stale read submits nothing |
| SimpleRedisLock.Acquire | src/main/java/com/hmdp/utils/SimpleRedisLock.java:31-37 | defines tryLock: SET NX of "lock:" + name with the thread's token for timeoutSec seconds |
| SimpleRedisLock.Release | src/main/java/com/hmdp/utils/SimpleRedisLock.java:39-45 | defines unlock: compare-and-delete of "lock:" + name against the thread's token |
| ShopService.UpdateById | src/main/java/com/hmdp/service/impl/ShopServiceImpl.java:208 | defines updateById: the row with the shop's id takes its non-null columns; a missing row is not created |
| ShopService.SaveShop | src/main/java/com/hmdp/service/impl/ShopServiceImpl.java:119-129 | defines saveShop2Redis: the envelope of the looked-up shop, null included, with no TTL |
| ShopTypeService.OrderBySort | src/main/java/com/hmdp/service/impl/ShopTypeServiceImpl.java:63 | defines the ORDER BY sort query result; its properties are OrderBySortSorts |
| ShopTypeService.Query | src/main/java/com/hmdp/service/impl/ShopTypeServiceImpl.java:43-83 | defines queryShopType's reply, the lists afterwards and whether the table is read |
| BlogService.Like | src/main/java/com/hmdp/service/impl/BlogServiceImpl.java:106-127 | defines likeBlog's counters and sets afterwards; its properties are the Like lemmas |
| BlogService.IsLiked | src/main/java/com/hmdp/service/impl/BlogServiceImpl.java:55-60 | defines isBlogLiked's test: the user id is in "blog:liked:" + blog id |
| BlogService.Blog.constructor | src/main/java/com/hmdp/service/impl/BlogServiceImpl.java:55-60 | a blog as isBlogLiked receives it, with its id |
| Redis.Stored | src/main/java/com/hmdp/utils/CacheClient.java:55 | defines GET: the stored string, or null for an absent key |
| Redis.PutIfAbsent | src/main/java/com/hmdp/utils/CacheClient.java:32 | defines SET NX: writes the entry and reports true exactly when the key is absent, otherwise reports false and changes nothing |
| Redis.DeleteIfHolds | src/main/java/com/hmdp/utils/SimpleRedisLock.java:40-44 | defines the unlock script as assumed: the key is removed only while it holds the given token |
| Redis.Members | src/main/java/com/hmdp/service/impl/BlogServiceImpl.java:110 | defines the set SISMEMBER reads, empty for an absent key |
| Redis.WithMember | src/main/java/com/hmdp/service/impl/BlogServiceImpl.java:116 | defines SADD of one member |
| Redis.WithoutMember | src/main/java/com/hmdp/service/impl/BlogServiceImpl.java:123 | defines SREM of one member, dropping the key once its set is empty |
| Redis.Items | src/main/java/com/hmdp/service/impl/ShopTypeServiceImpl.java:46 | defines LRANGE key 0 -1: the whole list, empty for an absent key |
| Redis.Pushed | src/main/java/com/hmdp/service/impl/ShopTypeServiceImpl.java:79 | defines RPUSH of several values: appended in order, a new list created without TTL |
| Redis.Expired | src/main/java/com/hmdp/service/impl/ShopTypeServiceImpl.java:68 | defines EXPIRE on a list: the TTL is set when the key exists, nothing otherwise |
| CacheClient.Acquire | src/main/java/com/hmdp/utils/CacheClient.java:31-34 | defines tryLock: SET NX of "1" with a 10-second TTL, reporting whether it wrote |
| CacheClient.Put | src/main/java/com/hmdp/utils/CacheClient.java:38-40 | defines set: the value's JSON under the key, with the caller's time and unit as TTL |
| CacheClient.Envelope | src/main/java/com/hmdp/utils/CacheClient.java:45-47 | defines the RedisData written: the value and an expireTime of now plus unit.toSeconds(time) |
| CacheClient.PutWithLogicalExpire | src/main/java/com/hmdp/utils/CacheClient.java:43-50 | defines setWithLogicalExpire: the envelope's JSON under the key, with no TTL |
| CacheClient.Tomb | src/main/java/com/hmdp/utils/CacheClient.java:64 | defines the tombstone written for a null load: "" for CACHE_NULL_TTL minutes (line 123 writes the same) |
| SimpleRedisLock.LockKey | src/main/java/com/hmdp/utils/SimpleRedisLock.java:35 | defines KEY_PREFIX + name (KEY_PREFIX is "lock:", line 23), the key tryLock writes and unlock (line 42) deletes |
| SimpleRedisLock.IdPrefix | src/main/java/com/hmdp/utils/SimpleRedisLock.java:24 | defines ID_PREFIX: the UUID text followed by "-" |
| SimpleRedisLock.Token | src/main/java/com/hmdp/utils/SimpleRedisLock.java:32-33 | defines the holder token: ID_PREFIX followed by the thread id as Long.toString renders it |
| ShopService.SelectById | src/main/java/com/hmdp/service/impl/ShopServiceImpl.java:88 | defines shopMapper.selectById: the row with that id, or null (also line 151) |
| ShopService.GetById | src/main/java/com/hmdp/service/impl/ShopServiceImpl.java:121 | defines getById: the same lookup as a nullable shop |
| ShopTypeService.Insert | src/main/java/com/hmdp/service/impl/ShopTypeServiceImpl.java:63 | defines the insertion step of the ORDER BY sort: the row goes before the first row whose sort is not smaller |
| ShopTypeService.Decoded | src/main/java/com/hmdp/service/impl/ShopTypeServiceImpl.java:54-58 | defines the decoded list: element i is JSONUtil.toBean of cached string i, same length |
| ShopTypeService.Encoded | src/main/java/com/hmdp/service/impl/ShopTypeServiceImpl.java:73-77 | defines the encoded list: element i is JSONUtil.toJsonStr of row i, same length |
| BlogService.LikedKey | src/main/java/com/hmdp/service/impl/BlogServiceImpl.java:109 | defines BLOG_LIKED_KEY + id, the key likeBlog reads and writes |
| Text.DigitsShape | src/main/java/com/hmdp/utils/CacheClient.java:54 | the decimal text of an id is non-empty and all digits; it is one character exactly for ids below 10 |
| Text.DigitsInjective | src/main/java/com/hmdp/utils/CacheClient.java:54 | different non-negative ids have different digit strings |
| Text.LongTextSign | src/main/java/com/hmdp/utils/CacheClient.java:54 | the rendered id starts with '-' exactly when the id is negative |
| Text.LongTextInjective | src/main/java/com/hmdp/utils/CacheClient.java:54 | `keyPrefix + id` keys of different ids are different keys (Long.toString is one-to-one) |
| Text.SameSuffixCancels | src/main/java/com/hmdp/utils/CacheClient.java:85 | a data key and a lock key of one id coincide only when the two prefixes do |
| Text.SamePrefixCancels | src/main/java/com/hmdp/utils/SimpleRedisLock.java:33 | two tokens with one ID_PREFIX coincide only when the thread texts do |
| Text.ToSeconds | src/main/java/com/hmdp/utils/CacheClient.java:47 | TimeUnit.toSeconds: the amount itself for seconds, truncated thousandths for milliseconds, truncated millionths and billionths for microseconds and nanoseconds, and exactly amount × 60, × 3600 and × 86400 for minutes, hours and days |
| Text.EmptyIsBlank | src/main/java/com/hmdp/utils/CacheClient.java:59-61 | the empty tombstone string is blank, so a tombstone is never decoded |
| Redis.Store.Get | src/main/java/com/hmdp/utils/CacheClient.java:55 | GET answers the stored value or null |
| Redis.Store.Set | src/main/java/com/hmdp/utils/CacheClient.java:39 | SET overwrites one key with value and TTL, nothing else |
| Redis.Store.SetIfAbsent | src/main/java/com/hmdp/utils/CacheClient.java:32 | SET NX writes exactly when the key is absent and reports whether it wrote |
| Redis.Store.Delete | src/main/java/com/hmdp/utils/CacheClient.java:36 | DEL removes exactly one key |
| Redis.Store.CompareAndDelete | src/main/java/com/hmdp/utils/SimpleRedisLock.java:39-45 | the unlock script deletes the key only while it holds the caller's token, and reports whether it did |
| Redis.Store.Range | src/main/java/com/hmdp/service/impl/ShopTypeServiceImpl.java:46 | LRANGE 0 -1 answers the whole list, empty for an absent key |
| Redis.Store.RightPushAll | src/main/java/com/hmdp/service/impl/ShopTypeServiceImpl.java:67 | RPUSH appends in order, creating a persistent list, and keeps the no-empty-collection invariant |
| Redis.Store.Expire | src/main/java/com/hmdp/service/impl/ShopTypeServiceImpl.java:68 | EXPIRE sets the TTL of an existing list and reports whether the key existed |
| Redis.Store.IsMember | src/main/java/com/hmdp/service/impl/BlogServiceImpl.java:110 | SISMEMBER answers membership, false for an absent key |
| Redis.Store.Add | src/main/java/com/hmdp/service/impl/BlogServiceImpl.java:116 | SADD adds one member and keeps the invariant |
| Redis.Store.Remove | src/main/java/com/hmdp/service/impl/BlogServiceImpl.java:123 | SREM removes one member, drops the key once the set is empty, and keeps the invariant |
| CacheClient.Classify | src/main/java/com/hmdp/utils/CacheClient.java:55-61 | a GET result is a miss exactly when null, a tombstone exactly when blank, and a payload exactly when non-blank |
| CacheClient.PassThroughHit | src/main/java/com/hmdp/utils/CacheClient.java:56-58 | a non-blank cached value is decoded and returned with no load and no write |
| CacheClient.PassThroughTombstone | src/main/java/com/hmdp/utils/CacheClient.java:59-61 | a blank cached value answers null with no load and no write |
| CacheClient.PassThroughMiss | src/main/java/com/hmdp/utils/CacheClient.java:62-68 | on a miss the loader runs once; null caches "" for CACHE_NULL_TTL minutes, a value is cached as JSON with the caller's TTL, and an exception writes nothing |
| CacheClient.TombstoneStopsPenetration | src/main/java/com/hmdp/utils/CacheClient.java:59-65 | after the loader answered null once, later reads answer null without loading, whatever the database now holds |
| CacheClient.FillThenHit | src/main/java/com/hmdp/utils/CacheClient.java:55-58 | after a read loaded r, the next read answers r from the cache without loading |
| CacheClient.LoaderUnusedWithoutLoad | src/main/java/com/hmdp/utils/CacheClient.java:52-69 | a read that does not call the loader does not depend on what it would return |
| CacheClient.MutexLoadsAtMostOnce | src/main/java/com/hmdp/utils/CacheClient.java:102-133 | however often the read retries, it calls the loader at most once, and not at all while still waiting |
| CacheClient.MutexCachedLikePassThrough | src/main/java/com/hmdp/utils/CacheClient.java:104-111 | on a hit or a tombstone the mutex read answers and writes as the pass-through read |
| CacheClient.MutexWinsLock | src/main/java/com/hmdp/utils/CacheClient.java:113-132 | on a miss with the lock free there is a single load under the lock; the cache ends as after a pass-through miss, with the lock released |
| CacheClient.MutexReleasesOnReturn | src/main/java/com/hmdp/utils/CacheClient.java:129-131 | every return after a miss leaves the lock key absent, whether this read loaded, retried or saw an exception |
| CacheClient.MutexReleasesForeignLock | src/main/java/com/hmdp/utils/CacheClient.java:115-131 | a read that lost the lock deletes another thread's lock when its retry returns |
| CacheClient.GuardedWritesOnlyUnderLock | src/main/java/com/hmdp/utils/CacheClient.java:115-131 | the corrected mutex read writes nothing unless it won the lock and loaded |
| CacheClient.GuardedKeepsForeignLock | src/main/java/com/hmdp/utils/CacheClient.java:115-131 | the corrected mutex read leaves another thread's lock in place |
| CacheClient.LogicalExpireBlank | src/main/java/com/hmdp/utils/CacheClient.java:74-78 | an absent or blank key answers null, takes no lock and submits nothing |
| CacheClient.LogicalExpireFresh | src/main/java/com/hmdp/utils/CacheClient.java:79-84 | an envelope expiring strictly after now is served as it is, with no lock |
| CacheClient.LogicalExpireStale | src/main/java/com/hmdp/utils/CacheClient.java:85-99 | a stale envelope is still served; a rebuild is submitted exactly when the lock key was free, and that is the only write |
| CacheClient.SecondStaleReadSubmitsNothing | src/main/java/com/hmdp/utils/CacheClient.java:85-99 | of two stale reads in a row only the first submits a rebuild; both serve the same payload |
| CacheClient.LockSharedAcrossPrefixes | src/main/java/com/hmdp/utils/CacheClient.java:85 | the lock ignores keyPrefix: a stale read under one prefix blocks the rebuild of the same id under another |
| CacheClient.RebuildReleasesLock | src/main/java/com/hmdp/utils/CacheClient.java:88-97 | the rebuild task always releases the lock, and a loader exception leaves the stale envelope |
| CacheClient.RebuildThenFresh | src/main/java/com/hmdp/utils/CacheClient.java:43-50 | after a rebuild at now, reads before now plus the logical TTL serve the new value and submit nothing; the envelope has no store TTL |
| CacheClient.Client.constructor | src/main/java/com/hmdp/utils/CacheClient.java:28-30 | the client starts with no pending rebuilds |
| CacheClient.Client.TryLock | src/main/java/com/hmdp/utils/CacheClient.java:31-34 | tryLock writes "1" with a 10-second TTL exactly when the key is absent |
| CacheClient.Client.Unlock | src/main/java/com/hmdp/utils/CacheClient.java:35-37 | unlock deletes the key unconditionally |
| CacheClient.Client.Set | src/main/java/com/hmdp/utils/CacheClient.java:38-40 | set stores the JSON with the caller's TTL |
| CacheClient.Client.SetWithLogicalExpire | src/main/java/com/hmdp/utils/CacheClient.java:43-50 | the envelope holds the value and now plus unit.toSeconds(time), and is stored with no TTL |
| CacheClient.Client.QueryWithPassThrough | src/main/java/com/hmdp/utils/CacheClient.java:52-69 | the store commands give the answer and keyspace of the pass-through function |
| CacheClient.Client.QueryWithLogicalExpire | src/main/java/com/hmdp/utils/CacheClient.java:72-100 | answer and keyspace as the logical-expiration function; a rebuild task is queued exactly when it took the lock |
| CacheClient.Client.RunRebuild | src/main/java/com/hmdp/utils/CacheClient.java:88-97 | running the oldest queued task writes the reloaded envelope and releases its lock |
| CacheClient.Client.Sleep | src/main/java/com/hmdp/utils/CacheClient.java:118 | while the thread sleeps, other clients may leave any keyspace |
| CacheClient.Client.QueryWithMutex | src/main/java/com/hmdp/utils/CacheClient.java:102-133 | the recursive method gives the answer and keyspace of the as-written mutex function |
| CacheClient.Client.QueryWithMutexGuarded | src/main/java/com/hmdp/utils/CacheClient.java:102-133 | the corrected method gives the answer and keyspace of the guarded mutex function |
| SimpleRedisLock.TokensDistinctAcrossThreads | src/main/java/com/hmdp/utils/SimpleRedisLock.java:32-33 | two threads of one process never share a token |
| SimpleRedisLock.TokensDistinctAcrossProcesses | src/main/java/com/hmdp/utils/SimpleRedisLock.java:24 | two processes with different 32-character UUIDs never share a token |
| SimpleRedisLock.AcquireWritesToken | src/main/java/com/hmdp/utils/SimpleRedisLock.java:31-37 | tryLock succeeds exactly when "lock:" + name is absent, and then stores this thread's token with the timeout in seconds |
| SimpleRedisLock.SecondAcquireFails | src/main/java/com/hmdp/utils/SimpleRedisLock.java:31-37 | while the lock is held, any second tryLock fails and the holder's token stays |
| SimpleRedisLock.AcquireThenRelease | src/main/java/com/hmdp/utils/SimpleRedisLock.java:39-45 | the holder's unlock after its tryLock restores the keyspace |
| SimpleRedisLock.ReleaseByOtherThreadKeepsLock | src/main/java/com/hmdp/utils/SimpleRedisLock.java:39-45 | unlock by another thread leaves a held lock in place |
| SimpleRedisLock.ReleaseTouchesOnlyOwnKey | src/main/java/com/hmdp/utils/SimpleRedisLock.java:39-45 | unlock changes no key but the lock's own |
| SimpleRedisLock.Lock.constructor | src/main/java/com/hmdp/utils/SimpleRedisLock.java:18-21 | the lock keeps its name and store, and its ID_PREFIX is the UUID followed by "-" |
| SimpleRedisLock.Lock.TryLock | src/main/java/com/hmdp/utils/SimpleRedisLock.java:31-37 | tryLock is the SET NX of this thread's token |
| SimpleRedisLock.Lock.Unlock | src/main/java/com/hmdp/utils/SimpleRedisLock.java:39-45 | unlock is the compare-and-delete against this thread's token |
| ShopService.ByIdReply | src/main/java/com/hmdp/service/impl/ShopServiceImpl.java:50-53 | queryById fails with "店铺不存在" exactly when the read answered null, and otherwise returns that shop |
| ShopService.SaveTaskIsRebuild | src/main/java/com/hmdp/service/impl/ShopServiceImpl.java:186-195 | the submitted saveShop2Redis(id, 20) with its unlock is the generic rebuild with a 20-second logical TTL |
| ShopService.SaveMissingShopCachesNull | src/main/java/com/hmdp/service/impl/ShopServiceImpl.java:119-129 | saveShop2Redis of a missing shop caches a null envelope, and reads before it expires answer null |
| ShopService.UpdateByIdChangesOneRow | src/main/java/com/hmdp/service/impl/ShopServiceImpl.java:208 | updateById changes only the shop's own row, and in it only the columns the update carries; it creates no row |
| ShopService.UpdateThenPassThroughReloads | src/main/java/com/hmdp/service/impl/ShopServiceImpl.java:208-210 | after update the pass-through read misses and loads the updated row |
| ShopService.UpdateThenQueryByIdFails | src/main/java/com/hmdp/service/impl/ShopServiceImpl.java:168-173 | after update (CACHE_SHOP_KEY being "cache:shop:"), queryById answers "店铺不存在" until the envelope is saved again |
| ShopService.Service.constructor | src/main/java/com/hmdp/service/impl/ShopServiceImpl.java:32-37 | the service starts with the given table and store and no pending saves |
| ShopService.Service.QueryById | src/main/java/com/hmdp/service/impl/ShopServiceImpl.java:38-54 | queryById is the logical-expiration read under CACHE_SHOP_KEY, and its reply follows ByIdReply |
| ShopService.Service.TryLock | src/main/java/com/hmdp/service/impl/ShopServiceImpl.java:111-114 | tryLock writes "1" with a 10-second TTL exactly when the key is absent |
| ShopService.Service.Unlock | src/main/java/com/hmdp/service/impl/ShopServiceImpl.java:115-117 | unlock deletes the key unconditionally |
| ShopService.Service.Sleep | src/main/java/com/hmdp/service/impl/ShopServiceImpl.java:79 | while the thread sleeps, other clients may leave any keyspace |
| ShopService.Service.QueryWithPassMutex | src/main/java/com/hmdp/service/impl/ShopServiceImpl.java:57-109 | the as-written mutex read with a 2-minute tombstone, a 30-minute value TTL and a table lookup as loader |
| ShopService.Service.SaveShop2Redis | src/main/java/com/hmdp/service/impl/ShopServiceImpl.java:119-129 | it stores the envelope of the loaded shop, null included, expiring expireSeconds after now, with no TTL |
| ShopService.Service.QueryWithPassThrough | src/main/java/com/hmdp/service/impl/ShopServiceImpl.java:132-165 | the pass-through read under "cache:shop:" with a 2-minute tombstone and a 30-minute value TTL |
| ShopService.Service.QueryWithLogicalExpire | src/main/java/com/hmdp/service/impl/ShopServiceImpl.java:168-198 | the logical-expiration read; a saveShop2Redis task is queued exactly when it took the lock |
| ShopService.Service.RunSave | src/main/java/com/hmdp/service/impl/ShopServiceImpl.java:187-195 | the oldest queued task saves a 20-second envelope and releases the lock |
| ShopService.Service.Update | src/main/java/com/hmdp/service/impl/ShopServiceImpl.java:201-212 | a null id fails with "店铺id不能为空" and changes nothing; otherwise the row is updated, "cache:shop:" + id is deleted, and the reply is ok |
| ShopTypeService.InsertAddsOne | src/main/java/com/hmdp/service/impl/ShopTypeServiceImpl.java:63 | inserting a row into the ordered list adds exactly that row |
| ShopTypeService.InsertBounded | src/main/java/com/hmdp/service/impl/ShopTypeServiceImpl.java:63 | insertion introduces no sort value below a common lower bound |
| ShopTypeService.InsertKeepsOrder | src/main/java/com/hmdp/service/impl/ShopTypeServiceImpl.java:63 | insertion keeps the list ordered by sort |
| ShopTypeService.OrderBySortSorts | src/main/java/com/hmdp/service/impl/ShopTypeServiceImpl.java:63 | the query's result is ordered ascending by sort and is a permutation of the table |
| ShopTypeService.DecodeAll | src/main/java/com/hmdp/service/impl/ShopTypeServiceImpl.java:54-58 | the loop decodes every cached string, keeping order and length |
| ShopTypeService.EncodeAll | src/main/java/com/hmdp/service/impl/ShopTypeServiceImpl.java:73-77 | the loop encodes every row, keeping order and length |
| ShopTypeService.BlankHeadFails | src/main/java/com/hmdp/service/impl/ShopTypeServiceImpl.java:48-52 | a cached list with a blank first element fails with "商品分类信息为空！", with no table read and no write, whatever the later elements are |
| ShopTypeService.CachedListServed | src/main/java/com/hmdp/service/impl/ShopTypeServiceImpl.java:48-60 | any other non-empty cached list is returned decoded element by element, with no table read and no write |
| ShopTypeService.MissAnswersSortedTable | src/main/java/com/hmdp/service/impl/ShopTypeServiceImpl.java:62-82 | on a miss the table is read; the reply is ok exactly when the table has rows, and is then the table sorted by sort |
| ShopTypeService.EmptyTableCachesBlank | src/main/java/com/hmdp/service/impl/ShopTypeServiceImpl.java:65-70 | a miss on an empty table stores [""] for 30 minutes and fails; every later call fails without a table read, even once rows exist |
| ShopTypeService.FillThenServe | src/main/java/com/hmdp/service/impl/ShopTypeServiceImpl.java:73-82 | a miss on a non-empty table caches one JSON string per row, in order and with no TTL; later calls return the same list from the cache |
| ShopTypeService.Service.constructor | src/main/java/com/hmdp/service/impl/ShopTypeServiceImpl.java:34-40 | the service keeps its store, codec and table |
| ShopTypeService.Service.QueryShopType | src/main/java/com/hmdp/service/impl/ShopTypeServiceImpl.java:43-83 | the store commands give the reply and lists of the query function and keep the store invariant |
| BlogService.LikeToggles | src/main/java/com/hmdp/service/impl/BlogServiceImpl.java:110-125 | when the blog row exists, a like flips the user's membership and moves the counter by one in the same direction |
| BlogService.LikeMissingBlogChangesNothing | src/main/java/com/hmdp/service/impl/BlogServiceImpl.java:113-124 | when the UPDATE matches no row, neither the counter nor the set changes |
| BlogService.LikeTouchesOnlyCaller | src/main/java/com/hmdp/service/impl/BlogServiceImpl.java:113-123 | a like changes no other blog's counter and no membership other than the caller's in this blog's set |
| BlogService.LikeTwiceRestores | src/main/java/com/hmdp/service/impl/BlogServiceImpl.java:107-127 | two likes by the same user restore both the set and the counter |
| BlogService.LikeKeepsInStep | src/main/java/com/hmdp/service/impl/BlogServiceImpl.java:110-125 | a counter equal to the set's size stays equal after a like |
| BlogService.LikeFlipsIsLiked | src/main/java/com/hmdp/service/impl/BlogServiceImpl.java:55-60 | when BLOG_LIKED_KEY is "blog:liked:", a like on an existing blog flips what isBlogLiked reports for that user |
| BlogService.Service.constructor | src/main/java/com/hmdp/service/impl/BlogServiceImpl.java:33-37 | the service keeps its store, key prefix and counters |
| BlogService.Service.UpdateLiked | src/main/java/com/hmdp/service/impl/BlogServiceImpl.java:113 | the counter UPDATE succeeds exactly when the row exists, and then adds delta to that row only |
| BlogService.Service.LikeBlog | src/main/java/com/hmdp/service/impl/BlogServiceImpl.java:106-127 | likeBlog always replies ok, and its counter and set are those of the like function |
| BlogService.Service.IsBlogLiked | src/main/java/com/hmdp/service/impl/BlogServiceImpl.java:55-60 | isLike becomes true exactly when the user id is in "blog:liked:" + blog id |

## Left out

- Redis.Store.Set: a TTL of zero is stored like any other. Redis rejects `SET ... EX 0` with an error, so `set`, `queryWithPassThrough` or `queryWithMutex` with `time` 0 throws in the program, while the model answers as for a positive TTL.
- Redis.Store.SetIfAbsent: likewise for `SimpleRedisLock.tryLock(0)`, which throws in the program and succeeds in the model.
- Text.Duration: TTL amounts, and the `time`, `timeoutSec` and `expireSeconds` parameters, are natural numbers. The negative `Long` values the source accepts are not modelled; for `setWithLogicalExpire` and `saveShop2Redis` they would write an envelope that is already expired.
- The `log.info` calls have no effect on state or replies and are not modelled.
- Store TTLs are recorded but never enforced: no key expires. Lock expiry, and the expiry races the token check guards against, are therefore not modelled.
- Redis keeps strings, lists and sets in one keyspace, and reports WRONGTYPE on mixed use. Here they are three separate maps.
- Concurrency is not modelled. Other clients act only through the mutex retry's `schedule` and through the rebuild queues.
  - Executor tasks run one at a time, oldest first.
  - A real pool of 10 threads interleaves them with reads.
- `Thread.sleep(50)` is the step to the next schedule element. The `Thread.sleep(200)` calls in `queryWithPassMutex` and `saveShop2Redis` have no effect here. `InterruptedException` is not modelled.
- The mutex retry has no bound in the source. The model follows a finite schedule and answers `Waiting` when it runs out, so non-termination under a lock that is never released is not captured.
- Text.LongText: the generic `ID` of `CacheClient`'s read methods is modelled as a `Long` id rendered by `Long.toString`. For other `ID` types `keyPrefix + id` uses their own `toString`, and `LongTextInjective`'s "different ids give different keys" is proved for `Long` ids only.
- Text.TimeUnit: a TTL given in microseconds or nanoseconds is recorded in its own unit. The conversion the Redis client makes before sending a sub-second TTL is not modelled.
- `Long` ids are unbounded integers. Overflow of `Long`, and the saturation of `TimeUnit.toSeconds` at `Long.MAX_VALUE`, are not modelled.
- `LocalDateTime` is a whole number of seconds, so sub-second precision is lost. The expiry test `isAfter(now)` is a strict `>`.
- JSON is an abstract codec. Hutool's actual JSON format, and decode failures on malformed input, are not modelled. `JSONUtil.toBean` of a malformed envelope would throw.
- Redis replies are never null. A null `Boolean` from `setIfAbsent` or `isMember` inside a pipeline or transaction is not modelled. `BooleanUtil.isFalse(null)` would send `likeBlog` to the unlike branch.
- Database failures are not modelled: `selectById`, `getById`, `updateById` and `update().setSql` never throw. `@Transactional` rollback of `update` is not modelled.
- `UserHolder.getUser()` is never null here: the user id is a method argument. The login interceptors are not part of this model.
- The contents of `unlock.lua` are not part of this model. It is taken to be an atomic compare-and-delete.
- `ShopTypeService.OrderBySort` breaks ties by table order. SQL `ORDER BY sort` leaves the order of equal sort values open, and the lemmas state only sortedness and permutation.
- `SimpleRedisLock.TokensDistinctAcrossProcesses` assumes the two UUIDs differ. Randomness is not modelled.
- `updateById` is modelled as overwriting the non-null columns of the row. MyBatis-Plus field strategies and auto-fill are not modelled.
- `queryHotBlog`, `queryBlogUser` and `queryBlogById` are outside this model, and so are the rest of the repository's services and controllers.

## Findings

| source | as written | input that shows it | evidently intended | confidence | as-written member | corrected member |
|---|---|---|---|---|---|---|
| src/main/java/com/hmdp/utils/CacheClient.java:115-131 | a read that lost `tryLock` retries from inside the `try`, so the `finally` that runs when the retry returns deletes `lockKey` even though this read never acquired it | a logical-expiration rebuild of shop `id` holds `LOCK_SHOP_KEY+id`; thread B reads `id` under another prefix, misses, fails `tryLock` and sleeps; another client fills B's key; B's retry hits the cache and returns, and its `finally` deletes the rebuild's lock; a stale `queryWithLogicalExpire` of `id` then takes the lock and submits a second rebuild while the first still runs (`ForeignReleaseAllowsSecondRebuild`; `MutexReleasesForeignLock` shows the deletion itself) | only the attempt that acquired the lock releases it | medium, not executed | CacheClient.ForeignReleaseAllowsSecondRebuild | CacheClient.GuardedBlocksSecondRebuild |
| src/main/java/com/hmdp/service/impl/ShopServiceImpl.java:76-105 | the same `try`/`finally` around the retry in `queryWithPassMutex` | the same interleaving with B being `queryWithPassMutex`, under `CACHE_SHOP_KEY`, and the rebuild being `CacheClient.queryWithLogicalExpire`'s for the same id under another prefix; both build the lock as `LOCK_SHOP_KEY + id` | only the attempt that acquired the lock releases it | medium, not executed | CacheClient.ForeignReleaseAllowsSecondRebuild | CacheClient.GuardedBlocksSecondRebuild |
