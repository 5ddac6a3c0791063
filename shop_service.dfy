/** ShopServiceImpl: the shop-specific copies of the three read strategies,
    the envelope writer saveShop2Redis, and the update path that writes the
    database and then invalidates the cache.

    Its reads are the CacheClient strategies with fixed arguments: tombstones
    live 2 minutes, values 30 minutes, rebuilt envelopes 20 seconds, and the
    loader is a lookup of the shop table. Each method is specified by the
    corresponding CacheClient function so instantiated. */
module ShopService {
  import opened Text
  import opened Common
  import opened Redis
  import opened CacheClient

  /** A Shop row: its id (null on an unsaved shop) and the other columns by
      name, a missing column being null. */
  datatype Shop = Shop(id: Option<int>, columns: map<string, string>)

  /** The key prefix queryWithPassThrough and update spell out literally. */
  const LiteralShopKey := "cache:shop:"
  /** The tombstone TTL, in minutes, in this class. */
  const NullTtlMinutes := 2
  /** The TTL of a cached shop: 30 minutes. */
  const ShopTtl := 30
  /** queryWithLogicalExpire resubmits saveShop2Redis(id, 20). */
  const RebuildSeconds := 20
  const NoShopMessage := "店铺不存在"
  const NoIdMessage := "店铺id不能为空"

  /** shopMapper.selectById / getById against the table `db`. */
  function SelectById(db: map<int, Shop>, id: int): Fetched<Shop>
  {
    if id in db then Row(db[id]) else NoRow
  }

  /** getById: the same lookup, as a nullable reference. */
  function GetById(db: map<int, Shop>, id: int): Option<Shop>
  {
    match SelectById(db, id)
    case Row(s) => Some(s)
    case _ => None
  }

  /** updateById(shop): the row with the shop's id, if there is one, takes
      every non-null column of `shop`; other rows are untouched. */
  function UpdateById(db: map<int, Shop>, shop: Shop): map<int, Shop>
    requires shop.id.Some?
  {
    var id := shop.id.value;
    if id in db then db[id := db[id].(columns := db[id].columns + shop.columns)] else db
  }

  /** saveShop2Redis(id, expireSeconds) at time `now`: the envelope of the
      loaded shop (null included) under CACHE_SHOP_KEY + id, with no TTL. */
  function SaveShop(c: Config<Shop>, strings: map<string, Entry>, cacheShopKey: string, db: map<int, Shop>,
                    id: int, expireSeconds: nat, now: int): map<string, Entry>
  {
    PutWithLogicalExpire(c, strings, cacheShopKey + LongText(id), GetById(db, id), expireSeconds, Seconds, now)
  }

  /** queryById's reply for what the logical-expiration read returned. */
  function ByIdReply(shop: Option<Shop>): (r: Reply<Shop>)
    ensures r.Fail? <==> shop.None?
    ensures r.Fail? ==> r.errorMsg == NoShopMessage
    ensures r.Ok? ==> shop == Some(r.data)
  {
    match shop
    case None => Fail(NoShopMessage)
    case Some(s) => Ok(s)
  }

  /** The submitted task saveShop2Redis(id, 20) plus its `finally` unlock is
      the generic rebuild task with a 20-second logical TTL. */
  lemma SaveTaskIsRebuild(c: Config<Shop>, strings: map<string, Entry>, cacheShopKey: string,
                          db: map<int, Shop>, id: int, now: int)
    ensures SaveShop(c, strings, cacheShopKey, db, id, RebuildSeconds, now) - {c.lockShopKey + LongText(id)}
            == Rebuild(c, strings, cacheShopKey + LongText(id), c.lockShopKey + LongText(id),
                       SelectById(db, id), RebuildSeconds, Seconds, now)
  {
  }

  /** saveShop2Redis does not check for a missing shop: it caches an envelope
      whose data is null, and until that envelope expires queryById answers
      "shop does not exist". */
  lemma SaveMissingShopCachesNull(c: Config<Shop>, strings: map<string, Entry>, cacheShopKey: string,
                                  db: map<int, Shop>, id: int, expireSeconds: nat, now: int, later: int)
    requires Faithful(c.envelopes)
    requires id !in db
    requires later < now + expireSeconds
    ensures var after := SaveShop(c, strings, cacheShopKey, db, id, expireSeconds, now);
            LogicalExpire(c, after, cacheShopKey, id, later) == ExpireRead(None, after, false)
  {
    var env := Envelope<Shop>(None, expireSeconds, Seconds, now);
    assert !IsBlank(c.envelopes.encode(env)) && c.envelopes.decode(c.envelopes.encode(env)) == env;
  }

  /** updateById changes only the updated row, and in it only the columns
      the update carries; a missing row is not created. */
  lemma UpdateByIdChangesOneRow(db: map<int, Shop>, shop: Shop, other: int, column: string)
    requires shop.id.Some?
    ensures var after := UpdateById(db, shop);
            && after.Keys == db.Keys
            && (other != shop.id.value && other in db ==> after[other] == db[other])
            && (shop.id.value in db ==>
                  && after[shop.id.value].id == db[shop.id.value].id
                  && (column in shop.columns ==> after[shop.id.value].columns[column] == shop.columns[column])
                  && (column !in shop.columns && column in db[shop.id.value].columns ==>
                        after[shop.id.value].columns[column] == db[shop.id.value].columns[column]))
  {
  }

  /** After update, the pass-through read misses and loads the updated row. */
  lemma UpdateThenPassThroughReloads(c: Config<Shop>, strings: map<string, Entry>, db: map<int, Shop>, shop: Shop)
    requires shop.id.Some? && shop.id.value in db
    ensures var id := shop.id.value;
            var db' := UpdateById(db, shop);
            var o := PassThrough(c, strings - {LiteralShopKey + LongText(id)}, LiteralShopKey, id,
                                 SelectById(db', id), ShopTtl, Minutes);
            o.loads == 1 && o.answer == Found(db'[id])
  {
  }

  /** After update, when CACHE_SHOP_KEY is the literal "cache:shop:",
      queryById of the same id answers "shop does not exist" (the
      logical-expiration read never loads a missing key), whatever the table
      holds, until saveShop2Redis runs again. */
  lemma UpdateThenQueryByIdFails(c: Config<Shop>, strings: map<string, Entry>, id: int, now: int)
    ensures var after := strings - {LiteralShopKey + LongText(id)};
            ByIdReply(LogicalExpire(c, after, LiteralShopKey, id, now).answer) == Fail(NoShopMessage)
  {
  }

  /** ShopServiceImpl. `db` is the shop table; `saves` the ids whose
      saveShop2Redis task is submitted to its executor and not yet run. */
  class Service {
    const redis: Store
    const cacheShopKey: string
    const lockShopKey: string
    const json: Codec<Shop>
    const envelopes: Codec<RedisData<Shop>>
    var db: map<int, Shop>
    var saves: seq<int>

    /** The CacheClient settings this class hard-codes: a 2-minute tombstone. */
    function Settings(): Config<Shop>
    {
      Config(NullTtlMinutes, lockShopKey, json, envelopes)
    }

    constructor (redis: Store, db: map<int, Shop>, cacheShopKey: string, lockShopKey: string,
                 json: Codec<Shop>, envelopes: Codec<RedisData<Shop>>)
      ensures this.redis == redis && this.db == db && this.cacheShopKey == cacheShopKey
      ensures this.lockShopKey == lockShopKey && this.json == json && this.envelopes == envelopes
      ensures saves == []
    {
      this.redis := redis;
      this.db := db;
      this.cacheShopKey := cacheShopKey;
      this.lockShopKey := lockShopKey;
      this.json := json;
      this.envelopes := envelopes;
      saves := [];
    }

    method QueryById(id: int, now: int) returns (r: Reply<Shop>)
      modifies this`saves, redis`strings
      ensures var e := LogicalExpire(Settings(), old(redis.strings), cacheShopKey, id, now);
              && r == ByIdReply(e.answer) && redis.strings == e.strings
              && saves == old(saves) + (if e.submitted then [id] else [])
    {
      var shop := QueryWithLogicalExpire(id, now);
      if shop.None? {
        return Fail(NoShopMessage);
      }
      r := Ok(shop.value);
    }

    method TryLock(key: string) returns (ok: bool)
      modifies redis`strings
      ensures (ok, redis.strings) == Acquire(old(redis.strings), key)
    {
      ok := redis.SetIfAbsent(key, LockValue, LockTtl);
    }

    method Unlock(key: string)
      modifies redis`strings
      ensures redis.strings == old(redis.strings) - {key}
    {
      redis.Delete(key);
    }

    /** Thread.sleep(50): other clients act meanwhile, leaving the keyspace `others`. */
    method Sleep(others: map<string, Entry>)
      modifies redis`strings
      ensures redis.strings == others
    {
      redis.strings := others;
    }

    method QueryWithPassMutex(id: int, schedule: seq<map<string, Entry>>) returns (a: Answer<Shop>)
      modifies redis`strings
      ensures var o := Mutex(Settings(), old(redis.strings), cacheShopKey, id, SelectById(db, id), ShopTtl, Minutes, schedule);
              a == o.answer && redis.strings == o.strings
      decreases |schedule|
    {
      var key := cacheShopKey + LongText(id);
      var shopJson := redis.Get(key);
      if shopJson.Some? && !IsBlank(shopJson.value) {
        return Found(json.decode(shopJson.value));
      }
      if shopJson.Some? {
        return NotFound;
      }
      var lockKey := lockShopKey + LongText(id);
      var gotLock := TryLock(lockKey);
      if !gotLock {
        if schedule == [] {
          return Waiting;
        }
        Sleep(schedule[0]);
        a := QueryWithPassMutex(id, schedule[1..]);
        if a != Waiting {
          Unlock(lockKey);
        }
        return;
      }
      if id !in db {
        redis.Set(key, "", Some(Duration(NullTtlMinutes, Minutes)));
        a := NotFound;
      } else {
        var shop := db[id];
        redis.Set(key, json.encode(shop), Some(Duration(ShopTtl, Minutes)));
        a := Found(shop);
      }
      Unlock(lockKey);
    }

    method SaveShop2Redis(id: int, expireSeconds: nat, now: int)
      modifies redis`strings
      ensures redis.strings == SaveShop(Settings(), old(redis.strings), cacheShopKey, db, id, expireSeconds, now)
    {
      var shop := if id in db then Some(db[id]) else None;
      var data := RedisData(shop, now + expireSeconds);
      redis.Set(cacheShopKey + LongText(id), envelopes.encode(data), None);
    }

    method QueryWithPassThrough(id: int) returns (a: Answer<Shop>)
      modifies redis`strings
      ensures var o := PassThrough(Settings(), old(redis.strings), LiteralShopKey, id, SelectById(db, id), ShopTtl, Minutes);
              a == o.answer && redis.strings == o.strings
    {
      var key := LiteralShopKey + LongText(id);
      var shopJson := redis.Get(key);
      if shopJson.Some? && !IsBlank(shopJson.value) {
        return Found(json.decode(shopJson.value));
      }
      if shopJson.Some? {
        return NotFound;
      }
      if id !in db {
        redis.Set(key, "", Some(Duration(NullTtlMinutes, Minutes)));
        return NotFound;
      }
      var shop := db[id];
      redis.Set(key, json.encode(shop), Some(Duration(ShopTtl, Minutes)));
      a := Found(shop);
    }

    method QueryWithLogicalExpire(id: int, now: int) returns (shop: Option<Shop>)
      modifies this`saves, redis`strings
      ensures var e := LogicalExpire(Settings(), old(redis.strings), cacheShopKey, id, now);
              && shop == e.answer && redis.strings == e.strings
              && saves == old(saves) + (if e.submitted then [id] else [])
    {
      var key := cacheShopKey + LongText(id);
      var json := redis.Get(key);
      if json.None? || IsBlank(json.value) {
        return None;
      }
      var redisData := envelopes.decode(json.value);
      if redisData.expireTime > now {
        return redisData.data;
      }
      var lockKey := lockShopKey + LongText(id);
      var gotLock := TryLock(lockKey);
      if gotLock {
        saves := saves + [id];
      }
      shop := redisData.data;
    }

    /** A pool thread runs the oldest submitted task at time `now`:
        saveShop2Redis(id, 20), then the unlock in `finally`. */
    method RunSave(now: int)
      requires saves != []
      modifies this`saves, redis`strings
      ensures saves == old(saves)[1..]
      ensures var id := old(saves)[0];
              redis.strings == SaveShop(Settings(), old(redis.strings), cacheShopKey, db, id, RebuildSeconds, now)
                               - {lockShopKey + LongText(id)}
    {
      var id := saves[0];
      saves := saves[1..];
      SaveShop2Redis(id, RebuildSeconds, now);
      Unlock(lockShopKey + LongText(id));
    }

    method Update(shop: Shop) returns (r: Reply<()>)
      modifies this`db, redis`strings
      ensures shop.id.None? ==> r == Fail(NoIdMessage) && db == old(db) && redis.strings == old(redis.strings)
      ensures shop.id.Some? ==>
                && r == Ok(())
                && db == UpdateById(old(db), shop)
                && redis.strings == old(redis.strings) - {LiteralShopKey + LongText(shop.id.value)}
    {
      if shop.id.None? {
        return Fail(NoIdMessage);
      }
      var id := shop.id.value;
      if id in db {
        db := db[id := db[id].(columns := db[id].columns + shop.columns)];
      }
      redis.Delete(LiteralShopKey + LongText(id));
      r := Ok(());
    }
  }
}
