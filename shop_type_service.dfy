/** ShopTypeServiceImpl.queryShopType: the shop-type list cached as a store
    list of JSON strings under "cache:shopType", with a one-element list
    holding "" as the marker that the table is empty. */
module ShopTypeService {
  import opened Text
  import opened Common
  import opened Redis

  /** A row of the shop-type table. */
  datatype ShopType = ShopType(id: int, name: string, icon: string, sort: int)

  const TypeKey := "cache:shopType"
  const EmptyMessage := "商品分类信息为空！"
  /** TTL of the blank marker list. */
  const BlankTtl := Duration(30, Minutes)

  predicate SortedBySort(rows: seq<ShopType>)
  {
    forall i, j :: 0 <= i < j < |rows| ==> rows[i].sort <= rows[j].sort
  }

  /** Places `t` before the first row whose sort is not smaller. */
  function Insert(t: ShopType, rows: seq<ShopType>): seq<ShopType>
  {
    if rows == [] || t.sort <= rows[0].sort then [t] + rows
    else [rows[0]] + Insert(t, rows[1..])
  }

  /** The table as `query().orderByAsc("sort").list()` returns it. */
  function OrderBySort(rows: seq<ShopType>): seq<ShopType>
  {
    if rows == [] then [] else Insert(rows[0], OrderBySort(rows[1..]))
  }

  /** Insert adds `t` and keeps every row it was given. */
  lemma {:induction false} InsertAddsOne(t: ShopType, rows: seq<ShopType>)
    ensures multiset(Insert(t, rows)) == multiset(rows) + multiset{t}
  {
    if rows != [] && t.sort > rows[0].sort {
      InsertAddsOne(t, rows[1..]);
      assert rows == [rows[0]] + rows[1..];
    }
  }

  /** A lower bound on the sort of `t` and of every row bounds the result. */
  lemma {:induction false} InsertBounded(t: ShopType, rows: seq<ShopType>, low: int)
    requires low <= t.sort
    requires forall i :: 0 <= i < |rows| ==> low <= rows[i].sort
    ensures forall i :: 0 <= i < |Insert(t, rows)| ==> low <= Insert(t, rows)[i].sort
  {
    if rows != [] && t.sort > rows[0].sort {
      InsertBounded(t, rows[1..], low);
    }
  }

  lemma {:induction false} InsertKeepsOrder(t: ShopType, rows: seq<ShopType>)
    requires SortedBySort(rows)
    ensures SortedBySort(Insert(t, rows))
  {
    if rows != [] && t.sort > rows[0].sort {
      InsertKeepsOrder(t, rows[1..]);
      InsertBounded(t, rows[1..], rows[0].sort);
    }
  }

  /** The query's ORDER BY: the rows come back sorted by `sort`, and they are
      exactly the table's rows. */
  lemma {:induction false} OrderBySortSorts(rows: seq<ShopType>)
    ensures SortedBySort(OrderBySort(rows))
    ensures multiset(OrderBySort(rows)) == multiset(rows)
    ensures |OrderBySort(rows)| == |rows|
  {
    if rows != [] {
      OrderBySortSorts(rows[1..]);
      InsertKeepsOrder(rows[0], OrderBySort(rows[1..]));
      InsertAddsOne(rows[0], OrderBySort(rows[1..]));
      assert rows == [rows[0]] + rows[1..];
    }
    assert |multiset(OrderBySort(rows))| == |OrderBySort(rows)|;
  }

  /** The cached strings read back as shop types, element by element. */
  function Decoded(json: Codec<ShopType>, typeJson: seq<string>): seq<ShopType>
  {
    seq(|typeJson|, i requires 0 <= i < |typeJson| => json.decode(typeJson[i]))
  }

  /** The shop types written out as JSON strings, element by element. */
  function Encoded(json: Codec<ShopType>, typeList: seq<ShopType>): seq<string>
  {
    seq(|typeList|, i requires 0 <= i < |typeList| => json.encode(typeList[i]))
  }

  /** The loop turning the cached strings into shop types. */
  method DecodeAll(json: Codec<ShopType>, typeJson: seq<string>) returns (typeList: seq<ShopType>)
    ensures |typeList| == |typeJson|
    ensures forall i :: 0 <= i < |typeJson| ==> typeList[i] == json.decode(typeJson[i])
  {
    typeList := [];
    for i := 0 to |typeJson|
      invariant |typeList| == i
      invariant forall k :: 0 <= k < i ==> typeList[k] == json.decode(typeJson[k])
    {
      typeList := typeList + [json.decode(typeJson[i])];
    }
  }

  /** The loop turning the table's rows into JSON strings. */
  method EncodeAll(json: Codec<ShopType>, typeList: seq<ShopType>) returns (shopTypeList: seq<string>)
    ensures |shopTypeList| == |typeList|
    ensures forall i :: 0 <= i < |typeList| ==> shopTypeList[i] == json.encode(typeList[i])
  {
    shopTypeList := [];
    for i := 0 to |typeList|
      invariant |shopTypeList| == i
      invariant forall k :: 0 <= k < i ==> shopTypeList[k] == json.encode(typeList[k])
    {
      shopTypeList := shopTypeList + [json.encode(typeList[i])];
    }
  }

  /** What one queryShopType call answers, the lists afterwards, and whether it
      read the table. */
  datatype TypeRead = TypeRead(reply: Reply<seq<ShopType>>, lists: map<string, ListEntry>, queried: bool)

  function Query(json: Codec<ShopType>, lists: map<string, ListEntry>, table: seq<ShopType>): TypeRead
  {
    var typeJson := Items(lists, TypeKey);
    if typeJson != [] then
      if IsBlank(typeJson[0]) then TypeRead(Fail(EmptyMessage), lists, false)
      else TypeRead(Ok(Decoded(json, typeJson)), lists, false)
    else
      var typeList := OrderBySort(table);
      if typeList == [] then
        TypeRead(Fail(EmptyMessage), Expired(Pushed(lists, TypeKey, [""]), TypeKey, BlankTtl), true)
      else
        TypeRead(Ok(typeList), Pushed(lists, TypeKey, Encoded(json, typeList)), true)
  }

  /** A cached list whose first element is blank is the empty-table marker:
      the call fails without reading the table or writing, whatever the
      later elements hold. */
  lemma BlankHeadFails(json: Codec<ShopType>, lists: map<string, ListEntry>, table: seq<ShopType>)
    requires Items(lists, TypeKey) != [] && IsBlank(Items(lists, TypeKey)[0])
    ensures Query(json, lists, table) == TypeRead(Fail(EmptyMessage), lists, false)
  {
  }

  /** Any other non-empty cached list is served as it is, decoded element by
      element in order, without reading the table or writing. */
  lemma CachedListServed(json: Codec<ShopType>, lists: map<string, ListEntry>, table: seq<ShopType>)
    requires Items(lists, TypeKey) != [] && !IsBlank(Items(lists, TypeKey)[0])
    ensures var q := Query(json, lists, table);
            && !q.queried && q.lists == lists && q.reply.Ok?
            && |q.reply.data| == |Items(lists, TypeKey)|
            && forall i :: 0 <= i < |q.reply.data| ==> q.reply.data[i] == json.decode(Items(lists, TypeKey)[i])
  {
  }

  /** On a miss the table is read, and a successful answer is the table
      sorted by `sort`. */
  lemma MissAnswersSortedTable(json: Codec<ShopType>, lists: map<string, ListEntry>, table: seq<ShopType>)
    requires TypeKey !in lists
    ensures var q := Query(json, lists, table);
            && q.queried
            && (q.reply.Ok? <==> table != [])
            && (q.reply.Ok? ==> SortedBySort(q.reply.data) && multiset(q.reply.data) == multiset(table))
  {
    OrderBySortSorts(table);
  }

  /** A miss on an empty table stores the one-element blank list for 30
      minutes; every later call then fails without reading the table, even
      once the table has rows. */
  lemma EmptyTableCachesBlank(json: Codec<ShopType>, lists: map<string, ListEntry>, later: seq<ShopType>)
    requires TypeKey !in lists
    ensures var first := Query(json, lists, []);
            && first.reply == Fail(EmptyMessage)
            && first.lists == lists[TypeKey := ListEntry([""], Some(BlankTtl))]
            && Query(json, first.lists, later) == TypeRead(Fail(EmptyMessage), first.lists, false)
  {
    EmptyIsBlank();
  }

  /** A miss on a non-empty table caches one JSON string per row, in order and
      with no expiry; with a faithful codec every later call answers the same
      list from the cache without reading the table. */
  lemma FillThenServe(json: Codec<ShopType>, lists: map<string, ListEntry>, table: seq<ShopType>,
                      later: seq<ShopType>)
    requires Faithful(json)
    requires TypeKey !in lists && table != []
    ensures var first := Query(json, lists, table);
            && first.reply == Ok(OrderBySort(table))
            && first.lists == lists[TypeKey := ListEntry(Encoded(json, OrderBySort(table)), None)]
            && Query(json, first.lists, later) == TypeRead(first.reply, first.lists, false)
  {
    OrderBySortSorts(table);
    var rows := OrderBySort(table);
    var cached := Encoded(json, rows);
    assert !IsBlank(cached[0]);
    assert Decoded(json, cached) == rows;
  }

  /** The service: the store, the JSON codec, and the shop-type table. */
  class Service {
    const redis: Store
    const json: Codec<ShopType>
    var table: seq<ShopType>

    constructor (redis: Store, json: Codec<ShopType>, table: seq<ShopType>)
      ensures this.redis == redis && this.json == json && this.table == table
    {
      this.redis := redis;
      this.json := json;
      this.table := table;
    }

    method QueryShopType() returns (r: Reply<seq<ShopType>>)
      requires redis.Valid()
      modifies redis`lists
      ensures redis.Valid()
      ensures var q := Query(json, old(redis.lists), table);
              r == q.reply && redis.lists == q.lists
    {
      var typeJson := redis.Range(TypeKey);
      if typeJson != [] {
        if IsBlank(typeJson[0]) {
          return Fail(EmptyMessage);
        }
        var typeList := DecodeAll(json, typeJson);
        assert typeList == Decoded(json, typeJson);
        return Ok(typeList);
      }
      var typeList := OrderBySort(table);
      if typeList == [] {
        redis.RightPushAll(TypeKey, [""]);
        var _ := redis.Expire(TypeKey, BlankTtl);
        return Fail(EmptyMessage);
      }
      var shopTypeList := EncodeAll(json, typeList);
      assert shopTypeList == Encoded(json, typeList);
      redis.RightPushAll(TypeKey, shopTypeList);
      return Ok(typeList);
    }
  }
}
