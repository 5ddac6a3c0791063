/** The key-value store behind StringRedisTemplate: string values with an
    optional TTL, lists and sets. Time never passes inside the store (TTLs
    are recorded, not enforced); the atomic commands the source relies on
    (SET NX, the compare-and-delete script) are single methods. */
module Redis {
  import opened Text
  import opened Common

  /** A string value and the TTL it was written with (None: persistent). */
  datatype Entry = Entry(value: string, ttl: Option<Duration>)

  /** A list value and its TTL. */
  datatype ListEntry = ListEntry(items: seq<string>, ttl: Option<Duration>)

  /** GET: the value at `key`, or null when the key is absent. */
  function Stored(strings: map<string, Entry>, key: string): Option<string>
  {
    if key in strings then Some(strings[key].value) else None
  }

  /** SET key value NX [EX ttl]: whether the command wrote, and the keyspace after it. */
  function PutIfAbsent(strings: map<string, Entry>, key: string, e: Entry): (bool, map<string, Entry>)
  {
    if key in strings then (false, strings) else (true, strings[key := e])
  }

  /** The unlock script, an atomic compare-and-delete: the key is removed only
      while it still holds `token`. */
  function DeleteIfHolds(strings: map<string, Entry>, key: string, token: string): map<string, Entry>
  {
    if key in strings && strings[key].value == token then strings - {key} else strings
  }

  /** SMEMBERS, with an absent key read as the empty set. */
  function Members(sets: map<string, set<string>>, key: string): set<string>
  {
    if key in sets then sets[key] else {}
  }

  /** SADD of one member. */
  function WithMember(sets: map<string, set<string>>, key: string, m: string): map<string, set<string>>
  {
    sets[key := Members(sets, key) + {m}]
  }

  /** SREM of one member; Redis drops a set key once it is empty. */
  function WithoutMember(sets: map<string, set<string>>, key: string, m: string): map<string, set<string>>
  {
    var rest := Members(sets, key) - {m};
    if rest == {} then sets - {key} else sets[key := rest]
  }

  /** LRANGE key 0 -1, with an absent key read as the empty list. */
  function Items(lists: map<string, ListEntry>, key: string): seq<string>
  {
    if key in lists then lists[key].items else []
  }

  /** RPUSH: append to the list, creating it (persistent) when absent. */
  function Pushed(lists: map<string, ListEntry>, key: string, values: seq<string>): map<string, ListEntry>
  {
    if key in lists then lists[key := lists[key].(items := lists[key].items + values)]
    else lists[key := ListEntry(values, None)]
  }

  /** EXPIRE on a list key: sets its TTL when the key exists. */
  function Expired(lists: map<string, ListEntry>, key: string, d: Duration): map<string, ListEntry>
  {
    if key in lists then lists[key := lists[key].(ttl := Some(d))] else lists
  }

  /** Redis never keeps an empty set under a key. */
  ghost predicate NoEmptySets(sets: map<string, set<string>>)
  {
    forall k :: k in sets ==> sets[k] != {}
  }

  /** Nor an empty list. */
  ghost predicate NoEmptyCollections(lists: map<string, ListEntry>, sets: map<string, set<string>>)
  {
    && (forall k :: k in lists ==> lists[k].items != [])
    && NoEmptySets(sets)
  }

  class Store {
    var strings: map<string, Entry>
    var lists: map<string, ListEntry>
    var sets: map<string, set<string>>

    ghost predicate Valid()
      reads this
    {
      NoEmptyCollections(lists, sets)
    }

    constructor ()
      ensures Valid()
      ensures strings == map[] && lists == map[] && sets == map[]
    {
      strings, lists, sets := map[], map[], map[];
    }

    method Get(key: string) returns (v: Option<string>)
      ensures v == Stored(strings, key)
    {
      v := if key in strings then Some(strings[key].value) else None;
    }

    /** SET, with a TTL or (ttl == None) without one, which also clears any old TTL. */
    method Set(key: string, value: string, ttl: Option<Duration>)
      modifies this`strings
      ensures strings == old(strings)[key := Entry(value, ttl)]
    {
      strings := strings[key := Entry(value, ttl)];
    }

    method SetIfAbsent(key: string, value: string, ttl: Duration) returns (ok: bool)
      modifies this`strings
      ensures (ok, strings) == PutIfAbsent(old(strings), key, Entry(value, Some(ttl)))
    {
      ok := key !in strings;
      if ok {
        strings := strings[key := Entry(value, Some(ttl))];
      }
    }

    method Delete(key: string)
      modifies this`strings
      ensures strings == old(strings) - {key}
    {
      strings := strings - {key};
    }

    method CompareAndDelete(key: string, token: string) returns (deleted: bool)
      modifies this`strings
      ensures deleted == (key in old(strings) && old(strings)[key].value == token)
      ensures strings == DeleteIfHolds(old(strings), key, token)
    {
      deleted := key in strings && strings[key].value == token;
      if deleted {
        strings := strings - {key};
      }
    }

    method Range(key: string) returns (items: seq<string>)
      ensures items == Items(lists, key)
    {
      items := if key in lists then lists[key].items else [];
    }

    method RightPushAll(key: string, values: seq<string>)
      requires Valid() && values != []
      modifies this`lists
      ensures Valid()
      ensures lists == Pushed(old(lists), key, values)
    {
      lists := Pushed(lists, key, values);
    }

    method Expire(key: string, d: Duration) returns (ok: bool)
      requires Valid()
      modifies this`lists
      ensures Valid()
      ensures ok == (key in old(lists))
      ensures lists == Expired(old(lists), key, d)
    {
      ok := key in lists;
      lists := Expired(lists, key, d);
    }

    method IsMember(key: string, m: string) returns (b: bool)
      ensures b == (m in Members(sets, key))
    {
      b := key in sets && m in sets[key];
    }

    method Add(key: string, m: string)
      requires Valid()
      modifies this`sets
      ensures Valid()
      ensures sets == WithMember(old(sets), key, m)
    {
      sets := WithMember(sets, key, m);
    }

    method Remove(key: string, m: string)
      requires Valid()
      modifies this`sets
      ensures Valid()
      ensures sets == WithoutMember(old(sets), key, m)
    {
      sets := WithoutMember(sets, key, m);
    }
  }
}
