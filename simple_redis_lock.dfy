/** SimpleRedisLock: a named lock kept in the store under "lock:" + name,
    holding a token that names the holding thread. Acquisition is SET NX with
    a TTL; release runs the unlock script, assumed here to be an atomic
    compare-and-delete of the key against the caller's token. */
module SimpleRedisLock {
  import opened Text
  import opened Common
  import opened Redis

  /** KEY_PREFIX. */
  const KeyPrefix := "lock:"

  /** The store key of the lock called `name`, for acquire and release alike. */
  function LockKey(name: string): string
  {
    KeyPrefix + name
  }

  /** ID_PREFIX: a random UUID in its 32-character form, then "-". */
  function IdPrefix(uuid: string): string
  {
    uuid + "-"
  }

  /** The holder token: ID_PREFIX followed by the thread id. */
  function Token(idPrefix: string, threadId: int): string
  {
    idPrefix + LongText(threadId)
  }

  /** tryLock(timeoutSec) by thread `threadId`: whether it wrote the key, and
      the keyspace after it. */
  function Acquire(strings: map<string, Entry>, name: string, idPrefix: string, threadId: int,
                   timeoutSec: nat): (bool, map<string, Entry>)
  {
    PutIfAbsent(strings, LockKey(name), Entry(Token(idPrefix, threadId), Some(Duration(timeoutSec, Seconds))))
  }

  /** unlock() by thread `threadId`. */
  function Release(strings: map<string, Entry>, name: string, idPrefix: string, threadId: int): map<string, Entry>
  {
    DeleteIfHolds(strings, LockKey(name), Token(idPrefix, threadId))
  }

  /** Two threads of one process never share a token. */
  lemma TokensDistinctAcrossThreads(idPrefix: string, t1: int, t2: int)
    requires t1 != t2
    ensures Token(idPrefix, t1) != Token(idPrefix, t2)
  {
    if Token(idPrefix, t1) == Token(idPrefix, t2) {
      SamePrefixCancels(idPrefix, LongText(t1), LongText(t2));
      LongTextInjective(t1, t2);
    }
  }

  /** Two processes (two different UUIDs of the same length) never share a
      token, whatever their thread ids. */
  lemma TokensDistinctAcrossProcesses(u1: string, u2: string, t1: int, t2: int)
    requires |u1| == |u2| && u1 != u2
    ensures Token(IdPrefix(u1), t1) != Token(IdPrefix(u2), t2)
  {
    var a, b := Token(IdPrefix(u1), t1), Token(IdPrefix(u2), t2);
    assert a[..|u1|] == u1;
    assert b[..|u2|] == u2;
  }

  /** tryLock succeeds exactly when the key is absent, and then stores this
      thread's token with a TTL of `timeoutSec` seconds. */
  lemma AcquireWritesToken(strings: map<string, Entry>, name: string, idPrefix: string, threadId: int,
                           timeoutSec: nat)
    ensures var (ok, after) := Acquire(strings, name, idPrefix, threadId, timeoutSec);
            && ok == (LockKey(name) !in strings)
            && (ok ==> after == strings[LockKey(name) := Entry(idPrefix + LongText(threadId), Some(Duration(timeoutSec, Seconds)))])
            && (!ok ==> after == strings)
  {
  }

  /** While the lock is held, a second tryLock on the same name fails, from
      any thread and with any timeout, and the holder's token stays. */
  lemma SecondAcquireFails(strings: map<string, Entry>, name: string, idPrefix: string, t1: int, t2: int,
                           timeout1: nat, timeout2: nat)
    requires LockKey(name) !in strings
    ensures var (ok1, held) := Acquire(strings, name, idPrefix, t1, timeout1);
            var (ok2, after) := Acquire(held, name, idPrefix, t2, timeout2);
            ok1 && !ok2 && after == held && after[LockKey(name)].value == Token(idPrefix, t1)
  {
  }

  /** The holder's unlock removes the lock: acquire then release by the same
      thread restores the keyspace. */
  lemma AcquireThenRelease(strings: map<string, Entry>, name: string, idPrefix: string, threadId: int,
                           timeoutSec: nat)
    requires LockKey(name) !in strings
    ensures Release(Acquire(strings, name, idPrefix, threadId, timeoutSec).1, name, idPrefix, threadId) == strings
  {
    var held := Acquire(strings, name, idPrefix, threadId, timeoutSec).1;
    assert held - {LockKey(name)} == strings;
  }

  /** An unlock by another thread leaves a held lock in place. */
  lemma ReleaseByOtherThreadKeepsLock(strings: map<string, Entry>, name: string, idPrefix: string,
                                      holder: int, other: int, timeoutSec: nat)
    requires LockKey(name) !in strings
    requires holder != other
    ensures var held := Acquire(strings, name, idPrefix, holder, timeoutSec).1;
            Release(held, name, idPrefix, other) == held
  {
    TokensDistinctAcrossThreads(idPrefix, holder, other);
  }

  /** Unlock touches no key but this lock's own. */
  lemma ReleaseTouchesOnlyOwnKey(strings: map<string, Entry>, name: string, idPrefix: string, threadId: int,
                                 k: string)
    requires k != LockKey(name)
    ensures var after := Release(strings, name, idPrefix, threadId);
            (k in after <==> k in strings) && (k in after ==> after[k] == strings[k])
  {
  }

  /** A SimpleRedisLock object: its name, the store, and the process-wide
      ID_PREFIX (given, since it is random). The calling thread's id is an
      argument of each method. */
  class Lock {
    const name: string
    const redis: Store
    const idPrefix: string

    constructor (name: string, redis: Store, uuid: string)
      ensures this.name == name && this.redis == redis && idPrefix == IdPrefix(uuid)
    {
      this.name := name;
      this.redis := redis;
      idPrefix := uuid + "-";
    }

    method TryLock(timeoutSec: nat, threadId: int) returns (ok: bool)
      modifies redis`strings
      ensures (ok, redis.strings) == Acquire(old(redis.strings), name, idPrefix, threadId, timeoutSec)
    {
      var token := idPrefix + LongText(threadId);
      ok := redis.SetIfAbsent(KeyPrefix + name, token, Duration(timeoutSec, Seconds));
    }

    method Unlock(threadId: int)
      modifies redis`strings
      ensures redis.strings == Release(old(redis.strings), name, idPrefix, threadId)
    {
      var _ := redis.CompareAndDelete(KeyPrefix + name, idPrefix + LongText(threadId));
    }
  }
}
