/** Idempotency keys: cached replies and locks kept in Redis keys that expire. */
module Idempotency {
  import opened Common

  datatype ResultCache = ResultCache(invocationId: string, status: string, result: string, error: string)

  datatype Value = Token(token: string) | Cached(cache: ResultCache)

  datatype Cell = Cell(value: Value, expires: int)

  type Keyspace = map<string, Cell>

  const CACHE_TTL: int := 24 * HOUR
  const LOCK_TTL: int := 30 * SECOND

  function IdemKey(key: string): (name: string)
    ensures |name| == 5 + |key| && name[5..] == key && name[0] == 'i'
  {
    "idem:" + key
  }

  function LockKey(key: string): (name: string)
    ensures |name| == 5 + |key| && name[5..] == key && name[0] == 'l'
  {
    "lock:" + key
  }

  // --- Redis on keys with expiry ---

  function Get(cells: Keyspace, name: string, now: int): Option<Value> {
    if name in cells && now < cells[name].expires then Some(cells[name].value) else None
  }

  function Set(cells: Keyspace, name: string, value: Value, now: int, ttl: int): Keyspace {
    cells[name := Cell(value, now + ttl)]
  }

  function SetNX(cells: Keyspace, name: string, value: Value, now: int, ttl: int): Keyspace {
    if Get(cells, name, now).Some? then cells else Set(cells, name, value, now, ttl)
  }

  /** The release script: delete the key if it holds this token. */
  function CompareAndDelete(cells: Keyspace, name: string, token: string, now: int): Keyspace {
    if Get(cells, name, now) == Some(Token(token)) then cells - {name} else cells
  }

  /** What Store leaves: nothing happens for the empty key. */
  function Stored(cells: Keyspace, key: string, cache: ResultCache, now: int): Keyspace {
    if key == "" then cells else Set(cells, IdemKey(key), Cached(cache), now, CACHE_TTL)
  }

  /** What Check finds; a value that does not parse counts as nothing. */
  function Checked(cells: Keyspace, key: string, now: int): Option<ResultCache> {
    if key == "" then None else
    match Get(cells, IdemKey(key), now)
    case Some(Cached(cache)) => Some(cache)
    case _ => None
  }

  /** A reply is found for 24 hours: at 23:59 it is, at 24:00 it is not. */
  lemma CachedForADay(cells: Keyspace, key: string, cache: ResultCache, at: int)
    requires key != ""
    ensures Checked(Stored(cells, key, cache, at), key, at + 86_340_000_000_000) == Some(cache)
    ensures Checked(Stored(cells, key, cache, at), key, at + 86_399_999_999_999) == Some(cache)
    ensures Checked(Stored(cells, key, cache, at), key, at + 86_400_000_000_000) == None
  {
  }

  /** A lock that is taken keeps others out for 30 seconds, and no longer. */
  lemma LockedForHalfAMinute(cells: Keyspace, key: string, token: string, other: string, at: int, now: int)
    requires Get(cells, LockKey(key), at).None?
    ensures var locked := SetNX(cells, LockKey(key), Token(token), at, LOCK_TTL);
            && (now < at + 30_000_000_000 ==> SetNX(locked, LockKey(key), Token(other), now, LOCK_TTL) == locked)
            && (at + 30_000_000_000 <= now ==>
                  var taken := SetNX(locked, LockKey(key), Token(other), now, LOCK_TTL);
                  Get(taken, LockKey(key), now) == Some(Token(other)))
  {
  }

  class Keys {
    var cells: Keyspace

    constructor ()
      ensures cells == map[]
    {
      cells := map[];
    }
  }

  class Service {
    const redis: Keys

    constructor (redis: Keys)
      ensures this.redis == redis
    {
      this.redis := redis;
    }

    method Check(key: string, now: int, outcome: Outcome) returns (found: Option<ResultCache>, ok: bool)
      ensures found == if outcome.Done? then Checked(redis.cells, key, now) else None
      ensures ok <==> key == "" || (outcome.Done? && !(Get(redis.cells, IdemKey(key), now).Some?
                                                       && Get(redis.cells, IdemKey(key), now).value.Token?))
    {
      if key == "" {
        return None, true;
      }
      if !outcome.Done? {
        return None, false;
      }
      var value := Get(redis.cells, IdemKey(key), now);
      if value.None? {
        return None, true;
      }
      if value.value.Token? {
        return None, false;
      }
      return Some(value.value.cache), true;
    }

    method Store(key: string, invocationId: string, status: string, result: string, error: string,
                 now: int, outcome: Outcome)
      modifies redis
      ensures redis.cells == if outcome.Applied()
                             then Stored(old(redis.cells), key, ResultCache(invocationId, status, result, error), now)
                             else old(redis.cells)
    {
      if key == "" {
        return;
      }
      var cache := ResultCache(invocationId, status, result, error);
      if outcome.Applied() {
        redis.cells := redis.cells["idem:" + key := Cell(Cached(cache), now + CACHE_TTL)];
      }
    }

    /** `token` is the freshly drawn UUID. A caller that is not told of its success has not
        acquired the lock, although the lock may now exist. */
    method AcquireLock(key: string, ttl: int, token: string, now: int, outcome: Outcome)
      returns (acquired: bool, held: string)
      modifies redis
      ensures key == "" ==> acquired && held == "" && redis.cells == old(redis.cells)
      ensures key != "" ==>
                && acquired == (outcome.Done? && Get(old(redis.cells), LockKey(key), now).None?)
                && held == (if outcome.Done? then token else "")
                && redis.cells == if outcome.Applied()
                                  then SetNX(old(redis.cells), LockKey(key), Token(token), now, ttl)
                                  else old(redis.cells)
    {
      if key == "" {
        return true, "";
      }
      var lockKey := "lock:" + key;
      var taken := lockKey in redis.cells && now < redis.cells[lockKey].expires;
      if outcome.Applied() && !taken {
        redis.cells := redis.cells[lockKey := Cell(Token(token), now + ttl)];
      }
      if !outcome.Done? {
        return false, "";
      }
      return !taken, token;
    }

    method ReleaseLock(key: string, token: string, now: int, outcome: Outcome)
      modifies redis
      ensures redis.cells == if key != "" && outcome.Applied()
                             then CompareAndDelete(old(redis.cells), LockKey(key), token, now)
                             else old(redis.cells)
    {
      if key == "" || !outcome.Applied() {
        return;
      }
      var lockKey := "lock:" + key;
      if lockKey in redis.cells && now < redis.cells[lockKey].expires && redis.cells[lockKey].value == Token(token) {
        redis.cells := redis.cells - {lockKey};
      }
    }
  }
}
