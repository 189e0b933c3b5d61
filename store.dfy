/** The remote key-value store, reduced to what the cache uses of it: a map
    from key to stored string with its expiry, and the outcome of each call
    made to it through the circuit breaker. */
module Store {
  import opened Base

  /** One stored value with the expiry it was written with, in nanoseconds
      (a Go time.Duration). */
  datatype Entry = Entry(data: string, ttl: int)

  type Db = map<string, Entry>

  /** What the environment lets one store call do: go through, or fail with
      a transport error, a timeout or a breaker rejection. A failed call
      changes nothing in the store. */
  datatype Call = Pass | Fault(reason: string)

  /** A GET through the breaker: the stored string, redis.Nil for an absent
      key, or the failure of the call itself. */
  function Read(db: Db, key: string, call: Call): (r: Result<string>)
    ensures r.Ok? <==> call.Pass? && key in db
    ensures r.Ok? ==> r.value == db[key].data
    ensures call.Fault? ==> r == Err(Failed(call.reason))
    ensures call.Pass? && key !in db ==> r == Err(RedisNil)
  {
    match call
    case Fault(why) => Err(Failed(why))
    case Pass => if key in db then Ok(db[key].data) else Err(RedisNil)
  }

  /** The keys of a DEL request, as a set. */
  function KeySet(keys: seq<string>): (s: set<string>)
    ensures forall k :: k in s <==> k in keys
  {
    set k | k in keys
  }
}
