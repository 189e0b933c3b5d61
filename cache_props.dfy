/** Properties of the cache that relate several operations, or an operation
    and the counters' invariant. */
module CacheProperties {
  import opened Base
  import opened Store
  import opened Json
  import opened Stats
  import opened Recache

  /** Get keeps the counters consistent. */
  lemma GetKeepsConsistent<V>(c: Codec<V>, st: State, key: string, read: Call, del: Call)
    requires Consistent(st.stats)
    ensures Consistent(GetStep(c, st, key, read, del).st.stats)
  {
  }

  /** Query keeps the counters consistent: a loader failure is always
      preceded, in the same call, by the Get that counted it in `total`. */
  lemma QueryKeepsConsistent<V>(c: Codec<V>, cfg: Config, st: State, key: string, shared: bool,
                                calls: QueryCalls, load: Load<V>)
    requires Consistent(st.stats)
    ensures Consistent(QueryStep(c, cfg, st, key, shared, calls, load).st.stats)
  {
    var g := GetStep(c, st, key, calls.read, calls.del);
    var r := Resolve(c, cfg, g, key, calls, load);
    assert r.st.stats.dbFails <= st.stats.dbFails + 1;
    assert r.st.stats.dbFails == st.stats.dbFails + 1 ==> g.err == Some(RedisNil);
  }

  /** Because "*" is not JSON, Get never recognises a placeholder entry: it
      takes the corrupt-entry path, deletes the entry, counts no hit and no
      miss, and returns redis.Nil. */
  lemma PlaceholderTakesCorruptPath<V>(c: Codec<V>, st: State, key: string, del: Call)
    requires RejectsStar(c)
    requires key in st.db && st.db[key].data == NotFoundPlaceHolder
    ensures var g := GetStep(c, st, key, Pass, del);
      g.err == Some(RedisNil) &&
      g.st.stats.hit == st.stats.hit && g.st.stats.miss == st.stats.miss &&
      (del.Pass? ==> key !in g.st.db)
  {
  }

  /** Hence Get never returns errPlaceHolder, and Query's branch for it is
      dead. */
  lemma ErrPlaceHolderUnreachable<V>(c: Codec<V>, st: State, key: string, read: Call, del: Call)
    requires RejectsStar(c)
    ensures GetStep(c, st, key, read, del).err != Some(ErrPlaceHolder)
  {
    if Read(st.db, key, read).Ok? {
      assert st.db[key].data == NotFoundPlaceHolder ==> c.decode(st.db[key].data).None?;
    }
  }

  /** The negative cache as written does not protect the backing store: once
      a Query has stored the placeholder for a key, the next Query for that
      key reads it, discards it, and calls the loader again. */
  lemma NegativeCacheDefeated<V>(c: Codec<V>, cfg: Config, st: State, key: string,
                                 shared1: bool, calls1: QueryCalls,
                                 shared2: bool, calls2: QueryCalls, load2: Load<V>)
    requires RejectsStar(c)
    requires GetStep(c, st, key, calls1.read, calls1.del).err == Some(RedisNil)
    requires calls1.write.Pass? && calls2.read.Pass?
    ensures var first := QueryStep(c, cfg, st, key, shared1, calls1, LoadMissing);
      first.loaderCalled && first.err == Some(ErrNotFound) &&
      QueryStep(c, cfg, first.st, key, shared2, calls2, load2).loaderCalled
  {
    var first := QueryStep(c, cfg, st, key, shared1, calls1, LoadMissing);
    var g := GetStep(c, st, key, calls1.read, calls1.del);
    var w := SetPlaceHolderStep(cfg, g.st, key, calls1.frac, calls1.write);
    assert first.st.db == w.st.db;
    assert key in first.st.db && first.st.db[key].data == NotFoundPlaceHolder;
    PlaceholderTakesCorruptPath(c, first.st, key, calls2.del);
  }

  /** With the placeholder tested before decoding, the negative cache works:
      after a Query has stored the placeholder, the next Query for the key
      returns ErrNotFound without calling the loader, whatever the loader
      would say. */
  lemma NegativeCacheHolds<V>(c: Codec<V>, cfg: Config, st: State, key: string,
                              shared1: bool, calls1: QueryCalls,
                              shared2: bool, calls2: QueryCalls, load2: Load<V>)
    requires GetStepFixed(c, st, key, calls1.read, calls1.del).err == Some(RedisNil)
    requires calls1.write.Pass? && calls2.read.Pass?
    ensures var first := QueryStepFixed(c, cfg, st, key, shared1, calls1, LoadMissing);
      var second := QueryStepFixed(c, cfg, first.st, key, shared2, calls2, load2);
      first.loaderCalled && first.err == Some(ErrNotFound) &&
      !second.loaderCalled && second.err == Some(ErrNotFound) && second.st.db == first.st.db
  {
    var first := QueryStepFixed(c, cfg, st, key, shared1, calls1, LoadMissing);
    var g := GetStepFixed(c, st, key, calls1.read, calls1.del);
    var w := SetPlaceHolderStep(cfg, g.st, key, calls1.frac, calls1.write);
    assert first.st.db == w.st.db;
    assert Read(first.st.db, key, calls2.read) == Ok(NotFoundPlaceHolder);
  }

  /** Only redis.Nil reaches the loader: a failed read (a transport error or
      a breaker rejection) is returned to Query's caller, with the store
      untouched and the call counted as a miss. */
  lemma StoreFaultsSurface<V>(c: Codec<V>, cfg: Config, st: State, key: string, shared: bool,
                              calls: QueryCalls, load: Load<V>)
    requires calls.read.Fault?
    ensures var q := QueryStep(c, cfg, st, key, shared, calls, load);
      q.err == Some(Failed(calls.read.reason)) && !q.loaderCalled && q.st.db == st.db &&
      q.st.stats == Incremented(Incremented(st.stats, Total), Miss)
  {
  }

  /** The outcome of the cache write after a load never changes what Query
      returns, nor the counters. */
  lemma WriteOutcomeIrrelevant<V>(c: Codec<V>, cfg: Config, st: State, key: string, shared: bool,
                                  calls1: QueryCalls, calls2: QueryCalls, load: Load<V>)
    requires calls1.read == calls2.read && calls1.del == calls2.del
    ensures var q1 := QueryStep(c, cfg, st, key, shared, calls1, load);
      var q2 := QueryStep(c, cfg, st, key, shared, calls2, load);
      q1.err == q2.err && q1.value == q2.value && q1.loaderCalled == q2.loaderCalled &&
      q1.st.stats == q2.st.stats
  {
  }

  /** A loader error is returned as it is, counted once in `dbFails`, and
      nothing is written to the store. */
  lemma LoaderFailureNotCached<V>(c: Codec<V>, cfg: Config, st: State, key: string, shared: bool,
                                  calls: QueryCalls, e: Error)
    requires GetStep(c, st, key, calls.read, calls.del).err == Some(RedisNil)
    ensures var g := GetStep(c, st, key, calls.read, calls.del);
      var q := QueryStep(c, cfg, st, key, shared, calls, LoadFailed(e));
      q.err == Some(e) && q.loaderCalled && q.st.db == g.st.db &&
      q.st.stats.dbFails == st.stats.dbFails + 1
  {
  }

  /** Query logs "set placeholder fail" after storing the placeholder even
      when the write succeeded. */
  lemma SpuriousPlaceholderWarning<V>(c: Codec<V>, cfg: Config, st: State, key: string, shared: bool,
                                      calls: QueryCalls)
    requires GetStep(c, st, key, calls.read, calls.del).err == Some(RedisNil)
    requires calls.write.Pass?
    ensures var q := QueryStep(c, cfg, st, key, shared, calls, LoadMissing);
      key in q.st.db && q.st.db[key].data == NotFoundPlaceHolder &&
      q.st.log[|q.st.log| - 1] == SetPlaceHolderWarn(key, None)
  {
  }

  /** Cache-aside: after a Query loads a value and stores it, a Get of the
      key is a hit that yields that value. */
  lemma QueryPopulatesCache<V(!new)>(c: Codec<V>, cfg: Config, st: State, key: string, shared: bool,
                                     calls: QueryCalls, v: V, del: Call)
    requires RejectsStar(c) && RoundTrips(c)
    requires GetStep(c, st, key, calls.read, calls.del).err == Some(RedisNil)
    requires calls.write.Pass? && c.marshal(v).Encoded?
    ensures var q := QueryStep(c, cfg, st, key, shared, calls, LoadFound(v));
      var g := GetStep(c, q.st, key, Pass, del);
      q.err == None && q.value == Some(v) && g.err == None && g.value == Some(v)
  {
    var q := QueryStep(c, cfg, st, key, shared, calls, LoadFound(v));
    assert q.st.db[key].data == c.marshal(v).text;
    assert c.marshal(v).text != NotFoundPlaceHolder;
  }

  /** Round trip: a value written with SetWithExpire reads back as a hit
      with the same value. */
  lemma SetThenGet<V(!new)>(c: Codec<V>, st: State, key: string, v: V, ttl: int, del: Call)
    requires RejectsStar(c) && RoundTrips(c)
    requires SetWithExpireStep(c, st, key, v, ttl, Pass).err.None?
    ensures var s := SetWithExpireStep(c, st, key, v, ttl, Pass);
      var g := GetStep(c, s.st, key, Pass, del);
      g.err == None && g.value == Some(v) && g.st.stats.hit == st.stats.hit + 1
  {
    assert c.marshal(v).text != NotFoundPlaceHolder;
  }

  /** Deleting keys that are already gone succeeds and changes nothing. */
  lemma DelIdempotent(st: State, keys: seq<string>)
    ensures var once := DelStep(st, keys, Pass);
      DelStep(once.st, keys, Pass) == once
  {
    var once := DelStep(st, keys, Pass);
    if |keys| > 0 {
      assert once.st.db - KeySet(keys) == once.st.db;
    }
  }

  /** Exec invalidates only after a successful write: a failed write leaves
      the store and everything else as it was; a successful one, with the
      delete going through, leaves none of the keys cached and every other
      entry as it was. */
  lemma ExecInvalidatesAfterWrite(st: State, dbErr: Option<Error>, keys: seq<string>, call: Call)
    ensures dbErr.Some? ==> ExecStep(st, dbErr, keys, call).st == st
    ensures dbErr.None? && call.Pass? ==>
      var r := ExecStep(st, dbErr, keys, call);
      r.err == None &&
      (forall k :: k in r.st.db <==> k in st.db && k !in keys) &&
      (forall k :: k in r.st.db ==> r.st.db[k] == st.db[k])
  {
  }
}
