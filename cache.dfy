/** The cache facade (cache.go): cache-aside reads with negative caching over
    a remote key-value store, writes with jittered expiry, invalidation after
    a write to the backing store, and the statistics it keeps on the way.

    Every store call goes through a circuit breaker and may fail; the outcome
    of each call is an input (`Call`). The request coalescer is reduced to
    the run of the call that executes, with the coalescer's `shared` answer
    as an input. Each operation is a step function on `State`, and the
    `Cache` class performs it in place. */
module Recache {
  import opened Base
  import opened Store
  import opened Json
  import opened Stats

  const Second: int := 1_000_000_000
  const Minute: int := 60 * Second

  /** The value stored to remember that the backing store has no record. */
  const NotFoundPlaceHolder: string := "*"

  /** The part of NewCache's configuration the operations read: the base
      expiry, in nanoseconds. */
  datatype Config = Config(expire: int)

  /** NewCache's default expiry: one minute. */
  const Defaults: Config := Config(Minute)

  /** The lines the cache logs, in order. */
  datatype LogEvent =
    | UnmarshalFail(key: string, value: string)
    | DelInvalidKeyFail(key: string)
    | DelFail(keys: seq<string>, err: Error)
    | SetPlaceHolderWarn(key: string, outcome: Option<Error>)
    | CacheAfterQueryFail(key: string, err: Error)

  /** Everything an operation can change: the store, the counters, the log. */
  datatype State = State(db: Db, stats: Counters, log: seq<LogEvent>)

  datatype Outcome = Outcome(st: State, err: Option<Error>)

  /** Get's result: the error it returns and the value decoded into its
      target, if any. */
  datatype GetOut<V> = GetOut(st: State, err: Option<Error>, value: Option<V>)

  /** A loader's `(found, err)` answer: an error wins over `found`. */
  datatype Load<V> = LoadFailed(err: Error) | LoadMissing | LoadFound(value: V)

  /** A value rand.Float64 can return. */
  type Fraction = x: real | 0.0 <= x < 1.0

  /** The outcomes of the store calls one Query may make, and the random
      fraction its write would draw. */
  datatype QueryCalls = QueryCalls(read: Call, del: Call, write: Call, frac: Fraction)

  /** Query's result: the error, the value handed back through the
      coalescer, and whether the loader ran. */
  datatype QueryOut<V> = QueryOut(st: State, err: Option<Error>, value: Option<V>, loaderCalled: bool)

  function Ceil(x: real): (n: int)
    ensures x <= n as real < x + 1.0
  {
    -((-x).Floor)
  }

  /** ceil(D) for a duration of D seconds given in nanoseconds. */
  function CeilSeconds(d: int): int {
    Ceil(d as real / Second as real)
  }

  /** The seconds randExpire draws: ceil(frac * D), within [0, ceil(D)]
      for D >= 0. */
  function JitterSeconds(d: int, frac: Fraction): (n: int)
    ensures d >= 0 ==> 0 <= n <= CeilSeconds(d)
    ensures d < 0 ==> CeilSeconds(d) <= n <= 0
    ensures frac == 0.0 ==> n == 0
    ensures d > 0 && frac > 0.0 ==> n >= 1
  {
    var secs := d as real / Second as real;
    assert d >= 0 ==> secs >= 0.0;
    assert d < 0 ==> secs < 0.0;
    assert d > 0 ==> secs > 0.0;
    ScaledBetween(frac, secs);
    CeilMonotone(frac * secs, secs);
    CeilMonotone(secs, frac * secs);
    CeilMonotone(0.0, frac * secs);
    CeilMonotone(frac * secs, 0.0);
    Ceil(frac * secs)
  }

  /** randExpire: a whole number of seconds drawn from [0, ceil(D)] for a
      base expiry of D seconds. Zero is reachable, since rand.Float64 may
      return 0. */
  function RandExpire(d: int, frac: Fraction): (r: int)
    ensures r % Second == 0
    ensures d >= 0 ==> 0 <= r <= Second * CeilSeconds(d)
    ensures d < 0 ==> Second * CeilSeconds(d) <= r <= 0
    ensures frac == 0.0 ==> r == 0
    ensures d > 0 && frac > 0.0 ==> r >= Second
  {
    var n := JitterSeconds(d, frac);
    WholeSeconds(n, CeilSeconds(d));
    WholeSeconds(CeilSeconds(d), n);
    WholeSeconds(0, n);
    WholeSeconds(n, 0);
    WholeSeconds(1, n);
    Second * n
  }

  lemma ScaledBetween(frac: Fraction, secs: real)
    ensures secs >= 0.0 ==> 0.0 <= frac * secs <= secs
    ensures secs < 0.0 ==> secs <= frac * secs <= 0.0
    ensures frac > 0.0 && secs > 0.0 ==> frac * secs > 0.0
    ensures frac == 0.0 ==> frac * secs == 0.0
  {
    assert secs - frac * secs == (1.0 - frac) * secs;
  }

  lemma CeilMonotone(x: real, y: real)
    ensures x <= y ==> Ceil(x) <= Ceil(y)
  {
  }

  lemma WholeSeconds(m: int, n: int)
    ensures m <= n ==> Second * m <= Second * n
    ensures (Second * n) % Second == 0
  {
  }

  /** Del: an empty key list succeeds without a store call; otherwise all the
      keys go in one call, whose failure is logged and returned. */
  function DelStep(st: State, keys: seq<string>, call: Call): (r: Outcome)
    ensures r.st.stats == st.stats
    ensures |keys| == 0 ==> r == Outcome(st, None)
    ensures r.err.None? <==> |keys| == 0 || call.Pass?
    ensures r.err.Some? ==> r.err == Some(Failed(call.reason)) && r.st.db == st.db
    ensures r.err.None? ==> forall k :: k in r.st.db <==> k in st.db && k !in keys
    ensures forall k :: k in r.st.db ==> k in st.db && r.st.db[k] == st.db[k]
    ensures r.err.None? ==> r.st.log == st.log
    ensures r.err.Some? ==> r.st.log == st.log + [DelFail(keys, Failed(call.reason))]
  {
    if |keys| == 0 then Outcome(st, None)
    else
      match call
      case Fault(why) => Outcome(st.(log := st.log + [DelFail(keys, Failed(why))]), Some(Failed(why)))
      case Pass => Outcome(st.(db := st.db - KeySet(keys)), None)
  }

  /** SetWithExpire: a value that does not marshal is refused before any
      store call; otherwise it is stored under the key with exactly the TTL
      given, unless the write fails. */
  function SetWithExpireStep<V>(c: Codec<V>, st: State, key: string, v: V, ttl: int, call: Call): (r: Outcome)
    ensures r.st.stats == st.stats && r.st.log == st.log
    ensures c.marshal(v).Unencodable? ==> r == Outcome(st, Some(Failed(c.marshal(v).reason)))
    ensures r.err.None? <==> c.marshal(v).Encoded? && call.Pass?
    ensures r.err.None? ==> r.st.db == st.db[key := Entry(c.marshal(v).text, ttl)]
    ensures r.err.Some? ==> r.st == st
  {
    match c.marshal(v)
    case Unencodable(why) => Outcome(st, Some(Failed(why)))
    case Encoded(text) =>
      match call
      case Fault(why) => Outcome(st, Some(Failed(why)))
      case Pass => Outcome(st.(db := st.db[key := Entry(text, ttl)]), None)
  }

  /** Set: SetWithExpire with a jittered TTL drawn from the configured
      expiry. */
  function SetStep<V>(c: Codec<V>, cfg: Config, st: State, key: string, v: V, frac: Fraction, call: Call): (r: Outcome)
    ensures r.st.stats == st.stats && r.st.log == st.log
    ensures r.err.None? <==> c.marshal(v).Encoded? && call.Pass?
    ensures r.err.None? ==> r.st.db.Keys == st.db.Keys + {key} && r.st.db[key].data == c.marshal(v).text
    ensures r.err.None? ==> r.st.db[key].ttl == RandExpire(cfg.expire, frac) && r.st.db[key].ttl % Second == 0
    ensures r.err.None? && cfg.expire >= 0 ==>
      0 <= r.st.db[key].ttl <= Second * CeilSeconds(cfg.expire)
    ensures r.err.None? ==> forall k :: k in st.db && k != key ==> r.st.db[k] == st.db[k]
    ensures r.err.Some? ==> r.st == st
  {
    SetWithExpireStep(c, st, key, v, RandExpire(cfg.expire, frac), call)
  }

  /** setPlaceHolder: store the placeholder with a jittered TTL. */
  function SetPlaceHolderStep(cfg: Config, st: State, key: string, frac: Fraction, call: Call): (r: Outcome)
    ensures r.st.stats == st.stats && r.st.log == st.log
    ensures r.err.None? <==> call.Pass?
    ensures r.err.None? ==> r.st.db == st.db[key := Entry(NotFoundPlaceHolder, RandExpire(cfg.expire, frac))]
    ensures r.err.Some? ==> r.st == st && r.err == Some(Failed(call.reason))
  {
    match call
    case Fault(why) => Outcome(st, Some(Failed(why)))
    case Pass => Outcome(st.(db := st.db[key := Entry(NotFoundPlaceHolder, RandExpire(cfg.expire, frac))]), None)
  }

  /** The decoding half of Get, once the store has returned `s` for `key`:
      an entry that does not decode is logged, deleted (a failed delete is
      only logged) and reported as redis.Nil without a hit or a miss; one
      that decodes counts as a hit. */
  function Unmarshal<V>(c: Codec<V>, st: State, key: string, s: string, del: Call): (r: GetOut<V>)
    ensures c.decode(s).None? ==>
      r.err == Some(RedisNil) && r.value == None && r.st.stats == st.stats &&
      r.st.db == (if del.Pass? then st.db - {key} else st.db)
    ensures c.decode(s).None? ==>
      r.st.log == st.log + [UnmarshalFail(key, s)] +
        (if del.Pass? then [] else [DelFail([key], Failed(del.reason)), DelInvalidKeyFail(key)])
    ensures c.decode(s).Some? ==>
      r == GetOut(st.(stats := Incremented(st.stats, Hit)), None, c.decode(s))
  {
    match c.decode(s)
    case None =>
      var logged := st.(log := st.log + [UnmarshalFail(key, s)]);
      var d := DelStep(logged, [key], del);
      var healed := if d.err.Some? then d.st.(log := d.st.log + [DelInvalidKeyFail(key)]) else d.st;
      GetOut(healed, Some(RedisNil), None)
    case Some(v) =>
      GetOut(st.(stats := Incremented(st.stats, Hit)), None, Some(v))
  }

  /** Get, as written: count the call, read, decode, and only then test for
      the placeholder. */
  function GetStep<V>(c: Codec<V>, st: State, key: string, read: Call, del: Call): (r: GetOut<V>)
    ensures r.st.stats.total == st.stats.total + 1
    ensures r.st.stats.dbFails == st.stats.dbFails && r.st.stats.shared == st.stats.shared
    ensures Read(st.db, key, read).Err? ==>
      r == GetOut(st.(stats := Incremented(Incremented(st.stats, Total), Miss)), Some(Read(st.db, key, read).error), None)
    ensures Read(st.db, key, read).Ok? && c.decode(st.db[key].data).None? ==>
      r.err == Some(RedisNil) && r.value == None &&
      r.st.stats == Incremented(st.stats, Total) &&
      r.st.db == (if del.Pass? then st.db - {key} else st.db) &&
      r.st.log == st.log + [UnmarshalFail(key, st.db[key].data)] +
        (if del.Pass? then [] else [DelFail([key], Failed(del.reason)), DelInvalidKeyFail(key)])
    ensures Read(st.db, key, read).Ok? && c.decode(st.db[key].data).Some? ==>
      r.st == st.(stats := Incremented(Incremented(st.stats, Total), Hit)) &&
      r.value == c.decode(st.db[key].data) &&
      r.err == (if st.db[key].data == NotFoundPlaceHolder then Some(ErrPlaceHolder) else None)
  {
    var counted := st.(stats := Incremented(st.stats, Total));
    match Read(st.db, key, read)
    case Err(e) => GetOut(counted.(stats := Incremented(counted.stats, Miss)), Some(e), None)
    case Ok(s) =>
      var g := Unmarshal(c, counted, key, s, del);
      if g.err.None? && s == NotFoundPlaceHolder then g.(err := Some(ErrPlaceHolder)) else g
  }

  /** Get with the placeholder tested before decoding, which is what the
      negative cache needs: a placeholder entry counts as a hit and is
      reported as errPlaceHolder, and the store is left alone. */
  function GetStepFixed<V>(c: Codec<V>, st: State, key: string, read: Call, del: Call): (r: GetOut<V>)
    ensures Read(st.db, key, read) == Ok(NotFoundPlaceHolder) ==>
      r.err == Some(ErrPlaceHolder) && r.st.db == st.db &&
      r.st.stats == Incremented(Incremented(st.stats, Total), Hit)
    ensures Read(st.db, key, read) != Ok(NotFoundPlaceHolder) && RejectsStar(c) ==>
      r == GetStep(c, st, key, read, del)
  {
    var counted := st.(stats := Incremented(st.stats, Total));
    match Read(st.db, key, read)
    case Err(e) => GetOut(counted.(stats := Incremented(counted.stats, Miss)), Some(e), None)
    case Ok(s) =>
      if s == NotFoundPlaceHolder then GetOut(counted.(stats := Incremented(counted.stats, Hit)), Some(ErrPlaceHolder), None)
      else Unmarshal(c, counted, key, s, del)
  }

  /** The body Query runs through the coalescer, after Get: only redis.Nil
      reaches the loader; a loader error is counted and returned with
      nothing cached; not-found writes the placeholder and found writes the
      value, and neither write changes the answer; errPlaceHolder becomes
      ErrNotFound; any other Get error is returned as it is. */
  function Resolve<V>(c: Codec<V>, cfg: Config, g: GetOut<V>, key: string, calls: QueryCalls, load: Load<V>): (r: QueryOut<V>)
    ensures r.loaderCalled <==> g.err == Some(RedisNil)
    ensures g.err.None? ==> r == QueryOut(g.st, None, g.value, false)
    ensures g.err == Some(ErrPlaceHolder) ==> r == QueryOut(g.st, Some(ErrNotFound), None, false)
    ensures g.err.Some? && g.err.value != RedisNil && g.err.value != ErrPlaceHolder ==>
      r == QueryOut(g.st, g.err, None, false)
    ensures g.err == Some(RedisNil) && load.LoadFailed? ==>
      r == QueryOut(g.st.(stats := Incremented(g.st.stats, DbFails)), Some(load.err), None, true)
    ensures g.err == Some(RedisNil) && load.LoadMissing? ==>
      r.err == Some(ErrNotFound) && r.value == None && r.st.stats == g.st.stats &&
      r.st.db == SetPlaceHolderStep(cfg, g.st, key, calls.frac, calls.write).st.db
    ensures g.err == Some(RedisNil) && load.LoadFound? ==>
      r.err == None && r.value == Some(load.value) && r.st.stats == g.st.stats &&
      r.st.db == SetStep(c, cfg, g.st, key, load.value, calls.frac, calls.write).st.db
  {
    match g.err
    case None => QueryOut(g.st, None, g.value, false)
    case Some(e) =>
      if e == RedisNil then
        match load
        case LoadFailed(le) => QueryOut(g.st.(stats := Incremented(g.st.stats, DbFails)), Some(le), None, true)
        case LoadMissing =>
          var w := SetPlaceHolderStep(cfg, g.st, key, calls.frac, calls.write);
          QueryOut(w.st.(log := w.st.log + [SetPlaceHolderWarn(key, w.err)]), Some(ErrNotFound), None, true)
        case LoadFound(v) =>
          var w := SetStep(c, cfg, g.st, key, v, calls.frac, calls.write);
          var st := if w.err.Some? then w.st.(log := w.st.log + [CacheAfterQueryFail(key, w.err.value)]) else w.st;
          QueryOut(st, None, Some(v), true)
      else if e == ErrPlaceHolder then QueryOut(g.st, Some(ErrNotFound), None, false)
      else QueryOut(g.st, Some(e), None, false)
  }

  /** Query's tail: an error other than ErrNotFound is returned at once; a
      caller the coalescer reports as shared is counted in `total` and
      `shared`. */
  function Account<V>(q: QueryOut<V>, shared: bool): (r: QueryOut<V>)
    ensures r.err == q.err && r.value == q.value && r.loaderCalled == q.loaderCalled
    ensures r.st.db == q.st.db && r.st.log == q.st.log
    ensures shared && (q.err.None? || q.err == Some(ErrNotFound)) ==>
      r.st.stats == Incremented(Incremented(q.st.stats, Total), Shared)
    ensures !shared || (q.err.Some? && q.err != Some(ErrNotFound)) ==> r.st.stats == q.st.stats
  {
    if q.err.Some? && q.err.value != ErrNotFound then q
    else if shared then q.(st := q.st.(stats := Incremented(Incremented(q.st.stats, Total), Shared)))
    else q
  }

  /** Query, as written. */
  function QueryStep<V>(c: Codec<V>, cfg: Config, st: State, key: string, shared: bool, calls: QueryCalls, load: Load<V>): (r: QueryOut<V>)
    ensures r.loaderCalled <==> GetStep(c, st, key, calls.read, calls.del).err == Some(RedisNil)
    ensures var g := GetStep(c, st, key, calls.read, calls.del);
      r.err.None? || r.err == Some(ErrNotFound) ||
      (g.err.Some? && g.err.value != RedisNil && g.err.value != ErrPlaceHolder && r.err == g.err) ||
      (g.err == Some(RedisNil) && load.LoadFailed? && r.err == Some(load.err))
  {
    Account(Resolve(c, cfg, GetStep(c, st, key, calls.read, calls.del), key, calls, load), shared)
  }

  /** Query over the corrected Get. */
  function QueryStepFixed<V>(c: Codec<V>, cfg: Config, st: State, key: string, shared: bool, calls: QueryCalls, load: Load<V>): (r: QueryOut<V>)
    ensures r.loaderCalled <==> GetStepFixed(c, st, key, calls.read, calls.del).err == Some(RedisNil)
  {
    Account(Resolve(c, cfg, GetStepFixed(c, st, key, calls.read, calls.del), key, calls, load), shared)
  }

  /** Exec: the write to the backing store comes first; its error is
      returned with nothing invalidated, and otherwise the keys are
      deleted. */
  function ExecStep(st: State, dbErr: Option<Error>, keys: seq<string>, call: Call): (r: Outcome)
    ensures dbErr.Some? ==> r == Outcome(st, dbErr)
    ensures dbErr.None? ==> r == DelStep(st, keys, call)
  {
    if dbErr.Some? then Outcome(st, dbErr) else DelStep(st, keys, call)
  }

  /** The Cache object: the store it talks to, its statistics and its log,
      changed in place by each operation. */
  class Cache<V> {
    const codec: Codec<V>
    const cfg: Config
    const stat: Stat
    var db: Db
    var log: seq<LogEvent>

    function Model(): State
      reads this, stat
    {
      State(db, stat.Snapshot(), log)
    }

    /** NewCache over a store holding `cli`, with fresh counters. The
        options are the durations of the WithExpire options passed, in
        order: each overrides the one before, and with none the default
        applies. stat.go's NewStat takes a name, which cache.go never
        supplies; the model passes the empty one. */
    constructor (cli: Db, codec: Codec<V>, withExpire: seq<int>)
      ensures this.codec == codec && fresh(stat)
      ensures this.cfg == if |withExpire| == 0 then Defaults else Config(withExpire[|withExpire| - 1])
      ensures Model() == State(cli, Zero, [])
    {
      var conf := Defaults;
      var i := 0;
      while i < |withExpire|
        invariant 0 <= i <= |withExpire|
        invariant conf == if i == 0 then Defaults else Config(withExpire[i - 1])
      {
        conf := conf.(expire := withExpire[i]);
        i := i + 1;
      }
      this.codec := codec;
      this.cfg := conf;
      stat := new Stat("");
      db := cli;
      log := [];
    }

    method Get(key: string, read: Call, del: Call) returns (err: Option<Error>, value: Option<V>)
      modifies this, stat
      ensures GetOut(Model(), err, value) == GetStep(codec, old(Model()), key, read, del)
    {
      stat.IncrementTotal();
      var res := Read(db, key, read);
      if res.Err? {
        stat.IncrementMiss();
        return Some(res.error), None;
      }
      var s := res.value;
      var decoded := codec.decode(s);
      if decoded.None? {
        log := log + [UnmarshalFail(key, s)];
        var delErr := Del([key], del);
        if delErr.Some? {
          log := log + [DelInvalidKeyFail(key)];
        }
        return Some(RedisNil), None;
      }
      stat.IncrementHit();
      if s == NotFoundPlaceHolder {
        return Some(ErrPlaceHolder), decoded;
      }
      return None, decoded;
    }

    method Del(keys: seq<string>, call: Call) returns (err: Option<Error>)
      modifies this
      ensures Outcome(Model(), err) == DelStep(old(Model()), keys, call)
    {
      if |keys| == 0 {
        return None;
      }
      match call
      case Fault(why) =>
        err := Some(Failed(why));
        log := log + [DelFail(keys, err.value)];
      case Pass =>
        db := db - KeySet(keys);
        err := None;
    }

    method Set(key: string, v: V, frac: Fraction, call: Call) returns (err: Option<Error>)
      modifies this
      ensures Outcome(Model(), err) == SetStep(codec, cfg, old(Model()), key, v, frac, call)
    {
      err := SetWithExpire(key, v, RandExpire(cfg.expire, frac), call);
    }

    method SetWithExpire(key: string, v: V, ttl: int, call: Call) returns (err: Option<Error>)
      modifies this
      ensures Outcome(Model(), err) == SetWithExpireStep(codec, old(Model()), key, v, ttl, call)
    {
      var bs := codec.marshal(v);
      if bs.Unencodable? {
        return Some(Failed(bs.reason));
      }
      match call
      case Fault(why) =>
        err := Some(Failed(why));
      case Pass =>
        db := db[key := Entry(bs.text, ttl)];
        err := None;
    }

    method SetPlaceHolder(key: string, frac: Fraction, call: Call) returns (err: Option<Error>)
      modifies this
      ensures Outcome(Model(), err) == SetPlaceHolderStep(cfg, old(Model()), key, frac, call)
    {
      match call
      case Fault(why) =>
        err := Some(Failed(why));
      case Pass =>
        db := db[key := Entry(NotFoundPlaceHolder, RandExpire(cfg.expire, frac))];
        err := None;
    }

    /** Query as run by the caller that executes the coalesced call;
        `shared` is what the coalescer reports to this caller. */
    method Query(key: string, shared: bool, calls: QueryCalls, load: Load<V>)
      returns (err: Option<Error>, value: Option<V>, loaderCalled: bool)
      modifies this, stat
      ensures QueryOut(Model(), err, value, loaderCalled) == QueryStep(codec, cfg, old(Model()), key, shared, calls, load)
    {
      var getErr, got := Get(key, calls.read, calls.del);
      ghost var afterGet := Model();
      loaderCalled := false;
      if getErr.None? {
        err, value := None, got;
      } else if getErr.value == RedisNil {
        loaderCalled := true;
        match load
        case LoadFailed(le) =>
          stat.IncrementDbFails();
          err, value := Some(le), None;
        case LoadMissing =>
          var w := SetPlaceHolder(key, calls.frac, calls.write);
          log := log + [SetPlaceHolderWarn(key, w)];
          err, value := Some(ErrNotFound), None;
        case LoadFound(v) =>
          var w := Set(key, v, calls.frac, calls.write);
          if w.Some? {
            log := log + [CacheAfterQueryFail(key, w.value)];
          }
          err, value := None, Some(v);
      } else if getErr.value == ErrPlaceHolder {
        err, value := Some(ErrNotFound), None;
      } else {
        err, value := getErr, None;
      }
      assert QueryOut(Model(), err, value, loaderCalled) ==
        Resolve(codec, cfg, GetOut(afterGet, getErr, got), key, calls, load);
      if err.Some? && err.value != ErrNotFound {
        return;
      }
      if shared {
        stat.IncrementTotal();
        stat.IncrementShared();
      }
    }

    /** Exec: run the backing-store write (its outcome is `dbErr`), then
        invalidate. */
    method Exec(dbErr: Option<Error>, keys: seq<string>, call: Call) returns (err: Option<Error>)
      modifies this
      ensures Outcome(Model(), err) == ExecStep(old(Model()), dbErr, keys, call)
    {
      if dbErr.Some? {
        return dbErr;
      }
      err := Del(keys, call);
    }
  }
}
