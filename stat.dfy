/** The cache's statistics (stat.go): counters bumped on the hot path and a
    reporting tick that swaps them to zero and emits what it swapped out.

    The counters are unbounded here; the source's uint64 wrap-around is not
    modelled. `shared` is not in stat.go: it is added because cache.go
    increments it (see README). */
module Stats {
  import opened Base

  datatype CounterKind = Total | Hit | Miss | DbFails | Shared

  /** The values of the five counters at one moment. */
  datatype Counters = Counters(total: nat, hit: nat, miss: nat, dbFails: nat, shared: nat)

  const Zero := Counters(0, 0, 0, 0, 0)

  function Count(c: Counters, k: CounterKind): nat {
    match k
    case Total => c.total
    case Hit => c.hit
    case Miss => c.miss
    case DbFails => c.dbFails
    case Shared => c.shared
  }

  /** One `increment*` call: its own counter goes up by one, no other moves. */
  function Incremented(c: Counters, k: CounterKind): (r: Counters)
    ensures Count(r, k) == Count(c, k) + 1
    ensures forall j :: j != k ==> Count(r, j) == Count(c, j)
  {
    match k
    case Total => c.(total := c.total + 1)
    case Hit => c.(hit := c.hit + 1)
    case Miss => c.(miss := c.miss + 1)
    case DbFails => c.(dbFails := c.dbFails + 1)
    case Shared => c.(shared := c.shared + 1)
  }

  /** The figures of one emitted report line. */
  datatype Report = Report(total: nat, hit: nat, miss: nat, dbFails: nat)

  /** The hit ratio printed with a report, as an exact percentage (the
      source computes it in float32). Only defined for a non-empty window. */
  function HitPercent(r: Report): (p: real)
    requires r.total > 0
    ensures p * r.total as real == 100.0 * r.hit as real
    ensures 0.0 <= p
    ensures r.hit <= r.total ==> p <= 100.0
  {
    100.0 * r.hit as real / r.total as real
  }

  datatype TickOut = TickOut(after: Counters, report: Option<Report>)

  /** One iteration of the reporting loop. */
  function TickStep(c: Counters): (r: TickOut)
    ensures r.report.Some? <==> c.total > 0
    ensures r.report.Some? ==> r.report.value == Report(c.total, c.hit, c.miss, c.dbFails)
    ensures r.report.Some? ==> r.report.value.total > 0
    ensures c.total == 0 ==> r.after == c
    ensures c.total > 0 ==> r.after == Zero.(shared := c.shared)
  {
    if c.total == 0 then TickOut(c, None)
    else TickOut(Counters(0, 0, 0, 0, c.shared), Some(Report(c.total, c.hit, c.miss, c.dbFails)))
  }

  /** What the cache keeps true of the counters between operations: every
      hit or miss, and every loader failure, belongs to a counted call. */
  ghost predicate Consistent(c: Counters) {
    c.hit + c.miss <= c.total && c.dbFails <= c.total
  }

  /** A tick that finds `total` at zero skips the report; under the cache's
      invariant it leaves nothing else waiting either. */
  lemma SkippedTickHidesNothing(c: Counters)
    requires Consistent(c) && c.total == 0
    ensures TickStep(c).report == None
    ensures TickStep(c).after == Zero.(shared := c.shared)
  {
  }

  /** A tick keeps the invariant. */
  lemma TickKeepsConsistent(c: Counters)
    requires Consistent(c)
    ensures Consistent(TickStep(c).after)
  {
  }

  /** The counters' own history: increments and reporting ticks. */
  datatype Event = Bump(kind: CounterKind) | Tock

  datatype RunOut = RunOut(after: Counters, reports: seq<Report>)

  /** The counters and the emitted reports after a history of events. */
  function Run(c: Counters, evs: seq<Event>): RunOut
    decreases |evs|
  {
    if evs == [] then RunOut(c, [])
    else
      match evs[0]
      case Bump(k) => Run(Incremented(c, k), evs[1..])
      case Tock =>
        var t := TickStep(c);
        var rest := Run(t.after, evs[1..]);
        var emitted := if t.report.Some? then [t.report.value] else [];
        RunOut(rest.after, emitted + rest.reports)
  }

  function ReportCount(r: Report, k: CounterKind): nat {
    match k
    case Total => r.total
    case Hit => r.hit
    case Miss => r.miss
    case DbFails => r.dbFails
    case Shared => 0
  }

  /** The sum of one counter over a sequence of reports. */
  function Reported(rs: seq<Report>, k: CounterKind): nat
    decreases |rs|
  {
    if rs == [] then 0 else ReportCount(rs[0], k) + Reported(rs[1..], k)
  }

  /** How many increments of one counter a history holds. */
  function Bumps(evs: seq<Event>, k: CounterKind): nat
    decreases |evs|
  {
    if evs == [] then 0 else (if evs[0] == Bump(k) then 1 else 0) + Bumps(evs[1..], k)
  }

  /** No increment is lost or reported twice: over any history, each one is
      either in exactly one emitted report or still held by its counter. A
      tick that skips an empty window leaves `hit`, `miss` and `dbFails` in
      place for the next one. */
  lemma {:induction false} NothingLostOrDoubled(c: Counters, evs: seq<Event>, k: CounterKind)
    ensures Reported(Run(c, evs).reports, k) + Count(Run(c, evs).after, k) == Count(c, k) + Bumps(evs, k)
    decreases |evs|
  {
    if evs != [] {
      match evs[0]
      case Bump(j) =>
        NothingLostOrDoubled(Incremented(c, j), evs[1..], k);
      case Tock =>
        var t := TickStep(c);
        NothingLostOrDoubled(t.after, evs[1..], k);
        var rest := Run(t.after, evs[1..]);
        if t.report.Some? {
          assert ([t.report.value] + rest.reports)[1..] == rest.reports;
        } else {
          assert [] + rest.reports == rest.reports;
        }
    }
  }

  /** The `stat` object: counters updated in place. */
  class Stat {
    const name: string
    var total: nat
    var hit: nat
    var miss: nat
    var dbFails: nat
    var shared: nat

    function Snapshot(): Counters
      reads this
    {
      Counters(total, hit, miss, dbFails, shared)
    }

    /** NewStat: every counter starts at zero (the ticker goroutine it
        starts is modelled by calls to Tick). */
    constructor (name: string)
      ensures this.name == name && Snapshot() == Zero
    {
      this.name := name;
      total, hit, miss, dbFails, shared := 0, 0, 0, 0, 0;
    }

    method IncrementTotal()
      modifies this
      ensures Snapshot() == Incremented(old(Snapshot()), Total)
    {
      total := total + 1;
    }

    method IncrementHit()
      modifies this
      ensures Snapshot() == Incremented(old(Snapshot()), Hit)
    {
      hit := hit + 1;
    }

    method IncrementMiss()
      modifies this
      ensures Snapshot() == Incremented(old(Snapshot()), Miss)
    {
      miss := miss + 1;
    }

    method IncrementDbFails()
      modifies this
      ensures Snapshot() == Incremented(old(Snapshot()), DbFails)
    {
      dbFails := dbFails + 1;
    }

    /** Not in stat.go; cache.go calls it for coalesced callers. */
    method IncrementShared()
      modifies this
      ensures Snapshot() == Incremented(old(Snapshot()), Shared)
    {
      shared := shared + 1;
    }

    /** One pass of the statLoop body: swap `total` to zero; on an empty
        window stop there, otherwise swap the other three and report. */
    method Tick() returns (report: Option<Report>)
      modifies this
      ensures TickOut(Snapshot(), report) == TickStep(old(Snapshot()))
    {
      var t := total;
      total := 0;
      if t == 0 {
        return None;
      }
      var h := hit;
      hit := 0;
      var m := miss;
      miss := 0;
      var f := dbFails;
      dbFails := 0;
      report := Some(Report(t, h, m, f));
    }
  }
}
