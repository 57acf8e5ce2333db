/** The market-status cache: who writes it, and how stale an answer can be. */
module StatusCache {
  import opened Platform
  import BetFlow

  /** Redis keeps a status for five seconds; times are in milliseconds. */
  const TTL: Time := 5000

  /** `readAt` is when the status was the database's; it is not stored. */
  datatype Entry = Entry(status: MarketStatus, readAt: Time, setAt: Time)

  predicate Alive(e: Entry, now: Time) {
    now <= e.setAt + TTL
  }

  // ---------------------------------------------------------------- the writers, one call at a time

  class Catalog {
    var markets: map<Id, MarketStatus>
    var cache: map<Id, Entry>

    constructor (markets: map<Id, MarketStatus>)
      ensures this.markets == markets && cache == map[]
    {
      this.markets, cache := markets, map[];
    }

    function Get(id: Id, now: Time): Option<MarketStatus>
      reads this
    {
      if id in cache && Alive(cache[id], now) then Some(cache[id].status) else None
    }

    method Pipeline(now: Time, at: Time) returns (pipe: map<Id, Entry>)
      ensures pipe == WarmEntries(markets, now, at)
    {
      pipe := map[];
      var rest := markets.Keys;
      while rest != {}
        invariant rest <= markets.Keys
        invariant forall id :: id in pipe <==> id in markets && id !in rest && Warmed(markets[id])
        invariant forall id | id in pipe :: pipe[id] == Entry(markets[id], now, at)
        decreases rest
      {
        var id :| id in rest;
        rest := rest - {id};
        if Warmed(markets[id]) {
          pipe := pipe[id := Entry(markets[id], now, at)];
        }
      }
    }

    /**
     warm: the OPEN and SUSPENDED markets as they are now, in one pipeline; the
     rest of the cache stays. A pipeline that fails may have done some of its
     SETs, those of `applied`.
     */
    method Warm(now: Time, at: Time, redisOk: bool, applied: set<Id>)
      modifies this`cache
      ensures cache == WarmedCache(markets, old(cache), now, at, redisOk, applied)
      ensures redisOk ==>
                forall id | id in markets && (markets[id] == Open || markets[id] == Suspended) ::
                  id in cache && cache[id] == Entry(markets[id], now, at)
      ensures forall id | id !in markets || markets[id] == Closed || markets[id] == Settled ::
                (id in cache <==> id in old(cache)) && (id in cache ==> cache[id] == old(cache)[id])
      ensures WarmIsRuns(markets, old(cache), cache, now, at, redisOk, applied)
    {
      WarmedMeans(markets, cache, now, at, redisOk, applied);
      WarmedIsRuns(markets, cache, now, at, redisOk, applied);
      hide WarmIsRuns, WarmedCache, Warmed;
      Exec(now, at, redisOk, applied);
    }

    /** The pass itself: queue the SETs, then send them. */
    method Exec(now: Time, at: Time, redisOk: bool, applied: set<Id>)
      modifies this`cache
      ensures cache == WarmedCache(markets, old(cache), now, at, redisOk, applied)
    {
      var pipe := Pipeline(now, at);
      var done := map id | id in pipe && Reaches(redisOk, applied, id) :: pipe[id];
      cache := cache + done;
    }

    /** setMarketStatus: the database first, then the cache; an UPDATE that finds no row is not an error. */
    method SetMarketStatus(id: Id, status: MarketStatus, now: Time, at: Time, dbOk: bool, redisOk: bool)
      returns (ok: bool)
      modifies this
      ensures ok == (dbOk && redisOk)
      ensures markets == if dbOk && id in old(markets) then old(markets)[id := status] else old(markets)
      ensures cache == if dbOk && redisOk then old(cache)[id := Entry(status, now, at)] else old(cache)
      ensures SetIsRuns(old(markets), markets, old(cache), cache, id, status, now, at, dbOk, redisOk)
    {
      hide SetIsRuns;
      SettingIsRuns(markets, cache, id, status, now, at, dbOk, redisOk);
      if !dbOk {
        return false;
      }
      if id in markets {
        markets := markets[id := status];
      }
      if redisOk {
        cache := cache[id := Entry(status, now, at)];
      }
      return redisOk;
    }
  }

  /** The pipeline's SET for this market took effect. */
  predicate Reaches(redisOk: bool, applied: set<Id>, id: Id) {
    redisOk || id in applied
  }

  function WarmedCache(markets: map<Id, MarketStatus>, cache: map<Id, Entry>, now: Time, at: Time,
                       redisOk: bool, applied: set<Id>)
    : map<Id, Entry>
  {
    cache + map id | id in markets && Warmed(markets[id]) && Reaches(redisOk, applied, id) ::
      Entry(markets[id], now, at)
  }

  /** A successful pass sets the OPEN and the SUSPENDED markets; no pass touches another key. */
  lemma WarmedMeans(markets: map<Id, MarketStatus>, cache: map<Id, Entry>, now: Time, at: Time,
                    redisOk: bool, applied: set<Id>)
    ensures var cache' := WarmedCache(markets, cache, now, at, redisOk, applied);
            && (redisOk ==>
                 forall id | id in markets && (markets[id] == Open || markets[id] == Suspended) ::
                   id in cache' && cache'[id] == Entry(markets[id], now, at))
            && forall id | id !in markets || markets[id] == Closed || markets[id] == Settled ::
                 (id in cache' <==> id in cache) && (id in cache' ==> cache'[id] == cache[id])
  {}

  /** An entry is answered for five seconds from its SET, the last instant included. */
  lemma AnsweredFor(catalog: Catalog, id: Id, now: Time)
    requires id in catalog.cache
    ensures catalog.Get(id, now)
         == if now <= catalog.cache[id].setAt + 5000 then Some(catalog.cache[id].status) else None
  {}

  function WarmEntries(markets: map<Id, MarketStatus>, now: Time, at: Time): map<Id, Entry> {
    map id | id in markets && Warmed(markets[id]) :: Entry(markets[id], now, at)
  }

  predicate Warmed(status: MarketStatus) {
    status == Open || status == Suspended
  }

  // ---------------------------------------------------------------- one market, any interleaving

  /** The database took this status at this time. */
  datatype Change = Change(at: Time, status: MarketStatus)

  /**
   `log` is empty while the market has no row. `writes` are the SETs under way: a
   status and when it was read from, or meant for, the database.
   */
  datatype World = World(now: Time, log: seq<Change>, writes: map<CallId, Change>, cache: Option<Entry>)

  datatype Step =
    | Tick(elapsed: nat)
    | DbChange(status: MarketStatus)
    | SetStatus(c: CallId, status: MarketStatus)
    | WarmRead(c: CallId)
    | RedisSet(c: CallId)
    | RedisFail(c: CallId)

  const START := World(0, [], map[], None)

  /** The status in the market's row, if it has one. */
  function Status(s: World): Option<MarketStatus> {
    if s.log == [] then None else Some(s.log[|s.log| - 1].status)
  }

  /**
   `delay` bounds the time from a database access to the SET that follows it. A
   row may appear or change at any time; SetStatus changes a row only if there
   is one, and goes on to its SET in any case.
   */
  function Apply(delay: nat, s: World, step: Step): World {
    match step
    case Tick(elapsed) => s.(now := s.now + elapsed)
    case DbChange(status) => s.(log := s.log + [Change(s.now, status)])
    case SetStatus(c, status) =>
      if c in s.writes then s
      else s.(log := if s.log == [] then [] else s.log + [Change(s.now, status)],
              writes := s.writes[c := Change(s.now, status)])
    case WarmRead(c) =>
      if c in s.writes || Status(s).None? || !Warmed(Status(s).value) then s
      else s.(writes := s.writes[c := Change(s.now, Status(s).value)])
    case RedisSet(c) =>
      if c !in s.writes || s.now > s.writes[c].at + delay then s
      else s.(cache := Some(Entry(s.writes[c].status, s.writes[c].at, s.now)), writes := s.writes - {c})
    case RedisFail(c) => s.(writes := s.writes - {c})
  }

  function Run(delay: nat, steps: seq<Step>): World {
    if steps == [] then START
    else Apply(delay, Run(delay, steps[..|steps| - 1]), steps[|steps| - 1])
  }

  /** PlaceBet's read of the cache. */
  function Answer(s: World): Option<MarketStatus> {
    if s.cache.Some? && Alive(s.cache.value, s.now) then Some(s.cache.value.status) else None
  }

  // ---------------------------------------------------------------- the writers are runs of these steps

  /** The market `id` of these tables is in this state. */
  predicate Shows(markets: map<Id, MarketStatus>, cache: map<Id, Entry>, id: Id, s: World) {
    && Status(s) == (if id in markets then Some(markets[id]) else None)
    && s.cache == (if id in cache then Some(cache[id]) else None)
  }

  function Finish(delay: nat, s: World, c: CallId, at: Time, done: bool): World {
    var s' := if at >= s.now then Apply(delay, s, Tick(at - s.now)) else s;
    Apply(delay, s', if done then RedisSet(c) else RedisFail(c))
  }

  function WarmRun(delay: nat, s: World, c: CallId, at: Time, done: bool): World {
    Finish(delay, Apply(delay, s, WarmRead(c)), c, at, done)
  }

  function SetRun(delay: nat, s: World, c: CallId, status: MarketStatus, at: Time, dbOk: bool, redisOk: bool): World {
    if dbOk then Finish(delay, Apply(delay, s, SetStatus(c, status)), c, at, redisOk) else s
  }

  /** Every market sees the warm pass as a read and a SET of its own, which leave nothing under way. */
  ghost predicate WarmIsRuns(markets: map<Id, MarketStatus>, cache: map<Id, Entry>, cache': map<Id, Entry>,
                             now: Time, at: Time,
                             redisOk: bool, applied: set<Id>)
  {
    forall id, s, c, delay: nat |
      Shows(markets, cache, id, s) && s.now == now && c !in s.writes && now <= at <= now + delay ::
      var s' := WarmRun(delay, s, c, at, Reaches(redisOk, applied, id));
      Shows(markets, cache', id, s') && s'.writes == s.writes
  }

  lemma WarmIsRun(delay: nat, markets: map<Id, MarketStatus>, cache: map<Id, Entry>, id: Id, s: World,
                  c: CallId, at: Time,
                  redisOk: bool, applied: set<Id>)
    requires Shows(markets, cache, id, s) && c !in s.writes && s.now <= at <= s.now + delay
    ensures var s' := WarmRun(delay, s, c, at, Reaches(redisOk, applied, id));
            && Shows(markets, WarmedCache(markets, cache, s.now, at, redisOk, applied), id, s')
            && s'.writes == s.writes
  {}

  lemma WarmedIsRuns(markets: map<Id, MarketStatus>, cache: map<Id, Entry>, now: Time, at: Time, redisOk: bool,
                     applied: set<Id>)
    ensures WarmIsRuns(markets, cache, WarmedCache(markets, cache, now, at, redisOk, applied), now, at, redisOk,
                applied)
  {
    hide WarmedCache, Shows, WarmRun, Reaches;
    forall id, s, c, delay: nat |
      Shows(markets, cache, id, s) && s.now == now && c !in s.writes && now <= at <= now + delay
      ensures var s' := WarmRun(delay, s, c, at, Reaches(redisOk, applied, id));
              && Shows(markets, WarmedCache(markets, cache, now, at, redisOk, applied), id, s')
              && s'.writes == s.writes
    {
      WarmIsRun(delay, markets, cache, id, s, c, at, redisOk, applied);
    }
  }

  /** The market sees setMarketStatus as its write and SET, with nothing left under way; a failed UPDATE is no step. */
  ghost predicate SetIsRuns(markets: map<Id, MarketStatus>, markets': map<Id, MarketStatus>,
                            cache: map<Id, Entry>, cache': map<Id, Entry>,
                            id: Id, status: MarketStatus, now: Time, at: Time, dbOk: bool, redisOk: bool)
  {
    forall s, c, delay: nat |
      Shows(markets, cache, id, s) && s.now == now && c !in s.writes && now <= at <= now + delay ::
      var s' := SetRun(delay, s, c, status, at, dbOk, redisOk);
      Shows(markets', cache', id, s') && s'.writes == s.writes
  }

  lemma SetIsRun(delay: nat, markets: map<Id, MarketStatus>, cache: map<Id, Entry>, id: Id, s: World, c: CallId,
                 status: MarketStatus,
                 at: Time, dbOk: bool, redisOk: bool)
    requires Shows(markets, cache, id, s) && c !in s.writes && s.now <= at <= s.now + delay
    ensures Shows(if dbOk && id in markets then markets[id := status] else markets,
                  if dbOk && redisOk then cache[id := Entry(status, s.now, at)] else cache,
                  id, SetRun(delay, s, c, status, at, dbOk, redisOk))
    ensures SetRun(delay, s, c, status, at, dbOk, redisOk).writes == s.writes
  {}

  lemma SettingIsRuns(markets: map<Id, MarketStatus>, cache: map<Id, Entry>, id: Id, status: MarketStatus,
                      now: Time, at: Time,
                      dbOk: bool, redisOk: bool)
    ensures SetIsRuns(markets, if dbOk && id in markets then markets[id := status] else markets,
                      cache, if dbOk && redisOk then cache[id := Entry(status, now, at)] else cache,
                      id, status, now, at, dbOk, redisOk)
  {
    hide Shows, SetRun;
    var markets' := if dbOk && id in markets then markets[id := status] else markets;
    var cache' := if dbOk && redisOk then cache[id := Entry(status, now, at)] else cache;
    forall s, c, delay: nat |
      Shows(markets, cache, id, s) && s.now == now && c !in s.writes && now <= at <= now + delay
      ensures var s' := SetRun(delay, s, c, status, at, dbOk, redisOk);
              Shows(markets', cache', id, s') && s'.writes == s.writes
    {
      SetIsRun(delay, markets, cache, id, s, c, status, at, dbOk, redisOk);
    }
  }

  /** The class answers what the World answers. */
  lemma GetIsAnswer(catalog: Catalog, id: Id, s: World)
    requires Shows(catalog.markets, catalog.cache, id, s)
    ensures catalog.Get(id, s.now) == Answer(s)
  {}

  // ---------------------------------------------------------------- staleness

  /** The database had this status at some instant from `from` to `to`. */
  predicate Held(log: seq<Change>, status: MarketStatus, from: Time, to: Time) {
    exists k :: 0 <= k < |log| && log[k].status == status && log[k].at <= to
                && (k + 1 < |log| ==> from <= log[k + 1].at)
  }

  /** Statuses are only set for markets that have a row. */
  predicate OnRows(delay: nat, steps: seq<Step>) {
    steps == [] ||
    var prefix, last := steps[..|steps| - 1], steps[|steps| - 1];
    OnRows(delay, prefix) && (last.SetStatus? ==> Run(delay, prefix).log != [])
  }

  predicate TimesOk(delay: nat, s: World) {
    && (forall k | 0 <= k < |s.log| :: s.log[k].at <= s.now)
    && (forall k, l | 0 <= k < l < |s.log| :: s.log[k].at <= s.log[l].at)
    && (forall c | c in s.writes :: s.writes[c].at <= s.now)
    && (s.cache.Some? ==> var e := s.cache.value; e.readAt <= e.setAt <= s.now && e.setAt <= e.readAt + delay)
  }

  /** What is being written, and what is cached, was in the database when it was read. */
  predicate SourcesOk(s: World) {
    && (forall c | c in s.writes :: Held(s.log, s.writes[c].status, s.writes[c].at, s.writes[c].at))
    && (s.cache.Some? ==> Held(s.log, s.cache.value.status, s.cache.value.readAt, s.cache.value.readAt))
  }

  lemma HeldSnoc(log: seq<Change>, change: Change, status: MarketStatus, at: Time)
    requires Held(log, status, at, at) && at <= change.at
    ensures Held(log + [change], status, at, at)
  {
    var k :| 0 <= k < |log| && log[k].status == status && log[k].at <= at && (k + 1 < |log| ==> at <= log[k + 1].at);
    assert (log + [change])[k] == log[k];
    assert (log + [change])[k + 1] == if k + 1 < |log| then log[k + 1] else change;
  }

  lemma HeldNow(log: seq<Change>, at: Time)
    requires log != [] && log[|log| - 1].at <= at
    ensures Held(log, log[|log| - 1].status, at, at)
  {
    assert log[|log| - 1].at <= at;
  }

  lemma StepKeepsTimes(delay: nat, s: World, step: Step)
    requires TimesOk(delay, s)
    ensures TimesOk(delay, Apply(delay, s, step))
  {}

  lemma LogGrows(delay: nat, s: World, status: MarketStatus)
    requires TimesOk(delay, s) && SourcesOk(s)
    ensures SourcesOk(s.(log := s.log + [Change(s.now, status)]))
    ensures Held(s.log + [Change(s.now, status)], status, s.now, s.now)
  {
    var change := Change(s.now, status);
    var log := s.log + [change];
    HeldNow(log, s.now);
    forall c | c in s.writes ensures Held(log, s.writes[c].status, s.writes[c].at, s.writes[c].at) {
      HeldSnoc(s.log, change, s.writes[c].status, s.writes[c].at);
    }
    if s.cache.Some? {
      HeldSnoc(s.log, change, s.cache.value.status, s.cache.value.readAt);
    }
  }

  lemma StepKeepsSources(delay: nat, s: World, step: Step)
    requires TimesOk(delay, s) && SourcesOk(s)
    requires step.SetStatus? ==> s.log != []
    ensures SourcesOk(Apply(delay, s, step))
  {
    match step
    case DbChange(status) => LogGrows(delay, s, status);
    case SetStatus(c, status) =>
      LogGrows(delay, s, status);
      hide Held;
    case WarmRead(c) =>
      if s.log != [] { HeldNow(s.log, s.now); }
      hide Held;
    case _ => hide Held;
  }

  lemma {:induction false} RunTimes(delay: nat, steps: seq<Step>)
    ensures TimesOk(delay, Run(delay, steps))
  {
    if steps != [] {
      RunTimes(delay, steps[..|steps| - 1]);
      StepKeepsTimes(delay, Run(delay, steps[..|steps| - 1]), steps[|steps| - 1]);
    }
  }

  lemma {:induction false} RunSources(delay: nat, steps: seq<Step>)
    requires OnRows(delay, steps)
    ensures SourcesOk(Run(delay, steps))
  {
    if steps != [] {
      hide Apply, SourcesOk, TimesOk;
      RunTimes(delay, steps[..|steps| - 1]);
      RunSources(delay, steps[..|steps| - 1]);
      StepKeepsSources(delay, Run(delay, steps[..|steps| - 1]), steps[|steps| - 1]);
    } else {
      assert Run(delay, steps) == START;
    }
  }

  /**
   When statuses are only set for markets that have a row, whatever the cache
   answers was the database's status at some instant of the last TTL + delay.
   */
  lemma BoundedStaleness(delay: nat, steps: seq<Step>)
    requires OnRows(delay, steps)
    ensures var s := Run(delay, steps);
            Answer(s).Some? ==> Held(s.log, Answer(s).value, s.now - TTL - delay, s.now)
  {
    RunTimes(delay, steps);
    RunSources(delay, steps);
    var s := Run(delay, steps);
    if Answer(s).Some? {
      var e := s.cache.value;
      assert Held(s.log, e.status, e.readAt, e.readAt);
      HeldLonger(s.log, e.status, e.readAt, s.now - TTL - delay, s.now);
    }
  }

  lemma HeldLonger(log: seq<Change>, status: MarketStatus, at: Time, from: Time, to: Time)
    requires Held(log, status, at, at) && from <= at <= to
    ensures Held(log, status, from, to)
  {
    var k :| 0 <= k < |log| && log[k].status == status && log[k].at <= at && (k + 1 < |log| ==> at <= log[k + 1].at);
  }

  /**
   The condition is exact: right after a status was set and written through, the
   answer is that status, and the database ever had it in the window exactly when
   the market has a row.
   */
  lemma WriteThroughExactly(delay: nat, s: World, c: CallId, status: MarketStatus)
    requires TimesOk(delay, s) && c !in s.writes
    ensures var s' := Apply(delay, Apply(delay, s, SetStatus(c, status)), RedisSet(c));
            && Answer(s') == Some(status)
            && (Held(s'.log, status, s'.now - TTL - delay, s'.now) <==> s.log != [])
  {
    if s.log != [] {
      var log := s.log + [Change(s.now, status)];
      HeldNow(log, s.now);
      HeldLonger(log, status, s.now, s.now - TTL - delay, s.now);
    }
  }

  predicate Opens(step: Step) {
    (step.DbChange? || step.SetStatus?) && step.status == Open
  }

  /** Every OPEN that is being written or cached is from `since` or before, and the database does not say OPEN. */
  predicate OpenIsOld(delay: nat, s: World, since: Time) {
    && Status(s) != Some(Open)
    && (forall c | c in s.writes && s.writes[c].status == Open :: s.writes[c].at <= since)
    && (s.cache.Some? && s.cache.value.status == Open ==>
          s.cache.value.readAt <= since && s.cache.value.setAt <= s.cache.value.readAt + delay)
  }

  lemma StepKeepsOld(delay: nat, s: World, step: Step, since: Time)
    requires OpenIsOld(delay, s, since) && !Opens(step)
    ensures OpenIsOld(delay, Apply(delay, s, step), since)
  {}

  lemma {:induction false} OpenStaysOld(delay: nat, steps: seq<Step>, more: seq<Step>)
    requires Status(Run(delay, steps)) != Some(Open)
    requires forall k | 0 <= k < |more| :: !Opens(more[k])
    ensures OpenIsOld(delay, Run(delay, steps + more), Run(delay, steps).now)
    decreases |more|
  {
    if more == [] {
      assert steps + more == steps;
      RunTimes(delay, steps);
    } else {
      var n := |more| - 1;
      OpenStaysOld(delay, steps, more[..n]);
      assert (steps + more)[..|steps + more| - 1] == steps + more[..n];
      hide Apply, OpenIsOld, Opens;
      StepKeepsOld(delay, Run(delay, steps + more[..n]), more[n], Run(delay, steps).now);
    }
  }

  lemma ClosedLongAgo(delay: nat, steps: seq<Step>, more: seq<Step>)
    requires Status(Run(delay, steps)) != Some(Open)
    requires forall k | 0 <= k < |more| :: !Opens(more[k])
    requires Run(delay, steps + more).now > Run(delay, steps).now + TTL + delay
    ensures Answer(Run(delay, steps + more)) != Some(Open)
  {
    OpenStaysOld(delay, steps, more);
    hide Run;
  }

  /** A market that has not been open for longer than TTL + delay, rows or not, is refused by every placement. */
  lemma ClosedIsRefused(delay: nat, steps: seq<Step>, more: seq<Step>,
                        odds: Option<BetFlow.CachedOdds>, r: BetFlow.Request, a: BetFlow.Answers)
    requires Status(Run(delay, steps)) != Some(Open)
    requires forall k | 0 <= k < |more| :: !Opens(more[k])
    requires Run(delay, steps + more).now > Run(delay, steps).now + TTL + delay
    ensures !BetFlow.Acceptable(Answer(Run(delay, steps + more)), odds, r, a)
  {
    hide Run, Answer, BetFlow.CheckLimits;
    ClosedLongAgo(delay, steps, more);
  }

  /** A warm pass that read just before the market was closed, and whose SET lands just after. */
  function LateWarm(delay: nat): seq<Step> {
    [DbChange(Open), WarmRead(0), SetStatus(1, Closed), RedisSet(1), Tick(delay), RedisSet(0), Tick(TTL)]
  }

  /** The bound cannot be lowered: the write-through does not help against a warm pass already under way. */
  lemma BoundIsTight(delay: nat)
    ensures var s := Run(delay, LateWarm(delay));
            Answer(s) == Some(Open) && s.log == [Change(0, Open), Change(0, Closed)] && s.now == TTL + delay
  {
    var steps := LateWarm(delay);
    var s0 := START.(log := [Change(0, Open)]);
    var s1 := s0.(writes := map[0 := Change(0, Open)]);
    var s2 := s1.(log := [Change(0, Open), Change(0, Closed)], writes := s1.writes[1 := Change(0, Closed)]);
    var s3 := s2.(cache := Some(Entry(Closed, 0, 0)), writes := s1.writes);
    var s4 := s3.(now := delay);
    var s5 := s4.(cache := Some(Entry(Open, 0, delay)), writes := map[]);
    forall k | 0 <= k < 7 ensures steps[..k + 1][..k] == steps[..k] {}
    assert steps[..0] == [];
    assert Run(delay, steps[..1]) == s0;
    assert Run(delay, steps[..2]) == s1;
    assert s2.writes - {1} == s1.writes;
    assert Run(delay, steps[..3]) == s2;
    assert Run(delay, steps[..4]) == s3;
    assert Run(delay, steps[..5]) == s4;
    assert Run(delay, steps[..6]) == s5;
    assert steps[..7] == steps;
  }
}
