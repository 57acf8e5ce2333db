/** Synchronous bet placement, one call at a time; its interleavings are in Placement. */
module BetFlow {
  import opened Platform
  import opened BetHistory
  import opened Outbox
  import opened Reals

  datatype Request = Request(
    key: Id, user: UserId, market: Id, selection: Id,
    requestedDecimal: real, requestedAmerican: int, stake: int, currency: Id)

  datatype CachedOdds = CachedOdds(decimal: real, american: int) | Corrupt

  /** GetUserLimits' reply; an absent message field is None. */
  datatype Limits = Limits(maxSingle: Option<int>, daily: Option<int>, stakedSoFar: Option<int>)

  datatype LagCheck = CaughtUp | Lagging | LagUnknown

  datatype DeductReply = Deducted | FailedPrecondition | OtherError

  datatype Refusal =
    | MarketMiss | MarketNotOpen | OddsMiss | OddsCorrupt | OddsInvalid | OddsMoved
    | LimitsUnavailable | LimitExceeded | OddsNotSettled | OutboxUnavailable
    | InsufficientFunds | DeductFailed

  datatype Result =
    | Accepted(bet: BetId, decimal: real, american: int, stake: int, currency: Id, placedAt: Time)
    | Rejected(reason: Refusal)

  /** What the services around one call answer, and the identifiers it draws. */
  datatype Answers = Answers(
    idemRead: bool, marketRead: bool, oddsRead: bool,
    limits: Option<Limits>, lag: LagCheck, outboxOk: bool, deduct: DeductReply,
    cancelOk: bool, readyOk: bool, idemOk: bool, bet: BetId, outboxId: Id,
    now: Time, repliedAt: Time)

  const TOLERANCE := 0.05
  const LARGE_STAKE := 10000

  function Abs(x: real): real {
    if x < 0.0 then -x else x
  }

  function ValidateOdds(r: Request, current: CachedOdds): Option<Refusal>
    requires current.CachedOdds?
  {
    if current.decimal <= 0.0 then Some(OddsInvalid)
    else if Abs(r.requestedDecimal - current.decimal) / current.decimal > TOLERANCE then Some(OddsMoved)
    else None
  }

  /** checkLimits: the single-stake cap, then what remains of the daily limit. */
  function CheckLimits(stake: int, l: Limits): (refused: bool)
    ensures !refused <==>
            && (l.maxSingle.Some? ==> stake <= l.maxSingle.value)
            && (l.daily.Some? && l.stakedSoFar.Some? ==> l.stakedSoFar.value + stake <= l.daily.value)
  {
    if l.maxSingle.Some? && stake > l.maxSingle.value then true
    else if l.daily.Some? && l.stakedSoFar.Some? then
      var remaining := l.daily.value - l.stakedSoFar.value;
      stake > remaining
    else false
  }

  /** Everything steps 2 to 5 ask for. */
  predicate Acceptable(market: Option<MarketStatus>, odds: Option<CachedOdds>, r: Request, a: Answers) {
    && market == Some(Open)
    && odds.Some? && odds.value.CachedOdds? && odds.value.decimal > 0.0
    && 0.95 * odds.value.decimal <= r.requestedDecimal <= 1.05 * odds.value.decimal
    && a.limits.Some? && !CheckLimits(r.stake, a.limits.value)
    && (r.stake >= 10000 ==> a.lag == CaughtUp)
  }

  /** A refusal names something that is the case. */
  predicate Justified(reason: Refusal, market: Option<MarketStatus>, odds: Option<CachedOdds>, r: Request, a: Answers) {
    match reason
    case MarketMiss => market.None?
    case MarketNotOpen => market.Some? && market.value != Open
    case OddsMiss => odds.None?
    case OddsCorrupt => odds == Some(Corrupt)
    case OddsInvalid => odds.Some? && odds.value.CachedOdds? && odds.value.decimal <= 0.0
    case OddsMoved =>
      && odds.Some? && odds.value.CachedOdds? && odds.value.decimal > 0.0
      && !(0.95 * odds.value.decimal <= r.requestedDecimal <= 1.05 * odds.value.decimal)
    case LimitsUnavailable => a.limits.None?
    case LimitExceeded => a.limits.Some? && CheckLimits(r.stake, a.limits.value)
    case OddsNotSettled => r.stake >= 10000 && a.lag != CaughtUp
    case OutboxUnavailable => !a.outboxOk
    case InsufficientFunds => a.deduct == FailedPrecondition
    case DeductFailed => a.deduct == OtherError
  }

  lemma WithinTolerance(r: Request, current: CachedOdds)
    requires current.CachedOdds?
    ensures ValidateOdds(r, current) == None
        <==> current.decimal > 0.0 && 0.95 * current.decimal <= r.requestedDecimal <= 1.05 * current.decimal
  {
    if current.decimal > 0.0 {
      Movement(Abs(r.requestedDecimal - current.decimal), current.decimal);
    }
  }

  lemma Movement(gap: real, decimal: real)
    requires decimal > 0.0
    ensures gap / decimal > TOLERANCE <==> gap > 0.05 * decimal
  {
    assert gap / decimal * decimal == gap;
    Compare(TOLERANCE, gap / decimal, decimal);
  }

  class BetAcceptance {
    const outbox: Relay
    /** Redis: idempotency keys, market status, odds. Expiry is part of StatusCache. */
    var idem: map<Id, BetId>
    var marketStatus: map<Id, MarketStatus>
    var odds: map<(Id, Id), CachedOdds>

    constructor (outbox: Relay)
      ensures this.outbox == outbox && idem == map[]
    {
      this.outbox := outbox;
      idem, marketStatus, odds := map[], map[], map[];
    }

    /** A read that Redis fails is a miss. */
    function Market(r: Request, a: Answers): Option<MarketStatus>
      reads this
    {
      if a.marketRead && r.market in marketStatus then Some(marketStatus[r.market]) else None
    }

    function Odds(r: Request, a: Answers): Option<CachedOdds>
      reads this
    {
      if a.oddsRead && (r.market, r.selection) in odds then Some(odds[(r.market, r.selection)]) else None
    }

    /** Steps 2 to 5. */
    method Screen(r: Request, a: Answers) returns (refusal: Option<Refusal>)
      ensures refusal.None? <==> Acceptable(Market(r, a), Odds(r, a), r, a)
      ensures refusal.Some? ==> Justified(refusal.value, Market(r, a), Odds(r, a), r, a)
      ensures refusal.None? ==>
                && a.marketRead && r.market in marketStatus && marketStatus[r.market] == Open
                && a.oddsRead && (r.market, r.selection) in odds && odds[(r.market, r.selection)].CachedOdds?
      ensures refusal.Some? ==> refusal.value !in {OutboxUnavailable, InsufficientFunds, DeductFailed}
    {
      if !a.marketRead || r.market !in marketStatus {
        return Some(MarketMiss);
      }
      if marketStatus[r.market] != Open {
        return Some(MarketNotOpen);
      }
      if !a.oddsRead || (r.market, r.selection) !in odds {
        return Some(OddsMiss);
      }
      var current := odds[(r.market, r.selection)];
      if current.Corrupt? {
        return Some(OddsCorrupt);
      }
      WithinTolerance(r, current);
      var invalid := ValidateOdds(r, current);
      if invalid.Some? {
        return invalid;
      }
      if a.limits.None? {
        return Some(LimitsUnavailable);
      }
      if CheckLimits(r.stake, a.limits.value) {
        return Some(LimitExceeded);
      }
      if r.stake >= LARGE_STAKE && a.lag != CaughtUp {
        return Some(OddsNotSettled);
      }
      return None;
    }

    /**
     PlaceBet, steps 1 to 9. An idempotency key that is found replays; a refused request
     writes nothing; otherwise one outbox row is written, READY only when the
     wallet's debit was confirmed, and the reply is ACCEPTED exactly then.
     */
    method PlaceBet(r: Request, a: Answers) returns (result: Result)
      requires forall i | 0 <= i < |outbox.rows| :: outbox.rows[i].bet != a.bet
      modifies this`idem, outbox`rows
      ensures a.idemRead && r.key in old(idem) ==>
                && result == Accepted(old(idem)[r.key], r.requestedDecimal, r.requestedAmerican, r.stake, r.currency,
                      a.repliedAt)
                && idem == old(idem) && outbox.rows == old(outbox.rows)
      ensures !(a.idemRead && r.key in old(idem)) ==>
                !(Acceptable(old(Market(r, a)), old(Odds(r, a)), r, a) && a.outboxOk) ==>
                && result.Rejected? && Justified(result.reason, old(Market(r, a)), old(Odds(r, a)), r, a)
                && idem == old(idem) && outbox.rows == old(outbox.rows)
      ensures !(a.idemRead && r.key in old(idem)) ==>
                Acceptable(old(Market(r, a)), old(Odds(r, a)), r, a) && a.outboxOk ==>
                var current := old(Odds(r, a)).value;
                var slip := Slip(a.bet, r.user, r.market, r.selection, current.decimal, current.american, r.stake);
                var status := if a.deduct.Deducted? then (if a.readyOk then Ready else Pending)
                              else (if a.cancelOk then Cancelled else Pending);
                && outbox.rows == old(outbox.rows)
                                  + [OutboxRow(a.outboxId, a.bet, Payload(slip, a.now), status, a.now)]
                && result == (if a.deduct.Deducted? then
                                Accepted(a.bet, current.decimal, current.american, r.stake, r.currency, a.repliedAt)
                              else if a.deduct.FailedPrecondition? then Rejected(InsufficientFunds)
                              else Rejected(DeductFailed))
                && idem == if a.deduct.Deducted? && a.idemOk then old(idem)[r.key := a.bet] else old(idem)
    {
      if a.idemRead && r.key in idem {
        return Accepted(idem[r.key], r.requestedDecimal, r.requestedAmerican, r.stake, r.currency, a.repliedAt);
      }
      var refusal := Screen(r, a);
      if refusal.Some? {
        return Rejected(refusal.value);
      }
      var current := odds[(r.market, r.selection)];
      if !a.outboxOk {
        return Rejected(OutboxUnavailable);
      }
      var slip := Slip(a.bet, r.user, r.market, r.selection, current.decimal, current.american, r.stake);
      outbox.WritePending(a.outboxId, a.bet, Payload(slip, a.now), a.now);
      if a.deduct != Deducted {
        if a.cancelOk {
          outbox.Cancel(a.bet);
        }
        return Rejected(if a.deduct.FailedPrecondition? then InsufficientFunds else DeductFailed);
      }
      if a.readyOk {
        outbox.MarkReady(a.bet);
      }
      if a.idemOk {
        idem := idem[r.key := a.bet];
      }
      return Accepted(a.bet, current.decimal, current.american, r.stake, r.currency, a.repliedAt);
    }
  }
}
