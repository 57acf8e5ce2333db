/**
 Bet placement, the outbox relay and the bet history as one crash-prone
 protocol around the concurrent wallet. A run is any sequence of single steps
 of any number of placements, wallet calls, relays and consumers; a crash is a
 party that takes no further step.
 */
module Placement {
  import opened Platform
  import opened Wallet
  import opened Outbox
  import BetHistory

  /** How far one PlaceBet call has come after writing its outbox row. */
  datatype Stage = Requested | Debited | Refused | Accepted | Rejected

  datatype Flow = Flow(slip: BetHistory.Slip, tx: TxId, outbox: Id, placedAt: Time, stage: Stage)

  /** The rows a relay fetched and has not dealt with; `sent` says that the first of them was acknowledged. */
  datatype Queue = Queue(rows: seq<OutboxRow>, sent: bool)

  /** Row i of the outbox was written by flow i. `idem` is Redis: the bet stored under each idempotency key. */
  datatype World = World(
    flows: seq<Flow>,
    rows: seq<OutboxRow>,
    wallet: Wallet.State,
    relays: map<nat, Queue>,
    topic: seq<Message>,
    history: seq<BetHistory.BetRow>,
    idem: map<Id, BetId>)

  const START := World([], [], EMPTY, map[], [], [], map[])

  /** The DeductBalance request of a flow. */
  function RequestOf(flow: Flow): Wallet.Request {
    Wallet.Request(Deduct, flow.tx, flow.slip.user, flow.slip.stake, flow.slip.bet)
  }

  /**
   Any wallet call may arrive at any time, except that only flows debit stakes,
   each with its own request, and nobody else uses a flow's transaction id. A
   request may arrive late, after its flow gave up, and more than once.
   */
  predicate Fits(flows: seq<Flow>, r: Wallet.Request) {
    if r.rpc.Deduct? then exists f :: 0 <= f < |flows| && RequestOf(flows[f]) == r
    else forall f | 0 <= f < |flows| :: flows[f].tx != r.tx
  }

  /** The identifiers a flow draws are new. */
  predicate Fresh(s: World, bet: BetId, tx: TxId, outbox: Id) {
    && (forall f | 0 <= f < |s.flows| ::
          s.flows[f].slip.bet != bet && s.flows[f].tx != tx && s.flows[f].outbox != outbox)
    && (forall c | c in s.wallet.calls :: s.wallet.calls[c].request.tx != tx)
    && tx !in Ids(s.wallet.ledger)
  }

  predicate Succeeded(phase: Phase) {
    phase.Finished? && (phase.outcome.Committed? || phase.outcome.Replayed?)
  }

  datatype Action =
    | WriteOutbox(slip: BetHistory.Slip, tx: TxId, outbox: Id, at: Time)
    | WalletStep(step: Wallet.Step)
    | ReplyOk(f: nat, c: CallId)
    | ReplyError(f: nat)
    | MarkReady(f: nat, applied: bool)
    | Cancel(f: nat, applied: bool)
    | StoreKey(f: nat, key: Id)
    | ExpireKey(key: Id)
    | Poll(relay: nat, batch: seq<nat>)
    | Send(relay: nat, appended: bool, acked: bool)
    | Mark(relay: nat, applied: bool)
    | Restart(relay: nat)
    | Deliver(k: nat, now: Time, confirm: Option<TxId>)
    | Outcome(event: BetHistory.Event)

  predicate At(s: World, f: nat, stage: Stage) {
    f < |s.flows| && s.flows[f].stage == stage
  }

  function Advance(s: World, f: nat, stage: Stage): World
    requires f < |s.flows|
  {
    s.(flows := s.flows[f := s.flows[f].(stage := stage)])
  }

  function QueueOf(s: World, relay: nat): Queue {
    if relay in s.relays then s.relays[relay] else Queue([], false)
  }

  function Write(s: World, slip: BetHistory.Slip, tx: TxId, outbox: Id, at: Time): World {
    if !Fresh(s, slip.bet, tx, outbox) then s
    else s.(flows := s.flows + [Flow(slip, tx, outbox, at, Requested)],
            rows := s.rows + [OutboxRow(outbox, slip.bet, Payload(slip, at), Pending, at)])
  }

  /** A positive reply exists only if some wallet call for this very request ended well. */
  function Replied(s: World, f: nat, c: CallId): World {
    if At(s, f, Requested) && c in s.wallet.calls
       && s.wallet.calls[c].request == RequestOf(s.flows[f]) && Succeeded(s.wallet.calls[c].phase)
    then Advance(s, f, Debited) else s
  }

  /** fetchReady of one of several relays: rows that are READY now; nothing stays locked. */
  function Polled(s: World, relay: nat, batch: seq<nat>): World {
    if QueueOf(s, relay).rows == [] && |batch| <= BATCH && (forall k | 0 <= k < |batch| :: batch[k] in ReadySet(s.rows))
    then s.(relays := s.relays[relay := Queue(seq(|batch|, k requires 0 <= k < |batch| => s.rows[batch[k]]), false)])
    else s
  }

  /** An acknowledged send was appended; a failed one may have been. */
  function Sending(s: World, relay: nat, appended: bool, acked: bool): World {
    var q := QueueOf(s, relay);
    if q.rows == [] || q.sent then s
    else
      s.(topic := if appended || acked then s.topic + [MessageOf(q.rows[0])] else s.topic,
         relays := s.relays[relay := if acked then q.(sent := true) else Queue(q.rows[1..], false)])
  }

  function Marking(s: World, relay: nat, applied: bool): World {
    var q := QueueOf(s, relay);
    if q.rows == [] || !q.sent then s
    else
      s.(rows := if applied then MarkedPublished(s.rows, q.rows[0].id) else s.rows,
         relays := s.relays[relay := Queue(q.rows[1..], false)])
  }

  function Placed(m: Message, now: Time, confirm: Option<TxId>): BetHistory.Event {
    BetHistory.BetPlaced(m.payload.slip, Some(m.payload.placedAt), now, confirm)
  }

  function Act(s: World, a: Action): World {
    match a
    case WriteOutbox(slip, tx, outbox, at) => Write(s, slip, tx, outbox, at)
    case WalletStep(step) =>
      if step.DoReceive? && !Fits(s.flows, step.request) then s else s.(wallet := Wallet.Apply(s.wallet, step))
    case ReplyOk(f, c) => Replied(s, f, c)
    case ReplyError(f) => if At(s, f, Requested) then Advance(s, f, Refused) else s
    case MarkReady(f, applied) =>
      if !At(s, f, Debited) then s
      else Advance(s, f, Accepted).(rows := if applied then MarkedReady(s.rows, s.flows[f].slip.bet) else s.rows)
    case Cancel(f, applied) =>
      if !At(s, f, Refused) then s
      else Advance(s, f, Rejected).(rows := if applied then MarkedCancelled(s.rows, s.flows[f].slip.bet) else s.rows)
    case StoreKey(f, key) => if !At(s, f, Accepted) then s else s.(idem := s.idem[key := s.flows[f].slip.bet])
    case ExpireKey(key) => s.(idem := s.idem - {key})
    case Poll(relay, batch) => Polled(s, relay, batch)
    case Send(relay, appended, acked) => Sending(s, relay, appended, acked)
    case Mark(relay, applied) => Marking(s, relay, applied)
    case Restart(relay) => s.(relays := s.relays[relay := Queue([], false)])
    case Deliver(k, now, confirm) =>
      if k >= |s.topic| then s
      else s.(history := BetHistory.Handle(s.history, Placed(s.topic[k], now, confirm)))
    case Outcome(event) =>
      if event.BetPlaced? then s else s.(history := BetHistory.Handle(s.history, event))
  }

  /** The world after any run. */
  function WorldAfter(actions: seq<Action>): World {
    if actions == [] then START else Act(WorldAfter(actions[..|actions| - 1]), actions[|actions| - 1])
  }
}
