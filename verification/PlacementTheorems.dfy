/** The main results about bets, money and messages, for every run of the placement protocol. */
module PlacementTheorems {
  import opened Platform
  import opened Wallet
  import opened WalletSafety
  import opened Outbox
  import opened Placement
  import opened PlacementSafety
  import WalletTheorems
  import BetHistory

  ghost predicate Possible(s: World) {
    exists actions :: WorldAfter(actions) == s
  }

  lemma PossibleOk(s: World)
    requires Possible(s)
    ensures WorldOk(s)
  {
    var actions :| WorldAfter(actions) == s;
    RunOk(actions);
  }

  // ---------------------------------------------------------------- every bet in the pipe is paid for

  predicate IsDebitOf(e: Entry, bet: BetId) {
    e.kind == Debit && e.bet == bet
  }

  /** Exactly one DEBIT row carries the bet, and it has this user and stake. */
  predicate DebitedFor(ledger: seq<Entry>, bet: BetId, user: UserId, stake: int) {
    exists i :: 0 <= i < |ledger| && IsDebitOf(ledger[i], bet)
                && ledger[i].user == user && ledger[i].amount == stake
                && forall j | 0 <= j < |ledger| && IsDebitOf(ledger[j], bet) :: j == i
  }

  predicate FundedOnce(ledger: seq<Entry>, slip: BetHistory.Slip) {
    DebitedFor(ledger, slip.bet, slip.user, slip.stake)
  }

  /** All DEBIT rows of one flow's bet are one row, and it is that flow's. */
  lemma DebitIsFlows(s: World, f: nat, i: nat)
    requires WorldOk(s) && f < |s.flows| && i < |s.wallet.ledger|
    ensures IsDebitOf(s.wallet.ledger[i], s.flows[f].slip.bet)
        <==> s.flows[f].tx == s.wallet.ledger[i].tx
    ensures IsDebitOf(s.wallet.ledger[i], s.flows[f].slip.bet) ==> DebitsFor(s.wallet.ledger[i], s.flows[f])
  {
    hide Inv, PipeOk, HistoryRowsOk, DebitsOk;
    var e := s.wallet.ledger[i];
    assert EntryFits(s.flows, e);
    if e.kind == Debit {
      var g :| 0 <= g < |s.flows| && DebitsFor(e, s.flows[g]);
      assert g != f ==> s.flows[g].slip.bet != s.flows[f].slip.bet && s.flows[g].tx != s.flows[f].tx;
    }
  }

  lemma FlowFunded(s: World, f: nat)
    requires WorldOk(s) && f < |s.flows|
    ensures FundedOnce(s.wallet.ledger, s.flows[f].slip) <==> s.flows[f].tx in Ids(s.wallet.ledger)
  {
    var ledger := s.wallet.ledger;
    assert KeysDistinct(ledger);
    forall i: nat | i < |ledger| { DebitIsFlows(s, f, i); }
    hide WorldOk;
    if s.flows[f].tx in Ids(ledger) {
      var i :| 0 <= i < |ledger| && ledger[i].tx == s.flows[f].tx;
      assert DebitsFor(ledger[i], s.flows[f]);
    }
  }

  /** Every bet a client was told is accepted has exactly one debit in the ledger, over all runs. */
  lemma AcceptedBetIsFunded(s: World, f: nat)
    requires Possible(s) && At(s, f, Accepted)
    ensures FundedOnce(s.wallet.ledger, s.flows[f].slip)
  {
    PossibleOk(s);
    FlowFunded(s, f);
  }

  lemma ReleasedFunded(s: World, i: nat)
    requires WorldOk(s) && i < |s.rows| && Released(s.rows[i].status)
    ensures FundedOnce(s.wallet.ledger, s.rows[i].payload.slip)
  {
    assert RowFits(s.flows[i], s.rows[i]);
    FlowFunded(s, i);
  }

  /** So has every READY or PUBLISHED outbox row. */
  lemma ReleasedRowIsFunded(s: World, i: nat)
    requires Possible(s) && i < |s.rows| && Released(s.rows[i].status)
    ensures FundedOnce(s.wallet.ledger, s.rows[i].payload.slip)
  {
    PossibleOk(s);
    ReleasedFunded(s, i);
  }

  lemma MessageFunded(s: World, k: nat)
    requires WorldOk(s) && k < |s.topic|
    ensures FundedOnce(s.wallet.ledger, s.topic[k].payload.slip)
  {
    hide WalletOk, RowsOk, DebitsOk, HistoryRowsOk, FundedOnce;
    assert Live(s.rows, s.topic[k]);
    var i :| 0 <= i < |s.rows| && MessageOf(s.rows[i]) == s.topic[k] && Released(s.rows[i].status);
    ReleasedFunded(s, i);
  }

  /** So has every message on the bet-placed topic, whatever crashed or was lost on the way. */
  lemma PublishedBetIsFunded(s: World, k: nat)
    requires Possible(s) && k < |s.topic|
    ensures FundedOnce(s.wallet.ledger, s.topic[k].payload.slip)
  {
    PossibleOk(s);
    MessageFunded(s, k);
  }

  /** And every row of the bet history. */
  lemma HistoryRowIsFunded(s: World, i: nat)
    requires Possible(s) && i < |s.history|
    ensures FundedOnce(s.wallet.ledger, s.history[i].slip)
  {
    PossibleOk(s);
    hide WalletOk, RowsOk, DebitsOk, PipeOk, FundedOnce;
    assert Reported(s.topic, s.history[i]);
    var k :| 0 <= k < |s.topic| && s.topic[k].payload == Payload(s.history[i].slip, s.history[i].placedAt);
    MessageFunded(s, k);
  }

  /**
   Conversely a debit always belongs to a bet that was written, with that bet's
   user and stake, and is its only debit.
   */
  lemma DebitHasItsBet(s: World, i: nat)
    requires Possible(s) && i < |s.wallet.ledger| && s.wallet.ledger[i].kind == Debit
    ensures var e := s.wallet.ledger[i];
            exists f :: 0 <= f < |s.rows| && s.rows[f].bet == s.rows[f].payload.slip.bet == e.bet
                        && s.rows[f].payload.slip.user == e.user && s.rows[f].payload.slip.stake == e.amount
                        && FundedOnce(s.wallet.ledger, s.rows[f].payload.slip)
  {
    PossibleOk(s);
    hide Inv, FundedOnce;
    var e := s.wallet.ledger[i];
    assert EntryFits(s.flows, e);
    var f :| 0 <= f < |s.flows| && DebitsFor(e, s.flows[f]);
    assert RowFits(s.flows[f], s.rows[f]);
    FlowFunded(s, f);
    assert e.tx in Ids(s.wallet.ledger);
  }

  // ---------------------------------------------------------------- the outbox and the topic

  /** The statuses a row can reach from a status: PENDING, READY, PUBLISHED in this order, or PENDING, CANCELLED. */
  predicate Path(from: OutboxStatus, to: OutboxStatus) {
    from == to || from == Pending || (from == Ready && to == Published)
  }

  /**
   No run ever rewrites, reorders or drops a row, or moves one back, although two
   of the UPDATEs have no status guard.
   */
  lemma {:induction false} OutboxMovesForward(actions: seq<Action>, more: seq<Action>, i: nat)
    requires i < |WorldAfter(actions).rows|
    ensures i < |WorldAfter(actions + more).rows|
    ensures var row, row' := WorldAfter(actions).rows[i], WorldAfter(actions + more).rows[i];
            row' == row.(status := row'.status) && Path(row.status, row'.status)
    decreases |more|
  {
    hide Act, WorldOk, Path;
    if more == [] {
      assert actions + more == actions;
      PathBegins(WorldAfter(actions).rows[i]);
    } else {
      hide WorldAfter;
      var n := |more| - 1;
      OutboxMovesForward(actions, more[..n], i);
      assert actions + more == (actions + more[..n]) + [more[n]];
      RowsEvolve(actions + more[..n], more[n]);
      hide Evolves;
      PathOn(WorldAfter(actions).rows[i], WorldAfter(actions + more[..n]).rows, WorldAfter(actions + more).rows, i);
    }
  }

  lemma PathBegins(row: OutboxRow)
    ensures row == row.(status := row.status) && Path(row.status, row.status)
  {}

  lemma RowsEvolve(actions: seq<Action>, a: Action)
    ensures Evolves(WorldAfter(actions).rows, WorldAfter(actions + [a]).rows)
  {
    hide Act, WorldOk, Evolves;
    assert (actions + [a])[..|actions|] == actions;
    RunOk(actions);
    StepKeeps(WorldAfter(actions), a);
  }

  lemma PathOn(first: OutboxRow, rows: seq<OutboxRow>, rows': seq<OutboxRow>, i: nat)
    requires Evolves(rows, rows') && i < |rows|
    requires rows[i] == first.(status := rows[i].status) && Path(first.status, rows[i].status)
    ensures i < |rows'| && rows'[i] == first.(status := rows'[i].status) && Path(first.status, rows'[i].status)
  {}

  /**
   The last step of a placement, although its UPDATEs go by bet id, touches the
   placement's own row only and finds it PENDING: the row ends as the contract
   of BetFlow.PlaceBet says.
   */
  lemma SettlesItsOwnRow(s: World, f: nat, applied: bool)
    requires Possible(s) && f < |s.rows| && f < |s.flows|
    ensures At(s, f, Debited) ==>
              Act(s, MarkReady(f, applied)).rows
              == s.rows[f := s.rows[f].(status := if applied then Ready else Pending)]
    ensures At(s, f, Refused) ==>
              Act(s, Cancel(f, applied)).rows
              == s.rows[f := s.rows[f].(status := if applied then Cancelled else Pending)]
  {
    PossibleOk(s);
    OwnRow(s.flows, s.rows, f);
    hide WorldOk, Possible, MarkedReady, MarkedCancelled;
    LastRows(s, f, applied);
    hide Act;
  }

  /** What the last steps do to the rows. */
  lemma LastRows(s: World, f: nat, applied: bool)
    requires f < |s.flows|
    ensures At(s, f, Debited) ==>
              Act(s, MarkReady(f, applied)).rows == if applied then MarkedReady(s.rows, s.flows[f].slip.bet) else s.rows
    ensures At(s, f, Refused) ==>
              Act(s, Cancel(f, applied)).rows
                == if applied then MarkedCancelled(s.rows, s.flows[f].slip.bet) else s.rows
  {
    hide MarkedReady, MarkedCancelled;
  }

  lemma OwnRow(flows: seq<Flow>, rows: seq<OutboxRow>, f: nat)
    requires RowsOk(flows, rows) && f < |flows|
    ensures flows[f].stage == Debited || flows[f].stage == Refused ==>
                rows[f].status == Pending && rows[f := rows[f].(status := Pending)] == rows
    ensures flows[f].stage == Debited ==> MarkedReady(rows, flows[f].slip.bet) == rows[f := rows[f].(status := Ready)]
    ensures flows[f].stage == Refused ==>
                MarkedCancelled(rows, flows[f].slip.bet) == rows[f := rows[f].(status := Cancelled)]
  {
    OnlyRowOfBet(flows, rows, f);
    hide FlowsDistinct, MarkedReady, MarkedCancelled;
    assert RowFits(flows[f], rows[f]);
  }

  /** A PUBLISHED row's message is on the topic, with the row's id and payload. */
  lemma PublishedIsInTopic(s: World, i: nat)
    requires Possible(s) && i < |s.rows| && s.rows[i].status == Published
    ensures MessageOf(s.rows[i]) in s.topic
  {
    PossibleOk(s);
  }

  /** Whatever is redelivered, the history has at most one row per bet: the payload fixes placed_at. */
  lemma OneHistoryRowPerBet(s: World)
    requires Possible(s)
    ensures BetHistory.OneRowPerBet(s.history)
  {
    PossibleOk(s);
    hide WalletOk, DebitsOk;
    forall i, j | 0 <= i < j < |s.history| ensures s.history[i].slip.bet != s.history[j].slip.bet {
      var f, g := WrittenBy(s, i), WrittenBy(s, j);
      assert f != g ==> s.flows[f].slip.bet != s.flows[g].slip.bet;
    }
  }

  /** The flow whose message put this row into the history. */
  ghost function WrittenBy(s: World, i: nat): (f: nat)
    requires WorldOk(s) && i < |s.history|
    ensures f < |s.flows| && s.flows[f].slip == s.history[i].slip && s.flows[f].placedAt == s.history[i].placedAt
  {
    assert Reported(s.topic, s.history[i]);
    var k :| 0 <= k < |s.topic| && s.topic[k].payload == Payload(s.history[i].slip, s.history[i].placedAt);
    assert Live(s.rows, s.topic[k]);
    var f: nat :| f < |s.rows| && MessageOf(s.rows[f]) == s.topic[k] && Released(s.rows[f].status);
    assert RowFits(s.flows[f], s.rows[f]);
    f
  }

  // ---------------------------------------------------------------- bets that are not accepted

  /** A bet, in whatever state, is charged exactly when some DeductBalance of its transaction committed. */
  lemma ChargedExactly(s: World, f: nat)
    requires Possible(s) && f < |s.flows|
    ensures FundedOnce(s.wallet.ledger, s.flows[f].slip) <==> exists c :: CommittedCall(s.wallet, c, s.flows[f].tx)
  {
    PossibleOk(s);
    hide Inv, RowsOk, PipeOk, HistoryRowsOk, FundedOnce;
    FlowFunded(s, f);
    var tx := s.flows[f].tx;
    if tx in Ids(s.wallet.ledger) {
      var i :| 0 <= i < |s.wallet.ledger| && s.wallet.ledger[i].tx == tx;
      assert CommittedCall(s.wallet, s.wallet.ledger[i].author, tx);
    }
    if c :| CommittedCall(s.wallet, c, tx) {
      assert Fits(s.flows, s.wallet.calls[c].request) && SuccessOk(s.wallet, s.wallet.calls[c]);
    }
  }

  /** Every call of this transaction is over, and none of them committed. */
  predicate Unpaid(w: Wallet.State, tx: TxId) {
    forall c | c in w.calls && w.calls[c].request.tx == tx ::
      w.calls[c].phase.Finished? && !w.calls[c].phase.outcome.Committed?
  }

  /**
   No reply is lost: an error reaches a placement only after its debit failed for
   good, and nothing retries it later.
   */
  predicate NothingLost(s: World, a: Action) {
    match a
    case ReplyError(f) => At(s, f, Requested) ==> Unpaid(s.wallet, s.flows[f].tx)
    case WalletStep(DoReceive(_, r)) =>
      r.rpc.Deduct? ==> exists f :: 0 <= f < |s.flows| && At(s, f, Requested) && RequestOf(s.flows[f]) == r
    case _ => true
  }

  predicate Faithful(actions: seq<Action>) {
    actions == [] ||
    var prefix, last := actions[..|actions| - 1], actions[|actions| - 1];
    Faithful(prefix) && NothingLost(WorldAfter(prefix), last)
  }

  predicate GivenUp(stage: Stage) {
    stage == Refused || stage == Rejected
  }

  predicate GivenUpUnpaid(s: World) {
    forall f | 0 <= f < |s.flows| && GivenUp(s.flows[f].stage) :: Unpaid(s.wallet, s.flows[f].tx)
  }

  lemma FinishedKept(w: Wallet.State, step: Wallet.Step, c: CallId)
    requires c in w.calls && w.calls[c].phase.Finished?
    ensures c in Wallet.Apply(w, step).calls && Wallet.Apply(w, step).calls[c] == w.calls[c]
  {
    if !step.DoConfirm? && !step.DoReceive? {
      WalletTheorems.StepMoves(w, step);
    }
    hide LookUp, Begin, Lock, ReadRow, UpdateRow, Record, CommitTx, Abort;
  }

  lemma UnpaidKept(s: World, step: Wallet.Step, f: nat)
    requires WorldOk(s) && f < |s.flows| && GivenUp(s.flows[f].stage) && Unpaid(s.wallet, s.flows[f].tx)
    requires step.DoReceive? ==> Fits(s.flows, step.request)
    requires NothingLost(s, WalletStep(step))
    ensures Unpaid(Wallet.Apply(s.wallet, step), s.flows[f].tx)
  {
    hide WalletOk, PipeOk, HistoryRowsOk, DebitsOk;
    var w, w', tx := s.wallet, Wallet.Apply(s.wallet, step), s.flows[f].tx;
    WalletTheorems.StepExtends(w, step);
    forall c | c in w.calls && w.calls[c].phase.Finished? ensures c in w'.calls && w'.calls[c] == w.calls[c] {
      FinishedKept(w, step, c);
    }
    hide Wallet.Apply;
    forall c | c in w'.calls && w'.calls[c].request.tx == tx
      ensures w'.calls[c].phase.Finished? && !w'.calls[c].phase.outcome.Committed?
    {
      assert c in w.calls;
    }
  }

  lemma FaithfulStep(s: World, a: Action)
    requires WorldOk(s) && GivenUpUnpaid(s) && NothingLost(s, a)
    ensures GivenUpUnpaid(Act(s, a))
  {
    hide WorldOk, Wallet.Apply, Unpaid, MarkedReady, MarkedCancelled, MarkedPublished, Fresh, Fits;
    if a.WalletStep? {
      forall f: nat | f < |s.flows| && GivenUp(s.flows[f].stage) && Act(s, a) != s {
        UnpaidKept(s, a.step, f);
      }
    }
  }

  lemma {:induction false} FaithfulRun(actions: seq<Action>)
    requires Faithful(actions)
    ensures GivenUpUnpaid(WorldAfter(actions))
  {
    if actions != [] {
      var prefix := actions[..|actions| - 1];
      FaithfulRun(prefix);
      RunOk(prefix);
      hide Act, WorldOk, GivenUpUnpaid, NothingLost;
      FaithfulStep(WorldAfter(prefix), actions[|actions| - 1]);
    }
  }

  /** When no reply is lost, a CANCELLED bet is never charged. */
  lemma CancelledIsNotCharged(actions: seq<Action>, i: nat)
    requires Faithful(actions) && i < |WorldAfter(actions).rows|
    requires WorldAfter(actions).rows[i].status == Cancelled
    ensures !FundedOnce(WorldAfter(actions).wallet.ledger, WorldAfter(actions).rows[i].payload.slip)
  {
    var s := WorldAfter(actions);
    assert Possible(s);
    PossibleOk(s);
    FaithfulRun(actions);
    hide FundedOnce, WalletOk;
    assert RowFits(s.flows[i], s.rows[i]);
    ChargedExactly(s, i);
  }

  lemma PossibleStep(s: World, a: Action)
    requires Possible(s)
    ensures Possible(Act(s, a))
  {
    var actions :| WorldAfter(actions) == s;
    assert (actions + [a])[..|actions|] == actions;
    assert WorldAfter(actions + [a]) == Act(s, a);
  }

  lemma PossibleWallet(s: World, w: Wallet.State, step: Wallet.Step)
    requires Possible(s.(wallet := w)) && (step.DoReceive? ==> Fits(s.flows, step.request))
    ensures Possible(s.(wallet := Wallet.Apply(w, step)))
  {
    PossibleStep(s.(wallet := w), WalletStep(step));
  }

  /** One wallet call can run from start to end beside everything else. */
  lemma PossibleAlone(s: World, c: CallId, r: Wallet.Request, at: Time, key: int)
    requires Possible(s) && Fits(s.flows, r)
    ensures Possible(s.(wallet := WalletTheorems.Alone(s.wallet, c, r, at, key)))
  {
    hide Possible, Receive, LookUp, Begin, Lock, ReadRow, UpdateRow, Record, CommitTx, Fits;
    var w := s.wallet;
    assert s.(wallet := w) == s;
    PossibleWallet(s, w, DoReceive(c, r));
    var w1 := Receive(w, c, r);
    PossibleWallet(s, w1, DoLookUp(c));
    PossibleWallet(s, LookUp(w1, c), DoBegin(c, at));
    PossibleWallet(s, Begin(LookUp(w1, c), c, at), DoLock(c, key));
    var w4 := WalletTheorems.Opened(w, c, r, at, key);
    PossibleWallet(s, w4, DoReadRow(c));
    PossibleWallet(s, ReadRow(w4, c), DoUpdateRow(c));
    var w6 := UpdateRow(ReadRow(w4, c), c);
    PossibleWallet(s, w6, DoRecord(c));
    PossibleWallet(s, Record(w6, c), DoCommit(c));
  }

  /** A bet that the wallet, left alone, would take the stake for. */
  predicate Payable(s: World, flow: Flow, c: CallId) {
    && WalletTheorems.Quiet(s.wallet) && c !in s.wallet.calls
    && flow.tx != NO_ID && flow.slip.user != NO_ID
    && flow.slip.user in s.wallet.balances
    && 0 <= flow.slip.stake <= s.wallet.balances[flow.slip.user].available
    && Fresh(s, flow.slip.bet, flow.tx, flow.outbox)
  }

  lemma VerdictCommits(w: Wallet.State, r: Wallet.Request)
    requires Inv(w) && r.rpc.Deduct? && r.tx !in Ids(w.ledger)
    requires r.user in w.balances && 0 <= r.amount <= w.balances[r.user].available
    ensures WalletTheorems.Verdict(w, r).Committed?
  {
    assert w.balances[r.user].Valid() by {
      assert BooksOk(w) && HistoryOk(w);
      WalletTheorems.ReplayValid(w.history, r.user);
    }
    hide Inv, Ids;
  }

  /** The wallet took the stake. */
  lemma ChargedAlone(s: World, flow: Flow, c: CallId)
    requires WorldOk(s) && Payable(s, flow, c)
    ensures CommittedCall(WalletTheorems.Alone(s.wallet, c, RequestOf(flow), 0, 0), c, flow.tx)
  {
    var r, w := RequestOf(flow), s.wallet;
    VerdictCommits(w, r);
    hide WorldOk, Inv, Fresh;
    WalletTheorems.AloneIsVerdict(w, c, r, 0, 0);
    hide WalletTheorems.Alone, WalletTheorems.Verdict;
  }

  /**
   Without that assumption it can be: from any world, one debit whose reply is
   lost leaves a bet both CANCELLED and charged.
   */
  lemma LostReplyChargesCancelledBet(s: World, flow: Flow, c: CallId)
    requires Possible(s) && Payable(s, flow, c)
    ensures exists s' :: Possible(s')
                     && s'.rows == s.rows + [RowOf(flow, Cancelled)]
                     && FundedOnce(s'.wallet.ledger, flow.slip)
  {
    ChargedBeforeReply(s, flow, c);
    var s2 := Unanswered(s, flow, c);
    hide Possible, FundedOnce, CommittedCall, Unanswered, Payable;
    GiveUp(s2, |s.flows|, c);
  }

  function RowOf(flow: Flow, status: OutboxStatus): OutboxRow {
    OutboxRow(flow.outbox, flow.slip.bet, Payload(flow.slip, flow.placedAt), status, flow.placedAt)
  }

  /** The world after the outbox row was written and the debit committed, before any reply. */
  function Unanswered(s: World, flow: Flow, c: CallId): World {
    var s' := Write(s, flow.slip, flow.tx, flow.outbox, flow.placedAt);
    s'.(wallet := WalletTheorems.Alone(s.wallet, c, RequestOf(flow), 0, 0))
  }

  lemma ChargedBeforeReply(s: World, flow: Flow, c: CallId)
    requires Possible(s) && Payable(s, flow, c)
    ensures var s', n := Unanswered(s, flow, c), |s.flows|;
            && Possible(s') && At(s', n, Requested) && |s.rows| == n && s'.rows == s.rows + [RowOf(flow, Pending)]
            && s'.flows[n].slip == flow.slip && s'.flows[n].tx == flow.tx
            && s'.topic == s.topic && s'.idem == s.idem
            && CommittedCall(s'.wallet, c, flow.tx)
  {
    PossibleOk(s);
    ChargedAlone(s, flow, c);
    hide WorldOk, Possible, WalletTheorems.Alone, Fresh, Wallet.Apply, CommittedCall;
    PossibleStep(s, WriteOutbox(flow.slip, flow.tx, flow.outbox, flow.placedAt));
    var s1 := Write(s, flow.slip, flow.tx, flow.outbox, flow.placedAt);
    assert RequestOf(s1.flows[|s.flows|]) == RequestOf(flow);
    PossibleAlone(s1, c, RequestOf(flow), 0, 0);
    SameLength(s);
  }

  lemma SameLength(s: World)
    requires Possible(s)
    ensures |s.flows| == |s.rows|
  {
    PossibleOk(s);
  }

  /** The last two steps: the error reply and the cancellation. */
  lemma GiveUp(s: World, f: nat, c: CallId)
    requires Possible(s) && At(s, f, Requested) && f + 1 == |s.rows| && CommittedCall(s.wallet, c, s.flows[f].tx)
    ensures var s' := Act(Act(s, ReplyError(f)), Cancel(f, true));
            && Possible(s') && s'.rows == s.rows[..f] + [s.rows[f].(status := Cancelled)]
            && FundedOnce(s'.wallet.ledger, s.flows[f].slip)
  {
    hide WorldOk, Possible, FundedOnce, Wallet.Apply, CommittedCall, MarkedCancelled;
    PossibleStep(s, ReplyError(f));
    var t := Advance(s, f, Refused);
    PossibleStep(t, Cancel(f, true));
    PossibleOk(t);
    CancelLast(t, f);
    var s' := Act(t, Cancel(f, true));
    assert s'.flows[f].slip == s.flows[f].slip && s'.flows[f].tx == s.flows[f].tx;
    ChargedExactly(s', f);
  }

  lemma CancelLast(s: World, f: nat)
    requires WorldOk(s) && f + 1 == |s.rows|
    ensures f < |s.flows|
    ensures MarkedCancelled(s.rows, s.flows[f].slip.bet) == s.rows[..f] + [s.rows[f].(status := Cancelled)]
  {
    hide WalletOk, PipeOk, HistoryRowsOk, DebitsOk;
    OnlyRowOfBet(s.flows, s.rows, f);
  }

  // ---------------------------------------------------------------- bets that arrive

  /** What an idle relay does with one READY row when nothing fails. */
  function Relayed(s: World, f: nat, relay: nat): World {
    Marking(Sending(Polled(s, relay, [f]), relay, true, true), relay, true)
  }

  lemma RelayPossible(s: World, f: nat, relay: nat)
    requires Possible(s)
    ensures Possible(Relayed(s, f, relay))
  {
    hide Possible, Polled, Sending, Marking;
    PossibleStep(s, Poll(relay, [f]));
    PossibleStep(Polled(s, relay, [f]), Send(relay, true, true));
    PossibleStep(Sending(Polled(s, relay, [f]), relay, true, true), Mark(relay, true));
  }

  lemma PollsOne(s: World, f: nat, relay: nat)
    requires f < |s.rows| && s.rows[f].status == Ready && QueueOf(s, relay).rows == []
    ensures Polled(s, relay, [f]) == s.(relays := s.relays[relay := Queue([s.rows[f]], false)])
  {
    var batch := [f];
    assert forall k | 0 <= k < |batch| :: batch[k] == f && batch[k] in ReadySet(s.rows);
    assert seq(|batch|, k requires 0 <= k < |batch| => s.rows[batch[k]]) == [s.rows[f]];
  }

  lemma RelayResult(s: World, f: nat, relay: nat)
    requires f < |s.rows| && s.rows[f].status == Ready && QueueOf(s, relay).rows == []
    ensures var s' := Relayed(s, f, relay);
            && s'.topic == s.topic + [Message(s.rows[f].id, s.rows[f].payload)]
            && s'.rows == MarkedPublished(s.rows, s.rows[f].id) && s'.history == s.history
  {
    PollsOne(s, f, relay);
    hide MarkedPublished, Polled;
  }

  lemma Publishes(s: World, f: nat)
    requires Possible(s) && f < |s.rows|
    ensures MarkedPublished(s.rows, s.rows[f].id) == s.rows[f := s.rows[f].(status := Published)]
  {
    PossibleOk(s);
    hide WalletOk, PipeOk, HistoryRowsOk, DebitsOk, MarkedPublished, MarkedReady, MarkedCancelled;
    OnlyRowOfBet(s.flows, s.rows, f);
  }

  /** The last message of the topic can be delivered. */
  lemma DeliverLast(s: World, m: Message, now: Time) returns (s': World)
    requires Possible(s) && s.topic != [] && s.topic[|s.topic| - 1] == m
    ensures Possible(s') && s'.rows == s.rows && s'.topic == s.topic && s'.relays == s.relays
    ensures BetHistory.HasKey(s'.history, m.payload.slip.bet, m.payload.placedAt)
  {
    hide Possible;
    PossibleStep(s, Deliver(|s.topic| - 1, now, None));
    var e := Placed(m, now, None);
    BetHistory.HandleKeys(s.history, e, e.slip.bet, BetHistory.PlacedTime(e));
    s' := s.(history := BetHistory.Handle(s.history, e));
  }

  /** A READY row can be published by any idle relay and reach the history: row, message and key, in one run. */
  lemma ReadyBetArrives(s: World, f: nat, relay: nat, now: Time) returns (s': World)
    requires Possible(s) && f < |s.rows| && s.rows[f].status == Ready && QueueOf(s, relay).rows == []
    ensures Possible(s') && s'.rows == s.rows[f := s.rows[f].(status := Published)]
    ensures s'.topic == s.topic + [Message(s.rows[f].id, s.rows[f].payload)]
    ensures BetHistory.HasKey(s'.history, s.rows[f].payload.slip.bet, s.rows[f].payload.placedAt)
  {
    hide Possible, Relayed, MarkedPublished, BetHistory.HasKey;
    Publishes(s, f);
    RelayResult(s, f, relay);
    RelayPossible(s, f, relay);
    s' := DeliverLast(Relayed(s, f, relay), Message(s.rows[f].id, s.rows[f].payload), now);
  }

  /** A relay that sends one row and crashes before the acknowledgement, or after it. */
  function Interrupted(s: World, f: nat, relay: nat, acked: bool): World {
    Act(Sending(Polled(s, relay, [f]), relay, true, acked), Restart(relay))
  }

  lemma InterruptedPossible(s: World, f: nat, relay: nat, acked: bool)
    requires Possible(s)
    ensures Possible(Interrupted(s, f, relay, acked))
  {
    hide Possible, Polled, Sending, Act;
    PollStep(s, Poll(relay, [f]));
    PossibleStep(s, Poll(relay, [f]));
    var polled := Polled(s, relay, [f]);
    SendStep(polled, relay, acked);
    PossibleStep(polled, Send(relay, true, acked));
    PossibleStep(Sending(polled, relay, true, acked), Restart(relay));
  }

  lemma PollStep(s: World, a: Action)
    requires a.Poll?
    ensures Act(s, a) == Polled(s, a.relay, a.batch)
  {
    hide Polled;
  }

  lemma SendStep(s: World, relay: nat, acked: bool)
    ensures Act(s, Send(relay, true, acked)) == Sending(s, relay, true, acked)
  {
    hide Sending;
  }

  lemma InterruptedResult(s: World, f: nat, relay: nat, acked: bool)
    requires f < |s.rows| && s.rows[f].status == Ready && QueueOf(s, relay).rows == []
    ensures var s' := Interrupted(s, f, relay, acked);
            && s'.topic == s.topic + [Message(s.rows[f].id, s.rows[f].payload)]
            && s'.rows == s.rows && s'.history == s.history && QueueOf(s', relay).rows == []
  {
    PollsOne(s, f, relay);
    hide Polled;
  }

  /**
   At least once, and yet once: a relay that crashed around an acknowledgement
   sends the row again, and both deliveries leave the bet with one history row.
   */
  lemma ResentBetArrivesOnce(s: World, f: nat, relay: nat, acked: bool, now: Time) returns (s': World)
    requires Possible(s) && f < |s.rows| && s.rows[f].status == Ready && QueueOf(s, relay).rows == []
    ensures var m := Message(s.rows[f].id, s.rows[f].payload); s'.topic == s.topic + [m, m]
    ensures Possible(s') && s'.rows == s.rows[f := s.rows[f].(status := Published)]
    ensures BetHistory.HasKey(s'.history, s.rows[f].payload.slip.bet, s.rows[f].payload.placedAt)
    ensures BetHistory.OneRowPerBet(s'.history)
  {
    hide Possible, Interrupted, BetHistory.HasKey, BetHistory.OneRowPerBet;
    InterruptedPossible(s, f, relay, acked);
    InterruptedResult(s, f, relay, acked);
    s' := DeliverLast(Interrupted(s, f, relay, acked), Message(s.rows[f].id, s.rows[f].payload), now);
    s' := ReadyBetArrives(s', f, relay, now);
    OneHistoryRowPerBet(s');
  }

  /** A settlement or a void that arrives is shown by the bet's history rows, and by no others. */
  lemma OutcomeIsShown(s: World, e: BetHistory.Event, i: nat)
    requires Possible(s) && !e.BetPlaced? && i < |s.history|
    ensures Possible(Act(s, Outcome(e))) && i < |Act(s, Outcome(e)).history|
    ensures var row := Act(s, Outcome(e)).history[i];
            if e.bet == s.history[i].slip.bet then BetHistory.OutcomeShown(s.history[i], row, e)
            else row == s.history[i]
  {
    hide Possible;
    PossibleStep(s, Outcome(e));
  }

  // ---------------------------------------------------------------- replayed replies

  /** A stored key leads to an accepted bet. */
  predicate KeyOk(flows: seq<Flow>, bet: BetId) {
    exists f :: 0 <= f < |flows| && flows[f].stage == Accepted && flows[f].slip.bet == bet
  }

  predicate KeysOk(s: World) {
    forall key | key in s.idem :: KeyOk(s.flows, s.idem[key])
  }

  /** Accepted bets stay accepted. */
  predicate FlowsKept(flows: seq<Flow>, flows': seq<Flow>) {
    && |flows| <= |flows'|
    && forall f | 0 <= f < |flows| && flows[f].stage == Accepted :: flows'[f] == flows[f]
  }

  lemma StepKeepsFlows(s: World, a: Action)
    ensures FlowsKept(s.flows, Act(s, a).flows)
    ensures !a.StoreKey? && !a.ExpireKey? ==> Act(s, a).idem == s.idem
  {
    hide Fresh, Fits, Wallet.Apply, MarkedReady, MarkedCancelled, MarkedPublished;
  }

  lemma KeptKey(flows: seq<Flow>, flows': seq<Flow>, bet: BetId)
    requires FlowsKept(flows, flows') && KeyOk(flows, bet)
    ensures KeyOk(flows', bet)
  {
    var f :| 0 <= f < |flows| && flows[f].stage == Accepted && flows[f].slip.bet == bet;
    assert flows'[f] == flows[f];
  }

  /** A stored key keeps its bet until it expires or an accepted placement stores it again. */
  lemma KeysLiveUntilExpiry(s: World, a: Action, key: Id)
    ensures var idem := Act(s, a).idem;
            if a == ExpireKey(key) then key !in idem
            else if a.StoreKey? && a.key == key && At(s, a.f, Accepted) then
              key in idem && idem[key] == s.flows[a.f].slip.bet
            else (key in idem <==> key in s.idem) && (key in idem ==> idem[key] == s.idem[key])
  {
    StepKeepsFlows(s, a);
    if !a.StoreKey? && !a.ExpireKey? {
      hide Act;
    }
  }

  lemma StepKeepsKeys(s: World, a: Action)
    requires KeysOk(s)
    ensures KeysOk(Act(s, a))
  {
    StepKeepsFlows(s, a);
    var s' := Act(s, a);
    hide KeyOk, FlowsKept;
    if !a.StoreKey? {
      forall key | key in s'.idem ensures KeyOk(s'.flows, s'.idem[key]) {
        KeptKey(s.flows, s'.flows, s.idem[key]);
      }
    } else if At(s, a.f, Accepted) {
      KeyOfFlow(s, a.f);
    }
  }

  lemma KeyOfFlow(s: World, f: nat)
    requires At(s, f, Accepted)
    ensures KeyOk(s.flows, s.flows[f].slip.bet)
  {}

  lemma {:induction false} RunKeepsKeys(actions: seq<Action>)
    ensures KeysOk(WorldAfter(actions))
  {
    if actions != [] {
      RunKeepsKeys(actions[..|actions| - 1]);
      StepKeepsKeys(WorldAfter(actions[..|actions| - 1]), actions[|actions| - 1]);
    }
  }

  /**
   A request with a known key is answered ACCEPTED for the stored bet with the
   request's own stake. The bet is debited, and the answer describes its debit
   exactly when the request has the user and the stake of the bet.
   */
  lemma ReplayMatchesExactly(s: World, key: Id, user: UserId, stake: int)
    requires Possible(s) && key in s.idem
    ensures exists f: nat :: At(s, f, Accepted) && s.flows[f].slip.bet == s.idem[key]
                     && FundedOnce(s.wallet.ledger, s.flows[f].slip)
                     && (DebitedFor(s.wallet.ledger, s.idem[key], user, stake)
                         <==> user == s.flows[f].slip.user && stake == s.flows[f].slip.stake)
  {
    var actions :| WorldAfter(actions) == s;
    RunKeepsKeys(actions);
    hide Possible;
    assert KeyOk(s.flows, s.idem[key]);
    var f: nat :| f < |s.flows| && s.flows[f].stage == Accepted && s.flows[f].slip.bet == s.idem[key];
    AcceptedBetIsFunded(s, f);
    OneDebit(s.wallet.ledger, s.flows[f].slip, user, stake);
  }

  lemma OneDebit(ledger: seq<Entry>, slip: BetHistory.Slip, user: UserId, stake: int)
    requires FundedOnce(ledger, slip)
    ensures DebitedFor(ledger, slip.bet, user, stake) <==> user == slip.user && stake == slip.stake
  {}

  /**
   From any world with a payable bet there is a run that adds just that bet,
   READY, stores it under the key, and leaves any other user or stake under that
   key an answer that no debit supports.
   */
  lemma ReplayEchoesOtherRequests(s: World, flow: Flow, c: CallId, key: Id, user: UserId, stake: int)
    returns (s': World)
    requires Possible(s) && Payable(s, flow, c) && (user != flow.slip.user || stake != flow.slip.stake)
    ensures Possible(s') && s'.rows == s.rows + [RowOf(flow, Ready)] && s'.topic == s.topic
    ensures s'.idem == s.idem[key := flow.slip.bet]
    ensures !DebitedFor(s'.wallet.ledger, flow.slip.bet, user, stake)
  {
    ChargedBeforeReply(s, flow, c);
    var s2, n := Unanswered(s, flow, c), |s.flows|;
    hide Possible, FundedOnce, CommittedCall, Unanswered, Payable, Stored, DebitedFor;
    AcceptAndStore(s2, n, c, key);
    s' := Stored(s2, n, c, key);
    LastRow(s.rows, flow);
    OneDebit(s'.wallet.ledger, flow.slip, user, stake);
  }

  lemma LastRow(rows: seq<OutboxRow>, flow: Flow)
    ensures var all := rows + [RowOf(flow, Pending)];
            all[|rows| := all[|rows|].(status := Ready)] == rows + [RowOf(flow, Ready)]
  {}

  function Stored(s: World, f: nat, c: CallId, key: Id): World {
    Act(Act(Act(s, ReplyOk(f, c)), MarkReady(f, true)), StoreKey(f, key))
  }

  lemma AcceptAndStore(s: World, f: nat, c: CallId, key: Id)
    requires Possible(s) && At(s, f, Requested) && CommittedCall(s.wallet, c, s.flows[f].tx)
    ensures var s' := Stored(s, f, c, key);
            && Possible(s') && s'.idem == s.idem[key := s.flows[f].slip.bet] && s'.topic == s.topic
            && f < |s.rows| && s'.rows == s.rows[f := s.rows[f].(status := Ready)]
            && FundedOnce(s'.wallet.ledger, s.flows[f].slip)
  {
    RequestFits(s, f, c);
    hide WorldOk, Possible, FundedOnce, Wallet.Apply, MarkedReady, Fits;
    hide Fresh, MarkedCancelled, Write, Polled, Sending, Marking;
    PossibleStep(s, ReplyOk(f, c));
    var t := Advance(s, f, Debited);
    PossibleStep(t, MarkReady(f, true));
    var u := Act(t, MarkReady(f, true));
    assert At(u, f, Accepted) && u.flows[f].slip == s.flows[f].slip;
    assert Act(s, ReplyOk(f, c)) == t;
    PossibleOk(t);
    AcceptedRow(t, f);
    StoreLast(u, f, key);
  }

  lemma AcceptedRow(s: World, f: nat)
    requires WorldOk(s) && At(s, f, Debited)
    ensures f < |s.rows| && Act(s, MarkReady(f, true)).rows == s.rows[f := s.rows[f].(status := Ready)]
  {
    assert RowsOk(s.flows, s.rows);
    OwnRow(s.flows, s.rows, f);
    LastRows(s, f, true);
    hide Act, WorldOk, RowsOk, MarkedReady;
  }

  lemma StoreLast(s: World, f: nat, key: Id)
    requires Possible(s) && At(s, f, Accepted)
    ensures var s' := Act(s, StoreKey(f, key));
            && Possible(s') && s' == s.(idem := s.idem[key := s.flows[f].slip.bet])
            && FundedOnce(s'.wallet.ledger, s.flows[f].slip)
  {
    hide Possible, FundedOnce;
    AcceptedBetIsFunded(s, f);
    PossibleStep(s, StoreKey(f, key));
  }

  /** A wallet call with a flow's transaction id is that flow's request. */
  lemma RequestFits(s: World, f: nat, c: CallId)
    requires Possible(s) && f < |s.flows| && c in s.wallet.calls && s.wallet.calls[c].request.tx == s.flows[f].tx
    ensures s.wallet.calls[c].request == RequestOf(s.flows[f])
  {
    PossibleOk(s);
    hide Inv, PipeOk, HistoryRowsOk, DebitsOk;
    var r := s.wallet.calls[c].request;
    assert Fits(s.flows, r);
    if r.rpc.Deduct? {
      var g :| 0 <= g < |s.flows| && RequestOf(s.flows[g]) == r;
      assert s.flows[g].tx == s.flows[f].tx;
    }
  }
}
