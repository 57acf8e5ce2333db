/** What every run of the placement protocol keeps. */
module PlacementSafety {
  import opened Platform
  import opened Wallet
  import opened WalletSafety
  import opened Outbox
  import opened Placement
  import WalletTheorems
  import opened WalletSerial
  import BetHistory

  // ---------------------------------------------------------------- the wallet's half

  /** A ledger row that debits exactly this flow's bet. */
  predicate DebitsFor(e: Entry, flow: Flow) {
    && e.kind == Debit && e.tx == flow.tx
    && e.user == flow.slip.user && e.amount == flow.slip.stake && e.bet == flow.slip.bet
  }

  predicate EntryFits(flows: seq<Flow>, e: Entry) {
    if e.kind == Debit then exists f :: 0 <= f < |flows| && DebitsFor(e, flows[f])
    else forall f | 0 <= f < |flows| :: flows[f].tx != e.tx
  }

  predicate CommittedCall(w: Wallet.State, c: CallId, tx: TxId) {
    && c in w.calls && w.calls[c].request.tx == tx
    && w.calls[c].phase.Finished? && w.calls[c].phase.outcome.Committed?
  }

  predicate SuccessOk(w: Wallet.State, call: Call) {
    call.request.rpc.Deduct? && Succeeded(call.phase) ==> call.request.tx in Ids(w.ledger)
  }

  ghost predicate WalletOk(flows: seq<Flow>, w: Wallet.State) {
    && Inv(w)
    && (forall c | c in w.calls :: Fits(flows, w.calls[c].request) && SuccessOk(w, w.calls[c]))
    && (forall i | 0 <= i < |w.ledger| :: EntryFits(flows, w.ledger[i]))
    && (forall i | 0 <= i < |w.ledger| :: CommittedCall(w, w.ledger[i].author, w.ledger[i].tx))
  }

  /** No statement between the look-up and the commit ends its call well. */
  lemma NoSuccess(w: Wallet.State, c: CallId)
    requires c in w.calls && !w.calls[c].phase.Finished?
    ensures !Succeeded(ReadRow(w, c).calls[c].phase)
  {
    hide Without;
  }

  lemma NoSuccessOfUpdate(w: Wallet.State, c: CallId)
    requires c in w.calls && !w.calls[c].phase.Finished?
    ensures !Succeeded(UpdateRow(w, c).calls[c].phase)
  {
    hide Without;
  }

  lemma NoSuccessOfRecord(w: Wallet.State, c: CallId)
    requires c in w.calls && !w.calls[c].phase.Finished?
    ensures !Succeeded(Record(w, c).calls[c].phase)
  {
    hide Without, Ids;
  }

  /** A deduction ends well only with its row in the ledger. */
  lemma StepSuccess(w: Wallet.State, step: Wallet.Step, d: CallId)
    requires d in w.calls ==> SuccessOk(w, w.calls[d]) && CallOk(w, d)
    requires d in Wallet.Apply(w, step).calls
    requires Ids(w.ledger) <= Ids(Wallet.Apply(w, step).ledger)
    ensures SuccessOk(Wallet.Apply(w, step), Wallet.Apply(w, step).calls[d])
  {
    match step
    case DoCommit(c) => CommitSuccess(w, c, d);
    case DoReceive(_, _) =>
    case DoConfirm(_) =>
    case DoLookUp(c) => LookUpSuccess(w, c, d);
    case _ =>
      WalletTheorems.StepMoves(w, step);
      if step.c in w.calls && !w.calls[step.c].phase.Finished? {
        NoSuccess(w, step.c);
        NoSuccessOfUpdate(w, step.c);
        NoSuccessOfRecord(w, step.c);
      }
      hide ReadRow, UpdateRow, Record, Ids, Without, CallOk;
  }

  lemma LookUpSuccess(w: Wallet.State, c: CallId, d: CallId)
    requires d in w.calls ==> SuccessOk(w, w.calls[d])
    requires d in LookUp(w, c).calls
    ensures SuccessOk(LookUp(w, c), LookUp(w, c).calls[d])
  {
    hide Ids, Without;
  }

  lemma CommitSuccess(w: Wallet.State, c: CallId, d: CallId)
    requires d in w.calls ==> SuccessOk(w, w.calls[d]) && CallOk(w, d)
    requires d in CommitTx(w, c).calls
    requires Ids(w.ledger) <= Ids(CommitTx(w, c).ledger)
    ensures SuccessOk(CommitTx(w, c), CommitTx(w, c).calls[d])
  {
    hide Without;
    var w' := CommitTx(w, c);
    if d == c && c in w.calls && w.calls[c].phase.Recorded? && w.calls[c].phase.entry.Some? {
      assert w'.ledger[|w.ledger|].tx == w.calls[c].request.tx;
    }
  }

  lemma CommitFinishes(w: Wallet.State, c: CallId)
    requires c in w.calls && CommitTx(w, c).ledger != w.ledger
    ensures CommittedCall(CommitTx(w, c), c, w.calls[c].request.tx)
  {
    hide Without;
  }

  lemma CommittedKept(w: Wallet.State, step: Wallet.Step, c: CallId, tx: TxId)
    requires CommittedCall(w, c, tx)
    ensures CommittedCall(Wallet.Apply(w, step), c, tx)
  {
    WalletTheorems.StepExtends(w, step);
    if !step.DoConfirm? && !step.DoReceive? {
      WalletTheorems.StepMoves(w, step);
    }
    hide LookUp, Begin, Lock, ReadRow, UpdateRow, Record, CommitTx, Abort;
  }

  lemma EntryOk(flows: seq<Flow>, w: Wallet.State, step: Wallet.Step, i: nat)
    requires WalletOk(flows, w) && i < |Wallet.Apply(w, step).ledger|
    ensures EntryFits(flows, Wallet.Apply(w, step).ledger[i])
    ensures var w' := Wallet.Apply(w, step);
            CommittedCall(w', w'.ledger[i].author, w'.ledger[i].tx)
  {
    LedgerGrows(w, step);
    hide Inv;
    var w' := Wallet.Apply(w, step);
    if i < |w.ledger| {
      hide Wallet.Apply;
      assert SameEntry(w.ledger[i], w'.ledger[i]) && EntryFits(flows, w.ledger[i]);
      CommittedKept(w, step, w.ledger[i].author, w.ledger[i].tx);
    } else {
      CommitFinishes(w, step.c);
      hide Wallet.Apply;
      NewEntryFits(flows, w.calls[step.c].request, w'.ledger[i], step.c);
    }
  }

  lemma NewEntryFits(flows: seq<Flow>, r: Wallet.Request, e: Entry, c: CallId)
    requires Fits(flows, r) && exists at :: e == EntryOf(c, r, at)
    ensures EntryFits(flows, e) && e.author == c && e.tx == r.tx
  {
    if r.rpc.Deduct? {
      var f :| 0 <= f < |flows| && RequestOf(flows[f]) == r;
      assert DebitsFor(e, flows[f]);
    }
  }

  lemma WalletStepOk(flows: seq<Flow>, w: Wallet.State, step: Wallet.Step)
    requires WalletOk(flows, w)
    requires step.DoReceive? ==> Fits(flows, step.request)
    ensures WalletOk(flows, Wallet.Apply(w, step))
    ensures Ids(w.ledger) <= Ids(Wallet.Apply(w, step).ledger)
  {
    StepPreserves(w, step);
    LedgerGrows(w, step);
    WalletTheorems.StepExtends(w, step);
    var w' := Wallet.Apply(w, step);
    assert forall d | d in w.calls :: CallOk(w, d);
    hide Inv, Wallet.Apply, CallOk;
    forall d | d in w'.calls ensures Fits(flows, w'.calls[d].request) && SuccessOk(w', w'.calls[d]) {
      hide Fits, SuccessOk;
      if d in w.calls {
        assert Fits(flows, w.calls[d].request) && SuccessOk(w, w.calls[d]);
      }
      StepSuccess(w, step, d);
    }
    forall i: nat | i < |w'.ledger| { EntryOk(flows, w, step, i); }
  }

  /** Flows may advance, and new ones may join with transaction ids nobody used. */
  predicate Joined(flows: seq<Flow>, flows': seq<Flow>, w: Wallet.State) {
    && |flows| <= |flows'|
    && (forall f | 0 <= f < |flows| :: flows'[f] == flows[f].(stage := flows'[f].stage))
    && (forall f | |flows| <= f < |flows'| ::
          && (forall c | c in w.calls :: w.calls[c].request.tx != flows'[f].tx)
          && flows'[f].tx !in Ids(w.ledger))
  }

  lemma JoinFits(flows: seq<Flow>, flows': seq<Flow>, w: Wallet.State, c: CallId)
    requires Joined(flows, flows', w) && c in w.calls && Fits(flows, w.calls[c].request)
    ensures Fits(flows', w.calls[c].request)
  {
    var r := w.calls[c].request;
    if r.rpc.Deduct? {
      var f :| 0 <= f < |flows| && RequestOf(flows[f]) == r;
      assert RequestOf(flows'[f]) == r;
    }
  }

  lemma JoinEntryFits(flows: seq<Flow>, flows': seq<Flow>, w: Wallet.State, i: nat)
    requires Joined(flows, flows', w) && i < |w.ledger| && EntryFits(flows, w.ledger[i])
    ensures EntryFits(flows', w.ledger[i])
  {
    var e := w.ledger[i];
    assert e.tx in Ids(w.ledger);
    if e.kind == Debit {
      var f :| 0 <= f < |flows| && DebitsFor(e, flows[f]);
      assert DebitsFor(e, flows'[f]);
    }
  }

  lemma JoinOk(flows: seq<Flow>, flows': seq<Flow>, w: Wallet.State)
    requires WalletOk(flows, w) && Joined(flows, flows', w)
    ensures WalletOk(flows', w)
  {
    hide Inv, Joined, Fits, SuccessOk, EntryFits, CommittedCall;
    forall c | c in w.calls { JoinFits(flows, flows', w, c); }
    forall i: nat | i < |w.ledger| { JoinEntryFits(flows, flows', w, i); }
  }

  // ---------------------------------------------------------------- the outbox's half

  /** PENDING to READY to PUBLISHED, or PENDING to CANCELLED. */
  predicate Legal(from: OutboxStatus, to: OutboxStatus) {
    from == to || (from == Pending && (to == Ready || to == Cancelled)) || (from == Ready && to == Published)
  }

  predicate Evolves(rows: seq<OutboxRow>, rows': seq<OutboxRow>) {
    && |rows| <= |rows'|
    && (forall i | 0 <= i < |rows| ::
          rows'[i] == rows[i].(status := rows'[i].status) && Legal(rows[i].status, rows'[i].status))
  }

  predicate Released(status: OutboxStatus) {
    status == Ready || status == Published
  }

  /** What the stage of a flow allows its row to be. */
  predicate StatusFits(stage: Stage, status: OutboxStatus) {
    match stage
    case Accepted => status != Cancelled
    case Rejected => status == Pending || status == Cancelled
    case _ => status == Pending
  }

  predicate RowFits(flow: Flow, row: OutboxRow) {
    && row == OutboxRow(flow.outbox, flow.slip.bet, Payload(flow.slip, flow.placedAt), row.status, row.createdAt)
    && StatusFits(flow.stage, row.status)
  }

  predicate FlowsDistinct(flows: seq<Flow>) {
    forall f, g | 0 <= f < |flows| && 0 <= g < |flows| && f != g ::
      flows[f].slip.bet != flows[g].slip.bet && flows[f].tx != flows[g].tx && flows[f].outbox != flows[g].outbox
  }

  predicate RowsOk(flows: seq<Flow>, rows: seq<OutboxRow>) {
    |rows| == |flows| && FlowsDistinct(flows) && forall f | 0 <= f < |flows| :: RowFits(flows[f], rows[f])
  }

  /** Once the reply arrived, the debit is in the ledger. */
  predicate DebitsOk(flows: seq<Flow>, ledger: seq<Entry>) {
    forall f | 0 <= f < |flows| && (flows[f].stage == Debited || flows[f].stage == Accepted) ::
      flows[f].tx in Ids(ledger)
  }

  predicate Live(rows: seq<OutboxRow>, m: Message) {
    exists i :: 0 <= i < |rows| && MessageOf(rows[i]) == m && Released(rows[i].status)
  }

  predicate QueueOk(rows: seq<OutboxRow>, topic: seq<Message>, q: Queue) {
    && (forall k | 0 <= k < |q.rows| :: Live(rows, MessageOf(q.rows[k])))
    && (q.sent ==> q.rows != [] && MessageOf(q.rows[0]) in topic)
  }

  predicate TopicOk(rows: seq<OutboxRow>, topic: seq<Message>) {
    && (forall k | 0 <= k < |topic| :: Live(rows, topic[k]))
    && (forall i | 0 <= i < |rows| && rows[i].status == Published :: MessageOf(rows[i]) in topic)
  }

  predicate PipeOk(rows: seq<OutboxRow>, topic: seq<Message>, relays: map<nat, Queue>) {
    TopicOk(rows, topic) && forall r | r in relays :: QueueOk(rows, topic, relays[r])
  }

  predicate Reported(topic: seq<Message>, row: BetHistory.BetRow) {
    exists k :: 0 <= k < |topic| && topic[k].payload == Payload(row.slip, row.placedAt)
  }

  predicate HistoryRowsOk(topic: seq<Message>, history: seq<BetHistory.BetRow>) {
    BetHistory.KeysDistinct(history) && forall i | 0 <= i < |history| :: Reported(topic, history[i])
  }

  ghost predicate WorldOk(s: World) {
    && WalletOk(s.flows, s.wallet)
    && RowsOk(s.flows, s.rows)
    && DebitsOk(s.flows, s.wallet.ledger)
    && PipeOk(s.rows, s.topic, s.relays)
    && HistoryRowsOk(s.topic, s.history)
  }

  // ---------------------------------------------------------------- rows

  lemma LiveKept(rows: seq<OutboxRow>, rows': seq<OutboxRow>, m: Message)
    requires Evolves(rows, rows') && Live(rows, m)
    ensures Live(rows', m)
  {
    var i :| 0 <= i < |rows| && MessageOf(rows[i]) == m && Released(rows[i].status);
    assert MessageOf(rows'[i]) == m && Released(rows'[i].status);
  }

  lemma QueueKept(rows: seq<OutboxRow>, rows': seq<OutboxRow>, topic: seq<Message>, more: seq<Message>, q: Queue)
    requires QueueOk(rows, topic, q) && Evolves(rows, rows')
    ensures QueueOk(rows', topic + more, q)
  {
    forall k | 0 <= k < |q.rows| ensures Live(rows', MessageOf(q.rows[k])) {
      LiveKept(rows, rows', MessageOf(q.rows[k]));
    }
  }

  /** Rows that evolve without a new PUBLISHED one disturb neither topic nor relays. */
  lemma PipeKept(rows: seq<OutboxRow>, rows': seq<OutboxRow>, topic: seq<Message>, relays: map<nat, Queue>)
    requires PipeOk(rows, topic, relays) && Evolves(rows, rows')
    requires forall i | 0 <= i < |rows'| && rows'[i].status == Published ::
               MessageOf(rows'[i]) in topic || (i < |rows| && rows[i].status == Published)
    ensures PipeOk(rows', topic, relays)
  {
    hide Live, QueueOk;
    forall k | 0 <= k < |topic| ensures Live(rows', topic[k]) { LiveKept(rows, rows', topic[k]); }
    assert topic + [] == topic;
    forall r | r in relays ensures QueueOk(rows', topic, relays[r]) { QueueKept(rows, rows', topic, [], relays[r]); }
    forall i | 0 <= i < |rows'| && rows'[i].status == Published ensures MessageOf(rows'[i]) in topic {
      assert i < |rows| ==> MessageOf(rows'[i]) == MessageOf(rows[i]);
    }
  }

  /** Changing one row's status along the legal order, together with its flow's stage. */
  lemma OneRowMoves(flows: seq<Flow>, rows: seq<OutboxRow>, f: nat, stage: Stage, status: OutboxStatus)
    requires RowsOk(flows, rows) && f < |flows|
    requires Legal(rows[f].status, status) && StatusFits(stage, status)
    ensures RowsOk(flows[f := flows[f].(stage := stage)], rows[f := rows[f].(status := status)])
    ensures Evolves(rows, rows[f := rows[f].(status := status)])
  {}

  lemma OnlyRowOfBet(flows: seq<Flow>, rows: seq<OutboxRow>, f: nat)
    requires RowsOk(flows, rows) && f < |flows|
    ensures MarkedReady(rows, flows[f].slip.bet)
                == if rows[f].status == Pending then rows[f := rows[f].(status := Ready)] else rows
    ensures MarkedCancelled(rows, flows[f].slip.bet) == rows[f := rows[f].(status := Cancelled)]
    ensures MarkedPublished(rows, rows[f].id) == rows[f := rows[f].(status := Published)]
  {
    assert forall i | 0 <= i < |rows| :: rows[i].bet == flows[i].slip.bet && rows[i].id == flows[i].outbox;
  }

  // ---------------------------------------------------------------- steps

  lemma EvolvesSelf(rows: seq<OutboxRow>)
    ensures Evolves(rows, rows)
  {}

  lemma WriteKeeps(s: World, slip: BetHistory.Slip, tx: TxId, outbox: Id, at: Time)
    requires WorldOk(s) && Fresh(s, slip.bet, tx, outbox)
    ensures WorldOk(Write(s, slip, tx, outbox, at)) && Evolves(s.rows, Write(s, slip, tx, outbox, at).rows)
  {
    hide Inv, QueueOk, Live, Reported, Fits, SuccessOk, EntryFits;
    var s' := Write(s, slip, tx, outbox, at);
    JoinOk(s.flows, s'.flows, s.wallet);
    PipeKept(s.rows, s'.rows, s.topic, s.relays);
    assert forall f | 0 <= f < |s.flows| :: RowFits(s.flows[f], s.rows[f]);
  }

  lemma StageKeeps(s: World, f: nat, stage: Stage)
    requires WorldOk(s) && f < |s.flows| && StatusFits(stage, s.rows[f].status)
    requires stage == Debited || stage == Accepted ==> s.flows[f].tx in Ids(s.wallet.ledger)
    ensures WorldOk(Advance(s, f, stage))
  {
    hide Inv, PipeOk, HistoryRowsOk, Reported, Fits, SuccessOk, EntryFits, Ids;
    JoinOk(s.flows, Advance(s, f, stage).flows, s.wallet);
    OneRowMoves(s.flows, s.rows, f, stage, s.rows[f].status);
    assert s.rows[f := s.rows[f].(status := s.rows[f].status)] == s.rows;
  }

  /** One row moves along the legal order, not to PUBLISHED unless its message was sent. */
  lemma RowKeeps(s: World, f: nat, stage: Stage, status: OutboxStatus)
    requires WorldOk(s) && f < |s.flows| && Legal(s.rows[f].status, status) && StatusFits(stage, status)
    requires status == Published ==> MessageOf(s.rows[f]) in s.topic
    requires stage == Debited || stage == Accepted ==> s.flows[f].tx in Ids(s.wallet.ledger)
    ensures var rows := s.rows[f := s.rows[f].(status := status)];
            WorldOk(Advance(s, f, stage).(rows := rows)) && Evolves(s.rows, rows)
  {
    hide Inv, Live, QueueOk, Reported, Fits, SuccessOk, EntryFits, Ids;
    var rows := s.rows[f := s.rows[f].(status := status)];
    JoinOk(s.flows, Advance(s, f, stage).flows, s.wallet);
    OneRowMoves(s.flows, s.rows, f, stage, status);
    PipeKept(s.rows, rows, s.topic, s.relays);
  }

  lemma WalletKeeps(s: World, step: Wallet.Step)
    requires WorldOk(s) && (step.DoReceive? ==> Fits(s.flows, step.request))
    ensures WorldOk(s.(wallet := Wallet.Apply(s.wallet, step)))
  {
    WalletStepOk(s.flows, s.wallet, step);
    hide WalletOk, Wallet.Apply, RowsOk, PipeOk, HistoryRowsOk;
  }

  lemma RepliedKeeps(s: World, f: nat, c: CallId)
    requires WorldOk(s)
    ensures WorldOk(Replied(s, f, c)) && Replied(s, f, c).rows == s.rows
  {
    if Replied(s, f, c) != s {
      assert SuccessOk(s.wallet, s.wallet.calls[c]);
      hide Inv, PipeOk, HistoryRowsOk;
      assert RowFits(s.flows[f], s.rows[f]);
      StageKeeps(s, f, Debited);
    }
  }

  lemma PolledKeeps(s: World, relay: nat, batch: seq<nat>)
    requires WorldOk(s)
    ensures WorldOk(Polled(s, relay, batch)) && Polled(s, relay, batch).rows == s.rows
  {
    hide WalletOk, RowsOk, DebitsOk, HistoryRowsOk;
    var s' := Polled(s, relay, batch);
    if s' != s {
      var q := s'.relays[relay];
      forall k | 0 <= k < |q.rows| ensures Live(s.rows, MessageOf(q.rows[k])) {
        assert q.rows[k] == s.rows[batch[k]] && Released(s.rows[batch[k]].status);
      }
      assert QueueOk(s.rows, s.topic, q);
    }
  }

  lemma SentKeepsHistory(topic: seq<Message>, m: Message, history: seq<BetHistory.BetRow>)
    requires HistoryRowsOk(topic, history)
    ensures HistoryRowsOk(topic + [m], history)
  {
    forall i | 0 <= i < |history| ensures Reported(topic + [m], history[i]) {
      assert Reported(topic, history[i]);
      var k :| 0 <= k < |topic| && topic[k].payload == Payload(history[i].slip, history[i].placedAt);
      assert (topic + [m])[k] == topic[k];
    }
  }

  lemma SentKeepsTopic(rows: seq<OutboxRow>, topic: seq<Message>, m: Message)
    requires TopicOk(rows, topic) && Live(rows, m)
    ensures TopicOk(rows, topic + [m])
  {
    hide Live;
  }

  lemma QueueTail(rows: seq<OutboxRow>, topic: seq<Message>, q: Queue)
    requires QueueOk(rows, topic, q) && q.rows != []
    ensures QueueOk(rows, topic, Queue(q.rows[1..], false))
    ensures Live(rows, MessageOf(q.rows[0]))
    ensures MessageOf(q.rows[0]) in topic ==> QueueOk(rows, topic, q.(sent := true))
  {
    hide Live;
  }

  lemma SendingKeeps(s: World, relay: nat, appended: bool, acked: bool)
    requires WorldOk(s)
    ensures WorldOk(Sending(s, relay, appended, acked)) && Sending(s, relay, appended, acked).rows == s.rows
  {
    hide WalletOk, RowsOk, DebitsOk, HistoryRowsOk, QueueOk, Live, TopicOk;
    var q := QueueOf(s, relay);
    if q.rows != [] && !q.sent {
      var m := MessageOf(q.rows[0]);
      var more := if appended || acked then [m] else [];
      EvolvesSelf(s.rows);
      forall r | r in s.relays ensures QueueOk(s.rows, s.topic + more, s.relays[r]) {
        QueueKept(s.rows, s.rows, s.topic, more, s.relays[r]);
      }
      assert acked ==> (s.topic + more)[|s.topic|] == m;
      QueueTail(s.rows, s.topic + more, q);
      if more != [] {
        SentKeepsHistory(s.topic, m, s.history);
        QueueTail(s.rows, s.topic, q);
        SentKeepsTopic(s.rows, s.topic, m);
      } else {
        assert s.topic + more == s.topic;
      }
    }
  }

  lemma MarkingKeeps(s: World, relay: nat, applied: bool)
    requires WorldOk(s)
    ensures WorldOk(Marking(s, relay, applied)) && Evolves(s.rows, Marking(s, relay, applied).rows)
  {
    var q := QueueOf(s, relay);
    EvolvesSelf(s.rows);
    if q.rows != [] && q.sent {
      hide WalletOk, DebitsOk, HistoryRowsOk, TopicOk, Evolves, QueueOk, RowsOk;
      var m := MessageOf(q.rows[0]);
      QueueTail(s.rows, s.topic, q);
      var t := s.(relays := s.relays[relay := Queue(q.rows[1..], false)]);
      assert WorldOk(t);
      if applied {
        assert m in s.topic by { assert QueueOk(s.rows, s.topic, q); }
        MarkKeeps(t, m);
      }
    }
  }

  lemma MarkKeeps(s: World, m: Message)
    requires WorldOk(s) && Live(s.rows, m) && m in s.topic
    ensures WorldOk(s.(rows := MarkedPublished(s.rows, m.outbox))) && Evolves(s.rows, MarkedPublished(s.rows, m.outbox))
  {
    hide WalletOk, HistoryRowsOk, PipeOk, FlowsDistinct, Evolves, MarkedPublished, MarkedReady, MarkedCancelled, Ids;
    var f :| 0 <= f < |s.rows| && MessageOf(s.rows[f]) == m && Released(s.rows[f].status);
    var flow := s.flows[f];
    assert RowFits(flow, s.rows[f]) && flow.stage == Accepted;
    OnlyRowOfBet(s.flows, s.rows, f);
    RowKeeps(s, f, Accepted, Published);
    assert Advance(s, f, Accepted).flows == s.flows;
  }

  lemma HandleKeeps(topic: seq<Message>, history: seq<BetHistory.BetRow>, e: BetHistory.Event)
    requires HistoryRowsOk(topic, history)
    requires e.BetPlaced? ==> exists k ::
                0 <= k < |topic| && topic[k].payload == Payload(e.slip, BetHistory.PlacedTime(e))
    ensures HistoryRowsOk(topic, BetHistory.Handle(history, e))
  {
    var history' := BetHistory.Handle(history, e);
    forall i | 0 <= i < |history'| ensures Reported(topic, history'[i]) {
      if i < |history| {
        assert Reported(topic, history[i]);
        assert history'[i].slip == history[i].slip && history'[i].placedAt == history[i].placedAt;
      }
    }
  }

  lemma DeliverKeeps(s: World, k: nat, now: Time, confirm: Option<TxId>)
    requires WorldOk(s) && k < |s.topic|
    ensures WorldOk(s.(history := BetHistory.Handle(s.history, Placed(s.topic[k], now, confirm))))
  {
    hide WalletOk, RowsOk, DebitsOk, PipeOk;
    var e := Placed(s.topic[k], now, confirm);
    assert s.topic[k].payload == Payload(e.slip, BetHistory.PlacedTime(e));
    HandleKeeps(s.topic, s.history, e);
  }

  lemma OutcomeKeeps(s: World, e: BetHistory.Event)
    requires WorldOk(s) && !e.BetPlaced?
    ensures WorldOk(s.(history := BetHistory.Handle(s.history, e)))
  {
    hide WalletOk, RowsOk, DebitsOk, PipeOk;
    HandleKeeps(s.topic, s.history, e);
  }

  lemma SettleKeeps(s: World, f: nat, applied: bool)
    requires WorldOk(s)
    ensures At(s, f, Debited) ==>
              WorldOk(Act(s, MarkReady(f, applied))) && Evolves(s.rows, Act(s, MarkReady(f, applied)).rows)
    ensures At(s, f, Refused) ==>
              WorldOk(Act(s, Cancel(f, applied))) && Evolves(s.rows, Act(s, Cancel(f, applied)).rows)
    ensures At(s, f, Requested) ==>
              WorldOk(Act(s, ReplyError(f)))
  {
    hide WalletOk, HistoryRowsOk, PipeOk, FlowsDistinct, MarkedPublished, MarkedReady, MarkedCancelled, Ids;
    if f < |s.flows| {
      assert RowFits(s.flows[f], s.rows[f]);
      OnlyRowOfBet(s.flows, s.rows, f);
      EvolvesSelf(s.rows);
      if s.flows[f].stage == Debited {
        StageKeeps(s, f, Accepted);
        RowKeeps(s, f, Accepted, Ready);
      } else if s.flows[f].stage == Refused {
        StageKeeps(s, f, Rejected);
        RowKeeps(s, f, Rejected, Cancelled);
      } else if s.flows[f].stage == Requested {
        StageKeeps(s, f, Refused);
      }
    }
  }

  lemma StepKeeps(s: World, a: Action)
    requires WorldOk(s)
    ensures WorldOk(Act(s, a)) && Evolves(s.rows, Act(s, a).rows)
  {
    hide WorldOk, Write, Replied, Polled, Sending, Marking, MarkedReady, MarkedCancelled, Fits, Fresh;
    EvolvesSelf(s.rows);
    match a
    case WriteOutbox(slip, tx, outbox, at) => WriteStep(s, slip, tx, outbox, at);
    case WalletStep(step) =>
      if !(step.DoReceive? && !Fits(s.flows, step.request)) { WalletKeeps(s, step); }
    case ReplyOk(f, c) => RepliedKeeps(s, f, c);
    case ReplyError(f) => SettleKeeps(s, f, true);
    case MarkReady(f, applied) => SettleKeeps(s, f, applied);
    case Cancel(f, applied) => SettleKeeps(s, f, applied);
    case StoreKey(f, key) => IdemKeeps(s, if f < |s.flows| then s.idem[key := s.flows[f].slip.bet] else s.idem);
    case ExpireKey(key) => IdemKeeps(s, s.idem - {key});
    case Poll(relay, batch) => PolledKeeps(s, relay, batch);
    case Send(relay, appended, acked) => SendingKeeps(s, relay, appended, acked);
    case Mark(relay, applied) => MarkingKeeps(s, relay, applied);
    case Restart(relay) => RestartKeeps(s, relay);
    case Deliver(k, now, confirm) => if k < |s.topic| { DeliverKeeps(s, k, now, confirm); }
    case Outcome(event) => if !event.BetPlaced? { OutcomeKeeps(s, event); }
  }

  lemma WriteStep(s: World, slip: BetHistory.Slip, tx: TxId, outbox: Id, at: Time)
    requires WorldOk(s)
    ensures WorldOk(Write(s, slip, tx, outbox, at)) && Evolves(s.rows, Write(s, slip, tx, outbox, at).rows)
  {
    hide WorldOk;
    if Fresh(s, slip.bet, tx, outbox) {
      WriteKeeps(s, slip, tx, outbox, at);
    } else {
      EvolvesSelf(s.rows);
    }
  }

  lemma RestartKeeps(s: World, relay: nat)
    requires WorldOk(s)
    ensures WorldOk(s.(relays := s.relays[relay := Queue([], false)]))
  {
    hide WalletOk, RowsOk, DebitsOk, TopicOk, HistoryRowsOk;
  }

  lemma IdemKeeps(s: World, idem: map<Id, BetId>)
    requires WorldOk(s)
    ensures WorldOk(s.(idem := idem))
  {
    hide WalletOk, RowsOk, DebitsOk, PipeOk, HistoryRowsOk;
  }

  lemma StartOk()
    ensures WorldOk(START)
  {
    EmptyInv();
  }

  lemma {:induction false} RunOk(actions: seq<Action>)
    ensures WorldOk(WorldAfter(actions))
  {
    if actions == [] {
      StartOk();
    } else {
      RunOk(actions[..|actions| - 1]);
      StepKeeps(WorldAfter(actions[..|actions| - 1]), actions[|actions| - 1]);
    }
  }
}
