/** What every interleaving of the wallet's statements keeps. */
module WalletSafety {
  import opened Platform
  import opened Wallet

  // ---------------------------------------------------------------- the committed calls as a serial history

  /** The user's row after running the committed calls one at a time, in commit order. */
  function Replay(history: seq<Commit>, user: UserId): Option<Balance> {
    if history == [] then None
    else
      var before := Replay(history[..|history| - 1], user);
      var c := history[|history| - 1];
      if c.request.user != user || !c.updated then before
      else Some((if before.Some? then before.value else ZERO).Plus(RowDelta(c.request)))
  }

  /**
   What the row must have been for this commit, and how it replied. A credit may
   have missed its row; WalletSerial says when that shows.
   */
  predicate RowAllows(before: Option<Balance>, c: Commit) {
    var r := c.request;
    match r.rpc
    case Deduct =>
      c.updated && c.recorded && before.Some? && before.value.available >= r.amount
      && c.reply == before.value.available - r.amount
    case Withdraw =>
      c.updated && c.recorded && before.Some? && before.value.available >= r.amount
      && c.reply == before.value.available - r.amount
    case Deposit =>
      c.updated && c.recorded && r.amount >= 0
      && c.reply == (if before.Some? then before.value.available else 0) + r.amount
    case Credit(_) => c.updated ==> before.Some?
  }

  /** Every committed call is legal at its place in the serial order and leaves a valid row. */
  predicate RowsAllow(history: seq<Commit>) {
    history == [] ||
    var prefix, c := history[..|history| - 1], history[|history| - 1];
    && RowsAllow(prefix)
    && RowAllows(Replay(prefix, c.request.user), c)
    && (c.updated ==> Replay(history, c.request.user).value.Valid())
  }

  predicate AtMostOnce(history: seq<Commit>) {
    forall i, j :: 0 <= i < j < |history| && history[i].recorded && history[j].recorded
      ==> history[i].request.tx != history[j].request.tx
  }

  /** How far the committed calls pushed the user's row away from the ledger. */
  function Skew(history: seq<Commit>, user: UserId): Balance {
    if history == [] then ZERO
    else
      var c := history[|history| - 1];
      var before := Skew(history[..|history| - 1], user);
      if c.request.user != user then before
      else before.Plus(if c.updated then RowDelta(c.request) else ZERO)
                 .Minus(if c.recorded then EntryDelta(c.request) else ZERO)
  }

  // ---------------------------------------------------------------- the invariant

  function RowAfter(s: State, r: Request): Balance {
    RowOr(s, r.user, ZERO).Plus(RowDelta(r))
  }

  predicate Holds<K>(locks: map<K, CallId>, k: K, c: CallId) {
    k in locks && locks[k] == c
  }

  /** A pending row is the committed row plus this call's delta, and nobody else can change that row. */
  predicate PendingRow(s: State, c: CallId, r: Request, reply: int, row: Option<Balance>) {
    match row
    case None => r.rpc.Credit?
    case Some(b) =>
      && Holds(s.rowLocks, r.user, c)
      && b == RowAfter(s, r) && b.Valid()
      && (r.user in s.balances || r.rpc.Deposit?)
      && (r.rpc.Deposit? ==> r.amount >= 0)
      && (r.rpc.Deduct? || r.rpc.Withdraw? ==> s.balances[r.user].available >= r.amount)
      && (!r.rpc.Credit? ==> reply == b.available)
  }

  predicate CallOk(s: State, c: CallId)
    requires c in s.calls
  {
    var Call(r, phase) := s.calls[c];
    match phase
    case Locked(_) => !r.rpc.Credit?
    case RowRead(_, available) =>
      && (r.rpc.Deduct? || r.rpc.Withdraw?)
      && Holds(s.rowLocks, r.user, c)
      && r.user in s.balances && s.balances[r.user].available == available >= r.amount
    case Updated(_, reply, row) => PendingRow(s, c, r, reply, row)
    case Recorded(reply, row, entry) =>
      && PendingRow(s, c, r, reply, row)
      && (entry.None? ==> r.rpc.Credit?)
      && (entry.Some? ==>
            Holds(s.keyLocks, r.tx, c) && r.tx !in Ids(s.ledger)
            && entry.value == EntryOf(c, r, entry.value.createdAt))
    case _ => true
  }

  ghost predicate BooksOk(s: State) {
    && (forall u :: (u in s.balances) == Replay(s.history, u).Some?)
    && (forall u | u in s.balances :: s.balances[u] == Replay(s.history, u).value)
    && (forall u :: RowOr(s, u, ZERO) == Fold(s.ledger, u).Plus(Skew(s.history, u)))
  }

  ghost predicate HistoryOk(s: State) {
    && RowsAllow(s.history)
    && AtMostOnce(s.history)
    && (forall i | 0 <= i < |s.history| && s.history[i].recorded :: s.history[i].request.tx in Ids(s.ledger))
  }

  predicate KeysDistinct(ledger: seq<Entry>) {
    forall i, j :: 0 <= i < j < |ledger| ==> ledger[i].tx != ledger[j].tx
  }

  ghost predicate Inv(s: State) {
    && (forall c | c in s.calls :: CallOk(s, c))
    && KeysDistinct(s.ledger)
    && BooksOk(s)
    && HistoryOk(s)
  }

  // ---------------------------------------------------------------- preservation

  lemma {:induction false} TotalConfirm(ledger: seq<Entry>, tx: TxId, user: UserId, group: Group)
    ensures Total(Confirm(ledger, tx), user, group) == Total(ledger, user, group)
  {
    if ledger != [] {
      var n := |ledger| - 1;
      TotalConfirm(ledger[..n], tx, user, group);
      assert Confirm(ledger, tx)[..n] == Confirm(ledger[..n], tx);
    }
  }

  lemma ConfirmKeepsIds(ledger: seq<Entry>, tx: TxId)
    ensures Ids(Confirm(ledger, tx)) == Ids(ledger)
  {
    forall t | t in Ids(ledger) ensures t in Ids(Confirm(ledger, tx)) {
      var i :| 0 <= i < |ledger| && ledger[i].tx == t;
      assert Confirm(ledger, tx)[i].tx == t;
    }
  }

  lemma ConfirmPreserves(s: State, tx: TxId)
    requires Inv(s)
    ensures Inv(s.(ledger := Confirm(s.ledger, tx)))
  {
    var s' := s.(ledger := Confirm(s.ledger, tx));
    ConfirmKeepsIds(s.ledger, tx);
    forall u ensures RowOr(s', u, ZERO) == Fold(s'.ledger, u).Plus(Skew(s'.history, u)) {
      forall g ensures Total(s'.ledger, u, g) == Total(s.ledger, u, g) {
        TotalConfirm(s.ledger, tx, u, g);
      }
      assert RowOr(s, u, ZERO) == Fold(s.ledger, u).Plus(Skew(s.history, u));
    }
    forall c | c in s'.calls ensures CallOk(s', c) {
      assert CallOk(s, c);
    }
  }

  /** A statement of call `c` that leaves the tables, the history and everybody else's locks alone. */
  ghost predicate Local(s: State, s': State, c: CallId) {
    && s'.balances == s.balances && s'.ledger == s.ledger && s'.history == s.history
    && c in s'.calls && CallOk(s', c)
    && (forall d | d in s'.calls && d != c :: d in s.calls && s'.calls[d] == s.calls[d])
    && (forall u, d | d != c && Holds(s.rowLocks, u, d) :: Holds(s'.rowLocks, u, d))
    && (forall t, d | d != c && Holds(s.keyLocks, t, d) :: Holds(s'.keyLocks, t, d))
  }

  lemma LocalKeepsOthers(s: State, s': State, c: CallId, d: CallId)
    requires Local(s, s', c) && d in s'.calls && d != c && CallOk(s, d)
    ensures CallOk(s', d)
  {
    assert forall r :: RowAfter(s', r) == RowAfter(s, r);
  }

  lemma LocalPreserves(s: State, s': State, c: CallId)
    requires Inv(s) && Local(s, s', c)
    ensures Inv(s')
  {
    forall d | d in s'.calls ensures CallOk(s', d) {
      if d != c {
        LocalKeepsOthers(s, s', c, d);
      }
    }
    assert BooksOk(s') by {
      assert forall u :: RowOr(s', u, ZERO) == RowOr(s, u, ZERO);
    }
    assert HistoryOk(s');
  }

  /** A step of somebody else leaves the rows and keys that call `d` has locked, and its locks. */
  ghost predicate Spares(s: State, s': State, d: CallId) {
    && d in s.calls && d in s'.calls && s'.calls[d] == s.calls[d]
    && (forall u | Holds(s.rowLocks, u, d) ::
          && Holds(s'.rowLocks, u, d) && (u in s'.balances <==> u in s.balances)
          && (u in s.balances ==> s'.balances[u] == s.balances[u]))
    && (forall t | Holds(s.keyLocks, t, d) :: Holds(s'.keyLocks, t, d) && (t in Ids(s'.ledger) <==> t in Ids(s.ledger)))
  }

  lemma SparedOk(s: State, s': State, d: CallId)
    requires Spares(s, s', d) && CallOk(s, d)
    ensures CallOk(s', d)
  {
    hide Ids;
  }

  lemma CommitSpares(s: State, c: CallId, d: CallId)
    requires c in s.calls && s.calls[c].phase.Recorded? && CallOk(s, c)
    requires d in s.calls && d != c
    ensures Spares(s, CommitTx(s, c), d)
  {
    var entry := s.calls[c].phase.entry;
    if entry.Some? {
      IdsAppend(s.ledger, entry.value);
    }
    hide Ids, RowDelta;
  }

  lemma CommitKeepsOthers(s: State, c: CallId, d: CallId)
    requires Inv(s) && c in s.calls && s.calls[c].phase.Recorded?
    requires d in s.calls && d != c
    ensures CallOk(CommitTx(s, c), d)
  {
    assert CallOk(s, c) && CallOk(s, d);
    hide CommitTx, CallOk, Spares;
    CommitSpares(s, c, d);
    SparedOk(s, CommitTx(s, c), d);
  }

  lemma IdsAppend(ledger: seq<Entry>, e: Entry)
    ensures Ids(ledger + [e]) == Ids(ledger) + {e.tx}
  {
    forall t | t in Ids(ledger) + {e.tx} ensures t in Ids(ledger + [e]) {
      if t in Ids(ledger) {
        var i :| 0 <= i < |ledger| && ledger[i].tx == t;
        assert (ledger + [e])[i].tx == t;
      } else {
        assert (ledger + [e])[|ledger|].tx == t;
      }
    }
  }

  lemma FoldAppend(ledger: seq<Entry>, c: CallId, r: Request, e: Entry, user: UserId)
    requires e == EntryOf(c, r, e.createdAt)
    ensures Fold(ledger + [e], user) == Fold(ledger, user).Plus(if r.user == user then EntryDelta(r) else ZERO)
  {
    assert (ledger + [e])[..|ledger|] == ledger;
  }

  lemma CommitReplay(s: State, c: CallId, u: UserId)
    requires Inv(s) && c in s.calls && s.calls[c].phase.Recorded?
    ensures var s' := CommitTx(s, c);
            && (u in s'.balances) == Replay(s'.history, u).Some?
            && (u in s'.balances ==> s'.balances[u] == Replay(s'.history, u).value)
  {
    var s' := CommitTx(s, c);
    assert CallOk(s, c);
    var Call(r, Recorded(reply, row, entry)) := s.calls[c];
    var n := |s.history|;
    assert s'.history[..n] == s.history && s'.history[n] == Commit(c, r, reply, row.Some?, entry.Some?);
    assert (u in s.balances) == Replay(s.history, u).Some?;
  }

  lemma SkewAppend(history: seq<Commit>, c: Commit, user: UserId)
    ensures Skew(history + [c], user) ==
            if c.request.user != user then Skew(history, user)
            else Skew(history, user).Plus(if c.updated then RowDelta(c.request) else ZERO)
                                    .Minus(if c.recorded then EntryDelta(c.request) else ZERO)
  {
    assert (history + [c])[..|history|] == history;
  }

  lemma CommitLaw(s: State, c: CallId, u: UserId)
    requires Inv(s) && c in s.calls && s.calls[c].phase.Recorded?
    ensures var s' := CommitTx(s, c);
            RowOr(s', u, ZERO) == Fold(s'.ledger, u).Plus(Skew(s'.history, u))
  {
    hide Skew, Fold, Total, RowDelta, EntryDelta, RowsAllow, Replay, HistoryOk, KeysDistinct, Ids;
    assert CallOk(s, c);
    var Call(r, Recorded(reply, row, entry)) := s.calls[c];
    assert RowOr(s, u, ZERO) == Fold(s.ledger, u).Plus(Skew(s.history, u));
    SkewAppend(s.history, Commit(c, r, reply, row.Some?, entry.Some?), u);
    if entry.Some? {
      FoldAppend(s.ledger, c, r, entry.value, u);
    }
  }

  lemma CommitBooks(s: State, c: CallId)
    requires Inv(s) && c in s.calls && s.calls[c].phase.Recorded?
    ensures BooksOk(CommitTx(s, c))
  {
    forall u { CommitReplay(s, c, u); }
    forall u { CommitLaw(s, c, u); }
  }

  lemma CommitHistory(s: State, c: CallId)
    requires Inv(s) && c in s.calls && s.calls[c].phase.Recorded?
    ensures HistoryOk(CommitTx(s, c)) && KeysDistinct(CommitTx(s, c).ledger)
  {
    var s' := CommitTx(s, c);
    assert CallOk(s, c);
    var Call(r, Recorded(reply, row, entry)) := s.calls[c];
    var n := |s.history|;
    assert s'.history[..n] == s.history && s'.history[n] == Commit(c, r, reply, row.Some?, entry.Some?);
    if entry.Some? {
      IdsAppend(s.ledger, entry.value);
      forall i | 0 <= i < |s.ledger| ensures s.ledger[i].tx != r.tx {
        assert s.ledger[i].tx in Ids(s.ledger);
      }
    }
    hide Ids, CallOk, Without;
  }

  lemma CommitPreserves(s: State, c: CallId)
    requires Inv(s)
    ensures Inv(CommitTx(s, c))
  {
    if c in s.calls && s.calls[c].phase.Recorded? {
      CommitBooks(s, c);
      CommitHistory(s, c);
      forall d | d in s.calls && d != c ensures CallOk(CommitTx(s, c), d) {
        CommitKeepsOthers(s, c, d);
      }
    }
  }

  lemma ReceiveLocal(s: State, c: CallId, r: Request)
    ensures Receive(s, c, r) == s || Local(s, Receive(s, c, r), c)
  {}

  lemma FinishLocal(s: State, c: CallId, outcome: Outcome)
    requires c in s.calls && !outcome.Committed?
    ensures Local(s, Finish(s, c, outcome), c)
  {}

  lemma MoveLocal(s: State, c: CallId, phase: Phase)
    requires c in s.calls && CallOk(Move(s, c, phase), c)
    ensures Local(s, Move(s, c, phase), c)
  {}

  lemma LockLocal(s: State, c: CallId, key: int)
    ensures Lock(s, c, key) == s || Local(s, Lock(s, c, key), c)
  {}

  lemma ReadRowLocal(s: State, c: CallId)
    requires c in s.calls && s.calls[c].phase.Locked?
    ensures ReadRow(s, c) == s || Local(s, ReadRow(s, c), c)
  {
    var r := s.calls[c].request;
    if (r.rpc != Deduct && r.rpc != Withdraw) || !Free(s.rowLocks, r.user, c) {
      assert ReadRow(s, c) == s;
    } else if r.user !in s.balances {
      FinishLocal(s, c, NotFound);
    } else if s.balances[r.user].available < r.amount {
      FinishLocal(s, c, InsufficientFunds);
    } else {
      assert CallOk(ReadRow(s, c), c);
    }
  }

  /** Taking a free row lock while moving to `phase`. */
  lemma LockedMoveLocal(s: State, s': State, c: CallId, user: UserId, phase: Phase)
    requires c in s.calls && Free(s.rowLocks, user, c)
    requires s' == Move(s, c, phase).(rowLocks := s.rowLocks[user := c])
    requires CallOk(s', c)
    ensures Local(s, s', c)
  {}

  lemma UpdateRowLocal(s: State, c: CallId)
    requires c in s.calls && ReadyToUpdate(s.calls[c]) && CallOk(s, c)
    requires Free(s.rowLocks, s.calls[c].request.user, c)
    ensures Local(s, UpdateRow(s, c), c)
  {
    hide Local;
    var Call(r, phase) := s.calls[c];
    var s' := UpdateRow(s, c);
    if r.user !in s.balances && !r.rpc.Deposit? {
      MoveLocal(s, c, Updated(phase.at, 0, None));
    } else if !RowAfter(s, r).Valid() || (r.rpc.Deposit? && r.amount < 0) {
      FinishLocal(s, c, Violated(BalanceCheck));
    } else {
      LockedMoveLocal(s, s', c, r.user, s'.calls[c].phase);
    }
  }

  lemma RecordLocal(s: State, c: CallId)
    requires c in s.calls && s.calls[c].phase.Updated? && CallOk(s, c)
    requires Free(s.keyLocks, s.calls[c].request.tx, c)
    ensures Local(s, Record(s, c), c)
  {
    var Call(r, phase) := s.calls[c];
    var s' := Record(s, c);
    if r.tx in Ids(s.ledger) && !r.rpc.Credit? {
      FinishLocal(s, c, Violated(LedgerKey));
    } else if r.tx !in Ids(s.ledger) && phase.row.None? && r.user !in s.balances {
      FinishLocal(s, c, Violated(LedgerUser));
    } else {
      assert CallOk(s', c);
    }
  }

  predicate WritesTables(step: Step) {
    step.DoCommit? || step.DoConfirm?
  }

  lemma StepLocal(s: State, step: Step)
    requires !WritesTables(step)
    requires step.c in s.calls ==> CallOk(s, step.c)
    ensures Apply(s, step) == s || Local(s, Apply(s, step), step.c)
  {
    match step
    case DoReceive(c, r) => ReceiveLocal(s, c, r);
    case DoLookUp(c) =>
      if c in s.calls { FinishLocal(s, c, Replayed); MoveLocal(s, c, Checked); }
    case DoLookUpError(c) =>
      if c in s.calls { FinishLocal(s, c, Aborted); MoveLocal(s, c, Checked); }
    case DoBegin(c, at) => if c in s.calls { MoveLocal(s, c, Begun(at)); }
    case DoLock(c, key) => LockLocal(s, c, key);
    case DoReadRow(c) => if c in s.calls && s.calls[c].phase.Locked? { ReadRowLocal(s, c); }
    case DoUpdateRow(c) =>
      if c in s.calls && ReadyToUpdate(s.calls[c]) && Free(s.rowLocks, s.calls[c].request.user, c) {
        UpdateRowLocal(s, c);
      }
    case DoRecord(c) =>
      if c in s.calls && s.calls[c].phase.Updated? && Free(s.keyLocks, s.calls[c].request.tx, c) {
        RecordLocal(s, c);
      }
    case DoAbort(c) => if c in s.calls { FinishLocal(s, c, Aborted); }
  }

  lemma StepPreserves(s: State, step: Step)
    requires Inv(s)
    ensures Inv(Apply(s, step))
  {
    match step
    case DoCommit(c) => CommitPreserves(s, c);
    case DoConfirm(tx) => ConfirmPreserves(s, tx);
    case _ =>
      StepLocal(s, step);
      var s' := Apply(s, step);
      if s' != s {
        LocalPreserves(s, s', step.c);
      }
  }

  lemma EmptyBooks(u: UserId)
    ensures Replay([], u) == None && RowOr(EMPTY, u, ZERO) == Fold([], u).Plus(Skew([], u))
  {}

  lemma EmptyInv()
    ensures Inv(EMPTY)
  {
    forall u { EmptyBooks(u); }
    assert HistoryOk(EMPTY);
  }

  lemma {:induction false} RunInv(steps: seq<Step>)
    ensures Inv(Run(steps))
  {
    if steps == [] {
      EmptyInv();
    } else {
      RunInv(steps[..|steps| - 1]);
      StepPreserves(Run(steps[..|steps| - 1]), steps[|steps| - 1]);
    }
  }
}
