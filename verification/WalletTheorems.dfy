/** The wallet's main results, for every interleaving of its statements. */
module WalletTheorems {
  import opened Platform
  import opened Wallet
  import opened WalletSafety

  ghost predicate Reachable(s: State) {
    exists steps :: Run(steps) == s
  }

  lemma ReachableInv(s: State)
    requires Reachable(s)
    ensures Inv(s)
  {
    var steps :| Run(steps) == s;
    RunInv(steps);
  }

  // ---------------------------------------------------------------- replay and at-most-once

  /**
   Every balance is the sum of the deltas that committed, in commit order, and no
   step of that sum was negative or unfunded.
   */
  lemma BalancesAreReplay(s: State, user: UserId)
    requires Reachable(s)
    ensures RowsAllow(s.history)
    ensures (user in s.balances) == Replay(s.history, user).Some?
    ensures user in s.balances ==> s.balances[user] == Replay(s.history, user).value
  {
    ReachableInv(s);
  }

  lemma {:induction false} RowAllowsAt(history: seq<Commit>, i: nat)
    requires RowsAllow(history) && i < |history|
    ensures RowAllows(Replay(history[..i], history[i].request.user), history[i])
  {
    if i < |history| - 1 {
      RowAllowsAt(history[..|history| - 1], i);
      assert history[..|history| - 1][..i] == history[..i];
    }
  }

  /** No transaction id moves money twice through Deduct, Deposit and Withdraw, whatever the look-ups saw. */
  lemma MovesMoneyAtMostOnce(s: State, i: nat, j: nat)
    requires Reachable(s) && i < j < |s.history|
    requires !s.history[i].request.rpc.Credit? && !s.history[j].request.rpc.Credit?
    ensures s.history[i].request.tx != s.history[j].request.tx
  {
    ReachableInv(s);
    RowAllowsAt(s.history, i);
    RowAllowsAt(s.history, j);
  }

  // ---------------------------------------------------------------- the ledger law

  /** Each row is the fold of the ledger plus the recorded skew, so it is the fold exactly when the skew is zero. */
  lemma LedgerLaw(s: State, user: UserId)
    requires Reachable(s)
    ensures RowOr(s, user, ZERO) == Fold(s.ledger, user).Plus(Skew(s.history, user))
    ensures RowOr(s, user, ZERO) == Fold(s.ledger, user) <==> Skew(s.history, user) == ZERO
  {
    hide Reachable, Total, Fold, Skew, HistoryOk, CallOk, KeysDistinct;
    ReachableInv(s);
    assert BooksOk(s);
    PlusZero(Fold(s.ledger, user), Skew(s.history, user));
  }

  lemma PlusZero(a: Balance, b: Balance)
    ensures a.Plus(b) == a <==> b == ZERO
  {}

  /** Deposits that were booked by CreditBalance with reason DEPOSIT. */
  function CreditedDeposits(history: seq<Commit>, user: UserId): int {
    if history == [] then 0
    else
      var c := history[|history| - 1];
      CreditedDeposits(history[..|history| - 1], user)
      + if c.request.user == user && c.recorded && c.request.rpc == Credit(DepositReason)
        then c.request.amount else 0
  }

  lemma {:induction false} SkewSum(history: seq<Commit>, user: UserId)
    requires RowsAllow(history)
    ensures Skew(history, user).available + Skew(history, user).inFlight == -CreditedDeposits(history, user)
  {
    if history != [] {
      var n := |history| - 1;
      var prefix, c := history[..n], history[n];
      SkewSum(prefix, user);
      assert history == prefix + [c];
      SkewAppend(prefix, c, user);
      CommitSum(Skew(prefix, user), c, Replay(prefix, c.request.user));
      hide Skew, RowsAllow, RowAllows, Replay, RowDelta, EntryDelta;
    }
  }

  function SumOf(b: Balance): int {
    b.available + b.inFlight
  }

  /** What one commit adds to the two skews together. */
  lemma CommitSum(before: Balance, c: Commit, row: Option<Balance>)
    requires RowAllows(row, c)
    ensures SumOf(before.Plus(if c.updated then RowDelta(c.request) else ZERO)
                        .Minus(if c.recorded then EntryDelta(c.request) else ZERO))
         == SumOf(before) - if c.recorded && c.request.rpc == Credit(DepositReason) then c.request.amount else 0
  {
    SumOfDeltas(c.request);
    hide RowDelta, EntryDelta;
  }

  lemma SumOfDeltas(r: Request)
    ensures r.rpc.Deduct? || r.rpc.Credit? ==> SumOf(RowDelta(r)) == 0
    ensures r.rpc.Credit? ==> SumOf(EntryDelta(r)) == if r.rpc.reason == DepositReason then r.amount else 0
    ensures !r.rpc.Credit? ==> SumOf(EntryDelta(r)) == SumOf(RowDelta(r))
  {}

  /**
   available + in_flight = deposits - withdrawals: in every run, reused credit ids
   and credits that found no row included, up to the deposits CreditBalance booked.
   */
  lemma Conservation(s: State, user: UserId)
    requires Reachable(s)
    ensures var row := RowOr(s, user, ZERO);
            row.available + row.inFlight + CreditedDeposits(s.history, user)
            == Total(s.ledger, user, Deposits) - Total(s.ledger, user, Withdrawals)
  {
    LedgerLaw(s, user);
    BalancesAreReplay(s, user);
    SkewSum(s.history, user);
  }

  // ---------------------------------------------------------------- when a row is exactly the fold

  /** What a caller can check before a call: a credit names a known user and a fresh id, and is no deposit. */
  predicate Admissible(s: State, r: Request) {
    if r.rpc.Credit? then
      && r.user in s.balances && r.rpc.reason != DepositReason
      && forall d | d in s.calls :: s.calls[d].request.tx != r.tx
    else
      forall d | d in s.calls && s.calls[d].request.rpc.Credit? :: s.calls[d].request.tx != r.tx
  }

  predicate Disciplined(steps: seq<Step>) {
    steps == [] ||
    var prefix, last := steps[..|steps| - 1], steps[|steps| - 1];
    Disciplined(prefix) && (last.DoReceive? ==> Admissible(Run(prefix), last.request))
  }

  predicate Anomalous(c: Commit) {
    c.updated != c.recorded || (c.request.rpc == Credit(DepositReason) && c.updated)
  }

  predicate CreditOk(s: State, c: CallId)
    requires c in s.calls
  {
    var Call(r, phase) := s.calls[c];
    r.rpc.Credit? ==>
      && r.user in s.balances && r.rpc.reason != DepositReason
      && (forall d | d in s.calls && d != c :: s.calls[d].request.tx != r.tx)
      && (phase.Updated? ==> phase.row.Some?)
      && (phase.Recorded? ==> phase.row.Some? && phase.entry.Some?)
  }

  predicate AuthorOk(s: State, e: Entry) {
    e.author in s.calls && s.calls[e.author].request.tx == e.tx && s.calls[e.author].phase.Finished?
  }

  ghost predicate DisciplinedInv(s: State) {
    && (forall c | c in s.calls :: CreditOk(s, c))
    && (forall i | 0 <= i < |s.ledger| :: AuthorOk(s, s.ledger[i]))
    && (forall i | 0 <= i < |s.history| :: !Anomalous(s.history[i]))
  }

  /** An unfinished credit with an id of its own does not find that id in the ledger. */
  lemma FreshIdIsNew(s: State, c: CallId)
    requires DisciplinedInv(s) && c in s.calls && s.calls[c].request.rpc.Credit? && !s.calls[c].phase.Finished?
    ensures s.calls[c].request.tx !in Ids(s.ledger)
  {
    assert CreditOk(s, c);
    forall i | 0 <= i < |s.ledger| ensures s.ledger[i].tx != s.calls[c].request.tx {
      assert AuthorOk(s, s.ledger[i]);
    }
  }

  /** What no statement does: change a request, touch another call, reopen a finished one, or delete a row. */
  ghost predicate Extends(s: State, s': State, step: Step) {
    && (forall d | d in s.calls ::
          && d in s'.calls && s'.calls[d].request == s.calls[d].request
          && (s.calls[d].phase.Finished? || (!step.DoConfirm? && d == step.c) || s'.calls[d] == s.calls[d]))
    && (forall d | d in s.calls && s.calls[d].phase.Finished? :: s'.calls[d].phase.Finished?)
    && (forall d | d in s'.calls && d !in s.calls ::
          step.DoReceive? && d == step.c && s'.calls[d] == Call(step.request, Received))
    && (forall u | u in s.balances :: u in s'.balances)
  }

  /** The statement did nothing, or moved its own unfinished call to another phase. */
  predicate Moves(s: State, s': State, c: CallId) {
    s'.calls == s.calls
    || (c in s.calls && c in s'.calls && !s.calls[c].phase.Finished?
        && s'.calls == s.calls[c := s.calls[c].(phase := s'.calls[c].phase)])
  }

  lemma LookUpMoves(s: State, c: CallId)
    ensures Moves(s, LookUp(s, c), c) && Moves(s, LookUpError(s, c), c)
  {
    hide Ids, Without;
  }

  lemma EarlyMoves(s: State, c: CallId, at: Time, key: int)
    ensures Moves(s, Begin(s, c, at), c) && Moves(s, Lock(s, c, key), c) && Moves(s, Abort(s, c), c)
  {
    hide Without;
  }

  lemma ReadMoves(s: State, c: CallId)
    ensures Moves(s, ReadRow(s, c), c)
  {
    hide Without;
  }

  lemma UpdateMoves(s: State, c: CallId)
    ensures Moves(s, UpdateRow(s, c), c)
  {
    hide Without;
  }

  lemma RecordMoves(s: State, c: CallId)
    ensures Moves(s, Record(s, c), c)
  {
    hide Ids, Without;
  }

  lemma CommitMoves(s: State, c: CallId)
    ensures Moves(s, CommitTx(s, c), c)
  {
    hide Without;
  }

  lemma StepMoves(s: State, step: Step)
    requires !step.DoReceive? && !step.DoConfirm?
    ensures Moves(s, Apply(s, step), step.c)
  {
    LookUpMoves(s, step.c);
    EarlyMoves(s, step.c, if step.DoBegin? then step.at else 0, if step.DoLock? then step.key else 0);
    ReadMoves(s, step.c);
    UpdateMoves(s, step.c);
    RecordMoves(s, step.c);
    CommitMoves(s, step.c);
  }

  lemma MovesExtends(s: State, s': State, step: Step)
    requires !step.DoReceive? && !step.DoConfirm? && Moves(s, s', step.c)
    requires forall u | u in s.balances :: u in s'.balances
    ensures Extends(s, s', step)
  {}

  lemma StepKeepsRows(s: State, step: Step, u: UserId)
    requires u in s.balances
    ensures u in Apply(s, step).balances
  {
    hide Ids, Without, RowDelta;
    match step
    case DoCommit(_) => hide LookUp, LookUpError, Begin, Lock, ReadRow, UpdateRow, Record, Abort;
    case DoUpdateRow(_) => hide LookUp, LookUpError, Begin, Lock, ReadRow, Record, CommitTx, Abort;
    case DoRecord(_) => hide LookUp, LookUpError, Begin, Lock, ReadRow, UpdateRow, CommitTx, Abort;
    case DoReadRow(_) => hide LookUp, LookUpError, Begin, Lock, UpdateRow, Record, CommitTx, Abort;
    case _ => hide UpdateRow, Record, ReadRow, CommitTx;
  }

  lemma StepExtends(s: State, step: Step)
    ensures Extends(s, Apply(s, step), step)
  {
    if !step.DoReceive? && !step.DoConfirm? {
      hide LookUp, Begin, Lock, ReadRow, UpdateRow, Record, CommitTx, Abort, Receive, Apply;
      StepMoves(s, step);
      forall u | u in s.balances { StepKeepsRows(s, step, u); }
      MovesExtends(s, Apply(s, step), step);
    }
  }

  lemma DisciplinedOther(s: State, step: Step, d: CallId)
    requires d in s.calls && CreditOk(s, d)
    requires step.DoReceive? ==> Admissible(s, step.request)
    requires Extends(s, Apply(s, step), step)
    requires step.DoConfirm? || d != step.c || s.calls[d].phase.Finished?
    ensures CreditOk(Apply(s, step), d)
  {}

  lemma UpdatedFinds(s: State, c: CallId)
    requires c in s.calls && s.calls[c].request.rpc.Credit? && s.calls[c].request.user in s.balances
    ensures c in UpdateRow(s, c).calls
    ensures var phase := UpdateRow(s, c).calls[c].phase;
            phase == s.calls[c].phase || phase.Finished? || (phase.Updated? && phase.row.Some?)
  {
    hide Without, RowDelta;
  }

  lemma RecordedStores(s: State, c: CallId)
    requires c in s.calls && s.calls[c].request.rpc.Credit? && s.calls[c].request.tx !in Ids(s.ledger)
    ensures c in Record(s, c).calls
    ensures var phase := Record(s, c).calls[c].phase;
            phase == s.calls[c].phase || phase.Finished?
            || (s.calls[c].phase.Updated? && phase.Recorded? && phase.entry.Some? && phase.row == s.calls[c].phase.row)
  {
    hide Without, Ids;
  }

  lemma DisciplinedSelf(s: State, step: Step)
    requires !step.DoConfirm? && step.c in s.calls && CreditOk(s, step.c)
    requires Extends(s, Apply(s, step), step)
    requires s.calls[step.c].request.rpc.Credit? && !s.calls[step.c].phase.Finished?
    requires s.calls[step.c].request.tx !in Ids(s.ledger)
    ensures CreditOk(Apply(s, step), step.c)
  {
    var c := step.c;
    assert s.calls[c].request.user in s.balances;
    hide UpdateRow, Record, ReadRow, LookUp, LookUpError, Lock, Begin, CommitTx, Abort, CreditOk, Extends, Ids;
    match step {
      case DoReceive(_, r) => assert Receive(s, c, r) == s;
      case DoUpdateRow(_) => UpdatedFinds(s, c);
      case DoRecord(_) => RecordedStores(s, c);
      case DoReadRow(_) => NotForCredit(s, c, 0);
      case DoLookUp(_) => NotForCredit(s, c, 0);
      case DoLookUpError(_) => NotForCredit(s, c, 0);
      case DoLock(_, key) => NotForCredit(s, c, key);
      case DoBegin(_, at) => OtherPhases(s, c, at);
      case DoCommit(_) => OtherPhases(s, c, 0);
      case DoAbort(_) => OtherPhases(s, c, 0);
    }
    CreditKept(s, Apply(s, step), step);
  }

  lemma OtherPhases(s: State, c: CallId, at: Time)
    requires c in s.calls
    ensures c in Begin(s, c, at).calls && c in CommitTx(s, c).calls && c in Abort(s, c).calls
    ensures Begin(s, c, at).calls[c].phase == s.calls[c].phase || Begin(s, c, at).calls[c].phase.Begun?
    ensures CommitTx(s, c).calls[c].phase == s.calls[c].phase || CommitTx(s, c).calls[c].phase.Finished?
    ensures Abort(s, c).calls[c].phase == s.calls[c].phase || Abort(s, c).calls[c].phase.Finished?
  {
    hide Without;
  }

  lemma CreditKept(s: State, s': State, step: Step)
    requires !step.DoConfirm? && step.c in s.calls && CreditOk(s, step.c) && Extends(s, s', step)
    requires s.calls[step.c].request.rpc.Credit? && step.c in s'.calls
    requires !step.DoReceive? || s' == s
    requires var p, p' := s.calls[step.c].phase, s'.calls[step.c].phase;
             || p' == p || p'.Finished? || p'.Begun? || (p'.Updated? && p'.row.Some?)
             || (p.Updated? && p'.Recorded? && p'.entry.Some? && p'.row == p.row)
    ensures CreditOk(s', step.c)
  {}

  /** The statements that CreditBalance does not issue. */
  lemma NotForCredit(s: State, c: CallId, key: int)
    requires c in s.calls && s.calls[c].request.rpc.Credit?
    ensures LookUp(s, c) == LookUpError(s, c) == Lock(s, c, key) == ReadRow(s, c) == s
  {
    hide Ids;
  }

  lemma DisciplinedCall(s: State, step: Step, d: CallId)
    requires DisciplinedInv(s)
    requires step.DoReceive? ==> Admissible(s, step.request)
    requires d in Apply(s, step).calls
    ensures CreditOk(Apply(s, step), d)
  {
    StepExtends(s, step);
    var s' := Apply(s, step);
    if d in s.calls {
      assert CreditOk(s, d);
      if step.DoConfirm? || d != step.c || s.calls[d].phase.Finished? {
        DisciplinedOther(s, step, d);
      } else if s.calls[d].request.rpc.Credit? {
        FreshIdIsNew(s, d);
        DisciplinedSelf(s, step);
      } else {
        assert !s'.calls[d].request.rpc.Credit?;
      }
    }
  }

  /** What a commit appends: the row it prepared, and a record of what it did. */
  lemma Appends(s: State, step: Step)
    requires step.DoCommit? && step.c in s.calls ==> CallOk(s, step.c)
    ensures var s' := Apply(s, step);
            && (|s'.ledger| == |s.ledger| || (
                  && |s'.ledger| == |s.ledger| + 1 && step.DoCommit? && step.c in s.calls
                  && s'.ledger[|s.ledger|].author == step.c
                  && s'.ledger[|s.ledger|].tx == s.calls[step.c].request.tx
                  && s'.calls[step.c].phase.Finished?))
            && (forall i | 0 <= i < |s.ledger| ::
                  s'.ledger[i].author == s.ledger[i].author && s'.ledger[i].tx == s.ledger[i].tx)
  {
    hide Ids, Without;
    match step
    case DoCommit(c) => hide LookUp, Begin, Lock, ReadRow, UpdateRow, Record, Abort;
    case DoUpdateRow(c) => hide LookUp, Begin, Lock, ReadRow, Record, CommitTx, Abort, CallOk;
    case DoRecord(c) => hide LookUp, Begin, Lock, ReadRow, UpdateRow, CommitTx, Abort, CallOk;
    case DoReadRow(c) => hide LookUp, Begin, Lock, UpdateRow, Record, CommitTx, Abort, CallOk;
    case _ => hide ReadRow, UpdateRow, Record, CommitTx, CallOk;
  }

  lemma DisciplinedEntry(s: State, step: Step, i: nat)
    requires DisciplinedInv(s)
    requires step.DoCommit? && step.c in s.calls ==> CallOk(s, step.c)
    requires i < |Apply(s, step).ledger|
    ensures AuthorOk(Apply(s, step), Apply(s, step).ledger[i])
  {
    Appends(s, step);
    StepExtends(s, step);
    hide Apply, Receive, LookUp, Begin, Lock, ReadRow, UpdateRow, Record, CommitTx, Abort, Confirm, CallOk, CreditOk;
    if i < |s.ledger| {
      assert AuthorOk(s, s.ledger[i]);
    }
  }

  lemma DisciplinedCommit(s: State, step: Step, i: nat)
    requires DisciplinedInv(s)
    requires step.DoCommit? && step.c in s.calls ==> CallOk(s, step.c)
    requires i < |Apply(s, step).history|
    ensures !Anomalous(Apply(s, step).history[i])
  {
    hide AuthorOk, Ids, Without, LookUp, Begin, Lock, ReadRow, UpdateRow, Record;
    if step.DoCommit? && i == |s.history| {
      assert CreditOk(s, step.c);
    } else {
      SameHistory(s, step);
    }
  }

  lemma SameHistory(s: State, step: Step)
    ensures var h := Apply(s, step).history;
            h == s.history || (step.DoCommit? && |h| == |s.history| + 1 && h[..|s.history|] == s.history)
  {
    hide Ids, Without;
    match step
    case DoUpdateRow(_) => hide LookUp, Begin, Lock, ReadRow, Record, CommitTx, Abort;
    case DoRecord(_) => hide LookUp, Begin, Lock, ReadRow, UpdateRow, CommitTx, Abort;
    case DoCommit(_) => hide LookUp, Begin, Lock, ReadRow, UpdateRow, Record, Abort;
    case _ => hide UpdateRow, Record, CommitTx;
  }

  lemma {:induction false} DisciplinedRun(steps: seq<Step>)
    requires Disciplined(steps)
    ensures DisciplinedInv(Run(steps))
  {
    if steps != [] {
      var prefix, last := steps[..|steps| - 1], steps[|steps| - 1];
      var s := Run(prefix);
      DisciplinedRun(prefix);
      assert forall c | c in s.calls :: CallOk(s, c) by { RunInv(prefix); }
      forall d | d in Apply(s, last).calls { DisciplinedCall(s, last, d); }
      forall i: nat | i < |Apply(s, last).ledger| { DisciplinedEntry(s, last, i); }
      forall i: nat | i < |Apply(s, last).history| { DisciplinedCommit(s, last, i); }
    }
  }

  lemma {:induction false} NoAnomalyNoSkew(history: seq<Commit>, user: UserId)
    requires forall i | 0 <= i < |history| :: !Anomalous(history[i])
    ensures Skew(history, user) == ZERO
  {
    if history != [] {
      var n := |history| - 1;
      NoAnomalyNoSkew(history[..n], user);
      assert history == history[..n] + [history[n]];
      SkewAppend(history[..n], history[n], user);
      NormalCommit(Skew(history[..n], user), history[n]);
      hide Skew, RowDelta, EntryDelta, Anomalous;
    }
  }

  /** A commit that is not anomalous changes row and ledger alike. */
  lemma NormalCommit(b: Balance, c: Commit)
    requires !Anomalous(c)
    ensures b.Plus(if c.updated then RowDelta(c.request) else ZERO)
             .Minus(if c.recorded then EntryDelta(c.request) else ZERO) == b
  {
    if c.updated {
      SameDeltas(c.request);
      hide RowDelta, EntryDelta;
    }
  }

  lemma SameDeltas(r: Request)
    requires r.rpc != Credit(DepositReason)
    ensures RowDelta(r) == EntryDelta(r)
  {}

  ghost predicate ReachableByAdmissibleCalls(s: State) {
    exists steps :: Disciplined(steps) && Run(steps) == s
  }

  lemma AdmissibleSkew(s: State, user: UserId)
    requires ReachableByAdmissibleCalls(s)
    ensures Reachable(s) && Skew(s.history, user) == ZERO
  {
    var steps :| Disciplined(steps) && Run(steps) == s;
    DisciplinedRun(steps);
    NoAnomalyNoSkew(s.history, user);
  }

  /** In runs of admissible calls an unfinished credit never finds its id in the ledger. */
  lemma FreshCreditIsNew(s: State, c: CallId)
    requires ReachableByAdmissibleCalls(s)
    requires c in s.calls && s.calls[c].request.rpc.Credit? && !s.calls[c].phase.Finished?
    ensures s.calls[c].request.tx !in Ids(s.ledger)
  {
    var steps :| Disciplined(steps) && Run(steps) == s;
    DisciplinedRun(steps);
    FreshIdIsNew(s, c);
  }

  /** A commit pushes its user's row away from the ledger exactly when it is anomalous and not of zero amount. */
  lemma AnomalyMovesSkew(history: seq<Commit>, c: Commit)
    ensures Skew(history + [c], c.request.user) != Skew(history, c.request.user)
        <==> Anomalous(c) && c.request.amount != 0
  {
    hide Skew;
    SkewAppend(history, c, c.request.user);
  }

  /** With admissible calls every row is exactly the ledger's sums, in every interleaving, aborts included. */
  lemma BalanceIsFoldOfLedger(s: State, user: UserId)
    requires ReachableByAdmissibleCalls(s)
    ensures RowOr(s, user, ZERO) == Fold(s.ledger, user)
  {
    AdmissibleSkew(s, user);
    LedgerLaw(s, user);
  }

  // ---------------------------------------------------------------- ledger rows, column by column

  /**
   ConfirmTransaction in any run: the rows of this id are CONFIRMED with their
   other columns as before, every other row and all else is as it was.
   */
  lemma ConfirmsItsRows(s: State, tx: TxId)
    ensures var s' := Apply(s, DoConfirm(tx));
            && s' == s.(ledger := s'.ledger) && |s'.ledger| == |s.ledger|
            && forall i | 0 <= i < |s.ledger| ::
                 s'.ledger[i] == if s.ledger[i].tx == tx then s.ledger[i].(status := Confirmed) else s.ledger[i]
  {
    forall i | 0 <= i < |s.ledger| && s.ledger[i].status != PendingConfirmation
      ensures s.ledger[i].(status := Confirmed) == s.ledger[i] {}
  }

  /** The kind of row each RPC stores, and for a credit each reason. */
  predicate StoredAs(rpc: Rpc, kind: Kind) {
    match rpc
    case Deduct => kind == Debit
    case Deposit => kind == CreditDeposit
    case Withdraw => kind == DebitWithdrawal
    case Credit(reason) =>
      match reason
      case Win => kind == CreditWin
      case Void => kind == CreditVoid
      case Push => kind == CreditPush
      case DepositReason => kind == CreditDeposit
      case OtherReason => kind == CreditPlain
  }

  /** In any run, the row that a commit stores says what its request said; only a DEBIT awaits confirmation. */
  lemma StoredRow(s: State, c: CallId)
    requires Reachable(s) && c in s.calls
    ensures var s', r := CommitTx(s, c), s.calls[c].request;
            |s'.ledger| <= |s.ledger| + 1 && (|s'.ledger| > |s.ledger| ==>
              var e := s'.ledger[|s.ledger|];
              && s'.ledger == s.ledger + [e] && e.author == c
              && e.tx == r.tx && e.user == r.user && e.amount == r.amount && e.bet == r.bet
              && StoredAs(r.rpc, e.kind) && (e.status == PendingConfirmation <==> r.rpc == Deduct))
  {
    ReachableInv(s);
    assert CallOk(s, c);
  }

  // ---------------------------------------------------------------- the CHECK constraint and the replies

  lemma {:induction false} ReplayValid(history: seq<Commit>, user: UserId)
    requires RowsAllow(history) && Replay(history, user).Some?
    ensures Replay(history, user).value.Valid()
  {
    var c := history[|history| - 1];
    if c.request.user != user || !c.updated {
      ReplayValid(history[..|history| - 1], user);
    }
  }

  /** No committed row is ever negative, in either column. */
  lemma NeverNegative(s: State, user: UserId)
    requires Reachable(s) && user in s.balances
    ensures s.balances[user].Valid()
  {
    ReachableInv(s);
    assert BooksOk(s) && HistoryOk(s);
    ReplayValid(s.history, user);
  }

  /**
   Between SELECT FOR UPDATE and UPDATE the row cannot change, so the update is
   not blocked and a CHECK refuses it exactly for a negative stake that would
   take more out of bets_in_flight than is there.
   */
  lemma CheckFiresExactly(s: State, c: CallId)
    requires Reachable(s) && c in s.calls && s.calls[c].phase.RowRead?
    ensures var Call(r, phase) := s.calls[c];
            var after := UpdateRow(s, c).calls[c].phase;
            && r.user in s.balances && s.balances[r.user].available == phase.available
            && (after == Finished(Violated(BalanceCheck))
                <==> r.rpc.Deduct? && s.balances[r.user].inFlight + r.amount < 0)
            && (after != Finished(Violated(BalanceCheck)) ==> after.Updated? && after.row.Some?)
            && (r.amount >= 0 ==> after.Updated?)
  {
    ReachableInv(s);
    assert CallOk(s, c);
    assert BooksOk(s) && HistoryOk(s);
    ReplayValid(s.history, s.calls[c].request.user);
  }

  /**
   The AvailableAfter that Deduct computes from its early read is the value it
   commits; likewise the RETURNING values.
   */
  lemma ReplyIsCommittedValue(s: State, c: CallId)
    requires Reachable(s) && c in s.calls && s.calls[c].phase.Recorded? && !s.calls[c].request.rpc.Credit?
    ensures var s' := CommitTx(s, c);
            var r := s.calls[c].request;
            && r.user in s'.balances
            && s'.calls[c].phase == Finished(Committed(s'.balances[r.user].available))
            && s'.balances[r.user] == RowOr(s, r.user, ZERO).Plus(RowDelta(r))
  {
    ReachableInv(s);
    assert CallOk(s, c);
  }

  // ---------------------------------------------------------------- a call that nobody disturbs

  predicate Quiet(s: State) {
    s.rowLocks == map[] && s.keyLocks == map[] && s.advisoryLocks == map[]
  }

  /** All statements of one call in order; those its RPC does not issue do nothing. */
  function Alone(s: State, c: CallId, r: Request, at: Time, key: int): State {
    CommitTx(Record(UpdateRow(ReadRow(Opened(s, c, r, at, key), c), c), c), c)
  }

  function Opened(s: State, c: CallId, r: Request, at: Time, key: int): State {
    Lock(Begin(LookUp(Receive(s, c, r), c), c, at), c, key)
  }

  /** The reference meaning of an RPC: how it answers when nothing runs beside it. */
  function Verdict(s: State, r: Request): Outcome {
    var row := RowAfter(s, r);
    if !r.rpc.Credit? && r.tx in Ids(s.ledger) then Replayed
    else if (r.rpc.Deduct? || r.rpc.Withdraw?) && r.user !in s.balances then NotFound
    else if (r.rpc.Deduct? || r.rpc.Withdraw?) && s.balances[r.user].available < r.amount then InsufficientFunds
    else if !Pays(s, r) then
      if r.tx in Ids(s.ledger) then Committed(0) else Violated(LedgerUser)
    else if !row.Valid() || (r.rpc.Deposit? && r.amount < 0) then Violated(BalanceCheck)
    else Committed(row.available)
  }

  /** The balance statement has a row to change: Deposit makes one, the others need one. */
  predicate Pays(s: State, r: Request) {
    r.user in s.balances || r.rpc.Deposit?
  }

  /** `s` with call `c` in `phase`, holding locks of its own only. */
  predicate Within(s: State, s': State, c: CallId, r: Request, phase: Phase) {
    && s'.calls == s.calls[c := Call(r, phase)]
    && s'.balances == s.balances && s'.ledger == s.ledger && s'.history == s.history
    && (forall u | u in s'.rowLocks :: s'.rowLocks[u] == c)
    && (forall t | t in s'.keyLocks :: s'.keyLocks[t] == c)
    && (forall k | k in s'.advisoryLocks :: s'.advisoryLocks[k] == c)
  }

  predicate Refused(s: State, s': State, c: CallId, r: Request, outcome: Outcome) {
    Within(s, s', c, r, Finished(outcome)) && Quiet(s')
  }

  predicate Reads(r: Request) {
    r.rpc.Deduct? || r.rpc.Withdraw?
  }

  function OpenPhase(r: Request, at: Time): Phase {
    if r.rpc.Credit? then Begun(at) else Locked(at)
  }

  function ReadPhase(s: State, r: Request, at: Time): Phase
    requires Reads(r) ==> r.user in s.balances
  {
    if Reads(r) then RowRead(at, s.balances[r.user].available) else OpenPhase(r, at)
  }

  function UpdatePhase(s: State, r: Request, at: Time): Phase {
    if Pays(s, r) then Updated(at, RowAfter(s, r).available, Some(RowAfter(s, r))) else Updated(at, 0, None)
  }

  lemma OpenedWithin(s: State, c: CallId, r: Request, at: Time, key: int)
    requires Quiet(s) && c !in s.calls && r.tx != NO_ID && r.user != NO_ID
    ensures var s' := Opened(s, c, r, at, key);
            if !r.rpc.Credit? && r.tx in Ids(s.ledger) then Refused(s, s', c, r, Replayed)
            else Within(s, s', c, r, OpenPhase(r, at))
  {}

  lemma AllReleased<K>(locks: map<K, CallId>, c: CallId)
    requires forall k | k in locks :: locks[k] == c
    ensures Without(locks, c) == map[]
  {}

  lemma AdvisoryReleased(locks: map<int, CallId>, c: CallId)
    requires forall k | k in locks :: locks[k] == c
    ensures Without(locks, c) == map[]
  {
    forall k: int ensures k !in Without(locks, c) {
      assert k in locks ==> locks[k] == c;
    }
  }

  lemma FinishWithin(s: State, s': State, c: CallId, r: Request, phase: Phase, outcome: Outcome)
    requires Within(s, s', c, r, phase)
    ensures Refused(s, Finish(s', c, outcome), c, r, outcome)
  {
    AllReleased(s'.rowLocks, c);
    AllReleased(s'.keyLocks, c);
    AdvisoryReleased(s'.advisoryLocks, c);
  }

  lemma MoveWithin(s: State, s': State, c: CallId, r: Request, phase: Phase, next: Phase)
    requires Within(s, s', c, r, phase)
    ensures Within(s, Move(s', c, next), c, r, next)
  {
    hide Quiet;
    assert Move(s', c, next).calls == s.calls[c := Call(r, next)];
  }

  /** Moving on with one more lock, on the row or on the key. */
  lemma LockWithin(s: State, s': State, s'': State, c: CallId, r: Request, phase: Phase, next: Phase)
    requires Within(s, s', c, r, phase)
    requires s'' == Move(s', c, next) || s'' == Move(s', c, next).(rowLocks := s'.rowLocks[r.user := c])
             || s'' == Move(s', c, next).(keyLocks := s'.keyLocks[r.tx := c])
    ensures Within(s, s'', c, r, next)
  {
    MoveWithin(s, s', c, r, phase, next);
    hide Quiet, Move;
  }

  lemma ReadWithin(s: State, s': State, c: CallId, r: Request, at: Time)
    requires Within(s, s', c, r, OpenPhase(r, at))
    ensures var s'' := ReadRow(s', c);
            if Reads(r) && r.user !in s.balances then Refused(s, s'', c, r, NotFound)
            else if Reads(r) && s.balances[r.user].available < r.amount then Refused(s, s'', c, r, InsufficientFunds)
            else Within(s, s'', c, r, ReadPhase(s, r, at))
  {
    var phase := OpenPhase(r, at);
    if Reads(r) {
      FinishWithin(s, s', c, r, phase, NotFound);
      FinishWithin(s, s', c, r, phase, InsufficientFunds);
      if r.user in s.balances && s.balances[r.user].available >= r.amount {
        hide Within;
        LockWithin(s, s', ReadRow(s', c), c, r, phase, ReadPhase(s, r, at));
      }
    }
  }

  lemma UpdateWithin(s: State, s': State, c: CallId, r: Request, at: Time)
    requires Reads(r) ==> r.user in s.balances
    requires Within(s, s', c, r, ReadPhase(s, r, at))
    ensures var s'' := UpdateRow(s', c);
            if Pays(s, r) && (!RowAfter(s, r).Valid() || (r.rpc.Deposit? && r.amount < 0))
            then Refused(s, s'', c, r, Violated(BalanceCheck))
            else Within(s, s'', c, r, UpdatePhase(s, r, at))
  {
    assert c in s'.calls && s'.calls[c] == Call(r, ReadPhase(s, r, at));
    assert s'.balances == s.balances && RowAfter(s', r) == RowAfter(s, r) && Free(s'.rowLocks, r.user, c);
    hide Within;
    var phase, s'' := ReadPhase(s, r, at), UpdateRow(s', c);
    if Pays(s, r) && (!RowAfter(s, r).Valid() || (r.rpc.Deposit? && r.amount < 0)) {
      FinishWithin(s, s', c, r, phase, Violated(BalanceCheck));
    } else {
      LockWithin(s, s', s'', c, r, phase, UpdatePhase(s, r, at));
    }
  }

  lemma RecordWithin(s: State, s': State, c: CallId, r: Request, at: Time, reply: int, row: Option<Balance>)
    requires Within(s, s', c, r, Updated(at, reply, row))
    ensures var s'' := Record(s', c);
            if r.tx in Ids(s.ledger) then
              if r.rpc.Credit? then Within(s, s'', c, r, Recorded(reply, row, None))
              else Refused(s, s'', c, r, Violated(LedgerKey))
            else if row.None? && r.user !in s.balances then Refused(s, s'', c, r, Violated(LedgerUser))
            else Within(s, s'', c, r, Recorded(reply, row, Some(EntryOf(c, r, at))))
  {
    var phase, s'' := Updated(at, reply, row), Record(s', c);
    assert c in s'.calls && s'.calls[c] == Call(r, phase) && Free(s'.keyLocks, r.tx, c);
    assert s'.balances == s.balances && s'.ledger == s.ledger;
    hide Within, Ids;
    if r.tx in Ids(s.ledger) && r.rpc.Credit? {
      LockWithin(s, s', s'', c, r, phase, Recorded(reply, row, None));
    } else if r.tx in Ids(s.ledger) {
      FinishWithin(s, s', c, r, phase, Violated(LedgerKey));
    } else if row.None? && r.user !in s.balances {
      FinishWithin(s, s', c, r, phase, Violated(LedgerUser));
    } else {
      LockWithin(s, s', s'', c, r, phase, Recorded(reply, row, Some(EntryOf(c, r, at))));
    }
  }

  lemma CommitWithin(s: State, s': State, c: CallId, r: Request, reply: int, row: Option<Balance>, e: Option<Entry>)
    requires Within(s, s', c, r, Recorded(reply, row, e))
    ensures var done := CommitTx(s', c);
            && done.balances == (if row.Some? then s.balances[r.user := row.value] else s.balances)
            && done.ledger == (if e.Some? then s.ledger + [e.value] else s.ledger)
            && done.calls == s.calls[c := Call(r, Finished(Committed(reply)))]
            && done.history == s.history + [Commit(c, r, reply, row.Some?, e.Some?)]
            && Quiet(done)
  {
    AllReleased(s'.rowLocks, c);
    AllReleased(s'.keyLocks, c);
    AdvisoryReleased(s'.advisoryLocks, c);
  }

  lemma RefusedStays(s: State, s': State, c: CallId, r: Request, outcome: Outcome)
    requires Refused(s, s', c, r, outcome)
    ensures ReadRow(s', c) == UpdateRow(s', c) == Record(s', c) == CommitTx(s', c) == s'
  {}

  /** The record of a call that commits on these tables with nothing beside it. */
  function CommitOf(s: State, c: CallId, r: Request, reply: int): Commit {
    Commit(c, r, reply, Pays(s, r), r.tx !in Ids(s.ledger))
  }

  /** What a call answered `outcome` leaves behind: its delta on its row, its ledger row, or nothing. */
  predicate Concluded(s: State, done: State, c: CallId, r: Request, at: Time, outcome: Outcome) {
    && done.calls == s.calls[c := Call(r, Finished(outcome))]
    && done.balances == (if outcome.Committed? && Pays(s, r) then s.balances[r.user := RowAfter(s, r)] else s.balances)
    && done.ledger ==
       (if outcome.Committed? && r.tx !in Ids(s.ledger) then s.ledger + [EntryOf(c, r, at)] else s.ledger)
    && done.history ==
       (if outcome.Committed? then s.history + [CommitOf(s, c, r, outcome.availableAfter)] else s.history)
    && Quiet(done)
  }

  /** The statements of one undisturbed call amount to its reference meaning, in one step. */
  lemma AloneIsVerdict(s: State, c: CallId, r: Request, at: Time, key: int)
    requires Quiet(s) && c !in s.calls && r.tx != NO_ID && r.user != NO_ID
    ensures Concluded(s, Alone(s, c, r, at, key), c, r, at, Verdict(s, r))
  {
    hide Opened, ReadRow, UpdateRow, Record, CommitTx, Ids, Within, RowAfter;
    var s4 := Opened(s, c, r, at, key);
    OpenedWithin(s, c, r, at, key);
    if Verdict(s, r) == Replayed {
      RefusedStays(s, s4, c, r, Replayed);
      RefusedSettled(s, s4, c, r, at, Replayed);
    } else {
      ReadWithin(s, s4, c, r, at);
      AloneAfterRead(s, ReadRow(s4, c), c, r, at);
    }
  }

  lemma RefusedSettled(s: State, s': State, c: CallId, r: Request, at: Time, outcome: Outcome)
    requires Refused(s, s', c, r, outcome) && !outcome.Committed?
    ensures Concluded(s, s', c, r, at, outcome)
  {}

  lemma AloneAfterRead(s: State, s5: State, c: CallId, r: Request, at: Time)
    requires r.rpc.Credit? || r.tx !in Ids(s.ledger)
    requires if Reads(r) && r.user !in s.balances then Refused(s, s5, c, r, NotFound)
             else if Reads(r) && s.balances[r.user].available < r.amount then Refused(s, s5, c, r, InsufficientFunds)
             else Within(s, s5, c, r, ReadPhase(s, r, at))
    ensures Concluded(s, CommitTx(Record(UpdateRow(s5, c), c), c), c, r, at, Verdict(s, r))
  {
    hide ReadRow, UpdateRow, Record, CommitTx, Ids, Within, RowAfter;
    if Verdict(s, r) == NotFound || Verdict(s, r) == InsufficientFunds {
      RefusedStays(s, s5, c, r, Verdict(s, r));
      RefusedSettled(s, s5, c, r, at, Verdict(s, r));
    } else {
      UpdateWithin(s, s5, c, r, at);
      var s6 := UpdateRow(s5, c);
      if Verdict(s, r) == Violated(BalanceCheck) {
        RefusedStays(s, s6, c, r, Verdict(s, r));
        RefusedSettled(s, s6, c, r, at, Verdict(s, r));
      } else {
        AloneAfterUpdate(s, s6, c, r, at);
      }
    }
  }

  lemma AloneAfterUpdate(s: State, s6: State, c: CallId, r: Request, at: Time)
    requires r.rpc.Credit? || r.tx !in Ids(s.ledger)
    requires Within(s, s6, c, r, UpdatePhase(s, r, at))
    requires Verdict(s, r).Committed? || Verdict(s, r) == Violated(LedgerUser)
    ensures Concluded(s, CommitTx(Record(s6, c), c), c, r, at, Verdict(s, r))
  {
    hide Record, CommitTx, Ids, Within, RowAfter;
    var reply := if Pays(s, r) then RowAfter(s, r).available else 0;
    var row := if Pays(s, r) then Some(RowAfter(s, r)) else None;
    RecordWithin(s, s6, c, r, at, reply, row);
    var s7 := Record(s6, c);
    if Verdict(s, r) == Violated(LedgerUser) {
      RefusedStays(s, s7, c, r, Verdict(s, r));
      RefusedSettled(s, s7, c, r, at, Verdict(s, r));
    } else {
      CommitWithin(s, s7, c, r, reply, row, if r.tx in Ids(s.ledger) then None else Some(EntryOf(c, r, at)));
    }
  }

  /**
   A retry of a committed call under the same id never adds a ledger row. It
   leaves every balance alone exactly when the call is not a CreditBalance, or
   its amount is zero, or its user has no row, or the row would turn invalid.
   */
  lemma RetryExactly(s: State, c: CallId, d: CallId, r: Request, at: Time, at': Time, key: int, key': int)
    requires Quiet(s) && c !in s.calls && d !in s.calls && c != d && r.tx != NO_ID && r.user != NO_ID
    requires Verdict(s, r).Committed?
    ensures var once := Alone(s, c, r, at, key);
            var twice := Alone(once, d, r, at', key');
            && twice.ledger == once.ledger
            && (twice.balances == once.balances
                <==> !r.rpc.Credit? || r.amount == 0 || r.user !in s.balances || !RowAfter(once, r).Valid())
  {
    AloneIsVerdict(s, c, r, at, key);
    var once := Alone(s, c, r, at, key);
    StoredOnce(s, c, r, at);
    AloneIsVerdict(once, d, r, at', key');
    hide Alone, Ids, Quiet;
    SecondVerdict(s, once, c, r, at);
    if r.rpc.Credit? && r.user in once.balances {
      SecondDelta(once, r);
    }
    hide Verdict, RowDelta, RowAfter;
  }

  lemma SecondDelta(once: State, r: Request)
    requires r.rpc.Credit? && r.user in once.balances
    ensures once.balances[r.user := RowAfter(once, r)] == once.balances <==> r.amount == 0
  {
    DeltaMoves(once.balances[r.user], r);
    assert once.balances[r.user := RowAfter(once, r)][r.user] == RowAfter(once, r);
  }

  lemma SecondVerdict(s: State, once: State, c: CallId, r: Request, at: Time)
    requires Concluded(s, once, c, r, at, Verdict(s, r)) && Verdict(s, r).Committed?
    requires r.tx in Ids(once.ledger)
    ensures r.rpc.Credit? ==> (r.user in once.balances <==> r.user in s.balances)
    ensures Verdict(once, r).Committed? <==> r.rpc.Credit? && (r.user in s.balances ==> RowAfter(once, r).Valid())
  {
    hide Ids, Quiet, RowDelta;
  }

  lemma DeltaMoves(b: Balance, r: Request)
    requires r.rpc.Credit?
    ensures b.Plus(RowDelta(r)) == b <==> r.amount == 0
  {}

  lemma StoredOnce(s: State, c: CallId, r: Request, at: Time)
    ensures r.tx in Ids(s.ledger) || r.tx in Ids(s.ledger + [EntryOf(c, r, at)])
  {
    assert (s.ledger + [EntryOf(c, r, at)])[|s.ledger|].tx == r.tx;
  }

  lemma RunSnoc(steps: seq<Step>, step: Step)
    ensures Run(steps + [step]) == Apply(Run(steps), step)
  {
    assert (steps + [step])[..|steps|] == steps;
  }

  lemma ReachableStep(s: State, step: Step)
    requires Reachable(s)
    ensures Reachable(Apply(s, step))
  {
    var steps :| Run(steps) == s;
    RunSnoc(steps, step);
  }

  lemma AloneReachable(s: State, c: CallId, r: Request, at: Time, key: int)
    requires Reachable(s)
    ensures Reachable(Alone(s, c, r, at, key))
  {
    hide Receive, LookUp, Begin, Lock, ReadRow, UpdateRow, Record, CommitTx, Run;
    ReachableStep(s, DoReceive(c, r));
    var s1 := Receive(s, c, r);
    ReachableStep(s1, DoLookUp(c));
    ReachableStep(LookUp(s1, c), DoBegin(c, at));
    ReachableStep(Begin(LookUp(s1, c), c, at), DoLock(c, key));
    var s4 := Opened(s, c, r, at, key);
    ReachableStep(s4, DoReadRow(c));
    ReachableStep(ReadRow(s4, c), DoUpdateRow(c));
    var s6 := UpdateRow(ReadRow(s4, c), c);
    ReachableStep(s6, DoRecord(c));
    ReachableStep(Record(s6, c), DoCommit(c));
  }

  // ---------------------------------------------------------------- runs in which the fold fails

  predicate Race(credit: Request, deposit: Request) {
    && credit.rpc.Credit? && credit.rpc.reason != DepositReason && deposit.rpc.Deposit?
    && credit.user == deposit.user != NO_ID && credit.tx != deposit.tx && credit.tx != NO_ID && deposit.tx != NO_ID
    && deposit.amount >= 0
  }

  /** The credit's UPDATE has run and matched no row; its INSERT has not run. */
  function CreditWaiting(credit: Request): State {
    EMPTY.(calls := map[0 := Call(credit, Updated(0, 0, None))])
  }

  lemma CreditWaitingReachable(credit: Request, deposit: Request)
    requires Race(credit, deposit)
    ensures Reachable(CreditWaiting(credit))
  {
    var s1 := Receive(EMPTY, 0, credit);
    assert Run([]) == EMPTY;
    ReachableStep(EMPTY, DoReceive(0, credit));
    ReachableStep(s1, DoBegin(0, 0));
    ReachableStep(Begin(s1, 0, 0), DoUpdateRow(0));
    assert UpdateRow(Begin(s1, 0, 0), 0) == CreditWaiting(credit);
  }

  lemma LateCreditRow(s: State, credit: Request, deposit: Request)
    requires Race(credit, deposit)
    requires 0 in s.calls && s.calls[0] == Call(credit, Updated(0, 0, None))
    requires credit.user in s.balances && s.keyLocks == map[] && s.ledger == [EntryOf(1, deposit, 0)]
    ensures CommitTx(Record(s, 0), 0).ledger == [EntryOf(1, deposit, 0)] + [EntryOf(0, credit, 0)]
    ensures CommitTx(Record(s, 0), 0).balances == s.balances
    ensures CommitTx(Record(s, 0), 0).history == s.history + [Commit(0, credit, 0, false, true)]
    ensures CommitTx(Record(s, 0), 0).calls.Keys == s.calls.Keys
  {
    assert Record(s, 0).calls[0].phase == Recorded(0, None, Some(EntryOf(0, credit, 0)));
  }

  lemma LateCreditFold(ledger: seq<Entry>, credit: Request, deposit: Request)
    requires Race(credit, deposit)
    requires ledger == [EntryOf(1, deposit, 0)] + [EntryOf(0, credit, 0)]
    ensures Fold(ledger, credit.user) == Balance(deposit.amount + credit.amount, -credit.amount)
  {
    hide Total, Fold;
    var first := [EntryOf(1, deposit, 0)];
    EmptyFold(credit.user);
    FoldAppend([], 1, deposit, first[0], credit.user);
    assert [] + first == first;
    FoldAppend(first, 0, credit, EntryOf(0, credit, 0), credit.user);
  }

  lemma EmptyFold(user: UserId)
    ensures Fold([], user) == ZERO
  {}

  /** In a run of this deposit and this credit and nothing else, both committed, the credit without its money. */
  predicate LostCredit(s: State, credit: Request, deposit: Request) {
    && s.history == [Commit(1, deposit, deposit.amount, true, true)] + [Commit(0, credit, 0, false, true)]
    && s.calls.Keys == {0, 1}
    && s.balances == map[credit.user := Balance(deposit.amount, 0)]
    && s.ledger == [EntryOf(1, deposit, 0)] + [EntryOf(0, credit, 0)]
  }

  /**
   For every such pair of calls there is a run in which the credit's UPDATE came
   just before the user's first deposit committed: by then the foreign key is
   satisfied, so the credit's ledger row lands and its money does not.
   */
  lemma CreditBeforeFirstDepositIsLost(credit: Request, deposit: Request)
    requires Race(credit, deposit)
    ensures exists s :: Reachable(s)
                     && LostCredit(s, credit, deposit)
                     && Fold(s.ledger, credit.user) == Balance(deposit.amount + credit.amount, -credit.amount)
  {
    hide Receive, LookUp, Begin, Lock, ReadRow, UpdateRow, Record, CommitTx, Run, Alone, Total, Fold;
    var s0 := CreditWaiting(credit);
    CreditWaitingReachable(credit, deposit);
    assert Quiet(s0) && Verdict(s0, deposit) == Committed(deposit.amount);
    AloneReachable(s0, 1, deposit, 0, 0);
    AloneIsVerdict(s0, 1, deposit, 0, 0);
    var s1 := Alone(s0, 1, deposit, 0, 0);
    LateCreditRow(s1, credit, deposit);
    LateCreditFold(CommitTx(Record(s1, 0), 0).ledger, credit, deposit);
    ReachableStep(s1, DoRecord(0));
    ReachableStep(Record(s1, 0), DoCommit(0));
    assert Reachable(CommitTx(Record(s1, 0), 0));
  }

  // ---------------------------------------------------------------- one credit and the books

  predicate InBalance(s: State, user: UserId) {
    RowOr(s, user, ZERO) == Fold(s.ledger, user)
  }

  /**
   A credit that runs alone keeps its user's books exactly when it is of zero
   amount, or is refused, or finds no row, or has a new id and a reason other
   than DEPOSIT.
   */
  lemma CreditKeepsBooks(s: State, c: CallId, r: Request, at: Time, key: int)
    requires Quiet(s) && c !in s.calls && r.tx != NO_ID && r.user != NO_ID && r.rpc.Credit?
    requires InBalance(s, r.user)
    ensures InBalance(Alone(s, c, r, at, key), r.user)
        <==> r.amount == 0 || !Verdict(s, r).Committed? || r.user !in s.balances
             || (r.tx !in Ids(s.ledger) && r.rpc.reason != DepositReason)
  {
    AloneIsVerdict(s, c, r, at, key);
    CreditVerdict(s, r);
    FoldAppend(s.ledger, c, r, EntryOf(c, r, at), r.user);
    var v := Verdict(s, r);
    BooksAfter(RowOr(s, r.user, ZERO), r, v.Committed? && r.user in s.balances, v.Committed? && r.tx !in Ids(s.ledger));
    hide Alone, Verdict, Fold, Ids, Quiet, RowDelta, EntryDelta;
  }

  lemma CreditVerdict(s: State, r: Request)
    requires r.rpc.Credit?
    ensures r.user !in s.balances ==> (Verdict(s, r).Committed? <==> r.tx in Ids(s.ledger))
  {}

  lemma BooksAfter(b: Balance, r: Request, moved: bool, stored: bool)
    requires r.rpc.Credit?
    ensures (if moved then b.Plus(RowDelta(r)) else b) == (if stored then b.Plus(EntryDelta(r)) else b)
        <==> r.amount == 0 || (moved == stored && (moved ==> r.rpc.reason != DepositReason))
  {}
}
