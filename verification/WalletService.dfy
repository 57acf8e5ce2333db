/**
 The wallet database as the service uses it: one method per SQL statement,
 updating the tables and the lock tables in place, and the four money RPCs as
 the statements they issue.
 */
module WalletService {
  import opened Platform
  import opened Wallet
  import opened WalletTheorems

  class Database {
    var balances: map<UserId, Balance>
    var ledger: seq<Entry>
    var calls: map<CallId, Call>
    var rowLocks: map<UserId, CallId>
    var keyLocks: map<TxId, CallId>
    var advisoryLocks: map<int, CallId>
    ghost var history: seq<Commit>

    ghost function Contents(): State
      reads this
    {
      State(balances, ledger, calls, rowLocks, keyLocks, advisoryLocks, history)
    }

    constructor ()
      ensures Contents() == EMPTY
    {
      balances, ledger, calls := map[], [], map[];
      rowLocks, keyLocks, advisoryLocks := map[], map[], map[];
      history := [];
    }

    method MoveTo(c: CallId, phase: Phase)
      requires c in calls
      modifies this`calls
      ensures Contents() == Move(old(Contents()), c, phase)
    {
      calls := calls[c := calls[c].(phase := phase)];
    }

    /** Rollback, or the end of a call that never began a transaction. */
    method End(c: CallId, outcome: Outcome)
      requires c in calls
      modifies this`calls, this`rowLocks, this`keyLocks, this`advisoryLocks
      ensures Contents() == Finish(old(Contents()), c, outcome)
    {
      MoveTo(c, Finished(outcome));
      rowLocks := Without(rowLocks, c);
      keyLocks := Without(keyLocks, c);
      advisoryLocks := Without(advisoryLocks, c);
    }

    method Accept(c: CallId, r: Request)
      modifies this`calls
      ensures Contents() == Receive(old(Contents()), c, r)
      ensures r.tx == NO_ID || r.user == NO_ID ==> Contents() == old(Contents())
    {
      if c !in calls && r.tx != NO_ID && r.user != NO_ID {
        calls := calls[c := Call(r, Received)];
      }
    }

    method SelectTransaction(c: CallId)
      modifies this`calls, this`rowLocks, this`keyLocks, this`advisoryLocks
      ensures Contents() == LookUp(old(Contents()), c)
    {
      if c in calls && calls[c].phase == Received && !calls[c].request.rpc.Credit? {
        if calls[c].request.tx in Ids(ledger) {
          End(c, Replayed);
        } else {
          MoveTo(c, Checked);
        }
      }
    }

    /** The look-up when the database fails it. */
    method SelectTransactionFails(c: CallId)
      modifies this`calls, this`rowLocks, this`keyLocks, this`advisoryLocks
      ensures Contents() == LookUpError(old(Contents()), c)
      ensures c in old(calls) && old(calls)[c].phase == Received && !old(calls)[c].request.rpc.Credit? ==>
                calls == old(calls)[c := Call(old(calls)[c].request,
                  if old(calls)[c].request.rpc.Deduct? then Checked else Finished(Aborted))]
    {
      if c in calls && calls[c].phase == Received && !calls[c].request.rpc.Credit? {
        if calls[c].request.rpc.Deduct? {
          MoveTo(c, Checked);
        } else {
          End(c, Aborted);
        }
      }
    }

    method BeginTransaction(c: CallId, at: Time)
      modifies this`calls
      ensures Contents() == Begin(old(Contents()), c, at)
    {
      if c in calls && calls[c].phase == (if calls[c].request.rpc.Credit? then Received else Checked) {
        MoveTo(c, Begun(at));
      }
    }

    method AdvisoryLock(c: CallId, key: int)
      modifies this`calls, this`advisoryLocks
      ensures Contents() == Lock(old(Contents()), c, key)
      ensures key in old(advisoryLocks) && old(advisoryLocks)[key] != c ==> Contents() == old(Contents())
      ensures c in calls && calls[c].phase.Locked? && old(calls)[c].phase.Begun? ==>
                advisoryLocks == old(advisoryLocks)[key := c]
    {
      if c in calls && calls[c].phase.Begun? && !calls[c].request.rpc.Credit? && Free(advisoryLocks, key, c) {
        MoveTo(c, Locked(calls[c].phase.at));
        advisoryLocks := advisoryLocks[key := c];
      }
    }

    method SelectBalanceForUpdate(c: CallId)
      modifies this`calls, this`rowLocks, this`keyLocks, this`advisoryLocks
      ensures Contents() == ReadRow(old(Contents()), c)
    {
      if c !in calls || !calls[c].phase.Locked? {
        return;
      }
      var r := calls[c].request;
      if (r.rpc != Rpc.Deduct && r.rpc != Rpc.Withdraw) || !Free(rowLocks, r.user, c) {
        return;
      }
      if r.user !in balances {
        End(c, NotFound);
      } else if balances[r.user].available < r.amount {
        End(c, InsufficientFunds);
      } else {
        MoveTo(c, RowRead(calls[c].phase.at, balances[r.user].available));
        rowLocks := rowLocks[r.user := c];
      }
    }

    method UpdateBalance(c: CallId)
      modifies this`calls, this`rowLocks, this`keyLocks, this`advisoryLocks
      ensures Contents() == UpdateRow(old(Contents()), c)
    {
      if c !in calls || !ReadyToUpdate(calls[c]) || !Free(rowLocks, calls[c].request.user, c) {
        return;
      }
      var Call(r, phase) := calls[c];
      if r.user !in balances && !r.rpc.Deposit? {
        MoveTo(c, Updated(phase.at, 0, None));
        return;
      }
      var before := if r.user in balances then balances[r.user] else ZERO;
      var row := before.Plus(RowDelta(r));
      if !row.Valid() || (r.rpc.Deposit? && r.amount < 0) {
        End(c, Violated(BalanceCheck));
      } else {
        MoveTo(c, Updated(phase.at, if r.rpc.Deduct? then phase.available - r.amount else row.available, Some(row)));
        rowLocks := rowLocks[r.user := c];
      }
    }

    method InsertLedgerEntry(c: CallId)
      modifies this`calls, this`rowLocks, this`keyLocks, this`advisoryLocks
      ensures Contents() == Record(old(Contents()), c)
    {
      if c !in calls || !calls[c].phase.Updated? || !Free(keyLocks, calls[c].request.tx, c) {
        return;
      }
      var Call(r, phase) := calls[c];
      if r.tx in Ids(ledger) {
        if r.rpc.Credit? {
          MoveTo(c, Recorded(phase.reply, phase.row, None));
        } else {
          End(c, Violated(LedgerKey));
        }
      } else if phase.row.None? && r.user !in balances {
        End(c, Violated(LedgerUser));
      } else {
        MoveTo(c, Recorded(phase.reply, phase.row, Some(EntryOf(c, r, phase.at))));
        keyLocks := keyLocks[r.tx := c];
      }
    }

    method CommitTransaction(c: CallId)
      modifies this
      ensures Contents() == CommitTx(old(Contents()), c)
    {
      if c !in calls || !calls[c].phase.Recorded? {
        return;
      }
      var Call(r, Recorded(reply, row, entry)) := calls[c];
      if row.Some? {
        balances := balances[r.user := row.value];
      }
      if entry.Some? {
        ledger := ledger + [entry.value];
      }
      history := history + [Commit(c, r, reply, row.Some?, entry.Some?)];
      End(c, Committed(reply));
    }

    /** ConfirmTransaction as one UPDATE over the ledger rows. */
    method ConfirmTransaction(tx: TxId)
      modifies this`ledger
      ensures ledger == Confirm(old(ledger), tx)
      ensures |ledger| == |old(ledger)|
      ensures forall i | 0 <= i < |ledger| ::
                ledger[i] == if old(ledger)[i].tx == tx then old(ledger)[i].(status := Confirmed) else old(ledger)[i]
    {
      var before := ledger;
      for i := 0 to |before|
        invariant |ledger| == |before|
        invariant forall k | 0 <= k < i :: ledger[k] == Confirm(before, tx)[k]
        invariant forall k | i <= k < |before| :: ledger[k] == before[k]
      {
        if before[i].tx == tx && before[i].status == PendingConfirmation {
          ledger := ledger[i := before[i].(status := Confirmed)];
        }
      }
    }

    /** The statements of Deduct, Withdraw and Deposit; Deposit issues no SELECT ... FOR UPDATE. */
    method RunLockedRpc(c: CallId, r: Request, at: Time, key: int) returns (outcome: Outcome)
      requires Quiet(Contents()) && c !in calls && r.tx != NO_ID && r.user != NO_ID && !r.rpc.Credit?
      modifies this
      ensures outcome == Verdict(old(Contents()), r)
      ensures Concluded(old(Contents()), Contents(), c, r, at, outcome)
    {
      hide Receive, LookUp, Begin, Lock, ReadRow, UpdateRow, Record, CommitTx, Verdict, Ids;
      ghost var before := Contents();
      AloneIsVerdict(before, c, r, at, key);
      Accept(c, r);
      SelectTransaction(c);
      BeginTransaction(c, at);
      AdvisoryLock(c, key);
      SelectBalanceForUpdate(c);
      UpdateBalance(c);
      InsertLedgerEntry(c);
      CommitTransaction(c);
      outcome := calls[c].phase.outcome;
    }

    /** DeductBalance on its own: it moves the stake to bets_in_flight and stores one DEBIT row, or changes nothing. */
    method DeductBalance(c: CallId, tx: TxId, user: UserId, stake: int, bet: BetId, at: Time, key: int)
      returns (outcome: Outcome)
      requires Quiet(Contents()) && c !in calls && tx != NO_ID && user != NO_ID
      modifies this
      ensures outcome.Committed? <==>
              && tx !in Ids(old(ledger)) && user in old(balances)
              && old(balances)[user].available >= stake && old(balances)[user].inFlight + stake >= 0
      ensures outcome.Committed? ==>
              var b := old(balances)[user];
              && outcome.availableAfter == b.available - stake
              && balances == old(balances)[user := Balance(b.available - stake, b.inFlight + stake)]
              && ledger == old(ledger) + [Entry(tx, user, Debit, stake, PendingConfirmation, bet, at, c)]
      ensures !outcome.Committed? ==> balances == old(balances) && ledger == old(ledger)
      ensures tx in Ids(old(ledger)) ==> outcome == Replayed
      ensures Quiet(Contents())
    {
      outcome := RunLockedRpc(c, Request(Deduct, tx, user, stake, bet), at, key);
    }

    method Withdraw(c: CallId, tx: TxId, user: UserId, amount: int, at: Time, key: int)
      returns (outcome: Outcome)
      requires Quiet(Contents()) && c !in calls && tx != NO_ID && user != NO_ID
      requires user in balances ==> balances[user].Valid()
      modifies this
      ensures outcome.Committed? <==>
              tx !in Ids(old(ledger)) && user in old(balances) && old(balances)[user].available >= amount
      ensures outcome.Committed? ==>
              var b := old(balances)[user];
              && outcome.availableAfter == b.available - amount
              && balances == old(balances)[user := Balance(b.available - amount, b.inFlight)]
              && ledger == old(ledger) + [Entry(tx, user, DebitWithdrawal, amount, Confirmed, NO_ID, at, c)]
      ensures !outcome.Committed? ==> balances == old(balances) && ledger == old(ledger)
      ensures Quiet(Contents())
    {
      outcome := RunLockedRpc(c, Request(Rpc.Withdraw, tx, user, amount, NO_ID), at, key);
    }

    method Deposit(c: CallId, tx: TxId, user: UserId, amount: int, at: Time, key: int)
      returns (outcome: Outcome)
      requires Quiet(Contents()) && c !in calls && tx != NO_ID && user != NO_ID
      requires user in balances ==> balances[user].Valid()
      modifies this
      ensures outcome.Committed? <==> tx !in Ids(old(ledger)) && amount >= 0
      ensures outcome.Committed? ==>
              var b := if user in old(balances) then old(balances)[user] else ZERO;
              && outcome.availableAfter == b.available + amount
              && balances == old(balances)[user := Balance(b.available + amount, b.inFlight)]
              && ledger == old(ledger) + [Entry(tx, user, CreditDeposit, amount, Confirmed, NO_ID, at, c)]
      ensures !outcome.Committed? ==> balances == old(balances) && ledger == old(ledger)
      ensures Quiet(Contents())
    {
      outcome := RunLockedRpc(c, Request(Rpc.Deposit, tx, user, amount, NO_ID), at, key);
    }

    /** CreditBalance: no look-up, no advisory lock; a reused id still moves the money. */
    method CreditBalance(c: CallId, tx: TxId, user: UserId, amount: int, reason: Reason, bet: BetId, at: Time)
      returns (outcome: Outcome)
      requires Quiet(Contents()) && c !in calls && tx != NO_ID && user != NO_ID
      modifies this
      ensures user in old(balances) ==>
              var b := Balance(old(balances)[user].available + amount, old(balances)[user].inFlight - amount);
              && (outcome.Committed? <==> b.Valid())
              && balances == if b.Valid() then old(balances)[user := b] else old(balances)
      ensures user !in old(balances) ==>
              balances == old(balances) && (outcome.Committed? <==> tx in Ids(old(ledger)))
      ensures ledger == if outcome.Committed? && tx !in Ids(old(ledger))
                        then old(ledger) + [Entry(tx, user, KindOf(Credit(reason)), amount, Confirmed, bet, at, c)]
                        else old(ledger)
      ensures outcome.Committed? && tx !in Ids(old(ledger)) ==>
                ledger[|old(ledger)|].kind ==
                  match reason
                  case Win => CreditWin
                  case Void => CreditVoid
                  case Push => CreditPush
                  case DepositReason => CreditDeposit
                  case OtherReason => CreditPlain
      ensures Quiet(Contents())
    {
      hide Receive, LookUp, Begin, Lock, ReadRow, UpdateRow, Record, CommitTx, Ids;
      ghost var before := Contents();
      var r := Request(Credit(reason), tx, user, amount, bet);
      AloneIsVerdict(before, c, r, at, 0);
      CreditSkips(before, c, r, at);
      Accept(c, r);
      BeginTransaction(c, at);
      UpdateBalance(c);
      InsertLedgerEntry(c);
      CommitTransaction(c);
      outcome := calls[c].phase.outcome;
    }
  }

  /** The look-up, the advisory lock and the SELECT are no part of CreditBalance. */
  lemma CreditSkips(s: State, c: CallId, r: Request, at: Time)
    requires c !in s.calls && r.tx != NO_ID && r.user != NO_ID && r.rpc.Credit?
    ensures ReadRow(Opened(s, c, r, at, 0), c) == Begin(Receive(s, c, r), c, at)
  {}
}
