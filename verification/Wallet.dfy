/**
 The wallet's four money RPCs as a concurrent transaction system. Every RPC is
 cut at its SQL statements; a run is any sequence of statements issued by any
 number of concurrent calls. Uncommitted writes live in the call that made
 them, row and key locks are held to the end of the transaction, and a blocked
 statement leaves the state as it is.
 */
module Wallet {
  import opened Platform

  datatype Reason = Win | Void | Push | DepositReason | OtherReason
  datatype Rpc = Deduct | Credit(reason: Reason) | Deposit | Withdraw
  datatype Kind = Debit | CreditWin | CreditVoid | CreditPush | CreditPlain | CreditDeposit | DebitWithdrawal
  datatype Status = PendingConfirmation | Confirmed

  datatype Balance = Balance(available: int, inFlight: int) {
    function Plus(that: Balance): Balance {
      Balance(available + that.available, inFlight + that.inFlight)
    }

    function Minus(that: Balance): Balance {
      Balance(available - that.available, inFlight - that.inFlight)
    }

    /** The two CHECK constraints of the balances table. */
    predicate Valid() {
      available >= 0 && inFlight >= 0
    }
  }

  const ZERO := Balance(0, 0)

  /** A ledger row. `author` is the call that inserted it; it is not a column. */
  datatype Entry = Entry(tx: TxId, user: UserId, kind: Kind, amount: int, status: Status,
                         bet: BetId, createdAt: Time, author: CallId)

  datatype Request = Request(rpc: Rpc, tx: TxId, user: UserId, amount: int, bet: BetId)

  datatype Constraint = BalanceCheck | LedgerKey | LedgerUser
  datatype Outcome =
    | Committed(availableAfter: int)
    | Replayed
    | NotFound
    | InsufficientFunds
    | Violated(constraint: Constraint)
    | Aborted

  /** Where a call stands. `at` is the start time of its transaction, which is what NOW() returns in it. */
  datatype Phase =
    | Received
    | Checked
    | Begun(at: Time)
    | Locked(at: Time)
    | RowRead(at: Time, available: int)
    | Updated(at: Time, reply: int, row: Option<Balance>)
    | Recorded(reply: int, row: Option<Balance>, entry: Option<Entry>)
    | Finished(outcome: Outcome)

  datatype Call = Call(request: Request, phase: Phase)

  /** What one committed call did: whether its balance update found a row, whether its ledger row was stored. */
  datatype Commit = Commit(call: CallId, request: Request, reply: int, updated: bool, recorded: bool)

  datatype State = State(
    balances: map<UserId, Balance>,
    ledger: seq<Entry>,
    calls: map<CallId, Call>,
    rowLocks: map<UserId, CallId>,
    keyLocks: map<TxId, CallId>,
    advisoryLocks: map<int, CallId>,
    history: seq<Commit>)

  const EMPTY := State(map[], [], map[], map[], map[], map[], [])

  // ---------------------------------------------------------------- ledger arithmetic

  datatype Group = Stakes | Releases | Deposits | Withdrawals

  function GroupOf(kind: Kind): Group {
    match kind
    case Debit => Stakes
    case CreditDeposit => Deposits
    case DebitWithdrawal => Withdrawals
    case _ => Releases
  }

  /** SUM(stake_minor) over the user's rows of one group. */
  function Total(ledger: seq<Entry>, user: UserId, group: Group): int {
    if ledger == [] then 0
    else
      var e := ledger[|ledger| - 1];
      Total(ledger[..|ledger| - 1], user, group)
      + if e.user == user && GroupOf(e.kind) == group then e.amount else 0
  }

  /** The balance that the ledger alone accounts for. */
  function Fold(ledger: seq<Entry>, user: UserId): Balance {
    Balance(
      Total(ledger, user, Deposits) - Total(ledger, user, Withdrawals)
      - Total(ledger, user, Stakes) + Total(ledger, user, Releases),
      Total(ledger, user, Stakes) - Total(ledger, user, Releases))
  }

  function Ids(ledger: seq<Entry>): set<TxId> {
    set i | 0 <= i < |ledger| :: ledger[i].tx
  }

  function KindOf(rpc: Rpc): Kind {
    match rpc
    case Deduct => Debit
    case Deposit => CreditDeposit
    case Withdraw => DebitWithdrawal
    case Credit(Win) => CreditWin
    case Credit(Void) => CreditVoid
    case Credit(Push) => CreditPush
    case Credit(DepositReason) => CreditDeposit
    case Credit(OtherReason) => CreditPlain
  }

  /** What the RPC's UPDATE adds to the balance row. */
  function RowDelta(r: Request): Balance {
    match r.rpc
    case Deduct => Balance(-r.amount, r.amount)
    case Credit(_) => Balance(r.amount, -r.amount)
    case Deposit => Balance(r.amount, 0)
    case Withdraw => Balance(-r.amount, 0)
  }

  /** What a ledger row of the RPC's kind adds to the fold. */
  function EntryDelta(r: Request): Balance {
    match GroupOf(KindOf(r.rpc))
    case Stakes => Balance(-r.amount, r.amount)
    case Releases => Balance(r.amount, -r.amount)
    case Deposits => Balance(r.amount, 0)
    case Withdrawals => Balance(-r.amount, 0)
  }

  // ---------------------------------------------------------------- the SQL statements

  function Without<K>(locks: map<K, CallId>, c: CallId): map<K, CallId> {
    map k | k in locks && locks[k] != c :: locks[k]
  }

  predicate Free<K>(locks: map<K, CallId>, k: K, c: CallId) {
    k !in locks || locks[k] == c
  }

  function Move(s: State, c: CallId, phase: Phase): State
    requires c in s.calls
  {
    s.(calls := s.calls[c := s.calls[c].(phase := phase)])
  }

  /** End of a transaction: every lock of the call is released. */
  function Finish(s: State, c: CallId, outcome: Outcome): State
    requires c in s.calls
  {
    Move(s, c, Finished(outcome)).(
      rowLocks := Without(s.rowLocks, c),
      keyLocks := Without(s.keyLocks, c),
      advisoryLocks := Without(s.advisoryLocks, c))
  }

  function Receive(s: State, c: CallId, r: Request): State {
    if c in s.calls || r.tx == NO_ID || r.user == NO_ID then s
    else s.(calls := s.calls[c := Call(r, Received)])
  }

  /** The idempotency look-up of Deduct, Deposit and Withdraw, outside the transaction. */
  function LookUp(s: State, c: CallId): State {
    if c !in s.calls || s.calls[c].phase != Received || s.calls[c].request.rpc.Credit? then s
    else if s.calls[c].request.tx in Ids(s.ledger) then Finish(s, c, Replayed)
    else Move(s, c, Checked)
  }

  /** Deduct takes any error of its look-up for "not processed yet" and goes on; Deposit and Withdraw give up. */
  function LookUpError(s: State, c: CallId): State {
    if c !in s.calls || s.calls[c].phase != Received || s.calls[c].request.rpc.Credit? then s
    else if s.calls[c].request.rpc.Deduct? then Move(s, c, Checked)
    else Finish(s, c, Aborted)
  }

  function Begin(s: State, c: CallId, at: Time): State {
    if c !in s.calls then s
    else
      var Call(r, phase) := s.calls[c];
      if phase == (if r.rpc.Credit? then Received else Checked) then Move(s, c, Begun(at)) else s
  }

  /** pg_advisory_xact_lock on the hash of the user id; CreditBalance does not take it. */
  function Lock(s: State, c: CallId, key: int): State {
    if c !in s.calls || !s.calls[c].phase.Begun? || s.calls[c].request.rpc.Credit?
       || !Free(s.advisoryLocks, key, c) then s
    else Move(s, c, Locked(s.calls[c].phase.at)).(advisoryLocks := s.advisoryLocks[key := c])
  }

  /** SELECT ... FOR UPDATE and the funds check of Deduct and Withdraw. */
  function ReadRow(s: State, c: CallId): State {
    if c !in s.calls || !s.calls[c].phase.Locked? then s
    else
      var Call(r, phase) := s.calls[c];
      if r.rpc != Deduct && r.rpc != Withdraw then s
      else if !Free(s.rowLocks, r.user, c) then s
      else if r.user !in s.balances then Finish(s, c, NotFound)
      else if s.balances[r.user].available < r.amount then Finish(s, c, InsufficientFunds)
      else Move(s, c, RowRead(phase.at, s.balances[r.user].available)).(rowLocks := s.rowLocks[r.user := c])
  }

  predicate ReadyToUpdate(call: Call) {
    match call.request.rpc
    case Deduct => call.phase.RowRead?
    case Withdraw => call.phase.RowRead?
    case Deposit => call.phase.Locked?
    case Credit(_) => call.phase.Begun?
  }

  function RowOr(s: State, user: UserId, default: Balance): Balance {
    if user in s.balances then s.balances[user] else default
  }

  /**
   UPDATE balances, or Deposit's INSERT ... ON CONFLICT DO UPDATE. An UPDATE that
   finds no row is not an error. While another call's first row of the user is
   not committed, the database lets an UPDATE match no row at once and here it
   waits; the run in which that UPDATE comes before the other call's upsert has
   the same end states.
   */
  function UpdateRow(s: State, c: CallId): State {
    if c !in s.calls || !ReadyToUpdate(s.calls[c]) then s
    else
      var Call(r, phase) := s.calls[c];
      if !Free(s.rowLocks, r.user, c) then s
      else if r.user !in s.balances && !r.rpc.Deposit? then Move(s, c, Updated(phase.at, 0, None))
      else
        var row := RowOr(s, r.user, ZERO).Plus(RowDelta(r));
        // An upsert checks the proposed row (amount, 0) before it looks for a conflict.
        if !row.Valid() || (r.rpc.Deposit? && r.amount < 0) then Finish(s, c, Violated(BalanceCheck))
        else
          var reply := if r.rpc.Deduct? then phase.available - r.amount else row.available;
          Move(s, c, Updated(phase.at, reply, Some(row))).(rowLocks := s.rowLocks[r.user := c])
  }

  function EntryOf(c: CallId, r: Request, at: Time): Entry {
    Entry(r.tx, r.user, KindOf(r.rpc), r.amount, if r.rpc.Deduct? then PendingConfirmation else Confirmed,
          r.bet, at, c)
  }

  /** INSERT INTO ledger_entries: it waits for another call's uncommitted row with the same key. */
  function Record(s: State, c: CallId): State {
    if c !in s.calls || !s.calls[c].phase.Updated? then s
    else
      var Call(r, phase) := s.calls[c];
      if !Free(s.keyLocks, r.tx, c) then s
      else if r.tx in Ids(s.ledger) then
        // ON CONFLICT DO NOTHING for CreditBalance, an error for the others.
        if r.rpc.Credit? then Move(s, c, Recorded(phase.reply, phase.row, None))
        else Finish(s, c, Violated(LedgerKey))
      else if phase.row.None? && r.user !in s.balances then Finish(s, c, Violated(LedgerUser))
      else Move(s, c, Recorded(phase.reply, phase.row, Some(EntryOf(c, r, phase.at)))).(
             keyLocks := s.keyLocks[r.tx := c])
  }

  function CommitTx(s: State, c: CallId): State {
    if c !in s.calls || !s.calls[c].phase.Recorded? then s
    else
      var Call(r, phase) := s.calls[c];
      Finish(s, c, Committed(phase.reply)).(
        balances := if phase.row.Some? then s.balances[r.user := phase.row.value] else s.balances,
        ledger := if phase.entry.Some? then s.ledger + [phase.entry.value] else s.ledger,
        history := s.history + [Commit(c, r, phase.reply, phase.row.Some?, phase.entry.Some?)])
  }

  /** A lost connection, a cancelled context or any other database error: rollback. */
  function Abort(s: State, c: CallId): State {
    if c !in s.calls || s.calls[c].phase.Finished? then s else Finish(s, c, Aborted)
  }

  /** ConfirmTransaction: PENDING_CONFIRMATION becomes CONFIRMED, nothing else changes. */
  function Confirm(ledger: seq<Entry>, tx: TxId): seq<Entry> {
    seq(|ledger|, i requires 0 <= i < |ledger| =>
      if ledger[i].tx == tx && ledger[i].status == PendingConfirmation
      then ledger[i].(status := Confirmed) else ledger[i])
  }

  datatype Step =
    | DoReceive(c: CallId, request: Request)
    | DoLookUp(c: CallId)
    | DoLookUpError(c: CallId)
    | DoBegin(c: CallId, at: Time)
    | DoLock(c: CallId, key: int)
    | DoReadRow(c: CallId)
    | DoUpdateRow(c: CallId)
    | DoRecord(c: CallId)
    | DoCommit(c: CallId)
    | DoAbort(c: CallId)
    | DoConfirm(tx: TxId)

  function Apply(s: State, step: Step): State {
    match step
    case DoReceive(c, r) => Receive(s, c, r)
    case DoLookUp(c) => LookUp(s, c)
    case DoLookUpError(c) => LookUpError(s, c)
    case DoBegin(c, at) => Begin(s, c, at)
    case DoLock(c, key) => Lock(s, c, key)
    case DoReadRow(c) => ReadRow(s, c)
    case DoUpdateRow(c) => UpdateRow(s, c)
    case DoRecord(c) => Record(s, c)
    case DoCommit(c) => CommitTx(s, c)
    case DoAbort(c) => Abort(s, c)
    case DoConfirm(tx) => s.(ledger := Confirm(s.ledger, tx))
  }

  /** The state after any interleaving of statements, starting from empty tables. */
  function Run(steps: seq<Step>): State {
    if steps == [] then EMPTY else Apply(Run(steps[..|steps| - 1]), steps[|steps| - 1])
  }
}
