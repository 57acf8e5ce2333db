/** How the tables grow, and when the concurrent wallet is its calls run one at a time. */
module WalletSerial {
  import opened Platform
  import opened Wallet
  import opened WalletSafety
  import opened WalletTheorems

  // ---------------------------------------------------------------- the ledger only grows

  predicate SameEntry(e: Entry, e': Entry) {
    e' == e.(status := e'.status)
  }

  lemma LedgerKept(s: State, step: Step)
    requires !step.DoCommit?
    ensures var s' := Apply(s, step);
            |s'.ledger| == |s.ledger| && forall i | 0 <= i < |s.ledger| :: SameEntry(s.ledger[i], s'.ledger[i])
  {
    hide Ids, Without;
    match step
    case DoUpdateRow(_) => hide LookUp, Begin, Lock, ReadRow, Record, CommitTx, Abort;
    case DoRecord(_) => hide LookUp, Begin, Lock, ReadRow, UpdateRow, CommitTx, Abort;
    case DoReadRow(_) => hide LookUp, Begin, Lock, UpdateRow, Record, CommitTx, Abort;
    case _ => hide UpdateRow, Record, CommitTx, ReadRow;
  }

  lemma CommitAppends(s: State, c: CallId)
    requires c in s.calls ==> CallOk(s, c)
    ensures var s' := CommitTx(s, c);
            s'.ledger == s.ledger
            || (c in s.calls && exists at :: s'.ledger == s.ledger + [EntryOf(c, s.calls[c].request, at)])
  {
    hide Without, Ids;
    var s' := CommitTx(s, c);
    if c in s.calls && s.calls[c].phase.Recorded? && s.calls[c].phase.entry.Some? {
      var e := s.calls[c].phase.entry.value;
      assert e == EntryOf(c, s.calls[c].request, e.createdAt);
      assert s'.ledger == s.ledger + [EntryOf(c, s.calls[c].request, e.createdAt)];
    }
  }

  lemma LedgerGrows(w: State, step: Step)
    requires Inv(w)
    ensures var w' := Apply(w, step);
            && |w.ledger| <= |w'.ledger| <= |w.ledger| + 1
            && (forall i | 0 <= i < |w.ledger| :: SameEntry(w.ledger[i], w'.ledger[i]))
            && (|w.ledger| < |w'.ledger| ==>
                  && step.DoCommit? && step.c in w.calls
                  && exists at :: w'.ledger[|w.ledger|] == EntryOf(step.c, w.calls[step.c].request, at))
    ensures Ids(w.ledger) <= Ids(Apply(w, step).ledger)
  {
    if step.DoCommit? {
      CommitAppends(w, step.c);
    } else {
      LedgerKept(w, step);
    }
    hide Apply, Inv;
    var w' := Apply(w, step);
    forall t | t in Ids(w.ledger) ensures t in Ids(w'.ledger) {
      var i :| 0 <= i < |w.ledger| && w.ledger[i].tx == t;
      assert SameEntry(w.ledger[i], w'.ledger[i]);
      assert w'.ledger[i].tx == t;
    }
  }

  // ---------------------------------------------------------------- the reference: one call at a time

  /** The two tables, with no call in progress. */
  function TablesOf(s: State): State {
    State(s.balances, s.ledger, map[], map[], map[], map[], [])
  }

  /** One RPC as one atomic step on the tables. */
  function Serve(t: State, c: CallId, r: Request, at: Time): State {
    var v := Verdict(t, r);
    t.(balances := if v.Committed? && Pays(t, r) then t.balances[r.user := RowAfter(t, r)] else t.balances,
       ledger := if v.Committed? && r.tx !in Ids(t.ledger) then t.ledger + [EntryOf(c, r, at)] else t.ledger)
  }

  /** That step is what the RPC's own statements do when nobody disturbs them. */
  lemma ServeIsAlone(t: State, c: CallId, r: Request, at: Time, key: int)
    requires t == TablesOf(t) && r.tx != NO_ID && r.user != NO_ID
    ensures var done := Alone(t, c, r, at, key);
            && TablesOf(done) == Serve(t, c, r, at)
            && c in done.calls && done.calls[c] == Call(r, Finished(Verdict(t, r)))
  {
    AloneIsVerdict(t, c, r, at, key);
    hide Alone, Verdict, RowAfter, Ids;
  }

  /** What a run does to the tables, in commit order. */
  datatype Event = Served(commit: Commit, at: Time) | Confirmed(tx: TxId)

  function EventOf(s: State, step: Step): Option<Event> {
    match step
    case DoConfirm(tx) => Some(Event.Confirmed(tx))
    case DoCommit(c) =>
      if c !in s.calls || !s.calls[c].phase.Recorded? then None
      else
        var Call(r, Recorded(reply, row, entry)) := s.calls[c];
        Some(Served(Commit(c, r, reply, row.Some?, entry.Some?), if entry.Some? then entry.value.createdAt else 0))
    case _ => None
  }

  function Log(steps: seq<Step>): seq<Event> {
    if steps == [] then []
    else
      var prefix, last := steps[..|steps| - 1], steps[|steps| - 1];
      var e := EventOf(Run(prefix), last);
      if e.Some? then Log(prefix) + [e.value] else Log(prefix)
  }

  /** The same events with every call run alone, each on the tables the one before it left. */
  function Serially(log: seq<Event>): State {
    if log == [] then State(map[], [], map[], map[], map[], map[], [])
    else
      var t, e := Serially(log[..|log| - 1]), log[|log| - 1];
      match e
      case Served(commit, at) => Serve(t, commit.call, commit.request, at)
      case Confirmed(tx) => t.(ledger := Confirm(t.ledger, tx))
  }

  /** The call would have committed on these tables, with this reply; CreditBalance's reply is read after its commit. */
  predicate AnswersAs(t: State, commit: Commit) {
    var v := Verdict(t, commit.request);
    v.Committed? && (!commit.request.rpc.Credit? ==> v == Committed(commit.reply))
  }

  predicate RepliesFit(log: seq<Event>) {
    log == [] ||
    var prefix, e := log[..|log| - 1], log[|log| - 1];
    RepliesFit(prefix) && (e.Served? ==> AnswersAs(Serially(prefix), e.commit))
  }

  // ---------------------------------------------------------------- one commit

  /** A credit that missed its row although there is one by now. */
  predicate LateCredit(s: State, c: CallId) {
    && c in s.calls && s.calls[c].phase.Recorded? && s.calls[c].request.rpc.Credit?
    && s.calls[c].phase.row.None? && s.calls[c].request.user in s.balances && s.calls[c].request.amount != 0
  }

  /** What a prepared ledger row, or its absence, says about the tables. */
  predicate PreparedOk(s: State, call: Call) {
    call.phase.Recorded? ==>
      && (call.phase.entry.None? ==> call.request.tx in Ids(s.ledger))
      && (call.phase.entry.Some? && call.phase.row.None? ==> call.request.user in s.balances)
  }

  ghost predicate SerialInv(s: State) {
    Inv(s) && forall c | c in s.calls :: PreparedOk(s, s.calls[c])
  }

  lemma RecordPrepares(s: State, c: CallId)
    requires c in s.calls && s.calls[c].phase.Updated?
    ensures c in Record(s, c).calls && PreparedOk(Record(s, c), Record(s, c).calls[c])
  {
    hide Without, Ids;
    var Call(r, phase) := s.calls[c];
    var phase' := Record(s, c).calls[c].phase;
    if !Free(s.keyLocks, r.tx, c) {
      assert phase' == phase;
    } else if r.tx in Ids(s.ledger) {
      assert phase'.Recorded? ==> phase'.entry.None? && Record(s, c).ledger == s.ledger;
    } else if phase.row.None? && r.user !in s.balances {
      assert phase'.Finished?;
    } else {
      assert phase'.entry.Some? && phase'.row == phase.row && Record(s, c).balances == s.balances;
    }
  }

  lemma RecordWaits(s: State, c: CallId)
    requires c in s.calls && !s.calls[c].phase.Updated?
    ensures Record(s, c) == s
  {}

  lemma NotPreparing(s: State, step: Step)
    requires !step.DoRecord? && !step.DoReceive? && !step.DoConfirm?
    requires step.c in s.calls && !s.calls[step.c].phase.Recorded?
    ensures step.c in Apply(s, step).calls && !Apply(s, step).calls[step.c].phase.Recorded?
  {
    hide Without, Ids;
    match step
    case DoUpdateRow(_) => hide LookUp, Begin, Lock, ReadRow, CommitTx, Abort;
    case DoReadRow(_) => hide LookUp, Begin, Lock, UpdateRow, CommitTx, Abort;
    case _ => hide UpdateRow, ReadRow;
  }

  /** A prepared call stays as it is or ends. */
  lemma PreparedStays(s: State, step: Step)
    requires !step.DoReceive? && !step.DoConfirm?
    requires step.c in s.calls && s.calls[step.c].phase.Recorded?
    ensures step.c in Apply(s, step).calls
    ensures Apply(s, step).calls[step.c] == s.calls[step.c] || Apply(s, step).calls[step.c].phase.Finished?
  {
    hide Without, Ids;
    match step
    case DoUpdateRow(_) => hide LookUp, Begin, Lock, ReadRow, CommitTx, Abort;
    case DoReadRow(_) => hide LookUp, Begin, Lock, UpdateRow, CommitTx, Abort;
    case _ => hide UpdateRow, ReadRow;
  }

  /** The call that a step moves is prepared properly. */
  lemma MovedPrepares(s: State, step: Step)
    requires SerialInv(s) && !step.DoReceive? && !step.DoConfirm? && step.c in s.calls
    ensures step.c in Apply(s, step).calls
    ensures !Apply(s, step).calls[step.c].phase.Recorded? || Apply(s, step).calls[step.c] == s.calls[step.c]
            || PreparedOk(Apply(s, step), Apply(s, step).calls[step.c])
  {
    if s.calls[step.c].phase.Recorded? {
      PreparedStays(s, step);
      hide Inv, Apply;
    } else if step.DoRecord? {
      if s.calls[step.c].phase.Updated? {
        RecordPrepares(s, step.c);
      } else {
        RecordWaits(s, step.c);
      }
      hide Inv, Record, PreparedOk;
    } else {
      NotPreparing(s, step);
      hide Inv, Apply;
    }
  }

  lemma StepPrepares(s: State, step: Step, d: CallId)
    requires SerialInv(s) && d in Apply(s, step).calls
    ensures PreparedOk(Apply(s, step), Apply(s, step).calls[d])
  {
    LedgerGrows(s, step);
    StepExtends(s, step);
    assert d in s.calls ==> PreparedOk(s, s.calls[d]);
    if !step.DoReceive? && !step.DoConfirm? && step.c in s.calls {
      MovedPrepares(s, step);
    }
    hide Inv, Apply, Ids;
  }

  lemma StepKeepsSerial(s: State, step: Step)
    requires SerialInv(s)
    ensures SerialInv(Apply(s, step))
  {
    StepPreserves(s, step);
    hide Inv, Apply, PreparedOk;
    forall d | d in Apply(s, step).calls { StepPrepares(s, step, d); }
  }

  lemma {:induction false} RunSerial(steps: seq<Step>)
    ensures SerialInv(Run(steps))
  {
    if steps == [] {
      EmptyInv();
    } else {
      RunSerial(steps[..|steps| - 1]);
      hide Inv, Apply, PreparedOk;
      StepKeepsSerial(Run(steps[..|steps| - 1]), steps[|steps| - 1]);
    }
  }

  // ---------------------------------------------------------------- serialisability

  /** The commit of a prepared call answers and changes the tables as the call would alone on the tables it meets. */
  predicate AsAlone(s: State, c: CallId)
    requires c in s.calls && s.calls[c].phase.Recorded?
  {
    var e := EventOf(s, DoCommit(c)).value;
    AnswersAs(TablesOf(s), e.commit) && TablesOf(CommitTx(s, c)) == Serve(TablesOf(s), c, s.calls[c].request, e.at)
  }

  /** A commit that updated its row, or needed none, is the call alone. */
  lemma PunctualCommit(s: State, c: CallId)
    requires c in s.calls && s.calls[c].phase.Recorded? && CallOk(s, c) && PreparedOk(s, s.calls[c])
    requires s.calls[c].phase.row.Some? || s.calls[c].request.user !in s.balances
    ensures AsAlone(s, c)
  {
    hide Ids, Without, RowDelta;
  }

  /** A credit that missed a row is the call alone exactly when its amount is zero. */
  lemma MissedCommit(s: State, c: CallId)
    requires c in s.calls && s.calls[c].phase.Recorded? && CallOk(s, c) && PreparedOk(s, s.calls[c])
    requires s.calls[c].phase.row.None? && s.calls[c].request.user in s.balances
    requires s.balances[s.calls[c].request.user].Valid()
    ensures s.calls[c].request.rpc.Credit?
    ensures AsAlone(s, c) <==> s.calls[c].request.amount == 0
  {
    hide Ids, Without;
    var r := s.calls[c].request;
    var row := s.balances[r.user];
    assert s.balances[r.user := row.Plus(RowDelta(r))][r.user] == row.Plus(RowDelta(r));
    assert r.amount == 0 <==> row.Plus(RowDelta(r)) == row;
  }

  /** A commit differs from the call alone exactly when it is a late credit. */
  lemma CommitIsReference(s: State, c: CallId)
    requires Reachable(s) && c in s.calls && s.calls[c].phase.Recorded?
    ensures AsAlone(s, c) <==> !LateCredit(s, c)
  {
    var steps :| Run(steps) == s;
    RunSerial(steps);
    assert CallOk(s, c) && PreparedOk(s, s.calls[c]);
    var r := s.calls[c].request;
    if s.calls[c].phase.row.Some? || r.user !in s.balances {
      PunctualCommit(s, c);
    } else {
      NeverNegative(s, r.user);
      MissedCommit(s, c);
    }
    hide AsAlone, Inv;
  }

  /** No credit commits late. */
  predicate OnTime(steps: seq<Step>) {
    steps == [] ||
    var prefix, last := steps[..|steps| - 1], steps[|steps| - 1];
    OnTime(prefix) && (last.DoCommit? ==> !LateCredit(Run(prefix), last.c))
  }

  lemma TablesKept(s: State, step: Step)
    requires Inv(s) && EventOf(s, step).None?
    ensures TablesOf(Apply(s, step)) == TablesOf(s)
  {
    if step.DoCommit? {
      assert Apply(s, step) == s;
    } else {
      StepLocal(s, step);
    }
  }

  /**
   Serialisability: while no credit commits late, the tables are those of the
   committed calls run one at a time in commit order, and every reply is the one
   the call would have had alone at its place.
   */
  lemma {:induction false} Serializable(steps: seq<Step>)
    requires OnTime(steps)
    ensures TablesOf(Run(steps)) == Serially(Log(steps)) && RepliesFit(Log(steps))
  {
    if steps != [] {
      var prefix, last := steps[..|steps| - 1], steps[|steps| - 1];
      var s := Run(prefix);
      Serializable(prefix);
      RunInv(prefix);
      SerialStep(prefix, last);
    }
  }

  lemma SerialStep(prefix: seq<Step>, last: Step)
    requires TablesOf(Run(prefix)) == Serially(Log(prefix)) && RepliesFit(Log(prefix)) && Inv(Run(prefix))
    requires last.DoCommit? ==> !LateCredit(Run(prefix), last.c)
    ensures var steps := prefix + [last];
            TablesOf(Run(steps)) == Serially(Log(steps)) && RepliesFit(Log(steps))
  {
    var s, steps := Run(prefix), prefix + [last];
    assert steps[..|steps| - 1] == prefix;
    var e := EventOf(s, last);
    if e.None? {
      TablesKept(s, last);
    } else {
      assert (Log(prefix) + [e.value])[..|Log(prefix)|] == Log(prefix);
      if last.DoCommit? {
        CommitIsReference(s, last.c);
      }
    }
    hide Inv, LateCredit;
  }

  /** Admissible credits are never late. */
  lemma {:induction false} AdmissibleIsOnTime(steps: seq<Step>)
    requires Disciplined(steps)
    ensures OnTime(steps)
  {
    if steps != [] {
      var prefix, last := steps[..|steps| - 1], steps[|steps| - 1];
      AdmissibleIsOnTime(prefix);
      DisciplinedRun(prefix);
      if last.DoCommit? && last.c in Run(prefix).calls {
        assert CreditOk(Run(prefix), last.c);
      }
    }
  }

  /** These tables are what neither order of the two calls leaves in an empty database. */
  ghost predicate InNoOrder(s: State, credit: Request, deposit: Request) {
    forall t, c, d, at, at' | t == TablesOf(EMPTY) ::
      && TablesOf(s) != Serve(Serve(t, c, credit, at), d, deposit, at')
      && TablesOf(s) != Serve(Serve(t, d, deposit, at'), c, credit, at)
  }

  /**
   There is a run in which exactly these two calls were received and both
   committed, and whose tables neither order of the two calls gives.
   */
  lemma LostCreditIsNotSerial(credit: Request, deposit: Request)
    requires Race(credit, deposit) && credit.amount != 0
    ensures exists s :: Reachable(s) && LostCredit(s, credit, deposit) && InNoOrder(s, credit, deposit)
  {
    CreditBeforeFirstDepositIsLost(credit, deposit);
    var s :| Reachable(s) && LostCredit(s, credit, deposit);
    forall t, c, d, at, at' | t == TablesOf(EMPTY)
      ensures TablesOf(s) != Serve(Serve(t, c, credit, at), d, deposit, at')
      ensures TablesOf(s) != Serve(Serve(t, d, deposit, at'), c, credit, at)
    {
      CreditFirst(s, t, c, d, credit, deposit, at, at');
      DepositFirst(s, t, c, d, credit, deposit, at, at');
    }
  }

  lemma CreditFirst(s: State, t: State, c: CallId, d: CallId, credit: Request, deposit: Request, at: Time, at': Time)
    requires Race(credit, deposit) && |s.ledger| == 2
    requires t.balances == map[] && t.ledger == []
    ensures TablesOf(s) != Serve(Serve(t, c, credit, at), d, deposit, at')
  {
    assert Serve(t, c, credit, at) == t;
    assert |Serve(t, d, deposit, at').ledger| <= 1;
  }

  lemma DepositFirst(s: State, t: State, c: CallId, d: CallId, credit: Request, deposit: Request, at: Time, at': Time)
    requires Race(credit, deposit) && credit.amount != 0 && |s.ledger| == 2
    requires s.balances == map[credit.user := Balance(deposit.amount, 0)]
    requires t.balances == map[] && t.ledger == []
    ensures TablesOf(s) != Serve(Serve(t, d, deposit, at'), c, credit, at)
  {
    var t1 := Serve(t, d, deposit, at');
    assert t1.ledger == [EntryOf(d, deposit, at')];
    assert deposit.user in t1.balances && t1.balances[deposit.user] == Balance(deposit.amount, 0);
    var t2 := Serve(t1, c, credit, at);
    if Verdict(t1, credit).Committed? {
      assert t2.balances[credit.user] == RowAfter(t1, credit)
        == Balance(deposit.amount + credit.amount, -credit.amount);
    } else {
      assert |t2.ledger| == 1;
    }
  }

  // ---------------------------------------------------------------- refusals

  /** The call that this step ends, with an outcome that is neither a commit nor an abort. */
  predicate Refuses(s: State, step: Step, outcome: Outcome) {
    && !step.DoReceive? && !step.DoConfirm? && step.c in s.calls && !s.calls[step.c].phase.Finished?
    && step.c in Apply(s, step).calls && Apply(s, step).calls[step.c].phase == Finished(outcome)
    && !outcome.Committed? && outcome != Aborted
  }

  lemma LookUpRefuses(s: State, c: CallId)
    requires c in s.calls && !s.calls[c].phase.Finished?
    ensures LookUp(s, c).calls[c].phase.Finished? ==>
              LookUp(s, c).calls[c].phase.outcome == Replayed == Verdict(s, s.calls[c].request)
  {
    hide Without, Ids;
  }

  /** What a refused read or update says about the tables. */
  lemma ReadRefuses(s: State, c: CallId)
    requires c in s.calls && !s.calls[c].phase.Finished?
    ensures ReadRow(s, c).calls[c].phase.Finished? ==>
              var r, outcome := s.calls[c].request, ReadRow(s, c).calls[c].phase.outcome;
              && (r.rpc.Deduct? || r.rpc.Withdraw?)
              && (if r.user !in s.balances then outcome == NotFound
                  else s.balances[r.user].available < r.amount && outcome == InsufficientFunds)
  {
    hide Without;
  }

  lemma UpdateRefuses(s: State, c: CallId)
    requires c in s.calls && !s.calls[c].phase.Finished?
    ensures UpdateRow(s, c).calls[c].phase.Finished? ==>
              var r := s.calls[c].request;
              && ReadyToUpdate(s.calls[c]) && WalletTheorems.Pays(s, r)
              && UpdateRow(s, c).calls[c].phase.outcome == Violated(BalanceCheck)
              && (!RowAfter(s, r).Valid() || (r.rpc.Deposit? && r.amount < 0))
  {
    hide Without, RowDelta;
  }

  lemma RecordRefuses(s: State, c: CallId)
    requires c in s.calls && !s.calls[c].phase.Finished?
    ensures Record(s, c).calls[c].phase.Finished? ==>
              var r, outcome := s.calls[c].request, Record(s, c).calls[c].phase.outcome;
              && s.calls[c].phase.Updated?
              && (if r.tx in Ids(s.ledger) then !r.rpc.Credit? && outcome == Violated(LedgerKey)
                  else s.calls[c].phase.row.None? && r.user !in s.balances && outcome == Violated(LedgerUser))
  {
    hide Without, Ids;
  }

  /** Committing or aborting is the only other way to end. */
  lemma OtherEnds(s: State, step: Step)
    requires step.DoLookUpError? || step.DoBegin? || step.DoLock? || step.DoCommit? || step.DoAbort?
    requires step.c in s.calls && !s.calls[step.c].phase.Finished?
    ensures step.c in Apply(s, step).calls
    ensures var phase := Apply(s, step).calls[step.c].phase;
            phase.Finished? ==> phase.outcome.Committed? || phase.outcome == Aborted
  {
    hide Without, Ids;
  }

  /**
   Every refusal is what the reference says about the tables at that step,
   exactly when the call is a credit, or is told that its id is known, or its id
   has not been stored in the meantime: a call whose look-up missed an id that
   is stored by now is refused for another reason than the reference gives.
   */
  lemma RefusalIsVerdict(s: State, step: Step, outcome: Outcome)
    requires Reachable(s) && Refuses(s, step, outcome)
    ensures var r := s.calls[step.c].request;
            outcome == Verdict(TablesOf(s), r) <==> outcome == Replayed || r.rpc.Credit? || r.tx !in Ids(s.ledger)
  {
    var c := step.c;
    var r := s.calls[c].request;
    ReachableInv(s);
    assert CallOk(s, c);
    VerdictOfTables(s, r);
    hide Inv, Reachable, Ids, LookUp, LookUpError, Begin, Lock, ReadRow, UpdateRow, Record, CommitTx, Abort, RowDelta;
    match step {
      case DoLookUp(_) => LookUpRefuses(s, c);
      case DoReadRow(_) => ReadRefuses(s, c);
      case DoUpdateRow(_) => UpdateRefuses(s, c);
      case DoRecord(_) => RecordRefuses(s, c);
      case _ => OtherEnds(s, step);
    }
  }

  /** The reference looks at the tables only. */
  lemma VerdictOfTables(s: State, r: Request)
    ensures Verdict(TablesOf(s), r) == Verdict(s, r)
  {
    assert RowAfter(TablesOf(s), r) == RowAfter(s, r);
  }

  /** With that, refusals too have their place in the serial order while no credit commits late. */
  lemma RefusalInOrder(steps: seq<Step>, step: Step, outcome: Outcome)
    requires OnTime(steps) && Refuses(Run(steps), step, outcome)
    ensures var r := Run(steps).calls[step.c].request;
            outcome == Verdict(Serially(Log(steps)), r)
            <==> outcome == Replayed || r.rpc.Credit? || r.tx !in Ids(Serially(Log(steps)).ledger)
  {
    Serializable(steps);
    RefusalIsVerdict(Run(steps), step, outcome);
  }
}
