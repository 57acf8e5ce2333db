/** Each condition of the daily limit is needed: without any one of them there is a run over the limit. */
module DailyExcess {
  import opened Platform
  import opened Wallet
  import opened WalletSafety
  import opened WalletTheorems
  import opened Placement
  import opened PlacementTheorems
  import opened DailyLimit
  import BetHistory

  ghost predicate Happens(limits: map<UserId, UserLimits>, rules: Rules, s: Clocked) {
    exists moves :: Orderly(limits, moves, rules) && Day(limits, moves) == s
  }

  lemma HappensNext(limits: map<UserId, UserLimits>, rules: Rules, s: Clocked, m: Move)
    requires Happens(limits, rules, s) && OrderlyMove(s, m, rules)
    ensures Happens(limits, rules, Next(limits, s, m))
  {
    hide OrderlyMove, Next;
    var moves :| Orderly(limits, moves, rules) && Day(limits, moves) == s;
    assert (moves + [m])[..|moves|] == moves;
    assert Day(limits, moves + [m]) == Next(limits, s, m);
    assert Orderly(limits, moves + [m], rules);
  }

  function WithWallet(s: Clocked, w: Wallet.State): Clocked {
    s.(place := s.place.(wallet := w))
  }

  lemma HappensStatement(limits: map<UserId, UserLimits>, rules: Rules, s: Clocked, w: Wallet.State, step: Wallet.Step)
    requires Happens(limits, rules, WithWallet(s, w))
    requires step.DoReceive? ==> Fits(s.place.flows, step.request)
    requires step.DoReceive? && rules.replies ==> NothingLost(s.place, WalletStep(step))
    requires step.DoBegin? ==> step.at == s.now
    ensures Happens(limits, rules, WithWallet(s, Wallet.Apply(w, step)))
  {
    hide Happens, Wallet.Apply, Fits;
    HappensNext(limits, rules, WithWallet(s, w), Do(WalletStep(step)));
  }

  /** One wallet call from start to end, now. */
  lemma HappensAlone(limits: map<UserId, UserLimits>, rules: Rules, s: Clocked, c: CallId, r: Wallet.Request)
    requires Happens(limits, rules, s) && Fits(s.place.flows, r)
    requires rules.replies ==> NothingLost(s.place, WalletStep(DoReceive(c, r)))
    ensures Happens(limits, rules, WithWallet(s, Alone(s.place.wallet, c, r, s.now, 0)))
  {
    hide Happens, Receive, LookUp, Begin, Lock, ReadRow, UpdateRow, Record, CommitTx, Fits, NothingLost;
    var w := s.place.wallet;
    assert WithWallet(s, w) == s;
    HappensStatement(limits, rules, s, w, DoReceive(c, r));
    var w1 := Receive(w, c, r);
    HappensStatement(limits, rules, s, w1, DoLookUp(c));
    HappensStatement(limits, rules, s, LookUp(w1, c), DoBegin(c, s.now));
    HappensStatement(limits, rules, s, Begin(LookUp(w1, c), c, s.now), DoLock(c, 0));
    var w4 := Opened(w, c, r, s.now, 0);
    HappensStatement(limits, rules, s, w4, DoReadRow(c));
    HappensStatement(limits, rules, s, ReadRow(w4, c), DoUpdateRow(c));
    var w6 := UpdateRow(ReadRow(w4, c), c);
    HappensStatement(limits, rules, s, w6, DoRecord(c));
    HappensStatement(limits, rules, s, Record(w6, c), DoCommit(c));
  }

  // ---------------------------------------------------------------- one user's account

  /** Nothing is in progress, the account and the ledger are these, and only these ids and calls were used. */
  predicate Account(s: Clocked, user: UserId, balance: Balance, ledger: seq<Entry>, used: set<Id>, calls: nat) {
    && Quiet(s.place.wallet) && s.checked == map[]
    && user in s.place.wallet.balances && s.place.wallet.balances[user] == balance
    && Ledger(s) == ledger && Ids(ledger) <= used
    && (forall c | c in s.place.wallet.calls :: c < calls && s.place.wallet.calls[c].request.tx in used)
    && (forall f | 0 <= f < |s.place.flows| ::
          s.place.flows[f].slip.bet in used && s.place.flows[f].tx in used && s.place.flows[f].outbox in used)
  }

  function SlipOf(bet: BetId, user: UserId, stake: int): BetHistory.Slip {
    BetHistory.Slip(bet, user, NO_ID, NO_ID, 2.0, 100, stake)
  }

  function FlowOf(id: Id, user: UserId, stake: int, at: Time): Flow {
    Flow(SlipOf(id, user, stake), id, id, at, Requested)
  }

  /** After the limit check and the outbox row. */
  function Placed(s: Clocked, id: Id, user: UserId, stake: int): (s': Clocked)
    ensures s'.now == s.now && s'.checked == s.checked
  {
    s.(place := Write(s.place, SlipOf(id, user, stake), id, id, s.now))
  }

  predicate MayCheck(s: Clocked, user: UserId, stake: int, sumOk: bool, rules: Rules) {
    (rules.stakes ==> stake >= 0) && (rules.sums ==> sumOk) && (rules.overlap ==> !Busy(s, user))
  }

  lemma HappensPlaced(limits: map<UserId, UserLimits>, rules: Rules, s: Clocked, id: Id, user: UserId,
                      stake: int, sumOk: bool)
    requires Happens(limits, rules, s) && s.checked == map[] && Passes(limits, s, user, stake, sumOk)
    requires MayCheck(s, user, stake, sumOk, rules)
    ensures Happens(limits, rules, Placed(s, id, user, stake))
  {
    hide Happens, Write, Passes, Busy;
    HappensNext(limits, rules, s, Check(0, user, stake, sumOk));
    var s1 := s.(checked := map[0 := Intent(user, stake)]);
    assert s.checked[0 := Intent(user, stake)] == s1.checked;
    HappensNext(limits, rules, s1, Start(0, SlipOf(id, user, stake), id, id));
    assert s1.checked - {0} == map[];
  }

  lemma PlacedAccount(s: Clocked, id: Id, user: UserId, stake: int, balance: Balance, ledger: seq<Entry>,
                      used: set<Id>, calls: nat)
    requires Account(s, user, balance, ledger, used, calls) && id !in used
    ensures Account(Placed(s, id, user, stake), user, balance, ledger, used + {id}, calls)
    ensures Placed(s, id, user, stake).place.flows == s.place.flows + [FlowOf(id, user, stake, s.now)]
  {
    hide Quiet;
    assert Fresh(s.place, id, id, id);
  }

  function DebitRow(c: CallId, flow: Flow, at: Time): Entry {
    EntryOf(c, RequestOf(flow), at)
  }

  function Charged(s: Clocked, f: nat, c: CallId): (s': Clocked)
    requires f < |s.place.flows|
    ensures s'.place.flows == s.place.flows && s'.now == s.now
  {
    WithWallet(s, Alone(s.place.wallet, c, RequestOf(s.place.flows[f]), s.now, 0))
  }

  /** What a debit that is paid for leaves in the wallet. */
  predicate Taken(w: Wallet.State, w': Wallet.State, c: CallId, r: Wallet.Request, at: Time)
    requires r.user in w.balances
  {
    var b := w.balances[r.user];
    && Quiet(w') && w'.ledger == w.ledger + [EntryOf(c, r, at)]
    && w'.balances == w.balances[r.user := Balance(b.available - r.amount, b.inFlight + r.amount)]
    && w'.calls == w.calls[c := Call(r, Finished(Committed(b.available - r.amount)))]
  }

  lemma TakenVerdict(w: Wallet.State, w': Wallet.State, c: CallId, r: Wallet.Request, at: Time)
    requires r.rpc.Deduct? && r.tx !in Ids(w.ledger) && r.user in w.balances
    requires 0 <= w.balances[r.user].available - r.amount && 0 <= w.balances[r.user].inFlight + r.amount
    requires Concluded(w, w', c, r, at, Verdict(w, r))
    ensures Taken(w, w', c, r, at)
  {
    hide Ids, Quiet;
    var b := w.balances[r.user];
    assert RowAfter(w, r) == Balance(b.available - r.amount, b.inFlight + r.amount);
  }

  lemma TakenAlone(w: Wallet.State, c: CallId, r: Wallet.Request, at: Time)
    requires Quiet(w) && c !in w.calls && r.rpc.Deduct? && r.tx != NO_ID && r.user != NO_ID && r.tx !in Ids(w.ledger)
    requires r.user in w.balances
    requires 0 <= w.balances[r.user].available - r.amount && 0 <= w.balances[r.user].inFlight + r.amount
    ensures Taken(w, Alone(w, c, r, at, 0), c, r, at)
  {
    hide Alone, Quiet, Ids, Verdict, Concluded, Taken;
    AloneIsVerdict(w, c, r, at, 0);
    TakenVerdict(w, Alone(w, c, r, at, 0), c, r, at);
  }

  function Less(b: Balance, stake: int): Balance {
    Balance(b.available - stake, b.inFlight + stake)
  }

  lemma TakenAccount(s: Clocked, w': Wallet.State, flow: Flow, user: UserId, balance: Balance,
                     ledger: seq<Entry>, used: set<Id>, calls: nat)
    requires Account(s, user, balance, ledger, used, calls) && flow.slip.user == user && flow.tx in used
    requires Taken(s.place.wallet, w', calls, RequestOf(flow), s.now)
    ensures Account(WithWallet(s, w'), user, Less(balance, flow.slip.stake),
                    ledger + [DebitRow(calls, flow, s.now)], used, calls + 1)
    ensures calls in w'.calls && w'.calls[calls].request == RequestOf(flow) && Succeeded(w'.calls[calls].phase)
  {
    IdsAppend(ledger, DebitRow(calls, flow, s.now));
    hide Quiet, Ids;
  }

  lemma ChargedAccount(s: Clocked, f: nat, user: UserId, balance: Balance, ledger: seq<Entry>, used: set<Id>,
                       calls: nat)
    requires Account(s, user, balance, ledger, used, calls)
    requires f < |s.place.flows| && s.place.flows[f].slip.user == user != NO_ID
    requires s.place.flows[f].tx != NO_ID && s.place.flows[f].tx !in Ids(ledger)
    requires var stake := s.place.flows[f].slip.stake;
             0 <= balance.available - stake && 0 <= balance.inFlight + stake
    ensures var flow, s' := s.place.flows[f], Charged(s, f, calls);
            && Account(s', user, Less(balance, flow.slip.stake),
                       ledger + [DebitRow(calls, flow, s.now)], used, calls + 1)
            && s'.place.flows == s.place.flows && s'.now == s.now && s'.checked == s.checked
            && calls in s'.place.wallet.calls && s'.place.wallet.calls[calls].request == RequestOf(flow)
            && Succeeded(s'.place.wallet.calls[calls].phase)
  {
    hide Alone, Quiet, Ids, Taken;
    var flow, w := s.place.flows[f], s.place.wallet;
    TakenAlone(w, calls, RequestOf(flow), s.now);
    TakenAccount(s, Alone(w, calls, RequestOf(flow), s.now, 0), flow, user, balance, ledger, used, calls);
    hide Account;
  }

  lemma HappensCharged(limits: map<UserId, UserLimits>, rules: Rules, s: Clocked, f: nat, c: CallId)
    requires Happens(limits, rules, s) && f < |s.place.flows|
    requires rules.replies ==> s.place.flows[f].stage == Requested
    ensures Happens(limits, rules, Charged(s, f, c))
  {
    hide Happens, Alone;
    HappensAlone(limits, rules, s, c, RequestOf(s.place.flows[f]));
  }

  // ---------------------------------------------------------------- an account to start with

  /** The world after the user's first deposit. */
  function StartOf(user: UserId, amount: int, id: Id): Clocked {
    WithWallet(Clocked(0, START, map[]), Alone(EMPTY, 0, DepositOf(user, amount, id), 0, 0))
  }

  function DepositOf(user: UserId, amount: int, id: Id): Wallet.Request {
    Wallet.Request(Deposit, id, user, amount, NO_ID)
  }

  function DepositRow(user: UserId, amount: int, id: Id): Entry {
    EntryOf(0, DepositOf(user, amount, id), 0)
  }

  lemma HappensStart(limits: map<UserId, UserLimits>, rules: Rules, user: UserId, amount: int, id: Id)
    ensures Happens(limits, rules,  StartOf(user, amount, id))
  {
    hide Alone;
    var s0 := Clocked(0, START, map[]);
    assert Day(limits, []) == s0 && Orderly(limits, [], rules);
    HappensAlone(limits, rules, s0, 0, DepositOf(user, amount, id));
  }

  lemma FirstDeposit(w: Wallet.State, r: Wallet.Request)
    requires w == EMPTY && r.rpc.Deposit? && r.amount >= 0 && r.tx != NO_ID && r.user != NO_ID
    ensures var w' := Alone(w, 0, r, 0, 0);
            && Quiet(w') && w'.balances == map[r.user := Balance(r.amount, 0)] && w'.ledger == [EntryOf(0, r, 0)]
            && w'.calls.Keys == {0} && w'.calls[0].request == r
  {
    AloneIsVerdict(w, 0, r, 0, 0);
    assert RowAfter(w, r) == Balance(r.amount, 0);
    assert Verdict(w, r) == Committed(r.amount);
    hide Alone, Verdict, RowAfter;
  }

  lemma StartAccount(user: UserId, amount: int, id: Id)
    requires amount >= 0 && user != NO_ID && id != NO_ID
    ensures Account(StartOf(user, amount, id), user, Balance(amount, 0), [DepositRow(user, amount, id)], {id}, 1)
    ensures StartOf(user, amount, id).place.flows == [] &&  StartOf(user, amount, id).now == 0
  {
    hide Alone, Quiet;
    FirstDeposit(EMPTY, DepositOf(user, amount, id));
  }

  /** A deposit is no stake. */
  lemma OnlyDebitsCount(deposit: Entry, user: UserId, since: Time)
    requires deposit.kind != Debit
    ensures StakedSince([deposit], user, since) == 0 && forall from, to :: StakedIn([deposit], user, from, to) == 0
  {}

  lemma SumsOfTwo(deposit: Entry, e: Entry, e': Entry, user: UserId, from: Time, to: Time)
    requires deposit.kind != Debit && e.kind == e'.kind == Debit && e.user == e'.user == user
    requires from < e.createdAt <= to && from < e'.createdAt <= to
    ensures StakedIn([deposit] + [e] + [e'], user, from, to) == e.amount + e'.amount
  {
    OnlyDebitsCount(deposit, user, from);
    AppendIn([deposit], e, user, from, to);
    AppendIn([deposit] + [e], e', user, from, to);
  }

  /** A world with two debits of this stake at time 0. */
  ghost predicate TwiceStaked(s: Clocked, user: UserId, stake: int) {
    StakedIn(Ledger(s), user, -1, -1 + DAY) == 2 * stake
  }

  /** The stakes for which twice is over the limit and once is not. */
  predicate FitsOnce(limits: map<UserId, UserLimits>, user: UserId, stake: int) {
    user != NO_ID && user in limits && 0 < stake <= limits[user].maxSingle && stake <= limits[user].daily < 2 * stake
  }

  lemma FirstPasses(limits: map<UserId, UserLimits>, s: Clocked, user: UserId, stake: int, sumOk: bool, deposit: Entry)
    requires FitsOnce(limits, user, stake) && Ledger(s) == [deposit] && deposit.kind != Debit
    ensures Passes(limits, s, user, stake, sumOk)
  {
    OnlyDebitsCount(deposit, user, s.now - DAY);
  }

  /** Two flows of one user, of which neither has been debited yet, are debited now. */
  predicate Chargeable(s: Clocked, f: nat, user: UserId, stake: int, rules: Rules) {
    && f < |s.place.flows| && s.place.flows[f].slip.user == user && s.place.flows[f].slip.stake == stake
    && s.place.flows[f].tx != NO_ID && (rules.replies ==> s.place.flows[f].stage == Requested)
  }

  lemma HappensBoth(limits: map<UserId, UserLimits>, rules: Rules, s: Clocked, user: UserId, stake: int,
                    first: nat, second: nat)
    requires Happens(limits, rules, s) && Chargeable(s, first, user, stake, rules)
    requires Chargeable(s, second, user, stake, rules)
    ensures Happens(limits, rules, Charged(Charged(s, first, 1), second, 2))
  {
    hide Happens, Alone;
    HappensCharged(limits, rules, s, first, 1);
    HappensCharged(limits, rules, Charged(s, first, 1), second, 2);
  }

  /** Two flows of one user, of which neither has been debited yet, are debited at time 0. */
  lemma BothCharged(s: Clocked, user: UserId, stake: int, deposit: Entry, used: set<Id>, first: nat,
                    second: nat, rules: Rules)
    requires user != NO_ID && stake >= 0 && deposit.kind != Debit && s.now == 0
    requires Account(s, user, Balance(2 * stake, 0), [deposit], used, 1)
    requires Chargeable(s, first, user, stake, rules) && Chargeable(s, second, user, stake, rules)
    requires s.place.flows[first].tx != s.place.flows[second].tx
    requires s.place.flows[first].tx != deposit.tx && s.place.flows[second].tx != deposit.tx
    ensures TwiceStaked(Charged(Charged(s, first, 1), second, 2), user, stake)
  {
    hide Alone, StakedIn, Ids, Account;
    var e, e' := DebitRow(1, s.place.flows[first], 0), DebitRow(2, s.place.flows[second], 0);
    OneId(deposit);
    IdsAppend([deposit], e);
    ChargedAccount(s, first, user, Balance(2 * stake, 0), [deposit], used, 1);
    var s1 := Charged(s, first, 1);
    assert Less(Balance(2 * stake, 0), stake) == Balance(stake, stake);
    ChargedAccount(s1, second, user, Balance(stake, stake), [deposit] + [e], used, 2);
    AccountLedger(Charged(s1, second, 2), user, Less(Balance(stake, stake), stake), [deposit] + [e] + [e'], used, 3);
    SumsOfTwo(deposit, e, e', user, -1, -1 + DAY);
    hide Charged;
  }

  lemma OneId(e: Entry)
    ensures Ids([e]) == {e.tx}
  {
    IdsAppend([], e);
    assert [] + [e] == [e];
  }

  lemma AccountLedger(s: Clocked, user: UserId, balance: Balance, ledger: seq<Entry>, used: set<Id>, calls: nat)
    requires Account(s, user, balance, ledger, used, calls)
    ensures Ledger(s) == ledger
  {}

  /** When a user's calls overlap, the limit is exceeded by every stake that fits once and not twice. */
  lemma OverlapExceedsLimit(limits: map<UserId, UserLimits>, user: UserId, stake: int) returns (s: Clocked)
    requires FitsOnce(limits, user, stake)
    ensures Happens(limits, ALL.(overlap := false), s) && TwiceStaked(s, user, stake) && 2 * stake > Cap(limits, user)
  {
    hide Happens, Passes, StakedIn, StakedSince, TwiceStaked, Busy, Account, StartOf, Charged;
    var rules, balance := ALL.(overlap := false), Balance(2 * stake, 0);
    var s0, deposit := StartOf(user, 2 * stake, Id(0)), DepositRow(user, 2 * stake, Id(0));
    HappensStart(limits, rules, user, 2 * stake, Id(0));
    StartAccount(user, 2 * stake, Id(0));
    var s2 := PlacedTwice(limits, rules, s0, user, stake, balance, deposit);
    HappensBoth(limits, rules, s2, user, stake, 0, 1);
    BothCharged(s2, user, stake, deposit, {Id(0)} + {Id(1)} + {Id(2)}, 0, 1, rules);
    s := Charged(Charged(s2, 0, 1), 1, 2);
  }

  lemma PlacedTwice(limits: map<UserId, UserLimits>, rules: Rules, s0: Clocked, user: UserId, stake: int,
                    balance: Balance, deposit: Entry)
    returns (s2: Clocked)
    requires FitsOnce(limits, user, stake) && !rules.overlap && Happens(limits, rules, s0)
    requires s0.place.flows == [] && s0.now == 0
    requires Account(s0, user, balance, [deposit], {Id(0)}, 1) && deposit.kind != Debit
    ensures Happens(limits, rules, s2) && s2.now == 0
    ensures Account(s2, user, balance, [deposit], {Id(0)} + {Id(1)} + {Id(2)}, 1)
    ensures s2.place.flows == [FlowOf(Id(1), user, stake, 0), FlowOf(Id(2), user, stake, 0)]
  {
    hide Happens, Passes, Busy, Write;
    FirstPasses(limits, s0, user, stake, true, deposit);
    HappensPlaced(limits, rules, s0, Id(1), user, stake, true);
    PlacedAccount(s0, Id(1), user, stake, balance, [deposit], {Id(0)}, 1);
    var s1 := Placed(s0, Id(1), user, stake);
    FirstPasses(limits, s1, user, stake, true, deposit);
    HappensPlaced(limits, rules, s1, Id(2), user, stake, true);
    PlacedAccount(s1, Id(2), user, stake, balance, [deposit], {Id(0)} + {Id(1)}, 1);
    s2 := Placed(s1, Id(2), user, stake);
  }

  // ---------------------------------------------------------------- a lost reply

  /** The call ended with an error; the debit may still arrive. */
  function GivenUpOn(s: Clocked, f: nat): Clocked {
    s.(place := Act(s.place, ReplyError(f)))
  }

  lemma GivenUpAccount(s: Clocked, id: Id, user: UserId, stake: int, balance: Balance, ledger: seq<Entry>,
                       used: set<Id>, calls: nat)
    requires Account(s, user, balance, ledger, used, calls) && s.place.flows == [FlowOf(id, user, stake, 0)]
    ensures var s' := GivenUpOn(s, 0);
            && Account(s', user, balance, ledger, used, calls) && s'.now == s.now && !Busy(s', user)
            && s'.place.flows == [FlowOf(id, user, stake, 0).(stage := Refused)]
  {
    hide Quiet, Ids;
  }

  /**
   When a reply is lost, calls that do not overlap exceed the limit too: the
   first call ends with an error, the second reads a sum without its debit, and
   both debits commit.
   */
  lemma LostReplyExceedsLimit(limits: map<UserId, UserLimits>, user: UserId, stake: int) returns (s: Clocked)
    requires FitsOnce(limits, user, stake)
    ensures Happens(limits, ALL.(replies := false), s) && TwiceStaked(s, user, stake) && 2 * stake > Cap(limits, user)
  {
    hide Happens, Passes, StakedIn, StakedSince, TwiceStaked, Busy, Account, StartOf, Charged;
    var rules, balance := ALL.(replies := false), Balance(2 * stake, 0);
    var s0, deposit := StartOf(user, 2 * stake, Id(0)), DepositRow(user, 2 * stake, Id(0));
    HappensStart(limits, rules, user, 2 * stake, Id(0));
    StartAccount(user, 2 * stake, Id(0));
    var s2 := PlacedAfterLoss(limits, rules, s0, user, stake, balance, deposit);
    HappensBoth(limits, rules, s2, user, stake, 1, 0);
    BothCharged(s2, user, stake, deposit, {Id(0)} + {Id(1)} + {Id(2)}, 1, 0, rules);
    s := Charged(Charged(s2, 1, 1), 0, 2);
  }

  lemma PlacedAfterLoss(limits: map<UserId, UserLimits>, rules: Rules, s0: Clocked, user: UserId, stake: int,
                        balance: Balance, deposit: Entry)
    returns (s2: Clocked)
    requires FitsOnce(limits, user, stake) && rules == ALL.(replies := false) && Happens(limits, rules, s0)
    requires s0.place.flows == [] && s0.now == 0
    requires Account(s0, user, balance, [deposit], {Id(0)}, 1) && deposit.kind != Debit
    ensures Happens(limits, rules, s2) && s2.now == 0
    ensures Account(s2, user, balance, [deposit], {Id(0)} + {Id(1)} + {Id(2)}, 1)
    ensures s2.place.flows == [FlowOf(Id(1), user, stake, 0).(stage := Refused)] + [FlowOf(Id(2), user, stake, 0)]
  {
    FirstPasses(limits, s0, user, stake, true, deposit);
    assert !Busy(s0, user);
    hide Happens, Passes, Busy, Write;
    HappensPlaced(limits, rules, s0, Id(1), user, stake, true);
    PlacedAccount(s0, Id(1), user, stake, balance, [deposit], {Id(0)}, 1);
    var s1 := Placed(s0, Id(1), user, stake);
    HappensNext(limits, rules, s1, Do(ReplyError(0)));
    GivenUpAccount(s1, Id(1), user, stake, balance, [deposit], {Id(0)} + {Id(1)}, 1);
    var s1' := GivenUpOn(s1, 0);
    FirstPasses(limits, s1', user, stake, true, deposit);
    HappensPlaced(limits, rules, s1', Id(2), user, stake, true);
    PlacedAccount(s1', Id(2), user, stake, balance, [deposit], {Id(0)} + {Id(1)}, 1);
    s2 := Placed(s1', Id(2), user, stake);
  }

  // ---------------------------------------------------------------- whole bets, one after the other

  predicate NoneWaits(s: Clocked) {
    forall f | 0 <= f < |s.place.flows| :: s.place.flows[f].stage != Requested
  }

  function Answered(s: Clocked, f: nat, c: CallId): Clocked {
    s.(place := Act(s.place, ReplyOk(f, c)))
  }

  lemma AnsweredAccount(s: Clocked, before: seq<Flow>, flow: Flow, c: CallId, user: UserId, balance: Balance,
                        ledger: seq<Entry>,
                        used: set<Id>, calls: nat)
    requires Account(s, user, balance, ledger, used, calls) && s.place.flows == before + [flow]
    requires flow.stage == Requested
    requires forall f | 0 <= f < |before| :: before[f].stage != Requested
    requires c in s.place.wallet.calls && s.place.wallet.calls[c].request == RequestOf(flow)
    requires Succeeded(s.place.wallet.calls[c].phase)
    ensures var s' := Answered(s, |before|, c);
            Account(s', user, balance, ledger, used, calls) && NoneWaits(s') && s'.now == s.now
  {
    hide Quiet, Ids;
    assert Act(s.place, ReplyOk(|before|, c)) == Advance(s.place, |before|, Debited);
  }

  /** A whole bet: check, outbox row, debit, answer. */
  lemma WholeBet(limits: map<UserId, UserLimits>, rules: Rules, s: Clocked, id: Id, user: UserId, stake: int,
                 sumOk: bool,
                 balance: Balance, ledger: seq<Entry>, used: set<Id>, calls: nat) returns (s': Clocked)
    requires Happens(limits, rules, s) && Account(s, user, balance, ledger, used, calls) && NoneWaits(s)
    requires id != NO_ID && id !in used && user != NO_ID && Passes(limits, s, user, stake, sumOk)
    requires (rules.stakes ==> stake >= 0) && (rules.sums ==> sumOk)
    requires 0 <= balance.available - stake && 0 <= balance.inFlight + stake
    ensures Happens(limits, rules, s') && NoneWaits(s') && s'.now == s.now
    ensures Account(s', user, Less(balance, stake),
                    ledger + [DebitRow(calls, FlowOf(id, user, stake, s.now), s.now)], used + {id}, calls + 1)
  {
    hide Happens, Passes, Busy, Write, Alone, Quiet, Next;
    hide Act, NoneWaits, Account, Placed, Ids, Charged, Answered, FlowOf;
    NotBusy(s, user, balance, ledger, used, calls);
    NoneWaiting(s);
    var n, flow := |s.place.flows|, FlowOf(id, user, stake, s.now);
    HappensPlaced(limits, rules, s, id, user, stake, sumOk);
    PlacedAccount(s, id, user, stake, balance, ledger, used, calls);
    var s1 := Placed(s, id, user, stake);
    IdsUsed(s, user, balance, ledger, used, calls);
    FlowFacts(id, user, stake, s.now);
    HappensCharged(limits, rules, s1, n, calls);
    ChargedAccount(s1, n, user, balance, ledger, used + {id}, calls);
    var s2 := Charged(s1, n, calls);
    HappensAnswered(limits, rules, s2, n, calls);
    AnsweredAccount(s2, s.place.flows, flow, calls, user, Less(balance, stake),
                    ledger + [DebitRow(calls, flow, s.now)], used + {id}, calls + 1);
    s' := Answered(s2, n, calls);
  }

  lemma FlowFacts(id: Id, user: UserId, stake: int, at: Time)
    ensures var flow := FlowOf(id, user, stake, at);
            flow.slip.user == user && flow.slip.stake == stake && flow.tx == id && flow.stage == Requested
  {}

  lemma NotBusy(s: Clocked, user: UserId, balance: Balance, ledger: seq<Entry>, used: set<Id>, calls: nat)
    requires Account(s, user, balance, ledger, used, calls) && NoneWaits(s)
    ensures !Busy(s, user) && s.checked == map[]
  {
    hide Quiet, Ids;
  }

  lemma NoneWaiting(s: Clocked)
    requires NoneWaits(s)
    ensures forall f | 0 <= f < |s.place.flows| :: s.place.flows[f].stage != Requested
  {}

  lemma HappensAnswered(limits: map<UserId, UserLimits>, rules: Rules, s: Clocked, f: nat, c: CallId)
    requires Happens(limits, rules, s)
    ensures Happens(limits, rules, Answered(s, f, c))
  {
    hide Happens, Act;
    HappensNext(limits, rules, s, Do(ReplyOk(f, c)));
  }

  lemma IdsUsed(s: Clocked, user: UserId, balance: Balance, ledger: seq<Entry>, used: set<Id>, calls: nat)
    requires Account(s, user, balance, ledger, used, calls)
    ensures s.checked == map[] && Ids(ledger) <= used && Ledger(s) == ledger
  {}

  /** When the sum query fails, the second of two bets is checked against zero. */
  lemma FailedSumExceedsLimit(limits: map<UserId, UserLimits>, user: UserId, stake: int) returns (s: Clocked)
    requires FitsOnce(limits, user, stake)
    ensures Happens(limits, ALL.(sums := false), s) && TwiceStaked(s, user, stake) && 2 * stake > Cap(limits, user)
  {
    hide Happens, StakedIn, StakedSince, Busy, Account, StartOf;
    var rules, balance := ALL.(sums := false), Balance(2 * stake, 0);
    var s0, deposit := StartOf(user, 2 * stake, Id(0)), DepositRow(user, 2 * stake, Id(0));
    HappensStart(limits, rules, user, 2 * stake, Id(0));
    StartAccount(user, 2 * stake, Id(0));
    IdsUsed(s0, user, balance, [deposit], {Id(0)}, 1);
    FirstPasses(limits, s0, user, stake, true, deposit);
    var s1 := WholeBet(limits, rules, s0, Id(1), user, stake, true, balance, [deposit], {Id(0)}, 1);
    var e := DebitRow(1, FlowOf(Id(1), user, stake, 0), 0);
    assert Less(balance, stake) == Balance(stake, stake);
    assert Passes(limits, s1, user, stake, false);
    s := WholeBet(limits, rules, s1, Id(2), user, stake, false, Balance(stake, stake),
                  [deposit] + [e], {Id(0)} + {Id(1)}, 2);
    var e' := DebitRow(2, FlowOf(Id(2), user, stake, 0), 0);
    IdsUsed(s, user, Less(Balance(stake, stake), stake), [deposit] + [e] + [e'], {Id(0)} + {Id(1)} + {Id(2)}, 3);
    SumsOfTwo(deposit, e, e', user, -1, -1 + DAY);
  }

  lemma HappensTick(limits: map<UserId, UserLimits>, rules: Rules, s: Clocked, elapsed: nat, user: UserId,
                    balance: Balance,
                    ledger: seq<Entry>, used: set<Id>, calls: nat)
    requires Happens(limits, rules, s) && Account(s, user, balance, ledger, used, calls) && NoneWaits(s)
    ensures var s' := s.(now := s.now + elapsed);
            Happens(limits, rules, s') && Account(s', user, balance, ledger, used, calls) && NoneWaits(s')
  {
    HappensNext(limits, rules, s, Tick(elapsed));
    hide Happens, Quiet, Ids;
  }

  lemma SumsAroundNegative(deposit: Entry, e: Entry, minus: Entry, last: Entry, user: UserId, x: int, stake: int)
    requires deposit.kind != Debit && e.kind == minus.kind == last.kind == Debit
    requires e.user == minus.user == last.user == user && e.amount == x && minus.amount == -x && last.amount == stake
    requires e.createdAt == 0 && minus.createdAt == DAY && last.createdAt == DAY + 1
    ensures StakedSince([deposit] + [e], user, DAY - DAY) == 0
    ensures StakedSince([deposit] + [e] + [minus], user, DAY + 1 - DAY) == -x
    ensures StakedIn([deposit] + [e] + [minus] + [last], user, DAY, DAY + DAY) == stake
  {
    OnlyDebitsCount(deposit, user, 0);
    OnlyDebitsCount(deposit, user, 1);
    AppendSince([deposit], e, user, 0);
    AppendSince([deposit], e, user, 1);
    AppendSince([deposit] + [e], minus, user, 1);
    AppendIn([deposit], e, user, DAY, DAY + DAY);
    AppendIn([deposit] + [e], minus, user, DAY, DAY + DAY);
    AppendIn([deposit] + [e] + [minus], last, user, DAY, DAY + DAY);
  }

  /** A negative stake makes room for a bet above the limit. */
  lemma NegativeStakeExceedsLimit(limits: map<UserId, UserLimits>, user: UserId, x: int) returns (s: Clocked)
    requires user != NO_ID && user in limits && 0 < x <= limits[user].daily
    requires limits[user].daily + x <= limits[user].maxSingle
    ensures Happens(limits, ALL.(stakes := false), s)
    ensures StakedIn(Ledger(s), user, DAY, DAY + DAY) == limits[user].daily + x > Cap(limits, user)
  {
    hide Happens, StakedIn, StakedSince, Busy, Account, StartOf, NoneWaits;
    var rules, amount, id := ALL.(stakes := false), limits[user].daily + x, Id(0);
    var s0, deposit := StartOf(user, amount, id), DepositRow(user, amount, id);
    HappensStart(limits, rules, user, amount, id);
    StartAccount(user, amount, id);
    var b0, used := Balance(amount, 0), {Id(0)};
    var e := DebitRow(1, FlowOf(Id(1), user, x, 0), 0);
    var minus := DebitRow(2, FlowOf(Id(2), user, -x, DAY), DAY);
    var last := DebitRow(3, FlowOf(Id(3), user, amount, DAY + 1), DAY + 1);
    SumsAroundNegative(deposit, e, minus, last, user, x, amount);
    IdsUsed(s0, user, b0, [deposit], used, 1);
    OnlyDebitsCount(deposit, user, s0.now - DAY);
    assert NoneWaits(s0) by { EmptyWaits(s0); }
    var s1 := WholeBet(limits, rules, s0, Id(1), user, x, true, b0, [deposit], used, 1);
    HappensTick(limits, rules, s1, DAY, user, Less(b0, x), [deposit] + [e], used + {Id(1)}, 2);
    var s2 := s1.(now := s1.now + DAY);
    IdsUsed(s2, user, Less(b0, x), [deposit] + [e], used + {Id(1)}, 2);
    var s3 := WholeBet(limits, rules, s2, Id(2), user, -x, true, Less(b0, x), [deposit] + [e], used + {Id(1)}, 2);
    assert Less(Less(b0, x), -x) == b0;
    HappensTick(limits, rules, s3, 1, user, b0, [deposit] + [e] + [minus], used + {Id(1)} + {Id(2)}, 3);
    var s4 := s3.(now := s3.now + 1);
    IdsUsed(s4, user, b0, [deposit] + [e] + [minus], used + {Id(1)} + {Id(2)}, 3);
    s := WholeBet(limits, rules, s4, Id(3), user, amount, true, b0,
                  [deposit] + [e] + [minus], used + {Id(1)} + {Id(2)}, 3);
    IdsUsed(s, user, Less(b0, amount), [deposit] + [e] + [minus] + [last], used + {Id(1)} + {Id(2)} + {Id(3)}, 4);
  }

  lemma EmptyWaits(s: Clocked)
    requires s.place.flows == []
    ensures NoneWaits(s)
  {}
}
