/** The rolling 24-hour stake limit over whole runs of placements and wallet statements. */
module DailyLimit {
  import opened Platform
  import opened Wallet
  import opened WalletSafety
  import opened WalletSerial
  import opened Placement
  import opened PlacementSafety
  import opened PlacementTheorems
  import BetFlow
  import BetHistory
  import Outbox

  /** 24 hours, in seconds. */
  const DAY: Time := 86400

  /** GetUserLimits' sum: the user's DEBIT stakes with created_at > now - 24h. Nothing sets a row to CANCELLED. */
  function StakedSince(ledger: seq<Entry>, user: UserId, since: Time): int {
    if ledger == [] then 0
    else
      var e := ledger[|ledger| - 1];
      StakedSince(ledger[..|ledger| - 1], user, since)
      + if e.user == user && e.kind == Debit && e.createdAt > since then e.amount else 0
  }

  /** The user's DEBIT stakes created in (from, to]. */
  function StakedIn(ledger: seq<Entry>, user: UserId, from: Time, to: Time): int {
    if ledger == [] then 0
    else
      var e := ledger[|ledger| - 1];
      StakedIn(ledger[..|ledger| - 1], user, from, to)
      + if e.user == user && e.kind == Debit && from < e.createdAt <= to then e.amount else 0
  }

  datatype UserLimits = UserLimits(maxSingle: int, daily: int)

  /** A PlaceBet call that passed its limit check and has not yet written its outbox row. */
  datatype Intent = Intent(user: UserId, stake: int)

  /** The placement protocol with a clock, and the calls before they enter it. */
  datatype Clocked = Clocked(now: Time, place: World, checked: map<nat, Intent>)

  datatype Move =
    | Tick(elapsed: nat)
    | Check(k: nat, user: UserId, stake: int, sumOk: bool)
    | Start(k: nat, slip: BetHistory.Slip, tx: TxId, outbox: Id)
    | Quit(k: nat)
    | Do(action: Action)

  function Ledger(s: Clocked): seq<Entry> {
    s.place.wallet.ledger
  }

  /** The check of step 4; a failed sum query counts as nothing staked so far. */
  predicate Passes(limits: map<UserId, UserLimits>, s: Clocked, user: UserId, stake: int, sumOk: bool) {
    user in limits &&
    var soFar := if sumOk then StakedSince(Ledger(s), user, s.now - DAY) else 0;
    !BetFlow.CheckLimits(stake, BetFlow.Limits(Some(limits[user].maxSingle), Some(limits[user].daily), Some(soFar)))
  }

  /** NOW() is the start of the wallet's transaction; outbox rows are written by Start. */
  predicate Timely(s: Clocked, a: Action) {
    !a.WriteOutbox? && (a.WalletStep? && a.step.DoBegin? ==> a.step.at == s.now)
  }

  function Next(limits: map<UserId, UserLimits>, s: Clocked, m: Move): Clocked {
    match m
    case Tick(elapsed) => s.(now := s.now + elapsed)
    case Check(k, user, stake, sumOk) =>
      if k in s.checked || !Passes(limits, s, user, stake, sumOk) then s
      else s.(checked := s.checked[k := Intent(user, stake)])
    case Start(k, slip, tx, outbox) =>
      if k !in s.checked || s.checked[k] != Intent(slip.user, slip.stake) then s
      else s.(place := Write(s.place, slip, tx, outbox, s.now), checked := s.checked - {k})
    case Quit(k) => s.(checked := s.checked - {k})
    case Do(a) => if Timely(s, a) then s.(place := Act(s.place, a)) else s
  }

  function Day(limits: map<UserId, UserLimits>, moves: seq<Move>): Clocked {
    if moves == [] then Clocked(0, START, map[])
    else Next(limits, Day(limits, moves[..|moves| - 1]), moves[|moves| - 1])
  }

  /** The user has a call between its limit check and its answer from the wallet. */
  predicate Busy(s: Clocked, user: UserId) {
    || (exists k | k in s.checked :: s.checked[k].user == user)
    || (exists f | 0 <= f < |s.place.flows| ::
          s.place.flows[f].stage == Requested && s.place.flows[f].slip.user == user)
  }

  /** The conditions under which the limit holds; a rule that is off is not asked for. */
  datatype Rules = Rules(stakes: bool, sums: bool, overlap: bool, replies: bool)

  const ALL := Rules(true, true, true, true)

  /**
   `stakes`: stakes are not negative. `sums`: the sum query succeeds. `overlap`:
   a user's calls do not overlap. `replies`: no call ended without knowing what
   became of its debit, and nothing sends the debit again afterwards.
   */
  predicate Orderly(limits: map<UserId, UserLimits>, moves: seq<Move>, rules: Rules) {
    moves == [] ||
    var prefix, m := moves[..|moves| - 1], moves[|moves| - 1];
    Orderly(limits, prefix, rules) && OrderlyMove(Day(limits, prefix), m, rules)
  }

  predicate OrderlyMove(s: Clocked, m: Move, rules: Rules) {
    && (m.Check? && rules.stakes ==> m.stake >= 0)
    && (m.Check? && rules.sums ==> m.sumOk)
    && (m.Check? && rules.overlap ==> !Busy(s, m.user))
    && (m.Do? && rules.replies ==> NothingLost(s.place, m.action))
  }

  function Cap(limits: map<UserId, UserLimits>, user: UserId): int {
    if user in limits && limits[user].daily >= 0 then limits[user].daily else 0
  }

  // ---------------------------------------------------------------- sums

  lemma {:induction false} Later(ledger: seq<Entry>, user: UserId, since: Time, since': Time)
    requires since <= since'
    requires forall i | 0 <= i < |ledger| && ledger[i].kind == Debit :: ledger[i].amount >= 0
    ensures 0 <= StakedSince(ledger, user, since') <= StakedSince(ledger, user, since)
  {
    if ledger != [] {
      Later(ledger[..|ledger| - 1], user, since, since');
    }
  }

  lemma {:induction false} WindowInside(ledger: seq<Entry>, user: UserId, from: Time, to: Time, since: Time)
    requires since <= from
    requires forall i | 0 <= i < |ledger| && ledger[i].kind == Debit :: ledger[i].amount >= 0
    ensures StakedIn(ledger, user, from, to) <= StakedSince(ledger, user, since)
  {
    if ledger != [] {
      WindowInside(ledger[..|ledger| - 1], user, from, to, since);
    }
  }

  lemma AppendSince(ledger: seq<Entry>, e: Entry, user: UserId, since: Time)
    ensures StakedSince(ledger + [e], user, since)
         == StakedSince(ledger, user, since)
            + if e.user == user && e.kind == Debit && e.createdAt > since then e.amount else 0
  {
    assert (ledger + [e])[..|ledger|] == ledger;
  }

  lemma AppendIn(ledger: seq<Entry>, e: Entry, user: UserId, from: Time, to: Time)
    ensures StakedIn(ledger + [e], user, from, to)
         == StakedIn(ledger, user, from, to)
            + if e.user == user && e.kind == Debit && from < e.createdAt <= to then e.amount else 0
  {
    assert (ledger + [e])[..|ledger|] == ledger;
  }


  /** Only the status column differs, or a row is added that debits nothing. */
  ghost predicate SameStakes(ledger: seq<Entry>, ledger': seq<Entry>, user: UserId) {
    && (forall since :: StakedSince(ledger', user, since) == StakedSince(ledger, user, since))
    && (forall from, to :: StakedIn(ledger', user, from, to) == StakedIn(ledger, user, from, to))
  }

  lemma {:induction false} StatusOnly(ledger: seq<Entry>, ledger': seq<Entry>, user: UserId)
    requires |ledger'| == |ledger| && forall i | 0 <= i < |ledger| :: SameEntry(ledger[i], ledger'[i])
    ensures SameStakes(ledger, ledger', user)
  {
    if ledger != [] {
      var n := |ledger| - 1;
      StatusOnly(ledger[..n], ledger'[..n], user);
      assert SameEntry(ledger[n], ledger'[n]);
      forall since ensures StakedSince(ledger', user, since) == StakedSince(ledger, user, since) {
        assert StakedSince(ledger'[..n], user, since) == StakedSince(ledger[..n], user, since);
      }
      forall from, to ensures StakedIn(ledger', user, from, to) == StakedIn(ledger, user, from, to) {
        assert StakedIn(ledger'[..n], user, from, to) == StakedIn(ledger[..n], user, from, to);
      }
    }
  }

  lemma OtherEntry(ledger: seq<Entry>, e: Entry, user: UserId)
    requires e.kind != Debit || e.user != user
    ensures SameStakes(ledger, ledger + [e], user)
  {
    forall since { AppendSince(ledger, e, user, since); }
    forall from, to { AppendIn(ledger, e, user, from, to); }
  }

  // ---------------------------------------------------------------- the invariant

  /** A debit of this stake that starts now or started at `at` stays within the limit of every window it is in. */
  predicate Room(limits: map<UserId, UserLimits>, ledger: seq<Entry>, user: UserId, stake: int, at: Time) {
    StakedSince(ledger, user, at - DAY) + stake <= Cap(limits, user)
  }

  /** When the call's transaction began. */
  function Began(phase: Phase): Option<Time> {
    match phase
    case Begun(at) => Some(at)
    case Locked(at) => Some(at)
    case RowRead(at, _) => Some(at)
    case Updated(at, _, _) => Some(at)
    case Recorded(_, _, Some(e)) => Some(e.createdAt)
    case _ => None
  }

  predicate IntentOk(limits: map<UserId, UserLimits>, s: Clocked, k: nat)
    requires k in s.checked
  {
    var Intent(user, stake) := s.checked[k];
    stake >= 0 && Room(limits, Ledger(s), user, stake, s.now)
  }

  /** No call of this transaction began at a time without room. */
  predicate CallsFit(limits: map<UserId, UserLimits>, w: Wallet.State, flow: Flow, now: Time) {
    forall c | c in w.calls && w.calls[c].request.tx == flow.tx && Began(w.calls[c].phase).Some? ::
      var at := Began(w.calls[c].phase).value;
      at <= now && Room(limits, w.ledger, flow.slip.user, flow.slip.stake, at)
  }

  /** A flow that waits for its wallet answer was debited already or still fits. */
  predicate FlowFits(limits: map<UserId, UserLimits>, w: Wallet.State, flow: Flow, now: Time) {
    flow.slip.stake >= 0 &&
    (flow.tx in Ids(w.ledger)
     || (Room(limits, w.ledger, flow.slip.user, flow.slip.stake, now) && CallsFit(limits, w, flow, now)))
  }

  predicate Waits(flows: seq<Flow>, f: int, user: UserId) {
    0 <= f < |flows| && flows[f].stage == Requested && flows[f].slip.user == user
  }

  /** A user has one call at a time. */
  predicate OneAtATime(checked: map<nat, Intent>, flows: seq<Flow>) {
    && (forall k, l | k in checked && l in checked && k != l :: checked[k].user != checked[l].user)
    && (forall k, f | k in checked && 0 <= f < |flows| :: !Waits(flows, f, checked[k].user))
    && (forall f, g | 0 <= f < |flows| && 0 <= g < |flows| && flows[f].stage == Requested
                      && Waits(flows, g, flows[f].slip.user) :: f == g)
  }

  predicate DebitsPositive(ledger: seq<Entry>) {
    forall i | 0 <= i < |ledger| && ledger[i].kind == Debit :: ledger[i].amount >= 0
  }

  predicate WindowOk(limits: map<UserId, UserLimits>, ledger: seq<Entry>, user: UserId, from: Time) {
    StakedIn(ledger, user, from, from + DAY) <= Cap(limits, user)
  }

  ghost predicate WindowsOk(limits: map<UserId, UserLimits>, ledger: seq<Entry>) {
    forall user, from :: WindowOk(limits, ledger, user, from)
  }

  ghost predicate PlaceOk(s: World) {
    WorldOk(s) && GivenUpUnpaid(s)
  }

  ghost predicate FlowsFit(limits: map<UserId, UserLimits>, s: Clocked) {
    && (forall k | k in s.checked :: IntentOk(limits, s, k))
    && (forall f | 0 <= f < |s.place.flows| && s.place.flows[f].stage == Requested ::
          FlowFits(limits, s.place.wallet, s.place.flows[f], s.now))
  }

  ghost predicate DayOk(limits: map<UserId, UserLimits>, s: Clocked) {
    && PlaceOk(s.place) && OneAtATime(s.checked, s.place.flows) && FlowsFit(limits, s)
    && DebitsPositive(Ledger(s)) && WindowsOk(limits, Ledger(s))
  }

  lemma LessLater(limits: map<UserId, UserLimits>, ledger: seq<Entry>, user: UserId, stake: int, at: Time, at': Time)
    requires DebitsPositive(ledger) && at <= at' && Room(limits, ledger, user, stake, at)
    ensures Room(limits, ledger, user, stake, at')
  {
    Later(ledger, user, at - DAY, at' - DAY);
  }

  lemma TickKeeps(limits: map<UserId, UserLimits>, s: Clocked, elapsed: nat)
    requires DayOk(limits, s)
    ensures DayOk(limits, s.(now := s.now + elapsed))
  {
    hide PlaceOk, Room, Waits;
    var s' := s.(now := s.now + elapsed);
    forall k | k in s'.checked ensures IntentOk(limits, s', k) {
      LessLater(limits, Ledger(s), s.checked[k].user, s.checked[k].stake, s.now, s'.now);
    }
    forall f | 0 <= f < |s.place.flows| && s.place.flows[f].stage == Requested
      ensures FlowFits(limits, s.place.wallet, s.place.flows[f], s'.now)
    {
      var flow := s.place.flows[f];
      assert FlowFits(limits, s.place.wallet, flow, s.now);
      if flow.tx !in Ids(s.place.wallet.ledger) {
        LessLater(limits, Ledger(s), flow.slip.user, flow.slip.stake, s.now, s'.now);
      }
    }
  }

  lemma CheckKeeps(limits: map<UserId, UserLimits>, s: Clocked, k: nat, user: UserId, stake: int)
    requires DayOk(limits, s) && k !in s.checked && stake >= 0 && !Busy(s, user) && Passes(limits, s, user, stake, true)
    ensures DayOk(limits, s.(checked := s.checked[k := Intent(user, stake)]))
  {
    hide PlaceOk, FlowFits, WindowsOk, DebitsPositive;
    var s' := s.(checked := s.checked[k := Intent(user, stake)]);
    assert IntentOk(limits, s', k);
    forall l | l in s'.checked ensures IntentOk(limits, s', l) {
      assert l != k ==> IntentOk(limits, s, l);
    }
  }

  lemma QuitKeeps(limits: map<UserId, UserLimits>, s: Clocked, k: nat)
    requires DayOk(limits, s)
    ensures DayOk(limits, s.(checked := s.checked - {k}))
  {
    hide PlaceOk, FlowFits, WindowsOk, DebitsPositive, Room;
    var s' := s.(checked := s.checked - {k});
    forall l | l in s'.checked ensures IntentOk(limits, s', l) {
      assert IntentOk(limits, s, l);
    }
  }

  lemma WritePlaceOk(s: World, slip: BetHistory.Slip, tx: TxId, outbox: Id, at: Time)
    requires PlaceOk(s)
    ensures PlaceOk(Write(s, slip, tx, outbox, at))
  {
    FaithfulStep(s, WriteOutbox(slip, tx, outbox, at));
    StepKeeps(s, WriteOutbox(slip, tx, outbox, at));
    hide WorldOk, GivenUpUnpaid, Write;
  }

  lemma OneMore(checked: map<nat, Intent>, flows: seq<Flow>, k: nat, flow: Flow)
    requires OneAtATime(checked, flows) && k in checked && checked[k].user == flow.slip.user
    ensures OneAtATime(checked - {k}, flows + [flow])
  {
    var user, checked', flows' := flow.slip.user, checked - {k}, flows + [flow];
    forall f | 0 <= f < |flows| ensures !(flows[f].stage == Requested && flows[f].slip.user == user) {
      assert !Waits(flows, f, user);
    }
    forall l, f | l in checked' && 0 <= f < |flows'| ensures !Waits(flows', f, checked'[l].user) {
      assert f < |flows| ==> !Waits(flows, f, checked[l].user);
    }
    forall f, g | 0 <= f < |flows'| && 0 <= g < |flows'| && flows'[f].stage == Requested
                  && Waits(flows', g, flows'[f].slip.user)
      ensures f == g
    {
      assert f < |flows| && g < |flows| ==> Waits(flows, g, flows[f].slip.user);
    }
  }

  lemma NewFlowFits(limits: map<UserId, UserLimits>, s: Clocked, k: nat, flow: Flow)
    requires FlowsFit(limits, s) && k in s.checked && s.checked[k] == Intent(flow.slip.user, flow.slip.stake)
    requires forall c | c in s.place.wallet.calls :: s.place.wallet.calls[c].request.tx != flow.tx
    ensures FlowFits(limits, s.place.wallet, flow, s.now)
    ensures forall l | l in s.checked - {k} :: IntentOk(limits, s, l)
  {
    hide Ids, StakedSince;
    assert IntentOk(limits, s, k);
    assert CallsFit(limits, s.place.wallet, flow, s.now);
  }

  lemma StartKeeps(limits: map<UserId, UserLimits>, s: Clocked, k: nat, slip: BetHistory.Slip, tx: TxId, outbox: Id)
    requires DayOk(limits, s) && k in s.checked && s.checked[k] == Intent(slip.user, slip.stake)
    requires Fresh(s.place, slip.bet, tx, outbox)
    ensures DayOk(limits, s.(place := Write(s.place, slip, tx, outbox, s.now), checked := s.checked - {k}))
  {
    hide WorldOk, GivenUpUnpaid, WindowsOk, DebitsPositive, Room, FlowFits, OneAtATime, Ids;
    var flow, place := Flow(slip, tx, outbox, s.now, Requested), Write(s.place, slip, tx, outbox, s.now);
    assert place.flows == s.place.flows + [flow] && place.wallet == s.place.wallet;
    WritePlaceOk(s.place, slip, tx, outbox, s.now);
    OneMore(s.checked, s.place.flows, k, flow);
    NewFlowFits(limits, s, k, flow);
    hide PlaceOk, Write, Fresh;
    StartFits(limits, s, k, flow, place);
  }

  lemma StartFits(limits: map<UserId, UserLimits>, s: Clocked, k: nat, flow: Flow, place: World)
    requires FlowsFit(limits, s) && place.wallet == s.place.wallet && place.flows == s.place.flows + [flow]
    requires FlowFits(limits, s.place.wallet, flow, s.now)
    ensures FlowsFit(limits, s.(place := place, checked := s.checked - {k}))
  {
    hide FlowFits, Room;
    var s' := s.(place := place, checked := s.checked - {k});
    forall l | l in s'.checked ensures IntentOk(limits, s', l) {
      assert IntentOk(limits, s, l);
    }
  }

  // ---------------------------------------------------------------- steps inside the protocol

  /** Flows that wait for the wallet were waiting before. */
  predicate NoneStarts(flows: seq<Flow>, flows': seq<Flow>) {
    |flows'| == |flows| && forall f | 0 <= f < |flows| && flows'[f].stage == Requested :: flows'[f] == flows[f]
  }

  lemma OtherAction(s: World, a: Action)
    requires !a.WalletStep? && !a.WriteOutbox?
    ensures NoneStarts(s.flows, Act(s, a).flows) && Act(s, a).wallet == s.wallet
  {
    hide Fresh, Fits, Wallet.Apply, Outbox.MarkedReady, Outbox.MarkedCancelled, Outbox.MarkedPublished;
  }

  lemma FewerWait(checked: map<nat, Intent>, flows: seq<Flow>, flows': seq<Flow>)
    requires OneAtATime(checked, flows) && NoneStarts(flows, flows')
    ensures OneAtATime(checked, flows')
  {
    assert forall f, user | 0 <= f < |flows'| :: Waits(flows', f, user) ==> Waits(flows, f, user);
  }

  lemma ActPlaceOk(s: World, a: Action)
    requires PlaceOk(s) && NothingLost(s, a)
    ensures PlaceOk(Act(s, a))
  {
    FaithfulStep(s, a);
    StepKeeps(s, a);
    hide WorldOk, GivenUpUnpaid, Act;
  }

  lemma OtherFits(limits: map<UserId, UserLimits>, s: Clocked, place: World)
    requires FlowsFit(limits, s) && place.wallet == s.place.wallet && NoneStarts(s.place.flows, place.flows)
    ensures FlowsFit(limits, s.(place := place))
  {
    hide FlowFits, Room;
    forall k | k in s.checked ensures IntentOk(limits, s.(place := place), k) {
      assert IntentOk(limits, s, k);
    }
  }

  lemma OtherKeeps(limits: map<UserId, UserLimits>, s: Clocked, a: Action)
    requires DayOk(limits, s) && NothingLost(s.place, a) && !a.WalletStep? && !a.WriteOutbox?
    ensures DayOk(limits, s.(place := Act(s.place, a)))
  {
    hide Act, PlaceOk, FlowsFit, OneAtATime, NothingLost, WindowsOk, DebitsPositive;
    OtherAction(s.place, a);
    ActPlaceOk(s.place, a);
    FewerWait(s.checked, s.place.flows, Act(s.place, a).flows);
    OtherFits(limits, s, Act(s.place, a));
  }

  /** A call's start never changes, and a start that appears is now. */
  predicate BeganKept(w: Wallet.State, w': Wallet.State, c: CallId, now: Time)
    requires c in w'.calls
  {
    var began := Began(w'.calls[c].phase);
    began.Some? ==> began.value == now
                    || (c in w.calls && w.calls[c].request == w'.calls[c].request && Began(w.calls[c].phase) == began)
  }

  lemma ReadPhase(w: Wallet.State, c: CallId)
    requires c in w.calls
    ensures c in ReadRow(w, c).calls
    ensures var p, p' := w.calls[c].phase, ReadRow(w, c).calls[c].phase;
            p' == p || p'.Finished? || (p.Locked? && p'.RowRead? && p'.at == p.at)
  {
    hide Without;
  }

  lemma UpdatePhase(w: Wallet.State, c: CallId)
    requires c in w.calls
    ensures c in UpdateRow(w, c).calls
    ensures var p, p' := w.calls[c].phase, UpdateRow(w, c).calls[c].phase;
            p' == p || p'.Finished? || ((p.Begun? || p.Locked? || p.RowRead?) && p'.Updated? && p'.at == p.at)
  {
    hide Without, RowDelta, RowOr;
  }

  lemma RecordPhase(w: Wallet.State, c: CallId)
    requires c in w.calls
    ensures c in Record(w, c).calls
    ensures var p, p' := w.calls[c].phase, Record(w, c).calls[c].phase;
            p' == p || p'.Finished?
            || (p.Updated? && p'.Recorded? && (p'.entry.Some? ==> p'.entry.value.createdAt == p.at))
  {
    hide Without, Ids;
    var Call(r, phase) := w.calls[c];
    if !phase.Updated? || !Free(w.keyLocks, r.tx, c) {
      assert Record(w, c) == w;
    } else if r.tx in Ids(w.ledger) {
      assert Record(w, c).calls[c].phase.Finished? || Record(w, c).calls[c].phase.entry.None?;
    } else if phase.row.None? && r.user !in w.balances {
      assert Record(w, c).calls[c].phase.Finished?;
    } else {
      assert Record(w, c).calls[c].phase.entry == Some(EntryOf(c, r, phase.at));
    }
  }

  lemma LookUpBegan(w: Wallet.State, c: CallId, now: Time)
    requires c in w.calls
    ensures c in LookUp(w, c).calls && BeganKept(w, LookUp(w, c), c, now)
  {
    hide Ids, Without;
  }

  lemma LookUpErrorBegan(w: Wallet.State, c: CallId, now: Time)
    requires c in w.calls
    ensures c in LookUpError(w, c).calls && BeganKept(w, LookUpError(w, c), c, now)
  {
    hide Without;
  }

  lemma BeginBegan(w: Wallet.State, c: CallId, key: int, now: Time)
    requires c in w.calls
    ensures c in Begin(w, c, now).calls && BeganKept(w, Begin(w, c, now), c, now)
    ensures c in Lock(w, c, key).calls && BeganKept(w, Lock(w, c, key), c, now)
  {
    hide Without;
  }

  lemma EndBegan(w: Wallet.State, c: CallId, now: Time)
    requires c in w.calls
    ensures c in CommitTx(w, c).calls && BeganKept(w, CommitTx(w, c), c, now)
    ensures c in Abort(w, c).calls && BeganKept(w, Abort(w, c), c, now)
  {
    hide Without;
  }

  lemma PhaseBegan(w: Wallet.State, w': Wallet.State, c: CallId, now: Time)
    requires c in w.calls && c in w'.calls && w'.calls[c].request == w.calls[c].request
    requires var p, p' := w.calls[c].phase, w'.calls[c].phase;
             || p' == p || p'.Finished?
             || (p.Locked? && p'.RowRead? && p'.at == p.at)
             || ((p.Begun? || p.Locked? || p.RowRead?) && p'.Updated? && p'.at == p.at)
             || (p.Updated? && p'.Recorded? && (p'.entry.Some? ==> p'.entry.value.createdAt == p.at))
    ensures BeganKept(w, w', c, now)
  {}

  lemma MovedBegan(w: Wallet.State, step: Wallet.Step, now: Time)
    requires !step.DoReceive? && !step.DoConfirm? && step.c in w.calls
    requires step.DoBegin? ==> step.at == now
    ensures step.c in Wallet.Apply(w, step).calls && BeganKept(w, Wallet.Apply(w, step), step.c, now)
  {
    hide ReadRow, UpdateRow, Record, BeganKept, LookUp, LookUpError, Begin, Lock, CommitTx, Abort;
    WalletTheorems.StepExtends(w, step);
    match step
    case DoReadRow(c) =>
      ReadPhase(w, c);
      PhaseBegan(w, ReadRow(w, c), c, now);
    case DoUpdateRow(c) =>
      UpdatePhase(w, c);
      PhaseBegan(w, UpdateRow(w, c), c, now);
    case DoRecord(c) =>
      RecordPhase(w, c);
      PhaseBegan(w, Record(w, c), c, now);
    case DoLookUp(c) => LookUpBegan(w, c, now);
    case DoLookUpError(c) => LookUpErrorBegan(w, c, now);
    case DoBegin(c, _) => BeginBegan(w, c, 0, now);
    case DoLock(c, key) => BeginBegan(w, c, key, now);
    case DoCommit(c) => EndBegan(w, c, now);
    case DoAbort(c) => EndBegan(w, c, now);
  }

  lemma ReceivedBegan(w: Wallet.State, d: CallId, r: Wallet.Request, c: CallId, now: Time)
    requires c in Receive(w, d, r).calls
    ensures BeganKept(w, Receive(w, d, r), c, now)
  {}

  lemma OtherBegan(w: Wallet.State, w': Wallet.State, step: Wallet.Step, c: CallId, now: Time)
    requires WalletTheorems.Extends(w, w', step) && c in w'.calls
    requires !step.DoReceive? && (step.DoConfirm? || c != step.c)
    ensures BeganKept(w, w', c, now)
  {}

  lemma StepBegan(w: Wallet.State, step: Wallet.Step, now: Time, c: CallId)
    requires step.DoBegin? ==> step.at == now
    requires c in Wallet.Apply(w, step).calls
    ensures BeganKept(w, Wallet.Apply(w, step), c, now)
  {
    if step.DoReceive? {
      ReceivedBegan(w, step.c, step.request, c, now);
    } else {
      hide Wallet.Apply, BeganKept;
      WalletTheorems.StepExtends(w, step);
      if step.DoConfirm? || c != step.c {
        OtherBegan(w, Wallet.Apply(w, step), step, c, now);
      } else {
        MovedBegan(w, step, now);
      }
    }
  }

  /** The ledger changes in its status column only, or a commit appends the row it prepared. */
  lemma LedgerCases(w: Wallet.State, step: Wallet.Step)
    ensures var w' := Wallet.Apply(w, step);
            || (|w'.ledger| == |w.ledger| && forall i | 0 <= i < |w.ledger| :: SameEntry(w.ledger[i], w'.ledger[i]))
            || (step.DoCommit? && step.c in w.calls && w.calls[step.c].phase.Recorded?
                  && w.calls[step.c].phase.entry.Some?
                && w'.ledger == w.ledger + [w.calls[step.c].phase.entry.value])
  {
    if !step.DoCommit? {
      LedgerKept(w, step);
    }
    hide ReadRow, UpdateRow, Record, Ids, Without, LookUp, Begin, Lock, Abort;
  }

  lemma FitsKept(limits: map<UserId, UserLimits>, w: Wallet.State, w': Wallet.State, flow: Flow, now: Time)
    requires FlowFits(limits, w, flow, now)
    requires SameStakes(w.ledger, w'.ledger, flow.slip.user) && Ids(w.ledger) <= Ids(w'.ledger)
    requires forall c | c in w'.calls :: BeganKept(w, w', c, now)
    ensures FlowFits(limits, w', flow, now)
  {
    hide Ids, StakedSince, StakedIn, Began;
    if flow.tx !in Ids(w'.ledger) {
      forall c | c in w'.calls && w'.calls[c].request.tx == flow.tx && Began(w'.calls[c].phase).Some?
        ensures var at := Began(w'.calls[c].phase).value;
                at <= now && Room(limits, w'.ledger, flow.slip.user, flow.slip.stake, at)
      {
        assert BeganKept(w, w', c, now);
      }
    }
  }

  /** A wallet statement that adds no debit. */
  lemma QuietStatement(limits: map<UserId, UserLimits>, s: Clocked, w': Wallet.State)
    requires FlowsFit(limits, s) && DebitsPositive(Ledger(s)) && WindowsOk(limits, Ledger(s))
    requires forall user :: SameStakes(Ledger(s), w'.ledger, user)
    requires Ids(Ledger(s)) <= Ids(w'.ledger) && forall c | c in w'.calls :: BeganKept(s.place.wallet, w', c, s.now)
    ensures FlowsFit(limits, s.(place := s.place.(wallet := w'))) && WindowsOk(limits, w'.ledger)
  {
    hide Ids, StakedSince, StakedIn, FlowFits, BeganKept;
    var s' := s.(place := s.place.(wallet := w'));
    forall k | k in s.checked ensures IntentOk(limits, s', k) {
      assert IntentOk(limits, s, k) && SameStakes(Ledger(s), w'.ledger, s.checked[k].user);
    }
    forall f | 0 <= f < |s.place.flows| && s.place.flows[f].stage == Requested
      ensures FlowFits(limits, w', s.place.flows[f], s.now)
    {
      FitsKept(limits, s.place.wallet, w', s.place.flows[f], s.now);
    }
    forall user, from ensures WindowOk(limits, w'.ledger, user, from) {
      assert WindowOk(limits, Ledger(s), user, from) && SameStakes(Ledger(s), w'.ledger, user);
    }
  }

  /** The prepared debit that a commit stores belongs to a flow that waits and still has room. */
  lemma DebitFits(limits: map<UserId, UserLimits>, s: Clocked, c: CallId, f: nat)
    requires DayOk(limits, s) && f < |s.place.flows|
    requires c in s.place.wallet.calls && s.place.wallet.calls[c].phase.Recorded?
    requires s.place.wallet.calls[c].phase.entry.Some?
    requires s.place.wallet.calls[c].request == RequestOf(s.place.flows[f])
    ensures s.place.flows[f].stage == Requested && s.place.flows[f].slip.stake >= 0
    ensures var e, slip := s.place.wallet.calls[c].phase.entry.value, s.place.flows[f].slip;
            && e.tx == s.place.flows[f].tx && e.kind == Debit && e.user == slip.user && e.amount == slip.stake
            && Room(limits, Ledger(s), slip.user, slip.stake, e.createdAt)
  {
    hide WindowsOk, OneAtATime, RowsOk, PipeOk, HistoryRowsOk, Room, Ids;
    var w, flow := s.place.wallet, s.place.flows[f];
    assert CallOk(w, c);
    assert flow.tx !in Ids(w.ledger);
    assert flow.stage != Debited && flow.stage != Accepted;
    assert !Unpaid(w, flow.tx);
    assert !GivenUp(flow.stage);
    assert FlowFits(limits, w, flow, s.now);
    assert Began(w.calls[c].phase) == Some(w.calls[c].phase.entry.value.createdAt);
  }

  lemma StoredWindows(limits: map<UserId, UserLimits>, ledger: seq<Entry>, e: Entry)
    requires WindowsOk(limits, ledger) && DebitsPositive(ledger) && e.kind == Debit && e.amount >= 0
    requires Room(limits, ledger, e.user, e.amount, e.createdAt)
    ensures WindowsOk(limits, ledger + [e]) && DebitsPositive(ledger + [e])
  {
    forall user, from ensures WindowOk(limits, ledger + [e], user, from) {
      assert WindowOk(limits, ledger, user, from);
      AppendIn(ledger, e, user, from, from + DAY);
      if e.user == user && from < e.createdAt <= from + DAY {
        WindowInside(ledger, user, from, from + DAY, e.createdAt - DAY);
      }
    }
  }

  /** A wallet statement that stores the debit of flow f. */
  lemma DebitStatement(limits: map<UserId, UserLimits>, s: Clocked, w': Wallet.State, e: Entry, f: nat)
    requires FlowsFit(limits, s) && OneAtATime(s.checked, s.place.flows)
    requires w'.ledger == Ledger(s) + [e] && e.kind == Debit
    requires f < |s.place.flows| && s.place.flows[f].stage == Requested
    requires e.tx == s.place.flows[f].tx && e.user == s.place.flows[f].slip.user && s.place.flows[f].slip.stake >= 0
    requires Ids(Ledger(s)) <= Ids(w'.ledger) && forall c | c in w'.calls :: BeganKept(s.place.wallet, w', c, s.now)
    ensures FlowsFit(limits, s.(place := s.place.(wallet := w')))
  {
    var s', flows := s.(place := s.place.(wallet := w')), s.place.flows;
    assert w'.ledger[|Ledger(s)|].tx == e.tx && e.tx in Ids(w'.ledger);
    hide Ids, StakedSince, StakedIn, BeganKept;
    forall k | k in s.checked ensures IntentOk(limits, s', k) {
      assert IntentOk(limits, s, k) && !Waits(flows, f, s.checked[k].user);
      OtherEntry(Ledger(s), e, s.checked[k].user);
    }
    forall g | 0 <= g < |flows| && flows[g].stage == Requested ensures FlowFits(limits, w', flows[g], s.now) {
      assert FlowFits(limits, s.place.wallet, flows[g], s.now);
      if g != f {
        assert !Waits(flows, g, flows[f].slip.user);
        OtherEntry(Ledger(s), e, flows[g].slip.user);
        FitsKept(limits, s.place.wallet, w', flows[g], s.now);
      }
    }
  }

  lemma PreparedByFlow(s: World, c: CallId) returns (f: nat)
    requires WorldOk(s) && c in s.wallet.calls
    requires s.wallet.calls[c].phase.Recorded? && s.wallet.calls[c].phase.entry.Some?
    requires s.wallet.calls[c].phase.entry.value.kind == Debit
    ensures f < |s.flows| && RequestOf(s.flows[f]) == s.wallet.calls[c].request
  {
    hide RowsOk, PipeOk, HistoryRowsOk, DebitsOk;
    var r := s.wallet.calls[c].request;
    assert CallOk(s.wallet, c) && Fits(s.flows, r);
    hide Inv;
    f :| 0 <= f < |s.flows| && RequestOf(s.flows[f]) == r;
  }

  lemma CommittedDebit(limits: map<UserId, UserLimits>, s: Clocked, w': Wallet.State, c: CallId, e: Entry)
    requires DayOk(limits, s) && c in s.place.wallet.calls && e.kind == Debit
    requires s.place.wallet.calls[c].phase.Recorded? && s.place.wallet.calls[c].phase.entry == Some(e)
    requires w'.ledger == Ledger(s) + [e] && Ids(Ledger(s)) <= Ids(w'.ledger)
    requires forall d | d in w'.calls :: BeganKept(s.place.wallet, w', d, s.now)
    ensures FlowsFit(limits, s.(place := s.place.(wallet := w'))) && WindowsOk(limits, w'.ledger)
    ensures DebitsPositive(w'.ledger)
  {
    hide WorldOk, GivenUpUnpaid, Ids, Room, BeganKept;
    var f := PreparedByFlow(s.place, c);
    DebitFits(limits, s, c, f);
    hide PlaceOk;
    DebitStatement(limits, s, w', e, f);
    StoredWindows(limits, Ledger(s), e);
  }

  /** What one wallet statement does to the ledger and to the calls, seen at time `now`. */
  ghost predicate Statement(w: Wallet.State, w': Wallet.State, c: CallId, now: Time) {
    && Ids(w.ledger) <= Ids(w'.ledger)
    && (forall d | d in w'.calls :: BeganKept(w, w', d, now))
    && (|| (|w'.ledger| == |w.ledger| && forall i | 0 <= i < |w.ledger| :: SameEntry(w.ledger[i], w'.ledger[i]))
        || (c in w.calls && w.calls[c].phase.Recorded? && w.calls[c].phase.entry.Some?
            && w'.ledger == w.ledger + [w.calls[c].phase.entry.value]))
  }

  lemma IsStatement(w: Wallet.State, step: Wallet.Step, now: Time)
    requires Inv(w) && (step.DoBegin? ==> step.at == now)
    ensures Statement(w, Wallet.Apply(w, step), if step.DoConfirm? then 0 else step.c, now)
  {
    LedgerGrows(w, step);
    LedgerCases(w, step);
    hide Inv, Wallet.Apply, Ids, BeganKept;
    forall c | c in Wallet.Apply(w, step).calls { StepBegan(w, step, now, c); }
  }

  lemma StatementFits(limits: map<UserId, UserLimits>, s: Clocked, w': Wallet.State, c: CallId)
    requires DayOk(limits, s) && Statement(s.place.wallet, w', c, s.now)
    ensures FlowsFit(limits, s.(place := s.place.(wallet := w'))) && WindowsOk(limits, w'.ledger)
    ensures DebitsPositive(w'.ledger)
  {
    hide PlaceOk, FlowsFit, OneAtATime, WindowsOk, Ids, BeganKept;
    var w := s.place.wallet;
    if |w'.ledger| == |w.ledger| {
      forall user { StatusOnly(w.ledger, w'.ledger, user); }
      QuietStatement(limits, s, w');
    } else {
      var e := w.calls[c].phase.entry.value;
      if e.kind == Debit {
        CommittedDebit(limits, s, w', c, e);
      } else {
        forall user { OtherEntry(w.ledger, e, user); }
        QuietStatement(limits, s, w');
      }
    }
  }

  lemma StatementKeeps(limits: map<UserId, UserLimits>, s: Clocked, step: Wallet.Step)
    requires DayOk(limits, s) && NothingLost(s.place, WalletStep(step))
    requires step.DoReceive? ==> Fits(s.place.flows, step.request)
    requires step.DoBegin? ==> step.at == s.now
    ensures DayOk(limits, s.(place := s.place.(wallet := Wallet.Apply(s.place.wallet, step))))
  {
    ActPlaceOk(s.place, WalletStep(step));
    IsStatement(s.place.wallet, step, s.now);
    hide WorldOk, GivenUpUnpaid, Wallet.Apply, FlowsFit, OneAtATime;
    hide WindowsOk, DebitsPositive, NothingLost, Fits, Statement;
    StatementFits(limits, s, Wallet.Apply(s.place.wallet, step), if step.DoConfirm? then 0 else step.c);
  }

  lemma NextKeeps(limits: map<UserId, UserLimits>, s: Clocked, m: Move)
    requires DayOk(limits, s) && OrderlyMove(s, m, ALL)
    ensures DayOk(limits, Next(limits, s, m))
  {
    hide DayOk, Passes, Write, Act, Busy, NothingLost, Fits, Fresh;
    match m
    case Tick(elapsed) => TickKeeps(limits, s, elapsed);
    case Check(k, user, stake, sumOk) =>
      if k !in s.checked && Passes(limits, s, user, stake, sumOk) {
        CheckKeeps(limits, s, k, user, stake);
      }
    case Start(k, slip, tx, outbox) =>
      if k in s.checked && s.checked[k] == Intent(slip.user, slip.stake) {
        if Fresh(s.place, slip.bet, tx, outbox) {
          StartKeeps(limits, s, k, slip, tx, outbox);
        } else {
          StaleStart(s.place, slip, tx, outbox, s.now);
          QuitKeeps(limits, s, k);
        }
      }
    case Quit(k) => QuitKeeps(limits, s, k);
    case Do(a) => if Timely(s, a) { ActKeeps(limits, s, a); }
  }

  lemma StaleStart(s: World, slip: BetHistory.Slip, tx: TxId, outbox: Id, at: Time)
    requires !Fresh(s, slip.bet, tx, outbox)
    ensures Write(s, slip, tx, outbox, at) == s
  {}

  lemma ActKeeps(limits: map<UserId, UserLimits>, s: Clocked, a: Action)
    requires DayOk(limits, s) && NothingLost(s.place, a) && Timely(s, a)
    ensures DayOk(limits, s.(place := Act(s.place, a)))
  {
    if a.WalletStep? {
      hide DayOk, NothingLost, Fits, Wallet.Apply;
      if !a.step.DoReceive? || Fits(s.place.flows, a.step.request) {
        StatementKeeps(limits, s, a.step);
      }
    } else {
      OtherKeeps(limits, s, a);
    }
  }

  lemma StartOfDay(limits: map<UserId, UserLimits>)
    ensures DayOk(limits, Clocked(0, START, map[]))
  {
    StartOk();
  }

  lemma {:induction false} DayRuns(limits: map<UserId, UserLimits>, moves: seq<Move>)
    requires Orderly(limits, moves, ALL)
    ensures DayOk(limits, Day(limits, moves))
  {
    if moves == [] {
      StartOfDay(limits);
    } else {
      hide DayOk, OrderlyMove, Next;
      DayRuns(limits, moves[..|moves| - 1]);
      NextKeeps(limits, Day(limits, moves[..|moves| - 1]), moves[|moves| - 1]);
    }
  }

  /** In every 24-hour window of an orderly run the user's debits sum to at most the daily limit. */
  lemma EveryWindowWithinLimit(limits: map<UserId, UserLimits>, moves: seq<Move>, user: UserId, from: Time)
    requires Orderly(limits, moves, ALL)
    ensures StakedIn(Ledger(Day(limits, moves)), user, from, from + 86400) <= Cap(limits, user)
    ensures Cap(limits, user) == if user in limits && limits[user].daily >= 0 then limits[user].daily else 0
  {
    DayRuns(limits, moves);
    hide PlaceOk, FlowsFit, OneAtATime, Day, Orderly;
    assert WindowOk(limits, Ledger(Day(limits, moves)), user, from);
  }
}
