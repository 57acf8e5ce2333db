/** The bet-history read model and its at-least-once event handlers. */
module BetHistory {
  import opened Platform

  /** What a bet slip says; the outbox payload fixes it once and for all. */
  datatype Slip = Slip(bet: BetId, user: UserId, market: Id, selection: Id, decimal: real, american: int, stake: int)

  datatype BetStatus = Placed | SettledWin | SettledLoss | Void

  datatype BetRow = BetRow(slip: Slip, placedAt: Time, status: BetStatus, settledAt: Option<Time>, payout: Option<int>)

  /**
   `placedAt` is None when the payload's time does not parse: the handler then
   uses its own clock, `now`. `tx` is the optional transaction_id header.
   */
  datatype Event =
    | BetPlaced(slip: Slip, placedAt: Option<Time>, now: Time, tx: Option<TxId>)
    | BetSettled(bet: BetId, win: bool, settledAt: Time, payoutMinor: int)
    | BetVoided(bet: BetId, voidedAt: Time)

  function PlacedTime(e: Event): Time
    requires e.BetPlaced?
  {
    if e.placedAt.Some? then e.placedAt.value else e.now
  }

  predicate HasKey(rows: seq<BetRow>, bet: BetId, at: Time) {
    exists i :: 0 <= i < |rows| && rows[i].slip.bet == bet && rows[i].placedAt == at
  }

  /** INSERT ... ON CONFLICT (bet_id, placed_at) DO NOTHING. */
  function Insert(rows: seq<BetRow>, slip: Slip, at: Time): seq<BetRow> {
    if HasKey(rows, slip.bet, at) then rows else rows + [BetRow(slip, at, Placed, None, None)]
  }

  function SettledRow(row: BetRow, e: Event): BetRow
    requires e.BetSettled?
  {
    row.(status := if e.win then SettledWin else SettledLoss, settledAt := Some(e.settledAt),
         payout := Some(e.payoutMinor))
  }

  function VoidedRow(row: BetRow, e: Event): BetRow
    requires e.BetVoided?
  {
    row.(status := Void, settledAt := Some(e.voidedAt))
  }

  /** What an outcome event makes of a row of its bet, column by column. */
  predicate OutcomeShown(row: BetRow, row': BetRow, e: Event) {
    && row'.slip == row.slip && row'.placedAt == row.placedAt
    && match e
       case BetPlaced(_, _, _, _) => false
       case BetSettled(_, win, settledAt, payout) =>
         && row'.status == (if win then SettledWin else SettledLoss)
         && row'.settledAt == Some(settledAt) && row'.payout == Some(payout)
       case BetVoided(_, voidedAt) =>
         row'.status == Void && row'.settledAt == Some(voidedAt) && row'.payout == row.payout
  }

  function UpdatedRow(row: BetRow, e: Event): BetRow {
    match e
    case BetPlaced(_, _, _, _) => row
    case BetSettled(bet, _, _, _) => if row.slip.bet == bet then SettledRow(row, e) else row
    case BetVoided(bet, _) => if row.slip.bet == bet then VoidedRow(row, e) else row
  }

  /** The table after one handled event. */
  function Handle(rows: seq<BetRow>, e: Event): seq<BetRow> {
    if e.BetPlaced? then Insert(rows, e.slip, PlacedTime(e))
    else seq(|rows|, i requires 0 <= i < |rows| => UpdatedRow(rows[i], e))
  }

  /** The table after a whole run of deliveries, oldest first. */
  function Table(events: seq<Event>): seq<BetRow> {
    if events == [] then [] else Handle(Table(events[..|events| - 1]), events[|events| - 1])
  }

  // ---------------------------------------------------------------- the handlers

  class Consumer {
    var rows: seq<BetRow>
    /** Transactions confirmed at the wallet, each with the bet whose message caused it. */
    var confirmations: seq<(TxId, BetId)>

    /** No transaction is confirmed before its bet has a row. */
    predicate Valid()
      reads this
    {
      forall k | 0 <= k < |confirmations| :: HasBet(rows, confirmations[k].1)
    }

    constructor ()
      ensures Valid() && rows == [] && confirmations == []
    {
      rows, confirmations := [], [];
    }

    /** handleBetPlaced: insert, then confirm; a failed insert confirms nothing. */
    method HandleBetPlaced(e: Event, dbOk: bool, walletOk: bool) returns (ok: bool)
      requires Valid() && e.BetPlaced?
      modifies this
      ensures Valid()
      ensures rows == if dbOk then Handle(old(rows), e) else old(rows)
      ensures var at := if e.placedAt.Some? then e.placedAt.value else e.now;
              var known := exists i :: 0 <= i < |old(rows)| && old(rows)[i].slip.bet == e.slip.bet
                                       && old(rows)[i].placedAt == at;
              rows == if dbOk && !known then old(rows) + [BetRow(e.slip, at, Placed, None, None)] else old(rows)
      ensures confirmations == old(confirmations)
                               + if dbOk && walletOk && e.tx.Some? then [(e.tx.value, e.slip.bet)] else []
      ensures ok <==> dbOk && (walletOk || e.tx.None?)
    {
      if !dbOk {
        return false;
      }
      InsertKeepsBets(rows, e);
      rows := Insert(rows, e.slip, PlacedTime(e));
      if e.tx.Some? {
        if !walletOk {
          return false;
        }
        confirmations := confirmations + [(e.tx.value, e.slip.bet)];
      }
      return true;
    }

    /** handleBetSettled and handleBetVoided: one UPDATE over the rows of the bet. */
    method HandleOutcome(e: Event, dbOk: bool) returns (ok: bool)
      requires Valid() && !e.BetPlaced?
      modifies this`rows
      ensures Valid() && ok == dbOk
      ensures rows == if dbOk then Handle(old(rows), e) else old(rows)
      ensures |rows| == |old(rows)|
      ensures forall i | 0 <= i < |rows| ::
                if dbOk && old(rows)[i].slip.bet == e.bet then OutcomeShown(old(rows)[i], rows[i], e)
                else rows[i] == old(rows)[i]
    {
      ghost var before := rows;
      if dbOk {
        var n := |rows|;
        for i := 0 to n
          invariant |rows| == n == |before|
          invariant forall k | 0 <= k < i :: rows[k] == UpdatedRow(before[k], e)
          invariant forall k | i <= k < n :: rows[k] == before[k]
        {
          rows := rows[i := UpdatedRow(rows[i], e)];
        }
        assert rows == Handle(before, e);
        forall k | 0 <= k < |confirmations| ensures HasBet(rows, confirmations[k].1) {
          OutcomeKeepsBet(before, e, confirmations[k].1);
        }
      }
      return dbOk;
    }
  }

  predicate HasBet(rows: seq<BetRow>, bet: BetId) {
    exists i :: 0 <= i < |rows| && rows[i].slip.bet == bet
  }

  lemma OutcomeKeepsBet(rows: seq<BetRow>, e: Event, bet: BetId)
    requires HasBet(rows, bet)
    ensures HasBet(Handle(rows, e), bet)
  {
    var i :| 0 <= i < |rows| && rows[i].slip.bet == bet;
    assert Handle(rows, e)[i].slip.bet == bet;
  }

  lemma InsertKeepsBets(rows: seq<BetRow>, e: Event)
    requires e.BetPlaced?
    ensures HasBet(Handle(rows, e), e.slip.bet)
    ensures forall bet | HasBet(rows, bet) :: HasBet(Handle(rows, e), bet)
  {
    var rows' := Handle(rows, e);
    if !HasKey(rows, e.slip.bet, PlacedTime(e)) {
      assert rows'[|rows|].slip.bet == e.slip.bet;
    }
    forall bet | HasBet(rows, bet) ensures HasBet(rows', bet) {
      OutcomeKeepsBet(rows, e, bet);
    }
  }

  // ---------------------------------------------------------------- redelivery

  /** Some placed event of the run has this effective key. */
  predicate Delivered(events: seq<Event>, bet: BetId, at: Time) {
    exists i :: 0 <= i < |events| && events[i].BetPlaced? && events[i].slip.bet == bet && PlacedTime(events[i]) == at
  }

  /** The run without every placed event whose key was delivered before. */
  function Deduplicated(events: seq<Event>): seq<Event> {
    if events == [] then []
    else
      var before, e := events[..|events| - 1], events[|events| - 1];
      if e.BetPlaced? && Delivered(before, e.slip.bet, PlacedTime(e)) then Deduplicated(before)
      else Deduplicated(before) + [e]
  }

  lemma HandleKeys(rows: seq<BetRow>, e: Event, bet: BetId, at: Time)
    ensures HasKey(Handle(rows, e), bet, at)
        <==> HasKey(rows, bet, at) || (e.BetPlaced? && e.slip.bet == bet && PlacedTime(e) == at)
  {
    var rows' := Handle(rows, e);
    if HasKey(rows, bet, at) {
      var i :| 0 <= i < |rows| && rows[i].slip.bet == bet && rows[i].placedAt == at;
      assert rows'[i].slip.bet == bet && rows'[i].placedAt == at;
    }
    if e.BetPlaced? && e.slip.bet == bet && PlacedTime(e) == at && !HasKey(rows, bet, at) {
      assert rows'[|rows|].slip.bet == bet && rows'[|rows|].placedAt == at;
    }
    if HasKey(rows', bet, at) {
      var i :| 0 <= i < |rows'| && rows'[i].slip.bet == bet && rows'[i].placedAt == at;
      assert i < |rows| ==> rows[i].slip.bet == bet && rows[i].placedAt == at;
    }
  }

  lemma DeliveredSnoc(events: seq<Event>, bet: BetId, at: Time)
    requires events != []
    ensures var before, e := events[..|events| - 1], events[|events| - 1];
            Delivered(events, bet, at)
            <==> Delivered(before, bet, at) || (e.BetPlaced? && e.slip.bet == bet && PlacedTime(e) == at)
  {
    var n := |events| - 1;
    var before, e := events[..n], events[n];
    if Delivered(before, bet, at) {
      var i :| 0 <= i < n && before[i].BetPlaced? && before[i].slip.bet == bet && PlacedTime(before[i]) == at;
      assert events[i] == before[i];
    }
    if Delivered(events, bet, at) {
      var i :| 0 <= i < |events| && events[i].BetPlaced? && events[i].slip.bet == bet && PlacedTime(events[i]) == at;
      assert i < n ==> before[i] == events[i];
    }
  }

  /** The keys of the table are exactly the keys delivered. */
  lemma {:induction false} TableKeys(events: seq<Event>, bet: BetId, at: Time)
    ensures HasKey(Table(events), bet, at) <==> Delivered(events, bet, at)
  {
    if events != [] {
      var before, e := events[..|events| - 1], events[|events| - 1];
      TableKeys(before, bet, at);
      HandleKeys(Table(before), e, bet, at);
      DeliveredSnoc(events, bet, at);
    }
  }

  /** Redelivered bet.placed messages, anywhere among settle and void events, leave no trace in the table. */
  lemma {:induction false} AbsorbsRedelivery(events: seq<Event>)
    ensures Table(Deduplicated(events)) == Table(events)
  {
    if events != [] {
      var before, e := events[..|events| - 1], events[|events| - 1];
      AbsorbsRedelivery(before);
      if e.BetPlaced? && Delivered(before, e.slip.bet, PlacedTime(e)) {
        TableKeys(before, e.slip.bet, PlacedTime(e));
      } else {
        assert Deduplicated(events)[..|Deduplicated(events)| - 1] == Deduplicated(before);
      }
    }
  }

  predicate KeysDistinct(rows: seq<BetRow>) {
    forall i, j | 0 <= i < j < |rows| :: rows[i].slip.bet != rows[j].slip.bet || rows[i].placedAt != rows[j].placedAt
  }

  lemma {:induction false} TableKeysDistinct(events: seq<Event>)
    ensures KeysDistinct(Table(events))
  {
    if events != [] {
      TableKeysDistinct(events[..|events| - 1]);
    }
  }

  predicate OneRowPerBet(rows: seq<BetRow>) {
    forall i, j | 0 <= i < j < |rows| :: rows[i].slip.bet != rows[j].slip.bet
  }

  /**
   All deliveries of one bet carry one effective time; so they do when placed_at
   is fixed in the payload and parses.
   */
  predicate OneTimePerBet(events: seq<Event>) {
    forall i, j | 0 <= i < |events| && 0 <= j < |events|
                  && events[i].BetPlaced? && events[j].BetPlaced? && events[i].slip.bet == events[j].slip.bet ::
      PlacedTime(events[i]) == PlacedTime(events[j])
  }

  /** A bet has one row exactly when its deliveries agree on the time; a placed_at that does not parse can break it. */
  lemma OneRowExactly(events: seq<Event>)
    ensures OneRowPerBet(Table(events)) <==> OneTimePerBet(events)
  {
    var rows := Table(events);
    TableKeysDistinct(events);
    if OneTimePerBet(events) {
      forall i, j | 0 <= i < j < |rows| ensures rows[i].slip.bet != rows[j].slip.bet {
        assert HasKey(rows, rows[i].slip.bet, rows[i].placedAt) && HasKey(rows, rows[j].slip.bet, rows[j].placedAt);
        TableKeys(events, rows[i].slip.bet, rows[i].placedAt);
        TableKeys(events, rows[j].slip.bet, rows[j].placedAt);
      }
    }
    if OneRowPerBet(rows) {
      forall i, j | 0 <= i < |events| && 0 <= j < |events| && events[i].BetPlaced? && events[j].BetPlaced?
                    && events[i].slip.bet == events[j].slip.bet
        ensures PlacedTime(events[i]) == PlacedTime(events[j])
      {
        var bet, at, at' := events[i].slip.bet, PlacedTime(events[i]), PlacedTime(events[j]);
        assert Delivered(events, bet, at) && Delivered(events, bet, at');
        TableKeys(events, bet, at);
        TableKeys(events, bet, at');
        var k :| 0 <= k < |rows| && rows[k].slip.bet == bet && rows[k].placedAt == at;
        var l :| 0 <= l < |rows| && rows[l].slip.bet == bet && rows[l].placedAt == at';
        assert k == l;
      }
    }
  }

  /** Rows are never lost or rewritten, and a settled or void bet never returns to PLACED. */
  lemma {:induction false} NeverBackToPlaced(events: seq<Event>, more: seq<Event>, i: nat)
    requires i < |Table(events)|
    ensures |Table(events + more)| >= |Table(events)|
    ensures var row, row' := Table(events)[i], Table(events + more)[i];
            && row'.slip == row.slip && row'.placedAt == row.placedAt
            && (row.status != Placed ==> row'.status != Placed)
    decreases |more|
  {
    if more == [] {
      assert events + more == events;
    } else {
      var n := |more| - 1;
      NeverBackToPlaced(events, more[..n], i);
      assert (events + more)[..|events + more| - 1] == events + more[..n];
    }
  }

  /**
   What the row of a key says after a run: it appears as PLACED with its first
   delivery; from then on each settle event of its bet sets status, time and
   payout, and each void event sets status and time and leaves the payout.
   */
  function RowOf(events: seq<Event>, bet: BetId, at: Time): Option<BetRow> {
    if events == [] then None
    else
      var before, e := RowOf(events[..|events| - 1], bet, at), events[|events| - 1];
      if before.Some? then Some(UpdatedRow(before.value, e))
      else if e.BetPlaced? && e.slip.bet == bet && PlacedTime(e) == at then Some(BetRow(e.slip, at, Placed, None, None))
      else None
  }

  /** The table holds, for each key, exactly what the events of that key's bet say. */
  lemma {:induction false} TableIsPerBetFold(events: seq<Event>, bet: BetId, at: Time)
    ensures RowOf(events, bet, at).Some? <==> HasKey(Table(events), bet, at)
    ensures RowOf(events, bet, at).Some? ==>
              var row := RowOf(events, bet, at).value;
              row in Table(events) && row.slip.bet == bet && row.placedAt == at
  {
    if events != [] {
      var before, e := events[..|events| - 1], events[|events| - 1];
      TableIsPerBetFold(before, bet, at);
      HandleKeys(Table(before), e, bet, at);
      var was := RowOf(before, bet, at);
      if was.Some? {
        var i :| 0 <= i < |Table(before)| && Table(before)[i] == was.value;
        assert Table(events)[i] == UpdatedRow(was.value, e);
      } else if RowOf(events, bet, at).Some? {
        assert Table(events)[|Table(before)|] == RowOf(events, bet, at).value;
      }
    }
  }

  /** A bet that is voided after it was settled keeps the payout of the settlement. */
  lemma VoidKeepsPayout(events: seq<Event>, bet: BetId, at: Time, win: bool, settledAt: Time, payout: int,
                        voidedAt: Time)
    requires RowOf(events, bet, at).Some? && RowOf(events, bet, at).value.slip.bet == bet
    ensures RowOf(events + [BetSettled(bet, win, settledAt, payout)] + [BetVoided(bet, voidedAt)], bet, at)
         == Some(RowOf(events, bet, at).value.(status := Void, settledAt := Some(voidedAt), payout := Some(payout)))
  {
    var settled := events + [BetSettled(bet, win, settledAt, payout)];
    assert settled[..|events|] == events;
    assert (settled + [BetVoided(bet, voidedAt)])[..|settled|] == settled;
  }

  /**
   Two deliveries of one bet whose placed_at does not parse leave two rows when
   they are handled at different times.
   */
  lemma UnparsedTimeDuplicates(slip: Slip, now: Time, now': Time, tx: Option<TxId>)
    requires now != now'
    ensures Table([BetPlaced(slip, None, now, tx)] + [BetPlaced(slip, None, now', tx)])
         == [BetRow(slip, now, Placed, None, None)] + [BetRow(slip, now', Placed, None, None)]
    ensures !OneRowPerBet(Table([BetPlaced(slip, None, now, tx)] + [BetPlaced(slip, None, now', tx)]))
  {
    var first := [BetPlaced(slip, None, now, tx)];
    var events := first + [BetPlaced(slip, None, now', tx)];
    assert first[..0] == [] && events[..1] == first;
    assert Table(first) == [BetRow(slip, now, Placed, None, None)];
    var rows := Table(events);
    assert rows[0].slip.bet == rows[1].slip.bet;
  }

  // ---------------------------------------------------------------- what a row says after a run

  predicate OutcomeOf(e: Event, bet: BetId) {
    !e.BetPlaced? && e.bet == bet
  }

  /** The first delivery of a key. */
  predicate Inserts(events: seq<Event>, n: nat, row: BetRow) {
    && n < |events| && events[n].BetPlaced? && events[n].slip == row.slip && PlacedTime(events[n]) == row.placedAt
    && forall m | 0 <= m < n && events[m].BetPlaced? && events[m].slip.bet == row.slip.bet ::
         PlacedTime(events[m]) != row.placedAt
  }

  /** No outcome of the bet from `from` on. */
  predicate NoOutcome(events: seq<Event>, from: nat, bet: BetId) {
    forall l | from <= l < |events| :: !OutcomeOf(events[l], bet)
  }

  /** The status and the time are those of event `e`. */
  predicate ShowsOutcome(row: BetRow, e: Event) {
    match e
    case BetPlaced(_, _, _, _) => row.status == Placed && row.settledAt == None && row.payout == None
    case BetSettled(_, win, settledAt, payout) =>
      && row.status == (if win then SettledWin else SettledLoss)
      && row.settledAt == Some(settledAt) && row.payout == Some(payout)
    case BetVoided(_, voidedAt) => row.status == Void && row.settledAt == Some(voidedAt)
  }

  /**
   Over every run each row was put in by the first delivery of its key, at `n`,
   and shows the last outcome of its bet after that, at `j`; with none, `j` is
   `n` and the row is still PLACED.
   */
  lemma {:induction false} ShowsLastOutcome(events: seq<Event>, i: nat) returns (n: nat, j: nat)
    requires i < |Table(events)|
    ensures var row := Table(events)[i];
            && Inserts(events, n, row)
            && n <= j < |events| && (j == n || OutcomeOf(events[j], row.slip.bet))
            && NoOutcome(events, j + 1, row.slip.bet) && ShowsOutcome(row, events[j])
  {
    var m := |events| - 1;
    var before, e := events[..m], events[m];
    assert Table(events) == Handle(Table(before), e);
    if i < |Table(before)| {
      n, j := ShowsLastOutcome(before, i);
      var row := Table(before)[i];
      assert events[n] == before[n] && events[j] == before[j];
      if OutcomeOf(e, row.slip.bet) {
        j := m;
      }
    } else {
      n, j := m, m;
      FirstOfKey(events);
    }
  }

  lemma FirstOfKey(events: seq<Event>)
    requires events != [] && |Table(events)| > |Table(events[..|events| - 1])|
    ensures Inserts(events, |events| - 1, Table(events)[|Table(events)| - 1])
    ensures Table(events)[|Table(events)| - 1].status == Placed
  {
    var m := |events| - 1;
    var before, e := events[..m], events[m];
    TableKeys(before, e.slip.bet, PlacedTime(e));
    forall l | 0 <= l < m && events[l].BetPlaced? && events[l].slip.bet == e.slip.bet
      ensures PlacedTime(events[l]) != PlacedTime(e)
    {
      assert before[l] == events[l];
    }
  }
}
