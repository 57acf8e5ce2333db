/** The events snapshot: joined rows grouped into events, markets and selections. */
module Snapshot {
  import opened Platform
  import opened Sequences

  datatype EventCols = EventCols(competition: Id, name: Id, startsAt: Id, status: Id,
                                 homeScore: int, awayScore: int, period: Id, clock: Id)
  datatype MarketCols = MarketCols(name: Id, status: Id, marketType: Id, target: real, isMain: bool)
  datatype SelectionCols = SelectionCols(name: Id, target: real)

  /** One row of the three-way join. */
  datatype Row = Row(event: Id, eventCols: EventCols, market: Id, marketCols: MarketCols,
                     selection: Id, selectionCols: SelectionCols)

  datatype Odds = Odds(decimal: real, american: int)

  datatype Selection = Selection(id: Id, cols: SelectionCols, odds: Odds)
  datatype Market = Market(id: Id, cols: MarketCols, selections: seq<Selection>)
  datatype Event = Event(id: Id, cols: EventCols, markets: seq<Market>)

  const UNPRICED := Odds(0.0, 0)

  // ---------------------------------------------------------------- what the snapshot is

  datatype Level = ByEvent | ByMarket

  function KeyOf(row: Row, level: Level): Id {
    if level.ByEvent? then row.event else row.market
  }

  /** The first row with this key, or |rows|. */
  function FirstIndex(rows: seq<Row>, level: Level, key: Id): (i: nat)
    ensures i <= |rows|
  {
    if rows == [] then 0
    else
      var n := |rows| - 1;
      var i := FirstIndex(rows[..n], level, key);
      if i < n then i else if KeyOf(rows[n], level) == key then n else n + 1
  }

  /** The keys in the order of their first rows. */
  function Order(rows: seq<Row>, level: Level): seq<Id> {
    if rows == [] then []
    else
      var n := |rows| - 1;
      var order := Order(rows[..n], level);
      if KeyOf(rows[n], level) in order then order else order + [KeyOf(rows[n], level)]
  }

  function PriceOf(odds: map<(Id, Id), Odds>, market: Id, selection: Id): Odds {
    if (market, selection) in odds then odds[(market, selection)] else UNPRICED
  }

  /** The market's selections in row order. */
  function Selections(rows: seq<Row>, odds: map<(Id, Id), Odds>, market: Id): seq<Selection> {
    if rows == [] then []
    else
      var row, before := rows[|rows| - 1], Selections(rows[..|rows| - 1], odds, market);
      if row.market != market then before
      else before + [Selection(row.selection, row.selectionCols, PriceOf(odds, market, row.selection))]
  }

  function MarketAt(rows: seq<Row>, odds: map<(Id, Id), Odds>, market: Id): Market
    requires FirstIndex(rows, ByMarket, market) < |rows|
  {
    Market(market, rows[FirstIndex(rows, ByMarket, market)].marketCols, Selections(rows, odds, market))
  }

  /** The market's first row belongs to this event. */
  predicate Under(rows: seq<Row>, market: Id, event: Id) {
    var i := FirstIndex(rows, ByMarket, market);
    i < |rows| && rows[i].event == event
  }

  function MarketsOf(rows: seq<Row>, odds: map<(Id, Id), Odds>, order: seq<Id>, event: Id): seq<Market> {
    if order == [] then []
    else
      var m, before := order[|order| - 1], MarketsOf(rows, odds, order[..|order| - 1], event);
      if Under(rows, m, event) then before + [MarketAt(rows, odds, m)] else before
  }

  function EventAt(rows: seq<Row>, odds: map<(Id, Id), Odds>, event: Id): Event
    requires FirstIndex(rows, ByEvent, event) < |rows|
  {
    Event(event, rows[FirstIndex(rows, ByEvent, event)].eventCols,
          MarketsOf(rows, odds, Order(rows, ByMarket), event))
  }

  function EventsOf(rows: seq<Row>, odds: map<(Id, Id), Odds>, order: seq<Id>): (events: seq<Event>)
    requires forall e | e in order :: FirstIndex(rows, ByEvent, e) < |rows|
    ensures |events| == |order|
  {
    seq(|order|, i requires 0 <= i < |order| => EventAt(rows, odds, order[i]))
  }

  lemma {:induction false} OrderIsPresent(rows: seq<Row>, level: Level, key: Id)
    ensures key in Order(rows, level) <==> FirstIndex(rows, level, key) < |rows|
  {
    if rows != [] {
      OrderIsPresent(rows[..|rows| - 1], level, key);
    }
  }

  function SnapshotOf(rows: seq<Row>, odds: map<(Id, Id), Odds>): seq<Event> {
    assert forall e | e in Order(rows, ByEvent) :: FirstIndex(rows, ByEvent, e) < |rows| by {
      forall e | e in Order(rows, ByEvent) { OrderIsPresent(rows, ByEvent, e); }
    }
    EventsOf(rows, odds, Order(rows, ByEvent))
  }

  // ---------------------------------------------------------------- each key once, in first-row order

  lemma {:induction false} FirstIndexIsFirst(rows: seq<Row>, level: Level, key: Id)
    ensures var i := FirstIndex(rows, level, key);
            && (i < |rows| ==> KeyOf(rows[i], level) == key)
            && (forall k | 0 <= k < i :: KeyOf(rows[k], level) != key)
  {
    if rows != [] {
      var n := |rows| - 1;
      FirstIndexIsFirst(rows[..n], level, key);
    }
  }

  predicate Increasing(rows: seq<Row>, level: Level, order: seq<Id>) {
    forall k, l | 0 <= k < l < |order| :: FirstIndex(rows, level, order[k]) < FirstIndex(rows, level, order[l])
  }

  /** Every key appears exactly once, ordered by its first row. */
  lemma {:induction false} OnceInFirstRowOrder(rows: seq<Row>, level: Level)
    ensures Increasing(rows, level, Order(rows, level))
    ensures Distinct(Order(rows, level))
    ensures forall key :: key in Order(rows, level) <==> exists i :: 0 <= i < |rows| && KeyOf(rows[i], level) == key
  {
    forall key ensures key in Order(rows, level) <==> exists i :: 0 <= i < |rows| && KeyOf(rows[i], level) == key {
      OrderIsPresent(rows, level, key);
      FirstIndexIsFirst(rows, level, key);
    }
    OrderIncreases(rows, level);
  }

  lemma {:induction false} OrderIncreases(rows: seq<Row>, level: Level)
    ensures Increasing(rows, level, Order(rows, level))
  {
    if rows != [] {
      var n := |rows| - 1;
      OrderIncreases(rows[..n], level);
      forall key | key in Order(rows[..n], level)
        ensures FirstIndex(rows, level, key) == FirstIndex(rows[..n], level, key) < n
      {
        OrderIsPresent(rows[..n], level, key);
      }
      OrderIsPresent(rows[..n], level, KeyOf(rows[n], level));
    }
  }

  /** The rows of a market, by position. */
  function Positions(rows: seq<Row>, market: Id): seq<nat> {
    if rows == [] then []
    else
      var n := |rows| - 1;
      Positions(rows[..n], market) + if rows[n].market == market then [n] else []
  }

  lemma {:induction false} PositionsExact(rows: seq<Row>, market: Id)
    ensures forall k, l | 0 <= k < l < |Positions(rows, market)| ::
                Positions(rows, market)[k] < Positions(rows, market)[l]
    ensures forall i: nat :: i in Positions(rows, market) <==> i < |rows| && rows[i].market == market
  {
    if rows != [] {
      var n := |rows| - 1;
      var before := Positions(rows[..n], market);
      PositionsExact(rows[..n], market);
      forall k | 0 <= k < |before| ensures before[k] < n { assert before[k] in before; }
    }
  }

  function SelectionOf(row: Row, odds: map<(Id, Id), Odds>): Selection {
    Selection(row.selection, row.selectionCols, PriceOf(odds, row.market, row.selection))
  }

  lemma {:induction false} SelectionsAtPositions(rows: seq<Row>, odds: map<(Id, Id), Odds>, market: Id)
    ensures |Selections(rows, odds, market)| == |Positions(rows, market)|
    ensures forall k | 0 <= k < |Positions(rows, market)| ::
              Positions(rows, market)[k] < |rows|
              && Selections(rows, odds, market)[k] == SelectionOf(rows[Positions(rows, market)[k]], odds)
  {
    if rows != [] {
      var n := |rows| - 1;
      SelectionsAtPositions(rows[..n], odds, market);
      hide PriceOf;
    }
  }

  /** The selections are the market's rows, all of them, in row order, however markets interleave. */
  lemma SelectionsKeepRowOrder(rows: seq<Row>, odds: map<(Id, Id), Odds>, market: Id)
    ensures var at, sels := Positions(rows, market), Selections(rows, odds, market);
            && |at| == |sels|
            && (forall k, l | 0 <= k < l < |at| :: at[k] < at[l])
            && (forall i: nat :: i in at <==> i < |rows| && rows[i].market == market)
            && (forall k | 0 <= k < |at| :: at[k] < |rows| && sels[k] == SelectionOf(rows[at[k]], odds))
  {
    PositionsExact(rows, market);
    SelectionsAtPositions(rows, odds, market);
  }

  predicate MarketsIncrease(rows: seq<Row>, markets: seq<Market>) {
    forall k, l | 0 <= k < l < |markets| ::
      FirstIndex(rows, ByMarket, markets[k].id) < FirstIndex(rows, ByMarket, markets[l].id)
  }

  predicate Lists(markets: seq<Market>, id: Id) {
    exists k :: 0 <= k < |markets| && markets[k].id == id
  }

  /** An event lists the markets whose first row is its own, in the order of those rows. */
  lemma {:induction false} MarketsInOrder(rows: seq<Row>, odds: map<(Id, Id), Odds>, order: seq<Id>, event: Id)
    requires Increasing(rows, ByMarket, order)
    ensures MarketsIncrease(rows, MarketsOf(rows, odds, order, event))
    ensures forall id :: Lists(MarketsOf(rows, odds, order, event), id) <==> id in order && Under(rows, id, event)
  {
    if order != [] {
      var n := |order| - 1;
      var before, id := MarketsOf(rows, odds, order[..n], event), order[n];
      MarketsInOrder(rows, odds, order[..n], event);
      hide FirstIndex, Selections;
      assert order == order[..n] + [id];
      if Under(rows, id, event) {
        var markets := before + [MarketAt(rows, odds, id)];
        forall k | 0 <= k < |before| ensures FirstIndex(rows, ByMarket, before[k].id) < FirstIndex(rows, ByMarket, id) {
          assert Lists(before, before[k].id);
        }
        ListsSnoc(before, MarketAt(rows, odds, id));
      }
    }
  }

  lemma ListsSnoc(markets: seq<Market>, m: Market)
    ensures forall id :: Lists(markets + [m], id) <==> Lists(markets, id) || id == m.id
  {
    forall id | Lists(markets, id) || id == m.id ensures Lists(markets + [m], id) {
      if Lists(markets, id) {
        var k :| 0 <= k < |markets| && markets[k].id == id;
        assert (markets + [m])[k].id == id;
      } else {
        assert (markets + [m])[|markets|].id == id;
      }
    }
  }

  predicate HasKey(rows: seq<Row>, level: Level, key: Id) {
    exists i :: 0 <= i < |rows| && KeyOf(rows[i], level) == key
  }

  /**
   In the nested result every event of the rows appears exactly once, every
   market of the rows is listed by exactly one event, and once there; events,
   and the markets within one, come in the order of their first rows.
   */
  lemma NestedOnce(rows: seq<Row>, odds: map<(Id, Id), Odds>)
    ensures var events := SnapshotOf(rows, odds);
            && (forall k, l | 0 <= k < l < |events| ::
                  FirstIndex(rows, ByEvent, events[k].id) < FirstIndex(rows, ByEvent, events[l].id))
            && (forall id :: HasKey(rows, ByEvent, id) <==> exists k :: 0 <= k < |events| && events[k].id == id)
            && (forall k | 0 <= k < |events| :: MarketsIncrease(rows, events[k].markets))
            && (forall id ::
                  HasKey(rows, ByMarket, id) <==> exists k :: 0 <= k < |events| && Lists(events[k].markets, id))
            && (forall id, k, l | 0 <= k < |events| && 0 <= l < |events|
                                  && Lists(events[k].markets, id) && Lists(events[l].markets, id) :: k == l)
  {
    var events, order, markets := SnapshotOf(rows, odds), Order(rows, ByEvent), Order(rows, ByMarket);
    OnceInFirstRowOrder(rows, ByEvent);
    OnceInFirstRowOrder(rows, ByMarket);
    forall k | 0 <= k < |events|
      ensures events[k].id == order[k] && MarketsIncrease(rows, events[k].markets)
      ensures forall id :: Lists(events[k].markets, id) <==> id in markets && Under(rows, id, order[k])
    {
      OrderIsPresent(rows, ByEvent, order[k]);
      MarketsInOrder(rows, odds, markets, order[k]);
    }
    hide SnapshotOf, Order, Lists, MarketsIncrease, FirstIndex;
    forall id ensures HasKey(rows, ByEvent, id) <==> exists k :: 0 <= k < |events| && events[k].id == id {
      if id in order {
        var k :| 0 <= k < |order| && order[k] == id;
        assert events[k].id == id;
      }
    }
    forall id ensures HasKey(rows, ByMarket, id) <==> exists k :: 0 <= k < |events| && Lists(events[k].markets, id) {
      if id in markets {
        OwnerPresent(rows, id);
        var k :| 0 <= k < |order| && order[k] == rows[FirstIndex(rows, ByMarket, id)].event;
        assert Lists(events[k].markets, id);
      }
    }
  }

  /** A market that is present belongs to an event that is. */
  lemma OwnerPresent(rows: seq<Row>, market: Id)
    requires market in Order(rows, ByMarket)
    ensures FirstIndex(rows, ByMarket, market) < |rows|
    ensures rows[FirstIndex(rows, ByMarket, market)].event in Order(rows, ByEvent)
  {
    OrderIsPresent(rows, ByMarket, market);
    var event := rows[FirstIndex(rows, ByMarket, market)].event;
    FirstIndexIsFirst(rows, ByEvent, event);
    OrderIsPresent(rows, ByEvent, event);
  }

  // ---------------------------------------------------------------- nothing lost, nothing added

  /** The rows that a nested result stands for. */
  function RowsOfSelections(e: Event, m: Market, selections: seq<Selection>): seq<Row> {
    if selections == [] then []
    else
      var s := selections[|selections| - 1];
      RowsOfSelections(e, m, selections[..|selections| - 1]) + [Row(e.id, e.cols, m.id, m.cols, s.id, s.cols)]
  }

  function RowsOfMarkets(e: Event, markets: seq<Market>): seq<Row> {
    if markets == [] then []
    else
      var m := markets[|markets| - 1];
      RowsOfMarkets(e, markets[..|markets| - 1]) + RowsOfSelections(e, m, m.selections)
  }

  function Flatten(events: seq<Event>): seq<Row> {
    if events == [] then []
    else
      var e := events[|events| - 1];
      Flatten(events[..|events| - 1]) + RowsOfMarkets(e, e.markets)
  }

  /** A market determines its event, and ids determine their columns. */
  predicate Consistent(rows: seq<Row>) {
    forall i, j | 0 <= i < |rows| && 0 <= j < |rows| ::
      && (rows[i].market == rows[j].market ==>
            rows[i].event == rows[j].event && rows[i].marketCols == rows[j].marketCols)
      && (rows[i].event == rows[j].event ==> rows[i].eventCols == rows[j].eventCols)
  }

  predicate SameSelection(x: Row, y: Row) {
    x.market == y.market && x.selection == y.selection && x.selectionCols == y.selectionCols
  }

  /** How many rows carry the selection of `x`. */
  function Times(rows: seq<Row>, x: Row): nat {
    if rows == [] then 0
    else Times(rows[..|rows| - 1], x) + if SameSelection(rows[|rows| - 1], x) then 1 else 0
  }

  /** `x` has its market's columns as its market's first row has them. */
  predicate MarketAgrees(rows: seq<Row>, x: Row) {
    var i := FirstIndex(rows, ByMarket, x.market);
    i < |rows| && rows[i].marketCols == x.marketCols
  }

  predicate EventAgrees(rows: seq<Row>, x: Row) {
    var i := FirstIndex(rows, ByEvent, x.event);
    i < |rows| && rows[i].eventCols == x.eventCols
  }

  /** `x` says about its market and its event what their first rows say. */
  predicate Canonical(rows: seq<Row>, x: Row) {
    MarketAgrees(rows, x) && EventAgrees(rows, x) && Under(rows, x.market, x.event)
  }

  lemma CountConcat(a: seq<Row>, b: seq<Row>, x: Row)
    ensures multiset(a + b)[x] == multiset(a)[x] + multiset(b)[x]
  {}

  lemma CountSnoc(a: seq<Row>, y: Row, x: Row)
    ensures multiset(a + [y])[x] == multiset(a)[x] + if y == x then 1 else 0
  {}

  lemma {:induction false} CountSelections(rows: seq<Row>, odds: map<(Id, Id), Odds>, e: Event, m: Market, x: Row)
    ensures multiset(RowsOfSelections(e, m, Selections(rows, odds, m.id)))[x]
         == if x.event == e.id && x.eventCols == e.cols && x.market == m.id && x.marketCols == m.cols
            then Times(rows, x) else 0
  {
    if rows != [] {
      var n := |rows| - 1;
      var before, row := Selections(rows[..n], odds, m.id), rows[n];
      CountSelections(rows[..n], odds, e, m, x);
      if row.market == m.id {
        var s := Selection(row.selection, row.selectionCols, PriceOf(odds, m.id, row.selection));
        assert (before + [s])[..|before|] == before;
        CountSnoc(RowsOfSelections(e, m, before), Row(e.id, e.cols, m.id, m.cols, s.id, s.cols), x);
      }
    }
  }

  lemma CountMarket(rows: seq<Row>, odds: map<(Id, Id), Odds>, id: Id, e: Event, x: Row)
    requires FirstIndex(rows, ByMarket, id) < |rows|
    ensures var m := MarketAt(rows, odds, id);
            multiset(RowsOfSelections(e, m, m.selections))[x]
            == if x.event == e.id && x.eventCols == e.cols && x.market == id && MarketAgrees(rows, x)
               then Times(rows, x) else 0
  {
    CountSelections(rows, odds, e, MarketAt(rows, odds, id), x);
  }

  lemma RowsOfLastMarket(rows: seq<Row>, odds: map<(Id, Id), Odds>, order: seq<Id>, e: Event)
    requires order != []
    ensures var id, before := order[|order| - 1], RowsOfMarkets(e, MarketsOf(rows, odds, order[..|order| - 1], e.id));
            RowsOfMarkets(e, MarketsOf(rows, odds, order, e.id))
            == if Under(rows, id, e.id)
               then before + RowsOfSelections(e, MarketAt(rows, odds, id), MarketAt(rows, odds, id).selections)
               else before
  {
    hide FirstIndex, RowsOfSelections, Selections;
    var id, before := order[|order| - 1], MarketsOf(rows, odds, order[..|order| - 1], e.id);
    if Under(rows, id, e.id) {
      assert (before + [MarketAt(rows, odds, id)])[..|before|] == before;
    }
  }

  lemma {:induction false} CountMarkets(rows: seq<Row>, odds: map<(Id, Id), Odds>, order: seq<Id>, e: Event, x: Row)
    requires Distinct(order)
    ensures multiset(RowsOfMarkets(e, MarketsOf(rows, odds, order, e.id)))[x]
         == if x.event == e.id && x.eventCols == e.cols && x.market in order
               && Under(rows, x.market, e.id) && MarketAgrees(rows, x)
            then Times(rows, x) else 0
  {
    if order != [] {
      hide MarketAgrees, RowsOfSelections, Times, Selections, FirstIndex;
      var n := |order| - 1;
      var id, before := order[n], RowsOfMarkets(e, MarketsOf(rows, odds, order[..n], e.id));
      CountMarkets(rows, odds, order[..n], e, x);
      assert order == order[..n] + [id];
      RowsOfLastMarket(rows, odds, order, e);
      hide RowsOfMarkets, MarketsOf;
      if Under(rows, id, e.id) {
        CountMarket(rows, odds, id, e, x);
        CountConcat(before, RowsOfSelections(e, MarketAt(rows, odds, id), MarketAt(rows, odds, id).selections), x);
      }
    }
  }

  lemma CountEvent(rows: seq<Row>, odds: map<(Id, Id), Odds>, id: Id, x: Row)
    requires FirstIndex(rows, ByEvent, id) < |rows|
    ensures var e := EventAt(rows, odds, id);
            multiset(RowsOfMarkets(e, e.markets))[x]
              == if x.event == id && Canonical(rows, x) then Times(rows, x) else 0
  {
    hide Times, RowsOfMarkets, MarketsOf;
    OnceInFirstRowOrder(rows, ByMarket);
    OrderIsPresent(rows, ByMarket, x.market);
    CountMarkets(rows, odds, Order(rows, ByMarket), EventAt(rows, odds, id), x);
  }

  lemma RowsOfLastEvent(rows: seq<Row>, odds: map<(Id, Id), Odds>, before: seq<Id>, event: Id)
    requires forall e | e in before :: FirstIndex(rows, ByEvent, e) < |rows|
    requires FirstIndex(rows, ByEvent, event) < |rows|
    ensures var e := EventAt(rows, odds, event);
            Flatten(EventsOf(rows, odds, before + [event]))
              == Flatten(EventsOf(rows, odds, before)) + RowsOfMarkets(e, e.markets)
  {
    hide FirstIndex, MarketsOf, EventAt;
    EventsSnoc(rows, odds, before, event);
    hide EventsOf;
    FlattenSnoc(EventsOf(rows, odds, before), EventAt(rows, odds, event));
  }

  lemma EventsSnoc(rows: seq<Row>, odds: map<(Id, Id), Odds>, before: seq<Id>, event: Id)
    requires forall e | e in before :: FirstIndex(rows, ByEvent, e) < |rows|
    requires FirstIndex(rows, ByEvent, event) < |rows|
    ensures EventsOf(rows, odds, before + [event]) == EventsOf(rows, odds, before) + [EventAt(rows, odds, event)]
  {
    hide FirstIndex, MarketsOf;
  }

  lemma FlattenSnoc(events: seq<Event>, e: Event)
    ensures Flatten(events + [e]) == Flatten(events) + RowsOfMarkets(e, e.markets)
  {
    hide RowsOfMarkets;
    assert (events + [e])[..|events|] == events;
  }

  lemma {:induction false} CountEvents(rows: seq<Row>, odds: map<(Id, Id), Odds>, order: seq<Id>, x: Row)
    requires Distinct(order) && forall e | e in order :: FirstIndex(rows, ByEvent, e) < |rows|
    ensures multiset(Flatten(EventsOf(rows, odds, order)))[x]
         == if x.event in order && Canonical(rows, x) then Times(rows, x) else 0
  {
    if order != [] {
      hide Canonical, Times, FirstIndex, RowsOfMarkets, MarketsOf;
      var n := |order| - 1;
      var before, event := order[..n], order[n];
      CountEvents(rows, odds, before, x);
      assert order == before + [event];
      RowsOfLastEvent(rows, odds, before, event);
      hide Flatten, EventsOf;
      var e := EventAt(rows, odds, event);
      CountEvent(rows, odds, event, x);
      CountConcat(Flatten(EventsOf(rows, odds, before)), RowsOfMarkets(e, e.markets), x);
    }
  }

  /** How often a row comes out: as often as its selection went in, if the first rows agree with it, else never. */
  lemma CountSnapshot(rows: seq<Row>, odds: map<(Id, Id), Odds>, x: Row)
    ensures multiset(Flatten(SnapshotOf(rows, odds)))[x] == if Canonical(rows, x) then Times(rows, x) else 0
  {
    OnceInFirstRowOrder(rows, ByEvent);
    forall e | e in Order(rows, ByEvent) { OrderIsPresent(rows, ByEvent, e); }
    CountEvents(rows, odds, Order(rows, ByEvent), x);
    OrderIsPresent(rows, ByEvent, x.event);
  }

  lemma ConsistentIsCanonical(rows: seq<Row>)
    ensures Consistent(rows) <==> forall i | 0 <= i < |rows| :: Canonical(rows, rows[i])
  {
    forall i | 0 <= i < |rows|
      ensures FirstIndex(rows, ByMarket, rows[i].market) < |rows| && FirstIndex(rows, ByEvent, rows[i].event) < |rows|
      ensures Consistent(rows) ==> Canonical(rows, rows[i])
    {
      FirstIndexIsFirst(rows, ByMarket, rows[i].market);
      FirstIndexIsFirst(rows, ByEvent, rows[i].event);
    }
  }

  /** Two rows that agree with the first rows are equal when they carry the same selection. */
  lemma SameSelectionSameRow(rows: seq<Row>, x: Row, y: Row)
    requires Canonical(rows, x) && Canonical(rows, y)
    ensures SameSelection(x, y) <==> x == y
  {}

  lemma {:induction false} TimesIsCount(rows: seq<Row>, x: Row)
    requires forall i | 0 <= i < |rows| :: SameSelection(rows[i], x) <==> rows[i] == x
    ensures Times(rows, x) == multiset(rows)[x]
  {
    if rows != [] {
      var n := |rows| - 1;
      TimesIsCount(rows[..n], x);
      assert rows == rows[..n] + [rows[n]];
      CountSnoc(rows[..n], rows[n], x);
    }
  }

  lemma {:induction false} Elsewhere(rows: seq<Row>, x: Row)
    ensures multiset(rows)[x] > 0 ==> Times(rows, x) > 0
    ensures multiset(rows)[x] > 0 <==> exists i :: 0 <= i < |rows| && rows[i] == x
  {
    if rows != [] {
      var n := |rows| - 1;
      Elsewhere(rows[..n], x);
      assert rows == rows[..n] + [rows[n]];
      CountSnoc(rows[..n], rows[n], x);
    }
  }

  /** The grouping loses and invents nothing exactly when the rows agree about their markets and events. */
  lemma LosslessExactly(rows: seq<Row>, odds: map<(Id, Id), Odds>)
    ensures multiset(Flatten(SnapshotOf(rows, odds))) == multiset(rows) <==> Consistent(rows)
  {
    hide Canonical, Flatten, SnapshotOf, Consistent;
    var out := multiset(Flatten(SnapshotOf(rows, odds)));
    ConsistentIsCanonical(rows);
    if Consistent(rows) {
      forall x ensures out[x] == multiset(rows)[x] {
        CountSnapshot(rows, odds, x);
        if Canonical(rows, x) {
          forall i | 0 <= i < |rows| { SameSelectionSameRow(rows, rows[i], x); }
          TimesIsCount(rows, x);
        } else {
          Elsewhere(rows, x);
        }
      }
    }
    if out == multiset(rows) {
      forall i | 0 <= i < |rows| ensures Canonical(rows, rows[i]) {
        CountSnapshot(rows, odds, rows[i]);
        Elsewhere(rows, rows[i]);
      }
    }
  }

  // ---------------------------------------------------------------- odds

  predicate SamePrices(rows: seq<Row>, odds: map<(Id, Id), Odds>, odds': map<(Id, Id), Odds>) {
    forall i | 0 <= i < |rows| ::
      PriceOf(odds, rows[i].market, rows[i].selection) == PriceOf(odds', rows[i].market, rows[i].selection)
  }

  lemma {:induction false} SamePricesSameSelections(rows: seq<Row>, odds: map<(Id, Id), Odds>,
                                                    odds': map<(Id, Id), Odds>, market: Id)
    requires SamePrices(rows, odds, odds')
    ensures Selections(rows, odds, market) == Selections(rows, odds', market)
  {
    if rows != [] {
      SamePricesSameSelections(rows[..|rows| - 1], odds, odds', market);
    }
  }

  lemma {:induction false} SamePricesSameMarkets(rows: seq<Row>, odds: map<(Id, Id), Odds>, odds': map<(Id, Id), Odds>,
                                                 order: seq<Id>, event: Id)
    requires SamePrices(rows, odds, odds')
    ensures MarketsOf(rows, odds, order, event) == MarketsOf(rows, odds', order, event)
  {
    if order != [] {
      SamePricesSameMarkets(rows, odds, odds', order[..|order| - 1], event);
      SamePricesSameSelections(rows, odds, odds', order[|order| - 1]);
    }
  }

  lemma {:induction false} SelectionPrices(rows: seq<Row>, odds: map<(Id, Id), Odds>, market: Id)
    ensures forall s | s in Selections(rows, odds, market) ::
              s.odds == if (market, s.id) in odds then odds[(market, s.id)] else Odds(0.0, 0)
  {
    if rows != [] {
      SelectionPrices(rows[..|rows| - 1], odds, market);
    }
  }

  lemma {:induction false} MarketPrices(rows: seq<Row>, odds: map<(Id, Id), Odds>, order: seq<Id>, event: Id)
    ensures forall m, s | m in MarketsOf(rows, odds, order, event) && s in m.selections ::
              s.odds == if (m.id, s.id) in odds then odds[(m.id, s.id)] else Odds(0.0, 0)
  {
    if order != [] {
      var n := |order| - 1;
      MarketPrices(rows, odds, order[..n], event);
      SelectionPrices(rows, odds, order[n]);
      hide Selections;
    }
  }

  /** Every selection of the nested result has its cached pair, and 0 and 0 when none is cached. */
  lemma PricesAreCached(rows: seq<Row>, odds: map<(Id, Id), Odds>)
    ensures forall e, m, s | e in SnapshotOf(rows, odds) && m in e.markets && s in m.selections ::
              s.odds == if (m.id, s.id) in odds then odds[(m.id, s.id)] else Odds(0.0, 0)
  {
    var order := Order(rows, ByEvent);
    forall k | 0 <= k < |order|
      ensures forall m, s | m in SnapshotOf(rows, odds)[k].markets && s in m.selections ::
                s.odds == if (m.id, s.id) in odds then odds[(m.id, s.id)] else Odds(0.0, 0)
    {
      OrderIsPresent(rows, ByEvent, order[k]);
      MarketPrices(rows, odds, Order(rows, ByMarket), order[k]);
    }
  }

  /** Only the prices of the selections in the rows matter. */
  lemma SamePricesSameSnapshot(rows: seq<Row>, odds: map<(Id, Id), Odds>, odds': map<(Id, Id), Odds>)
    requires SamePrices(rows, odds, odds')
    ensures SnapshotOf(rows, odds) == SnapshotOf(rows, odds')
  {
    var order := Order(rows, ByEvent);
    forall k | 0 <= k < |order| ensures SnapshotOf(rows, odds)[k] == SnapshotOf(rows, odds')[k] {
      OrderIsPresent(rows, ByEvent, order[k]);
      SamePricesSameMarkets(rows, odds, odds', Order(rows, ByMarket), order[k]);
    }
  }

  /** A market with the prices of `odds` put in. */
  function Priced(m: Market, odds: map<(Id, Id), Odds>): Market {
    m.(selections := seq(|m.selections|, k requires 0 <= k < |m.selections| =>
      if (m.id, m.selections[k].id) in odds then m.selections[k].(odds := odds[(m.id, m.selections[k].id)])
      else m.selections[k]))
  }

  lemma {:induction false} PricedSelections(rows: seq<Row>, odds: map<(Id, Id), Odds>, m: Market)
    requires m.selections == Selections(rows, map[], m.id)
    ensures Priced(m, odds).selections == Selections(rows, odds, m.id)
  {
    if rows != [] {
      var before := Selections(rows[..|rows| - 1], map[], m.id);
      PricedSelections(rows[..|rows| - 1], odds, m.(selections := before));
    }
  }

  /** Putting prices in changes no structure: the result stands for the same rows in the same order. */
  lemma PricesChangeNoStructure(rows: seq<Row>, odds: map<(Id, Id), Odds>, odds': map<(Id, Id), Odds>)
    ensures Flatten(SnapshotOf(rows, odds)) == Flatten(SnapshotOf(rows, odds'))
  {
    forall e | e in Order(rows, ByEvent) { OrderIsPresent(rows, ByEvent, e); }
    FlattenIgnoresPrices(rows, odds, odds', Order(rows, ByEvent));
  }

  lemma {:induction false} FlattenIgnoresPrices(rows: seq<Row>, odds: map<(Id, Id), Odds>,
                                                odds': map<(Id, Id), Odds>, order: seq<Id>)
    requires forall e | e in order :: FirstIndex(rows, ByEvent, e) < |rows|
    ensures Flatten(EventsOf(rows, odds, order)) == Flatten(EventsOf(rows, odds', order))
  {
    if order != [] {
      var n := |order| - 1;
      var events, events' := EventsOf(rows, odds, order), EventsOf(rows, odds', order);
      FlattenIgnoresPrices(rows, odds, odds', order[..n]);
      assert events[..n] == EventsOf(rows, odds, order[..n]) && events'[..n] == EventsOf(rows, odds', order[..n]);
      MarketsIgnorePrices(rows, odds, odds', Order(rows, ByMarket), events[n], events'[n]);
    }
  }

  lemma {:induction false} MarketsIgnorePrices(rows: seq<Row>, odds: map<(Id, Id), Odds>, odds': map<(Id, Id), Odds>,
                                               order: seq<Id>, e: Event, e': Event)
    requires e.id == e'.id && e.cols == e'.cols
    ensures RowsOfMarkets(e, MarketsOf(rows, odds, order, e.id))
                == RowsOfMarkets(e', MarketsOf(rows, odds', order, e.id))
  {
    if order != [] {
      var n := |order| - 1;
      MarketsIgnorePrices(rows, odds, odds', order[..n], e, e');
      if Under(rows, order[n], e.id) {
        var m, m' := MarketAt(rows, odds, order[n]), MarketAt(rows, odds', order[n]);
        SelectionsIgnorePrices(rows, odds, odds', e, e', m, m');
        var before, before' := MarketsOf(rows, odds, order[..n], e.id), MarketsOf(rows, odds', order[..n], e.id);
        assert (before + [m])[..|before|] == before && (before' + [m'])[..|before'|] == before';
      }
    }
  }

  lemma {:induction false} SelectionsIgnorePrices(rows: seq<Row>, odds: map<(Id, Id), Odds>, odds': map<(Id, Id), Odds>,
                                                  e: Event, e': Event, m: Market, m': Market)
    requires e.id == e'.id && e.cols == e'.cols && m.id == m'.id && m.cols == m'.cols
    ensures RowsOfSelections(e, m, Selections(rows, odds, m.id))
                == RowsOfSelections(e', m', Selections(rows, odds', m.id))
  {
    if rows != [] {
      var n := |rows| - 1;
      SelectionsIgnorePrices(rows[..n], odds, odds', e, e', m, m');
      if rows[n].market == m.id {
        var before, before' := Selections(rows[..n], odds, m.id), Selections(rows[..n], odds', m.id);
        var all, all' := Selections(rows, odds, m.id), Selections(rows, odds', m.id);
        assert all[..|before|] == before && all'[..|before'|] == before';
      }
    }
  }

  // ---------------------------------------------------------------- the algorithm

  /** The event structs once the markets in `order` were appended. */
  ghost predicate EventTable(rows: seq<Row>, odds: map<(Id, Id), Odds>, order: seq<Id>, eventMap: map<Id, Event>) {
    && (forall e :: e in eventMap <==> FirstIndex(rows, ByEvent, e) < |rows|)
    && (forall e | e in eventMap ::
          eventMap[e] == Event(e, rows[FirstIndex(rows, ByEvent, e)].eventCols, MarketsOf(rows, odds, order, e)))
  }

  ghost predicate MarketTable(rows: seq<Row>, odds: map<(Id, Id), Odds>, marketMap: map<Id, Market>) {
    && (forall m :: m in marketMap <==> FirstIndex(rows, ByMarket, m) < |rows|)
    && (forall m | m in marketMap :: marketMap[m] == MarketAt(rows, odds, m))
  }

  ghost predicate OwnerTable(rows: seq<Row>, marketEvent: map<Id, Id>) {
    && (forall m :: m in marketEvent <==> FirstIndex(rows, ByMarket, m) < |rows|)
    && (forall m | m in marketEvent :: marketEvent[m] == rows[FirstIndex(rows, ByMarket, m)].event)
  }

  lemma FirstIndexSnoc(rows: seq<Row>, row: Row, level: Level, key: Id)
    ensures FirstIndex(rows + [row], level, key)
         == if FirstIndex(rows, level, key) < |rows| then FirstIndex(rows, level, key)
            else if KeyOf(row, level) == key then |rows| else |rows| + 1
  {
    assert (rows + [row])[..|rows|] == rows;
  }

  lemma EventStep(rows: seq<Row>, row: Row, eventMap: map<Id, Event>)
    requires EventTable(rows, map[], [], eventMap)
    ensures row.event in eventMap <==> row.event in Order(rows, ByEvent)
    ensures EventTable(rows + [row], map[], [],
              if row.event in eventMap then eventMap else eventMap[row.event := Event(row.event, row.eventCols, [])])
  {
    OrderIsPresent(rows, ByEvent, row.event);
    forall e { FirstIndexSnoc(rows, row, ByEvent, e); }
    hide FirstIndex, Order;
  }

  lemma OwnerStep(rows: seq<Row>, row: Row, marketEvent: map<Id, Id>)
    requires OwnerTable(rows, marketEvent)
    ensures OwnerTable(rows + [row],
              if row.market in marketEvent then marketEvent else marketEvent[row.market := row.event])
  {
    forall m { FirstIndexSnoc(rows, row, ByMarket, m); }
    hide FirstIndex;
  }

  lemma {:induction false} NoSelections(rows: seq<Row>, odds: map<(Id, Id), Odds>, market: Id)
    requires FirstIndex(rows, ByMarket, market) == |rows|
    ensures Selections(rows, odds, market) == []
  {
    if rows != [] {
      NoSelections(rows[..|rows| - 1], odds, market);
    }
  }

  lemma MarketStep(rows: seq<Row>, row: Row, marketMap: map<Id, Market>)
    requires MarketTable(rows, map[], marketMap)
    ensures row.market in marketMap <==> row.market in Order(rows, ByMarket)
    ensures var m := if row.market in marketMap then marketMap[row.market] else Market(row.market, row.marketCols, []);
            MarketTable(rows + [row], map[], marketMap[row.market :=
              m.(selections := m.selections + [Selection(row.selection, row.selectionCols, UNPRICED)])])
  {
    assert (rows + [row])[..|rows|] == rows;
    OrderIsPresent(rows, ByMarket, row.market);
    if row.market !in marketMap {
      NoSelections(rows, map[], row.market);
    }
  }

  /** The row loop. */
  method GroupRows(rows: seq<Row>)
    returns (eventMap: map<Id, Event>, marketMap: map<Id, Market>, marketEvent: map<Id, Id>,
             eventOrder: seq<Id>, marketOrder: seq<Id>, selKeys: seq<(Id, Id)>)
    ensures EventTable(rows, map[], [], eventMap) && MarketTable(rows, map[], marketMap)
    ensures OwnerTable(rows, marketEvent)
    ensures eventOrder == Order(rows, ByEvent) && marketOrder == Order(rows, ByMarket)
    ensures selKeys == seq(|rows|, i requires 0 <= i < |rows| => (rows[i].market, rows[i].selection))
  {
    hide EventTable, MarketTable, OwnerTable;
    eventMap, marketMap, marketEvent, eventOrder, marketOrder, selKeys := map[], map[], map[], [], [], [];
    EmptyTables();
    for k := 0 to |rows|
      invariant EventTable(rows[..k], map[], [], eventMap)
      invariant MarketTable(rows[..k], map[], marketMap) && OwnerTable(rows[..k], marketEvent)
      invariant marketMap.Keys == marketEvent.Keys
      invariant eventOrder == Order(rows[..k], ByEvent) && marketOrder == Order(rows[..k], ByMarket)
      invariant selKeys == seq(k, i requires 0 <= i < k => (rows[i].market, rows[i].selection))
    {
      var row := rows[k];
      EventStep(rows[..k], row, eventMap);
      OwnerStep(rows[..k], row, marketEvent);
      MarketStep(rows[..k], row, marketMap);
      assert rows[..k] + [row] == rows[..k + 1] && rows[..k + 1][..k] == rows[..k];
      if row.event !in eventMap {
        eventMap := eventMap[row.event := Event(row.event, row.eventCols, [])];
        eventOrder := eventOrder + [row.event];
      }
      var m := Market(row.market, row.marketCols, []);
      if row.market in marketMap {
        m := marketMap[row.market];
      } else {
        marketEvent := marketEvent[row.market := row.event];
        marketOrder := marketOrder + [row.market];
      }
      var selection := Selection(row.selection, row.selectionCols, UNPRICED);
      marketMap := marketMap[row.market := m.(selections := m.selections + [selection])];
      selKeys := selKeys + [(row.market, row.selection)];
    }
    assert rows[..|rows|] == rows;
  }

  lemma EmptyTables()
    ensures EventTable([], map[], [], map[]) && MarketTable([], map[], map[]) && OwnerTable([], map[])
  {}

  /** fetchOdds: a failed MGET prices nothing; entries that are missing or do not parse are not in `cache`. */
  method FetchOdds(keys: seq<(Id, Id)>, cache: map<(Id, Id), Odds>, ok: bool) returns (odds: map<(Id, Id), Odds>)
    ensures odds == map key | key in cache && key in keys && ok :: cache[key]
  {
    odds := map[];
    if !ok {
      return;
    }
    for i := 0 to |keys|
      invariant odds == map key | key in cache && key in keys[..i] :: cache[key]
    {
      if keys[i] in cache {
        odds := odds[keys[i] := cache[keys[i]]];
      }
    }
    assert keys[..|keys|] == keys;
  }

  method PriceMarket(market: Market, odds: map<(Id, Id), Odds>) returns (m: Market)
    ensures m == Priced(market, odds)
  {
    m := market;
    for i := 0 to |market.selections|
      invariant m == market.(selections := m.selections) && |m.selections| == |market.selections|
      invariant forall k | 0 <= k < i :: m.selections[k] == Priced(market, odds).selections[k]
      invariant forall k | i <= k < |m.selections| :: m.selections[k] == market.selections[k]
    {
      var s := m.selections[i];
      if (m.id, s.id) in odds {
        m := m.(selections := m.selections[i := s.(odds := odds[(m.id, s.id)])]);
      }
    }
    assert m.selections == Priced(market, odds).selections;
  }

  method InjectOdds(rows: seq<Row>, markets: map<Id, Market>, odds: map<(Id, Id), Odds>)
    returns (priced: map<Id, Market>)
    requires MarketTable(rows, map[], markets)
    ensures MarketTable(rows, odds, priced)
  {
    hide Priced, Selections;
    priced := markets;
    var rest := markets.Keys;
    while rest != {}
      invariant rest <= markets.Keys == priced.Keys
      invariant forall m | m in rest :: priced[m] == markets[m]
      invariant forall m | m in markets && m !in rest :: priced[m] == MarketAt(rows, odds, m)
      decreases rest
    {
      var id :| id in rest;
      var m := PriceMarket(priced[id], odds);
      PricedMarket(rows, odds, markets[id]);
      rest, priced := rest - {id}, priced[id := m];
    }
  }

  lemma PricedMarket(rows: seq<Row>, odds: map<(Id, Id), Odds>, m: Market)
    requires FirstIndex(rows, ByMarket, m.id) < |rows| && m == MarketAt(rows, map[], m.id)
    ensures Priced(m, odds) == MarketAt(rows, odds, m.id)
  {
    PricedSelections(rows, odds, m);
  }

  lemma BeforeAssembly(rows: seq<Row>, odds: map<(Id, Id), Odds>, eventMap: map<Id, Event>)
    requires EventTable(rows, map[], [], eventMap)
    ensures EventTable(rows, odds, [], eventMap)
  {}

  lemma FetchedPrices(rows: seq<Row>, keys: seq<(Id, Id)>, cache: map<(Id, Id), Odds>, odds: map<(Id, Id), Odds>)
    requires keys == seq(|rows|, i requires 0 <= i < |rows| => (rows[i].market, rows[i].selection))
    requires odds == map key | key in cache && key in keys :: cache[key]
    ensures SamePrices(rows, odds, cache)
  {
    forall i | 0 <= i < |rows|
      ensures PriceOf(odds, rows[i].market, rows[i].selection) == PriceOf(cache, rows[i].market, rows[i].selection)
    {
      assert keys[i] in keys;
    }
  }

  lemma AssembleStep(rows: seq<Row>, odds: map<(Id, Id), Odds>, order: seq<Id>, m: Id, eventMap: map<Id, Event>)
    requires EventTable(rows, odds, order, eventMap) && FirstIndex(rows, ByMarket, m) < |rows|
    ensures var e := rows[FirstIndex(rows, ByMarket, m)].event;
            && e in eventMap
            && EventTable(rows, odds, order + [m],
                 eventMap[e := eventMap[e].(markets := eventMap[e].markets + [MarketAt(rows, odds, m)])])
  {
    hide Selections;
    FirstIndexIsFirst(rows, ByEvent, rows[FirstIndex(rows, ByMarket, m)].event);
    assert (order + [m])[..|order|] == order;
  }

  /** buildEventsSnapshot after the query: group, price, assemble. */
  method BuildEventsSnapshot(rows: seq<Row>, cache: map<(Id, Id), Odds>, redisOk: bool) returns (result: seq<Event>)
    ensures result == SnapshotOf(rows, if redisOk then cache else map[])
    ensures forall e, m, k |
              0 <= e < |result| && 0 <= m < |result[e].markets| && 0 <= k < |result[e].markets[m].selections| ::
              var key := (result[e].markets[m].id, result[e].markets[m].selections[k].id);
              result[e].markets[m].selections[k].odds ==
                if redisOk && key in cache then cache[key] else Odds(0.0, 0)
  {
    PricesAreCached(rows, if redisOk then cache else map[]);
    hide EventTable, MarketTable, OwnerTable, MarketAt, EventAt;
    var eventMap, marketMap, marketEvent, eventOrder, marketOrder, selKeys := GroupRows(rows);
    var odds := FetchOdds(selKeys, cache, redisOk);
    if redisOk {
      FetchedPrices(rows, selKeys, cache, odds);
    }
    BeforeAssembly(rows, odds, eventMap);
    assert marketOrder[..0] == [];
    marketMap := InjectOdds(rows, marketMap, odds);
    for k := 0 to |marketOrder|
      invariant EventTable(rows, odds, marketOrder[..k], eventMap)
    {
      var m := marketOrder[k];
      MarketFound(rows, odds, m, marketMap, marketEvent);
      AssembleStep(rows, odds, marketOrder[..k], m, eventMap);
      assert marketOrder[..k] + [m] == marketOrder[..k + 1];
      var e := marketEvent[m];
      eventMap := eventMap[e := eventMap[e].(markets := eventMap[e].markets + [marketMap[m]])];
    }
    assert marketOrder[..|marketOrder|] == marketOrder;
    result := [];
    for k := 0 to |eventOrder|
      invariant |result| == k
      invariant forall i | 0 <= i < k :: result[i] == SnapshotOf(rows, odds)[i]
    {
      EventFound(rows, odds, k, eventMap);
      result := result + [eventMap[eventOrder[k]]];
    }
    SamePricesSameSnapshot(rows, odds, if redisOk then cache else map[]);
  }

  lemma MarketFound(rows: seq<Row>, odds: map<(Id, Id), Odds>, m: Id, marketMap: map<Id, Market>,
                    marketEvent: map<Id, Id>)
    requires MarketTable(rows, odds, marketMap) && OwnerTable(rows, marketEvent) && m in Order(rows, ByMarket)
    ensures FirstIndex(rows, ByMarket, m) < |rows| && m in marketMap && marketMap[m] == MarketAt(rows, odds, m)
    ensures m in marketEvent && marketEvent[m] == rows[FirstIndex(rows, ByMarket, m)].event
  {
    OrderIsPresent(rows, ByMarket, m);
  }

  lemma EventFound(rows: seq<Row>, odds: map<(Id, Id), Odds>, k: nat, eventMap: map<Id, Event>)
    requires EventTable(rows, odds, Order(rows, ByMarket), eventMap) && k < |Order(rows, ByEvent)|
    ensures Order(rows, ByEvent)[k] in eventMap && |SnapshotOf(rows, odds)| == |Order(rows, ByEvent)|
    ensures eventMap[Order(rows, ByEvent)[k]] == SnapshotOf(rows, odds)[k]
  {
    OrderIsPresent(rows, ByEvent, Order(rows, ByEvent)[k]);
  }
}
