/** The client's live view: a snapshot and the updates that arrive after it. */
module ClientView {
  import opened Platform

  datatype Score = Score(home: int, away: int, period: Id, clock: Id, status: Id)
  datatype Selection = Selection(id: Id, decimal: real, american: int)
  datatype Market = Market(id: Id, selections: seq<Selection>)
  /** NO_ID is the empty string, the one id that JavaScript takes for false. */
  datatype Event = Event(id: Id, score: Score, markets: seq<Market>)

  datatype Message =
    | SnapshotMsg(events: seq<Event>)
    | OddsMsg(market: Id, selections: seq<Selection>)
    | ScoreMsg(event: Id, score: Score)

  datatype Direction = Up | Down
  datatype Flash = Flash(id: Id, dir: Direction)

  // ---------------------------------------------------------------- odds

  /** Line k is the first one for this selection. */
  predicate FirstLine(lines: seq<Selection>, id: Id, k: nat) {
    k < |lines| && lines[k].id == id && forall j | 0 <= j < k :: lines[j].id != id
  }

  /** The first line for this selection. */
  function Find(lines: seq<Selection>, id: Id): (line: Option<Selection>)
    ensures line.None? <==> forall k | 0 <= k < |lines| :: lines[k].id != id
    ensures line.Some? ==> line.value in lines && line.value.id == id
  {
    if lines == [] then None
    else if lines[0].id == id then Some(lines[0])
    else Find(lines[1..], id)
  }

  /** What it finds is the first matching line, and it finds it whenever there is one. */
  lemma {:induction false} FindsFirst(lines: seq<Selection>, id: Id)
    ensures forall k: nat | FirstLine(lines, id, k) :: Find(lines, id) == Some(lines[k])
    ensures Find(lines, id).Some? ==> exists k: nat :: FirstLine(lines, id, k)
  {
    if lines != [] && lines[0].id == id {
      assert FirstLine(lines, id, 0);
    } else if lines != [] {
      FindsFirst(lines[1..], id);
      if Find(lines, id).Some? {
        var k: nat :| FirstLine(lines[1..], id, k);
        assert FirstLine(lines, id, k + 1);
      }
      forall k: nat | FirstLine(lines, id, k) ensures Find(lines, id) == Some(lines[k]) {
        assert FirstLine(lines[1..], id, k - 1);
      }
    }
  }

  /** The selection as the first line for it says, or as it was when no line names it. */
  ghost predicate Shows(s: Selection, s': Selection, lines: seq<Selection>) {
    && s'.id == s.id
    && (forall k: nat | FirstLine(lines, s.id, k) :: s'.decimal == lines[k].decimal && s'.american == lines[k].american)
    && ((forall k | 0 <= k < |lines| :: lines[k].id != s.id) ==> s' == s)
  }

  /** The view after an update: prices of the named market as the lines say, all else as it was. */
  ghost predicate ShowsUpdate(events: seq<Event>, next: seq<Event>, msg: Message)
    requires msg.OddsMsg?
  {
    && |next| == |events|
    && forall e | 0 <= e < |events| ::
         && next[e].id == events[e].id && next[e].score == events[e].score
         && ShowsMarkets(events[e].markets, next[e].markets, msg)
  }

  ghost predicate ShowsMarkets(markets: seq<Market>, next: seq<Market>, msg: Message)
    requires msg.OddsMsg?
  {
    && |next| == |markets|
    && forall m | 0 <= m < |markets| ::
         if markets[m].id != msg.market then next[m] == markets[m]
         else
           && next[m].id == markets[m].id && |next[m].selections| == |markets[m].selections|
           && forall k | 0 <= k < |markets[m].selections| ::
                Shows(markets[m].selections[k], next[m].selections[k], msg.selections)
  }

  lemma RepricedShows(s: Selection, lines: seq<Selection>)
    ensures Shows(s, Repriced(s, lines), lines)
  {
    FindsFirst(lines, s.id);
  }

  lemma WithOddsShows(events: seq<Event>, msg: Message)
    requires msg.OddsMsg?
    ensures ShowsUpdate(events, WithOdds(events, msg), msg)
  {
    hide Shows, Repriced;
    forall e, m, k | 0 <= e < |events| && 0 <= m < |events[e].markets| && 0 <= k < |events[e].markets[m].selections| {
      RepricedShows(events[e].markets[m].selections[k], msg.selections);
    }
  }

  function Repriced(s: Selection, lines: seq<Selection>): Selection {
    var line := Find(lines, s.id);
    if line.None? then s else s.(decimal := line.value.decimal, american := line.value.american)
  }

  function MarketRepriced(m: Market, msg: Message): Market
    requires msg.OddsMsg?
  {
    if m.id != msg.market then m
    else m.(selections := seq(|m.selections|, k requires 0 <= k < |m.selections| =>
      Repriced(m.selections[k], msg.selections)))
  }

  function EventRepriced(e: Event, msg: Message): Event
    requires msg.OddsMsg?
  {
    e.(markets := seq(|e.markets|, k requires 0 <= k < |e.markets| => MarketRepriced(e.markets[k], msg)))
  }

  function WithOdds(events: seq<Event>, msg: Message): (next: seq<Event>)
    requires msg.OddsMsg?
    ensures |next| == |events|
  {
    seq(|events|, k requires 0 <= k < |events| => EventRepriced(events[k], msg))
  }

  function FlashOf(s: Selection, lines: seq<Selection>): Flash {
    Flash(s.id, if Repriced(s, lines).decimal > s.decimal then Up else Down)
  }

  /** One flash for every selection whose odds differ, in order. */
  function SelectionFlashes(selections: seq<Selection>, lines: seq<Selection>): seq<Flash> {
    if selections == [] then []
    else
      var s := selections[|selections| - 1];
      SelectionFlashes(selections[..|selections| - 1], lines) + OwnFlash(s, lines)
  }

  function OwnFlash(s: Selection, lines: seq<Selection>): seq<Flash> {
    if Repriced(s, lines) != s then [FlashOf(s, lines)] else []
  }

  function MarketFlashes(markets: seq<Market>, msg: Message): seq<Flash>
    requires msg.OddsMsg?
  {
    if markets == [] then []
    else
      var m := markets[|markets| - 1];
      MarketFlashes(markets[..|markets| - 1], msg)
      + if m.id == msg.market then SelectionFlashes(m.selections, msg.selections) else []
  }

  function Flashes(events: seq<Event>, msg: Message): seq<Flash>
    requires msg.OddsMsg?
  {
    if events == [] then []
    else Flashes(events[..|events| - 1], msg) + MarketFlashes(events[|events| - 1].markets, msg)
  }

  lemma NoFlashes(lines: seq<Selection>)
    ensures SelectionFlashes([], lines) == []
  {}

  lemma NoMarketFlashes(msg: Message)
    requires msg.OddsMsg?
    ensures MarketFlashes([], msg) == []
  {}

  lemma NoEventFlashes(msg: Message)
    requires msg.OddsMsg?
    ensures Flashes([], msg) == []
  {}

  lemma FlashesSnoc(before: seq<Event>, e: Event, msg: Message)
    requires msg.OddsMsg?
    ensures Flashes(before + [e], msg) == Flashes(before, msg) + MarketFlashes(e.markets, msg)
  {
    assert (before + [e])[..|before|] == before;
  }

  lemma SelectionFlashesSnoc(before: seq<Selection>, s: Selection, lines: seq<Selection>)
    ensures SelectionFlashes(before + [s], lines)
         == SelectionFlashes(before, lines) + OwnFlash(s, lines)
  {
    hide OwnFlash;
    assert (before + [s])[..|before|] == before;
  }

  lemma MarketFlashesSnoc(before: seq<Market>, m: Market, msg: Message)
    requires msg.OddsMsg?
    ensures MarketFlashes(before + [m], msg)
         == MarketFlashes(before, msg)
            + if m.id == msg.market then SelectionFlashes(m.selections, msg.selections) else []
  {
    assert (before + [m])[..|before|] == before;
  }

  /** The innermost map of applyOddsUpdate; `changed` collects as it goes. */
  method UpdateSelections(m: Market, lines: seq<Selection>, changed: seq<Flash>)
    returns (selections: seq<Selection>, flashes: seq<Flash>, any: bool)
    ensures |selections| == |m.selections|
    ensures forall k | 0 <= k < |selections| :: selections[k] == Repriced(m.selections[k], lines)
    ensures flashes == changed + SelectionFlashes(m.selections, lines)
    ensures !any ==> selections == m.selections
  {
    hide SelectionFlashes;
    selections, flashes, any := [], changed, false;
    assert SelectionFlashes(m.selections[..0], lines) == [] by { NoFlashes(lines); }
    for k := 0 to |m.selections|
      invariant |selections| == k
      invariant forall i | 0 <= i < k :: selections[i] == Repriced(m.selections[i], lines)
      invariant flashes == changed + SelectionFlashes(m.selections[..k], lines)
      invariant !any ==> forall i | 0 <= i < k :: selections[i] == m.selections[i]
    {
      var s := m.selections[k];
      SelectionFlashesSnoc(m.selections[..k], s, lines);
      assert m.selections[..k + 1] == m.selections[..k] + [s];
      var update := Find(lines, s.id);
      if update.None? || (s.decimal == update.value.decimal && s.american == update.value.american) {
        selections := selections + [s];
      } else {
        flashes := flashes + [Flash(s.id, if update.value.decimal > s.decimal then Up else Down)];
        any := true;
        selections := selections + [s.(decimal := update.value.decimal, american := update.value.american)];
      }
    }
    assert m.selections[..|m.selections|] == m.selections;
  }

  method UpdateMarket(m: Market, msg: Message, changed: seq<Flash>)
    returns (market: Market, flashes: seq<Flash>, any: bool)
    requires msg.OddsMsg?
    ensures market == MarketRepriced(m, msg)
    ensures flashes == changed + if m.id == msg.market then SelectionFlashes(m.selections, msg.selections) else []
    ensures !any ==> market == m
  {
    hide SelectionFlashes, Repriced;
    if m.id != msg.market {
      return m, changed, false;
    }
    var selections;
    selections, flashes, any := UpdateSelections(m, msg.selections, changed);
    assert selections == MarketRepriced(m, msg).selections;
    market := if any then m.(selections := selections) else m;
  }

  method UpdateMarkets(e: Event, msg: Message, changed: seq<Flash>)
    returns (event: Event, flashes: seq<Flash>, any: bool)
    requires msg.OddsMsg?
    ensures event == EventRepriced(e, msg) && flashes == changed + MarketFlashes(e.markets, msg)
    ensures !any ==> event == e
  {
    hide MarketFlashes, MarketRepriced, SelectionFlashes;
    var markets: seq<Market> := [];
    flashes, any := changed, false;
    assert MarketFlashes(e.markets[..0], msg) == [] by { NoMarketFlashes(msg); }
    for k := 0 to |e.markets|
      invariant |markets| == k
      invariant forall i | 0 <= i < k :: markets[i] == MarketRepriced(e.markets[i], msg)
      invariant flashes == changed + MarketFlashes(e.markets[..k], msg)
      invariant !any ==> forall i | 0 <= i < k :: markets[i] == e.markets[i]
    {
      MarketFlashesSnoc(e.markets[..k], e.markets[k], msg);
      assert e.markets[..k + 1] == e.markets[..k] + [e.markets[k]];
      var market, more, mChanged := UpdateMarket(e.markets[k], msg, flashes);
      flashes := more;
      any := any || mChanged;
      markets := markets + [market];
    }
    assert e.markets[..|e.markets|] == e.markets;
    assert markets == EventRepriced(e, msg).markets;
    event := if any then e.(markets := markets) else e;
  }

  /** The outermost map. */
  method UpdateEvents(events: seq<Event>, msg: Message) returns (next: seq<Event>, changed: seq<Flash>)
    requires msg.OddsMsg?
    ensures next == WithOdds(events, msg) && changed == Flashes(events, msg)
  {
    hide Flashes, EventRepriced;
    next, changed := [], [];
    var any := false;
    assert Flashes(events[..0], msg) == [] by { NoEventFlashes(msg); }
    for k := 0 to |events|
      invariant |next| == k
      invariant forall i | 0 <= i < k :: next[i] == EventRepriced(events[i], msg)
      invariant changed == Flashes(events[..k], msg)
      invariant !any ==> forall i | 0 <= i < k :: next[i] == events[i]
    {
      FlashesSnoc(events[..k], events[k], msg);
      assert events[..k + 1] == events[..k] + [events[k]];
      var event, more, evChanged := UpdateMarkets(events[k], msg, changed);
      changed := more;
      any := any || evChanged;
      next := next + [event];
    }
    assert events[..|events|] == events;
    next := if any then next else events;
  }

  /** applyOddsUpdate. */
  method ApplyOddsUpdate(events: seq<Event>, msg: Message) returns (next: seq<Event>, changed: seq<Flash>)
    requires msg.OddsMsg?
    ensures next == WithOdds(events, msg) && changed == Flashes(events, msg)
    ensures ShowsUpdate(events, next, msg)
    ensures forall flash | flash in changed ::
              exists s :: s in Quoted(events, msg.market) && Tells(flash, s, msg.selections)
  {
    WithOddsShows(events, msg);
    FlashesTell(events, msg);
    next, changed := UpdateEvents(events, msg);
  }

  // ---------------------------------------------------------------- scores

  function Scored(e: Event, msg: Message): Event
    requires msg.ScoreMsg?
  {
    if e.id != msg.event then e else e.(score := msg.score)
  }

  /** An update for the empty event id is computed and then dropped. */
  function WithScore(events: seq<Event>, msg: Message): (next: seq<Event>)
    requires msg.ScoreMsg?
    ensures |next| == |events|
  {
    if msg.event == NO_ID then events
    else seq(|events|, k requires 0 <= k < |events| => Scored(events[k], msg))
  }

  predicate Affected(e: Event, msg: Message)
    requires msg.ScoreMsg?
  {
    e.id == msg.event && e.score != msg.score
  }

  predicate NewPoints(e: Event, msg: Message)
    requires msg.ScoreMsg?
  {
    e.id == msg.event && (e.score.home != msg.score.home || e.score.away != msg.score.away)
  }

  /** applyScoreUpdate; `changedId` NO_ID stands for null as well as for the empty id. */
  method ApplyScoreUpdate(events: seq<Event>, msg: Message)
    returns (next: seq<Event>, changedId: Id, scoreChanged: bool)
    requires msg.ScoreMsg?
    ensures next == WithScore(events, msg)
    ensures |next| == |events|
    ensures forall k | 0 <= k < |events| ::
              next[k] == if msg.event != NO_ID && events[k].id == msg.event then events[k].(score := msg.score)
                         else events[k]
    ensures changedId ==
              if exists k :: 0 <= k < |events| && events[k].id == msg.event && events[k].score != msg.score
              then msg.event else NO_ID
    ensures scoreChanged <==>
              exists k :: 0 <= k < |events| && events[k].id == msg.event
                          && (events[k].score.home != msg.score.home || events[k].score.away != msg.score.away)
  {
    next, changedId, scoreChanged := [], NO_ID, false;
    for k := 0 to |events|
      invariant |next| == k
      invariant forall i | 0 <= i < k :: next[i] == Scored(events[i], msg)
      invariant changedId == if exists i :: 0 <= i < k && Affected(events[i], msg) then msg.event else NO_ID
      invariant changedId == NO_ID && msg.event != NO_ID ==> forall i | 0 <= i < k :: next[i] == events[i]
      invariant scoreChanged <==> exists i :: 0 <= i < k && NewPoints(events[i], msg)
    {
      var e := events[k];
      if e.id != msg.event || e.score == msg.score {
        next := next + [e];
      } else {
        assert Affected(events[k], msg);
        if e.score.home != msg.score.home || e.score.away != msg.score.away {
          scoreChanged := true;
        }
        changedId := e.id;
        next := next + [e.(score := msg.score)];
      }
    }
    next := if changedId != NO_ID then next else events;
  }

  // ---------------------------------------------------------------- which selections flash

  predicate Differs(s: Selection, lines: seq<Selection>) {
    Repriced(s, lines) != s
  }

  predicate FlashedIn(selections: seq<Selection>, lines: seq<Selection>, flash: Flash) {
    exists k :: 0 <= k < |selections| && Differs(selections[k], lines) && FlashOf(selections[k], lines) == flash
  }

  predicate FlashedInMarkets(markets: seq<Market>, msg: Message, flash: Flash)
    requires msg.OddsMsg?
  {
    exists k :: 0 <= k < |markets| && markets[k].id == msg.market
                && FlashedIn(markets[k].selections, msg.selections, flash)
  }

  predicate Flashed(events: seq<Event>, msg: Message, flash: Flash)
    requires msg.OddsMsg?
  {
    exists k :: 0 <= k < |events| && FlashedInMarkets(events[k].markets, msg, flash)
  }

  lemma {:induction false} SelectionFlashesExact(selections: seq<Selection>, lines: seq<Selection>, flash: Flash)
    ensures flash in SelectionFlashes(selections, lines) <==> FlashedIn(selections, lines, flash)
  {
    if selections != [] {
      var n := |selections| - 1;
      SelectionFlashesExact(selections[..n], lines, flash);
      hide Repriced, FlashOf;
      assert selections == selections[..n] + [selections[n]];
    }
  }

  lemma {:induction false} MarketFlashesExact(markets: seq<Market>, msg: Message, flash: Flash)
    requires msg.OddsMsg?
    ensures flash in MarketFlashes(markets, msg) <==> FlashedInMarkets(markets, msg, flash)
  {
    hide FlashedIn, SelectionFlashes;
    if markets != [] {
      var n := |markets| - 1;
      MarketFlashesExact(markets[..n], msg, flash);
      SelectionFlashesExact(markets[n].selections, msg.selections, flash);
      assert markets == markets[..n] + [markets[n]];
    }
  }

  /** `changed` lists exactly the selections whose odds differed from their update, each with its direction. */
  lemma {:induction false} FlashesExactly(events: seq<Event>, msg: Message, flash: Flash)
    requires msg.OddsMsg?
    ensures flash in Flashes(events, msg) <==> Flashed(events, msg, flash)
  {
    hide FlashedInMarkets, MarketFlashes;
    if events != [] {
      var n := |events| - 1;
      FlashesExactly(events[..n], msg, flash);
      MarketFlashesExact(events[n].markets, msg, flash);
      assert events == events[..n] + [events[n]];
    }
  }

  /** All selections of a market, in view order, wherever the market is listed. */
  function QuotedIn(markets: seq<Market>, market: Id): seq<Selection> {
    if markets == [] then []
    else
      var m := markets[|markets| - 1];
      QuotedIn(markets[..|markets| - 1], market) + if m.id == market then m.selections else []
  }

  function Quoted(events: seq<Event>, market: Id): seq<Selection> {
    if events == [] then []
    else Quoted(events[..|events| - 1], market) + QuotedIn(events[|events| - 1].markets, market)
  }

  /** The positions of the selections that differ. */
  function Spots(selections: seq<Selection>, lines: seq<Selection>): seq<nat> {
    if selections == [] then []
    else
      var n := |selections| - 1;
      Spots(selections[..n], lines) + if Differs(selections[n], lines) then [n] else []
  }

  lemma UnfoldFlashes(all: seq<Selection>, lines: seq<Selection>)
    requires all != []
    ensures SelectionFlashes(all, lines)
         == SelectionFlashes(all[..|all| - 1], lines) + OwnFlash(all[|all| - 1], lines)
  {}

  lemma JoinLast(all: seq<Flash>, a: seq<Flash>, b: seq<Flash>, x: seq<Flash>)
    requires all == a + b + x
    ensures all == a + (b + x)
  {}

  lemma {:induction false} FlashesConcat(a: seq<Selection>, b: seq<Selection>, lines: seq<Selection>)
    ensures SelectionFlashes(a + b, lines) == SelectionFlashes(a, lines) + SelectionFlashes(b, lines)
    decreases |b|
  {
    if b == [] {
      assert a + b == a;
    } else {
      hide SelectionFlashes, OwnFlash;
      var n := |b| - 1;
      var c, last := b[..n], b[n];
      FlashesConcat(a, c, lines);
      UnfoldFlashes(a + b, lines);
      UnfoldFlashes(b, lines);
      assert (a + b)[..|a + b| - 1] == a + c && (a + b)[|a + b| - 1] == last;
      JoinLast(SelectionFlashes(a + b, lines), SelectionFlashes(a, lines), SelectionFlashes(c, lines),
               OwnFlash(last, lines));
    }
  }

  lemma {:induction false} MarketFlashesQuoted(markets: seq<Market>, msg: Message)
    requires msg.OddsMsg?
    ensures MarketFlashes(markets, msg) == SelectionFlashes(QuotedIn(markets, msg.market), msg.selections)
  {
    if markets != [] {
      var n := |markets| - 1;
      MarketFlashesQuoted(markets[..n], msg);
      var last := if markets[n].id == msg.market then markets[n].selections else [];
      FlashesConcat(QuotedIn(markets[..n], msg.market), last, msg.selections);
    }
  }

  lemma {:induction false} FlashesQuoted(events: seq<Event>, msg: Message)
    requires msg.OddsMsg?
    ensures Flashes(events, msg) == SelectionFlashes(Quoted(events, msg.market), msg.selections)
  {
    if events != [] {
      var n := |events| - 1;
      FlashesQuoted(events[..n], msg);
      MarketFlashesQuoted(events[n].markets, msg);
      FlashesConcat(Quoted(events[..n], msg.market), QuotedIn(events[n].markets, msg.market), msg.selections);
    }
  }

  lemma {:induction false} SpotsExact(selections: seq<Selection>, lines: seq<Selection>)
    ensures forall i, j | 0 <= i < j < |Spots(selections, lines)| ::
                Spots(selections, lines)[i] < Spots(selections, lines)[j]
    ensures forall k: nat :: k in Spots(selections, lines) <==> k < |selections| && Differs(selections[k], lines)
  {
    if selections != [] {
      var n := |selections| - 1;
      var before := Spots(selections[..n], lines);
      SpotsExact(selections[..n], lines);
      hide Differs;
      forall i | 0 <= i < |before| ensures before[i] < n { assert before[i] in before; }
    }
  }

  lemma {:induction false} SpotFlashes(selections: seq<Selection>, lines: seq<Selection>)
    ensures |Spots(selections, lines)| == |SelectionFlashes(selections, lines)|
    ensures forall i | 0 <= i < |Spots(selections, lines)| ::
              Spots(selections, lines)[i] < |selections|
              && SelectionFlashes(selections, lines)[i] == FlashOf(selections[Spots(selections, lines)[i]], lines)
  {
    if selections != [] {
      SpotFlashes(selections[..|selections| - 1], lines);
      hide Repriced, FlashOf;
    }
  }

  /**
   `changed` lists every selection of the market whose odds differed once, in
   view order and with its direction, and no other.
   */
  lemma FlashesOnceEach(events: seq<Event>, msg: Message)
    requires msg.OddsMsg?
    ensures var flashes, quoted := Flashes(events, msg), Quoted(events, msg.market);
            var spots := Spots(quoted, msg.selections);
            && |flashes| == |spots|
            && (forall i, j | 0 <= i < j < |spots| :: spots[i] < spots[j])
            && (forall k: nat :: k in spots <==> k < |quoted| && PriceMoves(quoted[k], msg.selections))
            && (forall i | 0 <= i < |spots| ::
                  spots[i] < |quoted| && Tells(flashes[i], quoted[spots[i]], msg.selections))
  {
    hide Differs, FlashOf, PriceMoves, Tells;
    var quoted := Quoted(events, msg.market);
    FlashesQuoted(events, msg);
    SpotsExact(quoted, msg.selections);
    SpotFlashes(quoted, msg.selections);
    forall k | 0 <= k < |quoted| { DiffersIsMove(quoted[k], msg.selections); }
    var spots := Spots(quoted, msg.selections);
    forall i | 0 <= i < |spots| ensures Differs(quoted[spots[i]], msg.selections) { assert spots[i] in spots; }
  }

  /** The first line for the selection has another price. */
  ghost predicate PriceMoves(s: Selection, lines: seq<Selection>) {
    exists k: nat :: FirstLine(lines, s.id, k) && (lines[k].decimal != s.decimal || lines[k].american != s.american)
  }

  /** The flash names the selection, and says up exactly when the line's decimal is the higher one. */
  ghost predicate Tells(flash: Flash, s: Selection, lines: seq<Selection>) {
    && flash.id == s.id && PriceMoves(s, lines)
    && forall k: nat | FirstLine(lines, s.id, k) :: flash.dir == Up <==> lines[k].decimal > s.decimal
  }

  lemma DiffersIsMove(s: Selection, lines: seq<Selection>)
    ensures Differs(s, lines) <==> PriceMoves(s, lines)
    ensures Differs(s, lines) ==> Tells(FlashOf(s, lines), s, lines)
  {
    RepricedShows(s, lines);
    FindsFirst(lines, s.id);
    var line := Find(lines, s.id);
    if line.Some? {
      var k: nat :| FirstLine(lines, s.id, k);
      assert line.value == lines[k];
    }
  }

  lemma FlashesTell(events: seq<Event>, msg: Message)
    requires msg.OddsMsg?
    ensures forall flash | flash in Flashes(events, msg) ::
              exists s :: s in Quoted(events, msg.market) && Tells(flash, s, msg.selections)
  {
    hide Tells, PriceMoves;
    FlashesOnceEach(events, msg);
    var flashes, quoted := Flashes(events, msg), Quoted(events, msg.market);
    forall flash | flash in flashes ensures exists s :: s in quoted && Tells(flash, s, msg.selections) {
      var i :| 0 <= i < |flashes| && flashes[i] == flash;
      assert quoted[Spots(quoted, msg.selections)[i]] in quoted;
    }
  }

  lemma {:induction false} QuietSelections(selections: seq<Selection>, lines: seq<Selection>)
    ensures SelectionFlashes(selections, lines) == []
        <==> forall k | 0 <= k < |selections| :: !Differs(selections[k], lines)
  {
    if selections != [] {
      var n := |selections| - 1;
      QuietSelections(selections[..n], lines);
      hide Repriced, FlashOf;
      assert selections == selections[..n] + [selections[n]];
    }
  }

  lemma QuietMarket(m: Market, msg: Message)
    requires msg.OddsMsg?
    ensures MarketRepriced(m, msg) == m
        <==> m.id != msg.market || forall k | 0 <= k < |m.selections| :: !Differs(m.selections[k], msg.selections)
  {
    hide Repriced;
    var selections := MarketRepriced(m, msg).selections;
    if m.id == msg.market && forall k | 0 <= k < |m.selections| :: !Differs(m.selections[k], msg.selections) {
      assert selections == m.selections;
    }
    if m.id == msg.market && MarketRepriced(m, msg) == m {
      forall k | 0 <= k < |m.selections| ensures !Differs(m.selections[k], msg.selections) {
        assert selections[k] == Repriced(m.selections[k], msg.selections);
      }
    }
  }

  lemma NoneOfEither(a: seq<Flash>, b: seq<Flash>)
    ensures a + b == [] <==> a == [] && b == []
  {}

  lemma QuietOwn(m: Market, msg: Message)
    requires msg.OddsMsg?
    ensures (if m.id == msg.market then SelectionFlashes(m.selections, msg.selections) else []) == []
        <==> MarketRepriced(m, msg) == m
  {
    QuietMarket(m, msg);
    QuietSelections(m.selections, msg.selections);
    hide MarketRepriced, SelectionFlashes, Differs;
  }

  lemma {:induction false} QuietMarkets(markets: seq<Market>, msg: Message)
    requires msg.OddsMsg?
    ensures MarketFlashes(markets, msg) == []
        <==> forall k | 0 <= k < |markets| :: MarketRepriced(markets[k], msg) == markets[k]
  {
    hide MarketRepriced, SelectionFlashes, Differs;
    if markets != [] {
      var n := |markets| - 1;
      var m := markets[n];
      QuietMarkets(markets[..n], msg);
      QuietOwn(m, msg);
      NoneOfEither(MarketFlashes(markets[..n], msg),
                   if m.id == msg.market then SelectionFlashes(m.selections, msg.selections) else []);
    }
  }

  lemma QuietEvent(e: Event, msg: Message)
    requires msg.OddsMsg?
    ensures EventRepriced(e, msg) == e
        <==> forall k | 0 <= k < |e.markets| :: MarketRepriced(e.markets[k], msg) == e.markets[k]
  {
    hide MarketRepriced;
    var markets := EventRepriced(e, msg).markets;
    if forall k | 0 <= k < |e.markets| :: MarketRepriced(e.markets[k], msg) == e.markets[k] {
      assert markets == e.markets;
    }
    if EventRepriced(e, msg) == e {
      forall k | 0 <= k < |e.markets| ensures MarketRepriced(e.markets[k], msg) == e.markets[k] {
        assert markets[k] == MarketRepriced(e.markets[k], msg);
      }
    }
  }

  /** `changed` is empty exactly when the update leaves the view as it was. */
  lemma {:induction false} NoFlashNoChange(events: seq<Event>, msg: Message)
    requires msg.OddsMsg?
    ensures Flashes(events, msg) == [] <==> WithOdds(events, msg) == events
  {
    hide EventRepriced, MarketRepriced, MarketFlashes;
    if events != [] {
      var n := |events| - 1;
      NoFlashNoChange(events[..n], msg);
      QuietMarkets(events[n].markets, msg);
      QuietEvent(events[n], msg);
      NoneOfEither(Flashes(events[..n], msg), MarketFlashes(events[n].markets, msg));
      WithOddsLast(events, msg);
      hide WithOdds;
    }
  }

  lemma WithOddsLast(events: seq<Event>, msg: Message)
    requires msg.OddsMsg? && events != []
    ensures var n := |events| - 1;
            WithOdds(events, msg) == events
            <==> WithOdds(events[..n], msg) == events[..n] && EventRepriced(events[n], msg) == events[n]
  {
    hide EventRepriced;
    var n := |events| - 1;
    assert WithOdds(events, msg) == WithOdds(events[..n], msg) + [EventRepriced(events[n], msg)];
    assert events == events[..n] + [events[n]];
  }

  // ---------------------------------------------------------------- last writer wins

  /** The view after a run of messages. */
  function After(events: seq<Event>, msgs: seq<Message>): seq<Event> {
    if msgs == [] then events
    else
      var before, msg := After(events, msgs[..|msgs| - 1]), msgs[|msgs| - 1];
      match msg
      case SnapshotMsg(loaded) => loaded
      case OddsMsg(_, _) => WithOdds(before, msg)
      case ScoreMsg(_, _) => WithScore(before, msg)
  }

  /** The odds of a selection after the messages: those of the last update naming it. */
  function LastOdds(msgs: seq<Message>, market: Id, s: Selection): Selection {
    if msgs == [] then s
    else
      var msg := msgs[|msgs| - 1];
      if msg.OddsMsg? && msg.market == market && Find(msg.selections, s.id).Some? then
        var line := Find(msg.selections, s.id).value;
        Selection(s.id, line.decimal, line.american)
      else LastOdds(msgs[..|msgs| - 1], market, s)
  }

  /** The score of an event after the messages: that of the last update naming it. */
  function LastScore(msgs: seq<Message>, e: Event): Score {
    if msgs == [] then e.score
    else
      var msg := msgs[|msgs| - 1];
      if msg.ScoreMsg? && msg.event == e.id && e.id != NO_ID then msg.score else LastScore(msgs[..|msgs| - 1], e)
  }

  function OverlaidMarket(msgs: seq<Message>, m: Market): Market {
    m.(selections := seq(|m.selections|, k requires 0 <= k < |m.selections| => LastOdds(msgs, m.id, m.selections[k])))
  }

  function OverlaidEvent(msgs: seq<Message>, e: Event): Event {
    Event(e.id, LastScore(msgs, e), seq(|e.markets|, k requires 0 <= k < |e.markets| =>
      OverlaidMarket(msgs, e.markets[k])))
  }

  /** The snapshot with the last update of every selection and every event laid over it. */
  function Overlaid(events: seq<Event>, msgs: seq<Message>): (view: seq<Event>)
    ensures |view| == |events|
  {
    seq(|events|, k requires 0 <= k < |events| => OverlaidEvent(msgs, events[k]))
  }

  lemma {:induction false} LastOddsKeepsId(msgs: seq<Message>, market: Id, s: Selection)
    ensures LastOdds(msgs, market, s).id == s.id
  {
    if msgs != [] {
      LastOddsKeepsId(msgs[..|msgs| - 1], market, s);
    }
  }

  lemma OddsStep(before: seq<Message>, msg: Message, market: Id, s: Selection)
    requires msg.OddsMsg? && msg.market == market
    ensures Repriced(LastOdds(before, market, s), msg.selections) == LastOdds(before + [msg], market, s)
  {
    assert (before + [msg])[..|before|] == before;
    LastOddsKeepsId(before, market, s);
  }

  lemma OtherStep(before: seq<Message>, msg: Message, market: Id, s: Selection)
    requires !msg.OddsMsg? || msg.market != market
    ensures LastOdds(before, market, s) == LastOdds(before + [msg], market, s)
  {
    assert (before + [msg])[..|before|] == before;
  }

  lemma MarketStep(before: seq<Message>, msg: Message, m: Market)
    requires !msg.SnapshotMsg?
    ensures OverlaidMarket(before + [msg], m)
         == if msg.OddsMsg? then MarketRepriced(OverlaidMarket(before, m), msg) else OverlaidMarket(before, m)
  {
    hide LastOdds, Repriced;
    forall k | 0 <= k < |m.selections|
      ensures LastOdds(before + [msg], m.id, m.selections[k])
           == if msg.OddsMsg? && msg.market == m.id
              then Repriced(LastOdds(before, m.id, m.selections[k]), msg.selections)
              else LastOdds(before, m.id, m.selections[k])
    {
      if msg.OddsMsg? && msg.market == m.id {
        OddsStep(before, msg, m.id, m.selections[k]);
      } else {
        OtherStep(before, msg, m.id, m.selections[k]);
      }
    }
  }

  lemma EventStep(before: seq<Message>, msg: Message, e: Event)
    requires !msg.SnapshotMsg?
    ensures OverlaidEvent(before + [msg], e)
         == if msg.OddsMsg? then EventRepriced(OverlaidEvent(before, e), msg)
            else if msg.event == NO_ID then OverlaidEvent(before, e)
            else Scored(OverlaidEvent(before, e), msg)
  {
    hide OverlaidMarket, MarketRepriced;
    assert (before + [msg])[..|before|] == before;
    forall k | 0 <= k < |e.markets| { MarketStep(before, msg, e.markets[k]); }
    hide LastOdds;
  }

  /** Last writer wins: after a snapshot, only the last update of each selection and of each event shows. */
  lemma {:induction false} LastWriterWins(events: seq<Event>, msgs: seq<Message>)
    requires forall k | 0 <= k < |msgs| :: !msgs[k].SnapshotMsg?
    ensures After(events, msgs) == Overlaid(events, msgs)
  {
    if msgs == [] {
      forall k | 0 <= k < |events| ensures OverlaidEvent([], events[k]) == events[k] { NoMessages(events[k]); }
    } else {
      var n := |msgs| - 1;
      LastWriterWins(events, msgs[..n]);
      assert msgs == msgs[..n] + [msgs[n]];
      hide OverlaidEvent, EventRepriced, Scored;
      forall k | 0 <= k < |events| { EventStep(msgs[..n], msgs[n], events[k]); }
    }
  }

  lemma NoMessages(e: Event)
    ensures OverlaidEvent([], e) == e
  {
    forall k | 0 <= k < |e.markets| ensures OverlaidMarket([], e.markets[k]) == e.markets[k] {
      var m := e.markets[k];
      assert OverlaidMarket([], m).selections == m.selections;
    }
    assert OverlaidEvent([], e).markets == e.markets;
  }

  /** A snapshot erases everything before it, whatever came before. */
  lemma {:induction false} SnapshotErases(events: seq<Event>, before: seq<Message>, loaded: seq<Event>,
                                          msgs: seq<Message>)
    ensures After(events, before + [SnapshotMsg(loaded)] + msgs) == After(loaded, msgs)
    decreases |msgs|
  {
    var all := before + [SnapshotMsg(loaded)] + msgs;
    if msgs == [] {
      assert all == before + [SnapshotMsg(loaded)];
    } else {
      SnapshotErases(events, before, loaded, msgs[..|msgs| - 1]);
      assert all[..|all| - 1] == before + [SnapshotMsg(loaded)] + msgs[..|msgs| - 1];
    }
  }

  lemma RepricedTwice(m: Market, msg: Message)
    requires msg.OddsMsg?
    ensures MarketRepriced(MarketRepriced(m, msg), msg) == MarketRepriced(m, msg)
  {}

  /** Applying the same odds again changes nothing and flashes nothing. */
  lemma OddsOnce(events: seq<Event>, msg: Message)
    requires msg.OddsMsg?
    ensures WithOdds(WithOdds(events, msg), msg) == WithOdds(events, msg)
    ensures Flashes(WithOdds(events, msg), msg) == []
  {
    hide MarketRepriced, Flashes;
    forall k | 0 <= k < |events|
      ensures EventRepriced(EventRepriced(events[k], msg), msg) == EventRepriced(events[k], msg) {
      forall j | 0 <= j < |events[k].markets| { RepricedTwice(events[k].markets[j], msg); }
    }
    assert WithOdds(WithOdds(events, msg), msg) == WithOdds(events, msg);
    NoFlashNoChange(WithOdds(events, msg), msg);
  }

  /**
   Applying the same score again changes nothing, and is not reported as a
   change: no event is affected and no points are new, except under the empty
   id, whose update is dropped every time.
   */
  lemma ScoreOnce(events: seq<Event>, msg: Message)
    requires msg.ScoreMsg?
    ensures WithScore(WithScore(events, msg), msg) == WithScore(events, msg)
    ensures msg.event != NO_ID ==>
              forall k | 0 <= k < |events| ::
                !Affected(WithScore(events, msg)[k], msg) && !NewPoints(WithScore(events, msg)[k], msg)
  {
    assert forall e: Event :: Scored(Scored(e, msg), msg) == Scored(e, msg);
  }

  /** Odds and scores commute. */
  lemma OddsAndScoresCommute(events: seq<Event>, odds: Message, score: Message)
    requires odds.OddsMsg? && score.ScoreMsg?
    ensures WithScore(WithOdds(events, odds), score) == WithOdds(WithScore(events, score), odds)
  {
    hide MarketRepriced;
    forall k | 0 <= k < |events|
      ensures Scored(EventRepriced(events[k], odds), score) == EventRepriced(Scored(events[k], score), odds) {}
  }
}
