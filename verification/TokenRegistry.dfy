/** The token registry's coalesced wake-up and the price feed that follows it. */
module TokenRegistry {
  import opened Platform
  import opened Sequences

  datatype TokenEntry = TokenEntry(token: Id, condition: Id, selIndex: int, provider: Id)

  function Tokens(entries: seq<TokenEntry>): set<Id> {
    set k | 0 <= k < |entries| :: entries[k].token
  }

  /** The registry after the entries were put in one by one. */
  function Entered(byToken: map<Id, TokenEntry>, entries: seq<TokenEntry>): map<Id, TokenEntry> {
    if entries == [] then byToken
    else
      var e := entries[|entries| - 1];
      Entered(byToken, entries[..|entries| - 1])[e.token := e]
  }

  /** A token maps to its last entry, and to what it was when the batch does not name it; no token is dropped. */
  lemma {:induction false} EnteredLastWins(byToken: map<Id, TokenEntry>, entries: seq<TokenEntry>, id: Id)
    ensures Entered(byToken, entries).Keys == byToken.Keys + Tokens(entries)
    ensures id !in Tokens(entries) && id in byToken ==> Entered(byToken, entries)[id] == byToken[id]
    ensures forall k | 0 <= k < |entries| && entries[k].token == id
                       && (forall l | k < l < |entries| :: entries[l].token != id) ::
              Entered(byToken, entries)[id] == entries[k]
  {
    if entries != [] {
      var n := |entries| - 1;
      EnteredLastWins(byToken, entries[..n], id);
      assert entries[..n] + [entries[n]] == entries;
      assert Tokens(entries) == Tokens(entries[..n]) + {entries[n].token};
    }
  }

  class Registry {
    var byToken: map<Id, TokenEntry>
    /** The one-slot channel. */
    var notify: bool

    constructor ()
      ensures byToken == map[] && !notify
    {
      byToken, notify := map[], false;
    }

    /** The part of Register under the lock. */
    method Write(entries: seq<TokenEntry>)
      modifies this`byToken
      ensures byToken == Entered(old(byToken), entries)
    {
      for k := 0 to |entries|
        invariant byToken == Entered(old(byToken), entries[..k])
      {
        byToken := byToken[entries[k].token := entries[k]];
        assert entries[..k + 1][..k] == entries[..k];
      }
      assert entries[..|entries|] == entries;
    }

    /** Register: the entries first, then a send that never blocks. */
    method Register(entries: seq<TokenEntry>)
      modifies this
      ensures byToken == Entered(old(byToken), entries) && notify
      ensures forall s: World, c | s.registry == old(byToken).Keys && c !in s.writers ::
                Apply(Apply(s, Enter(c, Tokens(entries))), Signal(c)) == s.(registry := byToken.Keys, signal := notify)
    {
      Write(entries);
      notify := true;
      EnteredLastWins(old(byToken), entries, NO_ID);
    }

    method TakeSignal() returns (taken: bool)
      modifies this`notify
      ensures taken == old(notify) && !notify
      ensures forall s: World | s.phase == Live && s.signal == old(notify) ::
                Apply(s, Step.TakeSignal) == if taken then s.(phase := Woken, signal := notify) else s
    {
      taken := notify;
      notify := false;
    }

    /** AllTokenIDs, in any order. */
    method AllTokenIDs() returns (ids: seq<Id>)
      ensures Elements(ids) == byToken.Keys && Distinct(ids)
    {
      ids := [];
      var rest := byToken.Keys;
      while rest != {}
        invariant Distinct(ids) && Elements(ids) !! rest && Elements(ids) + rest == byToken.Keys
        decreases rest
      {
        var id :| id in rest;
        ElementsSnoc(ids, id);
        ids, rest := ids + [id], rest - {id};
      }
    }
  }

  class Connection {
    var subscribed: set<Id>
    /** What the peer was told: a failed write leaves it behind `subscribed`. */
    var announced: set<Id>

    /** connectAndStream up to its loop. */
    constructor (ids: seq<Id>)
      ensures subscribed == Elements(ids) && announced == Elements(ids)
    {
      subscribed, announced := Elements(ids), Elements(ids);
    }

    /** handleRegistryChange: the two differences are told to the peer, each token once. */
    method HandleRegistryChange(current: seq<Id>, subOk: bool, unsubOk: bool) returns (toSub: seq<Id>, toUnsub: seq<Id>)
      modifies this
      ensures subscribed == Elements(current)
      ensures Distinct(toSub) && Elements(toSub) == Elements(current) - old(subscribed)
      ensures Distinct(toUnsub) && Elements(toUnsub) == old(subscribed) - Elements(current)
      ensures announced == old(announced) + (if subOk then Elements(toSub) else {})
                           - (if unsubOk then Elements(toUnsub) else {})
      ensures forall s: World |
                s.phase == Woken && s.registry == Elements(current) && s.subscribed == old(subscribed) ::
                Apply(s, Reread)
                == s.(phase := Live, subscribed := subscribed, unsubscribed := s.unsubscribed + Elements(toUnsub))
    {
      ghost var before := subscribed;
      toSub, toUnsub := [], [];
      for k := 0 to |current|
        invariant Distinct(toSub) && Elements(toSub) == Elements(current[..k]) - before
        invariant subscribed == before + Elements(current[..k]) && announced == old(announced)
      {
        assert current[..k + 1] == current[..k] + [current[k]];
        ElementsSnoc(current[..k], current[k]);
        if current[k] !in subscribed {
          ElementsSnoc(toSub, current[k]);
          toSub, subscribed := toSub + [current[k]], subscribed + {current[k]};
        }
      }
      assert current[..|current|] == current;
      var currentSet, rest := Elements(current), subscribed;
      while rest != {}
        invariant rest <= subscribed
        invariant subscribed == (before + currentSet) - Elements(toUnsub)
        invariant Distinct(toUnsub) && Elements(toUnsub) == before + currentSet - rest - currentSet
        invariant announced == old(announced)
        decreases rest
      {
        var id :| id in rest;
        rest := rest - {id};
        if id !in currentSet {
          ElementsSnoc(toUnsub, id);
          toUnsub, subscribed := toUnsub + [id], subscribed - {id};
        }
      }
      if |toSub| > 0 && subOk {
        announced := announced + Elements(toSub);
      }
      if |toUnsub| > 0 && unsubOk {
        announced := announced - Elements(toUnsub);
      }
    }
  }

  // ---------------------------------------------------------------- any number of writers, one feed

  /** Counting and Blocked are the wait for a first token; Woken has taken a signal and not yet read the registry. */
  datatype Phase = Counting | Blocked | Dialing | Live | Woken

  datatype World = World(
    registry: set<Id>, signal: bool, writers: set<CallId>,
    phase: Phase, subscribed: set<Id>, unsubscribed: set<Id>)

  const START := World({}, false, {}, Counting, {}, {})

  datatype Step =
    | Enter(c: CallId, ids: set<Id>)
    | Signal(c: CallId)
    | Count
    | Wake
    | Connect
    | TakeSignal
    | Reread
    | Disconnect

  function Apply(s: World, step: Step): World {
    match step
    case Enter(c, ids) =>
      if c in s.writers then s else s.(registry := s.registry + ids, writers := s.writers + {c})
    case Signal(c) =>
      if c !in s.writers then s else s.(signal := true, writers := s.writers - {c})
    case Count =>
      if s.phase != Counting then s else s.(phase := if s.registry == {} then Blocked else Dialing)
    case Wake =>
      if s.phase != Blocked || !s.signal then s else s.(phase := Counting, signal := false)
    case Connect =>
      if s.phase != Dialing then s else s.(phase := Live, subscribed := s.registry)
    case TakeSignal =>
      if s.phase != Live || !s.signal then s else s.(phase := Woken, signal := false)
    case Reread =>
      if s.phase != Woken then s
      else
        var (toSub, toUnsub) := (s.registry - s.subscribed, s.subscribed - s.registry);
        s.(phase := Live, subscribed := s.subscribed + toSub - toUnsub, unsubscribed := s.unsubscribed + toUnsub)
    case Disconnect =>
      if s.phase != Live && s.phase != Woken then s else s.(phase := Dialing, subscribed := {})
  }

  function Run(steps: seq<Step>): World {
    if steps == [] then START else Apply(Run(steps[..|steps| - 1]), steps[|steps| - 1])
  }

  /** Someone will still tell the feed to look. */
  predicate NewsOnItsWay(s: World) {
    s.signal || s.writers != {}
  }

  /** A feed that neither looks nor is about to be told to look has seen every token. */
  predicate NothingMissed(s: World) {
    && (s.phase == Live ==> s.subscribed == s.registry || NewsOnItsWay(s))
    && (s.phase == Blocked ==> s.registry == {} || NewsOnItsWay(s))
  }

  lemma {:induction false} RunMissesNothing(steps: seq<Step>)
    ensures NothingMissed(Run(steps)) && Run(steps).subscribed <= Run(steps).registry
    ensures Run(steps).unsubscribed == {}
  {
    if steps != [] {
      RunMissesNothing(steps[..|steps| - 1]);
    }
  }

  /**
   No lost wake-up: a live feed that has no signal to take,
   with no Register under way, follows exactly the registered tokens.
   */
  lemma NoLostWakeUp(steps: seq<Step>)
    requires Run(steps).phase == Live && !Run(steps).signal && Run(steps).writers == {}
    ensures Run(steps).subscribed == Run(steps).registry
  {
    RunMissesNothing(steps);
  }

  /** A feed waiting for its first token is never stuck once one is registered: it can connect and follow everything. */
  lemma WaitEnds(steps: seq<Step>)
    requires Run(steps).phase == Blocked && Run(steps).registry != {} && Run(steps).writers == {}
    ensures var s := Apply(Apply(Apply(Run(steps), Wake), Count), Connect);
            s.phase == Live && s.subscribed == s.registry == Run(steps).registry
  {
    RunMissesNothing(steps);
  }

  /** However many Registers one signal stands for, one take and one read catch up with all of them. */
  lemma OneReadCatchesUp(steps: seq<Step>)
    requires Run(steps).writers == {} && (Run(steps).phase == Live || Run(steps).phase == Woken)
    ensures var s := Apply(Apply(Run(steps), TakeSignal), Reread);
            s.phase == Live && s.subscribed == s.registry == Run(steps).registry
  {
    RunMissesNothing(steps);
  }

  /** A connection that breaks is made again, and follows everything registered by then. */
  lemma Reconnects(steps: seq<Step>)
    requires Run(steps).phase == Live || Run(steps).phase == Woken
    ensures var s := Apply(Apply(Run(steps), Disconnect), Connect);
            s == Run(steps).(phase := Live, subscribed := Run(steps).registry)
    ensures Apply(Run(steps), Disconnect).subscribed == {}
  {}

  /** What is registered stays registered, and a live connection never drops a token it follows. */
  lemma {:induction false} FollowsForGood(steps: seq<Step>, more: seq<Step>)
    requires forall k | 0 <= k < |more| :: more[k] != Disconnect
    ensures Run(steps).registry <= Run(steps + more).registry
    ensures Run(steps).subscribed <= Run(steps + more).subscribed
    decreases |more|
  {
    if more == [] {
      assert steps + more == steps;
    } else {
      var n := |more| - 1;
      FollowsForGood(steps, more[..n]);
      RunMissesNothing(steps + more[..n]);
      assert (steps + more)[..|steps + more| - 1] == steps + more[..n];
    }
  }
}
