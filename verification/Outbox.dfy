/** The transactional outbox: its status updates and the relay that drains it. */
module Outbox {
  import opened Platform
  import opened BetHistory
  import opened Sequences

  datatype OutboxStatus = Pending | Ready | Published | Cancelled

  datatype Payload = Payload(slip: Slip, placedAt: Time)

  datatype OutboxRow = OutboxRow(id: Id, bet: BetId, payload: Payload, status: OutboxStatus, createdAt: Time)

  /** A record of the bet-placed topic; the outbox id travels as a header. */
  datatype Message = Message(outbox: Id, payload: Payload)

  function MessageOf(row: OutboxRow): Message {
    Message(row.id, row.payload)
  }

  const BATCH: nat := 100

  // ---------------------------------------------------------------- the three UPDATEs

  /** markOutboxReady: only a PENDING row of the bet. */
  function MarkedReady(rows: seq<OutboxRow>, bet: BetId): seq<OutboxRow> {
    seq(|rows|, i requires 0 <= i < |rows| =>
      if rows[i].bet == bet && rows[i].status == Pending then rows[i].(status := Ready) else rows[i])
  }

  /** cancelOutbox: every row of the bet, whatever its status. */
  function MarkedCancelled(rows: seq<OutboxRow>, bet: BetId): seq<OutboxRow> {
    seq(|rows|, i requires 0 <= i < |rows| =>
      if rows[i].bet == bet then rows[i].(status := Cancelled) else rows[i])
  }

  /** markPublished: the row with this id, whatever its status. */
  function MarkedPublished(rows: seq<OutboxRow>, id: Id): seq<OutboxRow> {
    seq(|rows|, i requires 0 <= i < |rows| =>
      if rows[i].id == id then rows[i].(status := Published) else rows[i])
  }

  predicate IdsDistinct(rows: seq<OutboxRow>) {
    forall i, j | 0 <= i < j < |rows| :: rows[i].id != rows[j].id
  }

  // ---------------------------------------------------------------- one poll

  function ReadySet(rows: seq<OutboxRow>): set<nat> {
    set i: nat | i < |rows| && rows[i].status == Ready
  }

  predicate NotYounger(rows: seq<OutboxRow>, i: nat, j: nat) {
    i < |rows| && j < |rows| && rows[i].createdAt <= rows[j].createdAt
  }

  predicate InOrder(rows: seq<OutboxRow>, s: seq<nat>) {
    && (forall k | 0 <= k < |s| :: s[k] < |rows|)
    && (forall k, l | 0 <= k < l < |s| :: NotYounger(rows, s[k], s[l]))
  }

  /** Everything in `s` was created no later than everything in `rest`. */
  predicate AllBefore(rows: seq<OutboxRow>, s: seq<nat>, rest: set<nat>) {
    forall k, j | 0 <= k < |s| && j in rest :: NotYounger(rows, s[k], j)
  }

  /** The oldest of the READY rows, oldest first. */
  predicate IsOldest(rows: seq<OutboxRow>, batch: seq<nat>) {
    && Distinct(batch) && InOrder(rows, batch) && Elements(batch) <= ReadySet(rows)
    && AllBefore(rows, batch, ReadySet(rows) - Elements(batch))
  }

  /** An answer the fetch query may give: the `limit` oldest READY rows, or all of them; ties in any order. */
  predicate IsFetch(rows: seq<OutboxRow>, limit: nat, batch: seq<nat>) {
    IsOldest(rows, batch) && |batch| == (if |ReadySet(rows)| <= limit then |ReadySet(rows)| else limit)
  }

  /** The rows after these were marked published. */
  function Publish(rows: seq<OutboxRow>, done: set<nat>): seq<OutboxRow> {
    seq(|rows|, i requires 0 <= i < |rows| => if i in done then rows[i].(status := Published) else rows[i])
  }

  /** The part of a batch whose send did not fail. */
  function Sent(batch: seq<nat>, lost: set<nat>): seq<nat> {
    if batch == [] then []
    else
      var before, i := Sent(batch[..|batch| - 1], lost), batch[|batch| - 1];
      if i in lost then before else before + [i]
  }

  function Messages(rows: seq<OutboxRow>, batch: seq<nat>): (messages: seq<Message>)
    requires forall k | 0 <= k < |batch| :: batch[k] < |rows|
    ensures |messages| == |batch|
  {
    seq(|batch|, k requires 0 <= k < |batch| => MessageOf(rows[batch[k]]))
  }

  // ---------------------------------------------------------------- the relay

  class Relay {
    var rows: seq<OutboxRow>
    var topic: seq<Message>

    constructor (rows: seq<OutboxRow>)
      ensures this.rows == rows && topic == []
    {
      this.rows, topic := rows, [];
    }

    method WritePending(id: Id, bet: BetId, payload: Payload, at: Time)
      modifies this`rows
      ensures rows == old(rows) + [OutboxRow(id, bet, payload, Pending, at)]
    {
      rows := rows + [OutboxRow(id, bet, payload, Pending, at)];
    }

    /** UPDATE ... WHERE bet_id = bet AND status = PENDING. */
    method MarkReady(bet: BetId)
      modifies this`rows
      ensures rows == MarkedReady(old(rows), bet)
    {
      var n := |rows|;
      for i := 0 to n
        invariant |rows| == n == |old(rows)|
        invariant forall k | 0 <= k < i :: rows[k] == MarkedReady(old(rows), bet)[k]
        invariant forall k | i <= k < n :: rows[k] == old(rows)[k]
      {
        if rows[i].bet == bet && rows[i].status == Pending {
          rows := rows[i := rows[i].(status := Ready)];
        }
      }
    }

    /** UPDATE ... WHERE bet_id = bet. */
    method Cancel(bet: BetId)
      modifies this`rows
      ensures rows == MarkedCancelled(old(rows), bet)
    {
      var n := |rows|;
      for i := 0 to n
        invariant |rows| == n == |old(rows)|
        invariant forall k | 0 <= k < i :: rows[k] == MarkedCancelled(old(rows), bet)[k]
        invariant forall k | i <= k < n :: rows[k] == old(rows)[k]
      {
        if rows[i].bet == bet {
          rows := rows[i := rows[i].(status := Cancelled)];
        }
      }
    }

    /** UPDATE ... WHERE id = id. */
    method MarkPublished(id: Id)
      modifies this`rows
      ensures rows == MarkedPublished(old(rows), id)
    {
      var n := |rows|;
      for i := 0 to n
        invariant |rows| == n == |old(rows)|
        invariant forall k | 0 <= k < i :: rows[k] == MarkedPublished(old(rows), id)[k]
        invariant forall k | i <= k < n :: rows[k] == old(rows)[k]
      {
        if rows[i].id == id {
          rows := rows[i := rows[i].(status := Published)];
        }
      }
    }

    /** The oldest READY row that is not yet in the batch. */
    method Oldest(batch: seq<nat>) returns (best: nat)
      requires ReadySet(rows) - Elements(batch) != {}
      ensures best in ReadySet(rows) - Elements(batch)
      ensures forall j | j in ReadySet(rows) - Elements(batch) :: rows[best].createdAt <= rows[j].createdAt
    {
      var todo := ReadySet(rows) - Elements(batch);
      var some: nat :| some in todo;
      best := some;
      for i := 0 to |rows|
        invariant best in todo
        invariant forall j: nat | j < i && j in todo :: rows[best].createdAt <= rows[j].createdAt
      {
        if i in todo && rows[i].createdAt < rows[best].createdAt {
          best := i;
        }
      }
    }

    /** fetchReady: ORDER BY created_at LIMIT limit. */
    method FetchReady(limit: nat) returns (batch: seq<nat>)
      ensures IsFetch(rows, limit, batch)
      ensures |batch| <= limit && Distinct(batch)
      ensures forall k | 0 <= k < |batch| :: batch[k] < |rows| && rows[batch[k]].status == Ready
      ensures forall k, l | 0 <= k < l < |batch| :: rows[batch[k]].createdAt <= rows[batch[l]].createdAt
      ensures forall j | 0 <= j < |rows| && rows[j].status == Ready && j !in batch ::
                |batch| == limit && forall k | 0 <= k < |batch| :: rows[batch[k]].createdAt <= rows[j].createdAt
    {
      hide IsOldest;
      batch := [];
      EmptyIsOldest(rows);
      while |batch| < limit && ReadySet(rows) - Elements(batch) != {}
        invariant |batch| <= limit && IsOldest(rows, batch)
        decreases limit - |batch|
      {
        var best := Oldest(batch);
        OldestSnoc(rows, batch, best);
        batch := batch + [best];
      }
      OldestCardinality(rows, batch);
      FetchMeans(rows, limit, batch);
    }

    /** publish for one row: a failed send leaves the row for the next poll, and so does a failed update. */
    method PublishRow(i: nat, sent: bool, marked: bool)
      requires i < |rows| && IdsDistinct(rows)
      modifies this
      ensures topic == old(topic)
                       + if sent then [Message(old(rows)[i].id, old(rows)[i].payload)] else []
      ensures rows == if sent && marked then old(rows)[i := old(rows)[i].(status := Published)] else old(rows)
    {
      if sent {
        topic := topic + [MessageOf(rows[i])];
        if marked {
          MarkPublished(rows[i].id);
        }
      }
    }

    /**
     publishBatch: the fetched rows reach the topic in order, except those whose
     send fails, and become PUBLISHED, except those whose update fails.
     */
    method PublishBatch(lost: set<nat>, unmarked: set<nat>) returns (batch: seq<nat>)
      requires IdsDistinct(rows)
      modifies this
      ensures IsFetch(old(rows), BATCH, batch)
      ensures rows == Publish(old(rows), Elements(batch) - lost - unmarked)
      ensures |batch| <= 100 && |rows| == |old(rows)|
      ensures forall i | 0 <= i < |rows| ::
                rows[i] == if i in batch && i !in lost && i !in unmarked then old(rows)[i].(status := Published)
                           else old(rows)[i]
      ensures SentInRange(old(rows), batch, lost)
      ensures topic == old(topic) + Messages(old(rows), Sent(batch, lost))
    {
      hide IsFetch, Publish, Elements, Sent, Messages, IdsDistinct;
      batch := FetchReady(BATCH);
      FetchInRange(rows, BATCH, batch);
      ghost var before, start := rows, topic;
      StartOfBatch(before, batch, lost, unmarked);
      for k := 0 to |batch|
        invariant |rows| == |before| && IdsDistinct(rows)
        invariant rows == Publish(before, Elements(batch[..k]) - lost - unmarked)
        invariant SentInRange(before, batch[..k], lost)
        invariant topic == start + Messages(before, Sent(batch[..k], lost))
      {
        SendStep(before, batch, k, lost);
        MarkStep(before, batch, k, lost, unmarked);
        PublishRow(batch[k], batch[k] !in lost, batch[k] !in unmarked);
        PublishDistinct(before, Elements(batch[..k + 1]) - lost - unmarked);
      }
      assert batch[..|batch|] == batch;
      PublishMeans(before, Elements(batch) - lost - unmarked);
      FetchMeans(before, BATCH, batch);
      InElements(batch);
    }

    /** Run for a number of ticks during which nothing fails and nobody else writes. */
    method Run(ticks: nat) returns (batches: seq<seq<nat>>)
      requires IdsDistinct(rows)
      modifies this
      ensures |batches| == ticks && Polls(old(rows), batches)
      ensures rows == After(old(rows), batches)
      ensures FlatInRange(old(rows), batches) && topic == old(topic) + Messages(old(rows), Flat(batches))
    {
      hide IsFetch, Publish, Elements, Messages, IdsDistinct, Polls, After, Flat;
      ghost var before, start := rows, topic;
      batches := [];
      NoPolls(before);
      for t := 0 to ticks
        invariant |batches| == t && Polls(before, batches) && FlatInRange(before, batches)
        invariant rows == After(before, batches) && IdsDistinct(rows)
        invariant topic == start + Messages(before, Flat(batches))
      {
        ghost var was := rows;
        var batch := PublishBatch({}, {});
        NothingLost(batch);
        PollsSnoc(before, batches, batch);
        PublishDistinct(was, Elements(batch));
        assert Elements(batch) - {} - {} == Elements(batch);
        batches := batches + [batch];
      }
    }
  }

  lemma InElements(batch: seq<nat>)
    ensures forall i: nat :: i in Elements(batch) <==> i in batch
  {}

  lemma PublishMeans(rows: seq<OutboxRow>, done: set<nat>)
    ensures |Publish(rows, done)| == |rows|
    ensures forall i | 0 <= i < |rows| ::
              Publish(rows, done)[i] == if i in done then rows[i].(status := Published) else rows[i]
  {}

  /** An answer of the fetch query, row by row. */
  lemma FetchMeans(rows: seq<OutboxRow>, limit: nat, batch: seq<nat>)
    requires IsFetch(rows, limit, batch)
    ensures |batch| <= limit && Distinct(batch)
    ensures forall k | 0 <= k < |batch| :: batch[k] < |rows| && rows[batch[k]].status == Ready
    ensures forall k, l | 0 <= k < l < |batch| :: rows[batch[k]].createdAt <= rows[batch[l]].createdAt
    ensures forall j | 0 <= j < |rows| && rows[j].status == Ready && j !in batch ::
              |batch| == limit && forall k | 0 <= k < |batch| :: rows[batch[k]].createdAt <= rows[j].createdAt
  {
    forall k | 0 <= k < |batch| ensures batch[k] in ReadySet(rows) { assert batch[k] in Elements(batch); }
    forall k, l | 0 <= k < l < |batch| ensures rows[batch[k]].createdAt <= rows[batch[l]].createdAt {
      assert NotYounger(rows, batch[k], batch[l]);
    }
    ElementsCardinality(batch);
    forall j: nat | j < |rows| && rows[j].status == Ready && j !in batch
      ensures |batch| == limit && forall k | 0 <= k < |batch| :: rows[batch[k]].createdAt <= rows[j].createdAt
    {
      assert j in ReadySet(rows) - Elements(batch);
      assert forall k | 0 <= k < |batch| :: NotYounger(rows, batch[k], j);
      CardinalityOfSubset(Elements(batch), ReadySet(rows));
    }
  }

  predicate SentInRange(rows: seq<OutboxRow>, batch: seq<nat>, lost: set<nat>) {
    forall l | 0 <= l < |Sent(batch, lost)| :: Sent(batch, lost)[l] < |rows|
  }

  lemma StartOfBatch(rows: seq<OutboxRow>, batch: seq<nat>, lost: set<nat>, unmarked: set<nat>)
    ensures Publish(rows, Elements(batch[..0]) - lost - unmarked) == rows
    ensures SentInRange(rows, batch[..0], lost) && Messages(rows, Sent(batch[..0], lost)) == []
  {}

  lemma PublishDistinct(rows: seq<OutboxRow>, done: set<nat>)
    requires IdsDistinct(rows)
    ensures |Publish(rows, done)| == |rows| && IdsDistinct(Publish(rows, done))
  {}

  lemma SendStep(rows: seq<OutboxRow>, batch: seq<nat>, k: nat, lost: set<nat>)
    requires k < |batch| && batch[k] < |rows| && SentInRange(rows, batch[..k], lost)
    ensures SentInRange(rows, batch[..k + 1], lost)
    ensures Messages(rows, Sent(batch[..k + 1], lost)) == Messages(rows, Sent(batch[..k], lost))
            + if batch[k] in lost then [] else [MessageOf(rows[batch[k]])]
    ensures forall done ::
              |Publish(rows, done)| == |rows| && MessageOf(Publish(rows, done)[batch[k]]) == MessageOf(rows[batch[k]])
  {
    var i, sent := batch[k], Sent(batch[..k], lost);
    assert batch[..k + 1][..k] == batch[..k] && batch[..k + 1][k] == i;
    assert Sent(batch[..k + 1], lost) == if i in lost then sent else sent + [i];
    if i !in lost {
      assert Messages(rows, sent + [i]) == Messages(rows, sent) + [MessageOf(rows[i])];
    } else {
      assert Messages(rows, sent) + [] == Messages(rows, sent);
    }
  }

  lemma MarkStep(rows: seq<OutboxRow>, batch: seq<nat>, k: nat, lost: set<nat>, unmarked: set<nat>)
    requires k < |batch| && Distinct(batch) && batch[k] < |rows|
    ensures var i, done := batch[k], Elements(batch[..k]) - lost - unmarked;
            var done' := Elements(batch[..k + 1]) - lost - unmarked;
            && |Publish(rows, done)| == |rows|
            && Publish(rows, done') == if i in lost || i in unmarked then Publish(rows, done)
                                       else Publish(rows, done)[i := Publish(rows, done)[i].(status := Published)]
  {
    var i := batch[k];
    assert i !in Elements(batch[..k]);
    ElementsSnoc(batch[..k], i);
    assert batch[..k] + [i] == batch[..k + 1];
  }

  lemma FetchInRange(rows: seq<OutboxRow>, limit: nat, batch: seq<nat>)
    requires IsFetch(rows, limit, batch)
    ensures Distinct(batch) && forall k | 0 <= k < |batch| :: batch[k] < |rows|
  {}

  lemma EmptyIsOldest(rows: seq<OutboxRow>)
    ensures IsOldest(rows, []) && Elements<nat>([]) == {}
  {}

  lemma OldestSnoc(rows: seq<OutboxRow>, batch: seq<nat>, best: nat)
    requires IsOldest(rows, batch) && best in ReadySet(rows) - Elements(batch)
    requires forall j | j in ReadySet(rows) - Elements(batch) :: rows[best].createdAt <= rows[j].createdAt
    ensures IsOldest(rows, batch + [best])
  {
    ElementsSnoc(batch, best);
  }

  lemma OldestCardinality(rows: seq<OutboxRow>, batch: seq<nat>)
    requires IsOldest(rows, batch)
    ensures |batch| <= |ReadySet(rows)| && (ReadySet(rows) - Elements(batch) == {} ==> |batch| == |ReadySet(rows)|)
  {
    ElementsCardinality(batch);
    CardinalityOfSubset(Elements(batch), ReadySet(rows));
  }

  lemma CardinalityOfSubset(a: set<nat>, b: set<nat>)
    requires a <= b
    ensures |a| <= |b| && (b - a == {} ==> a == b) && |b - a| == |b| - |a|
  {
    assert b == a + (b - a);
  }

  // ---------------------------------------------------------------- draining

  /** Successive polls of one relay, with no faults and no new READY rows. */
  predicate Polls(rows: seq<OutboxRow>, batches: seq<seq<nat>>)
    decreases |batches|
  {
    batches == [] || (IsFetch(rows, BATCH, batches[0]) && Polls(Publish(rows, Elements(batches[0])), batches[1..]))
  }

  function After(rows: seq<OutboxRow>, batches: seq<seq<nat>>): seq<OutboxRow>
    decreases |batches|
  {
    if batches == [] then rows else After(Publish(rows, Elements(batches[0])), batches[1..])
  }

  /** The published rows in publication order. */
  function Flat(batches: seq<seq<nat>>): seq<nat>
    decreases |batches|
  {
    if batches == [] then [] else batches[0] + Flat(batches[1..])
  }

  lemma PublishReady(rows: seq<OutboxRow>, batch: seq<nat>)
    requires IsOldest(rows, batch)
    ensures ReadySet(Publish(rows, Elements(batch))) == ReadySet(rows) - Elements(batch)
    ensures |ReadySet(Publish(rows, Elements(batch)))| == |ReadySet(rows)| - |batch|
  {
    ElementsCardinality(batch);
    CardinalityOfSubset(Elements(batch), ReadySet(rows));
  }

  lemma OrderConcat(rows: seq<OutboxRow>, batch: seq<nat>, late: seq<nat>)
    requires Distinct(batch) && Distinct(late) && InOrder(rows, batch) && InOrder(rows, late)
    requires Elements(batch) !! Elements(late) && AllBefore(rows, batch, Elements(late))
    ensures Distinct(batch + late) && InOrder(rows, batch + late)
  {
    forall k, l | 0 <= k < |batch| && 0 <= l < |late|
      ensures batch[k] != late[l] && NotYounger(rows, batch[k], late[l]) {
      assert batch[k] in Elements(batch) && late[l] in Elements(late);
    }
  }

  /** Publishing changes no creation time. */
  lemma PublishKeepsOrder(rows: seq<OutboxRow>, done: set<nat>, s: seq<nat>, rest: set<nat>)
    ensures InOrder(Publish(rows, done), s) == InOrder(rows, s)
    ensures AllBefore(Publish(rows, done), s, rest) == AllBefore(rows, s, rest)
  {
    assert forall i: nat, j: nat :: NotYounger(Publish(rows, done), i, j) == NotYounger(rows, i, j);
  }

  /** Publishing the oldest and then the oldest of the rest is publishing the oldest. */
  lemma OldestConcat(rows: seq<OutboxRow>, batch: seq<nat>, late: seq<nat>)
    requires IsOldest(rows, batch) && IsOldest(Publish(rows, Elements(batch)), late)
    ensures IsOldest(rows, batch + late)
    ensures ReadySet(rows) - Elements(batch + late) == ReadySet(Publish(rows, Elements(batch))) - Elements(late)
  {
    hide InOrder, Publish, ReadySet, Elements, Distinct;
    var rest := ReadySet(rows) - Elements(batch) - Elements(late);
    PublishReady(rows, batch);
    PublishKeepsOrder(rows, Elements(batch), late, rest);
    ElementsConcat(batch, late);
    OrderConcat(rows, batch, late);
    AllBeforeConcat(rows, batch, late, rest);
    assert ReadySet(rows) - Elements(batch + late) == rest;
  }

  lemma AllBeforeConcat(rows: seq<OutboxRow>, batch: seq<nat>, late: seq<nat>, rest: set<nat>)
    requires AllBefore(rows, batch, rest) && AllBefore(rows, late, rest)
    ensures AllBefore(rows, batch + late, rest)
  {}

  /**
   Whatever the polls did, they published the oldest READY rows, none twice,
   oldest first, and left the others READY.
   */
  lemma {:induction false} PollsPublish(rows: seq<OutboxRow>, batches: seq<seq<nat>>)
    requires Polls(rows, batches)
    ensures IsOldest(rows, Flat(batches))
    ensures ReadySet(After(rows, batches)) == ReadySet(rows) - Elements(Flat(batches))
    ensures |ReadySet(After(rows, batches))| == (if |ReadySet(rows)| <= BATCH * |batches| then 0
                                                 else |ReadySet(rows)| - BATCH * |batches|)
    decreases |batches|
  {
    hide IsOldest, Publish, ReadySet, Elements;
    if batches == [] {
      EmptyIsOldest(rows);
    } else {
      var batch, rest := batches[0], batches[1..];
      PublishReady(rows, batch);
      PollsPublish(Publish(rows, Elements(batch)), rest);
      OldestConcat(rows, batch, Flat(rest));
    }
  }

  /** n READY rows drain in ceil(n/100) polls and no fewer, each published exactly once, oldest first. */
  lemma DrainsInCeiling(rows: seq<OutboxRow>, batches: seq<seq<nat>>)
    requires Polls(rows, batches)
    ensures ReadySet(After(rows, batches)) == {} <==> |batches| >= (|ReadySet(rows)| + 99) / 100
    ensures Distinct(Flat(batches)) && InOrder(rows, Flat(batches))
    ensures forall k, l | 0 <= k < l < |Flat(batches)| ::
              rows[Flat(batches)[k]].createdAt <= rows[Flat(batches)[l]].createdAt
    ensures ReadySet(After(rows, batches)) == {} ==>
              Elements(Flat(batches)) == ReadySet(rows) && |Flat(batches)| == |ReadySet(rows)|
  {
    PollsPublish(rows, batches);
    forall k, l | 0 <= k < l < |Flat(batches)| ensures NotYounger(rows, Flat(batches)[k], Flat(batches)[l]) {}
    ElementsCardinality(Flat(batches));
    CardinalityOfSubset(Elements(Flat(batches)), ReadySet(rows));
  }

  predicate FlatInRange(rows: seq<OutboxRow>, batches: seq<seq<nat>>) {
    forall k | 0 <= k < |Flat(batches)| :: Flat(batches)[k] < |rows|
  }

  lemma NoPolls(rows: seq<OutboxRow>)
    ensures Polls(rows, []) && After(rows, []) == rows && FlatInRange(rows, []) && Messages(rows, Flat([])) == []
  {}

  lemma {:induction false} NothingLost(batch: seq<nat>)
    ensures Sent(batch, {}) == batch
  {
    if batch != [] {
      NothingLost(batch[..|batch| - 1]);
    }
  }

  lemma {:induction false} AfterKeepsMessages(rows: seq<OutboxRow>, batches: seq<seq<nat>>)
    ensures |After(rows, batches)| == |rows|
    ensures forall i | 0 <= i < |rows| :: MessageOf(After(rows, batches)[i]) == MessageOf(rows[i])
    decreases |batches|
  {
    if batches != [] {
      AfterKeepsMessages(Publish(rows, Elements(batches[0])), batches[1..]);
    }
  }

  lemma {:induction false} PollsExtend(rows: seq<OutboxRow>, batches: seq<seq<nat>>, batch: seq<nat>)
    requires Polls(rows, batches) && IsFetch(After(rows, batches), BATCH, batch)
    ensures Polls(rows, batches + [batch])
    ensures After(rows, batches + [batch]) == Publish(After(rows, batches), Elements(batch))
    ensures Flat(batches + [batch]) == Flat(batches) + batch
    decreases |batches|
  {
    hide IsFetch, Publish, Elements;
    var all := batches + [batch];
    if batches == [] {
      assert all[1..] == [];
    } else {
      PollsExtend(Publish(rows, Elements(batches[0])), batches[1..], batch);
      assert all[1..] == batches[1..] + [batch];
    }
  }

  lemma PollsSnoc(rows: seq<OutboxRow>, batches: seq<seq<nat>>, batch: seq<nat>)
    requires Polls(rows, batches) && FlatInRange(rows, batches) && IsFetch(After(rows, batches), BATCH, batch)
    ensures Polls(rows, batches + [batch])
    ensures After(rows, batches + [batch]) == Publish(After(rows, batches), Elements(batch))
    ensures forall k | 0 <= k < |batch| :: batch[k] < |After(rows, batches)|
    ensures FlatInRange(rows, batches + [batch])
    ensures Messages(rows, Flat(batches + [batch]))
                == Messages(rows, Flat(batches)) + Messages(After(rows, batches), batch)
  {
    hide IsFetch, Publish, Elements, After;
    PollsExtend(rows, batches, batch);
    FetchInRange(After(rows, batches), BATCH, batch);
    AfterKeepsMessages(rows, batches);
  }
}
