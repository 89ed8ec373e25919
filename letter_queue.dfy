/** The letter event queue as the stack declares it: S3 object-created events go to an
    intake queue, the analysis function receives them, and a message received
    `MaxReceiveCount` times without being deleted moves to a separate dead-letter queue.
    Each message's receive count is kept explicitly. */
module LetterQueue {

  const MaxReceiveCount: nat := 3
  const VisibilityTimeoutSeconds: nat := 15 * 60
  const FunctionTimeoutSeconds: nat := 15 * 60

  type MessageId = string

  /** Where each message is, with its receive count: waiting on the intake queue, received
      and not yet settled, or on the dead-letter queue. A deleted message is in none. */
  datatype Queues = Queues(ready: map<MessageId, nat>, inFlight: map<MessageId, nat>,
                           deadLetter: map<MessageId, nat>)

  predicate Known(q: Queues, id: MessageId)
  {
    id in q.ready || id in q.inFlight || id in q.deadLetter
  }

  /** A message is in one place only, a waiting message has been received at most `budget`
      times, a received one between 1 and `budget` times, and a dead-lettered one exactly
      `budget` times. */
  predicate Valid(q: Queues, budget: nat)
  {
    && q.ready.Keys !! q.inFlight.Keys
    && q.ready.Keys !! q.deadLetter.Keys
    && q.inFlight.Keys !! q.deadLetter.Keys
    && (forall id :: id in q.ready ==> q.ready[id] <= budget)
    && (forall id :: id in q.inFlight ==> 1 <= q.inFlight[id] <= budget)
    && (forall id :: id in q.deadLetter ==> q.deadLetter[id] == budget)
  }

  /** The intake queue and the dead-letter queue are separate: in valid queues a message is
      waiting, in flight or dead-lettered, never two of these at once. */
  lemma OnOneQueueOnly(q: Queues, budget: nat, id: MessageId)
    requires Valid(q, budget)
    ensures !(id in q.ready && id in q.inFlight)
    ensures !(id in q.ready && id in q.deadLetter)
    ensures !(id in q.inFlight && id in q.deadLetter)
  {
    assert id in q.ready ==> id !in q.inFlight.Keys && id !in q.deadLetter.Keys;
    assert id in q.inFlight ==> id !in q.deadLetter.Keys;
  }

  function NoMessages(): (q: Queues)
    ensures forall budget: nat :: Valid(q, budget)
    ensures forall id :: !Known(q, id)
  {
    Queues(map[], map[], map[])
  }

  /** An object-created event in the letter bucket enqueues one new message. */
  function ObjectCreated(q: Queues, id: MessageId, budget: nat): (t: Queues)
    requires Valid(q, budget) && !Known(q, id)
    ensures Valid(t, budget)
    ensures id in t.ready && t.ready[id] == 0
    ensures t.ready - {id} == q.ready && t.inFlight == q.inFlight && t.deadLetter == q.deadLetter
  {
    q.(ready := q.ready[id := 0])
  }

  /** A receive of a waiting message: delivered with its count raised by one, or, when it
      has already been received `budget` times, moved to the dead-letter queue instead. */
  function Receive(q: Queues, id: MessageId, budget: nat): (t: Queues)
    requires Valid(q, budget)
    ensures Valid(t, budget)
    ensures id !in q.ready ==> t == q
    ensures id in q.ready && q.ready[id] < budget ==>
              id in t.inFlight && t.inFlight[id] == q.ready[id] + 1 && id !in t.ready
              && id !in t.deadLetter
    ensures id in q.ready && q.ready[id] >= budget ==>
              id in t.deadLetter && id !in t.ready && id !in t.inFlight
    ensures t.ready - {id} == q.ready - {id} && t.inFlight - {id} == q.inFlight - {id}
            && t.deadLetter - {id} == q.deadLetter - {id}
  {
    if id !in q.ready then q
    else if q.ready[id] < budget then
      Queues(q.ready - {id}, q.inFlight[id := q.ready[id] + 1], q.deadLetter)
    else
      Queues(q.ready - {id}, q.inFlight, q.deadLetter[id := q.ready[id]])
  }

  /** The end of one delivery: deleted when processing succeeded, otherwise visible again
      (once the visibility timeout lapses) with its count kept. */
  function Settle(q: Queues, id: MessageId, deleted: bool, budget: nat): (t: Queues)
    requires Valid(q, budget)
    ensures Valid(t, budget)
    ensures id !in q.inFlight ==> t == q
    ensures id in q.inFlight && deleted ==> !Known(t, id)
    ensures id in q.inFlight && !deleted ==>
              id in t.ready && t.ready[id] == q.inFlight[id] && id !in t.inFlight && id !in t.deadLetter
    ensures t.ready - {id} == q.ready - {id} && t.inFlight - {id} == q.inFlight - {id}
            && t.deadLetter == q.deadLetter
  {
    if id !in q.inFlight then q
    else if deleted then q.(inFlight := q.inFlight - {id})
    else Queues(q.ready[id := q.inFlight[id]], q.inFlight - {id}, q.deadLetter)
  }

  /** An in-flight message becomes visible again only once its visibility timeout has
      lapsed without the message being deleted. */
  function Expire(q: Queues, id: MessageId, elapsedSeconds: nat, budget: nat): (t: Queues)
    requires Valid(q, budget)
    ensures Valid(t, budget)
    ensures elapsedSeconds < VisibilityTimeoutSeconds ==> t == q
  {
    if elapsedSeconds >= VisibilityTimeoutSeconds then Settle(q, id, false, budget) else q
  }

  /** The visibility timeout is at least the function timeout, so a message is never
      visible again while the invocation that received it may still be running. */
  lemma NoRedeliveryWhileRunning(q: Queues, id: MessageId, elapsedSeconds: nat, budget: nat)
    requires Valid(q, budget)
    requires elapsedSeconds < FunctionTimeoutSeconds
    ensures Expire(q, id, elapsedSeconds, budget) == q
  {
  }

  /** Settling a received batch with partial-batch reporting: the messages named in
      `failed` stay on the queue, the others are deleted. */
  function SettleBatch(q: Queues, batch: seq<MessageId>, failed: seq<MessageId>, budget: nat): (t: Queues)
    requires Valid(q, budget)
    ensures Valid(t, budget)
    decreases |batch|
  {
    if batch == [] then q
    else
      var last := batch[|batch| - 1];
      Settle(SettleBatch(q, batch[..|batch| - 1], failed, budget), last, last !in failed, budget)
  }

  predicate Distinct(ids: seq<MessageId>)
  {
    forall i, j :: 0 <= i < j < |ids| ==> ids[i] != ids[j]
  }

  /** Settling one message leaves every other message where it was. */
  lemma SettleOther(q: Queues, id: MessageId, deleted: bool, budget: nat, other: MessageId)
    requires Valid(q, budget) && other != id
    ensures var t := Settle(q, id, deleted, budget);
            && (other in t.ready <==> other in q.ready)
            && (other in t.ready ==> t.ready[other] == q.ready[other])
            && (other in t.inFlight <==> other in q.inFlight)
            && (other in t.inFlight ==> t.inFlight[other] == q.inFlight[other])
            && (other in t.deadLetter <==> other in q.deadLetter)
  {
    var t := Settle(q, id, deleted, budget);
    assert other in t.ready - {id} <==> other in q.ready - {id};
    assert other in t.inFlight - {id} <==> other in q.inFlight - {id};
  }

  /** Settling a batch leaves every message outside it where it was. */
  lemma {:induction false} SettleBatchOutside(q: Queues, batch: seq<MessageId>, failed: seq<MessageId>,
                                              budget: nat, id: MessageId)
    requires Valid(q, budget) && id !in batch
    ensures var t := SettleBatch(q, batch, failed, budget);
            && (id in t.ready <==> id in q.ready) && (id in t.ready ==> t.ready[id] == q.ready[id])
            && (id in t.inFlight <==> id in q.inFlight)
            && (id in t.inFlight ==> t.inFlight[id] == q.inFlight[id])
            && (id in t.deadLetter <==> id in q.deadLetter)
    decreases |batch|
  {
    if batch != [] {
      var init := batch[..|batch| - 1];
      var last := batch[|batch| - 1];
      assert forall i :: 0 <= i < |init| ==> init[i] == batch[i];
      SettleBatchOutside(q, init, failed, budget, id);
      SettleOther(SettleBatch(q, init, failed, budget), last, last !in failed, budget, id);
    }
  }

  /** Settling a batch of distinct received messages: the reported failures wait again with
      their receive counts, and the rest of the batch is deleted. */
  lemma {:induction false} SettleBatchInside(q: Queues, batch: seq<MessageId>, failed: seq<MessageId>,
                                             budget: nat)
    requires Valid(q, budget) && Distinct(batch)
    requires forall i :: 0 <= i < |batch| ==> batch[i] in q.inFlight
    ensures var t := SettleBatch(q, batch, failed, budget);
            && (forall i :: 0 <= i < |batch| && batch[i] in failed ==>
                  batch[i] in t.ready && t.ready[batch[i]] == q.inFlight[batch[i]]
                  && batch[i] !in t.inFlight && batch[i] !in t.deadLetter)
            && (forall i :: 0 <= i < |batch| && batch[i] !in failed ==> !Known(t, batch[i]))
    decreases |batch|
  {
    if batch != [] {
      var init := batch[..|batch| - 1];
      var last := batch[|batch| - 1];
      assert forall i :: 0 <= i < |init| ==> init[i] == batch[i];
      SettleBatchInside(q, init, failed, budget);
      var mid := SettleBatch(q, init, failed, budget);
      assert last !in init;
      SettleBatchOutside(q, init, failed, budget, last);
      assert last in mid.inFlight && mid.inFlight[last] == q.inFlight[last];
      forall i | 0 <= i < |init|
        ensures var t := Settle(mid, last, last !in failed, budget);
                && (batch[i] in failed ==>
                      batch[i] in t.ready && t.ready[batch[i]] == q.inFlight[batch[i]]
                      && batch[i] !in t.inFlight && batch[i] !in t.deadLetter)
                && (batch[i] !in failed ==> !Known(t, batch[i]))
      {
        assert batch[i] != last;
        SettleOther(mid, last, last !in failed, budget, batch[i]);
      }
    }
  }

  /** After a batch of distinct received messages is settled, exactly the reported
      failures are waiting again, with their receive counts, the rest of the batch is
      gone, and no other message has moved. */
  lemma SettleBatchEffect(q: Queues, batch: seq<MessageId>, failed: seq<MessageId>, budget: nat)
    requires Valid(q, budget) && Distinct(batch)
    requires forall i :: 0 <= i < |batch| ==> batch[i] in q.inFlight
    ensures var t := SettleBatch(q, batch, failed, budget);
            && (forall i :: 0 <= i < |batch| && batch[i] in failed ==>
                  batch[i] in t.ready && t.ready[batch[i]] == q.inFlight[batch[i]]
                  && batch[i] !in t.inFlight && batch[i] !in t.deadLetter)
            && (forall i :: 0 <= i < |batch| && batch[i] !in failed ==> !Known(t, batch[i]))
            && (forall id :: id !in batch ==>
                  (id in t.ready <==> id in q.ready) && (id in t.ready ==> t.ready[id] == q.ready[id])
                  && (id in t.inFlight <==> id in q.inFlight)
                  && (id in t.inFlight ==> t.inFlight[id] == q.inFlight[id])
                  && (id in t.deadLetter <==> id in q.deadLetter))
  {
    SettleBatchInside(q, batch, failed, budget);
    forall id | id !in batch
      ensures var t := SettleBatch(q, batch, failed, budget);
              (id in t.ready <==> id in q.ready) && (id in t.ready ==> t.ready[id] == q.ready[id])
              && (id in t.inFlight <==> id in q.inFlight)
              && (id in t.inFlight ==> t.inFlight[id] == q.inFlight[id])
              && (id in t.deadLetter <==> id in q.deadLetter)
    {
      SettleBatchOutside(q, batch, failed, budget, id);
    }
  }

  /** `rounds` unsuccessful deliveries, each received and then made visible again. */
  function FailRounds(q: Queues, id: MessageId, rounds: nat, budget: nat): (t: Queues)
    requires Valid(q, budget)
    ensures Valid(t, budget)
    decreases rounds
  {
    if rounds == 0 then q
    else FailRounds(Settle(Receive(q, id, budget), id, false, budget), id, rounds - 1, budget)
  }

  /** Each unsuccessful delivery raises the receive count by one while it stays within
      the budget. */
  lemma {:induction false} FailRoundsCount(q: Queues, id: MessageId, rounds: nat, budget: nat)
    requires Valid(q, budget) && id in q.ready && q.ready[id] + rounds <= budget
    ensures var t := FailRounds(q, id, rounds, budget);
            id in t.ready && t.ready[id] == q.ready[id] + rounds
    decreases rounds
  {
    if rounds > 0 {
      var next := Settle(Receive(q, id, budget), id, false, budget);
      FailRoundsCount(next, id, rounds - 1, budget);
    }
  }

  /** With the declared budget of `MaxReceiveCount` receives, a letter whose processing
      always fails is delivered three times; the fourth receive moves it to the
      dead-letter queue, and it is then on no other queue. */
  lemma AlwaysFailingIsDeadLettered(q: Queues, id: MessageId)
    requires Valid(q, MaxReceiveCount) && id in q.ready && q.ready[id] == 0
    ensures var t := Receive(FailRounds(q, id, MaxReceiveCount, MaxReceiveCount), id, MaxReceiveCount);
            id in t.deadLetter && id !in t.ready && id !in t.inFlight
  {
    FailRoundsCount(q, id, MaxReceiveCount, MaxReceiveCount);
  }

  /** A message that has been received fewer than `MaxReceiveCount` times is delivered
      again, not dead-lettered. */
  lemma WithinBudgetIsDelivered(q: Queues, id: MessageId, rounds: nat)
    requires Valid(q, MaxReceiveCount) && id in q.ready && q.ready[id] == 0 && rounds < MaxReceiveCount
    ensures var t := Receive(FailRounds(q, id, rounds, MaxReceiveCount), id, MaxReceiveCount);
            id in t.inFlight && t.inFlight[id] == rounds + 1 && id !in t.deadLetter
  {
    FailRoundsCount(q, id, rounds, MaxReceiveCount);
  }
}
