/** The MongoDB backend, its two collections replaced by in-memory state:
    `subscriptions` for wrkr_subscriptions and `items` for wrkr_qitems. */
module Backend {
  import opened Values
  import opened Options
  import opened QueueStore

  /** What one run of `poll` did. */
  datatype PollResult =
    | Unready                                               // the models do not exist yet
    | Idle                                                  // nothing eligible
    | Processed(index: nat, item: QueueItem, outcome: Outcome)  // claimed, dispatch called back
    | Stalled(index: nat, item: QueueItem, reply: Reply)        // claimed, dispatch never called back

  /** What the claim of one `poll` found. */
  datatype ClaimResult =
    | NotStarted                             // the models do not exist yet
    | NothingEligible                        // no item matches the claim query
    | Claimed(index: nat, item: QueueItem)   // leased; `item` is the pre-lease document

  class WrkrMongodb {
    var opt: Settings
    var dbConnectStr: string
    /** The queues this process subscribed (`listenQueues`' keys). */
    var listenQueues: set<string>
    /** The queues `listen` took a snapshot of; the claim searches these. */
    var polledQueues: set<string>
    /** None is the null sentinel; Some(ms) a poll scheduled after ms. */
    var pollTimer: Option<nat>
    /** `this.db` is set (start was called). */
    var dbCreated: bool
    /** The models `Subscription` and `QueueItems` exist (the connection opened). */
    var modelsReady: bool
    var subscriptions: Subscriptions
    var items: seq<QueueItem>
    /** The next id the store assigns on insert. */
    var nextId: nat

    ghost predicate Valid()
      reads this
    {
      && WellFormed(subscriptions)
      && (forall i :: 0 <= i < |items| ==> items[i].id < nextId)
      && (forall i, j :: 0 <= i < j < |items| ==> items[i].id != items[j].id)
    }

    /** `new WrkrMongodb(opt)`, with NODE_ENV passed in. */
    constructor (caller: map<string, Value>, nodeEnv: string)
      ensures Valid()
      ensures opt == ToSettings(map k | k in KeySet :: Pick(caller, k, nodeEnv))
      ensures dbConnectStr == ConnectionString(opt)
      ensures listenQueues == {} && polledQueues == {} && pollTimer == None
      ensures !dbCreated && !modelsReady
      ensures subscriptions == map[] && items == [] && nextId == 0
    {
      var resolved := ResolveOptions(caller, nodeEnv);
      assert resolved == map k | k in KeySet :: Pick(caller, k, nodeEnv);
      var settings := ToSettings(resolved);
      opt := settings;
      dbConnectStr := ConnectionString(settings);
      listenQueues, polledQueues, pollTimer := {}, {}, None;
      dbCreated, modelsReady := false, false;
      subscriptions, items, nextId := map[], [], 0;
    }

    function ErrorRetryTime(): nat
      reads this
    {
      Millis(opt.errorRetryTime)
    }

    function PollInterval(): nat
      reads this
    {
      Millis(opt.pollInterval)
    }

    function PollIntervalBusy(): nat
      reads this
    {
      Millis(opt.pollIntervalBusy)
    }

    /** `start`: create the connection and, once it opened, the models.
        Whether opening succeeds is decided by the driver, a parameter here. */
    method Start(opens: bool) returns (r: Outcome)
      modifies this`dbCreated, this`modelsReady
      ensures dbCreated && modelsReady == (old(modelsReady) || opens)
      ensures r == if opens then Ok else Fail(ConnectionError)
    {
      dbCreated := true;
      if opens {
        modelsReady := true;
        r := Ok;
      } else {
        r := Fail(ConnectionError);
      }
    }

    /** `stop`: clear the poll timer to the null sentinel, then close the
        connection (a failure when there is none). */
    method Stop() returns (r: Outcome)
      modifies this`pollTimer
      ensures pollTimer == None
      ensures r == if dbCreated then Ok else Fail(NotConnected)
    {
      if pollTimer.Some? {
        pollTimer := None;
      }
      r := if dbCreated then Ok else Fail(NotConnected);
    }

    /** `queuesForEvent`: the record's queues, or the empty list. */
    method QueuesForEvent(eventName: string) returns (r: Result<seq<string>>)
      ensures !modelsReady ==> r == Failure(NotConnected)
      ensures modelsReady ==> r.Success?
      ensures modelsReady && eventName !in subscriptions ==> r.value == []
      ensures modelsReady && eventName in subscriptions ==> r.value == subscriptions[eventName]
    {
      if !modelsReady {
        return Failure(NotConnected);
      }
      var queues := QueuesFor(subscriptions, eventName);
      r := Success(queues);
    }

    /** `subscribe`: mark the queue as listened to, then the upserting set-add. */
    method Subscribe(queueName: string, eventName: string) returns (r: Outcome)
      requires Valid()
      modifies this`listenQueues, this`subscriptions
      ensures Valid()
      ensures listenQueues == old(listenQueues) + {queueName}
      ensures r == if modelsReady then Ok else Fail(NotConnected)
      ensures subscriptions == if modelsReady then AddToSet(old(subscriptions), eventName, queueName)
                               else old(subscriptions)
    {
      listenQueues := listenQueues + {queueName};
      if !modelsReady {
        return Fail(NotConnected);
      }
      AddToSetSpec(subscriptions, eventName, queueName);
      subscriptions := AddToSet(subscriptions, eventName, queueName);
      r := Ok;
    }

    /** The collection's batch insert: ids are assigned in order. */
    method Insert(batch: seq<Draft>)
      requires Valid()
      modifies this`items, this`nextId
      ensures Valid()
      ensures items == old(items) + Stamp(batch, old(nextId))
      ensures nextId == old(nextId) + |batch|
    {
      var k := 0;
      while k < |batch|
        invariant 0 <= k <= |batch|
        invariant Valid()
        invariant items == old(items) + Stamp(batch[..k], old(nextId))
        invariant nextId == old(nextId) + k
      {
        assert batch[..k + 1] == batch[..k] + [batch[k]];
        StampAppend(batch[..k], [batch[k]], old(nextId));
        assert Stamp([batch[k]], nextId) == [Stored(batch[k], nextId)];
        items := items + [Stored(batch[k], nextId)];
        nextId := nextId + 1;
        k := k + 1;
      }
      assert batch[..k] == batch;
    }

    /** `queues.forEach(q => queueItems.push({...}))`: one item per queue. */
    static method BuildItems(event: Event, queues: seq<string>, now: nat) returns (batch: seq<Draft>)
      ensures batch == FanOut(event, queues, now)
    {
      batch := [];
      var j := 0;
      while j < |queues|
        invariant 0 <= j <= |queues|
        invariant batch == FanOut(event, queues[..j], now)
      {
        FanOutSnoc(event, queues, j, now);
        batch := batch + [ItemFor(event, queues[j], now)];
        j := j + 1;
      }
      assert queues[..j] == queues;
    }

    /** One event's waterfall in the corrected `emit` (`getQueues`, then
        `sendQueueItem`) for an event that has a name: look up the
        subscribed queues, build one item per queue and insert this event's
        items when there are any. As written, the insert is handed the
        whole array shared by all events instead (see `AsWrittenInserts`). */
    method SendEvent(event: Event, now: nat) returns (r: Outcome)
      requires Valid()
      modifies this`items, this`nextId
      ensures Valid()
      ensures r == if modelsReady then Ok else Fail(NotConnected)
      ensures items == old(items) + Stamp(if modelsReady then FanOut(event, QueuesFor(subscriptions, event.name), now) else [], old(nextId))
      ensures nextId == old(nextId) + |if modelsReady then FanOut(event, QueuesFor(subscriptions, event.name), now) else []|
    {
      var found := QueuesForEvent(event.name);
      if found.Failure? {
        return Fail(found.error);
      }
      var batch := BuildItems(event, found.value, now);
      if |batch| > 0 {
        Insert(batch);
      }
      r := Ok;
    }

    /** `emit`: the events in turn; an event without a name fails the call
        (events before it have been sent). */
    method Emit(events: seq<Event>, now: nat) returns (r: Outcome)
      requires Valid()
      modifies this`items, this`nextId
      ensures Valid()
      ensures r == EmitOutcome(events, modelsReady)
      ensures modelsReady ==> items == old(items) + Stamp(EmitDrafts(events, subscriptions, now), old(nextId))
      ensures modelsReady ==> nextId == old(nextId) + |EmitDrafts(events, subscriptions, now)|
      ensures !modelsReady ==> items == old(items) && nextId == old(nextId)
    {
      var i := 0;
      while i < |events|
        invariant 0 <= i <= |events|
        invariant Valid()
        invariant forall j :: 0 <= j < i ==> events[j].name != ""
        invariant i > 0 ==> modelsReady
        invariant items == old(items) + Stamp(Batches(events[..i], subscriptions, now), old(nextId))
        invariant nextId == old(nextId) + |Batches(events[..i], subscriptions, now)|
      {
        if events[i].name == "" {
          assert FirstNameless(events) == i;
          assert EmitOutcome(events, modelsReady) == Fail(MissingEventName);
          return Fail(MissingEventName);
        }
        r := SendEvent(events[i], now);
        if r.Fail? {
          assert i == 0 && !modelsReady;
          return;
        }
        EmitStep(old(items), events, i, subscriptions, now, old(nextId));
        i := i + 1;
      }
      assert events[..i] == events;
      assert FirstNameless(events) == |events|;
      r := Ok;
    }

    /** The first index the claim's sorted query finds, if any. */
    method FindClaim(now: nat) returns (k: Option<nat>)
      ensures k.None? <==> NoneEligible(items, now, polledQueues)
      ensures k.Some? ==> IsOldestEligible(items, k.value, now, polledQueues)
    {
      k := None;
      var i := 0;
      while i < |items|
        invariant 0 <= i <= |items|
        invariant k.None? ==> NoneEligible(items[..i], now, polledQueues)
        invariant k.Some? ==> IsOldestEligible(items[..i], k.value, now, polledQueues)
      {
        var it := items[i];
        if it.when.Some? && it.when.value <= now && it.queue in polledQueues {
          if k.None? || it.created < items[k.value].created {
            k := Some(i);
          }
        }
        assert items[..i + 1] == items[..i] + [it];
        i := i + 1;
      }
      assert items[..i] == items;
    }

    /** The index of the item with the given id, if any. */
    method FindById(id: nat) returns (k: Option<nat>)
      ensures k.Some? ==> k.value < |items| && items[k.value].id == id
      ensures k.None? ==> forall j :: 0 <= j < |items| ==> items[j].id != id
    {
      var i := 0;
      while i < |items|
        invariant 0 <= i <= |items|
        invariant forall j :: 0 <= j < i ==> items[j].id != id
      {
        if items[i].id == id {
          return Some(i);
        }
        i := i + 1;
      }
      k := None;
    }

    /** `updateStatus`: `findByIdAndUpdate(id, {$unset: {when}, $set: {done}})`. */
    method MarkDoneById(id: nat, doneAt: nat)
      requires Valid()
      modifies this`items
      ensures Valid()
      ensures |items| == |old(items)|
      ensures forall j :: 0 <= j < |items| ==>
        items[j] == if old(items)[j].id == id then MarkDone(old(items)[j], doneAt) else old(items)[j]
    {
      var k := FindById(id);
      if k.Some? {
        items := items[k.value := MarkDone(items[k.value], doneAt)];
      }
    }

    /** `updatePollTimer(ms)`: never reschedule once the timer is null. */
    method UpdatePollTimer(ms: nat)
      modifies this`pollTimer
      ensures pollTimer == NextTimer(old(pollTimer), ms)
    {
      if pollTimer.None? {
        return;
      }
      pollTimer := Some(ms);
    }

    /** `listen`: snapshot the listened queues; the first poll is run by the
        caller right after (`setImmediate`). The timer is left as it is. */
    method Listen() returns (r: Outcome)
      modifies this`polledQueues
      ensures polledQueues == listenQueues && r == Ok
    {
      polledQueues := listenQueues;
      r := Ok;
    }

    /** `listen` as evidently intended: the first poll is scheduled as a
        zero-delay timer, so the sentinel is non-null while listening. */
    method ListenArmed() returns (r: Outcome)
      modifies this`polledQueues, this`pollTimer
      ensures polledQueues == listenQueues && pollTimer == Some(0) && r == Ok
    {
      polledQueues := listenQueues;
      pollTimer := Some(0);
      r := Ok;
    }

    /** The first half of `poll`: the sorted claim that leases the oldest
        eligible item for errorRetryTime and yields it as it was before the
        update; with nothing eligible, reschedule with pollInterval. */
    method ClaimNext(now: nat) returns (c: ClaimResult)
      requires Valid()
      modifies this`items, this`pollTimer
      ensures Valid()
      ensures !modelsReady <==> c.NotStarted?
      ensures c.NotStarted? ==> items == old(items) && pollTimer == old(pollTimer)
      ensures c.NothingEligible? <==> modelsReady && NoneEligible(old(items), now, polledQueues)
      ensures c.NothingEligible? ==> items == old(items) && pollTimer == NextTimer(old(pollTimer), PollInterval())
      ensures c.Claimed? ==>
        && IsOldestEligible(old(items), c.index, now, polledQueues)
        && c.item == old(items)[c.index]
        && items == old(items)[c.index := Leased(c.item, now, ErrorRetryTime())]
        && pollTimer == old(pollTimer)
    {
      if !modelsReady {
        return NotStarted;
      }
      var claim := FindClaim(now);
      if claim.None? {
        UpdatePollTimer(PollInterval());
        return NothingEligible;
      }
      var k := claim.value;
      var item := items[k];
      items := items[k := Leased(item, now, ErrorRetryTime())];
      c := Claimed(k, item);
    }

    /** The second half of `poll`, once dispatch of `item` replied: on a
        callback without error archive the item (by id, in the store as it
        is now), and on any callback reschedule with pollIntervalBusy,
        reading the timer as it is now. A dispatch that never called back,
        or threw, ends the waterfall: nothing changes. */
    method Finish(item: QueueItem, reply: Reply, doneAt: nat)
      requires Valid()
      modifies this`items, this`pollTimer
      ensures Valid()
      ensures !reply.Called? ==> items == old(items) && pollTimer == old(pollTimer)
      ensures reply.Called? ==> pollTimer == NextTimer(old(pollTimer), PollIntervalBusy())
      ensures reply.Called? && reply.outcome.Fail? ==> items == old(items)
      ensures reply == Called(Ok) ==>
        && |items| == |old(items)|
        && forall j :: 0 <= j < |items| ==>
             items[j] == if old(items)[j].id == item.id then MarkDone(old(items)[j], doneAt) else old(items)[j]
    {
      if !reply.Called? {
        return;
      }
      if reply.outcome.Ok? {
        MarkDoneById(item.id, doneAt);
      }
      UpdatePollTimer(PollIntervalBusy());
    }

    /** One run of `poll` at time `now` with nothing else happening in
        between: claim the oldest eligible item and lease it, hand the item
        as it was before the lease to `dispatch`, archive it at `doneAt`
        only if dispatch called back without an error, then update the
        timer with pollIntervalBusy; with nothing eligible only update the
        timer with pollInterval. When dispatch never calls back (or
        throws), the waterfall goes no further: the item stays leased and
        the timer is left as it is. */
    method PollCycle(now: nat, doneAt: nat, dispatch: QueueItem -> Reply) returns (r: PollResult)
      requires Valid()
      modifies this`items, this`pollTimer
      ensures Valid()
      ensures !modelsReady <==> r.Unready?
      ensures r.Unready? ==> items == old(items) && pollTimer == old(pollTimer)
      ensures r.Idle? <==> modelsReady && NoneEligible(old(items), now, polledQueues)
      ensures r.Idle? ==> items == old(items) && pollTimer == NextTimer(old(pollTimer), PollInterval())
      ensures r.Processed? ==>
        && IsOldestEligible(old(items), r.index, now, polledQueues)
        && r.item == old(items)[r.index]
        && dispatch(r.item) == Called(r.outcome)
        && items == old(items)[r.index := if r.outcome.Ok?
                                          then MarkDone(Leased(r.item, now, ErrorRetryTime()), doneAt)
                                          else Leased(r.item, now, ErrorRetryTime())]
        && pollTimer == NextTimer(old(pollTimer), PollIntervalBusy())
      ensures r.Stalled? ==>
        && IsOldestEligible(old(items), r.index, now, polledQueues)
        && r.item == old(items)[r.index]
        && r.reply == dispatch(r.item) && !r.reply.Called?
        && items == old(items)[r.index := Leased(r.item, now, ErrorRetryTime())]
        && pollTimer == old(pollTimer)
    {
      var c := ClaimNext(now);
      if c.NotStarted? {
        return Unready;
      }
      if c.NothingEligible? {
        return Idle;
      }
      var k, item := c.index, c.item;
      var reply := dispatch(item);
      if !reply.Called? {
        return Stalled(k, item, reply);
      }
      ghost var before := items;
      Finish(item, reply, doneAt);
      if reply.outcome.Ok? {
        forall j | 0 <= j < |items|
          ensures items[j] == before[k := MarkDone(before[k], doneAt)][j]
        {
          if j != k {
            assert before[j].id != item.id;
          }
        }
      }
      r := Processed(k, item, reply.outcome);
    }
  }
}
