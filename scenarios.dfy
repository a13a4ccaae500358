/** Client methods whose verified postconditions exhibit how polling
    continues, as written and as evidently intended, how a stop during a
    poll ends polling, and how the coordinator is built. */
module Scenarios {
  import opened Values
  import opened QueueStore
  import opened Backend
  import opened Coordinator

  /** As written: `listen` leaves the timer at its initial null, so an
      idle first poll does not schedule a second one. */
  method ListenPollsOnlyOnce(now: nat) returns (timer: Option<nat>)
    ensures timer == None
  {
    var store := new WrkrMongodb(map[], "");
    var started := store.Start(true);
    var listening := store.Listen();
    var polled := store.PollCycle(now, now, (it: QueueItem) => Called(Ok));
    timer := store.pollTimer;
  }

  /** As written, with an item due: the first poll claims and archives it,
      and still schedules no second poll. */
  method ListenBusyPollOnlyOnce(now: nat) returns (processed: bool, timer: Option<nat>)
    ensures processed && timer == None
  {
    var store := OnePendingItem(now);
    var listening := store.Listen();
    assert Eligible(store.items[0], now, store.polledQueues);
    var polled := store.PollCycle(now, now, (it: QueueItem) => Called(Ok));
    processed := polled.Processed?;
    timer := store.pollTimer;
  }

  /** As intended: with the first poll scheduled as a timer, an idle poll
      reschedules after the default pollInterval of 500 ms. */
  method ArmedListenKeepsPolling(now: nat) returns (timer: Option<nat>)
    ensures timer == Some(500)
  {
    var store := new WrkrMongodb(map[], "");
    assert store.opt.pollInterval == Num(500);
    var started := store.Start(true);
    var listening := store.ListenArmed();
    assert NoneEligible(store.items, now, store.polledQueues);
    var polled := store.PollCycle(now, now, (it: QueueItem) => Called(Ok));
    timer := store.pollTimer;
  }

  /** Stop while a claimed item is being dispatched: the poll's last step
      reads the timer cleared by stop and schedules nothing. Without the
      stop the same poll reschedules with pollIntervalBusy. */
  method StopDuringDispatch(now: nat) returns (claimed: bool, timer: Option<nat>)
    ensures claimed && timer == None
  {
    var store := OnePendingItem(now);
    var listening := store.ListenArmed();
    assert Eligible(store.items[0], now, store.polledQueues);
    var c := store.ClaimNext(now);
    claimed := c.Claimed?;
    var stopped := store.Stop();
    if c.Claimed? {
      store.Finish(c.item, Called(Ok), now);
    }
    timer := store.pollTimer;
  }

  /** A started store listening to queue "q" that holds one item for "q",
      due now. */
  method OnePendingItem(now: nat) returns (store: WrkrMongodb)
    ensures fresh(store) && store.Valid() && store.modelsReady
    ensures store.listenQueues == {"q"} && |store.items| == 1
    ensures store.items[0].queue == "q" && store.items[0].when == Some(now)
    ensures store.pollTimer == None
  {
    store := new WrkrMongodb(map[], "");
    var started := store.Start(true);
    var subscribed := store.Subscribe("q", "e");
    assert store.pollTimer == None;
    var d := ItemFor(Event("e", Null, None, Null, Null), "q", now);
    store.Insert([d]);
    assert Stamp([d], 0) == [Stored(d, 0)];
  }

  /** The handler table is a plain object, which inherits `constructor`:
      subscribing a handler under that name is refused as a duplicate. */
  method SubscribeInheritedName() returns (r: Outcome)
    ensures r == Fail(DuplicateHandler("constructor"))
  {
    var store := new WrkrMongodb(map[], "");
    var w := new Wrkr(store);
    r := w.Subscribe("q", "constructor", Fn(1));
  }

  /** The test suites pass the backend under `backend`; the constructor
      reads `store`, so that construction fails. */
  method ConstructWithBackendKey() returns (r: Result<Wrkr>)
    ensures r == Failure(NoStore)
  {
    var backend := new WrkrMongodb(map[], "");
    r := Wrkr.Create(WrkrOptions(None, Some(backend)));
  }
}
