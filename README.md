# wrkr: a publish/subscribe work queue, modelled in Dafny

wrkr is a durable work queue. Producers publish named events. Queues subscribe to event
names. Each published event becomes one queue item per subscribed queue. A polling
loop claims the oldest eligible item, leases it, hands it to the registered handler and
marks it done when the handler succeeds.

This project models the two core files:

- `lib/wrkr.js` is the `Wrkr` coordinator. It is the class `Coordinator.Wrkr`, and its
  handler table `eventHandlers` is a `map` field.
- `lib/wrkr_mongodb.js` is the MongoDB backend. It is the class `Backend.WrkrMongodb`.
  An in-memory store replaces its two collections: `subscriptions` maps an event name to
  its array of queue names, and `items` is the sequence of queue items. Every store
  operation follows the query document the code writes: the upserting `$addToSet`, the
  sorted `findOneAndUpdate` claim, and the `$unset`/`$set` archive.

The model is split into these modules:

- `Values`: the JavaScript values the code looks at (undefined, null, booleans,
  strings, integers, opaque objects), their truthiness (`||`, `if (x)`) and how
  template literals print them.
- `Options`: option defaulting and the connection string.
- `QueueStore`: the pure specification. It covers set-add, fan-out, eligibility, lease,
  mark-done and the poll-timer state machine.
- `Backend`: the backend class.
- `Coordinator`: the `Wrkr` class, `publish` normalisation and `_dispatch`.
- `Scenarios`: client methods whose verified postconditions exhibit the findings below
  and how a stop during a poll ends polling.

Time is a natural-number parameter (`now`, `doneAt`). The poll timer is the field
`pollTimer`. `None` is the null sentinel, `Some(ms)` means a poll is scheduled after `ms`.
A timer firing is the caller running `PollCycle`. The same poll split in two is
`ClaimNext`, then `Finish` once dispatch has replied, so that other calls (a `Stop`) can
come in between. Handler code, and whether the database
connection opens, are parameters.

Where the code departs from the usual description, the model follows the code:

- `new Wrkr(options)` reads `options.store`. The test suites pass the backend under
  `backend`, so their construction fails (`Scenarios.ConstructWithBackendKey`).
- The claim hands the dispatcher the item as it was before the lease update. This is the
  mongoose default for `findOneAndUpdate`.
- The handler table is a plain `{}`, so a look-up also finds the members it inherits
  from `Object.prototype` (`constructor`, `toString`, `__proto__`, ...). Subscribing
  under such a name is refused as a duplicate (`Scenarios.SubscribeInheritedName`).
  An item with such a name is handed to the inherited member, which never calls back
  (`__proto__` is not callable and throws).
- A handler that calls back with an error makes `_dispatch`'s callback throw before it
  calls `done` (lib/wrkr.js:81). A handler that never calls back, like the test suites'
  empty handlers, leaves `done` uncalled. In both cases the poll's waterfall goes no
  further: the item stays leased, nothing is archived and the timer is not rescheduled
  (`Stalled`). A dispatcher that does call back with an error skips the archive and
  reschedules with `pollIntervalBusy`.
- `subscribe` for an event name whose entry holds a falsy value is accepted again. The
  duplicate check tests truthiness. A truthy entry that is not a function also blocks a
  later subscribe. Dispatching it throws a TypeError, and the poll stalls.
- A repeated subscribe for an event name is refused before the store is touched, even
  when the queue name differs.

## Model

| member | source | states |
|---|---|---|
| `Coordinator.Wrkr.Create` | lib/wrkr.js:7-18 | construction fails with NoStore exactly when `options.store` is unset; on success the handler table is empty and the store is the one passed |
| `Coordinator.Wrkr.Start` | lib/wrkr.js:21-23 | start is the store's start: connection created, models ready iff the connection opened |
| `Coordinator.Wrkr.Stop` | lib/wrkr.js:26-28 | stop is the store's stop: the poll timer ends null |
| `Coordinator.EventList` | lib/wrkr.js:39 | a single event becomes a one-element list; an array passes through with its elements in order |
| `Coordinator.Wrkr.Publish` | lib/wrkr.js:38-42 | the normalised list is emitted: outcome, inserted items and the next free id are those of emit on that list; before start nothing changes |
| `Coordinator.Wrkr.PublishAsWritten` | lib/wrkr.js:41 | calling `store.publish` on the MongoDB backend fails (no such member) and changes nothing |
| `Coordinator.Wrkr.Subscribe` | lib/wrkr.js:45-56 | a name whose look-up is truthy (an own handler, or an inherited `Object.prototype` member) is refused with no change to the table or the store; otherwise only that entry is set to the handler and the store subscribes the same (queue, event); no own entry ever shadows an inherited name |
| `Coordinator.Wrkr.Unsubscribe` | lib/wrkr.js:59-62 | always reports not-implemented and changes no state |
| `Coordinator.HasHandler` | lib/wrkr.js:50 | the look-up `eventHandlers[name]` is truthy only for an own entry or an inherited member, and always for an own function entry |
| `Coordinator.Wrkr.Listen` | lib/wrkr.js:65-68 | listen is the store's armed listen: polled queues are the subscribed ones and the timer is scheduled |
| `Coordinator.Dispatch` | lib/wrkr.js:71-85 | nothing runs iff the look-up of the item's name is falsy; an own function entry runs on the item; an own entry that is not a function, or a name with no own entry that the table inherits, is called in its place |
| `Coordinator.Reported` | lib/wrkr.js:79-83 | `_dispatch` calls `done` exactly when nothing ran or the handler called back without an error, and then always without an error |
| `Coordinator.DispatchReport` | lib/wrkr.js:75-84 | dispatch calls back iff the look-up is falsy or the function entry called back without an error, and then always with success; a handler's error is thrown instead; a non-function entry throws a TypeError; an inherited name never calls back |
| `Coordinator.Wrkr.Poll` | lib/wrkr_mongodb.js:247-257 | unready iff the store is not started and idle iff nothing is eligible; otherwise the oldest eligible item is claimed and dispatched through this coordinator; it is archived and the timer moves on busy exactly when dispatch called back; if it did not, the item stays leased and the timer is unchanged |
| `Options.DefaultFor` | lib/wrkr_mongodb.js:45-57 | exactly the nine keys of the defaults table have a default |
| `Options.Pick` | lib/wrkr_mongodb.js:79 | an option is undefined exactly when the caller left it undefined and it has no default; a defined caller value wins over the default |
| `Options.ResolveOptions` | lib/wrkr_mongodb.js:78-80 | the result has exactly the default keys; each is the caller's value unless undefined, else the default; other keys are dropped |
| `Options.ConnectionString` | lib/wrkr_mongodb.js:82-87 | the string starts with `mongodb://`, and it is longer than the scheme plus `host:port/name` exactly when both user and password are truthy |
| `Options.ConnectionStringShape` | lib/wrkr_mongodb.js:83-87 | the string is `mongodb://`, then `user:pswd@` only when both are truthy, then `host:port/name` |
| `Options.DefaultConnection` | lib/wrkr_mongodb.js:45-87 | with no caller options the string is `mongodb://localhost:27017/wrkr[_NODE_ENV]` |
| `Values.DecimalRoundTrip` | lib/wrkr_mongodb.js:87 | the decimal text used for the port reads back as the same number |
| `Backend.WrkrMongodb.constructor` | lib/wrkr_mongodb.js:60-88 | options resolved from the caller's, connection string built from them, no listened queues, null timer, empty store |
| `Backend.WrkrMongodb.Start` | lib/wrkr_mongodb.js:93-115 | the connection exists afterwards; the models exist iff the connection opened now or earlier; a failed open is an error |
| `Backend.WrkrMongodb.Stop` | lib/wrkr_mongodb.js:118-128 | the timer ends null; closing fails when no connection was created |
| `Backend.WrkrMongodb.QueuesForEvent` | lib/wrkr_mongodb.js:131-141 | the record's queues, the empty list when there is no record, an error before start |
| `QueueStore.QueuesFor` | lib/wrkr_mongodb.js:137 | no record gives the empty list, else the record's array |
| `Backend.WrkrMongodb.Subscribe` | lib/wrkr_mongodb.js:145-157 | the queue is added to the listened queues (also before start); the records become the upserting set-add of the pair |
| `QueueStore.AddToSet` | lib/wrkr_mongodb.js:149-154 | the upsert creates the event's record when absent and touches no other key |
| `QueueStore.AddToSetSpec` | lib/wrkr_mongodb.js:149-154 | afterwards the queue occurs exactly once in the record, earlier queues remain, nothing else is added, other records are unchanged, duplicate-freedom is preserved |
| `QueueStore.AddToSetIdempotent` | lib/wrkr_mongodb.js:149-154 | subscribing the same pair twice gives the same records as once |
| `QueueStore.ItemFor` | lib/wrkr_mongodb.js:183-191 | the item has the queue, name and tid given, created now, when = event.when or now, headers and payload defaulting to `{}` when falsy |
| `QueueStore.FanOut` | lib/wrkr_mongodb.js:182-192 | one item per subscribed queue, in queue order |
| `Backend.WrkrMongodb.BuildItems` | lib/wrkr_mongodb.js:182-192 | the pushing loop builds exactly the fan-out |
| `QueueStore.Stored` | lib/wrkr_mongodb.js:197 | an inserted item is pending, carries the draft's fields and the assigned id |
| `QueueStore.Stamp` | lib/wrkr_mongodb.js:197 | a batch insert stores as many items as it is given |
| `Backend.WrkrMongodb.Insert` | lib/wrkr_mongodb.js:197 | the batch is appended with consecutive fresh ids; ids stay unique |
| `Backend.WrkrMongodb.SendEvent` | lib/wrkr_mongodb.js:170-198 | the corrected step of emit: one named event inserts its own fan-out (nothing when it has no subscribers); before start the lookup fails and nothing is inserted. As written, line 197 hands insert the whole shared array instead (`QueueStore.AsWrittenInserts`) |
| `QueueStore.FirstNameless` | lib/wrkr_mongodb.js:171 | the index of the first event without a name, with all events before it named |
| `QueueStore.EmitOutcome` | lib/wrkr_mongodb.js:165-171 | emit succeeds exactly when the list is empty, or the store is started and every event is named; it fails only with a missing name or a missing connection, the latter only before start |
| `Backend.WrkrMongodb.Emit` | lib/wrkr_mongodb.js:160-200 | events are sent in order until the first one without a name, which fails the call; the items inserted are each sent event's fan-out, once each |
| `QueueStore.EmitDraftsTwo` | lib/wrkr_mongodb.js:162-197 | for two named events emit inserts the first's fan-out, then the second's, each once |
| `QueueStore.BatchesSound` | lib/wrkr_mongodb.js:182-192 | every emitted item belongs to a queue subscribed to its event, was created now and carries a published event's name and tid |
| `QueueStore.BatchesCount` | lib/wrkr_mongodb.js:182-192 | the number of emitted items is the sum of the events' subscriber counts |
| `QueueStore.NoSubscribersNoItems` | lib/wrkr_mongodb.js:195-196 | events whose names have no subscribers produce no items, so nothing is inserted |
| `QueueStore.AsWrittenInsertsDuplicate` | lib/wrkr_mongodb.js:162-197 | with the shared array, for two events whose first has subscribers, the second insert re-sends the first's documents |
| `QueueStore.AsWrittenInserts` | lib/wrkr_mongodb.js:162-197 | as written, at most one insert per event, one for every event once the shared array is non-empty, and never an empty array |
| `QueueStore.AsWrittenInsertsFrom` | lib/wrkr_mongodb.js:162-197 | every document handed to insert as written comes from one of the events' batches |
| `QueueStore.Started` | lib/wrkr_mongodb.js:165 | at most the first five events are ever started |
| `QueueStore.BatchList` | lib/wrkr_mongodb.js:182-192 | one batch per event, each that event's fan-out |
| `QueueStore.EmitAsWritten` | lib/wrkr_mongodb.js:160-200 | as written, an empty list calls `done` once; otherwise `done` is called at most five times, and no empty array is handed to insert |
| `QueueStore.SixthEventNeverSent` | lib/wrkr_mongodb.js:165-173 | for six named events, as written `done` is called five times and none of the sixth event's documents reaches insert; the corrected emit inserts them |
| `Backend.WrkrMongodb.FindClaim` | lib/wrkr_mongodb.js:225-239 | nothing is found iff no item has `when <= now` in a polled queue; otherwise the found item is eligible with minimal `created` |
| `QueueStore.Eligible` | lib/wrkr_mongodb.js:225-228 | the claim query never matches an item without `when` (archived), with `when` later than now (leased), or outside the listened queues |
| `QueueStore.Leased` | lib/wrkr_mongodb.js:232-236 | the claim sets `when` to now + errorRetryTime and changes nothing else |
| `QueueStore.LeaseExpiry` | lib/wrkr_mongodb.js:226-235 | a leased item is eligible again exactly when the lease has run out |
| `Backend.WrkrMongodb.FindById` | lib/wrkr_mongodb.js:263 | finds the item with the given id, or reports that none has it |
| `QueueStore.MarkDone` | lib/wrkr_mongodb.js:259-262 | `when` is removed, `done` set, every other field unchanged; the item is no longer pending |
| `QueueStore.ArchivedNeverEligible` | lib/wrkr_mongodb.js:259-262 | an archived item is never claimed again |
| `Backend.WrkrMongodb.MarkDoneById` | lib/wrkr_mongodb.js:258-267 | only the item with that id is archived; all others are unchanged |
| `QueueStore.NextTimer` | lib/wrkr_mongodb.js:217-220 | a null timer stays null; otherwise the next poll is scheduled after the given delay |
| `Backend.WrkrMongodb.UpdatePollTimer` | lib/wrkr_mongodb.js:215-221 | the timer becomes the next-timer state for the given delay |
| `QueueStore.NullTimerStaysNull` | lib/wrkr_mongodb.js:217-219 | once the timer is null, no sequence of poll cycles schedules another poll |
| `QueueStore.ScheduledTimerStaysScheduled` | lib/wrkr_mongodb.js:220 | a scheduled timer stays scheduled, with the last cycle's delay |
| `Backend.WrkrMongodb.Listen` | lib/wrkr_mongodb.js:203-213 | listen snapshots the subscribed queues and leaves the timer untouched |
| `Backend.WrkrMongodb.ListenArmed` | lib/wrkr_mongodb.js:208-212 | listen with the first poll scheduled: the timer is set, and the same snapshot is taken |
| `Backend.WrkrMongodb.ClaimNext` | lib/wrkr_mongodb.js:225-244 | before start nothing changes; nothing is claimed iff no item is eligible, and then only the timer moves to pollInterval; otherwise the oldest eligible item is leased, returned in its pre-lease form, and the timer is untouched |
| `Backend.WrkrMongodb.Finish` | lib/wrkr_mongodb.js:247-279 | without a callback nothing changes; on a callback the timer moves to pollIntervalBusy from its current value; on success only the item with that id is archived |
| `Backend.WrkrMongodb.PollCycle` | lib/wrkr_mongodb.js:223-281 | before start nothing changes; otherwise, with nothing eligible, only the timer moves to pollInterval; else the oldest eligible item is leased and dispatched in its pre-lease form; if dispatch calls back, the item is archived only on success and the timer moves to pollIntervalBusy; if it never calls back or throws, the item stays leased and the timer is unchanged; no other item changes |
| `Scenarios.StopDuringDispatch` | lib/wrkr_mongodb.js:118-124 | with the armed listen, a stop between the claim and the poll's last step leaves the timer null although an item was claimed and processed: no further poll is scheduled |
| `Scenarios.ListenPollsOnlyOnce` | lib/wrkr_mongodb.js:210-220 | after the as-written listen and one idle poll the timer is still null: no further poll is scheduled |
| `Scenarios.ListenBusyPollOnlyOnce` | lib/wrkr_mongodb.js:210-220 | after the as-written listen, a first poll that claims and archives an item still leaves the timer null |
| `Scenarios.ArmedListenKeepsPolling` | lib/wrkr_mongodb.js:53 | with the armed listen an idle poll reschedules after the default 500 ms |
| `Scenarios.SubscribeInheritedName` | lib/wrkr.js:50-51 | subscribing under the inherited name `constructor` on a fresh coordinator is refused as a duplicate |
| `Scenarios.ConstructWithBackendKey` | lib/wrkr.js:9-15 | options that carry the backend under `backend` only fail to construct a Wrkr |

## Left out

- The mongoose connection (`db.open`, `db.close`) and model creation are not modelled. `start` takes open success as a parameter.
- Driver errors on queries and updates are not modelled. Before start, a missing model is an error result.
- `setTimeout`, `setImmediate`, `clearTimeout` and `Date.now` are replaced by time parameters and the `pollTimer` field. The caller runs each timer firing as one poll cycle.
- The concurrency of `async.eachLimit(events, 5, …)` is left out. Started events are sent one after another, so the order in which their lookups finish and push onto the shared array is taken as event order.
- Once-every deduplication, `getQueueItems`, `deleteQueueItems` and `Wrkr.subscriptions` are left out. The test suites call them, but the two core files do not define them.
- `debug` logging, the test harness, and the commented-out `errorList` are left out.
- The contents of `headers` and `payload` are opaque object identities. A missing `{}` default is one fixed identity.
- The throws (`if (err) throw err`, a missing event name, a duplicate handler, an uncaught poll error) are failure results, not control flow. Callers do not unwind, and an uncaught throw does not end the process; the state is left as it stands at the throw.
- Coordinator.Dispatch: the side effects of the inherited members (`__defineGetter__` and `__defineSetter__` define an accessor on the handler table) are not modelled. Only the fact that they never call back is modelled.
- Arrays and functions are not JavaScript values here: an option such as `user: [..]` cannot be given. Function identities appear only as `Handler` and the dispatch parameters.
- The backend's back-reference `this.wrkr` is replaced by passing the dispatch function to the poll.
- Backend.WrkrMongodb.PollCycle: runs claim, dispatch and finish as one step, so nothing happens in between, and "no other item changes" holds only for that one step. Calls in between (a `Stop`, an `emit`) are covered only by calling `ClaimNext` and `Finish` separately (`Scenarios.StopDuringDispatch`). `Coordinator.Wrkr.Poll` is one `PollCycle` in the same way.
- Coordinator.Handler: a handler is a pure function of the item, so its own effects on the store, the timer or the handler table while it runs are not modelled.
- Backend.WrkrMongodb.ErrorRetryTime: a timing option that is not a non-negative number reads as 0. JavaScript date arithmetic on such values is not modelled.
- Event names are strings, and `""` stands for every falsy name. Non-string names are not modelled.
- Number printing covers integers only, not fractions or exponents.
- Backend.WrkrMongodb.FindClaim: when several eligible items tie on `created`, the model picks the first in store order. MongoDB leaves that order unspecified.
- The drain-before-close promised for `stop` is not in the source (it is a TODO at lib/wrkr_mongodb.js:126), so it is not modelled.

## Findings

| source | as written | input that shows it | evidently intended | confidence | as-written member | corrected member |
|---|---|---|---|---|---|---|
| lib/wrkr.js:41 | `publish` calls `this.store.publish`, which the MongoDB backend does not define | any `publish` on a Wrkr whose store is a WrkrMongodb | call the backend's `emit` | high, not executed | `Coordinator.Wrkr.PublishAsWritten` | `Coordinator.Wrkr.Publish` |
| lib/wrkr_mongodb.js:162-197 | every event pushes onto one `queueItems` array shared by all events and hands the whole array to insert | `emit([e1, e2])` where `e1` has one subscribed queue: `e2`'s insert re-sends `e1`'s document. If the driver stores re-sent documents as new copies, `e1`'s item is stored twice. If it writes the generated `_id` back into the documents, as the MongoDB Node driver does, the second insert fails on a duplicate key, and an ordered insert then also loses `e2`'s items. | each event's items handed to insert once | medium (the effect depends on the driver), not executed | `QueueStore.AsWrittenInsertsDuplicate` | `Backend.WrkrMongodb.Emit` |
| lib/wrkr_mongodb.js:165-173 | every waterfall ends in the caller's `done`, and `eachLimit`'s `cb` is never called | `emit` of six named events, the sixth subscribed: only five are started, `done` is called five times, and the sixth is never inserted (events past the fifth are also never checked for a name) | each waterfall ends in `cb`, so every event is sent and `done` is called once | high, not executed | `QueueStore.SixthEventNeverSent` | `Backend.WrkrMongodb.Emit` |
| lib/wrkr_mongodb.js:210-220 | `pollTimer` is still null at the first poll, so `updatePollTimer` never schedules another | `listen()` followed by one poll: the timer stays null and polling stops, whether the poll was idle or processed an item | the first poll arms the timer so that polling continues | high, not executed | `Scenarios.ListenPollsOnlyOnce` | `Backend.WrkrMongodb.ListenArmed` |

For the second and third rows, `QueueStore.EmitDraftsTwo` and `QueueStore.BatchesCount`
prove that the corrected emit inserts every sent event's items exactly once.
`Backend.WrkrMongodb.Emit` sends every event up to the first nameless one, however long
the list is. `QueueStore.EmitAsWritten` models the emit as written as a whole. For the
fourth row, `Scenarios.ListenPollsOnlyOnce` covers an idle poll and
`Scenarios.ListenBusyPollOnlyOnce` a poll that processes an item;
`Scenarios.ArmedListenKeepsPolling` and `QueueStore.ScheduledTimerStaysScheduled` prove
the armed timer keeps rescheduling. `Coordinator.Wrkr.Publish` and
`Coordinator.Wrkr.Listen` use the corrected members.
