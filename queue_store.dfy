/** The abstract store behind the backend: published events, queue items,
    the subscription records, and the queries the backend writes against
    them (set-add upsert, fan-out, the oldest-eligible claim, mark-done),
    together with the poll timer's state machine. */
module QueueStore {
  import opened Values

  /** An application event. `name` is "" when it is missing (any falsy
      name); `tid`, `headers` and `payload` are copied as given. */
  datatype Event = Event(name: string, tid: Value, when: Option<nat>, headers: Value, payload: Value)

  /** A queue item built by emit, before the store assigns it an id. */
  datatype Draft = Draft(queue: string, created: nat, when: nat, name: string,
                         tid: Value, headers: Value, payload: Value)

  /** A stored queue item. `when` is unset once archived, `done` is set then. */
  datatype QueueItem = QueueItem(id: nat, queue: string, created: nat, when: Option<nat>,
                                 done: Option<nat>, name: string, tid: Value,
                                 headers: Value, payload: Value)

  // ---------------------------------------------------------------------
  // Subscription records: event name -> array of queue names

  type Subscriptions = map<string, seq<string>>

  predicate NoDuplicates(s: seq<string>) {
    forall i, j :: 0 <= i < j < |s| ==> s[i] != s[j]
  }

  predicate WellFormed(subs: Subscriptions) {
    forall e :: e in subs ==> NoDuplicates(subs[e])
  }

  /** The `queues` of the record for `event`, or the empty list when there
      is no record. */
  function QueuesFor(subs: Subscriptions, event: string): (qs: seq<string>)
    ensures event !in subs ==> qs == []
    ensures event in subs ==> qs == subs[event]
  {
    if event in subs then subs[event] else []
  }

  /** `findOneAndUpdate({eventName}, {$addToSet: {queues: queue}}, {upsert: true})`:
      create the record if absent, append the queue unless it is present. */
  function AddToSet(subs: Subscriptions, event: string, queue: string): (r: Subscriptions)
    ensures r.Keys == subs.Keys + {event}
  {
    if event !in subs then subs[event := [queue]]
    else if queue in subs[event] then subs
    else subs[event := subs[event] + [queue]]
  }

  /** After the set-add the queue is in the event's record exactly once,
      every queue that was there still is, and no other record changes. */
  lemma AddToSetSpec(subs: Subscriptions, event: string, queue: string)
    requires WellFormed(subs)
    ensures var r := AddToSet(subs, event, queue);
      && WellFormed(r)
      && multiset(r[event])[queue] == 1
      && (forall q :: q in QueuesFor(subs, event) ==> q in r[event])
      && (forall q :: q in r[event] ==> q == queue || q in QueuesFor(subs, event))
      && (forall e :: e in subs && e != event ==> r[e] == subs[e])
  {
    var r := AddToSet(subs, event, queue);
    if event in subs {
      var s := subs[event];
      if queue in s {
        var k :| 0 <= k < |s| && s[k] == queue;
        NoDuplicatesCount(s, k);
      } else {
        assert r[event] == s + [queue];
        assert multiset(s)[queue] == 0;
        assert multiset(s + [queue]) == multiset(s) + multiset{queue};
      }
    }
  }

  /** In a duplicate-free array an element present occurs once. */
  lemma {:induction false} NoDuplicatesCount(s: seq<string>, k: nat)
    requires NoDuplicates(s) && k < |s|
    ensures multiset(s)[s[k]] == 1
  {
    var x := s[k];
    if k == |s| - 1 {
      var init := s[..|s| - 1];
      assert s == init + [x];
      assert x !in init by {
        forall j | 0 <= j < |init| ensures init[j] != x { assert s[j] == init[j]; }
      }
      assert multiset(s) == multiset(init) + multiset{x};
    } else {
      var init := s[..|s| - 1];
      var last := s[|s| - 1];
      assert s == init + [last];
      assert NoDuplicates(init) by {
        forall i, j | 0 <= i < j < |init| ensures init[i] != init[j] { assert init[i] == s[i] && init[j] == s[j]; }
      }
      assert init[k] == x;
      NoDuplicatesCount(init, k);
      assert last != x;
      assert multiset(s) == multiset(init) + multiset{last};
    }
  }

  /** Subscribing the same pair twice leaves the records as after once. */
  lemma AddToSetIdempotent(subs: Subscriptions, event: string, queue: string)
    ensures AddToSet(AddToSet(subs, event, queue), event, queue) == AddToSet(subs, event, queue)
  {
    var r := AddToSet(subs, event, queue);
    assert queue in r[event];
  }

  // ---------------------------------------------------------------------
  // Emit fan-out

  /** The item emit builds for one event and one subscribed queue. */
  function ItemFor(e: Event, queue: string, now: nat): (d: Draft)
    ensures d.queue == queue && d.name == e.name && d.tid == e.tid && d.created == now
    ensures e.when.Some? ==> d.when == e.when.value
    ensures e.when.None? ==> d.when == now
    ensures d.headers == OrElse(e.headers, EmptyObject) && d.payload == OrElse(e.payload, EmptyObject)
  {
    Draft(queue, now, if e.when.Some? then e.when.value else now, e.name, e.tid,
          OrElse(e.headers, EmptyObject), OrElse(e.payload, EmptyObject))
  }

  /** One item per subscribed queue, in the order of the queues. */
  function FanOut(e: Event, queues: seq<string>, now: nat): (r: seq<Draft>)
    ensures |r| == |queues|
    ensures forall i :: 0 <= i < |r| ==> r[i] == ItemFor(e, queues[i], now)
  {
    seq(|queues|, i requires 0 <= i < |queues| => ItemFor(e, queues[i], now))
  }

  lemma FanOutSnoc(e: Event, queues: seq<string>, j: nat, now: nat)
    requires j < |queues|
    ensures FanOut(e, queues[..j + 1], now) == FanOut(e, queues[..j], now) + [ItemFor(e, queues[j], now)]
  {
  }

  /** Index of the first event without a name (|events| when all have one). */
  function FirstNameless(events: seq<Event>): (k: nat)
    ensures k <= |events|
    ensures forall j :: 0 <= j < k ==> events[j].name != ""
    ensures k < |events| ==> events[k].name == ""
  {
    if events == [] then 0
    else if events[0].name == "" then 0
    else 1 + FirstNameless(events[1..])
  }

  /** The items of a run of named events, event after event. */
  function Batches(events: seq<Event>, subs: Subscriptions, now: nat): seq<Draft> {
    if events == [] then []
    else Batches(events[..|events| - 1], subs, now)
         + FanOut(events[|events| - 1], QueuesFor(subs, events[|events| - 1].name), now)
  }

  lemma BatchesSnoc(events: seq<Event>, i: nat, subs: Subscriptions, now: nat)
    requires i < |events|
    ensures Batches(events[..i + 1], subs, now)
         == Batches(events[..i], subs, now) + FanOut(events[i], QueuesFor(subs, events[i].name), now)
  {
    assert events[..i + 1][..i] == events[..i];
  }

  /** One more event sent: the items inserted so far grow by its fan-out. */
  lemma EmitStep(before: seq<QueueItem>, events: seq<Event>, i: nat, subs: Subscriptions, now: nat, firstId: nat)
    requires i < |events|
    ensures var sent := Batches(events[..i], subs, now);
            var batch := FanOut(events[i], QueuesFor(subs, events[i].name), now);
            before + Stamp(sent, firstId) + Stamp(batch, firstId + |sent|)
            == before + Stamp(Batches(events[..i + 1], subs, now), firstId)
  {
    var sent := Batches(events[..i], subs, now);
    var batch := FanOut(events[i], QueuesFor(subs, events[i].name), now);
    BatchesSnoc(events, i, subs, now);
    StampAppend(sent, batch, firstId);
  }

  /** Everything one emit call inserts (events are taken in order and emit
      stops at the first event without a name). */
  function EmitDrafts(events: seq<Event>, subs: Subscriptions, now: nat): seq<Draft> {
    Batches(events[..FirstNameless(events)], subs, now)
  }

  /** Two named events: each event's items are inserted once, the first
      event's before the second's. */
  lemma EmitDraftsTwo(e1: Event, e2: Event, subs: Subscriptions, now: nat)
    requires e1.name != "" && e2.name != ""
    ensures EmitDrafts([e1, e2], subs, now)
         == FanOut(e1, QueuesFor(subs, e1.name), now) + FanOut(e2, QueuesFor(subs, e2.name), now)
  {
    var es := [e1, e2];
    assert FirstNameless(es[1..]) == 1 by {
      assert es[1..] == [e2];
      assert [e2][1..] == [];
    }
    assert FirstNameless(es) == 2;
    assert es[..2] == es;
    assert es[..1] == [e1];
    assert [e1][..0] == [];
    assert Batches([e1], subs, now) == [] + FanOut(e1, QueuesFor(subs, e1.name), now);
    assert Batches(es, subs, now) == Batches([e1], subs, now) + FanOut(e2, QueuesFor(subs, e2.name), now);
  }

  /** What one emit call reports: a missing name, or (for a store that has
      not been started) the failed lookup of the first named event. */
  function EmitOutcome(events: seq<Event>, ready: bool): (r: Outcome)
    ensures r == Ok <==> events == [] || (ready && FirstNameless(events) == |events|)
    ensures r.Fail? ==> r.error == MissingEventName || r.error == NotConnected
    ensures r == Fail(NotConnected) ==> !ready
  {
    if events == [] then Ok
    else if events[0].name == "" then Fail(MissingEventName)
    else if !ready then Fail(NotConnected)
    else if FirstNameless(events) < |events| then Fail(MissingEventName)
    else Ok
  }

  /** Every item emit inserts belongs to a queue subscribed to its event, is
      named after that event and was created now. */
  lemma {:induction false} BatchesSound(events: seq<Event>, subs: Subscriptions, now: nat)
    ensures forall d :: d in Batches(events, subs, now) ==>
      d.queue in QueuesFor(subs, d.name) && d.created == now
      && exists e :: e in events && e.name == d.name && e.tid == d.tid
  {
    if events != [] {
      var init := events[..|events| - 1];
      var last := events[|events| - 1];
      BatchesSound(init, subs, now);
      forall d | d in Batches(events, subs, now)
        ensures d.queue in QueuesFor(subs, d.name) && d.created == now
        ensures exists e :: e in events && e.name == d.name && e.tid == d.tid
      {
        if d in Batches(init, subs, now) {
          var e :| e in init && e.name == d.name && e.tid == d.tid;
          assert e in events;
        } else {
          var f := FanOut(last, QueuesFor(subs, last.name), now);
          assert d in f;
          var i :| 0 <= i < |f| && f[i] == d;
          assert last in events;
        }
      }
    }
  }

  /** The number of items is the sum of the events' subscriber counts. */
  function SubscriberCount(events: seq<Event>, subs: Subscriptions): nat {
    if events == [] then 0
    else SubscriberCount(events[..|events| - 1], subs) + |QueuesFor(subs, events[|events| - 1].name)|
  }

  lemma {:induction false} BatchesCount(events: seq<Event>, subs: Subscriptions, now: nat)
    ensures |Batches(events, subs, now)| == SubscriberCount(events, subs)
  {
    if events != [] {
      BatchesCount(events[..|events| - 1], subs, now);
    }
  }

  /** Events none of whose names has a subscriber produce no items: emit
      then inserts nothing and succeeds. */
  lemma {:induction false} NoSubscribersNoItems(events: seq<Event>, subs: Subscriptions, now: nat)
    requires forall e :: e in events ==> QueuesFor(subs, e.name) == []
    ensures Batches(events, subs, now) == []
  {
    if events != [] {
      var init := events[..|events| - 1];
      assert forall e :: e in init ==> e in events;
      assert events[|events| - 1] in events;
      NoSubscribersNoItems(init, subs, now);
    }
  }

  /** The store's batch insert: drafts become items with consecutive ids. */
  function Stamp(drafts: seq<Draft>, firstId: nat): (r: seq<QueueItem>)
    ensures |r| == |drafts|
    decreases |drafts|
  {
    if drafts == [] then [] else [Stored(drafts[0], firstId)] + Stamp(drafts[1..], firstId + 1)
  }

  lemma {:induction false} StampAt(drafts: seq<Draft>, firstId: nat, i: nat)
    requires i < |drafts|
    ensures Stamp(drafts, firstId)[i] == Stored(drafts[i], firstId + i)
    decreases i
  {
    if i > 0 {
      StampAt(drafts[1..], firstId + 1, i - 1);
    }
  }

  /** A freshly inserted item is pending: `when` set, `done` unset. */
  function Stored(d: Draft, id: nat): (it: QueueItem)
    ensures Pending(it) && it.id == id && it.when == Some(d.when)
    ensures it.queue == d.queue && it.created == d.created && it.name == d.name
    ensures it.tid == d.tid && it.headers == d.headers && it.payload == d.payload
  {
    QueueItem(id, d.queue, d.created, Some(d.when), None, d.name, d.tid, d.headers, d.payload)
  }

  lemma {:induction false} StampAppend(a: seq<Draft>, b: seq<Draft>, firstId: nat)
    ensures Stamp(a + b, firstId) == Stamp(a, firstId) + Stamp(b, firstId + |a|)
    decreases |a|
  {
    if a != [] {
      assert (a + b)[0] == a[0] && (a + b)[1..] == a[1..] + b;
      StampAppend(a[1..], b, firstId + 1);
      assert Stamp(a + b, firstId) == [Stored(a[0], firstId)] + Stamp(a[1..] + b, firstId + 1);
      assert Stamp(a, firstId) == [Stored(a[0], firstId)] + Stamp(a[1..], firstId + 1);
    } else {
      assert a + b == b;
    }
  }

  /** As written, emit pushes every event's items onto one array shared by
      all events, and each event inserts the whole array accumulated so far. */
  function AsWrittenInserts(acc: seq<Draft>, batches: seq<seq<Draft>>): (r: seq<seq<Draft>>)
    ensures |r| <= |batches|
    ensures |acc| > 0 ==> |r| == |batches|
    ensures forall b :: b in r ==> |b| > 0
    decreases |batches|
  {
    if batches == [] then []
    else
      var acc' := acc + batches[0];
      (if |acc'| == 0 then [] else [acc']) + AsWrittenInserts(acc', batches[1..])
  }

  /** Two events whose first has subscribers: the first event's items are
      inserted twice. */
  lemma AsWrittenInsertsDuplicate(a: seq<Draft>, b: seq<Draft>)
    requires |a| > 0
    ensures AsWrittenInserts([], [a, b]) == [a, a + b]
  {
    assert [a, b][0] == a && [a, b][1..] == [b];
    assert [b][0] == b && [b][1..] == [];
    assert [] + a == a;
    assert AsWrittenInserts(a + b, []) == [];
    assert AsWrittenInserts(a, [b]) == [a + b];
  }

  /** Every document handed to insert as written comes from the shared
      array's earlier contents or from one of the batches. */
  lemma {:induction false} AsWrittenInsertsFrom(acc: seq<Draft>, batches: seq<seq<Draft>>)
    ensures forall b, d :: b in AsWrittenInserts(acc, batches) && d in b ==>
      d in acc || exists i :: 0 <= i < |batches| && d in batches[i]
    decreases |batches|
  {
    if batches != [] {
      var acc' := acc + batches[0];
      AsWrittenInsertsFrom(acc', batches[1..]);
      forall b, d | b in AsWrittenInserts(acc, batches) && d in b
        ensures d in acc || exists i :: 0 <= i < |batches| && d in batches[i]
      {
        if d !in acc && d !in batches[0] {
          assert b != acc';
          assert b in AsWrittenInserts(acc', batches[1..]);
          var i :| 0 <= i < |batches[1..]| && d in batches[1..][i];
          assert d in batches[i + 1];
        }
      }
    }
  }

  /** `async.eachLimit(events, 5, sendEvent, done)` runs at most this many
      iterator calls at once. */
  const EachLimit: nat := 5

  /** The events emit as written ever starts: its iterator never calls
      `cb`, so after the first five no further event is started. */
  function Started(events: seq<Event>): (r: seq<Event>)
    ensures |r| <= EachLimit && |r| <= |events|
    ensures |events| <= EachLimit ==> r == events
    ensures |events| > EachLimit ==> r == events[..EachLimit]
  {
    if |events| <= EachLimit then events else events[..EachLimit]
  }

  /** Each event's own items, one batch per event. */
  function BatchList(events: seq<Event>, subs: Subscriptions, now: nat): (r: seq<seq<Draft>>)
    ensures |r| == |events|
    ensures forall i :: 0 <= i < |r| ==> r[i] == FanOut(events[i], QueuesFor(subs, events[i].name), now)
  {
    seq(|events|, i requires 0 <= i < |events| => FanOut(events[i], QueuesFor(subs, events[i].name), now))
  }

  /** What one emit call as written does: the error thrown at the caller
      (if any), how often the caller's `done` is called, and the arrays
      handed to insert. */
  datatype EmitTrace = EmitTrace(thrown: Outcome, doneCalls: nat, inserts: seq<seq<Draft>>)

  /** Emit as written, its waterfalls taken one after another: an empty
      list reports once; a nameless first event throws at once; before
      start the first lookup throws; otherwise the started events before
      the first nameless one each insert the shared array and call `done`,
      and a nameless event among the started ones throws. */
  function EmitAsWritten(events: seq<Event>, subs: Subscriptions, now: nat, ready: bool): (r: EmitTrace)
    ensures events == [] ==> r == EmitTrace(Ok, 1, [])
    ensures events != [] ==> r.doneCalls <= EachLimit
    ensures forall b :: b in r.inserts ==> |b| > 0
  {
    if events == [] then EmitTrace(Ok, 1, [])
    else
      var started := Started(events);
      var k := FirstNameless(started);
      if k == 0 then EmitTrace(Fail(MissingEventName), 0, [])
      else if !ready then EmitTrace(Fail(NotConnected), 0, [])
      else
        EmitTrace(if k < |started| then Fail(MissingEventName) else Ok, k,
                  AsWrittenInserts([], BatchList(started[..k], subs, now)))
  }

  /** Six named events, the sixth with a subscriber and a name of its own:
      as written `done` is called five times and no document of the sixth
      event is ever handed to insert, while the corrected emit inserts it. */
  lemma SixthEventNeverSent(events: seq<Event>, subs: Subscriptions, now: nat)
    requires |events| == 6
    requires forall i :: 0 <= i < 6 ==> events[i].name != ""
    requires forall i :: 0 <= i < 5 ==> events[i].name != events[5].name
    requires QueuesFor(subs, events[5].name) != []
    ensures var r := EmitAsWritten(events, subs, now, true);
      && r.thrown == Ok && r.doneCalls == 5
      && (forall b, d :: b in r.inserts && d in b ==> d.name != events[5].name)
    ensures exists d :: d in EmitDrafts(events, subs, now) && d.name == events[5].name
  {
    var started := Started(events);
    assert started == events[..5];
    var k := FirstNameless(started);
    assert k == 5;
    assert started[..k] == started;
    var bl := BatchList(started, subs, now);
    AsWrittenInsertsFrom([], bl);
    var r := EmitAsWritten(events, subs, now, true);
    assert r.inserts == AsWrittenInserts([], bl);
    forall b, d | b in r.inserts && d in b
      ensures d.name != events[5].name
    {
      var i :| 0 <= i < |bl| && d in bl[i];
      var f := FanOut(started[i], QueuesFor(subs, started[i].name), now);
      var j :| 0 <= j < |f| && f[j] == d;
      assert d.name == events[i].name;
    }
    var n := FirstNameless(events);
    assert n == 6;
    assert events[..6] == events;
    var last := FanOut(events[5], QueuesFor(subs, events[5].name), now);
    BatchesSnoc(events, 5, subs, now);
    assert events[..5 + 1] == events;
    assert EmitDrafts(events, subs, now) == Batches(events[..5], subs, now) + last;
    assert last[0] in EmitDrafts(events, subs, now);
  }

  // ---------------------------------------------------------------------
  // The claim, the lease and the archive

  predicate Pending(it: QueueItem) {
    it.when.Some? && it.done.None?
  }

  /** The claim's query: `when <= now` and the queue is one listened to. */
  predicate Eligible(it: QueueItem, now: nat, queues: set<string>)
    ensures it.when.None? ==> !Eligible(it, now, queues)
    ensures it.when.Some? && it.when.value > now ==> !Eligible(it, now, queues)
    ensures it.queue !in queues ==> !Eligible(it, now, queues)
  {
    it.when.Some? && it.when.value <= now && it.queue in queues
  }

  /** Index k holds the item the claim picks: eligible, with the smallest
      `created` among eligible items, and the first in store order among
      those with that `created`. */
  predicate IsOldestEligible(items: seq<QueueItem>, k: nat, now: nat, queues: set<string>) {
    && k < |items|
    && Eligible(items[k], now, queues)
    && (forall j :: 0 <= j < |items| && Eligible(items[j], now, queues) ==> items[k].created <= items[j].created)
    && (forall j :: 0 <= j < k && Eligible(items[j], now, queues) ==> items[k].created < items[j].created)
  }

  predicate NoneEligible(items: seq<QueueItem>, now: nat, queues: set<string>) {
    forall j :: 0 <= j < |items| ==> !Eligible(items[j], now, queues)
  }

  /** The claim's update: `when` moves to now + errorRetryTime. */
  function Leased(it: QueueItem, now: nat, retry: nat): (r: QueueItem)
    ensures r.when == Some(now + retry) && r.done == it.done
    ensures r.(when := it.when) == it
  {
    it.(when := Some(now + retry))
  }

  /** A leased item is not eligible again before the lease runs out and is
      eligible again afterwards (as long as nobody archives it). */
  lemma LeaseExpiry(it: QueueItem, now: nat, retry: nat, t: nat, queues: set<string>)
    requires it.queue in queues
    ensures Eligible(Leased(it, now, retry), t, queues) <==> now + retry <= t
  {
  }

  /** `{$unset: {when: 1}, $set: {done: doneAt}}`. */
  function MarkDone(it: QueueItem, doneAt: nat): (r: QueueItem)
    ensures r.when.None? && r.done == Some(doneAt) && !Pending(r)
    ensures r.(when := it.when, done := it.done) == it
  {
    it.(when := None, done := Some(doneAt))
  }

  /** An archived item is never claimed again. */
  lemma ArchivedNeverEligible(it: QueueItem, doneAt: nat, t: nat, queues: set<string>)
    ensures !Eligible(MarkDone(it, doneAt), t, queues)
  {
  }

  // ---------------------------------------------------------------------
  // The poll timer: None is the null sentinel, Some(ms) a scheduled poll

  /** `updatePollTimer(ms)`: reschedule, unless the timer is null. */
  function NextTimer(timer: Option<nat>, ms: nat): (r: Option<nat>)
    ensures timer.None? ==> r.None?
    ensures timer.Some? ==> r == Some(ms)
  {
    if timer.None? then None else Some(ms)
  }

  /** The timer after a run of poll cycles with the given delays. */
  function TimerAfter(timer: Option<nat>, delays: seq<nat>): Option<nat>
    decreases |delays|
  {
    if delays == [] then timer else TimerAfter(NextTimer(timer, delays[0]), delays[1..])
  }

  /** Once the timer is null no cycle ever schedules another poll. */
  lemma {:induction false} NullTimerStaysNull(delays: seq<nat>)
    ensures TimerAfter(None, delays) == None
    decreases |delays|
  {
    if delays != [] {
      NullTimerStaysNull(delays[1..]);
    }
  }

  /** A scheduled timer stays scheduled, with the last cycle's delay. */
  lemma {:induction false} ScheduledTimerStaysScheduled(d: nat, delays: seq<nat>)
    ensures TimerAfter(Some(d), delays) == Some(if delays == [] then d else delays[|delays| - 1])
    decreases |delays|
  {
    if delays != [] {
      ScheduledTimerStaysScheduled(delays[0], delays[1..]);
    }
  }
}
