/** The `Wrkr` coordinator: the event-name -> handler table, publish's
    list normalisation, dispatch of claimed items, and delegation of the
    lifecycle to its store. */
module Coordinator {
  import opened Values
  import opened QueueStore
  import opened Backend

  /** What was passed as a handler: `Absent` a falsy value, `Fn(ref)` one
      function identity, `NotCallable` a truthy value that is not a
      function (a non-empty string, an object). */
  datatype Handler = Absent | Fn(ref: nat) | NotCallable

  /** What `_dispatch` did with one item: nothing, ran a registered
      function, tried to call an own entry that is not a function, or
      called a member the handler table inherits from `Object.prototype`. */
  datatype Dispatched =
    | Unhandled
    | Ran(handler: Handler, reply: Reply)
    | Uncallable(name: string)
    | Inherited(name: string)

  /** The argument of `publish`: one event or an array of them. */
  datatype Published = One(event: Event) | Many(events: seq<Event>)

  /** The constructor's options; `backend` is the key the test suites use. */
  datatype WrkrOptions = WrkrOptions(store: Option<WrkrMongodb>, backend: Option<WrkrMongodb>)

  /** The members a plain `{}` inherits from `Object.prototype`; a look-up
      of one of these names in the handler table finds a truthy value. */
  const InheritedNames: set<string> :=
    {"constructor", "hasOwnProperty", "isPrototypeOf", "propertyIsEnumerable",
     "toLocaleString", "toString", "valueOf", "__proto__",
     "__defineGetter__", "__defineSetter__", "__lookupGetter__", "__lookupSetter__"}

  /** `self.eventHandlers[name]` is truthy: an own entry holding a truthy
      value, or no own entry and an inherited member of that name. */
  predicate HasHandler(handlers: map<string, Handler>, name: string)
    ensures HasHandler(handlers, name) ==> name in handlers || name in InheritedNames
    ensures name in handlers && handlers[name].Fn? ==> HasHandler(handlers, name)
  {
    if name in handlers then !handlers[name].Absent? else name in InheritedNames
  }

  /** No own entry of the table shadows an inherited member. */
  predicate NoInheritedKeys(handlers: map<string, Handler>) {
    forall n :: n in handlers ==> n !in InheritedNames
  }

  /** `Array.isArray(events) ? events : [events]`. */
  function EventList(p: Published): (r: seq<Event>)
    ensures p.One? ==> |r| == 1 && r[0] == p.event
    ensures p.Many? ==> r == p.events
  {
    match p
    case One(e) => [e]
    case Many(es) => es
  }

  /** `_dispatch`: without a truthy entry for the item's name nothing
      runs; an own function entry runs on the item; an own entry that is
      not a function, or an inherited member, is called in its place. `run` stands for the application code of
      the handlers and says what became of the callback each was given. */
  function Dispatch(handlers: map<string, Handler>, item: QueueItem,
                    run: (Handler, QueueItem) -> Reply): (r: Dispatched)
    ensures r.Unhandled? <==> !HasHandler(handlers, item.name)
    ensures r.Inherited? <==> item.name !in handlers && item.name in InheritedNames
    ensures r.Uncallable? <==> item.name in handlers && handlers[item.name].NotCallable?
    ensures r.Inherited? || r.Uncallable? ==> r.name == item.name
    ensures r.Ran? ==> item.name in handlers && r.handler == handlers[item.name] && r.handler.Fn?
                       && r.reply == run(r.handler, item)
  {
    if item.name in handlers then
      match handlers[item.name]
      case Fn(_) => Ran(handlers[item.name], run(handlers[item.name], item))
      case NotCallable => Uncallable(item.name)
      case Absent => Unhandled
    else if item.name in InheritedNames then Inherited(item.name)
    else Unhandled
  }

  /** What becomes of `_dispatch`'s own callback. A handler calling back
      with an error makes the callback throw before it reports. Calling
      an entry that is not a function throws a TypeError. Of the
      inherited members, `__proto__` is not callable; the others return
      without calling the callback. */
  function Reported(d: Dispatched): (r: Reply)
    ensures r.Called? ==> r.outcome == Ok
    ensures r.Called? <==> d.Unhandled? || (d.Ran? && d.reply == Called(Ok))
  {
    match d
    case Unhandled => Called(Ok)
    case Ran(_, Called(Ok)) => Called(Ok)
    case Ran(_, Called(Fail(e))) => Threw(e)
    case Ran(_, reply) => reply
    case Uncallable(name) => Threw(NotAFunction(name))
    case Inherited(name) => if name == "__proto__" then Threw(NotAFunction(name)) else NoCallback
  }

  /** Dispatch calls back exactly when there is no truthy entry or the
      handler called back without an error, and then it reports success;
      a handler's error is thrown unchanged; an entry that is not a
      function throws; an inherited name never calls back. */
  lemma DispatchReport(handlers: map<string, Handler>, item: QueueItem,
                       run: (Handler, QueueItem) -> Reply)
    ensures var rep := Reported(Dispatch(handlers, item, run));
      && (rep.Called? ==> rep.outcome == Ok)
      && (rep.Called? <==> !HasHandler(handlers, item.name)
                           || (item.name in handlers && handlers[item.name].Fn?
                               && run(handlers[item.name], item) == Called(Ok)))
      && (item.name in handlers && handlers[item.name].Fn?
          && run(handlers[item.name], item).Called? && run(handlers[item.name], item).outcome.Fail? ==>
            rep == Threw(run(handlers[item.name], item).outcome.error))
      && (item.name in handlers && handlers[item.name].NotCallable? ==> rep == Threw(NotAFunction(item.name)))
      && (item.name !in handlers && item.name in InheritedNames ==> !rep.Called?)
  {
  }

  class Wrkr {
    const store: WrkrMongodb
    var eventHandlers: map<string, Handler>

    constructor (store: WrkrMongodb)
      ensures this.store == store && eventHandlers == map[]
    {
      this.store := store;
      eventHandlers := map[];
    }

    /** `new Wrkr(options)`: throws when `options.store` is not set. */
    static method Create(options: WrkrOptions) returns (r: Result<Wrkr>)
      ensures r.Failure? <==> options.store.None?
      ensures r.Failure? ==> r.error == NoStore
      ensures r.Success? ==> fresh(r.value) && r.value.store == options.store.value
                             && r.value.eventHandlers == map[] && NoInheritedKeys(r.value.eventHandlers)
    {
      if options.store.None? {
        return Failure(NoStore);
      }
      var w := new Wrkr(options.store.value);
      r := Success(w);
    }

    /** `start`: delegated to the store. */
    method Start(opens: bool) returns (r: Outcome)
      modifies store`dbCreated, store`modelsReady
      ensures store.dbCreated && store.modelsReady == (old(store.modelsReady) || opens)
      ensures r == if opens then Ok else Fail(ConnectionError)
    {
      r := store.Start(opens);
    }

    /** `stop`: delegated to the store. */
    method Stop() returns (r: Outcome)
      modifies store`pollTimer
      ensures store.pollTimer == None
      ensures r == if store.dbCreated then Ok else Fail(NotConnected)
    {
      r := store.Stop();
    }

    /** `publish` as written: it calls `store.publish`, which the backend
        does not define, so the call fails and the store is untouched. */
    method PublishAsWritten(events: Published) returns (r: Outcome)
      ensures r == Fail(NotAFunction("publish"))
    {
      var eventList := EventList(events);
      r := Fail(NotAFunction("publish"));
    }

    /** `publish` as evidently intended: the normalised list goes to the
        backend's `emit`. */
    method Publish(events: Published, now: nat) returns (r: Outcome)
      requires store.Valid()
      modifies store`items, store`nextId
      ensures store.Valid()
      ensures r == EmitOutcome(EventList(events), store.modelsReady)
      ensures store.modelsReady ==>
        store.items == old(store.items) + Stamp(EmitDrafts(EventList(events), store.subscriptions, now), old(store.nextId))
      ensures store.modelsReady ==>
        store.nextId == old(store.nextId) + |EmitDrafts(EventList(events), store.subscriptions, now)|
      ensures !store.modelsReady ==> store.items == old(store.items) && store.nextId == old(store.nextId)
    {
      var eventList := EventList(events);
      r := store.Emit(eventList, now);
    }

    /** `subscribe`: a second handler for an event name, or any name the
        table inherits, is refused and nothing changes; otherwise the
        handler is recorded and the store subscribes the queue to the
        event. */
    method Subscribe(queueName: string, eventName: string, handler: Handler) returns (r: Outcome)
      requires store.Valid()
      modifies this`eventHandlers, store`listenQueues, store`subscriptions
      ensures store.Valid()
      ensures HasHandler(old(eventHandlers), eventName) ==>
        && r == Fail(DuplicateHandler(eventName))
        && eventHandlers == old(eventHandlers)
        && store.listenQueues == old(store.listenQueues)
        && store.subscriptions == old(store.subscriptions)
      ensures !HasHandler(old(eventHandlers), eventName) ==>
        && eventHandlers == old(eventHandlers)[eventName := handler]
        && store.listenQueues == old(store.listenQueues) + {queueName}
        && store.subscriptions == (if store.modelsReady
                                   then AddToSet(old(store.subscriptions), eventName, queueName)
                                   else old(store.subscriptions))
        && r == (if store.modelsReady then Ok else Fail(NotConnected))
      ensures NoInheritedKeys(old(eventHandlers)) ==> NoInheritedKeys(eventHandlers)
    {
      if HasHandler(eventHandlers, eventName) {
        return Fail(DuplicateHandler(eventName));
      }
      eventHandlers := eventHandlers[eventName := handler];
      r := store.Subscribe(queueName, eventName);
    }

    /** `unsubscribe`: not implemented, always an error. */
    method Unsubscribe(queueName: string, eventName: string) returns (r: Outcome)
      ensures r == Fail(NotImplemented)
    {
      r := Fail(NotImplemented);
    }

    /** `listen`: delegated to the store, whose listen arms the poll timer
        for the first poll. */
    method Listen() returns (r: Outcome)
      modifies store`polledQueues, store`pollTimer
      ensures store.polledQueues == store.listenQueues && store.pollTimer == Some(0) && r == Ok
    {
      r := store.ListenArmed();
    }

    /** One run of the store's `poll`, its `self.wrkr._dispatch` bound to
        this coordinator's handler table. */
    method Poll(now: nat, doneAt: nat, run: (Handler, QueueItem) -> Reply) returns (r: PollResult)
      requires store.Valid()
      modifies store`items, store`pollTimer
      ensures store.Valid()
      ensures !store.modelsReady <==> r.Unready?
      ensures r.Idle? <==> store.modelsReady && NoneEligible(old(store.items), now, store.polledQueues)
      ensures r.Processed? ==>
        && r.outcome == Ok
        && Reported(Dispatch(eventHandlers, r.item, run)) == Called(Ok)
        && IsOldestEligible(old(store.items), r.index, now, store.polledQueues)
        && r.item == old(store.items)[r.index]
        && store.items == old(store.items)[r.index := MarkDone(Leased(r.item, now, store.ErrorRetryTime()), doneAt)]
        && store.pollTimer == NextTimer(old(store.pollTimer), store.PollIntervalBusy())
      ensures r.Stalled? ==>
        && r.reply == Reported(Dispatch(eventHandlers, r.item, run)) && !r.reply.Called?
        && IsOldestEligible(old(store.items), r.index, now, store.polledQueues)
        && r.item == old(store.items)[r.index]
        && store.items == old(store.items)[r.index := Leased(r.item, now, store.ErrorRetryTime())]
        && store.pollTimer == old(store.pollTimer)
      ensures r.Unready? || r.Idle? ==> store.items == old(store.items)
      ensures r.Unready? ==> store.pollTimer == old(store.pollTimer)
      ensures r.Idle? ==> store.pollTimer == NextTimer(old(store.pollTimer), store.PollInterval())
    {
      var handlers := eventHandlers;
      r := store.PollCycle(now, doneAt, (item: QueueItem) => Reported(Dispatch(handlers, item, run)));
      if r.Processed? {
        DispatchReport(handlers, r.item, run);
      }
    }
  }
}
