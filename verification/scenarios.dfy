/** Small concrete runs of the dispatcher. Listeners record what they receive
    in a shared log, so delivery order is observable in the world state. */
module Scenarios {
  import opened Handlers
  import opened Dispatcher

  /** One delivery as a listener records it: who received which event value. */
  datatype Receipt = Receipt(listener: ListenerId, event: int)

  type Log = seq<Receipt>

  /** A listener that only records the event it receives. */
  function Record(w: World<Log>, id: ListenerId, e: int): Effect<Log> {
    Effect(World(w.state + [Receipt(id, e)], w.alive), [])
  }

  /** Like `Record`, except that listener 1 subscribes listener 2 to the same
      handler when it receives event 1. */
  function RecordAndSubscribe(w: World<Log>, id: ListenerId, e: int): Effect<Log> {
    Effect(World(w.state + [Receipt(id, e)], w.alive), if id == 1 && e == 1 then [2] else [])
  }

  /** Two subscriptions, one fire: both listeners receive the event, the first
      subscribed first, and the handler keeps both. */
  lemma TwoListenersInSubscriptionOrder()
    ensures AddListener(AddListener(New(), 1), 2) == Handler([1, 2], [], false)
    ensures Fire(Handler([1, 2], [], false), 1, World([], {1, 2}), Record)
         == Fired([Visit(1, true), Visit(2, true)], Handler([1, 2], [], false),
                  World([Receipt(1, 1), Receipt(2, 1)], {1, 2}))
  {
    var w := World([], {1, 2});
    RunSnoc([], 1, 1, w, Record);
    RunSnoc([1], 2, 1, w, Record);
    assert [] + [1] == [1] && [1] + [2] == [1, 2];
    assert w.state + [Receipt(1, 1)] == [Receipt(1, 1)];
    assert [Receipt(1, 1)] + [Receipt(2, 1)] == [Receipt(1, 1), Receipt(2, 1)];
    var p := Run([1, 2], 1, w, Record);
    assert p == Pass([Visit(1, true), Visit(2, true)], [1, 2], World([Receipt(1, 1), Receipt(2, 1)], {1, 2}), []);
    AddListenersInOrder(Handler([1, 2], [], true), []);
  }

  /** A listener dropped between two fires receives only the first event, and
      the second fire removes it from the active list. */
  lemma DroppedBetweenFires()
    ensures AddListener(New(), 1) == Handler([1], [], false)
    ensures Fire(Handler([1], [], false), 1, World([], {1}), Record)
         == Fired([Visit(1, true)], Handler([1], [], false), World([Receipt(1, 1)], {1}))
    ensures Fire(Handler([1], [], false), 2, World([Receipt(1, 1)], {}), Record)
         == Fired([Visit(1, false)], Handler([], [], false), World([Receipt(1, 1)], {}))
  {
    assert [] + [1] == [1];
    var w1 := World([], {1});
    RunSnoc([], 1, 1, w1, Record);
    assert w1.state + [Receipt(1, 1)] == [Receipt(1, 1)];
    var p := Run([1], 1, w1, Record);
    assert p == Pass([Visit(1, true)], [1], World([Receipt(1, 1)], {1}), []);
    var w2 := World([Receipt(1, 1)], {});
    RunSnoc([], 1, 2, w2, Record);
    var q := Run([1], 2, w2, Record);
    assert q == Pass([Visit(1, false)], [], w2, []);
    AddListenersInOrder(Handler([1], [], true), []);
  }

  /** Listener 1 subscribes listener 2 while receiving event 1: event 1 reaches
      only listener 1, and listener 2 joins the active list after the pass. */
  lemma SubscribeDuringFirstFire()
    ensures Fire(Handler([1], [], false), 1, World([], {1, 2}), RecordAndSubscribe)
         == Fired([Visit(1, true)], Handler([1, 2], [], false), World([Receipt(1, 1)], {1, 2}))
  {
    var w := World([], {1, 2});
    RunSnoc([], 1, 1, w, RecordAndSubscribe);
    assert [] + [1] == [1];
    assert w.state + [Receipt(1, 1)] == [Receipt(1, 1)];
    var p := Run([1], 1, w, RecordAndSubscribe);
    assert p == Pass([Visit(1, true)], [1], World([Receipt(1, 1)], {1, 2}), [2]);
    AddListenersInOrder(Handler([1], [], true), [2]);
  }

  /** The next event reaches listener 1 and then listener 2. */
  lemma SubscribedListenerNotifiedNext()
    ensures Fire(Handler([1, 2], [], false), 2, World([Receipt(1, 1)], {1, 2}), RecordAndSubscribe)
         == Fired([Visit(1, true), Visit(2, true)], Handler([1, 2], [], false),
                  World([Receipt(1, 1), Receipt(1, 2), Receipt(2, 2)], {1, 2}))
  {
    var w := World([Receipt(1, 1)], {1, 2});
    RunSnoc([], 1, 2, w, RecordAndSubscribe);
    RunSnoc([1], 2, 2, w, RecordAndSubscribe);
    assert [] + [1] == [1] && [1] + [2] == [1, 2];
    assert w.state + [Receipt(1, 2)] == [Receipt(1, 1), Receipt(1, 2)];
    assert [Receipt(1, 1), Receipt(1, 2)] + [Receipt(2, 2)] == [Receipt(1, 1), Receipt(1, 2), Receipt(2, 2)];
    var p := Run([1, 2], 2, w, RecordAndSubscribe);
    assert p == Pass([Visit(1, true), Visit(2, true)], [1, 2],
                     World([Receipt(1, 1), Receipt(1, 2), Receipt(2, 2)], {1, 2}), []);
    AddListenersInOrder(Handler([1, 2], [], true), []);
  }
}
