/** What `fire_event` promises about delivery, order and deferred
    subscription, stated over the model of module Dispatcher. */
module DispatchProperties {
  import opened Handlers
  import opened Dispatcher

  /** `a` is `b` with some entries removed, relative order kept. */
  predicate IsSubsequence(a: seq<ListenerId>, b: seq<ListenerId>)
    decreases |b|
  {
    if b == [] then a == []
    else
      (a != [] && a[|a| - 1] == b[|b| - 1] && IsSubsequence(a[..|a| - 1], b[..|b| - 1]))
      || IsSubsequence(a, b[..|b| - 1])
  }

  /** The entries of `list` that lie in `alive`, in list order: an independent
      statement of "the list filtered to its live entries". */
  function Filter(list: seq<ListenerId>, alive: set<ListenerId>): (r: seq<ListenerId>)
    ensures forall x :: x in r <==> x in list && x in alive
    decreases |list|
  {
    if list == [] then []
    else
      var last := list[|list| - 1];
      assert list == list[..|list| - 1] + [last];
      Filter(list[..|list| - 1], alive) + (if last in alive then [last] else [])
  }

  /** No `process` call changes which listeners are alive. */
  ghost predicate KeepsLiveness<E, S(!new)>(process: Process<E, S>, e: E) {
    forall w: World<S>, x: ListenerId :: process(w, x, e).world.alive == w.alive
  }

  /** No `process` call subscribes anything. */
  ghost predicate SubscribesNothing<E, S(!new)>(process: Process<E, S>, e: E) {
    forall w: World<S>, x: ListenerId :: process(w, x, e).subscribed == []
  }

  /** A weak reference to an id in `ids` that no longer resolves never resolves
      again: no `process` call brings such a listener back. */
  ghost predicate NoRevival<E, S(!new)>(process: Process<E, S>, e: E, ids: set<ListenerId>) {
    forall w: World<S>, x: ListenerId :: process(w, x, e).world.alive * ids <= w.alive
  }

  /** The kept entries are the pre-fire list with some entries removed, in the
      same relative order: `retain` never reorders. */
  lemma {:induction false} KeptIsSubsequence<E, S>(list: seq<ListenerId>, e: E, w: World<S>, process: Process<E, S>)
    ensures IsSubsequence(Delivered(Run(list, e, w, process).visits), list)
    decreases |list|
  {
    if list != [] {
      var n := |list|;
      var init := list[..n - 1];
      KeptIsSubsequence(init, e, w, process);
      var p := Run(init, e, w, process);
      var q := Run(list, e, w, process);
      assert q.visits[..n - 1] == p.visits;
      if q.visits[n - 1].delivered {
        assert Delivered(q.visits) == Delivered(p.visits) + [list[n - 1]];
      } else {
        assert Delivered(q.visits) == Delivered(p.visits);
      }
    }
  }

  /** When no listener changes liveness during the pass, the pass keeps
      exactly the pre-fire list filtered to its live entries. */
  lemma {:induction false} StaticLivenessFilters<E, S(!new)>(list: seq<ListenerId>, e: E, w: World<S>, process: Process<E, S>)
    requires KeepsLiveness(process, e)
    ensures Run(list, e, w, process).world.alive == w.alive
    ensures Delivered(Run(list, e, w, process).visits) == Filter(list, w.alive)
    decreases |list|
  {
    if list != [] {
      var n := |list|;
      var init := list[..n - 1];
      StaticLivenessFilters(init, e, w, process);
      var p := Run(init, e, w, process);
      var q := Run(list, e, w, process);
      assert q.visits[..n - 1] == p.visits;
    }
  }

  /** When no listener subscribes anything, nothing is subscribed during the pass. */
  lemma {:induction false} SilentPassSubscribesNothing<E, S(!new)>(list: seq<ListenerId>, e: E, w: World<S>, process: Process<E, S>)
    requires SubscribesNothing(process, e)
    ensures Run(list, e, w, process).subscribed == []
    decreases |list|
  {
    if list != [] {
      SilentPassSubscribesNothing(list[..|list| - 1], e, w, process);
    }
  }

  /** Without revival, an id of `ids` that is alive at a later visit was alive
      at every earlier one. */
  lemma {:induction false} AliveShrinks<E, S(!new)>(list: seq<ListenerId>, i: nat, j: nat, e: E, w: World<S>,
                                              process: Process<E, S>, ids: set<ListenerId>)
    requires i <= j <= |list|
    requires NoRevival(process, e, ids)
    ensures AliveBefore(list, j, e, w, process) * ids <= AliveBefore(list, i, e, w, process)
    decreases j - i
  {
    if i < j {
      AliveShrinks(list, i, j - 1, e, w, process, ids);
      assert list[..j][..j - 1] == list[..j - 1];
      var p := Run(list[..j - 1], e, w, process);
      assert Run(list[..j], e, w, process) == Step(p, list[j - 1], e, process);
    }
  }

  /** A listener that is still alive when `fire_event` returns (and that no
      call revived) received the event at every one of its entries. */
  lemma HeldListenerNotified<E, S(!new)>(h: Handler, e: E, w: World<S>, process: Process<E, S>, id: ListenerId)
    requires !h.dispatching
    requires NoRevival(process, e, {id})
    requires id in Fire(h, e, w, process).world.alive
    ensures forall i :: 0 <= i < |h.listeners| && h.listeners[i] == id ==>
      Fire(h, e, w, process).visits[i] == Visit(id, true)
  {
    var list := h.listeners;
    forall i | 0 <= i < |list| && list[i] == id
      ensures Fire(h, e, w, process).visits[i] == Visit(id, true)
    {
      AliveShrinks(list, i, |list|, e, w, process, {id});
      assert list[..|list|] == list;
    }
  }

  /** A listener already dead when `fire_event` starts (and never revived)
      receives nothing, and none of its entries survives the pass. */
  lemma DroppedListenerNotNotified<E, S(!new)>(h: Handler, e: E, w: World<S>, process: Process<E, S>, id: ListenerId)
    requires !h.dispatching
    requires NoRevival(process, e, {id})
    requires id !in w.alive
    ensures forall i :: 0 <= i < |h.listeners| && h.listeners[i] == id ==>
      Fire(h, e, w, process).visits[i] == Visit(id, false)
    ensures id !in Delivered(Fire(h, e, w, process).visits)
  {
    var list := h.listeners;
    var r := Fire(h, e, w, process);
    forall i | 0 <= i < |list| && list[i] == id
      ensures r.visits[i] == Visit(id, false)
    {
      AliveShrinks(list, 0, i, e, w, process, {id});
      assert list[..0] == [];
    }
    forall i | 0 <= i < |r.visits|
      ensures r.visits[i] != Visit(id, true)
    {
    }
  }

  /** Firing a handler with no subscriptions and nothing pending delivers
      nothing and changes nothing. */
  lemma FireEmptyIsNoOp<E, S>(h: Handler, e: E, w: World<S>, process: Process<E, S>)
    requires Idle(h) && h.listeners == []
    ensures Fire(h, e, w, process) == Fired([], h, w)
  {
  }

  /** When every entry is alive, no call changes liveness and no call
      subscribes, every entry is notified in list order and the handler comes
      back unchanged: the order is stable across fires. */
  lemma StableOrder<E, S(!new)>(h: Handler, e: E, w: World<S>, process: Process<E, S>)
    requires Idle(h)
    requires forall i :: 0 <= i < |h.listeners| ==> h.listeners[i] in w.alive
    requires KeepsLiveness(process, e) && SubscribesNothing(process, e)
    ensures Delivered(Fire(h, e, w, process).visits) == h.listeners
    ensures Fire(h, e, w, process).handler == h
  {
    StaticLivenessFilters(h.listeners, e, w, process);
    SilentPassSubscribesNothing(h.listeners, e, w, process);
    FireAppendsPending(h, e, w, process);
    FilterKeepsAll(h.listeners, w.alive);
  }

  lemma {:induction false} FilterKeepsAll(list: seq<ListenerId>, alive: set<ListenerId>)
    requires forall i :: 0 <= i < |list| ==> list[i] in alive
    ensures Filter(list, alive) == list
    decreases |list|
  {
    if list != [] {
      var init := list[..|list| - 1];
      assert forall i :: 0 <= i < |init| ==> init[i] == list[i];
      FilterKeepsAll(init, alive);
      assert list[|list| - 1] in alive;
      assert init + [list[|list| - 1]] == list;
    }
  }

  /** A listener subscribed from inside `process` during one `fire_event`
      gets a new entry appended after the pass, at position `k` of the active
      list; that fire visits only the pre-fire entries, so not this one. The
      next `fire_event` visits the new entry, after the kept and previously
      pending entries, and notifies it exactly when it is alive then. */
  lemma SubscribedNotifiedNextFire<E, S>(h: Handler, e1: E, e2: E, w: World<S>, process: Process<E, S>, j: nat)
    requires !h.dispatching
    requires j < |SubscribedDuring(h, e1, w, process)|
    ensures
      var r1 := Fire(h, e1, w, process);
      var id := SubscribedDuring(h, e1, w, process)[j];
      var k := |Delivered(r1.visits)| + |h.toAdd| + j;
      var r2 := Fire(r1.handler, e2, r1.world, process);
      k < |r1.handler.listeners| && r1.handler.listeners[k] == id &&
      k < |r2.visits| &&
      r2.visits[k] == Visit(id, id in AliveBefore(r1.handler.listeners, k, e2, r1.world, process))
  {
    FireAppendsPending(h, e1, w, process);
  }

  /** Operations issued on a handler from outside any dispatch. */
  datatype Op<E> = Subscribe(id: ListenerId) | FireOp(event: E)

  /** The number of fires in a run of operations. */
  function FireCount<E>(ops: seq<Op<E>>): nat
    decreases |ops|
  {
    if ops == [] then 0
    else FireCount(ops[..|ops| - 1]) + (if ops[|ops| - 1].FireOp? then 1 else 0)
  }

  /** A run of operations issued from outside any dispatch. The handler is at
      rest between operations, and each fire contributes its visits. */
  function Execute<E, S>(h: Handler, w: World<S>, ops: seq<Op<E>>, process: Process<E, S>)
    : (r: (Handler, World<S>, seq<seq<Visit>>))
    requires Idle(h)
    ensures Idle(r.0)
    ensures |r.2| == FireCount(ops)
    decreases |ops|
  {
    if ops == [] then (h, w, [])
    else
      var prev := Execute(h, w, ops[..|ops| - 1], process);
      match ops[|ops| - 1]
      case Subscribe(id) => (AddListener(prev.0, id), prev.1, prev.2)
      case FireOp(ev) =>
        var f := Fire(prev.0, ev, prev.1, process);
        (f.handler, f.world, prev.2 + [f.visits])
  }
}
