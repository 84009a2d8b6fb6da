/** `Handler::fire_event`: one ordered pass over the active list that resolves
    each weak reference when it is visited, calls `process` on the live ones
    and keeps them, drops the dead ones, and then appends the pending buffer.

    Everything outside the handler is a `World`: the set of listener ids whose
    weak references still resolve, plus an opaque state `S` owned by the
    listeners. A listener's `process` is an abstract step on that world. It
    may change the state, drop or create listeners (change the liveness set),
    and subscribe further ids to this same handler.
 */
module Dispatcher {
  import opened Handlers

  datatype World<S> = World(state: S, alive: set<ListenerId>)

  /** What one `process` call did: the world it left behind and the ids it
      passed to `add_listener` on this handler, in call order. */
  datatype Effect<S> = Effect(world: World<S>, subscribed: seq<ListenerId>)

  /** `Listener::process(&mut self, &E)`, seen from the dispatcher. */
  type Process<-E, !S> = (World<S>, ListenerId, E) -> Effect<S>

  /** One entry of the active list being visited: `delivered` is true when its
      weak reference resolved and `process` was called. */
  datatype Visit = Visit(id: ListenerId, delivered: bool)

  /** The outcome of visiting a prefix of the active list: the visits, the
      entries `retain` keeps, the world left behind, and the ids subscribed to
      this handler by the `process` calls, in call order. */
  datatype Pass<S> = Pass(visits: seq<Visit>, kept: seq<ListenerId>, world: World<S>, subscribed: seq<ListenerId>)

  /** The outcome of a complete `fire_event`. */
  datatype Fired<S> = Fired(visits: seq<Visit>, handler: Handler, world: World<S>)

  /** The ids that received the event, in delivery order. */
  function Delivered(visits: seq<Visit>): (ids: seq<ListenerId>)
    ensures |ids| <= |visits|
    ensures forall x :: x in ids <==> Visit(x, true) in visits
    decreases |visits|
  {
    if visits == [] then []
    else
      var last := visits[|visits| - 1];
      assert visits == visits[..|visits| - 1] + [last];
      Delivered(visits[..|visits| - 1]) + (if last.delivered then [last.id] else [])
  }

  /** One more visit extends the delivered ids by that visit's id exactly when
      it was delivered. */
  lemma DeliveredSnoc(visits: seq<Visit>, v: Visit)
    ensures Delivered(visits + [v]) == Delivered(visits) + (if v.delivered then [v.id] else [])
  {
  }

  /** Visiting one entry (the closure given to `retain`). */
  function Step<E, S>(p: Pass<S>, id: ListenerId, e: E, process: Process<E, S>): Pass<S> {
    if id in p.world.alive then
      var eff := process(p.world, id, e);
      Pass(p.visits + [Visit(id, true)], p.kept + [id], eff.world, p.subscribed + eff.subscribed)
    else
      Pass(p.visits + [Visit(id, false)], p.kept, p.world, p.subscribed)
  }

  /** Visiting the entries of `list` left to right, starting in world `w`. */
  function Run<E, S>(list: seq<ListenerId>, e: E, w: World<S>, process: Process<E, S>): (p: Pass<S>)
    ensures |p.visits| == |list|
    ensures forall i :: 0 <= i < |list| ==> p.visits[i].id == list[i]
    decreases |list|
  {
    if list == [] then Pass([], [], w, [])
    else Step(Run(list[..|list| - 1], e, w, process), list[|list| - 1], e, process)
  }

  /** The entries the pass keeps are exactly the ones that received the
      event, in the same order. */
  lemma {:induction false} KeptAreDelivered<E, S>(list: seq<ListenerId>, e: E, w: World<S>, process: Process<E, S>)
    ensures Run(list, e, w, process).kept == Delivered(Run(list, e, w, process).visits)
    decreases |list|
  {
    if list != [] {
      var p := Run(list[..|list| - 1], e, w, process);
      KeptAreDelivered(list[..|list| - 1], e, w, process);
      var v := Run(list, e, w, process).visits;
      DeliveredSnoc(p.visits, v[|v| - 1]);
      assert v == p.visits + [v[|v| - 1]];
    }
  }

  /** Visiting one more entry extends the pass by one step. */
  lemma RunSnoc<E, S>(list: seq<ListenerId>, id: ListenerId, e: E, w: World<S>, process: Process<E, S>)
    ensures Run(list + [id], e, w, process) == Step(Run(list, e, w, process), id, e, process)
  {
  }

  /** An independent statement of "call `process` once per id, in order":
      each call runs on the world the previous one left, and the ids the calls
      subscribe are concatenated in call order. */
  function Calls<E, S>(ids: seq<ListenerId>, e: E, w: World<S>, process: Process<E, S>): Effect<S>
    decreases |ids|
  {
    if ids == [] then Effect(w, [])
    else
      var prev := Calls(ids[..|ids| - 1], e, w, process);
      var eff := process(prev.world, ids[|ids| - 1], e);
      Effect(eff.world, prev.subscribed + eff.subscribed)
  }

  /** One more call extends the fold by one `process` step. */
  lemma CallsSnoc<E, S>(ids: seq<ListenerId>, id: ListenerId, e: E, w: World<S>, process: Process<E, S>)
    ensures Calls(ids + [id], e, w, process)
         == var prev := Calls(ids, e, w, process);
            var eff := process(prev.world, id, e);
            Effect(eff.world, prev.subscribed + eff.subscribed)
  {
    assert (ids + [id])[..|ids|] == ids;
  }

  /** The pass calls `process` exactly once for each entry it delivers to, in
      list order, and never for any other entry: the world it leaves and the
      ids subscribed during it are those of calling `process` once on each
      delivered id in turn. */
  lemma {:induction false} PassMakesExactlyTheDeliveredCalls<E, S>(list: seq<ListenerId>, e: E, w: World<S>, process: Process<E, S>)
    ensures Effect(Run(list, e, w, process).world, Run(list, e, w, process).subscribed)
         == Calls(Delivered(Run(list, e, w, process).visits), e, w, process)
    decreases |list|
  {
    KeptAreDelivered(list, e, w, process);
    if list != [] {
      var init := list[..|list| - 1];
      var id := list[|list| - 1];
      var p := Run(init, e, w, process);
      PassMakesExactlyTheDeliveredCalls(init, e, w, process);
      KeptAreDelivered(init, e, w, process);
      if id in p.world.alive {
        CallsSnoc(p.kept, id, e, w, process);
      }
    }
  }

  /** The liveness set at the moment entry `i` of `list` is visited. */
  function AliveBefore<E, S>(list: seq<ListenerId>, i: nat, e: E, w: World<S>, process: Process<E, S>): set<ListenerId>
    requires i <= |list|
  {
    Run(list[..i], e, w, process).world.alive
  }

  /** Entry `i` is visited exactly once, and it receives the event exactly when
      its weak reference resolves at that moment. */
  lemma {:induction false} VisitAt<E, S>(list: seq<ListenerId>, i: nat, e: E, w: World<S>, process: Process<E, S>)
    requires i < |list|
    ensures Run(list, e, w, process).visits[i]
         == Visit(list[i], list[i] in AliveBefore(list, i, e, w, process))
    decreases |list|
  {
    var n := |list|;
    var init := list[..n - 1];
    if i == n - 1 {
      assert init == list[..i];
    } else {
      VisitAt(init, i, e, w, process);
      assert init[..i] == list[..i];
    }
  }

  /** `fire_event` on a handler whose active list is not borrowed. */
  function Fire<E, S>(h: Handler, e: E, w: World<S>, process: Process<E, S>): (r: Fired<S>)
    requires !h.dispatching
    ensures Idle(r.handler)
    ensures |r.visits| == |h.listeners|
    ensures forall i :: 0 <= i < |h.listeners| ==>
      r.visits[i] == Visit(h.listeners[i], h.listeners[i] in AliveBefore(h.listeners, i, e, w, process))
    ensures r.world == Calls(Delivered(r.visits), e, w, process).world
    ensures r.handler.listeners
         == Delivered(r.visits) + h.toAdd + Calls(Delivered(r.visits), e, w, process).subscribed
  {
    var p := Run(h.listeners, e, w, process);
    var during := AddListeners(h.(dispatching := true), p.subscribed);
    AddListenersInOrder(h.(dispatching := true), p.subscribed);
    KeptAreDelivered(h.listeners, e, w, process);
    PassMakesExactlyTheDeliveredCalls(h.listeners, e, w, process);
    assert forall i :: 0 <= i < |h.listeners| ==>
      p.visits[i] == Visit(h.listeners[i], h.listeners[i] in AliveBefore(h.listeners, i, e, w, process)) by {
      forall i | 0 <= i < |h.listeners| {
        VisitAt(h.listeners, i, e, w, process);
      }
    }
    Fired(p.visits, Handler(p.kept + during.toAdd, [], false), p.world)
  }

  /** The listeners subscribed to this handler from inside `process` calls
      during a `fire_event`, in call order. */
  function SubscribedDuring<E, S>(h: Handler, e: E, w: World<S>, process: Process<E, S>): seq<ListenerId> {
    Run(h.listeners, e, w, process).subscribed
  }

  /** After `fire_event` the active list is the entries kept by the pass, then
      what was already pending, then what was subscribed during the pass;
      the pending buffer is drained. */
  lemma FireAppendsPending<E, S>(h: Handler, e: E, w: World<S>, process: Process<E, S>)
    requires !h.dispatching
    ensures Fire(h, e, w, process).handler.listeners
         == Delivered(Fire(h, e, w, process).visits) + h.toAdd + SubscribedDuring(h, e, w, process)
    ensures Fire(h, e, w, process).handler.toAdd == []
  {
    var r := Fire(h, e, w, process);
    PassMakesExactlyTheDeliveredCalls(h.listeners, e, w, process);
    assert r.visits == Run(h.listeners, e, w, process).visits;
  }

  /** The loop of `fire_event`: `add_listener` calls made by listeners go
      through the handler while it is marked as dispatching. */
  method FireEvent<E, S>(h: Handler, e: E, w: World<S>, process: Process<E, S>)
    returns (visits: seq<Visit>, h': Handler, w': World<S>)
    requires !h.dispatching
    ensures Fired(visits, h', w') == Fire(h, e, w, process)
    ensures |visits| == |h.listeners|
    ensures forall i :: 0 <= i < |h.listeners| ==>
      visits[i] == Visit(h.listeners[i], h.listeners[i] in AliveBefore(h.listeners, i, e, w, process))
    ensures h'.listeners == Delivered(visits) + h.toAdd + SubscribedDuring(h, e, w, process)
    ensures Idle(h')
  {
    var cur := h.(dispatching := true);
    var kept: seq<ListenerId> := [];
    ghost var pass: Pass<S> := Pass([], [], w, []);
    ghost var prefix: seq<ListenerId> := [];
    visits := [];
    w' := w;
    var i := 0;
    while i < |h.listeners|
      invariant 0 <= i <= |h.listeners|
      invariant prefix == h.listeners[..i]
      invariant Run(prefix, e, w, process) == pass
      invariant pass == Pass(visits, kept, w', pass.subscribed)
      invariant cur == Handler(h.listeners, h.toAdd + pass.subscribed, true)
    {
      var id := h.listeners[i];
      assert prefix + [id] == h.listeners[..i + 1];
      RunSnoc(prefix, id, e, w, process);
      prefix := prefix + [id];
      pass := Step(pass, id, e, process);
      if id in w'.alive {
        var eff := process(w', id, e);
        AddListenersInOrder(cur, eff.subscribed);
        cur := AddListeners(cur, eff.subscribed);
        w' := eff.world;
        kept := kept + [id];
        visits := visits + [Visit(id, true)];
      } else {
        visits := visits + [Visit(id, false)];
      }
      i := i + 1;
    }
    assert prefix == h.listeners;
    h' := Handler(kept + cur.toAdd, [], false);
    AddListenersInOrder(h.(dispatching := true), pass.subscribed);
    FireAppendsPending(h, e, w, process);
  }
}
