/** The state of one event Handler: the active subscriber list, the pending-add
    buffer, and whether a dispatch currently holds the active list.

    A weak listener reference is modelled by an opaque `ListenerId`; whether it
    still resolves is decided by a liveness set kept outside the handler (see
    module Dispatcher). The `RefCell` borrow of the active list that
    `fire_event` holds for the duration of a pass is modelled by the flag
    `dispatching`: `add_listener`'s `try_borrow_mut` fails exactly when it is set.
 */
module Handlers {

  /** Identity of a subscribed listener; stands for a `Weak` reference. */
  type ListenerId = nat

  datatype Handler = Handler(
    listeners: seq<ListenerId>,   // the active list, in subscription order
    toAdd: seq<ListenerId>,       // subscriptions made while a dispatch was running
    dispatching: bool             // the active list is borrowed by fire_event
  )

  /** Outside a dispatch the pending buffer is always empty. */
  predicate WellFormed(h: Handler) {
    !h.dispatching ==> h.toAdd == []
  }

  /** A handler at rest: no dispatch running and nothing pending. */
  predicate Idle(h: Handler) {
    !h.dispatching && h.toAdd == []
  }

  /** `Handler::new`: both lists empty, no dispatch running. */
  function New(): (h: Handler)
    ensures Idle(h) && WellFormed(h)
    ensures h.listeners == []
  {
    Handler([], [], false)
  }

  /** `Handler::add_listener`: appends to the active list when it can be
      borrowed, and to the pending buffer when a dispatch holds it. It never
      rejects a subscription. */
  function AddListener(h: Handler, id: ListenerId): (h': Handler)
    ensures h'.dispatching == h.dispatching
    ensures !h.dispatching ==> h'.listeners == h.listeners + [id] && h'.toAdd == h.toAdd
    ensures h.dispatching ==> h'.listeners == h.listeners && h'.toAdd == h.toAdd + [id]
    ensures WellFormed(h) ==> WellFormed(h')
  {
    if h.dispatching then h.(toAdd := h.toAdd + [id])
    else h.(listeners := h.listeners + [id])
  }

  /** Several `add_listener` calls on the same handler, in call order. */
  function AddListeners(h: Handler, ids: seq<ListenerId>): Handler
    decreases |ids|
  {
    if ids == [] then h else AddListeners(AddListener(h, ids[0]), ids[1..])
  }

  /** Calls made while no dispatch runs extend the active list in call order
      and leave the pending buffer alone; calls made during a dispatch extend
      the pending buffer in call order and leave the active list alone. */
  lemma {:induction false} AddListenersInOrder(h: Handler, ids: seq<ListenerId>)
    ensures AddListeners(h, ids).dispatching == h.dispatching
    ensures !h.dispatching ==>
      AddListeners(h, ids) == Handler(h.listeners + ids, h.toAdd, false)
    ensures h.dispatching ==>
      AddListeners(h, ids) == Handler(h.listeners, h.toAdd + ids, true)
    decreases |ids|
  {
    if ids != [] {
      AddListenersInOrder(AddListener(h, ids[0]), ids[1..]);
      assert [ids[0]] + ids[1..] == ids;
      assert h.listeners + [ids[0]] + ids[1..] == h.listeners + ids;
      assert h.toAdd + [ids[0]] + ids[1..] == h.toAdd + ids;
    }
  }
}
