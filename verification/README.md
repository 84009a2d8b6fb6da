# wasmuri-events: the `Handler<E>` dispatcher

This project models the generic event dispatcher `Handler<E>` of wasmuri-events
(`src/handler.rs`). It is a synchronous fan-out registry for one event category.
It holds an active list of weak listener references and a pending-add buffer:

- `add_listener` appends to the active list. When a dispatch is running and
  holds the active list, it appends to the pending buffer instead.
- `fire_event` makes one ordered pass over the active list. It resolves each
  weak reference when it visits it. It calls `process` on each live listener and
  keeps it, and it drops each dead one. After the pass it appends the pending
  buffer to the active list.

The central promise is that mutation during iteration is deferred, never
interleaved. A listener subscribed from inside `process` is not visited by the
`fire_event` that is running. It joins the active list after the pass.

How the Rust mechanics are modelled:

- A `Weak<RefCell<dyn Listener<E>>>` is an opaque `ListenerId` (a `nat`).
- Whether a weak reference still resolves is decided by a liveness set
  `alive`. That set is part of a `World<S>`, together with an opaque
  listener-side state `S`.
- The `RefCell` borrow that `fire_event` holds on the active list is the
  flag `dispatching`. `add_listener`'s `try_borrow_mut` fails exactly when
  this flag is set.
- `Listener::process` is a total function parameter
  `(World<S>, ListenerId, E) -> Effect<S>`. It may change the listener state,
  drop or create listeners (change `alive`), and subscribe ids to this same
  handler. Those subscriptions are applied through `AddListener` on the
  dispatching handler. Liveness is therefore checked again at every visit:
  an earlier listener may have dropped a later one.
- `fire_event` has two forms:
  - `Dispatcher.Fire` is a function built from a left-to-right fold
    (`Dispatcher.Run` of `Dispatcher.Step`).
  - `Dispatcher.FireEvent` is a loop method, proved equal to `Fire`.
- A re-entrant `fire_event` on the same handler would panic at the
  `borrow_mut` of `src/handler.rs:79`. It is therefore a precondition:
  `!h.dispatching`.

Modules:

- `Handlers` (`handler.dfy`): the handler state, `New`, `AddListener`.
- `Dispatcher` (`dispatcher.dfy`): the world, the visit pass, `Fire`,
  `FireEvent`.
- `DispatchProperties` (`properties.dfy`): delivery, order and deferral
  properties, plus runs of operations.
- `Scenarios` (`scenarios.dfy`): small concrete runs, in which listeners record
  what they receive in a log.

## Model

| member | source | states |
|---|---|---|
| Handlers.New | src/handler.rs:28-35 | A new handler has an empty active list and an empty pending buffer, and no dispatch is running |
| Handlers.AddListener | src/handler.rs:50-65 | With no dispatch running, the id goes to the end of the active list and the pending buffer is untouched. During a dispatch, the id goes to the end of the pending buffer and the active list is untouched. The call never rejects an id and keeps the invariant "no dispatch implies nothing pending" |
| Handlers.AddListenersInOrder | src/handler.rs:37-65 | A series of `add_listener` calls extends the active list (at rest) or the pending buffer (during a dispatch) by exactly the ids, in call order |
| Dispatcher.Delivered | src/handler.rs:83-94 | The ids that received the event, in delivery order; an id is among them exactly when some visit delivered to it |
| Dispatcher.Run | src/handler.rs:83-94 | The pass makes exactly one visit per entry of the list, in list order, and visits nothing else |
| Dispatcher.VisitAt | src/handler.rs:83-94 | Entry `i` receives the event exactly when its weak reference resolves at the moment it is visited (liveness as left by the earlier `process` calls) |
| Dispatcher.KeptAreDelivered | src/handler.rs:83-94 | The entries that `retain` keeps are exactly the entries that received the event, in the same order |
| Dispatcher.Fire | src/handler.rs:76-101 | `fire_event` visits exactly the pre-fire entries, in order. Each one gets `process` exactly when it is alive at its visit. The resulting world, and the ids appended after the kept and pending entries, are those of calling `process` exactly once per delivered entry, in list order, and on nothing else (the independent fold `Calls`). Afterwards no dispatch is running and nothing is pending |
| Dispatcher.PassMakesExactlyTheDeliveredCalls | src/handler.rs:83-94 | The pass calls `process` exactly once for each entry it delivers to, in list order, and never for a dead entry. Its world and subscriptions equal those of `Calls` over the delivered ids |
| Dispatcher.FireAppendsPending | src/handler.rs:96-100 | After the pass, the active list is the kept entries, then what was already pending, then the ids subscribed during the pass in call order. The pending buffer is drained |
| Dispatcher.FireEvent | src/handler.rs:76-101 | The loop form of `fire_event`, with subscriptions from `process` routed through `add_listener` on the borrowed handler. It computes the same visits, handler and world as `Fire` and meets the same guarantees |
| DispatchProperties.KeptIsSubsequence | src/handler.rs:81-94 | The kept entries are the pre-fire list with some entries removed and the relative order kept: the pass never reorders |
| DispatchProperties.StaticLivenessFilters | src/handler.rs:83-94 | When no `process` call changes liveness, the kept list is exactly the pre-fire list filtered to its live entries (an independent `Filter`), and liveness is unchanged |
| DispatchProperties.HeldListenerNotified | src/handler.rs:83-94 | Assume a listener is alive when `fire_event` returns and weak references cannot be revived. Then it received the event at every one of its entries |
| DispatchProperties.DroppedListenerNotNotified | src/handler.rs:84-92 | Assume a listener is already dead when `fire_event` starts and cannot be revived. Then none of its entries receives the event and none is kept |
| DispatchProperties.FireEmptyIsNoOp | src/handler.rs:76-101 | Firing a handler with an empty active list and nothing pending delivers nothing and leaves the handler and the world unchanged |
| DispatchProperties.StableOrder | src/handler.rs:83-100 | Assume every entry is alive, no call changes liveness and no call subscribes. Then every entry is notified in list order and the handler comes back unchanged, so the order is stable across fires |
| DispatchProperties.SubscribedNotifiedNextFire | src/handler.rs:37-42 | A listener subscribed during one `fire_event` gets a new entry at position `k` of the active list, after the kept and previously pending entries. That fire does not visit the new entry; an id already in the list is still visited through its old entry. The next `fire_event` visits the new entry and notifies it exactly when it is alive at that visit |
| DispatchProperties.Execute | src/handler.rs:50-101 | Across any sequence of `add_listener` and `fire_event` calls made from outside a dispatch, the handler stays at rest between calls (nothing pending), and each fire contributes one record of visits |
| Scenarios.TwoListenersInSubscriptionOrder | src/handler.rs:37-38 | Subscribe 1 then 2 and fire event 1: both receive it, 1 before 2, and the handler keeps both |
| Scenarios.DroppedBetweenFires | src/handler.rs:46-47 | Listener 1 receives the first event. It is dropped before the second fire, which does not notify it and removes it from the active list |
| Scenarios.SubscribeDuringFirstFire | src/handler.rs:40-42 | Listener 1 subscribes listener 2 while processing event 1. Event 1 reaches only listener 1, and afterwards the active list is `[1, 2]` |
| Scenarios.SubscribedListenerNotifiedNext | src/handler.rs:96-100 | The next event reaches listener 1 and then listener 2 |

## Left out

- The `unsafe impl Send`/`Sync` at `src/handler.rs:105-106`. It is a concurrency claim that rests on JavaScript's single-threaded event model; the model is sequential.
- `Rc`/`Weak`/`RefCell` mechanics and memory reclamation. Ids, a liveness set and a dispatching flag replace them. Revival of a dead weak reference is impossible in Rust; the lemmas that need that fact take it as the hypothesis `NoRevival`.
- The `borrow_mut` of a listener's own cell at `src/handler.rs:87`. It panics if that listener is already being processed, for instance through another handler. The model has no panics.
- A panic inside `process`. It would unwind through `retain` and stop delivery to the remaining listeners. A listener's `process` here is a total function with no failure channel.
- Re-entrant `fire_event` on the same handler from inside `process`. It panics in the source; here it is excluded by the precondition `!h.dispatching`.
- `process` calls that subscribe to or fire other handlers. Their effects are part of the opaque world state `S`; only subscriptions to this handler are modelled.
- `src/source.rs`: the event-source capability, `Closure::wrap`/`forget` and `addEventListener`. These are foreign calls whose only logic is "build the event with `f`, then call `fire_event`".
- `src/key_listener.rs`, `src/mouse_listener.rs`, `src/clipboard_listener.rs`: static handler instances and web_sys callback registration. The payloads are opaque platform event objects.
- `src/render_listener.rs` and `src/update_listener.rs`: the `requestAnimationFrame` self-rescheduling chain and the 10 ms `setInterval` timer. These are external scheduling primitives.
- `src/resize_listener.rs`: a JavaScript value to `f64` to `u32` conversion of the window size. This is floating point across a foreign boundary.
- `src/lib.rs`: the composition root. It wires a source into the multiplexers and has no logic of its own.
- DispatchProperties.Execute: across a run of operations it states only that the handler is at rest between calls and that the number of fire records is right. The per-listener delivery guarantees are stated per fire (`HeldListenerNotified`, `DroppedListenerNotNotified`) and for two consecutive fires (`SubscribedNotifiedNextFire`), not over a whole run.

## Dropped listeners and the pending buffer

The doc comment at `src/handler.rs:46-47` says that a listener that is no longer alive is removed from the list when `fire_event` is called. The model follows the code, which does this only for the entries the pass visits (`DroppedListenerNotNotified`). The pending buffer is appended without a liveness check (`src/handler.rs:99-100`). So a listener subscribed during a fire and dropped before that fire ends stays in the active list until the next fire removes it. The same holds for a dropped listener that is subscribed again during a fire.
