# Wake coordination for the async broadcast channel (bus-queue, `src/async_.rs`)

This project models the wake-coordination layer of bus-queue's async
broadcast channel and proves properties of it in Dafny.

- The alarm registry: a `Waker` holds the list of wake handles (`sleepers`) and
  the receiving end of a registration channel of capacity 10. A `Sleeper` holds
  one handle and a sender into that channel. `alarm` builds the pair.
- The `Publisher` sink adapter. `start_send` receives every pending
  registration, broadcasts, and on success notifies every handle in the list.
  `poll_complete` and `close` are always ready. `drop` closes. Equality compares
  only the bare publisher.
- The `Subscriber` stream adapter. `poll` maps the bare channel's non-blocking
  receive to an item, to arming its own handle and suspending, or to
  end-of-stream. `clone` mints a fresh handle and submits it through the
  registration channel. Equality compares only the bare cursor.
- `channel`, which joins a bare channel to a new registry.

Layout:

- `wake_spec.dfy`, module `WakeSpec`: the pure model. The whole shared state is
  one value, `State`: list, queue, armed handles, a log of notify calls, a log
  of wakeups and the handle counter. It has one function per step (`Drain`,
  `Notify`, `NotifyAll`, `WakeAll`, `Send`, `Arm`, `Submit`, `Clone`), plus
  traces of steps (`Op`, `Apply`, `Run`). The lemmas about it include the
  no-missed-wakeup property over arbitrary traces.
- `registry.dfy`, module `Registry`: the `Waker` class and the `Sleeper` value.
  `Waker`'s fields are updated in place by its methods. `RegisterReceivers`
  does so in a loop over the queue. `Snapshot()` gives the fields' value in
  `WakeSpec`.
- `async_channel.dfy`, modules `Futures` (the runtime's value types), `Adapters`
  (`Publisher`, `Subscriber`, `Channel`) and `Scenario` (a client: a subscriber
  and its clone both suspend, and one publish wakes both).

The three operations a client of the channel calls are `Publisher.StartSend`,
`Subscriber.Poll` and `Subscriber.Clone`. Each ensures that the registry's new
`Snapshot()` is `WakeSpec.Apply(old(Snapshot()), op)` for its step `op` (for
`Poll`, on an empty read; its other reads change nothing). A sequence of these
calls is therefore a `WakeSpec.Run`, and the trace lemmas apply to it. The
lower-level methods they are built from are tied to the matching `WakeSpec`
functions instead: `Publisher.WakeAll` to `WakeAll`, its loop over
`Waker.Notify` to `Notify`, `Waker.RegisterReceivers` to `Drain`,
`Waker.Submit` to `Submit`, and `Waker.Register` to `Arm`.

Modelling choices:

- A wake handle (`Arc<AtomicTask>`) is an opaque identity, a `nat`. Allocating
  one (`Arc::new`) takes the next value of a counter.
- The buffer of the registration channel and the task cells behind the handles
  are shared by the `Waker` and every `Sleeper`. One heap object, the `Waker`,
  holds them all, and a `Sleeper`'s sender is a reference to it.
- `AtomicTask::register` stores the task in the cell ("armed").
  `AtomicTask::notify` takes the stored task, if there is one, and wakes it. So
  a notify disarms its handle, and notifying an empty cell wakes nobody.
- The bare broadcast channel is given as parameters. A broadcast is
  `Delivered` or `Rejected(error)`. A try-receive is `Item(x)`, `Empty` or
  `Disconnected`. A new or cloned bare handle is given as an identity.

Behaviours of the code a reader may not expect:

- On an empty read, `poll` only registers the subscriber's own handle
  (src/async_.rs:88-91). It does not submit the handle to the registration
  channel again. A handle is submitted once, when its subscriber is cloned.
- `clone` discards the result of `sender.send` (src/async_.rs:101). When the
  registration channel is full, the registration is dropped silently, with no
  back-pressure and no error. `WakeSpec.CloneIntoFullQueueNeverWoken` proves
  that no later publish ever wakes such a clone.
- The close on drop cannot fail: `close` always returns ready.

The source does not compile as written. The model follows its evident intent:

- `register_receivers` drains the channel without blocking.
- `sender.send(h)` enqueues `h` at once, or drops it when the channel is full.

## Model

| member | source | states |
|---|---|---|
| `WakeSpec.InitialInv` | src/async_.rs:149-163 | the initial registry satisfies the invariant; its list is exactly the seeded handle, its queue is empty, and no cell is armed |
| `WakeSpec.DrainAppendsQueue` | src/async_.rs:141-145 | receiving registrations keeps the list's prefix, appends the queued handles in arrival order, empties the queue, changes nothing else, and is idempotent |
| `WakeSpec.NotifyAllLog` | src/async_.rs:34-38 | notifying a sequence of handles logs exactly those handles, in order, and leaves list, queue and counter alone |
| `WakeSpec.NotifyAllArmed` | src/async_.rs:34-38 | notifying a sequence of handles disarms exactly those handles |
| `WakeSpec.NotifyAllWoken` | src/async_.rs:34-38 | notifying a sequence of handles only extends the wakeup log, with exactly those of them that were armed, and with nobody when none was armed |
| `WakeSpec.WakeAllNotifiesSleepers` | src/async_.rs:34-38 | `wake_all` notifies every handle in the list, leaves all of them disarmed, wakes each one that was armed, and changes neither the list nor the queue |
| `WakeSpec.WakeAllTwiceWakesNobody` | src/async_.rs:34-38 | a second `wake_all` with no arming in between wakes nobody and disarms nothing more (notifying an idle handle is harmless) |
| `WakeSpec.WakeAllPreservesInv` | src/async_.rs:34-38 | `wake_all` keeps the registry invariant |
| `WakeSpec.PublishDeliveredWakesRegistered` | src/async_.rs:51-57 | a successful `start_send` drains the queue into the list, then notifies every handle of the updated list, queued ones included; every registered handle ends disarmed, and every registered armed handle is woken |
| `WakeSpec.PublishRejectedWakesNobody` | src/async_.rs:51-57 | a failed `start_send` still moves the queued handles into the list, but notifies and wakes no one and disarms nothing |
| `WakeSpec.CloneSubmitsFreshHandle` | src/async_.rs:98-109 | the handle a clone mints is unknown to the registry and never woken before; the list and other cells are unchanged; the queue gains the handle unless it is full |
| `WakeSpec.ApplyPreservesInv` | src/async_.rs:51-109 | every step (publish, empty poll, clone) keeps the queue within capacity, keeps each handle registered at most once, and mentions only allocated handles |
| `WakeSpec.RunPreservesInv` | src/async_.rs:51-109 | every trace of steps from a valid state keeps the invariant |
| `WakeSpec.RunKeepsRegistered` | src/async_.rs:122-145 | across any trace the list only grows at its end, and a registered handle stays registered (nothing is ever removed) |
| `WakeSpec.RunExtendsWoken` | src/async_.rs:34-57 | across any trace the log of wakeups only grows |
| `WakeSpec.NoMissedWakeup` | src/async_.rs:51-57 | from a state satisfying the invariant, a registered, armed handle is woken during any trace that contains a successful publish, whatever polls, clones and failed publishes come before it |
| `WakeSpec.RunWithoutPublishWakesNobody` | src/async_.rs:51-57 | a trace without a successful publish wakes nobody |
| `WakeSpec.WokenByFirstPublish` | src/async_.rs:51-57 | if step `k` is the first successful publish, nobody is woken before it, and that publish wakes every handle that was registered and armed at the start |
| `WakeSpec.UnregisteredNeverWoken` | src/async_.rs:34-57 | a handle the registry does not know is never woken by any later trace |
| `WakeSpec.CloneIntoFullQueueNeverWoken` | src/async_.rs:98-101 | a clone made while the registration queue is full is not registered, and no later publish ever wakes it |
| `Registry.Waker.constructor` | src/async_.rs:149-158 | the Waker half of `alarm`: the list holds the one seeded handle, the channel is empty, and the invariant holds |
| `Registry.Waker.Mint` | src/async_.rs:100 | `Arc::new(AtomicTask::new())` yields a handle unknown to the registry, with an empty cell; the only other change to the registry is the allocation count |
| `Registry.Waker.Submit` | src/async_.rs:101 | `sender.send` appends the handle to the channel when it has room and otherwise changes nothing |
| `Registry.Waker.RegisterReceivers` | src/async_.rs:141-145 | the loop moves every queued handle, in order, to the end of the list, empties the channel and keeps the invariant |
| `Registry.Waker.Register` | src/async_.rs:89 | `register` arms exactly the given handle |
| `Registry.Waker.Notify` | src/async_.rs:36 | `notify` disarms the handle and records a wakeup exactly when the handle was armed |
| `Registry.Alarm` | src/async_.rs:149-163 | `alarm` returns a fresh registry whose list is exactly `[h]` and whose channel is empty, and a Sleeper holding that same `h` and a sender into that registry |
| `Adapters.Publisher.constructor` | src/async_.rs:22-26 | a Publisher holds the given bare publisher and Waker |
| `Adapters.Publisher.WakeAll` | src/async_.rs:34-38 | the loop notifies every handle in the list, leaves them all disarmed and wakes each armed one; list and queue are unchanged |
| `Adapters.Publisher.StartSend` | src/async_.rs:51-57 | drains the channel before broadcasting; on delivery returns `Ok(Ready)` and notifies every handle of the updated list; on rejection returns the bare channel's error verbatim and notifies no one, the drained handles staying in the list |
| `Adapters.Publisher.PollComplete` | src/async_.rs:58-60 | flushing is always `Ok(Ready)` and reads no state, so any number of calls agree |
| `Adapters.Publisher.Close` | src/async_.rs:61-63 | closing is the same as flushing: always `Ok(Ready)` and stateless |
| `Adapters.Publisher.Drop` | src/async_.rs:66-70 | the `unwrap` of `close()` never fails, so dropping always succeeds |
| `Adapters.Publisher.Eq` | src/async_.rs:72-76 | publishers are equal exactly when they wrap the same bare publisher; the comparison reads no registry state (see `PublisherEqIsEquivalence`, `PublisherEqIgnoresWaker`) |
| `Adapters.PublisherEqIsEquivalence` | src/async_.rs:72-78 | publisher equality is reflexive, symmetric and transitive, as `impl Eq` promises |
| `Adapters.PublisherEqIgnoresWaker` | src/async_.rs:72-76 | two publishers over the same bare publisher compare equal even when they drive different registries, whatever those hold |
| `Adapters.Subscriber.constructor` | src/async_.rs:27-30 | a Subscriber holds the given bare cursor and Sleeper |
| `Adapters.Subscriber.Poll` | src/async_.rs:84-95 | an item is returned as `Ready(Some(x))` with no state change; an empty read arms only this subscriber's handle and returns `NotReady`; a disconnect returns `Ready(None)` and changes nothing, so it repeats forever |
| `Adapters.Subscriber.Clone` | src/async_.rs:98-109 | the clone gets a new handle, distinct from every handle allocated before including the parent's; the handle is queued on the shared channel unless it is full; the list and the parent are unchanged; the clone equals its parent exactly when the bare channel gives it the same cursor |
| `Adapters.Subscriber.Eq` | src/async_.rs:112-116 | subscribers are equal exactly when they wrap the same bare cursor; the comparison reads no wake state (see `SubscriberEqIsEquivalence`, `SubscriberEqIgnoresSleeper`) |
| `Adapters.SubscriberEqIsEquivalence` | src/async_.rs:112-118 | subscriber equality is reflexive, symmetric and transitive, as `impl Eq` promises |
| `Adapters.SubscriberEqIgnoresSleeper` | src/async_.rs:112-116 | two subscribers over the same bare cursor compare equal even when their Sleepers differ |
| `Adapters.Channel` | src/async_.rs:18-32 | builds a Publisher and a Subscriber around a new registry whose list is exactly the subscriber's handle, with an empty channel and an idle cell |

## Left out

- The bare broadcast channel (`bare_channel`, `broadcast`, `try_recv`, cursor cloning) is defined in a file that is not part of this model. Its answers are parameters of the operations.
- `get_sub_count` (src/async_.rs:41-45) only delegates to the bare publisher, so it is not modelled.
- `channel`'s `size` only goes to the bare channel, so `Adapters.Channel` takes the bare handles instead.
- The futures runtime is not modelled: `task::current()`, the internals of `AtomicTask`, and `Arc` reference counting. A task cell is a flag per handle, and the wakeups are a ghost log.
- The stale handles of dropped subscribers stay in the list forever, as in the source. Dropping a subscriber is not modelled.
- Concurrency is not modelled: thread and task interleavings and memory ordering. Each call is one atomic step.
- The thread-parking variant of the registry (a `Waker` over threads) lives in a file that is not part of this model. The registry is modelled over `AtomicTask` handles only.
- The mpsc channel of the futures crate gives each sender one extra guaranteed slot. The model uses a fixed capacity of 10.
- Items are plain values `T`. The sharing through `Arc<T>` is not modelled.
- `Adapters.Subscriber.Poll` returns `Async<Option<T>>`. The source wraps that in a `Result` whose error type `()` is never produced.
- The source does not compile as written. These parts are left out: the `Debug` derives, the `task` field set at src/async_.rs:24 that the struct does not declare, and the `impl Future` return type of `register_receivers` (src/async_.rs:141).
- WakeSpec.NoMissedWakeup: proves that the subscriber's handle is woken. Whether the subscriber's next poll then reads the item depends on the bare channel and the scheduler, which are not modelled.
