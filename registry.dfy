/** The alarm registry of src/async_.rs: the `Waker` (list of handles to notify,
    receiving end of the registration channel) and the `Sleeper` (a handle and a
    sender into that channel), built together by `alarm`.

    The registration channel's buffer and the handles' task cells are shared
    (through `Arc` and the `mpsc` pair) by the Waker and every Sleeper, so one
    heap object, `Waker`, holds all of it; a `Sleeper` refers to it as its
    sender. `Snapshot()` is that object's value in the pure model `WakeSpec`. */
module Registry {

  import opened WakeSpec

  class Waker {
    /** `Waker.sleepers`: the handles notified by every successful publish. */
    var sleepers: seq<Handle>
    /** The registration channel's buffer, oldest first. */
    var queue: seq<Handle>
    /** The handles whose task cell holds a task. */
    var armed: set<Handle>
    /** Number of handles allocated so far; handle identities are `0 .. minted-1`. */
    var minted: nat
    /** Every `notify` call, in order. */
    ghost var notified: seq<Handle>
    /** The `notify` calls that found a task and woke it, in order. */
    ghost var woken: seq<Handle>

    ghost function Snapshot(): State
      reads this
    {
      State(sleepers, queue, armed, notified, woken, minted)
    }

    ghost predicate Valid()
      reads this
    {
      Inv(Snapshot())
    }

    /** The Waker half of `alarm`: the list holds the one seeded handle and the
        registration channel is empty. */
    constructor ()
      ensures Valid()
      ensures Snapshot() == Initial()
    {
      sleepers, queue, armed, minted := [0], [], {}, 1;
      notified, woken := [], [];
      InitialInv();
    }

    /** `Arc::new(AtomicTask::new())`: a handle distinct from every handle
        allocated before, with an empty task cell. */
    method Mint() returns (h: Handle)
      requires Valid()
      modifies this
      ensures Valid()
      ensures h == old(minted) && minted == old(minted) + 1
      ensures !Registered(old(Snapshot()), h) && h !in armed
      ensures sleepers == old(sleepers) && queue == old(queue) && armed == old(armed) - {h}
      ensures notified == old(notified) && woken == old(woken)
      ensures Snapshot() == old(Snapshot()).(minted := h + 1, armed := old(armed) - {h})
    {
      h := minted;
      assert h !in sleepers + queue;
      minted := minted + 1;
      armed := armed - {h};
    }

    /** `sender.send(h)`: the handle joins the registration channel; when the
        channel is full the submission is dropped and nothing changes. */
    method Submit(h: Handle)
      modifies this
      ensures queue == if |old(queue)| < QueueCapacity then old(queue) + [h] else old(queue)
      ensures Snapshot() == WakeSpec.Submit(old(Snapshot()), h)
    {
      if |queue| < QueueCapacity {
        queue := queue + [h];
      }
    }

    /** `register_receivers`: receives every handle waiting in the channel,
        without blocking, and pushes each onto the end of the list. */
    method RegisterReceivers()
      requires Valid()
      modifies this
      ensures Valid()
      ensures sleepers == old(sleepers) + old(queue) && queue == []
      ensures Snapshot() == Drain(old(Snapshot()))
    {
      while queue != []
        invariant sleepers + queue == old(sleepers) + old(queue)
        invariant armed == old(armed) && minted == old(minted)
        invariant notified == old(notified) && woken == old(woken)
        decreases |queue|
      {
        var h := queue[0];
        assert queue == [h] + queue[1..];
        queue := queue[1..];
        sleepers := sleepers + [h];
      }
    }

    /** `AtomicTask::register` on `h`: the cell now holds the current task. */
    method Register(h: Handle)
      modifies this
      ensures armed == old(armed) + {h}
      ensures Snapshot() == Arm(old(Snapshot()), h)
    {
      armed := armed + {h};
    }

    /** `AtomicTask::notify` on `h`: takes the stored task, if any, and wakes it. */
    method Notify(h: Handle)
      modifies this
      ensures armed == old(armed) - {h}
      ensures woken == if h in old(armed) then old(woken) + [h] else old(woken)
      ensures Snapshot() == WakeSpec.Notify(old(Snapshot()), h)
    {
      if h in armed {
        woken := woken + [h];
      }
      armed := armed - {h};
      notified := notified + [h];
    }
  }

  /** `Sleeper`: the handle its owner registers, and the sender through which
      handles are submitted (here, the shared registry object). */
  datatype Sleeper = Sleeper(sleeper: Handle, sender: Waker)

  /** `alarm(AtomicTask::new())`: a registry whose list is exactly the new
      handle, with an empty channel of capacity `QueueCapacity`, and a Sleeper
      holding that same handle and a sender into that channel. */
  method Alarm() returns (waker: Waker, sleeper: Sleeper)
    ensures fresh(waker) && waker.Valid()
    ensures sleeper.sender == waker
    ensures waker.sleepers == [sleeper.sleeper] && waker.queue == []
    ensures sleeper.sleeper !in waker.armed
    ensures waker.Snapshot() == Initial()
  {
    waker := new Waker();
    sleeper := Sleeper(0, waker);
  }
}
