/** The value types of the futures runtime that the adapters return. */
module Futures {

  datatype Option<T> = None | Some(value: T)

  datatype Result<T, E> = Ok(value: T) | Err(error: E)

  /** `Async`: a poll either has its value or must be called again later. */
  datatype Async<T> = Ready(value: T) | NotReady

  /** `AsyncSink`: a sink either took the item or hands it back. */
  datatype AsyncSink<T> = Ready | NotReady(item: T)
}

/** The async adapters of src/async_.rs: `Publisher` (a sink) and `Subscriber`
    (a stream) over the bare broadcast channel, driving the alarm registry.

    The bare channel is not part of this model. What it answers is given to
    each operation as a parameter: whether a broadcast was delivered or
    rejected with an error, what a non-blocking receive found, and which
    identity the bare channel gives a new or cloned handle. */
module Adapters {

  import opened WakeSpec
  import opened Registry
  import opened Futures

  /** Identity of a bare publisher or subscriber handle, which is what the
      bare channel compares. */
  type BareId = nat

  /** The bare publisher's answer to `broadcast(item)`. */
  datatype Broadcast<E> = Delivered | Rejected(error: E)

  /** The bare subscriber's answer to `try_recv()`. */
  datatype TryRecv<T> = Item(value: T) | Empty | Disconnected

  /** `Publisher`: a bare publisher and the Waker half of the registry. `E` is
      the bare channel's send error. */
  class Publisher<E> {
    const bare: BareId
    const waker: Waker

    ghost predicate Valid()
      reads this, waker
    {
      waker.Valid()
    }

    constructor (bare: BareId, waker: Waker)
      ensures this.bare == bare && this.waker == waker
    {
      this.bare := bare;
      this.waker := waker;
    }

    /** `wake_all`: notifies every handle in the list, in list order; the list
        and the channel are untouched. */
    method WakeAll()
      requires Valid()
      modifies waker
      ensures Valid()
      ensures waker.sleepers == old(waker.sleepers) && waker.queue == old(waker.queue)
      ensures waker.notified == old(waker.notified) + waker.sleepers
      ensures forall h :: h in waker.sleepers ==> h !in waker.armed
      ensures forall h :: h in waker.sleepers && h in old(waker.armed) ==> h in waker.woken
      ensures waker.Snapshot() == WakeSpec.WakeAll(old(waker.Snapshot()))
    {
      ghost var s0 := waker.Snapshot();
      var n := |waker.sleepers|;
      for i := 0 to n
        invariant waker.sleepers == s0.sleepers
        invariant waker.Snapshot() == NotifyAll(s0, s0.sleepers[..i])
      {
        waker.Notify(waker.sleepers[i]);
        assert s0.sleepers[..i + 1] == s0.sleepers[..i] + [s0.sleepers[i]];
      }
      assert s0.sleepers[..n] == s0.sleepers;
      WakeAllNotifiesSleepers(s0);
      WakeAllPreservesInv(s0);
    }

    /** `start_send`: first receives every pending registration, then
        broadcasts. On delivery every handle in the updated list, the newly
        received ones included, is notified and the item is accepted; on
        rejection the error is returned and nobody is notified, but the
        received handles stay in the list. */
    method StartSend(broadcast: Broadcast<E>) returns (r: Result<AsyncSink<()>, E>)
      requires Valid()
      modifies waker
      ensures Valid()
      ensures waker.sleepers == old(waker.sleepers) + old(waker.queue) && waker.queue == []
      ensures broadcast.Delivered? ==>
        && r == Ok(AsyncSink.Ready)
        && waker.notified == old(waker.notified) + waker.sleepers
        && forall h :: h in waker.sleepers && h in old(waker.armed) ==> h in waker.woken
      ensures broadcast.Rejected? ==>
        && r == Err(broadcast.error)
        && waker.notified == old(waker.notified) && waker.woken == old(waker.woken)
        && waker.armed == old(waker.armed)
      ensures waker.Snapshot() == Apply(old(waker.Snapshot()), Publish(broadcast.Delivered?))
    {
      waker.RegisterReceivers();
      match broadcast
      case Delivered =>
        WakeAll();
        r := Ok(AsyncSink.Ready);
      case Rejected(e) =>
        r := Err(e);
    }

    /** `poll_complete`: nothing is buffered here, so flushing is always done. */
    function PollComplete(): (r: Result<Async<()>, E>)
      ensures r.Ok? && r.value.Ready?
    {
      Ok(Async.Ready(()))
    }

    /** `close`: the same as flushing, so it is always done and reads no state. */
    function Close(): (r: Result<Async<()>, E>)
      ensures r.Ok? && r.value.Ready?
      ensures r == PollComplete()
    {
      PollComplete()
    }

    /** `drop`: unwraps `close()`; the unwrap cannot fail. */
    method Drop() returns (closed: Async<()>)
      ensures closed.Ready?
    {
      var r := Close();
      closed := r.value;
    }

    /** `eq`: two publishers are equal exactly when they wrap the same bare
        publisher; the registry plays no part. */
    function Eq(other: Publisher<E>): (r: bool)
      ensures r <==> bare == other.bare
    {
      bare == other.bare
    }
  }

  /** `Subscriber`: a bare subscriber cursor and a Sleeper. */
  class Subscriber<T> {
    const bare: BareId
    const sleeper: Sleeper

    /** The registry is consistent and this subscriber's handle was allocated
        by it. */
    ghost predicate Valid()
      reads this, sleeper.sender
    {
      sleeper.sender.Valid() && sleeper.sleeper < sleeper.sender.minted
    }

    constructor (bare: BareId, sleeper: Sleeper)
      ensures this.bare == bare && this.sleeper == sleeper
    {
      this.bare := bare;
      this.sleeper := sleeper;
    }

    /** `poll`: an item read is returned; an empty read arms this subscriber's
        own handle, and only it, and reports not ready; a disconnected channel
        ends the stream, every time it is seen, and arms nothing. */
    method Poll(recv: TryRecv<T>) returns (r: Async<Option<T>>)
      requires Valid()
      modifies sleeper.sender
      ensures Valid()
      ensures recv.Item? ==> r == Async.Ready(Some(recv.value)) && unchanged(sleeper.sender)
      ensures recv.Empty? ==>
        && r == Async.NotReady
        && sleeper.sender.armed == old(sleeper.sender.armed) + {sleeper.sleeper}
        && sleeper.sender.Snapshot() == Apply(old(sleeper.sender.Snapshot()), PollEmpty(sleeper.sleeper))
      ensures recv.Disconnected? ==> r == Async.Ready(None) && unchanged(sleeper.sender)
    {
      match recv
      case Item(x) =>
        r := Async.Ready(Some(x));
      case Empty =>
        sleeper.sender.Register(sleeper.sleeper);
        r := Async.NotReady;
      case Disconnected =>
        r := Async.Ready(None);
    }

    /** `clone`: allocates a new handle, distinct from every handle allocated
        before (the parent's included), submits it through the shared channel,
        and gives it to the clone along with the bare channel's new cursor.
        The parent's handle and the registry's list are unchanged. */
    method Clone(cursor: BareId) returns (c: Subscriber<T>)
      requires Valid()
      modifies sleeper.sender
      ensures Valid() && fresh(c) && c.Valid()
      ensures c.bare == cursor && c.sleeper.sender == sleeper.sender
      ensures c.Eq(this) <==> cursor == bare
      ensures c.sleeper.sleeper == old(sleeper.sender.minted) && c.sleeper.sleeper != sleeper.sleeper
      ensures !Registered(old(sleeper.sender.Snapshot()), c.sleeper.sleeper)
      ensures sleeper.sender.sleepers == old(sleeper.sender.sleepers)
      ensures sleeper.sender.queue ==
        if |old(sleeper.sender.queue)| < QueueCapacity
        then old(sleeper.sender.queue) + [c.sleeper.sleeper]
        else old(sleeper.sender.queue)
      ensures sleeper.sender.Snapshot() == Apply(old(sleeper.sender.Snapshot()), CloneSubscriber)
    {
      var registry := sleeper.sender;
      ghost var s0 := registry.Snapshot();
      var h := registry.Mint();
      registry.Submit(h);
      ApplyPreservesInv(s0, CloneSubscriber);
      c := new Subscriber(cursor, Sleeper(h, registry));
    }

    /** `eq`: two subscribers are equal exactly when they wrap the same bare
        cursor; the handle and the registry play no part. */
    function Eq(other: Subscriber<T>): (r: bool)
      ensures r <==> bare == other.bare
    {
      bare == other.bare
    }
  }

  /** `impl Eq for Publisher`: the comparison is an equivalence relation. */
  lemma PublisherEqIsEquivalence<E>(p: Publisher<E>, q: Publisher<E>, o: Publisher<E>)
    ensures p.Eq(p)
    ensures p.Eq(q) ==> q.Eq(p)
    ensures p.Eq(q) && q.Eq(o) ==> p.Eq(o)
  {
  }

  /** Publishers over the same bare publisher compare equal even when they
      drive different registries, whatever those registries hold. */
  lemma PublisherEqIgnoresWaker<E>(p: Publisher<E>, q: Publisher<E>)
    requires p.bare == q.bare && p.waker != q.waker
    ensures p.Eq(q) && q.Eq(p)
  {
  }

  /** `impl Eq for Subscriber`: the comparison is an equivalence relation. */
  lemma SubscriberEqIsEquivalence<T>(p: Subscriber<T>, q: Subscriber<T>, o: Subscriber<T>)
    ensures p.Eq(p)
    ensures p.Eq(q) ==> q.Eq(p)
    ensures p.Eq(q) && q.Eq(o) ==> p.Eq(o)
  {
  }

  /** Subscribers over the same bare cursor compare equal even when their
      Sleepers differ, in handle or in registry. */
  lemma SubscriberEqIgnoresSleeper<T>(p: Subscriber<T>, q: Subscriber<T>)
    requires p.bare == q.bare && p.sleeper != q.sleeper
    ensures p.Eq(q) && q.Eq(p)
  {
  }

  /** `channel`: the bare channel's publisher and subscriber, joined by a new
      registry whose list holds the subscriber's handle. */
  method Channel<E, T>(barePublisher: BareId, bareSubscriber: BareId)
    returns (p: Publisher<E>, s: Subscriber<T>)
    ensures fresh(p) && fresh(s) && fresh(p.waker)
    ensures p.Valid() && s.Valid()
    ensures p.bare == barePublisher && s.bare == bareSubscriber
    ensures s.sleeper.sender == p.waker
    ensures p.waker.sleepers == [s.sleeper.sleeper] && p.waker.queue == []
    ensures s.sleeper.sleeper !in p.waker.armed
  {
    var waker, sleeper := Alarm();
    p := new Publisher(barePublisher, waker);
    s := new Subscriber(bareSubscriber, sleeper);
  }
}

/** A client of the adapters: a subscriber and its clone both find the channel
    empty and suspend; the next successful publish wakes both of them, the
    clone's handle having been received from the registration channel by that
    very publish. */
module Scenario {

  import opened Adapters

  method TwoSubscribersBothWoken()
  {
    var p, s1 := Channel<(), int>(0, 1);
    var w, h1 := p.waker, s1.sleeper.sleeper;
    var s2 := s1.Clone(2);
    var h2 := s2.sleeper.sleeper;
    assert w.sleepers == [h1] && w.queue == [h2];
    var r1 := s1.Poll(Empty);
    var r2 := s2.Poll(Empty);
    assert w.sleepers == [h1] && w.queue == [h2] && h1 in w.armed && h2 in w.armed;
    var sent := p.StartSend(Delivered);
    assert w.sleepers == [h1, h2];
    assert h1 in w.woken && h2 in w.woken;
  }
}
