/** The in-memory fan-out of lifecycle events to subscribers (internal/events/bus.go). */
module EventBus {
  import opened Wrappers
  import Text

  const BUFFER_SIZE := 64

  // ---- the bus as one goroutine sees it ----

  /** A subscriber's channel; a send on a closed one, or a second close, would panic. */
  datatype Channel<E> = Channel(buffer: seq<E>, closed: bool)

  datatype Event<P> = Event(id: string, payload: P)

  /** A non-blocking send. */
  function Offered<E>(ch: Channel<E>, e: E): Channel<E> {
    if |ch.buffer| < BUFFER_SIZE then ch.(buffer := ch.buffer + [e]) else ch
  }

  class Bus<P(!new)> {
    var subscribers: set<nat>
    var channels: seq<Channel<Event<P>>>
    var eventSeq: nat

    ghost predicate Valid()
      reads this
    {
      && (forall id :: id in subscribers ==> id < |channels| && !channels[id].closed)
      && (forall id :: 0 <= id < |channels| && id !in subscribers ==> channels[id].closed)
      && (forall id :: 0 <= id < |channels| ==> |channels[id].buffer| <= BUFFER_SIZE)
    }

    constructor ()
      ensures Valid() && subscribers == {} && channels == [] && eventSeq == 0
    {
      subscribers, channels, eventSeq := {}, [], 0;
    }

    method Subscribe() returns (id: nat)
      requires Valid()
      modifies this
      ensures Valid() && eventSeq == old(eventSeq)
      ensures id == old(|channels|) && channels == old(channels) + [Channel([], false)] && subscribers == old(subscribers) + {id}
    {
      id := |channels|;
      channels := channels + [Channel([], false)];
      subscribers := subscribers + {id};
    }

    /** The guarded unsubscribe function of subscriber id; only its first call closes the channel. */
    method Unsubscribe(id: nat)
      requires Valid() && id < |channels|
      modifies this
      ensures Valid() && eventSeq == old(eventSeq)
      ensures subscribers == old(subscribers) - {id}
      ensures channels == old(channels)[id := old(channels)[id].(closed := true)]
    {
      if !channels[id].closed {
        subscribers := subscribers - {id};
        channels := channels[id := channels[id].(closed := true)];
      }
    }

    method Publish(payload: P)
      requires Valid()
      modifies this
      ensures Valid() && eventSeq == old(eventSeq) + 1 && subscribers == old(subscribers) && |channels| == old(|channels|)
      ensures forall id :: 0 <= id < |channels| ==>
                channels[id] == if id in subscribers then Offered(old(channels)[id], Event(Text.Decimal(eventSeq), payload)) else old(channels)[id]
      ensures forall id :: 0 <= id < |channels| ==>
                && channels[id].closed == old(channels)[id].closed
                && channels[id].buffer == old(channels)[id].buffer +
                     (if id in subscribers && |old(channels)[id].buffer| < 64 then [Event(Text.Decimal(eventSeq), payload)] else [])
    {
      eventSeq := eventSeq + 1;
      var event := Event(Text.Decimal(eventSeq), payload);
      var rest := subscribers;
      while rest != {}
        invariant rest <= subscribers && subscribers == old(subscribers) && eventSeq == old(eventSeq) + 1
        invariant Valid() && |channels| == old(|channels|)
        invariant forall id :: 0 <= id < |channels| ==>
                    channels[id] == if id in subscribers && id !in rest then Offered(old(channels)[id], event) else old(channels)[id]
        decreases |rest|
      {
        var id :| id in rest;
        channels := channels[id := Offered(channels[id], event)];
        rest := rest - {id};
      }
    }
  }

  // ---- all interleavings of publishers, unsubscribe calls and cancellations ----

  /** A publisher: numbered; holding the read lock with subscribers left to offer to; done. */
  datatype Phase = Numbered | Offering(rest: set<nat>) | Done

  /** number: its event's number. at: its place among the publishers in the order they took the read lock. */
  datatype Publisher = Publisher(number: nat, at: nat, phase: Phase)

  /** The subscriber's sync.Once: not called, waiting for the write lock, deregistered, closed. */
  datatype Unsub = Fresh | Locking | Removed | Closed

  /** got: the publishers whose events entered the channel, in order; the reader has taken the first `taken`.
      from, to: the publishers that took the read lock while it was registered have places from..to. */
  datatype Subscriber = Subscriber(unsub: Unsub, got: seq<nat>, taken: nat, dropped: set<nat>, from: nat, to: nat, closes: nat)

  datatype World = World(subs: seq<Subscriber>, registered: set<nat>, pubs: seq<Publisher>, locks: nat, sentOnClosed: bool)

  datatype Step =
    | StartPublish
    | ReadLock(p: nat)
    | Offer(p: nat, s: nat)
    | ReadUnlock(p: nat)
    | Subscribe
    | CallUnsub(s: nat)
    | Deregister(s: nat)
    | Close(s: nat)
    | Receive(s: nat)

  predicate NoReader(w: World) { forall p :: 0 <= p < |w.pubs| ==> !w.pubs[p].phase.Offering? }

  predicate Enabled(w: World, step: Step) {
    match step
    case StartPublish => true
    case ReadLock(p) => p < |w.pubs| && w.pubs[p].phase == Numbered
    case Offer(p, s) => p < |w.pubs| && w.pubs[p].phase.Offering? && s in w.pubs[p].phase.rest && s < |w.subs|
    case ReadUnlock(p) => p < |w.pubs| && w.pubs[p].phase == Offering({})
    case Subscribe => NoReader(w)
    case CallUnsub(s) => s < |w.subs| && w.subs[s].unsub == Fresh
    case Deregister(s) => s < |w.subs| && w.subs[s].unsub == Locking && NoReader(w)
    case Close(s) => s < |w.subs| && w.subs[s].unsub == Removed
    case Receive(s) => s < |w.subs| && w.subs[s].taken < |w.subs[s].got|
  }

  /** The channel after a non-blocking send of publisher p's event. */
  function AfterOffer(sub: Subscriber, p: nat): Subscriber {
    if |sub.got| - sub.taken < BUFFER_SIZE then sub.(got := sub.got + [p]) else sub.(dropped := sub.dropped + {p})
  }

  function Apply(w: World, step: Step): World {
    if !Enabled(w, step) then w else
    match step
    case StartPublish => w.(pubs := w.pubs + [Publisher(|w.pubs| + 1, 0, Numbered)])
    case ReadLock(p) =>
      w.(pubs := w.pubs[p := w.pubs[p].(at := w.locks, phase := Offering(w.registered))], locks := w.locks + 1)
    case Offer(p, s) =>
      w.(pubs := w.pubs[p := w.pubs[p].(phase := Offering(w.pubs[p].phase.rest - {s}))],
         subs := w.subs[s := AfterOffer(w.subs[s], p)],
         sentOnClosed := w.sentOnClosed || w.subs[s].closes > 0)
    case ReadUnlock(p) => w.(pubs := w.pubs[p := w.pubs[p].(phase := Done)])
    case Subscribe =>
      w.(subs := w.subs + [Subscriber(Fresh, [], 0, {}, w.locks, 0, 0)], registered := w.registered + {|w.subs|})
    case CallUnsub(s) => w.(subs := w.subs[s := w.subs[s].(unsub := Locking)])
    case Deregister(s) =>
      w.(subs := w.subs[s := w.subs[s].(unsub := Removed, to := w.locks)], registered := w.registered - {s})
    case Close(s) => w.(subs := w.subs[s := w.subs[s].(unsub := Closed, closes := w.subs[s].closes + 1)])
    case Receive(s) => w.(subs := w.subs[s := w.subs[s].(taken := w.subs[s].taken + 1)])
  }

  function Run(steps: seq<Step>): World {
    if steps == [] then World([], {}, [], 0, false) else Apply(Run(steps[..|steps| - 1]), steps[|steps| - 1])
  }

  /** Publisher p took the read lock while the subscriber was registered. */
  predicate InWindow(sub: Subscriber, pub: Publisher) {
    pub.phase != Numbered && sub.from <= pub.at && (sub.unsub == Fresh || sub.unsub == Locking || pub.at < sub.to)
  }

  predicate Pending(pub: Publisher, s: nat) { pub.phase.Offering? && s in pub.phase.rest }

  /** Publisher p and subscriber s: the event is offered at most once, exactly when it was published in the
      subscriber's window and its turn has come. */
  predicate PairOk(pub: Publisher, p: nat, sub: Subscriber, s: nat) {
    && (p in sub.got || p in sub.dropped <==> InWindow(sub, pub) && !Pending(pub, s))
    && !(p in sub.got && p in sub.dropped)
    && (Pending(pub, s) ==> InWindow(sub, pub))
  }

  predicate NoRepeats(xs: seq<nat>) { forall i, j :: 0 <= i < j < |xs| ==> xs[i] != xs[j] }

  ghost predicate SubOk(w: World, sub: Subscriber, s: nat) {
    && (s in w.registered <==> sub.unsub == Fresh || sub.unsub == Locking)
    && sub.closes == (if sub.unsub == Closed then 1 else 0)
    && sub.taken <= |sub.got| <= sub.taken + BUFFER_SIZE
    && sub.from <= w.locks && sub.to <= w.locks
    && NoRepeats(sub.got)
    && (forall p :: p in sub.got || p in sub.dropped ==> p < |w.pubs|)
  }

  ghost predicate PubOk(w: World, pub: Publisher, p: nat) {
    && pub.number == p + 1
    && (pub.phase != Numbered ==> pub.at < w.locks)
    && (pub.phase.Offering? ==> pub.phase.rest <= w.registered)
  }

  ghost predicate Inv(w: World) {
    && !w.sentOnClosed
    && (forall s :: s in w.registered ==> s < |w.subs|)
    && (forall s :: 0 <= s < |w.subs| ==> SubOk(w, w.subs[s], s))
    && (forall p :: 0 <= p < |w.pubs| ==> PubOk(w, w.pubs[p], p))
    && (forall p, s :: 0 <= p < |w.pubs| && 0 <= s < |w.subs| ==> PairOk(w.pubs[p], p, w.subs[s], s))
  }

  lemma PublisherKeeps(w: World, step: Step)
    requires Inv(w) && Enabled(w, step) && (step.StartPublish? || step.ReadLock? || step.ReadUnlock?)
    ensures Inv(Apply(w, step))
  {
    var v := Apply(w, step);
    forall s | 0 <= s < |v.subs| ensures SubOk(v, v.subs[s], s) {
      assert SubOk(w, w.subs[s], s);
    }
    forall p, s | 0 <= p < |v.pubs| && 0 <= s < |v.subs| ensures PairOk(v.pubs[p], p, v.subs[s], s) {
      assert SubOk(w, w.subs[s], s);
      if p < |w.pubs| {
        assert PairOk(w.pubs[p], p, w.subs[s], s) && PubOk(w, w.pubs[p], p);
      }
    }
  }

  lemma OfferKeeps(w: World, p: nat, s: nat)
    requires Inv(w) && Enabled(w, Offer(p, s))
    ensures Inv(Apply(w, Offer(p, s)))
  {
    var v := Apply(w, Offer(p, s));
    assert SubOk(w, w.subs[s], s) && PubOk(w, w.pubs[p], p) && PairOk(w.pubs[p], p, w.subs[s], s);
    forall t | 0 <= t < |v.subs| ensures SubOk(v, v.subs[t], t) {
      assert SubOk(w, w.subs[t], t);
    }
    forall q | 0 <= q < |v.pubs| ensures PubOk(v, v.pubs[q], q) {
      assert PubOk(w, w.pubs[q], q);
    }
    forall q, t | 0 <= q < |v.pubs| && 0 <= t < |v.subs| ensures PairOk(v.pubs[q], q, v.subs[t], t) {
      assert PairOk(w.pubs[q], q, w.subs[t], t);
    }
  }

  lemma SubscriberKeeps(w: World, step: Step)
    requires Inv(w) && Enabled(w, step) && (step.Subscribe? || step.CallUnsub? || step.Deregister? || step.Close? || step.Receive?)
    ensures Inv(Apply(w, step))
  {
    var v := Apply(w, step);
    forall s | 0 <= s < |v.subs| ensures SubOk(v, v.subs[s], s) {
      if s < |w.subs| {
        assert SubOk(w, w.subs[s], s);
      }
    }
    forall p | 0 <= p < |v.pubs| ensures PubOk(v, v.pubs[p], p) {
      assert PubOk(w, w.pubs[p], p);
    }
    forall p, s | 0 <= p < |v.pubs| && 0 <= s < |v.subs| ensures PairOk(v.pubs[p], p, v.subs[s], s) {
      assert PubOk(w, w.pubs[p], p);
      if s < |w.subs| {
        assert PairOk(w.pubs[p], p, w.subs[s], s);
      }
    }
  }

  lemma StepKeepsInv(w: World, step: Step)
    requires Inv(w)
    ensures Inv(Apply(w, step))
  {
    if Enabled(w, step) {
      if step.StartPublish? || step.ReadLock? || step.ReadUnlock? {
        PublisherKeeps(w, step);
      } else if step.Offer? {
        OfferKeeps(w, step.p, step.s);
      } else {
        SubscriberKeeps(w, step);
      }
    }
  }

  lemma {:induction false} EveryRunIsSafe(steps: seq<Step>)
    ensures Inv(Run(steps))
  {
    if steps != [] {
      EveryRunIsSafe(steps[..|steps| - 1]);
      StepKeepsInv(Run(steps[..|steps| - 1]), steps[|steps| - 1]);
    }
  }

  /** No send ever hits a closed channel, no channel is closed twice, no buffer holds more than 64 events. */
  lemma ChannelsAreSafe(steps: seq<Step>, s: nat)
    requires s < |Run(steps).subs|
    ensures !Run(steps).sentOnClosed
    ensures var sub := Run(steps).subs[s]; sub.closes <= 1 && sub.taken <= |sub.got| <= sub.taken + 64
  {
    EveryRunIsSafe(steps);
    assert SubOk(Run(steps), Run(steps).subs[s], s);
  }

  /** Everything that reached a subscriber was published while it was registered, each event at most once. */
  lemma ReceivedWhileRegistered(steps: seq<Step>, s: nat)
    requires s < |Run(steps).subs|
    ensures var w := Run(steps);
            && NoRepeats(w.subs[s].got)
            && forall p :: p in w.subs[s].got ==> p < |w.pubs| && InWindow(w.subs[s], w.pubs[p])
  {
    EveryRunIsSafe(steps);
    var w := Run(steps);
    assert SubOk(w, w.subs[s], s);
    forall p | p in w.subs[s].got ensures p < |w.pubs| && InWindow(w.subs[s], w.pubs[p]) {
      assert PairOk(w.pubs[p], p, w.subs[s], s);
    }
  }

  /** Nothing is lost silently: an event published in the window is still on its way, in the channel's history,
      or was dropped at a full buffer, and only one of these. */
  lemma EventsAreAccountedFor(steps: seq<Step>, p: nat, s: nat)
    requires p < |Run(steps).pubs| && s < |Run(steps).subs|
    ensures var w := Run(steps); var sub, pub := w.subs[s], w.pubs[p];
            InWindow(sub, pub) <==> Pending(pub, s) || p in sub.got || p in sub.dropped
    ensures var w := Run(steps); var sub, pub := w.subs[s], w.pubs[p];
            !(p in sub.got && p in sub.dropped) && !(Pending(pub, s) && (p in sub.got || p in sub.dropped))
  {
    EveryRunIsSafe(steps);
    var w := Run(steps);
    assert PairOk(w.pubs[p], p, w.subs[s], s);
  }

  /** Event ids are distinct, and grow with the order in which events were numbered. */
  lemma EventIdsAreDistinct(steps: seq<Step>, p: nat, q: nat)
    requires p < q < |Run(steps).pubs|
    ensures Run(steps).pubs[p].number < Run(steps).pubs[q].number
    ensures Text.Decimal(Run(steps).pubs[p].number) != Text.Decimal(Run(steps).pubs[q].number)
  {
    EveryRunIsSafe(steps);
    var w := Run(steps);
    assert PubOk(w, w.pubs[p], p) && PubOk(w, w.pubs[q], q);
    if Text.Decimal(w.pubs[p].number) == Text.Decimal(w.pubs[q].number) {
      Text.DecimalInjective(w.pubs[p].number, w.pubs[q].number);
    }
  }

  /** An offer puts the event in the channel exactly if fewer than 64 are waiting there, and drops it otherwise; either
      way it is not offered to that subscriber again. */
  lemma OfferDeliversIff(w: World, p: nat, s: nat)
    requires Enabled(w, Offer(p, s))
    ensures var v := Apply(w, Offer(p, s));
            && v.subs[s].got == w.subs[s].got + (if |w.subs[s].got| - w.subs[s].taken < 64 then [p] else [])
            && v.subs[s].dropped == w.subs[s].dropped + (if |w.subs[s].got| - w.subs[s].taken < 64 then {} else {p})
            && v.pubs[p].phase == Offering(w.pubs[p].phase.rest - {s})
  {
  }

  /** A publisher that takes the read lock has every registered subscriber to offer to. */
  lemma LockOffersToAll(w: World, p: nat)
    requires Enabled(w, ReadLock(p))
    ensures Apply(w, ReadLock(p)).pubs[p].phase == Offering(w.registered) && Apply(w, ReadLock(p)).pubs[p].at == w.locks
  {
  }

  /** The life of a subscription: registered and empty from the start; the first unsubscribe or cancellation deregisters
      it once no publisher holds the lock, and only then closes its channel. */
  lemma SubscriptionEnds(w: World, s: nat)
    ensures Enabled(w, Subscribe) ==>
              var v := Apply(w, Subscribe); |w.subs| in v.registered && v.subs[|w.subs|] == Subscriber(Fresh, [], 0, {}, w.locks, 0, 0)
    ensures Enabled(w, CallUnsub(s)) ==> Apply(w, CallUnsub(s)).subs[s].unsub == Locking
    ensures Enabled(w, Deregister(s)) ==>
              var v := Apply(w, Deregister(s)); v.registered == w.registered - {s} && v.subs[s].unsub == Removed && v.subs[s].closes == w.subs[s].closes
    ensures Enabled(w, Close(s)) ==> var v := Apply(w, Close(s)); v.subs[s].unsub == Closed && v.subs[s].closes == w.subs[s].closes + 1
    ensures Enabled(w, Receive(s)) ==> Apply(w, Receive(s)).subs[s].taken == w.subs[s].taken + 1
  {
  }
}
