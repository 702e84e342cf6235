/** PriceThrottler.java: the facade that wires the priority ledger, the subscriber
    registry and the publisher together. The publisher's scheduled ticks are not
    started here: a tick is the publisher's `Tick` method, called explicitly. */
module Throttler {
  import opened Wrappers
  import opened Seqs
  import opened Price
  import opened RapidityResolver
  import opened PriceFactory
  import opened Container
  import opened Publisher

  class PriceThrottler {
    const container: PriceProcessorsContainer
    const publisher: PricePublisher
    const factory: PriorityPriceFactory

    /** The publisher works on this throttler's registry, which stays coalesced. */
    ghost predicate Valid()
      reads this, container, publisher
    {
      && publisher.container == container
      && publisher.Valid()
    }

    /** `new PriceThrottler(slow, fast, bound)`: `Executors.newFixedThreadPool` rejects
        a parallelism below 1. */
    constructor (slowSubscribersParallelism: int, fastSubscribersParallelism: int,
                 slowSubscriberRunTimeLowerBoundInSeconds: int)
      requires slowSubscribersParallelism >= 1 && fastSubscribersParallelism >= 1
      ensures fresh(container) && fresh(publisher) && fresh(factory)
      ensures Valid() && publisher.Healthy()
      ensures container.queues == map[] && container.rapidity == map[]
      ensures container.slowRotation == [] && container.fastRotation == []
      ensures factory.priorityMap == map[]
      ensures publisher.pending == [] && publisher.inProgress == [] && publisher.delivered == []
      ensures !publisher.halted
      ensures publisher.slowCoreSize == slowSubscribersParallelism
      ensures publisher.fastCoreSize == fastSubscribersParallelism
      ensures publisher.slowTaskLowerBoundInSeconds == slowSubscriberRunTimeLowerBoundInSeconds
    {
      var c := new PriceProcessorsContainer();
      container := c;
      publisher := new PricePublisher(slowSubscribersParallelism, fastSubscribersParallelism,
                                      slowSubscriberRunTimeLowerBoundInSeconds, c);
      factory := new PriorityPriceFactory();
    }

    /** `onPrice`: the ledger prices the update, then every registered queue replaces
        its pending entry for the pair with it. */
    method OnPrice(ccyPair: string, rate: Rate)
      requires Valid()
      modifies factory, container
      ensures factory.priorityMap == Record(old(factory.priorityMap), ccyPair)
      ensures container.queues.Keys == old(container.queues).Keys
      ensures forall p :: p in container.queues ==>
        container.queues[p] == AddOrReplace(old(container.queues)[p], NextPrice(old(factory.priorityMap), ccyPair, rate))
      ensures container.rapidity == old(container.rapidity)
      ensures container.slowRotation == old(container.slowRotation)
      ensures container.fastRotation == old(container.fastRotation)
      ensures Valid()
      ensures old(publisher.Healthy()) ==> publisher.Healthy()
    {
      var price := factory.CreateNewPriceOrChangePriority(ccyPair, rate);
      container.AddOrReplacePrice(price);
    }

    /** `subscribe`: the subscriber starts SLOW with an empty queue, so it sees no price
        published before. */
    method Subscribe(p: Processor)
      requires Valid()
      modifies container
      ensures container.queues == old(container.queues)[p := []]
      ensures container.rapidity == old(container.rapidity)[p := Slow]
      ensures container.slowRotation == old(container.slowRotation) + [p]
      ensures container.fastRotation == old(container.fastRotation)
      ensures Valid()
      ensures old(publisher.Healthy()) && p !in old(container.queues) ==> publisher.Healthy()
    {
      container.AddProcessor(p);
    }

    /** `unsubscribe`: the subscriber loses its queue, with any prices still in it, and
        its rapidity. The registry keeps its shape; the publisher stays healthy only if
        no slow delivery to the subscriber is in flight. */
    method Unsubscribe(p: Processor)
      requires Valid()
      modifies container
      ensures container.queues == old(container.queues) - {p}
      ensures container.rapidity == old(container.rapidity) - {p}
      ensures container.slowRotation == RemoveFirst(old(container.slowRotation), p)
      ensures container.fastRotation == RemoveFirst(old(container.fastRotation), p)
      ensures Valid()
      ensures old(container.Partitioned()) ==> container.Partitioned()
      ensures old(publisher.Healthy()) && !SlowTaskFor(publisher.pending, p) ==> publisher.Healthy()
    {
      container.RemoveProcessor(p);
    }
  }

  /** Some slow-lane delivery to `p` is in flight. */
  predicate SlowTaskFor(pending: seq<Task>, p: Processor)
  {
    exists k :: 0 <= k < |pending| && pending[k].lane == SlowLane && pending[k].processor == p
  }

  /** Two updates for the same pair with no dequeue in between leave a subscriber's
      queue holding one entry for the pair: the second rate, with the priority after
      the first one's. The entries for other pairs are untouched. */
  lemma TwoUpdatesCoalesce(ledger: map<string, int32>, q: seq<PriorityPrice>, ccyPair: string,
                           rate1: Rate, rate2: Rate)
    requires UniquePairs(q)
    ensures var first := NextPrice(ledger, ccyPair, rate1);
      var second := NextPrice(Record(ledger, ccyPair), ccyPair, rate2);
      var q' := AddOrReplace(AddOrReplace(q, first), second);
      && Keep(q', ccyPair) == [second]
      && second.rate == rate2
      && second.priority == Inc32(first.priority)
      && Drop(q', ccyPair) == Drop(q, ccyPair)
      && UniquePairs(q')
  {
    var first := NextPrice(ledger, ccyPair, rate1);
    var second := NextPrice(Record(ledger, ccyPair), ccyPair, rate2);
    AddOrReplaceUnique(q, first);
    AddOrReplaceCoalesces(q, first);
    AddOrReplaceUnique(AddOrReplace(q, first), second);
    AddOrReplaceCoalesces(AddOrReplace(q, first), second);
  }

  /** The failure the unguarded promotion allows, on one subscriber: its slow delivery
      is in flight when it unsubscribes, the delivery then turns out FAST, so the
      subscriber is put back in the fast rotation without a queue; the next tick's fast
      pass meets it and `getNextPrice` throws, which ends the scheduled ticks for good. */
  method UnsubscribeDuringSlowDeliveryHalts() returns (halted: bool)
    ensures halted
  {
    var throttler := new PriceThrottler(1, 1, 1);
    var publisher, container := throttler.publisher, throttler.container;
    throttler.Subscribe(7);
    throttler.OnPrice("EURUSD", 1.25);
    assert container.queues[7] != [];
    publisher.Tick(0, 0);
    assert |publisher.pending| == 1 && publisher.pending[0].lane == SlowLane;
    assert publisher.pending[0].processor == 7;
    throttler.Unsubscribe(7);
    publisher.CompleteTask(0, 999);
    assert container.fastRotation == [7] && 7 !in container.queues && publisher.inProgress == [];
    UnregisteredHeadFailsPass(FastLane, publisher.FastView(), 1);
    publisher.Tick(0, 0);
    halted := publisher.halted;
  }
}
