/** PriceProcessorsContainer.java: the subscriber registry. Per subscriber
    (`PriceProcessor`) it keeps a priority queue of pending prices and a rapidity,
    and it keeps two round-robin rotations, one for SLOW and one for FAST
    subscribers. */
module Container {
  import opened Wrappers
  import opened Seqs
  import opened Price
  import opened RapidityResolver

  /** A subscriber (`PriceProcessor`). The registry only compares subscribers, so an
      identity is all the model keeps of one. */
  type Processor = nat

  // ---------------------------------------------------------------------------
  // One subscriber's queue (a PriorityBlockingQueue<PriorityPrice>)
  // ---------------------------------------------------------------------------

  /** At most one pending price per currency pair. */
  predicate UniquePairs(q: seq<PriorityPrice>)
  {
    forall i, j :: 0 <= i < j < |q| ==> q[i].ccyPair != q[j].ccyPair
  }

  /** The pending prices for `ccyPair`, in queue order. */
  function Keep(q: seq<PriorityPrice>, ccyPair: string): (r: seq<PriorityPrice>)
    ensures forall x :: x in r <==> x in q && x.ccyPair == ccyPair
  {
    if q == [] then []
    else (if q[0].ccyPair == ccyPair then [q[0]] else []) + Keep(q[1..], ccyPair)
  }

  /** The pending prices for every other currency pair, in queue order. */
  function Drop(q: seq<PriorityPrice>, ccyPair: string): (r: seq<PriorityPrice>)
    ensures forall x :: x in r <==> x in q && x.ccyPair != ccyPair
  {
    if q == [] then []
    else (if q[0].ccyPair == ccyPair then [] else [q[0]]) + Drop(q[1..], ccyPair)
  }

  lemma {:induction false} KeepConcat(a: seq<PriorityPrice>, b: seq<PriorityPrice>, ccyPair: string)
    ensures Keep(a + b, ccyPair) == Keep(a, ccyPair) + Keep(b, ccyPair)
  {
    if a == [] {
      assert a + b == b;
    } else {
      assert (a + b)[1..] == a[1..] + b;
      KeepConcat(a[1..], b, ccyPair);
    }
  }

  lemma {:induction false} DropConcat(a: seq<PriorityPrice>, b: seq<PriorityPrice>, ccyPair: string)
    ensures Drop(a + b, ccyPair) == Drop(a, ccyPair) + Drop(b, ccyPair)
  {
    if a == [] {
      assert a + b == b;
    } else {
      assert (a + b)[1..] == a[1..] + b;
      DropConcat(a[1..], b, ccyPair);
    }
  }

  /** `PriorityBlockingQueue.remove(Object)`: removes one element that `equals` the
      argument, that is, one with the same currency pair. */
  function RemovePrice(q: seq<PriorityPrice>, p: PriorityPrice): (r: seq<PriorityPrice>)
    ensures forall x :: x in r ==> x in q
    ensures forall x :: x in q && !Equals(x, p) ==> x in r
  {
    if q == [] then []
    else if Equals(q[0], p) then q[1..]
    else [q[0]] + RemovePrice(q[1..], p)
  }

  /** Removing a price takes away the first pending entry for its pair and nothing else. */
  lemma {:induction false} RemovePriceSplit(q: seq<PriorityPrice>, p: PriorityPrice)
    ensures Drop(RemovePrice(q, p), p.ccyPair) == Drop(q, p.ccyPair)
    ensures Keep(RemovePrice(q, p), p.ccyPair) ==
      if Keep(q, p.ccyPair) == [] then [] else Keep(q, p.ccyPair)[1..]
  {
    if q != [] && !Equals(q[0], p) {
      var rest := RemovePrice(q[1..], p);
      RemovePriceSplit(q[1..], p);
      assert ([q[0]] + rest)[0] == q[0];
      assert ([q[0]] + rest)[1..] == rest;
    }
  }

  lemma {:induction false} RemovePriceUnique(q: seq<PriorityPrice>, p: PriorityPrice)
    requires UniquePairs(q)
    ensures UniquePairs(RemovePrice(q, p))
    ensures forall x :: x in RemovePrice(q, p) ==> x.ccyPair != p.ccyPair
  {
    if q != [] {
      assert UniquePairs(q[1..]) by {
        forall i, j | 0 <= i < j < |q[1..]| ensures q[1..][i].ccyPair != q[1..][j].ccyPair {
          assert q[1..][i] == q[i + 1] && q[1..][j] == q[j + 1];
        }
      }
      forall x | x in q[1..] ensures x.ccyPair != q[0].ccyPair {
        var j :| 0 <= j < |q[1..]| && q[1..][j] == x;
        assert q[j + 1] == x;
      }
      if !Equals(q[0], p) {
        var rest := RemovePrice(q[1..], p);
        RemovePriceUnique(q[1..], p);
        var r := [q[0]] + rest;
        forall i, j | 0 <= i < j < |r| ensures r[i].ccyPair != r[j].ccyPair {
          if i == 0 {
            assert r[j] == rest[j - 1];
            assert r[j] in q[1..];
          } else {
            assert r[i] == rest[i - 1] && r[j] == rest[j - 1];
          }
        }
      }
    }
  }

  /** The registry's `remove` then `add` on one queue: the pending entry for the
      price's pair, if any, is replaced by the new price. */
  function AddOrReplace(q: seq<PriorityPrice>, p: PriorityPrice): (r: seq<PriorityPrice>)
    ensures r != [] && r[|r| - 1] == p
    ensures forall x :: x in r ==> x == p || x in q
    ensures forall x :: x in q && !Equals(x, p) ==> x in r
  {
    RemovePrice(q, p) + [p]
  }

  /** Coalescing: on a queue with at most one entry per pair, after adding `p` the
      queue still has at most one entry per pair. */
  lemma AddOrReplaceUnique(q: seq<PriorityPrice>, p: PriorityPrice)
    requires UniquePairs(q)
    ensures UniquePairs(AddOrReplace(q, p))
  {
    var rest := RemovePrice(q, p);
    RemovePriceUnique(q, p);
    var r := rest + [p];
    forall i, j | 0 <= i < j < |r| ensures r[i].ccyPair != r[j].ccyPair {
      assert r[i] == rest[i] && rest[i] in rest;
      if j < |rest| {
        assert r[j] == rest[j];
      }
    }
  }

  /** Coalescing: after adding `p` to a queue with at most one entry per pair, the only
      entry for p's pair is p, and the entries for every other pair are exactly those
      before, in the same order. */
  lemma AddOrReplaceCoalesces(q: seq<PriorityPrice>, p: PriorityPrice)
    requires UniquePairs(q)
    ensures Keep(AddOrReplace(q, p), p.ccyPair) == [p]
    ensures Drop(AddOrReplace(q, p), p.ccyPair) == Drop(q, p.ccyPair)
  {
    var rest := RemovePrice(q, p);
    RemovePriceUnique(q, p);
    RemovePriceSplit(q, p);
    KeepConcat(rest, [p], p.ccyPair);
    DropConcat(rest, [p], p.ccyPair);
    KeepNone(rest, p.ccyPair);
    assert Keep([p], p.ccyPair) == [p] && Drop([p], p.ccyPair) == [];
  }

  lemma {:induction false} KeepNone(q: seq<PriorityPrice>, ccyPair: string)
    requires forall x :: x in q ==> x.ccyPair != ccyPair
    ensures Keep(q, ccyPair) == []
  {
    if q != [] {
      assert q[0] in q;
      assert forall x :: x in q[1..] ==> x in q;
      KeepNone(q[1..], ccyPair);
    }
  }

  /** The index `poll` takes from a non-empty queue: the element that orders first
      under `compareTo`, that is, one of highest priority. Among equal priorities the
      Java heap's choice is not specified; the model takes the earliest. */
  function PollIndex(q: seq<PriorityPrice>): (i: nat)
    requires q != []
    ensures i < |q|
  {
    if |q| == 1 then 0
    else
      var k := 1 + PollIndex(q[1..]);
      if q[k].priority > q[0].priority then k else 0
  }

  /** `poll` takes an element no other element orders before, and the first such. */
  lemma {:induction false} PollIndexHighest(q: seq<PriorityPrice>)
    requires q != []
    ensures forall j :: 0 <= j < |q| ==> CompareTo(q[PollIndex(q)], q[j]) <= 0
    ensures forall j :: 0 <= j < PollIndex(q) ==> q[j].priority < q[PollIndex(q)].priority
  {
    if |q| > 1 {
      PollIndexHighest(q[1..]);
      var k := 1 + PollIndex(q[1..]);
      forall j | 1 <= j < |q| ensures q[j].priority <= q[k].priority {
        assert q[j] == q[1..][j - 1];
      }
      forall j | 1 <= j < k ensures q[j].priority < q[k].priority {
        assert q[j] == q[1..][j - 1];
      }
    }
  }

  lemma RemoveAtUnique(q: seq<PriorityPrice>, i: nat)
    requires i < |q| && UniquePairs(q)
    ensures UniquePairs(RemoveAt(q, i))
  {
    var r := RemoveAt(q, i);
    forall a, b | 0 <= a < b < |r| ensures r[a].ccyPair != r[b].ccyPair {
      var a' := if a < i then a else a + 1;
      var b' := if b < i then b else b + 1;
      assert r[a] == q[a'] && r[b] == q[b'];
    }
  }

  // ---------------------------------------------------------------------------
  // Rapidity counts (`getProcessorsCount`)
  // ---------------------------------------------------------------------------

  function WithRapidity(m: map<Processor, Rapidity>, r: Rapidity): (procs: set<Processor>)
    ensures procs <= m.Keys
  {
    set p | p in m && m[p] == r
  }

  /** Every registered subscriber is counted exactly once, as SLOW or as FAST. */
  /** No subscriber is counted exactly when none has that rapidity. */
  lemma NoneWithRapidity(m: map<Processor, Rapidity>, r: Rapidity)
    ensures |WithRapidity(m, r)| == 0 <==> forall p :: p in m ==> m[p] != r
  {
    if p :| p in m && m[p] == r {
      assert p in WithRapidity(m, r);
    }
  }

  lemma CountsAddUp(m: map<Processor, Rapidity>)
    ensures |WithRapidity(m, Slow)| + |WithRapidity(m, Fast)| == |m|
  {
    var slow, fast := WithRapidity(m, Slow), WithRapidity(m, Fast);
    assert slow + fast == m.Keys;
    assert slow * fast == {};
    assert |m.Keys| == |m|;
  }

  // ---------------------------------------------------------------------------
  // The registry's intended shape
  // ---------------------------------------------------------------------------

  /** The subscribers with a queue are those with a rapidity, every subscriber in a
      rotation is registered, and every registered subscriber occurs exactly once,
      in the rotation of its rapidity. */
  ghost predicate PartitionedBy(queues: map<Processor, seq<PriorityPrice>>, rapidity: map<Processor, Rapidity>,
                                slowRotation: seq<Processor>, fastRotation: seq<Processor>)
  {
    && rapidity.Keys == queues.Keys
    && (forall p :: p in slowRotation ==> p in queues)
    && (forall p :: p in fastRotation ==> p in queues)
    && (forall p :: p in queues ==>
          && multiset(slowRotation)[p] == (if rapidity[p] == Slow then 1 else 0)
          && multiset(fastRotation)[p] == (if rapidity[p] == Fast then 1 else 0))
  }

  /** The shape depends only on which subscribers have queues and on how often each
      occurs in each rotation. */
  lemma PartitionedByFrame(queues: map<Processor, seq<PriorityPrice>>, queues': map<Processor, seq<PriorityPrice>>,
                           rapidity: map<Processor, Rapidity>,
                           slowRotation: seq<Processor>, slowRotation': seq<Processor>,
                           fastRotation: seq<Processor>, fastRotation': seq<Processor>)
    requires PartitionedBy(queues, rapidity, slowRotation, fastRotation)
    requires queues'.Keys == queues.Keys
    requires multiset(slowRotation') == multiset(slowRotation) && multiset(fastRotation') == multiset(fastRotation)
    ensures PartitionedBy(queues', rapidity, slowRotation', fastRotation')
  {
    forall x | x in slowRotation' ensures x in queues' {
      assert multiset(slowRotation')[x] > 0;
    }
    forall x | x in fastRotation' ensures x in queues' {
      assert multiset(fastRotation')[x] > 0;
    }
  }

  /** `addProcessor` of a new subscriber keeps the shape. */
  lemma PartitionedAfterAdd(queues: map<Processor, seq<PriorityPrice>>, rapidity: map<Processor, Rapidity>,
                            slowRotation: seq<Processor>, fastRotation: seq<Processor>, p: Processor)
    requires PartitionedBy(queues, rapidity, slowRotation, fastRotation) && p !in queues
    ensures PartitionedBy(queues[p := []], rapidity[p := Slow], slowRotation + [p], fastRotation)
  {
    assert p !in slowRotation && p !in fastRotation;
  }

  /** `removeProcessor` keeps the shape and leaves the subscriber in no rotation. */
  lemma PartitionedAfterRemove(queues: map<Processor, seq<PriorityPrice>>, rapidity: map<Processor, Rapidity>,
                               slowRotation: seq<Processor>, fastRotation: seq<Processor>, p: Processor)
    requires PartitionedBy(queues, rapidity, slowRotation, fastRotation)
    ensures PartitionedBy(queues - {p}, rapidity - {p}, RemoveFirst(slowRotation, p), RemoveFirst(fastRotation, p))
    ensures p !in RemoveFirst(slowRotation, p) && p !in RemoveFirst(fastRotation, p)
  {
    var queues', rapidity' := queues - {p}, rapidity - {p};
    assert multiset(slowRotation)[p] <= 1 && multiset(fastRotation)[p] <= 1 by {
      if p !in queues {
        assert p !in slowRotation && p !in fastRotation;
      }
    }
    RemoveFirstClears(slowRotation, p);
    RemoveFirstClears(fastRotation, p);
    forall x | x in queues'
      ensures multiset(RemoveFirst(slowRotation, p))[x] == (if rapidity'[x] == Slow then 1 else 0)
      ensures multiset(RemoveFirst(fastRotation, p))[x] == (if rapidity'[x] == Fast then 1 else 0)
    {
      RemoveFirstKeepsOthers(slowRotation, p, x);
      RemoveFirstKeepsOthers(fastRotation, p, x);
    }
  }

  /** Promoting a registered SLOW subscriber keeps the shape. */
  lemma PartitionedAfterMarkFast(queues: map<Processor, seq<PriorityPrice>>, rapidity: map<Processor, Rapidity>,
                                 slowRotation: seq<Processor>, fastRotation: seq<Processor>, p: Processor)
    requires PartitionedBy(queues, rapidity, slowRotation, fastRotation)
    requires p in queues && rapidity[p] == Slow
    ensures PartitionedBy(queues, rapidity[p := Fast], RemoveFirst(slowRotation, p), fastRotation + [p])
  {
    var slow: seq<Processor> := RemoveFirst(slowRotation, p);
    RemoveFirstMultiset(slowRotation, p);
    forall x | x in slow ensures x in queues {
      assert multiset(slow)[x] > 0;
    }
  }

  /** Promoting a subscriber that is no longer registered breaks the shape: it is
      back in the fast rotation without a queue. */
  lemma MarkFastAfterRemoveLeavesNoQueue(queues: map<Processor, seq<PriorityPrice>>, rapidity: map<Processor, Rapidity>,
                                         slowRotation: seq<Processor>, fastRotation: seq<Processor>, p: Processor)
    requires p !in queues
    ensures p in fastRotation + [p] && p in rapidity[p := Fast]
    ensures !PartitionedBy(queues, rapidity[p := Fast], RemoveFirst(slowRotation, p), fastRotation + [p])
  {
    assert (fastRotation + [p])[|fastRotation|] == p;
  }

  // ---------------------------------------------------------------------------
  // The registry
  // ---------------------------------------------------------------------------

  class PriceProcessorsContainer {
    var queues: map<Processor, seq<PriorityPrice>>
    var rapidity: map<Processor, Rapidity>
    var slowRotation: seq<Processor>
    var fastRotation: seq<Processor>

    /** Every queue holds at most one price per currency pair. Every operation keeps
        this, whatever else happens. */
    ghost predicate Valid()
      reads this
    {
      forall p :: p in queues ==> UniquePairs(queues[p])
    }

    /** The registry is in the shape its design intends (`PartitionedBy`).
        Registering a subscriber twice, or promoting one that is FAST or no longer
        registered, breaks it. */
    ghost predicate Partitioned()
      reads this
    {
      PartitionedBy(queues, rapidity, slowRotation, fastRotation)
    }

    constructor ()
      ensures queues == map[] && rapidity == map[] && slowRotation == [] && fastRotation == []
      ensures Valid() && Partitioned()
    {
      queues, rapidity := map[], map[];
      slowRotation, fastRotation := [], [];
    }

    /** `getProcessorsCount()`: the number of registered subscribers. */
    function ProcessorsCount(): (n: nat)
      reads this
      ensures n == ProcessorsCountWith(Slow) + ProcessorsCountWith(Fast)
    {
      CountsAddUp(rapidity);
      |rapidity|
    }

    /** `getProcessorsCount(rapidity)`. */
    function ProcessorsCountWith(r: Rapidity): (n: nat)
      reads this
      ensures n <= |rapidity|
      ensures n == 0 <==> forall p :: p in rapidity ==> rapidity[p] != r
    {
      CountsAddUp(rapidity);
      NoneWithRapidity(rapidity, r);
      |WithRapidity(rapidity, r)|
    }

    /** `addProcessor`: a fresh empty queue, rapidity SLOW, and the subscriber goes to
        the back of the slow rotation. On a subscriber already registered this resets
        its queue and puts a second copy in the slow rotation. */
    method AddProcessor(p: Processor)
      requires Valid()
      modifies this
      ensures queues == old(queues)[p := []]
      ensures rapidity == old(rapidity)[p := Slow]
      ensures slowRotation == old(slowRotation) + [p]
      ensures fastRotation == old(fastRotation)
      ensures Valid()
      ensures old(Partitioned()) && p !in old(queues) ==> Partitioned()
    {
      if Partitioned() && p !in queues {
        PartitionedAfterAdd(queues, rapidity, slowRotation, fastRotation, p);
      }
      queues := queues[p := []];
      rapidity := rapidity[p := Slow];
      slowRotation := slowRotation + [p];
    }

    /** `removeProcessor`: one occurrence leaves each rotation, and the queue (with any
        undelivered prices) and the rapidity entry are dropped. */
    method RemoveProcessor(p: Processor)
      requires Valid()
      modifies this
      ensures slowRotation == RemoveFirst(old(slowRotation), p)
      ensures fastRotation == RemoveFirst(old(fastRotation), p)
      ensures queues == old(queues) - {p}
      ensures rapidity == old(rapidity) - {p}
      ensures Valid()
      ensures old(Partitioned()) ==> Partitioned() && p !in slowRotation && p !in fastRotation
    {
      if Partitioned() {
        PartitionedAfterRemove(queues, rapidity, slowRotation, fastRotation, p);
      }
      slowRotation := RemoveFirst(slowRotation, p);
      fastRotation := RemoveFirst(fastRotation, p);
      queues := queues - {p};
      rapidity := rapidity - {p};
    }

    /** `addOrReplacePrice`: the price replaces the pending entry for its pair in every
        registered queue. */
    method AddOrReplacePrice(price: PriorityPrice)
      requires Valid()
      modifies this
      ensures queues.Keys == old(queues).Keys
      ensures forall p :: p in queues ==> queues[p] == AddOrReplace(old(queues)[p], price)
      ensures rapidity == old(rapidity)
      ensures slowRotation == old(slowRotation) && fastRotation == old(fastRotation)
      ensures Valid()
      ensures old(Partitioned()) ==> Partitioned()
    {
      var updated := queues;
      var todo := queues.Keys;
      while todo != {}
        invariant todo <= updated.Keys && updated.Keys == queues.Keys
        invariant forall p :: p in updated ==>
          updated[p] == if p in todo then queues[p] else AddOrReplace(queues[p], price)
        decreases todo
      {
        var p :| p in todo;
        updated := updated[p := AddOrReplace(updated[p], price)];
        todo := todo - {p};
      }
      forall p | p in updated ensures UniquePairs(updated[p]) {
        AddOrReplaceUnique(queues[p], price);
      }
      queues := updated;
    }

    /** `getNextProcessor`: round-robin over the slow rotation. */
    method GetNextProcessor() returns (r: Option<Processor>)
      modifies this
      ensures old(slowRotation) == [] ==> r == None
      ensures old(slowRotation) != [] ==> r == Some(old(slowRotation)[0])
      ensures slowRotation == Rotate(old(slowRotation))
      ensures queues == old(queues) && rapidity == old(rapidity) && fastRotation == old(fastRotation)
    {
      if slowRotation == [] {
        return None;
      }
      var head := slowRotation[0];
      slowRotation := slowRotation[1..] + [head];
      return Some(head);
    }

    /** `getNextFastProcessor`: round-robin over the fast rotation. */
    method GetNextFastProcessor() returns (r: Option<Processor>)
      modifies this
      ensures old(fastRotation) == [] ==> r == None
      ensures old(fastRotation) != [] ==> r == Some(old(fastRotation)[0])
      ensures fastRotation == Rotate(old(fastRotation))
      ensures queues == old(queues) && rapidity == old(rapidity) && slowRotation == old(slowRotation)
    {
      if fastRotation == [] {
        return None;
      }
      var head := fastRotation[0];
      fastRotation := fastRotation[1..] + [head];
      return Some(head);
    }

    /** `getNextPrice`: polls the subscriber's queue. The Java dereferences the queue it
        looks up, so a subscriber without one raises NullPointerException: callers must
        pass a registered subscriber. */
    method GetNextPrice(p: Processor) returns (r: Option<PriorityPrice>)
      requires p in queues && Valid()
      modifies this
      ensures old(queues[p]) == [] ==> r == None && queues == old(queues)
      ensures old(queues[p]) != [] ==>
        var i := PollIndex(old(queues[p]));
        r == Some(old(queues[p])[i]) && queues == old(queues)[p := RemoveAt(old(queues[p]), i)]
      ensures rapidity == old(rapidity)
      ensures slowRotation == old(slowRotation) && fastRotation == old(fastRotation)
      ensures Valid()
    {
      var q := queues[p];
      if q == [] {
        return None;
      }
      var i := PollIndex(q);
      RemoveAtUnique(q, i);
      queues := queues[p := RemoveAt(q, i)];
      return Some(q[i]);
    }

    /** `markProcessorAsFast`: one occurrence leaves the slow rotation, the rapidity
        becomes FAST and the subscriber is appended to the fast rotation. Nothing is
        checked: a FAST subscriber is appended again, and a subscriber that is no
        longer registered gets a rapidity and a rotation slot but no queue. */
    method MarkProcessorAsFast(p: Processor)
      requires Valid()
      modifies this
      ensures slowRotation == RemoveFirst(old(slowRotation), p)
      ensures rapidity == old(rapidity)[p := Fast]
      ensures fastRotation == old(fastRotation) + [p]
      ensures queues == old(queues)
      ensures Valid()
      ensures old(Partitioned()) && p in old(queues) && old(rapidity)[p] == Slow ==> Partitioned()
    {
      if Partitioned() && p in queues && rapidity[p] == Slow {
        PartitionedAfterMarkFast(queues, rapidity, slowRotation, fastRotation, p);
      }
      slowRotation := RemoveFirst(slowRotation, p);
      rapidity := rapidity[p := Fast];
      fastRotation := fastRotation + [p];
    }
  }
}
