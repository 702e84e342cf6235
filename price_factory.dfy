/** PriorityPriceFactory.java: the ledger from currency pair to the last priority
    handed out, and the creation of prioritised prices. */
module PriceFactory {
  import opened Price

  /** `priorityMap.get(ccyPair) + 1` on a Java `int`: past 2^31 - 1 it wraps. */
  function Inc32(x: int32): (y: int32)
    ensures x as int < MaxInt32 ==> y as int == x as int + 1
    ensures x as int == MaxInt32 ==> y as int == MinInt32
  {
    if x as int == MaxInt32 then MinInt32 as int32 else x + 1
  }

  /** The priority the next price for `ccyPair` gets. */
  function NextPriority(ledger: map<string, int32>, ccyPair: string): (r: int32)
    ensures ccyPair !in ledger ==> r == 0
    ensures ccyPair in ledger && ledger[ccyPair] as int < MaxInt32 ==> r as int == ledger[ccyPair] as int + 1
  {
    if ccyPair in ledger then Inc32(ledger[ccyPair]) else 0
  }

  /** The price `createNewPriceOrChangePriority` returns for a given ledger. */
  function NextPrice(ledger: map<string, int32>, ccyPair: string, rate: Rate): (p: PriorityPrice)
    ensures p.ccyPair == ccyPair && p.rate == rate && p.priority == NextPriority(ledger, ccyPair)
  {
    var created := NewPrice(ccyPair, rate);
    if ccyPair in ledger then SetPriority(created, Inc32(ledger[ccyPair])) else created
  }

  /** The ledger after one call for `ccyPair`. */
  function Record(ledger: map<string, int32>, ccyPair: string): (r: map<string, int32>)
    ensures r.Keys == ledger.Keys + {ccyPair}
    ensures r[ccyPair] == NextPriority(ledger, ccyPair)
    ensures forall k :: k in ledger && k != ccyPair ==> r[k] == ledger[k]
  {
    ledger[ccyPair := NextPriority(ledger, ccyPair)]
  }

  class PriorityPriceFactory {
    var priorityMap: map<string, int32>

    constructor ()
      ensures priorityMap == map[]
    {
      priorityMap := map[];
    }

    method CreateNewPriceOrChangePriority(ccyPair: string, rate: Rate) returns (price: PriorityPrice)
      modifies this
      ensures price == NextPrice(old(priorityMap), ccyPair, rate)
      ensures priorityMap == old(priorityMap)[ccyPair := price.priority]
      ensures priorityMap == Record(old(priorityMap), ccyPair)
    {
      price := NewPrice(ccyPair, rate);
      if ccyPair in priorityMap {
        price := SetPriority(price, Inc32(priorityMap[ccyPair]));
      }
      priorityMap := priorityMap[ccyPair := price.priority];
    }
  }

  /** The ledger after a sequence of calls, oldest first, starting from `ledger`. */
  ghost function LedgerAfter(ledger: map<string, int32>, calls: seq<string>): (r: map<string, int32>)
  {
    if calls == [] then ledger
    else Record(LedgerAfter(ledger, calls[..|calls| - 1]), calls[|calls| - 1])
  }

  /** How many of `calls` are for `ccyPair`. */
  function Occurrences(calls: seq<string>, ccyPair: string): (n: nat)
    ensures n <= |calls|
    ensures n == 0 <==> ccyPair !in calls
  {
    if calls == [] then 0
    else Occurrences(calls[..|calls| - 1], ccyPair) + (if calls[|calls| - 1] == ccyPair then 1 else 0)
  }

  /** Starting from an empty ledger, after `n` calls for a pair (interleaved in any way
      with calls for other pairs) the ledger holds n - 1 for it, as long as no wrap
      has happened. */
  lemma {:induction false} LedgerCountsCalls(calls: seq<string>, ccyPair: string)
    requires Occurrences(calls, ccyPair) <= MaxInt32 + 1
    ensures Occurrences(calls, ccyPair) == 0 <==> ccyPair !in LedgerAfter(map[], calls)
    ensures Occurrences(calls, ccyPair) > 0 ==>
      LedgerAfter(map[], calls)[ccyPair] as int == Occurrences(calls, ccyPair) - 1
  {
    if calls != [] {
      var prefix := calls[..|calls| - 1];
      LedgerCountsCalls(prefix, ccyPair);
    }
  }

  /** The n-th call (counting from 0) for a pair returns priority n, whatever calls
      for other pairs came in between, up to 2^31 - 1. */
  lemma NthCallReturnsN(calls: seq<string>, ccyPair: string, rate: Rate)
    requires Occurrences(calls, ccyPair) <= MaxInt32
    ensures NextPrice(LedgerAfter(map[], calls), ccyPair, rate).priority as int == Occurrences(calls, ccyPair)
  {
    LedgerCountsCalls(calls, ccyPair);
  }

  /** The (2^31)-th call for a pair wraps to the most negative `int`, which the
      comparator then orders after every other price. */
  lemma PriorityWrapsAfterMaxInt(calls: seq<string>, ccyPair: string, rate: Rate)
    requires Occurrences(calls, ccyPair) == MaxInt32 + 1
    ensures NextPrice(LedgerAfter(map[], calls), ccyPair, rate).priority as int == MinInt32
  {
    LedgerCountsCalls(calls, ccyPair);
  }

  /** No key ever leaves the ledger, and the values of other keys are untouched. */
  lemma {:induction false} LedgerOnlyGrows(ledger: map<string, int32>, calls: seq<string>)
    ensures ledger.Keys <= LedgerAfter(ledger, calls).Keys
    ensures forall k :: k in ledger && k !in calls ==> LedgerAfter(ledger, calls)[k] == ledger[k]
  {
    if calls != [] {
      var prefix := calls[..|calls| - 1];
      LedgerOnlyGrows(ledger, prefix);
    }
  }
}
