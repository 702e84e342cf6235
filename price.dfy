/** The price a subscriber is handed: a currency pair, its rate and the priority
    the factory assigned to it (PriorityPrice.java). */
module Price {

  const MinInt32: int := -0x8000_0000
  const MaxInt32: int := 0x7fff_ffff

  /** A Java `int`. */
  newtype int32 = x: int | -0x8000_0000 <= x < 0x8000_0000

  /** The Java `double` rate. The throttler never computes with it, it only
      carries it from `onPrice` to the subscriber. */
  type Rate = real

  datatype PriorityPrice = PriorityPrice(ccyPair: string, rate: Rate, priority: int32)

  /** The package-private constructor: the `priority` field starts at 0. */
  function NewPrice(ccyPair: string, rate: Rate): (p: PriorityPrice)
    ensures p.priority == 0 && p.ccyPair == ccyPair && p.rate == rate
  {
    PriorityPrice(ccyPair, rate, 0)
  }

  /** `setPriority`: a price whose priority is replaced and whose pair and rate are
      those of `p`. */
  function SetPriority(p: PriorityPrice, priority: int32): (q: PriorityPrice)
    ensures q.priority == priority && q.ccyPair == p.ccyPair && q.rate == p.rate
  {
    p.(priority := priority)
  }

  /** `compareTo`. Note the direction: the price with the HIGHER priority compares
      as smaller, so a priority queue hands it out first. (The class's doc comment
      says the opposite; the code is what is modelled.) */
  function CompareTo(a: PriorityPrice, b: PriorityPrice): (c: int)
    ensures c == -1 <==> a.priority > b.priority
    ensures c == 0 <==> a.priority == b.priority
    ensures c == 1 <==> a.priority < b.priority
  {
    if a.priority < b.priority then 1 else if a.priority == b.priority then 0 else -1
  }

  lemma CompareToAntisymmetric(a: PriorityPrice, b: PriorityPrice)
    ensures CompareTo(a, b) == -CompareTo(b, a)
  {
  }

  lemma CompareToTransitive(a: PriorityPrice, b: PriorityPrice, c: PriorityPrice)
    requires CompareTo(a, b) <= 0 && CompareTo(b, c) <= 0
    ensures CompareTo(a, c) <= 0
    ensures CompareTo(a, b) < 0 || CompareTo(b, c) < 0 ==> CompareTo(a, c) < 0
  {
  }

  /** `equals`: two prices are equal exactly when their currency pairs are. */
  function Equals(a: PriorityPrice, b: PriorityPrice): (r: bool)
    ensures a == b ==> r
    ensures r ==> HashCode(a) == HashCode(b)
  {
    a.ccyPair == b.ccyPair
  }

  lemma EqualsIgnoresRateAndPriority(p: PriorityPrice, rate: Rate, priority: int32)
    ensures Equals(p, p.(rate := rate, priority := priority))
  {
  }

  lemma EqualsIsEquivalence(a: PriorityPrice, b: PriorityPrice, c: PriorityPrice)
    ensures Equals(a, a)
    ensures Equals(a, b) ==> Equals(b, a)
    ensures Equals(a, b) && Equals(b, c) ==> Equals(a, c)
  {
  }

  /** Java's `String.hashCode` as an unsigned 32-bit value: h = 31 * h + c over the
      characters, wrapping at 2^32. */
  function StringHash(s: string): (h: nat)
    ensures h < 0x1_0000_0000
  {
    if s == [] then 0
    else (31 * StringHash(s[..|s| - 1]) + s[|s| - 1] as int) % 0x1_0000_0000
  }

  /** Reading a 32-bit pattern as a signed Java `int`. */
  function ToInt32(u: nat): (x: int32)
    requires u < 0x1_0000_0000
    ensures x as int % 0x1_0000_0000 == u
  {
    if u <= MaxInt32 then u as int32 else (u - 0x1_0000_0000) as int32
  }

  /** `hashCode`: the hash of the currency pair. */
  function HashCode(p: PriorityPrice): (h: int32)
    ensures h as int % 0x1_0000_0000 == StringHash(p.ccyPair)
  {
    ToInt32(StringHash(p.ccyPair))
  }

  lemma HashCodeConsistentWithEquals(a: PriorityPrice, b: PriorityPrice)
    requires Equals(a, b)
    ensures HashCode(a) == HashCode(b)
  {
  }
}
