/** Sequence operations shared by the registry and the publisher: the Java
    collections it uses (LinkedBlockingQueue, synchronized ArrayList) are modelled
    as sequences, and their `remove(Object)` and poll-then-add as functions here. */
module Seqs {

  /** No element occurs twice. */
  ghost predicate NoDup<T(!new)>(s: seq<T>) {
    forall x :: multiset(s)[x] <= 1
  }

  /** `Collection.remove(Object)` on a list or linked queue: the first occurrence of
      `x` is removed, the rest keeps its order. */
  function RemoveFirst<T(==)>(s: seq<T>, x: T): (r: seq<T>)
    ensures x !in s ==> r == s
    ensures forall y :: y in r ==> y in s
  {
    if s == [] then []
    else if s[0] == x then s[1..]
    else [s[0]] + RemoveFirst(s[1..], x)
  }

  lemma {:induction false} RemoveFirstMultiset<T>(s: seq<T>, x: T)
    ensures multiset(RemoveFirst(s, x)) == multiset(s) - multiset{x}
  {
    if s != [] {
      assert s == [s[0]] + s[1..];
      if s[0] != x {
        RemoveFirstMultiset(s[1..], x);
      }
    }
  }

  lemma RemoveFirstNoDup<T(!new)>(s: seq<T>, x: T)
    requires NoDup(s)
    ensures NoDup(RemoveFirst(s, x)) && x !in RemoveFirst(s, x)
  {
    RemoveFirstMultiset(s, x);
    assert multiset(RemoveFirst(s, x))[x] == 0;
  }

  /** Removing an element that occurs at most once leaves none of it. */
  lemma RemoveFirstClears<T>(s: seq<T>, x: T)
    requires multiset(s)[x] <= 1
    ensures x !in RemoveFirst(s, x)
  {
    RemoveFirstMultiset(s, x);
    assert multiset(RemoveFirst(s, x))[x] == 0;
  }

  /** Removing `x` leaves the count of every other element as it was. */
  lemma RemoveFirstKeepsOthers<T>(s: seq<T>, x: T, y: T)
    requires y != x
    ensures multiset(RemoveFirst(s, x))[y] == multiset(s)[y]
  {
    RemoveFirstMultiset(s, x);
  }

  /** Appending an element not yet present keeps a sequence free of duplicates. */
  lemma AppendNoDup<T(!new)>(s: seq<T>, x: T)
    requires NoDup(s) && x !in s
    ensures NoDup(s + [x])
  {
    assert multiset(s + [x]) == multiset(s) + multiset{x};
  }

  function RemoveAt<T>(s: seq<T>, i: nat): (r: seq<T>)
    requires i < |s|
    ensures |r| == |s| - 1
    ensures forall k :: 0 <= k < |r| ==> r[k] == if k < i then s[k] else s[k + 1]
  {
    s[..i] + s[i + 1..]
  }

  /** Removing a position removes exactly one occurrence of its element. */
  lemma RemoveAtMultiset<T>(s: seq<T>, i: nat)
    requires i < |s|
    ensures multiset(RemoveAt(s, i)) == multiset(s) - multiset{s[i]}
  {
    assert s == s[..i] + [s[i]] + s[i + 1..];
  }

  /** Poll the head of a rotation and add it back at the tail. */
  function Rotate<T>(s: seq<T>): (r: seq<T>)
    ensures |r| == |s|
    ensures s != [] ==> r[|r| - 1] == s[0] && r[..|r| - 1] == s[1..]
  {
    if s == [] then [] else s[1..] + [s[0]]
  }

  /** Turning a rotation neither adds nor loses a member. */
  lemma RotateMembers<T>(s: seq<T>)
    ensures forall x :: x in Rotate(s) <==> x in s
  {
    if s != [] {
      assert s == [s[0]] + s[1..];
    }
  }

  /** The rotation after `k` polls. */
  function RotateN<T>(s: seq<T>, k: nat): (r: seq<T>)
    ensures |r| == |s|
    decreases k
  {
    if k == 0 then s else RotateN(Rotate(s), k - 1)
  }

  /** Turning a rotation keeps its members and how often each occurs. */
  lemma RotateMultiset<T>(s: seq<T>)
    ensures multiset(Rotate(s)) == multiset(s)
  {
    if s != [] {
      assert s == [s[0]] + s[1..];
    }
  }

  lemma {:induction false} RotateNMultiset<T>(s: seq<T>, k: nat)
    ensures multiset(RotateN(s, k)) == multiset(s)
    decreases k
  {
    if k > 0 {
      RotateMultiset(s);
      RotateNMultiset(Rotate(s), k - 1);
    }
  }

  /** The two slices of a rotated sequence that `RotateNShifts` puts together. */
  lemma RotateSlices<T>(s: seq<T>, k: nat)
    requires 0 < k <= |s|
    ensures Rotate(s)[k - 1..] == s[k..] + [s[0]]
    ensures Rotate(s)[..k - 1] == s[1..k]
    ensures s[..k] == [s[0]] + s[1..k]
  {
    var r := Rotate(s);
    assert r == s[1..] + [s[0]];
    assert r[k - 1..] == s[1..][k - 1..] + [s[0]];
    assert s[..k] == [s[0]] + s[1..k];
  }

  lemma ConcatAssoc<T>(a: seq<T>, b: seq<T>, c: seq<T>)
    ensures (a + b) + c == a + (b + c)
  {
  }

  lemma {:induction false} RotateNShifts<T>(s: seq<T>, k: nat)
    requires k <= |s|
    decreases k
    ensures RotateN(s, k) == s[k..] + s[..k]
  {
    if k > 0 {
      var r := Rotate(s);
      assert RotateN(s, k) == RotateN(r, k - 1);
      RotateNShifts(r, k - 1);
      RotateSlices(s, k);
      ConcatAssoc(s[k..], [s[0]], s[1..k]);
    }
  }

  /** Round-robin: the heads seen by `|s|` successive polls are the members in their
      rotation order, and the rotation is then back where it started. */
  lemma RoundRobinVisitsAll<T>(s: seq<T>, k: nat)
    requires k < |s|
    ensures RotateN(s, k)[0] == s[k]
    ensures RotateN(s, |s|) == s
  {
    RotateNShifts(s, k);
    RotateNShifts(s, |s|);
  }
}
