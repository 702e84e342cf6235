/** PricePublisher.java: the periodic dispatcher. Each tick runs a pass over the fast
    rotation and then one over the slow rotation; a pass hands at most one price to
    each selected subscriber that is not already busy, and submits the delivery to
    a worker pool.

    The pools are modelled by their core sizes (constants) and by the active count
    `getActiveCount()` reports at the start of a pass (a parameter). `execute` appends
    the task to `pending`; the task body runs when `CompleteTask` is called. */
module Publisher {
  import opened Wrappers
  import opened Seqs
  import opened Price
  import opened RapidityResolver
  import opened Container

  datatype Lane = FastLane | SlowLane

  /** A delivery submitted to the pool of `lane`. */
  datatype Task = Task(lane: Lane, processor: Processor, price: PriorityPrice)

  /** A subscriber callback that ran: `processor.onPrice(ccyPair, rate)`. */
  datatype Delivery = Delivery(processor: Processor, ccyPair: string, rate: Rate)

  /** Why a pass stopped: it used up its iterations, the rotation was empty, the
      selected subscriber's queue was empty, or the selected subscriber had no queue
      at all (the Java throws NullPointerException there). */
  datatype PassEnd = Exhausted | NoProcessor | NoPrice | NoQueue

  /** What one pass reads and writes: the queues, the lane's rotation, the in-progress
      list and the submitted tasks. */
  datatype LaneState = LaneState(queues: map<Processor, seq<PriorityPrice>>, rotation: seq<Processor>,
                                 inProgress: seq<Processor>, pending: seq<Task>)

  function Processors(tasks: seq<Task>): (r: seq<Processor>)
    ensures |r| == |tasks| && forall k :: 0 <= k < |tasks| ==> r[k] == tasks[k].processor
  {
    seq(|tasks|, k requires 0 <= k < |tasks| => tasks[k].processor)
  }

  lemma ProcessorsRemoveAt(tasks: seq<Task>, i: nat)
    requires i < |tasks|
    ensures Processors(RemoveAt(tasks, i)) == RemoveAt(Processors(tasks), i)
  {
  }

  /** The number of loop iterations of a pass: `core - active` when positive, else the
      pass does nothing. */
  function FreeThreads(coreSize: int, activeCount: int): (n: nat)
    ensures n == 0 <==> coreSize - activeCount <= 0
    ensures n > 0 ==> n == coreSize - activeCount
  {
    if coreSize - activeCount > 0 then coreSize - activeCount else 0
  }

  /** One successful selection: poll the subscriber's queue, mark it in progress,
      submit the delivery. */
  function Dispatch(lane: Lane, s: LaneState, p: Processor): (r: LaneState)
    requires p in s.queues && s.queues[p] != []
    ensures r.queues.Keys == s.queues.Keys && r.rotation == s.rotation
    ensures forall x :: x in s.queues && x != p ==> r.queues[x] == s.queues[x]
    ensures r.inProgress == s.inProgress + [p]
    ensures |r.pending| == |s.pending| + 1 && r.pending[..|s.pending|] == s.pending
    ensures r.pending[|s.pending|].lane == lane && r.pending[|s.pending|].processor == p
    ensures multiset(r.queues[p]) + multiset{r.pending[|s.pending|].price} == multiset(s.queues[p])
    ensures forall x :: x in s.queues[p] ==> x.priority <= r.pending[|s.pending|].price.priority
  {
    var q := s.queues[p];
    var i := PollIndex(q);
    PollIndexHighest(q);
    RemoveAtMultiset(q, i);
    s.(queues := s.queues[p := RemoveAt(q, i)],
       inProgress := s.inProgress + [p],
       pending := s.pending + [Task(lane, p, q[i])])
  }

  /** The outcome of one loop iteration: the loop goes on from `state`, or the method
      returns `end` in `state`. */
  datatype StepResult = Next(state: LaneState) | Stop(state: LaneState, end: PassEnd)

  /** One iteration of the loop of `publishToFastSubscribers` / `publishToSlowSubscribers`:
      take the head of the rotation and put it back at the tail; a subscriber in
      progress is skipped, otherwise its queue is polled and the delivery submitted. */
  function Step(lane: Lane, s: LaneState): (r: StepResult)
    ensures r == Stop(s, NoProcessor) <==> s.rotation == []
    ensures s.rotation != [] ==> r.state.rotation == Rotate(s.rotation)
    ensures r.Stop? && r.end == NoQueue <==>
      s.rotation != [] && s.rotation[0] !in s.inProgress && s.rotation[0] !in s.queues
    ensures r.Stop? && r.end == NoPrice <==>
      s.rotation != [] && s.rotation[0] !in s.inProgress && s.rotation[0] in s.queues && s.queues[s.rotation[0]] == []
  {
    if s.rotation == [] then Stop(s, NoProcessor)
    else
      var p := s.rotation[0];
      var s1 := s.(rotation := Rotate(s.rotation));
      if p in s.inProgress then Next(s1)
      else if p !in s.queues then Stop(s1, NoQueue)
      else if s.queues[p] == [] then Stop(s1, NoPrice)
      else Next(Dispatch(lane, s1, p))
  }

  /** The loop run for `iterations` rounds or until it returns early. */
  function Pass(lane: Lane, s: LaneState, iterations: nat): (r: (LaneState, PassEnd))
    ensures |s.pending| <= |r.0.pending| <= |s.pending| + iterations
    decreases iterations, 0
  {
    if iterations == 0 then (s, Exhausted) else Resume(lane, Step(lane, s), iterations - 1)
  }

  /** After one iteration: go on for the remaining `iterations`, or stop. */
  function Resume(lane: Lane, r: StepResult, iterations: nat): (t: (LaneState, PassEnd))
    ensures |r.state.pending| <= |t.0.pending| <= |r.state.pending| + iterations
    decreases iterations, 1
  {
    if r.Next? then Pass(lane, r.state, iterations) else (r.state, r.end)
  }

  /** A pass only appends tasks: what was submitted before stays as it was. */
  lemma {:induction false} PassKeepsSubmitted(lane: Lane, s: LaneState, n: nat)
    ensures Pass(lane, s, n).0.pending[..|s.pending|] == s.pending
    decreases n
  {
    if n > 0 && Step(lane, s).Next? {
      var s' := Step(lane, s).state;
      assert Pass(lane, s, n) == Pass(lane, s', n - 1);
      var t := Pass(lane, s', n - 1).0;
      PassKeepsSubmitted(lane, s', n - 1);
      assert s'.pending[..|s.pending|] == s.pending;
      assert t.pending[..|s.pending|] == t.pending[..|s'.pending|][..|s.pending|];
    }
  }

  lemma ProcessorsAppend(tasks: seq<Task>, t: Task)
    ensures Processors(tasks + [t]) == Processors(tasks) + [t.processor]
  {
  }

  /** Every task a pass submits marks its subscriber in progress, so the in-progress
      list keeps naming exactly the subscribers of the submitted tasks. */
  lemma {:induction false} PassKeepsInProgressMatched(lane: Lane, s: LaneState, n: nat)
    requires multiset(s.inProgress) == multiset(Processors(s.pending))
    ensures var t := Pass(lane, s, n).0;
      multiset(t.inProgress) == multiset(Processors(t.pending))
    decreases n
  {
    if n > 0 && Step(lane, s).Next? {
      var s' := Step(lane, s).state;
      assert Pass(lane, s, n) == Pass(lane, s', n - 1);
      if s'.pending != s.pending {
        var p := s.rotation[0];
        var task := s'.pending[|s.pending|];
        assert s'.pending == s.pending + [task] && task.processor == p;
        assert s'.inProgress == s.inProgress + [p];
        ProcessorsAppend(s.pending, task);
      }
      PassKeepsInProgressMatched(lane, s', n - 1);
    }
  }

  /** Every subscriber in progress before `t` is still in progress in `t`. */
  ghost predicate KeepsMarks(s: LaneState, t: LaneState)
  {
    forall x :: x in s.inProgress ==> x in t.inProgress
  }

  /** A pass never clears an in-progress mark. */
  lemma {:induction false} PassKeepsInProgress(lane: Lane, s: LaneState, n: nat)
    ensures KeepsMarks(s, Pass(lane, s, n).0)
    decreases n
  {
    if n > 0 && Step(lane, s).Next? {
      var s' := Step(lane, s).state;
      assert Pass(lane, s, n) == Pass(lane, s', n - 1);
      assert KeepsMarks(s, s');
      PassKeepsInProgress(lane, s', n - 1);
    }
  }

  /** The tasks `t` adds to `s` are on `lane`, for subscribers of the rotation of `s`
      that were not in progress. */
  ghost predicate SubmitsIdle(lane: Lane, s: LaneState, t: LaneState)
  {
    && |s.pending| <= |t.pending|
    && forall k :: |s.pending| <= k < |t.pending| ==>
         && t.pending[k].lane == lane
         && t.pending[k].processor in s.rotation
         && t.pending[k].processor !in s.inProgress
  }

  /** The tasks a pass submits are on its lane, and for subscribers of its rotation
      that were not in progress. */
  lemma {:induction false} PassSubmitsIdle(lane: Lane, s: LaneState, n: nat)
    ensures SubmitsIdle(lane, s, Pass(lane, s, n).0)
    decreases n, 1
  {
    if n > 0 {
      var r := Step(lane, s);
      StepSubmitsIdle(lane, s);
      if r.Next? {
        StepFacts(lane, s);
        assert Pass(lane, s, n) == Pass(lane, r.state, n - 1);
        PassSubmitsIdleAfter(lane, s, r.state, n - 1);
      } else {
        assert Pass(lane, s, n).0 == r.state;
      }
    }
  }

  /** The rest of a pass, run from `s'` after a step from `s`, submits only tasks that
      are idle with respect to `s`. */
  lemma {:induction false} PassSubmitsIdleAfter(lane: Lane, s: LaneState, s': LaneState, n: nat)
    requires SubmitsIdle(lane, s, s') && KeepsMarks(s, s')
    requires forall x :: x in s'.rotation ==> x in s.rotation
    ensures SubmitsIdle(lane, s, Pass(lane, s', n).0)
    decreases n, 2
  {
    var t := Pass(lane, s', n).0;
    PassSubmitsIdle(lane, s', n);
    PassKeepsSubmitted(lane, s', n);
    SubmitsIdleChain(lane, s, s', t);
  }

  /** One iteration submits at most a task for the idle head of the rotation, and the
      rotation it leaves has no new member. */
  lemma StepSubmitsIdle(lane: Lane, s: LaneState)
    ensures SubmitsIdle(lane, s, Step(lane, s).state)
    ensures forall x :: x in Step(lane, s).state.rotation ==> x in s.rotation
  {
    StepShape(lane, s);
    RotateMembers(s.rotation);
  }

  /** Chaining: tasks of the second half serve members of a rotation that only lost
      members, and subscribers idle after the first half were idle before it. */
  lemma SubmitsIdleChain(lane: Lane, s: LaneState, s': LaneState, t: LaneState)
    requires SubmitsIdle(lane, s, s') && SubmitsIdle(lane, s', t)
    requires |s'.pending| <= |t.pending| && t.pending[..|s'.pending|] == s'.pending
    requires forall x :: x in s'.rotation ==> x in s.rotation
    requires KeepsMarks(s, s')
    ensures SubmitsIdle(lane, s, t)
  {
    forall k | |s.pending| <= k < |s'.pending|
      ensures t.pending[k].lane == lane && t.pending[k].processor in s.rotation
      ensures t.pending[k].processor !in s.inProgress
    {
      assert t.pending[k] == t.pending[..|s'.pending|][k] == s'.pending[k];
    }
  }

  /** Within a pass no subscriber is dispatched twice, so the in-progress list stays
      free of duplicates. */
  lemma {:induction false} PassKeepsInProgressUnique(lane: Lane, s: LaneState, n: nat)
    requires NoDup(s.inProgress)
    ensures NoDup(Pass(lane, s, n).0.inProgress)
    decreases n
  {
    if n > 0 && Step(lane, s).Next? {
      var s' := Step(lane, s).state;
      assert Pass(lane, s, n) == Pass(lane, s', n - 1);
      if s'.inProgress != s.inProgress {
        assert multiset(s'.inProgress) == multiset(s.inProgress) + multiset{s.rotation[0]};
      }
      PassKeepsInProgressUnique(lane, s', n - 1);
    }
  }

  /** One iteration turns the rotation once and neither adds nor removes a queue. */
  lemma StepShape(lane: Lane, s: LaneState)
    ensures Step(lane, s).state.rotation == Rotate(s.rotation)
    ensures Step(lane, s).state.queues.Keys == s.queues.Keys
  {
    if s.rotation != [] {
      var p := s.rotation[0];
      if p !in s.inProgress && p in s.queues && s.queues[p] != [] {
        var q := s.queues[p];
        var m := s.queues[p := RemoveAt(q, PollIndex(q))];
        assert m.Keys == s.queues.Keys;
      }
    }
  }

  /** A pass only moves its rotation round: after it the rotation is the one it found,
      polled and re-appended `k` times for some `k` no larger than the iterations.
      Queues are neither added nor removed. */
  lemma {:induction false} PassRotates(lane: Lane, s: LaneState, n: nat) returns (k: nat)
    ensures k <= n
    ensures Pass(lane, s, n).0.rotation == RotateN(s.rotation, k)
    ensures Pass(lane, s, n).0.queues.Keys == s.queues.Keys
    decreases n
  {
    if n == 0 {
      k := 0;
    } else {
      var r := Step(lane, s);
      StepShape(lane, s);
      if r.Next? {
        assert Pass(lane, s, n) == Pass(lane, r.state, n - 1);
        var k' := PassRotates(lane, r.state, n - 1);
        k := k' + 1;
      } else {
        assert Pass(lane, s, n) == (r.state, r.end);
        k := 1;
      }
    }
  }

  /** A pass keeps the members of its rotation, each as often as before. */
  lemma PassKeepsRotationMembers(lane: Lane, s: LaneState, n: nat)
    ensures multiset(Pass(lane, s, n).0.rotation) == multiset(s.rotation)
    ensures Pass(lane, s, n).0.queues.Keys == s.queues.Keys
  {
    var k := PassRotates(lane, s, n);
    RotateNMultiset(s.rotation, k);
  }

  /** `task` carries the price `poll` takes from its subscriber's queue in `before`,
      and in `after` that queue has lost exactly that entry. */
  ghost predicate Polled(task: Task, before: map<Processor, seq<PriorityPrice>>, after: map<Processor, seq<PriorityPrice>>)
  {
    var p := task.processor;
    && p in before && before[p] != []
    && task.price == before[p][PollIndex(before[p])]
    && p in after && after[p] == RemoveAt(before[p], PollIndex(before[p]))
  }

  /** Every task `t` adds to `s` was polled from the queues of `s`, leaving those of `t`. */
  ghost predicate PollsQueues(s: LaneState, t: LaneState)
  {
    && |s.pending| <= |t.pending|
    && forall k :: |s.pending| <= k < |t.pending| ==> Polled(t.pending[k], s.queues, t.queues)
  }

  /** Queues of subscribers not newly in progress in `t` are as in `s`. */
  ghost predicate LeavesOtherQueues(s: LaneState, t: LaneState)
  {
    forall p :: p in s.queues && (p in s.inProgress || p !in t.inProgress) ==>
      p in t.queues && t.queues[p] == s.queues[p]
  }

  /** What one iteration does, stated without the iteration itself: it keeps every
      in-progress mark, appends at most one task, whose subscriber it marks and whose
      price it polls, and leaves every other queue alone. */
  lemma StepFacts(lane: Lane, s: LaneState)
    ensures var s' := Step(lane, s).state;
      && KeepsMarks(s, s')
      && s'.queues.Keys == s.queues.Keys
      && LeavesOtherQueues(s, s')
      && PollsQueues(s, s')
      && |s.pending| <= |s'.pending| <= |s.pending| + 1
      && s'.pending[..|s.pending|] == s.pending
      && (forall k :: |s.pending| <= k < |s'.pending| ==> s'.pending[k].processor in s'.inProgress)
  {
    var s' := Step(lane, s).state;
    if s'.pending != s.pending {
      var p := s.rotation[0];
      assert s'.pending == s.pending + [s'.pending[|s.pending|]];
      assert Polled(s'.pending[|s.pending|], s.queues, s'.queues);
    }
  }

  /** Chaining: a subscriber left alone by both halves is left alone by the whole. */
  lemma LeavesOtherQueuesChain(s: LaneState, s': LaneState, t: LaneState)
    requires LeavesOtherQueues(s, s') && LeavesOtherQueues(s', t)
    requires KeepsMarks(s, s') && KeepsMarks(s', t)
    ensures LeavesOtherQueues(s, t)
  {
  }

  /** Chaining: the tasks of both halves were polled from the queues the whole began
      with, provided the second half only serves subscribers the first did not mark and
      leaves the first half's subscribers' queues alone. */
  lemma PollsQueuesChain(s: LaneState, s': LaneState, t: LaneState)
    requires PollsQueues(s, s') && PollsQueues(s', t)
    requires LeavesOtherQueues(s, s') && LeavesOtherQueues(s', t) && s'.queues.Keys == s.queues.Keys
    requires |s'.pending| <= |t.pending| && t.pending[..|s'.pending|] == s'.pending
    requires forall k :: |s.pending| <= k < |s'.pending| ==> s'.pending[k].processor in s'.inProgress
    requires forall k :: |s'.pending| <= k < |t.pending| ==> t.pending[k].processor !in s'.inProgress
    ensures PollsQueues(s, t)
  {
    forall k | |s.pending| <= k < |t.pending| ensures Polled(t.pending[k], s.queues, t.queues) {
      if k < |s'.pending| {
        assert t.pending[k] == t.pending[..|s'.pending|][k] == s'.pending[k];
        assert Polled(t.pending[k], s.queues, s'.queues);
      } else {
        assert Polled(t.pending[k], s'.queues, t.queues);
        assert t.pending[k].processor in s.queues;
      }
    }
  }

  /** The queue of a subscriber the pass did not newly mark in progress is unchanged. */
  lemma {:induction false} PassLeavesOtherQueues(lane: Lane, s: LaneState, n: nat)
    ensures LeavesOtherQueues(s, Pass(lane, s, n).0)
    decreases n
  {
    if n > 0 {
      var r := Step(lane, s);
      StepFacts(lane, s);
      if r.Next? {
        var t := Pass(lane, r.state, n - 1).0;
        assert Pass(lane, s, n) == Pass(lane, r.state, n - 1);
        PassLeavesOtherQueues(lane, r.state, n - 1);
        PassKeepsInProgress(lane, r.state, n - 1);
        LeavesOtherQueuesChain(s, r.state, t);
      } else {
        assert Pass(lane, s, n).0 == r.state;
      }
    }
  }

  /** Each submitted task carries the price `poll` returned from its subscriber's queue
      as the pass found it, and exactly that entry has left the queue. */
  lemma {:induction false} PassPollsQueues(lane: Lane, s: LaneState, n: nat)
    ensures PollsQueues(s, Pass(lane, s, n).0)
    decreases n
  {
    if n > 0 {
      var r := Step(lane, s);
      StepFacts(lane, s);
      if r.Next? {
        var t := Pass(lane, r.state, n - 1).0;
        assert Pass(lane, s, n) == Pass(lane, r.state, n - 1);
        PassPollsQueues(lane, r.state, n - 1);
        PassLeavesOtherQueues(lane, r.state, n - 1);
        PassKeepsSubmitted(lane, r.state, n - 1);
        PassSubmitsIdle(lane, r.state, n - 1);
        PollsQueuesChain(s, r.state, t);
      } else {
        assert Pass(lane, s, n).0 == r.state;
      }
    }
  }

  /** Each submitted task carries a highest-priority entry of its subscriber's queue. */
  lemma PassPollsHighest(lane: Lane, s: LaneState, n: nat, k: nat, j: nat)
    requires var t := Pass(lane, s, n).0;
      |s.pending| <= k < |t.pending| && t.pending[k].processor in s.queues &&
      j < |s.queues[t.pending[k].processor]|
    ensures var t := Pass(lane, s, n).0;
      s.queues[t.pending[k].processor][j].priority <= t.pending[k].price.priority
  {
    var t := Pass(lane, s, n).0;
    PassPollsQueues(lane, s, n);
    assert Polled(t.pending[k], s.queues, t.queues);
    PollIndexHighest(s.queues[t.pending[k].processor]);
  }

  /** A pass whose rotation holds only registered subscribers never meets a
      subscriber without a queue. */
  lemma {:induction false} PassSafeWhenRegistered(lane: Lane, s: LaneState, n: nat)
    requires forall p :: p in s.rotation ==> p in s.queues
    ensures Pass(lane, s, n).1 != NoQueue
    decreases n
  {
    if n > 0 && Step(lane, s).Next? {
      var s' := Step(lane, s).state;
      assert Pass(lane, s, n) == Pass(lane, s', n - 1);
      StepShape(lane, s);
      StepSubmitsIdle(lane, s);
      PassSafeWhenRegistered(lane, s', n - 1);
    }
  }

  /** A subscriber at the head of the rotation that is idle but has no queue stops the
      pass with the NullPointerException of `getNextPrice`. */
  lemma UnregisteredHeadFailsPass(lane: Lane, s: LaneState, n: nat)
    requires n > 0 && s.rotation != [] && s.rotation[0] !in s.inProgress && s.rotation[0] !in s.queues
    ensures Pass(lane, s, n).1 == NoQueue
  {
  }

  /** When the pool has no free thread the pass does nothing at all. */
  lemma NoFreeThreadsNoPass(lane: Lane, s: LaneState, coreSize: int, activeCount: int)
    requires coreSize - activeCount <= 0
    ensures Pass(lane, s, FreeThreads(coreSize, activeCount)) == (s, Exhausted)
  {
  }

  /** A pass with iterations left stops at once on an empty rotation, and stops after
      turning the rotation when the idle subscriber at its head has an empty queue. */
  lemma PassStopsEarly(lane: Lane, s: LaneState, n: nat)
    requires n > 0
    ensures s.rotation == [] ==> Pass(lane, s, n) == (s, NoProcessor)
    ensures s.rotation != [] && s.rotation[0] !in s.inProgress &&
            s.rotation[0] in s.queues && s.queues[s.rotation[0]] == [] ==>
      Pass(lane, s, n) == (s.(rotation := Rotate(s.rotation)), NoPrice)
  {
  }

  /** A subscriber still in progress is skipped, but the iteration is used up: if every
      subscriber in the rotation is busy, the pass submits nothing and merely turns the
      rotation `n` times. */
  lemma {:induction false} PassSkipsBusy(lane: Lane, s: LaneState, n: nat)
    requires s.rotation != []
    requires forall p :: p in s.rotation ==> p in s.inProgress
    ensures Pass(lane, s, n) == (s.(rotation := RotateN(s.rotation, n)), Exhausted)
    decreases n
  {
    if n > 0 {
      var s1 := s.(rotation := Rotate(s.rotation));
      assert s.rotation[0] in s.rotation;
      assert Step(lane, s) == Next(s1);
      assert Pass(lane, s, n) == Pass(lane, s1, n - 1);
      RotateMembers(s.rotation);
      PassSkipsBusy(lane, s1, n - 1);
    }
  }

  /** Every submitted slow-lane task belongs to a subscriber that is registered and
      still SLOW. Unsubscribing a subscriber whose slow delivery is in flight breaks
      this. */
  ghost predicate SlowTasksAreSlow(pending: seq<Task>, queues: map<Processor, seq<PriorityPrice>>,
                                   rapidity: map<Processor, Rapidity>)
  {
    forall k :: 0 <= k < |pending| && pending[k].lane == SlowLane ==>
      pending[k].processor in queues && pending[k].processor in rapidity &&
      rapidity[pending[k].processor] == Slow
  }

  /** Appending tasks keeps every slow delivery with a registered SLOW subscriber when
      the new ones are fast-lane tasks, or go to subscribers that are all registered
      and SLOW. */
  lemma SlowTasksStaySlow(s: LaneState, t: LaneState, lane: Lane, rapidity: map<Processor, Rapidity>)
    requires SlowTasksAreSlow(s.pending, s.queues, rapidity)
    requires t.queues.Keys == s.queues.Keys
    requires |s.pending| <= |t.pending| && t.pending[..|s.pending|] == s.pending
    requires forall k :: |s.pending| <= k < |t.pending| ==>
      t.pending[k].lane == lane && t.pending[k].processor in s.rotation
    requires lane == SlowLane ==>
      forall p :: p in s.rotation ==> p in s.queues && p in rapidity && rapidity[p] == Slow
    ensures SlowTasksAreSlow(t.pending, t.queues, rapidity)
  {
    forall k | 0 <= k < |t.pending| && t.pending[k].lane == SlowLane
      ensures t.pending[k].processor in t.queues && t.pending[k].processor in rapidity
      ensures rapidity[t.pending[k].processor] == Slow
    {
      if k < |s.pending| {
        assert t.pending[k] == t.pending[..|s.pending|][k] == s.pending[k];
      }
    }
  }

  /** A fast pass on a healthy registry cannot fail and leaves it healthy. */
  lemma FastPassKeepsHealthy(s: LaneState, rapidity: map<Processor, Rapidity>, slowRotation: seq<Processor>, n: nat)
    requires PartitionedBy(s.queues, rapidity, slowRotation, s.rotation)
    requires SlowTasksAreSlow(s.pending, s.queues, rapidity)
    ensures var r := Pass(FastLane, s, n);
      && r.1 != NoQueue
      && PartitionedBy(r.0.queues, rapidity, slowRotation, r.0.rotation)
      && SlowTasksAreSlow(r.0.pending, r.0.queues, rapidity)
  {
    var t := Pass(FastLane, s, n).0;
    PassSafeWhenRegistered(FastLane, s, n);
    PassKeepsRotationMembers(FastLane, s, n);
    PassKeepsSubmitted(FastLane, s, n);
    PassSubmitsIdle(FastLane, s, n);
    PartitionedByFrame(s.queues, t.queues, rapidity, slowRotation, slowRotation, s.rotation, t.rotation);
    SlowTasksStaySlow(s, t, FastLane, rapidity);
  }

  /** A slow pass on a healthy registry cannot fail and leaves it healthy: what it
      submits goes to subscribers of the slow rotation, which are SLOW. */
  lemma SlowPassKeepsHealthy(s: LaneState, rapidity: map<Processor, Rapidity>, fastRotation: seq<Processor>, n: nat)
    requires PartitionedBy(s.queues, rapidity, s.rotation, fastRotation)
    requires SlowTasksAreSlow(s.pending, s.queues, rapidity)
    ensures var r := Pass(SlowLane, s, n);
      && r.1 != NoQueue
      && PartitionedBy(r.0.queues, rapidity, r.0.rotation, fastRotation)
      && SlowTasksAreSlow(r.0.pending, r.0.queues, rapidity)
  {
    var t := Pass(SlowLane, s, n).0;
    PassSafeWhenRegistered(SlowLane, s, n);
    PassKeepsRotationMembers(SlowLane, s, n);
    PassKeepsSubmitted(SlowLane, s, n);
    PassSubmitsIdle(SlowLane, s, n);
    PartitionedByFrame(s.queues, t.queues, rapidity, s.rotation, t.rotation, fastRotation, fastRotation);
    forall p | p in s.rotation ensures p in s.queues && p in rapidity && rapidity[p] == Slow {
      assert multiset(s.rotation)[p] > 0;
    }
    SlowTasksStaySlow(s, t, SlowLane, rapidity);
  }

  class PricePublisher {
    const fastCoreSize: int
    const slowCoreSize: int
    const slowTaskLowerBoundInSeconds: int
    const container: PriceProcessorsContainer

    /** `inProgressProcessors`. */
    var inProgress: seq<Processor>
    /** Tasks handed to `execute` whose body has not run yet. */
    var pending: seq<Task>
    /** The subscriber callbacks that have run, oldest first. */
    var delivered: seq<Delivery>
    /** Set when a tick threw: `scheduleWithFixedDelay` then runs no further tick. */
    var halted: bool

    /** Queues stay coalesced, nobody is in progress twice, and the in-progress list
        names exactly the subscribers of the submitted tasks. */
    ghost predicate Valid()
      reads this, container
    {
      && container.Valid()
      && NoDup(inProgress)
      && multiset(inProgress) == multiset(Processors(pending))
    }

    /** The registry has its intended shape and every slow delivery in flight belongs
        to a registered SLOW subscriber. */
    ghost predicate Healthy()
      reads this, container
    {
      && container.Partitioned()
      && SlowTasksAreSlow(pending, container.queues, container.rapidity)
    }

    ghost function FastView(): LaneState
      reads this, container
    {
      LaneState(container.queues, container.fastRotation, inProgress, pending)
    }

    ghost function SlowView(): LaneState
      reads this, container
    {
      LaneState(container.queues, container.slowRotation, inProgress, pending)
    }

    constructor (slowCoreSize: int, fastCoreSize: int, slowTaskLowerBoundInSeconds: int,
                 container: PriceProcessorsContainer)
      requires container.Valid()
      ensures this.slowCoreSize == slowCoreSize && this.fastCoreSize == fastCoreSize
      ensures this.slowTaskLowerBoundInSeconds == slowTaskLowerBoundInSeconds
      ensures this.container == container
      ensures inProgress == [] && pending == [] && delivered == [] && !halted
      ensures Valid()
    {
      this.slowCoreSize := slowCoreSize;
      this.fastCoreSize := fastCoreSize;
      this.slowTaskLowerBoundInSeconds := slowTaskLowerBoundInSeconds;
      this.container := container;
      inProgress, pending, delivered, halted := [], [], [], false;
    }

    ghost function View(lane: Lane): LaneState
      reads this, container
    {
      if lane == FastLane then FastView() else SlowView()
    }

    /** One iteration of either pass's loop: take the next subscriber of the lane's
        rotation and, unless it is in progress, poll its queue and submit the delivery
        to the lane's pool. Returns the value the pass method returns, if it stops. */
    method Iterate(lane: Lane) returns (stop: Option<PassEnd>)
      requires Valid()
      modifies this, container
      ensures Step(lane, old(View(lane))) ==
        if stop.None? then Next(View(lane)) else Stop(View(lane), stop.value)
      ensures lane == FastLane ==> container.slowRotation == old(container.slowRotation)
      ensures lane == SlowLane ==> container.fastRotation == old(container.fastRotation)
      ensures container.rapidity == old(container.rapidity)
      ensures delivered == old(delivered) && halted == old(halted)
      ensures Valid()
    {
      ghost var s0 := View(lane);
      var next;
      if lane == FastLane {
        next := container.GetNextFastProcessor();
      } else {
        next := container.GetNextProcessor();
      }
      if next.None? {
        return Some(NoProcessor);
      }
      var p := next.value;
      ghost var s1 := s0.(rotation := Rotate(s0.rotation));
      assert View(lane) == s1;
      if p !in inProgress {
        if p !in container.queues {
          // getNextPrice dereferences a missing queue: NullPointerException.
          return Some(NoQueue);
        }
        var price := container.GetNextPrice(p);
        if price.None? {
          return Some(NoPrice);
        }
        ProcessorsAppend(pending, Task(lane, p, price.value));
        AppendNoDup(inProgress, p);
        inProgress := inProgress + [p];
        pending := pending + [Task(lane, p, price.value)];
        assert View(lane) == Dispatch(lane, s1, p);
      }
      return None;
    }

    /** `publishToFastSubscribers`, given the fast pool's active count. */
    method PublishToFastSubscribers(fastActiveCount: int) returns (end: PassEnd)
      requires Valid()
      modifies this, container
      ensures var (t, e) := Pass(FastLane, old(FastView()), FreeThreads(fastCoreSize, fastActiveCount));
        && end == e
        && container.queues == t.queues && container.fastRotation == t.rotation
        && inProgress == t.inProgress && pending == t.pending
      ensures container.slowRotation == old(container.slowRotation) && container.rapidity == old(container.rapidity)
      ensures delivered == old(delivered) && halted == old(halted)
      ensures Valid()
    {
      var freeThreads := fastCoreSize - fastActiveCount;
      if freeThreads > 0 {
        for i := 0 to freeThreads
          invariant Pass(FastLane, FastView(), freeThreads - i) ==
                    Pass(FastLane, old(FastView()), FreeThreads(fastCoreSize, fastActiveCount))
          invariant container.slowRotation == old(container.slowRotation)
          invariant container.rapidity == old(container.rapidity)
          invariant delivered == old(delivered) && halted == old(halted)
          invariant Valid()
        {
          var stop := Iterate(FastLane);
          if stop.Some? {
            return stop.value;
          }
        }
      }
      return Exhausted;
    }

    /** `publishToSlowSubscribers`, given the FAST pool's active count. The source
        computes the slow pass's free threads from the fast pool's core size and active
        count, not the slow pool's; this is a defect, kept here as written. */
    method PublishToSlowSubscribers(fastActiveCount: int) returns (end: PassEnd)
      requires Valid()
      modifies this, container
      ensures var (t, e) := Pass(SlowLane, old(SlowView()), FreeThreads(fastCoreSize, fastActiveCount));
        && end == e
        && container.queues == t.queues && container.slowRotation == t.rotation
        && inProgress == t.inProgress && pending == t.pending
      ensures container.fastRotation == old(container.fastRotation) && container.rapidity == old(container.rapidity)
      ensures delivered == old(delivered) && halted == old(halted)
      ensures Valid()
    {
      var freeThreads := fastCoreSize - fastActiveCount;
      if freeThreads > 0 {
        for i := 0 to freeThreads
          invariant Pass(SlowLane, SlowView(), freeThreads - i) ==
                    Pass(SlowLane, old(SlowView()), FreeThreads(fastCoreSize, fastActiveCount))
          invariant container.fastRotation == old(container.fastRotation)
          invariant container.rapidity == old(container.rapidity)
          invariant delivered == old(delivered) && halted == old(halted)
          invariant Valid()
        {
          var stop := Iterate(SlowLane);
          if stop.Some? {
            return stop.value;
          }
        }
      }
      return Exhausted;
    }

    /** One run of the scheduled task of `start`: the fast pass, then the slow pass.
        `getActiveCount()` of the fast pool is read once per pass. An exception in the
        fast pass skips the slow pass; either way the scheduler runs no later tick. */
    method Tick(fastActiveAtFastPass: int, fastActiveAtSlowPass: int)
      requires Valid()
      modifies this, container
      ensures old(halted) ==> unchanged(this) && unchanged(container)
      ensures !old(halted) ==>
        var (t1, e1) := Pass(FastLane, old(FastView()), FreeThreads(fastCoreSize, fastActiveAtFastPass));
        var mid := LaneState(t1.queues, old(container.slowRotation), t1.inProgress, t1.pending);
        var (t2, e2) := Pass(SlowLane, mid, FreeThreads(fastCoreSize, fastActiveAtSlowPass));
        && container.fastRotation == t1.rotation
        && container.rapidity == old(container.rapidity)
        && delivered == old(delivered)
        && (e1 == NoQueue ==>
              && halted
              && container.queues == t1.queues && container.slowRotation == old(container.slowRotation)
              && inProgress == t1.inProgress && pending == t1.pending)
        && (e1 != NoQueue ==>
              && halted == (e2 == NoQueue)
              && container.queues == t2.queues && container.slowRotation == t2.rotation
              && inProgress == t2.inProgress && pending == t2.pending)
      ensures Valid()
      ensures old(Healthy()) ==> Healthy() && halted == old(halted)
    {
      if halted {
        return;
      }
      if Healthy() {
        FastPassKeepsHealthy(FastView(), container.rapidity, container.slowRotation,
                             FreeThreads(fastCoreSize, fastActiveAtFastPass));
      }
      var fastEnd := PublishToFastSubscribers(fastActiveAtFastPass);
      if fastEnd == NoQueue {
        halted := true;
        return;
      }
      if Healthy() {
        SlowPassKeepsHealthy(SlowView(), container.rapidity, container.fastRotation,
                             FreeThreads(fastCoreSize, fastActiveAtSlowPass));
      }
      var slowEnd := PublishToSlowSubscribers(fastActiveAtSlowPass);
      if slowEnd == NoQueue {
        halted := true;
      }
    }

    /** The body of a submitted task, run to normal completion in `elapsedMillis`. The
        subscriber's callback runs exactly once. A slow-lane task is timed by the
        rapidity resolver and, if FAST, promotes its subscriber; then the in-progress
        mark is removed. (An exception from the callback would skip that removal: the
        task bodies have no `finally`. Exceptions are not modelled.) */
    method CompleteTask(i: nat, elapsedMillis: nat)
      requires i < |pending| && Valid()
      modifies this, container
      ensures var t := old(pending[i]);
        && pending == RemoveAt(old(pending), i)
        && delivered == old(delivered) + [Delivery(t.processor, t.price.ccyPair, t.price.rate)]
        && inProgress == RemoveFirst(old(inProgress), t.processor)
        && container.queues == old(container.queues)
        && if t.lane == SlowLane && Resolve(slowTaskLowerBoundInSeconds, elapsedMillis) == Fast then
             && container.slowRotation == RemoveFirst(old(container.slowRotation), t.processor)
             && container.rapidity == old(container.rapidity)[t.processor := Fast]
             && container.fastRotation == old(container.fastRotation) + [t.processor]
           else
             && container.slowRotation == old(container.slowRotation)
             && container.rapidity == old(container.rapidity)
             && container.fastRotation == old(container.fastRotation)
      ensures halted == old(halted)
      ensures Valid()
      ensures old(Healthy()) ==> Healthy()
    {
      var task := pending[i];
      if Healthy() {
        CompletionKeepsSlowTasks(pending, container.queues, container.rapidity, i);
      }
      CompletionKeepsMatched(inProgress, pending, i);
      delivered := delivered + [Delivery(task.processor, task.price.ccyPair, task.price.rate)];
      if task.lane == SlowLane {
        var rapidity := Resolve(slowTaskLowerBoundInSeconds, elapsedMillis);
        if rapidity == Fast {
          container.MarkProcessorAsFast(task.processor);
        }
      }
      pending := RemoveAt(pending, i);
      inProgress := RemoveFirst(inProgress, task.processor);
    }
  }

  /** Finishing task `i` removes its subscriber's in-progress mark: the in-progress list
      stays free of duplicates and keeps naming the subscribers of the remaining tasks. */
  lemma CompletionKeepsMatched(inProgress: seq<Processor>, pending: seq<Task>, i: nat)
    requires i < |pending|
    requires NoDup(inProgress) && multiset(inProgress) == multiset(Processors(pending))
    ensures NoDup(RemoveFirst(inProgress, pending[i].processor))
    ensures multiset(RemoveFirst(inProgress, pending[i].processor)) == multiset(Processors(RemoveAt(pending, i)))
  {
    var p := pending[i].processor;
    RemoveFirstMultiset(inProgress, p);
    RemoveFirstNoDup(inProgress, p);
    ProcessorsRemoveAt(pending, i);
    RemoveAtMultiset(Processors(pending), i);
  }

  /** When a subscriber has one task in flight, the other tasks are for other subscribers. */
  lemma OnlyTaskOfItsSubscriber(pending: seq<Task>, i: nat)
    requires i < |pending| && multiset(Processors(pending))[pending[i].processor] <= 1
    ensures forall k :: 0 <= k < |pending| && k != i ==> pending[k].processor != pending[i].processor
  {
    forall k | 0 <= k < |pending| && k != i ensures pending[k].processor != pending[i].processor {
      if pending[k].processor == pending[i].processor {
        TwoIndicesCount(Processors(pending), k, i);
      }
    }
  }

  /** Finishing a task of a healthy publisher keeps every remaining slow delivery with a
      registered SLOW subscriber, whether or not the finished task's subscriber is then
      promoted: it has no other task in flight. */
  lemma CompletionKeepsSlowTasks(pending: seq<Task>, queues: map<Processor, seq<PriorityPrice>>,
                                 rapidity: map<Processor, Rapidity>, i: nat)
    requires i < |pending| && multiset(Processors(pending))[pending[i].processor] <= 1
    requires SlowTasksAreSlow(pending, queues, rapidity)
    ensures SlowTasksAreSlow(RemoveAt(pending, i), queues, rapidity)
    ensures SlowTasksAreSlow(RemoveAt(pending, i), queues, rapidity[pending[i].processor := Fast])
  {
    OnlyTaskOfItsSubscriber(pending, i);
    var rest := RemoveAt(pending, i);
    forall k | 0 <= k < |rest| ensures rest[k] == pending[if k < i then k else k + 1] {
    }
  }

  /** Two distinct positions holding the same value make it occur at least twice. */
  lemma TwoIndicesCount<T>(s: seq<T>, a: nat, b: nat)
    requires a < |s| && b < |s| && a != b && s[a] == s[b]
    ensures multiset(s)[s[a]] >= 2
  {
    var lo, hi := if a < b then a else b, if a < b then b else a;
    assert s == s[..lo] + [s[lo]] + s[lo + 1..hi] + [s[hi]] + s[hi + 1..];
  }
}
