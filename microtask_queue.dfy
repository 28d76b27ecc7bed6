/**
 * The microtask queue of the JavaScript integration
 * (js_integration/src/microtask_queue.rs): tasks are enqueued at the back
 * with increasing ids and processed from the front, under a per-tick limit
 * on the number of tasks run and a time limit, with counters kept in a
 * metrics record.
 *
 * A task's JavaScript callback is reduced to whether it is callable, the
 * only thing processing inspects. The clock is an input: `timeoutAt` is the
 * number of tasks popped in a tick before the elapsed-time check first
 * fails (`None` when it never does).
 */
module Microtasks {
  import opened Wrappers

  /** `Microtask`: its id, whether its callback is callable, and its source label. */
  datatype Microtask = Microtask(id: nat, callable: bool, source: Option<string>)

  datatype MicrotaskError =
    | ExecutionError(message: string)
    | QueueOverflow(processed: nat)
    | Timeout

  /** The counters of `MicrotaskMetrics`; the durations are not modelled. */
  datatype Metrics = Metrics(
    totalProcessed: nat,
    maxQueueDepth: nat,
    lastTickCount: nat,
    overflowCount: nat,
    totalEnqueued: nat,
    batchCount: nat,
    starvationCount: nat)

  /** `MicrotaskMetrics::default()`. */
  const ZeroMetrics := Metrics(0, 0, 0, 0, 0, 0, 0)

  /** The limit `MicrotaskQueue::new` sets on tasks run per tick. */
  const DefaultMaxPerTick: nat := 100_000

  /** A tick that runs more tasks than this counts as starvation. */
  const StarvationThreshold: nat := 100

  /** The queue's state: pending tasks, the next id and the metrics. */
  datatype QueueState = QueueState(queue: seq<Microtask>, nextId: nat, metrics: Metrics)

  /** `MicrotaskQueue::new` and `with_limits`: no tasks, ids from 1, zero metrics. */
  const InitialState := QueueState([], 1, ZeroMetrics)

  /** Pending ids strictly increase from front to back and are all below the next id, which is at least 1. */
  predicate Valid(s: QueueState) {
    && s.nextId >= 1
    && (forall i :: 0 <= i < |s.queue| ==> s.queue[i].id < s.nextId)
    && (forall i, j :: 0 <= i < j < |s.queue| ==> s.queue[i].id < s.queue[j].id)
  }

  // ---------------------------------------------------------------------
  // Enqueue
  // ---------------------------------------------------------------------

  function Max(a: nat, b: nat): nat { if a >= b then a else b }

  /** `enqueue_microtask`: the microtask gets the next id and goes to the back. */
  function Enqueue(s: QueueState, callable: bool, source: Option<string>): (QueueState, nat) {
    var q := s.queue + [Microtask(s.nextId, callable, source)];
    (QueueState(q, s.nextId + 1,
       s.metrics.(maxQueueDepth := Max(s.metrics.maxQueueDepth, |q|),
                  totalEnqueued := s.metrics.totalEnqueued + 1)),
     s.nextId)
  }

  /**
   * Enqueueing returns the current next id and advances it, appends the
   * task at the back, counts it, keeps the maximum depth at least the new
   * length, and keeps the pending ids increasing.
   */
  lemma EnqueueAppends(s: QueueState, callable: bool, source: Option<string>)
    requires Valid(s)
    ensures var (t, id) := Enqueue(s, callable, source);
            && id == s.nextId && t.nextId == id + 1
            && t.queue[..|s.queue|] == s.queue && |t.queue| == |s.queue| + 1
            && t.queue[|s.queue|] == Microtask(id, callable, source)
            && t.metrics.totalEnqueued == s.metrics.totalEnqueued + 1
            && t.metrics.maxQueueDepth >= |t.queue|
            && t.metrics.maxQueueDepth >= s.metrics.maxQueueDepth
            && Valid(t)
  {
  }

  /** Each id handed out is larger than every id handed out before it. */
  lemma {:induction false} EnqueueIdsIncrease(s: QueueState, c1: bool, s1: Option<string>, c2: bool, s2: Option<string>)
    ensures var (t, id1) := Enqueue(s, c1, s1);
            var (u, id2) := Enqueue(t, c2, s2);
            id1 < id2 && u.queue[|u.queue| - 2].id == id1 && u.queue[|u.queue| - 1].id == id2
  {
  }

  // ---------------------------------------------------------------------
  // Processing
  // ---------------------------------------------------------------------

  /** `execute_microtask`: fails for a callback that is not callable. */
  function Execute(t: Microtask): (r: Result<(), MicrotaskError>)
    ensures r.Ok? <==> t.callable
  {
    if !t.callable then Err(ExecutionError("Microtask callback is not callable")) else Ok(())
  }

  /** How a tick of processing ended. */
  datatype Outcome =
    | Finished(count: nat, ran: seq<nat>)
    | Overflowed(count: nat, remaining: seq<Microtask>)
    | TimedOut(remaining: seq<Microtask>)

  /**
   * The loop of `process_microtasks` from the point where `processed`
   * tasks ran among the `popped` taken so far and `ran` lists their ids:
   * pop the front task; stop with an overflow if the count already reached
   * the limit, then with a timeout if the time is up, dropping the popped
   * task either way; otherwise execute it, counting it only if it ran.
   */
  function Drain(q: seq<Microtask>, processed: nat, popped: nat, ran: seq<nat>, maxPerTick: nat, timeoutAt: Option<nat>): Outcome
    decreases |q|
  {
    if q == [] then Finished(processed, ran)
    else if processed >= maxPerTick then Overflowed(processed, q[1..])
    else if timeoutAt.Some? && popped >= timeoutAt.value then TimedOut(q[1..])
    else if Execute(q[0]).Ok? then Drain(q[1..], processed + 1, popped + 1, ran + [q[0].id], maxPerTick, timeoutAt)
    else Drain(q[1..], processed, popped + 1, ran, maxPerTick, timeoutAt)
  }

  /** The number of callable tasks. */
  function CountCallable(q: seq<Microtask>): (n: nat)
    ensures n <= |q|
  {
    if q == [] then 0 else (if q[0].callable then 1 else 0) + CountCallable(q[1..])
  }

  /** The ids of the callable tasks, front to back. */
  function CallableIds(q: seq<Microtask>): (ids: seq<nat>)
    ensures |ids| == CountCallable(q)
  {
    if q == [] then [] else (if q[0].callable then [q[0].id] else []) + CallableIds(q[1..])
  }

  /**
   * A tick that finishes has run exactly the callable tasks, front to
   * back: it counts them and lists their ids in queue order; the tasks
   * that are not callable are dropped uncounted.
   */
  lemma {:induction false} DrainFinishedRunsCallable(q: seq<Microtask>, processed: nat, popped: nat, ran: seq<nat>, maxPerTick: nat, timeoutAt: Option<nat>)
    ensures var o := Drain(q, processed, popped, ran, maxPerTick, timeoutAt);
            o.Finished? ==> o.count == processed + CountCallable(q) && o.ran == ran + CallableIds(q)
    decreases |q|
  {
    if q != [] && processed < maxPerTick && !(timeoutAt.Some? && popped >= timeoutAt.value) {
      if q[0].callable {
        DrainFinishedRunsCallable(q[1..], processed + 1, popped + 1, ran + [q[0].id], maxPerTick, timeoutAt);
        assert ran + [q[0].id] + CallableIds(q[1..]) == ran + ([q[0].id] + CallableIds(q[1..]));
      } else {
        DrainFinishedRunsCallable(q[1..], processed, popped + 1, ran, maxPerTick, timeoutAt);
        assert [] + CallableIds(q[1..]) == CallableIds(q[1..]);
      }
    }
  }

  /**
   * A tick that stops early has dropped the microtask it popped last and leaves
   * the tasks behind it queued: what remains is a proper suffix. An
   * overflow happens only once the count has reached the limit, so its
   * count is the limit.
   */
  lemma {:induction false} DrainStopsLeavingSuffix(q: seq<Microtask>, processed: nat, popped: nat, ran: seq<nat>, maxPerTick: nat, timeoutAt: Option<nat>)
    requires processed <= maxPerTick
    ensures var o := Drain(q, processed, popped, ran, maxPerTick, timeoutAt);
            && (o.Overflowed? ==> o.count == maxPerTick && |o.remaining| < |q| && o.remaining == q[|q| - |o.remaining|..])
            && (o.TimedOut? ==> |o.remaining| < |q| && o.remaining == q[|q| - |o.remaining|..])
    decreases |q|
  {
    if q != [] && processed < maxPerTick && !(timeoutAt.Some? && popped >= timeoutAt.value) {
      var next := if q[0].callable then processed + 1 else processed;
      var ran' := if q[0].callable then ran + [q[0].id] else ran;
      DrainStopsLeavingSuffix(q[1..], next, popped + 1, ran', maxPerTick, timeoutAt);
      var o := Drain(q[1..], next, popped + 1, ran', maxPerTick, timeoutAt);
      if o.Overflowed? || o.TimedOut? {
        assert q[1..][|q| - 1 - |o.remaining|..] == q[|q| - |o.remaining|..];
      }
    }
  }

  /**
   * Without a time limit, a tick finishes whenever the tasks before the
   * last one hold fewer callable tasks than the limit.
   */
  lemma {:induction false} DrainFinishesUnderLimit(q: seq<Microtask>, processed: nat, popped: nat, ran: seq<nat>, maxPerTick: nat)
    requires q == [] || processed + CountCallable(q[..|q| - 1]) < maxPerTick
    ensures Drain(q, processed, popped, ran, maxPerTick, None).Finished?
    decreases |q|
  {
    if |q| == 1 {
      assert q[1..] == [];
    } else if q != [] {
      assert CountCallable(q[..|q| - 1]) == (if q[0].callable then 1 else 0) + CountCallable(q[1..][..|q| - 2]) by {
        assert q[..|q| - 1][0] == q[0];
        assert q[..|q| - 1][1..] == q[1..][..|q| - 2];
      }
      var next := if q[0].callable then processed + 1 else processed;
      var ran' := if q[0].callable then ran + [q[0].id] else ran;
      DrainFinishesUnderLimit(q[1..], next, popped + 1, ran', maxPerTick);
    }
  }

  /** Every id of a callable task is an id of the list. */
  lemma {:induction false} CallableIdsAbove(q: seq<Microtask>, bound: nat)
    requires forall i :: 0 <= i < |q| ==> q[i].id > bound
    ensures forall k :: 0 <= k < |CallableIds(q)| ==> CallableIds(q)[k] > bound
    decreases |q|
  {
    if q != [] {
      CallableIdsAbove(q[1..], bound);
    }
  }

  /** The ids of callable tasks inherit the queue's increasing order. */
  lemma {:induction false} CallableIdsIncrease(q: seq<Microtask>)
    requires forall i, j :: 0 <= i < j < |q| ==> q[i].id < q[j].id
    ensures forall i, j :: 0 <= i < j < |CallableIds(q)| ==> CallableIds(q)[i] < CallableIds(q)[j]
    decreases |q|
  {
    if q != [] {
      var rest := q[1..];
      assert forall i :: 0 <= i < |rest| ==> rest[i] == q[i + 1];
      CallableIdsIncrease(rest);
      CallableIdsAbove(rest, q[0].id);
    }
  }

  /** When every task is callable, all of them run, in queue order. */
  lemma {:induction false} AllCallableRun(q: seq<Microtask>)
    requires forall i :: 0 <= i < |q| ==> q[i].callable
    ensures CountCallable(q) == |q|
    ensures CallableIds(q) == seq(|q|, i requires 0 <= i < |q| => q[i].id)
    decreases |q|
  {
    if q != [] {
      AllCallableRun(q[1..]);
    }
  }

  /**
   * `process_microtasks`: on finishing, the queue is empty and the count is
   * added to the totals; on overflow only the overflow counter moves and
   * the tasks behind the dropped one stay queued; on timeout nothing but the
   * queue changes.
   */
  function Process(s: QueueState, maxPerTick: nat, timeoutAt: Option<nat>): (QueueState, Result<nat, MicrotaskError>) {
    match Drain(s.queue, 0, 0, [], maxPerTick, timeoutAt)
    case Finished(c, _) =>
      (s.(queue := [],
          metrics := s.metrics.(totalProcessed := s.metrics.totalProcessed + c,
                                lastTickCount := c,
                                batchCount := s.metrics.batchCount + 1,
                                starvationCount := s.metrics.starvationCount + (if c > StarvationThreshold then 1 else 0))),
       Ok(c))
    case Overflowed(c, rest) =>
      (s.(queue := rest, metrics := s.metrics.(overflowCount := s.metrics.overflowCount + 1)), Err(QueueOverflow(c)))
    case TimedOut(rest) =>
      (s.(queue := rest), Err(Timeout))
  }

  /**
   * A tick that succeeds empties the queue and returns the number of
   * callable tasks; it adds that number to the processed total, records it
   * as the last tick's count, counts one more batch, and counts a
   * starvation exactly when the number exceeds 100. The tasks it ran, in
   * order, have increasing ids. The enqueue counters and the next id are
   * unchanged.
   */
  lemma ProcessOk(s: QueueState, maxPerTick: nat, timeoutAt: Option<nat>)
    requires Valid(s)
    ensures var (t, r) := Process(s, maxPerTick, timeoutAt);
            r.Ok? ==>
              && t.queue == [] && r.value == CountCallable(s.queue) && r.value <= maxPerTick
              && t.metrics.totalProcessed == s.metrics.totalProcessed + r.value
              && t.metrics.lastTickCount == r.value
              && t.metrics.batchCount == s.metrics.batchCount + 1
              && (t.metrics.starvationCount == s.metrics.starvationCount + 1 <==> r.value > 100)
              && (t.metrics.starvationCount == s.metrics.starvationCount <==> r.value <= 100)
              && t.metrics.totalEnqueued == s.metrics.totalEnqueued && t.nextId == s.nextId
              && t.metrics.overflowCount == s.metrics.overflowCount
  {
    DrainFinishedRunsCallable(s.queue, 0, 0, [], maxPerTick, timeoutAt);
    DrainCountBounded(s.queue, 0, 0, [], maxPerTick, timeoutAt);
  }

  /** A finished tick never counts more tasks than the limit. */
  lemma {:induction false} DrainCountBounded(q: seq<Microtask>, processed: nat, popped: nat, ran: seq<nat>, maxPerTick: nat, timeoutAt: Option<nat>)
    requires processed <= maxPerTick
    ensures var o := Drain(q, processed, popped, ran, maxPerTick, timeoutAt);
            o.Finished? ==> o.count <= maxPerTick
    decreases |q|
  {
    if q != [] && processed < maxPerTick && !(timeoutAt.Some? && popped >= timeoutAt.value) {
      var next := if q[0].callable then processed + 1 else processed;
      var ran' := if q[0].callable then ran + [q[0].id] else ran;
      DrainCountBounded(q[1..], next, popped + 1, ran', maxPerTick, timeoutAt);
    }
  }

  /**
   * A tick that fails leaves a proper suffix of the queue: the popped task
   * is lost and the later ones wait. An overflow reports the limit as its
   * count and moves only the overflow counter; a timeout moves no counter.
   */
  lemma ProcessErr(s: QueueState, maxPerTick: nat, timeoutAt: Option<nat>)
    ensures var (t, r) := Process(s, maxPerTick, timeoutAt);
            r.Err? ==>
              && |t.queue| < |s.queue| && t.queue == s.queue[|s.queue| - |t.queue|..]
              && t.nextId == s.nextId
              && (r.error.QueueOverflow? ==>
                    r.error.processed == maxPerTick && t.metrics == s.metrics.(overflowCount := s.metrics.overflowCount + 1))
              && (r.error.Timeout? ==> t.metrics == s.metrics)
              && !r.error.ExecutionError?
  {
    DrainStopsLeavingSuffix(s.queue, 0, 0, [], maxPerTick, timeoutAt);
  }

  /**
   * With no time limit and fewer callable tasks than the limit ahead of the
   * last one, a tick succeeds and runs the callable tasks in queue order,
   * which is the order of their ids.
   */
  lemma ProcessRunsInOrder(s: QueueState, maxPerTick: nat)
    requires Valid(s)
    requires s.queue == [] || CountCallable(s.queue[..|s.queue| - 1]) < maxPerTick
    ensures Drain(s.queue, 0, 0, [], maxPerTick, None) == Finished(CountCallable(s.queue), CallableIds(s.queue))
    ensures Process(s, maxPerTick, None).1 == Ok(CountCallable(s.queue))
    ensures forall i, j :: 0 <= i < j < |CallableIds(s.queue)| ==> CallableIds(s.queue)[i] < CallableIds(s.queue)[j]
  {
    DrainFinishesUnderLimit(s.queue, 0, 0, [], maxPerTick);
    DrainFinishedRunsCallable(s.queue, 0, 0, [], maxPerTick, None);
    CallableIdsIncrease(s.queue);
  }

  /** Processing keeps the pending ids increasing and below the next id. */
  lemma ProcessKeepsValid(s: QueueState, maxPerTick: nat, timeoutAt: Option<nat>)
    requires Valid(s)
    ensures Valid(Process(s, maxPerTick, timeoutAt).0)
  {
    var t := Process(s, maxPerTick, timeoutAt).0;
    ProcessErr(s, maxPerTick, timeoutAt);
    if t.queue != [] {
      var k := |s.queue| - |t.queue|;
      assert forall i :: 0 <= i < |t.queue| ==> t.queue[i] == s.queue[k + i];
    }
  }

  /** `clear`: the queue is emptied; the metrics and the next id stay. */
  function Cleared(s: QueueState): (t: QueueState)
    ensures Valid(s) ==> Valid(t)
  {
    s.(queue := [])
  }

  // ---------------------------------------------------------------------
  // The queue object
  // ---------------------------------------------------------------------

  class MicrotaskQueue {
    var queue: seq<Microtask>
    var nextId: nat
    var metrics: Metrics
    /** The most tasks one tick may run. */
    const maxPerTick: nat

    function State(): QueueState
      reads this
    {
      QueueState(queue, nextId, metrics)
    }

    /** `MicrotaskQueue::new`. */
    constructor ()
      ensures State() == InitialState && maxPerTick == DefaultMaxPerTick
    {
      queue := [];
      nextId := 1;
      metrics := ZeroMetrics;
      maxPerTick := DefaultMaxPerTick;
    }

    /** `MicrotaskQueue::with_limits`; the time limit is the `timeoutAt` input of processing. */
    constructor WithLimits(limit: nat)
      ensures State() == InitialState && maxPerTick == limit
    {
      queue := [];
      nextId := 1;
      metrics := ZeroMetrics;
      maxPerTick := limit;
    }

    method EnqueueMicrotask(callable: bool, source: Option<string>) returns (id: nat)
      modifies this
      ensures (State(), id) == Enqueue(old(State()), callable, source)
    {
      id := nextId;
      nextId := nextId + 1;
      queue := queue + [Microtask(id, callable, source)];
      metrics := metrics.(maxQueueDepth := Max(metrics.maxQueueDepth, |queue|));
      metrics := metrics.(totalEnqueued := metrics.totalEnqueued + 1);
    }

    /** `process_microtasks`: the pop loop, then the metrics. */
    method ProcessMicrotasks(timeoutAt: Option<nat>) returns (r: Result<nat, MicrotaskError>)
      modifies this
      ensures (State(), r) == Process(old(State()), maxPerTick, timeoutAt)
    {
      var processed := 0;
      var popped := 0;
      ghost var ran: seq<nat> := [];
      while queue != []
        invariant nextId == old(nextId) && metrics == old(metrics)
        invariant Drain(old(queue), 0, 0, [], maxPerTick, timeoutAt) == Drain(queue, processed, popped, ran, maxPerTick, timeoutAt)
        decreases |queue|
      {
        var task := queue[0];
        queue := queue[1..];
        if processed >= maxPerTick {
          metrics := metrics.(overflowCount := metrics.overflowCount + 1);
          return Err(QueueOverflow(processed));
        }
        if timeoutAt.Some? && popped >= timeoutAt.value {
          return Err(Timeout);
        }
        var executed := Execute(task);
        if executed.Ok? {
          processed := processed + 1;
          ran := ran + [task.id];
        }
        popped := popped + 1;
      }
      metrics := metrics.(totalProcessed := metrics.totalProcessed + processed);
      metrics := metrics.(lastTickCount := processed);
      metrics := metrics.(batchCount := metrics.batchCount + 1);
      if processed > StarvationThreshold {
        metrics := metrics.(starvationCount := metrics.starvationCount + 1);
      }
      r := Ok(processed);
    }

    /** `queue_depth`. */
    function QueueDepth(): (n: nat)
      reads this
      ensures n == |queue|
    {
      |queue|
    }

    /** `is_empty`. */
    predicate IsEmpty()
      reads this
      ensures IsEmpty() <==> QueueDepth() == 0
    {
      queue == []
    }

    /** `get_metrics`. */
    function GetMetrics(): (m: Metrics)
      reads this
      ensures m == metrics
    {
      metrics
    }

    /** `reset_metrics`. */
    method ResetMetrics()
      modifies this
      ensures State() == old(State()).(metrics := ZeroMetrics)
    {
      metrics := ZeroMetrics;
    }

    method Clear()
      modifies this
      ensures State() == Cleared(old(State()))
    {
      queue := [];
    }
  }

  /**
   * The crate's metrics example: five callable tasks enqueued on a new
   * queue are all processed in one tick, with ids 1 to 5 in order.
   */
  lemma FiveTasks(src: Option<string>)
    ensures var s1 := Enqueue(InitialState, true, src).0;
            var s2 := Enqueue(s1, true, src).0;
            var s3 := Enqueue(s2, true, src).0;
            var s4 := Enqueue(s3, true, src).0;
            var s5 := Enqueue(s4, true, src).0;
            var (t, r) := Process(s5, DefaultMaxPerTick, None);
            r == Ok(5) && t.queue == [] && t.metrics.totalProcessed == 5 && t.metrics.lastTickCount == 5
            && CallableIds(s5.queue) == [1, 2, 3, 4, 5]
  {
    var s1 := Enqueue(InitialState, true, src).0;
    var s2 := Enqueue(s1, true, src).0;
    var s3 := Enqueue(s2, true, src).0;
    var s4 := Enqueue(s3, true, src).0;
    var s5 := Enqueue(s4, true, src).0;
    EnqueueAppends(InitialState, true, src);
    EnqueueAppends(s1, true, src);
    EnqueueAppends(s2, true, src);
    EnqueueAppends(s3, true, src);
    EnqueueAppends(s4, true, src);
    assert s5.queue == [Microtask(1, true, src), Microtask(2, true, src), Microtask(3, true, src), Microtask(4, true, src), Microtask(5, true, src)];
    AllCallableRun(s5.queue);
    ProcessRunsInOrder(s5, DefaultMaxPerTick);
    ProcessOk(s5, DefaultMaxPerTick, None);
  }
}
