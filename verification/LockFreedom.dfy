/**
 * The queue of benchmark/concurrent_queue.h is lock-free: while no operation returns, the threads in it can together
 * make only a bounded number of steps, plus a fixed number for each spurious failure of a weak compare-and-swap.
 */
module LockFreedom {
  import opened QueueModel
  import opened QueueInvariant
  import opened Linearisable

  const LONGEST: nat := 10

  /**
   * How many own steps a thread is away from returning or changing the chain or the tail, if nothing else changes them;
   * the start of an operation is one more step than any operation needs.
   */
  function Rank<V>(q: Queue<V>, l: Local<V>): (r: nat)
    ensures r <= LONGEST
  {
    match l
    case Idle => LONGEST
    case Crashed => 0
    case LoadTail(_) => 4
    case LoadTailNext(_, tail) => if tail == q.tail then 3 else 6
    case RecheckTail(_, tail, next) => if tail != q.tail then 5 else if next == q.NextOf(tail) then 2 else 6
    case Link(_, tail) => if q.NextOf(tail).Null? then 1 else 5
    case SwingTail(_, _) => 1
    case HelpEnqueue(_, tail, _) => if tail == q.tail then 1 else 5
    case LoadHead => 6
    case LoadTailToo(head) => if head == q.head then 5 else 9
    case LoadHeadNext(head, tail) => if head != q.head then 8 else if head == tail != q.tail then 9 else 4
    case RecheckHead(head, tail, next) =>
      if head != q.head then 7 else if head == tail != q.tail && next.At? then 8 else 3
    case HelpDequeue(tail, _) => if tail == q.tail then 1 else 7
    case ReadValue(head, _) => if head == q.head then 2 else 8
    case SwingHead(head, _, _) => if head == q.head then 1 else 7
  }

  // ----- the total work left -----

  ghost function RankSum<V>(q: Queue<V>, ts: set<nat>): nat
    decreases |ts|
  {
    if ts == {} then 0
    else
      var t :| t in ts;
      Rank(q, q.Of(t)) + RankSum(q, ts - {t})
  }

  /** Who of `ts` has a node to link, or may still make one without returning first. */
  predicate Linker<V>(l: Local<V>) {
    Owns(l) || l.Idle?
  }

  ghost function Linkers<V>(q: Queue<V>, ts: set<nat>): set<nat> {
    set t | t in ts && Linker(q.Of(t))
  }

  /**
    How many more links and moves of the tail `ts` can make: two for each of its linkers, and one for a lagging tail.
   */
  ghost function Changes<V>(q: Queue<V>, a: Track, ts: set<nat>): int {
    2 * |Linkers(q, ts)| + |a.chain| - 1 - a.t
  }

  ghost function Work<V>(q: Queue<V>, a: Track, ts: set<nat>): int {
    RankSum(q, ts) + (LONGEST * |ts| + 1) * Changes(q, a, ts)
  }

  lemma {:induction false} RankSumWithout<V>(q: Queue<V>, ts: set<nat>, t: nat)
    requires t in ts
    ensures RankSum(q, ts) == Rank(q, q.Of(t)) + RankSum(q, ts - {t})
    decreases |ts|
  {
    hide Rank;
    var u :| u in ts && RankSum(q, ts) == Rank(q, q.Of(u)) + RankSum(q, ts - {u});
    if u != t {
      RankSumWithout(q, ts - {u}, t);
      RankSumWithout(q, ts - {t}, u);
      assert ts - {u} - {t} == ts - {t} - {u};
    }
  }

  lemma {:induction false} RankSumBound<V>(q: Queue<V>, ts: set<nat>)
    ensures RankSum(q, ts) <= LONGEST * |ts|
    decreases |ts|
  {
    if ts != {} {
      var t :| t in ts;
      RankSumWithout(q, ts, t);
      RankSumBound(q, ts - {t});
    }
  }

  /** The shared part looks the same to every thread that is away from its return. */
  ghost predicate SameShared<V>(q: Queue<V>, q1: Queue<V>) {
    q.head == q1.head && q.tail == q1.tail && forall i: nat :: q1.NextOf(i) == q.NextOf(i)
  }

  lemma RankSame<V>(q: Queue<V>, q1: Queue<V>, l: Local<V>)
    requires SameShared(q, q1)
    ensures Rank(q1, l) == Rank(q, l)
  {
  }

  /** The sum depends only on the shared part and on the threads that are summed. */
  lemma {:induction false} RankSumSame<V>(q: Queue<V>, q1: Queue<V>, ts: set<nat>)
    requires SameShared(q, q1) && forall t | t in ts :: q1.Of(t) == q.Of(t)
    ensures RankSum(q1, ts) == RankSum(q, ts)
    decreases |ts|
  {
    hide Rank, SameShared, Queue.Of;
    if ts != {} {
      var t :| t in ts;
      RankSumWithout(q, ts, t);
      RankSumWithout(q1, ts, t);
      RankSame(q, q1, q.Of(t));
      RankSumSame(q, q1, ts - {t});
    }
  }

  // ----- one step -----

  /** What a step without a return does for the measure. */
  ghost predicate Closer<V>(q: Queue<V>, a: Track, t: nat, fails: bool) {
    var q1, a1 := Step(q, Move(t, Go(fails))), Follow(q, a, Move(t, Go(fails)));
    var l, l1 := q.Of(t), q1.Of(t);
    if q1.nodes == q.nodes && q1.tail == q.tail then
      && SameShared(q, q1) && a1 == a && Linker(l1) == Linker(l)
      && (Rank(q1, l1) < Rank(q, l) || (fails && 0 < Rank(q, l)))
    else if q1.tail == q.tail then Linker(l) && !Linker(l1) && |a1.chain| == |a.chain| + 1 && a1.t == a.t
    else Linker(l1) == Linker(l) && |a1.chain| == |a.chain| && a1.t == a.t + 1
  }

  lemma KnownNode<V>(q: Queue<V>, a: Track, node: nat, k: int)
    requires Shape(q, a) && a.UpTo(node, k)
    ensures node < |q.nodes|
  {
  }

  lemma EnqueueStepDown<V>(q: Queue<V>, a: Track, t: nat, fails: bool)
    requires Shape(q, a) && LocalOk(q, a, q.Of(t)) && Owns(q.Of(t))
    ensures Closer(q, a, t, fails)
  {
    hide Spare, Chained, Track.UpTo;
    match q.Of(t)
    case Link(_, tail) => KnownNode(q, a, tail, a.t);
    case HelpEnqueue(_, tail, succ) => MoveTail(q, a, tail, succ, fails);
    case _ =>
  }

  lemma DequeueReadDown<V>(q: Queue<V>, a: Track, t: nat, fails: bool)
    requires LocalOk(q, a, q.Of(t)) && !Owns(q.Of(t)) && OnlyReads(q.Of(t))
    requires Returns(q, Move(t, Go(fails))) == Nothing
    ensures Closer(q, a, t, fails)
  {
    hide Spare, Shape, Track.UpTo;
  }

  lemma DequeueWriteDown<V>(q: Queue<V>, a: Track, t: nat, fails: bool)
    requires Shape(q, a) && LocalOk(q, a, q.Of(t)) && !Owns(q.Of(t)) && !OnlyReads(q.Of(t)) && !q.Of(t).Idle?
    requires Returns(q, Move(t, Go(fails))) == Nothing
    ensures Closer(q, a, t, fails)
  {
    hide Spare, Shape, Track.UpTo;
    match q.Of(t)
    case HelpDequeue(tail, succ) => MoveTail(q, a, tail, succ, fails);
    case _ =>
  }

  /**
    A step that returns nothing either brings its thread closer, or changes the chain or the tail; a spurious failure
    may set it back.
   */
  lemma StepDown<V>(q: Queue<V>, a: Track, t: nat, fails: bool)
    requires Inv(q, a) && !q.Of(t).Idle? && Returns(q, Move(t, Go(fails))) == Nothing
    ensures Closer(q, a, t, fails)
  {
    hide Closer, LocalOk, Shape;
    assert LocalOk(q, a, q.Of(t));
    if Owns(q.Of(t)) { EnqueueStepDown(q, a, t, fails); }
    else if OnlyReads(q.Of(t)) { DequeueReadDown(q, a, t, fails); }
    else { DequeueWriteDown(q, a, t, fails); }
  }

  lemma LinkersAfter<V>(q: Queue<V>, q1: Queue<V>, ts: set<nat>, t: nat)
    requires t in ts && forall u | u != t :: q1.Of(u) == q.Of(u)
    ensures Linker(q1.Of(t)) == Linker(q.Of(t)) ==> Linkers(q1, ts) == Linkers(q, ts)
    ensures Linker(q.Of(t)) && !Linker(q1.Of(t)) ==> |Linkers(q1, ts)| == |Linkers(q, ts)| - 1
  {
    hide Queue.Of, Linker;
    if Linker(q.Of(t)) && !Linker(q1.Of(t)) { assert Linkers(q1, ts) == Linkers(q, ts) - {t}; }
  }

  lemma OthersUntouched<V>(q: Queue<V>, m: Move<V>)
    ensures forall u | u != m.thread :: Step(q, m).Of(u) == q.Of(u)
  {
  }

  /** Weighing a change of the chain or the tail: it outweighs whatever the other threads lose by it. */
  lemma ChangePays(sum: nat, sum1: nat, n: nat, changes: int)
    requires sum1 <= LONGEST * n
    ensures sum1 + (LONGEST * n + 1) * (changes - 1) + 1 <= sum + (LONGEST * n + 1) * changes
  {
  }

  lemma WorkDown<V>(q: Queue<V>, a: Track, ts: set<nat>, t: nat, fails: bool)
    requires Inv(q, a) && t in ts && !q.Of(t).Idle? && Returns(q, Move(t, Go(fails))) == Nothing
    ensures var m := Move(t, Go(fails));
            Work(Step(q, m), Follow(q, a, m), ts) + 1 <= Work(q, a, ts) + if fails then LONGEST else 0
  {
    hide Inv, Rank, Linkers, Linker, RankSum, Step, Follow, SameShared;
    var q1, a1 := Step(q, Move(t, Go(fails))), Follow(q, a, Move(t, Go(fails)));
    StepDown(q, a, t, fails);
    OthersUntouched(q, Move(t, Go(fails)));
    LinkersAfter(q, q1, ts, t);
    RankSumWithout(q, ts, t);
    RankSumWithout(q1, ts, t);
    if q1.nodes == q.nodes && q1.tail == q.tail {
      RankSumSame(q, q1, ts - {t});
    } else {
      RankSumBound(q1, ts);
      ChangePays(RankSum(q, ts), RankSum(q1, ts), |ts|, Changes(q, a, ts));
    }
  }

  lemma StartSame<V>(q: Queue<V>, a: Track, m: Move<V>)
    requires q.Of(m.thread).Idle? && !m.action.Go?
    ensures var q1 := Step(q, m);
            && SameShared(q, q1) && Follow(q, a, m) == a && Rank(q1, q1.Of(m.thread)) < LONGEST
            && (Linker(q1.Of(m.thread)) <==> m.action.Enqueue?)
  {
  }

  /** Starting an operation is a step like the others: its thread cannot start another one before it returns. */
  lemma StartDown<V>(q: Queue<V>, a: Track, ts: set<nat>, m: Move<V>)
    requires m.thread in ts && q.Of(m.thread).Idle? && !m.action.Go?
    ensures Work(Step(q, m), Follow(q, a, m), ts) + 1 <= Work(q, a, ts)
  {
    hide Linkers, RankSum, Step, Follow, SameShared;
    var q1 := Step(q, m);
    StartSame(q, a, m);
    OthersUntouched(q, m);
    LinkersAfter(q, q1, ts, m.thread);
    RankSumWithout(q, ts, m.thread);
    RankSumWithout(q1, ts, m.thread);
    RankSumSame(q, q1, ts - {m.thread});
    if m.action.Dequeue? {
      assert Changes(q1, a, ts) == Changes(q, a, ts) - 2;
      FewerChanges(|ts|, Changes(q, a, ts));
    }
  }

  lemma FewerChanges(n: nat, changes: int)
    ensures (LONGEST * n + 1) * (changes - 2) <= (LONGEST * n + 1) * changes
  {
  }

  /** The work left is never negative and never more than a square of the number of threads. */
  lemma WorkBounds<V>(q: Queue<V>, a: Track, ts: set<nat>)
    requires Inv(q, a)
    ensures 0 <= Work(q, a, ts) <= LONGEST * |ts| + (LONGEST * |ts| + 1) * (2 * |ts| + 1)
  {
    hide RankSum, Linker;
    RankSumBound(q, ts);
    LinkersWithin(q, ts);
    EndsInChain(q, a);
    assert 0 <= Changes(q, a, ts) <= 2 * |ts| + 1;
    Weighed(|ts|, Changes(q, a, ts), 2 * |ts| + 1);
  }

  lemma Weighed(n: nat, changes: nat, most: nat)
    requires changes <= most
    ensures 0 <= (LONGEST * n + 1) * changes <= (LONGEST * n + 1) * most
  {
  }

  lemma {:induction false} LinkersWithin<V>(q: Queue<V>, ts: set<nat>)
    ensures |Linkers(q, ts)| <= |ts|
    decreases |ts|
  {
    hide Linker, Queue.Of;
    if ts != {} {
      var t :| t in ts;
      LinkersWithin(q, ts - {t});
      assert Linkers(q, ts) == Linkers(q, ts - {t}) || Linkers(q, ts) == Linkers(q, ts - {t}) + {t};
    }
  }

  // ----- the main result -----

  /**
    From the i-th move up to the j-th threads of `ts` start operations or take steps in them, and none of them returns.
   */
  ghost predicate NoneReturns<V>(ms: seq<Move<V>>, ts: set<nat>, i: nat, j: nat) {
    && i <= j <= |ms|
    && forall k | i <= k < j ::
         && ms[k].thread in ts && ReturnsAt(ms, k) == Nothing
         && (ms[k].action.Go? <==> !StateAt(ms, k).Of(ms[k].thread).Idle?)
  }

  /** How many of these moves were told to fail if they are a weak compare-and-swap. */
  function Failures<V>(ms: seq<Move<V>>, i: nat, j: nat): nat
    requires i <= j <= |ms|
  {
    if i == j then 0 else Failures(ms, i, j - 1) + (if ms[j - 1].action.Go? && ms[j - 1].action.fails then 1 else 0)
  }

  lemma {:induction false} WindowDown<V>(ms: seq<Move<V>>, ts: set<nat>, i: nat, j: nat)
    requires NoneReturns(ms, ts, i, j)
    ensures (j - i) + Work(StateAt(ms, j), TrackAt(ms, j), ts)
         <= Work(StateAt(ms, i), TrackAt(ms, i), ts) + LONGEST * Failures(ms, i, j)
    decreases j - i
  {
    hide Work, Inv, Step, Follow;
    if i < j {
      var q, a, m := StateAt(ms, j - 1), TrackAt(ms, j - 1), ms[j - 1];
      WindowDown(ms, ts, i, j - 1);
      Reachable(ms, j - 1);
      if m.action.Go? { WorkDown(q, a, ts, m.thread, m.action.fails); } else { StartDown(q, a, ts, m); }
    }
  }

  /**
   * Lock-freedom: in any execution, as long as no operation returns, `n` threads can make no more moves - starts of
   * operations included - than a square of `n` and ten for each spurious failure, wherever all others have stopped.
   */
  lemma {:induction false} LockFree<V>(ms: seq<Move<V>>, ts: set<nat>, i: nat, j: nat)
    requires NoneReturns(ms, ts, i, j)
    ensures var n := |ts|; j - i <= 10 * n + (10 * n + 1) * (2 * n + 1) + 10 * Failures(ms, i, j)
  {
    hide Work, Inv, StateAt, TrackAt, Failures;
    Reachable(ms, i);
    Reachable(ms, j);
    WorkBounds(StateAt(ms, i), TrackAt(ms, i), ts);
    WorkBounds(StateAt(ms, j), TrackAt(ms, j), ts);
    WindowDown(ms, ts, i, j);
  }
}
