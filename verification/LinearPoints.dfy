/** Every completed operation of the queue takes effect at one moment between its call and its return. */
module LinearPoints {
  import opened QueueModel
  import opened QueueInvariant
  import opened Linearisable

  predicate Starts<V>(ms: seq<Move<V>>, t: nat, s: nat) {
    s < |ms| && ms[s].thread == t && !ms[s].action.Go? && StateAt(ms, s).Of(t).Idle?
  }

  /** Thread `t` is in one operation from its start at `s` until the i-th move. */
  ghost predicate InOp<V>(ms: seq<Move<V>>, t: nat, s: nat, i: nat) {
    s < i <= |ms| && Starts(ms, t, s) && forall k | s < k <= i :: !StateAt(ms, k).Of(t).Idle?
  }

  /** The moves of `t` from `s` on and before `i` are no linearisation points, with one exception at most. */
  ghost predicate Silent<V>(ms: seq<Move<V>>, t: nat, s: nat, i: nat, but: int)
    requires i <= |ms|
  {
    forall k | s <= k < i && k != but && ms[k].thread == t :: EffectAt(ms, k) == []
  }

  /**
    What thread `t` has done so far in the operation it started at `s`; `p` is the moment that counts, once there is
    one.
   */
  ghost predicate Progress<V>(ms: seq<Move<V>>, t: nat, s: nat, p: nat, i: nat) {
    && InOp(ms, t, s, i)
    && var q, call := StateAt(ms, i), ms[s].action; var l := q.Of(t);
       if Owns(l) then call.Enqueue? && q.ValueOf(l.node) == Some(call.value) && Silent(ms, t, s, i, -1)
       else if l.SwingTail? then
         && call.Enqueue? && s < p < i && ms[p].thread == t && EffectAt(ms, p) == [Put(t, Some(call.value))]
         && Silent(ms, t, s, i, p)
       else
         call.Dequeue? && Silent(ms, t, s, i, -1) &&
         (l.RecheckHead? && l.next.Null? ==> s < p < i && ms[p].thread == t && ContentsAt(ms, p) == [])
  }

  lemma OthersKept<V>(q: Queue<V>, m: Move<V>, t: nat)
    requires m.thread != t
    ensures Step(q, m).Of(t) == q.Of(t)
  {
  }

  lemma ValueKept<V>(q: Queue<V>, m: Move<V>, i: nat)
    requires q.ValueOf(i).Some?
    ensures Step(q, m).ValueOf(i) == q.ValueOf(i)
  {
    ValuesKept(q, m, i);
  }

  /** A head whose successor is missing is the last node: nothing is queued at that moment. */
  lemma EmptyWhenNull<V>(q: Queue<V>, a: Track, head: nat)
    requires Shape(q, a) && a.UpTo(head, a.h) && q.NextOf(head).Null?
    ensures Contents(q, a) == []
  {
    var i :| 0 <= i < |a.chain| && i <= a.h && a.chain[i] == head;
    ChainNext(q.nodes, a.chain, i);
  }

  /** What one move of a thread inside an operation does to its program counter. */
  lemma OwnMove<V>(q: Queue<V>, a: Track, m: Move<V>)
    requires Inv(q, a) && !q.Of(m.thread).Idle? && !Step(q, m).Of(m.thread).Idle?
    ensures var l, l1, effect := q.Of(m.thread), Step(q, m).Of(m.thread), Effect(q, m);
      && (Owns(l1) ==>
            Owns(l) && effect == [] && q.ValueOf(l.node).Some? && Step(q, m).ValueOf(l1.node) == q.ValueOf(l.node))
      && (l1.SwingTail? ==> (l.SwingTail? && effect == []) || (Owns(l) && effect == [Put(m.thread, q.ValueOf(l.node))]))
      && (!Owns(l1) && !l1.SwingTail? ==> !Owns(l) && !l.SwingTail? && effect == [])
      && (l1.RecheckHead? && l1.next.Null? ==> l == l1 || Contents(q, a) == [])
  {
    hide Contents, Shape, Apart, Chained;
    var l := q.Of(m.thread);
    ThreadOk(q, a, m.thread);
    if Owns(l) {
      ValueKept(q, m, l.node);
    } else if l.LoadHeadNext? && q.NextOf(l.head).Null? {
      EmptyWhenNull(q, a, l.head);
    }
  }

  /** One step of the thread itself, from what it had done to what it has done now. */
  lemma OwnStep<V>(ms: seq<Move<V>>, t: nat, s: nat, p: nat, i: nat) returns (p1: nat)
    requires i < |ms| && ms[i].thread == t && Progress(ms, t, s, p, i) && !StateAt(ms, i + 1).Of(t).Idle?
    ensures Progress(ms, t, s, p1, i + 1)
  {
    hide Contents, Step, Effect, Inv;
    Reachable(ms, i);
    OwnMove(StateAt(ms, i), TrackAt(ms, i), ms[i]);
    p1 := if StateAt(ms, i + 1).Of(t) == StateAt(ms, i).Of(t) then p else i;
    var l, l1 := StateAt(ms, i).Of(t), StateAt(ms, i + 1).Of(t);
    if l.SwingTail? && l1.SwingTail? { p1 := p; }
  }

  lemma FirstStep<V>(ms: seq<Move<V>>, t: nat, s: nat)
    requires s < |ms| && ms[s].thread == t && StateAt(ms, s).Of(t).Idle? && !StateAt(ms, s + 1).Of(t).Idle?
    ensures Progress(ms, t, s, 0, s + 1)
  {
  }

  lemma OtherStep<V>(ms: seq<Move<V>>, t: nat, s: nat, p: nat, i: nat)
    requires i < |ms| && ms[i].thread != t && Progress(ms, t, s, p, i)
    ensures Progress(ms, t, s, p, i + 1)
  {
    hide Contents, Step;
    var q := StateAt(ms, i);
    OthersKept(q, ms[i], t);
    if Owns(q.Of(t)) { ValueKept(q, ms[i], q.Of(t).node); }
  }

  /** Whoever is not idle is in an operation and has made the progress its program counter says. */
  lemma {:induction false} OpProgress<V>(ms: seq<Move<V>>, t: nat, i: nat) returns (s: nat, p: nat)
    requires i <= |ms| && !StateAt(ms, i).Of(t).Idle?
    ensures Progress(ms, t, s, p, i)
  {
    hide Step, Effect, Progress;
    var q := StateAt(ms, i - 1);
    if ms[i - 1].thread != t {
      OthersKept(q, ms[i - 1], t);
      s, p := OpProgress(ms, t, i - 1);
      OtherStep(ms, t, s, p, i - 1);
    } else if q.Of(t).Idle? {
      s, p := i - 1, 0;
      FirstStep(ms, t, s);
    } else {
      s, p := OpProgress(ms, t, i - 1);
      p := OwnStep(ms, t, s, p, i - 1);
    }
  }

  // ----- the main result -----

  /** The operation that `t` started at `s` and that returned `answer` at `i` took effect at `p`, and only there. */
  ghost predicate TookEffect<V>(ms: seq<Move<V>>, t: nat, s: nat, p: nat, i: nat, answer: Answer<V>) {
    && InOp(ms, t, s, i) && i < |ms| && s < p <= i && ms[i].thread == t && ms[p].thread == t
    && StateAt(ms, i + 1).Of(t).Idle?
    && match answer
       case Nothing => false
       case Enqueued =>
         ms[s].action.Enqueue? && EffectAt(ms, p) == [Put(t, Some(ms[s].action.value))] && Silent(ms, t, s, i + 1, p)
       case Dequeued(v) => ms[s].action.Dequeue? && EffectAt(ms, p) == [Take(t, v)] && Silent(ms, t, s, i + 1, p)
       case FoundEmpty => ms[s].action.Dequeue? && ContentsAt(ms, p) == [] && Silent(ms, t, s, i + 1, -1)
  }

  /** The move in which an operation returns. */
  lemma ReturnMove<V>(q: Queue<V>, m: Move<V>)
    requires Returns(q, m) != Nothing
    ensures var l := q.Of(m.thread);
      && !l.Idle? && Step(q, m).Of(m.thread).Idle?
      && match Returns(q, m)
         case Nothing => false
         case Enqueued => l.SwingTail? && Effect(q, m) == []
         case Dequeued(v) => l.SwingHead? && Effect(q, m) == [Take(m.thread, v)]
         case FoundEmpty => l.RecheckHead? && l.next.Null? && Effect(q, m) == []
  {
  }

  lemma EveryReturnTookEffect<V>(ms: seq<Move<V>>, i: nat)
    requires i < |ms| && ReturnsAt(ms, i) != Nothing
    ensures exists s: nat, p: nat :: TookEffect(ms, ms[i].thread, s, p, i, ReturnsAt(ms, i))
  {
    hide Contents, Step, Effect, Returns;
    var t := ms[i].thread;
    ReturnMove(StateAt(ms, i), ms[i]);
    var s, p := OpProgress(ms, t, i);
    var l := StateAt(ms, i).Of(t);
    if l.SwingHead? {
      assert TookEffect(ms, t, s, i, i, ReturnsAt(ms, i));
    } else {
      assert TookEffect(ms, t, s, p, i, ReturnsAt(ms, i));
    }
  }

  /**
    The moments of two operations differ and come in the order of the operations if one returned before the other began.
   */
  lemma RealTimeOrder<V>(ms: seq<Move<V>>, t: nat, s: nat, p: nat, i: nat, answer: Answer<V>,
                         t1: nat, s1: nat, p1: nat, i1: nat, answer1: Answer<V>)
    requires TookEffect(ms, t, s, p, i, answer) && TookEffect(ms, t1, s1, p1, i1, answer1) && i < i1
    ensures p != p1 && (i < s1 ==> p < p1)
  {
    assert !StateAt(ms, i + 1).Of(t).Idle? || t != t1 || i < s1;
  }

  /** The linearisation point `p` serves the operation its thread started at `s`, and is the first to do so. */
  ghost predicate Asked<V>(ms: seq<Move<V>>, s: nat, p: nat)
    requires p < |ms| && EffectAt(ms, p) != []
  {
    && InOp(ms, ms[p].thread, s, p) && Silent(ms, ms[p].thread, s, p, -1)
    && if EffectAt(ms, p)[0].Put? then
         ms[s].action.Enqueue? && EffectAt(ms, p) == [Put(ms[p].thread, Some(ms[s].action.value))]
       else ms[s].action.Dequeue? && ReturnsAt(ms, p) == Dequeued(EffectAt(ms, p)[0].value)
  }

  /** No linearisation point is left over: each belongs to an operation in progress that asked for it. */
  lemma EveryEffectWasAsked<V>(ms: seq<Move<V>>, p: nat)
    requires p < |ms| && EffectAt(ms, p) != []
    ensures exists s: nat :: Asked(ms, s, p)
  {
    var s, x := OpProgress(ms, ms[p].thread, p);
    assert Asked(ms, s, p);
  }

  // ----- each producer's values are linked in its program order -----

  function PendingBy<V>(q: Queue<V>, t: nat): seq<Option<V>> {
    var l := q.Of(t);
    if Owns(l) then [q.ValueOf(l.node)] else []
  }

  lemma {:induction false} NothingCalled<V>(ms: seq<Move<V>>, t: nat)
    ensures PutsBy(LogAt(ms, 0), t) + PendingBy(StateAt(ms, 0), t) == []
  {
  }

  lemma {:induction false} ProgramOrder<V>(ms: seq<Move<V>>, t: nat, i: nat)
    requires i <= |ms|
    ensures CallsBy(ms, t, i) == PutsBy(LogAt(ms, i), t) + PendingBy(StateAt(ms, i), t)
  {
    hide Step, Effect, Inv, PendingBy, PutsBy;
    if i == 0 {
      NothingCalled(ms, t);
    } else {
      var q, m, log := StateAt(ms, i - 1), ms[i - 1], LogAt(ms, i - 1);
      ProgramOrder(ms, t, i - 1);
      Reachable(ms, i - 1);
      ProgramStep(q, TrackAt(ms, i - 1), m, t);
      PutsByEffect(log, q, m, t);
      var call := if m.thread == t && m.action.Enqueue? && q.Of(t).Idle? then [Some(m.action.value)] else [];
      Regroup(PutsBy(log, t), PendingBy(q, t), call, PutsBy(Effect(q, m), t), PendingBy(Step(q, m), t));
    }
  }

  lemma Regroup<T>(a: seq<T>, b: seq<T>, c: seq<T>, d: seq<T>, e: seq<T>)
    requires b + c == d + e
    ensures (a + b) + c == (a + d) + e
  {
    assert (a + b) + c == a + (b + c);
    assert (a + d) + e == a + (d + e);
  }

  lemma {:induction false} PutsByEffect<V>(log: seq<Entry<V>>, q: Queue<V>, m: Move<V>, t: nat)
    ensures PutsBy(log + Effect(q, m), t) == PutsBy(log, t) + PutsBy(Effect(q, m), t)
  {
    var effect := Effect(q, m);
    if effect == [] { assert log + effect == log; } else { assert (log + effect)[..|log + effect| - 1] == log; }
  }

  lemma {:induction false} ProgramStep<V>(q: Queue<V>, a: Track, m: Move<V>, t: nat)
    requires Inv(q, a)
    ensures var call := if m.thread == t && m.action.Enqueue? && q.Of(t).Idle? then [Some(m.action.value)] else [];
      PendingBy(q, t) + call == PutsBy(Effect(q, m), t) + PendingBy(Step(q, m), t)
  {
    hide Shape, Apart;
    ThreadOk(q, a, t);
    if m.thread != t { OthersKept(q, m, t); }
    if Owns(q.Of(t)) { ValueKept(q, m, q.Of(t).node); }
  }
}
