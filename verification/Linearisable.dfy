/**
 * The queue of benchmark/concurrent_queue.h is linearisable: forward simulation, and a point inside every operation.
 */
module Linearisable {
  import opened QueueModel
  import opened QueueInvariant

  function TrackAt<V>(ms: seq<Move<V>>, i: nat): Track
    requires i <= |ms|
  {
    if i == 0 then NewTrack else Follow(StateAt(ms, i - 1), TrackAt(ms, i - 1), ms[i - 1])
  }

  /** The abstract queue: the values of the nodes behind the head. */
  function Contents<V>(q: Queue<V>, a: Track): (s: seq<Option<V>>)
    ensures |s| == if a.h + 1 <= |a.chain| then |a.chain| - a.h - 1 else 0
  {
    seq(if a.h + 1 <= |a.chain| then |a.chain| - a.h - 1 else 0,
        i requires 0 <= i && a.h + 1 + i < |a.chain| => q.ValueOf(a.chain[a.h + 1 + i]))
  }

  function ContentsAt<V>(ms: seq<Move<V>>, i: nat): seq<Option<V>>
    requires i <= |ms|
  {
    Contents(StateAt(ms, i), TrackAt(ms, i))
  }

  /** In every reachable state of every interleaving the structural invariant holds; in particular no thread crashes. */
  lemma {:induction false} Reachable<V>(ms: seq<Move<V>>, i: nat)
    requires i <= |ms|
    ensures Inv(StateAt(ms, i), TrackAt(ms, i))
    ensures forall t :: !StateAt(ms, i).Of(t).Crashed?
  {
    hide Shape, Apart, Step, Follow;
    if i == 0 {
      InitOk<V>();
    } else {
      Reachable(ms, i - 1);
      StepOk(StateAt(ms, i - 1), TrackAt(ms, i - 1), ms[i - 1]);
    }
  }

  // ----- forward simulation to the sequential queue -----

  /** Values never change once a node is made. */
  lemma ValuesKept<V>(q: Queue<V>, m: Move<V>, i: nat)
    requires i < |q.nodes|
    ensures i < |Step(q, m).nodes| && Step(q, m).nodes[i].value == q.nodes[i].value
  {
  }

  ghost predicate SameValues<V>(q: Queue<V>, q1: Queue<V>) {
    |q.nodes| <= |q1.nodes| && forall i | 0 <= i < |q.nodes| :: q1.nodes[i].value == q.nodes[i].value
  }

  lemma StepSameValues<V>(q: Queue<V>, m: Move<V>)
    ensures SameValues(q, Step(q, m))
  {
    hide Step;
    forall i | 0 <= i < |q.nodes| ensures i < |Step(q, m).nodes| && Step(q, m).nodes[i].value == q.nodes[i].value {
      ValuesKept(q, m, i);
    }
    if |q.nodes| > 0 { ValuesKept(q, m, |q.nodes| - 1); }
  }

  lemma ContentsKept<V>(q: Queue<V>, a: Track, q1: Queue<V>, a1: Track)
    requires Shape(q, a) && SameValues(q, q1) && a1.chain == a.chain && a1.h == a.h
    ensures Contents(q1, a1) == Contents(q, a)
  {
    ChainValues(q, a, q1);
  }

  lemma ChainValues<V>(q: Queue<V>, a: Track, q1: Queue<V>)
    requires Shape(q, a) && SameValues(q, q1)
    ensures forall k | 0 <= k < |a.chain| :: q1.ValueOf(a.chain[k]) == q.ValueOf(a.chain[k])
  {
    forall k | 0 <= k < |a.chain| ensures q1.ValueOf(a.chain[k]) == q.ValueOf(a.chain[k]) {
      assert a.chain[k] < |q.nodes|;
    }
  }

  lemma ContentsGrow<V>(q: Queue<V>, a: Track, q1: Queue<V>, a1: Track, node: nat)
    requires Shape(q, a) && SameValues(q, q1) && node < |q.nodes| && a1.chain == a.chain + [node] && a1.h == a.h
    ensures Contents(q1, a1) == Contents(q, a) + [q.ValueOf(node)]
  {
    ChainValues(q, a, q1);
    var c, c1, n := Contents(q, a), Contents(q1, a1), |a.chain|;
    assert a1.chain[n] == node && q1.ValueOf(node) == q.ValueOf(node);
    assert a.h + 1 <= n && |c1| == |c| + 1;
    forall i | 0 <= i < |c| ensures c1[i] == c[i] {
      assert a1.chain[a.h + 1 + i] == a.chain[a.h + 1 + i];
    }
    assert c1[|c|] == q1.ValueOf(a1.chain[n]);
  }

  lemma ContentsShrink<V>(q: Queue<V>, a: Track, q1: Queue<V>, a1: Track)
    requires Shape(q, a) && SameValues(q, q1) && a1.chain == a.chain && a1.h == a.h + 1 < |a.chain|
    ensures Contents(q, a) == [q.ValueOf(a.chain[a1.h])] + Contents(q1, a1)
  {
    ChainValues(q, a, q1);
    forall i | 0 <= i < |Contents(q1, a1)| ensures Contents(q1, a1)[i] == Contents(q, a)[i + 1] {
      assert a1.h + 1 + i == a.h + 1 + (i + 1);
    }
  }

  /** A step that is no linearisation point moves neither the head nor the end of the chain. */
  lemma SilentStep<V>(q: Queue<V>, a: Track, m: Move<V>)
    requires Effect(q, m) == []
    ensures Follow(q, a, m).chain == a.chain && Follow(q, a, m).h == a.h
  {
  }

  lemma SpareHasValue<V>(q: Queue<V>, a: Track, node: nat)
    requires Spare(q, a, node)
    ensures node < |q.nodes| && q.ValueOf(node).Some?
  {
  }

  lemma EndsInChain<V>(q: Queue<V>, a: Track)
    requires Shape(q, a)
    ensures a.h <= a.t < |a.chain|
  {
  }

  /** One step leaves the abstract queue alone, appends one value, or removes the front one and returns it. */
  lemma StepSimulates<V>(q: Queue<V>, a: Track, m: Move<V>)
    requires Inv(q, a)
    ensures Simulates(Effect(q, m), Contents(q, a), Contents(Step(q, m), Follow(q, a, m)))
  {
    hide Contents, Shape, SameValues, Apart, Spare, Track.UpTo;
    var q1, a1, l := Step(q, m), Follow(q, a, m), q.Of(m.thread);
    StepSameValues(q, m);
    ThreadOk(q, a, m.thread);
    if Effect(q, m) == [] {
      SilentStep(q, a, m);
      ContentsKept(q, a, q1, a1);
    } else if Links(q, m.thread, m.action.fails) {
      SpareHasValue(q, a, l.node);
      ContentsGrow(q, a, q1, a1, l.node);
    } else {
      MoveHead(q, a, l.head, l.succ);
      EndsInChain(q, a);
      ContentsShrink(q, a, q1, a1);
    }
  }

  ghost predicate Simulates<V>(effect: seq<Entry<V>>, now: seq<Option<V>>, next: seq<Option<V>>) {
    || (effect == [] && next == now)
    || (|effect| == 1 && effect[0].Put? && effect[0].value.Some? && next == now + [effect[0].value])
    || (|effect| == 1 && effect[0].Take? && effect[0].value.Some? && now == [effect[0].value] + next)
  }

  // ----- whole executions -----

  lemma InitiallyEmpty<V>()
    ensures Contents(NewQueue<V>(), NewTrack) == []
  {
  }

  /** The log is a legal history of a sequential queue and ends in the contents of the real one. */
  lemma {:induction false} LogLegal<V>(ms: seq<Move<V>>, i: nat)
    requires i <= |ms|
    ensures Replay(LogAt(ms, i)) == Some(ContentsAt(ms, i))
  {
    hide Contents, Step, Effect, Inv, Follow;
    if i == 0 {
      InitiallyEmpty<V>();
    } else {
      LogLegal(ms, i - 1);
      Reachable(ms, i - 1);
      StepSimulates(StateAt(ms, i - 1), TrackAt(ms, i - 1), ms[i - 1]);
      ReplayEffect(LogAt(ms, i - 1), EffectAt(ms, i - 1), ContentsAt(ms, i - 1), ContentsAt(ms, i));
    }
  }

  lemma {:induction false} ReplayEffect<V>(log: seq<Entry<V>>, effect: seq<Entry<V>>, now: seq<Option<V>>,
                                           next: seq<Option<V>>)
    requires Replay(log) == Some(now) && Simulates(effect, now, next)
    ensures Replay(log + effect) == Some(next)
  {
    if effect == [] {
      assert log + effect == log;
    } else {
      assert (log + effect)[..|log + effect| - 1] == log;
    }
  }

  /** First in, first out: what was enqueued is what was dequeued followed by the contents. */
  lemma {:induction false} FirstInFirstOut<V>(log: seq<Entry<V>>)
    requires Replay(log).Some?
    ensures Puts(log) == Takes(log) + Replay(log).value
  {
    if log != [] {
      var before, e := log[..|log| - 1], log[|log| - 1];
      FirstInFirstOut(before);
      var items := Replay(before).value;
      if e.Take? {
        assert items == [items[0]] + items[1..];
        assert Takes(before) + items == (Takes(before) + [items[0]]) + items[1..];
      } else {
        assert (Takes(before) + items) + [e.value] == Takes(before) + (items + [e.value]);
      }
    }
  }

  lemma {:induction false} NothingLostOrReordered<V>(ms: seq<Move<V>>, i: nat)
    requires i <= |ms|
    ensures Puts(LogAt(ms, i)) == Takes(LogAt(ms, i)) + ContentsAt(ms, i)
  {
    LogLegal(ms, i);
    FirstInFirstOut(LogAt(ms, i));
  }
}
