/** What every step of the queue keeps: one acyclic chain of nodes, head never past tail, tail last or last but one. */
module QueueInvariant {
  import opened QueueModel

  /** All nodes ever linked, in order, and the positions of the two ends among them. */
  datatype Track = Track(chain: seq<nat>, h: nat, t: nat) {
    /** The first positions of the chain, up to and including the given one. */
    ghost predicate UpTo(node: nat, k: int) {
      exists i :: 0 <= i < |chain| && i <= k && chain[i] == node
    }
  }

  const NewTrack: Track := Track([0], 0, 0)

  ghost predicate Distinct(s: seq<nat>) {
    forall i, j | 0 <= i < j < |s| :: s[i] != s[j]
  }

  ghost predicate Chained<V>(nodes: seq<Node<V>>, chain: seq<nat>) {
    && Distinct(chain)
    && (forall i | 0 <= i < |chain| :: chain[i] < |nodes|)
    && (forall i | 0 <= i < |chain| :: nodes[chain[i]].next == if i + 1 < |chain| then At(chain[i + 1]) else Null)
    && (forall i | 1 <= i < |chain| :: nodes[chain[i]].value.Some?)
  }

  /** The link of the i-th node of the chain. */
  lemma ChainNext<V>(nodes: seq<Node<V>>, chain: seq<nat>, i: nat)
    requires Chained(nodes, chain) && i < |chain|
    ensures chain[i] < |nodes| && nodes[chain[i]].next == if i + 1 < |chain| then At(chain[i + 1]) else Null
    ensures i + 1 < |chain| ==> chain[i + 1] != chain[i] && nodes[chain[i + 1]].value.Some?
  {
  }

  ghost predicate Shape<V>(q: Queue<V>, a: Track) {
    && a.h <= a.t < |a.chain| <= a.t + 2
    && Chained(q.nodes, a.chain)
    && q.head == a.chain[a.h] && q.tail == a.chain[a.t]
  }

  /** A node that has been made but not linked. */
  ghost predicate Spare<V>(q: Queue<V>, a: Track, node: nat) {
    node < |q.nodes| && node !in a.chain && q.nodes[node].next.Null? && q.nodes[node].value.Some?
  }

  predicate Owns<V>(l: Local<V>) {
    l.LoadTail? || l.LoadTailNext? || l.RecheckTail? || l.Link? || l.HelpEnqueue?
  }

  /** What is known about a thread's stale local variables, whatever the other threads did since they were read. */
  ghost predicate LocalOk<V>(q: Queue<V>, a: Track, l: Local<V>) {
    && (Owns(l) ==> Spare(q, a, l.node))
    && match l
       case Idle => true
       case LoadTail(_) => true
       case LoadTailNext(_, tail) => a.UpTo(tail, a.t)
       case RecheckTail(_, tail, next) => a.UpTo(tail, a.t) && (next.At? ==> q.NextOf(tail) == next)
       case Link(_, tail) => a.UpTo(tail, a.t)
       case SwingTail(node, tail) => a.UpTo(tail, a.t) && q.NextOf(tail) == At(node)
       case HelpEnqueue(_, tail, succ) => a.UpTo(tail, a.t) && q.NextOf(tail) == At(succ)
       case LoadHead => true
       case LoadTailToo(head) => a.UpTo(head, a.h)
       case LoadHeadNext(head, tail) => HeadOk(q, a, head, tail)
       case RecheckHead(head, tail, next) =>
         HeadOk(q, a, head, tail) && (if next.At? then q.NextOf(head) == next else head == tail)
       case HelpDequeue(tail, succ) => a.UpTo(tail, a.t) && q.NextOf(tail) == At(succ)
       case ReadValue(head, next) => a.UpTo(head, a.h) && a.UpTo(head, a.t - 1) && next.At? && q.NextOf(head) == next
       case SwingHead(head, succ, value) =>
         && a.UpTo(head, a.h) && a.UpTo(head, a.t - 1) && q.NextOf(head) == At(succ)
         && q.ValueOf(succ) == value && value.Some?
       case Crashed => false
  }

  ghost predicate HeadOk<V>(q: Queue<V>, a: Track, head: nat, tail: nat) {
    a.UpTo(head, a.h) && a.UpTo(tail, a.t) && (head != tail ==> a.UpTo(head, a.t - 1))
  }

  /** No two threads hold the same unlinked node. */
  ghost predicate Apart<V>(q: Queue<V>) {
    forall t, u | t in q.threads && u in q.threads && t != u && Owns(q.threads[t]) && Owns(q.threads[u]) ::
      q.threads[t].node != q.threads[u].node
  }

  ghost predicate Inv<V>(q: Queue<V>, a: Track) {
    && Shape(q, a) && Apart(q)
    && forall t | t in q.threads :: LocalOk(q, a, q.threads[t])
  }

  /** How the chain and the two positions move with a step. */
  function Follow<V>(q: Queue<V>, a: Track, m: Move<V>): Track {
    var links := m.action.Go? && Links(q, m.thread, m.action.fails);
    var q1 := Step(q, m);
    Track(if links then a.chain + [q.Of(m.thread).node] else a.chain,
          if q1.head != q.head then a.h + 1 else a.h,
          if q1.tail != q.tail then a.t + 1 else a.t)
  }

  // ----- stability of what the other threads know -----

  /** Later states only add: links are written once, the ends only move forward, spare nodes but `lost` stay spare. */
  ghost predicate Later<V>(q: Queue<V>, a: Track, q1: Queue<V>, a1: Track, lost: set<nat>) {
    && a.chain <= a1.chain && a.h <= a1.h && a.t <= a1.t && |q.nodes| <= |q1.nodes|
    && (forall i | 0 <= i < |q.nodes| :: q1.nodes[i].value == q.nodes[i].value)
    && (forall i | 0 <= i < |q.nodes| :: q.nodes[i].next.At? ==> q1.nodes[i].next == q.nodes[i].next)
    && (forall i | i !in lost && Spare(q, a, i) :: Spare(q1, a1, i))
  }

  lemma UpToLater(a: Track, a1: Track, node: nat, k: int, k1: int)
    requires a.chain <= a1.chain && k <= k1 && a.UpTo(node, k)
    ensures a1.UpTo(node, k1)
  {
    var i :| 0 <= i < |a.chain| && i <= k && a.chain[i] == node;
    assert a1.chain[i] == node;
  }

  lemma LocalLater<V>(q: Queue<V>, a: Track, q1: Queue<V>, a1: Track, lost: set<nat>, l: Local<V>)
    requires Later(q, a, q1, a1, lost) && LocalOk(q, a, l) && (Owns(l) ==> l.node !in lost)
    ensures LocalOk(q1, a1, l)
  {
    hide Spare;
    match l
    case LoadTailNext(_, tail) => UpToLater(a, a1, tail, a.t, a1.t);
    case RecheckTail(_, tail, next) => UpToLater(a, a1, tail, a.t, a1.t);
    case Link(_, tail) => UpToLater(a, a1, tail, a.t, a1.t);
    case SwingTail(_, tail) => UpToLater(a, a1, tail, a.t, a1.t);
    case HelpEnqueue(_, tail, _) => UpToLater(a, a1, tail, a.t, a1.t);
    case LoadTailToo(head) => UpToLater(a, a1, head, a.h, a1.h);
    case LoadHeadNext(head, tail) => HeadLater(q, a, q1, a1, lost, head, tail);
    case RecheckHead(head, tail, next) => HeadLater(q, a, q1, a1, lost, head, tail);
    case HelpDequeue(tail, _) => UpToLater(a, a1, tail, a.t, a1.t);
    case ReadValue(head, next) =>
      UpToLater(a, a1, head, a.h, a1.h);
      UpToLater(a, a1, head, a.t - 1, a1.t - 1);
    case SwingHead(head, succ, value) =>
      UpToLater(a, a1, head, a.h, a1.h);
      UpToLater(a, a1, head, a.t - 1, a1.t - 1);
    case _ =>
  }

  lemma HeadLater<V>(q: Queue<V>, a: Track, q1: Queue<V>, a1: Track, lost: set<nat>, head: nat, tail: nat)
    requires Later(q, a, q1, a1, lost) && HeadOk(q, a, head, tail)
    ensures HeadOk(q1, a1, head, tail)
  {
    UpToLater(a, a1, head, a.h, a1.h);
    UpToLater(a, a1, tail, a.t, a1.t);
    if head != tail { UpToLater(a, a1, head, a.t - 1, a1.t - 1); }
  }

  /** A change of the shared part followed by the thread's own move keeps the invariant. */
  lemma ThreadMoves<V>(q: Queue<V>, a: Track, q1: Queue<V>, a1: Track, lost: set<nat>, t: nat, l: Local<V>)
    requires Inv(q, a) && Shape(q1, a1) && q1.threads == q.threads && Later(q, a, q1, a1, lost)
    requires lost <= if Owns(q.Of(t)) then {q.Of(t).node} else {}
    requires LocalOk(q1, a1, l)
    requires Owns(l) ==> (Owns(q.Of(t)) && l.node == q.Of(t).node) || l.node >= |q.nodes|
    ensures Inv(q1.Goes(t, l), a1)
  {
    hide Shape, Spare, Later;
    var q2 := q1.Goes(t, l);
    forall u | u in q2.threads ensures LocalOk(q2, a1, q2.threads[u]) {
      if u != t {
        if Owns(q.Of(t)) && Owns(q.threads[u]) { assert t in q.threads; }
        LocalLater(q, a, q1, a1, lost, q.threads[u]);
      }
      LocalSame(q1, q2, a1, q2.threads[u]);
    }
    forall u, w | u in q2.threads && w in q2.threads && u != w && Owns(q2.threads[u]) && Owns(q2.threads[w])
      ensures q2.threads[u].node != q2.threads[w].node
    {
      OwnedInRange(q, a, u);
      OwnedInRange(q, a, w);
    }
    ShapeSame(q1, q2, a1);
  }

  lemma OwnedInRange<V>(q: Queue<V>, a: Track, t: nat)
    requires Inv(q, a)
    ensures t in q.threads && Owns(q.threads[t]) ==> q.threads[t].node < |q.nodes|
  {
  }

  /** The invariant's parts do not look at the threads. */
  lemma LocalSame<V>(q: Queue<V>, q1: Queue<V>, a: Track, l: Local<V>)
    requires q.nodes == q1.nodes && LocalOk(q, a, l)
    ensures LocalOk(q1, a, l)
  {
    hide Track.UpTo;
  }

  lemma ShapeSame<V>(q: Queue<V>, q1: Queue<V>, a: Track)
    requires q.nodes == q1.nodes && q.head == q1.head && q.tail == q1.tail && Shape(q, a)
    ensures Shape(q1, a)
  {
  }

  // ----- the five ways in which a step changes the shared part -----

  lemma LaterSame<V>(q: Queue<V>, a: Track)
    ensures Later(q, a, q, a, {})
  {
  }

  /** A new node is spare and changes nothing else. */
  lemma MakeNode<V>(q: Queue<V>, a: Track, v: V)
    requires Shape(q, a)
    ensures var q1 := q.(nodes := q.nodes + [Node(Some(v), Null)]);
      Shape(q1, a) && Later(q, a, q1, a, {}) && Spare(q1, a, |q.nodes|)
  {
  }

  lemma ChainAppend<V>(nodes: seq<Node<V>>, chain: seq<nat>, node: nat)
    requires Chained(nodes, chain) && chain != [] && node !in chain && node < |nodes|
    requires nodes[node].next.Null? && nodes[node].value.Some?
    ensures var tail := chain[|chain| - 1]; Chained(nodes[tail := nodes[tail].(next := At(node))], chain + [node])
  {
  }

  /** A successful link is made on the true last node, with the global tail there, and appends to the chain. */
  lemma LinkNode<V>(q: Queue<V>, a: Track, node: nat, tail: nat)
    requires Shape(q, a) && Spare(q, a, node) && a.UpTo(tail, a.t) && q.nodes[tail].next.Null?
    ensures a.t == |a.chain| - 1 && q.tail == tail && tail == a.chain[|a.chain| - 1]
    ensures var q1, a1 := q.(nodes := q.nodes[tail := q.nodes[tail].(next := At(node))]), a.(chain := a.chain + [node]);
      Shape(q1, a1) && Later(q, a, q1, a1, {node}) && a1.UpTo(tail, a1.t) && q1.NextOf(tail) == At(node)
  {
    var i :| 0 <= i < |a.chain| && i <= a.t && a.chain[i] == tail;
    ChainNext(q.nodes, a.chain, i);
    assert i == |a.chain| - 1;
    ChainAppend(q.nodes, a.chain, node);
    assert (a.chain + [node])[i] == tail;
  }

  /** A successful swap of the tail moves it one node on; a failed one changes nothing. */
  lemma MoveTail<V>(q: Queue<V>, a: Track, tail: nat, succ: nat, fails: bool)
    requires Shape(q, a) && q.NextOf(tail) == At(succ)
    ensures var q1 := SwapTail(q, tail, succ, fails); var a1 := if q1.tail != q.tail then a.(t := a.t + 1) else a;
      Shape(q1, a1) && Later(q, a, q1, a1, {})
    ensures q.tail == tail ==> succ != tail
  {
    if q.tail == tail {
      ChainNext(q.nodes, a.chain, a.t);
    }
  }

  /** A successful swap of the head moves it one node on and never past the tail. */
  lemma MoveHead<V>(q: Queue<V>, a: Track, head: nat, succ: nat)
    requires Shape(q, a) && q.head == head && a.UpTo(head, a.t - 1) && q.NextOf(head) == At(succ)
    ensures var q1, a1 := q.(head := succ), a.(h := a.h + 1);
      succ != head && a1.h <= a1.t && succ == a.chain[a1.h] && Shape(q1, a1) && Later(q, a, q1, a1, {})
  {
    var i :| 0 <= i < |a.chain| && i <= a.t - 1 && a.chain[i] == head;
    assert i == a.h;
    ChainNext(q.nodes, a.chain, i);
  }

  // ----- one lemma per program counter -----

  lemma EndsKnown<V>(q: Queue<V>, a: Track)
    requires Shape(q, a)
    ensures a.UpTo(q.head, a.h) && a.UpTo(q.tail, a.t) && (q.head != q.tail ==> a.UpTo(q.head, a.t - 1))
  {
    assert a.chain[a.h] == q.head && a.chain[a.t] == q.tail;
  }

  /** An earlier head is still the tail, or strictly before it. */
  lemma HeadBeforeTail<V>(q: Queue<V>, a: Track, head: nat)
    requires Shape(q, a) && a.UpTo(head, a.h)
    ensures HeadOk(q, a, head, q.tail)
  {
    EndsKnown(q, a);
    var i :| 0 <= i < |a.chain| && i <= a.h && a.chain[i] == head;
  }

  /** A head strictly before the tail has a successor. */
  lemma SuccessorExists<V>(q: Queue<V>, a: Track, head: nat)
    requires Shape(q, a) && a.UpTo(head, a.t - 1)
    ensures q.NextOf(head).At?
  {
    var i :| 0 <= i < |a.chain| && i <= a.t - 1 && a.chain[i] == head;
    ChainNext(q.nodes, a.chain, i);
  }

  /** The successor of a linked node holds a value. */
  lemma SuccessorValue<V>(q: Queue<V>, a: Track, head: nat)
    requires Shape(q, a) && a.UpTo(head, a.h) && q.NextOf(head).At?
    ensures q.ValueOf(q.NextOf(head).node).Some?
  {
    var i :| 0 <= i < |a.chain| && i <= a.h && a.chain[i] == head;
    ChainNext(q.nodes, a.chain, i);
  }

  /** The steps that only read: the local variables they set are as the invariant wants them. */
  lemma ReadOk<V>(q: Queue<V>, a: Track, l: Local<V>)
    requires Shape(q, a) && LocalOk(q, a, l)
    ensures l.LoadTail? ==> LocalOk(q, a, LoadTailNext(l.node, q.tail))
    ensures l.LoadTailNext? ==> LocalOk(q, a, RecheckTail(l.node, l.tail, q.NextOf(l.tail)))
    ensures l.RecheckTail? ==> LocalOk(q, a, if l.next.Null? then Link(l.node, l.tail)
                                       else HelpEnqueue(l.node, l.tail, l.next.node))
    ensures Owns(l) ==> LocalOk(q, a, LoadTail(l.node))
    ensures l.LoadHead? ==> LocalOk(q, a, LoadTailToo(q.head))
    ensures l.LoadTailToo? ==> LocalOk(q, a, LoadHeadNext(l.head, q.tail))
    ensures l.LoadHeadNext? ==> LocalOk(q, a, RecheckHead(l.head, l.tail, q.NextOf(l.head)))
    ensures l.RecheckHead? && l.head != l.tail ==> LocalOk(q, a, ReadValue(l.head, l.next))
    ensures l.RecheckHead? && l.head == l.tail && l.next.At? ==> LocalOk(q, a, HelpDequeue(l.tail, l.next.node))
    ensures l.ReadValue? ==> l.next.At? && LocalOk(q, a, SwingHead(l.head, l.next.node, q.ValueOf(l.next.node)))
  {
    hide Shape, Spare, Track.UpTo;
    EndsKnown(q, a);
    match l
    case LoadTailToo(head) => HeadBeforeTail(q, a, head);
    case LoadHeadNext(head, tail) => if head != tail { SuccessorExists(q, a, head); }
    case ReadValue(head, next) => SuccessorValue(q, a, head);
    case _ =>
  }

  // ----- the invariant is inductive -----

  lemma InitOk<V>()
    ensures Inv(NewQueue<V>(), NewTrack)
  {
  }

  /** What a thread knows when it has read nothing yet. */
  lemma FirstLocals<V>(q: Queue<V>, a: Track, node: nat)
    ensures LocalOk<V>(q, a, LoadHead) && LocalOk<V>(q, a, Idle)
    ensures Spare(q, a, node) ==> LocalOk<V>(q, a, LoadTail(node))
  {
  }

  lemma SpareSame<V>(q: Queue<V>, a: Track, q1: Queue<V>, a1: Track, node: nat)
    requires Spare(q, a, node) && q1.nodes == q.nodes && a1.chain == a.chain
    ensures Spare(q1, a1, node)
  {
  }

  lemma StartOk<V>(q: Queue<V>, a: Track, m: Move<V>)
    requires Inv(q, a) && !m.action.Go?
    ensures Inv(Step(q, m), Follow(q, a, m))
  {
    hide Shape, LocalOk, Spare, Later;
    if q.Of(m.thread).Idle? {
      match m.action
      case Enqueue(v) =>
        MakeNode(q, a, v);
        var q1 := q.(nodes := q.nodes + [Node(Some(v), Null)]);
        FirstLocals(q1, a, |q.nodes|);
        ThreadMoves(q, a, q1, a, {}, m.thread, LoadTail(|q.nodes|));
      case Dequeue =>
        LaterSame(q, a);
        FirstLocals(q, a, 0);
        ThreadMoves(q, a, q, a, {}, m.thread, LoadHead);
    }
  }

  predicate OnlyReads<V>(l: Local<V>) {
    || l.LoadTail? || l.LoadTailNext? || l.RecheckTail? || l.LoadHead? || l.LoadTailToo?
    || l.LoadHeadNext? || l.RecheckHead? || l.ReadValue?
  }

  lemma InvShape<V>(q: Queue<V>, a: Track)
    requires Inv(q, a)
    ensures Shape(q, a)
  {
  }

  lemma ThreadOk<V>(q: Queue<V>, a: Track, t: nat)
    requires Inv(q, a)
    ensures LocalOk(q, a, q.Of(t))
  {
  }

  lemma ReadStepOk<V>(q: Queue<V>, a: Track, t: nat, fails: bool)
    requires Inv(q, a) && OnlyReads(q.Of(t))
    ensures Inv(Advance(q, t, fails), a)
  {
    hide Inv, Spare, Later, LocalOk, Shape;
    InvShape(q, a);
    ThreadOk(q, a, t);
    var l := q.Of(t);
    LaterSame(q, a);
    ReadOk(q, a, l);
    FirstLocals(q, a, 0);
    ThreadMoves(q, a, q, a, {}, t, Advance(q, t, fails).threads[t]);
  }

  lemma WriteStepOk<V>(q: Queue<V>, a: Track, t: nat, fails: bool)
    requires Inv(q, a) && !OnlyReads(q.Of(t)) && !q.Of(t).Idle?
    ensures Inv(Step(q, Move(t, Go(fails))), Follow(q, a, Move(t, Go(fails))))
  {
    hide Inv, Spare, Later, Shape;
    InvShape(q, a);
    ThreadOk(q, a, t);
    LaterSame(q, a);
    var a1 := Follow(q, a, Move(t, Go(fails)));
    match q.Of(t)
    case Link(node, tail) =>
      if Links(q, t, fails) {
        LinkNode(q, a, node, tail);
        var q1 := q.(nodes := q.nodes[tail := q.nodes[tail].(next := At(node))]);
        ThreadMoves(q, a, q1, a1, {node}, t, SwingTail(node, tail));
      } else {
        ThreadMoves(q, a, q, a1, {}, t, LoadTail(node));
      }
    case SwingTail(node, tail) =>
      MoveTail(q, a, tail, node, fails);
      ThreadMoves(q, a, SwapTail(q, tail, node, fails), a1, {}, t, Idle);
    case HelpEnqueue(node, tail, succ) =>
      MoveTail(q, a, tail, succ, fails);
      var q1 := SwapTail(q, tail, succ, fails);
      SpareSame(q, a, q1, a1, node);
      ThreadMoves(q, a, q1, a1, {}, t, LoadTail(node));
    case HelpDequeue(tail, succ) =>
      MoveTail(q, a, tail, succ, fails);
      ThreadMoves(q, a, SwapTail(q, tail, succ, fails), a1, {}, t, LoadHead);
    case SwingHead(head, succ, value) =>
      if Removes(q, t, fails) {
        MoveHead(q, a, head, succ);
        ThreadMoves(q, a, q.(head := succ), a1, {}, t, Idle);
      } else {
        ThreadMoves(q, a, q, a1, {}, t, LoadHead);
      }
  }

  /** Every move of every thread keeps the invariant. */
  lemma StepOk<V>(q: Queue<V>, a: Track, m: Move<V>)
    requires Inv(q, a)
    ensures Inv(Step(q, m), Follow(q, a, m))
  {
    hide Inv;
    if !m.action.Go? {
      StartOk(q, a, m);
    } else if OnlyReads(q.Of(m.thread)) {
      ReadStepOk(q, a, m.thread, m.action.fails);
    } else if !q.Of(m.thread).Idle? {
      WriteStepOk(q, a, m.thread, m.action.fails);
    }
  }
}
