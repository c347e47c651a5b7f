/**
 * The queue of benchmark/concurrent_queue.h as a transition system: any number of threads, one atomic load or
 * compare-and-swap per step, a program counter with its local variables for each thread. Nodes are numbered as they
 * are made and are never reused. A weak compare-and-swap may fail spuriously.
 */
module QueueModel {

  datatype Ptr = Null | At(node: nat)

  datatype Option<V> = None | Some(value: V)

  datatype Node<V> = Node(value: Option<V>, next: Ptr)

  /** Where a thread is; each name says what the thread does next. */
  datatype Local<V> =
    | Idle
    // enqueue
    | LoadTail(node: nat)
    | LoadTailNext(node: nat, tail: nat)
    | RecheckTail(node: nat, tail: nat, next: Ptr)
    | Link(node: nat, tail: nat)
    | SwingTail(node: nat, tail: nat)
    | HelpEnqueue(node: nat, tail: nat, succ: nat)
    // dequeue
    | LoadHead
    | LoadTailToo(head: nat)
    | LoadHeadNext(head: nat, tail: nat)
    | RecheckHead(head: nat, tail: nat, next: Ptr)
    | HelpDequeue(tail: nat, succ: nat)
    | ReadValue(head: nat, next: Ptr)
    | SwingHead(head: nat, succ: nat, value: Option<V>)
    // a null pointer was dereferenced
    | Crashed

  datatype Queue<V> = Queue(nodes: seq<Node<V>>, head: nat, tail: nat, threads: map<nat, Local<V>>) {
    function Of(t: nat): Local<V> {
      if t in threads then threads[t] else Idle
    }

    function Goes(t: nat, l: Local<V>): Queue<V> {
      this.(threads := threads[t := l])
    }

    function NextOf(i: nat): Ptr {
      if i < |nodes| then nodes[i].next else Null
    }

    function ValueOf(i: nat): Option<V> {
      if i < |nodes| then nodes[i].value else None
    }
  }

  /** The constructor: one sentinel node, which both ends point to. */
  function NewQueue<V>(): Queue<V> {
    Queue([Node(None, Null)], 0, 0, map[])
  }

  datatype Action<V> = Enqueue(value: V) | Dequeue | Go(fails: bool)

  datatype Move<V> = Move(thread: nat, action: Action<V>)

  /** One move of one thread: starting an operation when idle, or the next atomic step of the one it is in. */
  function Step<V>(q: Queue<V>, m: Move<V>): Queue<V> {
    var l := q.Of(m.thread);
    match m.action
    case Enqueue(v) =>
      if l.Idle? then q.(nodes := q.nodes + [Node(Some(v), Null)]).Goes(m.thread, LoadTail(|q.nodes|)) else q
    case Dequeue =>
      if l.Idle? then q.Goes(m.thread, LoadHead) else q
    case Go(fails) =>
      if l.Idle? || l.Crashed? then q else Advance(q, m.thread, fails)
  }

  function Advance<V>(q: Queue<V>, t: nat, fails: bool): Queue<V>
  {
    match q.Of(t)
    case LoadTail(node) => q.Goes(t, LoadTailNext(node, q.tail))
    case LoadTailNext(node, tail) => q.Goes(t, RecheckTail(node, tail, q.NextOf(tail)))
    case RecheckTail(node, tail, next) =>
      if tail != q.tail then q.Goes(t, LoadTail(node))
      else if next.Null? then q.Goes(t, Link(node, tail))
      else q.Goes(t, HelpEnqueue(node, tail, next.node))
    case Link(node, tail) =>
      if Links(q, t, fails) then
        q.(nodes := q.nodes[tail := q.nodes[tail].(next := At(node))]).Goes(t, SwingTail(node, tail))
      else q.Goes(t, LoadTail(node))
    case SwingTail(node, tail) => SwapTail(q, tail, node, fails).Goes(t, Idle)
    case HelpEnqueue(node, tail, succ) => SwapTail(q, tail, succ, fails).Goes(t, LoadTail(node))
    case LoadHead => q.Goes(t, LoadTailToo(q.head))
    case LoadTailToo(head) => q.Goes(t, LoadHeadNext(head, q.tail))
    case LoadHeadNext(head, tail) => q.Goes(t, RecheckHead(head, tail, q.NextOf(head)))
    case RecheckHead(head, tail, next) =>
      if head != q.head then q.Goes(t, LoadHead)
      else if head != tail then q.Goes(t, ReadValue(head, next))
      else if next.Null? then q.Goes(t, Idle)
      else q.Goes(t, HelpDequeue(tail, next.node))
    case HelpDequeue(tail, succ) => SwapTail(q, tail, succ, fails).Goes(t, LoadHead)
    case ReadValue(head, next) =>
      if next.Null? then q.Goes(t, Crashed) else q.Goes(t, SwingHead(head, next.node, q.ValueOf(next.node)))
    case SwingHead(head, succ, value) =>
      if Removes(q, t, fails) then q.(head := succ).Goes(t, Idle) else q.Goes(t, LoadHead)
    case _ => q
  }

  /** The compare-and-swap on `tail_`. */
  function SwapTail<V>(q: Queue<V>, expected: nat, desired: nat, fails: bool): Queue<V> {
    if !fails && q.tail == expected then q.(tail := desired) else q
  }

  /** The compare-and-swap on a node's `next` succeeds. */
  predicate Links<V>(q: Queue<V>, t: nat, fails: bool) {
    var l := q.Of(t);
    l.Link? && !fails && l.tail < |q.nodes| && q.nodes[l.tail].next.Null?
  }

  /** The compare-and-swap on `head_` succeeds. */
  predicate Removes<V>(q: Queue<V>, t: nat, fails: bool) {
    var l := q.Of(t);
    l.SwingHead? && !fails && q.head == l.head
  }

  // ----- what a move means to callers -----

  /** The linearisation points: one entry for a successful link and one for a successful removal. */
  datatype Entry<V> = Put(thread: nat, value: Option<V>) | Take(thread: nat, value: Option<V>)

  function Effect<V>(q: Queue<V>, m: Move<V>): seq<Entry<V>> {
    var l := q.Of(m.thread);
    if !m.action.Go? then []
    else if Links(q, m.thread, m.action.fails) then [Put(m.thread, q.ValueOf(l.node))]
    else if Removes(q, m.thread, m.action.fails) then [Take(m.thread, l.value)]
    else []
  }

  /** What an operation answers in the step in which it returns. */
  datatype Answer<V> = Nothing | Enqueued | Dequeued(value: Option<V>) | FoundEmpty

  function Returns<V>(q: Queue<V>, m: Move<V>): Answer<V> {
    var l := q.Of(m.thread);
    if !m.action.Go? then Nothing
    else if l.SwingTail? then Enqueued
    else if Removes(q, m.thread, m.action.fails) then Dequeued(l.value)
    else if l.RecheckHead? && l.head == q.head && l.head == l.tail && l.next.Null? then FoundEmpty
    else Nothing
  }

  // ----- executions: `ms` is any interleaving of any number of threads -----

  /** The queue before the i-th move. */
  function StateAt<V>(ms: seq<Move<V>>, i: nat): Queue<V>
    requires i <= |ms|
  {
    if i == 0 then NewQueue() else Step(StateAt(ms, i - 1), ms[i - 1])
  }

  function EffectAt<V>(ms: seq<Move<V>>, i: nat): seq<Entry<V>>
    requires i < |ms|
  {
    Effect(StateAt(ms, i), ms[i])
  }

  /** All linearisation points before the i-th move, in order. */
  function LogAt<V>(ms: seq<Move<V>>, i: nat): seq<Entry<V>>
    requires i <= |ms|
  {
    if i == 0 then [] else LogAt(ms, i - 1) + EffectAt(ms, i - 1)
  }

  function ReturnsAt<V>(ms: seq<Move<V>>, i: nat): Answer<V>
    requires i < |ms|
  {
    Returns(StateAt(ms, i), ms[i])
  }

  // ----- the sequential queue -----

  /** The values put and not yet taken, or nothing if the log takes a value that is not in front. */
  function Replay<V(==)>(log: seq<Entry<V>>): Option<seq<Option<V>>>
    decreases |log|
  {
    if log == [] then Some([])
    else
      var e := log[|log| - 1];
      match Replay(log[..|log| - 1])
      case None => None
      case Some(items) =>
        match e
        case Put(_, v) => Some(items + [v])
        case Take(_, v) => if items != [] && items[0] == v then Some(items[1..]) else None
  }

  function Puts<V>(log: seq<Entry<V>>): seq<Option<V>> {
    if log == [] then []
    else Puts(log[..|log| - 1]) + (if log[|log| - 1].Put? then [log[|log| - 1].value] else [])
  }

  function Takes<V>(log: seq<Entry<V>>): seq<Option<V>> {
    if log == [] then []
    else Takes(log[..|log| - 1]) + (if log[|log| - 1].Take? then [log[|log| - 1].value] else [])
  }

  function PutsBy<V>(log: seq<Entry<V>>, t: nat): seq<Option<V>> {
    if log == [] then []
    else
      var e := log[|log| - 1];
      PutsBy(log[..|log| - 1], t) + (if e.Put? && e.thread == t then [e.value] else [])
  }

  /** The values with which a thread has started enqueues, in program order. */
  function CallsBy<V>(ms: seq<Move<V>>, t: nat, i: nat): seq<Option<V>>
    requires i <= |ms|
  {
    if i == 0 then []
    else
      var m := ms[i - 1];
      CallsBy(ms, t, i - 1) +
        (if m.thread == t && m.action.Enqueue? && StateAt(ms, i - 1).Of(t).Idle? then [Some(m.action.value)] else [])
  }
}
