/**
 * The ConcurrentMatchingEngine of benchmark/concurrent_matching_engine.cpp: producers put events into the lock-free
 * queue and one consumer takes them out and feeds a sequential engine.
 */
module ConcurrentEngine {
  import opened Orders
  import opened QueueModel
  import opened QueueInvariant
  import opened Linearisable
  import opened LinearPoints
  import EngineSpec

  // ----- events -----

  datatype Event = Event(kind: nat, orderId: nat, side: char, price: int, quantity: nat)

  const SUBMIT_LIMIT: nat := 0
  const SUBMIT_MARKET: nat := 1
  const CANCEL: nat := 2
  const SENTINEL: nat := 255

  function Letter(side: Side): char {
    if side.Buy? then 'B' else 'S'
  }

  function LimitEvent(side: Side, price: int, qty: nat): Event {
    Event(SUBMIT_LIMIT, 0, Letter(side), price, qty)
  }

  function MarketEvent(side: Side, qty: nat): Event {
    Event(SUBMIT_MARKET, 0, Letter(side), 0, qty)
  }

  function CancelEvent(id: nat): Event {
    Event(CANCEL, id, 'X', 0, 0)
  }

  function StopEvent(): Event {
    Event(SENTINEL, 0, 'B', 0, 0)
  }

  /** The switch of consumerLoop; other kinds do nothing. */
  function Dispatch(e: EngineSpec.Engine, ev: Event, timestamp: int): EngineSpec.Engine {
    var side := if ev.side == 'B' then Buy else Sell;
    if ev.kind == SUBMIT_LIMIT then EngineSpec.Step(e, EngineSpec.SubmitLimit(side, ev.price, ev.quantity, timestamp))
    else if ev.kind == SUBMIT_MARKET then EngineSpec.Step(e, EngineSpec.SubmitMarket(side, ev.quantity, timestamp))
    else if ev.kind == CANCEL then EngineSpec.Step(e, EngineSpec.CancelOrder(ev.orderId))
    else e
  }

  /** What a producer's call asks for is what the consumer does. */
  lemma EventsMean(e: EngineSpec.Engine, side: Side, price: int, qty: nat, id: nat, timestamp: int)
    ensures Dispatch(e, LimitEvent(side, price, qty), timestamp)
         == EngineSpec.Step(e, EngineSpec.SubmitLimit(side, price, qty, timestamp))
    ensures Dispatch(e, MarketEvent(side, qty), timestamp)
        == EngineSpec.Step(e, EngineSpec.SubmitMarket(side, qty, timestamp))
    ensures Dispatch(e, CancelEvent(id), timestamp) == EngineSpec.Step(e, EngineSpec.CancelOrder(id))
    ensures Dispatch(e, StopEvent(), timestamp) == e
  {
  }

  // ----- the consumer -----

  const CONSUMER: nat := 0

  datatype Server = Server(engine: EngineSpec.Engine, processed: nat, stopped: bool)

  const NewServer: Server := Server(EngineSpec.NewEngine, 0, false)

  /** One turn of consumerLoop, given what its dequeue answered. */
  function Serve(s: Server, answer: Answer<Event>, timestamp: int): Server {
    if answer.Dequeued? && answer.value.Some? then
      if answer.value.value.kind == SENTINEL then s.(stopped := true)
      else Server(Dispatch(s.engine, answer.value.value, timestamp), s.processed + 1, s.stopped)
    else s
  }

  function ServerAt(ms: seq<Move<Event>>, clock: seq<int>, i: nat): Server
    requires i <= |ms| == |clock|
  {
    if i == 0 then NewServer
    else
      var s := ServerAt(ms, clock, i - 1);
      if ms[i - 1].thread == CONSUMER then Serve(s, ReturnsAt(ms, i - 1), clock[i - 1]) else s
  }

  /** consumerLoop as a loop over what its dequeues answer, until it has stopped. */
  function ServeAll(s: Server, answers: seq<Answer<Event>>, clock: seq<int>): Server
    requires |answers| == |clock|
    decreases |answers|
  {
    if answers == [] then s
    else
      var k := |answers| - 1;
      var before := ServeAll(s, answers[..k], clock[..k]);
      if before.stopped then before else Serve(before, answers[k], clock[k])
  }

  /** What the consumer's moves before the i-th one answered, and when. */
  function AnswersAt(ms: seq<Move<Event>>, clock: seq<int>, i: nat): (r: (seq<Answer<Event>>, seq<int>))
    requires i <= |ms| == |clock|
    ensures |r.0| == |r.1|
  {
    if i == 0 then ([], [])
    else
      var r := AnswersAt(ms, clock, i - 1);
      if ms[i - 1].thread == CONSUMER then (r.0 + [ReturnsAt(ms, i - 1)], r.1 + [clock[i - 1]]) else r
  }

  /** Only the consumer dequeues, it never enqueues, and after the sentinel it does nothing. */
  ghost predicate Roles(ms: seq<Move<Event>>, clock: seq<int>) {
    && |ms| == |clock|
    && (forall i | 0 <= i < |ms| && ms[i].action.Dequeue? :: ms[i].thread == CONSUMER)
    && (forall i | 0 <= i < |ms| && ms[i].thread == CONSUMER ::
          !ms[i].action.Enqueue? && !ServerAt(ms, clock, i).stopped)
  }

  // ----- the sequential replay -----

  datatype Stamped = Stamped(event: Event, timestamp: int)

  function ReplayEvents(e: EngineSpec.Engine, evs: seq<Stamped>): EngineSpec.Engine {
    if evs == [] then e
    else Dispatch(ReplayEvents(e, evs[..|evs| - 1]), evs[|evs| - 1].event, evs[|evs| - 1].timestamp)
  }

  function EventsOf(evs: seq<Stamped>): (r: seq<Option<Event>>)
    ensures |r| == |evs|
  {
    seq(|evs|, i requires 0 <= i < |evs| => Some(evs[i].event))
  }

  /** The events served before the i-th move, with the clock readings they were served at. */
  function ServedAt(ms: seq<Move<Event>>, clock: seq<int>, i: nat): seq<Stamped>
    requires i <= |ms| == |clock|
  {
    if i == 0 then []
    else
      var before, answer := ServedAt(ms, clock, i - 1), ReturnsAt(ms, i - 1);
      if ms[i - 1].thread == CONSUMER && answer.Dequeued? && answer.value.Some? && answer.value.value.kind != SENTINEL
      then before + [Stamped(answer.value.value, clock[i - 1])]
      else before
  }

  ghost predicate NoSentinel(evs: seq<Stamped>) {
    forall e | e in evs :: e.event.kind != SENTINEL
  }

  /** The server is where a sequential run over the events taken out would be, and stops right after a sentinel. */
  ghost predicate ServesLog(s: Server, served: seq<Stamped>, taken: seq<Option<Event>>) {
    && NoSentinel(served)
    && s.engine == ReplayEvents(EngineSpec.NewEngine, served)
    && s.processed == |served|
    && (!s.stopped ==> taken == EventsOf(served))
    && (s.stopped ==> |taken| == |served| + 1 && taken[..|served|] == EventsOf(served) &&
                      taken[|served|].Some? && taken[|served|].value.kind == SENTINEL)
  }

  /** A value leaves the log's queue exactly when a dequeue returns it. */
  lemma {:induction false} TakeIsReturned<V>(log: seq<Entry<V>>, q: Queue<V>, a: Track, m: Move<V>)
    requires Inv(q, a)
    ensures var answer := Returns(q, m);
      && (answer.Dequeued? ==> answer.value.Some? && Effect(q, m) == [Take(m.thread, answer.value)])
      && Takes(log + Effect(q, m)) == Takes(log) + if answer.Dequeued? then [answer.value] else []
  {
    hide Shape, Apart;
    ThreadOk(q, a, m.thread);
    var effect := Effect(q, m);
    if effect == [] { assert log + effect == log; } else { assert (log + effect)[..|log + effect| - 1] == log; }
  }

  /** Only the consumer takes values out. */
  lemma OnlyConsumerDequeues(ms: seq<Move<Event>>, clock: seq<int>, i: nat)
    requires Roles(ms, clock) && i < |ms| && ReturnsAt(ms, i).Dequeued?
    ensures ms[i].thread == CONSUMER
  {
    EveryReturnTookEffect(ms, i);
    var s: nat, p: nat :| TookEffect(ms, ms[i].thread, s, p, i, ReturnsAt(ms, i));
  }

  /** Serving one more answer. */
  lemma ServeOne(s: Server, served: seq<Stamped>, taken: seq<Option<Event>>, ev: Event, timestamp: int)
    requires ServesLog(s, served, taken) && !s.stopped
    ensures ServesLog(Serve(s, Dequeued(Some(ev)), timestamp),
                      if ev.kind == SENTINEL then served else served + [Stamped(ev, timestamp)], taken + [Some(ev)])
  {
    hide Dispatch;
    var next := served + [Stamped(ev, timestamp)];
    assert next[..|next| - 1] == served;
    assert EventsOf(next) == EventsOf(served) + [Some(ev)];
  }

  lemma {:induction false} ConsumerReplays(ms: seq<Move<Event>>, clock: seq<int>, i: nat)
    requires Roles(ms, clock) && i <= |ms|
    ensures ServesLog(ServerAt(ms, clock, i), ServedAt(ms, clock, i), Takes(LogAt(ms, i)))
  {
    hide Roles, ReturnsAt, Serve;
    if i == 0 {
      assert EventsOf([]) == [];
    } else {
      hide ServesLog, LogAt, Takes, ServedAt, ServerAt;
      ConsumerReplays(ms, clock, i - 1);
      ConsumerStep(ms, clock, i - 1);
    }
  }

  lemma ConsumerStep(ms: seq<Move<Event>>, clock: seq<int>, i: nat)
    requires Roles(ms, clock) && i < |ms|
    requires ServesLog(ServerAt(ms, clock, i), ServedAt(ms, clock, i), Takes(LogAt(ms, i)))
    ensures ServesLog(ServerAt(ms, clock, i + 1), ServedAt(ms, clock, i + 1), Takes(LogAt(ms, i + 1)))
  {
    hide Effect, Returns, ServesLog, Takes, Inv, StateAt, Dispatch;
    Reachable(ms, i);
    TakeIsReturned(LogAt(ms, i), StateAt(ms, i), TrackAt(ms, i), ms[i]);
    var answer := ReturnsAt(ms, i);
    if answer.Dequeued? {
      OnlyConsumerDequeues(ms, clock, i);
      ServeOne(ServerAt(ms, clock, i), ServedAt(ms, clock, i), Takes(LogAt(ms, i)), answer.value.value, clock[i]);
    } else {
      assert Takes(LogAt(ms, i)) + [] == Takes(LogAt(ms, i));
    }
  }

  /** Seen from the consumer alone, the execution is its loop. */
  lemma {:induction false} ConsumerIsLoop(ms: seq<Move<Event>>, clock: seq<int>, i: nat)
    requires Roles(ms, clock) && i <= |ms|
    ensures var r := AnswersAt(ms, clock, i); ServerAt(ms, clock, i) == ServeAll(NewServer, r.0, r.1)
  {
    hide ReturnsAt, Serve;
    if i > 0 {
      ConsumerIsLoop(ms, clock, i - 1);
      if ms[i - 1].thread == CONSUMER {
        var r, answer := AnswersAt(ms, clock, i - 1), ReturnsAt(ms, i - 1);
        var k := |r.0|;
        assert (r.0 + [answer])[..k] == r.0 && (r.1 + [clock[i - 1]])[..k] == r.1;
      }
    }
  }

  // ----- the main results -----

  /** The engine commands the served events stand for. */
  function CommandOf(e: Stamped): seq<EngineSpec.Command> {
    var side := if e.event.side == 'B' then Buy else Sell;
    if e.event.kind == SUBMIT_LIMIT then [EngineSpec.SubmitLimit(side, e.event.price, e.event.quantity, e.timestamp)]
    else if e.event.kind == SUBMIT_MARKET then [EngineSpec.SubmitMarket(side, e.event.quantity, e.timestamp)]
    else if e.event.kind == CANCEL then [EngineSpec.CancelOrder(e.event.orderId)]
    else []
  }

  function CommandsOf(evs: seq<Stamped>): seq<EngineSpec.Command> {
    if evs == [] then [] else CommandsOf(evs[..|evs| - 1]) + CommandOf(evs[|evs| - 1])
  }

  lemma {:induction false} ReplayIsRun(e: EngineSpec.Engine, evs: seq<Stamped>)
    ensures ReplayEvents(e, evs) == EngineSpec.Run(e, CommandsOf(evs))
  {
    hide EngineSpec.Step;
    if evs != [] {
      var rest, last := evs[..|evs| - 1], evs[|evs| - 1];
      ReplayIsRun(e, rest);
      EngineSpec.RunConcat(e, CommandsOf(rest), CommandOf(last));
      RunOne(ReplayEvents(e, rest), last);
    }
  }

  lemma {:induction false} RunOne(e: EngineSpec.Engine, x: Stamped)
    ensures EngineSpec.Run(e, CommandOf(x)) == Dispatch(e, x.event, x.timestamp)
  {
    hide EngineSpec.Step;
    if CommandOf(x) != [] { assert CommandOf(x)[1..] == []; }
  }

  /**
   * At every moment the engine is in the state of one sequential run over the events served so far; they are the first
   * ones of the linearised enqueues, and `processed` is their number.
   */
  lemma {:induction false} SequentialReplay(ms: seq<Move<Event>>, clock: seq<int>, i: nat)
    requires Roles(ms, clock) && i <= |ms|
    ensures var s, served, puts := ServerAt(ms, clock, i), ServedAt(ms, clock, i), Puts(LogAt(ms, i));
      && s.engine == EngineSpec.Run(EngineSpec.NewEngine, CommandsOf(served))
      && s.processed == |served| <= |puts| && puts[..|served|] == EventsOf(served) && NoSentinel(served)
  {
    hide Takes, Puts, ReplayEvents;
    ConsumerReplays(ms, clock, i);
    NothingLostOrReordered(ms, i);
    ReplayIsRun(EngineSpec.NewEngine, ServedAt(ms, clock, i));
    var served, taken, puts := ServedAt(ms, clock, i), Takes(LogAt(ms, i)), Puts(LogAt(ms, i));
    assert puts[..|served|] == taken[..|served|];
    if |taken| == |served| { assert taken[..|served|] == taken; }
  }

  /** Once the consumer has stopped, what it served are exactly the events linearised before the first sentinel. */
  lemma {:induction false} StoppedAtSentinel(ms: seq<Move<Event>>, clock: seq<int>, i: nat)
    requires Roles(ms, clock) && i <= |ms| && ServerAt(ms, clock, i).stopped
    ensures var served, puts := ServedAt(ms, clock, i), Puts(LogAt(ms, i));
      && |served| < |puts| && puts[..|served|] == EventsOf(served) && NoSentinel(served)
      && puts[|served|].Some? && puts[|served|].value.kind == SENTINEL
  {
    hide Takes, Puts;
    SequentialReplay(ms, clock, i);
    ConsumerReplays(ms, clock, i);
    NothingLostOrReordered(ms, i);
  }

  // ----- the order of each producer -----

  /** The linearised enqueues, in order, with the threads that made them. */
  function PutEntries<V>(log: seq<Entry<V>>): seq<Entry<V>> {
    if log == [] then []
    else PutEntries(log[..|log| - 1]) + (if log[|log| - 1].Put? then [log[|log| - 1]] else [])
  }

  lemma {:induction false} PutEntriesAre<V>(log: seq<Entry<V>>, t: nat)
    ensures var es := PutEntries(log);
      && |es| == |Puts(log)| && (forall k | 0 <= k < |es| :: es[k].Put? && es[k].value == Puts(log)[k])
      && PutsBy(es, t) == PutsBy(log, t)
  {
    if log != [] {
      var before, e := log[..|log| - 1], log[|log| - 1];
      PutEntriesAre(before, t);
      var es := PutEntries(before) + if e.Put? then [e] else [];
      assert PutEntries(log) == es;
      if e.Put? { assert es[..|es| - 1] == PutEntries(before); } else { assert es == PutEntries(before); }
    }
  }

  lemma {:induction false} PutsByPrefix<V>(log: seq<Entry<V>>, t: nat, n: nat)
    requires n <= |log|
    ensures PutsBy(log[..n], t) <= PutsBy(log, t)
    decreases |log|
  {
    if n < |log| {
      PutsByPrefix(log[..|log| - 1], t, n);
      assert log[..|log| - 1][..n] == log[..n];
    } else {
      assert log[..n] == log;
    }
  }

  /**
   * The events served are the first linearised enqueues, and among these each producer's own are the first ones it
   * called enqueue with, in the order of its calls.
   */
  lemma {:induction false} ProducerOrder(ms: seq<Move<Event>>, clock: seq<int>, t: nat, i: nat)
    requires Roles(ms, clock) && i <= |ms|
    ensures var served, puts := ServedAt(ms, clock, i), PutEntries(LogAt(ms, i));
      && |served| <= |puts| && (forall k | 0 <= k < |served| :: puts[k].Put? && puts[k].value == Some(served[k].event))
      && PutsBy(puts[..|served|], t) <= CallsBy(ms, t, i)
  {
    hide PutsBy, PutEntries, CallsBy, Puts, ServedAt, LogAt, PendingBy;
    var served, log := ServedAt(ms, clock, i), LogAt(ms, i);
    SequentialReplay(ms, clock, i);
    PutEntriesAre(log, t);
    ProgramOrder(ms, t, i);
    PutsByPrefix(PutEntries(log), t, |served|);
    forall k | 0 <= k < |served| ensures Puts(log)[k] == Some(served[k].event) {
      assert EventsOf(served)[k] == Puts(log)[..|served|][k];
    }
  }

  // ----- shutdown -----

  lemma {:induction false} PutsGrow<V>(ms: seq<Move<V>>, p: nat, i: nat)
    requires p <= i <= |ms|
    ensures Puts(LogAt(ms, p)) <= Puts(LogAt(ms, i))
  {
    hide Step, Effect;
    if p < i {
      PutsGrow(ms, p, i - 1);
      PutsConcat(LogAt(ms, i - 1), EffectAt(ms, i - 1));
    }
  }

  lemma {:induction false} PutsConcat<V>(a: seq<Entry<V>>, b: seq<Entry<V>>)
    ensures Puts(a + b) == Puts(a) + Puts(b)
    decreases |b|
  {
    if b == [] {
      assert a + b == a;
    } else {
      var front := b[..|b| - 1];
      assert (a + b)[..|a + b| - 1] == a + front;
      PutsConcat(a, front);
    }
  }

  ghost predicate NoStopIn(puts: seq<Option<Event>>) {
    forall v | v in puts :: v.Some? && v.value.kind != SENTINEL
  }

  lemma ServedBeforeSentinel(puts: seq<Option<Event>>, before: seq<Option<Event>>, ev: Event, served: seq<Stamped>)
    requires before + [Some(ev)] <= puts && NoStopIn(before) && ev.kind != SENTINEL
    requires |served| < |puts| && puts[..|served|] == EventsOf(served)
    requires puts[|served|].Some? && puts[|served|].value.kind == SENTINEL
    ensures |before| < |served| && served[|before|].event == ev
  {
    var front := before + [Some(ev)];
    assert forall k | 0 <= k < |front| :: puts[k] == front[k];
    assert forall k | 0 <= k < |before| :: puts[k] in before;
    assert EventsOf(served)[|before|] == puts[..|served|][|before|];
  }

  lemma PutsOne<V>(e: Entry<V>)
    requires e.Put?
    ensures Puts([e]) == [e.value]
  {
    assert [e][..0] == [];
  }

  /** stop() drains the queue: an event linked before any sentinel has been served when the consumer stops. */
  lemma {:induction false} StopDrains(ms: seq<Move<Event>>, clock: seq<int>, p: nat, i: nat, t: nat, ev: Event)
    requires Roles(ms, clock) && p < i <= |ms| && ServerAt(ms, clock, i).stopped
    requires EffectAt(ms, p) == [Put(t, Some(ev))] && ev.kind != SENTINEL && NoStopIn(Puts(LogAt(ms, p)))
    ensures var n, served := |Puts(LogAt(ms, p))|, ServedAt(ms, clock, i); n < |served| && served[n].event == ev
  {
    hide EffectAt, Puts, NoStopIn, ServerAt, ServedAt, NoSentinel;
    StoppedAtSentinel(ms, clock, i);
    PutsConcat(LogAt(ms, p), EffectAt(ms, p));
    PutsOne(Put(t, Some(ev)));
    PutsGrow(ms, p + 1, i);
    ServedBeforeSentinel(Puts(LogAt(ms, i)), Puts(LogAt(ms, p)), ev, ServedAt(ms, clock, i));
  }
}
