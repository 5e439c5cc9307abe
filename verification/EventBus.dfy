/** core/event_bus.py: a FIFO queue, subscribers by event type, and a dispatch loop in which a
    failing callback does not stop the others. */
module EventBus {
  /** What a callback does to the world it acts on: the new state, the events it published before
      returning or raising, and whether it raised. */
  datatype Effect<W, E> = Effect(world: W, published: seq<E>, raised: bool)

  type Callback<!W, !E> = (W, E) -> Effect<W, E>

  /** A queued item: an event with its type, an event without one, or the stop sentinel. */
  datatype Item<E> = Event(topic: string, body: E) | Untyped | Stop

  type Subscribers<!W, !E> = map<string, seq<Callback<W, E>>>

  function SubscribersOf<W, E>(subs: Subscribers<W, E>, topic: string): seq<Callback<W, E>> {
    if topic in subs then subs[topic] else []
  }

  /** What a loop over callbacks did: the world it left, what was published, which callbacks it called,
      how many of them raised, and whether one that raised ended the loop. */
  datatype Delivery<W, E> = Delivery(world: W, published: seq<E>, called: seq<nat>, failures: nat, aborted: bool)

  /** The loop over callbacks in subscription order, each on the world the previous one left. Guarded, a
      raise is caught and the loop goes on; unguarded, it ends the loop. */
  function Loop<W, E>(guarded: bool, callbacks: seq<Callback<W, E>>, w: W, e: E): Delivery<W, E>
    decreases |callbacks|
  {
    if callbacks == [] then Delivery(w, [], [], 0, false)
    else
      var n := |callbacks| - 1;
      var before := Loop(guarded, callbacks[..n], w, e);
      if before.aborted then before
      else
        var effect := callbacks[n](before.world, e);
        Delivery(effect.world, before.published + effect.published, before.called + [n],
                 before.failures + (if effect.raised then 1 else 0), effect.raised && !guarded)
  }

  /** The bus guards every callback. */
  function Deliver<W, E>(callbacks: seq<Callback<W, E>>, w: W, e: E): (W, seq<E>) {
    (Loop(true, callbacks, w, e).world, Loop(true, callbacks, w, e).published)
  }

  /** `waiting`: the dispatch loop is about to take its next item. It looks at `running` only after an
      item, so a stop requested while it waits lets one more item through. */
  datatype BusState<W, E> = BusState(queue: seq<Item<E>>, running: bool, waiting: bool, world: W)

  function Items<E>(events: seq<E>, topicOf: E -> string): seq<Item<E>> {
    if events == [] then [] else Items(events[..|events| - 1], topicOf) + [ItemOf(events[|events| - 1], topicOf)]
  }

  /** An event whose type is empty counts as untyped. */
  function ItemOf<E>(e: E, topicOf: E -> string): Item<E> {
    if topicOf(e) == "" then Untyped else Event(topicOf(e), e)
  }

  /** One turn of the loop: take the oldest item; what its callbacks publish goes to the back. */
  function Turn<W, E>(subs: Subscribers<W, E>, topicOf: E -> string, b: BusState<W, E>): BusState<W, E>
    requires b.queue != [] && b.waiting
  {
    var rest := b.queue[1..];
    match b.queue[0]
    case Stop => BusState(rest, b.running, false, b.world)
    case Untyped => BusState(rest, b.running, b.running, b.world)
    case Event(topic, body) =>
      var (world, published) := Deliver(SubscribersOf(subs, topic), b.world, body);
      BusState(rest + Items(published, topicOf), b.running, b.running, world)
  }

  /** At most n turns, as long as the loop goes on and something is queued. */
  function Turns<W, E>(subs: Subscribers<W, E>, topicOf: E -> string, b: BusState<W, E>, n: nat): BusState<W, E>
    decreases n
  {
    if n == 0 || b.queue == [] || !b.waiting then b
    else Turns(subs, topicOf, Turn(subs, topicOf, b), n - 1)
  }

  function Indices(n: nat): seq<nat> {
    seq(n, i => i)
  }

  lemma NoItems<E>(topicOf: E -> string)
    ensures Items([], topicOf) == []
  {
  }

  lemma {:induction false} ItemsSum<E>(x: seq<E>, y: seq<E>, topicOf: E -> string)
    ensures Items(x + y, topicOf) == Items(x, topicOf) + Items(y, topicOf)
  {
    if y == [] {
      assert x + y == x;
    } else {
      ItemsSum(x, y[..|y| - 1], topicOf);
      assert (x + y)[..|x + y| - 1] == x + y[..|y| - 1];
    }
  }

  class EventBus<W, E> {
    const topicOf: E -> string
    var subscribers: Subscribers<W, E>
    var queue: seq<Item<E>>
    var running: bool

    constructor (topicOf: E -> string)
      ensures queue == [] && !running && subscribers == map[] && this.topicOf == topicOf
    {
      this.topicOf := topicOf;
      subscribers, queue, running := map[], [], false;
    }

    method Subscribe(topic: string, callback: Callback<W, E>)
      modifies this`subscribers
      ensures subscribers.Keys == old(subscribers).Keys + {topic}
      ensures forall t | t in subscribers ::
          subscribers[t] == SubscribersOf(old(subscribers), t) + (if t == topic then [callback] else [])
    {
      subscribers := subscribers[topic := SubscribersOf(subscribers, topic) + [callback]];
    }

    method Publish(e: E)
      modifies this`queue
      ensures queue == old(queue) + [ItemOf(e, topicOf)]
    {
      queue := queue + [ItemOf(e, topicOf)];
    }

    method RequestStop()
      modifies this`queue, this`running
      ensures !running
      ensures queue == old(queue) + (if old(running) then [Stop] else [])
    {
      if !running { return; }
      running := false;
      queue := queue + [Stop];
    }

    /** The body of the loop for one event: every callback is called once and in order; a raise is
        counted and caught. */
    method RunCallbacks(callbacks: seq<Callback<W, E>>, w: W, e: E)
      returns (after: W, failures: nat, called: seq<nat>)
      modifies this`queue
      ensures var d := Loop(true, callbacks, w, e);
              && (after, failures, called) == (d.world, d.failures, d.called)
              && queue == old(queue) + Items(d.published, topicOf)
      ensures called == Indices(|callbacks|)
    {
      hide Items;
      after, failures, called := w, 0, [];
      ghost var sent: seq<E> := [];
      NoItems(topicOf);
      for i := 0 to |callbacks|
        invariant Loop(true, callbacks[..i], w, e) == Delivery(after, sent, called, failures, false)
        invariant queue == old(queue) + Items(sent, topicOf)
        invariant called == Indices(i)
      {
        var effect := callbacks[i](after, e);
        assert callbacks[..i + 1][..i] == callbacks[..i];
        PublishAll(effect.published);
        ItemsSum(sent, effect.published, topicOf);
        sent := sent + effect.published;
        called := called + [i];
        after := effect.world;
        if effect.raised {
          failures := failures + 1;
        }
      }
      assert callbacks[..|callbacks|] == callbacks;
    }

    method PublishAll(events: seq<E>)
      modifies this`queue
      ensures queue == old(queue) + Items(events, topicOf)
    {
      for j := 0 to |events|
        invariant queue == old(queue) + Items(events[..j], topicOf)
      {
        assert events[..j + 1][..j] == events[..j];
        Publish(events[j]);
      }
      assert events[..|events|] == events;
    }

    /** The dispatch loop, until it ends or nothing is queued, for at most `limit` items; `waiting` tells
        whether it would go on. A bus that is already running is left alone. The stop sentinel ends
        the loop without touching `running`. */
    method Start(w: W, limit: nat) returns (after: W, waiting: bool)
      modifies this
      ensures BusState(queue, running, waiting, after) ==
        if old(running) then BusState(old(queue), true, false, w)
        else Turns(old(subscribers), topicOf, BusState(old(queue), true, true, w), limit)
      ensures subscribers == old(subscribers)
    {
      if running { return w, false; }
      running := true;
      after, waiting := w, true;
      var left := limit;
      while left > 0 && waiting && queue != []
        invariant subscribers == old(subscribers) && running
        invariant Turns(subscribers, topicOf, BusState(queue, running, waiting, after), left)
               == Turns(old(subscribers), topicOf, BusState(old(queue), true, true, w), limit)
        decreases left
      {
        var item := queue[0];
        queue := queue[1..];
        left := left - 1;
        match item {
          case Stop => waiting := false;
          case Untyped => waiting := running;
          case Event(topic, body) =>
            var failures, called;
            after, failures, called := RunCallbacks(SubscribersOf(subscribers, topic), after, body);
            waiting := running;
        }
      }
    }
  }

  // ---------- failures are isolated ----------

  /** Callback i raises on the world the callbacks before it leave. */
  predicate RaisesAt<W, E>(callbacks: seq<Callback<W, E>>, w: W, e: E, i: nat)
    requires i < |callbacks|
  {
    callbacks[i](Loop(true, callbacks[..i], w, e).world, e).raised
  }

  ghost function Raising<W, E>(callbacks: seq<Callback<W, E>>, w: W, e: E): set<nat> {
    set i | 0 <= i < |callbacks| && RaisesAt(callbacks, w, e, i)
  }

  /** The guarded loop calls every callback once and in order, whoever raises. */
  lemma {:induction false} GuardedCallsAll<W, E>(callbacks: seq<Callback<W, E>>, w: W, e: E)
    ensures Loop(true, callbacks, w, e).called == Indices(|callbacks|) && !Loop(true, callbacks, w, e).aborted
    decreases |callbacks|
  {
    if callbacks != [] {
      GuardedCallsAll(callbacks[..|callbacks| - 1], w, e);
    }
  }

  /** It counts exactly the callbacks that raise. */
  lemma {:induction false} GuardedCountsRaises<W, E>(callbacks: seq<Callback<W, E>>, w: W, e: E)
    ensures Loop(true, callbacks, w, e).failures == |Raising(callbacks, w, e)|
    decreases |callbacks|
  {
    if callbacks != [] {
      var n := |callbacks| - 1;
      GuardedCountsRaises(callbacks[..n], w, e);
      GuardedCallsAll(callbacks[..n], w, e);
      OneMoreRaising(callbacks, w, e);
    }
  }

  lemma OneMoreRaising<W, E>(callbacks: seq<Callback<W, E>>, w: W, e: E)
    requires callbacks != []
    ensures var n := |callbacks| - 1;
            |Raising(callbacks, w, e)|
              == |Raising(callbacks[..n], w, e)| + (if RaisesAt(callbacks, w, e, n) then 1 else 0)
  {
    hide RaisesAt;
    var n := |callbacks| - 1;
    forall i | 0 <= i < n ensures RaisesAt(callbacks, w, e, i) == RaisesAt(callbacks[..n], w, e, i) {
      SamePrefixRaises(callbacks, w, e, i);
    }
    assert Raising(callbacks, w, e)
        == Raising(callbacks[..n], w, e) + (if RaisesAt(callbacks, w, e, n) then {n} else {});
  }

  lemma SamePrefixRaises<W, E>(callbacks: seq<Callback<W, E>>, w: W, e: E, i: nat)
    requires i < |callbacks| - 1
    ensures RaisesAt(callbacks, w, e, i) == RaisesAt(callbacks[..|callbacks| - 1], w, e, i)
  {
    assert callbacks[..|callbacks| - 1][..i] == callbacks[..i];
  }

  /** Delivering to two lists in a row. */
  lemma {:induction false} LoopSplits<W, E>(
    first: seq<Callback<W, E>>, second: seq<Callback<W, E>>, w: W, e: E)
    ensures var (middle, sent) := Deliver(first, w, e);
            Deliver(first + second, w, e) == (Deliver(second, middle, e).0, sent + Deliver(second, middle, e).1)
    decreases |second|
  {
    var all, n := first + second, |second| - 1;
    GuardedCallsAll(first, w, e);
    if second == [] {
      assert all == first;
      var (middle, sent) := Deliver(first, w, e);
      assert Deliver(second, middle, e) == (middle, []) && sent + [] == sent;
    } else {
      assert all[..|all| - 1] == first + second[..n] && all[|all| - 1] == second[n];
      LoopSplits(first, second[..n], w, e);
      GuardedCallsAll(first + second[..n], w, e);
      var (middle, sent) := Deliver(first, w, e);
      GuardedCallsAll(second[..n], middle, e);
      var later := Loop(true, second[..n], middle, e);
      var effect := second[n](later.world, e);
      assert sent + later.published + effect.published == sent + (later.published + effect.published);
    }
  }

  /** Without the guard, the loop calls the callbacks up to the first that raises. */
  lemma {:induction false} UnguardedStops<W, E>(callbacks: seq<Callback<W, E>>, w: W, e: E) returns (k: nat)
    ensures k <= |callbacks|
    ensures forall i | 0 <= i < |callbacks| && i < k - 1 :: !RaisesAt(callbacks, w, e, i)
    ensures Loop(false, callbacks, w, e)
         == Loop(true, callbacks[..k], w, e).(aborted := Loop(false, callbacks, w, e).aborted)
    ensures if Loop(false, callbacks, w, e).aborted then k > 0 && RaisesAt(callbacks, w, e, k - 1)
            else k == |callbacks| && forall i | 0 <= i < |callbacks| :: !RaisesAt(callbacks, w, e, i)
    decreases |callbacks|
  {
    k := 0;
    if callbacks != [] {
      var n := |callbacks| - 1;
      k := UnguardedStops(callbacks[..n], w, e);
      forall i | 0 <= i < n ensures RaisesAt(callbacks, w, e, i) == RaisesAt(callbacks[..n], w, e, i) {
        SamePrefixRaises(callbacks, w, e, i);
      }
      assert callbacks[..n][..k] == callbacks[..k];
      if !Loop(false, callbacks[..n], w, e).aborted {
        k := n + 1;
        assert callbacks[..n + 1] == callbacks && callbacks[..n][..n] == callbacks[..n];
        GuardedCallsAll(callbacks[..n], w, e);
      }
    }
  }

  /** What the guard is for: the bus calls every subscriber; a loop without it would leave the same world
      and the same events exactly when no callback raises or those after the first that does would
      neither have changed the world nor published anything. */
  lemma FailuresAreIsolated<W, E>(callbacks: seq<Callback<W, E>>, w: W, e: E) returns (k: nat)
    ensures k <= |callbacks|
    ensures Loop(true, callbacks, w, e).called == Indices(|callbacks|)
    ensures Loop(true, callbacks, w, e).failures == |Raising(callbacks, w, e)|
    ensures Loop(false, callbacks, w, e).called == Indices(k)
    ensures k < |callbacks| ==> k > 0 && RaisesAt(callbacks, w, e, k - 1)
    ensures forall i | 0 <= i < |callbacks| && i < k - 1 :: !RaisesAt(callbacks, w, e, i)
    ensures var unguarded := Loop(false, callbacks, w, e);
            (unguarded.world, unguarded.published) == Deliver(callbacks, w, e)
            <==> Deliver(callbacks[k..], unguarded.world, e) == (unguarded.world, [])
  {
    hide Loop, Raising, RaisesAt;
    k := UnguardedStops(callbacks, w, e);
    GuardedCallsAll(callbacks, w, e);
    GuardedCountsRaises(callbacks, w, e);
    GuardedCallsAll(callbacks[..k], w, e);
    LoopSplits(callbacks[..k], callbacks[k..], w, e);
    assert callbacks[..k] + callbacks[k..] == callbacks;
    var unguarded := Loop(false, callbacks, w, e);
    var sent, rest := unguarded.published, Deliver(callbacks[k..], unguarded.world, e).1;
    assert sent + rest == sent <==> rest == [] by {
      assert |sent + rest| == |sent| + |rest|;
    }
  }

  // ---------- first in, first out ----------

  /** What one turn appends to the queue. */
  function Appended<W, E>(subs: Subscribers<W, E>, topicOf: E -> string, b: BusState<W, E>): seq<Item<E>>
    requires b.queue != []
  {
    match b.queue[0]
    case Event(topic, body) => Items(Deliver(SubscribersOf(subs, topic), b.world, body).1, topicOf)
    case _ => []
  }

  /** The items at most n turns take, oldest first. */
  function Taken<W, E>(subs: Subscribers<W, E>, topicOf: E -> string, b: BusState<W, E>, n: nat): seq<Item<E>>
    decreases n
  {
    if n == 0 || b.queue == [] || !b.waiting then []
    else [b.queue[0]] + Taken(subs, topicOf, Turn(subs, topicOf, b), n - 1)
  }

  /** The items at most n turns append, in the order they are published. */
  function Published<W, E>(subs: Subscribers<W, E>, topicOf: E -> string, b: BusState<W, E>, n: nat): seq<Item<E>>
    decreases n
  {
    if n == 0 || b.queue == [] || !b.waiting then []
    else Appended(subs, topicOf, b) + Published(subs, topicOf, Turn(subs, topicOf, b), n - 1)
  }

  /** The world after delivering every event among some items to all its subscribers, in order. */
  function Delivered<W, E>(subs: Subscribers<W, E>, items: seq<Item<E>>, w: W): W
    decreases |items|
  {
    if items == [] then w
    else
      var next := match items[0]
                  case Event(topic, body) => Deliver(SubscribersOf(subs, topic), w, body).0
                  case _ => w;
      Delivered(subs, items[1..], next)
  }

  lemma TurnIs<W, E>(subs: Subscribers<W, E>, topicOf: E -> string, b: BusState<W, E>)
    requires b.queue != [] && b.waiting
    ensures Turn(subs, topicOf, b).queue == b.queue[1..] + Appended(subs, topicOf, b)
    ensures Turn(subs, topicOf, b).world == Delivered(subs, [b.queue[0]], b.world)
  {
    hide Items, Deliver;
    assert [b.queue[0]][1..] == [];
  }

  lemma DeliveredFirst<W, E>(subs: Subscribers<W, E>, first: Item<E>, rest: seq<Item<E>>, w: W)
    ensures Delivered(subs, [first] + rest, w) == Delivered(subs, rest, Delivered(subs, [first], w))
  {
    hide Deliver;
    assert ([first] + rest)[1..] == rest && [first][1..] == [];
  }

  /** Items leave the queue in the order they entered it: those taken are a prefix of the old queue
      followed by everything published, what is left is the rest of it, and the world is that of the
      events taken. The turns stop short of n only at an empty queue or an ended loop. */
  lemma {:induction false} FirstInFirstOut<W, E>(
    subs: Subscribers<W, E>, topicOf: E -> string, b: BusState<W, E>, n: nat)
    ensures var taken, end := Taken(subs, topicOf, b, n), Turns(subs, topicOf, b, n);
            && taken + end.queue == b.queue + Published(subs, topicOf, b, n)
            && end.world == Delivered(subs, taken, b.world)
            && |taken| <= n
            && (|taken| < n ==> end.queue == [] || !end.waiting)
            && end == Turns(subs, topicOf, b, |taken|)
    decreases n
  {
    hide Turn, Appended, Delivered;
    if n > 0 && b.queue != [] && b.waiting {
      var next, added, first := Turn(subs, topicOf, b), Appended(subs, topicOf, b), b.queue[0];
      FirstInFirstOut(subs, topicOf, next, n - 1);
      TurnIs(subs, topicOf, b);
      var later, end := Taken(subs, topicOf, next, n - 1), Turns(subs, topicOf, next, n - 1);
      var published := Published(subs, topicOf, next, n - 1);
      DeliveredFirst(subs, first, later, b.world);
      Rejoined(first, later, end.queue, b.queue, added, published);
    } else {
      assert Delivered(subs, [], b.world) == b.world by { NothingDelivered(subs, b.world); }
    }
  }

  lemma NothingDelivered<W, E>(subs: Subscribers<W, E>, w: W)
    ensures Delivered(subs, [], w) == w
  {
  }

  lemma Rejoined<T>(first: T, later: seq<T>, left: seq<T>, queue: seq<T>, added: seq<T>, published: seq<T>)
    requires queue != [] && queue[0] == first && later + left == queue[1..] + added + published
    ensures [first] + later + left == queue + (added + published)
  {
    assert queue == [first] + queue[1..];
    assert [first] + later + left == [first] + (later + left);
  }

  // ---------- stopping and starting again ----------

  lemma {:induction false} ItemsAreNoStops<E>(events: seq<E>, topicOf: E -> string)
    ensures Stop !in Items(events, topicOf)
  {
    if events != [] {
      ItemsAreNoStops(events[..|events| - 1], topicOf);
    }
  }

  /** A running bus goes on after n turns exactly when no stop sentinel was among the first n items it
      had queued: publishing never adds one, and `running` stays set either way. */
  lemma {:induction false} OnlyQueuedStopsEndTheLoop<W, E>(
    subs: Subscribers<W, E>, topicOf: E -> string, b: BusState<W, E>, n: nat)
    requires b.running && b.waiting
    ensures Turns(subs, topicOf, b, n).running
    ensures Turns(subs, topicOf, b, n).waiting <==> forall i | 0 <= i < n && i < |b.queue| :: b.queue[i] != Stop
    decreases n
  {
    hide Items, Deliver;
    if n > 0 && b.queue != [] {
      var next := Turn(subs, topicOf, b);
      assert forall i | 0 < i < |b.queue| :: next.queue[i - 1] == b.queue[i];
      if b.queue[0].Event? {
        ItemsAreNoStops(Deliver(SubscribersOf(subs, b.queue[0].topic), b.world, b.queue[0].body).1, topicOf);
      }
      if b.queue[0] != Stop {
        OnlyQueuedStopsEndTheLoop(subs, topicOf, next, n - 1);
        LaterStops(b.queue, next.queue, n);
      }
    }
  }

  lemma LaterStops<E>(queue: seq<Item<E>>, next: seq<Item<E>>, n: nat)
    requires n > 0 && queue != [] && queue[0] != Stop && |next| >= |queue| - 1
    requires forall i | 0 < i < |queue| :: next[i - 1] == queue[i]
    requires forall i | |queue| - 1 <= i < |next| :: next[i] != Stop
    ensures (forall i | 0 <= i < n - 1 && i < |next| :: next[i] != Stop) <==>
            (forall i | 0 <= i < n && i < |queue| :: queue[i] != Stop)
  {
    if forall i | 0 <= i < n - 1 && i < |next| :: next[i] != Stop {
      forall i | 0 < i < n && i < |queue| ensures queue[i] != Stop {
        assert next[i - 1] == queue[i];
      }
    } else {
      var i :| 0 <= i < n - 1 && i < |next| && next[i] == Stop;
      assert next[i] == queue[i + 1];
    }
  }

  /** Requesting a stop, and starting, as state changes. */
  function Stopped<W, E>(b: BusState<W, E>): BusState<W, E> {
    if b.running then b.(queue := b.queue + [Stop], running := false) else b
  }

  function Started<W, E>(b: BusState<W, E>): BusState<W, E> {
    if b.running then b else b.(running := true, waiting := true)
  }

  /** A stop requested while the loop waits lets it take one more item. With nothing queued before, that
      is the sentinel, and a new start leaves the loop waiting for events. With items queued before, the
      sentinel stays behind, and a new start ends at it with `running` still set: what
      comes after it is never dispatched, because every later start does nothing. */
  lemma RestartAfterStop<W, E>(subs: Subscribers<W, E>, topicOf: E -> string, b: BusState<W, E>, n: nat, m: nat)
    requires b.running && b.waiting && Stop !in b.queue && n > 0 && m >= |b.queue|
    ensures var halted := Turns(subs, topicOf, Stopped(b), n);
            var again := Turns(subs, topicOf, Started(halted), m);
            && !halted.running && !halted.waiting
            && again.running && (again.waiting <==> b.queue == [])
            && (b.queue != [] ==>
                && halted.queue == b.queue[1..] + [Stop] + Appended(subs, topicOf, b)
                && Started(again) == again)
  {
    hide Items, Deliver;
    var stopped := Stopped(b);
    var halted := Turn(subs, topicOf, stopped);
    assert Turns(subs, topicOf, stopped, n) == halted by {
      assert Turns(subs, topicOf, halted, n - 1) == halted;
    }
    var started := Started(halted);
    OnlyQueuedStopsEndTheLoop(subs, topicOf, started, m);
    if b.queue == [] {
      assert stopped.queue == [Stop];
    } else {
      assert stopped.queue[1..] == b.queue[1..] + [Stop];
      assert started.queue[|b.queue| - 1] == Stop;
    }
  }

  /** An event without a type is dropped: taking it changes neither the world nor what else is queued. Any
      other reaches every subscriber of its type. */
  lemma UntypedIsDropped<W, E>(subs: Subscribers<W, E>, topicOf: E -> string, b: BusState<W, E>, e: E)
    requires b.waiting && b.queue != [] && b.queue[0] == ItemOf(e, topicOf)
    ensures var next := Turn(subs, topicOf, b);
            && next.running == b.running && next.waiting == b.running
            && (topicOf(e) == "" ==> next.world == b.world && next.queue == b.queue[1..])
            && (topicOf(e) != "" && topicOf(e) in subs ==>
                next.world == Loop(true, subs[topicOf(e)], b.world, e).world
                && next.queue == b.queue[1..] + Items(Loop(true, subs[topicOf(e)], b.world, e).published, topicOf))
            && (topicOf(e) != "" && topicOf(e) !in subs ==> next.world == b.world && next.queue == b.queue[1..])
  {
    hide Items;
    NoItems(topicOf);
    assert b.queue[1..] + [] == b.queue[1..];
  }
}
