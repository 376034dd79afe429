/** Per-symbol order-book slots, listener start and the reconnect loop
    (websocket_client.py). The network, the asyncio event loop and the
    threads themselves are not modelled: what `websockets.connect`,
    `recv`, `json.loads` and `asyncio.sleep` do is given as a trace of
    events, and `time.time()` as the receipt time carried by each message. */
module WebSocketClient {
  import opened Wrappers

  /** One price level `[price, size]` of a book side. */
  datatype Level = Level(price: real, size: real)

  /** A decoded order-book frame. A missing "bids" or "asks" key is the
      empty sequence, as `data.get("bids", [])` reads it. */
  datatype OrderBook = OrderBook(bids: seq<Level>, asks: seq<Level>)

  /** What the listener puts in a slot: the decoded frame paired with the
      clock reading taken when it arrived. */
  datatype Stamped = Stamped(data: OrderBook, timestamp: real)

  /** `Queue(maxsize=1)`. */
  const MaxSize: nat := 1

  const PingInterval: nat := 5
  const PingTimeout: nat := 5
  const ReconnectDelay: nat := 1

  const FeedBase: string := "wss://ws.gomarket-cpp.goquant.io/ws/l2-orderbook/okx/"

  // ---------------------------------------------------------------------
  // Slot semantics as values

  /** `put((data, timestamp), block=False)` with `Full` swallowed: the
      item is stored only if the slot is empty; on a full slot the NEW item
      is dropped and the older unread one stays. The put never fails. */
  function Offer(items: seq<Stamped>, x: Stamped): (r: seq<Stamped>)
    requires |items| <= MaxSize
    ensures |r| <= MaxSize
    ensures items == [] ==> r == [x]
    ensures items != [] ==> r == items
  {
    if |items| < MaxSize then items + [x] else items
  }

  /** A slot after offering each of `xs` in turn, with no read between. */
  function OfferAll(items: seq<Stamped>, xs: seq<Stamped>): (r: seq<Stamped>)
    requires |items| <= MaxSize
    ensures |r| <= MaxSize
    decreases |xs|
  {
    if xs == [] then items else OfferAll(Offer(items, xs[0]), xs[1..])
  }

  /** Of any burst of ticks offered to an empty slot with no read between,
      the slot keeps the FIRST; on a full slot nothing changes. */
  lemma {:induction false} OfferAllKeepsOldest(items: seq<Stamped>, xs: seq<Stamped>)
    requires |items| <= MaxSize
    ensures items != [] ==> OfferAll(items, xs) == items
    ensures items == [] && xs != [] ==> OfferAll(items, xs) == [xs[0]]
    decreases |xs|
  {
    if xs != [] {
      OfferAllKeepsOldest(Offer(items, xs[0]), xs[1..]);
    }
  }

  // ---------------------------------------------------------------------
  // The capacity-1 queue itself

  /** The `Queue(maxsize=1)` shared by listener and consumer. */
  class Slot {
    var items: seq<Stamped>

    ghost predicate Valid()
      reads this
    {
      |items| <= MaxSize
    }

    constructor ()
      ensures Valid() && items == []
    {
      items := [];
    }

    /** `put(x, block=False)`: reports `full` (where Python raises `Full`)
        instead of storing when the slot already holds an item. */
    method PutNowait(x: Stamped) returns (full: bool)
      requires Valid()
      modifies this
      ensures Valid()
      ensures full <==> |old(items)| == MaxSize
      ensures items == if full then old(items) else old(items) + [x]
    {
      full := |items| == MaxSize;
      if !full {
        items := items + [x];
      }
    }

    /** `get_nowait()`: the oldest item, removed, or `None` (where Python
        raises `Empty`) on an empty slot. */
    method GetNowait() returns (r: Option<Stamped>)
      requires Valid()
      modifies this
      ensures Valid()
      ensures old(items) == [] ==> r == None && items == []
      ensures old(items) != [] ==> r == Some(old(items)[0]) && items == old(items)[1..]
      ensures items == []
    {
      if items == [] {
        r := None;
      } else {
        r := Some(items[0]);
        items := items[1..];
      }
    }
  }

  /** The listener's write: put, and ignore `Full`. */
  method Publish(slot: Slot, x: Stamped)
    requires slot.Valid()
    modifies slot
    ensures slot.Valid()
    ensures slot.items == Offer(old(slot.items), x)
  {
    var full := slot.PutNowait(x);
  }

  /** Two ticks T1 then T2 published with no read between: the next read
      returns T1, and the read after that finds the slot empty. */
  method KeepsOlderTick(t1: Stamped, t2: Stamped) returns (first: Option<Stamped>, second: Option<Stamped>)
    ensures first == Some(t1)
    ensures second == None
  {
    var slot := new Slot();
    Publish(slot, t1);
    Publish(slot, t2);
    first := slot.GetNowait();
    second := slot.GetNowait();
  }

  // ---------------------------------------------------------------------
  // The registry `orderbook_queues`

  /** The symbol-to-slot dictionary. Distinct symbols never share a slot. */
  class Registry {
    var queues: map<string, Slot>

    ghost predicate Valid()
      reads this, queues.Values
    {
      && (forall s :: s in queues ==> queues[s].Valid())
      && (forall s, t :: s in queues && t in queues && s != t ==> queues[s] != queues[t])
    }

    constructor ()
      ensures Valid() && queues == map[]
    {
      queues := map[];
    }

    /** `get_orderbook_queue`: the symbol's existing slot, leaving the
        registry as it was, or a fresh empty slot added under that one key,
        every other entry unchanged. */
    method GetOrderbookQueue(symbol: string) returns (q: Slot)
      requires Valid()
      modifies this
      ensures Valid()
      ensures symbol in queues && queues[symbol] == q
      ensures symbol in old(queues) ==> q == old(queues)[symbol] && queues == old(queues)
      ensures symbol !in old(queues) ==>
                fresh(q) && q.items == [] && queues == old(queues)[symbol := q]
    {
      if symbol !in queues {
        var slot := new Slot();
        queues := queues[symbol := slot];
      }
      q := queues[symbol];
    }
  }

  /** Asking twice for the same symbol gives the same slot, and the second
      call leaves the registry as the first left it. */
  method GetTwice(reg: Registry, symbol: string) returns (q1: Slot, q2: Slot)
    requires reg.Valid()
    modifies reg
    ensures reg.Valid()
    ensures symbol in reg.queues && q1 == q2 && reg.queues[symbol] == q1
    ensures symbol in old(reg.queues) ==> reg.queues == old(reg.queues)
    ensures reg.queues.Keys == old(reg.queues).Keys + {symbol}
    ensures symbol !in old(reg.queues) ==>
              fresh(q1) && q1.items == [] && reg.queues == old(reg.queues)[symbol := q1]
  {
    q1 := reg.GetOrderbookQueue(symbol);
    ghost var between := reg.queues;
    q2 := reg.GetOrderbookQueue(symbol);
    assert reg.queues == between;
  }

  // ---------------------------------------------------------------------
  // Starting listeners

  /** The name of the listener thread for a symbol, `ws-{symbol}`. */
  function ThreadName(symbol: string): (name: string)
    ensures |name| == |symbol| + 3 && name[..3] == "ws-" && name[3..] == symbol
  {
    "ws-" + symbol
  }

  /** The feed endpoint for a symbol. */
  function FeedUri(symbol: string): (uri: string)
    ensures |uri| == |FeedBase| + |symbol| && uri[..|FeedBase|] == FeedBase && uri[|FeedBase|..] == symbol
  {
    FeedBase + symbol
  }

  /** Distinct symbols have distinct thread names, so the name check never
      confuses two symbols. */
  lemma ThreadNameInjective(a: string, b: string)
    ensures ThreadName(a) == ThreadName(b) <==> a == b
  {
    if ThreadName(a) == ThreadName(b) {
      assert a == ThreadName(a)[3..] == ThreadName(b)[3..] == b;
    }
  }

  /** A started listener thread: the endpoint it connects to and the slot
      it writes into. */
  datatype Listener = Listener(uri: string, slot: Slot)

  /** The threads of the process, seen through `threading.enumerate()` by
      name, and the listeners this module started (keyed by thread name). */
  class ListenerManager {
    const registry: Registry
    var threadNames: set<string>
    var listeners: map<string, Listener>

    ghost predicate Valid()
      reads this, registry, registry.queues.Values
    {
      && registry.Valid()
      && listeners.Keys <= threadNames
      && (forall n :: n in listeners ==> listeners[n].slot in registry.queues.Values)
    }

    /** A manager over `registry` in a process whose running threads are
        named `running`. */
    constructor (registry: Registry, running: set<string>)
      requires registry.Valid()
      ensures Valid()
      ensures this.registry == registry && threadNames == running && listeners == map[]
    {
      this.registry := registry;
      threadNames := running;
      listeners := map[];
    }

    /** `run_listener_for_symbol`: get or create the symbol's slot, then
        start a listener thread on the symbol's endpoint and slot only if
        no running thread is named `ws-{symbol}`. The listener loop never
        exits, so a started thread stays among the running ones. */
    method RunListenerForSymbol(symbol: string) returns (started: bool)
      requires Valid()
      modifies this, registry
      ensures Valid()
      ensures registry.queues.Keys == old(registry.queues).Keys + {symbol}
      ensures symbol in old(registry.queues) ==> registry.queues == old(registry.queues)
      ensures symbol !in old(registry.queues) ==>
                && fresh(registry.queues[symbol]) && registry.queues[symbol].items == []
                && registry.queues == old(registry.queues)[symbol := registry.queues[symbol]]
      ensures started <==> ThreadName(symbol) !in old(threadNames)
      ensures threadNames == old(threadNames) + {ThreadName(symbol)}
      ensures started ==>
                listeners == old(listeners)[ThreadName(symbol) :=
                                            Listener(FeedUri(symbol), registry.queues[symbol])]
      ensures !started ==> listeners == old(listeners)
    {
      ghost var before := registry.queues;
      var queue := registry.GetOrderbookQueue(symbol);
      assert forall n :: n in listeners ==> listeners[n].slot in registry.queues.Values by {
        forall n | n in listeners ensures listeners[n].slot in registry.queues.Values {
          var k :| k in before && before[k] == listeners[n].slot;
          assert registry.queues[k] == before[k];
        }
      }
      var uri := FeedUri(symbol);
      var name := ThreadName(symbol);
      started := name !in threadNames;
      if started {
        listeners := listeners[name := Listener(uri, queue)];
        threadNames := threadNames + {name};
      }
    }
  }

  /** Subscribing twice starts at most one listener: the second call finds
      the first one's thread and starts nothing. */
  method SubscribeTwice(m: ListenerManager, symbol: string) returns (first: bool, second: bool)
    requires m.Valid()
    modifies m, m.registry
    ensures m.Valid()
    ensures first <==> ThreadName(symbol) !in old(m.threadNames)
    ensures !second
    ensures ThreadName(symbol) in m.listeners || ThreadName(symbol) in old(m.threadNames)
  {
    first := m.RunListenerForSymbol(symbol);
    second := m.RunListenerForSymbol(symbol);
  }

  // ---------------------------------------------------------------------
  // The reconnect loop of `_ws_listener`

  /** Where the listener is blocked: opening a connection, awaiting the
      next message, or sleeping `ReconnectDelay` after an exception. */
  datatype Phase = Connecting | Receiving | Backoff

  /** The result of the await the listener is blocked on. */
  datatype Event =
    | Connected                                           // `websockets.connect` succeeded
    | ConnectFailed                                       // `websockets.connect` raised
    | Message(frame: Option<OrderBook>, receivedAt: real) // `recv` returned; `None`: `json.loads` raised
    | ConnectionLost                                      // `recv` raised (close, ping timeout)
    | SleepDone                                           // `asyncio.sleep` returned

  /** The listener's phase and the slot it writes into. */
  datatype ListenerState = ListenerState(phase: Phase, items: seq<Stamped>)

  /** The await of `phase` raised: the connection attempt failed, or the
      read found the connection closed or a frame `json.loads` rejects.
      Every such exception leaves the inner loop for the outer handler. */
  predicate Raises(phase: Phase, e: Event)
    ensures Raises(phase, e) ==> phase != Backoff && !e.Connected? && !e.SleepDone?
    ensures e.Message? && e.frame.None? ==> (Raises(phase, e) <==> phase == Receiving)
  {
    || (phase == Connecting && e.ConnectFailed?)
    || (phase == Receiving && (e.ConnectionLost? || (e.Message? && e.frame.None?)))
  }

  /** One transition. An event that the current await does not produce
      leaves the state as it is. */
  function Step(s: ListenerState, e: Event): (r: ListenerState)
    requires |s.items| <= MaxSize
    ensures |r.items| <= MaxSize
    ensures s.phase == Connecting && e.Connected? ==> r == ListenerState(Receiving, s.items)
    ensures Raises(s.phase, e) ==> r == ListenerState(Backoff, s.items)
    ensures s.phase == Backoff && e.SleepDone? ==> r == ListenerState(Connecting, s.items)
    ensures s.phase == Receiving && e.Message? && e.frame.Some? ==>
              r == ListenerState(Receiving, Offer(s.items, Stamped(e.frame.value, e.receivedAt)))
    ensures r.items != s.items ==> s.phase == Receiving && e.Message? && e.frame.Some?
  {
    match s.phase
    case Connecting =>
      if e.Connected? then ListenerState(Receiving, s.items)
      else if e.ConnectFailed? then ListenerState(Backoff, s.items)
      else s
    case Receiving =>
      if e.Message? then
        if e.frame.Some? then
          ListenerState(Receiving, Offer(s.items, Stamped(e.frame.value, e.receivedAt)))
        else
          ListenerState(Backoff, s.items)
      else if e.ConnectionLost? then ListenerState(Backoff, s.items)
      else s
    case Backoff =>
      if e.SleepDone? then ListenerState(Connecting, s.items) else s
  }

  /** The state after a whole trace of events, in order. */
  function Run(s: ListenerState, events: seq<Event>): (r: ListenerState)
    requires |s.items| <= MaxSize
    ensures |r.items| <= MaxSize
    decreases |events|
  {
    if events == [] then s
    else Step(Run(s, events[..|events| - 1]), events[|events| - 1])
  }

  /** No phase is terminal: from each one, the failure of its await and the
      end of the back-off bring the listener back to a connection attempt,
      with the slot untouched. */
  lemma NoExit(s: ListenerState)
    requires |s.items| <= MaxSize
    ensures var f := if s.phase == Receiving then ConnectionLost else ConnectFailed;
            Run(s, if s.phase == Backoff then [SleepDone] else [f, SleepDone])
              == ListenerState(Connecting, s.items)
  {
    var f := if s.phase == Receiving then ConnectionLost else ConnectFailed;
    var back := ListenerState(Backoff, s.items);
    if s.phase == Backoff {
      assert [SleepDone][..0] == [];
      assert Run(s, [SleepDone]) == Step(s, SleepDone);
    } else {
      assert [f][..0] == [];
      assert Raises(s.phase, f);
      assert Run(s, [f]) == Step(s, f) == back;
      assert [f, SleepDone][..1] == [f];
      assert Run(s, [f, SleepDone]) == Step(back, SleepDone);
    }
  }

  /** A frame that does not decode ends the connection: the listener backs
      off and reconnects instead of dropping the frame and reading on. */
  lemma DecodeFailureReconnects(items: seq<Stamped>, t: real)
    requires |items| <= MaxSize
    ensures Step(ListenerState(Receiving, items), Message(None, t)) == ListenerState(Backoff, items)
    ensures Step(ListenerState(Backoff, items), SleepDone) == ListenerState(Connecting, items)
  {
  }

  /** Connecting and then receiving one decoded frame stores that frame in
      an empty slot, stamped with its receipt time. */
  lemma ConnectThenFrameStored(b: OrderBook, t: real)
    ensures Run(ListenerState(Connecting, []), [Connected, Message(Some(b), t)])
         == ListenerState(Receiving, [Stamped(b, t)])
  {
    var s := ListenerState(Connecting, []);
    var es := [Connected, Message(Some(b), t)];
    assert es[..1] == [Connected];
    assert [Connected][..0] == [];
    assert Run(s, [Connected]) == Step(s, Connected) == ListenerState(Receiving, []);
    assert Run(s, es) == Step(ListenerState(Receiving, []), Message(Some(b), t));
  }

  /** `n` failed connection attempts, each followed by its back-off. */
  function FailedAttempts(n: nat): (es: seq<Event>)
    ensures |es| == 2 * n
  {
    if n == 0 then [] else FailedAttempts(n - 1) + [ConnectFailed, SleepDone]
  }

  /** After any number of consecutive failed attempts the listener is
      again attempting to connect: it never gives up. */
  lemma {:induction false} RetriesForever(items: seq<Stamped>, n: nat)
    requires |items| <= MaxSize
    ensures Run(ListenerState(Connecting, items), FailedAttempts(n)) == ListenerState(Connecting, items)
  {
    if n > 0 {
      var s := ListenerState(Connecting, items);
      var prefix := FailedAttempts(n - 1);
      var es := FailedAttempts(n);
      RetriesForever(items, n - 1);
      assert es[..|es| - 1] == prefix + [ConnectFailed];
      assert (prefix + [ConnectFailed])[..|prefix|] == prefix;
      assert Run(s, prefix + [ConnectFailed]) == ListenerState(Backoff, items);
    }
  }

  /** While a tick sits unread, nothing the listener does changes the slot:
      every later frame is dropped. */
  lemma {:induction false} UnreadTickKept(s: ListenerState, events: seq<Event>)
    requires |s.items| == MaxSize
    ensures Run(s, events).items == s.items
    decreases |events|
  {
    if events != [] {
      UnreadTickKept(s, events[..|events| - 1]);
    }
  }

  /** When an empty slot ends up filled, it holds one of the trace's
      decoded frames, paired with that frame's receipt time. */
  lemma {:induction false} FirstFrameStored(s: ListenerState, events: seq<Event>)
    requires s.items == [] && |events| > 0
    requires Run(s, events).items != []
    ensures exists k :: 0 <= k < |events| && events[k].Message? && events[k].frame.Some?
              && Run(s, events).items == [Stamped(events[k].frame.value, events[k].receivedAt)]
    decreases |events|
  {
    var init := events[..|events| - 1];
    var e := events[|events| - 1];
    var before := Run(s, init);
    if before.items == [] {
      assert Run(s, events) == Step(before, e);
      assert before.phase == Receiving && e.Message? && e.frame.Some?;
      assert Run(s, events).items == [Stamped(e.frame.value, e.receivedAt)];
    } else {
      FirstFrameStored(s, init);
      var k :| 0 <= k < |init| && init[k].Message? && init[k].frame.Some?
                && before.items == [Stamped(init[k].frame.value, init[k].receivedAt)];
      assert events[k] == init[k];
      assert Run(s, events).items == before.items;
    }
  }

  /** `_ws_listener` driven by a finite trace of await results: the
      connect/read/retry loops flattened into one loop over the events. */
  method Listen(slot: Slot, events: seq<Event>) returns (phase: Phase)
    requires slot.Valid()
    modifies slot
    ensures slot.Valid()
    ensures ListenerState(phase, slot.items) == Run(ListenerState(Connecting, old(slot.items)), events)
  {
    ghost var init := ListenerState(Connecting, slot.items);
    phase := Connecting;
    var i := 0;
    while i < |events|
      invariant 0 <= i <= |events|
      invariant slot.Valid()
      invariant ListenerState(phase, slot.items) == Run(init, events[..i])
    {
      var e := events[i];
      assert events[..i + 1][..i] == events[..i];
      match phase {
        case Connecting =>
          if e.Connected? {
            phase := Receiving;
          } else if e.ConnectFailed? {
            phase := Backoff;
          }
        case Receiving =>
          if e.Message? {
            if e.frame.Some? {
              Publish(slot, Stamped(e.frame.value, e.receivedAt));
            } else {
              phase := Backoff;
            }
          } else if e.ConnectionLost? {
            phase := Backoff;
          }
        case Backoff =>
          if e.SleepDone? {
            phase := Connecting;
          }
      }
      i := i + 1;
    }
    assert events[..|events|] == events;
  }
}
