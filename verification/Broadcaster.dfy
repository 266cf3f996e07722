/**
 Ordered fan-out of task events over Redis pub/sub: each subscriber has its own
 connection buffer, a pump coroutine that drains it into an asyncio queue, and a
 WebSocket loop that empties the queue.
 */
module Broadcaster {
  import opened Common
  import opened JsonLines

  /** The payload that ends the stream. */
  const END := "__end__"

  /** What a subscriber's queue holds: an event, or the None that ends the stream. */
  datatype Delivery<E> = Event(event: E) | Closed

  /** What one raw message puts on the queue; payloads that are not JSON are dropped. */
  function Delivered<E>(json: Json<E>, raw: string): seq<Delivery<E>> {
    if raw == END then [Closed]
    else match json.loads(raw) { case Some(e) => [Event(e)] case None => [] }
  }

  /** What the pump puts on the queue out of a stream of raw messages: it stops at the end marker. */
  function Pumped<E>(json: Json<E>, raws: seq<string>): seq<Delivery<E>> {
    if raws == [] then []
    else if raws[0] == END then [Closed]
    else Delivered(json, raws[0]) + Pumped(json, raws[1..])
  }

  /** How many messages the pump takes from the buffer before it stops. */
  function Drained(raws: seq<string>): nat {
    if raws == [] then 0 else if raws[0] == END then 1 else 1 + Drained(raws[1..])
  }

  /** The loop of `_pump` over what is in the buffer, with nobody unsubscribing. */
  method Pump<E>(json: Json<E>, buffer: seq<string>) returns (queue: seq<Delivery<E>>, left: seq<string>)
    ensures queue == Pumped(json, buffer)
    ensures Drained(buffer) <= |buffer| && left == buffer[Drained(buffer)..]
    ensures |left| <= |buffer| && left == buffer[|buffer| - |left|..]
    ensures forall i :: 0 <= i < |buffer| - |left| - 1 ==> buffer[i] != END
    ensures left != [] ==> |left| < |buffer| && buffer[|buffer| - |left| - 1] == END
  {
    queue, left := [], buffer;
    while left != []
      invariant forall i :: 0 <= i < |buffer| - |left| ==> buffer[i] != END
      invariant |left| <= |buffer| && left == buffer[|buffer| - |left|..]
      invariant Pumped(json, buffer) == queue + Pumped(json, left)
      invariant Drained(buffer) == |buffer| - |left| + Drained(left)
      decreases |left|
    {
      var raw := left[0];
      if raw == END {
        queue, left := queue + [Closed], left[1..];
        return;
      }
      var event := json.loads(raw);
      if event.Some? {
        queue := queue + [Event(event.value)];
      }
      left := left[1..];
    }
  }

  // ----------------------------------------------- publishers and subscribers

  /**
   A subscriber: where in the stream it subscribed, how many messages its pump has
   taken off the connection, what the connection still buffers, everything the pump
   has put on the queue, what the WebSocket loop has sent, and whether pump and
   connection are still up.
   */
  datatype Subscriber<E> = Subscriber(
    since: nat,
    taken: nat,
    buffer: seq<string>,
    queued: seq<Delivery<E>>,
    sent: seq<E>,
    pumping: bool,
    connected: bool)

  /** `log` is the history of one task: its events and end markers in the order they were published. */
  datatype State<E> = State(log: seq<Delivery<E>>, subscribers: map<nat, Subscriber<E>>)

  datatype Action<E> =
    | Subscribe(s: nat)
    | Publish(event: E)
    | CloseTask
    | PumpOne(s: nat)
    | Send(s: nat)
    | Unsubscribe(s: nat)

  /** The payload of `publish` and of `close_task`. */
  function Encode<E>(json: Json<E>, d: Delivery<E>): string {
    match d { case Event(e) => json.dumps(e) case Closed => END }
  }

  function PublishStep<E>(json: Json<E>, st: State<E>, d: Delivery<E>): State<E> {
    State(st.log + [d], map s | s in st.subscribers :: Receive(json, st.subscribers[s], d))
  }

  function Receive<E>(json: Json<E>, sub: Subscriber<E>, d: Delivery<E>): Subscriber<E> {
    if sub.connected then sub.(buffer := sub.buffer + [Encode(json, d)]) else sub
  }

  /** One iteration of `_pump`. */
  function PumpStep<E>(json: Json<E>, sub: Subscriber<E>): Subscriber<E> {
    if !sub.pumping || sub.buffer == [] then sub
    else
      sub.(taken := sub.taken + 1,
           buffer := sub.buffer[1..],
           queued := sub.queued + Delivered(json, sub.buffer[0]),
           pumping := sub.buffer[0] != END)
  }

  /** One iteration of `_send_loop`: forwards the next event, and goes no further than a None. */
  function SendStep<E>(sub: Subscriber<E>): Subscriber<E> {
    var n := |sub.sent|;
    if n < |sub.queued| && sub.queued[n].Event? then sub.(sent := sub.sent + [sub.queued[n].event]) else sub
  }

  function Step<E>(json: Json<E>, st: State<E>, a: Action<E>): State<E> {
    match a
    case Subscribe(s) =>
      if s in st.subscribers then st
      else st.(subscribers := st.subscribers[s := Subscriber(|st.log|, 0, [], [], [], true, true)])
    case Publish(event) => PublishStep(json, st, Event(event))
    case CloseTask => PublishStep(json, st, Closed)
    case PumpOne(s) =>
      if s in st.subscribers then st.(subscribers := st.subscribers[s := PumpStep(json, st.subscribers[s])]) else st
    case Send(s) =>
      if s in st.subscribers then st.(subscribers := st.subscribers[s := SendStep(st.subscribers[s])]) else st
    case Unsubscribe(s) =>
      if s in st.subscribers
      then st.(subscribers := st.subscribers[s := st.subscribers[s].(pumping := false, connected := false)])
      else st
  }

  function Play<E>(json: Json<E>, schedule: seq<Action<E>>): State<E> {
    if schedule == [] then State([], map[])
    else Step(json, Play(json, schedule[..|schedule| - 1]), schedule[|schedule| - 1])
  }

  // ---------------------------------------------------------------- invariant

  predicate Encodes<E>(json: Json<E>, raws: seq<string>, ds: seq<Delivery<E>>) {
    |raws| == |ds| && forall i :: 0 <= i < |ds| ==> raws[i] == Encode(json, ds[i])
  }

  ghost predicate SubscriberOk<E>(json: Json<E>, log: seq<Delivery<E>>, sub: Subscriber<E>) {
    var n := |sub.queued|;
    && n == sub.taken && sub.since + n <= |log|
    && sub.queued == log[sub.since..sub.since + n]
    && (sub.connected ==> Encodes(json, sub.buffer, log[sub.since + n..]))
    && (forall i :: 0 <= i < n - 1 ==> sub.queued[i].Event?)
    && (sub.pumping ==> sub.connected)
    && (sub.connected ==> (sub.pumping <==> n == 0 || sub.queued[n - 1].Event?))
    && |sub.sent| <= n
    && (forall i :: 0 <= i < |sub.sent| ==> sub.queued[i] == Event(sub.sent[i]))
  }

  /** Decoding undoes encoding, and no event is mistaken for the end marker. */
  lemma DeliveredIsEncoded<E(!new)>(json: Json<E>, d: Delivery<E>)
    requires Faithful(json)
    ensures Delivered(json, Encode(json, d)) == [d]
    ensures Encode(json, d) == END <==> d == Closed
  {
    match d
    case Event(e) => assert Printable(json.dumps(e));
    case Closed =>
  }

  lemma ReceiveOk<E>(json: Json<E>, log: seq<Delivery<E>>, sub: Subscriber<E>, d: Delivery<E>)
    requires SubscriberOk(json, log, sub)
    ensures SubscriberOk(json, log + [d], Receive(json, sub, d))
  {
    var n := |sub.queued|;
    assert (log + [d])[sub.since..sub.since + n] == log[sub.since..sub.since + n];
    assert (log + [d])[sub.since + n..] == log[sub.since + n..] + [d];
  }

  lemma PumpOk<E(!new)>(json: Json<E>, log: seq<Delivery<E>>, sub: Subscriber<E>)
    requires Faithful(json) && SubscriberOk(json, log, sub)
    ensures SubscriberOk(json, log, PumpStep(json, sub))
  {
    if sub.pumping && sub.buffer != [] {
      var n := |sub.queued|;
      var d := log[sub.since + n];
      assert log[sub.since + n..][0] == d;
      DeliveredIsEncoded(json, d);
      assert log[sub.since..sub.since + n + 1] == log[sub.since..sub.since + n] + [d];
      assert log[sub.since + n + 1..] == log[sub.since + n..][1..];
    }
  }

  ghost predicate Inv<E>(json: Json<E>, st: State<E>) {
    forall s :: s in st.subscribers ==> SubscriberOk(json, st.log, st.subscribers[s])
  }

  lemma SendOk<E>(json: Json<E>, log: seq<Delivery<E>>, sub: Subscriber<E>)
    requires SubscriberOk(json, log, sub)
    ensures SubscriberOk(json, log, SendStep(sub))
  {
  }

  lemma PublishKeepsInv<E>(json: Json<E>, st: State<E>, d: Delivery<E>)
    requires Inv(json, st)
    ensures Inv(json, PublishStep(json, st, d))
  {
    forall s | s in st.subscribers { ReceiveOk(json, st.log, st.subscribers[s], d); }
  }

  lemma PutKeepsInv<E>(json: Json<E>, st: State<E>, s: nat, sub: Subscriber<E>)
    requires Inv(json, st) && SubscriberOk(json, st.log, sub)
    ensures Inv(json, st.(subscribers := st.subscribers[s := sub]))
  {
  }

  lemma StepKeepsInv<E(!new)>(json: Json<E>, st: State<E>, a: Action<E>)
    requires Faithful(json) && Inv(json, st)
    ensures Inv(json, Step(json, st, a))
  {
    match a
    case Subscribe(s) =>
      PutKeepsInv(json, st, s, Subscriber(|st.log|, 0, [], [], [], true, true));
    case Publish(event) =>
      PublishKeepsInv(json, st, Event(event));
    case CloseTask =>
      PublishKeepsInv(json, st, Closed);
    case PumpOne(s) =>
      if s in st.subscribers {
        PumpOk(json, st.log, st.subscribers[s]);
        PutKeepsInv(json, st, s, PumpStep(json, st.subscribers[s]));
      }
    case Send(s) =>
      if s in st.subscribers {
        SendOk(json, st.log, st.subscribers[s]);
        PutKeepsInv(json, st, s, SendStep(st.subscribers[s]));
      }
    case Unsubscribe(s) =>
      if s in st.subscribers { PutKeepsInv(json, st, s, st.subscribers[s].(pumping := false, connected := false)); }
  }

  lemma {:induction false} PlayKeepsInv<E(!new)>(json: Json<E>, schedule: seq<Action<E>>)
    requires Faithful(json)
    ensures Inv(json, Play(json, schedule))
  {
    if schedule != [] {
      PlayKeepsInv(json, schedule[..|schedule| - 1]);
      StepKeepsInv(json, Play(json, schedule[..|schedule| - 1]), schedule[|schedule| - 1]);
    }
  }

  // ------------------------------------------------------------- main results

  /** The stream up to and including its first end marker. */
  function UpToClose<E>(ds: seq<Delivery<E>>): seq<Delivery<E>> {
    if ds == [] then [] else if ds[0] == Closed then [Closed] else [ds[0]] + UpToClose(ds[1..])
  }

  lemma {:induction false} UpToCloseIs<E>(ds: seq<Delivery<E>>, n: nat)
    requires n <= |ds| && forall i :: 0 <= i < n - 1 ==> ds[i].Event?
    ensures n > 0 && ds[n - 1] == Closed ==> UpToClose(ds) == ds[..n]
    ensures n == 0 || ds[n - 1].Event? ==> UpToClose(ds) == ds[..n] + UpToClose(ds[n..])
  {
    if n == 0 {
    } else if n == 1 {
      assert ds[..1] == [ds[0]];
    } else {
      UpToCloseIs(ds[1..], n - 1);
      assert [ds[0]] + ds[1..][..n - 1] == ds[..n];
      assert ds[1..][n - 1..] == ds[n..];
    }
  }

  /**
   At every moment, what an open subscription has put on its queue, followed by what
   its pump will make of the messages still buffered, is exactly the stream since
   the subscription up to the first end marker; and a pump that has stopped has
   delivered all of it, the None included, and nothing else.
   */
  lemma OrderedFanOut<E(!new)>(json: Json<E>, schedule: seq<Action<E>>, s: nat)
    requires Faithful(json) && s in Play(json, schedule).subscribers && Play(json, schedule).subscribers[s].connected
    ensures
      var st := Play(json, schedule);
      var sub := st.subscribers[s];
      && sub.since <= |st.log|
      && UpToClose(st.log[sub.since..]) == sub.queued + if sub.pumping then Pumped(json, sub.buffer) else []
  {
    PlayKeepsInv(json, schedule);
    DeliveredSoFar(json, Play(json, schedule).log, Play(json, schedule).subscribers[s]);
  }

  lemma DeliveredSoFar<E(!new)>(json: Json<E>, log: seq<Delivery<E>>, sub: Subscriber<E>)
    requires Faithful(json) && SubscriberOk(json, log, sub) && sub.connected
    ensures UpToClose(log[sub.since..]) == sub.queued + if sub.pumping then Pumped(json, sub.buffer) else []
  {
    var n := |sub.queued|;
    var ds := log[sub.since..];
    assert ds[..n] == sub.queued;
    assert ds[n..] == log[sub.since + n..];
    UpToCloseIs(ds, n);
    PumpedIsUpToClose(json, sub.buffer, ds[n..]);
  }

  lemma {:induction false} PumpedIsUpToClose<E(!new)>(json: Json<E>, raws: seq<string>, ds: seq<Delivery<E>>)
    requires Faithful(json) && Encodes(json, raws, ds)
    ensures Pumped(json, raws) == UpToClose(ds)
  {
    if raws != [] {
      DeliveredIsEncoded(json, ds[0]);
      PumpedIsUpToClose(json, raws[1..], ds[1..]);
    }
  }

  /**
   The client sees, in order and without gaps, a prefix of the events published since
   it connected, and none after an end marker.
   */
  lemma ClientSeesAPrefix<E(!new)>(json: Json<E>, schedule: seq<Action<E>>, s: nat)
    requires Faithful(json) && s in Play(json, schedule).subscribers
    ensures
      var st := Play(json, schedule);
      var sub := st.subscribers[s];
      && sub.since + |sub.sent| <= |st.log|
      && forall i :: 0 <= i < |sub.sent| ==> st.log[sub.since + i] == Event(sub.sent[i])
  {
    PlayKeepsInv(json, schedule);
    var sub := Play(json, schedule).subscribers[s];
    assert forall i :: 0 <= i < |sub.queued| ==> Play(json, schedule).log[sub.since + i] == sub.queued[i];
  }

  /** What is published is the next of the stream, and reaches exactly the connections that are up. */
  lemma PublishReachesTheConnected<E>(json: Json<E>, schedule: seq<Action<E>>, d: Delivery<E>, s: nat)
    requires s in Play(json, schedule).subscribers
    ensures
      var st := Play(json, schedule);
      var next := Play(json, schedule + [if d.Event? then Publish(d.event) else CloseTask]);
      var sub := st.subscribers[s];
      && next.log == st.log + [d] && next.subscribers.Keys == st.subscribers.Keys
      && next.subscribers[s] == if sub.connected then sub.(buffer := sub.buffer + [Encode(json, d)]) else sub
  {
    Then(json, schedule, if d.Event? then Publish(d.event) else CloseTask);
  }

  /** A new subscriber starts at the end of the stream; subscribing again changes nothing. */
  lemma SubscribersStartAtTheEnd<E>(json: Json<E>, schedule: seq<Action<E>>, s: nat)
    ensures
      var st := Play(json, schedule);
      var next := Play(json, schedule + [Subscribe(s)]);
      if s in st.subscribers then next == st
      else
        && next.log == st.log
        && next.subscribers == st.subscribers[s := Subscriber(|st.log|, 0, [], [], [], true, true)]
  {
    Then(json, schedule, Subscribe(s));
  }

  // ------------------------------------------------- nothing is held back

  /** The events in front of the first end marker. */
  function EventsOf<E>(ds: seq<Delivery<E>>): seq<E> {
    if ds == [] || ds[0].Closed? then [] else [ds[0].event] + EventsOf(ds[1..])
  }

  lemma {:induction false} EventsOfOpen<E>(ds: seq<Delivery<E>>, sent: seq<E>)
    requires |sent| <= |ds| && (forall i :: 0 <= i < |sent| ==> ds[i] == Event(sent[i]))
    requires |sent| == |ds| || ds[|sent|].Closed?
    ensures EventsOf(ds) == sent == EventsOf(UpToClose(ds))
  {
    if ds != [] && ds[0].Event? {
      EventsOfOpen(ds[1..], sent[1..]);
      assert sent == [sent[0]] + sent[1..];
      assert UpToClose(ds)[1..] == UpToClose(ds[1..]);
    }
  }

  lemma Then<E>(json: Json<E>, schedule: seq<Action<E>>, a: Action<E>)
    ensures Play(json, schedule + [a]) == Step(json, Play(json, schedule), a)
  {
    assert (schedule + [a])[..|schedule|] == schedule;
  }

  /** Only this subscriber's pump and WebSocket loop. */
  predicate OnlyServes<E(==)>(more: seq<Action<E>>, s: nat) {
    forall a | a in more :: a == PumpOne(s) || a == Send(s)
  }

  /**
   Every event gets through: after any schedule, the pump and the WebSocket loop of an
   open subscription, left alone, bring the client exactly the events published since
   it connected, up to the first end marker.
   */
  lemma {:induction false} EverythingGetsThrough<E(!new)>(json: Json<E>, schedule: seq<Action<E>>, s: nat)
    returns (more: seq<Action<E>>)
    requires Faithful(json) && s in Play(json, schedule).subscribers && Play(json, schedule).subscribers[s].connected
    ensures OnlyServes(more, s)
    ensures
      var st := Play(json, schedule + more);
      && st.log == Play(json, schedule).log && s in st.subscribers
      && st.subscribers[s].since == Play(json, schedule).subscribers[s].since <= |st.log|
      && st.subscribers[s].sent == EventsOf(st.log[st.subscribers[s].since..])
    decreases
      2 * |Play(json, schedule).subscribers[s].buffer|
      + |Play(json, schedule).subscribers[s].queued| - |Play(json, schedule).subscribers[s].sent|
  {
    var sub := Play(json, schedule).subscribers[s];
    PlayKeepsInv(json, schedule);
    assert SubscriberOk(json, Play(json, schedule).log, sub);
    if sub.pumping && sub.buffer != [] {
      PumpOk(json, Play(json, schedule).log, sub);
      assert |PumpStep(json, sub).queued| == |sub.queued| + 1;
      more := Served(json, schedule, s, PumpOne(s));
    } else if |sub.sent| < |sub.queued| && sub.queued[|sub.sent|].Event? {
      more := Served(json, schedule, s, Send(s));
    } else {
      more := [];
      assert schedule + more == schedule;
      AllSent(json, Play(json, schedule).log, sub);
    }
  }

  lemma {:induction false} Served<E(!new)>(json: Json<E>, schedule: seq<Action<E>>, s: nat, a: Action<E>)
    returns (more: seq<Action<E>>)
    requires Faithful(json) && (a == PumpOne(s) || a == Send(s))
    requires s in Play(json, schedule).subscribers && Play(json, schedule).subscribers[s].connected
    requires
      var sub := Play(json, schedule).subscribers[s];
      var next := if a == PumpOne(s) then PumpStep(json, sub) else SendStep(sub);
      && |sub.sent| <= |sub.queued| && |next.sent| <= |next.queued|
      && 2 * |next.buffer| + |next.queued| - |next.sent| < 2 * |sub.buffer| + |sub.queued| - |sub.sent|
    ensures OnlyServes(more, s)
    ensures
      var st := Play(json, schedule + more);
      && st.log == Play(json, schedule).log && s in st.subscribers
      && st.subscribers[s].since == Play(json, schedule).subscribers[s].since <= |st.log|
      && st.subscribers[s].sent == EventsOf(st.log[st.subscribers[s].since..])
    decreases
      2 * |Play(json, schedule).subscribers[s].buffer|
      + |Play(json, schedule).subscribers[s].queued| - |Play(json, schedule).subscribers[s].sent|, 0
  {
    Then(json, schedule, a);
    var rest := EverythingGetsThrough(json, schedule + [a], s);
    more := [a] + rest;
    assert schedule + more == schedule + [a] + rest;
  }

  lemma AllSent<E(!new)>(json: Json<E>, log: seq<Delivery<E>>, sub: Subscriber<E>)
    requires Faithful(json) && SubscriberOk(json, log, sub) && sub.connected
    requires !sub.pumping || sub.buffer == []
    requires |sub.sent| == |sub.queued| || sub.queued[|sub.sent|].Closed?
    ensures sub.sent == EventsOf(log[sub.since..])
  {
    var ds := log[sub.since..];
    var n := |sub.queued|;
    assert forall i :: 0 <= i < n ==> ds[i] == sub.queued[i];
    if |sub.sent| == n && sub.pumping { assert |ds| == n; }
    EventsOfOpen(ds, sub.sent);
  }

  /** After it has unsubscribed, nothing more is put on the queue of a subscriber, and no message is buffered for it. */
  lemma UnsubscribedGetsNothing<E>(json: Json<E>, st: State<E>, s: nat, a: Action<E>)
    requires s in st.subscribers
    ensures
      var gone := Step(json, st, Unsubscribe(s));
      var next := Step(json, gone, a);
      && gone.subscribers[s] == st.subscribers[s].(pumping := false, connected := false)
      && s in next.subscribers && next.subscribers[s].(sent := gone.subscribers[s].sent) == gone.subscribers[s]
  {
  }
}
