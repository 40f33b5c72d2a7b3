/** The in-process publish/subscribe bus of src/message_bus.py: a table from
    topic to the handlers subscribed to it, in subscription order, and a
    FIFO queue of published (topic, payload) pairs drained by one dispatch
    loop. The dispatch thread is modelled one loop iteration at a time. */
module MessageBus {

  /** The deliveries one dispatched event makes: each handler of the topic,
      in subscription order, is called with the payload. The loop does not
      catch exceptions, so a handler that raises is the last one called. */
  function Deliveries<Handler, Payload>(handlers: seq<Handler>, payload: Payload, raising: set<Handler>)
    : (r: seq<(Handler, Payload)>)
    ensures |r| <= |handlers|
  {
    if handlers == [] then []
    else if handlers[0] in raising then [(handlers[0], payload)]
    else [(handlers[0], payload)] + Deliveries(handlers[1..], payload, raising)
  }

  /** Whether some handler called for the event raises. */
  predicate SomeRaises<Handler>(handlers: seq<Handler>, raising: set<Handler>)
  {
    exists h :: h in handlers && h in raising
  }

  /** When no handler raises, every handler is called exactly once per
      subscription, in subscription order: a handler subscribed twice is
      called twice. */
  lemma {:induction false} DeliveriesInOrder<Handler, Payload>(handlers: seq<Handler>, payload: Payload, raising: set<Handler>)
    requires !SomeRaises(handlers, raising)
    ensures |Deliveries(handlers, payload, raising)| == |handlers|
    ensures forall i :: 0 <= i < |handlers| ==> Deliveries(handlers, payload, raising)[i] == (handlers[i], payload)
  {
    if handlers != [] {
      assert handlers[0] in handlers;
      assert !SomeRaises(handlers[1..], raising) by {
        forall h | h in handlers[1..] ensures h !in raising {
          assert h in handlers;
        }
      }
      DeliveriesInOrder(handlers[1..], payload, raising);
    }
  }

  /** When a handler raises, the handlers are called in subscription order
      up to and including the first one that raises, and no later one. */
  lemma {:induction false} DeliveriesStopAtRaise<Handler, Payload>(handlers: seq<Handler>, payload: Payload, raising: set<Handler>, k: nat)
    requires k < |handlers| && handlers[k] in raising
    requires forall j :: 0 <= j < k ==> handlers[j] !in raising
    ensures |Deliveries(handlers, payload, raising)| == k + 1
    ensures forall i :: 0 <= i <= k ==> Deliveries(handlers, payload, raising)[i] == (handlers[i], payload)
  {
    if k > 0 {
      DeliveriesStopAtRaise(handlers[1..], payload, raising, k - 1);
    }
  }

  class MessageBus<Handler(==), Payload> {
    /** topic -> handlers, in subscription order */
    var subscribers: map<string, seq<Handler>>
    /** published events not yet taken by the dispatch loop, oldest first */
    var queue: seq<(string, Payload)>
    /** false once a handler has raised: the dispatch thread has ended */
    var running: bool

    /** `__init__` followed by `start`: no subscribers, an empty queue, and
        the dispatch thread launched. */
    constructor ()
      ensures subscribers == map[] && queue == [] && running
    {
      subscribers := map[];
      queue := [];
      running := true;
    }

    /** The handlers subscribed to `topic`, in subscription order. */
    function HandlersFor(topic: string): seq<Handler>
      reads this
    {
      if topic in subscribers then subscribers[topic] else []
    }

    /** Appends `handler` to the end of the topic's list, creating the list
        when the topic is new; every other topic keeps its list. */
    method Subscribe(topic: string, handler: Handler)
      modifies this
      ensures subscribers.Keys == old(subscribers.Keys) + {topic}
      ensures HandlersFor(topic) == old(HandlersFor(topic)) + [handler]
      ensures topic !in old(subscribers) ==> HandlersFor(topic) == [handler]
      ensures forall t :: t in subscribers && t != topic ==> subscribers[t] == old(subscribers[t])
      ensures queue == old(queue) && running == old(running)
    {
      if topic !in subscribers {
        subscribers := subscribers[topic := []];
      }
      subscribers := subscribers[topic := subscribers[topic] + [handler]];
    }

    /** Enqueues the event at the tail and returns; nothing else changes.
        Publishing still enqueues after the dispatch thread has ended. */
    method Publish(topic: string, payload: Payload)
      modifies this
      ensures queue == old(queue) + [(topic, payload)]
      ensures subscribers == old(subscribers) && running == old(running)
    {
      queue := queue + [(topic, payload)];
    }

    /** One iteration of the dispatch loop. `raising` is the set of handlers
        whose call raises for this event. When the loop is not running or
        the queue is empty (the blocking `get` waits) nothing happens.
        Otherwise the head of the queue, and only it, is removed and
        delivered to the topic's handlers; a raising handler ends the loop. */
    method DispatchStep(raising: set<Handler>) returns (dispatched: bool, deliveries: seq<(Handler, Payload)>)
      modifies this
      ensures dispatched == (old(running) && old(queue) != [])
      ensures subscribers == old(subscribers)
      ensures !dispatched ==> queue == old(queue) && running == old(running) && deliveries == []
      ensures dispatched ==>
                && queue == old(queue)[1..]
                && deliveries == Deliveries(old(HandlersFor(queue[0].0)), old(queue)[0].1, raising)
                && running == !SomeRaises(old(HandlersFor(queue[0].0)), raising)
    {
      deliveries := [];
      if !running || queue == [] {
        return false, [];
      }
      dispatched := true;
      var (topic, message) := queue[0];
      queue := queue[1..];
      if topic in subscribers {
        var handlers := subscribers[topic];
        var i := 0;
        while i < |handlers|
          invariant 0 <= i <= |handlers|
          invariant forall j :: 0 <= j < i ==> handlers[j] !in raising
          invariant deliveries + Deliveries(handlers[i..], message, raising) == Deliveries(handlers, message, raising)
        {
          deliveries := deliveries + [(handlers[i], message)];
          if handlers[i] in raising {
            assert deliveries == Deliveries(handlers, message, raising);
            running := false;
            return;
          }
          assert handlers[i..][1..] == handlers[i + 1..];
          i := i + 1;
        }
        assert !SomeRaises(handlers, raising) by {
          forall h | h in handlers ensures h !in raising {
            var j :| 0 <= j < |handlers| && handlers[j] == h;
          }
        }
      }
    }
  }

  /** Events are dispatched in publish order: three events published to a
      fresh bus are taken first-in, first-out. The first two go to their
      topic's handlers in subscription order; the third, on a topic nobody
      subscribed to, is taken and delivered to no one, leaving the queue
      empty. */
  method PublishOrderIsDispatchOrder<Payload>(first: Payload, second: Payload)
    returns (firstDeliveries: seq<(string, Payload)>, secondDeliveries: seq<(string, Payload)>)
    ensures firstDeliveries == [("infoMonitor", first), ("aiWorker", first)]
    ensures secondDeliveries == [("aiWorker", second)]
  {
    var bus := new MessageBus<string, Payload>();
    bus.Subscribe("alert", "infoMonitor");
    bus.Subscribe("alert", "aiWorker");
    bus.Subscribe("new_messages", "aiWorker");
    assert bus.HandlersFor("alert") == ["infoMonitor", "aiWorker"];
    assert bus.HandlersFor("new_messages") == ["aiWorker"];
    assert bus.HandlersFor("ai_alert") == [];
    bus.Publish("alert", first);
    bus.Publish("new_messages", second);
    bus.Publish("ai_alert", second);
    assert bus.queue == [("alert", first), ("new_messages", second), ("ai_alert", second)];
    var ok;
    ok, firstDeliveries := bus.DispatchStep({});
    DeliveriesInOrder(["infoMonitor", "aiWorker"], first, {});
    ok, secondDeliveries := bus.DispatchStep({});
    DeliveriesInOrder(["aiWorker"], second, {});
    var third;
    ok, third := bus.DispatchStep({});
    assert ok && third == [] && bus.queue == [];
  }
}
