/** The small event emitter a peer exposes to the application (browbeat.js:208-228): a
    registry from event name to the handlers registered for it, in registration order, and
    the delivery of an event to those handlers. Handlers are application code, so a handler
    is represented by an opaque number and a delivery by the call it would make. */
module Events {

  /** An application callback, identified by an opaque number; the model never runs it. */
  type Handler = nat

  /** The payload field `emit` sets on every event it delivers (browbeat.js:224). */
  const EventNameField: string := "eventName"

  /** One call `handler(payload)` made while emitting an event. */
  datatype Delivery = Delivery(handler: Handler, payload: map<string, string>)

  /** The payload `emit(e, data)` hands to every handler: `data` (or `{}`) with its
      `eventName` set to `e` (browbeat.js:223-224). */
  function Payload(e: string, data: map<string, string>): (payload: map<string, string>)
    ensures EventNameField in payload && payload[EventNameField] == e
    ensures forall k :: k in data && k != EventNameField ==> k in payload && payload[k] == data[k]
    ensures payload.Keys == data.Keys + {EventNameField}
  {
    data[EventNameField := e]
  }

  /** The calls emitting `e` makes, in the intended reading of `emit`: none when no handler
      list exists for `e`, otherwise one call per registered handler, in registration
      order, each with the same payload naming `e`. */
  function Notifications(listeners: map<string, seq<Handler>>, e: string, data: map<string, string>): (calls: seq<Delivery>)
    ensures e !in listeners ==> calls == []
    ensures e in listeners ==> |calls| == |listeners[e]|
    ensures e in listeners ==> forall i :: 0 <= i < |calls| ==>
      calls[i].handler == listeners[e][i] && calls[i].payload == Payload(e, data)
  {
    if e !in listeners then []
    else
      var handlers := listeners[e];
      seq(|handlers|, i requires 0 <= i < |handlers| => Delivery(handlers[i], Payload(e, data)))
  }

  /** The delivery loop of `emit` (browbeat.js:225-227) as it was evidently meant: `for…in`
      over the handler array visits its indices in ascending order, calling each handler
      with the payload. */
  method Deliver(handlers: seq<Handler>, payload: map<string, string>) returns (calls: seq<Delivery>)
    ensures |calls| == |handlers|
    ensures forall i :: 0 <= i < |handlers| ==> calls[i] == Delivery(handlers[i], payload)
  {
    calls := [];
    var i := 0;
    while i < |handlers|
      invariant 0 <= i <= |handlers|
      invariant |calls| == i
      invariant forall j :: 0 <= j < i ==> calls[j] == Delivery(handlers[j], payload)
    {
      calls := calls + [Delivery(handlers[i], payload)];
      i := i + 1;
    }
  }

  /** How a call of `emit` ends. */
  datatype EmitOutcome = Returned | ReferenceError

  /** `emit` as written: when a handler list exists for `e`, its loop reads the identifier
      `listeners`, which is declared nowhere in scope (the registry is `this.listeners`), so
      the call throws a `ReferenceError` before any handler runs (browbeat.js:221-226).
      Measured against the intended delivery: when it returns, the intended reading makes
      no call either, and when it throws, every handler of `e` misses its call. */
  function EmitAsWritten(listeners: map<string, seq<Handler>>, e: string, data: map<string, string>): (outcome: EmitOutcome)
    ensures outcome == ReferenceError <==> e in listeners
    ensures outcome == Returned ==> Notifications(listeners, e, data) == []
    ensures outcome == ReferenceError ==> |Notifications(listeners, e, data)| == |listeners[e]|
  {
    if e !in listeners then Returned else ReferenceError
  }

  /** Once an application registers a handler for the event a role change emits, `emit` as
      written throws instead of making the call the intended reading makes. */
  lemma EmitAsWrittenLosesDelivery(h: Handler)
    ensures var listeners := map["browbeatWonElection" := [h]];
      EmitAsWritten(listeners, "browbeatWonElection", map[]) == ReferenceError &&
      Notifications(listeners, "browbeatWonElection", map[]) ==
        [Delivery(h, map[EventNameField := "browbeatWonElection"])]
  {
  }

}
