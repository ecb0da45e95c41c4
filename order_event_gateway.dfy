/** The event-correlation gateway: a per-order FIFO queue of pending call
    requests (the ledger), consumed one request per incoming platform message,
    and a fan-out of each classified event to the current subscribers. */
module EventGateway {
  import opened Orders

  /** Pending call requests per order, oldest first. */
  type Ledger = map<OrderId, seq<OrderCallRequest>>

  /** The pending requests of one order; an absent queue has none. */
  function Queue(l: Ledger, order: OrderId): seq<OrderCallRequest>
  {
    if order in l then l[order] else []
  }

  /** l2 agrees with l1 on every order other than the given one. */
  ghost predicate SameElsewhere(l1: Ledger, l2: Ledger, order: OrderId)
  {
    forall o :: o != order ==> (o in l1 <==> o in l2) && (o in l1 ==> l1[o] == l2[o])
  }

  /** Registering a call result: the request joins the tail of the order's
      queue, which is created empty first if the order has none. */
  function Register(l: Ledger, order: OrderId, request: OrderCallRequest): (r: Ledger)
    ensures order in r && r[order] == Queue(l, order) + [request]
    ensures SameElsewhere(l, r, order)
  {
    l[order := Queue(l, order) + [request]]
  }

  /** The outcome of one correlation step: the call context found, if any, and
      the ledger afterwards. */
  datatype Correlation = Correlation(context: Option<OrderCallRequest>, ledger: Ledger)

  /** Correlating a message for an order with the ledger. */
  function Correlate(l: Ledger, order: OrderId): (c: Correlation)
    ensures c.context.Some? <==> Queue(l, order) != []
    ensures c.context.Some? ==> c.context.value == Queue(l, order)[0]
                                && order in c.ledger
                                && c.ledger[order] == Queue(l, order)[1..]
    // no queue: no context and nothing changes
    ensures order !in l ==> c.ledger == l
    // a present but empty queue is dropped
    ensures order in l && l[order] == [] ==> order !in c.ledger
    ensures SameElsewhere(l, c.ledger, order)
  {
    if order !in l then Correlation(None, l)
    else if l[order] != [] then Correlation(Some(l[order][0]), l[order := l[order][1..]])
    else Correlation(None, l - {order})
  }

  // ---------------------------------------------------------------------------
  // FIFO correlation over whole input traces

  /** What reaches the ledger: a call result registering a request for an
      order, or a platform message for an order. */
  datatype GatewayInput =
    | CallResult(order: OrderId, request: OrderCallRequest)
    | Message(order: OrderId)

  function Apply(l: Ledger, input: GatewayInput): Ledger
  {
    match input
    case CallResult(o, r) => Register(l, o, r)
    case Message(o) => Correlate(l, o).ledger
  }

  /** The ledger after a trace of inputs, starting from l. */
  function Final(l: Ledger, trace: seq<GatewayInput>): Ledger
  {
    if trace == [] then l else Apply(Final(l, trace[..|trace| - 1]), trace[|trace| - 1])
  }

  /** The request one input registers for an order, if any. */
  function Queued(input: GatewayInput, order: OrderId): seq<OrderCallRequest>
  {
    if input.CallResult? && input.order == order then [input.request] else []
  }

  /** The request one input, applied to l, is classified with for an order, if
      any. */
  function Handed(l: Ledger, input: GatewayInput, order: OrderId): seq<OrderCallRequest>
  {
    var found := Correlate(l, order).context;
    if input.Message? && input.order == order && found.Some? then [found.value] else []
  }

  /** The requests registered for an order over a trace, in order. */
  function Registered(trace: seq<GatewayInput>, order: OrderId): seq<OrderCallRequest>
  {
    if trace == [] then []
    else Registered(trace[..|trace| - 1], order) + Queued(trace[|trace| - 1], order)
  }

  /** The requests the messages for an order were classified with, in order. */
  function Served(l: Ledger, trace: seq<GatewayInput>, order: OrderId): seq<OrderCallRequest>
  {
    if trace == [] then []
    else
      var before := trace[..|trace| - 1];
      Served(l, before, order) + Handed(Final(l, before), trace[|trace| - 1], order)
  }

  /** One input conserves an order's requests: what it hands out, followed by
      what is queued afterwards, is what was queued before followed by what it
      registers. */
  lemma StepConservation(l: Ledger, input: GatewayInput, order: OrderId)
    ensures Handed(l, input, order) + Queue(Apply(l, input), order) == Queue(l, order) + Queued(input, order)
  {
    var q := Queue(l, order);
    match input
    case CallResult(o, r) =>
      if o == order {
        assert Queue(Apply(l, input), order) == q + [r];
      } else {
        assert Queue(Apply(l, input), order) == q;
      }
    case Message(o) =>
      if o == order && q != [] {
        assert Queue(Apply(l, input), order) == q[1..];
        assert q == [q[0]] + q[1..];
      } else if o == order {
        assert Queue(Apply(l, input), order) == [];
      } else {
        assert Queue(Apply(l, input), order) == q;
      }
  }

  /** Splicing one step's conservation into the conservation so far. */
  lemma Regroup<T>(served: seq<T>, handed: seq<T>, after: seq<T>, before: seq<T>, queued: seq<T>,
                   start: seq<T>, registered: seq<T>)
    requires handed + after == before + queued
    requires served + before == start + registered
    ensures (served + handed) + after == start + (registered + queued)
  {
    calc {
      (served + handed) + after;
      served + (handed + after);
      served + (before + queued);
      (served + before) + queued;
      (start + registered) + queued;
      start + (registered + queued);
    }
  }

  /** FIFO conservation: for every order, the requests handed out as context,
      followed by those still queued, are exactly the requests that were queued
      at the start followed by those registered since, in registration order.
      No request is lost, duplicated, reordered or given to another order. */
  lemma {:induction false} FifoConservation(l: Ledger, trace: seq<GatewayInput>, order: OrderId)
    ensures Served(l, trace, order) + Queue(Final(l, trace), order)
            == Queue(l, order) + Registered(trace, order)
  {
    if trace != [] {
      var before := trace[..|trace| - 1];
      var last := trace[|trace| - 1];
      FifoConservation(l, before, order);
      var lb := Final(l, before);
      StepConservation(lb, last, order);
      var served := Served(l, before, order);
      var registered := Registered(before, order);
      var handed := Handed(lb, last, order);
      var queued := Queued(last, order);
      assert Served(l, trace, order) == served + handed;
      assert Registered(trace, order) == registered + queued;
      assert Final(l, trace) == Apply(lb, last);
      Regroup(served, handed, Queue(Apply(lb, last), order), Queue(lb, order), queued, Queue(l, order), registered);
    }
  }

  /** The contexts of n consecutive messages for one order, and the ledger left. */
  function Drain(l: Ledger, order: OrderId, n: nat): (r: (seq<Option<OrderCallRequest>>, Ledger))
    ensures |r.0| == n
  {
    if n == 0 then ([], l)
    else
      var c := Correlate(l, order);
      var rest := Drain(c.ledger, order, n - 1);
      ([c.context] + rest.0, rest.1)
  }

  /** Registering several requests for one order, one after the other. */
  function RegisterAll(l: Ledger, order: OrderId, requests: seq<OrderCallRequest>): Ledger
    decreases |requests|
  {
    if requests == [] then l
    else RegisterAll(Register(l, order, requests[0]), order, requests[1..])
  }

  lemma {:induction false} RegisterAllAppends(l: Ledger, order: OrderId, requests: seq<OrderCallRequest>)
    ensures Queue(RegisterAll(l, order, requests), order) == Queue(l, order) + requests
    ensures order in RegisterAll(l, order, requests) || (order !in l && requests == [])
    decreases |requests|
  {
    if requests != [] {
      RegisterAllAppends(Register(l, order, requests[0]), order, requests[1..]);
      assert [requests[0]] + requests[1..] == requests;
    }
  }

  /** n messages for an order are classified with the oldest n pending requests,
      one each, oldest first; those requests leave the queue. */
  lemma {:induction false} DrainServesOldestFirst(l: Ledger, order: OrderId, n: nat)
    requires n <= |Queue(l, order)|
    ensures forall i :: 0 <= i < n ==> Drain(l, order, n).0[i] == Some(Queue(l, order)[i])
    ensures Queue(Drain(l, order, n).1, order) == Queue(l, order)[n..]
  {
    if n > 0 {
      var c := Correlate(l, order);
      DrainServesOldestFirst(c.ledger, order, n - 1);
    }
  }

  /** After registering R1..Rn for an order that has nothing pending, the i-th
      following message is classified with Ri; one message more then finds the
      stale empty queue, gets no context, and drops the queue. */
  lemma FifoCorrelation(l: Ledger, order: OrderId, requests: seq<OrderCallRequest>)
    requires Queue(l, order) == []
    ensures var d := Drain(RegisterAll(l, order, requests), order, |requests|);
            && (forall i :: 0 <= i < |requests| ==> d.0[i] == Some(requests[i]))
            && Correlate(d.1, order).context == None
            && order !in Correlate(d.1, order).ledger
  {
    var l2 := RegisterAll(l, order, requests);
    RegisterAllAppends(l, order, requests);
    DrainServesOldestFirst(l2, order, |requests|);
  }

  // ---------------------------------------------------------------------------
  // The gateway object

  type SubscriberId = nat

  /** The result of a platform call: the order it concerns (absent when the
      call produced none) and the request that was issued. */
  datatype OrderCallResult = OrderCallResult(orderOpt: Option<OrderId>, callRequest: OrderCallRequest)

  /** Registering a call result either records it or fails because the result
      carries no order (Optional.get on an empty Optional). */
  datatype RegisterOutcome = Recorded | NoOrderInResult

  class OrderEventGateway {
    /** The event-type evaluator: (message, optional pending request) to type. */
    const evaluate: (OrderMessageData, Option<OrderCallRequest>) -> OrderEventType
    var callRequestByOrder: Ledger
    var subscribers: set<SubscriberId>
    /** The events each subscriber has been handed, oldest first. */
    var received: map<SubscriberId, seq<OrderEvent>>

    ghost predicate Valid()
      reads this
    {
      subscribers <= received.Keys
    }

    constructor (evaluate: (OrderMessageData, Option<OrderCallRequest>) -> OrderEventType)
      ensures Valid()
      ensures this.evaluate == evaluate
      ensures callRequestByOrder == map[] && subscribers == {} && received == map[]
    {
      this.evaluate := evaluate;
      callRequestByOrder := map[];
      subscribers := {};
      received := map[];
    }

    /** Records the request of a call result at the tail of its order's queue. */
    method OnOrderCallResult(result: OrderCallResult) returns (outcome: RegisterOutcome)
      modifies this`callRequestByOrder
      ensures outcome == Recorded <==> result.orderOpt.Some?
      ensures result.orderOpt.None? ==> callRequestByOrder == old(callRequestByOrder)
      ensures result.orderOpt.Some? ==>
                callRequestByOrder == Register(old(callRequestByOrder), result.orderOpt.value, result.callRequest)
    {
      if result.orderOpt.None? {
        return NoOrderInResult;
      }
      var order := result.orderOpt.value;
      if order !in callRequestByOrder {
        callRequestByOrder := callRequestByOrder[order := []];
      }
      callRequestByOrder := callRequestByOrder[order := callRequestByOrder[order] + [result.callRequest]];
      outcome := Recorded;
    }

    /** Classifies one platform message and hands the one resulting event to
        every current subscriber, and to no one else. */
    method OnOrderMessageData(message: OrderMessageData) returns (event: OrderEvent)
      requires Valid()
      modifies this`callRequestByOrder, this`received
      ensures Valid()
      ensures var c := Correlate(old(callRequestByOrder), message.order);
              && callRequestByOrder == c.ledger
              && event == OrderEvent(message.order, evaluate(message, c.context))
      ensures received.Keys == old(received).Keys
      ensures forall s :: s in received ==>
                received[s] == old(received)[s] + (if s in subscribers then [event] else [])
    {
      var eventType := OrderEventTypeFromData(message);
      event := OrderEvent(message.order, eventType);
      ghost var ledger := callRequestByOrder;
      var pending := subscribers;
      while pending != {}
        invariant callRequestByOrder == ledger
        invariant pending <= subscribers
        invariant received.Keys == old(received).Keys
        invariant forall s :: s in received ==>
                    received[s] == old(received)[s] + (if s in subscribers - pending then [event] else [])
        decreases pending
      {
        var s :| s in pending;
        received := received[s := received[s] + [event]];
        pending := pending - {s};
      }
    }

    /** Adds a subscriber to the fan-out set; a new subscriber has seen nothing,
        so it receives only later events. */
    method Subscribe(s: SubscriberId)
      requires Valid()
      modifies this`subscribers, this`received
      ensures Valid()
      ensures subscribers == old(subscribers) + {s}
      ensures received == if s in old(received) then old(received) else old(received)[s := []]
    {
      if s !in received {
        received := received[s := []];
      }
      subscribers := subscribers + {s};
    }

    /** Removes exactly this subscriber from the fan-out set. */
    method Unsubscribe(s: SubscriberId)
      requires Valid()
      modifies this`subscribers
      ensures Valid()
      ensures subscribers == old(subscribers) - {s}
    {
      subscribers := subscribers - {s};
    }

    method OrderEventTypeFromData(message: OrderMessageData) returns (eventType: OrderEventType)
      modifies this`callRequestByOrder
      ensures var c := Correlate(old(callRequestByOrder), message.order);
              callRequestByOrder == c.ledger && eventType == evaluate(message, c.context)
    {
      if message.order in callRequestByOrder {
        eventType := OrderEventWithQueuePresent(message);
      } else {
        eventType := evaluate(message, None);
      }
    }

    method OrderEventWithQueuePresent(message: OrderMessageData) returns (eventType: OrderEventType)
      requires message.order in callRequestByOrder
      modifies this`callRequestByOrder
      ensures var c := Correlate(old(callRequestByOrder), message.order);
              callRequestByOrder == c.ledger && eventType == evaluate(message, c.context)
    {
      var order := message.order;
      var callRequestOpt: Option<OrderCallRequest> := None;
      if callRequestByOrder[order] != [] {
        callRequestOpt := Some(callRequestByOrder[order][0]);
        callRequestByOrder := callRequestByOrder[order := callRequestByOrder[order][1..]];
      } else {
        callRequestByOrder := callRequestByOrder - {order};
      }
      eventType := evaluate(message, callRequestOpt);
    }
  }
}
