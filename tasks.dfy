/** A call plan: the reactive compositions of the library (concatWith, flatMap,
    Observable.merge, andThen, defer) written as a value. A plan is built from
    single executor steps, sequential composition (the second part is subscribed
    only once the first has completed) and fan-out (all parts subscribed at once).
    Its meaning is given three ways: the steps it may issue (Calls), the order it
    imposes between steps (Precedes) and how far it gets when each step either
    completes or never does (Run). */
module Tasks {
  import opened Orders

  /** The order a step acts on: a known one, or the one the preceding submit or
      merge step produces. */
  datatype OrderRef = Given(id: OrderId) | Produced

  datatype OfferSide = Bid | Ask
  datatype BatchMode = MergeBatch | ConcatBatch

  /** One executor call, one observation of the order's events for a call
      reason, or one local bookkeeping action. */
  datatype Step =
    | SubmitOrder(params: OrderParams)                    // the executor's submit
    | MergeOrders(mergeLabel: string, orders: set<OrderId>)  // the executor's merge of the orders
    | CloseOrder(order: OrderId)                          // the executor's close of the whole order
    | CloseAmount(order: OrderId, amount: real)           // close the amount at market; 0 closes the whole order
    | CloseAtPrice(order: OrderId, amount: real, price: Price, slippage: real)  // close the amount at a price
    | SetLabel(order: OrderId, newLabel: string)
    | SetGTT(order: OrderId, gtt: int)
    | SetRequestedAmount(order: OrderId, amount: real)
    | SetOpenPrice(order: OrderId, price: Price)
    | SetSL(target: OrderRef, price: Price)               // the stop loss changed through the position task layer
    | SetSLWith(order: OrderId, price: Price, offerSide: Option<OfferSide>, trailingStep: Option<real>)
    | SetTP(target: OrderRef, price: Price)
    | BatchCancelSL(batch: seq<OrderId>, paramsId: nat, mode: BatchMode)  // one batch of SL cancels
    | BatchCancelTP(batch: seq<OrderId>, paramsId: nat, mode: BatchMode)  // one batch of TP cancels
    | AddToPosition(target: OrderRef)                     // offer the order to the position's admission rule (Positions.Admits)
    | Observe(target: OrderRef, reason: OrderCallReason)  // the order's events for the call reason

  datatype Task =
    | Empty                                   // completes at once, issues nothing
    | Do(step: Step)                          // one step
    | Concat(first: Task, second: Task)       // second starts when first completes
    | Par(tasks: set<Task>)                  // all parts start together
    | Composed(instrument: Instrument, paramsId: nat, inner: Task)  // a per-instrument callback wrapper

  /** Every step the plan can issue. */
  function Calls(t: Task): set<Step>
  {
    match t
    case Empty => {}
    case Do(s) => {s}
    case Concat(x, y) => Calls(x) + Calls(y)
    case Par(ts) => set s, u | u in ts && s in Calls(u) :: s
    case Composed(_, _, u) => Calls(u)
  }

  /** In plan t, step a must have completed before step b may start. */
  predicate Precedes(t: Task, a: Step, b: Step)
  {
    match t
    case Empty => false
    case Do(_) => false
    case Concat(x, y) => Precedes(x, a, b) || Precedes(y, a, b) || (a in Calls(x) && b in Calls(y))
    case Par(ts) => exists u :: u in ts && Precedes(u, a, b)
    case Composed(_, _, u) => Precedes(u, a, b)
  }

  /** How far a plan gets: the steps started, and whether the plan completed. */
  datatype Progress = Progress(started: set<Step>, completed: bool)

  /** Run t when each step completes exactly if ok says so (a step that does not
      complete never lets its successors start). */
  function Run(t: Task, ok: Step -> bool): Progress
  {
    match t
    case Empty => Progress({}, true)
    case Do(s) => Progress({s}, ok(s))
    case Concat(x, y) =>
      var px := Run(x, ok);
      if px.completed then
        var py := Run(y, ok);
        Progress(px.started + py.started, py.completed)
      else
        px
    case Par(ts) =>
      Progress(set s, u | u in ts && s in Run(u, ok).started :: s,
               forall u :: u in ts ==> Run(u, ok).completed)
    case Composed(_, _, u) => Run(u, ok)
  }

  /** t issues exactly the call and the observation of the order's events for
      the reason, the observation strictly after the call and never the other
      way round. */
  predicate IsCallThenObserve(t: Task, call: Step, target: OrderRef, reason: OrderCallReason)
  {
    && Calls(t) == {call, Observe(target, reason)}
    && Precedes(t, call, Observe(target, reason))
    && !Precedes(t, Observe(target, reason), call)
    && Distinct(t)
  }

  /** A step the executor performs followed by the observation of the order's
      events for the call reason: the library's executor-call-then-handler chain. */
  function CallThenObserve(call: Step, target: OrderRef, reason: OrderCallReason): (t: Task)
    requires !call.Observe?
    ensures IsCallThenObserve(t, call, target, reason)
  {
    Concat(Do(call), Do(Observe(target, reason)))
  }

  /** In a call-then-observe plan the observation starts only once the call has
      completed, and the plan completes exactly when both do. */
  lemma ObservationWaitsForCall(t: Task, call: Step, target: OrderRef, reason: OrderCallReason, ok: Step -> bool)
    requires IsCallThenObserve(t, call, target, reason)
    ensures Observe(target, reason) in Run(t, ok).started ==> ok(call)
    ensures Run(t, ok).completed <==> ok(call) && ok(Observe(target, reason))
  {
    if Observe(target, reason) in Run(t, ok).started {
      PrecedesIsRespected(t, ok, call, Observe(target, reason));
    }
    CompletesIffAllStepsComplete(t, ok);
  }

  /** Issuing each of a set of steps at once (Observable.from(...).flatMap(...)). */
  function FanOut(steps: set<Step>): (t: Task)
  {
    Par(set s | s in steps :: Do(s))
  }

  /** A fan-out issues exactly its steps. */
  lemma FanOutCalls(steps: set<Step>)
    ensures Calls(FanOut(steps)) == steps
  {
    var ts := set s | s in steps :: Do(s);
    assert FanOut(steps) == Par(ts);
    forall x | x in steps ensures x in Calls(Par(ts)) {
      assert Do(x) in ts && x in Calls(Do(x));
      PartCallsAreCalls(ts, Do(x));
    }
    forall x | x in Calls(Par(ts)) ensures x in steps {
      var u :| u in ts && x in Calls(u);
    }
  }

  /** A fan-out imposes no order among its steps and has no step twice. */
  lemma FanOutIsUnordered(steps: set<Step>)
    ensures Distinct(FanOut(steps))
    ensures forall a, b :: !Precedes(FanOut(steps), a, b)
  {
    var ts := set s | s in steps :: Do(s);
    assert FanOut(steps) == Par(ts);
    forall u | u in ts ensures u.Do? {
    }
  }

  /** Two plans run together: the steps and the order of either, and no step
      twice when each has none twice and they share none. */
  lemma ParOfTwo(x: Task, y: Task)
    ensures Calls(Par({x, y})) == Calls(x) + Calls(y)
    ensures forall a, b :: Precedes(Par({x, y}), a, b) <==> Precedes(x, a, b) || Precedes(y, a, b)
    ensures Distinct(x) && Distinct(y) && Calls(x) !! Calls(y) ==> Distinct(Par({x, y}))
  {
    PartCallsAreCalls({x, y}, x);
    PartCallsAreCalls({x, y}, y);
    forall s | s in Calls(Par({x, y})) ensures s in Calls(x) + Calls(y) {
      var u :| u in {x, y} && s in Calls(u);
    }
    forall a, b | Precedes(Par({x, y}), a, b) ensures Precedes(x, a, b) || Precedes(y, a, b) {
      var u :| u in {x, y} && Precedes(u, a, b);
    }
  }

  /** The per-instrument wrappers (instrument, parameters) that enclose step s. */
  function Wrappers(t: Task, s: Step): set<(Instrument, nat)>
  {
    match t
    case Empty => {}
    case Do(_) => {}
    case Concat(x, y) => Wrappers(x, s) + Wrappers(y, s)
    case Par(ts) => set w, u | u in ts && w in Wrappers(u, s) :: w
    case Composed(i, p, u) => (if s in Calls(u) then {(i, p)} else {}) + Wrappers(u, s)
  }

  // ---------------------------------------------------------------------------
  // Properties of the three readings

  /** Only steps of the plan are ever started. */
  lemma {:induction false} StartedAreCalls(t: Task, ok: Step -> bool)
    ensures Run(t, ok).started <= Calls(t)
  {
    match t
    case Empty =>
    case Do(_) =>
    case Concat(x, y) =>
      StartedAreCalls(x, ok);
      StartedAreCalls(y, ok);
    case Par(ts) =>
      forall u | u in ts
        ensures Run(u, ok).started <= Calls(u)
      {
        StartedAreCalls(u, ok);
      }
    case Composed(_, _, u) =>
      StartedAreCalls(u, ok);
  }

  /** A plan completes exactly when every one of its steps completes, and then
      it has started all of them. */
  lemma {:induction false} CompletesIffAllStepsComplete(t: Task, ok: Step -> bool)
    ensures Run(t, ok).completed <==> (forall s :: s in Calls(t) ==> ok(s))
    ensures Run(t, ok).completed ==> Run(t, ok).started == Calls(t)
  {
    match t
    case Empty =>
    case Do(_) =>
    case Concat(x, y) =>
      CompletesIffAllStepsComplete(x, ok);
      CompletesIffAllStepsComplete(y, ok);
    case Par(ts) =>
      forall u | u in ts
        ensures Run(u, ok).completed <==> (forall s :: s in Calls(u) ==> ok(s))
        ensures Run(u, ok).completed ==> Run(u, ok).started == Calls(u)
      {
        CompletesIffAllStepsComplete(u, ok);
      }
      if Run(t, ok).completed {
        forall s | s in Calls(t) ensures ok(s) && s in Run(t, ok).started {
          var u :| u in ts && s in Calls(u);
        }
      } else {
        var u :| u in ts && !Run(u, ok).completed;
        var s :| s in Calls(u) && !ok(s);
        assert s in Calls(t);
      }
    case Composed(_, _, u) =>
      CompletesIffAllStepsComplete(u, ok);
  }

  /** Precedence is between steps of the plan. */
  lemma {:induction false} PrecedesWithinCalls(t: Task, a: Step, b: Step)
    ensures Precedes(t, a, b) ==> a in Calls(t) && b in Calls(t)
  {
    match t
    case Empty =>
    case Do(_) =>
    case Concat(x, y) =>
      PrecedesWithinCalls(x, a, b);
      PrecedesWithinCalls(y, a, b);
      assert Calls(t) == Calls(x) + Calls(y);
    case Par(ts) =>
      if Precedes(t, a, b) {
        var u :| u in ts && Precedes(u, a, b);
        PrecedesWithinCalls(u, a, b);
        PartCallsAreCalls(ts, u);
      }
    case Composed(_, _, u) =>
      PrecedesWithinCalls(u, a, b);
      assert Calls(t) == Calls(u);
  }

  /** The steps of a part of a fan-out are steps of the fan-out. */
  lemma PartCallsAreCalls(ts: set<Task>, u: Task)
    requires u in ts
    ensures Calls(u) <= Calls(Par(ts))
  {
  }

  /** No step occurs in two parts of a plan, so each step has one place in it. */
  predicate Distinct(t: Task)
  {
    match t
    case Empty => true
    case Do(_) => true
    case Concat(x, y) => Calls(x) !! Calls(y) && Distinct(x) && Distinct(y)
    case Par(ts) =>
      && (forall u, w :: u in ts && w in ts && u != w ==> Calls(u) !! Calls(w))
      && (forall u :: u in ts ==> Distinct(u))
    case Composed(_, _, u) => Distinct(u)
  }

  /** The order Precedes states is respected by running: in a plan whose steps
      are distinct, a step that must wait for another starts only after that
      other one has started and completed. */
  lemma {:induction false} PrecedesIsRespected(t: Task, ok: Step -> bool, a: Step, b: Step)
    requires Distinct(t)
    requires Precedes(t, a, b)
    requires b in Run(t, ok).started
    ensures a in Run(t, ok).started && ok(a)
  {
    match t
    case Concat(x, y) =>
      var px := Run(x, ok);
      StartedAreCalls(x, ok);
      StartedAreCalls(y, ok);
      PrecedesWithinCalls(x, a, b);
      PrecedesWithinCalls(y, a, b);
      if b in px.started {
        PrecedesIsRespected(x, ok, a, b);
      } else if Precedes(y, a, b) {
        PrecedesIsRespected(y, ok, a, b);
      } else {
        CompletesIffAllStepsComplete(x, ok);
      }
    case Par(ts) =>
      var u :| u in ts && Precedes(u, a, b);
      var w :| w in ts && b in Run(w, ok).started;
      PrecedesWithinCalls(u, a, b);
      StartedAreCalls(w, ok);
      assert u == w;
      PrecedesIsRespected(u, ok, a, b);
    case Composed(_, _, u) =>
      PrecedesIsRespected(u, ok, a, b);
  }
}
