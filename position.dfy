/** One instrument's position: a repository of member orders kept up to date
    from the event stream, and the merge and close sequences built over its
    idle members. The sequences are returned as plans; the executor calls in
    them are the position task's single-order operations. */
module Positions {
  import opened Orders
  import opened Tasks
  import opened PositionOrders

  // ---------------------------------------------------------------------------
  // The event loop

  /** An event removes its order when the order is of this instrument, is a
      member, and the event type ends the order's life. */
  predicate RemovesOrder(instrument: Instrument, endOfOrderTypes: set<OrderEventType>,
                         r: Repository, event: OrderEvent, view: OrderView)
  {
    && view(event.order).instrument == instrument
    && event.order in r
    && event.eventType in endOfOrderTypes
  }

  function AfterEvent(instrument: Instrument, endOfOrderTypes: set<OrderEventType>,
                      r: Repository, event: OrderEvent, view: OrderView): Repository
  {
    if RemovesOrder(instrument, endOfOrderTypes, r, event, view) then Remove(r, event.order) else r
  }

  /** The repository after the event stream has delivered events, in order. */
  function AfterEvents(instrument: Instrument, endOfOrderTypes: set<OrderEventType>,
                       r: Repository, events: seq<OrderEvent>, view: OrderView): (r': Repository)
    ensures r'.Keys <= r.Keys
    ensures forall o :: o in r' ==> r'[o] == r[o]
  {
    if |events| == 0 then r
    else
      AfterEvent(instrument, endOfOrderTypes,
                 AfterEvents(instrument, endOfOrderTypes, r, events[..|events| - 1], view),
                 events[|events| - 1], view)
  }

  /** Some event ended the life of order o, an order of this instrument. */
  predicate Terminated(instrument: Instrument, endOfOrderTypes: set<OrderEventType>,
                       events: seq<OrderEvent>, view: OrderView, o: OrderId)
  {
    && view(o).instrument == instrument
    && exists i :: 0 <= i < |events| && events[i].order == o && events[i].eventType in endOfOrderTypes
  }

  /** The event loop only ever removes: an order stays a member exactly when it
      was one and no end-of-order event for it arrived, and the members that
      stay keep their flag. */
  lemma {:induction false} EventsOnlyRemoveTerminated(instrument: Instrument, endOfOrderTypes: set<OrderEventType>,
                                                      r: Repository, events: seq<OrderEvent>, view: OrderView)
    ensures forall o :: o in AfterEvents(instrument, endOfOrderTypes, r, events, view) <==>
                        o in r && !Terminated(instrument, endOfOrderTypes, events, view, o)
    ensures forall o :: o in AfterEvents(instrument, endOfOrderTypes, r, events, view) ==>
                        AfterEvents(instrument, endOfOrderTypes, r, events, view)[o] == r[o]
  {
    if |events| > 0 {
      var front := events[..|events| - 1];
      var last := events[|events| - 1];
      EventsOnlyRemoveTerminated(instrument, endOfOrderTypes, r, front, view);
      forall o ensures Terminated(instrument, endOfOrderTypes, events, view, o) <==>
                       Terminated(instrument, endOfOrderTypes, front, view, o) ||
                       (o == last.order && view(o).instrument == instrument && last.eventType in endOfOrderTypes)
      {
        if Terminated(instrument, endOfOrderTypes, events, view, o) {
          var i :| 0 <= i < |events| && events[i].order == o && events[i].eventType in endOfOrderTypes;
          if i < |front| {
            assert front[i] == events[i];
          }
        }
        if Terminated(instrument, endOfOrderTypes, front, view, o) {
          var i :| 0 <= i < |front| && front[i].order == o && front[i].eventType in endOfOrderTypes;
          assert events[i] == front[i];
        }
      }
    }
  }

  // ---------------------------------------------------------------------------
  // Adding orders

  /** An order joins the position once it is filled, or when it is a
      conditional order that is opened. */
  predicate Admits(o: OrderInfo)
  {
    IsFilled(o) || (IsConditional(o) && IsOpened(o))
  }

  function AddIfAdmitted(r: Repository, order: OrderId, view: OrderView): Repository
  {
    if Admits(view(order)) then Add(r, order) else r
  }

  /** The repository after each order a submit or merge emitted has been offered. */
  function AddAll(r: Repository, emitted: seq<OrderId>, view: OrderView): (r': Repository)
    ensures r.Keys <= r'.Keys
    ensures forall o :: o in r ==> r'[o] == r[o]
    ensures forall o :: o in r' && o !in r ==> r'[o] == Idle
  {
    if |emitted| == 0 then r
    else AddIfAdmitted(AddAll(r, emitted[..|emitted| - 1], view), emitted[|emitted| - 1], view)
  }

  /** Offering orders adds exactly the admitted ones, each new one idle, and
      leaves every existing member and its flag alone. */
  lemma {:induction false} AddAllAdmitsExactly(r: Repository, emitted: seq<OrderId>, view: OrderView)
    ensures forall o :: o in AddAll(r, emitted, view) <==> o in r || (o in emitted && Admits(view(o)))
    ensures forall o :: o in r ==> AddAll(r, emitted, view)[o] == r[o]
    ensures forall o :: o in AddAll(r, emitted, view) && o !in r ==> AddAll(r, emitted, view)[o] == Idle
  {
    if |emitted| > 0 {
      var front := emitted[..|emitted| - 1];
      FrontAndLast(emitted);
      AddAllAdmitsExactly(r, front, view);
    }
  }

  /** A non-empty sequence is its front followed by its last element. */
  lemma FrontAndLast<T>(s: seq<T>)
    requires |s| > 0
    ensures forall x :: x in s <==> x in s[..|s| - 1] || x == s[|s| - 1]
  {
    assert s == s[..|s| - 1] + [s[|s| - 1]];
  }

  // ---------------------------------------------------------------------------
  // The merge and close plans

  /** The externally supplied choice of the merged order's stop loss and take
      profit, computed from the orders about to be merged. */
  datatype RestoreSLTPPolicy = RestoreSLTPPolicy(
    restoreSL: (set<OrderId>, OrderView) -> Price,
    restoreTP: (set<OrderId>, OrderView) -> Price)

  datatype RestoreSLTPData = RestoreSLTPData(sl: Price, tp: Price)

  function RestoreData(policy: RestoreSLTPPolicy, toMerge: set<OrderId>, view: OrderView): (d: RestoreSLTPData)
    ensures d.sl == policy.restoreSL(toMerge, view) && d.tp == policy.restoreTP(toMerge, view)
  {
    RestoreSLTPData(policy.restoreSL(toMerge, view), policy.restoreTP(toMerge, view))
  }

  function RemoveTPSteps(toMerge: set<OrderId>): set<Step>
  {
    set o | o in toMerge :: SetTP(Given(o), NoTPPrice)
  }

  function RemoveSLSteps(toMerge: set<OrderId>): set<Step>
  {
    set o | o in toMerge :: SetSL(Given(o), NoSLPrice)
  }

  /** Take profit off every order to merge, then stop loss off every one. */
  function RemoveTPSL(toMerge: set<OrderId>): Task
  {
    Concat(FanOut(RemoveTPSteps(toMerge)), FanOut(RemoveSLSteps(toMerge)))
  }

  /** Stop loss, then take profit, put back on the merged order. */
  function RestoreSLTP(data: RestoreSLTPData): Task
  {
    Concat(Do(SetSL(Produced, data.sl)), Do(SetTP(Produced, data.tp)))
  }

  /** The merge call, then adding the merged order, then restoring. */
  function MergeAndRestore(mergeLabel: string, toMerge: set<OrderId>, data: RestoreSLTPData): Task
  {
    Concat(Do(MergeOrders(mergeLabel, toMerge)), Concat(Do(AddToPosition(Produced)), RestoreSLTP(data)))
  }

  function MergePlan(mergeLabel: string, toMerge: set<OrderId>, data: RestoreSLTPData): Task
  {
    Concat(RemoveTPSL(toMerge), MergeAndRestore(mergeLabel, toMerge, data))
  }

  /** One close per order to close, all at once; nothing when there is none. */
  function ClosePlan(toClose: set<OrderId>): Task
  {
    if toClose == {} then Empty else FanOut(CloseSteps(toClose))
  }

  /** The removal stage: exactly the TP and SL removals, every TP removal
      before every SL removal and no other order, no step twice. */
  lemma RemoveTPSLFacts(toMerge: set<OrderId>)
    ensures Calls(RemoveTPSL(toMerge)) == RemoveTPSteps(toMerge) + RemoveSLSteps(toMerge)
    ensures Distinct(RemoveTPSL(toMerge))
    ensures forall a, b :: Precedes(RemoveTPSL(toMerge), a, b) <==>
                           a in RemoveTPSteps(toMerge) && b in RemoveSLSteps(toMerge)
  {
    var tp := FanOut(RemoveTPSteps(toMerge));
    var sl := FanOut(RemoveSLSteps(toMerge));
    assert RemoveTPSL(toMerge) == Concat(tp, sl);
    FanOutCalls(RemoveTPSteps(toMerge));
    FanOutCalls(RemoveSLSteps(toMerge));
    FanOutIsUnordered(RemoveTPSteps(toMerge));
    FanOutIsUnordered(RemoveSLSteps(toMerge));
  }

  /** The restore stage: stop loss, then take profit, on the merged order. */
  lemma RestoreSLTPFacts(data: RestoreSLTPData)
    ensures Calls(RestoreSLTP(data)) == {SetSL(Produced, data.sl), SetTP(Produced, data.tp)}
    ensures Distinct(RestoreSLTP(data))
    ensures Precedes(RestoreSLTP(data), SetSL(Produced, data.sl), SetTP(Produced, data.tp))
  {
    var sl := Do(SetSL(Produced, data.sl));
    var tp := Do(SetTP(Produced, data.tp));
    assert Calls(sl) == {SetSL(Produced, data.sl)} && Calls(tp) == {SetTP(Produced, data.tp)};
    assert Distinct(sl) && Distinct(tp);
    assert RestoreSLTP(data) == Concat(sl, tp);
  }

  /** The merge-and-restore stage: the merge call, the add and the two restores,
      each strictly after the one before. */
  lemma MergeAndRestoreFacts(mergeLabel: string, toMerge: set<OrderId>, data: RestoreSLTPData)
    ensures Calls(MergeAndRestore(mergeLabel, toMerge, data)) ==
            {MergeOrders(mergeLabel, toMerge), AddToPosition(Produced), SetSL(Produced, data.sl), SetTP(Produced, data.tp)}
    ensures Distinct(MergeAndRestore(mergeLabel, toMerge, data))
    ensures Precedes(MergeAndRestore(mergeLabel, toMerge, data), MergeOrders(mergeLabel, toMerge), AddToPosition(Produced))
    ensures Precedes(MergeAndRestore(mergeLabel, toMerge, data), AddToPosition(Produced), SetSL(Produced, data.sl))
    ensures Precedes(MergeAndRestore(mergeLabel, toMerge, data), SetSL(Produced, data.sl), SetTP(Produced, data.tp))
  {
    var restore := RestoreSLTP(data);
    RestoreSLTPFacts(data);
    var tail := Concat(Do(AddToPosition(Produced)), restore);
    assert Calls(tail) == {AddToPosition(Produced), SetSL(Produced, data.sl), SetTP(Produced, data.tp)};
    assert Precedes(tail, AddToPosition(Produced), SetSL(Produced, data.sl));
    assert Distinct(tail);
    assert MergeAndRestore(mergeLabel, toMerge, data) == Concat(Do(MergeOrders(mergeLabel, toMerge)), tail);
  }

  /** The merge plan issues the TP and SL removals on exactly the orders to
      merge, one merge of exactly those orders, the add of the merged order and
      the two restores with the computed data, and no step twice. */
  lemma MergePlanCalls(mergeLabel: string, toMerge: set<OrderId>, data: RestoreSLTPData)
    ensures Calls(MergePlan(mergeLabel, toMerge, data)) ==
            RemoveTPSteps(toMerge) + RemoveSLSteps(toMerge) +
            {MergeOrders(mergeLabel, toMerge), AddToPosition(Produced),
             SetSL(Produced, data.sl), SetTP(Produced, data.tp)}
    ensures Distinct(MergePlan(mergeLabel, toMerge, data))
  {
    RemoveTPSLFacts(toMerge);
    MergeAndRestoreFacts(mergeLabel, toMerge, data);
    assert MergePlan(mergeLabel, toMerge, data) == Concat(RemoveTPSL(toMerge), MergeAndRestore(mergeLabel, toMerge, data));
  }

  /** The merge plan's order: every TP removal before every SL removal, every
      SL removal before the merge call, then the add, then SL restore, then TP
      restore. */
  lemma MergePlanOrder(mergeLabel: string, toMerge: set<OrderId>, data: RestoreSLTPData)
    ensures forall o, p :: o in toMerge && p in toMerge ==>
              Precedes(MergePlan(mergeLabel, toMerge, data), SetTP(Given(o), NoTPPrice), SetSL(Given(p), NoSLPrice))
    ensures forall o :: o in toMerge ==>
              Precedes(MergePlan(mergeLabel, toMerge, data), SetSL(Given(o), NoSLPrice), MergeOrders(mergeLabel, toMerge))
    ensures Precedes(MergePlan(mergeLabel, toMerge, data), MergeOrders(mergeLabel, toMerge), AddToPosition(Produced))
    ensures Precedes(MergePlan(mergeLabel, toMerge, data), AddToPosition(Produced), SetSL(Produced, data.sl))
    ensures Precedes(MergePlan(mergeLabel, toMerge, data), SetSL(Produced, data.sl), SetTP(Produced, data.tp))
  {
    var plan := MergePlan(mergeLabel, toMerge, data);
    RemoveTPSLFacts(toMerge);
    MergeAndRestoreFacts(mergeLabel, toMerge, data);
    assert plan == Concat(RemoveTPSL(toMerge), MergeAndRestore(mergeLabel, toMerge, data));
    forall o, p | o in toMerge && p in toMerge
      ensures Precedes(plan, SetTP(Given(o), NoTPPrice), SetSL(Given(p), NoSLPrice))
    {
      assert SetTP(Given(o), NoTPPrice) in RemoveTPSteps(toMerge);
      assert SetSL(Given(p), NoSLPrice) in RemoveSLSteps(toMerge);
    }
    forall o | o in toMerge
      ensures Precedes(plan, SetSL(Given(o), NoSLPrice), MergeOrders(mergeLabel, toMerge))
    {
      assert SetSL(Given(o), NoSLPrice) in RemoveSLSteps(toMerge);
    }
  }

  /** Whatever the outcome of the calls, the merge call only starts once every
      order to merge has had its take profit and stop loss removed, and a
      restore only starts once the merged order has been added. */
  lemma MergeWaitsForRemovals(mergeLabel: string, toMerge: set<OrderId>, data: RestoreSLTPData, ok: Step -> bool)
    ensures MergeOrders(mergeLabel, toMerge) in Run(MergePlan(mergeLabel, toMerge, data), ok).started ==>
              forall o :: o in toMerge ==> ok(SetTP(Given(o), NoTPPrice)) && ok(SetSL(Given(o), NoSLPrice))
    ensures SetSL(Produced, data.sl) in Run(MergePlan(mergeLabel, toMerge, data), ok).started ==>
              ok(MergeOrders(mergeLabel, toMerge)) && ok(AddToPosition(Produced))
  {
    var plan := MergePlan(mergeLabel, toMerge, data);
    MergePlanOrder(mergeLabel, toMerge, data);
    MergePlanCalls(mergeLabel, toMerge, data);
    if MergeOrders(mergeLabel, toMerge) in Run(plan, ok).started {
      forall o | o in toMerge ensures ok(SetTP(Given(o), NoTPPrice)) && ok(SetSL(Given(o), NoSLPrice)) {
        PrecedesIsRespected(plan, ok, SetSL(Given(o), NoSLPrice), MergeOrders(mergeLabel, toMerge));
        PrecedesIsRespected(plan, ok, SetTP(Given(o), NoTPPrice), SetSL(Given(o), NoSLPrice));
      }
    }
    if SetSL(Produced, data.sl) in Run(plan, ok).started {
      PrecedesIsRespected(plan, ok, AddToPosition(Produced), SetSL(Produced, data.sl));
      PrecedesIsRespected(plan, ok, MergeOrders(mergeLabel, toMerge), AddToPosition(Produced));
    }
  }

  function CloseSteps(toClose: set<OrderId>): set<Step>
  {
    set o | o in toClose :: CloseOrder(o)
  }

  /** The close plan issues one close for each order to close, with no order
      among them. */
  lemma ClosePlanClosesEachOnce(toClose: set<OrderId>)
    ensures Calls(ClosePlan(toClose)) == CloseSteps(toClose)
    ensures forall o :: CloseOrder(o) in Calls(ClosePlan(toClose)) <==> o in toClose
    ensures Distinct(ClosePlan(toClose))
    ensures forall a, b :: !Precedes(ClosePlan(toClose), a, b)
  {
    if toClose != {} {
      FanOutCalls(CloseSteps(toClose));
      FanOutIsUnordered(CloseSteps(toClose));
    }
  }

  /** The close plan completes exactly when every single close completes, and
      with nothing to close it completes at once without a call. */
  lemma ClosePlanCompletes(toClose: set<OrderId>, ok: Step -> bool)
    ensures Run(ClosePlan(toClose), ok).completed <==> forall o :: o in toClose ==> ok(CloseOrder(o))
    ensures toClose == {} ==> Run(ClosePlan(toClose), ok) == Progress({}, true)
  {
    ClosePlanClosesEachOnce(toClose);
    CompletesIffAllStepsComplete(ClosePlan(toClose), ok);
    if Run(ClosePlan(toClose), ok).completed {
      forall o | o in toClose ensures ok(CloseOrder(o)) {
        assert CloseOrder(o) in Calls(ClosePlan(toClose));
      }
    }
  }

  // ---------------------------------------------------------------------------
  // The position

  class Position {
    const instrument: Instrument
    /** The event types that end an order's life (the library's endOfOrder set). */
    const endOfOrderTypes: set<OrderEventType>
    const restoreSLTPPolicy: RestoreSLTPPolicy
    var orderRepository: Repository

    constructor(instrument: Instrument, endOfOrderTypes: set<OrderEventType>, restoreSLTPPolicy: RestoreSLTPPolicy)
      ensures this.instrument == instrument
      ensures this.endOfOrderTypes == endOfOrderTypes
      ensures this.restoreSLTPPolicy == restoreSLTPPolicy
      ensures orderRepository == map[]
    {
      this.instrument := instrument;
      this.endOfOrderTypes := endOfOrderTypes;
      this.restoreSLTPPolicy := restoreSLTPPolicy;
      orderRepository := map[];
    }

    /** One event from the stream: filtered to this instrument, to members and to
        end-of-order types, and then the order is removed. */
    method OnOrderEvent(event: OrderEvent, view: OrderView)
      modifies this
      ensures orderRepository == AfterEvent(instrument, endOfOrderTypes, old(orderRepository), event, view)
    {
      if view(event.order).instrument == instrument
         && event.order in orderRepository
         && event.eventType in endOfOrderTypes
      {
        orderRepository := Remove(orderRepository, event.order);
      }
    }

    /** The subscription to the event stream, delivering events in order. */
    method OnOrderEvents(events: seq<OrderEvent>, view: OrderView)
      modifies this
      ensures orderRepository == AfterEvents(instrument, endOfOrderTypes, old(orderRepository), events, view)
    {
      for i := 0 to |events|
        invariant orderRepository == AfterEvents(instrument, endOfOrderTypes, old(orderRepository), events[..i], view)
      {
        assert events[..i + 1][..i] == events[..i];
        OnOrderEvent(events[i], view);
      }
      assert events[..|events|] == events;
    }

    /** An order a submit or merge produced joins the position when admitted. */
    method OnOrderAdd(order: OrderId, view: OrderView)
      modifies this
      ensures orderRepository == AddIfAdmitted(old(orderRepository), order, view)
    {
      if IsFilled(view(order)) || (IsConditional(view(order)) && IsOpened(view(order))) {
        orderRepository := Add(orderRepository, order);
      }
    }

    /** The submit sequence: every order the submit call emits is offered to
        the position. */
    method Submit(emitted: seq<OrderId>, view: OrderView)
      modifies this
      ensures orderRepository == AddAll(old(orderRepository), emitted, view)
    {
      for i := 0 to |emitted|
        invariant orderRepository == AddAll(old(orderRepository), emitted[..i], view)
      {
        assert emitted[..i + 1][..i] == emitted[..i];
        OnOrderAdd(emitted[i], view);
      }
      assert emitted[..|emitted|] == emitted;
    }

    /** The merge sequence. With fewer than two idle filled orders nothing
        happens; otherwise every member is marked active first, the restore data
        is computed from the orders to merge, and the merge plan is returned. */
    method Merge(mergeLabel: string, view: OrderView) returns (plan: Task)
      modifies this
      ensures var toMerge := FilledOrders(old(orderRepository), view);
              && (|toMerge| < 2 ==> plan == Empty && orderRepository == old(orderRepository))
              && (|toMerge| >= 2 ==>
                    && orderRepository == MarkAllActive(old(orderRepository))
                    && plan == MergePlan(mergeLabel, toMerge, RestoreData(restoreSLTPPolicy, toMerge, view)))
      ensures |FilledOrders(old(orderRepository), view)| >= 2 ==>
                FilledOrders(orderRepository, view) == {} && FilledOrOpenedOrders(orderRepository, view) == {}
    {
      var toMerge := FilledOrders(orderRepository, view);
      if |toMerge| < 2 {
        return Empty;
      }
      orderRepository := MarkAllActive(orderRepository);
      MarkAllActiveClosesGate(old(orderRepository), view, o => IsFilled(o));
      MarkAllActiveClosesGate(old(orderRepository), view, o => IsFilled(o) || IsOpened(o));
      var restoreData := RestoreSLTPData(restoreSLTPPolicy.restoreSL(toMerge, view),
                                         restoreSLTPPolicy.restoreTP(toMerge, view));
      plan := MergePlan(mergeLabel, toMerge, restoreData);
    }

    /** The close sequence. With no idle filled or opened order nothing happens;
        otherwise every member is marked active and one close per such order is
        issued at once. */
    method Close(view: OrderView) returns (plan: Task)
      modifies this
      ensures var toClose := FilledOrOpenedOrders(old(orderRepository), view);
              && (toClose == {} ==> plan == Empty && orderRepository == old(orderRepository))
              && (toClose != {} ==>
                    && orderRepository == MarkAllActive(old(orderRepository))
                    && plan == ClosePlan(toClose))
      ensures FilledOrOpenedOrders(old(orderRepository), view) != {} ==>
                FilledOrders(orderRepository, view) == {} && FilledOrOpenedOrders(orderRepository, view) == {}
    {
      var toClose := FilledOrOpenedOrders(orderRepository, view);
      if toClose == {} {
        return Empty;
      }
      orderRepository := MarkAllActive(orderRepository);
      MarkAllActiveClosesGate(old(orderRepository), view, o => IsFilled(o));
      MarkAllActiveClosesGate(old(orderRepository), view, o => IsFilled(o) || IsOpened(o));
      plan := ClosePlan(toClose);
    }
  }
}
