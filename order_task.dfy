/** The single-order operations of the order task layer: each issues one
    executor call and then observes the order's events for the call's reason.
    A change is skipped when the order already holds the value, a close when the
    order is already closed. */
module OrderTask {
  import opened Orders
  import opened Tasks

  /** Submit, then observe the new order for SUBMIT, whatever the command. */
  function SubmitOrder(params: OrderParams): (t: Task)
    ensures IsCallThenObserve(t, Tasks.SubmitOrder(params), Produced, Submit)
  {
    CallThenObserve(Tasks.SubmitOrder(params), Produced, Submit)
  }

  /** Merge the given orders, then observe the merge order for MERGE; there is
      no size check at this layer. */
  function MergeOrders(mergeOrderLabel: string, toMergeOrders: set<OrderId>): (t: Task)
    ensures IsCallThenObserve(t, Tasks.MergeOrders(mergeOrderLabel, toMergeOrders), Produced, Merge)
  {
    CallThenObserve(Tasks.MergeOrders(mergeOrderLabel, toMergeOrders), Produced, Merge)
  }

  /** Close, then observe for CLOSE; nothing for an order already closed. */
  function Close(view: OrderView, order: OrderId): (t: Task)
    ensures IsClosed(view(order)) <==> t == Empty
    ensures !IsClosed(view(order)) ==> IsCallThenObserve(t, CloseOrder(order), Given(order), Orders.Close)
  {
    if IsClosed(view(order)) then Empty
    else CallThenObserve(CloseOrder(order), Given(order), Orders.Close)
  }

  function SetLabel(view: OrderView, order: OrderId, newLabel: string): (t: Task)
    ensures IsLabelSetTo(view(order), newLabel) <==> t == Empty
    ensures !IsLabelSetTo(view(order), newLabel) ==>
              IsCallThenObserve(t, Tasks.SetLabel(order, newLabel), Given(order), ChangeLabel)
  {
    if IsLabelSetTo(view(order), newLabel) then Empty
    else CallThenObserve(Tasks.SetLabel(order, newLabel), Given(order), ChangeLabel)
  }

  function SetGoodTillTime(view: OrderView, order: OrderId, newGTT: int): (t: Task)
    ensures IsGTTSetTo(view(order), newGTT) <==> t == Empty
    ensures !IsGTTSetTo(view(order), newGTT) ==>
              IsCallThenObserve(t, SetGTT(order, newGTT), Given(order), ChangeGTT)
  {
    if IsGTTSetTo(view(order), newGTT) then Empty
    else CallThenObserve(SetGTT(order, newGTT), Given(order), ChangeGTT)
  }

  /** Tagged CHANGE_AMOUNT, not CHANGE_REQUESTED_AMOUNT. */
  function SetRequestedAmount(view: OrderView, order: OrderId, newRequestedAmount: real): (t: Task)
    ensures IsAmountSetTo(view(order), newRequestedAmount) <==> t == Empty
    ensures !IsAmountSetTo(view(order), newRequestedAmount) ==>
              IsCallThenObserve(t, Tasks.SetRequestedAmount(order, newRequestedAmount), Given(order), ChangeAmount)
  {
    if IsAmountSetTo(view(order), newRequestedAmount) then Empty
    else CallThenObserve(Tasks.SetRequestedAmount(order, newRequestedAmount), Given(order), ChangeAmount)
  }

  /** Tagged CHANGE_PRICE, not CHANGE_OPENPRICE. */
  function SetOpenPrice(view: OrderView, order: OrderId, newOpenPrice: Price): (t: Task)
    ensures IsOpenPriceSetTo(view(order), newOpenPrice) <==> t == Empty
    ensures !IsOpenPriceSetTo(view(order), newOpenPrice) ==>
              IsCallThenObserve(t, Tasks.SetOpenPrice(order, newOpenPrice), Given(order), ChangePrice)
  {
    if IsOpenPriceSetTo(view(order), newOpenPrice) then Empty
    else CallThenObserve(Tasks.SetOpenPrice(order, newOpenPrice), Given(order), ChangePrice)
  }

  function SetStopLossPrice(view: OrderView, order: OrderId, newSL: Price): (t: Task)
    ensures IsSLSetTo(view(order), newSL) <==> t == Empty
    ensures !IsSLSetTo(view(order), newSL) ==>
              IsCallThenObserve(t, SetSL(Given(order), newSL), Given(order), ChangeSL)
  {
    if IsSLSetTo(view(order), newSL) then Empty
    else CallThenObserve(SetSL(Given(order), newSL), Given(order), ChangeSL)
  }

  function SetTakeProfitPrice(view: OrderView, order: OrderId, newTP: Price): (t: Task)
    ensures IsTPSetTo(view(order), newTP) <==> t == Empty
    ensures !IsTPSetTo(view(order), newTP) ==>
              IsCallThenObserve(t, SetTP(Given(order), newTP), Given(order), ChangeTP)
  {
    if IsTPSetTo(view(order), newTP) then Empty
    else CallThenObserve(SetTP(Given(order), newTP), Given(order), ChangeTP)
  }

  /** Removing the stop loss is setting it to the platform's "no stop loss"
      price, so an order without one gets no call. */
  function CancelStopLossPrice(view: OrderView, order: OrderId): (t: Task)
    ensures t == SetStopLossPrice(view, order, NoSLPrice)
    ensures IsSLSetTo(view(order), NoSLPrice) <==> t == Empty
  {
    SetStopLossPrice(view, order, NoSLPrice)
  }

  /** Removing the take profit is setting it to the "no take profit" price. */
  function CancelTakeProfitPrice(view: OrderView, order: OrderId): (t: Task)
    ensures t == SetTakeProfitPrice(view, order, NoTPPrice)
    ensures IsTPSetTo(view(order), NoTPPrice) <==> t == Empty
  {
    SetTakeProfitPrice(view, order, NoTPPrice)
  }

  /** A skipped operation issues nothing and completes at once; otherwise the
      observation only starts once the executor call has completed. */
  lemma CloseObservesAfterCall(view: OrderView, order: OrderId, ok: Step -> bool)
    ensures IsClosed(view(order)) ==> Run(Close(view, order), ok) == Progress({}, true)
    ensures Observe(Given(order), Orders.Close) in Run(Close(view, order), ok).started ==> ok(CloseOrder(order))
  {
    if !IsClosed(view(order)) {
      ObservationWaitsForCall(Close(view, order), CloseOrder(order), Given(order), Orders.Close, ok);
    }
  }
}
