/** The single-order operations of the basic task layer (the revision with
    close and stop-loss parameter objects): the same call-then-observe rule as
    the order task layer, with a submit reason that depends on the command, a
    size check on merge and a choice of executor close. */
module BasicTask {
  import opened Orders
  import opened Tasks
  import OrderTask

  /** A market order is submitted for SUBMIT, every other one for
      SUBMIT_CONDITIONAL. */
  function SubmitReason(command: OrderCommand): (r: OrderCallReason)
    ensures r == SubmitConditional <==> command.IsConditional()
    ensures r == Submit <==> !command.IsConditional()
  {
    if command.IsConditional() then SubmitConditional else Submit
  }

  function SubmitOrder(params: OrderParams): (t: Task)
    ensures IsCallThenObserve(t, Tasks.SubmitOrder(params), Produced, SubmitReason(params.command))
  {
    CallThenObserve(Tasks.SubmitOrder(params), Produced, SubmitReason(params.command))
  }

  /** The orders of a collection, as the merge call receives them. */
  function OrderSet(orders: seq<OrderId>): (r: set<OrderId>)
    ensures forall o :: o in r <==> o in orders
  {
    set o | o in orders
  }

  /** Fewer than two orders in the collection (counting repeats): no call and
      nothing emitted. */
  function MergeOrders(mergeOrderLabel: string, toMergeOrders: seq<OrderId>): (t: Task)
    ensures |toMergeOrders| < 2 <==> t == Empty
    ensures |toMergeOrders| >= 2 ==>
              IsCallThenObserve(t, Tasks.MergeOrders(mergeOrderLabel, OrderSet(toMergeOrders)), Produced, Merge)
  {
    if |toMergeOrders| < 2 then Empty
    else CallThenObserve(Tasks.MergeOrders(mergeOrderLabel, OrderSet(toMergeOrders)), Produced, Merge)
  }

  /** What to close and how: an amount, and optionally a price with slippage. */
  datatype CloseParams = CloseParams(order: OrderId, amount: real, maybePrice: Option<Price>, slippage: real)

  /** The parameters built for a plain close: amount 0 (the whole order) and no
      price, so the slippage is never used. */
  function DefaultCloseParams(order: OrderId): (p: CloseParams)
    ensures p.order == order
    ensures EvalCloseParams(p) == CloseAmount(order, 0.0)
  {
    CloseParams(order, 0.0, None, 0.0)
  }

  /** The executor close the parameters select: the price variant exactly when
      a price is present, always for the parameters' order and amount. */
  function EvalCloseParams(params: CloseParams): (s: Step)
    ensures s.CloseAtPrice? <==> params.maybePrice.Some?
    ensures s.CloseAmount? <==> params.maybePrice.None?
    ensures s.order == params.order && s.amount == params.amount
    ensures s.CloseAtPrice? ==> s.price == params.maybePrice.value && s.slippage == params.slippage
  {
    match params.maybePrice
    case Some(price) => CloseAtPrice(params.order, params.amount, price, params.slippage)
    case None => CloseAmount(params.order, params.amount)
  }

  function Close(view: OrderView, params: CloseParams): (t: Task)
    ensures IsClosed(view(params.order)) <==> t == Empty
    ensures !IsClosed(view(params.order)) ==>
              IsCallThenObserve(t, EvalCloseParams(params), Given(params.order), Orders.Close)
  {
    if IsClosed(view(params.order)) then Empty
    else CallThenObserve(EvalCloseParams(params), Given(params.order), Orders.Close)
  }

  /** Closing an order without parameters closes all of it at market. */
  function CloseOrder(view: OrderView, order: OrderId): (t: Task)
    ensures IsClosed(view(order)) <==> t == Empty
    ensures !IsClosed(view(order)) ==>
              IsCallThenObserve(t, CloseAmount(order, 0.0), Given(order), Orders.Close)
  {
    Close(view, DefaultCloseParams(order))
  }

  /** The label, GTT, amount, open price and take-profit setters of this
      revision skip and observe exactly as those of the order task layer. */
  function SetLabel(view: OrderView, order: OrderId, newLabel: string): (t: Task)
    ensures IsLabelSetTo(view(order), newLabel) <==> t == Empty
    ensures !IsLabelSetTo(view(order), newLabel) ==>
              IsCallThenObserve(t, Tasks.SetLabel(order, newLabel), Given(order), ChangeLabel)
  {
    OrderTask.SetLabel(view, order, newLabel)
  }

  function SetGoodTillTime(view: OrderView, order: OrderId, newGTT: int): (t: Task)
    ensures IsGTTSetTo(view(order), newGTT) <==> t == Empty
    ensures !IsGTTSetTo(view(order), newGTT) ==>
              IsCallThenObserve(t, SetGTT(order, newGTT), Given(order), ChangeGTT)
  {
    OrderTask.SetGoodTillTime(view, order, newGTT)
  }

  function SetRequestedAmount(view: OrderView, order: OrderId, newRequestedAmount: real): (t: Task)
    ensures IsAmountSetTo(view(order), newRequestedAmount) <==> t == Empty
    ensures !IsAmountSetTo(view(order), newRequestedAmount) ==>
              IsCallThenObserve(t, Tasks.SetRequestedAmount(order, newRequestedAmount), Given(order), ChangeAmount)
  {
    OrderTask.SetRequestedAmount(view, order, newRequestedAmount)
  }

  function SetOpenPrice(view: OrderView, order: OrderId, newOpenPrice: Price): (t: Task)
    ensures IsOpenPriceSetTo(view(order), newOpenPrice) <==> t == Empty
    ensures !IsOpenPriceSetTo(view(order), newOpenPrice) ==>
              IsCallThenObserve(t, Tasks.SetOpenPrice(order, newOpenPrice), Given(order), ChangePrice)
  {
    OrderTask.SetOpenPrice(view, order, newOpenPrice)
  }

  /** A new stop loss with the side to trigger on and a trailing step; the
      builder's defaults for the last two are left open (None). */
  datatype SetSLParams = SetSLParams(order: OrderId, newSL: Price, offerSide: Option<OfferSide>, trailingStep: Option<real>)

  function SetStopLossPriceWith(view: OrderView, params: SetSLParams): (t: Task)
    ensures IsSLSetTo(view(params.order), params.newSL) <==> t == Empty
    ensures !IsSLSetTo(view(params.order), params.newSL) ==>
              IsCallThenObserve(t, SetSLWith(params.order, params.newSL, params.offerSide, params.trailingStep),
                                Given(params.order), ChangeSL)
  {
    if IsSLSetTo(view(params.order), params.newSL) then Empty
    else CallThenObserve(SetSLWith(params.order, params.newSL, params.offerSide, params.trailingStep),
                         Given(params.order), ChangeSL)
  }

  /** Setting a stop loss by price goes through the parameter object. */
  function SetStopLossPrice(view: OrderView, order: OrderId, newSL: Price): (t: Task)
    ensures IsSLSetTo(view(order), newSL) <==> t == Empty
    ensures !IsSLSetTo(view(order), newSL) ==>
              IsCallThenObserve(t, SetSLWith(order, newSL, None, None), Given(order), ChangeSL)
  {
    SetStopLossPriceWith(view, SetSLParams(order, newSL, None, None))
  }

  function SetTakeProfitPrice(view: OrderView, order: OrderId, newTP: Price): (t: Task)
    ensures IsTPSetTo(view(order), newTP) <==> t == Empty
    ensures !IsTPSetTo(view(order), newTP) ==>
              IsCallThenObserve(t, SetTP(Given(order), newTP), Given(order), ChangeTP)
  {
    OrderTask.SetTakeProfitPrice(view, order, newTP)
  }

  /** The submitted order is observed only once the submit call has completed,
      and the submit completes exactly when both have. */
  lemma SubmitObservesAfterCall(params: OrderParams, ok: Step -> bool)
    ensures Observe(Produced, SubmitReason(params.command)) in Run(SubmitOrder(params), ok).started ==>
              ok(Tasks.SubmitOrder(params))
    ensures Run(SubmitOrder(params), ok).completed <==>
              ok(Tasks.SubmitOrder(params)) && ok(Observe(Produced, SubmitReason(params.command)))
  {
    ObservationWaitsForCall(SubmitOrder(params), Tasks.SubmitOrder(params), Produced, SubmitReason(params.command), ok);
  }
}
