/** Vocabulary shared by the whole model: order identities, the platform's view of an
    order, call reasons, canonical event types and the order predicates of the
    trading library (its OrderStaticUtil helpers). */
module Orders {

  /** An order is identified by a handle; the platform object behind it is seen
      through an OrderView. */
  type OrderId = nat
  type Instrument = nat
  /** Prices, amounts and times are opaque values; only equality is used. */
  type Price = real

  datatype Option<+T> = None | Some(value: T)

  datatype OrderState = Created | Opened | Filled | Closed | Canceled

  datatype OrderCommand =
    | Buy | Sell
    | BuyLimit | SellLimit | BuyStop | SellStop
    | PlaceBid | PlaceOffer
  {
    /** Every command except a plain market Buy or Sell waits for a trigger. */
    predicate IsConditional() {
      !(Buy? || Sell?)
    }
  }

  /** What the platform currently reports about one order. */
  datatype OrderInfo = OrderInfo(
    instrument: Instrument,
    state: OrderState,
    command: OrderCommand,
    orderLabel: string,
    goodTillTime: int,
    requestedAmount: real,
    openPrice: Price,
    stopLossPrice: Price,
    takeProfitPrice: Price)

  /** The platform's view of every order at one moment. */
  type OrderView = OrderId -> OrderInfo

  // The order predicates (OrderStaticUtil in the library); the price and amount
  // comparisons are exact equality here.
  predicate IsFilled(o: OrderInfo) { o.state == Filled }
  predicate IsOpened(o: OrderInfo) { o.state == Opened }
  predicate IsClosed(o: OrderInfo) { o.state == Closed }
  predicate IsConditional(o: OrderInfo) { o.command.IsConditional() }
  predicate IsLabelSetTo(o: OrderInfo, newLabel: string) { o.orderLabel == newLabel }
  predicate IsGTTSetTo(o: OrderInfo, gtt: int) { o.goodTillTime == gtt }
  predicate IsAmountSetTo(o: OrderInfo, amount: real) { o.requestedAmount == amount }
  predicate IsOpenPriceSetTo(o: OrderInfo, price: Price) { o.openPrice == price }
  predicate IsSLSetTo(o: OrderInfo, price: Price) { o.stopLossPrice == price }
  predicate IsTPSetTo(o: OrderInfo, price: Price) { o.takeProfitPrice == price }

  /** The platform settings' "no stop loss" and "no take profit" prices. */
  const NoSLPrice: Price := 0.0
  const NoTPPrice: Price := 0.0

  /** Why a call was issued; used to correlate the platform's answer with it. */
  datatype OrderCallReason =
    | Submit | SubmitConditional
    | Merge | Close
    | ChangeLabel | ChangeGTT
    | ChangeRequestedAmount | ChangeAmount
    | ChangeOpenPrice | ChangePrice
    | ChangeSL | ChangeTP

  datatype OrderCallRequest = OrderCallRequest(order: OrderId, reason: OrderCallReason)

  /** The kinds of raw platform message about an order. */
  datatype MessageType =
    | OrderSubmitOk | OrderSubmitRejected
    | OrderFillOk | OrderFillRejected
    | OrderChangedOk | OrderChangedRejected
    | OrdersMergeOk | OrdersMergeRejected
    | OrderCloseOk | OrderCloseRejected
    | Notification

  /** A raw platform message about one order. */
  datatype OrderMessageData = OrderMessageData(order: OrderId, messageType: MessageType)

  /** The canonical classification of a platform message. */
  datatype OrderEventType =
    | SubmitOk | SubmitConditionalOk | SubmitRejected
    | FillRejected | PartialFillOk | FullyFilled
    | NotificationEvent
    | ChangedLabel | ChangedGTT | ChangedAmount | ChangedOpenPrice | ChangedSL | ChangedTP
    | ChangeLabelRejected | ChangeGTTRejected | ChangeAmountRejected
    | ChangeOpenPriceRejected | ChangeSLRejected | ChangeTPRejected
    | MergeOk | MergeCloseOk | MergeRejected
    | CloseOk | PartialCloseOk | CloseRejected
    | ClosedByMerge | ClosedBySL | ClosedByTP

  datatype OrderEvent = OrderEvent(order: OrderId, eventType: OrderEventType)

  /** The parameters of a new order. */
  datatype OrderParams = OrderParams(orderLabel: string, command: OrderCommand, amount: real)
}
