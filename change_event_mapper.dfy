/** The fixed table from a change call's reason to the event type that reports
    its rejection, with the two message types and the six reasons that make up
    the "change" family. */
module ChangeEventMapper {
  import opened Orders

  const ChangeRejectEventByRequest: map<OrderCallReason, OrderEventType> :=
    map[
      ChangeRequestedAmount := ChangeAmountRejected,
      ChangeLabel := ChangeLabelRejected,
      ChangeGTT := ChangeGTTRejected,
      ChangeOpenPrice := ChangeOpenPriceRejected,
      ChangeSL := ChangeSLRejected,
      ChangeTP := ChangeTPRejected
    ]

  const ChangeEventTypes: set<MessageType> := {OrderChangedOk, OrderChangedRejected}

  const ChangeReasons: set<OrderCallReason> :=
    {ChangeGTT, ChangeLabel, ChangeOpenPrice, ChangeRequestedAmount, ChangeSL, ChangeTP}

  /** The reject event type for a change reason; None (the library's null) for
      every reason outside the change family. */
  function MapReason(reason: OrderCallReason): (r: Option<OrderEventType>)
    ensures r.Some? <==> reason in ChangeReasons
    ensures reason == ChangeRequestedAmount ==> r == Some(ChangeAmountRejected)
    ensures reason == ChangeLabel ==> r == Some(ChangeLabelRejected)
    ensures reason == ChangeGTT ==> r == Some(ChangeGTTRejected)
    ensures reason == ChangeOpenPrice ==> r == Some(ChangeOpenPriceRejected)
    ensures reason == ChangeSL ==> r == Some(ChangeSLRejected)
    ensures reason == ChangeTP ==> r == Some(ChangeTPRejected)
  {
    if reason in ChangeRejectEventByRequest then Some(ChangeRejectEventByRequest[reason]) else None
  }

  /** The change reasons are exactly the keys of the reject table. */
  lemma ChangeReasonsAreTableKeys()
    ensures ChangeReasons == ChangeRejectEventByRequest.Keys
    ensures |ChangeReasons| == 6
  {
  }

  /** Submit, merge and close reasons, and the reasons the single-order setters
      tag their calls with for amount and price, have no reject entry. */
  lemma OutsideFamilyMapsToNone(reason: OrderCallReason)
    requires reason in {Submit, SubmitConditional, Merge, Close, ChangeAmount, ChangePrice}
    ensures MapReason(reason) == None
  {
  }

  /** Distinct change reasons are rejected with distinct event types. */
  lemma RejectTableIsInjective(a: OrderCallReason, b: OrderCallReason)
    requires MapReason(a).Some? && MapReason(a) == MapReason(b)
    ensures a == b
  {
  }

  /** The change family of messages is literally the two change message types. */
  lemma ChangeEventTypesAreOkAndRejected(m: MessageType)
    ensures m in ChangeEventTypes <==> m == OrderChangedOk || m == OrderChangedRejected
  {
  }
}
