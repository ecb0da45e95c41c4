# JForexUtils order-event and position orchestration, modelled in Dafny

JForexUtils is a helper library for trading on the Dukascopy JForex platform. This project models its
event and position layer.

- **The event gateway** correlates each platform message about an order with the oldest pending call
  request for that order. It keeps one FIFO queue per order. It then hands the one classified event to
  every current subscriber.
- **The change-reject table** maps a change call's reason to the event type that reports its rejection.
- **The retry policy** governs rejected order calls and failed history requests.
- **Positions** come one per instrument from a lazily filled factory. Each position holds member orders
  flagged idle or active. An event loop removes finished orders. It builds the merge and close
  sequences behind an "all members active" gate.
- **The task layers** are the single-order operations of two revisions (`OrderTask`, `BasicTask`), the
  position close (`PositionTask`, `ClosePositionTaskObservable`) and the SL/TP cancel arrangement
  (`CancelSLTPTask`).

The reactive chains become values of one small plan algebra, `Tasks.Task`. A plan is built from:

- single steps: an executor call, an observation of an order's events for a call reason, or a local
  bookkeeping action;
- sequential composition (`concatWith`, `andThen`, `flatMap` after a single-valued source);
- fan-out (`Observable.merge`, `flatMap` over a collection);
- per-instrument callback wrappers (`TaskParamsUtil.composePositionTask`).

A plan has three readings, with lemmas connecting them:

- `Calls`: the steps it may issue.
- `Precedes`: the steps that must complete before another may start.
- `Run`: the steps started and whether the plan completes, given which steps complete. A step that
  does not complete stops everything behind it.

The main results:

- **FIFO conservation of the gateway.** For every order, the requests handed out as context, followed
  by those still queued, are exactly the requests queued so far, in registration order.
- **The retry bounds.** Rejected calls get k retries and then the (k + 1)-th error surfaces. Any other
  error surfaces at once. The history retry as written differs from this (see Findings).
- **The ordering of the merge sequence.** TP removals, then SL removals, then the merge, then the add,
  then the SL restore, then the TP restore. A step never starts unless all of its predecessors
  completed.
- **The position gate.** Once a merge or close has started, the repository has no idle candidate
  left.
- **The lazy registry's one-position-per-instrument invariant.**
- **The skip and observe rules of every single-order operation.**

The mutable objects are Dafny classes with `modifies` clauses:

- the gateway, with its queue map and subscriber set;
- `Position`, with its order repository;
- `PositionFactory`, with its instrument map.

Each method is specified by a pure function of the old state, and the properties are proved about
those functions.

## Model

| member | source | states |
|---|---|---|
| EventGateway.Register | Utils/src/main/java/com/jforex/programming/order/event/OrderEventGateway.java:36-40 | the request joins the tail of the order's queue, which starts empty when the order has none; every other order's queue is unchanged |
| EventGateway.Correlate | Utils/src/main/java/com/jforex/programming/order/event/OrderEventGateway.java:53-68 | a context is found iff the order's queue is non-empty, and it is the head, which leaves the queue; an order with no queue leaves the ledger unchanged; a present, empty queue is removed; other orders are untouched |
| EventGateway.StepConservation | Utils/src/main/java/com/jforex/programming/order/event/OrderEventGateway.java:36-40 | one call result or message conserves an order's requests: what it hands out, followed by what is then queued, is what was queued, followed by what it registers |
| EventGateway.FifoConservation | Utils/src/main/java/com/jforex/programming/order/event/OrderEventGateway.java:36-68 | over any trace of call results and messages, for every order: served requests followed by still-queued ones equal the initial queue followed by the requests registered, in order (none lost, duplicated, reordered or given to another order) |
| EventGateway.RegisterAllAppends | Utils/src/main/java/com/jforex/programming/order/event/OrderEventGateway.java:36-40 | registering requests one after the other appends them, in order, to the order's queue |
| EventGateway.DrainServesOldestFirst | Utils/src/main/java/com/jforex/programming/order/event/OrderEventGateway.java:59-67 | n messages for an order are classified with its n oldest pending requests, oldest first, and those leave the queue |
| EventGateway.FifoCorrelation | Utils/src/main/java/com/jforex/programming/order/event/OrderEventGateway.java:36-67 | after registering R1..Rn for an order with nothing pending, the i-th message is classified with Ri; the next one gets no context and drops the empty queue |
| EventGateway.OrderEventGateway.constructor | Utils/src/main/java/com/jforex/programming/order/event/OrderEventGateway.java:24-29 | a new gateway has no pending requests and no subscribers, and classifies with the given evaluator |
| EventGateway.OrderEventGateway.OnOrderCallResult | Utils/src/main/java/com/jforex/programming/order/event/OrderEventGateway.java:36-40 | a result carrying an order registers its request for that order; a result without an order fails and changes nothing |
| EventGateway.OrderEventGateway.OnOrderMessageData | Utils/src/main/java/com/jforex/programming/order/event/OrderEventGateway.java:42-46 | exactly one event, with the message's order and the type evaluated with the correlated context, is appended to what each current subscriber received and to no one else's; the ledger becomes the correlated one |
| EventGateway.OrderEventGateway.Subscribe | Utils/src/main/java/com/jforex/programming/order/event/OrderEventGateway.java:48-51 | the subscriber joins the fan-out set and nothing else in it changes |
| EventGateway.OrderEventGateway.Unsubscribe | Utils/src/main/java/com/jforex/programming/order/event/OrderEventGateway.java:49 | exactly that subscriber leaves the fan-out set |
| EventGateway.OrderEventGateway.OrderEventTypeFromData | Utils/src/main/java/com/jforex/programming/order/event/OrderEventGateway.java:53-57 | the type is the evaluator's for the correlated context (none without a queue), and the ledger becomes the correlated one |
| EventGateway.OrderEventGateway.OrderEventWithQueuePresent | Utils/src/main/java/com/jforex/programming/order/event/OrderEventGateway.java:59-68 | with a queue present: the head is polled as context, or the empty queue is removed and there is no context |
| ChangeEventMapper.MapReason | src/main/java/com/jforex/programming/order/event/ChangeEventMapper.java:15-39 | defined exactly for the six change reasons, each with its listed reject type |
| ChangeEventMapper.ChangeReasonsAreTableKeys | src/main/java/com/jforex/programming/order/event/ChangeEventMapper.java:29-35 | the change reasons are exactly the table's keys, six of them |
| ChangeEventMapper.OutsideFamilyMapsToNone | src/main/java/com/jforex/programming/order/event/ChangeEventMapper.java:37-39 | submit, merge and close reasons, and the CHANGE_AMOUNT and CHANGE_PRICE reasons the setters use, map to nothing |
| ChangeEventMapper.RejectTableIsInjective | src/main/java/com/jforex/programming/order/event/ChangeEventMapper.java:17-22 | distinct change reasons give distinct reject types |
| ChangeEventMapper.ChangeEventTypesAreOkAndRejected | src/main/java/com/jforex/programming/order/event/ChangeEventMapper.java:25-27 | the change message types are exactly ORDER_CHANGED_OK and ORDER_CHANGED_REJECTED |
| StreamUtil.FilterCallErrorType | src/main/java/com/jforex/programming/misc/StreamUtil.java:42-49 | a rejection is passed on, any other error is raised, always the same error |
| StreamUtil.CounterRange | src/main/java/com/jforex/programming/misc/StreamUtil.java:61 | count consecutive integers from start |
| StreamUtil.RetryCounter | src/main/java/com/jforex/programming/misc/StreamUtil.java:60-62 | the counters are exactly 1..maxRetries + 1 |
| StreamUtil.EvaluateRetryPair | src/main/java/com/jforex/programming/misc/StreamUtil.java:51-58 | the paired error surfaces, as itself, iff its counter exceeds the bound; otherwise one wait of the delay |
| StreamUtil.RetryWhen | src/main/java/com/jforex/programming/misc/StreamUtil.java:32-58 | a call retried under retryWhen with its errors zipped to the counters: never more waits than errors or counters, each wait is the delay and uses a counter within the bound, and success comes after exactly one wait per error; `CountedFailuresWait` gives its exact outcome |
| StreamUtil.RetryOnReject | src/main/java/com/jforex/programming/misc/StreamUtil.java:32-40 | at most maxRetriesOnOrderFail waits, each of the order-fail delay; `RejectRetryBound`, `RejectRetrySucceeds`, `UnexpectedErrorSurfacesAtOnce` and `RejectRetryNeverSilent` give the outcome for every error sequence |
| StreamUtil.CountedFailuresWait | src/main/java/com/jforex/programming/misc/StreamUtil.java:32-40 | n counted failures within the bound cost n waits of the delay, and the rest of the outcome is that of the remaining errors and counters |
| StreamUtil.RejectRetryBound | src/main/java/com/jforex/programming/misc/StreamUtil.java:32-58 | with k = maxRetriesOnOrderFail, k + 1 rejections give k waits and then the (k + 1)-th rejection surfaces: k + 1 attempts |
| StreamUtil.RejectRetrySucceeds | src/main/java/com/jforex/programming/misc/StreamUtil.java:32-40 | at most k rejections: one wait after each, then the succeeding attempt |
| StreamUtil.UnexpectedErrorSurfacesAtOnce | src/main/java/com/jforex/programming/misc/StreamUtil.java:32-49 | an error that is not a rejection surfaces at its own attempt, with no wait for it and no counter consumed |
| StreamUtil.NeverSilentWhenRangeExceedsBound | src/main/java/com/jforex/programming/misc/StreamUtil.java:35-57 | when the last counter exceeds the bound the signals never run out first: the call ends in success or a surfaced error |
| StreamUtil.SurfacedErrorIsOriginal | src/main/java/com/jforex/programming/misc/StreamUtil.java:55-56 | a surfaced error is always one of the call's own errors |
| StreamUtil.RejectRetryNeverSilent | src/main/java/com/jforex/programming/misc/StreamUtil.java:32-40 | the order-call retry never completes silently |
| StreamUtil.HistoryRetryAsWrittenSwallowsError | src/main/java/com/jforex/programming/misc/StreamUtil.java:92-99 | as written (six counters, every error counted), any bound of 6 or more with seven or more failures gives six waits and then completes with no error |
| StreamUtil.RetryOnHistoryFailAsWritten | src/main/java/com/jforex/programming/misc/StreamUtil.java:92-99 | as written: never more than six waits whatever the bound, and no more than the bound, each of the history delay |
| StreamUtil.RetryOnHistoryFail | src/main/java/com/jforex/programming/misc/StreamUtil.java:92-99 | corrected: at most maxRetriesOnHistoryFail waits, each of the history delay; `HistoryRetryBound` and `HistoryRetryNeverSilent` give the outcome |
| StreamUtil.HistoryRetryAsWrittenAgreesUpToFive | src/main/java/com/jforex/programming/misc/StreamUtil.java:92-99 | for bounds up to 5 the written history retry equals the corrected one |
| StreamUtil.HistoryRetryBound | src/main/java/com/jforex/programming/misc/StreamUtil.java:92-99 | corrected: with k = maxRetriesOnHistoryFail, any k + 1 failures of any kind give k waits of the history delay, then the (k + 1)-th error surfaces |
| StreamUtil.HistoryRetryNeverSilent | src/main/java/com/jforex/programming/misc/StreamUtil.java:92-99 | the corrected history retry never completes silently |
| StreamUtil.OptionalStream | src/main/java/com/jforex/programming/misc/StreamUtil.java:77-81 | one element, the content, when present; none otherwise |
| StreamUtil.OptionalStreamRoundTrip | src/main/java/com/jforex/programming/misc/StreamUtil.java:77-81 | the first element of the stream is the optional back |
| PositionOrders.Add | src/main/java/com/jforex/programming/position/Position.java:133 | the order becomes a member, idle when new; existing members and flags are kept |
| PositionOrders.Remove | src/main/java/com/jforex/programming/position/Position.java:51 | the order leaves; every other member keeps its flag |
| PositionOrders.MarkAllActive | src/main/java/com/jforex/programming/position/Position.java:99 | membership unchanged, every member active |
| PositionOrders.FilterIdle | src/main/java/com/jforex/programming/position/Position.java:77-79 | exactly the idle members whose state satisfies the predicate |
| PositionOrders.FilledOrders | src/main/java/com/jforex/programming/position/Position.java:77-79 | exactly the idle filled members |
| PositionOrders.FilledOrOpenedOrders | src/main/java/com/jforex/programming/position/Position.java:141 | exactly the idle members that are filled or opened |
| PositionOrders.MarkAllActiveClosesGate | src/main/java/com/jforex/programming/position/Position.java:92-101 | after marking all active, no idle filter finds anything, so a second merge or close sees nothing to do |
| PositionOrders.FilledAreCloseCandidates | src/main/java/com/jforex/programming/position/Position.java:77-79 | merge candidates are among close candidates |
| PositionOrders.CloseCandidatesAreNotClosed | src/main/java/com/jforex/programming/position/Position.java:141 | a close candidate is never skipped by the single-order close rule |
| Positions.EventsOnlyRemoveTerminated | src/main/java/com/jforex/programming/position/Position.java:43-54 | after any event stream, an order is a member iff it was one and no end-of-order event of this instrument arrived for it; members keep their flag |
| Positions.AfterEvents | src/main/java/com/jforex/programming/position/Position.java:43-54 | the event loop over a stream only removes members and never changes a remaining member's flag; `EventsOnlyRemoveTerminated` says exactly which leave |
| Positions.Admits | src/main/java/com/jforex/programming/position/Position.java:131-137 | the admission rule: filled, or conditional and opened; `AddAllAdmitsExactly` shows it decides membership |
| Positions.AddAll | src/main/java/com/jforex/programming/position/Position.java:81-90 | offering emitted orders keeps every member and its flag and adds only idle members; `AddAllAdmitsExactly` says exactly which join |
| Positions.AddAllAdmitsExactly | src/main/java/com/jforex/programming/position/Position.java:81-137 | offering emitted orders adds exactly those filled, or conditional and opened, each new one idle; existing members keep their flag |
| Positions.RestoreData | src/main/java/com/jforex/programming/position/Position.java:100-101 | the restore SL and TP are the policy's for the orders to merge |
| Positions.RemoveTPSL | src/main/java/com/jforex/programming/position/Position.java:119-129 | the removal stage; `RemoveTPSLFacts` states its steps and order |
| Positions.RestoreSLTP | src/main/java/com/jforex/programming/position/Position.java:151-162 | the restore stage; `RestoreSLTPFacts` states its steps and order |
| Positions.MergeAndRestore | src/main/java/com/jforex/programming/position/Position.java:107-117 | merge, add, restore; `MergeAndRestoreFacts` states its steps and order |
| Positions.MergePlan | src/main/java/com/jforex/programming/position/Position.java:103-104 | removals, then merge and restore; `MergePlanCalls`, `MergePlanOrder` and `MergeWaitsForRemovals` state its steps, order and waiting |
| Positions.ClosePlan | src/main/java/com/jforex/programming/position/Position.java:141-146 | one close per order, fanned out; `ClosePlanClosesEachOnce` and `ClosePlanCompletes` state its steps and completion |
| Positions.RemoveTPSLFacts | src/main/java/com/jforex/programming/position/Position.java:119-129 | exactly the TP and SL removals; every TP removal before every SL removal and no other order; no step twice |
| Positions.RestoreSLTPFacts | src/main/java/com/jforex/programming/position/Position.java:151-162 | SL restore then TP restore on the merged order, and nothing else |
| Positions.MergeAndRestoreFacts | src/main/java/com/jforex/programming/position/Position.java:107-117 | the merge call, then the add of the merged order, then the SL and TP restores, each strictly after the one before |
| Positions.MergePlanCalls | src/main/java/com/jforex/programming/position/Position.java:103-104 | the merge plan issues exactly the removals on the orders to merge, one merge of exactly them, the add and the two restores with the computed data, with no step twice |
| Positions.MergePlanOrder | src/main/java/com/jforex/programming/position/Position.java:103-162 | every TP removal before every SL removal, every SL removal before the merge, then the add, then SL restore, then TP restore |
| Positions.MergeWaitsForRemovals | src/main/java/com/jforex/programming/position/Position.java:103-117 | whatever the calls' outcomes, the merge starts only after every removal completed, and a restore only after the merge and the add completed |
| Positions.ClosePlanClosesEachOnce | src/main/java/com/jforex/programming/position/Position.java:144-145 | one close per order to close, no other step, no order among them |
| Positions.ClosePlanCompletes | src/main/java/com/jforex/programming/position/Position.java:141-146 | the close plan completes iff every single close does; with nothing to close it completes at once without a call |
| Positions.Position.constructor | src/main/java/com/jforex/programming/position/Position.java:30-41 | a new position of the instrument has an empty order repository and keeps its end-of-order types and restore policy |
| Positions.Position.OnOrderEvent | src/main/java/com/jforex/programming/position/Position.java:43-54 | one event removes its order exactly when the order is of this instrument, a member and the type ends its life |
| Positions.Position.OnOrderEvents | src/main/java/com/jforex/programming/position/Position.java:43-54 | the repository after a stream of events is the one the event loop function gives |
| Positions.Position.OnOrderAdd | src/main/java/com/jforex/programming/position/Position.java:131-137 | adds the order iff it is filled, or conditional and opened |
| Positions.Position.Submit | src/main/java/com/jforex/programming/position/Position.java:81-90 | every order the submit emits is offered to the position, in order |
| Positions.Position.Merge | src/main/java/com/jforex/programming/position/Position.java:92-105 | fewer than two idle filled orders: empty plan, repository unchanged; otherwise all members active before any call, restore data from the pre-merge set, the merge plan; afterwards no idle candidate remains |
| Positions.Position.Close | src/main/java/com/jforex/programming/position/Position.java:139-149 | no idle filled-or-opened order: empty plan, flags unchanged; otherwise all members active and one close per snapshot order; afterwards no idle candidate remains |
| PositionRegistry.InjectiveValues | src/main/java/com/jforex/programming/position/PositionFactory.java:15 | a map sending distinct keys to distinct values has as many values as keys |
| PositionRegistry.PositionFactory.All | src/main/java/com/jforex/programming/position/PositionFactory.java:21-23 | exactly the positions created so far, each registered under its own instrument, one per instrument |
| PositionRegistry.PositionFactory.CreateNew | src/main/java/com/jforex/programming/position/PositionFactory.java:29-31 | a fresh, empty position for the instrument |
| PositionRegistry.PositionFactory.ForInstrument | src/main/java/com/jforex/programming/position/PositionFactory.java:25-27 | the registered position when there is one, with the map unchanged; otherwise exactly one new position, stored under that instrument, with other entries unchanged; always the instrument's own position |
| PositionRegistry.RequestTwice | src/main/java/com/jforex/programming/position/PositionFactory.java:25-27 | asking twice for an instrument gives the same position |
| Tasks.CallThenObserve | src/main/java/com/jforex/programming/order/OrderTask.java:126-129 | a call and the observation of the order's events for the reason, the observation strictly after the call |
| Tasks.ObservationWaitsForCall | src/main/java/com/jforex/programming/order/OrderTask.java:53-55 | in a call-then-observe plan the observation starts only once the call has completed, and the plan completes iff both do |
| Tasks.FanOutCalls | src/main/java/com/jforex/programming/position/Position.java:144-145 | a fan-out issues exactly its steps |
| Tasks.FanOutIsUnordered | src/main/java/com/jforex/programming/position/Position.java:144-145 | a fan-out imposes no order and has no step twice |
| Tasks.ParOfTwo | src/main/java/com/jforex/programming/order/task/CancelSLTPTask.java:72 | merging two plans keeps the steps and orders of both and adds none |
| Tasks.StartedAreCalls | src/main/java/com/jforex/programming/position/PositionTask.java:42-48 | only steps of a plan are ever started |
| Tasks.CompletesIffAllStepsComplete | src/main/java/com/jforex/programming/position/PositionTask.java:42-48 | a plan completes iff all of its steps complete, and has then started all of them |
| Tasks.PrecedesWithinCalls | src/main/java/com/jforex/programming/position/PositionTask.java:42-48 | precedence only relates steps of the plan |
| Tasks.PrecedesIsRespected | src/main/java/com/jforex/programming/position/PositionTask.java:42-48 | in a plan with distinct steps, a step that must wait for another starts only once that one has started and completed |
| OrderTask.SubmitOrder | src/main/java/com/jforex/programming/order/OrderTask.java:34-39 | submit, then observe the new order for SUBMIT, whatever the command |
| OrderTask.MergeOrders | src/main/java/com/jforex/programming/order/OrderTask.java:41-47 | merge, then observe for MERGE, with no size gate |
| OrderTask.Close | src/main/java/com/jforex/programming/order/OrderTask.java:49-56 | empty iff the order is closed; otherwise the executor close, then the CLOSE observation |
| OrderTask.SetLabel | src/main/java/com/jforex/programming/order/OrderTask.java:58-66 | empty iff the label is already set; otherwise the call, then the CHANGE_LABEL observation |
| OrderTask.SetGoodTillTime | src/main/java/com/jforex/programming/order/OrderTask.java:68-76 | empty iff the GTT is already set; otherwise the call then CHANGE_GTT |
| OrderTask.SetRequestedAmount | src/main/java/com/jforex/programming/order/OrderTask.java:78-86 | empty iff the amount is already set; otherwise the call then CHANGE_AMOUNT |
| OrderTask.SetOpenPrice | src/main/java/com/jforex/programming/order/OrderTask.java:88-96 | empty iff the open price is already set; otherwise the call then CHANGE_PRICE |
| OrderTask.SetStopLossPrice | src/main/java/com/jforex/programming/order/OrderTask.java:98-106 | empty iff the SL is already set; otherwise the call then CHANGE_SL |
| OrderTask.SetTakeProfitPrice | src/main/java/com/jforex/programming/order/OrderTask.java:108-116 | empty iff the TP is already set; otherwise the call then CHANGE_TP |
| OrderTask.CancelStopLossPrice | src/main/java/com/jforex/programming/order/OrderTask.java:118-120 | equals setting the SL to the no-SL price, so an order without SL gets no call |
| OrderTask.CancelTakeProfitPrice | src/main/java/com/jforex/programming/order/OrderTask.java:122-124 | equals setting the TP to the no-TP price, so an order without TP gets no call |
| OrderTask.CloseObservesAfterCall | src/main/java/com/jforex/programming/order/OrderTask.java:49-56 | a skipped close completes at once with no call; otherwise the CLOSE observation starts only after the executor close completed |
| BasicTask.SubmitReason | src/main/java/com/jforex/programming/order/task/BasicTask.java:40-42 | SUBMIT_CONDITIONAL iff the command is conditional, SUBMIT otherwise |
| BasicTask.SubmitOrder | src/main/java/com/jforex/programming/order/task/BasicTask.java:39-48 | submit, then observe the new order for the submit reason |
| BasicTask.MergeOrders | src/main/java/com/jforex/programming/order/task/BasicTask.java:50-59 | empty iff the collection holds fewer than two orders, repeats counted; otherwise the merge of its orders, then the MERGE observation |
| BasicTask.EvalCloseParams | src/main/java/com/jforex/programming/order/task/BasicTask.java:75-86 | the amount-price-slippage close iff a price is present, the amount-only close otherwise, always for the parameters' order and amount |
| BasicTask.Close | src/main/java/com/jforex/programming/order/task/BasicTask.java:67-73 | empty iff the order is closed; otherwise the selected close, then the CLOSE observation |
| BasicTask.DefaultCloseParams | src/main/java/com/jforex/programming/order/task/BasicTask.java:61-65 | the parameters of a plain close are for the order and select the amount-only market close of amount 0, the whole order |
| BasicTask.CloseOrder | src/main/java/com/jforex/programming/order/task/BasicTask.java:61-65 | closing without parameters closes the whole order at market, or nothing when already closed |
| BasicTask.SetLabel | src/main/java/com/jforex/programming/order/task/BasicTask.java:88-96 | empty iff the label is already set; otherwise the call then CHANGE_LABEL |
| BasicTask.SetGoodTillTime | src/main/java/com/jforex/programming/order/task/BasicTask.java:98-106 | empty iff the GTT is already set; otherwise the call then CHANGE_GTT |
| BasicTask.SetRequestedAmount | src/main/java/com/jforex/programming/order/task/BasicTask.java:108-116 | empty iff the amount is already set; otherwise the call then CHANGE_AMOUNT |
| BasicTask.SetOpenPrice | src/main/java/com/jforex/programming/order/task/BasicTask.java:118-126 | empty iff the open price is already set; otherwise the call then CHANGE_PRICE |
| BasicTask.SetStopLossPriceWith | src/main/java/com/jforex/programming/order/task/BasicTask.java:143-153 | empty iff the SL is already set; otherwise the call with offer side and trailing step, then CHANGE_SL |
| BasicTask.SetStopLossPrice | src/main/java/com/jforex/programming/order/task/BasicTask.java:128-133 | setting an SL by price goes through the parameter object with its defaults |
| BasicTask.SetTakeProfitPrice | src/main/java/com/jforex/programming/order/task/BasicTask.java:155-163 | empty iff the TP is already set; otherwise the call then CHANGE_TP |
| BasicTask.SubmitObservesAfterCall | src/main/java/com/jforex/programming/order/task/BasicTask.java:44-47 | the new order is observed only after the submit call completed, and the submit completes iff both did |
| PositionTask.Merge | src/main/java/com/jforex/programming/position/PositionTask.java:28-35 | empty iff fewer than two filled orders at subscription; otherwise the merge of exactly that filled set, then its observation |
| PositionTask.Batch | src/main/java/com/jforex/programming/position/PositionTask.java:51-56 | the batch task applied to every order at once; `CloseStageClosesEach` states what it issues for the close stage |
| PositionTask.CloseStage | src/main/java/com/jforex/programming/position/PositionTask.java:43-45 | one single-order close per filled-or-opened order; `CloseStageClosesEach`, `EmptyCloseStageCompletes` and `CloseStageStepKinds` state its steps |
| PositionTask.Close | src/main/java/com/jforex/programming/position/PositionTask.java:38-49 | the steps of the merge stage and of the close stage, every merge step before every close step; `MergeRunsBeforeClose` adds that no close starts before the merge stage completes |
| PositionTask.CloseStageClosesEach | src/main/java/com/jforex/programming/position/PositionTask.java:51-64 | the close stage closes exactly the filled-or-opened orders read when it starts, each with close then observation, and nothing else |
| PositionTask.EmptyCloseStageCompletes | src/main/java/com/jforex/programming/position/PositionTask.java:53-55 | with no filled-or-opened order the close stage issues nothing and completes at once |
| PositionTask.CloseStageStepKinds | src/main/java/com/jforex/programming/position/PositionTask.java:51-56 | the close stage only closes and observes given orders |
| PositionTask.StagesAreDisjoint | src/main/java/com/jforex/programming/position/PositionTask.java:38-49 | no merge-stage step is a close-stage step |
| PositionTask.MergeRunsBeforeClose | src/main/java/com/jforex/programming/position/PositionTask.java:42-48 | every merge step precedes every close step, and a close step starts only after the whole merge stage completed |
| ClosePositionTask.Close | src/main/java/com/jforex/programming/order/task/ClosePositionTaskObservable.java:24-33 | the steps of the merge and close stages built for the same instrument and parameters, each merge step before each close step |
| ClosePositionTask.CloseAll | src/main/java/com/jforex/programming/order/task/ClosePositionTaskObservable.java:35-41 | every instrument's close, merged; `CloseAllUsesCommonParams`, `CloseAllDoesNotConcatenate` and `CloseAllCompletesWithEveryClose` state its steps, order and completion |
| ClosePositionTask.CloseAllUsesCommonParams | src/main/java/com/jforex/programming/order/task/ClosePositionTaskObservable.java:35-41 | closing all issues exactly the steps of each instrument's close with the common position parameters |
| ClosePositionTask.CloseAllDoesNotConcatenate | src/main/java/com/jforex/programming/order/task/ClosePositionTaskObservable.java:39 | each instrument's close gets as far as it would alone, and any order imposed comes from a single instrument's close |
| ClosePositionTask.CloseAllCompletesWithEveryClose | src/main/java/com/jforex/programming/order/task/ClosePositionTaskObservable.java:35-41 | closing all completes iff every instrument's close completes, and at once with no positions |
| CancelSLTPTask.Observe | src/main/java/com/jforex/programming/order/task/CancelSLTPTask.java:22-27 | empty iff fewer than two orders |
| CancelSLTPTask.ArrangeObservables | src/main/java/com/jforex/programming/order/task/CancelSLTPTask.java:65-73 | the steps of both batches; in a concatenating mode every step of the first batch before every step of the second; merged, only the orderings within each batch |
| CancelSLTPTask.CreateTask | src/main/java/com/jforex/programming/order/task/CancelSLTPTask.java:29-63 | exactly the SL batch step and the TP batch step, inside the common callbacks for the first order's instrument |
| CancelSLTPTask.ArrangedBatchesCalls | src/main/java/com/jforex/programming/order/task/CancelSLTPTask.java:65-73 | in every mode both batches are issued, once each |
| CancelSLTPTask.ArrangedBatchesOrder | src/main/java/com/jforex/programming/order/task/CancelSLTPTask.java:65-73 | SL before TP iff ConcatCancelSLAndTP, TP before SL iff ConcatCancelTPAndSL, no order otherwise |
| CancelSLTPTask.ModeDecidesOrder | src/main/java/com/jforex/programming/order/task/CancelSLTPTask.java:29-73 | for two or more orders: exactly the SL and TP batch steps, with the mode deciding their order as above |
| CancelSLTPTask.ConcatModesWait | src/main/java/com/jforex/programming/order/task/CancelSLTPTask.java:68-71 | in a concatenating mode the second batch starts only once the first completed |
| CancelSLTPTask.BatchesUseTheirParams | src/main/java/com/jforex/programming/order/task/CancelSLTPTask.java:32-62 | the SL batch runs inside the SL batch callbacks, the TP batch inside the TP ones, both inside the common ones, all for the first order's instrument |

## Left out

- I/O, timers and schedulers are left out. A wait is recorded as its delay (`RetryOutcome.waits`), with no clock.
- Logging is left out.
- Thread safety is left out: the concurrent maps, sets and queues are modelled as sequential values.
- The gateway's weak keys, and so garbage collection of finished orders, are left out.
- `subscribe`'s unsubscription hook becomes an explicit `Unsubscribe` call.
- The gateway's observable accessor and RxJava subscriber objects are left out. A subscriber is a number, and what it receives is a recorded sequence of events.
- `OrderEventTypeEvaluator.get` is a function-valued constant of the gateway. Its classification rules are not part of this model.
- The platform (`IOrder`, `TaskExecutor`, `OrderTaskExecutor`, `OrderUtilHandler`, `BatchChangeTask`) is not part of this model:
  - An order's platform state is a function from order ids to an `OrderInfo` record.
  - An executor call is a step in a plan.
  - The handler's event stream is an `Observe` step.
- The order predicates (`isFilled`, `isLabelSetTo`, …) compare the model's fields exactly. Floating-point prices are reals.
- Call failure propagation is left out. A failed step is a step that never completes. Errors travelling through `concatWith` or `merge` and unsubscribing siblings are not modelled.
- Retry bounds are unbounded natural numbers. Negative settings are not modelled, and neither is the 32-bit overflow of `maxRetries + 1` in `retryCounterObservable` at `Integer.MAX_VALUE`, where `Observable.range` would throw.
- The null checks and `completableForJFRunnable` in StreamUtil are left out: there is no null, and running platform code is I/O.
- The pip-based setters `setStopLossForPips` and `setTakeProfitForPips` are left out. They are floating-point calculations in code that is not part of this model.
- The position's delegating accessors (`instrument`, `direction`, `signedExposure`, `filter`, `orders`) are left out. They delegate to the order repository's internals, which are not part of this model.
- `PositionOrders.Add`: the repository's own code is not part of this model. Re-adding an existing member keeps its flag, which is a modelling choice.
- The end-of-order event type set, `RestoreSLTPPolicy` and `PositionUtil` are parameters: a set, two functions and a set of instruments.
- `TaskParamsUtil.composePositionTask` becomes a `Composed` wrapper named by a parameters id.
- The stage composers of a close command are the identity, and `ClosePositionParamsHandler` is a pair of stage builders.
- Positions.Position.Submit: every emitted order is judged against one `OrderView`. The library tests the live order at each emission, whose state may change between emissions (OPENED at SUBMIT_OK, FILLED later), so the model matches the library only when the state each emission sees is the one the view gives.
- Tasks.AddToPosition: the merge plan records that the merged order is offered to the position. Applying `Positions.Admits` to it, as `doOnNext(this::onOrderAdd)` does, happens outside the plan and is not modelled, since the merged order's state is not known to the model.
- Positions.Position.Close: in the library the snapshot of close candidates is taken when `close()` is called, and members are marked active when the close is subscribed. The model does both at the call, so it does not capture two closes built before either is subscribed, which take the same snapshot and may both close the same orders.
- Positions.Position.Merge and Positions.Position.Close: the calls of the position task layer they reach (setting SL/TP, merging, closing) are single plan steps. The matching task-layer operations are modelled separately in `OrderTask`, `PositionTask` and `ClosePositionTask`.
- The factory and task layers are a newer revision than `Position.java`. The factory builds positions from the end-of-order set and restore policy it was built with, not from an event stream.
- BasicTask.DefaultCloseParams: its slippage of 0.0 stands in for the builder's default. The slippage is never used without a price.
- BasicTask.SetStopLossPrice: the parameter builder's defaults for offer side and trailing step are not part of this model, so they are left open (`None`).
- CancelSLTPTask: `MergeExecutionMode` has exactly the three modes the arrangement names. Any other mode falls into the merged case there.
- CancelSLTPTask: the orders to cancel are a sequence, so "the first order" is the sequence's head, where the library uses the collection's iteration order.
- Tasks.MergeOrders: the orders a merge call receives are a set, so repeats and order within the collection passed to the platform's merge are not modelled; `BasicTask.MergeOrders` still counts repeats in its size gate.
- Orders.NoSLPrice and Orders.NoTPPrice are the constant 0.0. The library reads them from its platform settings (`platformSettings.noSLPrice()`, `noTPPrice()`); only their role as the no-SL and no-TP marker matters here.
- PositionTask: the repository states the stages read are parameters. The library reads them through `positionFactory.forInstrument`, which also registers an empty position for an instrument not seen before; that registration is left out here (it issues no call), and is modelled by `PositionRegistry.PositionFactory.ForInstrument`.
- OrderTask.SetRequestedAmount and OrderTask.SetOpenPrice: they tag their calls CHANGE_AMOUNT and CHANGE_PRICE, which are not keys of the change-reject table. This is stated by `ChangeEventMapper.OutsideFamilyMapsToNone`, and no fix is assumed.

## Findings

| source | as written | input that shows it | evidently intended | confidence | as-written member | corrected member |
|---|---|---|---|---|---|---|
| src/main/java/com/jforex/programming/misc/StreamUtil.java:92-99 | the history retry pairs errors with `retryCounterObservable(5)` (six counters) but compares against `maxRetriesOnHistoryFail` | maxRetriesOnHistoryFail = 6 (or more) and seven failed history requests: six waits, then the counter stream runs out and the retried request completes without surfacing the seventh error | the counter range follows the configured bound, as in `retryOnRejectObservable`, so the (k + 1)-th error surfaces | not executed; medium | StreamUtil.HistoryRetryAsWrittenSwallowsError | StreamUtil.HistoryRetryBound |
