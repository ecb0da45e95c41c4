/** Removing stop loss and take profit from the orders of a merge: one batch
    of SL cancels and one batch of TP cancels, each wrapped with its own
    parameters' callbacks for the instrument of the first order, arranged one
    after the other or together according to the execution mode. */
module CancelSLTPTask {
  import opened Orders
  import opened Tasks

  datatype MergeExecutionMode = ConcatCancelSLAndTP | ConcatCancelTPAndSL | MergeCancelSLAndTP

  /** The parameters of one batch: those of its single changes, the batch mode,
      and the callbacks the batch is wrapped with (named by composeId). */
  datatype BatchCancelSLParams = BatchCancelSLParams(cancelSLParams: nat, batchMode: BatchMode, composeId: nat)
  datatype BatchCancelTPParams = BatchCancelTPParams(cancelTPParams: nat, batchMode: BatchMode, composeId: nat)

  datatype BatchCancelSLAndTPParams = BatchCancelSLAndTPParams(
    batchCancelSLParams: BatchCancelSLParams,
    batchCancelTPParams: BatchCancelTPParams,
    mergeExecutionMode: MergeExecutionMode,
    composeId: nat)

  datatype ComplexMergePositionParams = ComplexMergePositionParams(batchCancelSLAndTPParams: BatchCancelSLAndTPParams)

  /** The SL batch step and the TP batch step for the orders. */
  function CancelSLStep(orders: seq<OrderId>, p: BatchCancelSLAndTPParams): Step
  {
    BatchCancelSL(orders, p.batchCancelSLParams.cancelSLParams, p.batchCancelSLParams.batchMode)
  }

  function CancelTPStep(orders: seq<OrderId>, p: BatchCancelSLAndTPParams): Step
  {
    BatchCancelTP(orders, p.batchCancelTPParams.cancelTPParams, p.batchCancelTPParams.batchMode)
  }

  /** SL before TP, TP before SL, or both at once. */
  function ArrangeObservables(cancelSL: Task, cancelTP: Task, executionMode: MergeExecutionMode): (t: Task)
    ensures Calls(t) == Calls(cancelSL) + Calls(cancelTP)
    ensures executionMode == ConcatCancelSLAndTP ==>
              forall a, b :: a in Calls(cancelSL) && b in Calls(cancelTP) ==> Precedes(t, a, b)
    ensures executionMode == ConcatCancelTPAndSL ==>
              forall a, b :: a in Calls(cancelTP) && b in Calls(cancelSL) ==> Precedes(t, a, b)
    ensures executionMode == MergeCancelSLAndTP ==>
              forall a, b :: Precedes(t, a, b) <==> Precedes(cancelSL, a, b) || Precedes(cancelTP, a, b)
  {
    match executionMode
    case ConcatCancelSLAndTP => Concat(cancelSL, cancelTP)
    case ConcatCancelTPAndSL => Concat(cancelTP, cancelSL)
    case MergeCancelSLAndTP => ParOfTwo(cancelSL, cancelTP); Par({cancelSL, cancelTP})
  }

  /** The SL batch and the TP batch, each in its own callbacks, arranged by the
      mode inside the common callbacks, all for the first order's instrument. */
  function CreateTask(orders: seq<OrderId>, view: OrderView, mergeParams: ComplexMergePositionParams): (t: Task)
    requires |orders| > 0
    ensures Calls(t) == {CancelSLStep(orders, mergeParams.batchCancelSLAndTPParams),
                         CancelTPStep(orders, mergeParams.batchCancelSLAndTPParams)}
    ensures t.Composed? && t.instrument == view(orders[0]).instrument
            && t.paramsId == mergeParams.batchCancelSLAndTPParams.composeId
  {
    var p := mergeParams.batchCancelSLAndTPParams;
    var instrument := view(orders[0]).instrument;
    var cancelSL := Composed(instrument, p.batchCancelSLParams.composeId, Do(CancelSLStep(orders, p)));
    var cancelTP := Composed(instrument, p.batchCancelTPParams.composeId, Do(CancelTPStep(orders, p)));
    assert Calls(cancelSL) == Calls(Do(CancelSLStep(orders, p))) == {CancelSLStep(orders, p)};
    assert Calls(cancelTP) == Calls(Do(CancelTPStep(orders, p))) == {CancelTPStep(orders, p)};
    Composed(instrument, p.composeId, ArrangeObservables(cancelSL, cancelTP, p.mergeExecutionMode))
  }

  /** Fewer than two orders: nothing; otherwise the arranged cancels. */
  function Observe(toCancelSLTPOrders: seq<OrderId>, view: OrderView, mergeParams: ComplexMergePositionParams): (t: Task)
    ensures |toCancelSLTPOrders| < 2 <==> t == Empty
  {
    if |toCancelSLTPOrders| < 2 then Empty else CreateTask(toCancelSLTPOrders, view, mergeParams)
  }

  /** One wrapped batch issues its single step and imposes no order. */
  lemma SingleBatch(instrument: Instrument, composeId: nat, a: Step)
    ensures Calls(Composed(instrument, composeId, Do(a))) == {a}
    ensures Distinct(Composed(instrument, composeId, Do(a)))
    ensures forall x, y :: !Precedes(Composed(instrument, composeId, Do(a)), x, y)
  {
  }

  /** Arranging two single-step batches a and b issues both, once each. */
  lemma ArrangedBatchesCalls(instrument: Instrument, slId: nat, tpId: nat, a: Step, b: Step,
                             executionMode: MergeExecutionMode)
    requires a != b
    ensures var t := ArrangeObservables(Composed(instrument, slId, Do(a)), Composed(instrument, tpId, Do(b)), executionMode);
            Calls(t) == {a, b} && Distinct(t)
  {
    SingleBatch(instrument, slId, a);
    SingleBatch(instrument, tpId, b);
    if executionMode == MergeCancelSLAndTP {
      ParOfTwo(Composed(instrument, slId, Do(a)), Composed(instrument, tpId, Do(b)));
    }
  }

  /** The mode alone decides the order between the two batches. */
  lemma ArrangedBatchesOrder(instrument: Instrument, slId: nat, tpId: nat, a: Step, b: Step,
                             executionMode: MergeExecutionMode)
    requires a != b
    ensures var t := ArrangeObservables(Composed(instrument, slId, Do(a)), Composed(instrument, tpId, Do(b)), executionMode);
            && (Precedes(t, a, b) <==> executionMode == ConcatCancelSLAndTP)
            && (Precedes(t, b, a) <==> executionMode == ConcatCancelTPAndSL)
  {
    SingleBatch(instrument, slId, a);
    SingleBatch(instrument, tpId, b);
    if executionMode == MergeCancelSLAndTP {
      ParOfTwo(Composed(instrument, slId, Do(a)), Composed(instrument, tpId, Do(b)));
    }
  }

  /** The execution mode decides the order between the two batches: SL first,
      TP first, or none; both batches are issued in every mode, once each. */
  lemma ModeDecidesOrder(orders: seq<OrderId>, view: OrderView, mergeParams: ComplexMergePositionParams)
    requires |orders| >= 2
    ensures var p := mergeParams.batchCancelSLAndTPParams;
            var t := Observe(orders, view, mergeParams);
            && Calls(t) == {CancelSLStep(orders, p), CancelTPStep(orders, p)}
            && Distinct(t)
            && (Precedes(t, CancelSLStep(orders, p), CancelTPStep(orders, p)) <==>
                  p.mergeExecutionMode == ConcatCancelSLAndTP)
            && (Precedes(t, CancelTPStep(orders, p), CancelSLStep(orders, p)) <==>
                  p.mergeExecutionMode == ConcatCancelTPAndSL)
  {
    var p := mergeParams.batchCancelSLAndTPParams;
    var i := view(orders[0]).instrument;
    var sl := Composed(i, p.batchCancelSLParams.composeId, Do(CancelSLStep(orders, p)));
    var tp := Composed(i, p.batchCancelTPParams.composeId, Do(CancelTPStep(orders, p)));
    ArrangedBatchesCalls(i, p.batchCancelSLParams.composeId, p.batchCancelTPParams.composeId,
                         CancelSLStep(orders, p), CancelTPStep(orders, p), p.mergeExecutionMode);
    ArrangedBatchesOrder(i, p.batchCancelSLParams.composeId, p.batchCancelTPParams.composeId,
                         CancelSLStep(orders, p), CancelTPStep(orders, p), p.mergeExecutionMode);
    assert Observe(orders, view, mergeParams) == Composed(i, p.composeId, ArrangeObservables(sl, tp, p.mergeExecutionMode));
  }

  /** In a concatenating mode the second batch starts only once the first has
      completed, whatever the outcome of the calls. */
  lemma ConcatModesWait(orders: seq<OrderId>, view: OrderView, mergeParams: ComplexMergePositionParams, ok: Step -> bool)
    requires |orders| >= 2
    ensures var p := mergeParams.batchCancelSLAndTPParams;
            var r := Run(Observe(orders, view, mergeParams), ok);
            && (p.mergeExecutionMode == ConcatCancelSLAndTP && CancelTPStep(orders, p) in r.started ==>
                  ok(CancelSLStep(orders, p)))
            && (p.mergeExecutionMode == ConcatCancelTPAndSL && CancelSLStep(orders, p) in r.started ==>
                  ok(CancelTPStep(orders, p)))
  {
    var p := mergeParams.batchCancelSLAndTPParams;
    var t := Observe(orders, view, mergeParams);
    ModeDecidesOrder(orders, view, mergeParams);
    if p.mergeExecutionMode == ConcatCancelSLAndTP && CancelTPStep(orders, p) in Run(t, ok).started {
      PrecedesIsRespected(t, ok, CancelSLStep(orders, p), CancelTPStep(orders, p));
    }
    if p.mergeExecutionMode == ConcatCancelTPAndSL && CancelSLStep(orders, p) in Run(t, ok).started {
      PrecedesIsRespected(t, ok, CancelTPStep(orders, p), CancelSLStep(orders, p));
    }
  }

  /** The SL batch runs inside the SL batch callbacks and the TP batch inside
      the TP batch callbacks, both inside the common ones, all for the
      instrument of the first order. */
  lemma BatchesUseTheirParams(orders: seq<OrderId>, view: OrderView, mergeParams: ComplexMergePositionParams)
    requires |orders| >= 2
    ensures var p := mergeParams.batchCancelSLAndTPParams;
            var i := view(orders[0]).instrument;
            var t := Observe(orders, view, mergeParams);
            && Wrappers(t, CancelSLStep(orders, p)) == {(i, p.composeId), (i, p.batchCancelSLParams.composeId)}
            && Wrappers(t, CancelTPStep(orders, p)) == {(i, p.composeId), (i, p.batchCancelTPParams.composeId)}
  {
    var p := mergeParams.batchCancelSLAndTPParams;
    var i := view(orders[0]).instrument;
    var sl := Composed(i, p.batchCancelSLParams.composeId, Do(CancelSLStep(orders, p)));
    var tp := Composed(i, p.batchCancelTPParams.composeId, Do(CancelTPStep(orders, p)));
    assert Wrappers(sl, CancelSLStep(orders, p)) == {(i, p.batchCancelSLParams.composeId)};
    assert Wrappers(tp, CancelSLStep(orders, p)) == {};
    assert Wrappers(tp, CancelTPStep(orders, p)) == {(i, p.batchCancelTPParams.composeId)};
    assert Wrappers(sl, CancelTPStep(orders, p)) == {};
    var arranged := ArrangeObservables(sl, tp, p.mergeExecutionMode);
    ArrangedBatchesCalls(i, p.batchCancelSLParams.composeId, p.batchCancelTPParams.composeId,
                         CancelSLStep(orders, p), CancelTPStep(orders, p), p.mergeExecutionMode);
    if p.mergeExecutionMode == MergeCancelSLAndTP {
      assert arranged == Par({sl, tp});
      forall s, w | s in {CancelSLStep(orders, p), CancelTPStep(orders, p)}
        ensures w in Wrappers(arranged, s) <==> w in Wrappers(sl, s) || w in Wrappers(tp, s)
      {
        if w in Wrappers(sl, s) {
          assert sl in {sl, tp};
        }
        if w in Wrappers(tp, s) {
          assert tp in {sl, tp};
        }
      }
    }
    assert Observe(orders, view, mergeParams) == Composed(i, p.composeId, arranged);
  }
}
