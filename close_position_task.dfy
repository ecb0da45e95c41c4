/** Closing positions in the task layer: one position is its merge stage and
    then its close stage, both taken from the parameter handler; all positions
    are every per-instrument close started together. */
module ClosePositionTask {
  import opened Orders
  import opened Tasks

  /** Parameters of one position close, identified by their callbacks. */
  datatype ClosePositionParams = ClosePositionParams(paramsId: nat)

  datatype CloseAllPositionsParams = CloseAllPositionsParams(closePositionParams: ClosePositionParams)

  /** The handler that builds the two stages of a position close. */
  datatype ClosePositionParamsHandler = ClosePositionParamsHandler(
    observeMerge: (Instrument, ClosePositionParams) -> Task,
    observeClose: (Instrument, ClosePositionParams) -> Task)

  /** The merge stage, then the close stage, both built for the same
      instrument and parameters. */
  function Close(handler: ClosePositionParamsHandler, instrument: Instrument, params: ClosePositionParams): (t: Task)
    ensures Calls(t) == Calls(handler.observeMerge(instrument, params)) + Calls(handler.observeClose(instrument, params))
    ensures forall a, b ::
              a in Calls(handler.observeMerge(instrument, params)) && b in Calls(handler.observeClose(instrument, params))
              ==> Precedes(t, a, b)
  {
    Concat(handler.observeMerge(instrument, params), handler.observeClose(instrument, params))
  }

  /** One close per instrument of the factory's positions, all with the common
      position parameters, merged rather than concatenated. */
  function CloseAll(handler: ClosePositionParamsHandler, instruments: set<Instrument>,
                    closeAllPositionParams: CloseAllPositionsParams): Task
  {
    Par(set i | i in instruments :: Close(handler, i, closeAllPositionParams.closePositionParams))
  }

  /** Closing all positions issues exactly the steps of each position's close
      with the common parameters. */
  lemma CloseAllUsesCommonParams(handler: ClosePositionParamsHandler, instruments: set<Instrument>,
                                 params: CloseAllPositionsParams)
    ensures forall s :: s in Calls(CloseAll(handler, instruments, params)) <==>
                        exists i :: i in instruments && s in Calls(Close(handler, i, params.closePositionParams))
  {
    var ts := set i | i in instruments :: Close(handler, i, params.closePositionParams);
    assert CloseAll(handler, instruments, params) == Par(ts);
    forall s | s in Calls(Par(ts))
      ensures exists i :: i in instruments && s in Calls(Close(handler, i, params.closePositionParams))
    {
      var u :| u in ts && s in Calls(u);
      var i :| i in instruments && u == Close(handler, i, params.closePositionParams);
    }
    forall s, i | i in instruments && s in Calls(Close(handler, i, params.closePositionParams))
      ensures s in Calls(Par(ts))
    {
      assert Close(handler, i, params.closePositionParams) in ts;
    }
  }

  /** No position's close waits for another's: each gets as far as it would
      alone, and an order imposed by closing all is one imposed by some single
      position's close. */
  lemma CloseAllDoesNotConcatenate(handler: ClosePositionParamsHandler, instruments: set<Instrument>,
                                   params: CloseAllPositionsParams, ok: Step -> bool)
    ensures forall i :: i in instruments ==>
              Run(Close(handler, i, params.closePositionParams), ok).started <=
              Run(CloseAll(handler, instruments, params), ok).started
    ensures forall a, b :: Precedes(CloseAll(handler, instruments, params), a, b) ==>
              exists i :: i in instruments && Precedes(Close(handler, i, params.closePositionParams), a, b)
  {
    var ts := set i | i in instruments :: Close(handler, i, params.closePositionParams);
    assert CloseAll(handler, instruments, params) == Par(ts);
    forall i | i in instruments
      ensures Run(Close(handler, i, params.closePositionParams), ok).started <= Run(Par(ts), ok).started
    {
      assert Close(handler, i, params.closePositionParams) in ts;
    }
    forall a, b | Precedes(Par(ts), a, b)
      ensures exists i :: i in instruments && Precedes(Close(handler, i, params.closePositionParams), a, b)
    {
      var u :| u in ts && Precedes(u, a, b);
      var i :| i in instruments && u == Close(handler, i, params.closePositionParams);
    }
  }

  /** Closing all positions completes exactly when every position's close
      completes, and at once when there is no position. */
  lemma CloseAllCompletesWithEveryClose(handler: ClosePositionParamsHandler, instruments: set<Instrument>,
                                        params: CloseAllPositionsParams, ok: Step -> bool)
    ensures Run(CloseAll(handler, instruments, params), ok).completed <==>
            forall i :: i in instruments ==> Run(Close(handler, i, params.closePositionParams), ok).completed
    ensures instruments == {} ==> Run(CloseAll(handler, instruments, params), ok) == Progress({}, true)
  {
    var ts := set i | i in instruments :: Close(handler, i, params.closePositionParams);
    assert CloseAll(handler, instruments, params) == Par(ts);
    if forall i :: i in instruments ==> Run(Close(handler, i, params.closePositionParams), ok).completed {
      forall u | u in ts ensures Run(u, ok).completed {
        var i :| i in instruments && u == Close(handler, i, params.closePositionParams);
      }
    }
    if Run(Par(ts), ok).completed {
      forall i | i in instruments ensures Run(Close(handler, i, params.closePositionParams), ok).completed {
        assert Close(handler, i, params.closePositionParams) in ts;
      }
    }
    if instruments == {} {
      assert ts == {};
    }
  }
}
