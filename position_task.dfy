/** Closing one position in the position task layer: merge the filled orders,
    and only then close every filled or opened order one by one. Each stage
    reads the repository when it starts, which in the model is a repository
    state passed in: the merge stage's when the close is subscribed, the close
    stage's when the merge stage has completed. The command's stage composers
    are taken to be the identity. */
module PositionTask {
  import opened Orders
  import opened Tasks
  import PositionOrders
  import OrderTask

  /** The repository of the position's instrument as a stage sees it. */
  datatype RepositoryState = RepositoryState(orders: PositionOrders.Repository, view: OrderView)

  datatype ClosePositionCommand = ClosePositionCommand(instrument: Instrument, mergeOrderLabel: string)

  /** Fewer than two filled orders: nothing; otherwise the merge of exactly the
      filled orders, then its observation. */
  function Merge(mergeOrderLabel: string, atSubscription: RepositoryState): (t: Task)
    ensures |PositionOrders.FilledOrders(atSubscription.orders, atSubscription.view)| < 2 <==> t == Empty
    ensures |PositionOrders.FilledOrders(atSubscription.orders, atSubscription.view)| >= 2 ==>
              IsCallThenObserve(t, MergeOrders(mergeOrderLabel, PositionOrders.FilledOrders(atSubscription.orders, atSubscription.view)),
                                Produced, Orders.Merge)
  {
    var toMergeOrders := PositionOrders.FilledOrders(atSubscription.orders, atSubscription.view);
    if |toMergeOrders| < 2 then Empty else OrderTask.MergeOrders(mergeOrderLabel, toMergeOrders)
  }

  /** The batch task applied to every order at once. */
  function Batch(orders: set<OrderId>, batchTask: OrderId -> Task): Task
  {
    Par(set o | o in orders :: batchTask(o))
  }

  /** The close stage: one single-order close per filled or opened order. */
  function CloseStage(atCloseStage: RepositoryState): Task
  {
    Batch(PositionOrders.FilledOrOpenedOrders(atCloseStage.orders, atCloseStage.view),
          (o: OrderId) => OrderTask.Close(atCloseStage.view, o))
  }

  /** The merge stage, then the close stage. */
  function Close(command: ClosePositionCommand, atSubscription: RepositoryState, atCloseStage: RepositoryState): (t: Task)
    ensures Calls(t) == Calls(Merge(command.mergeOrderLabel, atSubscription)) + Calls(CloseStage(atCloseStage))
    ensures forall a, b :: a in Calls(Merge(command.mergeOrderLabel, atSubscription)) &&
                           b in Calls(CloseStage(atCloseStage)) ==>
                           Precedes(t, a, b)
  {
    Concat(Merge(command.mergeOrderLabel, atSubscription), CloseStage(atCloseStage))
  }

  /** The steps of one order's close. */
  function CloseSteps(o: OrderId): set<Step>
  {
    {CloseOrder(o), Observe(Given(o), Orders.Close)}
  }

  /** The close stage closes exactly the filled or opened orders: for each, the
      executor close and then its observation, and nothing else. */
  lemma CloseStageClosesEach(atCloseStage: RepositoryState)
    ensures Calls(CloseStage(atCloseStage)) ==
            set s, o | o in PositionOrders.FilledOrOpenedOrders(atCloseStage.orders, atCloseStage.view) && s in CloseSteps(o) :: s
    ensures forall o :: CloseOrder(o) in Calls(CloseStage(atCloseStage)) <==> o in PositionOrders.FilledOrOpenedOrders(atCloseStage.orders, atCloseStage.view)
  {
    var orders := PositionOrders.FilledOrOpenedOrders(atCloseStage.orders, atCloseStage.view);
    var view := atCloseStage.view;
    var ts := set o | o in orders :: OrderTask.Close(view, o);
    assert CloseStage(atCloseStage) == Par(ts);
    forall o | o in orders ensures Calls(OrderTask.Close(view, o)) == CloseSteps(o) {
      assert !IsClosed(view(o));
    }
    forall s | s in Calls(Par(ts))
      ensures s in set s, o | o in orders && s in CloseSteps(o) :: s
    {
      var u :| u in ts && s in Calls(u);
      var o :| o in orders && u == OrderTask.Close(view, o);
    }
    forall s, o | o in orders && s in CloseSteps(o) ensures s in Calls(Par(ts)) {
      assert OrderTask.Close(view, o) in ts;
    }
  }

  /** With no filled or opened order the close stage issues nothing and
      completes at once. */
  lemma EmptyCloseStageCompletes(atCloseStage: RepositoryState, ok: Step -> bool)
    requires PositionOrders.FilledOrOpenedOrders(atCloseStage.orders, atCloseStage.view) == {}
    ensures Calls(CloseStage(atCloseStage)) == {}
    ensures Run(CloseStage(atCloseStage), ok) == Progress({}, true)
  {
    assert (set o | o in PositionOrders.FilledOrOpenedOrders(atCloseStage.orders, atCloseStage.view) :: OrderTask.Close(atCloseStage.view, o)) == {};
  }

  /** The close stage only closes given orders and observes given orders. */
  lemma CloseStageStepKinds(atCloseStage: RepositoryState)
    ensures forall s :: s in Calls(CloseStage(atCloseStage)) ==> s.CloseOrder? || (s.Observe? && s.target.Given?)
  {
    var orders := PositionOrders.FilledOrOpenedOrders(atCloseStage.orders, atCloseStage.view);
    var view := atCloseStage.view;
    var ts := set o | o in orders :: OrderTask.Close(view, o);
    assert CloseStage(atCloseStage) == Par(ts);
    forall s | s in Calls(Par(ts)) ensures s.CloseOrder? || (s.Observe? && s.target.Given?) {
      var u :| u in ts && s in Calls(u);
      var o :| o in orders && u == OrderTask.Close(view, o);
    }
  }

  /** The merge stage's steps are never steps of the close stage. */
  lemma StagesAreDisjoint(command: ClosePositionCommand, atSubscription: RepositoryState, atCloseStage: RepositoryState)
    ensures Calls(Merge(command.mergeOrderLabel, atSubscription)) !! Calls(CloseStage(atCloseStage))
  {
    CloseStageStepKinds(atCloseStage);
  }

  /** The merge stage runs entirely before the close stage: every merge step
      precedes every close step, and a close step starts only once the merge
      stage has completed. */
  lemma MergeRunsBeforeClose(command: ClosePositionCommand, atSubscription: RepositoryState,
                             atCloseStage: RepositoryState, ok: Step -> bool)
    ensures forall a, b :: a in Calls(Merge(command.mergeOrderLabel, atSubscription)) &&
                           b in Calls(CloseStage(atCloseStage)) ==>
                           Precedes(Close(command, atSubscription, atCloseStage), a, b)
    ensures forall b :: b in Calls(CloseStage(atCloseStage)) &&
                        b in Run(Close(command, atSubscription, atCloseStage), ok).started ==>
                        Run(Merge(command.mergeOrderLabel, atSubscription), ok).completed
  {
    var merge := Merge(command.mergeOrderLabel, atSubscription);
    StagesAreDisjoint(command, atSubscription, atCloseStage);
    StartedAreCalls(merge, ok);
  }
}
