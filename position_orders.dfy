/** The order repository of one position: its member orders, each with a
    lifecycle flag. An idle member may be picked up by a merge or a close; an
    active one belongs to a sequence already under way. */
module PositionOrders {
  import opened Orders

  datatype OrderFlag = Idle | Active

  type Repository = map<OrderId, OrderFlag>

  /** Adding a member makes it idle; adding an existing member changes nothing. */
  function Add(r: Repository, order: OrderId): (r': Repository)
    ensures r'.Keys == r.Keys + {order}
    ensures order in r ==> r' == r
    ensures order !in r ==> r'[order] == Idle
    ensures forall o :: o in r ==> r'[o] == r[o]
  {
    if order in r then r else r[order := Idle]
  }

  /** Removing an order drops it and keeps everyone else with their flag. */
  function Remove(r: Repository, order: OrderId): (r': Repository)
    ensures r'.Keys == r.Keys - {order}
    ensures forall o :: o in r' ==> r'[o] == r[o]
  {
    r - {order}
  }

  /** Every member becomes active; membership is unchanged. */
  function MarkAllActive(r: Repository): (r': Repository)
    ensures r'.Keys == r.Keys
    ensures forall o :: o in r' ==> r'[o] == Active
  {
    map o | o in r :: Active
  }

  /** The idle members whose platform state satisfies p. */
  function FilterIdle(r: Repository, view: OrderView, p: OrderInfo -> bool): (s: set<OrderId>)
    ensures forall o :: o in s <==> o in r && r[o] == Idle && p(view(o))
  {
    set o | o in r && r[o] == Idle && p(view(o))
  }

  /** The idle filled members: the merge candidates. */
  function FilledOrders(r: Repository, view: OrderView): (s: set<OrderId>)
    ensures forall o :: o in s <==> o in r && r[o] == Idle && IsFilled(view(o))
  {
    FilterIdle(r, view, o => IsFilled(o))
  }

  /** The idle members that are filled or opened: the close candidates. */
  function FilledOrOpenedOrders(r: Repository, view: OrderView): (s: set<OrderId>)
    ensures forall o :: o in s <==> o in r && r[o] == Idle && (IsFilled(view(o)) || IsOpened(view(o)))
  {
    FilterIdle(r, view, o => IsFilled(o) || IsOpened(o))
  }

  /** The gate: once every member is active, no filter finds a candidate, so a
      second merge or close started afterwards sees nothing to do. */
  lemma MarkAllActiveClosesGate(r: Repository, view: OrderView, p: OrderInfo -> bool)
    ensures FilterIdle(MarkAllActive(r), view, p) == {}
  {
  }

  /** The merge candidates are among the close candidates. */
  lemma FilledAreCloseCandidates(r: Repository, view: OrderView)
    ensures FilledOrders(r, view) <= FilledOrOpenedOrders(r, view)
  {
  }

  /** No order that is filled or opened is closed, so a close candidate is never
      skipped by the single-order close rule. */
  lemma CloseCandidatesAreNotClosed(r: Repository, view: OrderView, o: OrderId)
    requires o in FilledOrOpenedOrders(r, view)
    ensures !IsClosed(view(o))
  {
  }
}
