/** The positions of all instruments: created lazily, one per instrument, on
    the first request for that instrument, and the same one on every later
    request. */
module PositionRegistry {
  import opened Orders
  import opened Positions

  /** A map that sends no two keys to the same value has as many values as
      keys. */
  lemma {:induction false} InjectiveValues<K, V>(m: map<K, V>)
    requires forall k, j :: k in m && j in m && m[k] == m[j] ==> k == j
    ensures |m.Values| == |m.Keys|
    decreases |m.Keys|
  {
    if m.Keys != {} {
      var k :| k in m.Keys;
      var rest := m - {k};
      assert rest.Keys == m.Keys - {k};
      assert m.Values == rest.Values + {m[k]} by {
        forall v | v in m.Values ensures v in rest.Values + {m[k]} {
          var j :| j in m && m[j] == v;
          if j != k {
            assert j in rest;
          }
        }
        forall v | v in rest.Values ensures v in m.Values {
          var j :| j in rest && rest[j] == v;
          assert j in m;
        }
      }
      assert m[k] !in rest.Values;
      InjectiveValues(rest);
    }
  }

  class PositionFactory {
    /** What every new position is built with. */
    const endOfOrderTypes: set<OrderEventType>
    const restoreSLTPPolicy: RestoreSLTPPolicy
    var positionByInstrument: map<Instrument, Position>

    /** Each registered position is the position of the instrument it is
        registered under. */
    ghost predicate Valid()
      reads this
    {
      forall i :: i in positionByInstrument ==> positionByInstrument[i].instrument == i
    }

    constructor(endOfOrderTypes: set<OrderEventType>, restoreSLTPPolicy: RestoreSLTPPolicy)
      ensures this.endOfOrderTypes == endOfOrderTypes
      ensures this.restoreSLTPPolicy == restoreSLTPPolicy
      ensures positionByInstrument == map[]
      ensures Valid()
    {
      this.endOfOrderTypes := endOfOrderTypes;
      this.restoreSLTPPolicy := restoreSLTPPolicy;
      positionByInstrument := map[];
    }

    /** Every created position, one per instrument that has been requested. */
    function All(): (r: set<Position>)
      requires Valid()
      reads this
      ensures forall i :: i in positionByInstrument ==> positionByInstrument[i] in r
      ensures forall p :: p in r ==> p.instrument in positionByInstrument && positionByInstrument[p.instrument] == p
      ensures |r| == |positionByInstrument|
    {
      InjectiveValues(positionByInstrument);
      positionByInstrument.Values
    }

    /** A new, empty position for the instrument. */
    method CreateNew(instrument: Instrument) returns (p: Position)
      ensures fresh(p)
      ensures p.instrument == instrument
      ensures p.endOfOrderTypes == endOfOrderTypes && p.restoreSLTPPolicy == restoreSLTPPolicy
      ensures p.orderRepository == map[]
    {
      p := new Position(instrument, endOfOrderTypes, restoreSLTPPolicy);
    }

    /** The instrument's position: the registered one, or else a new one that
        is registered and kept. */
    method ForInstrument(instrument: Instrument) returns (p: Position)
      requires Valid()
      modifies this
      ensures Valid()
      ensures p.instrument == instrument
      ensures positionByInstrument.Keys == old(positionByInstrument.Keys) + {instrument}
      ensures instrument in old(positionByInstrument) ==>
                p == old(positionByInstrument[instrument]) && positionByInstrument == old(positionByInstrument)
      ensures instrument !in old(positionByInstrument) ==>
                && fresh(p)
                && p.orderRepository == map[]
                && positionByInstrument == old(positionByInstrument)[instrument := p]
    {
      if instrument in positionByInstrument {
        p := positionByInstrument[instrument];
      } else {
        p := CreateNew(instrument);
        positionByInstrument := positionByInstrument[instrument := p];
      }
    }
  }

  /** Asking twice for the same instrument gives the same position, and the
      second request registers nothing new. */
  method RequestTwice(factory: PositionFactory, instrument: Instrument) returns (first: Position, second: Position)
    requires factory.Valid()
    modifies factory
    ensures factory.Valid()
    ensures first == second && first.instrument == instrument
    ensures factory.positionByInstrument.Keys == old(factory.positionByInstrument.Keys) + {instrument}
  {
    first := factory.ForInstrument(instrument);
    var registered := factory.positionByInstrument;
    second := factory.ForInstrument(instrument);
    assert factory.positionByInstrument == registered;
  }
}
