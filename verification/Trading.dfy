/** The two directions of a position, and the amounts both the replay and the planner compute with. */
module Trading {

  datatype Side = Long | Short

  function Abs(x: real): real {
    if x < 0.0 then -x else x
  }

  function Min(x: real, y: real): real {
    if y < x then y else x
  }

  function Max(x: real, y: real): real {
    if y > x then y else x
  }

  /** The profit per unit of moving from `reference` to `price`. */
  function Gain(side: Side, price: real, reference: real): real {
    if side.Long? then price - reference else reference - price
  }

  /** `price` moved by `distance` in the direction of profit. */
  function Ahead(side: Side, price: real, distance: real): real {
    if side.Long? then price + distance else price - distance
  }

  function Value(qty: real, price: real): real {
    qty * price
  }

  function Share(qty: real, pct: real): real {
    qty * pct / 100.0
  }
}
