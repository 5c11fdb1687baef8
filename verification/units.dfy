/**
  Units of measure. Every unit is a positive multiple of a reference unit of
  its kind (a gram is 0.001 of a kilogram); a quantity is converted exactly,
  without rounding.
*/
module Units {

  /** A strictly positive conversion factor. */
  type Factor = r: real | r > 0.0 witness 1.0

  /** A unit and how many reference units one of it is worth. */
  datatype Uom = Uom(name: string, factor: Factor)

  /** Converts `qty` expressed in `from` into the unit `to`, exactly: the
      result is the quantity in `to` that measures the same amount. */
  function ComputeQty(from: Uom, qty: real, to: Uom): (r: real)
    ensures r * to.factor == qty * from.factor
  {
    qty * from.factor / to.factor
  }

  /** Converting to a unit and back gives the original quantity. */
  lemma ComputeQtyRoundTrip(from: Uom, qty: real, to: Uom)
    ensures ComputeQty(to, ComputeQty(from, qty, to), from) == qty
  {
    var r := ComputeQty(from, qty, to);
    assert r * to.factor == qty * from.factor;
    assert ComputeQty(to, r, from) * from.factor == r * to.factor;
  }

  /** Conversion commutes with negation. */
  lemma ComputeQtyNegate(from: Uom, qty: real, to: Uom)
    ensures ComputeQty(from, -qty, to) == -ComputeQty(from, qty, to)
  {
    assert ComputeQty(from, -qty, to) * to.factor == -(ComputeQty(from, qty, to) * to.factor);
  }

  /** Two quantities that measure the same amount convert to the same
      quantity in any unit. */
  lemma ComputeQtySameAmount(u1: Uom, q1: real, u2: Uom, q2: real, to: Uom)
    requires q1 * u1.factor == q2 * u2.factor
    ensures ComputeQty(u1, q1, to) == ComputeQty(u2, q2, to)
  {
    assert ComputeQty(u1, q1, to) * to.factor == ComputeQty(u2, q2, to) * to.factor;
  }
}
