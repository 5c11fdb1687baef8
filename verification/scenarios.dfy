/**
  Concrete price lists and products from the module's test suite, with the
  prices the engine computes for them.
*/
module Scenarios {
  import opened Wrappers
  import opened Formula
  import opened Categories
  import opened Units
  import opened Pricing

  const Kilogram := Uom("Kilogram", 1.0)
  const Gram := Uom("Gram", 0.001)
  const Unit := Uom("Unit", 1.0)

  const NoPattern := Pattern(None, None, None)

  /** `unit_price * k` */
  function Scaled(k: real): Expr
  {
    Binary(Times, Var(UnitPrice), DecLit(k))
  }

  /** Four lines: a variant at 10 or more, anything at 10 or more, a
      variant, anything. */
  function BreakList(variant: ProductId): PriceList
  {
    PriceList([
      Line(None, Some(variant), Some(10.0), Scaled(0.8)),
      Line(None, None, Some(10.0), Scaled(0.9)),
      Line(None, Some(variant), None, Scaled(1.1)),
      Line(None, None, None, Var(UnitPrice))
    ])
  }

  /** The quantity-break list priced at list price 10 for the base product:
      10 at 1 kg (or 1000 g), 9 at 10 kg (or -10 kg, or 10000 g). */
  lemma QuantityBreakScenario()
    ensures
      var product := Product(1, [], Kilogram, None);
      var pl := BreakList(2);
      && Compute(pl, Some(product), Some(10.0), 1.0, Kilogram, NoPattern) == Ok(DecVal(10.0))
      && Compute(pl, Some(product), Some(10.0), 1000.0, Gram, NoPattern) == Ok(DecVal(10.0))
      && Compute(pl, Some(product), Some(10.0), 10.0, Kilogram, NoPattern) == Ok(DecVal(9.0))
      && Compute(pl, Some(product), Some(10.0), -10.0, Kilogram, NoPattern) == Ok(DecVal(9.0))
      && Compute(pl, Some(product), Some(10.0), 10000.0, Gram, NoPattern) == Ok(DecVal(9.0))
  {
    var product := Product(1, [], Kilogram, None);
    var pl := BreakList(2);
    var small := BuildPattern(NoPattern, Some(product), 1.0, Kilogram);
    assert !Match(pl.lines[0], small) && !Match(pl.lines[1], small) && !Match(pl.lines[2], small);
    ComputeFirstMatchWins(pl, Some(product), Some(10.0), 1.0, Kilogram, NoPattern, 3);
    ComputeUnitInsensitive(pl, product, Some(10.0), 1000.0, Gram, 1.0, Kilogram, NoPattern);
    var large := BuildPattern(NoPattern, Some(product), 10.0, Kilogram);
    assert !Match(pl.lines[0], large);
    ComputeFirstMatchWins(pl, Some(product), Some(10.0), 10.0, Kilogram, NoPattern, 1);
    ComputeSignInsensitive(pl, Some(product), Some(10.0), 10.0, Kilogram, NoPattern);
    ComputeUnitInsensitive(pl, product, Some(10.0), 10000.0, Gram, 10.0, Kilogram, NoPattern);
  }

  /** The same list for the variant: 11 at 1 kg, 8 at 10 kg (or 10000 g). */
  lemma QuantityBreakVariantScenario()
    ensures
      var variant := Product(2, [], Kilogram, None);
      var pl := BreakList(2);
      && Compute(pl, Some(variant), Some(10.0), 1.0, Kilogram, NoPattern) == Ok(DecVal(11.0))
      && Compute(pl, Some(variant), Some(10.0), 10.0, Kilogram, NoPattern) == Ok(DecVal(8.0))
      && Compute(pl, Some(variant), Some(10.0), 10000.0, Gram, NoPattern) == Ok(DecVal(8.0))
  {
    var variant := Product(2, [], Kilogram, None);
    var pl := BreakList(2);
    var smallV := BuildPattern(NoPattern, Some(variant), 1.0, Kilogram);
    assert !Match(pl.lines[0], smallV) && !Match(pl.lines[1], smallV);
    ComputeFirstMatchWins(pl, Some(variant), Some(10.0), 1.0, Kilogram, NoPattern, 2);
    ComputeFirstMatchWins(pl, Some(variant), Some(10.0), 10.0, Kilogram, NoPattern, 0);
    ComputeUnitInsensitive(pl, variant, Some(10.0), 10000.0, Gram, 10.0, Kilogram, NoPattern);
  }

  /** A line on a category applies to a product of that category (8) and of
      a child category (8), and not to a product without category (10). */
  lemma CategoryScenario()
    ensures
      var category := Category(1, None);
      var child := Category(2, Some(category));
      var pl := PriceList([Line(Some(1), None, None, Scaled(0.8)), Line(None, None, None, Var(UnitPrice))]);
      && Compute(pl, Some(Product(1, [category], Unit, None)), Some(10.0), 1.0, Unit, NoPattern) == Ok(DecVal(8.0))
      && Compute(pl, Some(Product(1, [], Unit, None)), Some(10.0), 1.0, Unit, NoPattern) == Ok(DecVal(10.0))
      && Compute(pl, Some(Product(1, [child], Unit, None)), Some(10.0), 1.0, Unit, NoPattern) == Ok(DecVal(8.0))
  {
    var category := Category(1, None);
    var child := Category(2, Some(category));
    var pl := PriceList([Line(Some(1), None, None, Scaled(0.8)), Line(None, None, None, Var(UnitPrice))]);
    MatchCategoryDescendant(pl.lines[0], Product(1, [child], Unit, None), 0, category, 1.0, Unit, NoPattern);
    ComputeFirstMatchWins(pl, Some(Product(1, [child], Unit, None)), Some(10.0), 1.0, Unit, NoPattern, 0);
    assert !Match(pl.lines[0], BuildPattern(NoPattern, Some(Product(1, [], Unit, None)), 1.0, Unit));
    ComputeFirstMatchWins(pl, Some(Product(1, [], Unit, None)), Some(10.0), 1.0, Unit, NoPattern, 1);
  }

  /** `cost_price * 1.2` gives 0 while the product has no cost price and 6
      once its cost price is 5. */
  lemma CostPriceScenario()
    ensures
      var pl := PriceList([Line(None, None, None, Binary(Times, Var(CostPrice), DecLit(1.2)))]);
      && Compute(pl, Some(Product(1, [], Unit, None)), Some(10.0), 1.0, Unit, NoPattern) == Ok(DecVal(0.0))
      && Compute(pl, Some(Product(1, [], Unit, Some(5.0))), Some(10.0), 1.0, Unit, NoPattern) == Ok(DecVal(6.0))
  {
    var pl := PriceList([Line(None, None, None, Binary(Times, Var(CostPrice), DecLit(1.2)))]);
    ComputeFirstMatchWins(pl, Some(Product(1, [], Unit, None)), Some(10.0), 1.0, Unit, NoPattern, 0);
    ComputeFirstMatchWins(pl, Some(Product(1, [], Unit, Some(5.0))), Some(10.0), 1.0, Unit, NoPattern, 0);
  }

  /** `list_price` is not among the bindings, so a formula that uses it fails
      with an undefined name, with or without a product. Without a product
      the lines are still scanned: nothing short-circuits. */
  lemma ListPriceScenario()
    ensures
      var pl := PriceList([Line(None, None, None, Binary(Times, Var(Other("list_price")), DecLit(0.8)))]);
      && Compute(pl, Some(Product(1, [], Unit, None)), Some(0.0), 1.0, Unit, NoPattern)
        == Err(NameNotDefined("list_price"))
      && Compute(pl, None, None, 1.0, Unit, NoPattern) == Err(NameNotDefined("list_price"))
  {
    var pl := PriceList([Line(None, None, None, Binary(Times, Var(Other("list_price")), DecLit(0.8)))]);
    ComputeFirstMatchWins(pl, Some(Product(1, [], Unit, None)), Some(0.0), 1.0, Unit, NoPattern, 0);
    ComputeFirstMatchWins(pl, None, None, 1.0, Unit, NoPattern, 0);
  }
}
