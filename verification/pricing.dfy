/**
  The price list engine: a price list is an ordered sequence of lines; to
  price a product, a match pattern is built from the product (its categories
  with all their ancestors, its id, and the quantity converted to its default
  unit), and the formula of the first line that matches the pattern is
  evaluated. When no line matches, the caller's unit price is returned
  unchanged.
*/
module Pricing {
  import opened Wrappers
  import opened Formula
  import opened Categories
  import opened Units

  type ProductId = int

  /** The parts of a product the engine reads. `categories` are all the
      categories the product is filed under; `costPrice` is absent when the
      product has none. */
  datatype Product = Product(
    id: ProductId,
    categories: seq<Category>,
    defaultUom: Uom,
    costPrice: Option<real>)

  /** One rule of a price list. Each absent criterion accepts anything. */
  datatype Line = Line(
    category: Option<CategoryId>,
    product: Option<ProductId>,
    quantity: Option<real>,  // minimum absolute quantity, in the product's default unit
    formula: Expr)

  /** A price list; its lines are already in sequence order. */
  datatype PriceList = PriceList(lines: seq<Line>)

  /** The match pattern; each field is a key that may be absent. */
  datatype Pattern = Pattern(
    categories: Option<seq<CategoryId>>,
    product: Option<ProductId>,
    quantity: Option<real>)

  /** A stored line's quantity threshold is absent or not negative. The
      lines this excludes are exactly lines whose negative threshold would
      accept every quantity, as if no threshold were set. */
  function ValidLine(l: Line): (b: bool)
    ensures l.quantity.Some? && l.quantity.value < 0.0 ==> !b
    ensures l.quantity.None? || l.quantity == Some(0.0) ==> b
    ensures !b ==> l.quantity.Some? && forall q :: MatchQuantity(l, Pattern(None, None, Some(q)))
  {
    l.quantity.None? || l.quantity.value >= 0.0
  }

  function Abs(x: real): real
  {
    if x < 0.0 then -x else x
  }

  /** The quantity criterion compares the threshold with the magnitude of
      the quantity, so a quantity and its negation are treated alike. */
  predicate MatchQuantity(l: Line, pat: Pattern)
  {
    pat.quantity.None? || l.quantity.None? || !(l.quantity.value > Abs(pat.quantity.value))
  }

  /** The category criterion: the line's category must be one of the ids
      in the pattern's categories key, when both are present. */
  predicate MatchCategory(l: Line, pat: Pattern)
  {
    pat.categories.None? || l.category.None? || l.category.value in pat.categories.value
  }

  /** The generic field match: a line without a product, or a pattern
      without a product key, accepts. */
  predicate MatchProduct(l: Line, pat: Pattern)
  {
    pat.product.None? || l.product.None? || l.product.value == pat.product.value
  }

  /** A line matches a pattern when all three criteria accept it. */
  function Match(l: Line, pat: Pattern): (b: bool)
    // a catch-all line matches every pattern
    ensures l.category.None? && l.product.None? && l.quantity.None? ==> b
    // a match satisfies each criterion that both sides state
    ensures b && l.product.Some? && pat.product.Some? ==> l.product == pat.product
    ensures b && l.quantity.Some? && pat.quantity.Some? ==> l.quantity.value <= Abs(pat.quantity.value)
    ensures b && l.category.Some? && pat.categories.Some? ==> l.category.value in pat.categories.value
  {
    MatchQuantity(l, pat) && MatchCategory(l, pat) && MatchProduct(l, pat)
  }

  /** The quantity criterion: a threshold `t` rejects exactly when it exceeds
      the absolute quantity; no threshold accepts any quantity. */
  lemma MatchQuantityIff(l: Line, pat: Pattern, q: real)
    requires pat.quantity == Some(q)
    ensures l.quantity.None? ==> MatchQuantity(l, pat)
    ensures l.quantity.Some? ==> (MatchQuantity(l, pat) <==> l.quantity.value <= Abs(q))
    ensures MatchQuantity(l, pat) == MatchQuantity(l, pat.(quantity := Some(-q)))
  {
  }

  /** Quantity breaks are monotone: a line that accepts a quantity accepts
      every quantity of greater magnitude. */
  lemma MatchQuantityMonotone(l: Line, pat: Pattern, q1: real, q2: real)
    requires Abs(q1) <= Abs(q2)
    requires Match(l, pat.(quantity := Some(q1)))
    ensures Match(l, pat.(quantity := Some(q2)))
  {
  }

  /** The stored invariant on thresholds matters at quantity zero: a valid
      line accepts a zero quantity exactly when it has no threshold or a
      threshold of 0. */
  lemma ValidLineZeroQuantity(l: Line, pat: Pattern)
    requires ValidLine(l)
    requires pat.quantity == Some(0.0)
    ensures MatchQuantity(l, pat) <==> l.quantity.None? || l.quantity.value == 0.0
  {
  }

  /** The product criterion: for a product, a line naming a product matches
      exactly when it names this product; without a product the caller's
      product key, if any, decides. */
  lemma MatchProductIff(l: Line, product: Option<Product>, quantity: real, uom: Uom, caller: Pattern)
    ensures l.product.None? ==> MatchProduct(l, BuildPattern(caller, product, quantity, uom))
    ensures l.product.Some? && product.Some? ==>
      (MatchProduct(l, BuildPattern(caller, product, quantity, uom)) <==> l.product.value == product.value.id)
    ensures l.product.Some? && product.None? ==>
      (MatchProduct(l, BuildPattern(caller, product, quantity, uom)) <==>
        caller.product.None? || caller.product.value == l.product.value)
  {
  }

  /** The bindings handed to a line's formula: the caller's unit price as
      given, and the product's cost price, or 0 when it has none or when
      there is no product. */
  function ContextFormula(product: Option<Product>, unitPrice: Option<real>): (b: Bindings)
    ensures b.unitPrice == unitPrice
    ensures b.costPrice == 0.0 <==>
      product.None? || product.value.costPrice.None? || product.value.costPrice == Some(0.0)
    ensures product.Some? && product.value.costPrice.Some? ==> b.costPrice == product.value.costPrice.value
  {
    var cost :=
      if product.Some? && product.value.costPrice.Some? then product.value.costPrice.value
      else 0.0;
    Bindings(unitPrice, cost)
  }

  /** The unit in which a price list compares quantities: the product's
      default unit. */
  function GetUom(product: Product): (u: Uom)
    // a quantity already in the product's default unit passes through
    // conversion unchanged
    ensures forall q :: ComputeQty(product.defaultUom, q, u) == q
  {
    product.defaultUom
  }

  /** Builds the match pattern from a copy of the caller's pattern. With a
      product, the categories key holds the ids the parent walk yields and the
      quantity is converted into the product's default unit; without one, the
      caller's keys are kept and the quantity is recorded as given. */
  function BuildPattern(caller: Pattern, product: Option<Product>, quantity: real, uom: Uom): (pat: Pattern)
    ensures pat.quantity.Some?
    ensures product.None? ==>
      pat.categories == caller.categories && pat.product == caller.product && pat.quantity == Some(quantity)
    ensures product.Some? ==>
      && pat.product == Some(product.value.id)
      && pat.categories.Some?
      && pat.quantity.value * product.value.defaultUom.factor == quantity * uom.factor
    // the categories key holds the ids of the product's categories and of
    // all their ancestors, and nothing else
    ensures product.Some? ==> forall x :: x in pat.categories.value <==>
      exists k, a :: 0 <= k < |product.value.categories|
        && IsAncestorOrSelf(a, product.value.categories[k]) && a.id == x
  {
    match product
    case None => caller.(quantity := Some(quantity))
    case Some(p) =>
      ParentsMembersAll(p.categories);
      Pattern(Some(Parents(p.categories)), Some(p.id), Some(ComputeQty(uom, quantity, GetUom(p))))
  }

  /** The position of the first line that matches, if any. */
  function FirstMatch(lines: seq<Line>, pat: Pattern): (r: Option<nat>)
    ensures r.Some? ==>
      && r.value < |lines|
      && Match(lines[r.value], pat)
      && forall j :: 0 <= j < r.value ==> !Match(lines[j], pat)
    ensures r.None? ==> forall j :: 0 <= j < |lines| ==> !Match(lines[j], pat)
  {
    if |lines| == 0 then None
    else if Match(lines[0], pat) then Some(0)
    else
      match FirstMatch(lines[1..], pat)
      case None => None
      case Some(i) => Some(i + 1)
  }

  /** The price of `product` under price list `pl`: the value of the first
      matching line's formula, or `unitPrice` when no line matches. */
  function Compute(
    pl: PriceList, product: Option<Product>, unitPrice: Option<real>,
    quantity: real, uom: Uom, caller: Pattern): (r: Result<Value, EvalError>)
    // no price comes out of a call that was given one
    ensures r.Ok? && r.value.NoValue? ==> unitPrice.None?
  {
    var pat := BuildPattern(caller, product, quantity, uom);
    var context := ContextFormula(product, unitPrice);
    match FirstMatch(pl.lines, pat)
    case None => Ok(PriceValue(unitPrice))
    case Some(i) => Eval(pl.lines[i].formula, context)
  }

  /** The scan over the lines in order, stopping at the first match. */
  method Scan(lines: seq<Line>, pat: Pattern) returns (found: Option<nat>)
    ensures found.Some? ==>
      && found.value < |lines|
      && Match(lines[found.value], pat)
      && forall j :: 0 <= j < found.value ==> !Match(lines[j], pat)
    ensures found.None? ==> forall j :: 0 <= j < |lines| ==> !Match(lines[j], pat)
    ensures found == FirstMatch(lines, pat)
  {
    var i := 0;
    while i < |lines|
      invariant 0 <= i <= |lines|
      invariant forall j :: 0 <= j < i ==> !Match(lines[j], pat)
    {
      if Match(lines[i], pat) {
        FirstMatchUnique(lines, pat, i);
        return Some(i);
      }
      i := i + 1;
    }
    return None;
  }

  /** At most one position satisfies the first-match condition. */
  lemma FirstMatchUnique(lines: seq<Line>, pat: Pattern, i: nat)
    requires i < |lines| && Match(lines[i], pat)
    requires forall j :: 0 <= j < i ==> !Match(lines[j], pat)
    ensures FirstMatch(lines, pat) == Some(i)
  {
  }

  /** First match wins: when line `i` is the first line that matches, the
      price is the value of line `i`'s formula. */
  lemma ComputeFirstMatchWins(
    pl: PriceList, product: Option<Product>, unitPrice: Option<real>,
    quantity: real, uom: Uom, caller: Pattern, i: nat)
    requires i < |pl.lines|
    requires Match(pl.lines[i], BuildPattern(caller, product, quantity, uom))
    requires forall j :: 0 <= j < i ==> !Match(pl.lines[j], BuildPattern(caller, product, quantity, uom))
    ensures Compute(pl, product, unitPrice, quantity, uom, caller)
      == Eval(pl.lines[i].formula, ContextFormula(product, unitPrice))
  {
    FirstMatchUnique(pl.lines, BuildPattern(caller, product, quantity, uom), i);
  }

  /** Pass-through: when no line matches, in particular when the list is
      empty, the caller's unit price comes back unchanged. */
  lemma ComputePassThrough(
    pl: PriceList, product: Option<Product>, unitPrice: Option<real>,
    quantity: real, uom: Uom, caller: Pattern)
    requires forall j :: 0 <= j < |pl.lines| ==> !Match(pl.lines[j], BuildPattern(caller, product, quantity, uom))
    ensures Compute(pl, product, unitPrice, quantity, uom, caller) == Ok(PriceValue(unitPrice))
  {
  }

  /** Lines after the first match are never consulted: appending lines to a
      list that already has a match does not change the selection. */
  lemma {:induction false} FirstMatchIgnoresLaterLines(lines: seq<Line>, rest: seq<Line>, pat: Pattern)
    requires FirstMatch(lines, pat).Some?
    ensures FirstMatch(lines + rest, pat) == FirstMatch(lines, pat)
  {
    var i := FirstMatch(lines, pat).value;
    assert (lines + rest)[i] == lines[i];
    forall j | 0 <= j < i
      ensures !Match((lines + rest)[j], pat)
    {
      assert (lines + rest)[j] == lines[j];
    }
    FirstMatchUnique(lines + rest, pat, i);
  }

  /** The price does not depend on the lines after the one selected. */
  lemma ComputeIgnoresLaterLines(
    pl: PriceList, rest: seq<Line>, product: Option<Product>, unitPrice: Option<real>,
    quantity: real, uom: Uom, caller: Pattern)
    requires FirstMatch(pl.lines, BuildPattern(caller, product, quantity, uom)).Some?
    ensures Compute(PriceList(pl.lines + rest), product, unitPrice, quantity, uom, caller)
      == Compute(pl, product, unitPrice, quantity, uom, caller)
  {
    var pat := BuildPattern(caller, product, quantity, uom);
    FirstMatchIgnoresLaterLines(pl.lines, rest, pat);
    var i := FirstMatch(pl.lines, pat).value;
    assert (pl.lines + rest)[i] == pl.lines[i];
  }

  /** Two patterns that every line treats alike select the same line. */
  lemma FirstMatchCongruent(lines: seq<Line>, p1: Pattern, p2: Pattern)
    requires forall j :: 0 <= j < |lines| ==> (Match(lines[j], p1) <==> Match(lines[j], p2))
    ensures FirstMatch(lines, p1) == FirstMatch(lines, p2)
  {
    var r := FirstMatch(lines, p1);
    if r.Some? {
      FirstMatchUnique(lines, p2, r.value);
    }
  }

  /** Sign-insensitivity: a quantity and its negation give the same price. */
  lemma ComputeSignInsensitive(
    pl: PriceList, product: Option<Product>, unitPrice: Option<real>,
    quantity: real, uom: Uom, caller: Pattern)
    ensures Compute(pl, product, unitPrice, -quantity, uom, caller)
      == Compute(pl, product, unitPrice, quantity, uom, caller)
  {
    var p1 := BuildPattern(caller, product, quantity, uom);
    var p2 := BuildPattern(caller, product, -quantity, uom);
    if product.Some? {
      ComputeQtyNegate(uom, quantity, GetUom(product.value));
    }
    assert p2 == p1.(quantity := Some(-p1.quantity.value));
    forall j | 0 <= j < |pl.lines|
      ensures Match(pl.lines[j], p1) <==> Match(pl.lines[j], p2)
    {
      MatchQuantityIff(pl.lines[j], p1, p1.quantity.value);
    }
    FirstMatchCongruent(pl.lines, p1, p2);
  }

  /** Unit-insensitivity: for a product, two quantities that measure the same
      amount in different units (1000 g and 1 kg) give the same price. */
  lemma ComputeUnitInsensitive(
    pl: PriceList, product: Product, unitPrice: Option<real>,
    q1: real, u1: Uom, q2: real, u2: Uom, caller: Pattern)
    requires q1 * u1.factor == q2 * u2.factor
    ensures Compute(pl, Some(product), unitPrice, q1, u1, caller)
      == Compute(pl, Some(product), unitPrice, q2, u2, caller)
  {
    ComputeQtySameAmount(u1, q1, u2, q2, GetUom(product));
  }

  /** The category criterion: for a product, a line with category `c` matches
      exactly when `c` is the id of one of the product's categories or of an
      ancestor of one; a line without a category accepts every product. */
  lemma MatchCategoryIff(
    l: Line, product: Product, quantity: real, uom: Uom, caller: Pattern)
    ensures l.category.None? ==> MatchCategory(l, BuildPattern(caller, Some(product), quantity, uom))
    ensures l.category.Some? ==>
      (MatchCategory(l, BuildPattern(caller, Some(product), quantity, uom)) <==>
        exists k, a :: 0 <= k < |product.categories| && IsAncestorOrSelf(a, product.categories[k])
          && a.id == l.category.value)
  {
    if l.category.Some? {
      ParentsMembers(product.categories, l.category.value);
    }
  }

  /** A line on a category applies to a product filed under any descendant
      of that category. */
  lemma MatchCategoryDescendant(
    l: Line, product: Product, k: nat, cat: Category, quantity: real, uom: Uom, caller: Pattern)
    requires k < |product.categories|
    requires IsAncestorOrSelf(cat, product.categories[k])
    requires l.category == Some(cat.id)
    ensures MatchCategory(l, BuildPattern(caller, Some(product), quantity, uom))
  {
    MatchCategoryIff(l, product, quantity, uom, caller);
  }

  /** The formula sees the caller's unit price unchanged and the product's
      cost price, or 0 when unset or when there is no product. Shown on a
      list whose single catch-all line is the bare name of the binding. */
  lemma ComputeBindings(
    product: Option<Product>, unitPrice: Option<real>, quantity: real, uom: Uom, caller: Pattern)
    ensures Compute(PriceList([Line(None, None, None, Var(UnitPrice))]), product, unitPrice, quantity, uom, caller)
      == Ok(PriceValue(unitPrice))
    ensures Compute(PriceList([Line(None, None, None, Var(CostPrice))]), product, unitPrice, quantity, uom, caller)
      == Ok(DecVal(if product.Some? && product.value.costPrice.Some? then product.value.costPrice.value else 0.0))
  {
    var pat := BuildPattern(caller, product, quantity, uom);
    assert Match(Line(None, None, None, Var(UnitPrice)), pat);
    assert Match(Line(None, None, None, Var(CostPrice)), pat);
  }

  /** Price breaks: with the same product and unit, a larger absolute
      quantity selects the same line or an earlier one, never a later one,
      and never loses a match. */
  lemma FirstMatchQuantityMonotone(lines: seq<Line>, pat: Pattern, q1: real, q2: real)
    requires Abs(q1) <= Abs(q2)
    requires FirstMatch(lines, pat.(quantity := Some(q1))).Some?
    ensures FirstMatch(lines, pat.(quantity := Some(q2))).Some?
    ensures FirstMatch(lines, pat.(quantity := Some(q2))).value
      <= FirstMatch(lines, pat.(quantity := Some(q1))).value
  {
    var i := FirstMatch(lines, pat.(quantity := Some(q1))).value;
    MatchQuantityMonotone(lines[i], pat, q1, q2);
  }

  /** A line on a category applies to a product filed under a category
      whose chain passes through any descendant of the line's category:
      matching is transitive along the hierarchy. */
  lemma MatchCategoryTransitive(
    l: Line, product: Product, k: nat, cat: Category, mid: Category,
    quantity: real, uom: Uom, caller: Pattern)
    requires k < |product.categories|
    requires IsAncestorOrSelf(cat, mid) && IsAncestorOrSelf(mid, product.categories[k])
    requires l.category == Some(cat.id)
    ensures MatchCategory(l, BuildPattern(caller, Some(product), quantity, uom))
  {
    AncestorTransitive(cat, mid, product.categories[k]);
    MatchCategoryDescendant(l, product, k, cat, quantity, uom, caller);
  }

  /** The validation run when a line is saved: its formula, evaluated with
      the bindings of a call without product and with a unit price of 0,
      must give a decimal. It accepts every plain formula over the bound
      names that has a decimal leaf, rejects the same formula without one
      (its value is an integer), and rejects every formula with an unknown
      name. */
  function CheckFormula(l: Line): (ok: bool)
    ensures KnownNames(l.formula) && PlainArithmetic(l.formula) ==> (ok <==> HasDecimalLeaf(l.formula))
    ensures !KnownNames(l.formula) ==> !ok
  {
    var context := ContextFormula(None, Some(0.0));
    if KnownNames(l.formula) && PlainArithmetic(l.formula) then
      EvalDefined(l.formula, context);
      IsDecimal(Eval(l.formula, context))
    else if !KnownNames(l.formula) then
      UnknownNameFails(l.formula, context);
      IsDecimal(Eval(l.formula, context))
    else
      IsDecimal(Eval(l.formula, context))
  }

  /** The evaluation gave a decimal. */
  predicate IsDecimal(r: Result<Value, EvalError>)
  {
    match r
    case Ok(DecVal(_)) => true
    case _ => false
  }

  /** A line matches the pattern built for a product exactly when each of
      its criteria accepts: it names no product or this one, it has no
      category or one on the walk from the product's categories, and it has
      no threshold or one at most the magnitude of the converted quantity. */
  lemma MatchIff(l: Line, product: Product, quantity: real, uom: Uom, caller: Pattern)
    ensures Match(l, BuildPattern(caller, Some(product), quantity, uom)) <==>
      && (l.product.None? || l.product.value == product.id)
      && (l.category.None? ||
            exists k, a :: 0 <= k < |product.categories|
              && IsAncestorOrSelf(a, product.categories[k]) && a.id == l.category.value)
      && (l.quantity.None? || l.quantity.value <= Abs(ComputeQty(uom, quantity, product.defaultUom)))
  {
    MatchCategoryIff(l, product, quantity, uom, caller);
    MatchProductIff(l, Some(product), quantity, uom, caller);
  }
}
