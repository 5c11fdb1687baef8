# Price list engine of the Tryton `product_price_list` module, in Dafny

A price list is an ordered sequence of lines. Each line holds up to three
criteria: a product category, a product and a minimum quantity. It also holds
a price formula. `PriceList.compute` prices a product in three steps:

- It builds a match pattern. The pattern holds the ids of every category of the
  product and of all their ancestors, the product id, and the requested
  quantity converted into the product's default unit.
- It scans the lines in order and evaluates the formula of the first line that
  matches. The formula sees two bindings: `unit_price` (the caller's price) and
  `cost_price` (the product's cost price, or 0).
- If no line matches, it returns the caller's unit price unchanged.

The model has six modules:

- `Wrappers`: `Option` and `Result`.
- `Formula`: the line formula as an expression tree whose literals keep the
  kind the source gives them (exact decimal, integer or float), with a partial
  evaluator over kinded values. It stands in for the expression evaluator the
  source calls after rewriting decimal-point literals into decimals.
- `Categories`: categories and the parent walk.
- `Units`: exact unit conversion.
- `Pricing`: products, lines, the match pattern, the per-line predicate, first
  match selection, `Compute`, and the imperative scan `Scan`.
- `Scenarios`: the price lists of the module's test suite, with the prices the
  model gives for them.

Formula values carry their Python kind: absent (`None`), integer, float or
decimal. The caller may pass no unit price (Python `None`); a formula that is
the bare name `unit_price` then yields no price. Any arithmetic on the absent
value fails, as `None` arithmetic raises in Python. Only number literals with
a decimal point become decimals; other literals stay integers (or floats in
exponent form). An integer combines with either other kind, a decimal never
meets a float, and `/` on two integers gives a float. So `unit_price * (1 / 2)`
fails, and `2 * (3 + 4)` is an integer, which line validation rejects. A name
other than `unit_price` and `cost_price` fails as undefined.

A category holds its parent by value. A parent chain is therefore finite and
acyclic by construction. The source walks `category.parent` with no guard, so
a cyclic chain would never end there; such data cannot be written down in the
model.

Where the module's tests and its code disagree, the model follows the code:

- Without a product, `compute` does not return early (price_list.py:86-98).
  It keeps the caller's pattern keys, records the quantity unconverted, and
  still scans the lines. The test at tests/test_module.py:232 expects `None`
  for that call; the model gives the failure of its `list_price` formula
  (`Scenarios.ListPriceScenario`).
- `list_price` is not a binding (price_list.py:60-65). A formula using it
  fails, although tests/test_module.py:206-212 expect it to evaluate.

The categories key is a list of ids, duplicates included (price_list.py:87-88).
The quantity is converted once, before the scan (price_list.py:90-91).

## Model

| member | source | states |
|---|---|---|
| Formula.Apply | price_list.py:163-166 | an arithmetic step succeeds exactly on two present operands of combinable kinds with no zero divisor; the result is a decimal iff an operand is, an integer iff both are and the operator is not `/`, and its number is the exact result; a zero divisor is the division error |
| Formula.Eval | price_list.py:163-166 | a formula yields no value only when it is the bare name `unit_price` and no unit price was given |
| Formula.EvalDependsOnlyOnMentioned | price_list.py:163-166 | two bindings that agree on every name a formula mentions give the same result |
| Formula.ClosedFormulaIgnoresBindings | price_list.py:163-166 | pure arithmetic has the same value under every binding |
| Formula.PureArithmeticExample | price_list.py:163-166 | `2 * (3 + 4)` evaluates to the integer 14 and `2.0 * (3 + 4)` to the decimal 14, whatever the bindings |
| Formula.IntegerDivisionExample | price_list.py:163-166 | `unit_price * (1 / 2)` fails because a float meets a decimal, while `unit_price * 0.5` halves the price |
| Formula.EvalDefined | price_list.py:163-166 | a formula over the bound names without division or float literals never fails once a unit price is given; its value is a decimal iff it has a decimal leaf, and an integer otherwise |
| Formula.UnknownNameFails | price_list.py:60-65 | a formula mentioning any name outside `unit_price` and `cost_price` fails under every binding |
| Categories.Chain | price_list.py:76-80 | the walk from one category yields one id per category up to the root, the k-th being the k-th ancestor's id |
| Categories.Parents | price_list.py:76-80 | the walk over a list of categories yields each of them, and at least as many ids as there are categories |
| Categories.ChainOrder | price_list.py:76-80 | the walk starts at the category itself and ends at a root |
| Categories.AncestorStep | price_list.py:78-80 | each step of the walk moves to the parent of the previous category |
| Categories.AncestorOrSelfIsOnChain | price_list.py:76-80 | the ancestors-or-self of a category are exactly the categories the walk visits |
| Categories.ChainMembers | price_list.py:77-80 | an id is yielded from one category iff it is that category's id or the id of one of its ancestors |
| Categories.ParentsMembers | price_list.py:76-80 | an id is yielded from a list of categories iff it is the id of one of them or of one of their ancestors |
| Categories.ParentsMembersAll | price_list.py:76-80 | the same, for every id at once |
| Categories.AncestorTransitive | price_list.py:78-80 | following parents from an ancestor reaches only ancestors |
| Units.ComputeQty | price_list.py:90-91 | the converted quantity measures the same amount in the target unit as the given quantity in its unit |
| Units.ComputeQtyRoundTrip | price_list.py:90-91 | converting to a unit and back gives the original quantity |
| Units.ComputeQtyNegate | price_list.py:90-91 | conversion commutes with negation |
| Units.ComputeQtySameAmount | price_list.py:90-91 | two quantities measuring the same amount convert to the same quantity |
| Pricing.ValidLine | price_list.py:113-116 | the stored domain refuses every negative threshold and accepts an absent one or 0; a threshold it refuses would accept every quantity, as an absent one does |
| Pricing.Match | price_list.py:149-161 | a line without criteria matches every pattern; a match meets every criterion both sides state |
| Pricing.MatchIff | price_list.py:149-161 | a line matches a product's pattern exactly when it names no product or this one, has no category or one whose id is on the walk from the product's categories, and has no threshold or one at most the magnitude of the converted quantity |
| Pricing.MatchQuantityIff | price_list.py:150-154 | a threshold t rejects exactly when t exceeds the absolute quantity; no threshold accepts any quantity; negating the quantity never changes the verdict |
| Pricing.MatchQuantityMonotone | price_list.py:153-154 | a line that matches a quantity matches every quantity of larger magnitude |
| Pricing.ValidLineZeroQuantity | price_list.py:113-116 | under the stored threshold invariant, a zero quantity is accepted exactly when the threshold is absent or 0 |
| Pricing.MatchProductIff | price_list.py:149-161 | a line naming a product matches exactly that product; without a product, the caller's product key decides; a line without a product accepts any |
| Pricing.MatchCategoryIff | price_list.py:155-160 | a line on category C matches iff C is a product category or an ancestor of one; a line without a category accepts any product |
| Pricing.MatchCategoryDescendant | price_list.py:155-160 | a line on a category applies to products filed under any descendant of it |
| Pricing.MatchCategoryTransitive | price_list.py:155-160 | a line on a category applies to products filed under a descendant of any of its descendants |
| Pricing.CheckFormula | price_list.py:132-147 | validation, at a unit price of 0 without product, accepts a plain formula over the bound names iff it has a decimal leaf, and rejects every formula with an unknown name |
| Pricing.ContextFormula | price_list.py:54-65 | `unit_price` is bound to the caller's price as given; `cost_price` is the product's cost price, and 0 exactly when there is no product, no cost price, or a cost price of 0 |
| Pricing.GetUom | price_list.py:67-68 | the unit returned is one in which a quantity in the product's default unit converts to itself |
| Pricing.BuildPattern | price_list.py:82-91 | with a product, the pattern carries its id, a categories key holding exactly the ids of its categories and their ancestors, and the quantity measuring the same amount in the default unit; without one, the caller's keys survive and the quantity is kept as given |
| Pricing.FirstMatch | price_list.py:95-98 | the selected position holds a matching line and no earlier line matches; no selection means no line matches |
| Pricing.Scan | price_list.py:95-97 | the in-order loop stops at a matching line with no earlier match, or finishes having found no match; it selects the same line as `FirstMatch` |
| Pricing.FirstMatchUnique | price_list.py:95-97 | the first matching line is the one selected |
| Pricing.Compute | price_list.py:70-98 | no price comes out of a call that was given one |
| Pricing.ComputeFirstMatchWins | price_list.py:95-97 | when line i is the first match, the price is line i's formula evaluated with the call's bindings |
| Pricing.ComputePassThrough | price_list.py:98 | when no line matches, including an empty list, the caller's unit price is returned unchanged |
| Pricing.FirstMatchIgnoresLaterLines | price_list.py:95-97 | appending lines after a match does not change the selection |
| Pricing.ComputeIgnoresLaterLines | price_list.py:95-97 | lines after the selected one never affect the price |
| Pricing.FirstMatchCongruent | price_list.py:95-97 | two patterns every line treats alike select the same line |
| Pricing.ComputeSignInsensitive | price_list.py:153 | a quantity and its negation give the same price |
| Pricing.ComputeUnitInsensitive | price_list.py:90-91 | equal amounts in different units give the same price |
| Pricing.ComputeBindings | price_list.py:54-65 | `unit_price` is the caller's price unchanged; `cost_price` is the product's cost price, or 0 when unset or without a product |
| Pricing.FirstMatchQuantityMonotone | price_list.py:153-154 | a larger absolute quantity never loses a match and selects the same line or an earlier one |
| Scenarios.QuantityBreakScenario | tests/test_module.py:49-79 | the four-line list gives the decimals 10, 10, 9, 9, 9 for the base product at 1 kg, 1000 g, 10 kg, -10 kg and 10000 g |
| Scenarios.QuantityBreakVariantScenario | tests/test_module.py:49-79 | the same list gives the decimals 11, 8, 8 for the variant at 1 kg, 10 kg and 10000 g |
| Scenarios.CategoryScenario | tests/test_module.py:111-137 | a category line gives 8 for a product of that category and of its child, and 10 for a product without category |
| Scenarios.CostPriceScenario | tests/test_module.py:162-178 | `cost_price * 1.2` gives 0 without a cost price and 6 with a cost price of 5 |
| Scenarios.ListPriceScenario | price_list.py:60-65 | a `list_price` formula fails as undefined, with and without a product; without a product the lines are still scanned |

## Left out

- Record storage and framework plumbing are not modelled: field declarations, defaults, the company domain, the transaction context, the model pool, translated messages, deactivation and sequence ordering. Lines are given already in order.
- The price list's name, company, `tax_included` flag and `unit` selection are left out. The only unit choice is the product's default unit, which `GetUom` returns.
- The expression library is replaced by the `Expr` tree, whose literal kinds stand for the rewrite of decimal-point literals into decimals. Formula text is never parsed or tokenised, and exponent-form literals with a decimal point are not distinguished. The library's other operators are not modelled: power, modulo, floor division, comparisons, and calls such as `Decimal(...)`. The bare name `Decimal`, which the library resolves to the class through its function table, fails here as undefined; validation rejects such a formula, so no stored line holds one.
- Formula.Eval: decimals and floats are exact reals. The decimal context rounds every operation to 28 significant digits, and floats are binary; neither rounding is modelled. A division of 0 by 0, and a division by zero between integers or floats, raise different errors in Python; here all are the one `DivisionByZero` failure.
- Pricing.CheckFormula: the wrapping of the failure into a validation error with a translated message is not modelled; the verdict is a boolean. Its contract covers formulas without division or float literals; for the rest it evaluates the formula but states nothing general.
- Units.ComputeQty: conversion is exact multiplication by positive factors. Unit categories, and the error for incompatible units, are not modelled.
- Line thresholds are exact reals, not stored floats.
- Formula.Bindings: the caller's unit price is taken to be a decimal or `None`. The source passes on whatever value it is given, so an integer or float price, under which for instance `unit_price * (1 / 2)` would give a float, is not modelled.
- The generic field matching only covers the `product` key. Other keys a caller may put in the pattern are not modelled.
- Category: parent chains with a cycle cannot be represented, so the endless walk the source would perform on them is not modelled.
- `compute` and `match` copy the pattern before changing it. The model is pure, so the caller's pattern can never change; no lemma states this.
- `party` is passed to the formula context but never used (price_list.py:54-65), so it is not a parameter here.
- Pricing.Compute: its own contract states only that an absent price comes out only when none went in. First match wins, pass-through, sign- and unit-insensitivity are stated by the `Compute…` lemmas.
- Pricing.Match: its own contract states the catch-all case and that a match meets each criterion; the converse, that meeting all three criteria is a match, is stated for a product's pattern by `Pricing.MatchIff`.
