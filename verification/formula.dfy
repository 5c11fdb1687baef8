/**
  The price formula of a price list line, as an expression tree. Before
  evaluation, a number literal written with a decimal point becomes an exact
  decimal; any other number literal keeps its Python kind: an integer, or a
  float when written in exponent form. Values therefore carry their kind, and
  arithmetic follows Python's rules for mixing them: integers combine with
  decimals and with floats, decimals and floats do not combine, `/` on two
  integers gives a float, and any arithmetic on `None` fails. The formula is
  evaluated with two bindings, `unit_price` and `cost_price`; any other name
  fails.
*/
module Formula {
  import opened Wrappers

  /** The identifiers a formula may mention. Only `unit_price` and
      `cost_price` are bound; any other identifier is kept by name so that
      its failure can be modelled. */
  datatype Name = UnitPrice | CostPrice | Other(ident: string)

  datatype Op = Plus | Minus | Times | Over

  datatype Expr =
    | DecLit(d: real)      // a literal with a decimal point, read as an exact decimal
    | IntLit(i: int)       // a literal without one
    | FloatLit(f: real)    // an exponent-form literal without one
    | Var(name: Name)
    | Neg(operand: Expr)
    | Binary(op: Op, left: Expr, right: Expr)

  /** A Python value a formula can produce. */
  datatype Value = NoValue | IntVal(i: int) | FloatVal(f: real) | DecVal(d: real)

  datatype EvalError =
    | NameNotDefined(ident: string)  // an identifier with no binding
    | UnsupportedOperand             // arithmetic on `None`, or a decimal meeting a float
    | DivisionByZero

  /** The values bound to the formula's names: decimals, except that the
      caller may pass no unit price at all. */
  datatype Bindings = Bindings(unitPrice: Option<real>, costPrice: real)

  /** A caller's price as a formula value. */
  function PriceValue(p: Option<real>): Value
  {
    match p
    case None => NoValue
    case Some(d) => DecVal(d)
  }

  function Lookup(n: Name, b: Bindings): Result<Value, EvalError>
  {
    match n
    case UnitPrice => Ok(PriceValue(b.unitPrice))
    case CostPrice => Ok(DecVal(b.costPrice))
    case Other(ident) => Err(NameNotDefined(ident))
  }

  /** The number a non-`None` value stands for. */
  function Magnitude(v: Value): real
    requires !v.NoValue?
  {
    match v
    case IntVal(i) => i as real
    case FloatVal(f) => f
    case DecVal(d) => d
  }

  /** Two values can meet in arithmetic: neither is `None`, and not one a
      decimal and the other a float. */
  predicate Compatible(x: Value, y: Value)
  {
    && !x.NoValue? && !y.NoValue?
    && !(x.DecVal? && y.FloatVal?) && !(x.FloatVal? && y.DecVal?)
  }

  /** The arithmetic an operator stands for, on exact numbers. */
  function Arith(op: Op, a: real, c: real): real
    requires op == Over ==> c != 0.0
  {
    match op
    case Plus => a + c
    case Minus => a - c
    case Times => a * c
    case Over => a / c
  }

  /** Integer arithmetic, which stays integral for every operator but `/`. */
  function IntArith(op: Op, a: int, c: int): (r: int)
    requires op != Over
    ensures r as real == Arith(op, a as real, c as real)
  {
    match op
    case Plus => a + c
    case Minus => a - c
    case Times => a * c
  }

  /** One arithmetic step. It fails on `None`, on a decimal meeting a float,
      and on a zero divisor. The result is a decimal when either operand is
      one, an integer when both are integers and the operator is not `/`,
      and a float otherwise. */
  function Apply(op: Op, x: Value, y: Value): (r: Result<Value, EvalError>)
    ensures r.Ok? <==> Compatible(x, y) && !(op == Over && Magnitude(y) == 0.0)
    ensures r == Err(DivisionByZero) <==> Compatible(x, y) && op == Over && Magnitude(y) == 0.0
    ensures r.Ok? ==> !r.value.NoValue? && (r.value.DecVal? <==> x.DecVal? || y.DecVal?)
    ensures r.Ok? ==> (r.value.IntVal? <==> x.IntVal? && y.IntVal? && op != Over)
    ensures r.Ok? ==> Magnitude(r.value) == Arith(op, Magnitude(x), Magnitude(y))
  {
    if !Compatible(x, y) then Err(UnsupportedOperand)
    else if op == Over && Magnitude(y) == 0.0 then Err(DivisionByZero)
    else if x.IntVal? && y.IntVal? && op != Over then Ok(IntVal(IntArith(op, x.i, y.i)))
    else
      var m := Arith(op, Magnitude(x), Magnitude(y));
      Ok(if x.DecVal? || y.DecVal? then DecVal(m) else FloatVal(m))
  }

  /** Unary minus keeps the kind; it fails on `None`. */
  function Negate(v: Value): (r: Result<Value, EvalError>)
    ensures r.Ok? <==> !v.NoValue?
    ensures r.Ok? ==> !r.value.NoValue? && Magnitude(r.value) == -Magnitude(v)
  {
    match v
    case NoValue => Err(UnsupportedOperand)
    case IntVal(i) => Ok(IntVal(-i))
    case FloatVal(f) => Ok(FloatVal(-f))
    case DecVal(d) => Ok(DecVal(-d))
  }

  /** Evaluates a formula. Both operands of an operator are evaluated, left
      first, before the operator is applied; the first error wins. */
  function Eval(e: Expr, b: Bindings): (r: Result<Value, EvalError>)
    // `None` only comes out of a formula that is the bare name `unit_price`
    // evaluated without a unit price
    ensures r.Ok? && r.value.NoValue? ==> e == Var(UnitPrice) && b.unitPrice.None?
  {
    match e
    case DecLit(d) => Ok(DecVal(d))
    case IntLit(i) => Ok(IntVal(i))
    case FloatLit(f) => Ok(FloatVal(f))
    case Var(n) => Lookup(n, b)
    case Neg(x) =>
      (match Eval(x, b)
       case Err(err) => Err(err)
       case Ok(v) => Negate(v))
    case Binary(op, l, rt) =>
      match Eval(l, b)
      case Err(err) => Err(err)
      case Ok(x) =>
        match Eval(rt, b)
        case Err(err) => Err(err)
        case Ok(y) => Apply(op, x, y)
  }

  /** True when `e` mentions name `n` somewhere. */
  predicate Mentions(e: Expr, n: Name)
  {
    match e
    case Var(m) => m == n
    case Neg(x) => Mentions(x, n)
    case Binary(_, l, rt) => Mentions(l, n) || Mentions(rt, n)
    case _ => false
  }

  /** True when every name in `e` is one of the two bound names. */
  predicate KnownNames(e: Expr)
  {
    match e
    case Var(n) => !n.Other?
    case Neg(x) => KnownNames(x)
    case Binary(_, l, rt) => KnownNames(l) && KnownNames(rt)
    case _ => true
  }

  /** True when `e` contains neither a division nor a float literal, so that
      no float can arise in it. */
  predicate PlainArithmetic(e: Expr)
  {
    match e
    case FloatLit(_) => false
    case Neg(x) => PlainArithmetic(x)
    case Binary(op, l, rt) => op != Over && PlainArithmetic(l) && PlainArithmetic(rt)
    case _ => true
  }

  /** True when `e` has a leaf whose value is a decimal: a decimal literal or
      one of the two bound names. */
  predicate HasDecimalLeaf(e: Expr)
  {
    match e
    case DecLit(_) => true
    case Var(_) => true
    case Neg(x) => HasDecimalLeaf(x)
    case Binary(_, l, rt) => HasDecimalLeaf(l) || HasDecimalLeaf(rt)
    case _ => false
  }

  /** Two bindings agree on every name that `e` mentions. */
  predicate AgreeOn(e: Expr, b1: Bindings, b2: Bindings)
  {
    && (Mentions(e, UnitPrice) ==> b1.unitPrice == b2.unitPrice)
    && (Mentions(e, CostPrice) ==> b1.costPrice == b2.costPrice)
  }

  /** The value of a formula depends only on the names it mentions. */
  lemma {:induction false} EvalDependsOnlyOnMentioned(e: Expr, b1: Bindings, b2: Bindings)
    requires AgreeOn(e, b1, b2)
    ensures Eval(e, b1) == Eval(e, b2)
  {
    match e
    case DecLit(_) =>
    case IntLit(_) =>
    case FloatLit(_) =>
    case Var(_) =>
    case Neg(x) =>
      EvalDependsOnlyOnMentioned(x, b1, b2);
    case Binary(_, l, rt) =>
      EvalDependsOnlyOnMentioned(l, b1, b2);
      EvalDependsOnlyOnMentioned(rt, b1, b2);
  }

  /** A formula that mentions no name has the same value under every
      binding: pure arithmetic evaluates to itself. */
  lemma ClosedFormulaIgnoresBindings(e: Expr, b1: Bindings, b2: Bindings)
    requires !Mentions(e, UnitPrice) && !Mentions(e, CostPrice)
    ensures Eval(e, b1) == Eval(e, b2)
  {
    EvalDependsOnlyOnMentioned(e, b1, b2);
  }

  /** `2 * (3 + 4)` evaluates to the integer 14 whatever the bindings, and
      `2.0 * (3 + 4)` to the decimal 14. */
  lemma PureArithmeticExample(b: Bindings)
    ensures Eval(Binary(Times, IntLit(2), Binary(Plus, IntLit(3), IntLit(4))), b) == Ok(IntVal(14))
    ensures Eval(Binary(Times, DecLit(2.0), Binary(Plus, IntLit(3), IntLit(4))), b) == Ok(DecVal(14.0))
  {
    assert Eval(Binary(Plus, IntLit(3), IntLit(4)), b) == Ok(IntVal(7));
  }

  /** Halving with integer literals yields a float, which a decimal unit
      price refuses to meet: `unit_price * (1 / 2)` fails where
      `unit_price * 0.5` gives half the price. */
  lemma IntegerDivisionExample(p: real)
    ensures Eval(Binary(Times, Var(UnitPrice), Binary(Over, IntLit(1), IntLit(2))), Bindings(Some(p), 0.0))
      == Err(UnsupportedOperand)
    ensures Eval(Binary(Times, Var(UnitPrice), DecLit(0.5)), Bindings(Some(p), 0.0))
      == Ok(DecVal(p * 0.5))
  {
    assert Eval(Binary(Over, IntLit(1), IntLit(2)), Bindings(Some(p), 0.0)) == Ok(FloatVal(0.5));
  }

  /** A formula over the two bound names with plain arithmetic never fails
      once a unit price is given; its value is a decimal exactly when it has
      a decimal leaf, and an integer otherwise. */
  lemma {:induction false} EvalDefined(e: Expr, b: Bindings)
    requires KnownNames(e) && PlainArithmetic(e) && b.unitPrice.Some?
    ensures Eval(e, b).Ok?
    ensures Eval(e, b).value.DecVal? <==> HasDecimalLeaf(e)
    ensures Eval(e, b).value.IntVal? <==> !HasDecimalLeaf(e)
  {
    match e
    case DecLit(_) =>
    case IntLit(_) =>
    case FloatLit(_) =>
    case Var(_) =>
    case Neg(x) =>
      EvalDefined(x, b);
    case Binary(_, l, rt) =>
      EvalDefined(l, b);
      EvalDefined(rt, b);
  }

  /** A formula that mentions any identifier other than the two bound ones
      always fails, whatever the bindings: every sub-formula is evaluated. */
  lemma {:induction false} UnknownNameFails(e: Expr, b: Bindings)
    requires !KnownNames(e)
    ensures Eval(e, b).Err?
  {
    match e
    case DecLit(_) =>
    case IntLit(_) =>
    case FloatLit(_) =>
    case Var(_) =>
    case Neg(x) =>
      UnknownNameFails(x, b);
    case Binary(_, l, rt) =>
      if !KnownNames(l) {
        UnknownNameFails(l, b);
      } else {
        UnknownNameFails(rt, b);
      }
  }
}
