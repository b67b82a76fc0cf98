/** Order sizing in the scanner: what a bot spends on a signal, rounded down to the quantity precision. */
module Sizing {
  import opened Domain

  /** A value of the bot's configuration; only numbers matter. */
  datatype ConfigValue = Number(value: real) | Integer(n: int) | NotANumber

  type Config = map<string, ConfigValue>

  const DEFAULT_ALLOCATION := 0.01
  const DEFAULT_PRECISION := 6
  const ALLOCATION_KEY := "order_allocation_pct"
  const MAX_NOTIONAL_KEY := "max_order_notional"
  const PRECISION_KEY := "quantity_precision"

  /** `configFloat64`: only floating-point numbers count. */
  function ConfigReal(config: Config, key: string): Option<real> {
    if key in config && config[key].Number? then Some(config[key].value) else None
  }

  /** Conversion of a floating-point number to an integer drops the fraction, also below zero. */
  function Truncated(x: real): int {
    if x >= 0.0 then x.Floor else -(-x).Floor
  }

  function ConfigInt(config: Config, key: string): Option<int> {
    if key !in config then None
    else match config[key]
      case Number(value) => Some(Truncated(value))
      case Integer(i) => Some(i)
      case NotANumber => None
  }

  function Pow10(n: nat): (p: real)
    ensures p >= 1.0
  {
    if n == 0 then 1.0 else 10.0 * Pow10(n - 1)
  }

  /** `n` steps of size 1 / factor. */
  function Steps(n: int, factor: real): real
    requires factor > 0.0
  {
    n as real / factor
  }

  function WholeSteps(value: real, factor: real): int {
    (value * factor).Floor
  }

  function Factor(precision: int): (f: real)
    ensures f > 0.0
  {
    if precision < 0 then Pow10(0) else Pow10(precision)
  }

  function RoundDown(value: real, precision: int): real {
    Steps(WholeSteps(value, Factor(precision)), Factor(precision))
  }

  function Allocation(config: Config): real {
    var a := ConfigReal(config, ALLOCATION_KEY);
    if a.Some? && a.value > 0.0 then a.value else DEFAULT_ALLOCATION
  }

  /** What the bot may spend on one order. */
  function Notional(capital: real, config: Config): real {
    var notional, cap := capital * Allocation(config), ConfigReal(config, MAX_NOTIONAL_KEY);
    if cap.Some? && cap.value > 0.0 && cap.value < notional then cap.value else notional
  }

  function Precision(config: Config): (p: nat)
    ensures p <= 12
  {
    var p := ConfigInt(config, PRECISION_KEY);
    if p.Some? && 0 <= p.value <= 12 then p.value else DEFAULT_PRECISION
  }

  datatype SizingError = NoPrice | NoCapital | NothingLeft

  datatype Sized = Quantity(quantity: real) | Unsized(error: SizingError)

  /** `deriveOrderQuantity`. */
  function DeriveQuantity(capital: real, config: Config, price: real): Sized {
    if price <= 0.0 then Unsized(NoPrice)
    else if capital <= 0.0 then Unsized(NoCapital)
    else
      var quantity := RoundDown(Notional(capital, config) / price, Precision(config));
      if quantity <= 0.0 then Unsized(NothingLeft) else Quantity(quantity)
  }

  /** `BuildOrderIntent`; None is an error. */
  function BuildOrderIntent(
      id: IntentId, bot: BotId, capital: real, config: Config, side: Side, price: Option<real>): Option<OrderIntent>
  {
    if price.None? || price.value <= 0.0 then None
    else
      var sized := DeriveQuantity(capital, config, price.value);
      if sized.Unsized? then None else Some(OrderIntent(id, bot, side, sized.quantity, price))
  }

  // ================================================================ rounding

  lemma Scaling(x: real, y: real, f: real)
    requires f > 0.0
    ensures x <= y <==> x * f <= y * f
  {
    if x <= y {
      assert (y - x) * f >= 0.0;
    } else {
      assert (x - y) * f > 0.0;
    }
  }

  /** A number of steps stays within a value exactly if the number stays within the scaled value. */
  lemma StepsWithin(n: int, value: real, f: real)
    requires f > 0.0
    ensures Steps(n, f) <= value <==> n as real <= value * f
  {
    assert Steps(n, f) * f == n as real;
    Scaling(Steps(n, f), value, f);
  }

  lemma StepsOrdered(m: int, n: int, f: real)
    requires f > 0.0
    ensures Steps(m, f) <= Steps(n, f) <==> m <= n
  {
    assert Steps(n, f) * f == n as real;
    StepsWithin(m, Steps(n, f), f);
  }

  /** `q` is a whole number of steps of size 10^-p. */
  ghost predicate OnGrid(q: real, p: nat) {
    exists n: int :: q == Steps(n, Pow10(p))
  }

  /** Rounding down gives the greatest multiple of the step that is not above the value. */
  lemma RoundDownIsGreatest(value: real, p: nat, n: int)
    ensures OnGrid(RoundDown(value, p), p) && RoundDown(value, p) <= value
    ensures Steps(n, Pow10(p)) <= value <==> Steps(n, Pow10(p)) <= RoundDown(value, p)
  {
    var f := Pow10(p);
    var k := WholeSteps(value, f);
    StepsWithin(k, value, f);
    StepsWithin(n, value, f);
    StepsOrdered(n, k, f);
  }

  lemma OneStepMore(n: int, f: real)
    requires f > 0.0
    ensures Steps(n + 1, f) == Steps(n, f) + Steps(1, f)
  {
    assert Steps(n + 1, f) * f == n as real + 1.0;
    assert (Steps(n, f) + Steps(1, f)) * f == n as real + 1.0;
    Scaling(Steps(n + 1, f), Steps(n, f) + Steps(1, f), f);
    Scaling(Steps(n, f) + Steps(1, f), Steps(n + 1, f), f);
  }

  /** So it falls short of the value by less than one step. */
  lemma RoundDownIsClose(value: real, p: nat)
    ensures value < RoundDown(value, p) + Steps(1, Pow10(p))
  {
    var f := Pow10(p);
    var k := WholeSteps(value, f);
    OneStepMore(k, f);
    StepsWithin(k + 1, value, f);
  }

  lemma {:induction false} Pow10Splits(p: nat, q: nat) returns (m: int)
    requires p <= q
    ensures m >= 1 && Pow10(q) == m as real * Pow10(p)
  {
    if p == q {
      m := 1;
    } else {
      var l := Pow10Splits(p, q - 1);
      m := 10 * l;
    }
  }

  lemma Rescaled(q: real, n: real, m: real, f: real)
    requires q * f == n
    ensures q * (m * f) == n * m
  {
    assert q * (m * f) == (q * f) * m;
  }

  lemma SplitSteps(n: int, m: int, f: real)
    requires m >= 1 && f > 0.0
    ensures m as real * f > 0.0 && Steps(n, f) == Steps(n * m, m as real * f)
  {
    var g := m as real * f;
    Scaling(0.0, f, m as real);
    assert g >= f;
    assert (n * m) as real == n as real * m as real;
    assert Steps(n * m, g) * g == n as real * m as real;
    Rescaled(Steps(n, f), n as real, m as real, f);
    Scaling(Steps(n, f), Steps(n * m, g), g);
    Scaling(Steps(n * m, g), Steps(n, f), g);
  }

  /** A multiple of a coarse step is one of every finer step. */
  lemma CoarseIsFine(x: real, p: nat, q: nat)
    requires p <= q && OnGrid(x, p)
    ensures OnGrid(x, q)
  {
    var n: int :| x == Steps(n, Pow10(p));
    var m := Pow10Splits(p, q);
    SplitSteps(n, m, Pow10(p));
    assert x == Steps(n * m, Pow10(q));
  }

  lemma GridBelow(x: real, value: real, p: nat)
    requires OnGrid(x, p)
    ensures x <= value <==> x <= RoundDown(value, p)
  {
    var n: int :| x == Steps(n, Pow10(p));
    RoundDownIsGreatest(value, p, n);
  }

  /** More digits never round to less. */
  lemma RoundingIsMonotone(value: real, p: nat, q: nat)
    requires p <= q
    ensures RoundDown(value, p) <= RoundDown(value, q)
  {
    RoundDownIsGreatest(value, p, 0);
    CoarseIsFine(RoundDown(value, p), p, q);
    GridBelow(RoundDown(value, p), value, q);
  }

  /** Rounding to the finer precision first makes no difference. */
  lemma FineThenCoarse(value: real, p: nat, q: nat)
    requires p <= q
    ensures RoundDown(RoundDown(value, q), p) == RoundDown(value, p)
  {
    var fine := RoundDown(value, q);
    RoundDownIsGreatest(value, q, 0);
    RoundDownIsGreatest(value, p, 0);
    RoundDownIsGreatest(fine, p, 0);
    RoundingIsMonotone(value, p, q);
    GridBelow(RoundDown(value, p), fine, p);
    GridBelow(RoundDown(fine, p), value, p);
  }

  // ================================================================ sizing

  lemma Products(q: real, n: real, price: real)
    requires price > 0.0
    ensures q <= n / price <==> q * price <= n
    ensures n / price > 0.0 <==> n > 0.0
  {
    assert n / price * price == n;
    Scaling(q, n / price, price);
    Scaling(n / price, 0.0, price);
  }

  /** The number under the key, if it is a positive one. */
  predicate SetsPositive(config: Config, key: string) {
    key in config && config[key].Number? && config[key].value > 0.0
  }

  /** The bot spends at most its share of the capital, 1 % unless configured, and at most its cap if it has one. */
  predicate MaySpend(spent: real, capital: real, config: Config) {
    && (if SetsPositive(config, "order_allocation_pct")
        then spent <= config["order_allocation_pct"].value * capital
        else 100.0 * spent <= capital)
    && (SetsPositive(config, "max_order_notional") ==> spent <= config["max_order_notional"].value)
  }

  /** The configured number of digits, without its fraction, if it is between 0 and 12, and 6 otherwise. */
  predicate IsPrecision(p: nat, config: Config) {
    if "quantity_precision" !in config then p == 6
    else
      match config["quantity_precision"]
      case NotANumber => p == 6
      case Integer(n) => p == if n < 0 || n > 12 then 6 else n
      case Number(x) =>
        if x <= -1.0 || x >= 13.0 then p == 6
        else if x < 0.0 then p == 0
        else p <= 12 && p as real <= x && x < p as real + 1.0
  }

  lemma PrecisionIsConfigured(config: Config)
    ensures IsPrecision(Precision(config), config)
  {
  }

  /** A step is one unit in the last of `p` decimal places. */
  lemma StepsAreDecimal(p: nat)
    ensures Steps(1, Pow10(0)) == 1.0 && 10.0 * Steps(1, Pow10(p + 1)) == Steps(1, Pow10(p))
    ensures p == 6 ==> Steps(1, Pow10(p)) == 0.000001
  {
    assert Pow10(6) == 1000000.0 by {
      assert Pow10(3) == 1000.0;
    }
  }

  predicate Affordable(quantity: real, price: real, capital: real, config: Config) {
    MaySpend(quantity * price, capital, config)
  }

  lemma NotionalIsTheLesser(capital: real, config: Config, spent: real)
    requires capital > 0.0
    ensures Notional(capital, config) > 0.0
    ensures spent <= Notional(capital, config) <==> MaySpend(spent, capital, config)
  {
    assert capital * Allocation(config) > 0.0;
    assert ALLOCATION_KEY == "order_allocation_pct" && MAX_NOTIONAL_KEY == "max_order_notional";
  }

  /** The size of one step of the bot's quantities. */
  function StepSize(config: Config): real {
    Steps(1, Pow10(Precision(config)))
  }

  lemma WithinNotional(capital: real, config: Config, price: real, q: real)
    requires capital > 0.0 && price > 0.0
    ensures q <= Notional(capital, config) / price <==> Affordable(q, price, capital, config)
  {
    Products(q, Notional(capital, config), price);
    NotionalIsTheLesser(capital, config, q * price);
  }

  /**
   A derived quantity is the greatest multiple of 10^-precision that the bot can afford at the price: positive,
   affordable, less than a step short of the exact quotient, and not affordable with one step more.
   */
  lemma DerivedIsGreatestAffordable(capital: real, config: Config, price: real)
    requires DeriveQuantity(capital, config, price).Quantity?
    ensures var q := DeriveQuantity(capital, config, price).quantity;
            && IsPrecision(Precision(config), config)
            && q > 0.0 && OnGrid(q, Precision(config)) && Affordable(q, price, capital, config)
            && q <= Notional(capital, config) / price < q + StepSize(config)
            && !Affordable(q + StepSize(config), price, capital, config)
  {
    var q, exact := DeriveQuantity(capital, config, price).quantity, Notional(capital, config) / price;
    PrecisionIsConfigured(config);
    RoundDownIsGreatest(exact, Precision(config), 0);
    RoundDownIsClose(exact, Precision(config));
    WithinNotional(capital, config, price, q);
    WithinNotional(capital, config, price, q + StepSize(config));
  }

  lemma PositiveMeansAStep(value: real, p: nat)
    ensures RoundDown(value, p) > 0.0 <==> Steps(1, Pow10(p)) <= value
  {
    var f := Pow10(p);
    var k := WholeSteps(value, f);
    StepsOrdered(k, 0, f);
    StepsOrdered(1, k, f);
    RoundDownIsGreatest(value, p, 1);
    assert Steps(0, f) == 0.0;
  }

  /** Sizing fails exactly without a price, without capital, or if not even one step is affordable. */
  lemma SizingFailsIff(capital: real, config: Config, price: real)
    ensures var sized := DeriveQuantity(capital, config, price);
            && (sized == Unsized(NoPrice) <==> price <= 0.0)
            && (sized == Unsized(NoCapital) <==> price > 0.0 && capital <= 0.0)
            && (sized == Unsized(NothingLeft) <==>
                  price > 0.0 && capital > 0.0 && !Affordable(StepSize(config), price, capital, config))
  {
    if price > 0.0 && capital > 0.0 {
      PositiveMeansAStep(Notional(capital, config) / price, Precision(config));
      WithinNotional(capital, config, price, StepSize(config));
    }
  }

  /** An intent is built exactly if the signal has a price and one step is affordable; it asks for all that is. */
  lemma IntentCarriesSizing(
      id: IntentId, bot: BotId, capital: real, config: Config, side: Side, price: Option<real>)
    ensures var intent := BuildOrderIntent(id, bot, capital, config, side, price);
            && (intent.Some? <==>
                  && price.Some? && price.value > 0.0 && capital > 0.0
                  && Affordable(StepSize(config), price.value, capital, config))
            && (intent.Some? ==>
                  && intent.value.id == id && intent.value.bot == bot && intent.value.side == side
                  && intent.value.price == price && intent.value.quantity > 0.0
                  && OnGrid(intent.value.quantity, Precision(config)) && IsPrecision(Precision(config), config)
                  && Affordable(intent.value.quantity, price.value, capital, config)
                  && !Affordable(intent.value.quantity + StepSize(config), price.value, capital, config))
  {
    if price.Some? {
      SizingFailsIff(capital, config, price.value);
      if DeriveQuantity(capital, config, price.value).Quantity? {
        DerivedIsGreatestAffordable(capital, config, price.value);
      }
    }
  }
}
