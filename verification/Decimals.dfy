/** The decimal arithmetic behind the kobo: Python decimals with 28 significant digits, rounded half
    to even, as the share-out and the payment amounts use them. */
module Decimals {
  import opened PayoutSplit

  /** A non-negative decimal number, coefficient * 10 ^ exponent. */
  datatype Decimal = Decimal(coefficient: nat, exponent: int)

  type Positive = x: int | 0 < x witness 1

  function Pow10(n: nat): Positive {
    if n == 0 then 1 else 10 * Pow10(n - 1)
  }

  /** 10 ^ 28: coefficients of 28 digits stay below it. */
  const LIMIT := 1_0000_0000_0000_0000_0000_0000_0000

  /** The integer nearest to n / d; of two equally near, the even one. */
  function HalfEven(n: nat, d: Positive): nat {
    var low, rest := n / d, n % d;
    if 2 * rest < d || (2 * rest == d && low % 2 == 0) then low else low + 1
  }

  /** How many digits have to go for 28 to be left. */
  function Excess(c: nat): nat {
    if c < LIMIT then 0 else 1 + Excess(c / 10)
  }

  /** A result rounded to the precision of the context. */
  function Fixed(c: nat, e: int): Decimal {
    var k := Excess(c);
    if k == 0 then Decimal(c, e) else Decimal(HalfEven(c, Pow10(k)), e + k)
  }

  function Multiply(a: Decimal, b: Decimal): Decimal {
    Fixed(a.coefficient * b.coefficient, a.exponent + b.exponent)
  }

  /** The number of places by which n / d must be shifted to have 28 digits before the point. */
  function Places(n: Positive, d: Positive, from: nat): (s: nat)
    requires n * Pow10(from) < LIMIT * d
    ensures from <= s && LIMIT * d <= 10 * (n * Pow10(s)) && n * Pow10(s) < LIMIT * d
    decreases LIMIT * d - n * Pow10(from)
  {
    if LIMIT * d <= 10 * (n * Pow10(from)) then from else
      assert n * Pow10(from + 1) == 10 * (n * Pow10(from));
      assert 0 < n * Pow10(from);
      Places(n, d, from + 1)
  }

  /** The quotient, rounded to 28 significant digits. */
  function Divide(a: Decimal, b: Decimal): Decimal
    requires 0 < b.coefficient && a.coefficient < LIMIT
  {
    if a.coefficient == 0 then Decimal(0, a.exponent - b.exponent) else
      assert Pow10(0) == 1;
      assert a.coefficient * 1 < LIMIT * b.coefficient by { LessThanMultiple(a.coefficient, LIMIT, b.coefficient); }
      var s := Places(a.coefficient, b.coefficient, 0);
      Decimal(HalfEven(a.coefficient * Pow10(s), b.coefficient), a.exponent - b.exponent - s)
  }

  lemma LessThanMultiple(a: nat, limit: nat, b: Positive)
    requires a < limit
    ensures a < limit * b
  {
  }

  /** quantize(Decimal("0.01"), ROUND_DOWN), as a number of kobo. */
  function RoundedDownToKobo(d: Decimal): nat {
    if d.exponent >= -2 then Shifted(d.coefficient, d.exponent + 2) else Cut(d.coefficient, -2 - d.exponent)
  }

  function Shifted(c: nat, places: nat): nat {
    MulLess(0, c, Pow10(places));
    c * Pow10(places)
  }

  function Cut(c: nat, places: nat): nat {
    FloorBounds(c, Pow10(places));
    c / Pow10(places)
  }

  /** total_revenue * Decimal(qty) / Decimal(total_qty), rounded down to the kobo. */
  function DecimalShare(revenue: nat, qty: Qty, totalQty: Qty): nat
    requires revenue * qty < LIMIT
  {
    RoundedDownToKobo(Divide(Multiply(Decimal(revenue, -2), Decimal(qty, 0)), Decimal(totalQty, 0)))
  }

  // ---------------------------------------------------------------------------------------------
  // Rounding twice
  // ---------------------------------------------------------------------------------------------

  lemma HalfEvenIsNear(n: nat, d: Positive)
    ensures 2 * n - d <= 2 * (HalfEven(n, d) * d) <= 2 * n + d
  {
    var low := n / d;
    assert n == low * d + n % d;
    assert (low + 1) * d == low * d + d;
  }

  /** The rounding is to the nearest integer, and of two equally near to the even one: no other integer
      is like that. */
  lemma HalfEvenMeaning(n: nat, d: Positive, c: nat)
    ensures c == HalfEven(n, d) <==>
              var off := 2 * (n - c * d); 0 <= off + d && off <= d && (off == d || off + d == 0 ==> c % 2 == 0)
  {
    var low, rest := n / d, n % d;
    assert n == low * d + rest;
    assert c * d == low * d + (c - low) * d by {
      Distribute(low, c - low, d);
    }
    Multiples(c - low, d);
    hide HalfEven;
    assert HalfEven(n, d) == if 2 * rest < d || (2 * rest == d && low % 2 == 0) then low else low + 1 by {
      HalfEvenIs(n, d);
    }
  }

  lemma Multiples(k: int, d: Positive)
    ensures k <= -1 ==> k * d + d <= 0
    ensures k == 0 ==> k * d == 0
    ensures k == 1 ==> k * d == d
    ensures 2 <= k ==> 2 * d <= k * d
  {
  }

  lemma HalfEvenIs(n: nat, d: Positive)
    ensures var low, rest := n / d, n % d;
            HalfEven(n, d) == if 2 * rest < d || (2 * rest == d && low % 2 == 0) then low else low + 1
  {
  }

  /** A quotient has 28 digits, and is the nearest such number. */
  lemma DivideMeaning(a: Decimal, b: Decimal) returns (s: nat)
    requires 0 < b.coefficient && 0 < a.coefficient < LIMIT
    ensures var q := Divide(a, b);
            && q.exponent == a.exponent - b.exponent - s && q.coefficient == HalfEven(a.coefficient * Pow10(s), b.coefficient)
            && LIMIT <= 10 * q.coefficient && q.coefficient <= LIMIT
  {
    assert Pow10(0) == 1;
    LessThanMultiple(a.coefficient, LIMIT, b.coefficient);
    s := Places(a.coefficient, b.coefficient, 0);
    DigitsOfQuotient(a.coefficient * Pow10(s), b.coefficient);
    hide HalfEven, Pow10, Places;
  }

  lemma DigitsOfQuotient(x: nat, d: Positive)
    requires LIMIT * d <= 10 * x && x < LIMIT * d
    ensures LIMIT <= 10 * HalfEven(x, d) && HalfEven(x, d) <= LIMIT
  {
    FloorBounds(x, d);
    if x / d < LIMIT / 10 {
      MulLess(x / d + 1, LIMIT / 10, d);
    }
    if LIMIT <= x / d {
      MulLess(LIMIT, x / d, d);
    }
  }

  lemma MulLess(a: int, b: int, c: Positive)
    ensures a < b ==> a * c < b * c
    ensures a <= b ==> a * c <= b * c
  {
  }

  /** With m steps to the kobo, rounding to the nearest step first and then down to the kobo is the
      same as rounding down at once, provided the divisor is below 2 * m. */
  lemma NearestThenDown(n: nat, m: Positive, d: Positive)
    requires d < 2 * m
    ensures HalfEven(n * m, d) / m == n / d
  {
    hide HalfEven;
    FloorBounds(n, d);
    MulLess(0, n + 1, m);
    HalfEvenIsNear(n * m, d);
    NearSteps(n, m, d, n / d, HalfEven(n * m, d));
  }

  lemma NearSteps(n: nat, m: Positive, d: Positive, f: nat, c: nat)
    requires d < 2 * m && f * d <= n < (f + 1) * d
    requires 2 * (n * m) - d <= 2 * (c * d) <= 2 * (n * m) + d
    ensures c / m == f
  {
    StepsBelow(n, m, d, f, c);
    StepsAbove(n, m, d, f, c);
    QuotientIs(c, m, f);
  }

  lemma Reorder(x: int, y: int, z: int)
    ensures x * y * z == x * z * y
    ensures (x - 1) * y == x * y - y
  {
  }

  lemma StepsBelow(n: nat, m: Positive, d: Positive, f: nat, c: nat)
    requires f * d <= n && 2 * (n * m) - d <= 2 * (c * d)
    ensures f * m <= c
  {
    MulLess(f * d, n, m);
    MulLess(c, f * m - 1, d);
    Reorder(f, d, m);
    Reorder(f * m, d, 1);
  }

  lemma StepsAbove(n: nat, m: Positive, d: Positive, f: nat, c: nat)
    requires n < (f + 1) * d && 2 * (c * d) <= 2 * (n * m) + d && d < 2 * m
    ensures c < (f + 1) * m
  {
    MulLess(n, (f + 1) * d - 1, m);
    MulLess((f + 1) * m, c, d);
    Reorder(f + 1, m, d);
    Reorder((f + 1) * d, m, 1);
  }

  lemma QuotientIs(c: nat, m: Positive, f: nat)
    requires f * m <= c < (f + 1) * m
    ensures c / m == f
  {
    var q := c / m;
    FloorBounds(c, m);
    if q < f {
      MulLess(q + 1, f, m);
    } else if f < q {
      MulLess(f + 1, q, m);
    }
  }

  /** And only then: with an even number of steps and a larger divisor, some share is lifted. */
  lemma RoundingTwiceIsSafe(m: Positive, d: Positive)
    requires m % 2 == 0
    ensures (forall n: nat :: HalfEven(n * m, d) / m == n / d) <==> d < 2 * m
  {
    if d < 2 * m {
      forall n: nat
        ensures HalfEven(n * m, d) / m == n / d
      {
        NearestThenDown(n, m, d);
      }
    } else {
      var n := d - 1;
      assert n * m == (m - 1) * d + (d - m);
      DivisionIs(n * m, d, m - 1, d - m);
      assert HalfEven(n * m, d) == m;
      QuotientIs(m, m, 1);
      QuotientIs(n, d, 0);
      assert HalfEven(n * m, d) / m != n / d;
    }
  }

  lemma DivisionIs(n: nat, d: Positive, q: nat, r: nat)
    requires n == q * d + r && r < d
    ensures n / d == q && n % d == r
  {
    assert (q + 1) * d == q * d + d;
    QuotientIs(n, d, q);
  }

  // ---------------------------------------------------------------------------------------------
  // The share-out
  // ---------------------------------------------------------------------------------------------

  lemma {:induction false} Pow10Grows(a: nat, b: nat)
    requires a <= b
    ensures Pow10(a) <= Pow10(b)
  {
    if a < b {
      Pow10Grows(a, b - 1);
    }
  }

  /** Below the limit a product is exact. */
  lemma ExactProduct(a: nat, b: nat)
    requires a * b < LIMIT
    ensures Multiply(Decimal(a, -2), Decimal(b, 0)) == Decimal(a * b, -2)
  {
  }

  /** The quotient of a revenue below 10 ^ 16 naira by a quantity has at least ten decimals more than
      a kobo has. */
  lemma EnoughPlaces(n: Positive, d: Positive, s: nat)
    requires LIMIT * d <= 10 * (n * Pow10(s)) && n < 1_00_0000_0000_0000_0000 * d
    ensures 10 <= s && 100_0000_0000 <= Pow10(s)
  {
    assert 10 <= s;
    Pow10Grows(10, s);
    assert Pow10(10) == 100_0000_0000;
  }

  /** The share of a farmer as the code computes it, rounding to 28 digits and then down to the kobo,
      is the exact proportion rounded down. */
  lemma DecimalShareIsRoundDown(revenue: nat, qty: Qty, totalQty: Qty)
    requires 0 < revenue < 1_00_0000_0000_0000_0000 && qty <= totalQty < 0x8000_0000
    ensures revenue * qty < LIMIT
    ensures DecimalShare(revenue, qty, totalQty) == RoundDown(revenue, qty, totalQty)
  {
    var n := revenue * qty;
    MulLess(revenue, 1_00_0000_0000_0000_0000, qty);
    MulLess(qty, totalQty, 1_00_0000_0000_0000_0000);
    MulLess(0, revenue, qty);
    ExactProduct(revenue, qty);
    LessThanMultiple(n, LIMIT, totalQty);
    var s := Places(n, totalQty, 0);
    EnoughPlaces(n, totalQty, s);
    NearestThenDown(n, Pow10(s), totalQty);
  }

  lemma {:induction false} QtyWithinSum(rows: seq<Share>, i: nat)
    requires i < |rows|
    ensures rows[i].qty <= QtySum(rows)
  {
    if i < |rows| - 1 {
      QtyWithinSum(rows[..|rows| - 1], i);
    }
  }

  /** The same number with its exponent lowered to `e`. */
  function Aligned(a: Decimal, e: int): nat
    requires e <= a.exponent
  {
    Shifted(a.coefficient, a.exponent - e)
  }

  function Lower(a: int, b: int): int {
    if a < b then a else b
  }

  function Add(a: Decimal, b: Decimal): Decimal {
    var e := Lower(a.exponent, b.exponent);
    Fixed(Aligned(a, e) + Aligned(b, e), e)
  }

  function Subtract(a: Decimal, b: Decimal): Decimal
    requires var e := Lower(a.exponent, b.exponent); Aligned(b, e) <= Aligned(a, e)
  {
    var e := Lower(a.exponent, b.exponent);
    Fixed(Aligned(a, e) - Aligned(b, e), e)
  }

  /** Sums and differences of kobo amounts below the limit are exact. */
  lemma ExactSums(a: nat, b: nat)
    requires a + b < LIMIT
    ensures Add(Decimal(a, -2), Decimal(b, -2)) == Decimal(a + b, -2)
    ensures Shifted(a, 0) == a && Shifted(b, 0) == b
    ensures b <= a ==> Subtract(Decimal(a, -2), Decimal(b, -2)) == Decimal(a - b, -2)
  {
    assert Pow10(0) == 1;
  }

  lemma {:induction false} PartialSum(amounts: seq<int>, i: nat)
    requires i <= |amounts| && forall k :: 0 <= k < |amounts| ==> 0 <= amounts[k]
    ensures 0 <= AmountSum(amounts[..i]) <= AmountSum(amounts)
  {
    if i == |amounts| {
      assert amounts[..i] == amounts;
      if amounts != [] {
        PartialSum(amounts[..|amounts| - 1], 0);
      }
    } else {
      assert amounts[..|amounts| - 1][..i] == amounts[..i];
      PartialSum(amounts[..|amounts| - 1], i);
    }
  }

  /** What the loop has allotted after `i` of the rows that are rounded down. */
  lemma AllocatedSoFar(rows: seq<Share>, revenue: nat, i: nat)
    requires rows != [] && i < |rows|
    ensures var floors := Amounts(rows, revenue)[..|rows| - 1];
            0 <= AmountSum(floors[..i]) <= AmountSum(floors) <= revenue && Amounts(rows, revenue)[|rows| - 1] == revenue - AmountSum(floors)
  {
    var n, amounts := |rows|, Amounts(rows, revenue);
    SplitMeaning(rows, revenue);
    PartialSum(amounts[..n - 1], i);
  }

  /** The decimals are these amounts of kobo, with two places. */
  predicate AreKobo(amounts: seq<Decimal>, kobo: seq<int>) {
    |amounts| == |kobo| && forall i :: 0 <= i < |kobo| ==> amounts[i].exponent == -2 && amounts[i].coefficient == kobo[i]
  }

  /** The share-out loop in decimals: shares, running allocation and the last farmer's remainder are
      those of the split in whole kobo. */
  method SplitInDecimals(rows: seq<Share>, revenue: nat) returns (amounts: seq<Decimal>)
    requires rows != [] && 0 < revenue < 1_00_0000_0000_0000_0000 && QtySum(rows) < 0x8000_0000
    ensures AreKobo(amounts, Amounts(rows, revenue))
  {
    ghost var exact := Amounts(rows, revenue);
    ghost var floors := exact[..|rows| - 1];
    var totalRevenue, allotted := Decimal(revenue, -2), Decimal(0, -2);
    amounts := [];
    for i := 0 to |rows|
      invariant AreKobo(amounts, exact[..i])
      invariant i < |rows| ==> 0 <= AmountSum(floors[..i]) && allotted == Decimal(AmountSum(floors[..i]), -2)
    {
      AllocatedSoFar(rows, revenue, i);
      var amount;
      if i == |rows| - 1 {
        assert floors[..i] == floors;
        ExactSums(revenue, AmountSum(floors));
        amount := Subtract(totalRevenue, allotted);
      } else {
        QtyWithinSum(rows, i);
        DecimalShareIsRoundDown(revenue, rows[i].qty, QtySum(rows));
        LessThanMultiple(revenue * rows[i].qty, LIMIT, QtySum(rows));
        ExactProduct(revenue, rows[i].qty);
        AllocatedSoFar(rows, revenue, i + 1);
        assert floors[..i + 1][..i] == floors[..i];
        var rawShare := Divide(Multiply(totalRevenue, Decimal(rows[i].qty, 0)), Decimal(QtySum(rows), 0));
        amount := Decimal(RoundedDownToKobo(rawShare), -2);
        ExactSums(AmountSum(floors[..i]), amount.coefficient);
        allotted := Add(allotted, amount);
      }
      amounts := amounts + [amount];
    }
  }

  // ---------------------------------------------------------------------------------------------
  // Order totals, amounts to initialise, amounts paid
  // ---------------------------------------------------------------------------------------------

  /** to_integral_value() */
  function ToIntegral(d: Decimal): nat {
    if d.exponent >= 0 then Shifted(d.coefficient, d.exponent) else HalfEven(d.coefficient, Pow10(-d.exponent))
  }

  /** pool.price * qty */
  function OrderTotal(price: Decimal, qty: Qty): Decimal {
    Multiply(price, Decimal(qty, 0))
  }

  /** int((order.total * 100).to_integral_value()) */
  function AmountKobo(total: Decimal): nat {
    ToIntegral(Multiply(total, Decimal(100, 0)))
  }

  /** Decimal(amount) / 100 */
  function PaidAmount(kobo: nat): Decimal
    requires kobo < LIMIT
  {
    Divide(Decimal(kobo, 0), Decimal(100, 0))
  }

  /** The same number, possibly written with more places. */
  predicate SameValue(a: Decimal, b: Decimal) {
    if a.exponent <= b.exponent then a.coefficient == Shifted(b.coefficient, b.exponent - a.exponent)
    else b.coefficient == Shifted(a.coefficient, a.exponent - b.exponent)
  }

  lemma HalfEvenExact(q: nat, d: Positive)
    ensures HalfEven(q * d, d) == q
  {
    DivisionIs(q * d, d, q, 0);
  }

  /** A price with two decimals makes every order total a whole number of kobo, and initialising the
      payment of it asks for exactly that number. */
  lemma TotalsAreWholeKobo(price: nat, qty: Qty)
    requires price * qty * 100 < LIMIT
    ensures OrderTotal(Decimal(price, -2), qty) == Decimal(price * qty, -2)
    ensures AmountKobo(OrderTotal(Decimal(price, -2), qty)) == price * qty
  {
    assert price * qty < LIMIT;
    ExactProduct(price, qty);
    ExactProduct(price * qty, 100);
    assert Pow10(2) == 100;
    HalfEvenExact(price * qty, 100);
  }

  /** The webhook's division is the inverse of that conversion, both ways. */
  lemma PaidIsWhatWasAsked(kobo: nat)
    requires kobo * 100 < LIMIT
    ensures SameValue(PaidAmount(kobo), Decimal(kobo, -2))
    ensures AmountKobo(Decimal(kobo, -2)) == kobo
  {
    ExactProduct(kobo, 100);
    assert Pow10(2) == 100;
    HalfEvenExact(kobo, 100);
    PaidInNaira(kobo);
  }

  lemma PaidInNaira(kobo: nat)
    requires kobo * 100 < LIMIT
    ensures SameValue(PaidAmount(kobo), Decimal(kobo, -2))
  {
    if kobo == 0 {
      assert PaidAmount(kobo) == Decimal(0, 0);
    } else {
      var s := Places(kobo, 100, 0);
      QuotientByHundred(kobo, s);
      assert PaidAmount(kobo) == Decimal(HalfEven(kobo * Pow10(s), 100), -(s as int));
      hide Pow10, HalfEven, PaidAmount, Shifted, Places;
    }
  }

  lemma QuotientByHundred(kobo: Positive, s: nat)
    requires LIMIT * 100 <= 10 * (kobo * Pow10(s)) && kobo * 100 < LIMIT
    ensures 2 <= s && HalfEven(kobo * Pow10(s), 100) == Shifted(kobo, s - 2)
  {
    assert 2 <= s;
    assert Pow10(s) == 100 * Pow10(s - 2);
    assert kobo * Pow10(s) == kobo * Pow10(s - 2) * 100;
    HalfEvenExact(Shifted(kobo, s - 2), 100);
  }
}
