/** The share-out of a closed pool's revenue (app/features/payouts/service.py), in whole kobo.

    Contributions are grouped per farmer, arranged in ascending order of quantity, and every farmer
    but the last gets the round-down of the exact proportion; the last one gets what is left. */
module PayoutSplit {

  type FarmerId = nat
  type Qty = x: int | 0 < x witness 1

  datatype Contribution = Contribution(farmer: FarmerId, qty: Qty)

  /** One row of the contributor summary: a farmer and the total that farmer contributed. */
  datatype Share = Share(farmer: FarmerId, qty: Qty)

  datatype PayoutRow = PayoutRow(farmer: FarmerId, amount: int)

  // ---------------------------------------------------------------------------------------------
  // Sums
  // ---------------------------------------------------------------------------------------------

  function ContributedQty(cs: seq<Contribution>): nat {
    if cs == [] then 0 else ContributedQty(cs[..|cs| - 1]) + cs[|cs| - 1].qty
  }

  function ContributedBy(cs: seq<Contribution>, f: FarmerId): nat {
    if cs == [] then 0 else
      ContributedBy(cs[..|cs| - 1], f) + if cs[|cs| - 1].farmer == f then cs[|cs| - 1].qty else 0
  }

  function QtySum(rows: seq<Share>): nat {
    if rows == [] then 0 else QtySum(rows[..|rows| - 1]) + rows[|rows| - 1].qty
  }

  function AmountSum(amounts: seq<int>): int {
    if amounts == [] then 0 else AmountSum(amounts[..|amounts| - 1]) + amounts[|amounts| - 1]
  }

  function Paid(rows: seq<PayoutRow>): int {
    if rows == [] then 0 else Paid(rows[..|rows| - 1]) + rows[|rows| - 1].amount
  }

  // ---------------------------------------------------------------------------------------------
  // GROUP BY farmer
  // ---------------------------------------------------------------------------------------------

  function AddShare(rows: seq<Share>, c: Contribution): seq<Share> {
    if rows == [] then [Share(c.farmer, c.qty)]
    else if rows[0].farmer == c.farmer then [Share(c.farmer, rows[0].qty + c.qty)] + rows[1..]
    else [rows[0]] + AddShare(rows[1..], c)
  }

  function Grouped(cs: seq<Contribution>): seq<Share> {
    if cs == [] then [] else AddShare(Grouped(cs[..|cs| - 1]), cs[|cs| - 1])
  }

  ghost predicate DistinctFarmers(rows: seq<Share>) {
    forall i, j :: 0 <= i < j < |rows| ==> rows[i].farmer != rows[j].farmer
  }

  /** What one farmer has in a summary: the quantity of its row, zero without a row. */
  ghost function QtyOf(rows: seq<Share>, f: FarmerId): nat {
    if rows == [] then 0
    else if rows[0].farmer == f then rows[0].qty
    else QtyOf(rows[1..], f)
  }

  lemma {:induction false} QtySumTail(rows: seq<Share>)
    requires rows != []
    ensures QtySum(rows) == rows[0].qty + QtySum(rows[1..])
  {
    if |rows| == 1 {
      assert rows[1..] == [] && rows[..0] == [];
    } else {
      QtySumTail(rows[..|rows| - 1]);
      assert rows[..|rows| - 1][1..] == rows[1..][..|rows| - 2];
    }
  }

  lemma {:induction false} AddShareMeaning(rows: seq<Share>, c: Contribution)
    requires DistinctFarmers(rows)
    ensures DistinctFarmers(AddShare(rows, c))
    ensures forall r :: r in AddShare(rows, c) ==> r.farmer == c.farmer || r in rows
    ensures forall f :: QtyOf(AddShare(rows, c), f) == QtyOf(rows, f) + if f == c.farmer then c.qty else 0
  {
    var added := AddShare(rows, c);
    if rows == [] {
    } else {
      assert DistinctFarmers(rows[1..]);
      if rows[0].farmer == c.farmer {
        assert added[1..] == rows[1..];
      } else {
        AddShareMeaning(rows[1..], c);
        assert added[1..] == AddShare(rows[1..], c);
        forall j | 0 < j < |added|
          ensures added[0].farmer != added[j].farmer
        {
          assert added[j] in AddShare(rows[1..], c);
        }
      }
    }
  }

  lemma {:induction false} AddShareSum(rows: seq<Share>, c: Contribution)
    ensures QtySum(AddShare(rows, c)) == QtySum(rows) + c.qty
  {
    var added := AddShare(rows, c);
    QtySumTail(added);
    if rows != [] {
      QtySumTail(rows);
      if rows[0].farmer == c.farmer {
        assert added[1..] == rows[1..];
      } else {
        AddShareSum(rows[1..], c);
        assert added[1..] == AddShare(rows[1..], c);
      }
    }
  }

  /** The summary has one row per contributing farmer, carrying that farmer's whole contribution. */
  lemma {:induction false} GroupedMeaning(cs: seq<Contribution>)
    ensures DistinctFarmers(Grouped(cs))
    ensures forall f :: QtyOf(Grouped(cs), f) == ContributedBy(cs, f)
    ensures QtySum(Grouped(cs)) == ContributedQty(cs)
    ensures Grouped(cs) == [] <==> cs == []
  {
    if cs != [] {
      GroupedMeaning(cs[..|cs| - 1]);
      AddShareMeaning(Grouped(cs[..|cs| - 1]), cs[|cs| - 1]);
      AddShareSum(Grouped(cs[..|cs| - 1]), cs[|cs| - 1]);
    }
  }

  // ---------------------------------------------------------------------------------------------
  // Ascending order of quantity
  // ---------------------------------------------------------------------------------------------

  function Pos(tie: seq<FarmerId>, f: FarmerId): nat {
    if tie == [] || tie[0] == f then 0 else 1 + Pos(tie[1..], f)
  }

  /** Ascending by quantity. The database returns equal sums in an order of its own, which the
      stable sort keeps: `tie` is that order for the call at hand. */
  predicate Before(a: Share, b: Share, tie: seq<FarmerId>) {
    a.qty < b.qty || (a.qty == b.qty && Pos(tie, a.farmer) <= Pos(tie, b.farmer))
  }

  function Insert(rows: seq<Share>, r: Share, tie: seq<FarmerId>): seq<Share> {
    if rows == [] then [r]
    else if Before(r, rows[0], tie) then [r] + rows
    else [rows[0]] + Insert(rows[1..], r, tie)
  }

  function Arrange(rows: seq<Share>, tie: seq<FarmerId>): seq<Share> {
    if rows == [] then [] else Insert(Arrange(rows[1..], tie), rows[0], tie)
  }

  ghost predicate Ascending(rows: seq<Share>) {
    forall i, j :: 0 <= i < j < |rows| ==> rows[i].qty <= rows[j].qty
  }

  ghost predicate InOrder(rows: seq<Share>, tie: seq<FarmerId>) {
    forall i, j :: 0 <= i < j < |rows| ==> Before(rows[i], rows[j], tie)
  }

  lemma {:induction false} InsertMeaning(rows: seq<Share>, r: Share, tie: seq<FarmerId>)
    requires InOrder(rows, tie)
    ensures InOrder(Insert(rows, r, tie), tie)
    ensures multiset(Insert(rows, r, tie)) == multiset(rows) + multiset{r}
  {
    if rows == [] || Before(r, rows[0], tie) {
      assert multiset([r] + rows) == multiset{r} + multiset(rows);
    } else {
      var rest := Insert(rows[1..], r, tie);
      InsertMeaning(rows[1..], r, tie);
      assert rows == [rows[0]] + rows[1..];
      assert multiset(rows) == multiset{rows[0]} + multiset(rows[1..]);
      forall j | 0 <= j < |rest|
        ensures Before(rows[0], rest[j], tie)
      {
        assert rest[j] in multiset(rest);
        assert rest[j] == r || rest[j] in rows[1..];
      }
    }
  }

  lemma {:induction false} ArrangeMeaning(rows: seq<Share>, tie: seq<FarmerId>)
    ensures multiset(Arrange(rows, tie)) == multiset(rows)
    ensures InOrder(Arrange(rows, tie), tie) && Ascending(Arrange(rows, tie))
    ensures |Arrange(rows, tie)| == |rows|
  {
    if rows != [] {
      ArrangeMeaning(rows[1..], tie);
      InsertMeaning(Arrange(rows[1..], tie), rows[0], tie);
      assert rows == [rows[0]] + rows[1..];
    }
    assert |multiset(Arrange(rows, tie))| == |multiset(rows)|;
  }

  /** Rearranging rows keeps farmers distinct and keeps the total. */
  lemma SameRowsDistinct(a: seq<Share>, b: seq<Share>)
    requires multiset(a) == multiset(b) && DistinctFarmers(a)
    ensures DistinctFarmers(b)
  {
    forall i, j | 0 <= i < j < |b|
      ensures b[i].farmer != b[j].farmer
    {
      if b[i].farmer == b[j].farmer {
        assert b[i] in multiset(b) && b[j] in multiset(b);
        assert b[i] in a && b[j] in a;
        assert b[i] == b[j];
        TwiceInSeq(b, i, j);
        OnceInDistinct(a, b[i]);
      }
    }
  }

  lemma TwiceInSeq(b: seq<Share>, i: nat, j: nat)
    requires i < j < |b| && b[i] == b[j]
    ensures multiset(b)[b[i]] >= 2
  {
    assert b == b[..i] + [b[i]] + b[i + 1..j] + [b[j]] + b[j + 1..];
    assert multiset(b) == multiset(b[..i]) + multiset{b[i]} + multiset(b[i + 1..j]) + multiset{b[j]} + multiset(b[j + 1..]);
  }

  lemma {:induction false} OnceInDistinct(a: seq<Share>, r: Share)
    requires DistinctFarmers(a)
    ensures multiset(a)[r] <= 1
  {
    if a != [] {
      assert a == [a[0]] + a[1..];
      OnceInDistinct(a[1..], r);
      if a[0] == r {
        assert r !in a[1..];
        assert multiset(a[1..])[r] == 0;
      }
      assert multiset(a) == multiset{a[0]} + multiset(a[1..]);
    }
  }

  function Without(rows: seq<Share>, i: nat): seq<Share>
    requires i < |rows|
  {
    rows[..i] + rows[i + 1..]
  }

  /** The first row of one arrangement sits somewhere in the other; the rest are again the same rows. */
  lemma MatchFirst(a: seq<Share>, b: seq<Share>) returns (i: nat)
    requires multiset(a) == multiset(b) && a != []
    ensures i < |b| && b[i] == a[0] && multiset(Without(b, i)) == multiset(a[1..])
  {
    assert a == [a[0]] + a[1..];
    assert a[0] in multiset(b);
    i :| 0 <= i < |b| && b[i] == a[0];
    ghost var low, high := b[..i], b[i + 1..];
    assert b == low + ([b[i]] + high);
    assert multiset(b) == multiset(low) + (multiset{b[i]} + multiset(high));
    assert multiset(Without(b, i)) == multiset(low) + multiset(high);
    assert multiset(Without(b, i)) + multiset{b[i]} == multiset(b);
    assert multiset(a) == multiset(a[1..]) + multiset{a[0]};
    SameRest(multiset(Without(b, i)), multiset(a[1..]), a[0]);
  }

  lemma SameRest(m: multiset<Share>, n: multiset<Share>, r: Share)
    requires m + multiset{r} == n + multiset{r}
    ensures m == n
  {
    assert m == (m + multiset{r}) - multiset{r};
    assert n == (n + multiset{r}) - multiset{r};
  }

  lemma {:induction false} SameRowsSameSum(a: seq<Share>, b: seq<Share>)
    requires multiset(a) == multiset(b)
    ensures QtySum(a) == QtySum(b)
    decreases |a|
  {
    if a == [] {
      assert |multiset(b)| == 0;
    } else {
      var i := MatchFirst(a, b);
      SameRowsSameSum(a[1..], Without(b, i));
      QtySumTail(a);
      QtySumRemove(b, i);
    }
  }

  lemma {:induction false} QtySumRemove(b: seq<Share>, i: nat)
    requires i < |b|
    ensures QtySum(b) == b[i].qty + QtySum(Without(b, i))
  {
    QtySumTail(b);
    if i == 0 {
      assert Without(b, 0) == b[1..];
    } else {
      QtySumRemove(b[1..], i - 1);
      assert Without(b, i)[1..] == Without(b[1..], i - 1);
      QtySumTail(Without(b, i));
    }
  }

  /** The rows the share-out loop runs over: the summary, smallest contributor first. */
  function Ordered(cs: seq<Contribution>, tie: seq<FarmerId>): seq<Share> {
    Arrange(Grouped(cs), tie)
  }

  lemma OrderedMeaning(cs: seq<Contribution>, tie: seq<FarmerId>)
    ensures multiset(Ordered(cs, tie)) == multiset(Grouped(cs))
    ensures Ascending(Ordered(cs, tie)) && DistinctFarmers(Ordered(cs, tie))
    ensures QtySum(Ordered(cs, tie)) == ContributedQty(cs)
    ensures Ordered(cs, tie) == [] <==> cs == []
  {
    GroupedMeaning(cs);
    ArrangeMeaning(Grouped(cs), tie);
    SameRowsDistinct(Grouped(cs), Ordered(cs, tie));
    SameRowsSameSum(Grouped(cs), Ordered(cs, tie));
  }

  // ---------------------------------------------------------------------------------------------
  // The split
  // ---------------------------------------------------------------------------------------------

  /** floor(revenue * qty / totalQty) */
  function RoundDown(revenue: nat, qty: Qty, totalQty: Qty): (share: int)
    ensures 0 <= share
    ensures share * totalQty <= revenue * qty < (share + 1) * totalQty
  {
    FloorBounds(revenue * qty, totalQty);
    revenue * qty / totalQty
  }

  lemma FloorBounds(n: nat, d: Qty)
    ensures n / d * d <= n < (n / d + 1) * d
    ensures 0 <= n / d
  {
  }

  /** The round-down share of every row. */
  function Floors(rows: seq<Share>, revenue: nat, totalQty: Qty): (floors: seq<int>)
    ensures |floors| == |rows|
  {
    seq(|rows|, i requires 0 <= i < |rows| => RoundDown(revenue, rows[i].qty, totalQty))
  }

  function Amounts(rows: seq<Share>, revenue: nat): (amounts: seq<int>)
    requires rows != []
    ensures |amounts| == |rows|
  {
    var floors := Floors(rows[..|rows| - 1], revenue, QtySum(rows));
    floors + [revenue - AmountSum(floors)]
  }

  function PayoutRows(rows: seq<Share>, amounts: seq<int>): seq<PayoutRow>
    requires |amounts| <= |rows|
  {
    if amounts == [] then [] else
      PayoutRows(rows, amounts[..|amounts| - 1]) + [PayoutRow(rows[|amounts| - 1].farmer, amounts[|amounts| - 1])]
  }

  lemma Distribute(a: int, b: int, c: int)
    ensures (a + b) * c == a * c + b * c
    ensures c * (a + b) == c * a + c * b
  {
  }

  /** Each round-down loses less than one kobo. */
  lemma {:induction false} FloorSum(rows: seq<Share>, revenue: nat, totalQty: Qty)
    ensures AmountSum(Floors(rows, revenue, totalQty)) * totalQty <= revenue * QtySum(rows)
    ensures revenue * QtySum(rows) <= AmountSum(Floors(rows, revenue, totalQty)) * totalQty + |rows| * (totalQty - 1)
    ensures 0 <= AmountSum(Floors(rows, revenue, totalQty))
  {
    if rows != [] {
      var front, last := rows[..|rows| - 1], rows[|rows| - 1];
      var floors := Floors(rows, revenue, totalQty);
      var share := RoundDown(revenue, last.qty, totalQty);
      FloorSum(front, revenue, totalQty);
      assert floors[..|floors| - 1] == Floors(front, revenue, totalQty);
      Distribute(AmountSum(Floors(front, revenue, totalQty)), share, totalQty);
      Distribute(QtySum(front), last.qty, revenue);
      Distribute(|front|, 1, totalQty - 1);
      Distribute(share, 1, totalQty);
    }
  }

  lemma Remainder(revenue: int, given: int, front: int, last: int, q: Qty, slack: int)
    requires q == front + last
    requires given * q <= revenue * front <= given * q + slack
    ensures revenue * last <= (revenue - given) * q <= revenue * last + slack
    ensures 0 <= revenue && 0 <= last ==> 0 <= revenue * last
  {
    assert revenue * q == revenue * front + revenue * last by {
      Distribute(front, last, revenue);
    }
    Distribute(revenue, -given, q);
  }

  /** What the rows before the last were given. */
  lemma FrontShares(rows: seq<Share>, revenue: nat) returns (given: int, front: nat)
    requires rows != []
    ensures Amounts(rows, revenue)[|rows| - 1] == revenue - given
    ensures QtySum(rows) == front + rows[|rows| - 1].qty
    ensures given * QtySum(rows) <= revenue * front <= given * QtySum(rows) + (|rows| - 1) * (QtySum(rows) - 1)
  {
    given := AmountSum(Floors(rows[..|rows| - 1], revenue, QtySum(rows)));
    front := QtySum(rows[..|rows| - 1]);
    FloorSum(rows[..|rows| - 1], revenue, QtySum(rows));
  }

  /** What the last row is left with, against its exact proportion. */
  lemma LastShare(rows: seq<Share>, revenue: nat)
    requires rows != []
    ensures var n := |rows|; var last := Amounts(rows, revenue)[n - 1]; var q := QtySum(rows);
            && revenue * rows[n - 1].qty <= last * q <= revenue * rows[n - 1].qty + (n - 1) * (q - 1)
            && 0 <= last
  {
    hide QtySum, Amounts;
    var n, q := |rows|, QtySum(rows);
    var given, front := FrontShares(rows, revenue);
    Remainder(revenue, given, front, rows[n - 1].qty, q, (n - 1) * (q - 1));
    NegativeProduct(revenue - given, q);
  }

  /** What every row before the last gets, against its exact proportion. */
  lemma RoundedShare(rows: seq<Share>, revenue: nat, i: nat)
    requires i < |rows| - 1
    ensures var amount := Amounts(rows, revenue)[i]; var q := QtySum(rows);
            0 <= amount && amount * q <= revenue * rows[i].qty < (amount + 1) * q
  {
    assert Amounts(rows, revenue)[i] == RoundDown(revenue, rows[i].qty, QtySum(rows));
  }

  lemma NegativeProduct(a: int, q: Qty)
    ensures a < 0 ==> a * q < 0
  {
  }

  /** The exact meaning of the split, for any nonempty rows in any order: the amounts are not
      negative and sum to the revenue; every share but the last is the round-down of the exact
      proportion; the last one exceeds its exact proportion by less than one kobo per other row. */
  lemma SplitMeaning(rows: seq<Share>, revenue: nat)
    requires rows != []
    ensures var amounts := Amounts(rows, revenue); var n := |rows|; var q := QtySum(rows);
            && AmountSum(amounts) == revenue
            && (forall i :: 0 <= i < n ==> 0 <= amounts[i])
            && (forall i :: 0 <= i < n - 1 ==>
                  amounts[i] * q <= revenue * rows[i].qty < (amounts[i] + 1) * q)
            && revenue * rows[n - 1].qty <= amounts[n - 1] * q
               <= revenue * rows[n - 1].qty + (n - 1) * (q - 1)
  {
    var amounts := Amounts(rows, revenue);
    LastShare(rows, revenue);
    assert amounts[..|amounts| - 1] == Floors(rows[..|rows| - 1], revenue, QtySum(rows));
    forall i | 0 <= i < |rows| - 1 {
      RoundedShare(rows, revenue, i);
    }
  }

  /** The loop of calculate_and_create_payouts, over rows already in ascending order. */
  method SplitRevenue(rows: seq<Share>, revenue: nat) returns (payouts: seq<PayoutRow>)
    requires rows != []
    ensures payouts == PayoutRows(rows, Amounts(rows, revenue))
  {
    var totalQty := QtySum(rows);
    var n := |rows|;
    ghost var floors := Floors(rows[..n - 1], revenue, totalQty);
    payouts := [];
    var allotted := 0;
    for i := 0 to n
      invariant i < n ==> payouts == PayoutRows(rows, floors[..i]) && allotted == AmountSum(floors[..i])
      invariant i == n ==> payouts == PayoutRows(rows, Amounts(rows, revenue))
    {
      var amount;
      if i == n - 1 {
        amount := revenue - allotted;
        assert floors[..i] == floors;
        assert Amounts(rows, revenue)[..i] == floors;
      } else {
        amount := RoundDown(revenue, rows[i].qty, totalQty);
        allotted := allotted + amount;
        assert floors[..i + 1][..i] == floors[..i];
        assert amount == floors[i];
      }
      payouts := payouts + [PayoutRow(rows[i].farmer, amount)];
    }
  }

  lemma {:induction false} PayoutRowsMeaning(rows: seq<Share>, amounts: seq<int>)
    requires |amounts| <= |rows|
    ensures var ps := PayoutRows(rows, amounts);
            && |ps| == |amounts| && Paid(ps) == AmountSum(amounts)
            && forall i :: 0 <= i < |ps| ==> ps[i] == PayoutRow(rows[i].farmer, amounts[i])
  {
    if amounts != [] {
      PayoutRowsMeaning(rows, amounts[..|amounts| - 1]);
      var ps := PayoutRows(rows, amounts);
      assert ps[..|ps| - 1] == PayoutRows(rows, amounts[..|amounts| - 1]);
    }
  }

  // ---------------------------------------------------------------------------------------------
  // Who gets what
  // ---------------------------------------------------------------------------------------------

  /** One row for each contributing farmer and for nobody else, in ascending order of what they gave;
      the last is a largest contributor. */
  ghost predicate RowsOfContributors(cs: seq<Contribution>, rows: seq<PayoutRow>) {
    && rows != []
    && (forall f :: 0 < ContributedBy(cs, f) <==> exists i :: 0 <= i < |rows| && rows[i].farmer == f)
    && (forall i, j :: 0 <= i < j < |rows| ==>
          rows[i].farmer != rows[j].farmer && ContributedBy(cs, rows[i].farmer) <= ContributedBy(cs, rows[j].farmer))
    && (forall f :: ContributedBy(cs, f) <= ContributedBy(cs, rows[|rows| - 1].farmer))
  }

  /** The exact proportion of the revenue, rounded down. */
  predicate RoundedDown(amount: int, revenue: int, qty: int, totalQty: int) {
    0 <= amount && amount * totalQty <= revenue * qty < (amount + 1) * totalQty
  }

  /** At least the exact proportion, and less than one kobo more for each of the `others`. */
  predicate RoundedUp(amount: int, revenue: int, qty: int, totalQty: int, others: int) {
    0 <= amount && revenue * qty <= amount * totalQty <= revenue * qty + others * (totalQty - 1)
  }

  /** A share-out of `revenue` for these contributions: the rows of the contributors, each but the last
      rounded down, the last one with the remainder. */
  ghost predicate FairSplit(cs: seq<Contribution>, revenue: int, rows: seq<PayoutRow>) {
    && RowsOfContributors(cs, rows) && Paid(rows) == revenue
    && (forall i :: 0 <= i < |rows| - 1 ==>
          RoundedDown(rows[i].amount, revenue, ContributedBy(cs, rows[i].farmer), ContributedQty(cs)))
    && RoundedUp(rows[|rows| - 1].amount, revenue, ContributedBy(cs, rows[|rows| - 1].farmer), ContributedQty(cs), |rows| - 1)
  }

  lemma {:induction false} QtyOfRow(rows: seq<Share>, i: nat)
    requires DistinctFarmers(rows) && i < |rows|
    ensures QtyOf(rows, rows[i].farmer) == rows[i].qty
  {
    if i > 0 {
      assert rows[i] == rows[1..][i - 1];
      QtyOfRow(rows[1..], i - 1);
    }
  }

  lemma {:induction false} RowOf(rows: seq<Share>, f: FarmerId) returns (i: nat)
    requires 0 < QtyOf(rows, f)
    ensures i < |rows| && rows[i].farmer == f
  {
    if rows[0].farmer == f {
      i := 0;
    } else {
      i := RowOf(rows[1..], f);
      i := i + 1;
    }
  }

  lemma OrderedQty(cs: seq<Contribution>, tie: seq<FarmerId>, i: nat)
    requires i < |Ordered(cs, tie)|
    ensures ContributedBy(cs, Ordered(cs, tie)[i].farmer) == Ordered(cs, tie)[i].qty
  {
    var rows, grouped := Ordered(cs, tie), Grouped(cs);
    OrderedMeaning(cs, tie);
    GroupedMeaning(cs);
    assert rows[i] in multiset(rows);
    var k: nat :| k < |grouped| && grouped[k] == rows[i];
    QtyOfRow(grouped, k);
  }

  lemma ContributorHasRow(cs: seq<Contribution>, tie: seq<FarmerId>, f: FarmerId)
    requires 0 < ContributedBy(cs, f)
    ensures exists i :: 0 <= i < |Ordered(cs, tie)| && Ordered(cs, tie)[i].farmer == f
  {
    var rows, grouped := Ordered(cs, tie), Grouped(cs);
    OrderedMeaning(cs, tie);
    GroupedMeaning(cs);
    var k := RowOf(grouped, f);
    assert grouped[k] in multiset(grouped);
    assert grouped[k] in rows;
  }

  lemma SplitRounds(rows: seq<Share>, revenue: nat)
    requires rows != []
    ensures var amounts, n := Amounts(rows, revenue), |rows|;
            && (forall i :: 0 <= i < n - 1 ==> RoundedDown(amounts[i], revenue, rows[i].qty, QtySum(rows)))
            && RoundedUp(amounts[n - 1], revenue, rows[n - 1].qty, QtySum(rows), n - 1)
  {
    hide Amounts, QtySum;
    LastShareRounds(rows, revenue);
    hide RoundedDown, RoundedUp;
    forall i | 0 <= i < |rows| - 1
      ensures RoundedDown(Amounts(rows, revenue)[i], revenue, rows[i].qty, QtySum(rows))
    {
      RoundedShareRounds(rows, revenue, i);
    }
  }

  lemma LastShareRounds(rows: seq<Share>, revenue: nat)
    requires rows != []
    ensures var n := |rows|; RoundedUp(Amounts(rows, revenue)[n - 1], revenue, rows[n - 1].qty, QtySum(rows), n - 1)
  {
    LastShare(rows, revenue);
  }

  lemma RoundedShareRounds(rows: seq<Share>, revenue: nat, i: nat)
    requires i < |rows| - 1
    ensures RoundedDown(Amounts(rows, revenue)[i], revenue, rows[i].qty, QtySum(rows))
  {
    RoundedShare(rows, revenue, i);
  }

  /** The rows of the split are such a share-out. */
  lemma SplitIsFair(cs: seq<Contribution>, tie: seq<FarmerId>, revenue: nat)
    requires Ordered(cs, tie) != []
    ensures FairSplit(cs, revenue, PayoutRows(Ordered(cs, tie), Amounts(Ordered(cs, tie), revenue)))
  {
    var rows := Ordered(cs, tie);
    var payouts := PayoutRows(rows, Amounts(rows, revenue));
    OrderedMeaning(cs, tie);
    SplitMeaning(rows, revenue);
    SplitRounds(rows, revenue);
    PayoutRowsMeaning(rows, Amounts(rows, revenue));
    hide *;
    assert RowsOfContributors(cs, payouts) && forall i :: 0 <= i < |rows| ==> ContributedBy(cs, rows[i].farmer) == rows[i].qty by {
      RowsAreContributors(cs, tie, payouts);
    }
    FairRows(cs, revenue, rows, payouts);
  }

  lemma FairRows(cs: seq<Contribution>, revenue: int, rows: seq<Share>, payouts: seq<PayoutRow>)
    requires |payouts| == |rows| && RowsOfContributors(cs, payouts) && Paid(payouts) == revenue && QtySum(rows) == ContributedQty(cs)
    requires forall i :: 0 <= i < |rows| ==> payouts[i].farmer == rows[i].farmer && ContributedBy(cs, rows[i].farmer) == rows[i].qty
    requires forall i :: 0 <= i < |rows| - 1 ==> RoundedDown(payouts[i].amount, revenue, rows[i].qty, QtySum(rows))
    requires var n := |rows|; RoundedUp(payouts[n - 1].amount, revenue, rows[n - 1].qty, QtySum(rows), n - 1)
    ensures FairSplit(cs, revenue, payouts)
  {
    hide RoundedDown, RoundedUp, ContributedBy, ContributedQty, QtySum, Paid, RowsOfContributors;
  }

  lemma RowsAreContributors(cs: seq<Contribution>, tie: seq<FarmerId>, payouts: seq<PayoutRow>)
    requires var rows := Ordered(cs, tie);
             rows != [] && |payouts| == |rows| && forall i :: 0 <= i < |rows| ==> payouts[i].farmer == rows[i].farmer
    ensures RowsOfContributors(cs, payouts)
    ensures forall i :: 0 <= i < |Ordered(cs, tie)| ==> ContributedBy(cs, Ordered(cs, tie)[i].farmer) == Ordered(cs, tie)[i].qty
  {
    var rows := Ordered(cs, tie);
    OrderedMeaning(cs, tie);
    hide Ordered, ContributedBy, QtySum;
    forall i | 0 <= i < |rows|
      ensures ContributedBy(cs, rows[i].farmer) == rows[i].qty
    {
      OrderedQty(cs, tie, i);
    }
    forall f: FarmerId
      ensures 0 < ContributedBy(cs, f) <==> exists i :: 0 <= i < |payouts| && payouts[i].farmer == f
    {
      if 0 < ContributedBy(cs, f) {
        ContributorHasRow(cs, tie, f);
        var i :| 0 <= i < |rows| && rows[i].farmer == f;
        assert payouts[i].farmer == f;
      }
    }
    LastIsLargest(cs, rows);
  }

  lemma LastIsLargest(cs: seq<Contribution>, rows: seq<Share>)
    requires rows != [] && Ascending(rows)
    requires forall i :: 0 <= i < |rows| ==> ContributedBy(cs, rows[i].farmer) == rows[i].qty
    requires forall f :: 0 < ContributedBy(cs, f) ==> exists i :: 0 <= i < |rows| && rows[i].farmer == f
    ensures forall f :: ContributedBy(cs, f) <= ContributedBy(cs, rows[|rows| - 1].farmer)
  {
    hide ContributedBy;
    forall f: FarmerId
      ensures ContributedBy(cs, f) <= ContributedBy(cs, rows[|rows| - 1].farmer)
    {
      if 0 < ContributedBy(cs, f) {
        var i :| 0 <= i < |rows| && rows[i].farmer == f;
      }
    }
  }

  // ---------------------------------------------------------------------------------------------
  // Fairness
  // ---------------------------------------------------------------------------------------------

  /** A larger contribution never earns less, the remainder included. */
  lemma SplitMonotone(rows: seq<Share>, revenue: nat, i: nat, j: nat)
    requires Ascending(rows) && i < j < |rows|
    ensures Amounts(rows, revenue)[i] <= Amounts(rows, revenue)[j]
  {
    var n, q := |rows|, QtySum(rows);
    var x, y := Amounts(rows, revenue)[i], Amounts(rows, revenue)[j];
    SplitMeaning(rows, revenue);
    assert x * q <= revenue * rows[i].qty;
    assert revenue * rows[j].qty < (y + 1) * q by {
      Distribute(y, 1, q);
    }
    SmallerFactor(revenue, rows[i].qty, rows[j].qty);
    SmallerProduct(x, y + 1, q);
  }

  lemma SmallerFactor(r: nat, a: int, b: int)
    requires a <= b
    ensures r * a <= r * b
  {
  }

  lemma SmallerProduct(a: int, b: int, q: Qty)
    requires a * q < b * q
    ensures a < b
  {
  }

  /** Ascending arrangements of the same rows have the same quantities position by position. */
  lemma {:induction false} SameQuantities(a: seq<Share>, b: seq<Share>)
    requires multiset(a) == multiset(b) && Ascending(a) && Ascending(b)
    ensures |a| == |b| && forall i :: 0 <= i < |a| ==> a[i].qty == b[i].qty
  {
    assert |multiset(a)| == |a| && |multiset(b)| == |b|;
    forall i | 0 <= i < |a|
      ensures a[i].qty == b[i].qty
    {
      NotBelow(a, b, i);
      NotBelow(b, a, i);
    }
  }

  function CountBelow(rows: seq<Share>, q: int): nat {
    if rows == [] then 0 else CountBelow(rows[1..], q) + if rows[0].qty < q then 1 else 0
  }

  lemma {:induction false} CountBelowSame(a: seq<Share>, b: seq<Share>, q: int)
    requires multiset(a) == multiset(b)
    ensures CountBelow(a, q) == CountBelow(b, q)
    decreases |a|
  {
    if a == [] {
      assert |multiset(b)| == 0;
    } else {
      var i := MatchFirst(a, b);
      CountBelowSame(a[1..], Without(b, i), q);
      CountBelowRemove(b, i, q);
    }
  }

  lemma {:induction false} CountBelowRemove(b: seq<Share>, i: nat, q: int)
    requires i < |b|
    ensures CountBelow(b, q) == CountBelow(Without(b, i), q) + if b[i].qty < q then 1 else 0
  {
    if i == 0 {
      assert Without(b, 0) == b[1..];
    } else {
      CountBelowRemove(b[1..], i - 1, q);
      assert Without(b, i)[1..] == Without(b[1..], i - 1);
    }
  }

  lemma {:induction false} CountBelowSorted(rows: seq<Share>, q: int, i: nat)
    requires Ascending(rows) && i < |rows|
    ensures rows[i].qty < q ==> i < CountBelow(rows, q)
    ensures rows[i].qty >= q ==> CountBelow(rows, q) <= i
  {
    if i == 0 {
      if rows[0].qty >= q {
        NoneBelow(rows, q);
      }
    } else {
      CountBelowSorted(rows[1..], q, i - 1);
    }
  }

  lemma {:induction false} NoneBelow(rows: seq<Share>, q: int)
    requires forall i :: 0 <= i < |rows| ==> rows[i].qty >= q
    ensures CountBelow(rows, q) == 0
  {
    if rows != [] {
      NoneBelow(rows[1..], q);
    }
  }

  lemma NotBelow(a: seq<Share>, b: seq<Share>, i: nat)
    requires multiset(a) == multiset(b) && Ascending(a) && Ascending(b) && i < |a| == |b|
    ensures a[i].qty >= b[i].qty
  {
    CountBelowSame(a, b, b[i].qty);
    CountBelowSorted(a, b[i].qty, i);
    CountBelowSorted(b, b[i].qty, i);
  }

  lemma SameMembers(a: seq<Share>, b: seq<Share>)
    requires multiset(a) == multiset(b)
    ensures forall r :: r in a ==> r in b
  {
    forall r | r in a
      ensures r in b
    {
      assert r in multiset(b);
    }
  }

  lemma FairForOne(a: seq<Share>, b: seq<Share>, revenue: nat, i: nat, j: nat)
    requires multiset(a) == multiset(b) && Ascending(a) && Ascending(b) && DistinctFarmers(a)
    requires i < |a| == |b| && j < |b| && a[i].farmer == b[j].farmer
    ensures Amounts(a, revenue)[i] == Amounts(b, revenue)[j] || forall r :: r in a ==> r.qty <= a[i].qty
  {
    SameQuantities(a, b);
    SameRowsSameSum(a, b);
    assert b[j] in multiset(a);
    assert a[i] == b[j];
  }

  /** Two ascending arrangements of the same rows. */
  lemma FairBetween(a: seq<Share>, b: seq<Share>, revenue: nat)
    requires a != [] && multiset(a) == multiset(b) && Ascending(a) && Ascending(b) && DistinctFarmers(a)
    ensures |a| == |b| && Amounts(a, revenue) == Amounts(b, revenue)
    ensures forall i, j :: 0 <= i < |a| && 0 <= j < |b| && a[i].farmer == b[j].farmer ==>
              Amounts(a, revenue)[i] == Amounts(b, revenue)[j] || forall r :: r in a ==> r.qty <= a[i].qty
  {
    SameQuantities(a, b);
    SameRowsSameSum(a, b);
    assert Floors(a[..|a| - 1], revenue, QtySum(a)) == Floors(b[..|a| - 1], revenue, QtySum(a));
    forall i, j | 0 <= i < |a| && 0 <= j < |b| && a[i].farmer == b[j].farmer {
      FairForOne(a, b, revenue, i, j);
    }
  }

  /** Permuting the contributor rows, or breaking ties another way, gives the same amounts in the
      same positions. A farmer's own amount can change only if it is tied for the largest
      contribution. */
  lemma FairUnderReordering(rows: seq<Share>, permuted: seq<Share>, tie: seq<FarmerId>, tie': seq<FarmerId>, revenue: nat)
    requires rows != [] && DistinctFarmers(rows) && multiset(permuted) == multiset(rows)
    ensures var a, b := Arrange(rows, tie), Arrange(permuted, tie');
            && |a| == |b| == |rows|
            && Amounts(a, revenue) == Amounts(b, revenue)
            && forall i, j :: 0 <= i < |a| && 0 <= j < |b| && a[i].farmer == b[j].farmer ==>
                 Amounts(a, revenue)[i] == Amounts(b, revenue)[j]
                 || forall r :: r in rows ==> r.qty <= a[i].qty
  {
    var a, b := Arrange(rows, tie), Arrange(permuted, tie');
    ArrangeMeaning(rows, tie);
    ArrangeMeaning(permuted, tie');
    SameRowsDistinct(rows, a);
    SameMembers(rows, a);
    FairBetween(a, b, revenue);
  }

  /** Every way the database can order equal sums is reached by some `tie`: any ascending
      arrangement of the summary rows is what the sort produces for the tie order it lists. */
  lemma EveryTieOrderArises(rows: seq<Share>, arrangement: seq<Share>)
    requires DistinctFarmers(rows) && multiset(arrangement) == multiset(rows) && Ascending(arrangement)
    ensures Arrange(rows, Farmers(arrangement)) == arrangement
  {
    var tie := Farmers(arrangement);
    ArrangeMeaning(rows, tie);
    SameRowsDistinct(rows, arrangement);
    forall i, j | 0 <= i < j < |arrangement|
      ensures Before(arrangement[i], arrangement[j], tie)
    {
      PosOf(arrangement, i);
      PosOf(arrangement, j);
    }
    forall x, y | x in arrangement && y in arrangement && Pos(tie, x.farmer) == Pos(tie, y.farmer)
      ensures x == y
    {
      SamePosition(arrangement, x, y);
    }
    OneSortedOrder(Arrange(rows, tie), arrangement, tie);
  }

  function Farmers(rows: seq<Share>): seq<FarmerId> {
    if rows == [] then [] else [rows[0].farmer] + Farmers(rows[1..])
  }

  lemma {:induction false} PosOf(rows: seq<Share>, i: nat)
    requires i < |rows| && DistinctFarmers(rows)
    ensures Pos(Farmers(rows), rows[i].farmer) == i
  {
    if i > 0 {
      assert rows[0].farmer != rows[i].farmer;
      PosOf(rows[1..], i - 1);
      assert Farmers(rows)[1..] == Farmers(rows[1..]);
    }
  }

  lemma {:induction false} SamePosition(rows: seq<Share>, a: Share, b: Share)
    requires DistinctFarmers(rows) && a in rows && b in rows
    requires Pos(Farmers(rows), a.farmer) == Pos(Farmers(rows), b.farmer)
    ensures a == b
  {
    var i :| 0 <= i < |rows| && rows[i] == a;
    var j :| 0 <= j < |rows| && rows[j] == b;
    PosOf(rows, i);
    PosOf(rows, j);
  }

  lemma FirstIsLeast(a: seq<Share>, b: seq<Share>, tie: seq<FarmerId>)
    requires multiset(a) == multiset(b) && InOrder(a, tie) && a != [] && b != []
    ensures Before(a[0], b[0], tie)
  {
    assert b[0] in multiset(a);
  }

  lemma {:induction false} OneSortedOrder(a: seq<Share>, b: seq<Share>, tie: seq<FarmerId>)
    requires multiset(a) == multiset(b) && InOrder(a, tie) && InOrder(b, tie)
    requires forall x, y :: x in b && y in b && Pos(tie, x.farmer) == Pos(tie, y.farmer) ==> x == y
    ensures a == b
    decreases |a|
  {
    assert |multiset(a)| == |a| && |multiset(b)| == |b|;
    if a != [] {
      FirstIsLeast(a, b, tie);
      FirstIsLeast(b, a, tie);
      assert a[0] in multiset(b);
      assert a == [a[0]] + a[1..] && b == [b[0]] + b[1..];
      assert multiset(a[1..]) == multiset(a) - multiset{a[0]};
      assert multiset(b[1..]) == multiset(b) - multiset{b[0]};
      OneSortedOrder(a[1..], b[1..], tie);
    }
  }
}
