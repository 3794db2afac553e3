/**
 * The two aggregates the admin screens compute over lists of orders:
 * `orders.filter(o => o.status === s).length` and
 * `orders.reduce((sum, o) => sum + (o.service_fee || 0), 0)`.
 */
module OrderStats {
  import opened Seqs
  import opened Schema

  function StatusIs(s: OrderStatus): OrderRow -> bool {
    (o: OrderRow) => o.status == s
  }

  /** The number of orders with status `s`. */
  function CountStatus(orders: seq<OrderRow>, s: OrderStatus): (n: nat)
    ensures n <= |orders|
  {
    |Filter(orders, StatusIs(s))|
  }

  /**
   * The count as the dashboard reads it, one order at a time: no orders
   * count 0, and each further order adds 1 exactly when it has status `s`.
   */
  lemma {:induction false} CountStatusSnoc(a: seq<OrderRow>, o: OrderRow, s: OrderStatus)
    ensures CountStatus([], s) == 0
    ensures CountStatus(a + [o], s) == CountStatus(a, s) + (if o.status == s then 1 else 0)
  {
    FilterLengthAppend(a, [o], StatusIs(s));
    assert [o][1..] == [];
    assert Filter([o], StatusIs(s)) == (if o.status == s then [o] else []) + Filter([o][1..], StatusIs(s));
  }

  /** `o.service_fee || 0`. */
  function FeeOf(o: OrderRow): int {
    o.serviceFee.GetOr(0)
  }

  /** The `reduce`: a left fold, so the last order is added last. */
  function FeeTotal(orders: seq<OrderRow>): int {
    if orders == [] then 0 else FeeTotal(orders[..|orders| - 1]) + FeeOf(orders[|orders| - 1])
  }

  /** The same sum taken from the front, as a reference. */
  function FeeSum(orders: seq<OrderRow>): int {
    if orders == [] then 0 else FeeOf(orders[0]) + FeeSum(orders[1..])
  }

  /** The sum over a concatenation is the sum of the sums. */
  lemma {:induction false} FeeSumAppend(a: seq<OrderRow>, b: seq<OrderRow>)
    ensures FeeSum(a + b) == FeeSum(a) + FeeSum(b)
  {
    if a == [] {
      assert a + b == b;
    } else {
      assert (a + b)[0] == a[0];
      assert (a + b)[1..] == a[1..] + b;
      FeeSumAppend(a[1..], b);
    }
  }

  /** The left fold equals the reference sum, so the order of the list does not matter to it. */
  lemma {:induction false} FeeTotalIsSum(orders: seq<OrderRow>)
    ensures FeeTotal(orders) == FeeSum(orders)
  {
    if orders != [] {
      var init := orders[..|orders| - 1];
      var last := orders[|orders| - 1];
      FeeTotalIsSum(init);
      assert orders == init + [last];
      FeeSumAppend(init, [last]);
      assert FeeSum([last]) == FeeOf(last) + FeeSum([]);
    }
  }

  /** Taking one row out of a list takes its fee out of the sum. */
  lemma {:induction false} FeeSumRemove(b: seq<OrderRow>, j: nat)
    requires j < |b|
    ensures FeeSum(b) == FeeSum(b[..j] + b[j + 1..]) + FeeOf(b[j])
  {
    var pre, post := b[..j], b[j + 1..];
    var tail := [b[j]] + post;
    assert tail[0] == b[j] && tail[1..] == post;
    assert FeeSum(tail) == FeeOf(b[j]) + FeeSum(post);
    assert b == pre + tail;
    FeeSumAppend(pre, tail);
    FeeSumAppend(pre, post);
  }

  /** The fee sum does not depend on the order of the rows. */
  lemma {:induction false} FeeSumPermutation(a: seq<OrderRow>, b: seq<OrderRow>)
    requires multiset(a) == multiset(b)
    ensures FeeSum(a) == FeeSum(b)
    decreases |a|
  {
    if a == [] {
      assert |multiset(b)| == 0;
    } else {
      var j := PermutationHead(a, b);
      FeeSumPermutation(a[1..], b[..j] + b[j + 1..]);
      FeeSumRemove(b, j);
    }
  }

  /** Neither do the dashboard's aggregates: the `reduce` total and every status count. */
  lemma OrderIrrelevant(a: seq<OrderRow>, b: seq<OrderRow>, s: OrderStatus)
    requires multiset(a) == multiset(b)
    ensures FeeTotal(a) == FeeTotal(b)
    ensures CountStatus(a, s) == CountStatus(b, s)
  {
    FeeTotalIsSum(a);
    FeeTotalIsSum(b);
    FeeSumPermutation(a, b);
    FilterLengthPermutation(a, b, StatusIs(s));
  }

  /** Fees that are never negative give a total that is not negative either. */
  lemma {:induction false} FeeTotalNonNegative(orders: seq<OrderRow>)
    requires forall i :: 0 <= i < |orders| ==> orders[i].serviceFee.GetOr(0) >= 0
    ensures FeeTotal(orders) >= 0
  {
    if orders != [] {
      FeeTotalNonNegative(orders[..|orders| - 1]);
    }
  }

  /** Orders without a fee add nothing. */
  lemma {:induction false} FeeTotalNoFees(orders: seq<OrderRow>)
    requires forall i :: 0 <= i < |orders| ==> orders[i].serviceFee.None?
    ensures FeeTotal(orders) == 0
  {
    if orders != [] {
      FeeTotalNoFees(orders[..|orders| - 1]);
    }
  }

  function StatusIsEither(a: OrderStatus, b: OrderStatus): OrderRow -> bool {
    (o: OrderRow) => o.status == a || o.status == b
  }

  function StatusIsOneOf(a: OrderStatus, b: OrderStatus, c: OrderStatus): OrderRow -> bool {
    (o: OrderRow) => o.status == a || o.status == b || o.status == c
  }

  /** Orders with one of two distinct statuses are counted by the two counts together. */
  lemma CountEither(orders: seq<OrderRow>, a: OrderStatus, b: OrderStatus)
    requires a != b
    ensures CountStatus(orders, a) + CountStatus(orders, b) == |Filter(orders, StatusIsEither(a, b))|
  {
    FilterDisjoint(orders, StatusIs(a), StatusIs(b), StatusIsEither(a, b));
  }

  /** Adding a third distinct status to a pair. */
  lemma CountOneOf(orders: seq<OrderRow>, a: OrderStatus, b: OrderStatus, c: OrderStatus)
    requires a != c && b != c
    ensures |Filter(orders, StatusIsEither(a, b))| + CountStatus(orders, c) == |Filter(orders, StatusIsOneOf(a, b, c))|
  {
    FilterDisjoint(orders, StatusIsEither(a, b), StatusIs(c), StatusIsOneOf(a, b, c));
  }

  /** The counts of three distinct statuses add up to at most the number of orders. */
  lemma CountThreeStatuses(orders: seq<OrderRow>, a: OrderStatus, b: OrderStatus, c: OrderStatus)
    requires a != b && b != c && a != c
    ensures CountStatus(orders, a) + CountStatus(orders, b) + CountStatus(orders, c) <= |orders|
  {
    CountEither(orders, a, b);
    CountOneOf(orders, a, b, c);
  }
}
