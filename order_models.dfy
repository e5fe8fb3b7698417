/** Orders and their lines (orders/models.py), with the order fields the
    pricing services write. */
module OrderModels {
  import opened Common

  type OrderId = nat

  /** The four status choices of an order, plus `Paid`: the literal "PAID"
      that the marketing services and the paid-order signal test for. A
      Django `choices` list is not enforced when a status is saved. */
  datatype OrderStatus = Pending | Confirmed | Canceled | Delivered | Paid

  const DEFAULT_STATUS: OrderStatus := Pending

  /** One order line: the meal ordered, how many, and the unit price
      captured when the line was created. */
  datatype OrderItem = OrderItem(meal: nat, quantity: nat, unitPrice: Cents)
  {
    /** `quantity * unit_price` */
    function Subtotal(): (r: Cents)
      ensures unitPrice >= 0 ==> r >= 0
      ensures quantity == 0 ==> r == 0
    {
      quantity * unitPrice
    }
  }

  datatype Order = Order(
    user: Option<UserId>,
    items: seq<OrderItem>,
    subtotal: Cents,
    discountTotal: Cents,
    total: Cents,
    promoCode: Option<string>,
    status: OrderStatus,
    paidAt: Option<Time>)

  /** The orders app's own voucher: one free meal, used or not. */
  datatype FreeMealVoucher = FreeMealVoucher(user: UserId, isUsed: bool, usedOrder: Option<OrderId>, createdAt: Time)

  /** A new, empty order: every amount 0.00, no promo, status pending. */
  function NewOrder(user: Option<UserId>): (o: Order)
    ensures o.status == Pending && o.items == [] && o.promoCode == None
    ensures o.subtotal == 0 && o.discountTotal == 0 && o.total == 0
    ensures TotalConsistent(o)
  {
    Order(user, [], 0, 0, 0, None, DEFAULT_STATUS, None)
  }

  /** The order invariant: the payable total is the subtotal less the
      discounts, never below zero. */
  predicate TotalConsistent(o: Order)
  {
    o.total == Max0(o.subtotal - o.discountTotal)
  }

  /** The sum of the line subtotals, summed from the first line to the last. */
  function ItemsSubtotal(items: seq<OrderItem>): Cents
  {
    if |items| == 0 then 0
    else ItemsSubtotal(items[..|items| - 1]) + items[|items| - 1].Subtotal()
  }

  /** The number of meals on the lines of an order: the sum of their quantities. */
  function CountMeals(items: seq<OrderItem>): (r: nat)
    ensures r == 0 <==> forall i | 0 <= i < |items| :: items[i].quantity == 0
  {
    if |items| == 0 then 0
    else CountMeals(items[..|items| - 1]) + items[|items| - 1].quantity
  }

  lemma {:induction false} ItemsSubtotalAppend(a: seq<OrderItem>, b: seq<OrderItem>)
    ensures ItemsSubtotal(a + b) == ItemsSubtotal(a) + ItemsSubtotal(b)
    decreases |b|
  {
    if |b| == 0 {
      assert a + b == a;
    } else {
      var b' := b[..|b| - 1];
      assert (a + b)[..|a + b| - 1] == a + b';
      ItemsSubtotalAppend(a, b');
    }
  }

  lemma {:induction false} ItemsSubtotalNonNegative(items: seq<OrderItem>)
    requires forall i | 0 <= i < |items| :: items[i].unitPrice >= 0
    ensures ItemsSubtotal(items) >= 0
    decreases |items|
  {
    if |items| > 0 {
      ItemsSubtotalNonNegative(items[..|items| - 1]);
    }
  }

  lemma {:induction false} CountMealsAppend(a: seq<OrderItem>, b: seq<OrderItem>)
    ensures CountMeals(a + b) == CountMeals(a) + CountMeals(b)
    decreases |b|
  {
    if |b| == 0 {
      assert a + b == a;
    } else {
      var b' := b[..|b| - 1];
      assert (a + b)[..|a + b| - 1] == a + b';
      CountMealsAppend(a, b');
    }
  }

  /** `recompute_subtotal`: add up the line subtotals one by one, store the
      sum as the subtotal and the clamped difference as the total. The
      discount, like every other field, is left as it was. */
  method RecomputeSubtotal(o: Order) returns (r: Order)
    ensures r.subtotal == ItemsSubtotal(o.items)
    ensures r.total == Max0(r.subtotal - o.discountTotal)
    ensures TotalConsistent(r) && r.total >= 0
    ensures r == o.(subtotal := r.subtotal, total := r.total)
  {
    var sub := 0;
    var i := 0;
    while i < |o.items|
      invariant 0 <= i <= |o.items|
      invariant sub == ItemsSubtotal(o.items[..i])
    {
      assert o.items[..i + 1][..i] == o.items[..i];
      sub := sub + o.items[i].Subtotal();
      i := i + 1;
    }
    assert o.items[..i] == o.items;
    r := o.(subtotal := sub, total := Max0(sub - o.discountTotal));
  }
}
