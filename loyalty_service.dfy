/** LoyaltyService of marketing/services.py: stamps earned on paid meals,
    converted eight at a time into free-item vouchers, and the redemption of
    such a voucher against an order. */
module LoyaltyService {
  import opened Common
  import opened OrderModels
  import opened MarketingModels
  import opened Db

  const VOUCHER_MAX_VALUE: Cents := 200000
  const VOUCHER_DAYS_VALID: int := 30

  /** Stamps left over and vouchers earned. */
  datatype Accrual = Accrual(stamps: nat, vouchers: nat)

  /** Adding `meals` stamps and converting every full card: what is left is
      below a card, and no stamp is lost or made up. */
  function Accrue(stamps: nat, meals: nat): (r: Accrual)
    ensures r.stamps < STAMPS_TARGET
    ensures r.stamps + STAMPS_TARGET * r.vouchers == stamps + meals
  {
    Accrual((stamps + meals) % STAMPS_TARGET, (stamps + meals) / STAMPS_TARGET)
  }

  /** The two facts of `Accrue`'s contract pin its result down: any split of
      the stamps into fewer than a card plus whole cards is that one. */
  lemma AccrualUnique(total: nat, stamps: nat, vouchers: nat)
    requires stamps < STAMPS_TARGET && stamps + STAMPS_TARGET * vouchers == total
    ensures Accrue(total, 0) == Accrual(stamps, vouchers)
  {
    var a := Accrue(total, 0);
    assert STAMPS_TARGET * (a.vouchers - vouchers) == stamps - a.stamps;
  }

  /** Two paid saves in a row earn the vouchers of one save of all the
      meals: the accrual composes. */
  lemma AccrueTwice(stamps: nat, m1: nat, m2: nat)
    ensures
      var a := Accrue(stamps, m1);
      var b := Accrue(a.stamps, m2);
      && b.stamps == Accrue(stamps, m1 + m2).stamps
      && a.vouchers + b.vouchers == Accrue(stamps, m1 + m2).vouchers
  {
    var a := Accrue(stamps, m1);
    var b := Accrue(a.stamps, m2);
    assert b.stamps + STAMPS_TARGET * (a.vouchers + b.vouchers) == stamps + m1 + m2;
    AccrualUnique(stamps + m1 + m2, b.stamps, a.vouchers + b.vouchers);
  }

  /** `on_order_paid` has no guard against being run twice for the same
      order: a second PAID save of an order with a full card's worth of
      meals issues at least one more voucher. */
  lemma RepeatedPaidSaveMintsAgain(stamps: nat, meals: nat)
    requires meals >= STAMPS_TARGET
    ensures Accrue(Accrue(stamps, meals).stamps, meals).vouchers >= 1
  {
  }

  /** The voucher `on_order_paid` creates. */
  function PaidVoucher(user: UserId, now: Time): (v: FreeItemVoucher)
    ensures v.status == Available && v.user == user && v.maxItemValue == VOUCHER_MAX_VALUE
    ensures v.expiresAt == now + VOUCHER_DAYS_VALID * DAY
  {
    NewVoucher(user, VOUCHER_MAX_VALUE, now + VOUCHER_DAYS_VALID * DAY, now)
  }

  function StampsOf(accounts: map<UserId, LoyaltyAccount>, user: UserId): nat
  {
    if user in accounts then accounts[user].stamps else 0
  }

  /** `on_order_paid`: for a PAID order, the buyer's account (created if
      missing) gains one stamp per meal, then every full card of eight is
      taken off and turned into a voucher worth up to 2000.00 valid for
      thirty days. A guest order cannot own an account: the insert fails and
      nothing is written (`ok` is false). */
  method OnOrderPaid(db: Store, order: Order, now: Time) returns (ok: bool)
    requires db.Valid()
    modifies db`accounts, db`vouchers
    ensures db.Valid()
    ensures ok <==> order.status != Paid || order.user.Some?
    ensures order.status != Paid || order.user.None? ==>
      db.accounts == old(db.accounts) && db.vouchers == old(db.vouchers)
    ensures order.status == Paid && order.user.Some? ==>
      var u := order.user.value;
      var a := Accrue(StampsOf(old(db.accounts), u), CountMeals(order.items));
      && db.accounts == old(db.accounts)[u := LoyaltyAccount(a.stamps, now)]
      && db.vouchers == old(db.vouchers) + Repeat(PaidVoucher(u, now), a.vouchers)
  {
    if order.status != Paid {
      return true;
    }
    if order.user.None? {
      return false;
    }
    var u := order.user.value;
    var before := StampsOf(db.accounts, u);
    var meals := CountMeals(order.items);
    var stamps: nat := before + meals;
    db.accounts := db.accounts[u := LoyaltyAccount(stamps, now)];
    var issued: nat := 0;
    while stamps >= STAMPS_TARGET
      invariant stamps + STAMPS_TARGET * issued == before + meals
      invariant db.accounts == old(db.accounts)[u := LoyaltyAccount(stamps, now)]
      invariant db.vouchers == old(db.vouchers) + Repeat(PaidVoucher(u, now), issued)
      decreases stamps
    {
      stamps := stamps - STAMPS_TARGET;
      db.accounts := db.accounts[u := LoyaltyAccount(stamps, now)];
      db.vouchers := db.vouchers + [PaidVoucher(u, now)];
      issued := issued + 1;
    }
    AccrualUnique(before + meals, stamps, issued);
    ok := true;
  }

  datatype VoucherReason = VoucherNotFound | VoucherNotAvailable | VoucherExpired | EmptyOrder

  datatype VoucherResult = VoucherOk(discount: Cents) | VoucherFailed(reason: VoucherReason)

  /** The lowest unit price on a non-empty list of lines. */
  function MinUnitPrice(items: seq<OrderItem>): (r: Cents)
    requires |items| > 0
    ensures exists i | 0 <= i < |items| :: items[i].unitPrice == r
    ensures forall i | 0 <= i < |items| :: r <= items[i].unitPrice
  {
    if |items| == 1 then items[0].unitPrice
    else
      var rest := MinUnitPrice(items[1..]);
      assert forall i | 1 <= i < |items| :: items[i] == items[1..][i - 1];
      if items[0].unitPrice <= rest then items[0].unitPrice else rest
  }

  /** Every voucher keeps its status or makes a permitted step. */
  predicate VoucherStepsOnly(before: seq<FreeItemVoucher>, after: seq<FreeItemVoucher>)
  {
    |before| == |after| && forall i | 0 <= i < |before| :: VoucherStep(before[i].status, after[i].status)
  }

  /** `redeem_voucher`: the voucher must exist and belong to the user, be
      AVAILABLE, and not have reached its expiry (an expired one is marked
      EXPIRED on the way out), and the order must have a line; checked in
      that order. On success the cheapest line, up to the voucher's value,
      is added to the order's discount, the total is recomputed and the
      voucher becomes USED on that order. */
  method RedeemVoucher(db: Store, user: UserId, orderId: OrderId, voucherId: nat, now: Time) returns (res: VoucherResult)
    requires db.Valid() && orderId in db.orders
    modifies db`orders, db`vouchers
    ensures db.Valid()
    ensures VoucherStepsOnly(old(db.vouchers), db.vouchers)
    ensures
      var vs := old(db.vouchers);
      var o := old(db.orders)[orderId];
      && (!(voucherId < |vs| && vs[voucherId].user == user) ==> res == VoucherFailed(VoucherNotFound))
      && (voucherId < |vs| && vs[voucherId].user == user ==>
            && (vs[voucherId].status != Available ==> res == VoucherFailed(VoucherNotAvailable))
            && (vs[voucherId].status == Available && vs[voucherId].expiresAt <= now ==>
                  && res == VoucherFailed(VoucherExpired)
                  && db.vouchers == vs[voucherId := vs[voucherId].(status := Expired)])
            && (vs[voucherId].status == Available && now < vs[voucherId].expiresAt && |o.items| == 0 ==>
                  res == VoucherFailed(EmptyOrder))
            && (vs[voucherId].status == Available && now < vs[voucherId].expiresAt && |o.items| > 0 ==>
                  var d := Min(MinUnitPrice(o.items), vs[voucherId].maxItemValue);
                  && res == VoucherOk(d)
                  && db.orders == old(db.orders)[orderId := o.(discountTotal := o.discountTotal + d,
                                                                total := Max0(o.subtotal - (o.discountTotal + d)))]
                  && db.vouchers == vs[voucherId := vs[voucherId].(status := Used, usedOrder := Some(orderId))]))
    ensures res.VoucherFailed? ==> db.orders == old(db.orders)
    ensures res.VoucherFailed? && res.reason != VoucherExpired ==> db.vouchers == old(db.vouchers)
    ensures res.VoucherOk? ==> db.orders[orderId].total >= 0 && TotalConsistent(db.orders[orderId])
  {
    if !(voucherId < |db.vouchers| && db.vouchers[voucherId].user == user) {
      return VoucherFailed(VoucherNotFound);
    }
    var v := db.vouchers[voucherId];
    if v.status != Available {
      return VoucherFailed(VoucherNotAvailable);
    }
    if v.expiresAt <= now {
      db.vouchers := db.vouchers[voucherId := v.(status := Expired)];
      return VoucherFailed(VoucherExpired);
    }
    var o := db.orders[orderId];
    if |o.items| == 0 {
      return VoucherFailed(EmptyOrder);
    }
    var d := Min(MinUnitPrice(o.items), v.maxItemValue);
    var discount := o.discountTotal + d;
    db.orders := db.orders[orderId := o.(discountTotal := discount, total := Max0(o.subtotal - discount))];
    db.vouchers := db.vouchers[voucherId := v.(status := Used, usedOrder := Some(orderId))];
    res := VoucherOk(d);
  }
}
