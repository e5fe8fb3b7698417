/** PromoService of marketing/services.py: deciding whether a promotion
    applies to an order, what it takes off, and recording it on the order. */
module PromoService {
  import opened Common
  import opened Text
  import opened OrderModels
  import opened MarketingModels
  import opened Db

  datatype PromoReason =
    | PromoNotFound
    | PromoInactive
    | NotEligible
    | MinOrderNotMet
    | PromoLimitReached
    | UserLimitReached

  /** `PromoResult`: either the promotion applies, with its discount, or it
      does not, for a reason. */
  datatype PromoResult = PromoOk(discount: Cents) | PromoFailed(reason: PromoReason)

  /** A promotion amount in cents times a percentage in hundredths, over
      100 * 100, is the discount in cents before quantization. */
  const PERCENT_SCALE: int := 10000

  /** `_user_segment_ok`. NEW: the user has no PAID order. INACTIVE_30D: the
      user's last PAID order, if it has a payment time, was at least 30 whole
      days before `now`. Orders without a payment time are passed over. A
      user eligible for NEW has no payment time, so INACTIVE_30D admits them
      too, as the source does when there is no last order. */
  predicate UserSegmentOk(orders: map<OrderId, Order>, user: UserId, segment: Segment, now: Time)
    ensures segment == AllUsers ==> UserSegmentOk(orders, user, segment, now)
    ensures segment == NewUsers && UserSegmentOk(orders, user, segment, now) ==> PaidTimes(orders, user) == {}
  {
    match segment
    case AllUsers => true
    case NewUsers => !HasPaidOrder(orders, user)
    case Inactive30Days => forall t | t in PaidTimes(orders, user) :: (now - t) / DAY >= 30
  }

  /** The INACTIVE_30D test is decided by the most recent payment alone, as
      the query ordered by `-paid_at` in the source takes it. */
  lemma Inactive30DecidedByLast(orders: map<OrderId, Order>, user: UserId, now: Time, last: Time)
    requires last in PaidTimes(orders, user)
    requires forall t | t in PaidTimes(orders, user) :: t <= last
    ensures UserSegmentOk(orders, user, Inactive30Days, now) <==> (now - last) / DAY >= 30
    ensures UserSegmentOk(orders, user, Inactive30Days, now) <==> now - last >= 30 * DAY
  {
    ThirtyDays(now - last);
    if (now - last) / DAY >= 30 {
      forall t | t in PaidTimes(orders, user) ensures (now - t) / DAY >= 30 {
        DaysMonotone(now - last, now - t);
      }
    }
  }

  lemma DaysMonotone(a: int, b: int)
    requires a <= b
    ensures a / DAY <= b / DAY
  {
  }

  /** `timedelta.days >= 30` on a difference of whole seconds is the same as
      the difference being at least 30 * 86400 seconds. */
  lemma ThirtyDays(delta: int)
    ensures delta / DAY >= 30 <==> delta >= 30 * DAY
  {
  }

  /** The discount before any clamp: PERCENT takes `value` percent of the base
      quantized to 0.01 (Decimal's default ROUND_HALF_EVEN), FIXED_AMOUNT is
      `value`, FREE_ITEM is nothing. */
  function RawDiscount(p: Promotion, base: Cents): (d: Cents)
    ensures p.promoType == FreeItem ==> d == 0
    ensures p.promoType == FixedAmount ==> d == p.value
    ensures p.promoType == Percent ==> -PERCENT_SCALE <= 2 * (base * p.value - d * PERCENT_SCALE) <= PERCENT_SCALE
    ensures p.promoType == Percent && base >= 0 && p.value >= 0 ==> d >= 0
  {
    match p.promoType
    case Percent => RoundHalfEven(base * p.value, PERCENT_SCALE)
    case FixedAmount => p.value
    case FreeItem => 0
  }

  /** `min(d, max_discount_amount)` when a cap is set, then `min(d, base)`. */
  function ClampDiscount(p: Promotion, d: Cents, base: Cents): (r: Cents)
    ensures r <= base
    ensures p.maxDiscountAmount.Some? ==> r <= p.maxDiscountAmount.value
    ensures r == d || r == base || (p.maxDiscountAmount.Some? && r == p.maxDiscountAmount.value)
    ensures d <= base && (p.maxDiscountAmount.Some? ==> d <= p.maxDiscountAmount.value) ==> r == d
    ensures d >= 0 && base >= 0 && (p.maxDiscountAmount.Some? ==> p.maxDiscountAmount.value >= 0) ==> r >= 0
  {
    var capped := if p.maxDiscountAmount.Some? then Min(d, p.maxDiscountAmount.value) else d;
    Min(capped, base)
  }

  /** Whether the minimum-order rule rejects `base`: only a set, non-zero
      minimum is checked (a zero Decimal is false in Python). */
  predicate BelowMinimum(p: Promotion, base: Cents)
  {
    p.minOrderAmount.Some? && p.minOrderAmount.value != 0 && base < p.minOrderAmount.value
  }

  /** The checks of `estimate_discount`, against the amount `base` the rules
      are applied to, with the segment verdict and the two APPLIED counts
      already queried. The first failing check decides the reason. */
  function Evaluate(p: Promotion, base: Cents, segmentOk: bool, usedTotal: nat, usedByUser: nat, now: Time): (r: PromoResult)
    ensures r == PromoFailed(PromoInactive) <==> !IsCurrentlyValid(p, now)
    ensures r == PromoFailed(NotEligible) <==> IsCurrentlyValid(p, now) && !segmentOk
    ensures r == PromoFailed(MinOrderNotMet) <==> IsCurrentlyValid(p, now) && segmentOk && BelowMinimum(p, base)
    ensures r == PromoFailed(PromoLimitReached) <==>
      && IsCurrentlyValid(p, now) && segmentOk && !BelowMinimum(p, base)
      && p.usageLimitTotal.Some? && usedTotal >= p.usageLimitTotal.value
    ensures r == PromoFailed(UserLimitReached) <==>
      && IsCurrentlyValid(p, now) && segmentOk && !BelowMinimum(p, base)
      && !(p.usageLimitTotal.Some? && usedTotal >= p.usageLimitTotal.value)
      && p.usageLimitPerUser.Some? && usedByUser >= p.usageLimitPerUser.value
    ensures r != PromoFailed(PromoNotFound)
    ensures r.PromoOk? ==> r.discount == ClampDiscount(p, RawDiscount(p, base), base)
  {
    if !IsCurrentlyValid(p, now) then PromoFailed(PromoInactive)
    else if !segmentOk then PromoFailed(NotEligible)
    else if BelowMinimum(p, base) then PromoFailed(MinOrderNotMet)
    else if p.usageLimitTotal.Some? && usedTotal >= p.usageLimitTotal.value then PromoFailed(PromoLimitReached)
    else if p.usageLimitPerUser.Some? && usedByUser >= p.usageLimitPerUser.value then PromoFailed(UserLimitReached)
    else PromoOk(ClampDiscount(p, RawDiscount(p, base), base))
  }

  /** `estimate_discount` as written: every amount rule is applied to the
      order's current total (`order.total_amount`). */
  function EstimateDiscount(orders: map<OrderId, Order>, rs: seq<Redemption>, ps: seq<Promotion>,
                            user: UserId, o: Order, pi: nat, now: Time): (r: PromoResult)
    requires pi < |ps|
    ensures r.PromoOk? ==> r.discount <= o.total
    ensures r.PromoOk? && ps[pi].maxDiscountAmount.Some? ==> r.discount <= ps[pi].maxDiscountAmount.value
  {
    var p := ps[pi];
    Evaluate(p, o.total, UserSegmentOk(orders, user, p.segment, now),
             CountApplied(rs, pi), CountAppliedByUser(rs, pi, user), now)
  }

  /** The evaluation the rest of the model uses: the same checks and
      arithmetic applied to the order's subtotal, so that a discount already
      on the order has no bearing on the one that replaces it. */
  function EstimateOnSubtotal(orders: map<OrderId, Order>, rs: seq<Redemption>, ps: seq<Promotion>,
                              user: UserId, o: Order, pi: nat, now: Time): (r: PromoResult)
    requires pi < |ps|
    ensures r.PromoOk? ==> r.discount <= o.subtotal
    ensures r.PromoOk? && ps[pi].maxDiscountAmount.Some? ==> r.discount <= ps[pi].maxDiscountAmount.value
  {
    var p := ps[pi];
    Evaluate(p, o.subtotal, UserSegmentOk(orders, user, p.segment, now),
             CountApplied(rs, pi), CountAppliedByUser(rs, pi, user), now)
  }

  /** The bulk update `filter(order=o, status="APPLIED").update(status="CANCELLED")`:
      afterwards no redemption of `order` is APPLIED, the ones it had are
      CANCELLED, every other redemption is as it was, and only statuses
      change (promotion, user, order and amount are kept). */
  function Supersede(rs: seq<Redemption>, order: OrderId): (r: seq<Redemption>)
    ensures |r| == |rs|
    ensures forall i | 0 <= i < |r| :: r[i].order == order ==> r[i].status != Applied
    ensures forall i | 0 <= i < |rs| :: rs[i].order == order && rs[i].status == Applied ==> r[i].status == Cancelled
    ensures forall i | 0 <= i < |rs| :: rs[i].order != order || rs[i].status != Applied ==> r[i] == rs[i]
    ensures forall i | 0 <= i < |rs| :: r[i] == rs[i].(status := r[i].status)
  {
    seq(|rs|, i requires 0 <= i < |rs| =>
      if rs[i].order == order && rs[i].status == Applied then rs[i].(status := Cancelled) else rs[i])
  }

  /** The order once a promotion is applied (`promo_code`, `discount_amount`
      and `total_amount` written). */
  function WithPromo(o: Order, code: string, discount: Cents): (r: Order)
    ensures TotalConsistent(r) && r.total >= 0
    ensures r.promoCode == Some(code) && r.discountTotal == discount
    ensures r == o.(promoCode := r.promoCode, discountTotal := r.discountTotal, total := r.total)
  {
    o.(promoCode := Some(code), discountTotal := discount, total := Max0(o.subtotal - discount))
  }

  /** After the supersede and the insert, the new redemption is the order's
      only APPLIED one. */
  lemma {:induction false} OnlyNewApplied(rs: seq<Redemption>, order: OrderId, added: Redemption)
    requires added.order == order && added.status == Applied
    ensures forall i | 0 <= i < |rs| + 1 ::
      ((Supersede(rs, order) + [added])[i].order == order && (Supersede(rs, order) + [added])[i].status == Applied)
      <==> i == |rs|
  {
    var r := Supersede(rs, order) + [added];
    forall i | 0 <= i < |rs| + 1
      ensures (r[i].order == order && r[i].status == Applied) <==> i == |rs|
    {
      if i < |rs| {
        assert r[i] == Supersede(rs, order)[i];
      }
    }
  }

  lemma SupersedeKeepsPolicy(rs: seq<Redemption>, order: OrderId, added: Redemption, promoCount: nat)
    requires AtMostOneAppliedPerOrder(rs) && RedemptionsWellFormed(rs, promoCount)
    requires added.order == order && added.status == Applied && added.promotion < promoCount
    ensures AtMostOneAppliedPerOrder(Supersede(rs, order) + [added])
    ensures RedemptionsWellFormed(Supersede(rs, order) + [added], promoCount)
  {
    var r := Supersede(rs, order) + [added];
    OnlyNewApplied(rs, order, added);
    forall i, j | 0 <= i < j < |r| && r[i].status == Applied && r[j].status == Applied
      ensures r[i].order != r[j].order
    {
      if j < |rs| {
        assert r[i] == rs[i] && r[j] == rs[j];
      }
    }
    forall i | 0 <= i < |r| ensures r[i].promotion < promoCount {
      if i < |rs| {
        assert r[i].promotion == rs[i].promotion;
      }
    }
  }

  /** `apply_promo`: look the normalized code up, evaluate, and only on
      success cancel the order's APPLIED redemption, insert the new one and
      write the promo onto the order. A failure changes nothing. */
  method ApplyPromo(db: Store, user: UserId, orderId: OrderId, promoCode: string, now: Time,
                    deviceId: Option<string>, ipHash: Option<string>) returns (res: PromoResult)
    requires db.Valid() && orderId in db.orders
    modifies db
    ensures db.Valid()
    ensures FindPromotion(old(db.promotions), Normalize(promoCode)).None? ==> res == PromoFailed(PromoNotFound)
    ensures FindPromotion(old(db.promotions), Normalize(promoCode)).Some? ==>
      res == EstimateOnSubtotal(old(db.orders), old(db.redemptions), old(db.promotions), user,
                                old(db.orders)[orderId], FindPromotion(old(db.promotions), Normalize(promoCode)).value, now)
    ensures res.PromoFailed? ==> db.orders == old(db.orders) && db.redemptions == old(db.redemptions)
    ensures res.PromoOk? ==>
      var pi := FindPromotion(old(db.promotions), Normalize(promoCode)).value;
      && db.redemptions == Supersede(old(db.redemptions), orderId)
                           + [NewRedemption(pi, user, orderId, res.discount, now, deviceId, ipHash)]
      && db.orders == old(db.orders)[orderId := WithPromo(old(db.orders)[orderId], old(db.promotions)[pi].code, res.discount)]
    ensures res.PromoOk? ==> forall i | 0 <= i < |db.redemptions| ::
      (db.redemptions[i].order == orderId && db.redemptions[i].status == Applied) <==> i == |db.redemptions| - 1
    ensures db.promotions == old(db.promotions) && db.referralCodes == old(db.referralCodes)
    ensures db.referrals == old(db.referrals) && db.ledger == old(db.ledger) && db.accounts == old(db.accounts)
    ensures db.vouchers == old(db.vouchers) && db.freeMealVouchers == old(db.freeMealVouchers)
  {
    var found := FindPromotion(db.promotions, Normalize(promoCode));
    if found.None? {
      return PromoFailed(PromoNotFound);
    }
    var pi := found.value;
    var o := db.orders[orderId];
    res := EstimateOnSubtotal(db.orders, db.redemptions, db.promotions, user, o, pi, now);
    if res.PromoFailed? {
      return;
    }
    var added := NewRedemption(pi, user, orderId, res.discount, now, deviceId, ipHash);
    SupersedeKeepsPolicy(db.redemptions, orderId, added, |db.promotions|);
    OnlyNewApplied(db.redemptions, orderId, added);
    db.redemptions := Supersede(db.redemptions, orderId);
    db.redemptions := db.redemptions + [added];
    db.orders := db.orders[orderId := WithPromo(o, db.promotions[pi].code, res.discount)];
    assert PromoCodesUnique(db.promotions) && ReferralCodesUnique(db.referralCodes);
    assert ReferralsWellFormed(db.referrals, |db.referralCodes|) && AccountsBelowCard(db.accounts);
  }

  // ---- usage caps ----

  lemma {:induction false} CountAppliedByUserSnoc(rs: seq<Redemption>, r: Redemption, pi: nat, user: UserId)
    ensures CountAppliedByUser(rs + [r], pi, user) ==
      CountAppliedByUser(rs, pi, user) + (if r.promotion == pi && r.user == user && r.status == Applied then 1 else 0)
  {
    assert (rs + [r])[..|rs + [r]| - 1] == rs;
  }

  /** Once a user holds as many APPLIED redemptions of a promotion as its
      per-user cap, no evaluation of it for that user succeeds. */
  lemma PerUserCapBinds(orders: map<OrderId, Order>, rs: seq<Redemption>, ps: seq<Promotion>,
                        user: UserId, o: Order, pi: nat, now: Time)
    requires pi < |ps| && ps[pi].usageLimitPerUser.Some?
    requires CountAppliedByUser(rs, pi, user) >= ps[pi].usageLimitPerUser.value
    ensures EstimateOnSubtotal(orders, rs, ps, user, o, pi, now).PromoFailed?
    ensures EstimateDiscount(orders, rs, ps, user, o, pi, now).PromoFailed?
  {
  }

  /** A promotion capped at one use per user that was just applied for that
      user cannot be applied for them again (on any order) while that
      redemption stays APPLIED: the next attempt fails. */
  lemma SecondUseRefused(orders: map<OrderId, Order>, rs: seq<Redemption>, ps: seq<Promotion>,
                         user: UserId, orderId: OrderId, o: Order, pi: nat, d: Cents,
                         now: Time, dev: Option<string>, ip: Option<string>, o2: Order, later: Time)
    requires pi < |ps| && ps[pi].usageLimitPerUser == Some(1)
    ensures EstimateOnSubtotal(orders, Supersede(rs, orderId) + [NewRedemption(pi, user, orderId, d, now, dev, ip)],
                               ps, user, o2, pi, later).PromoFailed?
  {
    var rs' := Supersede(rs, orderId) + [NewRedemption(pi, user, orderId, d, now, dev, ip)];
    CountAppliedByUserSnoc(Supersede(rs, orderId), NewRedemption(pi, user, orderId, d, now, dev, ip), pi, user);
    PerUserCapBinds(orders, rs', ps, user, o2, pi, later);
  }

  // ---- reapplying a code ----

  /** The order a PERCENT promotion of 10% is applied to twice in the lemmas below. */
  function SampleOrder(): (o: Order)
    ensures TotalConsistent(o)
  {
    Order(Some(1), [OrderItem(1, 1, 500000)], 500000, 0, 500000, None, Pending, None)
  }

  function SamplePromotion(): Promotion
  {
    Promotion("Ten", "TEN", Percent, 1000, None, None, AllUsers, None, None, true, None, None, true)
  }

  /** As written, re-applying the same 10% code to an order of 5000.00
      yields 450.00 the second time, because the percentage is taken of the
      already-discounted total: the order ends at 4550.00 instead of 4500.00. */
  lemma AsWrittenReapplyDrifts()
    ensures
      var o := SampleOrder();
      var ps := [SamplePromotion()];
      var first := EstimateDiscount(map[7 := o], [], ps, 1, o, 0, 0);
      && first == PromoOk(50000)
      && var o1 := WithPromo(o, "TEN", 50000);
      && o1.total == 450000
      && var rs1 := Supersede([], 7) + [NewRedemption(0, 1, 7, 50000, 0, None, None)];
      && var second := EstimateDiscount(map[7 := o1], rs1, ps, 1, o1, 0, 0);
      && second == PromoOk(45000)
      && WithPromo(o1, "TEN", 45000).total == 455000
  {
    var o := SampleOrder();
    assert RoundHalfEven(500000 * 1000, PERCENT_SCALE) == 50000;
    assert RoundHalfEven(450000 * 1000, PERCENT_SCALE) == 45000;
    assert UserSegmentOk(map[7 := o], 1, AllUsers, 0);
  }

  /** With the rules applied to the subtotal, re-applying a code leaves the
      order as the first application did, unless a usage cap now refuses it
      (the first redemption still counts when the caps are checked). */
  lemma ReapplyOnSubtotalStable(orders: map<OrderId, Order>, rs: seq<Redemption>, ps: seq<Promotion>,
                                user: UserId, orderId: OrderId, pi: nat, d: Cents, now: Time,
                                dev: Option<string>, ip: Option<string>)
    requires pi < |ps| && orderId in orders
    requires EstimateOnSubtotal(orders, rs, ps, user, orders[orderId], pi, now) == PromoOk(d)
    ensures
      var o1 := WithPromo(orders[orderId], ps[pi].code, d);
      var orders1 := orders[orderId := o1];
      var rs1 := Supersede(rs, orderId) + [NewRedemption(pi, user, orderId, d, now, dev, ip)];
      var again := EstimateOnSubtotal(orders1, rs1, ps, user, o1, pi, now);
      && (again == PromoOk(d) || again == PromoFailed(PromoLimitReached) || again == PromoFailed(UserLimitReached))
      && (again == PromoOk(d) ==> WithPromo(o1, ps[pi].code, d) == o1)
  {
    var o := orders[orderId];
    var o1 := WithPromo(o, ps[pi].code, d);
    var orders1 := orders[orderId := o1];
    SegmentIgnoresPromoFields(orders, orderId, o1, user, ps[pi].segment, now);
  }

  /** Writing a promotion onto an order does not change any user's segment. */
  lemma SegmentIgnoresPromoFields(orders: map<OrderId, Order>, orderId: OrderId, o1: Order,
                                  user: UserId, segment: Segment, now: Time)
    requires orderId in orders
    requires o1.user == orders[orderId].user && o1.status == orders[orderId].status
    requires o1.paidAt == orders[orderId].paidAt
    ensures UserSegmentOk(orders[orderId := o1], user, segment, now) == UserSegmentOk(orders, user, segment, now)
  {
    var orders1 := orders[orderId := o1];
    forall t ensures t in PaidTimes(orders1, user) <==> t in PaidTimes(orders, user) {
      if t in PaidTimes(orders, user) {
        var id :| id in orders && orders[id].user == Some(user) && orders[id].status == Paid
                  && orders[id].paidAt == Some(t);
        assert orders1[id].paidAt == Some(t);
      }
      if t in PaidTimes(orders1, user) {
        var id :| id in orders1 && orders1[id].user == Some(user) && orders1[id].status == Paid
                  && orders1[id].paidAt == Some(t);
        assert orders[id].paidAt == Some(t);
      }
    }
    assert PaidTimes(orders1, user) == PaidTimes(orders, user);
    assert HasPaidOrder(orders1, user) == HasPaidOrder(orders, user) by {
      if HasPaidOrder(orders, user) {
        var id :| id in orders && orders[id].user == Some(user) && orders[id].status == Paid;
        assert id in orders1 && orders1[id].user == Some(user) && orders1[id].status == Paid;
      }
      if HasPaidOrder(orders1, user) {
        var id :| id in orders1 && orders1[id].user == Some(user) && orders1[id].status == Paid;
        assert id in orders && orders[id].user == Some(user) && orders[id].status == Paid;
      }
    }
  }
}
