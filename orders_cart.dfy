/** The session cart of orders/cart.py: meal quantities kept between 1 and
    20, the cart total at catalog prices, and a promotion marker kept beside
    the cart in the session. */
module OrdersCart {
  import opened Common
  import opened Text
  import opened MapSums
  import opened MarketingModels
  import opened Db
  import PromoService

  /** A meal's primary key. The cart's keys are `str(id)`, which is
      one-to-one on ids, so the model keys it by the id itself. */
  type MealId = nat

  const MAX_QTY: int := 20

  /** The promotion marker stored under the session's "cart_promo" key. */
  datatype PromoMarker = PromoMarker(code: string, discount: Cents, appliedAt: Time)

  datatype CartPromoReason =
    | EmptyCode
    | InvalidOrExpired
    | LoginRequired
    | MinimumNotMet
    | TotalLimitReached
    | UserLimitReached
    | NoDiscount

  /** The `(ok, message)` pair, with the message as a reason. */
  datatype CartPromoResult = CartPromoOk(discount: Cents) | CartPromoFailed(reason: CartPromoReason)

  /** `(promo_code or "").strip().upper()` */
  function EnteredCode(promoCode: Option<string>): (c: string)
    ensures IsNormalized(c)
  {
    Normalize(if promoCode.Some? then promoCode.value else "")
  }

  /** The cart's discount before the clamps: PERCENT takes `value` percent
      of the subtotal, quantized to 0.01 half away from zero; every other
      type, FREE_ITEM included, takes off `value` itself. */
  function CartRawDiscount(p: Promotion, subtotal: Cents): (d: Cents)
    ensures p.promoType != Percent ==> d == p.value
    ensures p.promoType == Percent ==>
      -PromoService.PERCENT_SCALE <= 2 * (subtotal * p.value - d * PromoService.PERCENT_SCALE) <= PromoService.PERCENT_SCALE
  {
    if p.promoType == Percent then RoundHalfUp(subtotal * p.value, PromoService.PERCENT_SCALE) else p.value
  }

  /** The raw discount, capped at `max_discount_amount` when set and then at
      the subtotal. */
  function CartDiscount(p: Promotion, subtotal: Cents): (d: Cents)
    ensures d <= subtotal
    ensures p.maxDiscountAmount.Some? ==> d <= p.maxDiscountAmount.value
    ensures d == CartRawDiscount(p, subtotal) || d == subtotal
            || (p.maxDiscountAmount.Some? && d == p.maxDiscountAmount.value)
  {
    var raw := CartRawDiscount(p, subtotal);
    var capped := if p.maxDiscountAmount.Some? then Min(raw, p.maxDiscountAmount.value) else raw;
    Min(capped, subtotal)
  }

  /** Whether the cart's checks before the discount all pass. */
  predicate CartChecksPass(p: Promotion, user: Option<UserId>, subtotal: Cents, usedTotal: nat, usedByUser: nat, now: Time)
  {
    && IsCurrentlyValid(p, now)
    && !(p.segment != AllUsers && user.None?)
    && !PromoService.BelowMinimum(p, subtotal)
    && !(p.usageLimitTotal.Some? && usedTotal >= p.usageLimitTotal.value)
    && !(user.Some? && p.usageLimitPerUser.Some? && usedByUser >= p.usageLimitPerUser.value)
  }

  /** The decisions of `apply_promo` once the promotion is found. Only the
      login requirement of the segment rule is checked here; the segments'
      own eligibility tests are not. The per-user cap is skipped for a guest. */
  function CartDecide(p: Promotion, user: Option<UserId>, subtotal: Cents, usedTotal: nat, usedByUser: nat, now: Time): (r: CartPromoResult)
    ensures r == CartPromoFailed(InvalidOrExpired) <==> !IsCurrentlyValid(p, now)
    ensures r == CartPromoFailed(LoginRequired) <==> IsCurrentlyValid(p, now) && p.segment != AllUsers && user.None?
    ensures r == CartPromoFailed(MinimumNotMet) <==>
      IsCurrentlyValid(p, now) && !(p.segment != AllUsers && user.None?) && PromoService.BelowMinimum(p, subtotal)
    ensures r == CartPromoFailed(TotalLimitReached) <==>
      && IsCurrentlyValid(p, now) && !(p.segment != AllUsers && user.None?) && !PromoService.BelowMinimum(p, subtotal)
      && p.usageLimitTotal.Some? && usedTotal >= p.usageLimitTotal.value
    ensures r == CartPromoFailed(UserLimitReached) <==>
      && IsCurrentlyValid(p, now) && !(p.segment != AllUsers && user.None?) && !PromoService.BelowMinimum(p, subtotal)
      && !(p.usageLimitTotal.Some? && usedTotal >= p.usageLimitTotal.value)
      && user.Some? && p.usageLimitPerUser.Some? && usedByUser >= p.usageLimitPerUser.value
    ensures r == CartPromoFailed(NoDiscount) <==>
      CartChecksPass(p, user, subtotal, usedTotal, usedByUser, now) && CartDiscount(p, subtotal) <= 0
    ensures r.CartPromoOk? <==> CartChecksPass(p, user, subtotal, usedTotal, usedByUser, now) && CartDiscount(p, subtotal) > 0
    ensures r.CartPromoOk? ==> r.discount == CartDiscount(p, subtotal) && 0 < r.discount <= subtotal
    ensures r != CartPromoFailed(EmptyCode)
  {
    if !IsCurrentlyValid(p, now) then CartPromoFailed(InvalidOrExpired)
    else if p.segment != AllUsers && user.None? then CartPromoFailed(LoginRequired)
    else if PromoService.BelowMinimum(p, subtotal) then CartPromoFailed(MinimumNotMet)
    else if p.usageLimitTotal.Some? && usedTotal >= p.usageLimitTotal.value then CartPromoFailed(TotalLimitReached)
    else if user.Some? && p.usageLimitPerUser.Some? && usedByUser >= p.usageLimitPerUser.value then CartPromoFailed(UserLimitReached)
    else
      var d := CartDiscount(p, subtotal);
      if d <= 0 then CartPromoFailed(NoDiscount) else CartPromoOk(d)
  }

  /** The outcome of `apply_promo` for an entered code on the cart's
      subtotal: an empty code fails first, then a code no promotion has,
      then the decisions of `CartDecide` with the promotion's counts of
      applied redemptions, in all and by this user (none for a guest). */
  function CartOutcome(code: string, promotions: seq<Promotion>, redemptions: seq<Redemption>,
                       user: Option<UserId>, subtotal: Cents, now: Time): (r: CartPromoResult)
    ensures code == "" ==> r == CartPromoFailed(EmptyCode)
    ensures code != "" && FindPromotion(promotions, code).None? ==> r == CartPromoFailed(InvalidOrExpired)
    ensures code != "" && FindPromotion(promotions, code).Some? ==>
      var i := FindPromotion(promotions, code).value;
      r == CartDecide(promotions[i], user, subtotal, CountApplied(redemptions, i),
                      if user.Some? then CountAppliedByUser(redemptions, i, user.value) else 0, now)
    ensures r.CartPromoOk? ==> FindPromotion(promotions, code).Some? && 0 < r.discount <= subtotal
  {
    if code == "" then CartPromoFailed(EmptyCode)
    else match FindPromotion(promotions, code)
      case None => CartPromoFailed(InvalidOrExpired)
      case Some(i) =>
        CartDecide(promotions[i], user, subtotal, CountApplied(redemptions, i),
                   if user.Some? then CountAppliedByUser(redemptions, i, user.value) else 0, now)
  }

  /** `get_total_after_discount` on a subtotal and the stored discount: the
      discount is clamped into [0, subtotal] before it is taken off. */
  function AfterDiscount(subtotal: Cents, discount: Cents): (r: Cents)
    ensures r == Max0(subtotal - Max0(discount))
    ensures subtotal >= 0 ==> 0 <= r <= subtotal
    ensures 0 <= discount <= subtotal ==> r == subtotal - discount
  {
    var d := if discount < 0 then 0 else discount;
    var d' := if d > subtotal then subtotal else d;
    subtotal - d'
  }

  class Cart {
    /** `self.cart`: quantity per meal. */
    var items: map<MealId, int>
    /** What the session holds under "cart", the cart a later request sees. */
    var stored: map<MealId, int>
    /** Whether the session's "cart" is the very dict `self.cart`, so that
        changes to the one are changes to the other. */
    var shared: bool
    /** The session's "cart_promo" entry. */
    var promo: Option<PromoMarker>

    /** The aliasing fact the methods keep. */
    predicate Valid()
      reads this
    {
      shared ==> stored == items
    }

    /** Every quantity is within [1, MAX_QTY]: each method that writes a
        quantity clamps it. */
    predicate QuantitiesInRange()
      reads this`items
    {
      forall k | k in items :: 1 <= items[k] <= MAX_QTY
    }

    /** `Cart(request)`: the session's cart, or a new empty one stored in
        the session when it has none (or an empty one). */
    constructor (sessionCart: Option<map<MealId, int>>, sessionPromo: Option<PromoMarker>)
      ensures Valid() && shared
      ensures items == (if sessionCart.Some? then sessionCart.value else map[])
      ensures promo == sessionPromo
    {
      if sessionCart.None? || sessionCart.value == map[] {
        items := map[];
      } else {
        items := sessionCart.value;
      }
      stored := items;
      shared := true;
      promo := sessionPromo;
    }

    /** `__len__`: the number of meals, the sum of the quantities. */
    ghost function Len(): (n: int)
      reads this`items
      ensures QuantitiesInRange() ==> |items| <= n <= MAX_QTY * |items|
    {
      if QuantitiesInRange() then
        MapSumBounds(items, 1, MAX_QTY);
        MapSum(items)
      else
        MapSum(items)
    }

    /** `add`: the quantity grows by `quantity` (from 0 for a new meal) and
        is clamped to [1, MAX_QTY]; nothing else in the cart changes. */
    method Add(meal: MealId, quantity: int)
      requires Valid()
      modifies this
      ensures Valid() && shared == old(shared) && promo == old(promo)
      ensures items == old(items)[meal := Clamp(1, MAX_QTY, (if meal in old(items) then old(items)[meal] else 0) + quantity)]
      ensures old(shared) ==> stored == items
      ensures !old(shared) ==> stored == old(stored)
      ensures old(QuantitiesInRange()) ==> QuantitiesInRange()
      ensures Len() == old(Len()) - (if meal in old(items) then old(items)[meal] else 0) + items[meal]
    {
      var current := if meal in items then items[meal] else 0;
      MapSumUpdate(items, meal, Clamp(1, MAX_QTY, current + quantity));
      items := items[meal := Clamp(1, MAX_QTY, current + quantity)];
      if shared {
        stored := items;
      }
    }

    /** `set`: a quantity of 0 or less removes the meal; any other is
        clamped to [1, MAX_QTY] and stored. */
    method Set(meal: MealId, quantity: int)
      requires Valid()
      modifies this
      ensures Valid() && shared == old(shared) && promo == old(promo)
      ensures quantity <= 0 ==> items == old(items) - {meal}
      ensures quantity > 0 ==> items == old(items)[meal := Clamp(1, MAX_QTY, quantity)]
      ensures old(shared) ==> stored == items
      ensures !old(shared) ==> stored == old(stored)
      ensures old(QuantitiesInRange()) ==> QuantitiesInRange()
      ensures quantity <= 0 ==> Len() == old(Len()) - (if meal in old(items) then old(items)[meal] else 0)
    {
      if quantity <= 0 {
        if meal in items {
          MapSumRemove(items, meal);
          items := items - {meal};
        } else {
          assert items - {meal} == items;
        }
      } else {
        items := items[meal := Clamp(1, MAX_QTY, quantity)];
      }
      if shared {
        stored := items;
      }
    }

    /** `remove`: only that meal's entry goes, if it is there. */
    method Remove(meal: MealId)
      requires Valid()
      modifies this
      ensures Valid() && shared == old(shared) && promo == old(promo)
      ensures items == old(items) - {meal}
      ensures old(shared) ==> stored == items
      ensures !old(shared) ==> stored == old(stored)
      ensures old(QuantitiesInRange()) ==> QuantitiesInRange()
      ensures Len() == old(Len()) - (if meal in old(items) then old(items)[meal] else 0)
    {
      if meal in items {
        MapSumRemove(items, meal);
        items := items - {meal};
        if shared {
          stored := items;
        }
      } else {
        assert items - {meal} == items;
      }
    }

    /** `clear`: the session gets a new, empty cart. The object's own dict
        keeps its entries and is no longer the session's, so later changes
        made through this object are not seen by the next request. */
    method Clear()
      requires Valid()
      modifies this
      ensures Valid()
      ensures stored == map[] && !shared
      ensures items == old(items) && promo == old(promo)
    {
      stored := map[];
      shared := false;
    }

    /** The lines `__iter__` yields, as line totals keyed by meal: each meal
        of the cart that the catalog still has, at its current catalog
        price times the quantity. */
    function LineTotals(catalog: map<MealId, Cents>): (lines: map<MealId, Cents>)
      reads this`items
      ensures lines.Keys == items.Keys * catalog.Keys
      ensures forall k | k in lines :: lines[k] == catalog[k] * items[k]
    {
      map k | k in items && k in catalog :: catalog[k] * items[k]
    }

    /** `get_total_price`: the line totals added up while walking the cart;
        a meal missing from the catalog adds nothing. */
    method TotalPrice(catalog: map<MealId, Cents>) returns (total: Cents)
      ensures total == MapSum(LineTotals(catalog))
      ensures QuantitiesInRange() && (forall k | k in catalog :: catalog[k] >= 0) ==> total >= 0
    {
      var lines := LineTotals(catalog);
      var todo := items.Keys;
      total := 0;
      assert todo * lines.Keys == lines.Keys;
      while todo != {}
        invariant todo <= items.Keys
        invariant total + SumOver(lines, todo * lines.Keys) == MapSum(lines)
        decreases todo
      {
        var k :| k in todo;
        if k in catalog {
          SumOverRemove(lines, todo * lines.Keys, k);
          assert (todo - {k}) * lines.Keys == todo * lines.Keys - {k};
          total := total + catalog[k] * items[k];
        } else {
          assert (todo - {k}) * lines.Keys == todo * lines.Keys;
        }
        todo := todo - {k};
      }
      assert todo * lines.Keys == {};
      if QuantitiesInRange() && (forall k | k in catalog :: catalog[k] >= 0) {
        SumOverNonNegative(lines, lines.Keys);
      }
    }

    /** `get_discount_amount`: the discount recorded by the last successful
        `apply_promo`, or 0.00 without a marker. */
    function DiscountAmount(): (d: Cents)
      reads this`promo
      ensures promo.None? ==> d == 0
      ensures promo.Some? ==> d == promo.value.discount
    {
      if promo.Some? then promo.value.discount else 0
    }

    /** `get_total_after_discount` */
    method TotalAfterDiscount(catalog: map<MealId, Cents>) returns (r: Cents)
      ensures r == AfterDiscount(MapSum(LineTotals(catalog)), DiscountAmount())
      ensures r == Max0(MapSum(LineTotals(catalog)) - Max0(DiscountAmount()))
    {
      var subtotal := TotalPrice(catalog);
      r := AfterDiscount(subtotal, DiscountAmount());
    }

    /** `remove_promo` */
    method RemovePromo()
      modifies this`promo
      ensures promo == None
    {
      promo := None;
    }

    /** `apply_promo`: the entered code is normalized and looked up, and the
        checks of `CartDecide` are made against the cart's subtotal. On
        success the marker holds the promotion's code, the discount and
        the time; on any failure the marker is removed. The cart itself is
        not touched. */
    method ApplyPromo(db: Store, user: Option<UserId>, promoCode: Option<string>,
                      catalog: map<MealId, Cents>, now: Time) returns (res: CartPromoResult)
      modifies this`promo
      ensures res == CartOutcome(EnteredCode(promoCode), db.promotions, db.redemptions,
                                 user, MapSum(LineTotals(catalog)), now)
      ensures res.CartPromoOk? ==>
        var i := FindPromotion(db.promotions, EnteredCode(promoCode)).value;
        var subtotal := MapSum(LineTotals(catalog));
        && promo == Some(PromoMarker(db.promotions[i].code, res.discount, now))
        && AfterDiscount(subtotal, DiscountAmount()) == subtotal - res.discount
      ensures res.CartPromoFailed? ==> promo == None
    {
      var code := EnteredCode(promoCode);
      var subtotal := 0;
      if code != "" && FindPromotion(db.promotions, code).Some? {
        subtotal := TotalPrice(catalog);
      }
      res := CartOutcome(code, db.promotions, db.redemptions, user, subtotal, now);
      if res.CartPromoFailed? {
        RemovePromo();
        return;
      }
      var i := FindPromotion(db.promotions, code).value;
      promo := Some(PromoMarker(db.promotions[i].code, res.discount, now));
      assert DiscountAmount() == res.discount;
    }
  }
}
