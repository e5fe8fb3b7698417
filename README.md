# Restaurant pricing and incentive engine, in Dafny

This project models the pricing and incentive core of a Django restaurant
application and proves properties of the model. The core covers:

- **Promotions.** `PromoService` evaluates a promotion code against an order
  and applies it. The checks run in a fixed order: validity window, customer
  segment, minimum order, global cap, per-user cap. The discount is a
  percentage, a fixed amount or nothing, and it is clamped. Applying a code
  cancels the order's earlier APPLIED redemption, records a new one, and
  recomputes the order total.
- **Referrals.** `ReferralService` hands out codes of the form `REF-nnnnnn`
  and attributes a new user to a referrer, refusing for three reasons in
  order. On a large enough paid order it moves the referral
  PENDING → QUALIFIED → REWARDED and credits the referrer once.
- **Loyalty.** `LoyaltyService` gives one stamp per paid meal, and every
  eight stamps become a free-item voucher worth up to 2000.00. Redeeming a
  voucher moves it AVAILABLE → USED, or AVAILABLE → EXPIRED when it is
  past its expiry. The orders app has its own copy of the scheme: eight
  delivered meals make one free-meal voucher. It comes in two variants.
- **Carts and orders.**
  - The session cart of the orders app keeps quantities within 1..20, prices
    lines at the catalog's current price, and stores a promotion marker next
    to the cart.
  - The older shop cart captures each meal's price when it is first added
    and does not bound quantities.
  - An order's total is `max(0, subtotal - discount)`.
  - The staff "mark delivered" action runs loyalty only on the first change
    of status.

Money is a whole number of cents, because every amount is a two-place
decimal. Time is a whole number of seconds, and the current time is a
parameter `now`. Users are natural-number ids, and a guest is `None`.

The state lives in two places:
- **The `Db.Store` class** holds every table the services touch:
  - orders, in a map keyed by order id;
  - promotions, redemptions, referral codes, referrals, the reward ledger,
    free-item vouchers and free-meal vouchers, each a sequence whose
    positions are the record ids;
  - loyalty accounts, in a map keyed by user.

  Its `Valid()` predicate gathers the database constraints:
  - promotion codes are unique;
  - each user has at most one referral code, and each code is held once;
  - a user is referred at most once and never by themselves;
  - every redemption and referral points at an existing promotion or code.

  It also gathers the invariants the services keep:
  - at most one APPLIED redemption per order;
  - no loyalty account holds a full card of eight stamps.

  Order totals are not constrained. Checkout creates an order with `total`
  set to the cart total and the subtotal left at 0.00
  (orders/views.py:78-84), so the model assumes nothing about how an
  order's amounts relate.

  Every service method preserves `Valid()`.
- **The two carts are classes** whose fields are the cart's dictionary and
  the session entries it writes.

Dictionary sums such as `__len__` and the cart totals are order-independent
sums over a map (`MapSums.MapSum`). `MapSums.SumOverRemove` proves that the
order the entries are visited in does not matter.

Modules, one per source file of the core:

| module | file | models |
|---|---|---|
| `Common`, `Text`, `MapSums` | common.dfy, text.dfy, mapsum.dfy | shared arithmetic and string helpers: rounding modes, `strip().upper()`, zero-padded decimals, dictionary sums |
| `OrderModels` | order_models.dfy | orders/models.py |
| `MarketingModels` | marketing_models.dfy | marketing/models.py |
| `Db` | db.dfy | the tables, their constraints, and each ORM query as a function |
| `PromoService`, `ReferralService`, `LoyaltyService` | promo_service.dfy, referral_service.dfy, loyalty_service.dfy | marketing/services.py |
| `OrdersCart` | orders_cart.dfy | orders/cart.py |
| `ShopCart` | shop_cart.dfy | backend/resto/shop/cart.py |
| `OrdersLoyalty` | orders_loyalty.dfy | orders/loyalty.py and `apply_loyalty_on_delivery` of orders/views.py |
| `StaffViews` | staff_views.dfy | `mark_order_delivered` of staff/views.py |

Several modules use different names for the same field:
- The marketing services use `subtotal_amount`, `discount_amount` and
  `total_amount`, where the order model has `subtotal`, `discount_total` and
  `total`.
- The orders cart calls `is_valid_now`, `min_order` and `max_discount`, where
  the promotion has `is_currently_valid`, `min_order_amount` and
  `max_discount_amount`.
- orders/loyalty.py writes `points` on the marketing `LoyaltyAccount`, whose
  field is `stamps`.

The model uses one field set, the order model's. It reads each mismatched
name as the field it evidently means: `points` is `stamps`. The order status
has the four choices of the order model plus `Paid`, the "PAID" literal that
the marketing services test for.

The two percentage computations round differently:
- The service quantizes with Decimal's default rounding, half to even
  (marketing/services.py:66).
- The cart quantizes half up (orders/cart.py:167).

The service takes nothing off for a FREE_ITEM code (marketing/services.py:69-71).
The cart takes off `value` for it, as for a fixed amount (orders/cart.py:165-169).

## Model

| member | source | states |
|---|---|---|
| Common.RoundHalfEven | marketing/services.py:66 | `quantize(Decimal("0.01"))` in the default context: the result is within half a cent of the exact quotient, and an exact tie goes to the even neighbour |
| Common.RoundHalfUp | orders/cart.py:167 | `quantize(..., ROUND_HALF_UP)`: within half a cent of the exact quotient, and an exact tie goes away from zero |
| Text.Normalize | marketing/models.py:49-52 | `strip().upper()`: the result has no surrounding whitespace and no lower-case letter, and is no longer than the input |
| Text.NormalizeIdempotent | marketing/models.py:49-52 | normalizing a stored code again changes nothing |
| Text.NormalizeCharacterized | marketing/models.py:51 | normalization removes only leading and trailing whitespace and upper-cases what is between |
| Text.ZeroPaddedValue | marketing/services.py:119 | `f"{n:06d}"` reads back as `n`, so the padding loses nothing |
| OrderModels.OrderItem.Subtotal | orders/models.py:56-57 | a line's subtotal is never negative for a non-negative price, and is zero for quantity zero |
| OrderModels.NewOrder | orders/models.py:31-37 | a new order is pending, with every amount 0.00 and no promo, so its total is consistent |
| OrderModels.RecomputeSubtotal | orders/models.py:39-44 | the loop stores the sum of the line subtotals and sets `total = max(0, subtotal - discount_total)`; no other field changes, the discount included |
| OrderModels.ItemsSubtotalAppend | orders/models.py:41-42 | the subtotal of two lists of lines is the sum of their subtotals |
| OrderModels.CountMeals | orders/loyalty.py:6-7 | the meal count, the sum of the quantities, is zero exactly when every line has quantity zero |
| OrderModels.CountMealsAppend | marketing/services.py:180-182 | the meal count is additive over lines |
| MarketingModels.SavedPromotion | marketing/models.py:49-52 | a saved promotion's code is the normalized code; every other field is kept |
| MarketingModels.SavedPromotionIdempotent | marketing/models.py:49-52 | saving a saved promotion again changes nothing |
| MarketingModels.IsCurrentlyValidIff | marketing/models.py:54-62 | valid exactly when active, `now` is not before a set start, and `now` is not after a set end |
| MarketingModels.NewRedemption | marketing/models.py:80 | a new redemption is APPLIED, on the given order and discount |
| MarketingModels.SavedReferralCode | marketing/models.py:98-101 | a saved referral code is normalized; the rest is kept |
| MarketingModels.NewReferral | marketing/models.py:118-123 | a new referral is PENDING, with no qualifying order or times |
| MarketingModels.NewVoucher | marketing/models.py:166-172 | a new voucher is AVAILABLE and unused, for its owner |
| Db.Store.AddPromotion | marketing/models.py:25 | a promotion is saved with its normalized code exactly when no promotion holds that code; otherwise nothing changes |
| Db.FindPromotion | marketing/services.py:82 | `filter(code=...).first()`: the first promotion with the code, or none when no promotion has it |
| Db.FindActiveReferralCode | marketing/services.py:127 | the first active code with the text, or none when there is none |
| Db.FindUserReferralCode | marketing/services.py:116-121 | the position of a code the user holds, or none exactly when the user holds none |
| Db.CountApplied | marketing/services.py:55 | the number of APPLIED redemptions of the promotion: at most the number of redemptions, and 0 exactly when none is APPLIED |
| Db.CountAppliedByUser | marketing/services.py:60 | the user's APPLIED redemptions of the promotion are never more than all of its APPLIED ones |
| Db.HasPaidOrder | marketing/services.py:29-31 | a user with no PAID order has no payment time recorded |
| Db.FindPendingReferral | marketing/services.py:151 | a PENDING referral of the user, or none when there is none |
| PromoService.UserSegmentOk | marketing/services.py:24-40 | ALL always passes, and a user eligible for NEW has no payment time, so INACTIVE_30D admits them too. For INACTIVE_30D see `PromoService.Inactive30DecidedByLast` |
| PromoService.Inactive30DecidedByLast | marketing/services.py:33-38 | the INACTIVE_30D test over all paid orders agrees with the test on the most recent payment, whose `.days >= 30` means a difference of at least 30 × 86400 seconds |
| PromoService.RawDiscount | marketing/services.py:64-71 | PERCENT is `value`% of the base rounded to the cent, FIXED_AMOUNT is `value`, FREE_ITEM is 0 |
| PromoService.ClampDiscount | marketing/services.py:73-76 | the discount never exceeds the base or a set cap; it is the raw discount when that is within both |
| PromoService.Evaluate | marketing/services.py:43-77 | each failure reason holds exactly when the earlier checks pass and its own fails, in order (PROMO_INACTIVE, NOT_ELIGIBLE, MIN_ORDER_NOT_MET, PROMO_LIMIT_REACHED, USER_LIMIT_REACHED); on success the discount is the clamped raw discount |
| PromoService.EstimateDiscount | marketing/services.py:43-77 | `estimate_discount` as written, with every rule applied to the current total; a discount never exceeds that total or the cap |
| PromoService.EstimateOnSubtotal | marketing/services.py:43-77 | the same evaluation on the subtotal: a discount never exceeds the subtotal or the cap |
| PromoService.Supersede | marketing/services.py:91 | afterwards no redemption of the order is APPLIED, and the ones it had are CANCELLED. Every redemption of another order, and every non-APPLIED one, is unchanged. Only statuses change: promotion, user, order and amount are kept |
| PromoService.WithPromo | marketing/services.py:103-105 | the order gets the code and the discount, and `total = max(0, subtotal - discount)`; nothing else changes |
| PromoService.OnlyNewApplied | marketing/services.py:90-100 | after the supersede and the insert, the new redemption is the only APPLIED one on the order |
| PromoService.SupersedeKeepsPolicy | marketing/services.py:90-100 | supersede plus insert keeps the one-APPLIED-per-order policy and the redemption references |
| PromoService.ApplyPromo | marketing/services.py:81-108 | `PROMO_NOT_FOUND` when no promotion has the normalized code; otherwise the evaluation's result. A failure changes nothing. A success leaves exactly the new redemption APPLIED on the order, writes the code and discount, and keeps the total consistent and non-negative. Every other table is unchanged |
| PromoService.PerUserCapBinds | marketing/services.py:59-62 | once a user's APPLIED count reaches the per-user cap, no evaluation for that user succeeds |
| PromoService.SecondUseRefused | marketing/services.py:59-100 | a code capped at one use per user cannot be applied a second time by that user |
| PromoService.AsWrittenReapplyDrifts | marketing/services.py:50-105 | as written, re-applying a 10% code to a 5000.00 order gives 450.00 the second time, and the total goes from 4500.00 to 4550.00 |
| PromoService.ReapplyOnSubtotalStable | marketing/services.py:90-106 | evaluated on the subtotal, re-applying a code either gives the same discount, leaving the order as it was, or is refused by a usage cap |
| ReferralService.GeneratedCode | marketing/services.py:119 | the generated code starts with `REF-` |
| ReferralService.SavedGeneratedCode | marketing/models.py:98-101 | saving a generated referral code stores it exactly as generated |
| ReferralService.GeneratedCodeNormalized | marketing/services.py:119 | a generated code is already in stored form |
| ReferralService.GeneratedCodeInjective | marketing/services.py:119 | two users never get the same generated code |
| ReferralService.GetOrCreateCode | marketing/services.py:116-121 | returns the user's existing code unchanged; otherwise creates `REF-nnnnnn` for the user, or fails without writing when that text is already taken |
| ReferralService.ApplyReferralCode | marketing/services.py:125-138 | REF_CODE_NOT_FOUND, SELF_REFERRAL and ALREADY_REFERRED in that order; success exactly when none applies, and then one PENDING referral is appended; a failure writes nothing; the user is referred afterwards exactly when they were before or the call succeeded |
| ReferralService.TryQualifyAndReward | marketing/services.py:142-171 | for a PAID order of at least 5000.00 of a signed-in buyer (the guard `ReferralService.Qualifies`, lines 146-149) whose buyer has a PENDING referral: the referral ends REWARDED with the order and times recorded, and exactly one 1000.00 REFERRAL credit goes to the referrer; the buyer then has no PENDING referral, so a repeat does nothing. Anything else changes nothing |
| ReferralService.NoOtherPending | marketing/models.py:115 | because a user is referred at most once, taking their referral out of PENDING leaves them none |
| ReferralService.ReferralCredit | marketing/services.py:162-167 | the credit is a REFERRAL entry of 1000.00, ACTIVE, without expiry, for the referrer |
| LoyaltyService.Accrue | marketing/services.py:192-198 | leftover stamps are below 8, and leftover + 8 × vouchers = stamps + meals |
| LoyaltyService.AccrualUnique | marketing/services.py:196-198 | any split into fewer than 8 stamps plus whole cards is the one `Accrue` gives |
| LoyaltyService.AccrueTwice | marketing/services.py:186-204 | two paid saves earn what one save of all the meals earns |
| LoyaltyService.RepeatedPaidSaveMintsAgain | marketing/services.py:186-204 | with no guard, a second PAID save of an order of 8 or more meals issues at least one more voucher |
| LoyaltyService.OnOrderPaid | marketing/services.py:186-204 | a non-PAID order changes nothing. For a PAID order the account becomes `Accrue(stamps, meals)`'s leftover, updated now, and exactly that many 2000.00 vouchers valid 30 days are appended. A guest order writes nothing |
| LoyaltyService.MinUnitPrice | marketing/services.py:224 | the result is the unit price of some line, and no line is cheaper |
| LoyaltyService.RedeemVoucher | marketing/services.py:208-234 | VOUCHER_NOT_FOUND, VOUCHER_NOT_AVAILABLE, VOUCHER_EXPIRED (marking it EXPIRED) and EMPTY_ORDER in that order. Success adds `min(cheapest unit price, max value)` to the order's discount with a consistent total and marks the voucher USED on the order. Only AVAILABLE → USED/EXPIRED steps occur |
| OrdersCart.EnteredCode | orders/cart.py:129 | the entered code is in stored form |
| OrdersCart.CartRawDiscount | orders/cart.py:165-169 | PERCENT is `value`% of the subtotal rounded half up; any other type takes off `value` |
| OrdersCart.CartDiscount | orders/cart.py:171-174 | never above the subtotal or a set cap, and equal to the raw discount, the cap or the subtotal |
| OrdersCart.CartOutcome | orders/cart.py:129-160 | an empty code fails first, then a code no promotion has, then `CartDecide` with the promotion's applied-redemption counts, in all and by the user (0 for a guest); a success implies the code was found and `0 < discount <= subtotal` |
| OrdersCart.CartDecide | orders/cart.py:134-177 | each reason holds exactly when the earlier checks pass and its own fails (invalid, login required, minimum, total cap, per-user cap for a signed-in user, no discount); on success `0 < discount <= subtotal` |
| OrdersCart.AfterDiscount | orders/cart.py:110-117 | `max(0, subtotal - max(0, discount))`, between 0 and the subtotal |
| OrdersCart.Cart.constructor | orders/cart.py:19-24 | the cart is the session's, or a new empty one shared with the session |
| OrdersCart.Cart.Len | orders/cart.py:88-89 | the sum of the quantities: between the number of meals and 20 times that number |
| OrdersCart.Cart.Add | orders/cart.py:26-35 | the meal's quantity becomes `clamp(1, 20, old + quantity)`. Nothing else changes. The session sees it while the dict is shared. The quantity bound is kept, and the length changes by the difference |
| OrdersCart.Cart.Set | orders/cart.py:37-50 | quantity ≤ 0 removes the meal, otherwise it is clamped into 1..20; the quantity bound is kept |
| OrdersCart.Cart.Remove | orders/cart.py:52-56 | only that meal's entry goes; the length drops by its quantity |
| OrdersCart.Cart.Clear | orders/cart.py:58-60 | the session holds an empty cart; the object's dict is kept and is no longer the session's |
| OrdersCart.Cart.TotalPrice | orders/cart.py:65-86 | the loop's total is the order-independent sum of the lines `__iter__` yields: each cart meal the catalog still has, at the current catalog price times the quantity. It is non-negative for non-negative prices |
| OrdersCart.Cart.TotalAfterDiscount | orders/cart.py:103-117 | `max(0, subtotal - max(0, discount))` of the current cart, where the discount is the marker's, or 0 without a marker |
| OrdersCart.Cart.RemovePromo | orders/cart.py:119-122 | no marker is left |
| OrdersCart.Cart.ApplyPromo | orders/cart.py:124-186 | the result is `CartOutcome` of the entered code on the current tables and the cart subtotal. A success stores the promotion's code, the discount and the time, and the total after discount is then the subtotal minus the discount. A failure removes the marker |
| ShopCart.Cart.constructor | backend/resto/shop/cart.py:8-14 | the session's cart, or an empty one, stored in the session |
| ShopCart.Cart.Len | backend/resto/shop/cart.py:54-55 | the sum of the quantities, non-negative when every quantity is |
| ShopCart.Cart.TotalPrice | backend/resto/shop/cart.py:57-61 | the sum of captured price × quantity, non-negative for non-negative entries |
| ShopCart.Cart.Add | backend/resto/shop/cart.py:16-29 | a new meal gets the current price, and an existing one keeps its captured price. The quantity becomes `quantity` (override) or grows by it, without bound. Other entries are unchanged, the session holds the cart, and the length and total change by the difference |
| ShopCart.Cart.Remove | backend/resto/shop/cart.py:35-39 | only that meal's key goes, and the cart is saved only then; length and total drop by its share |
| ShopCart.Cart.Clear | backend/resto/shop/cart.py:63-65 | the session no longer holds a cart |
| OrdersLoyalty.ApplyLoyaltyOnDelivery | orders/loyalty.py:10-28 | a guest changes nothing. With no meals only the account's creation happens. Otherwise the points become `(points + meals) mod 8` and exactly `(points + meals) div 8` free-meal vouchers are created; the account's update time is kept |
| OrdersLoyalty.NoMealsNoVoucher | orders/views.py:131-135 | with no meals and under a card of points, the conversion changes nothing |
| OrdersLoyalty.ApplyLoyaltyOnDeliveryInView | orders/views.py:124-139 | a guest changes nothing. Otherwise, even with no meals, the account is saved with `(points + meals) mod 8` and `now`, and `(points + meals) div 8` vouchers are created. With no meals the points are unchanged and no voucher is created |
| StaffViews.Deliver | staff/views.py:59-61 | the status ends delivered; loyalty runs exactly when it was not delivered |
| StaffViews.LoyaltyAtMostOnce | staff/views.py:59-63 | over any number of calls loyalty runs at most once, and exactly once when the order was not delivered and there is a call |
| StaffViews.MarkOrderDelivered | staff/views.py:55-63 | an unknown order changes nothing. Otherwise the status ends delivered. A delivered order is untouched. Any other order has only its status saved, and then gets the delivery loyalty: a guest's changes nothing, a buyer's order without meals only creates the account, and one with meals adds the points modulo 8 and one free-meal voucher per full eight |

## Left out

- Views, URL configurations, forms, admin, templates, settings and the signal dispatch in marketing/signals.py are not part of this model. Each service is a direct call. A paid save that re-fires the signal is shown by `LoyaltyService.RepeatedPaidSaveMintsAgain`.
- Transactions, `select_for_update` and concurrency: each service call is one atomic, sequential step. The non-atomic read-then-write guard of `mark_order_delivered` is not modelled under races.
- An exception inside a transaction is modelled as "nothing is written". Cases: `get_or_create` of a loyalty account for a guest in `on_order_paid`, and the unique-code conflict in `get_or_create_code` and `Promotion.save`.
- `timezone.now()` is the parameter `now`, and a call reads it once. The source reads the clock separately for `qualified_at` and `rewarded_at`.
- Decimal amounts are exact cents. `Decimal(str(...))` round trips of stored prices and discounts are exact, so the parse-failure branch of `get_discount_amount` cannot arise in the model.
- The final `quantize(..., ROUND_HALF_UP)` of `get_total_after_discount` is the identity on whole cents and is not written out.
- `str.upper()` is modelled on ASCII letters only. Other Unicode case mappings, including those that change a string's length, are not modelled.
- `PromoService.UserSegmentOk`: orders without `paid_at` are passed over, which is how the descending sort treats NULLs on SQLite and MySQL. On PostgreSQL such a row sorts first and makes an INACTIVE_30D user eligible. That ordering is not modelled.
- Dictionary iteration order: cart sums are proved independent of it. The sequence `__iter__` yields is modelled as a map of lines, not as an ordered list.
- `count_meals` at orders/cart.py:189-190 is declared inside the cart class without `self`. It is never used through the cart. The meal count the model uses is `OrderModels.CountMeals`.
- The cart's session `modified` flag (`save()`) is not modelled. Every write to the session's cart or promo entry is treated as persisted, since each mutating method calls `save()`.
- The orders cart's `promo_code` property and `get_subtotal_price` are one-line reads, folded into `OrdersCart.Cart.ApplyPromo` and `OrdersCart.Cart.TotalAfterDiscount`. The lines of `__iter__` (`OrdersCart.Cart.LineTotals`) are stated in the row of `OrdersCart.Cart.TotalPrice`. `get_discount_amount` (`OrdersCart.Cart.DiscountAmount`) is stated in the row of `OrdersCart.Cart.TotalAfterDiscount`.
- Checkout at orders/views.py:78-84 is not part of this model. It creates an order with `total` set to the cart total and leaves `subtotal` at 0.00, and nothing in the source calls `recompute_subtotal`. On such an order, `apply_promo` and `redeem_voucher` set the total to `max(0, 0 - discount)`, which is 0. The model therefore takes orders with any amounts, and states both writes exactly as the source makes them.
- `PromoService.ApplyPromo`: deliberately differs from `apply_promo` by evaluating on the order's subtotal instead of its current total. The as-written evaluation is `PromoService.EstimateDiscount`; see Findings.

## Findings

| source | as written | input that shows it | evidently intended | confidence | as-written member | corrected member |
|---|---|---|---|---|---|---|
| marketing/services.py:50-105 | `estimate_discount` applies the minimum order, the percentage and the clamp to `order.total_amount`. After an earlier promo on that order, this is already the discounted total, even though `apply_promo` then replaces the discount with `total = subtotal - discount` | an order of 5000.00 with a 10% code applied twice: the first application gives 500.00 (total 4500.00); the second gives 450.00 and leaves 4550.00 | the replacing promo is evaluated on the pre-discount subtotal, so re-applying the same code gives the same discount | medium, not executed | PromoService.AsWrittenReapplyDrifts (on PromoService.EstimateDiscount) | PromoService.ReapplyOnSubtotalStable (on PromoService.EstimateOnSubtotal, used by PromoService.ApplyPromo) |
