/** The incentive records of marketing/models.py: promotions and their
    redemptions, referral codes and referrals, the reward ledger, loyalty
    accounts and free-item vouchers. */
module MarketingModels {
  import opened Common
  import opened Text
  import opened OrderModels

  datatype PromoType = Percent | FixedAmount | FreeItem

  datatype Segment = AllUsers | NewUsers | Inactive30Days

  datatype Promotion = Promotion(
    name: string,
    code: string,
    promoType: PromoType,
    value: Cents,
    maxDiscountAmount: Option<Cents>,
    minOrderAmount: Option<Cents>,
    segment: Segment,
    startAt: Option<Time>,
    endAt: Option<Time>,
    isActive: bool,
    usageLimitTotal: Option<nat>,
    usageLimitPerUser: Option<nat>,
    nonCumulable: bool)

  /** `Promotion.save`: a non-empty code is stored stripped and upper-cased. */
  function SavedPromotion(p: Promotion): (q: Promotion)
    ensures IsNormalized(q.code)
    ensures q == p.(code := q.code)
    ensures q.code == Normalize(p.code)
  {
    if p.code != "" then p.(code := Normalize(p.code)) else p
  }

  /** Saving a promotion that was already saved changes nothing. */
  lemma SavedPromotionIdempotent(p: Promotion)
    ensures SavedPromotion(SavedPromotion(p)) == SavedPromotion(p)
  {
    NormalizeIdempotent(p.code);
  }

  /** `is_currently_valid`: active, and `now` within the window, both bounds
      inclusive and an absent bound ignored. */
  predicate IsCurrentlyValid(p: Promotion, now: Time)
  {
    if !p.isActive then false
    else if p.startAt.Some? && now < p.startAt.value then false
    else if p.endAt.Some? && now > p.endAt.value then false
    else true
  }

  lemma IsCurrentlyValidIff(p: Promotion, now: Time)
    ensures IsCurrentlyValid(p, now) <==>
      && p.isActive
      && (p.startAt == None || p.startAt.value <= now)
      && (p.endAt == None || now <= p.endAt.value)
  {
  }

  datatype RedemptionStatus = Applied | Cancelled | Reversed

  /** One promotion used on one order; `promotion` is the position of the
      promotion in the promotions table. */
  datatype Redemption = Redemption(
    promotion: nat,
    user: UserId,
    order: OrderId,
    discountAmount: Cents,
    redeemedAt: Time,
    status: RedemptionStatus,
    deviceId: Option<string>,
    ipHash: Option<string>)

  /** A redemption as `PromotionRedemption.objects.create` writes it: APPLIED. */
  function NewRedemption(promotion: nat, user: UserId, order: OrderId, discount: Cents,
                         now: Time, deviceId: Option<string>, ipHash: Option<string>): (r: Redemption)
    ensures r.status == Applied && r.order == order && r.discountAmount == discount
  {
    Redemption(promotion, user, order, discount, now, Applied, deviceId, ipHash)
  }

  datatype ReferralCode = ReferralCode(user: UserId, code: string, isActive: bool, createdAt: Time)

  /** `ReferralCode.save`: a non-empty code is stored stripped and upper-cased. */
  function SavedReferralCode(c: ReferralCode): (d: ReferralCode)
    ensures IsNormalized(d.code)
    ensures d == c.(code := d.code)
    ensures d.code == Normalize(c.code)
  {
    if c.code != "" then c.(code := Normalize(c.code)) else c
  }

  datatype ReferralStatus = ReferralPending | Qualified | Rewarded | Rejected

  /** `referralCode` is the position of the code in the referral-code table. */
  datatype Referral = Referral(
    referrer: UserId,
    referred: UserId,
    referralCode: nat,
    status: ReferralStatus,
    qualifiedOrder: Option<OrderId>,
    qualifiedAt: Option<Time>,
    rewardedAt: Option<Time>,
    createdAt: Time)

  function NewReferral(referrer: UserId, referred: UserId, code: nat, now: Time): (r: Referral)
    ensures r.status == ReferralPending && r.referrer == referrer && r.referred == referred
    ensures r.qualifiedOrder == None && r.qualifiedAt == None && r.rewardedAt == None
  {
    Referral(referrer, referred, code, ReferralPending, None, None, None, now)
  }

  datatype SourceType = ReferralSource | PromoAdjust | Compensation

  datatype LedgerStatus = LedgerActive | LedgerExpired | LedgerReversed

  /** A signed credit (or debit) to a user. */
  datatype LedgerEntry = LedgerEntry(
    user: UserId,
    sourceType: SourceType,
    sourceId: Option<string>,
    amount: Cents,
    createdAt: Time,
    expiresAt: Option<Time>,
    status: LedgerStatus)

  /** Stamps (or points) per free voucher, in both loyalty schemes. */
  const STAMPS_TARGET: nat := 8

  /** `stamps` is a PositiveIntegerField (0 allowed), hence a nat. */
  datatype LoyaltyAccount = LoyaltyAccount(stamps: nat, updatedAt: Time)

  datatype VoucherStatus = Available | Used | Expired

  datatype FreeItemVoucher = FreeItemVoucher(
    user: UserId,
    maxItemValue: Cents,
    expiresAt: Time,
    status: VoucherStatus,
    usedOrder: Option<OrderId>,
    createdAt: Time)

  function NewVoucher(user: UserId, maxItemValue: Cents, expiresAt: Time, now: Time): (v: FreeItemVoucher)
    ensures v.status == Available && v.usedOrder == None && v.user == user
  {
    FreeItemVoucher(user, maxItemValue, expiresAt, Available, None, now)
  }

  /** The only status changes a voucher may make: none, AVAILABLE to USED,
      or AVAILABLE to EXPIRED. */
  predicate VoucherStep(before: VoucherStatus, after: VoucherStatus)
  {
    before == after || (before == Available && after != Available)
  }
}
