/** The persistent tables the pricing services read and write, held in
    memory, with each ORM query they issue written as a function over those
    tables. A record's primary key is its position in its table; an order's
    is its key in the orders map. */
module Db {
  import opened Common
  import opened Text
  import opened OrderModels
  import opened MarketingModels

  class Store {
    var orders: map<OrderId, Order>
    var promotions: seq<Promotion>
    var redemptions: seq<Redemption>
    var referralCodes: seq<ReferralCode>
    var referrals: seq<Referral>
    var ledger: seq<LedgerEntry>
    var accounts: map<UserId, LoyaltyAccount>
    var vouchers: seq<FreeItemVoucher>
    var freeMealVouchers: seq<FreeMealVoucher>

    /** The database constraints of the models, and the invariants the
        services keep: at most one APPLIED redemption per order, no loyalty
        account holding a full card. Order totals are not constrained. */
    ghost predicate Valid()
      reads this
    {
      && PromoCodesUnique(promotions)
      && ReferralCodesUnique(referralCodes)
      && ReferralsWellFormed(referrals, |referralCodes|)
      && RedemptionsWellFormed(redemptions, |promotions|)
      && AtMostOneAppliedPerOrder(redemptions)
      && AccountsBelowCard(accounts)
    }

    constructor ()
      ensures Valid()
      ensures orders == map[] && accounts == map[]
      ensures promotions == [] && redemptions == [] && referralCodes == [] && referrals == []
      ensures ledger == [] && vouchers == [] && freeMealVouchers == []
    {
      orders, accounts := map[], map[];
      promotions, redemptions, referralCodes, referrals := [], [], [], [];
      ledger, vouchers, freeMealVouchers := [], [], [];
    }

    /** `Promotion.save()` on a new promotion: the code is normalized, and a
        code already in use breaks the unique constraint and nothing is saved. */
    method AddPromotion(p: Promotion) returns (ok: bool)
      requires Valid()
      modifies this`promotions
      ensures Valid()
      ensures ok <==> FindPromotion(old(promotions), SavedPromotion(p).code) == None
      ensures promotions == if ok then old(promotions) + [SavedPromotion(p)] else old(promotions)
    {
      var q := SavedPromotion(p);
      ok := FindPromotion(promotions, q.code) == None;
      if ok {
        PromoCodesUniqueSnoc(promotions, q);
        RedemptionsWellFormedMono(redemptions, |promotions|, |promotions| + 1);
        promotions := promotions + [q];
        assert PromoCodesUnique(promotions) && RedemptionsWellFormed(redemptions, |promotions|);
        assert ReferralCodesUnique(referralCodes) && ReferralsWellFormed(referrals, |referralCodes|);
        assert AtMostOneAppliedPerOrder(redemptions) && AccountsBelowCard(accounts);
      }
    }
  }

  // ---- constraints ----

  /** `Promotion.code` is unique. */
  predicate PromoCodesUnique(ps: seq<Promotion>)
  {
    forall i, j | 0 <= i < j < |ps| :: ps[i].code != ps[j].code
  }

  /** `ReferralCode.user` is one-to-one and `ReferralCode.code` is unique. */
  predicate ReferralCodesUnique(cs: seq<ReferralCode>)
  {
    forall i, j | 0 <= i < j < |cs| :: cs[i].user != cs[j].user && cs[i].code != cs[j].code
  }

  /** `Referral.referred` is one-to-one, no referral has the referrer as the
      referred user, and every referral points at an existing code. */
  predicate ReferralsWellFormed(rs: seq<Referral>, codeCount: nat)
  {
    && (forall i, j | 0 <= i < j < |rs| :: rs[i].referred != rs[j].referred)
    && (forall i | 0 <= i < |rs| :: rs[i].referrer != rs[i].referred && rs[i].referralCode < codeCount)
  }

  lemma PromoCodesUniqueSnoc(ps: seq<Promotion>, q: Promotion)
    requires PromoCodesUnique(ps)
    requires forall j | 0 <= j < |ps| :: ps[j].code != q.code
    ensures PromoCodesUnique(ps + [q])
  {
  }

  lemma ReferralCodesUniqueSnoc(cs: seq<ReferralCode>, c: ReferralCode)
    requires ReferralCodesUnique(cs)
    requires forall j | 0 <= j < |cs| :: cs[j].user != c.user && cs[j].code != c.code
    ensures ReferralCodesUnique(cs + [c])
  {
  }

  lemma ReferralsWellFormedMono(rs: seq<Referral>, n: nat, m: nat)
    requires ReferralsWellFormed(rs, n) && n <= m
    ensures ReferralsWellFormed(rs, m)
  {
  }

  lemma RedemptionsWellFormedMono(rs: seq<Redemption>, n: nat, m: nat)
    requires RedemptionsWellFormed(rs, n) && n <= m
    ensures RedemptionsWellFormed(rs, m)
  {
  }

  predicate RedemptionsWellFormed(rs: seq<Redemption>, promoCount: nat)
  {
    forall i | 0 <= i < |rs| :: rs[i].promotion < promoCount
  }

  /** The non-cumulable policy: no order has two APPLIED redemptions. */
  predicate AtMostOneAppliedPerOrder(rs: seq<Redemption>)
  {
    forall i, j | 0 <= i < j < |rs| && rs[i].status == Applied && rs[j].status == Applied ::
      rs[i].order != rs[j].order
  }

  /** Every loyalty conversion leaves fewer stamps than a card. */
  predicate AccountsBelowCard(accounts: map<UserId, LoyaltyAccount>)
  {
    forall u | u in accounts :: accounts[u].stamps < STAMPS_TARGET
  }

  // ---- queries ----

  /** `Promotion.objects.filter(code=code).first()` */
  function FindPromotion(ps: seq<Promotion>, code: string): (r: Option<nat>)
    ensures r.Some? ==> r.value < |ps| && ps[r.value].code == code
    ensures r.Some? ==> forall j | 0 <= j < r.value :: ps[j].code != code
    ensures r.None? ==> forall j | 0 <= j < |ps| :: ps[j].code != code
  {
    if |ps| == 0 then None
    else if ps[0].code == code then Some(0)
    else match FindPromotion(ps[1..], code)
      case None => None
      case Some(i) => Some(i + 1)
  }

  /** `ReferralCode.objects.filter(code=code, is_active=True).first()` */
  function FindActiveReferralCode(cs: seq<ReferralCode>, code: string): (r: Option<nat>)
    ensures r.Some? ==> r.value < |cs| && cs[r.value].code == code && cs[r.value].isActive
    ensures r.Some? ==> forall j | 0 <= j < r.value :: !(cs[j].code == code && cs[j].isActive)
    ensures r.None? ==> forall j | 0 <= j < |cs| :: !(cs[j].code == code && cs[j].isActive)
  {
    if |cs| == 0 then None
    else if cs[0].code == code && cs[0].isActive then Some(0)
    else match FindActiveReferralCode(cs[1..], code)
      case None => None
      case Some(i) => Some(i + 1)
  }

  /** `ReferralCode.objects.filter(user=user).first()` */
  function FindUserReferralCode(cs: seq<ReferralCode>, user: UserId): (r: Option<nat>)
    ensures r.Some? ==> r.value < |cs| && cs[r.value].user == user
    ensures r.None? ==> forall j | 0 <= j < |cs| :: cs[j].user != user
  {
    if |cs| == 0 then None
    else if cs[0].user == user then Some(0)
    else match FindUserReferralCode(cs[1..], user)
      case None => None
      case Some(i) => Some(i + 1)
  }

  /** Whether some referral code, of any user, is `code`. */
  predicate ReferralCodeTaken(cs: seq<ReferralCode>, code: string)
  {
    exists j | 0 <= j < |cs| :: cs[j].code == code
  }

  /** `Referral.objects.filter(referred=user).exists()` */
  predicate IsReferred(rs: seq<Referral>, user: UserId)
  {
    exists j | 0 <= j < |rs| :: rs[j].referred == user
  }

  /** `Referral.objects.filter(referred=user, status=PENDING).first()` */
  function FindPendingReferral(rs: seq<Referral>, user: UserId): (r: Option<nat>)
    ensures r.Some? ==> r.value < |rs| && rs[r.value].referred == user && rs[r.value].status == ReferralPending
    ensures r.None? ==> forall j | 0 <= j < |rs| :: !(rs[j].referred == user && rs[j].status == ReferralPending)
  {
    if |rs| == 0 then None
    else if rs[0].referred == user && rs[0].status == ReferralPending then Some(0)
    else match FindPendingReferral(rs[1..], user)
      case None => None
      case Some(i) => Some(i + 1)
  }

  /** `PromotionRedemption.objects.filter(promotion=p, status="APPLIED").count()` */
  function CountApplied(rs: seq<Redemption>, promotion: nat): (n: nat)
    ensures n <= |rs|
    ensures n == 0 <==> forall j | 0 <= j < |rs| :: !(rs[j].promotion == promotion && rs[j].status == Applied)
  {
    if |rs| == 0 then 0
    else CountApplied(rs[..|rs| - 1], promotion)
         + (if rs[|rs| - 1].promotion == promotion && rs[|rs| - 1].status == Applied then 1 else 0)
  }

  /** `PromotionRedemption.objects.filter(promotion=p, user=u, status="APPLIED").count()` */
  function CountAppliedByUser(rs: seq<Redemption>, promotion: nat, user: UserId): (n: nat)
    ensures n <= CountApplied(rs, promotion)
  {
    if |rs| == 0 then 0
    else CountAppliedByUser(rs[..|rs| - 1], promotion, user)
         + (if rs[|rs| - 1].promotion == promotion && rs[|rs| - 1].user == user
               && rs[|rs| - 1].status == Applied then 1 else 0)
  }

  /** `Order.objects.filter(user=user, status="PAID").exists()` */
  predicate HasPaidOrder(orders: map<OrderId, Order>, user: UserId)
    ensures !HasPaidOrder(orders, user) ==> PaidTimes(orders, user) == {}
  {
    exists id | id in orders :: orders[id].user == Some(user) && orders[id].status == Paid
  }

  /** The payment instants recorded on the user's PAID orders. */
  function PaidTimes(orders: map<OrderId, Order>, user: UserId): set<Time>
  {
    set id | id in orders && orders[id].user == Some(user) && orders[id].status == Paid
             && orders[id].paidAt.Some? :: orders[id].paidAt.value
  }
}
