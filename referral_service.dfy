/** ReferralService of marketing/services.py: referral codes, attributing a
    new user to a referrer, and rewarding the referrer once. */
module ReferralService {
  import opened Common
  import opened Text
  import opened OrderModels
  import opened MarketingModels
  import opened Db

  const REFERRAL_REWARD: Cents := 100000
  const REFERRAL_MIN_ORDER: Cents := 500000

  datatype ReferralReason = RefCodeNotFound | SelfReferral | AlreadyReferred

  datatype ReferralOutcome = ReferralOk | ReferralFailed(reason: ReferralReason)

  /** The code generated for a user: `f"REF-{user.id:06d}"`. */
  function GeneratedCode(user: UserId): (c: string)
    ensures |c| >= 10 && c[..4] == "REF-"
  {
    "REF-" + ZeroPadded(user, 6)
  }

  /** Generated codes are already in stored form. */
  lemma GeneratedCodeNormalized(user: UserId)
    ensures IsNormalized(GeneratedCode(user))
    ensures Normalize(GeneratedCode(user)) == GeneratedCode(user)
  {
    var c := GeneratedCode(user);
    assert forall i | 4 <= i < |c| :: IsDigit(c[i]) by {
      forall i | 4 <= i < |c| ensures IsDigit(c[i]) {
        assert c[i] == ZeroPadded(user, 6)[i - 4];
      }
    }
    NormalizeFixesNormalized(c);
  }

  /** Saving a generated code stores it as it is. */
  lemma SavedGeneratedCode(user: UserId, now: Time)
    ensures SavedReferralCode(ReferralCode(user, GeneratedCode(user), true, now))
            == ReferralCode(user, GeneratedCode(user), true, now)
  {
    GeneratedCodeNormalized(user);
  }

  /** Two users never get the same generated code. */
  lemma GeneratedCodeInjective(a: UserId, b: UserId)
    requires GeneratedCode(a) == GeneratedCode(b)
    ensures a == b
  {
    var ca, cb := GeneratedCode(a), GeneratedCode(b);
    assert ca[4..] == ZeroPadded(a, 6);
    assert cb[4..] == ZeroPadded(b, 6);
    ZeroPaddedValue(a, 6);
    ZeroPaddedValue(b, 6);
  }

  /** `get_or_create_code`: the user's code if there is one; otherwise a new
      active code `REF-nnnnnn`. If a code with that text is already held by
      another user, the unique constraint refuses the insert (None). */
  method GetOrCreateCode(db: Store, user: UserId, now: Time) returns (r: Option<ReferralCode>)
    requires db.Valid()
    modifies db`referralCodes
    ensures db.Valid()
    ensures FindUserReferralCode(old(db.referralCodes), user).Some? ==>
      && r == Some(old(db.referralCodes)[FindUserReferralCode(old(db.referralCodes), user).value])
      && db.referralCodes == old(db.referralCodes)
    ensures FindUserReferralCode(old(db.referralCodes), user).None? ==>
      if ReferralCodeTaken(old(db.referralCodes), GeneratedCode(user)) then
        r == None && db.referralCodes == old(db.referralCodes)
      else
        && r == Some(ReferralCode(user, GeneratedCode(user), true, now))
        && db.referralCodes == old(db.referralCodes) + [r.value]
    ensures r.Some? ==> r.value.user == user
  {
    var existing := FindUserReferralCode(db.referralCodes, user);
    if existing.Some? {
      return Some(db.referralCodes[existing.value]);
    }
    // Saving stores the generated code as it is (SavedGeneratedCode).
    var c := ReferralCode(user, GeneratedCode(user), true, now);
    if ReferralCodeTaken(db.referralCodes, c.code) {
      return None;
    }
    var codes := db.referralCodes + [c];
    ReferralCodesUniqueSnoc(db.referralCodes, c);
    ReferralsWellFormedMono(db.referrals, |db.referralCodes|, |codes|);
    db.referralCodes := codes;
    r := Some(c);
  }

  /** `apply_referral_code`: the normalized code must name an active code,
      of another user, and the caller must not have been referred before;
      the checks are made in that order. Only success writes, one PENDING
      referral. */
  method ApplyReferralCode(db: Store, referred: UserId, code: string, now: Time) returns (r: ReferralOutcome)
    requires db.Valid()
    modifies db`referrals
    ensures db.Valid()
    ensures
      var found := FindActiveReferralCode(old(db.referralCodes), Normalize(code));
      && (found.None? ==> r == ReferralFailed(RefCodeNotFound))
      && (found.Some? && db.referralCodes[found.value].user == referred ==> r == ReferralFailed(SelfReferral))
      && ((found.Some? && db.referralCodes[found.value].user != referred && IsReferred(old(db.referrals), referred))
          ==> r == ReferralFailed(AlreadyReferred))
      && (r == ReferralOk <==> found.Some? && db.referralCodes[found.value].user != referred
                                && !IsReferred(old(db.referrals), referred))
      && (r == ReferralOk ==>
            db.referrals == old(db.referrals) + [NewReferral(db.referralCodes[found.value].user, referred, found.value, now)])
    ensures r.ReferralFailed? ==> db.referrals == old(db.referrals)
    ensures IsReferred(db.referrals, referred) == (IsReferred(old(db.referrals), referred) || r == ReferralOk)
  {
    var found := FindActiveReferralCode(db.referralCodes, Normalize(code));
    if found.None? {
      return ReferralFailed(RefCodeNotFound);
    }
    var rc := db.referralCodes[found.value];
    if rc.user == referred {
      return ReferralFailed(SelfReferral);
    }
    if IsReferred(db.referrals, referred) {
      return ReferralFailed(AlreadyReferred);
    }
    var added := NewReferral(rc.user, referred, found.value, now);
    ReferralsSnoc(db.referrals, added, |db.referralCodes|);
    db.referrals := db.referrals + [added];
    assert db.referrals[|db.referrals| - 1].referred == referred;
    r := ReferralOk;
  }

  lemma ReferralsSnoc(rs: seq<Referral>, added: Referral, codeCount: nat)
    requires ReferralsWellFormed(rs, codeCount)
    requires !IsReferred(rs, added.referred)
    requires added.referrer != added.referred && added.referralCode < codeCount
    ensures ReferralsWellFormed(rs + [added], codeCount)
  {
    var rs' := rs + [added];
    forall i, j | 0 <= i < j < |rs'| ensures rs'[i].referred != rs'[j].referred {
      if j == |rs| {
        assert rs'[i] == rs[i];
      }
    }
  }

  /** The ledger credit written for referral number `ri`. */
  function ReferralCredit(referrer: UserId, ri: nat, now: Time): (e: LedgerEntry)
    ensures e.sourceType == ReferralSource && e.amount == REFERRAL_REWARD && e.user == referrer
    ensures e.status == LedgerActive && e.expiresAt == None
  {
    LedgerEntry(referrer, ReferralSource, Some(DecimalDigits(ri)), REFERRAL_REWARD, now, None, LedgerActive)
  }

  /** Whether the paid order is one that qualifies its buyer's referral. */
  predicate Qualifies(o: Order)
  {
    o.status == Paid && o.total >= REFERRAL_MIN_ORDER && o.user.Some?
  }

  /** `try_qualify_and_reward`: for a PAID order of at least 5000.00 whose
      buyer has a PENDING referral, the referral moves to QUALIFIED (with the
      order and time recorded), the referrer is credited 1000.00 once, and the
      referral moves on to REWARDED. Anything else is a no-op. */
  method TryQualifyAndReward(db: Store, order: Order, orderId: OrderId, now: Time)
    requires db.Valid()
    requires orderId in db.orders && db.orders[orderId] == order
    modifies db`referrals, db`ledger
    ensures db.Valid()
    ensures
      var pending := if order.user.Some? then FindPendingReferral(old(db.referrals), order.user.value) else None;
      if Qualifies(order) && pending.Some? then
        var ri := pending.value;
        var ref := old(db.referrals)[ri];
        && db.referrals == old(db.referrals)[ri := ref.(status := Rewarded, qualifiedOrder := Some(orderId),
                                                        qualifiedAt := Some(now), rewardedAt := Some(now))]
        && db.ledger == old(db.ledger) + [ReferralCredit(ref.referrer, ri, now)]
        && FindPendingReferral(db.referrals, order.user.value) == None
      else
        db.referrals == old(db.referrals) && db.ledger == old(db.ledger)
  {
    if order.status != Paid {
      return;
    }
    if order.total < REFERRAL_MIN_ORDER {
      return;
    }
    if order.user.None? {
      return;
    }
    var pending := FindPendingReferral(db.referrals, order.user.value);
    if pending.None? {
      return;
    }
    var ri := pending.value;
    var ref := db.referrals[ri];
    ref := ref.(status := Qualified, qualifiedOrder := Some(orderId), qualifiedAt := Some(now));
    db.referrals := db.referrals[ri := ref];
    db.ledger := db.ledger + [ReferralCredit(ref.referrer, ri, now)];
    ref := ref.(status := Rewarded, rewardedAt := Some(now));
    db.referrals := db.referrals[ri := ref];
    NoOtherPending(old(db.referrals), |db.referralCodes|, ri, ref);
  }

  /** Once the only referral of a user stops being PENDING, the user has no
      PENDING referral left, so a second reward attempt does nothing. */
  lemma NoOtherPending(rs: seq<Referral>, codeCount: nat, ri: nat, updated: Referral)
    requires ReferralsWellFormed(rs, codeCount) && ri < |rs|
    requires updated.referred == rs[ri].referred && updated.referrer == rs[ri].referrer
    requires updated.referralCode == rs[ri].referralCode && updated.status != ReferralPending
    ensures FindPendingReferral(rs[ri := updated], rs[ri].referred) == None
    ensures ReferralsWellFormed(rs[ri := updated], codeCount)
  {
    var rs' := rs[ri := updated];
    forall j | 0 <= j < |rs'| && j != ri ensures rs'[j].referred != rs[ri].referred {
      assert rs'[j] == rs[j];
      if j < ri {
        assert rs[j].referred != rs[ri].referred;
      } else {
        assert rs[ri].referred != rs[j].referred;
      }
    }
    forall i, j | 0 <= i < j < |rs'| ensures rs'[i].referred != rs'[j].referred {
      assert rs'[i].referred == rs[i].referred && rs'[j].referred == rs[j].referred;
    }
  }
}
