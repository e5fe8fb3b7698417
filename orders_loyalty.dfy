/** The orders app's loyalty on delivery: orders/loyalty.py and its copy in
    orders/views.py. Each delivered meal is a point and every eight points
    become one free-meal voucher. */
module OrdersLoyalty {
  import opened Common
  import opened OrderModels
  import opened MarketingModels
  import opened Db
  import opened LoyaltyService

  /** A free-meal voucher as `FreeMealVoucher.objects.create(user=...)`
      writes it: unused, on no order. */
  function NewFreeMealVoucher(user: UserId, now: Time): (v: FreeMealVoucher)
    ensures v.user == user && !v.isUsed && v.usedOrder == None
  {
    FreeMealVoucher(user, false, None, now)
  }

  /** `LoyaltyAccount.objects.get_or_create(user=...)`: the user's account,
      or a new one with no points. */
  function AccountOf(accounts: map<UserId, LoyaltyAccount>, user: UserId, now: Time): (a: LoyaltyAccount)
    ensures user in accounts ==> a == accounts[user]
    ensures user !in accounts ==> a.stamps == 0
  {
    if user in accounts then accounts[user] else LoyaltyAccount(0, now)
  }

  /** With no meals and less than a card of points, nothing is converted. */
  lemma NoMealsNoVoucher(points: nat)
    requires points < STAMPS_TARGET
    ensures Accrue(points, 0) == Accrual(points, 0)
  {
    AccrualUnique(points, points, 0);
  }

  /** `apply_loyalty_on_delivery` of orders/loyalty.py: a guest order changes
      nothing. Otherwise the account is fetched or created; an order without
      meals stops there. Else the points grow by the meals, are reduced
      modulo 8 and saved (the point count only: the account's update time is
      not written), and one free-meal voucher is created per full eight. */
  method ApplyLoyaltyOnDelivery(db: Store, order: Order, now: Time)
    requires db.Valid()
    modifies db`accounts, db`freeMealVouchers
    ensures db.Valid()
    ensures order.user.None? ==>
      db.accounts == old(db.accounts) && db.freeMealVouchers == old(db.freeMealVouchers)
    ensures order.user.Some? ==>
      var u := order.user.value;
      var acc := AccountOf(old(db.accounts), u, now);
      var a := Accrue(acc.stamps, CountMeals(order.items));
      && (CountMeals(order.items) == 0 ==>
            && db.accounts == old(db.accounts)[u := acc]
            && db.freeMealVouchers == old(db.freeMealVouchers))
      && (CountMeals(order.items) > 0 ==>
            && db.accounts == old(db.accounts)[u := acc.(stamps := a.stamps)]
            && db.freeMealVouchers == old(db.freeMealVouchers) + Repeat(NewFreeMealVoucher(u, now), a.vouchers))
  {
    if order.user.None? {
      return;
    }
    var u := order.user.value;
    var account := AccountOf(db.accounts, u, now);
    db.accounts := db.accounts[u := account];
    var meals := CountMeals(order.items);
    if meals <= 0 {
      return;
    }
    var points := account.stamps + meals;
    var freeCount := points / STAMPS_TARGET;
    points := points % STAMPS_TARGET;
    db.accounts := db.accounts[u := account.(stamps := points)];
    for i := 0 to freeCount
      invariant db.freeMealVouchers == old(db.freeMealVouchers) + Repeat(NewFreeMealVoucher(u, now), i)
      invariant db.accounts == old(db.accounts)[u := account.(stamps := points)]
    {
      db.freeMealVouchers := db.freeMealVouchers + [NewFreeMealVoucher(u, now)];
    }
  }

  /** `apply_loyalty_on_delivery` of orders/views.py: the same conversion
      without the early return for an order with no meals, and with the
      whole account saved, so its update time becomes `now`. In a store
      whose accounts all hold less than a card, an order with no meals
      still leaves the points as they were and creates no voucher. */
  method ApplyLoyaltyOnDeliveryInView(db: Store, order: Order, now: Time)
    requires db.Valid()
    modifies db`accounts, db`freeMealVouchers
    ensures db.Valid()
    ensures order.user.None? ==>
      db.accounts == old(db.accounts) && db.freeMealVouchers == old(db.freeMealVouchers)
    ensures order.user.Some? ==>
      var u := order.user.value;
      var a := Accrue(AccountOf(old(db.accounts), u, now).stamps, CountMeals(order.items));
      && db.accounts == old(db.accounts)[u := LoyaltyAccount(a.stamps, now)]
      && db.freeMealVouchers == old(db.freeMealVouchers) + Repeat(NewFreeMealVoucher(u, now), a.vouchers)
    ensures order.user.Some? && CountMeals(order.items) == 0 ==>
      && db.accounts[order.user.value].stamps == AccountOf(old(db.accounts), order.user.value, now).stamps
      && db.freeMealVouchers == old(db.freeMealVouchers)
  {
    if order.user.None? {
      return;
    }
    var u := order.user.value;
    var account := AccountOf(db.accounts, u, now);
    var meals := CountMeals(order.items);
    var points := account.stamps + meals;
    var freeCount := points / STAMPS_TARGET;
    points := points % STAMPS_TARGET;
    db.accounts := db.accounts[u := LoyaltyAccount(points, now)];
    for i := 0 to freeCount
      invariant db.freeMealVouchers == old(db.freeMealVouchers) + Repeat(NewFreeMealVoucher(u, now), i)
      invariant db.accounts == old(db.accounts)[u := LoyaltyAccount(points, now)]
    {
      db.freeMealVouchers := db.freeMealVouchers + [NewFreeMealVoucher(u, now)];
    }
    if meals == 0 {
      NoMealsNoVoucher(account.stamps);
    }
  }
}
