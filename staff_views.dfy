/** The staff "mark delivered" action of staff/views.py: a guarded status
    change that runs the delivery loyalty only on the first change. */
module StaffViews {
  import opened Common
  import opened OrderModels
  import opened MarketingModels
  import opened Db
  import opened LoyaltyService
  import opened OrdersLoyalty

  /** What one call does to an order's status, and whether it runs the
      loyalty step. */
  datatype DeliverStep = DeliverStep(status: OrderStatus, runsLoyalty: bool)

  /** The guard: an order not yet delivered becomes delivered and earns its
      loyalty; a delivered one is left as it is. */
  function Deliver(status: OrderStatus): (s: DeliverStep)
    ensures s.status == Delivered
    ensures s.runsLoyalty <==> status != Delivered
  {
    if status != Delivered then DeliverStep(Delivered, true) else DeliverStep(status, false)
  }

  /** How many times `n` calls in a row, from `status`, run the loyalty step. */
  function LoyaltyRuns(status: OrderStatus, n: nat): nat
    decreases n
  {
    if n == 0 then 0
    else
      var s := Deliver(status);
      (if s.runsLoyalty then 1 else 0) + LoyaltyRuns(s.status, n - 1)
  }

  /** However often the action is repeated on one order, loyalty runs once
      if the order was not delivered to begin with, and never otherwise. */
  lemma {:induction false} LoyaltyAtMostOnce(status: OrderStatus, n: nat)
    ensures LoyaltyRuns(status, n) <= 1
    ensures LoyaltyRuns(status, n) == 1 <==> n > 0 && status != Delivered
  {
    if n > 0 {
      DeliveredRunsNothing(n - 1);
    }
  }

  lemma {:induction false} DeliveredRunsNothing(n: nat)
    ensures LoyaltyRuns(Delivered, n) == 0
  {
    if n > 0 {
      DeliveredRunsNothing(n - 1);
    }
  }

  /** `mark_order_delivered`: an unknown order is a 404 and nothing changes.
      Otherwise, behind the guard, only the status is saved, as delivered,
      and the delivery loyalty of orders/loyalty.py runs on the order. */
  method MarkOrderDelivered(db: Store, orderId: OrderId, now: Time) returns (found: bool)
    requires db.Valid()
    modifies db`orders, db`accounts, db`freeMealVouchers
    ensures db.Valid()
    ensures found <==> orderId in old(db.orders)
    ensures !found ==>
      && db.orders == old(db.orders) && db.accounts == old(db.accounts)
      && db.freeMealVouchers == old(db.freeMealVouchers)
    ensures found ==> orderId in db.orders && db.orders[orderId].status == Delivered
    ensures found && !Deliver(old(db.orders)[orderId].status).runsLoyalty ==>
      && db.orders == old(db.orders) && db.accounts == old(db.accounts)
      && db.freeMealVouchers == old(db.freeMealVouchers)
    ensures found && Deliver(old(db.orders)[orderId].status).runsLoyalty ==>
      var o := old(db.orders)[orderId];
      && db.orders == old(db.orders)[orderId := o.(status := Delivered)]
      && (o.user.None? ==> db.accounts == old(db.accounts) && db.freeMealVouchers == old(db.freeMealVouchers))
      && (o.user.Some? && CountMeals(o.items) == 0 ==>
            && db.accounts == old(db.accounts)[o.user.value := AccountOf(old(db.accounts), o.user.value, now)]
            && db.freeMealVouchers == old(db.freeMealVouchers))
      && (o.user.Some? && CountMeals(o.items) > 0 ==>
            var acc := AccountOf(old(db.accounts), o.user.value, now);
            var a := Accrue(acc.stamps, CountMeals(o.items));
            && db.accounts == old(db.accounts)[o.user.value := acc.(stamps := a.stamps)]
            && db.freeMealVouchers == old(db.freeMealVouchers) + Repeat(NewFreeMealVoucher(o.user.value, now), a.vouchers))
  {
    if orderId !in db.orders {
      return false;
    }
    var order := db.orders[orderId];
    if order.status != Delivered {
      order := order.(status := Delivered);
      db.orders := db.orders[orderId := order];
      ApplyLoyaltyOnDelivery(db, order, now);
    }
    found := true;
  }
}
