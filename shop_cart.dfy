/** The older session cart of backend/resto/shop/cart.py: each entry keeps
    the price the meal had when it was first added, quantities are not
    bounded, and clearing drops the cart from the session. */
module ShopCart {
  import opened Common
  import opened MapSums

  type MealId = nat

  /** One cart entry: how many, and the price captured on the first add. */
  datatype Entry = Entry(quantity: int, price: Cents)

  /** The quantity of every entry. */
  function Quantities(items: map<MealId, Entry>): (q: map<MealId, int>)
    ensures q.Keys == items.Keys && forall k | k in q :: q[k] == items[k].quantity
  {
    map k | k in items :: items[k].quantity
  }

  /** The line total of every entry, at its captured price. */
  function LineTotals(items: map<MealId, Entry>): (t: map<MealId, Cents>)
    ensures t.Keys == items.Keys && forall k | k in t :: t[k] == items[k].price * items[k].quantity
  {
    map k | k in items :: items[k].price * items[k].quantity
  }

  class Cart {
    /** `self.cart` */
    var items: map<MealId, Entry>
    /** The session's cart entry: absent after `clear`, otherwise the very
        dict `self.cart`, which every `save` stores again. */
    var stored: Option<map<MealId, Entry>>

    predicate Valid()
      reads this
    {
      stored.Some? ==> stored.value == items
    }

    /** `Cart(request)`: the session's cart, or a new empty one. */
    constructor (sessionCart: Option<map<MealId, Entry>>)
      ensures Valid() && stored == Some(items)
      ensures items == (if sessionCart.Some? then sessionCart.value else map[])
    {
      items := if sessionCart.Some? then sessionCart.value else map[];
      stored := Some(items);
    }

    /** `__len__`: the sum of the quantities. */
    ghost function Len(): (n: int)
      reads this
      ensures (forall k | k in items :: items[k].quantity >= 0) ==> n >= 0
    {
      var q := Quantities(items);
      if forall k | k in items :: items[k].quantity >= 0 then
        SumOverNonNegative(q, q.Keys);
        MapSum(q)
      else
        MapSum(q)
    }

    /** `get_total_price`: the sum of captured price times quantity; the
        catalog's current price plays no part. */
    ghost function TotalPrice(): (t: Cents)
      reads this
      ensures (forall k | k in items :: items[k].quantity >= 0 && items[k].price >= 0) ==> t >= 0
    {
      var lines := LineTotals(items);
      if forall k | k in items :: items[k].quantity >= 0 && items[k].price >= 0 then
        SumOverNonNegative(lines, lines.Keys);
        MapSum(lines)
      else
        MapSum(lines)
    }

    /** `add(meal, quantity, override_quantity)`: a meal not yet in the cart
        gets an entry with quantity 0 and the meal's current price; then the
        quantity is set to `quantity` (override) or grows by it. Nothing is
        clamped, an existing entry keeps its captured price, and the other
        entries are untouched. */
    method Add(meal: MealId, currentPrice: Cents, quantity: int, overrideQuantity: bool)
      requires Valid()
      modifies this
      ensures Valid() && stored == Some(items)
      ensures meal in items && items.Keys == old(items).Keys + {meal}
      ensures items[meal].price == (if meal in old(items) then old(items)[meal].price else currentPrice)
      ensures items[meal].quantity ==
        (if overrideQuantity then quantity
         else (if meal in old(items) then old(items)[meal].quantity else 0) + quantity)
      ensures forall k | k in old(items) && k != meal :: items[k] == old(items)[k]
      ensures Len() == old(Len()) - (if meal in old(items) then old(items)[meal].quantity else 0) + items[meal].quantity
      ensures TotalPrice() == old(TotalPrice())
        - (if meal in old(items) then old(items)[meal].price * old(items)[meal].quantity else 0)
        + items[meal].price * items[meal].quantity
    {
      var entry := if meal in items then items[meal] else Entry(0, currentPrice);
      var q := if overrideQuantity then quantity else entry.quantity + quantity;
      var updated := items[meal := entry.(quantity := q)];
      MapSumUpdate(Quantities(items), meal, q);
      assert Quantities(updated) == Quantities(items)[meal := q];
      MapSumUpdate(LineTotals(items), meal, entry.price * q);
      assert LineTotals(updated) == LineTotals(items)[meal := entry.price * q];
      items := updated;
      stored := Some(items);
    }

    /** `remove`: that meal's entry goes if it is there; only then is the
        cart saved. */
    method Remove(meal: MealId)
      requires Valid()
      modifies this
      ensures Valid()
      ensures items == old(items) - {meal}
      ensures meal in old(items) ==> stored == Some(items)
      ensures meal !in old(items) ==> stored == old(stored)
      ensures Len() == old(Len()) - (if meal in old(items) then old(items)[meal].quantity else 0)
      ensures TotalPrice() == old(TotalPrice())
        - (if meal in old(items) then old(items)[meal].price * old(items)[meal].quantity else 0)
    {
      if meal in items {
        var rest := items - {meal};
        MapSumRemove(Quantities(items), meal);
        assert Quantities(rest) == Quantities(items) - {meal};
        MapSumRemove(LineTotals(items), meal);
        assert LineTotals(rest) == LineTotals(items) - {meal};
        items := rest;
        stored := Some(items);
      } else {
        assert items - {meal} == items;
      }
    }

    /** `clear`: the cart is popped from the session. The object's dict is
        left as it was; a later `add` or `remove` through it stores it again. */
    method Clear()
      requires Valid()
      modifies this
      ensures Valid() && stored == None && items == old(items)
    {
      stored := None;
    }
  }
}
