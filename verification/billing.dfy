/**
 A participant's bill: the sum of the prices of the meals they chose this
 week. Prices are stored as the text the operator typed; turning that text
 into money is the caller's `cents` conversion, so the sum is exact
 integer arithmetic on whatever amounts it yields.
 */
module Billing {
  import opened PlannerTypes
  import opened OrderBook

  /**
   The sum of `cents` over the prices of all chosen meals. A map has no
   order, so the definition picks any day first; `SumPricesRemove` shows
   the choice does not matter.
   */
  ghost function SumPrices(chosen: DayOrders, cents: string -> int): (total: int)
    ensures chosen == map[] ==> total == 0
    decreases |chosen|
  {
    if chosen == map[] then 0
    else
      var d :| d in chosen;
      assert |chosen - {d}| < |chosen| by {
        assert (chosen - {d}).Keys == chosen.Keys - {d};
      }
      cents(chosen[d].price) + SumPrices(chosen - {d}, cents)
  }

  /** Any one day can be taken out of the sum first. */
  lemma {:induction false} SumPricesRemove(chosen: DayOrders, d: string, cents: string -> int)
    requires d in chosen
    ensures SumPrices(chosen, cents) == cents(chosen[d].price) + SumPrices(chosen - {d}, cents)
    decreases |chosen|
  {
    var e :| e in chosen && SumPrices(chosen, cents) == cents(chosen[e].price) + SumPrices(chosen - {e}, cents);
    if e != d {
      assert (chosen - {e}).Keys == chosen.Keys - {e};
      assert (chosen - {d}).Keys == chosen.Keys - {d};
      SumPricesRemove(chosen - {e}, d, cents);
      SumPricesRemove(chosen - {d}, e, cents);
      assert chosen - {e} - {d} == chosen - {d} - {e};
    }
  }

  /** The bill of `name`: zero for someone who has not ordered. */
  ghost function Bill(orders: Orders, name: string, cents: string -> int): (total: int)
    ensures name !in orders ==> total == 0
  {
    SumPrices(ChoicesOf(orders, name), cents)
  }

  /**
   Computes a participant's bill by going through their chosen meals one
   day at a time and adding up the prices.
   */
  method CalculateBill(orders: Orders, name: string, cents: string -> int) returns (total: int)
    ensures name !in orders ==> total == 0
    ensures total == Bill(orders, name, cents)
  {
    total := 0;
    var rest := ChoicesOf(orders, name);
    while rest != map[]
      invariant total + SumPrices(rest, cents) == Bill(orders, name, cents)
      decreases |rest|
    {
      var d :| d in rest;
      SumPricesRemove(rest, d, cents);
      total := total + cents(rest[d].price);
      assert (rest - {d}).Keys == rest.Keys - {d};
      rest := rest - {d};
    }
  }

  /** With no negative prices, no bill is negative. */
  lemma {:induction false} SumPricesNonNegative(chosen: DayOrders, cents: string -> int)
    requires forall d :: d in chosen ==> cents(chosen[d].price) >= 0
    ensures SumPrices(chosen, cents) >= 0
    decreases |chosen|
  {
    if chosen != map[] {
      var d :| d in chosen;
      SumPricesRemove(chosen, d, cents);
      assert (chosen - {d}).Keys == chosen.Keys - {d};
      SumPricesNonNegative(chosen - {d}, cents);
    }
  }

  /**
   How an order moves the bills: the participant's bill loses the price of
   the meal they had for that day, if any, and gains the price of the meal
   now chosen; everybody else's bill is unchanged. A rejected order changes
   no bill.
   */
  lemma BillAfterAddOrder(meals: MealsState, orders: Orders, name: string, day: string, number: string, cents: string -> int)
    ensures var r := AddOrder(meals, orders, name, day, number);
            forall n :: n != name ==> Bill(r, n, cents) == Bill(orders, n, cents)
    ensures var r := AddOrder(meals, orders, name, day, number);
            Accepts(meals, name, day, number) ==>
              Bill(r, name, cents)
              == Bill(orders, name, cents)
                 - (if day in ChoicesOf(orders, name) then cents(ChoicesOf(orders, name)[day].price) else 0)
                 + cents(r[name][day].price)
    ensures !Accepts(meals, name, day, number) ==>
              Bill(AddOrder(meals, orders, name, day, number), name, cents) == Bill(orders, name, cents)
  {
    var r := AddOrder(meals, orders, name, day, number);
    forall n | n != name
      ensures Bill(r, n, cents) == Bill(orders, n, cents)
    {
      assert ChoicesOf(r, n) == ChoicesOf(orders, n);
    }
    if Accepts(meals, name, day, number) {
      var before := ChoicesOf(orders, name);
      var after := r[name];
      assert ChoicesOf(r, name) == after;
      SumPricesRemove(after, day, cents);
      assert after - {day} == before - {day};
      if day in before {
        SumPricesRemove(before, day, cents);
      } else {
        assert before - {day} == before;
      }
    }
  }
}
