/**
 The order side of the planner: a participant places an order for one
 day by giving a meal number from that day's menu.
 */
module OrderBook {
  import opened PlannerTypes
  import opened Menu

  /**
   Whether an order is taken: both the name and the meal number are
   filled in and the number names a meal on that day's menu.
   */
  predicate Accepts(meals: MealsState, name: string, day: string, number: string)
  {
    name != "" && number != "" && FirstMatch(MenuOf(meals, day), number).Some?
  }

  /**
   Places (or replaces) `name`'s order for `day` with the first meal on
   that day's menu whose number is `number`. An empty name, an empty
   number, or a number that is not on the day's menu (including a day with
   no menu) leaves the orders as they were, without any notice.
   */
  function AddOrder(meals: MealsState, orders: Orders, name: string, day: string, number: string): (r: Orders)
    ensures !Accepts(meals, name, day, number) ==> r == orders
    ensures Accepts(meals, name, day, number) ==>
              && name in r
              && r[name].Keys == ChoicesOf(orders, name).Keys + {day}
              && r[name][day] == MenuOf(meals, day)[FirstMatch(MenuOf(meals, day), number).value]
    ensures r.Keys == orders.Keys + (if Accepts(meals, name, day, number) then {name} else {})
    ensures forall n :: n in orders && n != name ==> r[n] == orders[n]
    ensures forall d :: d in ChoicesOf(orders, name) && d != day ==> r[name][d] == orders[name][d]
  {
    if name == "" || number == "" then orders
    else
      match Find(MenuOf(meals, day), number)
      case None => orders
      case Some(meal) => orders[name := ChoicesOf(orders, name)[day := meal]]
  }

  /** Placing the same order twice leaves the same orders as placing it once. */
  lemma AddOrderIdempotent(meals: MealsState, orders: Orders, name: string, day: string, number: string)
    ensures AddOrder(meals, AddOrder(meals, orders, name, day, number), name, day, number)
         == AddOrder(meals, orders, name, day, number)
  {
    var once := AddOrder(meals, orders, name, day, number);
    var twice := AddOrder(meals, once, name, day, number);
    if Accepts(meals, name, day, number) {
      assert twice.Keys == once.Keys;
      assert twice[name].Keys == once[name].Keys;
      assert twice[name] == once[name];
    }
  }

  /**
   An accepted order for one day followed by another for the same
   participant and day: only the later choice remains, as if the earlier
   one had never been placed.
   */
  lemma AddOrderOverwrites(meals: MealsState, orders: Orders, name: string, day: string, first: string, second: string)
    requires Accepts(meals, name, day, second)
    ensures AddOrder(meals, AddOrder(meals, orders, name, day, first), name, day, second)
         == AddOrder(meals, orders, name, day, second)
  {
    var mid := AddOrder(meals, orders, name, day, first);
    var meal := Find(MenuOf(meals, day), second).value;
    AcceptedOrder(meals, mid, name, day, second);
    AcceptedOrder(meals, orders, name, day, second);
    if Accepts(meals, name, day, first) {
      AcceptedOrder(meals, orders, name, day, first);
      var earlier := Find(MenuOf(meals, day), first).value;
      assert ChoicesOf(mid, name) == ChoicesOf(orders, name)[day := earlier];
      assert ChoicesOf(orders, name)[day := earlier][day := meal] == ChoicesOf(orders, name)[day := meal];
    }
  }

  /** An accepted order is a single write of the found meal under the name and day. */
  lemma AcceptedOrder(meals: MealsState, orders: Orders, name: string, day: string, number: string)
    requires Accepts(meals, name, day, number)
    ensures AddOrder(meals, orders, name, day, number)
         == orders[name := ChoicesOf(orders, name)[day := Find(MenuOf(meals, day), number).value]]
  {
  }
}
