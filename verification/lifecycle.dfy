/**
 The planner as a state machine over one week: the operator's actions,
 the reset that clears the week, and the invariants every action keeps.
 */
module Lifecycle {
  import opened PlannerTypes
  import opened Menu
  import opened OrderBook
  import opened Billing

  /**
   Clears the menus and the orders when the operator confirms; a declined
   confirmation leaves the week as it was.
   */
  function ResetWeek(w: Week, confirmed: bool): (r: Week)
    ensures confirmed ==> r.meals == map[] && r.orders == map[]
    ensures !confirmed ==> r == w
  {
    if confirmed then EmptyWeek else w
  }

  /** What the operator can do: submit the add-meal form, place an order, reset the week. */
  datatype Action =
    | SubmitMeal(day: string, name: string, price: string, number: string)
    | PlaceOrder(name: string, day: string, number: string)
    | Reset(confirmed: bool)

  /**
   One action. Submitting a meal only touches the menus, placing an order
   only touches the orders.
   */
  function Step(w: Week, a: Action): (r: Week)
    ensures a.SubmitMeal? ==> r.orders == w.orders
    ensures a.PlaceOrder? ==> r.meals == w.meals
    ensures a.Reset? && a.confirmed ==> r == EmptyWeek
    ensures a.Reset? && !a.confirmed ==> r == w
  {
    match a
    case SubmitMeal(day, name, price, number) =>
      Week(HandleAdd(w.meals, day, name, price, number), w.orders)
    case PlaceOrder(name, day, number) =>
      Week(w.meals, AddOrder(w.meals, w.orders, name, day, number))
    case Reset(confirmed) => ResetWeek(w, confirmed)
  }

  /** A sequence of actions, applied in order. */
  function Run(w: Week, actions: seq<Action>): Week
    decreases |actions|
  {
    if actions == [] then w else Run(Step(w, actions[0]), actions[1..])
  }

  /** Every ordered meal is on the menu of the day it was ordered for. */
  ghost predicate OrdersOnMenu(w: Week)
  {
    forall n, d :: n in w.orders && d in w.orders[n] ==> w.orders[n][d] in MenuOf(w.meals, d)
  }

  /** No participant is kept with an empty set of choices. */
  ghost predicate NoEmptyOrders(w: Week)
  {
    forall n :: n in w.orders ==> w.orders[n] != map[]
  }

  ghost predicate Valid(w: Week)
  {
    OrdersOnMenu(w) && NoEmptyOrders(w)
  }

  /** Every menu belongs to one of the planner's weekdays. */
  ghost predicate DaysFromWeek(w: Week)
  {
    forall d :: d in w.meals ==> d in DaysOfWeek
  }

  /** The form and the order selector only ever offer the planner's weekdays. */
  predicate OfferedDay(a: Action)
  {
    match a
    case SubmitMeal(day, _, _, _) => day in DaysOfWeek
    case PlaceOrder(_, day, _) => day in DaysOfWeek
    case Reset(_) => true
  }

  /** Menus only grow, so everything ordered stays on the menu. */
  lemma HandleAddKeepsValid(w: Week, day: string, name: string, price: string, number: string)
    requires Valid(w)
    ensures Valid(Step(w, SubmitMeal(day, name, price, number)))
  {
  }

  /** The only write stores a meal found on the day's menu, under a day of a non-empty map. */
  lemma AddOrderKeepsValid(w: Week, name: string, day: string, number: string)
    requires Valid(w)
    ensures Valid(Step(w, PlaceOrder(name, day, number)))
  {
  }

  /** Every action keeps the week valid. */
  lemma StepKeepsValid(w: Week, a: Action)
    requires Valid(w)
    ensures Valid(Step(w, a))
  {
    match a
    case SubmitMeal(day, name, price, number) => HandleAddKeepsValid(w, day, name, price, number);
    case PlaceOrder(name, day, number) => AddOrderKeepsValid(w, name, day, number);
    case Reset(confirmed) =>
  }

  /** Every reachable week is valid: ordered meals are on the menu and no participant is empty. */
  lemma {:induction false} RunKeepsValid(w: Week, actions: seq<Action>)
    requires Valid(w)
    ensures Valid(Run(w, actions))
    decreases |actions|
  {
    if actions != [] {
      StepKeepsValid(w, actions[0]);
      RunKeepsValid(Step(w, actions[0]), actions[1..]);
    }
  }

  /** Menus only ever exist for the offered weekdays. */
  lemma {:induction false} RunKeepsDaysFromWeek(w: Week, actions: seq<Action>)
    requires DaysFromWeek(w)
    requires forall i :: 0 <= i < |actions| ==> OfferedDay(actions[i])
    ensures DaysFromWeek(Run(w, actions))
    decreases |actions|
  {
    if actions != [] {
      var next := Step(w, actions[0]);
      assert OfferedDay(actions[0]);
      assert DaysFromWeek(next);
      assert forall i :: 0 <= i < |actions[1..]| ==> OfferedDay(actions[1..][i]) by {
        forall i | 0 <= i < |actions[1..]| ensures OfferedDay(actions[1..][i]) {
          assert actions[1..][i] == actions[i + 1];
        }
      }
      RunKeepsDaysFromWeek(next, actions[1..]);
    }
  }

  /** In a valid week, an order only ever exists for a day that has a menu. */
  lemma OrderedDaysHaveMenus(w: Week, n: string, d: string)
    requires Valid(w) && n in w.orders && d in w.orders[n]
    ensures d in w.meals && w.meals[d] != []
  {
    assert w.orders[n][d] in MenuOf(w.meals, d);
  }

  /** After a confirmed reset nobody owes anything. */
  lemma ResetClearsBills(w: Week, name: string, cents: string -> int)
    ensures Bill(ResetWeek(w, true).orders, name, cents) == 0
  {
  }

  /**
   A worked week: Monday offers meal 1, Tuesday meal 2; Ana orders both,
   so both choices are on record under that name and the bill is the sum
   of the two prices.
   */
  lemma TwoDayWeek(cents: string -> int)
    ensures var w := Run(EmptyWeek, [
                SubmitMeal("Montag", "Suppe", "3.50", "1"),
                SubmitMeal("Dienstag", "Eintopf", "4.00", "2"),
                PlaceOrder("Ana", "Montag", "1"),
                PlaceOrder("Ana", "Dienstag", "2")]);
            && w.orders.Keys == {"Ana"}
            && w.orders["Ana"] == map["Montag" := Meal("Suppe", "3.50", "1"), "Dienstag" := Meal("Eintopf", "4.00", "2")]
            && Bill(w.orders, "Ana", cents) == cents("3.50") + cents("4.00")
  {
    var a0 := SubmitMeal("Montag", "Suppe", "3.50", "1");
    var a1 := SubmitMeal("Dienstag", "Eintopf", "4.00", "2");
    var a2 := PlaceOrder("Ana", "Montag", "1");
    var a3 := PlaceOrder("Ana", "Dienstag", "2");
    var w2 := TwoDayMenu();
    var w4 := TwoDayOrders(w2);
    var w1 := Step(EmptyWeek, a0);
    var w3 := Step(w2, a2);
    RunFirst(EmptyWeek, [a0, a1, a2, a3]);
    RunFirst(w1, [a1, a2, a3]);
    RunFirst(w2, [a2, a3]);
    RunFirst(w3, [a3]);
    assert Run(w4, []) == w4;
    TwoDayBill(w4.orders["Ana"], cents);
    assert ChoicesOf(w4.orders, "Ana") == w4.orders["Ana"];
  }

  /** Running a non-empty sequence starts with its first action. */
  lemma RunFirst(w: Week, actions: seq<Action>)
    requires actions != []
    ensures Run(w, actions) == Run(Step(w, actions[0]), actions[1..])
  {
  }

  /** The two form submissions of the worked week. */
  lemma TwoDayMenu() returns (w: Week)
    ensures w == Step(Step(EmptyWeek, SubmitMeal("Montag", "Suppe", "3.50", "1")),
                      SubmitMeal("Dienstag", "Eintopf", "4.00", "2"))
    ensures MenuOf(w.meals, "Montag") == [Meal("Suppe", "3.50", "1")]
    ensures MenuOf(w.meals, "Dienstag") == [Meal("Eintopf", "4.00", "2")]
    ensures w.orders == map[]
  {
    var w1 := Step(EmptyWeek, SubmitMeal("Montag", "Suppe", "3.50", "1"));
    assert MenuOf(w1.meals, "Montag") == [Meal("Suppe", "3.50", "1")];
    assert MenuOf(w1.meals, "Dienstag") == [];
    w := Step(w1, SubmitMeal("Dienstag", "Eintopf", "4.00", "2"));
  }

  /** The two orders of the worked week. */
  lemma TwoDayOrders(w2: Week) returns (w: Week)
    requires MenuOf(w2.meals, "Montag") == [Meal("Suppe", "3.50", "1")]
    requires MenuOf(w2.meals, "Dienstag") == [Meal("Eintopf", "4.00", "2")]
    requires w2.orders == map[]
    ensures w == Step(Step(w2, PlaceOrder("Ana", "Montag", "1")), PlaceOrder("Ana", "Dienstag", "2"))
    ensures w.orders.Keys == {"Ana"}
    ensures w.orders["Ana"] == map["Montag" := Meal("Suppe", "3.50", "1"), "Dienstag" := Meal("Eintopf", "4.00", "2")]
  {
    var w3 := Step(w2, PlaceOrder("Ana", "Montag", "1"));
    assert Find(MenuOf(w2.meals, "Montag"), "1") == Some(Meal("Suppe", "3.50", "1"));
    assert w3.orders == map["Ana" := map["Montag" := Meal("Suppe", "3.50", "1")]];
    w := Step(w3, PlaceOrder("Ana", "Dienstag", "2"));
    assert Find(MenuOf(w3.meals, "Dienstag"), "2") == Some(Meal("Eintopf", "4.00", "2"));
  }

  /** The bill of the worked week. */
  lemma TwoDayBill(chosen: DayOrders, cents: string -> int)
    requires chosen == map["Montag" := Meal("Suppe", "3.50", "1"), "Dienstag" := Meal("Eintopf", "4.00", "2")]
    ensures SumPrices(chosen, cents) == cents("3.50") + cents("4.00")
  {
    SumPricesRemove(chosen, "Montag", cents);
    var rest := chosen - {"Montag"};
    assert rest == map["Dienstag" := Meal("Eintopf", "4.00", "2")];
    SumPricesRemove(rest, "Dienstag", cents);
    assert rest - {"Dienstag"} == map[];
  }
}
