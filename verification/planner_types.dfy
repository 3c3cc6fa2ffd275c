/**
 The state of the weekly meal planner: a menu per weekday and, per
 participant, one chosen meal per weekday. Both are plain finite maps;
 every transition of the planner builds a new map from the old one.
 */
module PlannerTypes {

  /** The result of a lookup that may find nothing. */
  datatype Option<T> = None | Some(value: T)

  /**
   A menu entry. All three fields hold the text the operator typed into
   the form: `number` is the key participants order by (unique only by
   convention, duplicates are allowed), `price` is converted to money only
   when a bill is computed.
   */
  datatype Meal = Meal(name: string, price: string, number: string)

  /** Weekday -> that day's menu, in insertion order. */
  type MealsState = map<string, seq<Meal>>

  /** Weekday -> the meal one participant chose for that day. */
  type DayOrders = map<string, Meal>

  /** Participant name -> that participant's choices. */
  type Orders = map<string, DayOrders>

  /** The whole week: the published menus and the orders placed against them. */
  datatype Week = Week(meals: MealsState, orders: Orders)

  /** The weekdays the planner offers, in display order. */
  const DaysOfWeek: seq<string> := ["Montag", "Dienstag", "Mittwoch", "Donnerstag", "Freitag"]

  /** The empty week the planner starts from and returns to on a reset. */
  const EmptyWeek: Week := Week(map[], map[])

  /** A day's menu; a day that has no entry yet reads as the empty list. */
  function MenuOf(meals: MealsState, day: string): (menu: seq<Meal>)
    ensures day in meals ==> menu == meals[day]
    ensures menu != [] ==> day in meals
  {
    if day in meals then meals[day] else []
  }

  /** A participant's choices; a name without an entry reads as no choices. */
  function ChoicesOf(orders: Orders, name: string): (chosen: DayOrders)
    ensures name in orders ==> chosen == orders[name]
    ensures chosen != map[] ==> name in orders
  {
    if name in orders then orders[name] else map[]
  }
}
