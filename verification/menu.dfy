/**
 The menu side of the planner: appending a meal to a day, the form guard
 in front of it, and the first-match lookup that orders use.
 */
module Menu {
  import opened PlannerTypes

  /**
   Appends `meal` at the end of `day`'s menu; a day that had no menu
   starts from the empty list. No other day is touched, and no check is
   made that `meal.number` is new on that day.
   */
  function AddMeal(meals: MealsState, day: string, meal: Meal): (r: MealsState)
    ensures r.Keys == meals.Keys + {day}
    ensures |r[day]| == |MenuOf(meals, day)| + 1
    ensures r[day][..|MenuOf(meals, day)|] == MenuOf(meals, day)
    ensures r[day][|MenuOf(meals, day)|] == meal
    ensures forall d :: d in meals && d != day ==> r[d] == meals[d]
  {
    meals[day := MenuOf(meals, day) + [meal]]
  }

  /** A sequence of `AddMeal` calls on one day, applied in order. */
  function AddMeals(meals: MealsState, day: string, added: seq<Meal>): MealsState
    decreases |added|
  {
    if added == [] then meals
    else AddMeals(AddMeal(meals, day, added[0]), day, added[1..])
  }

  /**
   Successive appends leave the day's menu as the old menu followed by the
   added meals in the order they were added; other days keep their menus.
   */
  lemma {:induction false} AddMealsAppends(meals: MealsState, day: string, added: seq<Meal>)
    ensures MenuOf(AddMeals(meals, day, added), day) == MenuOf(meals, day) + added
    ensures forall d :: d != day ==> MenuOf(AddMeals(meals, day, added), d) == MenuOf(meals, d)
    decreases |added|
  {
    if added != [] {
      var next := AddMeal(meals, day, added[0]);
      AddMealsAppends(next, day, added[1..]);
      assert MenuOf(next, day) == MenuOf(meals, day) + [added[0]];
      assert [added[0]] + added[1..] == added;
      assert MenuOf(meals, day) + [added[0]] + added[1..] == MenuOf(meals, day) + added;
      forall d | d != day
        ensures MenuOf(AddMeals(meals, day, added), d) == MenuOf(meals, d)
      {
        assert MenuOf(next, d) == MenuOf(meals, d);
      }
    }
  }

  /**
   The add-meal form: a meal is added only when number, name and price are
   all filled in; otherwise the menus stay as they are.
   */
  function HandleAdd(meals: MealsState, day: string, name: string, price: string, number: string): (r: MealsState)
    ensures r == meals <==> (name == "" || price == "" || number == "")
    ensures name != "" && price != "" && number != "" ==>
              MenuOf(r, day) == MenuOf(meals, day) + [Meal(name, price, number)]
    ensures forall d :: d != day ==> MenuOf(r, d) == MenuOf(meals, d)
  {
    if name == "" || price == "" || number == "" then meals
    else
      var r := AddMeal(meals, day, Meal(name, price, number));
      assert |MenuOf(r, day)| != |MenuOf(meals, day)|;
      r
  }

  /**
   The position of the first meal on `menu` whose number is `number`, the
   way an array `find` with that predicate scans the list; None when no
   meal matches.
   */
  function FirstMatch(menu: seq<Meal>, number: string): (r: Option<nat>)
    ensures r.None? <==> forall i :: 0 <= i < |menu| ==> menu[i].number != number
    ensures r.Some? ==> r.value < |menu| && menu[r.value].number == number
    ensures r.Some? ==> forall j :: 0 <= j < r.value ==> menu[j].number != number
  {
    if menu == [] then None
    else if menu[0].number == number then Some(0)
    else
      match FirstMatch(menu[1..], number)
      case None => None
      case Some(i) => Some(i + 1)
  }

  /** The meal an order for `number` resolves to on `menu`, if any. */
  function Find(menu: seq<Meal>, number: string): (r: Option<Meal>)
    ensures r.None? <==> forall i :: 0 <= i < |menu| ==> menu[i].number != number
    ensures r.Some? ==> r.value.number == number && r.value in menu
    ensures r.Some? ==> exists i :: 0 <= i < |menu| && menu[i] == r.value
                                  && forall j :: 0 <= j < i ==> menu[j].number != number
  {
    match FirstMatch(menu, number)
    case None => None
    case Some(i) => Some(menu[i])
  }

  /**
   First match wins: meals appended after a matching one never change what
   a number resolves to, and when nothing matched before, the lookup
   resolves within the appended meals.
   */
  lemma {:induction false} FindAfterAppend(menu: seq<Meal>, added: seq<Meal>, number: string)
    ensures Find(menu, number).Some? ==> Find(menu + added, number) == Find(menu, number)
    ensures Find(menu, number).None? ==> Find(menu + added, number) == Find(added, number)
    decreases |menu|
  {
    if menu != [] {
      assert (menu + added)[0] == menu[0];
      assert (menu + added)[1..] == menu[1..] + added;
      FindAfterAppend(menu[1..], added, number);
      if menu[0].number != number {
        FirstMatchTail(menu, number);
        FirstMatchTail(menu + added, number);
      }
    } else {
      assert menu + added == added;
    }
  }

  /** When the head does not match, the lookup resolves within the tail. */
  lemma FirstMatchTail(menu: seq<Meal>, number: string)
    requires menu != [] && menu[0].number != number
    ensures Find(menu, number) == Find(menu[1..], number)
  {
  }

  /**
   Adding a meal to any day never changes what an already-resolvable
   number resolves to on any day.
   */
  lemma AddMealKeepsLookups(meals: MealsState, day: string, meal: Meal, d: string, number: string)
    requires Find(MenuOf(meals, d), number).Some?
    ensures Find(MenuOf(AddMeal(meals, day, meal), d), number) == Find(MenuOf(meals, d), number)
  {
  }
}
