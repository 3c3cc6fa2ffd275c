# Weekly meal planner: order book model

A Dafny model of the state machine inside the `WeeklyMealPlanner`
component of the meal-ordering page. An operator publishes a menu for each
weekday ("Montag" … "Freitag"). Participants then enter their name, a day
and a menu number, and the page records one meal per participant and day.
It shows each participant's bill and can wipe the whole week.

The React hooks are stripped away. What remains is two finite maps and
pure transitions between them:

- `meals`: weekday → ordered list of `Meal` (`PlannerTypes.MealsState`).
- `orders`: participant → weekday → `Meal` (`PlannerTypes.Orders`).

Modules, one per concern:

- `PlannerTypes` (`planner_types.dfy`): `Meal`, the two maps, `Week`,
  `DaysOfWeek`, and the "missing key reads as empty" accessors `MenuOf` and
  `ChoicesOf`. These accessors mirror `prev[day] || []` and
  `prev[name] || {}`.
- `Menu` (`menu.dfy`): `AddMeal` and the add-meal form guard `HandleAdd`.
  Also `FirstMatch`/`Find`, the array `find` that resolves a meal number on
  a day's menu to its first match.
- `OrderBook` (`order_book.dfy`): `AddOrder`, the guarded upsert of one
  participant's choice for one day.
- `Billing` (`billing.dfy`): the bill as a sum over a participant's chosen
  meals. `SumPrices` is the reference definition. `CalculateBill` is the
  day-by-day loop that computes it.
- `Lifecycle` (`lifecycle.dfy`): `ResetWeek` and the operator's actions as
  one `Step` function. Also the two week invariants that every step keeps:
  ordered meals are on their day's menu, and no participant has an empty
  set of choices.

Prices are stored as the text the operator typed. Converting that text to
money is a parameter `cents: string -> int` of the billing functions. The
model never parses a price. It sums whatever integer amounts the
conversion yields.

## Model

| member | source | states |
|---|---|---|
| `PlannerTypes.MenuOf` | src/App.tsx:50 | A day that has a menu reads as that menu. A non-empty result means the day is a key, so a missing day reads as the empty list, as the empty-array fallback on that line does. |
| `PlannerTypes.ChoicesOf` | src/App.tsx:74 | A participant with orders reads as those orders. A non-empty result means the name is a key, so a missing name reads as no choices, as the empty-object fallback on that line and on line 65 does. |
| `Billing.SumPrices` | src/App.tsx:75-78 | The sum of the prices of a participant's chosen meals, with the empty map summing to 0 like the `reduce` seed. `Billing.SumPricesRemove` shows that the day taken first does not matter. |
| `Billing.Bill` | src/App.tsx:73-79 | A participant's bill is the sum over that participant's choices. A name with no orders owes 0. |
| `Menu.AddMeal` | src/App.tsx:47-52 | The day's menu becomes the old one (empty if the day had none) with the meal appended at the end. The day is now a key. Every other day keeps its menu. |
| `Menu.AddMealsAppends` | src/App.tsx:47-52 | Any number of successive appends to one day leave that day's menu as the old menu followed by the added meals in the order they were added. Other days are untouched. |
| `Menu.HandleAdd` | src/App.tsx:176-178 | The form changes the menus exactly when number, name and price are all non-empty. In that case the day gains that meal at the end. No other day ever changes. |
| `Menu.FirstMatch` | src/App.tsx:57-59 | Gives the position of the first meal whose number equals the requested one: every earlier meal has a different number. Gives nothing exactly when no meal on the menu has that number. |
| `Menu.Find` | src/App.tsx:57-60 | The meal an order resolves to has the requested number, is on the menu, and no earlier menu entry has that number. There is none exactly when no entry matches. |
| `Menu.FindAfterAppend` | src/App.tsx:57-59 | First match wins: once a number resolves on a menu, appending meals (duplicates included) does not change what it resolves to. A number that did not resolve resolves within the appended meals. |
| `Menu.AddMealKeepsLookups` | src/App.tsx:47-59 | Adding a meal to any day never changes what an already resolvable number resolves to on any day. |
| `OrderBook.AddOrder` | src/App.tsx:54-68 | An empty name, an empty number, or a number not on the day's menu (a day with no menu included) leaves the orders unchanged. Otherwise the participant's entry for that day becomes the first matching meal. An earlier choice for that day is replaced, the participant's other days are kept, and the participant gains exactly that day. No other participant changes. |
| `OrderBook.AddOrderIdempotent` | src/App.tsx:62-68 | Placing the same order twice gives the same orders as placing it once. |
| `OrderBook.AddOrderOverwrites` | src/App.tsx:62-68 | After an accepted order, an earlier order by the same participant for the same day leaves no trace. |
| `Billing.SumPricesRemove` | src/App.tsx:75-78 | The bill is independent of the order in which the chosen meals are added up. Any one day's price can be taken out first. |
| `Billing.CalculateBill` | src/App.tsx:73-79 | The loop returns the sum of the prices of the participant's chosen meals. A name with no orders gets 0. |
| `Billing.SumPricesNonNegative` | src/App.tsx:73-79 | If no chosen meal has a negative price, the bill is not negative. |
| `Billing.BillAfterAddOrder` | src/App.tsx:54-79 | An accepted order changes the participant's bill by the new meal's price minus the price of the meal it replaced, if any. A rejected order changes no bill, and other participants' bills never change. |
| `Lifecycle.ResetWeek` | src/App.tsx:81-85 | A confirmed reset leaves both menus and orders empty. A declined one leaves the week as it was. |
| `Lifecycle.Step` | src/App.tsx:47-85 | Submitting a meal never touches the orders. Placing an order never touches the menus. A confirmed reset gives the empty week, and a declined one leaves the week as it was. |
| `Lifecycle.HandleAddKeepsValid` | src/App.tsx:176-178 | Submitting the add-meal form, which calls `addMeal` (lines 47-52) only when all fields are filled in, keeps both invariants: every ordered meal is on its day's menu, and every participant has at least one choice. |
| `Lifecycle.AddOrderKeepsValid` | src/App.tsx:54-71 | Placing an order keeps both invariants. It writes only a meal found on that day's menu, under a participant who now has that day. |
| `Lifecycle.StepKeepsValid` | src/App.tsx:47-85 | Every operator action, reset included, keeps both invariants. |
| `Lifecycle.RunKeepsValid` | src/App.tsx:47-85 | Every week reachable from a valid week by any sequence of actions is valid. |
| `Lifecycle.RunKeepsDaysFromWeek` | src/App.tsx:91-121 | When the forms and the day selector only offer the five planner weekdays, menus only ever exist for those weekdays. |
| `Lifecycle.OrderedDaysHaveMenus` | src/App.tsx:54-71 | In a valid week, a participant's choice for a day implies that day has a non-empty menu. |
| `Lifecycle.ResetClearsBills` | src/App.tsx:73-85 | After a confirmed reset every participant's bill is 0. |
| `Lifecycle.TwoDayWeek` | src/App.tsx:47-79 | Worked example. Meal 1 (price "3.50") is added on Monday and meal 2 (price "4.00") on Tuesday, then Ana orders both. Exactly those two choices are recorded under Ana, and the bill is the sum of the two prices. |

## Left out

- React rendering, the `useState`/`useEffect` wiring, styling and the form-field resets after a submit (`src/App.tsx:70`, `src/App.tsx:179`). These are UI state, not planner state.
- Persistence to the browser's local storage (`src/App.tsx:25-45`). JSON serialisation is a foreign serializer and storage is I/O. The model starts from `EmptyWeek` or from any week given to it.
- The `confirm()` dialog is not modelled as a dialog. Its answer is the `confirmed` parameter of `ResetWeek`.
- `Number(meal.price)` and `.toFixed(2)` (`src/App.tsx:76`, `src/App.tsx:156`) are JavaScript floating-point conversion and formatting, NaN on bad input included. The conversion is the caller-supplied `cents` function.
- Billing.CalculateBill: sums exact integer amounts instead of adding JavaScript doubles left to right. Floating-point rounding and NaN propagation are not modelled.
- The `price: string | number` union of the `Meal` type: the only writer of meals (the add-meal form) stores text, so the model keeps the price as text. Numbers could come only from stored JSON, which is left out.
- The page gives no notice when an order's number is not on the day's menu. `addOrder` just returns, and the model does the same: a rejected `AddOrder` returns the orders unchanged and reports nothing.
- Removing meals, removing orders or participants, an archived previous week, remote synchronisation, comma-decimal price parsing and a kitchen summary are not features of `src/App.tsx`. They are not modelled.
- Duplicate meal numbers on one day are allowed, as in the source. Lookups resolve to the first one (`Menu.FindAfterAppend`).
