# Gilded Rose inventory update, modelled in Dafny

The Gilded Rose engine keeps a list of inventory items. Each item has a name, a
sell-in countdown and a quality score. Each call of `update_quality` moves every
item on by one day. The item's name selects its rule by exact match against a
table of three names, and any other name gets the normal rule:

- normal items lose quality, twice as fast once expired;
- Aged Brie gains quality, twice as fast once expired;
- backstage passes gain 1, 2 or 3 as the concert nears, then drop to 0;
- Sulfuras never changes.

Each single step of ±1 is clamped to [0, 50].

The project has two modules:

- `Rules` (rules.dfy) is the pure specification. It holds the name constants and
  bounds, the strategy table and its lookup, and one transition function per
  rule. Each rule function is written step by step, like the source, and its
  `ensures` states the closed form (how much quality moves for a given
  countdown, and where it is clamped). It also defines the one-day update of a
  whole list (`UpdateAll`), repeated days (`Age`, `Simulate`), and lemmas for
  the range invariant, the countdown, the Sulfuras invariant, per-item
  independence and the repository's unit-test values.
- `Inventory` (inventory.dfy) is the engine as the program has it. `Item` is a
  class with mutable `name`, `sellIn` and `quality`. `GildedRose` owns a
  `seq<Item>` and the strategy table, with one method per rule and per helper.
  Each rule method changes only the `sellIn` and `quality` fields of its item
  (field-level `modifies`) and is proved to produce exactly what the matching
  `Rules` function specifies. `UpdateQuality` loops over the list and is proved
  to turn the items' values into `Rules.UpdateAll` of their old values. It keeps
  the list itself, every name and the [0, 50] range. The helper `IsExpired` is a
  predicate that reads only the item's countdown.

Python integers are unbounded, so Dafny's `int` models them exactly. Nothing in
the core does I/O.

## Model

| member | source | states |
|---|---|---|
| Rules.Strategies | python/gilded_rose.py:34-44 | the table has exactly the three special names as keys; Aged Brie maps to its own rule, the backstage name to the backstage rule and Sulfuras to the Sulfuras rule, and none maps to the normal rule |
| Rules.RuleFor | python/gilded_rose.py:40-49 | exact string match: Aged Brie, backstage and Sulfuras rules each apply iff the name equals their constant; the normal rule applies iff the name is none of the three |
| Rules.NormalUpdate | python/gilded_rose.py:52-64 | sell-in drops by 1; quality drops by 1 while the old sell-in is at least 1 and by 2 once it is at most 0, floored at 0; a quality already at or below 0 stays put |
| Rules.AgedBrieUpdate | python/gilded_rose.py:66-78 | sell-in drops by 1; quality rises by 1, or by 2 once the old sell-in is at most 0, capped at 50; a quality already at or above 50 stays put |
| Rules.BackstageUpdate | python/gilded_rose.py:80-103 | sell-in drops by 1; if the old sell-in is at most 0, quality becomes 0 outright; otherwise it rises by 1 (more than 10 days), 2 (6 to 10 days) or 3 (1 to 5 days), capped at 50, and stays put at or above 50 |
| Rules.SulfurasUpdate | python/gilded_rose.py:105-113 | the item is returned unchanged |
| Rules.Step | python/gilded_rose.py:46-50 | one item's day: the name never changes; Sulfuras is unchanged; every other item's sell-in drops by exactly 1 and a quality in [0, 50] stays in [0, 50] |
| Rules.UpdateAll | python/gilded_rose.py:46-50 | the list keeps its length and order, each entry is its own item's `Step` with no cross-item effect, and an empty list stays empty |
| Rules.Increase | python/gilded_rose.py:115-122 | quality moves up by exactly one when below 50 and is otherwise unchanged; a quality at or below 50 never passes 50 |
| Rules.Decrease | python/gilded_rose.py:124-131 | quality moves down by exactly one when above 0 and is otherwise unchanged; a quality at or above 0 never drops below 0 |
| Rules.Expired | python/gilded_rose.py:141-150 | an item is expired iff its sell-in is negative (the rules apply this test after the sell-in has dropped) |
| Rules.ClampedStepsStayInRange | python/gilded_rose.py:115-131 | a single clamped increase or decrease of a quality in [0, 50] stays in [0, 50] |
| Rules.UnknownNamesAreNormal | python/gilded_rose.py:49 | any name other than the three constants, such as "Conjured Mana Cake", is updated by the normal rule |
| Rules.UpdateAllPreservesRange | python/gilded_rose.py:46-50 | one call keeps every non-Sulfuras quality of a list in [0, 50] |
| Rules.SimulateIsPointwise | python/gilded_rose.py:46-50 | after any number of calls, the list has its original length and each entry equals its own item aged alone by that many days |
| Rules.AgeStaysInRange | python/gilded_rose.py:115-131 | a non-Sulfuras item that starts with quality in [0, 50] stays in [0, 50] after any number of days |
| Rules.SimulatePreservesRange | python/gilded_rose.py:115-131 | a list whose non-Sulfuras qualities are in [0, 50] keeps them there after any number of calls |
| Rules.AgeCountsDown | python/gilded_rose.py:133-139 | after n days the name is unchanged, Sulfuras is unchanged altogether, and every other item's sell-in is exactly n lower, with no lower bound |
| Rules.UnitTestCases | python/tests/test_gilded_rose.py:28-296 | all 33 single-item, single-day expected values of the unit tests (normal, Aged Brie, Sulfuras and backstage), including (-1, 1) and (-1, 2) to 0, Brie (-1, 49) to 50 and the backstage thresholds 11, 10, 6, 5, 1, 0 |
| Rules.MultiDayTestCases | python/tests/test_gilded_rose.py:325-362 | the multi-day progressions: a normal item over 5 days, and a backstage pass from 15 days reaching 25, 35, 50 (capped) and then 0 after the concert |
| Inventory.Item.constructor | python/gilded_rose.py:156-166 | the new record holds the given name, sell-in and quality, unvalidated |
| Inventory.GildedRose.constructor | python/gilded_rose.py:25-32 | the engine holds the given list and the built strategy table; it is valid exactly when the list's item references are pairwise distinct |
| Inventory.GildedRose.BuildUpdateStrategies | python/gilded_rose.py:34-44 | the returned table maps the three names to the Aged Brie, backstage and Sulfuras rules and has no other key |
| Inventory.GildedRose.UpdateQuality | python/gilded_rose.py:46-50 | the new item values are `Rules.UpdateAll` of the old ones; the list itself and every name are unchanged; the [0, 50] range over non-Sulfuras items is preserved; the engine stays valid for the next call |
| Inventory.GildedRose.UpdateNormalItem | python/gilded_rose.py:52-64 | changes only the item's sell-in and quality, to `Rules.NormalUpdate` of its old value |
| Inventory.GildedRose.UpdateAgedBrie | python/gilded_rose.py:66-78 | changes only the item's sell-in and quality, to `Rules.AgedBrieUpdate` of its old value |
| Inventory.GildedRose.UpdateBackstagePass | python/gilded_rose.py:80-103 | changes only the item's sell-in and quality, to `Rules.BackstageUpdate` of its old value; the increments test the sell-in before it drops, and the expiry reset tests it after |
| Inventory.GildedRose.UpdateSulfuras | python/gilded_rose.py:105-113 | the item is left unchanged (the method may modify nothing) |
| Inventory.GildedRose.IncreaseQuality | python/gilded_rose.py:115-122 | changes only quality: up by one when below 50, otherwise unchanged |
| Inventory.GildedRose.DecreaseQuality | python/gilded_rose.py:124-131 | changes only quality: down by one when above 0, otherwise unchanged |
| Inventory.GildedRose.IsExpired | python/gilded_rose.py:141-150 | true iff the item's sell-in is negative; reads only the item |
| Inventory.GildedRose.DecreaseSellIn | python/gilded_rose.py:133-139 | changes only sell-in, down by exactly one, with no lower bound |

## Left out

- `Item.__repr__` (python/gilded_rose.py:168-174) is a display formatter. It would need integer-to-decimal conversion and plays no part in the update.
- Aliasing: in Python, one `Item` object placed twice in the list is updated twice per call. `UpdateQuality` requires pairwise-distinct references (`GildedRose.Valid`) so that each entry's result depends only on its own old value. The aliased behaviour is not modelled.
- Starting values are not validated by the source. The model accepts any quality too. The [0, 50] range appears only as a precondition of the invariant lemmas. A Sulfuras quality other than 80 is carried along unchanged, like any other value.
- Conjured items get no rule of their own, because the engine has none. `Rules.UnknownNamesAreNormal` covers them as normal items.
- The strategy table in the source maps names to bound methods. The model maps names to a `Rule` tag and dispatches on the tag with a `match`. The lookup and its default are otherwise the same.
- The unit tests and the behave step definitions are test plumbing and are not modelled. Their expected values appear as `Rules.UnitTestCases`, `Rules.MultiDayTestCases` and the client method `Inventory.MultipleItemsScenario`.
