/**
 * The Gilded Rose update rules as values: what one call of the daily update
 * does to a single item (name, sell-in countdown, quality), which rule the
 * item's name selects, what one call does to a whole list and what repeated
 * calls do. The imperative engine in module Inventory is proved to implement
 * exactly these functions.
 */
module Rules {

  // Item names with a rule of their own.
  const AgedBrie: string := "Aged Brie"
  const BackstagePasses: string := "Backstage passes to a TAFKAL80ETC concert"
  const Sulfuras: string := "Sulfuras, Hand of Ragnaros"

  // Quality bounds. SulfurasQuality is the value the legendary item carries;
  // the update never reads or enforces it.
  const MinQuality: int := 0
  const MaxQuality: int := 50
  const SulfurasQuality: int := 80

  /** The four update strategies; every name without an entry gets Normal. */
  datatype Rule = Normal | AgedBrieRule | BackstageRule | SulfurasRule

  /** The value of one item record. */
  datatype ItemState = ItemState(name: string, sellIn: int, quality: int)

  /** The strategy table: exactly the three special names. */
  function Strategies(): (table: map<string, Rule>)
    ensures table.Keys == {AgedBrie, BackstagePasses, Sulfuras}
    ensures Normal !in table.Values
    ensures table[AgedBrie] == AgedBrieRule
    ensures table[BackstagePasses] == BackstageRule
    ensures table[Sulfuras] == SulfurasRule
  {
    map[AgedBrie := AgedBrieRule, BackstagePasses := BackstageRule, Sulfuras := SulfurasRule]
  }

  /** Lookup in the strategy table, with the normal rule as default. */
  function RuleFor(name: string): (r: Rule)
    ensures r == AgedBrieRule <==> name == AgedBrie
    ensures r == BackstageRule <==> name == BackstagePasses
    ensures r == SulfurasRule <==> name == Sulfuras
    ensures r == Normal <==> name != AgedBrie && name != BackstagePasses && name != Sulfuras
  {
    var table := Strategies();
    if name in table then table[name] else Normal
  }

  // Single clamped steps: each moves quality by one only when it is strictly
  // inside the bound it moves towards.
  function Increase(quality: int): (r: int)
    ensures r == quality || r == quality + 1
    ensures r == quality + 1 <==> quality < MaxQuality
    ensures quality <= MaxQuality ==> r <= MaxQuality
  {
    if quality < MaxQuality then quality + 1 else quality
  }

  function Decrease(quality: int): (r: int)
    ensures r == quality || r == quality - 1
    ensures r == quality - 1 <==> quality > MinQuality
    ensures quality >= MinQuality ==> r >= MinQuality
  {
    if quality > MinQuality then quality - 1 else quality
  }

  /**
   * An item has expired once its countdown is negative. The rules test this
   * after the countdown has dropped, so it holds exactly when the countdown
   * was at most zero at the start of the call; that is why DailyChange and
   * the backstage reset below test the old countdown against zero.
   */
  predicate Expired(sellIn: int): (b: bool)
    ensures b <==> sellIn < 0
  {
    sellIn < 0
  }

  function Min(a: int, b: int): int { if a <= b then a else b }
  function Max(a: int, b: int): int { if a >= b then a else b }

  /** Quality lost by a normal item, or gained by Aged Brie, in one day. */
  function DailyChange(sellIn: int): int
  {
    if sellIn <= 0 then 2 else 1
  }

  /** Quality gained by a backstage pass in one day before the concert. */
  function BackstageGain(sellIn: int): int
  {
    if sellIn < 6 then 3 else if sellIn < 11 then 2 else 1
  }

  /**
   * Normal rule: one clamped decrease, then the countdown drops, then one more
   * clamped decrease if the item is now expired.
   */
  function NormalUpdate(it: ItemState): (r: ItemState)
    ensures r.name == it.name && r.sellIn == it.sellIn - 1
    ensures r.quality == if it.quality <= MinQuality then it.quality
                         else Max(it.quality - DailyChange(it.sellIn), MinQuality)
  {
    var q := Decrease(it.quality);
    var s := it.sellIn - 1;
    it.(sellIn := s, quality := if Expired(s) then Decrease(q) else q)
  }

  /** Aged Brie: the mirror of the normal rule, with clamped increases. */
  function AgedBrieUpdate(it: ItemState): (r: ItemState)
    ensures r.name == it.name && r.sellIn == it.sellIn - 1
    ensures r.quality == if it.quality >= MaxQuality then it.quality
                         else Min(it.quality + DailyChange(it.sellIn), MaxQuality)
  {
    var q := Increase(it.quality);
    var s := it.sellIn - 1;
    it.(sellIn := s, quality := if Expired(s) then Increase(q) else q)
  }

  /**
   * Backstage passes: up to three clamped increases chosen by the countdown
   * before it drops, then quality is set to zero outright once expired.
   */
  function BackstageUpdate(it: ItemState): (r: ItemState)
    ensures r.name == it.name && r.sellIn == it.sellIn - 1
    ensures it.sellIn <= 0 ==> r.quality == MinQuality
    ensures it.sellIn > 0 ==>
      r.quality == if it.quality >= MaxQuality then it.quality
                   else Min(it.quality + BackstageGain(it.sellIn), MaxQuality)
  {
    var q1 := Increase(it.quality);
    var q2 := if it.sellIn < 11 then Increase(q1) else q1;
    var q3 := if it.sellIn < 6 then Increase(q2) else q2;
    var s := it.sellIn - 1;
    it.(sellIn := s, quality := if Expired(s) then MinQuality else q3)
  }

  /** Sulfuras: the legendary item never changes. */
  function SulfurasUpdate(it: ItemState): (r: ItemState)
    ensures r == it
  {
    it
  }

  predicate QualityInRange(quality: int)
  {
    MinQuality <= quality <= MaxQuality
  }

  /** One day for one item: the rule its name selects. */
  function Step(it: ItemState): (r: ItemState)
    ensures r.name == it.name
    ensures it.name == Sulfuras ==> r == it
    ensures it.name != Sulfuras ==> r.sellIn == it.sellIn - 1
    ensures it.name != Sulfuras && QualityInRange(it.quality) ==> QualityInRange(r.quality)
  {
    match RuleFor(it.name)
    case Normal => NormalUpdate(it)
    case AgedBrieRule => AgedBrieUpdate(it)
    case BackstageRule => BackstageUpdate(it)
    case SulfurasRule => SulfurasUpdate(it)
  }

  /** One call of the daily update on a whole list, front to back. */
  function UpdateAll(items: seq<ItemState>): (r: seq<ItemState>)
    ensures |r| == |items|
    ensures forall i :: 0 <= i < |items| ==> r[i] == Step(items[i])
  {
    if items == [] then [] else [Step(items[0])] + UpdateAll(items[1..])
  }

  /** One item after the given number of days. */
  function Age(it: ItemState, days: nat): ItemState
    decreases days
  {
    if days == 0 then it else Age(Step(it), days - 1)
  }

  /** A whole list after the given number of daily updates. */
  function Simulate(items: seq<ItemState>, days: nat): seq<ItemState>
    decreases days
  {
    if days == 0 then items else Simulate(UpdateAll(items), days - 1)
  }

  /** Every item other than Sulfuras has its quality in [0, 50]. */
  predicate AllInRange(items: seq<ItemState>)
  {
    forall i :: 0 <= i < |items| && items[i].name != Sulfuras ==> QualityInRange(items[i].quality)
  }

  /** A clamped step never leaves the range it starts in. */
  lemma ClampedStepsStayInRange(quality: int)
    requires QualityInRange(quality)
    ensures QualityInRange(Increase(quality)) && QualityInRange(Decrease(quality))
  {
  }

  /** A name outside the table, such as "Conjured Mana Cake", gets the normal rule. */
  lemma UnknownNamesAreNormal(it: ItemState)
    requires it.name != AgedBrie && it.name != BackstagePasses && it.name != Sulfuras
    ensures Step(it) == NormalUpdate(it)
  {
  }

  /** One call keeps every non-Sulfuras quality in range. */
  lemma UpdateAllPreservesRange(items: seq<ItemState>)
    requires AllInRange(items)
    ensures AllInRange(UpdateAll(items))
  {
  }

  /** Each item of a simulated list is aged on its own: no cross-item effect. */
  lemma {:induction false} SimulateIsPointwise(items: seq<ItemState>, days: nat)
    ensures |Simulate(items, days)| == |items|
    ensures forall i :: 0 <= i < |items| ==> Simulate(items, days)[i] == Age(items[i], days)
    decreases days
  {
    if days > 0 {
      var next := UpdateAll(items);
      SimulateIsPointwise(next, days - 1);
      forall i | 0 <= i < |items|
        ensures Simulate(items, days)[i] == Age(items[i], days)
      {
        assert next[i] == Step(items[i]);
      }
    }
  }

  /** Any number of days keeps a non-Sulfuras item's quality in range. */
  lemma {:induction false} AgeStaysInRange(it: ItemState, days: nat)
    requires it.name != Sulfuras && QualityInRange(it.quality)
    ensures QualityInRange(Age(it, days).quality)
    decreases days
  {
    if days > 0 {
      AgeStaysInRange(Step(it), days - 1);
    }
  }

  /** Any number of days keeps every non-Sulfuras quality in the list in range. */
  lemma {:induction false} SimulatePreservesRange(items: seq<ItemState>, days: nat)
    requires AllInRange(items)
    ensures AllInRange(Simulate(items, days))
    decreases days
  {
    if days > 0 {
      UpdateAllPreservesRange(items);
      SimulatePreservesRange(UpdateAll(items), days - 1);
    }
  }

  /**
   * After any number of days the name is unchanged; Sulfuras is unchanged
   * altogether; every other item's countdown has dropped by exactly one a day.
   */
  lemma {:induction false} AgeCountsDown(it: ItemState, days: nat)
    ensures Age(it, days).name == it.name
    ensures it.name == Sulfuras ==> Age(it, days) == it
    ensures it.name != Sulfuras ==> Age(it, days).sellIn == it.sellIn - days
    decreases days
  {
    if days > 0 {
      AgeCountsDown(Step(it), days - 1);
    }
  }

  /** Ageing by a and then by b days is ageing by a + b days. */
  lemma {:induction false} AgeComposes(it: ItemState, a: nat, b: nat)
    ensures Age(Age(it, a), b) == Age(it, a + b)
    decreases a
  {
    if a > 0 {
      AgeComposes(Step(it), a - 1, b);
    }
  }

  /** The single-item, single-day cases checked by the repository's unit tests, all 33. */
  lemma UnitTestCases()
    ensures Step(ItemState("Normal Item", 5, 10)) == ItemState("Normal Item", 4, 9)
    ensures Step(ItemState("Normal Item", 0, 10)) == ItemState("Normal Item", -1, 8)
    ensures Step(ItemState("Normal Item", -1, 10)) == ItemState("Normal Item", -2, 8)
    ensures Step(ItemState("Normal Item", -1, 1)) == ItemState("Normal Item", -2, 0)
    ensures Step(ItemState("Normal Item", -1, 2)) == ItemState("Normal Item", -2, 0)
    ensures Step(ItemState("Normal Item", 5, 0)) == ItemState("Normal Item", 4, 0)
    ensures Step(ItemState("Normal Item", -10, 10)) == ItemState("Normal Item", -11, 8)
    ensures Step(ItemState(AgedBrie, 10, 20)) == ItemState(AgedBrie, 9, 21)
    ensures Step(ItemState(AgedBrie, 0, 20)) == ItemState(AgedBrie, -1, 22)
    ensures Step(ItemState(AgedBrie, -1, 20)) == ItemState(AgedBrie, -2, 22)
    ensures Step(ItemState(AgedBrie, 5, 49)) == ItemState(AgedBrie, 4, 50)
    ensures Step(ItemState(AgedBrie, -1, 48)) == ItemState(AgedBrie, -2, 50)
    ensures Step(ItemState(AgedBrie, 5, 0)) == ItemState(AgedBrie, 4, 1)
    ensures Step(ItemState(AgedBrie, -10, 20)) == ItemState(AgedBrie, -11, 22)
    ensures Step(ItemState(AgedBrie, -1, 49)) == ItemState(AgedBrie, -2, 50)
    ensures Step(ItemState(AgedBrie, 5, 50)) == ItemState(AgedBrie, 4, 50)
    ensures Step(ItemState(Sulfuras, 10, 80)) == ItemState(Sulfuras, 10, 80)
    ensures Step(ItemState(Sulfuras, 5, 80)) == ItemState(Sulfuras, 5, 80)
    ensures Step(ItemState(Sulfuras, -1, 80)) == ItemState(Sulfuras, -1, 80)
    ensures Step(ItemState(Sulfuras, 0, 80)) == ItemState(Sulfuras, 0, 80)
    ensures Step(ItemState(BackstagePasses, 15, 20)) == ItemState(BackstagePasses, 14, 21)
    ensures Step(ItemState(BackstagePasses, 11, 20)) == ItemState(BackstagePasses, 10, 21)
    ensures Step(ItemState(BackstagePasses, 10, 20)) == ItemState(BackstagePasses, 9, 22)
    ensures Step(ItemState(BackstagePasses, 6, 20)) == ItemState(BackstagePasses, 5, 22)
    ensures Step(ItemState(BackstagePasses, 5, 20)) == ItemState(BackstagePasses, 4, 23)
    ensures Step(ItemState(BackstagePasses, 1, 20)) == ItemState(BackstagePasses, 0, 23)
    ensures Step(ItemState(BackstagePasses, 0, 20)) == ItemState(BackstagePasses, -1, 0)
    ensures Step(ItemState(BackstagePasses, -1, 20)) == ItemState(BackstagePasses, -2, 0)
    ensures Step(ItemState(BackstagePasses, 5, 47)) == ItemState(BackstagePasses, 4, 50)
    ensures Step(ItemState(BackstagePasses, 5, 0)) == ItemState(BackstagePasses, 4, 3)
    ensures Step(ItemState(BackstagePasses, 5, 50)) == ItemState(BackstagePasses, 4, 50)
    ensures Step(ItemState(BackstagePasses, 5, 48)) == ItemState(BackstagePasses, 4, 50)
    ensures Step(ItemState(BackstagePasses, 10, 49)) == ItemState(BackstagePasses, 9, 50)
  {
  }

  /** The last five days before the concert: +3 a day, capped at 50. */
  lemma BackstageLastFiveDays()
    ensures Age(ItemState(BackstagePasses, 5, 35), 5) == ItemState(BackstagePasses, 0, 50)
  {
  }

  /** The multi-day progressions checked by the repository's unit tests. */
  lemma MultiDayTestCases()
    ensures Age(ItemState("Normal Item", 10, 20), 5) == ItemState("Normal Item", 5, 15)
    ensures Age(ItemState(BackstagePasses, 15, 20), 5) == ItemState(BackstagePasses, 10, 25)
    ensures Age(ItemState(BackstagePasses, 15, 20), 10) == ItemState(BackstagePasses, 5, 35)
    ensures Age(ItemState(BackstagePasses, 15, 20), 15) == ItemState(BackstagePasses, 0, 50)
    ensures Age(ItemState(BackstagePasses, 15, 20), 16) == ItemState(BackstagePasses, -1, 0)
  {
    var pass := ItemState(BackstagePasses, 15, 20);
    AgeComposes(pass, 5, 5);
    var day10 := Age(pass, 10);
    assert day10 == ItemState(BackstagePasses, 5, 35);
    AgeComposes(pass, 10, 5);
    BackstageLastFiveDays();
    AgeComposes(pass, 15, 1);
  }
}
