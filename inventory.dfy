/**
 * The Gilded Rose engine as the program has it: mutable item records and an
 * engine object that owns a list of them and, on each call of UpdateQuality,
 * changes every item's countdown and quality in place, one step at a time.
 * Every method is proved to compute exactly what module Rules specifies.
 */
module Inventory {
  import opened Rules

  /** A mutable inventory record. */
  class Item {
    var name: string
    var sellIn: int
    var quality: int

    constructor (name: string, sellIn: int, quality: int)
      ensures this.name == name && this.sellIn == sellIn && this.quality == quality
    {
      this.name := name;
      this.sellIn := sellIn;
      this.quality := quality;
    }

    /** The record's current value. */
    ghost function State(): ItemState
      reads this
    {
      ItemState(name, sellIn, quality)
    }
  }

  /** The engine: the items it updates and the name-to-rule table. */
  class GildedRose {
    var items: seq<Item>
    const updateStrategies: map<string, Rule>

    /**
     * The objects in the list are pairwise distinct, so updating one item
     * leaves every other entry alone; and the table is the built one.
     */
    ghost predicate Valid()
      reads this
    {
      updateStrategies == Strategies() &&
      forall j, k :: 0 <= j < |items| && 0 <= k < |items| && j != k ==> items[j] != items[k]
    }

    /** The values of all items, in list order. */
    ghost function Snapshot(): (s: seq<ItemState>)
      reads this, items
      ensures |s| == |items|
      ensures forall i :: 0 <= i < |items| ==> s[i] == items[i].State()
    {
      seq(|items|, i reads this, items requires 0 <= i < |items| => items[i].State())
    }

    constructor (items: seq<Item>)
      ensures this.items == items
      ensures updateStrategies == Strategies()
      ensures Valid() <==> forall j, k :: 0 <= j < |items| && 0 <= k < |items| && j != k ==> items[j] != items[k]
    {
      var table := GildedRose.BuildUpdateStrategies();
      this.items := items;
      this.updateStrategies := table;
    }

    /** The table mapping each name with a rule of its own to that rule. */
    static method BuildUpdateStrategies() returns (table: map<string, Rule>)
      ensures table.Keys == {AgedBrie, BackstagePasses, Sulfuras}
      ensures table[AgedBrie] == AgedBrieRule
      ensures table[BackstagePasses] == BackstageRule
      ensures table[Sulfuras] == SulfurasRule
      ensures table == Strategies()
    {
      table := map[AgedBrie := AgedBrieRule, BackstagePasses := BackstageRule, Sulfuras := SulfurasRule];
    }

    /** One day for every item, in list order, each by the rule its name selects. */
    method UpdateQuality()
      requires Valid()
      modifies items`sellIn, items`quality
      ensures Valid() && items == old(items)
      ensures Snapshot() == UpdateAll(old(Snapshot()))
      ensures forall i :: 0 <= i < |items| ==> items[i].name == old(items[i].name)
      ensures AllInRange(old(Snapshot())) ==> AllInRange(Snapshot())
    {
      var i := 0;
      while i < |items|
        invariant 0 <= i <= |items|
        invariant forall k :: 0 <= k < i ==> items[k].State() == Step(old(items[k].State()))
        invariant forall k :: i <= k < |items| ==> items[k].State() == old(items[k].State())
      {
        var item := items[i];
        var strategy := if item.name in updateStrategies then updateStrategies[item.name] else Normal;
        assert strategy == RuleFor(item.name);
        match strategy {
          case Normal => UpdateNormalItem(item);
          case AgedBrieRule => UpdateAgedBrie(item);
          case BackstageRule => UpdateBackstagePass(item);
          case SulfurasRule => UpdateSulfuras(item);
        }
        i := i + 1;
      }
      if AllInRange(old(Snapshot())) {
        UpdateAllPreservesRange(old(Snapshot()));
      }
    }

    /** Normal items: lose one quality, two once expired, never below zero. */
    method UpdateNormalItem(item: Item)
      modifies item`sellIn, item`quality
      ensures item.State() == NormalUpdate(old(item.State()))
    {
      DecreaseQuality(item);
      DecreaseSellIn(item);
      if IsExpired(item) {
        DecreaseQuality(item);
      }
    }

    /** Aged Brie: gains one quality, two once expired, never above fifty. */
    method UpdateAgedBrie(item: Item)
      modifies item`sellIn, item`quality
      ensures item.State() == AgedBrieUpdate(old(item.State()))
    {
      IncreaseQuality(item);
      DecreaseSellIn(item);
      if IsExpired(item) {
        IncreaseQuality(item);
      }
    }

    /** Backstage passes: gain one, two or three by the countdown; zero after the concert. */
    method UpdateBackstagePass(item: Item)
      modifies item`sellIn, item`quality
      ensures item.State() == BackstageUpdate(old(item.State()))
    {
      IncreaseQuality(item);
      if item.sellIn < 11 {
        IncreaseQuality(item);
      }
      if item.sellIn < 6 {
        IncreaseQuality(item);
      }
      DecreaseSellIn(item);
      if IsExpired(item) {
        item.quality := MinQuality;
      }
    }

    /** Sulfuras: nothing changes. */
    method UpdateSulfuras(item: Item)
      ensures unchanged(item)
    {
    }

    /** One quality up, unless already at the maximum or above. */
    method IncreaseQuality(item: Item)
      modifies item`quality
      ensures item.quality == Increase(old(item.quality))
    {
      if item.quality < MaxQuality {
        item.quality := item.quality + 1;
      }
    }

    /** One quality down, unless already at the minimum or below. */
    method DecreaseQuality(item: Item)
      modifies item`quality
      ensures item.quality == Decrease(old(item.quality))
    {
      if item.quality > MinQuality {
        item.quality := item.quality - 1;
      }
    }

    /** One day off the countdown; there is no lower bound. */
    method DecreaseSellIn(item: Item)
      modifies item`sellIn
      ensures item.sellIn == old(item.sellIn) - 1
    {
      item.sellIn := item.sellIn - 1;
    }

    /** Whether the item is past its sell date. */
    predicate IsExpired(item: Item): (expired: bool)
      reads item
      ensures expired <==> item.sellIn < 0
    {
      Expired(item.sellIn)
    }
  }

  /**
   * A caller's view: four fresh items of the four kinds, one update, and the
   * qualities the repository's multi-item unit test expects; then an empty
   * list, which the update leaves empty.
   */
  method MultipleItemsScenario()
  {
    var normal := new Item("Normal Item", 5, 10);
    var brie := new Item(AgedBrie, 5, 10);
    var hand := new Item(Sulfuras, 5, SulfurasQuality);
    var pass := new Item(BackstagePasses, 5, 10);
    var shop := new GildedRose([normal, brie, hand, pass]);
    shop.UpdateQuality();
    assert shop.Snapshot()[0] == Step(ItemState("Normal Item", 5, 10));
    assert normal.quality == 9 && normal.sellIn == 4;
    assert shop.Snapshot()[1] == Step(ItemState(AgedBrie, 5, 10));
    assert brie.quality == 11 && brie.sellIn == 4;
    assert shop.Snapshot()[2] == Step(ItemState(Sulfuras, 5, SulfurasQuality));
    assert hand.quality == 80 && hand.sellIn == 5;
    assert shop.Snapshot()[3] == Step(ItemState(BackstagePasses, 5, 10));
    assert pass.quality == 13 && pass.sellIn == 4;

    var empty := new GildedRose([]);
    empty.UpdateQuality();
    assert empty.items == [];
  }
}
