/**
 * The game store: one mutable aggregate holding the player's coins, water,
 * level and experience, the inventory, warehouse, plots, market prices,
 * buff state, orders, home layout and story progress, and the operations
 * that change it. Clock readings, random rolls and generated ids are
 * parameters; persistence is not modelled.
 */
module Game {
  import opened Wrappers
  import opened Content
  import opened Buffs
  import opened Warehouse
  import opened Market
  import opened Farming
  import opened Progression
  import opened Orders
  import opened Npc
  import opened Invariants

  /** A piece of furniture placed at home (its position and scale are UI values, left out). */
  datatype Placement = Placement(id: int, itemId: ItemId)

  /** What `generateOrders` did: nothing, pushed an order, or threw on the mystery pseudo-output. */
  datatype OrderOutcome = NotGenerated | Generated | Crashed

  datatype Cooked = Cooked(dishId: ItemId, quality: Quality)

  /** `inventory[id] || 0`. */
  function Held(inv: map<ItemId, nat>, id: ItemId): nat {
    if id in inv then inv[id] else 0
  }

  /** `inventory[id] = (inventory[id] || 0) + n`. */
  function Credited(inv: map<ItemId, nat>, id: ItemId, n: nat): (r: map<ItemId, nat>)
    ensures Held(r, id) == Held(inv, id) + n
    ensures forall x :: x != id ==> Held(r, x) == Held(inv, x)
  {
    inv[id := Held(inv, id) + n]
  }

  /** The warehouse after `removeFromWarehouse(id, q)`, whether or not it succeeded. */
  function Removed(w: seq<Entry>, id: ItemId, q: int): seq<Entry> {
    if Holds(w, id) && CountOf(w, id) >= q then Take(w, id, q) else w
  }

  /** The price `sellCrop` starts from: weed and golden apple at their fixed price, other crops at the market price. */
  function SellBase(prices: map<ItemId, PriceRecord>, id: ItemId): (r: Option<int>)
    ensures id == CropWeed ==> r == Some(1)
    ensures id == CropGoldenApple ==> r == Some(500)
    ensures id != CropWeed && id != CropGoldenApple ==>
      (r.Some? <==> id in prices) && (r.Some? ==> r.value == prices[id].currentPrice)
  {
    if id == CropWeed || id == CropGoldenApple then Some(BasePrice(id))
    else if id in prices then Some(prices[id].currentPrice)
    else None
  }

  /** What `buyItem` charges: the buffed price for seeds, the plain cost otherwise; nothing for an item without a cost. */
  function PurchasePrice(buff: Option<BuffId>, id: ItemId): (r: Option<int>)
    ensures r.Some? <==> Def(id).cost.Some?
    ensures r.Some? && IsSeed(id) ==> r.value == EffectiveSeedPrice(buff, Def(id).cost.value) && r.value >= 1
    ensures r.Some? && !IsSeed(id) ==> r.value == Def(id).cost.value
  {
    match Def(id).cost
    case None => None
    case Some(cost) => if Def(id).kind == Seed then Some(EffectiveSeedPrice(buff, cost)) else Some(cost)
  }

  /**
   * `checkMysteryGift` in closed form: under the mystery gift, every full ten
   * crops sold today turn into one mystery seed and the remainder stays on
   * the counter; nothing happens otherwise.
   */
  function MysteryGiftStep(buff: Option<BuffId>, sold: int, inv: map<ItemId, nat>): (r: (int, map<ItemId, nat>))
    ensures buff == Some(MysteryGift) && sold >= 10 ==> r.0 == sold % 10 && r.1 == Credited(inv, SeedMystery, sold / 10)
    ensures !(buff == Some(MysteryGift) && sold >= 10) ==> r == (sold, inv)
  {
    var threshold := Active(buff).mysteryGiftThreshold;
    if threshold != 0 && sold >= threshold then (sold % threshold, Credited(inv, SeedMystery, sold / threshold))
    else (sold, inv)
  }

  /** `plots.find(p => p.id === plotId)`, given that plot `k` sits at index `k - 1`. */
  function PlotIndexOf(plotId: int): (r: Option<nat>)
    ensures r.Some? ==> r.value < 4 && r.value + 1 == plotId
    ensures r.None? <==> plotId < 1 || plotId > 4
  {
    if 1 <= plotId <= 4 then Some(plotId - 1) else None
  }

  /** The first order with the given id, or `|orders|` (`findIndex`'s -1). */
  function OrderIndex(orders: seq<Order>, id: int): (i: nat)
    ensures i <= |orders|
    ensures i < |orders| ==> orders[i].id == id
    ensures forall j :: 0 <= j < i ==> orders[j].id != id
  {
    if orders == [] then 0
    else if orders[0].id == id then 0
    else 1 + OrderIndex(orders[1..], id)
  }

  /** The first placement with the given id, or `|layout|`. */
  function PlacementIndex(layout: seq<Placement>, id: int): (i: nat)
    ensures i <= |layout|
    ensures i < |layout| ==> layout[i].id == id
    ensures forall j :: 0 <= j < i ==> layout[j].id != id
  {
    if layout == [] then 0
    else if layout[0].id == id then 0
    else 1 + PlacementIndex(layout[1..], id)
  }

  const InitialInventory: map<ItemId, nat> := map[
    SeedTurnip := 5, SeedPotato := 2,
    CropTurnip := 0, CropPotato := 0, CropTomato := 0, CropCorn := 0, CropPumpkin := 0,
    FurnitureChair := 0, FurnitureLamp := 0, FurnitureBookshelf := 0, FurnitureRug := 0,
    FurniturePottedPlant := 0, FurnitureSofa := 0, FurnitureTableLamp := 0, FurnitureWoodenDesk := 0,
    FurnitureHangingPainting := 0, FurnitureFireplace := 0, FurnitureClock := 0,
    FurnitureFullLengthMirror := 0, FurnitureRetroTv := 0, FurnitureCozyBed := 0]

  const InitialDishes: map<ItemId, nat> := map[
    DishTomatoRadish := 0, DishPotatoShreds := 0, DishChiliCorn := 0, DishPumpkinPaste := 0]

  /** The position of an ordinary crop in the market's crop list, which is also the index of its roll. */
  function CropIndex(c: ItemId): (i: int)
    requires c in NormalCrops
    ensures 0 <= i < |NormalCrops| && NormalCrops[i] == c
  {
    match c
    case CropTurnip => 0
    case CropPotato => 1
    case CropTomato => 2
    case CropCorn => 3
    case _ => 4
  }

  /** `updateMarketPrices` on the price map: each ordinary crop's record steps with its roll. */
  function MarketStepped(prices: map<ItemId, PriceRecord>, rolls: seq<real>): (r: map<ItemId, PriceRecord>)
    requires |rolls| == |NormalCrops|
    ensures forall c :: c in r <==> c in prices
  {
    map c | c in prices :: if c in NormalCrops then UpdatedRecord(prices[c], BasePrice(c), rolls[CropIndex(c)]) else prices[c]
  }

  lemma NormalCropsDistinct()
    ensures forall i, j :: 0 <= i < j < |NormalCrops| ==> NormalCrops[i] != NormalCrops[j]
  {
  }

  /** What `initMarketPrices` leaves: the old records, and a base-price record for each ordinary crop that had none. */
  ghost predicate PricesSeeded(before: map<ItemId, PriceRecord>, after: map<ItemId, PriceRecord>) {
    && (forall c :: c in after <==> c in before || c in NormalCrops)
    && (forall c :: c in before ==> after[c] == before[c])
    && (forall c :: c in NormalCrops && c !in before ==> after[c] == InitialRecord(BasePrice(c)))
  }

  /** The loop of `initMarketPrices` over the five ordinary crops, on the price map. */
  method SeededPrices(prices: map<ItemId, PriceRecord>) returns (r: map<ItemId, PriceRecord>)
    requires RecordsWellFormed(prices)
    ensures PricesSeeded(prices, r)
    ensures RecordsWellFormed(r)
  {
    r := prices;
    var i := 0;
    while i < |NormalCrops|
      invariant 0 <= i <= |NormalCrops|
      invariant forall c :: c in r <==> c in prices || c in NormalCrops[..i]
      invariant forall c :: c in prices ==> r[c] == prices[c]
      invariant forall j :: 0 <= j < i && NormalCrops[j] !in prices ==> r[NormalCrops[j]] == InitialRecord(BasePrice(NormalCrops[j]))
      invariant forall c :: c in r ==> WellFormedRecord(r[c])
    {
      var cropId := NormalCrops[i];
      if cropId !in r {
        r := r[cropId := InitialRecord(BasePrice(cropId))];
      }
      assert NormalCrops[..i + 1] == NormalCrops[..i] + [cropId];
      i := i + 1;
    }
    assert NormalCrops[..i] == NormalCrops;
  }

  /** A market step keeps every price record well formed. */
  lemma MarketSteppedWellFormed(prices: map<ItemId, PriceRecord>, rolls: seq<real>)
    requires |rolls| == |NormalCrops| && RecordsWellFormed(prices)
    ensures RecordsWellFormed(MarketStepped(prices, rolls))
  {
  }

  /** A map that steps each ordinary crop's record by its own roll, and keeps the others, is the market step. */
  lemma SteppedPointwise(prices: map<ItemId, PriceRecord>, rolls: seq<real>, r: map<ItemId, PriceRecord>)
    requires |rolls| == |NormalCrops| && forall c :: c in NormalCrops ==> c in prices
    requires forall c :: c in r <==> c in prices
    requires forall c :: c in prices && c !in NormalCrops ==> r[c] == prices[c]
    requires forall j :: 0 <= j < |NormalCrops| ==>
      r[NormalCrops[j]] == UpdatedRecord(prices[NormalCrops[j]], BasePrice(NormalCrops[j]), rolls[j])
    ensures r == MarketStepped(prices, rolls)
  {
    forall c | c in prices && c in NormalCrops
      ensures r[c] == MarketStepped(prices, rolls)[c]
    {
      var j := CropIndex(c);
      assert r[NormalCrops[j]] == UpdatedRecord(prices[c], BasePrice(c), rolls[j]);
    }
  }

  /** The loop of `updateMarketPrices` over the five ordinary crops, on the price map. */
  method SteppedPrices(prices: map<ItemId, PriceRecord>, rolls: seq<real>) returns (r: map<ItemId, PriceRecord>)
    requires |rolls| == |NormalCrops| && forall c :: c in NormalCrops ==> c in prices
    ensures r == MarketStepped(prices, rolls)
  {
    r := prices;
    var i := 0;
    while i < |NormalCrops|
      invariant 0 <= i <= |NormalCrops|
      invariant forall c :: c in r <==> c in prices
      invariant forall c :: c in prices && c !in NormalCrops ==> r[c] == prices[c]
      invariant forall j :: 0 <= j < |NormalCrops| ==>
        r[NormalCrops[j]] == if j < i then UpdatedRecord(prices[NormalCrops[j]], BasePrice(NormalCrops[j]), rolls[j])
                             else prices[NormalCrops[j]]
    {
      var cropId := NormalCrops[i];
      var basePrice := BasePrice(cropId);
      NormalCropsDistinct();
      r := r[cropId := UpdatedRecord(r[cropId], basePrice, rolls[i])];
      i := i + 1;
    }
    SteppedPointwise(prices, rolls, r);
  }

  /** The chapter loop of `checkUnlocks`, on the list of unlocked ids. */
  method UnlockedChapterList(unlocked: seq<int>, level: int) returns (r: seq<int>)
    requires NoDuplicates(unlocked)
    ensures r == UnlockChapters(unlocked, Chapters, level) && NoDuplicates(r)
  {
    r := unlocked;
    var i := 0;
    while i < |Chapters|
      invariant 0 <= i <= |Chapters|
      invariant UnlockChapters(r, Chapters[i..], level) == UnlockChapters(unlocked, Chapters, level)
      invariant NoDuplicates(r)
    {
      var chapter := Chapters[i];
      if level >= chapter.unlockLevel && chapter.id !in r {
        r := r + [chapter.id];
      }
      assert Chapters[i..][1..] == Chapters[i + 1..];
      i := i + 1;
    }
  }

  /** One more offered unit is accepted exactly when the base capacity still has room. */
  lemma OfferedUnit(used: int, n: nat)
    ensures Accepted(used, n + 1) == Accepted(used, n) + Accepted(used + Accepted(used, n), 1)
  {
  }

  /**
   * Offering `n` units one at a time to a well-formed warehouse leaves it
   * well-formed and holding the accepted ones; one more offer accepts one
   * more unit when the base capacity still has room.
   */
  lemma AcceptedUnits(w: seq<Entry>, id: ItemId, n: nat)
    requires WellFormed(w)
    ensures var w1 := Insert(w, id, Accepted(Used(w), n));
      && WellFormed(w1) && Used(w1) == Used(w) + Accepted(Used(w), n)
      && Insert(w1, id, Accepted(Used(w1), 1)) == Insert(w, id, Accepted(Used(w), n + 1))
  {
    var used := Used(w);
    var w1 := Insert(w, id, Accepted(used, n));
    if Accepted(used, n) > 0 {
      InsertSpec(w, id, Accepted(used, n));
    }
    OfferedUnit(used, n);
    if Accepted(Used(w1), 1) > 0 && Accepted(used, n) > 0 {
      InsertTwice(w, id, Accepted(used, n), Accepted(Used(w1), 1));
    }
  }

  /** Unit `i` of the harvest loop goes to the warehouse exactly when it is below the share. */
  lemma UnitGoesToWarehouse(used: int, capacity: int, quantity: nat, i: nat)
    requires i < quantity
    ensures used + i < capacity <==> i < Share(used, capacity, quantity)
  {
  }

  /** Crediting one more unit to an already credited item. */
  lemma CreditedOnceMore(inv: map<ItemId, nat>, id: ItemId, n: nat)
    ensures (if n == 0 then inv else Credited(inv, id, n))[id := Held(if n == 0 then inv else Credited(inv, id, n), id) + 1]
            == Credited(inv, id, n + 1)
  {
  }

  /**
   * Where `harvest` puts `quantity` units of `cropId`: the warehouse after
   * the units it accepts, and the inventory with the units the active
   * capacity turns away.
   */
  function Routed(w: seq<Entry>, inv: map<ItemId, nat>, cropId: ItemId, quantity: nat, capacity: int)
    : (seq<Entry>, map<ItemId, nat>)
  {
    var share := Share(Used(w), capacity, quantity);
    (Insert(w, cropId, Accepted(Used(w), share)), if share == quantity then inv else Credited(inv, cropId, quantity - share))
  }

  /**
   * Routing `i + 1` units is routing `i` units and then one more: to the
   * warehouse (one unit offered to `addToWarehouse`) while `used + i` is
   * below the active capacity, to the inventory otherwise.
   */
  lemma RoutedStep(w: seq<Entry>, inv: map<ItemId, nat>, cropId: ItemId, i: nat, capacity: int)
    requires WellFormed(w)
    ensures var p := Routed(w, inv, cropId, i, capacity);
      && WellFormed(p.0)
      && Routed(w, inv, cropId, i + 1, capacity)
         == if Used(w) + i < capacity then (Insert(p.0, cropId, Accepted(Used(p.0), 1)), p.1)
            else (p.0, p.1[cropId := Held(p.1, cropId) + 1])
  {
    AcceptedUnits(w, cropId, Share(Used(w), capacity, i));
    if Used(w) + i < capacity {
      RoutedToWarehouse(w, inv, cropId, i, capacity);
    } else {
      RoutedToInventory(w, inv, cropId, i, capacity);
    }
  }

  /** The step of `RoutedStep` for a unit below the active capacity: one more unit offered to the warehouse. */
  lemma RoutedToWarehouse(w: seq<Entry>, inv: map<ItemId, nat>, cropId: ItemId, i: nat, capacity: int)
    requires WellFormed(w) && Used(w) + i < capacity
    ensures var p := Routed(w, inv, cropId, i, capacity);
      Routed(w, inv, cropId, i + 1, capacity) == (Insert(p.0, cropId, Accepted(Used(p.0), 1)), p.1)
  {
    assert Share(Used(w), capacity, i) == i && Share(Used(w), capacity, i + 1) == i + 1;
    AcceptedUnits(w, cropId, i);
  }

  /** The step of `RoutedStep` for a unit at or past the active capacity: one more unit credited to the inventory. */
  lemma RoutedToInventory(w: seq<Entry>, inv: map<ItemId, nat>, cropId: ItemId, i: nat, capacity: int)
    requires Used(w) + i >= capacity
    ensures var p := Routed(w, inv, cropId, i, capacity);
      Routed(w, inv, cropId, i + 1, capacity) == (p.0, p.1[cropId := Held(p.1, cropId) + 1])
  {
    var share := Share(Used(w), capacity, i);
    assert Share(Used(w), capacity, i + 1) == share;
    CreditedOnceMore(inv, cropId, i - share);
  }

  /**
   * The routing loop of `harvest`: unit `i` is offered to `addToWarehouse`
   * while `used + i` is below the effective capacity, `used` being read once
   * before the loop, and goes to the inventory otherwise. An offered unit
   * that the base capacity of 30 refuses is lost.
   */
  method RoutedUnits(w: seq<Entry>, inv: map<ItemId, nat>, cropId: ItemId, quantity: nat, capacity: int)
    returns (w': seq<Entry>, inv': map<ItemId, nat>)
    requires WellFormed(w)
    ensures (w', inv') == Routed(w, inv, cropId, quantity, capacity) && WellFormed(w')
  {
    var used := Used(w);
    w', inv' := w, inv;
    var i := 0;
    while i < quantity
      invariant 0 <= i <= quantity
      invariant (w', inv') == Routed(w, inv, cropId, i, capacity)
    {
      RoutedStep(w, inv, cropId, i, capacity);
      if used + i < capacity {
        // addToWarehouse(cropId, 1), against the base capacity
        var actual := Accepted(Used(w'), 1);
        w' := Insert(w', cropId, actual);
      } else {
        inv' := inv'[cropId := Held(inv', cropId) + 1];
      }
      i := i + 1;
    }
    RoutedStep(w, inv, cropId, quantity, capacity);
  }

  /**
   * Where the units of a harvest end up. Against a capacity of at most 30
   * every unit is either stored or credited; under a larger capacity, with
   * the warehouse between 30 and that capacity, the units the loop sends to
   * the warehouse are refused by `addToWarehouse` and lost.
   */
  lemma RoutedAccounting(w: seq<Entry>, inv: map<ItemId, nat>, cropId: ItemId, quantity: nat, capacity: int)
    requires WellFormed(w)
    ensures var r := Routed(w, inv, cropId, quantity, capacity);
      && WellFormed(r.0)
      && (forall x :: x != cropId ==> CountOf(r.0, x) == CountOf(w, x) && Held(r.1, x) == Held(inv, x))
      && (capacity <= Capacity ==> CountOf(r.0, cropId) + Held(r.1, cropId) == CountOf(w, cropId) + Held(inv, cropId) + quantity)
      && (Capacity <= Used(w) < capacity && quantity >= 1 ==>
            CountOf(r.0, cropId) + Held(r.1, cropId) < CountOf(w, cropId) + Held(inv, cropId) + quantity)
  {
    var used := Used(w);
    var share := Share(used, capacity, quantity);
    var stored := Accepted(used, share);
    RoutedCounts(w, inv, cropId, quantity, capacity);
    if capacity <= Capacity {
      assert stored == share;
    }
    if Capacity <= used < capacity && quantity >= 1 {
      assert stored == 0 && share >= 1;
    }
  }

  /** The counts after routing: the accepted units in the warehouse, the turned-away ones in the inventory. */
  lemma RoutedCounts(w: seq<Entry>, inv: map<ItemId, nat>, cropId: ItemId, quantity: nat, capacity: int)
    requires WellFormed(w)
    ensures var r := Routed(w, inv, cropId, quantity, capacity);
      var share := Share(Used(w), capacity, quantity);
      && WellFormed(r.0)
      && (forall x :: CountOf(r.0, x) == CountOf(w, x) + (if x == cropId then Accepted(Used(w), share) else 0))
      && (forall x :: Held(r.1, x) == Held(inv, x) + (if x == cropId then quantity - share else 0))
  {
    var share := Share(Used(w), capacity, quantity);
    var stored := Accepted(Used(w), share);
    var r := Routed(w, inv, cropId, quantity, capacity);
    if stored > 0 {
      InsertSpec(w, cropId, stored);
    } else {
      assert r.0 == w;
    }
    if share == quantity {
      assert r.1 == inv;
    } else {
      assert r.1 == Credited(inv, cropId, quantity - share);
    }
  }

  /**
   * Cooking's stock change: with both ingredients held it takes one unit of
   * each and nothing else; an ingredient that is not held is simply not
   * taken, and the dish is made all the same.
   */
  lemma CookingTakesOneEach(w: seq<Entry>, a: ItemId, b: ItemId)
    requires WellFormed(w)
    ensures WellFormed(Removed(Removed(w, a, 1), b, 1))
    ensures a != b && Holds(w, a) && Holds(w, b) ==>
      var r := Removed(Removed(w, a, 1), b, 1);
      && Used(r) == Used(w) - 2
      && forall x :: CountOf(r, x) == CountOf(w, x) - (if x == a || x == b then 1 else 0)
    ensures !Holds(w, a) && !Holds(w, b) ==> Removed(Removed(w, a, 1), b, 1) == w
  {
    var w1 := Removed(w, a, 1);
    RemovedOne(w, a);
    RemovedOne(w1, b);
    if a != b && Holds(w, a) && Holds(w, b) {
      assert CountOf(w1, b) == CountOf(w, b);
    }
  }

  /** Removing one unit of a held item takes exactly that unit; of an item not held, nothing. */
  lemma RemovedOne(w: seq<Entry>, id: ItemId)
    requires WellFormed(w)
    ensures WellFormed(Removed(w, id, 1))
    ensures Holds(w, id) ==> Used(Removed(w, id, 1)) == Used(w) - 1
    ensures Holds(w, id) ==> forall x :: CountOf(Removed(w, id, 1), x) == CountOf(w, x) - (if x == id then 1 else 0)
    ensures Holds(w, id) <==> CountOf(w, id) >= 1
    ensures !Holds(w, id) ==> Removed(w, id, 1) == w
  {
    if Holds(w, id) {
      CountOfAt(w, IndexOf(w, id));
      TakeSpec(w, id, 1);
    }
  }

  /** The progress with plot `k` cleared after its harvest. */
  function PlotCleared(p: Progress, k: nat): (r: Progress)
    requires k < |p.plots| == 4
    ensures |r.plots| == 4
  {
    p.(plots := p.plots[k := Cleared(p.plots[k])])
  }

  class GameState {
    var coins: int
    var water: int
    const maxWater: int
    var level: int
    var exp: int
    var gameDay: int
    var lastDayCheck: int
    var dailyFarmingUsed: int
    var warehouse: seq<Entry>
    var marketPrices: map<ItemId, PriceRecord>
    var dishes: map<ItemId, nat>
    var currentBuff: Option<BuffId>
    var buffChoices: seq<BuffId>
    var buffSelected: bool
    var tomorrowDebuff: Option<Debuff>
    var cropsSoldToday: int
    var inventory: map<ItemId, nat>
    const plots: array<Plot>
    var orders: seq<Order>
    var homeLayout: seq<Placement>
    var unlockedChapters: seq<int>
    var currentChapter: int
    var readChapters: seq<int>
    /** The NPC store, shared with the rest of the game. */
    const npcStore: NpcStore

    /** The invariants every operation keeps. */
    ghost predicate Valid()
      reads plots, npcStore, this`level, this`dailyFarmingUsed, this`unlockedChapters, this`readChapters, this`warehouse, this`marketPrices,
            this`buffChoices, this`buffSelected, this`currentBuff, this`tomorrowDebuff, this`orders
    {
      && plots.Length == 4 && PlotsOk(plots[..]) && 0 <= dailyFarmingUsed <= DailyFarmingLimit
      && ProgressOk(level, unlockedChapters, readChapters) && StockOk(warehouse, marketPrices)
      && BuffOk(buffChoices, buffSelected, currentBuff, tomorrowDebuff) && OrdersOk(orders) && npcStore.Valid()
    }

    /** Every ordinary crop has a price record (`initMarketPrices` has run). */
    ghost predicate PricesReady()
      reads this`marketPrices
    {
      forall c :: c in NormalCrops ==> c in marketPrices
    }

    /** The part of the state experience moves. */
    ghost function ProgressView(): (p: Progress)
      reads this`level, this`exp, this`unlockedChapters, plots
      requires plots.Length == 4
      ensures |p.plots| == 4
    {
      Progress(level, exp, plots[..], unlockedChapters)
    }

    /** The store's default state, before any saved game is loaded. */
    constructor (npcs: NpcStore, now: int)
      requires npcs.Valid()
      ensures Valid() && npcStore == npcs && fresh(plots)
      ensures coins == 100 && water == 20 && maxWater == 50 && level == 1 && exp == 0
      ensures gameDay == 1 && lastDayCheck == now && dailyFarmingUsed == 0 && cropsSoldToday == 0
      ensures warehouse == [] && marketPrices == map[] && dishes == InitialDishes && inventory == InitialInventory
      ensures currentBuff.None? && buffChoices == [] && !buffSelected && tomorrowDebuff.None?
      ensures plots[..] == InitialPlots && orders == [] && homeLayout == []
      ensures unlockedChapters == [1] && currentChapter == 1 && readChapters == []
    {
      coins, water, maxWater, level, exp := 100, 20, 50, 1, 0;
      gameDay, lastDayCheck, dailyFarmingUsed := 1, now, 0;
      warehouse, marketPrices, dishes := [], map[], InitialDishes;
      currentBuff, buffChoices, buffSelected, tomorrowDebuff := None, [], false, None;
      cropsSoldToday, inventory := 0, InitialInventory;
      plots := new Plot[4](i requires 0 <= i < 4 => InitialPlots[i]);
      orders, homeLayout := [], [];
      unlockedChapters, currentChapter, readChapters := [1], 1, [];
      npcStore := npcs;
      new;
      assert plots[..] == InitialPlots;
    }

    // ----- market -----

    /** `initMarketPrices`: a base-price record for every ordinary crop that has none; existing records stay. */
    method InitMarketPrices()
      requires Valid()
      modifies this`marketPrices
      ensures Valid() && PricesReady()
      ensures PricesSeeded(old(marketPrices), marketPrices)
    {
      marketPrices := SeededPrices(marketPrices);
    }

    /** `updateMarketPrices`: every ordinary crop's record takes one step with its roll; nothing else changes. */
    method UpdateMarketPrices(rolls: seq<real>)
      requires Valid() && PricesReady() && |rolls| == |NormalCrops|
      modifies this`marketPrices
      ensures Valid() && PricesReady()
      ensures marketPrices == MarketStepped(old(marketPrices), rolls)
    {
      MarketSteppedWellFormed(marketPrices, rolls);
      marketPrices := SteppedPrices(marketPrices, rolls);
    }

    // ----- warehouse -----

    /** `addToWarehouse`: as many of `quantity` units as fit under the base capacity of 30. */
    method AddToWarehouse(cropId: ItemId, quantity: int) returns (actual: int)
      requires Valid()
      modifies this`warehouse
      ensures Valid()
      ensures actual == Accepted(Used(old(warehouse)), quantity)
      ensures warehouse == Insert(old(warehouse), cropId, actual)
      ensures Used(warehouse) == Used(old(warehouse)) + actual
      ensures forall x :: CountOf(warehouse, x) == CountOf(old(warehouse), x) + (if x == cropId then actual else 0)
    {
      var used := Used(warehouse);
      var spaceAvailable := Capacity - used;
      actual := Min(quantity, spaceAvailable);
      if actual <= 0 {
        actual := 0;
      } else {
        var i := IndexOf(warehouse, cropId);
        if i < |warehouse| {
          warehouse := warehouse[i := Entry(cropId, warehouse[i].quantity + actual)];
        } else {
          warehouse := warehouse + [Entry(cropId, actual)];
        }
        InsertSpec(old(warehouse), cropId, actual);
      }
    }

    /** `removeFromWarehouse`: fails, changing nothing, unless the item is held at least `quantity` times. */
    method RemoveFromWarehouse(cropId: ItemId, quantity: int) returns (ok: bool)
      requires Valid()
      modifies this`warehouse
      ensures Valid()
      ensures ok == (Holds(old(warehouse), cropId) && CountOf(old(warehouse), cropId) >= quantity)
      ensures warehouse == Removed(old(warehouse), cropId, quantity)
      ensures ok ==> Used(warehouse) == Used(old(warehouse)) - quantity
      ensures ok ==> forall x :: CountOf(warehouse, x) == CountOf(old(warehouse), x) - (if x == cropId then quantity else 0)
    {
      var i := IndexOf(warehouse, cropId);
      ok := i < |warehouse| && warehouse[i].quantity >= quantity;
      if ok {
        var left := warehouse[i].quantity - quantity;
        if left <= 0 {
          warehouse := warehouse[..i] + warehouse[i + 1..];
        } else {
          warehouse := warehouse[i := Entry(cropId, left)];
        }
        TakeSpec(old(warehouse), cropId, quantity);
      }
    }

    /**
     * `sellCrop`: fails, changing nothing, when the warehouse holds fewer
     * than `quantity` or a market crop has no price record. Otherwise the
     * buffed unit price times the quantity is credited (the removal's own
     * result is ignored), the day's sold count grows and the mystery gift
     * is checked.
     */
    method SellCrop(cropId: ItemId, quantity: int) returns (ok: bool)
      requires Valid()
      modifies this`warehouse, this`coins, this`cropsSoldToday, this`inventory
      ensures Valid()
      ensures ok == (CountOf(old(warehouse), cropId) >= quantity && SellBase(marketPrices, cropId).Some?)
      ensures !ok ==> warehouse == old(warehouse) && coins == old(coins)
                      && cropsSoldToday == old(cropsSoldToday) && inventory == old(inventory)
      ensures ok ==>
        var unitPrice := EffectiveSellPrice(currentBuff, tomorrowDebuff, cropId, SellBase(marketPrices, cropId).value);
        && coins == old(coins) + unitPrice * quantity
        && warehouse == Removed(old(warehouse), cropId, quantity)
        && (cropsSoldToday, inventory) == MysteryGiftStep(currentBuff, old(cropsSoldToday) + quantity, old(inventory))
      // a sale of at least one unit takes exactly that many units of that crop out of the warehouse
      ensures ok && quantity >= 1 ==>
        && Used(warehouse) == Used(old(warehouse)) - quantity
        && forall x :: CountOf(warehouse, x) == CountOf(old(warehouse), x) - (if x == cropId then quantity else 0)
    {
      var warehouseCount := CountOf(warehouse, cropId);
      var basePrice := SellBase(marketPrices, cropId);
      ok := warehouseCount >= quantity && basePrice.Some?;
      if ok {
        var unitPrice := EffectiveSellPrice(currentBuff, tomorrowDebuff, cropId, basePrice.value);
        CompleteSale(cropId, quantity, unitPrice * quantity);
      }
    }

    /** The state changes of a sale that passed its checks: removal, payment, then the sold count. */
    method CompleteSale(cropId: ItemId, quantity: int, revenue: int)
      requires Valid()
      modifies this`warehouse, this`coins, this`cropsSoldToday, this`inventory
      ensures Valid()
      ensures coins == old(coins) + revenue
      ensures warehouse == Removed(old(warehouse), cropId, quantity)
      ensures (cropsSoldToday, inventory) == MysteryGiftStep(currentBuff, old(cropsSoldToday) + quantity, old(inventory))
      ensures Holds(old(warehouse), cropId) && CountOf(old(warehouse), cropId) >= quantity ==>
        && Used(warehouse) == Used(old(warehouse)) - quantity
        && forall x :: CountOf(warehouse, x) == CountOf(old(warehouse), x) - (if x == cropId then quantity else 0)
    {
      var _ := RemoveFromWarehouse(cropId, quantity);
      coins := coins + revenue;
      CountSale(quantity);
    }

    /** The end of `sellCrop`: the day's sold count grows, then the mystery gift is checked. */
    method CountSale(quantity: int)
      requires Valid()
      modifies this`cropsSoldToday, this`inventory
      ensures Valid()
      ensures (cropsSoldToday, inventory) == MysteryGiftStep(currentBuff, old(cropsSoldToday) + quantity, old(inventory))
    {
      cropsSoldToday := cropsSoldToday + quantity;
      CheckMysteryGift();
    }

    /** `checkMysteryGift`: trade every full threshold of crops sold today for one mystery seed. */
    method CheckMysteryGift()
      requires Valid()
      modifies this`cropsSoldToday, this`inventory
      ensures Valid()
      ensures (cropsSoldToday, inventory) == MysteryGiftStep(currentBuff, old(cropsSoldToday), old(inventory))
    {
      if currentBuff.Some? {
        var buff := Effect(currentBuff.value);
        if buff.mysteryGiftThreshold != 0 {
          var threshold := buff.mysteryGiftThreshold;
          assert threshold == 10;
          ghost var given: nat := 0;
          while cropsSoldToday >= threshold
            invariant cropsSoldToday + given * threshold == old(cropsSoldToday)
            invariant given > 0 ==> cropsSoldToday >= 0
            invariant inventory == if given == 0 then old(inventory) else Credited(old(inventory), SeedMystery, given)
            decreases cropsSoldToday
          {
            cropsSoldToday := cropsSoldToday - threshold;
            inventory := inventory[SeedMystery := Held(inventory, SeedMystery) + 1];
            given := given + 1;
          }
        }
      }
    }

    // ----- farming -----

    /** `canFarmToday`: the day's farming actions are not used up. */
    predicate CanFarmToday()
      reads this`dailyFarmingUsed
    {
      dailyFarmingUsed < DailyFarmingLimit
    }

    /**
     * `plant`: when a farming action is left and the plot is empty, and the
     * inventory holds the item, one of it is planted for the buffed grow
     * time. Only the count is checked, so a non-seed item can be planted.
     */
    method Plant(plotId: int, seedId: ItemId, now: int) returns (ok: bool)
      requires Valid()
      modifies plots, this`inventory, this`dailyFarmingUsed
      ensures Valid()
      ensures var k := PlotIndexOf(plotId);
        ok == (old(CanFarmToday()) && k.Some? && old(plots[k.value]).status == Empty && Held(old(inventory), seedId) > 0)
      ensures ok ==>
        var k := PlotIndexOf(plotId).value;
        && inventory == old(inventory)[seedId := Held(old(inventory), seedId) - 1]
        && dailyFarmingUsed == old(dailyFarmingUsed) + 1
        && plots[..] == old(plots[..])[k := Planted(old(plots[k]), seedId, currentBuff, now)]
      ensures !ok ==> inventory == old(inventory) && dailyFarmingUsed == old(dailyFarmingUsed) && plots[..] == old(plots[..])
    {
      var k := PlotIndexOf(plotId);
      ok := dailyFarmingUsed < DailyFarmingLimit && k.Some? && plots[k.value].status == Empty
            && Held(inventory, seedId) > 0;
      if ok {
        inventory := inventory[seedId := Held(inventory, seedId) - 1];
        plots[k.value] := Planted(plots[k.value], seedId, currentBuff, now);
        dailyFarmingUsed := dailyFarmingUsed + 1;
      }
    }

    /** `waterPlot`: a growing plot loses five seconds of its duration for one unit of water. */
    method WaterPlot(plotId: int)
      requires Valid()
      modifies plots, this`water
      ensures Valid()
      ensures var k := PlotIndexOf(plotId);
        var watered := k.Some? && old(plots[k.value]).status == Growing && old(water) > 0;
        && (watered ==> water == old(water) - 1 && plots[..] == old(plots[..])[k.value := Watered(old(plots[k.value]))])
        && (!watered ==> water == old(water) && plots[..] == old(plots[..]))
    {
      var k := PlotIndexOf(plotId);
      if k.Some? && plots[k.value].status == Growing && water > 0 {
        water := water - 1;
        plots[k.value] := Watered(plots[k.value]);
      }
    }

    /**
     * `tick` at clock reading `now` (milliseconds): one unit of water in the
     * first second of every ten while below the maximum, and every growing
     * plot whose time has come becomes ready.
     */
    method Tick(now: nat)
      requires Valid()
      modifies this`water, plots
      ensures Valid()
      ensures water == if now % 10000 < 1000 && old(water) < maxWater then old(water) + 1 else old(water)
      ensures forall i :: 0 <= i < plots.Length ==> plots[i] == Ticked(old(plots[i]), now)
    {
      if now % 10000 < 1000 && water < maxWater {
        water := water + 1;
      }
      var i := 0;
      while i < plots.Length
        modifies plots
        invariant 0 <= i <= plots.Length
        invariant forall j :: 0 <= j < i ==> plots[j] == Ticked(old(plots[j]), now)
        invariant forall j :: i <= j < plots.Length ==> plots[j] == old(plots[j])
      {
        var plot := plots[i];
        if plot.status == Growing {
          if Ripe(plot, now) {
            plots[i] := plot.(status := Ready);
          }
        }
        i := i + 1;
      }
    }

    // ----- the daily buff -----

    /** `generateBuffChoices`: the first three buffs of a shuffle of the catalogue, none selected yet. */
    method GenerateBuffChoices(shuffled: seq<BuffId>)
      requires Valid() && IsShuffle(shuffled)
      modifies this`buffChoices, this`buffSelected, this`currentBuff, this`cropsSoldToday
      ensures Valid()
      ensures buffChoices == shuffled[..3] && !buffSelected && currentBuff.None? && cropsSoldToday == 0
      ensures |buffChoices| == 3 && forall i, j :: 0 <= i < j < 3 ==> buffChoices[i] != buffChoices[j]
    {
      buffChoices, buffSelected, currentBuff, cropsSoldToday := shuffled[..3], false, None, 0;
    }

    /**
     * `selectBuff`: once a day, one of the offered buffs becomes active. The
     * futures contract pays 200 coins at once and sets the halving debuff,
     * which sell prices apply from this moment on; no other buff has an
     * instant effect.
     */
    method SelectBuff(buffId: BuffId) returns (ok: bool)
      requires Valid()
      modifies this`currentBuff, this`buffSelected, this`coins, this`tomorrowDebuff
      ensures Valid()
      ensures ok == (!old(buffSelected) && buffId in buffChoices)
      ensures ok ==> currentBuff == Some(buffId) && buffSelected
      ensures ok && buffId == FuturesContract ==> coins == old(coins) + 200 && tomorrowDebuff == Some(Debuff(0.5))
      ensures !(ok && buffId == FuturesContract) ==> coins == old(coins) && tomorrowDebuff == old(tomorrowDebuff)
      ensures !ok ==> currentBuff == old(currentBuff) && buffSelected == old(buffSelected)
    {
      ok := !buffSelected && buffId in buffChoices;
      if ok {
        currentBuff := Some(buffId);
        buffSelected := true;
        InstantEffects(buffId);
        var buff := Effect(buffId);
        if buff.instantCoins != 0 {
          coins := coins + buff.instantCoins;
        }
        if buff.tomorrowPricePenalty != 0.0 {
          tomorrowDebuff := Some(Debuff(buff.tomorrowPricePenalty));
        }
      }
    }

    /**
     * `advanceToNextDay`: the day counter moves on, the daily counters and
     * the debuff are cleared, the market takes a step and three new buffs
     * are offered.
     */
    method AdvanceToNextDay(priceRolls: seq<real>, shuffled: seq<BuffId>, now: int)
      requires Valid() && PricesReady() && |priceRolls| == |NormalCrops| && IsShuffle(shuffled)
      modifies this`gameDay, this`dailyFarmingUsed, this`cropsSoldToday, this`tomorrowDebuff, this`marketPrices,
               this`buffChoices, this`buffSelected, this`currentBuff, this`lastDayCheck
      ensures Valid() && PricesReady()
      ensures && gameDay == old(gameDay) + 1 && dailyFarmingUsed == 0 && cropsSoldToday == 0 && tomorrowDebuff.None?
              && marketPrices == MarketStepped(old(marketPrices), priceRolls)
              && buffChoices == shuffled[..3] && currentBuff.None? && !buffSelected
              && lastDayCheck == now
    {
      ResetDayCounters();
      UpdateMarketPrices(priceRolls);
      GenerateBuffChoices(shuffled);
      lastDayCheck := now;
    }

    /** The start of `advanceToNextDay`: the day moves on and the daily counters and the debuff are cleared. */
    method ResetDayCounters()
      requires Valid()
      modifies this`gameDay, this`dailyFarmingUsed, this`cropsSoldToday, this`tomorrowDebuff
      ensures Valid()
      ensures gameDay == old(gameDay) + 1 && dailyFarmingUsed == 0 && cropsSoldToday == 0 && tomorrowDebuff.None?
    {
      gameDay, dailyFarmingUsed, cropsSoldToday, tomorrowDebuff := gameDay + 1, 0, 0, None;
    }
  

    // ----- experience and unlocks -----

    /**
     * `checkUnlocks`: plot 3 opens from level 2 and plot 4 from level 3, and
     * every story chapter the level reaches is unlocked once, in table order.
     */
    method CheckUnlocks()
      requires Valid()
      modifies plots, this`unlockedChapters
      ensures Valid()
      ensures ProgressView() == Unlocked(old(ProgressView()))
    {
      if level >= 2 && plots[2].status == Locked {
        plots[2] := plots[2].(status := Empty);
      }
      if level >= 3 && plots[3].status == Locked {
        plots[3] := plots[3].(status := Empty);
      }
      unlockedChapters := UnlockedChapterList(unlockedChapters, level);
    }

    /** `addExp`: the experience step, and the unlock check after a level-up; nothing at level 30. */
    method AddExp(amount: int)
      requires Valid()
      modifies plots, this`level, this`exp, this`unlockedChapters
      ensures Valid()
      ensures ProgressView() == AfterExp(old(ProgressView()), amount)
    {
      if level < MaxLevel {
        exp := exp + amount;
        var nextLevelExp := level * 100;
        if exp >= nextLevelExp {
          level := level + 1;
          exp := exp - nextLevelExp;
          CheckUnlocks();
        }
      }
    }
  
    // ----- harvest -----

    /** The routing step of `harvest` on the store's warehouse and inventory. */
    method StoreHarvest(cropId: ItemId, quantity: nat)
      requires Valid()
      modifies this`warehouse, this`inventory
      ensures Valid()
      ensures (warehouse, inventory) == Routed(old(warehouse), old(inventory), cropId, quantity, EffectiveWarehouseCapacity(currentBuff))
      ensures ProgressView() == old(ProgressView())
    {
      warehouse, inventory := RoutedUnits(warehouse, inventory, cropId, quantity, EffectiveWarehouseCapacity(currentBuff));
    }

    /** The last steps of `harvest`: the plot is cleared, then positive experience is added. */
    method ClearHarvestedPlot(k: nat, amount: int)
      requires Valid() && k < 4
      modifies plots, this`level, this`exp, this`unlockedChapters
      ensures Valid()
      ensures var cleared := PlotCleared(old(ProgressView()), k);
        ProgressView() == if amount > 0 then AfterExp(cleared, amount) else cleared
    {
      plots[k] := Cleared(plots[k]);
      if amount > 0 {
        AddExp(amount);
      }
    }

    /** The body of `harvest` for a ready plot `k`. */
    method HarvestPlot(k: nat, rolls: HarvestRolls) returns (res: HarvestResult)
      requires Valid() && RollsInRange(rolls) && k < 4 && plots[k].status == Ready
      modifies plots, this`warehouse, this`inventory, this`level, this`exp, this`unlockedChapters
      ensures Valid()
      ensures res == ResolveHarvest(currentBuff, old(plots[k]).plantId.value, rolls)
      ensures (warehouse, inventory) == Routed(old(warehouse), old(inventory), res.cropId, res.quantity, EffectiveWarehouseCapacity(currentBuff))
      ensures var cleared := PlotCleared(old(ProgressView()), k);
        ProgressView() == if res.exp > 0 then AfterExp(cleared, res.exp) else cleared
    {
      res := ResolveHarvest(currentBuff, plots[k].plantId.value, rolls);
      StoreHarvest(res.cropId, res.quantity);
      ClearHarvestedPlot(k, res.exp);
    }

    /**
     * `harvest`: nothing unless the plot is ready. Otherwise the harvest is
     * resolved from the active buff and the rolls, its units are routed to
     * the warehouse or the inventory, the plot is cleared, and positive
     * experience is added.
     */
    method Harvest(plotId: int, rolls: HarvestRolls) returns (r: Option<HarvestResult>)
      requires Valid() && RollsInRange(rolls)
      modifies plots, this`warehouse, this`inventory, this`level, this`exp, this`unlockedChapters
      ensures Valid()
      ensures var k := PlotIndexOf(plotId);
        r.Some? <==> k.Some? && old(plots[k.value]).status == Ready
      ensures r.None? ==> warehouse == old(warehouse) && inventory == old(inventory) && ProgressView() == old(ProgressView())
      ensures r.Some? ==>
        var k := PlotIndexOf(plotId).value;
        var res := ResolveHarvest(currentBuff, old(plots[k]).plantId.value, rolls);
        var cleared := PlotCleared(old(ProgressView()), k);
        && r == Some(res)
        && (warehouse, inventory) == Routed(old(warehouse), old(inventory), res.cropId, res.quantity, EffectiveWarehouseCapacity(currentBuff))
        && ProgressView() == if res.exp > 0 then AfterExp(cleared, res.exp) else cleared
    {
      var k := PlotIndexOf(plotId);
      if k.Some? && plots[k.value].status == Ready {
        var res := HarvestPlot(k.value, rolls);
        r := Some(res);
      } else {
        r := None;
      }
    }

    // ----- cooking -----

    /** `canCook`: both ingredients in the warehouse and a recipe for the pair. */
    function CanCook(a: ItemId, b: ItemId): (r: bool)
      reads this`warehouse
      ensures r ==> Holds(warehouse, a) && Holds(warehouse, b) && Recipe(a, b).Some?
      ensures WellFormed(warehouse) && Holds(warehouse, a) && Holds(warehouse, b) && Recipe(a, b).Some? ==> r
    {
      CountOf(warehouse, a) >= 1 && CountOf(warehouse, b) >= 1 && Recipe(a, b).Some?
    }

    /**
     * `cookDish`: nothing for a pair without a recipe. Otherwise one unit of
     * each ingredient is taken from the warehouse (a failed removal is
     * ignored, so the dish is made even without the ingredients), the dish
     * is credited and 5 experience is added.
     */
    method CookDish(a: ItemId, b: ItemId, quality: Quality) returns (r: Option<Cooked>)
      requires Valid()
      modifies this`warehouse, this`dishes, plots, this`level, this`exp, this`unlockedChapters
      ensures Valid()
      ensures r.Some? <==> Recipe(a, b).Some?
      ensures r.None? ==> warehouse == old(warehouse) && dishes == old(dishes) && ProgressView() == old(ProgressView())
      ensures r.Some? ==>
        && r.value == Cooked(Recipe(a, b).value, quality)
        && warehouse == Removed(Removed(old(warehouse), a, 1), b, 1)
        && dishes == Credited(old(dishes), r.value.dishId, 1)
        && ProgressView() == AfterExp(old(ProgressView()), 5)
    {
      var dishId := Recipe(a, b);
      if dishId.None? {
        r := None;
      } else {
        TakeIngredients(a, b);
        FinishCooking(dishId.value);
        r := Some(Cooked(dishId.value, quality));
      }
    }

    /** The two removals of `cookDish`, whose results it ignores. */
    method TakeIngredients(a: ItemId, b: ItemId)
      requires Valid()
      modifies this`warehouse
      ensures Valid() && warehouse == Removed(Removed(old(warehouse), a, 1), b, 1)
      ensures ProgressView() == old(ProgressView())
    {
      var _ := RemoveFromWarehouse(a, 1);
      var _ := RemoveFromWarehouse(b, 1);
    }

    /** The second half of `cookDish`: one more dish and five experience. */
    method FinishCooking(dishId: ItemId)
      requires Valid()
      modifies this`dishes, plots, this`level, this`exp, this`unlockedChapters
      ensures Valid()
      ensures dishes == Credited(old(dishes), dishId, 1)
      ensures ProgressView() == AfterExp(old(ProgressView()), 5)
    {
      dishes := Credited(dishes, dishId, 1);
      AddExp(5);
    }

    /** `useDish`: one dish fewer when there is one; nothing otherwise. */
    method UseDish(dishId: ItemId) returns (ok: bool)
      modifies this`dishes
      ensures ok == (Held(old(dishes), dishId) > 0)
      ensures ok ==> dishes == old(dishes)[dishId := Held(old(dishes), dishId) - 1]
      ensures !ok ==> dishes == old(dishes)
    {
      ok := Held(dishes, dishId) > 0;
      if ok {
        dishes := dishes[dishId := Held(dishes, dishId) - 1];
      }
    }

    // ----- orders -----

    /**
     * `generateOrders`: with fewer than three orders, draw a candidate; a
     * crop becomes a new order at the end of the list, while the mystery
     * pseudo-output makes the source throw before anything is pushed.
     */
    method GenerateOrders(d: OrderDraw) returns (outcome: OrderOutcome)
      requires Valid() && DrawInRange(d)
      modifies this`orders
      ensures Valid()
      ensures old(|orders|) >= MaxOrders ==> outcome == NotGenerated && orders == old(orders)
      ensures old(|orders|) < MaxOrders && DrawnOutput(level, d) == MysteryOutput ==> outcome == Crashed && orders == old(orders)
      ensures old(|orders|) < MaxOrders && DrawnOutput(level, d).Grows? ==>
        outcome == Generated && orders == old(orders) + [NewOrder(DrawnOutput(level, d).crop, d)]
    {
      if |orders| >= MaxOrders {
        outcome := NotGenerated;
      } else {
        var needs := DrawnOutput(level, d);
        match needs
        case MysteryOutput =>
          outcome := Crashed;
        case Grows(crop) =>
          orders := orders + [NewOrder(crop, d)];
          outcome := Generated;
      }
    }

    /** `refreshOrders`: drop the oldest order when the list is full, then generate one. */
    method RefreshOrders(d: OrderDraw) returns (outcome: OrderOutcome)
      requires Valid() && DrawInRange(d)
      modifies this`orders
      ensures Valid()
      ensures var kept := if old(|orders|) < MaxOrders then old(orders) else old(orders)[1..];
        && outcome != NotGenerated
        && (outcome == Crashed <==> DrawnOutput(level, d) == MysteryOutput)
        && (outcome == Crashed ==> orders == kept)
        && (outcome == Generated ==> orders == kept + [NewOrder(DrawnOutput(level, d).crop, d)])
    {
      if |orders| >= MaxOrders {
        orders := orders[1..];
      }
      outcome := GenerateOrders(d);
    }

    /**
     * `fulfillOrder`: when the order exists and the inventory holds its
     * units, they are taken, the reward rounded down is paid, the order's
     * experience is added, its villager gains 5 hearts and the order leaves
     * the list. Nothing happens otherwise.
     */
    method FulfillOrder(orderId: int) returns (ok: bool)
      requires Valid()
      modifies this`orders, this`inventory, this`coins, plots, this`level, this`exp, this`unlockedChapters, npcStore
      ensures Valid()
      ensures var i := OrderIndex(old(orders), orderId);
        ok == (i < |old(orders)| && Held(old(inventory), old(orders)[i].req) >= old(orders)[i].count)
      ensures !ok ==> orders == old(orders) && inventory == old(inventory) && coins == old(coins)
                      && ProgressView() == old(ProgressView()) && npcStore.villagers == old(npcStore.villagers)
      ensures ok ==>
        var i := OrderIndex(old(orders), orderId);
        var order := old(orders)[i];
        && orders == old(orders)[..i] + old(orders)[i + 1..]
        && inventory == old(inventory)[order.req := Held(old(inventory), order.req) - order.count]
        && coins == old(coins) + order.reward.Floor
        && ProgressView() == AfterExp(old(ProgressView()), OrderExp(order.reward))
        && npcStore.villagers == if order.npcId == "" then old(npcStore.villagers) else HeartRaised(old(npcStore.villagers), order.npcId, 5)
    {
      var idx := OrderIndex(orders, orderId);
      ok := idx < |orders| && Held(inventory, orders[idx].req) >= orders[idx].count;
      if ok {
        var order := orders[idx];
        inventory := inventory[order.req := Held(inventory, order.req) - order.count];
        PayOrder(order);
        orders := orders[..idx] + orders[idx + 1..];
      }
    }

    /** The rewards of a fulfilled order: its coins rounded down, its experience and 5 hearts for its villager. */
    method PayOrder(order: Order)
      requires Valid()
      modifies this`coins, plots, this`level, this`exp, this`unlockedChapters, npcStore
      ensures Valid()
      ensures coins == old(coins) + order.reward.Floor
      ensures ProgressView() == AfterExp(old(ProgressView()), OrderExp(order.reward))
      ensures npcStore.villagers == if order.npcId == "" then old(npcStore.villagers) else HeartRaised(old(npcStore.villagers), order.npcId, 5)
    {
      coins := coins + order.reward.Floor;
      AddExp(OrderExp(order.reward));
      if order.npcId != "" {
        var _ := npcStore.IncreaseHeart(order.npcId, 5);
      }
    }

    // ----- shop, home and story -----

    /**
     * `buyItem`: an item above the player's level, or without a cost, or
     * dearer than the coins held, is not bought; otherwise its price (the
     * buffed one for seeds) is paid and one unit is credited.
     */
    method BuyItem(itemId: ItemId) returns (ok: bool)
      modifies this`coins, this`inventory
      ensures var price := PurchasePrice(currentBuff, itemId);
        ok == (UnlockLevelOf(itemId) <= level && price.Some? && old(coins) >= price.value)
      ensures ok ==> coins == old(coins) - PurchasePrice(currentBuff, itemId).value
                     && inventory == Credited(old(inventory), itemId, 1)
      ensures !ok ==> coins == old(coins) && inventory == old(inventory)
    {
      ok := false;
      if UnlockLevelOf(itemId) <= level {
        var actualCost := PurchasePrice(currentBuff, itemId);
        if actualCost.Some? && coins >= actualCost.value {
          coins := coins - actualCost.value;
          inventory := Credited(inventory, itemId, 1);
          ok := true;
        }
      }
    }

    /** `placeFurniture`: one unit of a held item leaves the inventory for a new placement at the end of the layout. */
    method PlaceFurniture(itemId: ItemId, placementId: int) returns (ok: bool)
      modifies this`inventory, this`homeLayout
      ensures ok == (Held(old(inventory), itemId) > 0)
      ensures ok ==> inventory == old(inventory)[itemId := Held(old(inventory), itemId) - 1]
                     && homeLayout == old(homeLayout) + [Placement(placementId, itemId)]
      ensures !ok ==> inventory == old(inventory) && homeLayout == old(homeLayout)
    {
      ok := Held(inventory, itemId) > 0;
      if ok {
        inventory := inventory[itemId := Held(inventory, itemId) - 1];
        homeLayout := homeLayout + [Placement(placementId, itemId)];
      }
    }

    /** `removeFurniture`: the first placement with the id goes back to the inventory; nothing for an unknown id. */
    method RemoveFurniture(id: int) returns (ok: bool)
      modifies this`inventory, this`homeLayout
      ensures var i := PlacementIndex(old(homeLayout), id);
        && ok == (i < |old(homeLayout)|)
        && (ok ==> inventory == Credited(old(inventory), old(homeLayout)[i].itemId, 1)
                   && homeLayout == old(homeLayout)[..i] + old(homeLayout)[i + 1..])
        && (!ok ==> inventory == old(inventory) && homeLayout == old(homeLayout))
    {
      var idx := PlacementIndex(homeLayout, id);
      ok := idx < |homeLayout|;
      if ok {
        var item := homeLayout[idx];
        inventory := Credited(inventory, item.itemId, 1);
        homeLayout := homeLayout[..idx] + homeLayout[idx + 1..];
      }
    }

    /** `markChapterRead`: the chapter joins the read list once. */
    method MarkChapterRead(chapterId: int)
      requires Valid()
      modifies this`readChapters
      ensures Valid()
      ensures readChapters == if chapterId in old(readChapters) then old(readChapters) else old(readChapters) + [chapterId]
    {
      if chapterId !in readChapters {
        readChapters := readChapters + [chapterId];
      }
    }
  }
}
