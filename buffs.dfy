/**
 * The daily buff catalogue and the "effective value" queries that apply the
 * active buff (and the futures-contract debuff) to base values. Every query
 * takes the active buff and the debuff as explicit arguments.
 */
module Buffs {
  import opened Wrappers
  import opened Content

  /** The fifteen buff ids, in catalogue order. */
  datatype BuffId =
    | SunnyDay | InsiderInfo | TempExpand | NeighborHelp | FertileSoil
    | Inflation | CrazyGrowth | BlackMarket | Overdraft | Speculator
    | GoldenTouch | TrashToTreasure | FuturesContract | PickySelection | MysteryGift

  const AllBuffs: seq<BuffId> :=
    [SunnyDay, InsiderInfo, TempExpand, NeighborHelp, FertileSoil,
     Inflation, CrazyGrowth, BlackMarket, Overdraft, Speculator,
     GoldenTouch, TrashToTreasure, FuturesContract, PickySelection, MysteryGift]

  datatype PriceBonus = PriceBonus(crops: seq<ItemId>, bonus: real)

  /**
   * A buff's `effect` bag with one field per key the catalogue uses. A key a
   * buff does not have is 0, 0.0, false or None: the values the source's
   * truthiness tests treat as absent.
   */
  datatype BuffEffect = BuffEffect(
    growSpeedBonus: real,
    priceBonus: Option<PriceBonus>,
    warehouseBonus: int,
    seedDiscount: real,
    expBonus: real,
    sellBonus: real,
    seedPenalty: real,
    wiltChance: real,
    potatoBonus: real,
    otherCropPenalty: bool,
    doubleHarvest: bool,
    noExp: bool,
    mysteryGoldenChance: real,
    mysteryWeedChance: real,
    goldenChance: real,
    weedPrice: int,
    instantCoins: int,
    tomorrowPricePenalty: real,
    warehousePenalty: int,
    mysteryGiftThreshold: int)

  const NoEffect := BuffEffect(0.0, None, 0, 0.0, 0.0, 0.0, 0.0, 0.0, 0.0, false, false, false,
                               0.0, 0.0, 0.0, 0, 0, 0.0, 0, 0)

  /** The buff catalogue. */
  function Effect(b: BuffId): BuffEffect {
    match b
    case SunnyDay => NoEffect.(growSpeedBonus := 0.2)
    case InsiderInfo => NoEffect.(priceBonus := Some(PriceBonus([CropTomato, CropCorn], 0.2)))
    case TempExpand => NoEffect.(warehouseBonus := 10)
    case NeighborHelp => NoEffect.(seedDiscount := 0.2)
    case FertileSoil => NoEffect.(expBonus := 0.3)
    case Inflation => NoEffect.(sellBonus := 0.5, seedPenalty := 1.0)
    case CrazyGrowth => NoEffect.(growSpeedBonus := 2.0, wiltChance := 0.2)
    case BlackMarket => NoEffect.(potatoBonus := 2.0, otherCropPenalty := true)
    case Overdraft => NoEffect.(doubleHarvest := true, noExp := true)
    case Speculator => NoEffect.(mysteryGoldenChance := 0.2, mysteryWeedChance := 0.7)
    case GoldenTouch => NoEffect.(goldenChance := 0.5)
    case TrashToTreasure => NoEffect.(weedPrice := 50)
    case FuturesContract => NoEffect.(instantCoins := 200, tomorrowPricePenalty := 0.5)
    case PickySelection => NoEffect.(warehousePenalty := 10, sellBonus := 0.3)
    case MysteryGift => NoEffect.(mysteryGiftThreshold := 10)
  }

  /** The effect of the active buff, or no effect when none is active. */
  function Active(buff: Option<BuffId>): BuffEffect {
    match buff
    case Some(b) => Effect(b)
    case None => NoEffect
  }

  /** The `{ pricePenalty }` record the futures contract leaves behind. */
  datatype Debuff = Debuff(pricePenalty: real)

  /** JavaScript's `Math.round` on a non-negative rational: the nearest integer, halves upward. */
  function Round(x: real): (r: int)
    ensures r as real - 0.5 <= x < r as real + 0.5
  {
    (x + 0.5).Floor
  }

  /** Only the futures contract pays coins on selection and sets a debuff for tomorrow. */
  lemma InstantEffects(b: BuffId)
    ensures Effect(b).instantCoins == if b == FuturesContract then 200 else 0
    ensures Effect(b).tomorrowPricePenalty == if b == FuturesContract then 0.5 else 0.0
  {
  }

  /** Only overdraft doubles the harvest and withholds its experience; only fertile soil adds an experience bonus. */
  lemma HarvestEffects(buff: Option<BuffId>)
    ensures Active(buff).doubleHarvest <==> buff == Some(Overdraft)
    ensures Active(buff).noExp <==> buff == Some(Overdraft)
    ensures Active(buff).expBonus == if buff == Some(FertileSoil) then 0.3 else 0.0
  {
  }

  const BaseWarehouseCapacity := 30

  function EffectiveWarehouseCapacity(buff: Option<BuffId>): (r: int)
    ensures r == (if buff == Some(TempExpand) then 40
                  else if buff == Some(PickySelection) then 20
                  else 30)
  {
    var e := Active(buff);
    var capacity := BaseWarehouseCapacity;
    var capacity := if e.warehouseBonus != 0 then capacity + e.warehouseBonus else capacity;
    var capacity := if e.warehousePenalty != 0 then capacity - e.warehousePenalty else capacity;
    Max(0, capacity)
  }

  function EffectiveGrowTime(buff: Option<BuffId>, baseTime: int): (r: int)
    ensures r >= 1
    ensures baseTime >= 1 ==> r <= baseTime
    ensures buff != Some(SunnyDay) && buff != Some(CrazyGrowth) ==> r == Max(1, baseTime)
    // +20% speed: the nearest integer to five sixths of the base time
    ensures buff == Some(SunnyDay) && baseTime >= 1 ==> 5 * baseTime - 3 < 6 * r <= 5 * baseTime + 3
    // +200% speed: the nearest integer to a third of the base time
    ensures buff == Some(CrazyGrowth) && baseTime >= 2 ==> baseTime - 1 < 3 * r + 1 <= baseTime + 2
  {
    var e := Active(buff);
    var time := baseTime;
    var time := if e.growSpeedBonus != 0.0 then Round(time as real / (1.0 + e.growSpeedBonus)) else time;
    Max(1, time)
  }

  function EffectiveSeedPrice(buff: Option<BuffId>, basePrice: int): (r: int)
    ensures r >= 1
    ensures buff != Some(NeighborHelp) && buff != Some(Inflation) ==> r == Max(1, basePrice)
    // 20% off: the nearest integer to four fifths of the price
    ensures buff == Some(NeighborHelp) && basePrice >= 1 ==> 8 * basePrice - 5 < 10 * r <= 8 * basePrice + 5
    ensures buff == Some(Inflation) ==> r == Max(1, 2 * basePrice)
  {
    var e := Active(buff);
    var price := basePrice;
    var price := if e.seedDiscount != 0.0 then Round(price as real * (1.0 - e.seedDiscount)) else price;
    var price := if e.seedPenalty != 0.0 then Round(price as real * (1.0 + e.seedPenalty)) else price;
    Max(1, price)
  }

  /** The futures-contract penalty. A 0.5 penalty halves the price, rounding halves up. */
  function ApplyDebuff(price: int, debuff: Option<Debuff>): (r: int)
    ensures debuff.None? ==> r == price
    ensures debuff == Some(Debuff(0.5)) ==> r == (price + 1) / 2
  {
    if debuff.Some? && debuff.value.pricePenalty != 0.0 then Round(price as real * debuff.value.pricePenalty)
    else price
  }

  function EffectiveSellPrice(buff: Option<BuffId>, debuff: Option<Debuff>, cropId: ItemId, basePrice: int): (r: int)
    ensures r >= 1
    // weed's special price wins over everything, the debuff included
    ensures buff == Some(TrashToTreasure) && cropId == CropWeed ==> r == 50
  {
    var e := Active(buff);
    if e.weedPrice != 0 && cropId == CropWeed then
      e.weedPrice
    else if !(e.potatoBonus != 0.0 && cropId == CropPotato)
            && e.otherCropPenalty && cropId != CropPotato && cropId != CropGoldenApple then
      1
    else
      var price := basePrice;
      var price := if e.potatoBonus != 0.0 && cropId == CropPotato
                   then Round(price as real * (1.0 + e.potatoBonus)) else price;
      var price := if e.priceBonus.Some? && cropId in e.priceBonus.value.crops
                   then Round(price as real * (1.0 + e.priceBonus.value.bonus)) else price;
      var price := if e.sellBonus != 0.0 then Round(price as real * (1.0 + e.sellBonus)) else price;
      Max(1, ApplyDebuff(price, debuff))
  }

  /** Black market: potatoes at three times the price, the golden apple untouched, every other crop at 1. */
  lemma {:induction false} SellPriceUnderBlackMarket(debuff: Option<Debuff>, cropId: ItemId, basePrice: int)
    ensures cropId == CropPotato ==>
      EffectiveSellPrice(Some(BlackMarket), debuff, cropId, basePrice) == Max(1, ApplyDebuff(3 * basePrice, debuff))
    ensures cropId == CropGoldenApple ==>
      EffectiveSellPrice(Some(BlackMarket), debuff, cropId, basePrice) == Max(1, ApplyDebuff(basePrice, debuff))
    ensures cropId != CropPotato && cropId != CropGoldenApple ==>
      EffectiveSellPrice(Some(BlackMarket), debuff, cropId, basePrice) == 1
  {
    var e := Effect(BlackMarket);
    assert e.weedPrice == 0 && e.otherCropPenalty && e.potatoBonus == 2.0 && e.priceBonus.None? && e.sellBonus == 0.0;
    if cropId == CropPotato {
      assert Round(basePrice as real * (1.0 + e.potatoBonus)) == 3 * basePrice;
    }
  }

  /** The bonus a price buff grants, stated per buff rather than per effect key. */
  function BonusPrice(buff: BuffId, cropId: ItemId, basePrice: int): int
    requires buff in {InsiderInfo, Inflation, PickySelection}
  {
    match buff
    case InsiderInfo => if cropId == CropTomato || cropId == CropCorn then Round(1.2 * basePrice as real) else basePrice
    case Inflation => Round(1.5 * basePrice as real)
    case PickySelection => Round(1.3 * basePrice as real)
  }

  /** The price bonuses apply first, each rounded, and the debuff applies last. */
  lemma SellPriceUnderBonus(buff: BuffId, debuff: Option<Debuff>, cropId: ItemId, basePrice: int)
    requires buff in {InsiderInfo, Inflation, PickySelection}
    ensures EffectiveSellPrice(Some(buff), debuff, cropId, basePrice)
              == Max(1, ApplyDebuff(BonusPrice(buff, cropId, basePrice), debuff))
  {
    if buff == InsiderInfo {
      SellPriceUnderInsiderInfo(debuff, cropId, basePrice);
    } else {
      SellPriceUnderSellBonus(buff, debuff, cropId, basePrice);
    }
  }

  lemma SellPriceUnderInsiderInfo(debuff: Option<Debuff>, cropId: ItemId, basePrice: int)
    ensures EffectiveSellPrice(Some(InsiderInfo), debuff, cropId, basePrice)
              == Max(1, ApplyDebuff(BonusPrice(InsiderInfo, cropId, basePrice), debuff))
  {
    var e := Effect(InsiderInfo);
    assert e.priceBonus.value.crops == [CropTomato, CropCorn];
    assert e.weedPrice == 0 && !e.otherCropPenalty && e.potatoBonus == 0.0 && e.sellBonus == 0.0;
    assert basePrice as real * (1.0 + e.priceBonus.value.bonus) == 1.2 * basePrice as real;
  }

  lemma SellPriceUnderSellBonus(buff: BuffId, debuff: Option<Debuff>, cropId: ItemId, basePrice: int)
    requires buff in {Inflation, PickySelection}
    ensures EffectiveSellPrice(Some(buff), debuff, cropId, basePrice)
              == Max(1, ApplyDebuff(BonusPrice(buff, cropId, basePrice), debuff))
  {
    var e := Effect(buff);
    var bonus := if buff == Inflation then 0.5 else 0.3;
    assert e.weedPrice == 0 && !e.otherCropPenalty && e.potatoBonus == 0.0 && e.priceBonus.None? && e.sellBonus == bonus;
    assert basePrice as real * (1.0 + bonus) == (1.0 + bonus) * basePrice as real;
  }

  /** Every other buff, and no buff at all, leaves the market price to the debuff alone (weed aside under trash-to-treasure). */
  lemma {:induction false} SellPriceWithoutPriceBuff(buff: Option<BuffId>, debuff: Option<Debuff>, cropId: ItemId, basePrice: int)
    requires buff !in {Some(BlackMarket), Some(InsiderInfo), Some(Inflation), Some(PickySelection)}
    requires buff == Some(TrashToTreasure) ==> cropId != CropWeed
    ensures EffectiveSellPrice(buff, debuff, cropId, basePrice) == Max(1, ApplyDebuff(basePrice, debuff))
  {
    var e := Active(buff);
    assert !e.otherCropPenalty && e.potatoBonus == 0.0 && e.priceBonus.None? && e.sellBonus == 0.0;
    assert e.weedPrice != 0 ==> cropId != CropWeed;
  }

  /**
   * The futures contract's debuff is read by the sell price at once: on the
   * day the contract is taken every crop sells for half its price, rounded
   * up, and at least 1.
   */
  lemma FuturesHalvesSameDay(cropId: ItemId, basePrice: int)
    ensures EffectiveSellPrice(Some(FuturesContract), Some(Debuff(0.5)), cropId, basePrice) == Max(1, (basePrice + 1) / 2)
  {
    SellPriceWithoutPriceBuff(Some(FuturesContract), Some(Debuff(0.5)), cropId, basePrice);
  }

  function EffectiveGoldenChance(buff: Option<BuffId>): (r: real)
    ensures r == if buff == Some(GoldenTouch) then 0.5 else 0.2
  {
    var e := Active(buff);
    if e.goldenChance != 0.0 then e.goldenChance else 0.2
  }

  /**
   * The output of a mystery seed. `band` is the roll that picks weed, an
   * ordinary crop or the golden apple; `pick` is the roll that picks which
   * ordinary crop.
   */
  function MysteryOutputWithBuff(buff: Option<BuffId>, band: real, pick: real): (r: ItemId)
    requires 0.0 <= pick < 1.0
    ensures r == CropWeed || r == CropGoldenApple || r in NormalCrops
    ensures band < (if buff == Some(Speculator) then 0.7 else 0.6) <==> r == CropWeed
    ensures r == CropGoldenApple <==> band >= (if buff == Some(Speculator) then 0.8 else 0.9)
    ensures r in NormalCrops ==> r == NormalCrops[(pick * 5.0).Floor]
    ensures Def(r).kind == Crop
  {
    var e := Active(buff);
    var weedChance := if e.mysteryWeedChance != 0.0 then e.mysteryWeedChance else 0.6;
    var goldenChance := if e.mysteryGoldenChance != 0.0 then e.mysteryGoldenChance else 0.1;
    if band < weedChance then CropWeed
    else if band < weedChance + (1.0 - weedChance - goldenChance) then NormalCrops[(pick * 5.0).Floor]
    else CropGoldenApple
  }

  /** Whether the harvest wilts, given the wilt roll. */
  function ShouldHarvestWilt(buff: Option<BuffId>, roll: real): (r: bool)
    ensures r <==> buff == Some(CrazyGrowth) && roll < 0.2
  {
    var e := Active(buff);
    if e.wiltChance != 0.0 then roll < e.wiltChance else false
  }

  /** What a shuffle of the catalogue is: every buff once, in some order. */
  ghost predicate IsShuffle(s: seq<BuffId>) {
    |s| == |AllBuffs| && forall i, j :: 0 <= i < j < |s| ==> s[i] != s[j]
  }
}
