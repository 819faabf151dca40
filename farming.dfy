/**
 * Plots and the harvest rules: a plot's lifecycle steps as values, and the
 * resolution of a harvest's output, golden flag, experience and quantity
 * from the active buff and the random rolls it draws.
 */
module Farming {
  import opened Wrappers
  import opened Content
  import opened Buffs

  datatype Status = Locked | Empty | Growing | Ready

  /**
   * A plot's growing time in seconds. Planting an item without a grow time
   * stores `NaN`, which no comparison meets and no arithmetic repairs.
   */
  datatype Duration = Seconds(n: int) | NotANumber

  datatype Plot = Plot(id: int, status: Status, plantId: Option<ItemId>, startTime: int, duration: Duration)

  const DailyFarmingLimit := 8

  /** The seconds one watering takes off the remaining duration. */
  const WaterSpeedUp := 5

  /** The four plots as the game starts: two empty, two locked. */
  const InitialPlots: seq<Plot> := [
    Plot(1, Empty, None, 0, Seconds(0)),
    Plot(2, Empty, None, 0, Seconds(0)),
    Plot(3, Locked, None, 0, Seconds(0)),
    Plot(4, Locked, None, 0, Seconds(0))]

  /** The empty plot a harvest leaves behind. */
  function Cleared(p: Plot): Plot {
    p.(status := Empty, plantId := None, startTime := 0, duration := Seconds(0))
  }

  /** A plot's consistency: what grows on it was planted, and what is ready to harvest is a seed. */
  ghost predicate WellFormedPlot(p: Plot) {
    && (p.status == Growing || p.status == Ready ==> p.plantId.Some?)
    && (p.status == Growing && p.duration.Seconds? ==> p.plantId.value in Seeds)
    && (p.status == Ready ==> p.plantId.value in Seeds)
  }

  /** `getEffectiveGrowTime(itemDefs[id].growTime)`: NaN for an item without a grow time. */
  function PlantDuration(buff: Option<BuffId>, id: ItemId): (d: Duration)
    ensures d.Seconds? <==> IsSeed(id)
    ensures d.Seconds? ==> 1 <= d.n <= Def(id).growTime.value
    ensures d.Seconds? ==> d.n == EffectiveGrowTime(buff, Def(id).growTime.value)
  {
    match Def(id).growTime
    case Some(t) => Seconds(EffectiveGrowTime(buff, t))
    case None => NotANumber
  }

  /** The plot `plant` leaves: growing the item from `now` for the buffed duration. */
  function Planted(p: Plot, id: ItemId, buff: Option<BuffId>, now: int): (r: Plot)
    ensures r.id == p.id && WellFormedPlot(r)
    ensures r.status == Growing && r.plantId == Some(id) && r.startTime == now
    ensures r.duration == PlantDuration(buff, id)
  {
    p.(status := Growing, plantId := Some(id), startTime := now, duration := PlantDuration(buff, id))
  }

  /** `waterPlot` on one plot: five seconds less to wait, never below zero. */
  function Watered(p: Plot): (r: Plot)
    ensures r.id == p.id && r.status == p.status && r.plantId == p.plantId && r.startTime == p.startTime
    ensures p.duration.Seconds? ==> r.duration.Seconds? && 0 <= r.duration.n
                                    && (p.duration.n >= WaterSpeedUp ==> r.duration.n == p.duration.n - WaterSpeedUp)
                                    && (p.duration.n < WaterSpeedUp ==> r.duration.n == 0)
    ensures p.duration.NotANumber? ==> r.duration.NotANumber?
  {
    match p.duration
    case Seconds(n) => p.(duration := Seconds(Max(0, n - WaterSpeedUp)))
    case NotANumber => p
  }

  /** Whether a growing plot's time has come: `(now - startTime) / 1000 >= duration`. */
  predicate Ripe(p: Plot, now: int) {
    p.duration.Seconds? && (now - p.startTime) as real / 1000.0 >= p.duration.n as real
  }

  /** One plot's step of `tick`: a growing plot whose time has come becomes ready, nothing else changes. */
  function Ticked(p: Plot, now: int): (r: Plot)
    ensures r == p || (p.status == Growing && r == p.(status := Ready))
    ensures r.status == Ready <==> p.status == Ready || (p.status == Growing && p.duration.Seconds?
                                                         && now - p.startTime >= 1000 * p.duration.n)
    ensures WellFormedPlot(p) ==> WellFormedPlot(r)
  {
    if p.status == Growing && Ripe(p, now) then p.(status := Ready) else p
  }

  /** What a harvest yields (the UI's timestamp left out). */
  datatype HarvestResult = HarvestResult(cropId: ItemId, isGolden: bool, exp: int, quantity: int)

  /** The random rolls a harvest may draw, each in [0, 1). */
  datatype HarvestRolls = HarvestRolls(wilt: real, band: real, pick: real, golden: real)

  ghost predicate RollsInRange(r: HarvestRolls) {
    0.0 <= r.wilt < 1.0 && 0.0 <= r.band < 1.0 && 0.0 <= r.pick < 1.0 && 0.0 <= r.golden < 1.0
  }

  /**
   * The outcome of harvesting `seedId`: wilt first (weed, no experience,
   * nothing else applies); otherwise the mystery output, the golden roll
   * (triple experience), then the experience bonus, no-experience and
   * double-harvest effects.
   */
  function ResolveHarvest(buff: Option<BuffId>, seedId: ItemId, rolls: HarvestRolls): (r: HarvestResult)
    requires seedId in Seeds && 0.0 <= rolls.pick < 1.0
    ensures r.quantity == 1 || r.quantity == 2
  {
    SeedsAreTheSeedKeys(seedId);
    var seedDef := Def(seedId);
    var e := Active(buff);
    if ShouldHarvestWilt(buff, rolls.wilt) then
      HarvestResult(CropWeed, false, 0, 1)
    else
      var outputId := if seedDef.isMystery then MysteryOutputWithBuff(buff, rolls.band, rolls.pick)
                      else seedDef.output.value.crop;
      var baseExp := if seedDef.isMystery then 5 else 10;
      var isGolden := rolls.golden < EffectiveGoldenChance(buff);
      var baseExp := if isGolden then baseExp * 3 else baseExp;
      var baseExp := if e.expBonus != 0.0 then Round(baseExp as real * (1.0 + e.expBonus)) else baseExp;
      var baseExp := if e.noExp then 0 else baseExp;
      var quantity := if e.doubleHarvest then 2 else 1;
      HarvestResult(outputId, isGolden, baseExp, quantity)
  }

  /**
   * What a harvest yields: a wilted harvest is one weed without experience;
   * otherwise the seed's own crop (the mystery draw for the mystery seed),
   * golden when the golden roll is under the buffed chance, and two units
   * under overdraft. The output is always a real crop.
   */
  lemma {:induction false} HarvestOutcome(buff: Option<BuffId>, seedId: ItemId, rolls: HarvestRolls)
    requires seedId in Seeds && 0.0 <= rolls.pick < 1.0
    ensures var r := ResolveHarvest(buff, seedId, rolls);
      var wilted := ShouldHarvestWilt(buff, rolls.wilt);
      && (wilted ==> r == HarvestResult(CropWeed, false, 0, 1))
      && (!wilted ==> r.isGolden == (rolls.golden < EffectiveGoldenChance(buff)))
      && (!wilted ==> r.quantity == if buff == Some(Overdraft) then 2 else 1)
      && (!wilted && seedId != SeedMystery ==> Def(seedId).output == Some(Grows(r.cropId)))
      && (!wilted && seedId == SeedMystery ==> r.cropId == MysteryOutputWithBuff(buff, rolls.band, rolls.pick))
      && r.cropId != SeedMystery && Def(r.cropId).kind == Crop
  {
    SeedsAreTheSeedKeys(seedId);
    if !ShouldHarvestWilt(buff, rolls.wilt) {
      var r := ResolveHarvest(buff, seedId, rolls);
      if seedId == SeedMystery {
        assert r.cropId == MysteryOutputWithBuff(buff, rolls.band, rolls.pick);
      } else {
        assert r.cropId == Def(seedId).output.value.crop;
      }
      HarvestEffects(buff);
    }
  }

  /**
   * The experience of a harvest that did not wilt: 10 (5 for a mystery seed),
   * tripled when golden before the fertile-soil bonus rounds it, and 0 under
   * overdraft.
   */
  lemma {:induction false} HarvestExp(buff: Option<BuffId>, seedId: ItemId, rolls: HarvestRolls)
    requires seedId in Seeds && 0.0 <= rolls.pick < 1.0
    requires !ShouldHarvestWilt(buff, rolls.wilt)
    ensures var r := ResolveHarvest(buff, seedId, rolls);
            var base := (if seedId == SeedMystery then 5 else 10) * (if r.isGolden then 3 else 1);
            && (buff == Some(Overdraft) ==> r.exp == 0)
            && (buff == Some(FertileSoil) ==> r.exp == Round(1.3 * base as real))
            && (buff != Some(Overdraft) && buff != Some(FertileSoil) ==> r.exp == base)
  {
    SeedsAreTheSeedKeys(seedId);
    HarvestEffects(buff);
  }

  /**
   * How the harvest loop routes its units: the first `Share` units go to the
   * warehouse (those with `used + i < capacity`), the rest to the inventory.
   */
  function Share(used: int, capacity: int, quantity: int): (r: int)
    requires quantity >= 0
    ensures 0 <= r <= quantity
    ensures r == quantity <==> used + quantity <= capacity || quantity == 0
    // a unit `i` goes to the warehouse exactly when `used + i < capacity`
    ensures r > 0 ==> used + (r - 1) < capacity
    ensures r < quantity ==> used + r >= capacity
  {
    Max(0, Min(quantity, capacity - used))
  }
}
