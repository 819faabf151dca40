/**
 * The NPC store: four villagers with a heart (affection) value capped at
 * their maximum, the dish-gift reaction rules and the heart-level events.
 */
module Npc {
  import opened Wrappers
  import opened Content

  /** One villager, reduced to the fields the rules use. */
  datatype Villager = Villager(heart: int, maxHeart: int, favCrop: ItemId, favDish: ItemId)

  /** The quality string a cooked dish carries; any other string is `OtherQuality`. */
  datatype Quality = Disaster | Normal | Delicious | OtherQuality

  /** Which reaction line a villager says; the lines themselves are text and are not modelled. */
  datatype ReactionKind = DisasterLine | NormalLine | DeliciousLine | FavoriteLine

  /** The reaction of a gift: the empty string, or one of the villager's lines. */
  datatype Reaction = Silent | Says(kind: ReactionKind)

  datatype GiftResult = GiftResult(heartChange: int, reaction: Reaction, isFavorite: bool)

  /** An entry of the event table, reduced to the villager and the heart level it belongs to. */
  datatype NpcEvent = NpcEvent(npcId: string, level: int)

  const NpcIds: seq<string> := ["xiaobai", "xiaolv", "xiaoguang", "xiaoying"]

  const EventLevels: set<int> := {10, 20, 30}

  /** The villagers as the store starts them: heart 0 of 30, with their favourite crop and dish. */
  function InitialVillagers(): map<string, Villager> {
    map[
      "xiaobai" := Villager(0, 30, CropTurnip, DishTomatoRadish),
      "xiaolv" := Villager(0, 30, CropPotato, DishPotatoShreds),
      "xiaoguang" := Villager(0, 30, CropCorn, DishChiliCorn),
      "xiaoying" := Villager(0, 30, CropPumpkin, DishPumpkinPaste)]
  }

  /** `getEvent`: every villager has an event at heart levels 10, 20 and 30, and nowhere else. */
  function GetEvent(npcId: string, level: int): (r: Option<NpcEvent>)
    ensures r.Some? <==> npcId in NpcIds && level in EventLevels
    ensures r.Some? ==> r.value == NpcEvent(npcId, level)
  {
    if npcId in NpcIds && (level == 10 || level == 20 || level == 30) then Some(NpcEvent(npcId, level))
    else None
  }

  /** The villagers after `increaseHeart(npcId, amount)`: the heart raised and capped at the maximum; no change for an unknown id. */
  function HeartRaised(villagers: map<string, Villager>, npcId: string, amount: int): (r: map<string, Villager>)
    ensures r.Keys == villagers.Keys
    ensures forall id :: id in villagers && id != npcId ==> r[id] == villagers[id]
    ensures npcId in villagers ==> r[npcId] == villagers[npcId].(heart := Min(villagers[npcId].maxHeart, villagers[npcId].heart + amount))
  {
    if npcId in villagers then
      var v := villagers[npcId];
      villagers[npcId := v.(heart := Min(v.maxHeart, v.heart + amount))]
    else villagers
  }

  /** `Math.max(lo, Math.min(hi, v))`. */
  function Clamp(lo: int, hi: int, v: int): (r: int)
    requires lo <= hi
    ensures lo <= r <= hi
    ensures lo <= v <= hi ==> r == v
    ensures v < lo ==> r == lo
    ensures v > hi ==> r == hi
  {
    Max(lo, Min(hi, v))
  }

  /** The heart change of a gift before clamping: -5 / +5 / +10, only a positive change doubled for a favourite. */
  function GiftHeartChange(quality: Quality, isFavorite: bool): (r: int)
    ensures quality == Disaster ==> r == -5
    ensures quality == Normal ==> r == (if isFavorite then 10 else 5)
    ensures quality == Delicious ==> r == (if isFavorite then 20 else 10)
    ensures quality == OtherQuality ==> r == 0
  {
    var heartChange := match quality
      case Disaster => -5
      case Normal => 5
      case Delicious => 10
      case OtherQuality => 0;
    if isFavorite && heartChange > 0 then heartChange * 2 else heartChange
  }

  /** The reaction of a gift: the quality's line, replaced by the favourite line when the change was doubled. */
  function GiftReaction(quality: Quality, isFavorite: bool): (r: Reaction)
    ensures r == Says(FavoriteLine) <==> isFavorite && (quality == Normal || quality == Delicious)
    ensures r == Silent <==> quality == OtherQuality
    ensures quality == Disaster ==> r == Says(DisasterLine)
    ensures !isFavorite && quality == Normal ==> r == Says(NormalLine)
    ensures !isFavorite && quality == Delicious ==> r == Says(DeliciousLine)
  {
    var reaction := match quality
      case Disaster => Says(DisasterLine)
      case Normal => Says(NormalLine)
      case Delicious => Says(DeliciousLine)
      case OtherQuality => Silent;
    if isFavorite && GiftHeartChange(quality, false) > 0 then Says(FavoriteLine) else reaction
  }

  class NpcStore {
    var villagers: map<string, Villager>

    /** The keys never change, and every heart stays within its villager's maximum. */
    ghost predicate Valid()
      reads this
    {
      && villagers.Keys == set id | id in NpcIds
      && forall id :: id in villagers ==> 0 <= villagers[id].maxHeart && villagers[id].heart <= villagers[id].maxHeart
    }

    constructor ()
      ensures Valid() && villagers == InitialVillagers()
    {
      villagers := InitialVillagers();
    }

    /** `increaseHeart`: raise the heart, capped at the maximum; 0 and no change for an unknown id. */
    method IncreaseHeart(npcId: string, amount: int) returns (r: int)
      requires Valid()
      modifies this
      ensures Valid()
      ensures villagers == HeartRaised(old(villagers), npcId, amount)
      ensures r == if npcId in villagers then villagers[npcId].heart else 0
    {
      if npcId in villagers {
        var v := villagers[npcId];
        villagers := villagers[npcId := v.(heart := Min(v.maxHeart, v.heart + amount))];
        r := villagers[npcId].heart;
      } else {
        r := 0;
      }
    }

    /** `setHeart`: store the value clamped into [0, maxHeart]; no change for an unknown id. */
    method SetHeart(npcId: string, val: int)
      requires Valid()
      modifies this
      ensures Valid()
      ensures npcId !in old(villagers) ==> villagers == old(villagers)
      ensures npcId in old(villagers) ==>
        var v := old(villagers)[npcId];
        villagers == old(villagers)[npcId := v.(heart := Clamp(0, v.maxHeart, val))]
    {
      if npcId in villagers {
        var v := villagers[npcId];
        villagers := villagers[npcId := v.(heart := Min(v.maxHeart, Max(0, val)))];
      }
    }

    /**
     * `giftDish`: null for an unknown villager; otherwise the heart moves by
     * the gift's change, clamped into [0, maxHeart], while the result reports
     * the change before clamping.
     */
    method GiftDish(npcId: string, dishId: ItemId, quality: Quality) returns (r: Option<GiftResult>)
      requires Valid()
      modifies this
      ensures Valid()
      ensures npcId !in old(villagers) ==> r.None? && villagers == old(villagers)
      ensures npcId in old(villagers) ==>
        var v := old(villagers)[npcId];
        var fav := v.favDish == dishId;
        && r == Some(GiftResult(GiftHeartChange(quality, fav), GiftReaction(quality, fav), fav))
        && villagers == old(villagers)[npcId := v.(heart := Clamp(0, v.maxHeart, v.heart + r.value.heartChange))]
    {
      if npcId !in villagers {
        return None;
      }
      var v := villagers[npcId];
      var heartChange := 0;
      var reaction := Silent;
      match quality {
        case Disaster =>
          heartChange := -5;
          reaction := Says(DisasterLine);
        case Normal =>
          heartChange := 5;
          reaction := Says(NormalLine);
        case Delicious =>
          heartChange := 10;
          reaction := Says(DeliciousLine);
        case OtherQuality =>
      }
      var isFavorite := v.favDish == dishId;
      if isFavorite && heartChange > 0 {
        heartChange := heartChange * 2;
        reaction := Says(FavoriteLine);
      }
      villagers := villagers[npcId := v.(heart := Max(0, Min(v.maxHeart, v.heart + heartChange)))];
      r := Some(GiftResult(heartChange, reaction, isFavorite));
    }
  }
}
