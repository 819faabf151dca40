/**
 * The static content tables of the game store: item definitions (numeric
 * fields only), the recipe table and the story chapters' unlock levels.
 */
module Content {
  import opened Wrappers

  /** Every key of the item table, in the table's insertion order. */
  datatype ItemId =
    | SeedTurnip | SeedPotato | SeedTomato | SeedCorn | SeedPumpkin | SeedMystery
    | CropTurnip | CropPotato | CropTomato | CropCorn | CropPumpkin
    | CropWeed | CropGoldenApple
    | DishTomatoRadish | DishPotatoShreds | DishChiliCorn | DishPumpkinPaste
    | FurnitureChair | FurnitureLamp | FurnitureBookshelf | FurnitureRug
    | FurniturePottedPlant | FurnitureSofa | FurnitureTableLamp | FurnitureWoodenDesk
    | FurnitureHangingPainting | FurnitureFireplace | FurnitureRetroTv | FurnitureClock
    | FurnitureFullLengthMirror | FurnitureCozyBed

  datatype Kind = Seed | Crop | Dish | Furniture

  /** What a seed grows into: a crop, or the pseudo-output `'mystery'` of the mystery seed. */
  datatype Output = Grows(crop: ItemId) | MysteryOutput

  /** The numeric part of one item definition; a field the definition lacks is `None`. */
  datatype ItemDef = ItemDef(
    kind: Kind,
    growTime: Option<int>,
    output: Option<Output>,
    cost: Option<int>,
    sellPrice: Option<int>,
    unlockLevel: Option<int>,
    isMystery: bool,
    score: Option<int>)

  function SeedDef(growTime: int, output: Output, cost: int, unlockLevel: int): ItemDef {
    ItemDef(Seed, Some(growTime), Some(output), Some(cost), None, Some(unlockLevel), false, None)
  }

  function CropDef(sellPrice: int): ItemDef {
    ItemDef(Crop, None, None, None, Some(sellPrice), None, false, None)
  }

  function FurnitureDef(cost: int, score: int, unlockLevel: int): ItemDef {
    ItemDef(Furniture, None, None, Some(cost), None, Some(unlockLevel), false, Some(score))
  }

  const DishDef := ItemDef(Dish, None, None, None, None, None, false, None)

  /** The item table. */
  function Def(id: ItemId): ItemDef {
    match id
    case SeedTurnip => SeedDef(10, Grows(CropTurnip), 10, 1)
    case SeedPotato => SeedDef(20, Grows(CropPotato), 15, 1)
    case SeedTomato => SeedDef(30, Grows(CropTomato), 20, 2)
    case SeedCorn => SeedDef(40, Grows(CropCorn), 25, 5)
    case SeedPumpkin => SeedDef(60, Grows(CropPumpkin), 40, 7)
    case SeedMystery => SeedDef(25, MysteryOutput, 10, 1).(isMystery := true)
    case CropTurnip => CropDef(20)
    case CropPotato => CropDef(35)
    case CropTomato => CropDef(50)
    case CropCorn => CropDef(65)
    case CropPumpkin => CropDef(100)
    case CropWeed => CropDef(1)
    case CropGoldenApple => CropDef(500)
    case DishTomatoRadish => DishDef
    case DishPotatoShreds => DishDef
    case DishChiliCorn => DishDef
    case DishPumpkinPaste => DishDef
    case FurnitureChair => FurnitureDef(100, 10, 1)
    case FurnitureLamp => FurnitureDef(150, 15, 1)
    case FurnitureBookshelf => FurnitureDef(300, 30, 3)
    case FurnitureRug => FurnitureDef(200, 20, 3)
    case FurniturePottedPlant => FurnitureDef(350, 35, 4)
    case FurnitureSofa => FurnitureDef(500, 50, 5)
    case FurnitureTableLamp => FurnitureDef(400, 40, 6)
    case FurnitureWoodenDesk => FurnitureDef(600, 60, 5)
    case FurnitureHangingPainting => FurnitureDef(250, 25, 6)
    case FurnitureFireplace => FurnitureDef(800, 80, 7)
    case FurnitureRetroTv => FurnitureDef(1200, 85, 8)
    case FurnitureClock => FurnitureDef(900, 90, 8)
    case FurnitureFullLengthMirror => FurnitureDef(1000, 100, 9)
    case FurnitureCozyBed => FurnitureDef(1500, 120, 10)
  }

  /** The seed keys of the item table, in insertion order. */
  const Seeds: seq<ItemId> := [SeedTurnip, SeedPotato, SeedTomato, SeedCorn, SeedPumpkin, SeedMystery]

  /** The five ordinary crops: the ones with a market price and a mystery-seed share. */
  const NormalCrops: seq<ItemId> := [CropTurnip, CropPotato, CropTomato, CropCorn, CropPumpkin]

  predicate IsSeed(id: ItemId) { Def(id).kind == Seed }

  /** `(def.unlockLevel || 1)`: an item without an unlock level is available from level 1. */
  function UnlockLevelOf(id: ItemId): (r: int)
    ensures r >= 1
    ensures Def(id).unlockLevel.Some? && Def(id).unlockLevel.value != 0 ==> r == Def(id).unlockLevel.value
    ensures Def(id).unlockLevel.None? || Def(id).unlockLevel == Some(0) ==> r == 1
  {
    match Def(id).unlockLevel
    case Some(l) => if l != 0 then l else 1
    case None => 1
  }

  lemma {:induction false} SeedsAreTheSeedKeys(id: ItemId)
    ensures IsSeed(id) <==> id in Seeds
    ensures IsSeed(id) ==> Def(id).growTime.Some? && Def(id).output.Some?
                           && (Def(id).isMystery <==> Def(id).output == Some(MysteryOutput))
                           && (Def(id).isMystery <==> id == SeedMystery)
    ensures IsSeed(id) && id != SeedMystery ==>
      Def(id).output.value.Grows? && Def(id).output.value.crop != SeedMystery && Def(Def(id).output.value.crop).kind == Crop
  {
    match id
    case SeedTurnip =>
    case SeedPotato =>
    case SeedTomato =>
    case SeedCorn =>
    case SeedPumpkin =>
    case SeedMystery =>
    case _ =>
      assert id !in Seeds;
  }

  /**
   * The recipe table is keyed by `a+b` strings and lists every pair in both
   * orders; a pair not in it gives no dish.
   */
  function RecipeKey(a: ItemId, b: ItemId): Option<ItemId> {
    match (a, b)
    case (CropTurnip, CropTomato) => Some(DishTomatoRadish)
    case (CropTomato, CropTurnip) => Some(DishTomatoRadish)
    case (CropPotato, CropTomato) => Some(DishPotatoShreds)
    case (CropTomato, CropPotato) => Some(DishPotatoShreds)
    case (CropTomato, CropCorn) => Some(DishChiliCorn)
    case (CropCorn, CropTomato) => Some(DishChiliCorn)
    case (CropTomato, CropPumpkin) => Some(DishPumpkinPaste)
    case (CropPumpkin, CropTomato) => Some(DishPumpkinPaste)
    case _ => None
  }

  /**
   * `getRecipeResult`: the dish of two ingredients in either order. Every
   * dish pairs the tomato with one other ordinary crop.
   */
  function Recipe(a: ItemId, b: ItemId): (r: Option<ItemId>)
    ensures r == Some(DishTomatoRadish) <==> {a, b} == {CropTomato, CropTurnip}
    ensures r == Some(DishPotatoShreds) <==> {a, b} == {CropTomato, CropPotato}
    ensures r == Some(DishChiliCorn) <==> {a, b} == {CropTomato, CropCorn}
    ensures r == Some(DishPumpkinPaste) <==> {a, b} == {CropTomato, CropPumpkin}
    ensures r.Some? ==> Def(r.value).kind == Dish && a != b && CropTomato in {a, b}
    ensures r.None? <==> !exists other :: other in {CropTurnip, CropPotato, CropCorn, CropPumpkin} && {a, b} == {CropTomato, other}
  {
    var key1 := RecipeKey(a, b);
    var key2 := RecipeKey(b, a);
    if key1.Some? then key1 else key2
  }

  /** One story chapter, reduced to its id and unlock level. */
  datatype Chapter = Chapter(id: int, unlockLevel: int)

  const Chapters: seq<Chapter> :=
    [Chapter(1, 1), Chapter(2, 2), Chapter(3, 4), Chapter(4, 10), Chapter(5, 20), Chapter(6, 30)]

  /** The NPC ids an order may be assigned to. */
  const OrderNpcIds: seq<string> := ["xiaobai", "xiaolv", "xiaoguang", "xiaoying"]
}
