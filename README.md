# A farming game's rules engine, modelled in Dafny

This project models the rules engine of a small browser farming game. The
game's state lives in two stores:

- the game store (`src/stores/game.js`)
- the villager store (`src/stores/npc.js`)

The game store holds:

- the player's coins, water, level and experience;
- a seed/crop/furniture inventory;
- a small warehouse with 30 units of room;
- four farm plots;
- a five-crop market whose prices move every day;
- a daily "buff" picked from three choices;
- cooking recipes;
- at most three villager orders;
- the furniture placed at home;
- the story chapters that unlock with the level.

The villager store holds four villagers with a heart score, a favourite dish
and level-gated events.

The model's layout:

- The item and buff tables are datatypes and constant functions:
  `Content.Def`, `Content.Recipe` and `Buffs.Effect`.
- Each pure rule is a function with a named result: prices, grow times, the
  harvest outcome, the experience curve and chapter unlocking.
  Warehouse arithmetic is a function on `seq<Entry>`.
- Each store is a class whose methods change its fields in place:
  `Game.GameState` and `Npc.NpcStore`. Every method states its whole new
  state in terms of the old state and those functions.
- The warehouse and the orders are `seq` fields. The inventory, the dishes
  and the market prices are `map` fields. The four plots are an `array`.
- The methods that hold loops are proved against specifications:
  - the harvest routing loop against the function `Routed`;
  - the daily price update against `MarketStepped`;
  - chapter unlocking against `UnlockChapters`;
  - price seeding against the predicate `PricesSeeded`;
  - the mystery-gift `while` loop of `CheckMysteryGift` against `MysteryGiftStep`;
  - `Tick`'s loop over the plots against `Ticked`.

  Lemmas prove what the game promises about those functions.

The model keeps the code's own quirks:

- The temporary-expansion buff raises the harvest capacity to 40, but each
  unit still passes through the warehouse's fixed cap of 30. So with the
  warehouse at 30 to 39 units, harvested units vanish (`Game.RoutedAccounting`).
- A level-up raises the level by one at most, whatever the surplus.
- Cooking takes a unit of each ingredient only if the warehouse holds it.
- A negative warehouse removal adds stock.
- Planting a non-seed item gives a plot that never ripens.
- The mystery seed's "mystery" pseudo-output can be drawn as an order
  requirement, where the code throws.

Inputs the code reads from the environment are parameters of the model:
`Math.random()` draws, `Date.now()` readings, and the generated order and
furniture ids.

## Model

| member | source | states |
|---|---|---|
| Buffs.Round | src/stores/game.js:427-429 | `Math.round` on the non-negative values used: the result is within one half of its argument |
| Buffs.Effect | src/stores/game.js:49-155 | the `buffDefs` table: each buff's effect fields, absent fields as 0 or false; `InstantEffects` and `HarvestEffects` state which buffs carry which effect |
| Buffs.InstantEffects | src/stores/game.js:49-155 | only the futures contract pays instant coins (200) and carries a next-day price penalty (0.5) |
| Buffs.HarvestEffects | src/stores/game.js:49-155 | only overdraft doubles the harvest and withholds its experience; only fertile soil adds an experience bonus (30%) |
| Buffs.EffectiveWarehouseCapacity | src/stores/game.js:605-617 | capacity 40 under temporary expansion, 20 under picky selection, 30 otherwise |
| Buffs.EffectiveGrowTime | src/stores/game.js:620-631 | at least 1 and never above the base time; sunny day gives the nearest integer to 5/6 of it, crazy growth the nearest to 1/3, every other buff leaves it unchanged |
| Buffs.EffectiveSeedPrice | src/stores/game.js:633-646 | at least 1; neighbour help rounds 4/5 of the price, inflation doubles it, other buffs leave it unchanged |
| Buffs.ApplyDebuff | src/stores/game.js:678-681 | no debuff leaves the price unchanged; the futures penalty halves it, rounding half up |
| Buffs.EffectiveSellPrice | src/stores/game.js:648-684 | at least 1; trash-to-treasure sells weed at 50, ahead of every debuff |
| Buffs.SellPriceUnderBlackMarket | src/stores/game.js:658-683 | under the black market, potatoes sell at triple, the golden apple at its base price, every other crop at exactly 1; potatoes and the golden apple are then debuffed and floored at 1 |
| Buffs.SellPriceUnderBonus | src/stores/game.js:665-683 | insider info, inflation and picky selection sell at their bonus price, then debuffed and floored at 1 |
| Buffs.SellPriceUnderInsiderInfo | src/stores/game.js:666-670 | insider info's 20% bonus on its crop, then debuffed and floored at 1 |
| Buffs.SellPriceUnderSellBonus | src/stores/game.js:672-675 | inflation (+50%) and picky selection (+30%) on every crop, then debuffed and floored at 1 |
| Buffs.SellPriceWithoutPriceBuff | src/stores/game.js:648-684 | every other buff sells at the debuffed base price, floored at 1 |
| Buffs.FuturesHalvesSameDay | src/stores/game.js:596-681 | the futures penalty is set when the buff is chosen, so it already halves sale prices that same day |
| Buffs.EffectiveGoldenChance | src/stores/game.js:687-697 | golden chance 0.5 under golden touch, 0.2 otherwise |
| Buffs.MysteryOutputWithBuff | src/stores/game.js:699-724 | a mystery seed gives weed below the weed band (0.6, or 0.7 for the speculator), the golden apple at the top band (0.9, or 0.8), otherwise the ordinary crop picked by the second roll |
| Buffs.ShouldHarvestWilt | src/stores/game.js:726-735 | a harvest wilts exactly under crazy growth with a roll below 0.2 |
| Content.Def | src/stores/game.js:225-265 | the `itemDefs` table: type, cost, sell price, grow time, crop and unlock level per item; `SeedsAreTheSeedKeys` and `UnlockLevelOf` state what the game reads from it |
| Content.UnlockLevelOf | src/stores/game.js:1044 | `unlockLevel \|\| 1`: an item with a non-zero unlock level unlocks at that level, any other item at level 1 |
| Content.SeedsAreTheSeedKeys | src/stores/game.js:227-232 | the six seed keys are exactly the seed items; each has a grow time and an output; only the mystery seed yields the mystery pseudo-output, and every other seed grows a real crop |
| Content.Recipe | src/stores/game.js:161-170 | the four dishes are exactly tomato paired with turnip, potato, corn or pumpkin, in either order; every other pair gives no dish |
| Farming.PlantDuration | src/stores/game.js:560 | a seed gets the buffed grow time `EffectiveGrowTime(buff, growTime)` as its duration, a whole number of seconds between 1 and its grow time; any other item gets NaN |
| Farming.Planted | src/stores/game.js:556-560 | planting keeps the plot's id and makes it a well-formed growing plot holding that item, started at `now`, with the item's `PlantDuration` |
| Farming.Watered | src/stores/game.js:765-772 | watering takes 5 seconds off a plot's duration, floored at 0, and keeps the plot's id, status, item and start time |
| Farming.Cleared | src/stores/game.js:836-839 | `harvest`'s reset: the plot becomes empty, with no item, start time 0 and duration 0; `Game.PlotCleared` and `Game.GameState.HarvestPlot` use it |
| Farming.Ripe | src/stores/game.js:972-973 | a plot is ripe when the seconds since its start reach its duration, compared as `elapsed >= duration` with a NaN duration never ripe; `Ticked` states the status change it drives |
| Farming.Ticked | src/stores/game.js:970-977 | a growing plot becomes ready exactly when its duration has elapsed; nothing else changes |
| Farming.ResolveHarvest | src/stores/game.js:777-819 | a harvest yields one or two units |
| Farming.HarvestOutcome | src/stores/game.js:777-819 | a wilted harvest is one weed without experience; otherwise it yields the seed's own crop (the mystery draw for the mystery seed), golden exactly when the roll is under the golden chance, and two units only under overdraft |
| Farming.HarvestExp | src/stores/game.js:783-813 | harvest experience is 10 (5 for a mystery seed), tripled when golden, rounded up by 30% under fertile soil, and 0 under overdraft |
| Farming.Share | src/stores/game.js:823-833 | the routing loop's warehouse share: the first units while `used + i < capacity`, all of them when they fit |
| Market.InitialRecord | src/stores/game.js:403-410 | a new record starts at the base price, previous and current, with the history exactly `[basePrice]` |
| Market.UpdatedRecord | src/stores/game.js:430-437 | the previous price becomes the old current price; the new price is pushed onto the history, which keeps its last 7 days |
| Market.UpdatedPriceClamped | src/stores/game.js:425-431 | a new price lies between the rounded half and double of the base price, and for a roll in [0,1) it is the drawn fluctuation |
| Market.PriceChange | src/stores/game.js:443-448 | the price change is current minus previous, and 0 for an unknown crop |
| Market.DrawnPrice | src/stores/game.js:425-427 | the new price before clamping, `round(base × (1 + (roll − 0.4) × 0.8))`; `DrawnPriceRange` bounds it for rolls in [0,1) |
| Market.DrawnPriceRange | src/stores/game.js:425-431 | a fluctuation drawn in [0,1) lands between 0.68 and 1.48 times the base price, inside the clamp bounds |
| Warehouse.IndexOf | src/stores/game.js:463 | `find` gives the first entry with the id, or the end of the list |
| Warehouse.Used | src/stores/game.js:450-452 | `getWarehouseUsed`: the units held, summed over the entries; `UsedAtLeastEntries` bounds it and the `Used…` lemmas of the insert and take specifications track it |
| Warehouse.UsedAtLeastEntries | src/stores/game.js:450-452 | every entry of a well-formed warehouse holds a unit, so the units used are at least the number of entries |
| Warehouse.Insert | src/stores/game.js:462-467 | the entry update of `addToWarehouse`: an existing entry grows by n, a new item is pushed at the end, and nothing happens for n ≤ 0; `InsertSpec` states its effect on counts, units used and well-formedness |
| Warehouse.Take | src/stores/game.js:473-480 | the entry update of `removeFromWarehouse`: the entry shrinks by q and is spliced out when nothing is left; `TakeSpec` states its effect on counts, units used and well-formedness |
| Warehouse.CountOf | src/stores/game.js:484-487 | an item without an entry counts 0, and in a well-formed warehouse a listed item counts at least 1 |
| Warehouse.Accepted | src/stores/game.js:454-460 | zero exactly when nothing was asked or the warehouse already holds 30; otherwise min(q, 30 − used) |
| Warehouse.InsertSpec | src/stores/game.js:462-467 | adding n units grows the total by n and that item's count by n, leaves every other count alone, and keeps ids unique and quantities positive |
| Warehouse.InsertIntoEntry | src/stores/game.js:463-465 | adding to an existing entry adds n to its count only |
| Warehouse.InsertNewEntry | src/stores/game.js:466-467 | a new entry at the end of the list adds n to the new item only |
| Warehouse.InsertTwice | src/stores/game.js:462-467 | adding a units and then b units equals adding a + b at once |
| Warehouse.TakeSpec | src/stores/game.js:471-482 | taking q held units lowers the total and that item's count by q; every other count is unchanged and the list stays well formed |
| Warehouse.TakeLast | src/stores/game.js:476-478 | an entry taken down to zero leaves the list, and its item's count drops to 0 |
| Warehouse.TakeSome | src/stores/game.js:475 | a partial take lowers only that entry |
| Warehouse.UsedAppend | src/stores/game.js:450-452 | appending an entry adds its quantity to the total |
| Warehouse.UsedUpdate | src/stores/game.js:450-452 | replacing an entry changes the total by the difference of the quantities |
| Warehouse.UsedRemove | src/stores/game.js:450-452 | splicing an entry out takes its quantity off the total |
| Warehouse.CountOfAt | src/stores/game.js:484-487 | in a well-formed list, an entry's count is its own quantity |
| Warehouse.IndexOfIs | src/stores/game.js:463 | the first position holding the id is the index `find` returns |
| Warehouse.CountOfReplace | src/stores/game.js:465 | updating an entry in place changes only its own item's count |
| Warehouse.CountOfPush | src/stores/game.js:467 | pushing a new item changes only that item's count |
| Warehouse.CountOfSplice | src/stores/game.js:478 | splicing out an item's only entry makes its count 0 and keeps the others |
| Warehouse.SplicedOut | src/stores/game.js:478 | after the splice the item is no longer listed |
| Warehouse.SplicedOther | src/stores/game.js:478 | the splice keeps other items' counts |
| Progression.ExpStep | src/stores/game.js:944-959 | at the top level nothing changes; otherwise the experience grows, and crossing the threshold raises the level by exactly one, carrying the surplus, never two levels at once |
| Progression.UnlockChapters | src/stores/game.js:934-940 | the chapter pass of `checkUnlocks`, in table order; `UnlockChaptersSpec` states what it adds and `UnlockChaptersFixed` when it adds nothing |
| Progression.UnlockChaptersSpec | src/stores/game.js:934-940 | unlocking keeps the existing chapters in order, adds exactly the chapters at or below the level, and never duplicates one |
| Progression.UnlockChaptersFixed | src/stores/game.js:934-940 | when every reachable chapter is already unlocked, unlocking changes nothing |
| Progression.UnlockPlots | src/stores/game.js:925-933 | plot 3 opens at level 2 and plot 4 at level 3, and only from locked; plots 1 and 2 never change |
| Progression.Unlocked | src/stores/game.js:925-942 | unlocking touches neither the level nor the experience |
| Progression.AfterExp | src/stores/game.js:944-959 | `addExp` moves level and experience by the step above, and runs the unlocks only on a level-up |
| Progression.UnlockedIdempotent | src/stores/game.js:925-942 | running `checkUnlocks` twice is the same as running it once |
| Orders.AvailableOutputs | src/stores/game.js:995-998 | the candidate outputs are exactly the outputs of the seeds unlocked at the level |
| Orders.MysteryIsACandidate | src/stores/game.js:995-998 | from level 1 the mystery pseudo-output and the turnip are both candidates, so the empty-candidate guard never fires |
| Orders.Pick | src/stores/game.js:1002 | `floor(random * n)` is an index below n |
| Orders.OrderReward | src/stores/game.js:1014 | the reward is 1.2 times base price times count, never negative |
| Orders.OrderExp | src/stores/game.js:1028 | order experience is exactly 50 for a reward below 100, exactly 200 for a reward of 400 or more, and half the reward rounded down in between; always within 50..200 |
| Orders.DrawnOutput | src/stores/game.js:1002 | the drawn requirement is one of the candidates |
| Orders.NewOrder | src/stores/game.js:1003-1015 | a new order asks for 1 to 3 units for one of the four villagers, at the reward for that count |
| Npc.GetEvent | src/stores/npc.js:62-194 | an event exists exactly for the four villagers at levels 10, 20 and 30 |
| Npc.HeartRaised | src/stores/npc.js:217-224 | raising hearts caps at the villager's maximum and changes no other villager |
| Npc.Clamp | src/stores/npc.js:226-231 | `max(lo, min(hi, v))`: the value itself when it is in range, else the nearer bound |
| Npc.GiftHeartChange | src/stores/npc.js:243-260 | a disaster costs 5 hearts; a normal dish gives 5 and a delicious one 10, doubled for the favourite; unknown quality gives 0 |
| Npc.GiftReaction | src/stores/npc.js:243-260 | the favourite line exactly for a favourite dish that was not a disaster; otherwise the normal line for a normal dish, the delicious line for a delicious one, the disaster line for a disaster, and no line for an unknown quality |
| Npc.NpcStore.constructor | src/stores/npc.js:5-58 | the four villagers with their starting hearts |
| Npc.NpcStore.IncreaseHeart | src/stores/npc.js:217-224 | hearts raised, capped at the maximum; returns the new hearts, or 0 for an unknown villager |
| Npc.NpcStore.SetHeart | src/stores/npc.js:226-231 | sets hearts clamped to 0..max; unknown villagers are ignored |
| Npc.NpcStore.GiftDish | src/stores/npc.js:236-270 | a gift to an unknown villager does nothing; otherwise hearts change by the gift's amount, clamped, and the result reports the change, the reaction and whether it was the favourite |
| Game.Credited | src/stores/game.js:1054 | `(x \|\| 0) + n` adds n to one key and keeps the others |
| Game.SellBase | src/stores/game.js:495-506 | weed sells from 1, the golden apple from 500, the other crops from their market price, and a crop without a price cannot be sold |
| Game.PurchasePrice | src/stores/game.js:1043-1050 | an item with a cost can be bought, seeds at the buffed seed price |
| Game.MysteryGiftStep | src/stores/game.js:737-749 | under the mystery gift, every ten crops sold today give one mystery seed and the remainder carries over |
| Game.PlotIndexOf | src/stores/game.js:203-208 | plot ids 1 to 4 name the four plots |
| Game.OrderIndex | src/stores/game.js:1019 | `findIndex` by order id |
| Game.PlacementIndex | src/stores/game.js:1084 | `findIndex` by placement id |
| Game.CropIndex | src/stores/game.js:401 | an ordinary crop's position in the crop list |
| Game.MarketStepped | src/stores/game.js:419-441 | the daily update keeps every crop that has a price record |
| Game.MarketSteppedWellFormed | src/stores/game.js:433-437 | the daily update keeps every history at 7 days or fewer |
| Game.SeededPrices | src/stores/game.js:400-414 | crops that already have a record keep it; the others get a base-price record |
| Game.SteppedPointwise | src/stores/game.js:419-441 | updating the crops one after another gives exactly the daily update |
| Game.SteppedPrices | src/stores/game.js:419-441 | the `forEach` over the five crops computes the daily update |
| Game.UnlockedChapterList | src/stores/game.js:934-940 | the chapter loop computes the chapter unlock without duplicates |
| Game.OfferedUnit | src/stores/game.js:454-460 | offering n + 1 units one more at a time accepts what one offer of n + 1 would |
| Game.AcceptedUnits | src/stores/game.js:823-833 | one more unit offered to the warehouse extends the accepted prefix by one |
| Game.UnitGoesToWarehouse | src/stores/game.js:824 | unit i goes to the warehouse exactly when it is within the share |
| Game.Routed | src/stores/game.js:823-833 | the warehouse and inventory after a harvest's routing; `RoutedStep`, `RoutedCounts` and `RoutedAccounting` state where each unit goes |
| Game.RoutedStep | src/stores/game.js:823-833 | one loop step sends the unit to the warehouse while `used + i < capacity`, and to the inventory otherwise |
| Game.RoutedUnits | src/stores/game.js:823-833 | the routing loop computes the routing specification and keeps the warehouse well formed |
| Game.RoutedAccounting | src/stores/game.js:454-833 | routing changes only the harvested crop. At capacities up to 30 every unit lands in the warehouse or the inventory. Under the expansion buff, a warehouse holding 30 to 39 units silently loses the harvest |
| Game.RoutedCounts | src/stores/game.js:823-833 | the warehouse gains the accepted part of the share; the inventory gains the units beyond the share |
| Game.CookingTakesOneEach | src/stores/game.js:893-910 | cooking two different held ingredients takes exactly one of each; with neither held the warehouse is unchanged |
| Game.Removed | src/stores/game.js:471-482 | `removeFromWarehouse`'s effect: the entries after taking q when the item is held at least q times, else unchanged; `RemovedOne` and `Warehouse.TakeSpec` state it |
| Game.RemovedOne | src/stores/game.js:471-482 | removing one unit succeeds exactly when the item is held, and then takes exactly one |
| Game.PlotCleared | src/stores/game.js:836-839 | clearing a plot keeps the four plots |
| Game.GameState.ProgressView | src/stores/game.js:12-223 | level, experience, plots and unlocked chapters, viewed together |
| Game.GameState.constructor | src/stores/game.js:9-223 | the store's default state: 100 coins, 20 of 50 water, level 1, day 1, the starting seeds, plots 1-2 empty and 3-4 locked, chapter 1 unlocked |
| Game.GameState.InitMarketPrices | src/stores/game.js:400-414 | every ordinary crop gets a price record; existing records are kept |
| Game.GameState.UpdateMarketPrices | src/stores/game.js:419-441 | the prices become the daily update of the old prices |
| Game.GameState.AddToWarehouse | src/stores/game.js:454-469 | returns the accepted amount and adds exactly that to the one crop |
| Game.GameState.RemoveFromWarehouse | src/stores/game.js:471-482 | succeeds exactly when enough is held, and then takes exactly that; a failed removal changes nothing |
| Game.GameState.SellCrop | src/stores/game.js:490-521 | a sale succeeds exactly when the warehouse holds enough and the crop has a price. It pays the effective unit price times the quantity, takes the units out, and counts them toward the mystery gift. A failed sale changes nothing |
| Game.GameState.CompleteSale | src/stores/game.js:511-517 | a sale that passed its checks removes the units, pays the revenue and counts the units toward the mystery gift; when enough is held, exactly those units leave the warehouse |
| Game.GameState.CountSale | src/stores/game.js:516-517 | adds the units to today's sales, then pays out mystery gifts |
| Game.GameState.CheckMysteryGift | src/stores/game.js:737-749 | pays out the mystery seeds and keeps the remainder |
| Game.GameState.CanFarmToday | src/stores/game.js:569-571 | `canFarmToday`: fewer than the daily limit of farming actions used; `Plant`'s contract makes it the daily-limit condition |
| Game.GameState.Plant | src/stores/game.js:548-567 | planting succeeds exactly under the daily limit, on an empty plot, with the seed in the inventory. It uses one seed and one farming action; otherwise nothing changes |
| Game.GameState.WaterPlot | src/stores/game.js:765-772 | watering a growing plot costs one water and shortens its duration; otherwise nothing changes |
| Game.GameState.Tick | src/stores/game.js:965-978 | one water regenerates in the first second of every 10 seconds, up to the maximum; every plot is checked for ripeness |
| Game.GameState.GenerateBuffChoices | src/stores/game.js:574-582 | the first three of the shuffled catalogue become the choices, all different; the day's buff and sales count reset |
| Game.GameState.SelectBuff | src/stores/game.js:584-603 | only an offered buff, once a day. The futures contract also pays 200 coins and sets the price penalty |
| Game.GameState.AdvanceToNextDay | src/stores/game.js:751-763 | the next day: counters reset, the debuff cleared, prices updated, new choices drawn |
| Game.GameState.ResetDayCounters | src/stores/game.js:752-757 | the day number grows by one; the farming and sales counters and the debuff are cleared |
| Game.GameState.CheckUnlocks | src/stores/game.js:925-942 | opens the plots and chapters the level allows |
| Game.GameState.AddExp | src/stores/game.js:944-959 | the experience step, with unlocks on a level-up |
| Game.GameState.StoreHarvest | src/stores/game.js:821-833 | routes the harvest as the routing specification says and leaves the progress alone |
| Game.GameState.ClearHarvestedPlot | src/stores/game.js:835-845 | clears the plot, then adds any positive experience |
| Game.GameState.HarvestPlot | src/stores/game.js:777-858 | a ready plot's harvest: the resolved outcome, routed, the plot cleared, the experience added |
| Game.GameState.Harvest | src/stores/game.js:777-858 | succeeds exactly on a ready plot, and then harvests it; otherwise nothing changes |
| Game.GameState.CanCook | src/stores/game.js:883-891 | true exactly when both ingredients are in the warehouse and form a recipe |
| Game.GameState.CookDish | src/stores/game.js:893-910 | cooking succeeds exactly for a recipe. It tries to take one of each ingredient, adds the dish and gives 5 experience, whether or not the ingredients were there |
| Game.GameState.TakeIngredients | src/stores/game.js:898-899 | one removal per ingredient; progress unchanged |
| Game.GameState.FinishCooking | src/stores/game.js:901-906 | adds one dish and 5 experience |
| Game.GameState.UseDish | src/stores/game.js:916-923 | uses a dish exactly when one is held |
| Game.GameState.GenerateOrders | src/stores/game.js:992-1016 | with fewer than three orders, a drawn crop becomes a new order at the end; a drawn mystery output throws; a full list is left alone |
| Game.GameState.RefreshOrders | src/stores/game.js:980-990 | drops the oldest order of a full list, then always generates or throws |
| Game.GameState.FulfillOrder | src/stores/game.js:1018-1040 | succeeds exactly when the order exists and the inventory holds its units. It takes the units, pays the reward rounded down, adds the order experience and gives the villager 5 hearts. Otherwise nothing changes |
| Game.GameState.PayOrder | src/stores/game.js:1025-1034 | pays, grants experience and raises the villager's hearts |
| Game.GameState.BuyItem | src/stores/game.js:1042-1057 | buys exactly when the item is unlocked, has a price and is affordable: one more unit for that price |
| Game.GameState.PlaceFurniture | src/stores/game.js:1059-1071 | places furniture exactly when one is held: one fewer in the inventory, one more placement |
| Game.GameState.RemoveFurniture | src/stores/game.js:1083-1091 | a known placement goes back into the inventory and leaves the layout |
| Game.GameState.MarkChapterRead | src/stores/game.js:1093-1098 | adds a chapter to the read list once |

## Left out

- Persistence: `initGame`, `saveGame` (game.js:343-397, 523-546), `initNpc` and `saveNpc` (npc.js:197-215). They only read and write browser storage.
- Timers: the `setTimeout` that generates a new order two seconds (2000 ms) after a fulfilment (game.js:1037). The model exposes `GenerateOrders` as an operation for the caller to run instead. `orderRefreshInterval` (game.js:212) is declared and never set, and neither `refreshOrders` nor `generateOrders` is in the store's returned interface (game.js:1099-1120); the model still gives both as `GameState` methods.
- `moveFurniture` (game.js:1073-1081): it only changes a placement's x, y and scale, which the model leaves out as UI values. The same goes for furniture positions in `placeFurniture`.
- `closeLevelUpModal` (game.js:961-963), the level-up modal flags and rewards, the last harvest result and its timestamp: UI state only.
- Display data: reaction texts, story texts, event texts, item names and images. A reaction is modelled as which line is said, not its words.
- `getMysteryOutput` (game.js:861-874): the code never calls it. The harvest uses `getMysteryOutputWithBuff`.
- `getWarehouseItemCount` is `Warehouse.CountOf`, which has its own row. `getDishCount` (game.js:912-914) is the lookup `Game.Held` on the dish map, which has no row because its body is the lookup itself.
- Game.GameState.Tick: one clock reading `now` serves both the water refill and every plot's ripeness, while the source calls `Date.now()` once for the water (game.js:966) and again for each growing plot (game.js:972).
- Buffs.Round: models `Math.round` exactly on reals. Floating-point error is not modelled, so a price whose float product lands just below `.5` may round differently in the source.
- Game.GameState.GenerateBuffChoices: the shuffle's distribution is not modelled. The caller passes a permutation of the 15 buffs.
- `Math.random()` and `Date.now()` are parameters: rolls in [0,1), the clock, and order and furniture ids. Ids are taken as given, so `Date.now() + Math.random()` uniqueness is not modelled.
- Game.GameState.UpdateMarketPrices: requires every ordinary crop to have a record (`initMarketPrices` has run). The source would throw on a missing record, and the model does not model that throw.
- Game.GameState.GenerateOrders: the empty-candidate guard (game.js:1000) is not written, because `Orders.MysteryIsACandidate` proves it never fires.
- Item ids are a closed enumeration. Lookups of unknown item ids, which the source handles with `undefined`, are not modelled. Villager ids stay strings.
