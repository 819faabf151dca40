/**
 * The consistency conditions the game store keeps, stated on the values of
 * its fields.
 */
module Invariants {
  import opened Wrappers
  import opened Content
  import opened Buffs
  import opened Warehouse
  import opened Market
  import opened Farming
  import opened Progression
  import opened Orders

  /** The four plots, plot `k` at index `k - 1`, each consistent. */
  ghost predicate PlotsOk(plots: seq<Plot>) {
    |plots| == 4 && forall i :: 0 <= i < 4 ==> plots[i].id == i + 1 && WellFormedPlot(plots[i])
  }

  /** The level within its range and the chapter lists without repeats. */
  ghost predicate ProgressOk(level: int, unlocked: seq<int>, read: seq<int>) {
    1 <= level <= MaxLevel && NoDuplicates(unlocked) && NoDuplicates(read)
  }

  /** The warehouse in its store shape and every price record well formed. */
  ghost predicate StockOk(warehouse: seq<Entry>, prices: map<ItemId, PriceRecord>) {
    WellFormed(warehouse) && RecordsWellFormed(prices)
  }

  /** At most three distinct buffs on offer; the active one, once selected, among them; the only debuff is the futures one. */
  ghost predicate BuffOk(choices: seq<BuffId>, selected: bool, current: Option<BuffId>, debuff: Option<Debuff>) {
    && |choices| <= 3
    && (forall i, j :: 0 <= i < j < |choices| ==> choices[i] != choices[j])
    && (selected <==> current.Some?)
    && (current.Some? ==> current.value in choices)
    && (debuff.Some? ==> debuff == Some(Debuff(0.5)))
  }

  /** At most three orders, each for one to three units. */
  ghost predicate OrdersOk(orders: seq<Order>) {
    |orders| <= MaxOrders && forall o :: o in orders ==> 1 <= o.count <= 3
  }
}
