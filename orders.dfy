/**
 * NPC orders: which crops an order may ask for at a level, and the reward
 * and experience of fulfilling one.
 */
module Orders {
  import opened Wrappers
  import opened Content
  import opened Market

  /** An order; `reward` is the exact rational `sellPrice * count * 1.2`. */
  datatype Order = Order(id: int, req: ItemId, count: int, npcId: string, reward: real)

  const MaxOrders := 3

  /**
   * The outputs of the seeds available at `level`, in table order: the
   * candidates `generateOrders` draws from. The mystery seed contributes
   * its pseudo-output `'mystery'`.
   */
  function AvailableOutputs(seeds: seq<ItemId>, level: int): (r: seq<Output>)
    ensures forall o :: o in r <==> exists s :: s in seeds && IsSeed(s) && UnlockLevelOf(s) <= level && Def(s).output == Some(o)
    ensures |r| <= |seeds|
    decreases |seeds|, level
  {
    if seeds == [] then []
    else
      var s := seeds[0];
      var rest := AvailableOutputs(seeds[1..], level);
      assert forall t :: t in seeds <==> t == s || t in seeds[1..];
      if IsSeed(s) && UnlockLevelOf(s) <= level && Def(s).output.Some? then [Def(s).output.value] + rest else rest
  }

  /** From level 1 on, the candidates are never empty and always include the mystery pseudo-output. */
  lemma {:induction false} MysteryIsACandidate(level: int)
    requires level >= 1
    ensures MysteryOutput in AvailableOutputs(Seeds, level)
    ensures Grows(CropTurnip) in AvailableOutputs(Seeds, level)
  {
    assert SeedMystery in Seeds && IsSeed(SeedMystery) && UnlockLevelOf(SeedMystery) == 1;
    assert SeedTurnip in Seeds && IsSeed(SeedTurnip) && UnlockLevelOf(SeedTurnip) == 1;
  }

  /** `Math.floor(roll * n)`: an index below `n` for a roll in [0, 1). */
  function Pick(roll: real, n: nat): (i: nat)
    requires 0.0 <= roll < 1.0 && n > 0
    ensures i < n
  {
    assert roll * n as real < n as real by {
      assert (1.0 - roll) * n as real > 0.0;
    }
    (roll * n as real).Floor
  }

  /** The random draws of one `generateOrders` call, each in [0, 1), and the id the new order gets. */
  datatype OrderDraw = OrderDraw(need: real, count: real, npc: real, id: int)

  ghost predicate DrawInRange(d: OrderDraw) {
    0.0 <= d.need < 1.0 && 0.0 <= d.count < 1.0 && 0.0 <= d.npc < 1.0
  }

  /** `itemDefs[needs].sellPrice * count * 1.2`. */
  function OrderReward(req: ItemId, count: int): (r: real)
    ensures count >= 0 ==> r >= 0.0
    ensures r == 1.2 * (BasePrice(req) * count) as real
  {
    (BasePrice(req) * count) as real * 1.2
  }

  /** The experience of a fulfilled order: half the reward, rounded down and kept within [50, 200]. */
  function OrderExp(reward: real): (r: int)
    ensures 50 <= r <= 200
    ensures 100.0 <= reward < 402.0 ==> r as real <= reward / 2.0 < r as real + 1.0
    ensures reward < 100.0 ==> r == 50
    ensures reward >= 400.0 ==> r == 200
  {
    Min(200, Max(50, (reward / 2.0).Floor))
  }

  /**
   * The candidate `generateOrders` picks at `level` with the `need` roll:
   * one of the available outputs, each index equally likely.
   */
  function DrawnOutput(level: int, d: OrderDraw): (o: Output)
    requires level >= 1 && DrawInRange(d)
    ensures o in AvailableOutputs(Seeds, level)
  {
    MysteryIsACandidate(level);
    var candidates := AvailableOutputs(Seeds, level);
    candidates[Pick(d.need, |candidates|)]
  }

  /** The order pushed for crop `req`: one to three units, a villager from the order list, 1.2 times the base value. */
  function NewOrder(req: ItemId, d: OrderDraw): (r: Order)
    requires DrawInRange(d)
    ensures r.id == d.id && r.req == req && 1 <= r.count <= 3
    ensures r.npcId in OrderNpcIds && r.reward == OrderReward(req, r.count)
  {
    var count := Pick(d.count, 3) + 1;
    var npcId := OrderNpcIds[Pick(d.npc, |OrderNpcIds|)];
    Order(d.id, req, count, npcId, OrderReward(req, count))
  }
}
