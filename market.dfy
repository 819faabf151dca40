/**
 * Market prices of the five ordinary crops: one record per crop with the
 * current and previous price and a history of at most seven prices. A day's
 * new price is drawn around the crop's base price, not the previous one.
 */
module Market {
  import opened Wrappers
  import opened Content
  import opened Buffs

  datatype PriceRecord = PriceRecord(currentPrice: int, previousPrice: int, priceHistory: seq<int>)

  const HistoryLength := 7

  /** The base sell price of an item that has one in the item table, 0 otherwise. */
  function BasePrice(crop: ItemId): int {
    match Def(crop).sellPrice
    case Some(p) => p
    case None => 0
  }

  /** A record's shape: a non-empty history of at most seven prices, ending with the current one. */
  ghost predicate WellFormedRecord(r: PriceRecord) {
    1 <= |r.priceHistory| <= HistoryLength && r.priceHistory[|r.priceHistory| - 1] == r.currentPrice
  }

  /** Every record of a price map well formed. */
  ghost predicate RecordsWellFormed(prices: map<ItemId, PriceRecord>) {
    forall c :: c in prices ==> WellFormedRecord(prices[c])
  }

  /** The record `initMarketPrices` creates: the base price, one day of history. */
  function InitialRecord(basePrice: int): (r: PriceRecord)
    ensures WellFormedRecord(r) && r.currentPrice == r.previousPrice == basePrice
    ensures r.priceHistory == [basePrice]
  {
    PriceRecord(basePrice, basePrice, [basePrice])
  }

  /** `Math.round(basePrice * (1 + fluctuation))` with the fluctuation `(roll - 0.4) * 0.8`. */
  function DrawnPrice(basePrice: int, roll: real): int {
    Round(basePrice as real * (1.0 + (roll - 0.4) * 0.8))
  }

  /** One crop's step of `updateMarketPrices`, given the random roll it draws. */
  function UpdatedRecord(rec: PriceRecord, basePrice: int, roll: real): (r: PriceRecord)
    ensures r.previousPrice == rec.currentPrice
    ensures r.priceHistory == if |rec.priceHistory| < HistoryLength
                              then rec.priceHistory + [r.currentPrice]
                              else rec.priceHistory[1..] + [r.currentPrice]
    ensures |rec.priceHistory| <= HistoryLength ==> WellFormedRecord(r)
  {
    var newPrice := DrawnPrice(basePrice, roll);
    var minPrice := Round(basePrice as real * 0.5);
    var maxPrice := Round(basePrice as real * 2.0);
    var current := Max(minPrice, Min(maxPrice, newPrice));
    var history := rec.priceHistory + [current];
    var history := if |history| > HistoryLength then history[1..] else history;
    PriceRecord(current, rec.currentPrice, history)
  }

  /**
   * The new price is clamped to between half and twice the base price; for
   * a roll in [0, 1) the clamp never binds and the price is the drawn one.
   */
  lemma UpdatedPriceClamped(rec: PriceRecord, basePrice: int, roll: real)
    ensures Round(basePrice as real * 0.5) <= UpdatedRecord(rec, basePrice, roll).currentPrice
    ensures basePrice >= 0 ==> UpdatedRecord(rec, basePrice, roll).currentPrice <= 2 * basePrice
    ensures 0.0 <= roll < 1.0 && basePrice >= 0 ==> UpdatedRecord(rec, basePrice, roll).currentPrice == DrawnPrice(basePrice, roll)
  {
    if 0.0 <= roll < 1.0 && basePrice >= 0 {
      DrawnPriceRange(basePrice, roll);
    }
  }

  /** `getPriceChange`: today's move of a crop's price, 0 for a crop without a record. */
  function PriceChange(prices: map<ItemId, PriceRecord>, crop: ItemId): (r: int)
    ensures crop !in prices ==> r == 0
    ensures crop in prices ==> prices[crop].previousPrice + r == prices[crop].currentPrice
  {
    if crop !in prices then 0 else prices[crop].currentPrice - prices[crop].previousPrice
  }

  /**
   * A roll in [0, 1) moves the price between -32% and +48% of the base price,
   * which the clamp to [50%, 200%] never cuts.
   */
  lemma {:induction false} DrawnPriceRange(basePrice: int, roll: real)
    requires 0.0 <= roll < 1.0 && basePrice >= 0
    ensures Round(basePrice as real * 0.68) <= DrawnPrice(basePrice, roll) <= Round(basePrice as real * 1.48)
    ensures Round(basePrice as real * 0.5) <= DrawnPrice(basePrice, roll) <= 2 * basePrice
  {
    var b := basePrice as real;
    var x := b * (1.0 + (roll - 0.4) * 0.8);
    ScaledBelow(basePrice, roll);
    assert x == b * 0.68 + (b * roll) * 0.8;
    RoundMonotonic(b * 0.68, x);
    RoundMonotonic(x, b * 1.48);
    RoundMonotonic(b * 0.5, b * 0.68);
  }

  /** Scaling a count by a factor in [0, 1] stays between 0 and the count. */
  lemma {:induction false} ScaledBelow(n: nat, c: real)
    requires 0.0 <= c <= 1.0
    ensures 0.0 <= n as real * c <= n as real
  {
    if n > 0 {
      ScaledBelow(n - 1, c);
      assert n as real * c == (n - 1) as real * c + c;
    }
  }

  lemma RoundMonotonic(x: real, y: real)
    requires x <= y
    ensures Round(x) <= Round(y)
  {
  }
}
