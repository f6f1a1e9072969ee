/** The 2D shop room's handlers. `HandlePurchase` works like the source: it
    copies the stats, updates the copy field by field and returns what the
    room would hand to `onStatsUpdate`. */
module Shop2DRoom {
  import opened ShopTypes
  import opened Leveling
  import Js

  /** Buy `product` at its catalog price. Rejected, with nothing committed,
      when the coins do not cover the price; otherwise the price is paid,
      20 experience is awarded, the product is appended to the inventory and
      a single `% 100` level-up check runs. */
  method HandlePurchase(stats: PlayerStats, product: Product) returns (outcome: PurchaseOutcome<PlayerStats>)
    ensures outcome.NotEnoughCoins? <==> stats.coins < product.price
    ensures outcome.NotEnoughCoins? ==> outcome.required == product.price && outcome.available == stats.coins
    ensures outcome.Purchased? ==>
      var s := outcome.newStats;
      && s.coins == stats.coins - product.price
      && s.coins >= 0
      && s.inventory == stats.inventory + [product]
      && s.achievements == stats.achievements
      && (s.level, s.experience) == ModuloLevelUp(stats.level, stats.experience + 20)
      && (s.level == stats.level || s.level == stats.level + 1)
      && outcome.leveledUp == (s.level == stats.level + 1)
    ensures outcome.Purchased? && Normalized(stats.level, stats.experience) ==>
      var s := outcome.newStats;
      && Normalized(s.level, s.experience)
      && (s.level, s.experience) == Resolve(stats.level, stats.experience + 20)
  {
    if stats.coins < product.price {
      return NotEnoughCoins(product.price, stats.coins);
    }
    var newStats := stats.(
      coins := stats.coins - product.price,
      experience := stats.experience + 20,
      inventory := stats.inventory + [product]);
    var leveledUp := false;
    if newStats.experience >= newStats.level * 100 {
      newStats := newStats.(level := newStats.level + 1);
      newStats := newStats.(experience := Js.Remainder(newStats.experience, 100));
      leveledUp := true;
    }
    if Normalized(stats.level, stats.experience) {
      ModuloMatchesResolve(stats.level, stats.experience, 20);
    }
    outcome := Purchased(newStats, leveledUp);
  }

  /** Virtual try-on only shows a notice: it never commits stats. */
  method HandleTryOn(stats: PlayerStats, product: Product) returns (update: Option<PlayerStats>)
    ensures update == None
  {
    update := None;
  }
}
