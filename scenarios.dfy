/** Concrete runs of the handlers from the session's starting stats. Each
    assertion follows from the handlers' contracts alone, so these pin the
    contracts to the outcomes the shop surfaces show. */
module Scenarios {
  import opened ShopTypes
  import opened Leveling
  import Shop2DRoom
  import AIShopkeeper
  import VoiceShopkeeper

  /** Level 1 with 90 experience buys a 10-coin product in the 2D room:
      level 2 with 10 experience, the level-up notice shown. */
  method PurchaseCrossesLevel() {
    var tee := Product("w1", "Classic Tee", 10, "Cotton tee", 4, "T-shirts");
    var stats := InitialStats.(experience := 90);
    var outcome := Shop2DRoom.HandlePurchase(stats, tee);
    assert outcome.Purchased?;
    assert outcome.newStats.level == 2 && outcome.newStats.experience == 10;
    assert outcome.leveledUp;
    assert outcome.newStats.coins == 990 && outcome.newStats.inventory == [tee];
  }

  /** Two purchases keep the inventory in purchase order; a product
      costing more than the coins left is refused. */
  method InventoryKeepsOrder() {
    var tee := Product("w1", "Classic Tee", 600, "Cotton tee", 4, "T-shirts");
    var jeans := Product("w2", "Slim Jeans", 300, "Denim", 5, "Jeans");
    var first := Shop2DRoom.HandlePurchase(InitialStats, tee);
    assert first.Purchased?;
    var second := Shop2DRoom.HandlePurchase(first.newStats, jeans);
    assert second.Purchased?;
    assert second.newStats.inventory == [tee, jeans];
    assert second.newStats.coins == 100;
    var third := Shop2DRoom.HandlePurchase(second.newStats, tee);
    assert third == NotEnoughCoins(600, 100);
  }

  /** Two chat purchases in the same shop store its "first purchase" label
      twice. */
  method ChatPurchasesDuplicateLabel() {
    var shop := ItemShop("Desi Threads", Ethnic, [ItemSection("Sarees", ["Silk Saree"])]);
    var first, log1 := AIShopkeeper.HandlePurchase(shop, InitialStats, [], "Silk Saree", "Sarees");
    assert first.Purchased?;
    var second, log2 := AIShopkeeper.HandlePurchase(shop, first.newStats, log1, "Silk Saree", "Sarees");
    assert second.Purchased?;
    RepeatedPurchaseDuplicatesLabel(Ethnic, "Desi Threads");
    assert second.newStats.achievements == [AchievementLabel("Desi Threads"), AchievementLabel("Desi Threads")];
    assert second.newStats.coins == 900 && second.newStats.experience == 40;
  }

  /** A simulated voice turn from 95 experience at level 1
      reaches 105, which levels up and resets to zero, losing 5. */
  method VoiceTurnDropsOverflow() {
    var stats := LegacyStats(1000, 95, 1, []);
    var line, after := VoiceShopkeeper.SimulateResponse(Home, stats, 0.5);
    assert after.level == 2 && after.experience == 0;
    assert Resolve(1, 105) == (2, 5) by {
      assert Resolve(2, 5) == (2, 5);
    }
  }
}
