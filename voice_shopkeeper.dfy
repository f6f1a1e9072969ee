/** The standalone voice shopkeeper (the older record without inventory):
    the API-key and listening guards, a simulated voice turn worth 10
    experience with a reset-to-zero level-up, and the fixed-price purchase
    with its achievement label. */
module VoiceShopkeeper {
  import opened ShopTypes
  import opened Leveling
  import opened Js

  /** Every item costs this many coins in the voice shop. */
  const ItemPrice := 50

  /** Line `k` (of three) of each theme, which the simulated turn draws from. */
  function ThemeLine(theme: Theme, k: nat): (line: string)
    requires k < 3
  {
    match theme
    case Western =>
      if k == 0 then "Awesome! I can help you find the perfect Western wear. What style are you looking for?"
      else if k == 1 then "Great choice! Our t-shirts and jeans are trending right now. Want to see some options?"
      else "Cool! I love helping customers find their perfect look. Check out our latest arrivals!"
    case Ethnic =>
      if k == 0 then "Wonderful! Traditional wear is so beautiful. What occasion are you shopping for?"
      else if k == 1 then "Perfect! Our sarees and kurtis are handpicked for quality. Would you like to see our collection?"
      else "Lovely! Each piece tells a story. Let me show you our finest ethnic wear."
    case Home =>
      if k == 0 then "Fantastic! Home decor is my passion. What room are you decorating?"
      else if k == 1 then "Exciting! Beautiful spaces reflect your personality. What's your style preference?"
      else "Amazing! I have perfect pieces that will transform your space. Let's explore!"
  }

  /** The connection state of the panel: the key being typed, whether the
      key form is shown, whether the (simulated) voice link is up and
      whether the microphone is listening. */
  class VoicePanel {
    var apiKey: string
    var showApiKeyInput: bool
    var isConnected: bool
    var isListening: bool

    /** The link is up exactly when the key form has been dismissed, and the
        panel only listens while connected. */
    ghost predicate Valid()
      reads this
    {
      && isConnected == !showApiKeyInput
      && (isListening ==> isConnected)
    }

    constructor ()
      ensures Valid()
      ensures apiKey == "" && showApiKeyInput && !isConnected && !isListening
    {
      apiKey := "";
      showApiKeyInput := true;
      isConnected := false;
      isListening := false;
    }

    /** Typing in the key field. */
    method EditApiKey(key: string)
      requires Valid()
      modifies this`apiKey
      ensures Valid() && apiKey == key
    {
      apiKey := key;
    }

    /** handleApiKeySubmit: a blank key is refused and nothing changes;
        any other key hides the form and brings the link up. */
    method SubmitApiKey() returns (accepted: bool)
      requires Valid()
      modifies this`showApiKeyInput, this`isConnected
      ensures Valid()
      ensures accepted <==> !IsBlank(apiKey)
      ensures !accepted ==> showApiKeyInput == old(showApiKeyInput) && isConnected == old(isConnected)
      ensures accepted ==> !showApiKeyInput && isConnected
    {
      TrimEmptyIffBlank(apiKey);
      if Trim(apiKey) == [] {
        return false;
      }
      showApiKeyInput := false;
      isConnected := true;
      accepted := true;
    }

    /** toggleListening: ignored while the link is down; otherwise flips
        listening, and schedules a simulated turn when it was not listening
        before (the flag it tests is the value from before the flip). */
    method ToggleListening() returns (turnScheduled: bool)
      requires Valid()
      modifies this`isListening
      ensures Valid()
      ensures !old(isConnected) ==> isListening == old(isListening) && !turnScheduled
      ensures old(isConnected) ==> isListening == !old(isListening) && turnScheduled == !old(isListening)
    {
      if !isConnected {
        return false;
      }
      var wasListening := isListening;
      isListening := !isListening;
      turnScheduled := !wasListening;
    }

    /** The scheduled turn fires: listening stops before the simulated reply. */
    method FinishListening()
      requires Valid()
      modifies this`isListening
      ensures Valid() && !isListening
    {
      isListening := false;
    }
  }

  /** The stats part of simulateResponse: 10 experience with a
      reset-to-zero level-up and nothing else. From a normalized state the
      result stays normalized, and agrees with the reference rule exactly
      when the award lands at or below the threshold. */
  method AwardVoiceTurn(stats: LegacyStats) returns (newStats: LegacyStats)
    ensures newStats.coins == stats.coins && newStats.achievements == stats.achievements
    ensures (newStats.level, newStats.experience) == ResetLevelUp(stats.level, stats.experience + 10)
    ensures Normalized(stats.level, stats.experience) ==>
      && Normalized(newStats.level, newStats.experience)
      && (((newStats.level, newStats.experience) == Resolve(stats.level, stats.experience + 10))
            <==> stats.experience + 10 <= Threshold(stats.level))
  {
    newStats := stats.(experience := stats.experience + 10);
    if newStats.experience >= newStats.level * 100 {
      newStats := newStats.(level := newStats.level + 1);
      newStats := newStats.(experience := 0);
    }
    if Normalized(stats.level, stats.experience) {
      ResetMatchesResolveIff(stats.level, stats.experience, 10);
    }
  }

  /** simulateResponse: the theme line drawn by `roll` (the value
      `Math.random()` returned), then the turn's experience award. */
  method SimulateResponse(theme: Theme, stats: LegacyStats, roll: real) returns (line: string, newStats: LegacyStats)
    requires 0.0 <= roll < 1.0
    ensures line == ThemeLine(theme, RandomIndex(roll, 3))
    ensures newStats.coins == stats.coins && newStats.achievements == stats.achievements
    ensures (newStats.level, newStats.experience) == ResetLevelUp(stats.level, stats.experience + 10)
  {
    line := ThemeLine(theme, RandomIndex(roll, 3));
    newStats := AwardVoiceTurn(stats);
  }

  /** handlePurchase: 50 coins and 20 experience whatever the item or
      shelf; rejected, with nothing committed, below 50 coins; the label
      `First <shop name> Purchase` appended unless the key
      `first-<theme>-purchase` is present, which it never is after a
      label, so every purchase appends another copy; then a single
      `% 100` level-up check. */
  method HandlePurchase(shop: ItemShop, stats: LegacyStats, item: string, sectionName: string)
    returns (outcome: PurchaseOutcome<LegacyStats>)
    ensures outcome.NotEnoughCoins? <==> stats.coins < ItemPrice
    ensures outcome.NotEnoughCoins? ==> outcome.required == ItemPrice && outcome.available == stats.coins
    ensures outcome.Purchased? ==>
      var s := outcome.newStats;
      && s.coins == stats.coins - ItemPrice
      && s.coins >= 0
      && s.achievements == RecordPurchaseAsWritten(stats.achievements, shop.theme, shop.name)
      && (s.level, s.experience) == ModuloLevelUp(stats.level, stats.experience + 20)
      && outcome.leveledUp == (s.level == stats.level + 1)
    ensures outcome.Purchased? && AchievementKey(shop.theme) !in stats.achievements ==>
      var s := outcome.newStats;
      && AchievementKey(shop.theme) !in s.achievements
      && Count(s.achievements, AchievementLabel(shop.name)) == Count(stats.achievements, AchievementLabel(shop.name)) + 1
    ensures outcome.Purchased? && Normalized(stats.level, stats.experience) ==>
      var s := outcome.newStats;
      && Normalized(s.level, s.experience)
      && (s.level, s.experience) == Resolve(stats.level, stats.experience + 20)
  {
    if stats.coins < 50 {
      return NotEnoughCoins(ItemPrice, stats.coins);
    }
    var newStats := stats.(
      coins := stats.coins - 50,
      experience := stats.experience + 20,
      achievements := stats.achievements);

    var achievementKey := AchievementKey(shop.theme);
    if achievementKey !in newStats.achievements {
      newStats := newStats.(achievements := newStats.achievements + [AchievementLabel(shop.name)]);
      LabelIsNeverKey(shop.name, shop.theme);
      CountAppend(stats.achievements, AchievementLabel(shop.name), AchievementLabel(shop.name));
    }

    var leveledUp := false;
    if newStats.experience >= newStats.level * 100 {
      newStats := newStats.(level := newStats.level + 1);
      newStats := newStats.(experience := Js.Remainder(newStats.experience, 100));
      leveledUp := true;
    }
    if Normalized(stats.level, stats.experience) {
      ModuloMatchesResolve(stats.level, stats.experience, 20);
    }
    outcome := Purchased(newStats, leveledUp);
  }
}
