/** The chat shopkeeper: scripted keyword replies over the shop's item
    lists, a chat turn that awards 5 experience with a reset-to-zero
    level-up, and a fixed-price purchase that records an achievement label. */
module AIShopkeeper {
  import opened ShopTypes
  import opened Leveling
  import opened Js

  /** Every item costs this many coins in the chat shop. */
  const ItemPrice := 50

  /** The replies the shopkeeper can pick; each carries what its message
      template shows. `Recommend` shows the drawn shelf and its first item,
      which is missing (shown as `undefined`) on an empty shelf. */
  datatype Reply =
    | ItemPitch(item: string, sectionName: string)
    | SectionListing(sectionName: string, items: seq<string>)
    | Recommend(sectionName: string, firstItem: Option<string>)
    | PurchaseHelp
    | ThemeLine(line: string)

  /** One line of the chat transcript. */
  datatype ChatEntry =
    | UserSaid(text: string)
    | ShopkeeperSaid(reply: Reply)
    | AskedToBuy(item: string)
    | ThankedForPurchase(item: string)

  function ThemeLines(theme: Theme): (lines: seq<string>)
    ensures |lines| == 3
  {
    match theme
    case Western => [
      "That's a cool question! What style are you going for?",
      "Awesome! I love helping customers find their perfect look.",
      "You've got great taste! Let me show you our latest arrivals."]
    case Ethnic => [
      "That's wonderful! Traditional wear tells such beautiful stories.",
      "I'm delighted to help you explore our ethnic collection.",
      "Each piece in our collection has its own cultural significance."]
    case Home => [
      "That's exciting! A beautiful home reflects your personality.",
      "I love helping people create their dream spaces!",
      "Great question! Let me help you find the perfect piece."]
  }

  predicate NamesItem(lower: string, item: string) {
    Includes(lower, ToLower(item))
  }

  ghost predicate AnyItemNamed(lower: string, sections: seq<ItemSection>) {
    exists si, ii :: 0 <= si < |sections| && 0 <= ii < |sections[si].items|
      && NamesItem(lower, sections[si].items[ii])
  }

  /** No item before position (si, ii), in shelf-then-item order, is named. */
  ghost predicate NoItemNamedBefore(lower: string, sections: seq<ItemSection>, si: int, ii: int) {
    forall sj, ij :: 0 <= sj < |sections| && 0 <= ij < |sections[sj].items|
      && (sj < si || (sj == si && ij < ii))
      ==> !NamesItem(lower, sections[sj].items[ij])
  }

  ghost predicate FirstItemNamed(lower: string, sections: seq<ItemSection>, si: int, ii: int) {
    && 0 <= si < |sections| && 0 <= ii < |sections[si].items|
    && NamesItem(lower, sections[si].items[ii])
    && NoItemNamedBefore(lower, sections, si, ii)
  }

  predicate NamesSection(lower: string, s: ItemSection) {
    Includes(lower, ToLower(s.name))
  }

  ghost predicate AnySectionNamed(lower: string, sections: seq<ItemSection>) {
    exists si :: 0 <= si < |sections| && NamesSection(lower, sections[si])
  }

  ghost predicate FirstSectionNamed(lower: string, sections: seq<ItemSection>, si: int) {
    && 0 <= si < |sections| && NamesSection(lower, sections[si])
    && forall sj :: 0 <= sj < si ==> !NamesSection(lower, sections[sj])
  }

  predicate AsksForHelp(lower: string) {
    Includes(lower, "help") || Includes(lower, "recommend")
  }

  predicate AsksToBuy(lower: string) {
    Includes(lower, "buy") || Includes(lower, "purchase")
  }

  /** What the help branch answers for the draw `roll`: the drawn shelf and
      its first item; nothing (the callback throws) when there is no shelf. */
  function Recommendation(sections: seq<ItemSection>, roll: real): (r: Option<Reply>)
    requires 0.0 <= roll < 1.0
    ensures r.None? <==> sections == []
    ensures r.Some? ==> exists k :: (0 <= k < |sections|
      && r.value == Recommend(sections[k].name, if sections[k].items == [] then None else Some(sections[k].items[0])))
  {
    if sections == [] then None
    else
      var s := sections[RandomIndex(roll, |sections|)];
      Some(Recommend(s.name, if s.items == [] then None else Some(s.items[0])))
  }

  /** The reply rule on the lower-cased message: the first named item wins;
      failing that the first named shelf, listing its items; then help,
      then buy keywords; otherwise the theme line the draw `roll` picks.
      `None` is the help branch on a shop without shelves, where the source
      throws instead of replying. */
  ghost predicate SelectsReply(shop: ItemShop, message: string, roll: real, r: Option<Reply>)
    requires 0.0 <= roll < 1.0
  {
    var lower := ToLower(message);
    var secs := shop.sections;
    var noName := !AnyItemNamed(lower, secs) && !AnySectionNamed(lower, secs);
    && (r.None? <==> noName && AsksForHelp(lower) && secs == [])
    && (r.Some? && r.value.ItemPitch? <==> AnyItemNamed(lower, secs))
    && (r.Some? && r.value.ItemPitch? ==>
          exists si, ii :: FirstItemNamed(lower, secs, si, ii)
            && r.value == ItemPitch(secs[si].items[ii], secs[si].name))
    && (r.Some? && r.value.SectionListing? <==> !AnyItemNamed(lower, secs) && AnySectionNamed(lower, secs))
    && (r.Some? && r.value.SectionListing? ==>
          exists si :: FirstSectionNamed(lower, secs, si)
            && r.value == SectionListing(secs[si].name, secs[si].items))
    && (noName && AsksForHelp(lower) ==> r == Recommendation(secs, roll))
    && (r.Some? && r.value.PurchaseHelp? <==> noName && !AsksForHelp(lower) && AsksToBuy(lower))
    && (r.Some? && r.value.ThemeLine? <==> noName && !AsksForHelp(lower) && !AsksToBuy(lower))
    && (r.Some? && r.value.ThemeLine? ==> r.value.line == ThemeLines(shop.theme)[RandomIndex(roll, 3)])
  }

  /** simulateAIResponse: first-match loops over shelves and items, then over
      shelves, then the keyword groups, then the theme line. */
  method SimulateReply(shop: ItemShop, userMessage: string, roll: real) returns (r: Option<Reply>)
    requires 0.0 <= roll < 1.0
    ensures SelectsReply(shop, userMessage, roll, r)
  {
    var lower := ToLower(userMessage);
    var secs := shop.sections;
    var si := 0;
    while si < |secs|
      invariant 0 <= si <= |secs|
      invariant NoItemNamedBefore(lower, secs, si, 0)
    {
      var items := secs[si].items;
      var ii := 0;
      while ii < |items|
        invariant 0 <= ii <= |items|
        invariant NoItemNamedBefore(lower, secs, si, ii)
      {
        if Includes(lower, ToLower(items[ii])) {
          assert FirstItemNamed(lower, secs, si, ii);
          return Some(ItemPitch(items[ii], secs[si].name));
        }
        ii := ii + 1;
      }
      si := si + 1;
    }
    assert !AnyItemNamed(lower, secs);

    si := 0;
    while si < |secs|
      invariant 0 <= si <= |secs|
      invariant forall sj :: 0 <= sj < si ==> !NamesSection(lower, secs[sj])
    {
      if Includes(lower, ToLower(secs[si].name)) {
        assert FirstSectionNamed(lower, secs, si);
        return Some(SectionListing(secs[si].name, secs[si].items));
      }
      si := si + 1;
    }

    if Includes(lower, "help") || Includes(lower, "recommend") {
      if |secs| == 0 {
        // `shop.sections[0]` is undefined and reading its name throws.
        return None;
      }
      var drawn := secs[RandomIndex(roll, |secs|)];
      var first := if |drawn.items| > 0 then Some(drawn.items[0]) else None;
      return Some(Recommend(drawn.name, first));
    }
    if Includes(lower, "buy") || Includes(lower, "purchase") {
      return Some(PurchaseHelp);
    }
    var lines := ThemeLines(shop.theme);
    r := Some(ThemeLine(lines[RandomIndex(roll, |lines|)]));
  }

  /** The reply rule leaves no choice: at most one outcome meets it. */
  lemma SelectsReplyDeterministic(shop: ItemShop, message: string, roll: real, r1: Option<Reply>, r2: Option<Reply>)
    requires 0.0 <= roll < 1.0
    requires SelectsReply(shop, message, roll, r1) && SelectsReply(shop, message, roll, r2)
    ensures r1 == r2
  {
    var lower := ToLower(message);
    var secs := shop.sections;
    if r1.Some? && r1.value.ItemPitch? {
      var si, ii :| FirstItemNamed(lower, secs, si, ii) && r1.value == ItemPitch(secs[si].items[ii], secs[si].name);
      var sj, ij :| FirstItemNamed(lower, secs, sj, ij) && r2.value == ItemPitch(secs[sj].items[ij], secs[sj].name);
      assert !(si < sj || (si == sj && ii < ij));
      assert !(sj < si || (sj == si && ij < ii));
    } else if r1.Some? && r1.value.SectionListing? {
      var si :| FirstSectionNamed(lower, secs, si) && r1.value == SectionListing(secs[si].name, secs[si].items);
      var sj :| FirstSectionNamed(lower, secs, sj) && r2.value == SectionListing(secs[sj].name, secs[sj].items);
      assert !(si < sj) && !(sj < si);
    }
  }

  /** The stats part of a chat turn: 5 experience with a reset-to-zero
      level-up and nothing else. From a normalized state the result stays
      normalized, and agrees with the reference rule exactly when the award
      lands at or below the threshold. */
  method AwardChatTurn(stats: PlayerStats) returns (newStats: PlayerStats)
    ensures newStats == stats.(level := newStats.level, experience := newStats.experience)
    ensures (newStats.level, newStats.experience) == ResetLevelUp(stats.level, stats.experience + 5)
    ensures Normalized(stats.level, stats.experience) ==>
      && Normalized(newStats.level, newStats.experience)
      && (((newStats.level, newStats.experience) == Resolve(stats.level, stats.experience + 5))
            <==> stats.experience + 5 <= Threshold(stats.level))
  {
    newStats := stats.(experience := stats.experience + 5);
    if newStats.experience >= newStats.level * 100 {
      newStats := newStats.(level := newStats.level + 1);
      newStats := newStats.(experience := 0);
    }
    if Normalized(stats.level, stats.experience) {
      ResetMatchesResolveIff(stats.level, stats.experience, 5);
    }
  }

  /** handleSendMessage, with its delayed reply taken as one step. A blank
      draft is ignored: no transcript line, no experience. Otherwise the
      trimmed message is logged, the draft cleared, the reply logged and 5
      experience awarded with a reset-to-zero level-up; if choosing the
      reply throws, neither the reply nor the experience follows. */
  method HandleSendMessage(shop: ItemShop, stats: PlayerStats, conversation: seq<ChatEntry>, draft: string, roll: real)
    returns (reply: Option<Reply>, conversation': seq<ChatEntry>, draft': string, update: Option<PlayerStats>)
    requires 0.0 <= roll < 1.0
    ensures IsBlank(draft) ==> reply == None && conversation' == conversation && draft' == draft && update == None
    ensures !IsBlank(draft) ==>
      && SelectsReply(shop, Trim(draft), roll, reply)
      && draft' == ""
      && (reply.None? ==> conversation' == conversation + [UserSaid(Trim(draft))])
      && (reply.Some? ==> conversation' == conversation + [UserSaid(Trim(draft)), ShopkeeperSaid(reply.value)])
      && (update.Some? <==> reply.Some?)
    ensures update.Some? ==>
      var s := update.value;
      && s == stats.(level := s.level, experience := s.experience)
      && (s.level, s.experience) == ResetLevelUp(stats.level, stats.experience + 5)
  {
    TrimEmptyIffBlank(draft);
    if Trim(draft) == [] {
      return None, conversation, draft, None;
    }
    var userMessage := Trim(draft);
    draft' := "";
    conversation' := conversation + [UserSaid(userMessage)];

    reply := SimulateReply(shop, userMessage, roll);
    if reply.None? {
      return reply, conversation', draft', None;
    }
    conversation' := conversation' + [ShopkeeperSaid(reply.value)];
    assert conversation' == conversation + [UserSaid(userMessage), ShopkeeperSaid(reply.value)];

    var newStats := AwardChatTurn(stats);
    update := Some(newStats);
  }

  /** handlePurchase: every item costs 50, whatever the item or shelf.
      Rejected, with nothing committed, below 50 coins. Otherwise 50 coins
      are paid, 20 experience awarded, the inventory left alone, the label
      `First <shop name> Purchase` appended unless the key
      `first-<theme>-purchase` is already present, a single `% 100`
      level-up check runs, and the request and thanks join the transcript.
      Since a label is never the key, the key stays absent and every
      purchase appends one more copy of the label. */
  method HandlePurchase(shop: ItemShop, stats: PlayerStats, conversation: seq<ChatEntry>, item: string, sectionName: string)
    returns (outcome: PurchaseOutcome<PlayerStats>, conversation': seq<ChatEntry>)
    ensures outcome.NotEnoughCoins? <==> stats.coins < ItemPrice
    ensures outcome.NotEnoughCoins? ==>
      outcome.required == ItemPrice && outcome.available == stats.coins && conversation' == conversation
    ensures outcome.Purchased? ==>
      var s := outcome.newStats;
      && s.coins == stats.coins - ItemPrice
      && s.coins >= 0
      && s.inventory == stats.inventory
      && s.achievements == RecordPurchaseAsWritten(stats.achievements, shop.theme, shop.name)
      && (s.level, s.experience) == ModuloLevelUp(stats.level, stats.experience + 20)
      && outcome.leveledUp == (s.level == stats.level + 1)
      && conversation' == conversation + [AskedToBuy(item), ThankedForPurchase(item)]
    ensures outcome.Purchased? && AchievementKey(shop.theme) !in stats.achievements ==>
      var s := outcome.newStats;
      && AchievementKey(shop.theme) !in s.achievements
      && Count(s.achievements, AchievementLabel(shop.name)) == Count(stats.achievements, AchievementLabel(shop.name)) + 1
    ensures outcome.Purchased? && Normalized(stats.level, stats.experience) ==>
      var s := outcome.newStats;
      && Normalized(s.level, s.experience)
      && (s.level, s.experience) == Resolve(stats.level, stats.experience + 20)
  {
    if stats.coins < 50 {
      return NotEnoughCoins(ItemPrice, stats.coins), conversation;
    }
    var newStats := stats.(
      coins := stats.coins - 50,
      experience := stats.experience + 20,
      achievements := stats.achievements);

    var achievementKey := AchievementKey(shop.theme);
    if achievementKey !in newStats.achievements {
      newStats := newStats.(achievements := newStats.achievements + [AchievementLabel(shop.name)]);
      LabelIsNeverKey(shop.name, shop.theme);
      CountAppend(stats.achievements, AchievementLabel(shop.name), AchievementLabel(shop.name));
    }

    var leveledUp := false;
    if newStats.experience >= newStats.level * 100 {
      newStats := newStats.(level := newStats.level + 1);
      newStats := newStats.(experience := Js.Remainder(newStats.experience, 100));
      leveledUp := true;
    }
    if Normalized(stats.level, stats.experience) {
      ModuloMatchesResolve(stats.level, stats.experience, 20);
    }
    outcome := Purchased(newStats, leveledUp);
    conversation' := conversation + [AskedToBuy(item), ThankedForPurchase(item)];
  }
}
