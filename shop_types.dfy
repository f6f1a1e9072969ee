/** The records the shop surfaces pass around: catalog products, shop
    descriptions and the player's progression counters. */
module ShopTypes {

  datatype Option<+T> = None | Some(value: T)

  /** The three catalog themes; a shop's theme also names its achievement. */
  datatype Theme = Western | Ethnic | Home

  /** The lower-case tag the source spells each theme with. */
  function ThemeTag(t: Theme): string {
    match t
    case Western => "western"
    case Ethnic => "ethnic"
    case Home => "home"
  }

  /** A catalog entry. The picture URL is display-only and is not kept. */
  datatype Product = Product(
    id: string,
    name: string,
    price: int,
    description: string,
    rating: int,
    category: string)

  /** Player progression as the client keeps it. */
  datatype PlayerStats = PlayerStats(
    coins: int,
    experience: int,
    level: int,
    achievements: seq<string>,
    inventory: seq<Product>)

  /** The older record of the standalone voice shop: no inventory. */
  datatype LegacyStats = LegacyStats(
    coins: int,
    experience: int,
    level: int,
    achievements: seq<string>)

  /** A shelf of catalog products (the client's shop sections). */
  datatype ProductSection = ProductSection(name: string, products: seq<Product>)

  datatype ProductShop = ProductShop(name: string, theme: Theme, sections: seq<ProductSection>)

  /** A shelf listed by item names only (the chat and voice shops). */
  datatype ItemSection = ItemSection(name: string, items: seq<string>)

  datatype ItemShop = ItemShop(name: string, theme: Theme, sections: seq<ItemSection>)

  /** The stats a session starts with. */
  const InitialStats := PlayerStats(1000, 0, 1, [], [])

  /** What a purchase handler does: either it commits new stats (and says
      whether it showed the level-up notice), or it reports the shortfall
      and commits nothing. */
  datatype PurchaseOutcome<S> =
    | Purchased(newStats: S, leveledUp: bool)
    | NotEnoughCoins(required: int, available: int)

  /** The identifier the purchase handlers look up: `first-<theme>-purchase`. */
  function AchievementKey(theme: Theme): string {
    "first-" + ThemeTag(theme) + "-purchase"
  }

  /** The label the purchase handlers actually store: `First <shop name> Purchase`. */
  function AchievementLabel(shopName: string): string {
    "First " + shopName + " Purchase"
  }

  /** A stored label never equals the looked-up key (they differ in their
      first letter), so the lookup can only ever fail for label lists. */
  lemma LabelIsNeverKey(shopName: string, theme: Theme)
    ensures AchievementLabel(shopName) != AchievementKey(theme)
  {
    assert AchievementLabel(shopName)[0] == 'F';
    assert AchievementKey(theme)[0] == 'f';
  }

  /** Number of occurrences of `x` in `xs`. */
  function Count(xs: seq<string>, x: string): nat {
    if xs == [] then 0
    else Count(xs[..|xs| - 1], x) + (if xs[|xs| - 1] == x then 1 else 0)
  }

  lemma CountAppend(xs: seq<string>, y: string, x: string)
    ensures Count(xs + [y], x) == Count(xs, x) + (if y == x then 1 else 0)
  {
    assert (xs + [y])[..|xs|] == xs;
  }

  /** A value absent from a list occurs zero times in it. */
  lemma {:induction false} CountAbsent(xs: seq<string>, x: string)
    requires x !in xs
    ensures Count(xs, x) == 0
  {
    if xs != [] {
      assert x !in xs[..|xs| - 1];
      CountAbsent(xs[..|xs| - 1], x);
    }
  }

  /** The purchase handlers' achievement step as written: the list is kept
      and at most one entry added; the label is appended unless the key is
      present, and the key is never stored, so every purchase in the shop
      appends one more copy of the label. */
  function RecordPurchaseAsWritten(achievements: seq<string>, theme: Theme, shopName: string): (r: seq<string>)
    ensures achievements <= r && |r| <= |achievements| + 1
    ensures AchievementKey(theme) in achievements ==> r == achievements
    ensures AchievementKey(theme) !in achievements ==>
      && AchievementKey(theme) !in r
      && Count(r, AchievementLabel(shopName)) == Count(achievements, AchievementLabel(shopName)) + 1
  {
    if AchievementKey(theme) !in achievements then
      LabelIsNeverKey(shopName, theme);
      CountAppend(achievements, AchievementLabel(shopName), AchievementLabel(shopName));
      achievements + [AchievementLabel(shopName)]
    else achievements
  }

  /** Two purchases in the same shop, from no achievements, store the
      "first purchase" label twice. */
  lemma RepeatedPurchaseDuplicatesLabel(theme: Theme, shopName: string)
    ensures var once := RecordPurchaseAsWritten([], theme, shopName);
      && once == [AchievementLabel(shopName)]
      && RecordPurchaseAsWritten(once, theme, shopName) == [AchievementLabel(shopName), AchievementLabel(shopName)]
  {
    LabelIsNeverKey(shopName, theme);
  }

  /** The evidently intended step: record the label the first time only,
      testing for the label itself; the list is kept and at most the label
      added. */
  function RecordFirstPurchase(achievements: seq<string>, shopName: string): (r: seq<string>)
    ensures achievements <= r && |r| <= |achievements| + 1
    ensures AchievementLabel(shopName) in r
    ensures AchievementLabel(shopName) in achievements ==> r == achievements
    ensures Count(r, AchievementLabel(shopName))
         == if AchievementLabel(shopName) in achievements then Count(achievements, AchievementLabel(shopName)) else 1
    ensures forall x :: x in achievements ==> x in r
  {
    var badge := AchievementLabel(shopName);
    if badge in achievements then achievements
    else
      CountAbsent(achievements, badge);
      CountAppend(achievements, badge, badge);
      achievements + [badge]
  }

  /** Buying again changes nothing: the corrected step is idempotent, so the
      label occurs exactly once however many purchases follow the first. */
  lemma RecordFirstPurchaseIdempotent(achievements: seq<string>, shopName: string)
    requires AchievementLabel(shopName) !in achievements
    ensures var once := RecordFirstPurchase(achievements, shopName);
      && RecordFirstPurchase(once, shopName) == once
      && Count(once, AchievementLabel(shopName)) == 1
  {
  }
}
