/** The voice avatar shopkeeper of the 2D room: keyword reply selection
    over the shop's product shelves, a small experience award per voice
    turn, and the same priced purchase as the room itself. */
module VoiceAvatarShopkeeper {
  import opened ShopTypes
  import opened Leveling
  import opened Js

  /** The replies the shopkeeper can pick; each carries what its message
      template shows. */
  datatype Reply =
    | ProductPitch(product: Product)
    | SectionOverview(sectionName: string, itemCount: int)
    | OfferHelp
    | InviteToBuy
    | ExplainTryOn
    | ThemeLine(line: string)

  /** The three fallback lines of each theme. */
  function ThemeLines(theme: Theme): (lines: seq<string>)
    ensures |lines| == 3
  {
    match theme
    case Western => [
      "That's awesome! What kind of Western style are you going for?",
      "Cool! I love helping customers find their perfect look.",
      "Great question! Let me show you our latest arrivals."]
    case Ethnic => [
      "Wonderful! Traditional wear has such beautiful stories.",
      "I'm delighted to help you explore our ethnic collection.",
      "Each piece has its own cultural significance. What interests you?"]
    case Home => [
      "That's exciting! Your home should reflect your personality.",
      "I love helping people create their dream spaces!",
      "Great question! Let me help you find the perfect piece."]
  }

  /** The lowered input names the product. */
  predicate NamesProduct(lower: string, p: Product) {
    Includes(lower, ToLower(p.name))
  }

  /** Some shelf holds a product the input names. */
  ghost predicate AnyProductNamed(lower: string, sections: seq<ProductSection>) {
    exists si, pi :: 0 <= si < |sections| && 0 <= pi < |sections[si].products|
      && NamesProduct(lower, sections[si].products[pi])
  }

  /** No product before position (si, pi), in shelf-then-product order, is
      named by the input. */
  ghost predicate NoProductNamedBefore(lower: string, sections: seq<ProductSection>, si: int, pi: int) {
    forall sj, pj :: 0 <= sj < |sections| && 0 <= pj < |sections[sj].products|
      && (sj < si || (sj == si && pj < pi))
      ==> !NamesProduct(lower, sections[sj].products[pj])
  }

  /** (si, pi) is the first named product in shelf-then-product order. */
  ghost predicate FirstProductNamed(lower: string, sections: seq<ProductSection>, si: int, pi: int) {
    && 0 <= si < |sections| && 0 <= pi < |sections[si].products|
    && NamesProduct(lower, sections[si].products[pi])
    && NoProductNamedBefore(lower, sections, si, pi)
  }

  predicate NamesSection(lower: string, s: ProductSection) {
    Includes(lower, ToLower(s.name))
  }

  ghost predicate AnySectionNamed(lower: string, sections: seq<ProductSection>) {
    exists si :: 0 <= si < |sections| && NamesSection(lower, sections[si])
  }

  ghost predicate FirstSectionNamed(lower: string, sections: seq<ProductSection>, si: int) {
    && 0 <= si < |sections| && NamesSection(lower, sections[si])
    && forall sj :: 0 <= sj < si ==> !NamesSection(lower, sections[sj])
  }

  /** The keyword groups, tried in this order. */
  predicate AsksForHelp(lower: string) {
    Includes(lower, "help") || Includes(lower, "recommend")
  }

  predicate AsksToBuy(lower: string) {
    Includes(lower, "buy") || Includes(lower, "purchase")
  }

  predicate AsksAboutFit(lower: string) {
    Includes(lower, "try on") || Includes(lower, "fit")
  }

  /** The reply rule: on the lower-cased input, the first named product wins;
      failing that the first named shelf, reporting its product count; then
      help, buy and try-on keywords in that order; otherwise the theme line
      that the random draw `roll` picks. */
  ghost predicate SelectsReply(shop: ProductShop, input: string, roll: real, r: Reply)
    requires 0.0 <= roll < 1.0
  {
    var lower := ToLower(input);
    var secs := shop.sections;
    var noName := !AnyProductNamed(lower, secs) && !AnySectionNamed(lower, secs);
    && (r.ProductPitch? <==> AnyProductNamed(lower, secs))
    && (r.ProductPitch? ==>
          exists si, pi :: FirstProductNamed(lower, secs, si, pi) && r.product == secs[si].products[pi])
    && (r.SectionOverview? <==> !AnyProductNamed(lower, secs) && AnySectionNamed(lower, secs))
    && (r.SectionOverview? ==>
          exists si :: FirstSectionNamed(lower, secs, si)
            && r.sectionName == secs[si].name && r.itemCount == |secs[si].products|)
    && (r.OfferHelp? <==> noName && AsksForHelp(lower))
    && (r.InviteToBuy? <==> noName && !AsksForHelp(lower) && AsksToBuy(lower))
    && (r.ExplainTryOn? <==> noName && !AsksForHelp(lower) && !AsksToBuy(lower) && AsksAboutFit(lower))
    && (r.ThemeLine? ==> r.line == ThemeLines(shop.theme)[RandomIndex(roll, 3)])
  }

  /** generateAIResponse: nested first-match loops over the shelves and
      their products, then over the shelves, then the keyword groups, then
      the theme line. `roll` is the value `Math.random()` returned. */
  method GenerateReply(shop: ProductShop, input: string, roll: real) returns (r: Reply)
    requires 0.0 <= roll < 1.0
    ensures SelectsReply(shop, input, roll, r)
  {
    var lower := ToLower(input);
    var secs := shop.sections;
    var si := 0;
    while si < |secs|
      invariant 0 <= si <= |secs|
      invariant NoProductNamedBefore(lower, secs, si, 0)
    {
      var products := secs[si].products;
      var pi := 0;
      while pi < |products|
        invariant 0 <= pi <= |products|
        invariant NoProductNamedBefore(lower, secs, si, pi)
      {
        if Includes(lower, ToLower(products[pi].name)) {
          assert FirstProductNamed(lower, secs, si, pi);
          return ProductPitch(products[pi]);
        }
        pi := pi + 1;
      }
      si := si + 1;
    }
    assert !AnyProductNamed(lower, secs);

    si := 0;
    while si < |secs|
      invariant 0 <= si <= |secs|
      invariant forall sj :: 0 <= sj < si ==> !NamesSection(lower, secs[sj])
    {
      if Includes(lower, ToLower(secs[si].name)) {
        assert FirstSectionNamed(lower, secs, si);
        return SectionOverview(secs[si].name, |secs[si].products|);
      }
      si := si + 1;
    }

    if Includes(lower, "help") || Includes(lower, "recommend") {
      return OfferHelp;
    }
    if Includes(lower, "buy") || Includes(lower, "purchase") {
      return InviteToBuy;
    }
    if Includes(lower, "try on") || Includes(lower, "fit") {
      return ExplainTryOn;
    }
    var lines := ThemeLines(shop.theme);
    r := ThemeLine(lines[RandomIndex(roll, |lines|)]);
  }

  /** Two products named first are the same position: the rule leaves no
      choice of product. */
  lemma FirstProductNamedUnique(lower: string, sections: seq<ProductSection>, si: int, pi: int, sj: int, pj: int)
    requires FirstProductNamed(lower, sections, si, pi) && FirstProductNamed(lower, sections, sj, pj)
    ensures si == sj && pi == pj
  {
    assert !(si < sj || (si == sj && pi < pj));
    assert !(sj < si || (sj == si && pj < pi));
  }

  /** The reply rule is a function of the input: at most one reply meets it. */
  lemma SelectsReplyDeterministic(shop: ProductShop, input: string, roll: real, r1: Reply, r2: Reply)
    requires 0.0 <= roll < 1.0
    requires SelectsReply(shop, input, roll, r1) && SelectsReply(shop, input, roll, r2)
    ensures r1 == r2
  {
    var lower := ToLower(input);
    var secs := shop.sections;
    if r1.ProductPitch? {
      var si, pi :| FirstProductNamed(lower, secs, si, pi) && r1.product == secs[si].products[pi];
      var sj, pj :| FirstProductNamed(lower, secs, sj, pj) && r2.product == secs[sj].products[pj];
      FirstProductNamedUnique(lower, secs, si, pi, sj, pj);
    } else if r1.SectionOverview? {
      var si :| FirstSectionNamed(lower, secs, si)
        && r1.sectionName == secs[si].name && r1.itemCount == |secs[si].products|;
      var sj :| FirstSectionNamed(lower, secs, sj)
        && r2.sectionName == secs[sj].name && r2.itemCount == |secs[sj].products|;
      assert !(si < sj) && !(sj < si);
    }
  }

  /** Matching ignores the case of the input: an input and its lower-cased
      form select the same replies. */
  lemma SelectsReplyIgnoresCase(shop: ProductShop, input: string, roll: real, r: Reply)
    requires 0.0 <= roll < 1.0
    ensures SelectsReply(shop, input, roll, r) <==> SelectsReply(shop, ToLower(input), roll, r)
  {
    ToLowerIdempotent(input);
  }

  /** The stats part of handleVoiceInput: every voice turn adds exactly 3
      experience and nothing else, with no level check, so from a
      normalized state the result stays normalized (and agrees with the
      reference rule) exactly while the total stays below the threshold. */
  method HandleVoiceInput(shop: ProductShop, stats: PlayerStats, transcript: string, roll: real)
    returns (reply: Reply, newStats: PlayerStats)
    requires 0.0 <= roll < 1.0
    ensures SelectsReply(shop, transcript, roll, reply)
    ensures newStats == stats.(experience := stats.experience + 3)
    ensures Normalized(stats.level, stats.experience) ==>
      && (Normalized(newStats.level, newStats.experience) <==> stats.experience + 3 < Threshold(stats.level))
      && (((newStats.level, newStats.experience) == Resolve(stats.level, stats.experience + 3))
            <==> stats.experience + 3 < Threshold(stats.level))
  {
    reply := GenerateReply(shop, transcript, roll);
    newStats := stats.(experience := stats.experience + 3);
    if Normalized(stats.level, stats.experience) {
      UncheckedMatchesResolveIff(stats.level, stats.experience, 3);
    }
  }

  /** Buy `product` at its catalog price: the same rule as the 2D room,
      written out again here. */
  method HandlePurchase(stats: PlayerStats, product: Product) returns (outcome: PurchaseOutcome<PlayerStats>)
    ensures outcome.NotEnoughCoins? <==> stats.coins < product.price
    ensures outcome.NotEnoughCoins? ==> outcome.required == product.price && outcome.available == stats.coins
    ensures outcome.Purchased? ==>
      var s := outcome.newStats;
      && s.coins == stats.coins - product.price
      && s.coins >= 0
      && s.inventory == stats.inventory + [product]
      && s.achievements == stats.achievements
      && (s.level, s.experience) == ModuloLevelUp(stats.level, stats.experience + 20)
      && (s.level == stats.level || s.level == stats.level + 1)
      && outcome.leveledUp == (s.level == stats.level + 1)
    ensures outcome.Purchased? && Normalized(stats.level, stats.experience) ==>
      var s := outcome.newStats;
      && Normalized(s.level, s.experience)
      && (s.level, s.experience) == Resolve(stats.level, stats.experience + 20)
  {
    if stats.coins < product.price {
      return NotEnoughCoins(product.price, stats.coins);
    }
    var newStats := stats.(
      coins := stats.coins - product.price,
      experience := stats.experience + 20,
      inventory := stats.inventory + [product]);
    var leveledUp := false;
    if newStats.experience >= newStats.level * 100 {
      newStats := newStats.(level := newStats.level + 1);
      newStats := newStats.(experience := Js.Remainder(newStats.experience, 100));
      leveledUp := true;
    }
    if Normalized(stats.level, stats.experience) {
      ModuloMatchesResolve(stats.level, stats.experience, 20);
    }
    outcome := Purchased(newStats, leveledUp);
  }

  /** Try-on changes the displayed message only; it never commits stats. */
  method HandleTryOn(stats: PlayerStats, product: Product) returns (update: Option<PlayerStats>)
    ensures update == None
  {
    update := None;
  }
}
