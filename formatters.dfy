/** Text of the product card and of the main page (mdm_bot/utils/formatters.py).
    Prices are floats in the bot; here they arrive already rendered as text. */
module Formatters {
  import opened PyStr

  /** The product fields a card shows. `description` is a nullable column. */
  datatype CardProduct = CardProduct(
    name: string,
    vendorCode: string,
    priceText: string,
    vendor: string,
    availability: string,
    description: Option<string>,
    model: string,
    isBestseller: bool)

  datatype User = User(name: string)

  function BoldName(name: string): string {
    "<b>" + name + "</b>"
  }

  /** The opening block: bold name, then article, price, vendor and availability lines. */
  function CardHeader(p: CardProduct): string {
    BoldName(p.name) + CardFacts(p)
  }

  /** The lines under the name: article, price, vendor and availability. */
  function CardFacts(p: CardProduct): string {
    "\n\n"
    + "📋 <b>Информация о товаре:</b>\n"
    + "📊 Артикул: " + p.vendorCode + "\n"
    + "💰 Цена: " + p.priceText + " руб.\n"
    + "🏭 Производитель: " + p.vendor + "\n"
    + "📦 Наличие: " + p.availability + "\n\n"
  }

  /** `if product.description:` is false for NULL and for the empty string. */
  predicate HasDescription(p: CardProduct) {
    p.description.Some? && p.description.value != ""
  }

  const DescriptionHeading: string := "📝 <b>Описание:</b>\n"
  const DescriptionLimit: nat := 300
  const BestsellerLine: string := "🔥 <b>ХИТ ПРОДАЖ!</b>\n\n"

  /** What the card shows of a description: its first 300 characters, and "..." when it is longer. */
  function ShownDescription(description: string): string {
    Shorten(description, DescriptionLimit)
  }

  function DescriptionSection(p: CardProduct): string {
    if HasDescription(p) then DescriptionHeading + ShownDescription(p.description.value) + "\n\n" else ""
  }

  function ModelLine(p: CardProduct): string {
    "⚙️ Модель: " + p.model + "\n"
  }

  /** The card as its sections put together. */
  function ProductCard(p: CardProduct): string {
    CardHeader(p) + DescriptionSection(p) + ModelLine(p) + (if p.isBestseller then BestsellerLine else "")
  }

  /** `format_product_card`: the card is built section by section. */
  method FormatProductCard(p: CardProduct) returns (card: string)
    ensures card == ProductCard(p)
  {
    card := CardHeader(p);
    if HasDescription(p) {
      card := card + (DescriptionHeading + ShownDescription(p.description.value) + "\n\n");
    } else {
      assert card + DescriptionSection(p) == card;
    }
    card := card + ModelLine(p);
    if p.isBestseller {
      card := card + BestsellerLine;
    } else {
      assert card + "" == card;
    }
  }

  /** Every card opens with the product's name in bold. */
  lemma CardOpensWithName(p: CardProduct)
    ensures OccursAt(ProductCard(p), BoldName(p.name), 0)
  {
    var name, h, ds, m := BoldName(p.name), CardHeader(p), DescriptionSection(p), ModelLine(p);
    OccursAtStart(name, CardFacts(p));
    OccursExtendRight(h, name, 0, ds);
    OccursExtendRight(h + ds, name, 0, m);
    OccursExtendRight(h + ds + m, name, 0, if p.isBestseller then BestsellerLine else "");
  }

  /** When there is a description, the description heading comes right after the opening
      block, followed by the shown description. */
  lemma CardDescriptionPlacement(p: CardProduct)
    ensures HasDescription(p) ==>
              && OccursAt(ProductCard(p), DescriptionHeading, |CardHeader(p)|)
              && OccursAt(ProductCard(p), ShownDescription(p.description.value), |CardHeader(p)| + |DescriptionHeading|)
  {
    if HasDescription(p) {
      var h, m := CardHeader(p), ModelLine(p);
      var b := if p.isBestseller then BestsellerLine else "";
      var shown := ShownDescription(p.description.value);
      var ds := DescriptionHeading + shown + "\n\n";
      assert ProductCard(p) == h + ds + m + b;
      OccursAtStart(DescriptionHeading, shown);
      OccursExtendRight(DescriptionHeading + shown, DescriptionHeading, 0, "\n\n");
      OccursExtendLeft(h, ds, DescriptionHeading, 0);
      OccursExtendRight(h + ds, DescriptionHeading, |h|, m);
      OccursExtendRight(h + ds + m, DescriptionHeading, |h|, b);
      OccursInConcat(DescriptionHeading, shown, "\n\n");
      OccursExtendLeft(h, ds, shown, |DescriptionHeading|);
      OccursExtendRight(h + ds, shown, |h| + |DescriptionHeading|, m);
      OccursExtendRight(h + ds + m, shown, |h| + |DescriptionHeading|, b);
    }
  }

  /** Without a description (NULL or empty) the model line comes right after the opening block. */
  lemma CardWithoutDescription(p: CardProduct)
    ensures !HasDescription(p) ==> OccursAt(ProductCard(p), ModelLine(p), |CardHeader(p)|)
  {
    if !HasDescription(p) {
      var h := CardHeader(p);
      assert h + DescriptionSection(p) == h;
      OccursInConcat(h, ModelLine(p), if p.isBestseller then BestsellerLine else "");
    }
  }

  /** The model line is always shown, after the description section. */
  lemma CardShowsModel(p: CardProduct)
    ensures OccursAt(ProductCard(p), ModelLine(p), |CardHeader(p)| + |DescriptionSection(p)|)
  {
    OccursInConcat(CardHeader(p) + DescriptionSection(p), ModelLine(p), if p.isBestseller then BestsellerLine else "");
  }

  /** A bestseller's card ends with the bestseller line; any other card ends with the model line. */
  lemma CardEnding(p: CardProduct)
    ensures var card := ProductCard(p);
            && (p.isBestseller ==> |card| >= |BestsellerLine| && card[|card| - |BestsellerLine|..] == BestsellerLine)
            && (!p.isBestseller ==> |card| >= |ModelLine(p)| && card[|card| - |ModelLine(p)|..] == ModelLine(p))
  {
  }

  /** The shown description keeps the first characters, up to 300, and gains "..." only when cut. */
  lemma ShownDescriptionShape(description: string)
    ensures var shown := ShownDescription(description);
            && (|description| <= 300 ==> shown == description)
            && (|description| > 300 ==> shown == description[..300] + "...")
  {
  }

  // ---------------------------------------------------------------------------
  // Main page

  function Greeting(user: Option<User>): string {
    match user
    case Some(u) => "👋 Здравствуйте, " + u.name + "!"
    case None => "👋 Здравствуйте!"
  }

  function CartLine(n: int): string {
    "🛒 Товаров в корзине: " + IntToString(n) + "\n"
  }

  function FavoritesLine(n: int): string {
    "⭐ Избранных товаров: " + IntToString(n) + "\n"
  }

  function OrdersLine(n: int): string {
    "📦 Активных заказов: " + IntToString(n) + "\n\n"
  }

  /** The store banner and the statistics heading, between the greeting and the counts. */
  const StatisticsHeading: string :=
    "\n\n"
    + "🛍 <b>MDM Store - ваш надежный поставщик</b>\n\n"
    + "📊 <b>Ваша статистика:</b>\n"

  /** The greeting followed by the store banner and the three counts. */
  function StatisticsBlock(user: Option<User>, cartCount: int, favoritesCount: int, ordersCount: int): string {
    Greeting(user) + StatisticsHeading
    + CartLine(cartCount)
    + FavoritesLine(favoritesCount)
    + OrdersLine(ordersCount)
  }

  const DeliveryLine: string := "• Бесплатная доставка при заказе от 5000 руб.\n\n"
  const Prompt: string := "Выберите действие на клавиатуре ниже 👇"

  /** What follows the statistics block on the main page. */
  const MainPageTail: string := DeliveryLine + Prompt

  /** `format_main_page_text`: the page opens with the greeting and closes with the
      delivery line and the prompt. */
  function FormatMainPageText(user: Option<User>, cartCount: int, favoritesCount: int, ordersCount: int): (text: string)
    ensures OccursAt(text, Greeting(user), 0)
    ensures OccursAt(text, MainPageTail, |text| - |MainPageTail|)
  {
    var block := StatisticsBlock(user, cartCount, favoritesCount, ordersCount);
    StatisticsBlockGreets(user, cartCount, favoritesCount, ordersCount);
    OccursExtendRight(block, Greeting(user), 0, MainPageTail);
    OccursInConcat(block, MainPageTail, []);
    assert block + MainPageTail + [] == block + MainPageTail;
    block + MainPageTail
  }

  /** The block opens with the greeting, which names the user when there is one. */
  lemma StatisticsBlockGreets(user: Option<User>, cartCount: int, favoritesCount: int, ordersCount: int)
    ensures var block := StatisticsBlock(user, cartCount, favoritesCount, ordersCount);
            && OccursAt(block, Greeting(user), 0)
            && (user.Some? ==> OccursAt(block, user.value.name, |"👋 Здравствуйте, "|))
  {
    var g := Greeting(user);
    var s1 := g + StatisticsHeading;
    var s2 := s1 + CartLine(cartCount);
    var s3 := s2 + FavoritesLine(favoritesCount);
    var t, i := g, 0;
    if user.Some? {
      OccursInConcat("👋 Здравствуйте, ", user.value.name, "!");
      t, i := user.value.name, |"👋 Здравствуйте, "|;
    }
    assert OccursAt(g, t, i) && OccursAt(g, g, 0);
    OccursExtendRight(g, t, i, StatisticsHeading);
    OccursExtendRight(g, g, 0, StatisticsHeading);
    OccursExtendRight(s1, t, i, CartLine(cartCount));
    OccursExtendRight(s1, g, 0, CartLine(cartCount));
    OccursExtendRight(s2, t, i, FavoritesLine(favoritesCount));
    OccursExtendRight(s2, g, 0, FavoritesLine(favoritesCount));
    OccursExtendRight(s3, t, i, OrdersLine(ordersCount));
    OccursExtendRight(s3, g, 0, OrdersLine(ordersCount));
  }

  /** The cart, favourites and orders counts appear in that order, at the end of the block. */
  lemma StatisticsBlockCountsInOrder(user: Option<User>, cartCount: int, favoritesCount: int, ordersCount: int)
    ensures var block := StatisticsBlock(user, cartCount, favoritesCount, ordersCount);
            var c, f, o := CartLine(cartCount), FavoritesLine(favoritesCount), OrdersLine(ordersCount);
            && |block| >= |c| + |f| + |o|
            && OccursAt(block, c, |block| - |o| - |f| - |c|)
            && OccursAt(block, f, |block| - |o| - |f|)
            && OccursAt(block, o, |block| - |o|)
  {
    var head := Greeting(user) + StatisticsHeading;
    var c, f, o := CartLine(cartCount), FavoritesLine(favoritesCount), OrdersLine(ordersCount);
    OccursInConcat(head, c, f);
    OccursExtendRight(head + c + f, c, |head|, o);
    OccursInConcat(head + c, f, o);
    OccursInConcat(head + c + f, o, []);
    assert head + c + f + o + [] == head + c + f + o;
  }

  /** The page opens with the greeting, which names the user when there is one. */
  lemma MainPageGreets(user: Option<User>, cartCount: int, favoritesCount: int, ordersCount: int)
    ensures var text := FormatMainPageText(user, cartCount, favoritesCount, ordersCount);
            && OccursAt(text, Greeting(user), 0)
            && (user.Some? ==> OccursAt(text, user.value.name, |"👋 Здравствуйте, "|))
  {
    var block := StatisticsBlock(user, cartCount, favoritesCount, ordersCount);
    StatisticsBlockGreets(user, cartCount, favoritesCount, ordersCount);
    OccursExtendRight(block, Greeting(user), 0, MainPageTail);
    if user.Some? {
      OccursExtendRight(block, user.value.name, |"👋 Здравствуйте, "|, MainPageTail);
    }
  }

  lemma CountLinesNonEmpty(cartCount: int, favoritesCount: int)
    ensures |CartLine(cartCount)| > 0 && |FavoritesLine(favoritesCount)| > 0
  {
  }

  /** Three pieces found in a text stay at their places when more text follows. */
  lemma InOrderExtend(s: string, c: string, f: string, o: string, i: int, j: int, k: int, tail: string)
    requires OccursAt(s, c, i) && OccursAt(s, f, j) && OccursAt(s, o, k)
    ensures OccursAt(s + tail, c, i) && OccursAt(s + tail, f, j) && OccursAt(s + tail, o, k)
  {
    OccursExtendRight(s, c, i, tail);
    OccursExtendRight(s, f, j, tail);
    OccursExtendRight(s, o, k, tail);
  }

  /** The cart, favourites and orders counts appear in that order. */
  lemma MainPageCountsInOrder(user: Option<User>, cartCount: int, favoritesCount: int, ordersCount: int)
    ensures var text := FormatMainPageText(user, cartCount, favoritesCount, ordersCount);
            exists i, j, k :: i < j < k
              && OccursAt(text, CartLine(cartCount), i)
              && OccursAt(text, FavoritesLine(favoritesCount), j)
              && OccursAt(text, OrdersLine(ordersCount), k)
  {
    var block := StatisticsBlock(user, cartCount, favoritesCount, ordersCount);
    var c, f, o := CartLine(cartCount), FavoritesLine(favoritesCount), OrdersLine(ordersCount);
    StatisticsBlockCountsInOrder(user, cartCount, favoritesCount, ordersCount);
    CountLinesNonEmpty(cartCount, favoritesCount);
    var i, j, k := |block| - |o| - |f| - |c|, |block| - |o| - |f|, |block| - |o|;
    InOrderExtend(block, c, f, o, i, j, k, MainPageTail);
    var text := FormatMainPageText(user, cartCount, favoritesCount, ordersCount);
    assert text == block + MainPageTail;
    assert i < j < k && OccursAt(text, c, i) && OccursAt(text, f, j) && OccursAt(text, o, k);
  }
}
