/** The older text helpers (utils.py): a product card identical to the one in
    `Formatters`, and a main-page text with a special-offers block that the helper
    computes and then drops, since its body ends without a `return`. */
module LegacyUtils {
  import opened PyStr
  import Formatters

  /** `make_product_card`: built section by section, exactly as `format_product_card` does. */
  method MakeProductCard(p: Formatters.CardProduct) returns (card: string)
    ensures card == Formatters.ProductCard(p)
  {
    card := Formatters.CardHeader(p);
    if Formatters.HasDescription(p) {
      card := card + (Formatters.DescriptionHeading + Formatters.ShownDescription(p.description.value) + "\n\n");
    } else {
      assert card + Formatters.DescriptionSection(p) == card;
    }
    card := card + Formatters.ModelLine(p);
    if p.isBestseller {
      card := card + Formatters.BestsellerLine;
    } else {
      assert card + "" == card;
    }
  }

  const OffersBlock: string :=
    "📣 <b>Специальные предложения:</b>\n"
    + "• Скидка 10% на все товары до 30 мая\n"

  /** What follows the statistics block: the special offers, then the same delivery line
      and prompt as the newer helper. */
  const LegacyTail: string := OffersBlock + Formatters.MainPageTail

  /** The text `make_main_page_text` assigns to `main_page_text`: the statistics block of
      the newer helper, then the special-offers block, the delivery line and the prompt.
      The offers block follows the statistics block, and taking it out leaves exactly the
      newer helper's text. */
  function LegacyMainPageText(user: Option<Formatters.User>, cartCount: int, favoritesCount: int, ordersCount: int): (text: string)
    ensures var n := |Formatters.StatisticsBlock(user, cartCount, favoritesCount, ordersCount)|;
            && OccursAt(text, OffersBlock, n)
            && text[..n] + text[n + |OffersBlock|..] == Formatters.FormatMainPageText(user, cartCount, favoritesCount, ordersCount)
  {
    var block := Formatters.StatisticsBlock(user, cartCount, favoritesCount, ordersCount);
    var tail := Formatters.MainPageTail;
    assert block + LegacyTail == block + OffersBlock + tail;
    CutMiddle(block, OffersBlock, tail);
    block + LegacyTail
  }

  /** `make_main_page_text` as written: the text is computed, and the function falls off
      its end, so every call yields `None`. */
  function MakeMainPageText(user: Option<Formatters.User>, cartCount: int, favoritesCount: int, ordersCount: int): (r: Option<string>)
    ensures r.None?
  {
    var mainPageText := LegacyMainPageText(user, cartCount, favoritesCount, ordersCount);
    None
  }

  /** The text is never empty, yet the caller receives nothing. */
  lemma MainPageTextIsLost(user: Option<Formatters.User>, cartCount: int, favoritesCount: int, ordersCount: int)
    ensures LegacyMainPageText(user, cartCount, favoritesCount, ordersCount) != ""
    ensures MakeMainPageText(user, cartCount, favoritesCount, ordersCount) != Some(LegacyMainPageText(user, cartCount, favoritesCount, ordersCount))
  {
    var block := Formatters.StatisticsBlock(user, cartCount, favoritesCount, ordersCount);
    Formatters.StatisticsBlockGreets(user, cartCount, favoritesCount, ordersCount);
    assert |block| >= |Formatters.Greeting(user)| > 0;
  }

  /** `make_main_page_text` with the evidently intended `return main_page_text`. */
  function MakeMainPageTextReturned(user: Option<Formatters.User>, cartCount: int, favoritesCount: int, ordersCount: int): (r: Option<string>)
    ensures r.Some?
    ensures OccursAt(r.value, Formatters.Greeting(user), 0)
    ensures user.Some? ==> OccursAt(r.value, user.value.name, |"👋 Здравствуйте, "|)
    ensures exists i, j, k :: i < j < k
              && OccursAt(r.value, Formatters.CartLine(cartCount), i)
              && OccursAt(r.value, Formatters.FavoritesLine(favoritesCount), j)
              && OccursAt(r.value, Formatters.OrdersLine(ordersCount), k)
  {
    var mainPageText := LegacyMainPageText(user, cartCount, favoritesCount, ordersCount);
    LegacyTextGreets(user, cartCount, favoritesCount, ordersCount);
    LegacyTextCountsInOrder(user, cartCount, favoritesCount, ordersCount);
    Some(mainPageText)
  }

  /** The legacy text opens with the greeting, naming the user when there is one. */
  lemma LegacyTextGreets(user: Option<Formatters.User>, cartCount: int, favoritesCount: int, ordersCount: int)
    ensures var text := LegacyMainPageText(user, cartCount, favoritesCount, ordersCount);
            && OccursAt(text, Formatters.Greeting(user), 0)
            && (user.Some? ==> OccursAt(text, user.value.name, |"👋 Здравствуйте, "|))
  {
    var block := Formatters.StatisticsBlock(user, cartCount, favoritesCount, ordersCount);
    Formatters.StatisticsBlockGreets(user, cartCount, favoritesCount, ordersCount);
    OccursExtendRight(block, Formatters.Greeting(user), 0, LegacyTail);
    if user.Some? {
      OccursExtendRight(block, user.value.name, |"👋 Здравствуйте, "|, LegacyTail);
    }
  }

  /** The legacy text shows the cart, favourites and orders counts in that order. */
  lemma LegacyTextCountsInOrder(user: Option<Formatters.User>, cartCount: int, favoritesCount: int, ordersCount: int)
    ensures var text := LegacyMainPageText(user, cartCount, favoritesCount, ordersCount);
            exists i, j, k :: i < j < k
              && OccursAt(text, Formatters.CartLine(cartCount), i)
              && OccursAt(text, Formatters.FavoritesLine(favoritesCount), j)
              && OccursAt(text, Formatters.OrdersLine(ordersCount), k)
  {
    var block := Formatters.StatisticsBlock(user, cartCount, favoritesCount, ordersCount);
    var c, f, o := Formatters.CartLine(cartCount), Formatters.FavoritesLine(favoritesCount), Formatters.OrdersLine(ordersCount);
    Formatters.StatisticsBlockCountsInOrder(user, cartCount, favoritesCount, ordersCount);
    Formatters.CountLinesNonEmpty(cartCount, favoritesCount);
    var i, j, k := |block| - |o| - |f| - |c|, |block| - |o| - |f|, |block| - |o|;
    Formatters.InOrderExtend(block, c, f, o, i, j, k, LegacyTail);
    var text := LegacyMainPageText(user, cartCount, favoritesCount, ordersCount);
    assert text == block + LegacyTail;
    assert i < j < k && OccursAt(text, c, i) && OccursAt(text, f, j) && OccursAt(text, o, k);
  }
}
