/** The second keyboard file (mdm_bot/utils/keyboards.py): the cart, the product page,
    the favourites list, the orders list and the help page. Against the first file
    the cart has no "clear" button and deletes with `remove_cart_`, the product page
    has no specifications or reviews, and the orders list has no date headers. */
module Keyboards {
  import opened PyStr
  import opened Keyboard
  import LegacyKeyboards

  const RemovePrefix: string := "remove_cart_"

  /** `get_cart_keyboard`: two buttons per entry, numbered from 1, then checkout and main page. */
  method GetCartKeyboard(results: seq<CartEntry>) returns (markup: seq<Button>)
    ensures markup == CartLines(results, RemovePrefix) + [Checkout, MainPage]
    ensures |markup| == 2 * |results| + 2
  {
    var kb := new KeyboardBuilder();
    AddCartLines(kb, results, RemovePrefix);
    ghost var lines := kb.buttons;
    assert lines == CartLines(results, RemovePrefix);
    kb.Add(Checkout.text, Checkout.data);
    kb.Add(MainPage.text, MainPage.data);
    markup := kb.Markup();
    assert markup == lines + [Checkout, MainPage];
  }

  /** Both cart keyboards label and open every entry alike; they differ only in the
      callback of the delete button. */
  lemma CartEntriesAgree(results: seq<CartEntry>, i: int)
    requires 0 <= i < |results|
    ensures CartLines(results, RemovePrefix)[2 * i] == CartLines(results, LegacyKeyboards.RemoveAllPrefix)[2 * i]
    ensures CartLines(results, RemovePrefix)[2 * i + 1].text == CartLines(results, LegacyKeyboards.RemoveAllPrefix)[2 * i + 1].text
    ensures CartLines(results, RemovePrefix)[2 * i + 1].data == RemovePrefix + IntToString(results[i].itemProductId)
    ensures CartLines(results, LegacyKeyboards.RemoveAllPrefix)[2 * i + 1].data
         == LegacyKeyboards.RemoveAllPrefix + IntToString(results[i].itemProductId)
  {
    CartEntryAt(results, RemovePrefix, i);
    CartEntryAt(results, LegacyKeyboards.RemoveAllPrefix, i);
  }

  /** The buttons of a product page: the two toggles, then search and main page. */
  function ProductPage(productId: int, isFav: bool, isCart: bool): seq<Button> {
    [CartToggle(productId, isCart), FavoriteToggle(productId, isFav), ToSearch, MainPage]
  }

  /** `get_product_keyboard`: the cart and favourites buttons follow the item's state. */
  method GetProductKeyboard(productId: int, isFav: bool, isCart: bool) returns (markup: seq<Button>)
    ensures markup == ProductPage(productId, isFav, isCart)
  {
    var kb := new KeyboardBuilder();
    if isCart {
      kb.Add("❌ Удалить из корзины", "remove_cart_" + IntToString(productId));
    } else {
      kb.Add("🛒 Добавить в корзину", "add_cart_" + IntToString(productId));
    }
    if isFav {
      kb.Add("❌ Удалить из избранного", "remove_fav_" + IntToString(productId));
    } else {
      kb.Add("⭐ Добавить в избранное", "add_fav_" + IntToString(productId));
    }
    kb.Add(ToSearch.text, ToSearch.data);
    kb.Add(MainPage.text, MainPage.data);
    markup := kb.Markup();
  }

  /** The newer product page is the older one without its specifications and reviews buttons. */
  lemma ProductPageDropsSpecsAndReviews(productId: int, isFav: bool, isCart: bool)
    ensures var older := LegacyKeyboards.ProductPage(productId, isFav, isCart);
            ProductPage(productId, isFav, isCart) == older[..2] + older[4..]
  {
  }

  /** `get_favorites_keyboard`: group `i` (from 0) fills positions `4 * i` to `4 * i + 3`,
      and the main-page button comes last. */
  method GetFavoritesKeyboard(results: seq<ProductRef>) returns (markup: seq<Button>)
    ensures |markup| == 4 * |results| + 1
    ensures forall i :: 0 <= i < |results| ==> markup[4 * i..4 * i + 4] == FavoriteGroup(i + 1, results[i])
    ensures markup[4 * |results|] == MainPage
  {
    var kb := new KeyboardBuilder();
    AddFavoriteGroups(kb, results);
    ghost var groups := kb.buttons;
    assert groups == FavoriteGroups(results);
    kb.Add(MainPage.text, MainPage.data);
    markup := kb.Markup();
    assert markup == groups + [MainPage];
    forall i | 0 <= i < |results|
      ensures markup[4 * i..4 * i + 4] == FavoriteGroup(i + 1, results[i])
    {
      FavoriteGroupAt(results, i);
      SliceOfConcat(groups, [MainPage], 4 * i, 4 * i + 4);
    }
  }

  /** `get_orders_keyboard`: the dates in descending string order, each as its
      orders without a header, then main page. */
  method GetOrdersKeyboard(byDate: map<string, seq<OrderInfo>>) returns (markup: seq<Button>)
    ensures DatesKnown(Descending(byDate.Keys), byDate)
    ensures markup == DatedOrderButtons(Descending(byDate.Keys), byDate, false) + [MainPage]
    ensures |markup| == OrderCount(Descending(byDate.Keys), byDate) + 1
  {
    var dates := SortedDescending(byDate.Keys);
    DescendingDatesKnown(byDate);
    var kb := new KeyboardBuilder();
    AddDatedOrders(kb, dates, byDate, false);
    DatedOrderButtonsCount(dates, byDate, false);
    ghost var listed := kb.buttons;
    kb.Add(MainPage.text, MainPage.data);
    markup := kb.Markup();
    assert markup == listed + [MainPage];
  }

  /** `get_help_keyboard`: only the main-page button, whoever asks. */
  method GetHelpKeyboard(userTelegramId: int) returns (markup: seq<Button>)
    ensures markup == [MainPage]
  {
    var kb := new KeyboardBuilder();
    kb.Add(MainPage.text, MainPage.data);
    markup := kb.Markup();
  }
}
