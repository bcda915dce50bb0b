/** The first keyboard file (kbs.py): the main menu, the cart, the product page, the
    favourites list and the orders list, each built by appending buttons to a builder.
    The favourite and cart look-ups of `product_kb` arrive as booleans. */
module LegacyKeyboards {
  import opened PyStr
  import opened Keyboard

  /** `main_kb`: the review button is commented out, so six entries remain. */
  const MainMenu: seq<Button> := [
    Button("Поиск", "search"),
    Button("Моя корзина", "cart"),
    Button("Избранное", "favorites"),
    Button("Профиль", "profile"),
    Button("Заказы", "orders"),
    Button("Помощь", "help")
  ]

  method MainKb() returns (markup: seq<Button>)
    ensures markup == MainMenu
    ensures |markup| == 6 && markup[5].data == "help"
  {
    var kb := new KeyboardBuilder();
    kb.Add("Поиск", "search");
    kb.Add("Моя корзина", "cart");
    kb.Add("Избранное", "favorites");
    kb.Add("Профиль", "profile");
    kb.Add("Заказы", "orders");
    kb.Add("Помощь", "help");
    markup := kb.Markup();
  }

  const RemoveAllPrefix: string := "remove_all_cart_"
  const ClearCart := Button("🧹 Очистить корзину", "clear_cart")

  /** `cart_kb`: two buttons per entry, numbered from 1, then checkout, clear and main page. */
  method CartKb(results: seq<CartEntry>) returns (markup: seq<Button>)
    ensures markup == CartLines(results, RemoveAllPrefix) + [Checkout, ClearCart, MainPage]
    ensures |markup| == 2 * |results| + 3
  {
    var kb := new KeyboardBuilder();
    AddCartLines(kb, results, RemoveAllPrefix);
    ghost var lines := kb.buttons;
    assert lines == CartLines(results, RemoveAllPrefix);
    kb.Add(Checkout.text, Checkout.data);
    kb.Add(ClearCart.text, ClearCart.data);
    kb.Add(MainPage.text, MainPage.data);
    markup := kb.Markup();
    assert markup == lines + [Checkout, ClearCart, MainPage];
  }

  /** The buttons of a product page: the two toggles, specifications, reviews, search, main page. */
  function ProductPage(productId: int, isFav: bool, isCart: bool): seq<Button> {
    [ CartToggle(productId, isCart),
      FavoriteToggle(productId, isFav),
      Button("📋 Характеристики", "specs_" + IntToString(productId)),
      Button("💬 Отзывы", "reviews_" + IntToString(productId)),
      ToSearch,
      MainPage ]
  }

  /** `product_kb`: the cart and favourites buttons follow the item's state. */
  method ProductKb(productId: int, isFav: bool, isCart: bool) returns (markup: seq<Button>)
    ensures markup == ProductPage(productId, isFav, isCart)
  {
    var kb := new KeyboardBuilder();
    if isCart {
      kb.Add("❌ Удалить из корзины", "remove_cart_" + IntToString(productId));
    } else {
      kb.Add("🛒 Добавить в корзину", "add_cart_" + IntToString(productId));
    }
    if isFav {
      kb.Add("❌ Удалить из избранного", "remove_fav_" + IntToString(productId));
    } else {
      kb.Add("⭐ Добавить в избранное", "add_fav_" + IntToString(productId));
    }
    kb.Add("📋 Характеристики", "specs_" + IntToString(productId));
    kb.Add("💬 Отзывы", "reviews_" + IntToString(productId));
    kb.Add(ToSearch.text, ToSearch.data);
    kb.Add(MainPage.text, MainPage.data);
    markup := kb.Markup();
  }

  /** Two product pages show the same first two buttons only for the same product in the
      same cart and favourites state. */
  lemma ProductPageShowsState(id1: int, fav1: bool, cart1: bool, id2: int, fav2: bool, cart2: bool)
    requires ProductPage(id1, fav1, cart1)[..2] == ProductPage(id2, fav2, cart2)[..2]
    ensures id1 == id2 && fav1 == fav2 && cart1 == cart2
  {
    assert ProductPage(id1, fav1, cart1)[0] == ProductPage(id2, fav2, cart2)[0];
    assert ProductPage(id1, fav1, cart1)[1] == ProductPage(id2, fav2, cart2)[1];
    CartToggleInjective(id1, cart1, id2, cart2);
    FavoriteToggleInjective(id1, fav1, id2, fav2);
  }

  /** `favorite_kb`: a numbered label and three actions per favourite, then main page. */
  method FavoriteKb(results: seq<ProductRef>) returns (markup: seq<Button>)
    ensures markup == FavoriteGroups(results) + [MainPage]
    ensures |markup| == 4 * |results| + 1
  {
    var kb := new KeyboardBuilder();
    AddFavoriteGroups(kb, results);
    ghost var groups := kb.buttons;
    assert groups == FavoriteGroups(results);
    kb.Add(MainPage.text, MainPage.data);
    markup := kb.Markup();
    assert markup == groups + [MainPage];
  }

  const ContactManager := Button("📱 Связаться с менеджером", "contact_manager")
  const Refresh := Button("🔄 Обновить", "orders")

  /** `orders_kb`: the dates in descending string order, each as a header
      followed by its orders, then contact, refresh and main page. */
  method OrdersKb(byDate: map<string, seq<OrderInfo>>) returns (markup: seq<Button>)
    ensures DatesKnown(Descending(byDate.Keys), byDate)
    ensures markup == DatedOrderButtons(Descending(byDate.Keys), byDate, true) + [ContactManager, Refresh, MainPage]
    ensures |markup| == OrderCount(Descending(byDate.Keys), byDate) + |byDate.Keys| + 3
  {
    var dates := SortedDescending(byDate.Keys);
    DescendingDatesKnown(byDate);
    var kb := new KeyboardBuilder();
    AddDatedOrders(kb, dates, byDate, true);
    DatedOrderButtonsCount(dates, byDate, true);
    ghost var listed := kb.buttons;
    assert listed == DatedOrderButtons(Descending(byDate.Keys), byDate, true);
    assert |listed| == OrderCount(dates, byDate) + |byDate.Keys|;
    kb.Add(ContactManager.text, ContactManager.data);
    kb.Add(Refresh.text, Refresh.data);
    kb.Add(MainPage.text, MainPage.data);
    markup := kb.Markup();
    assert markup == listed + [ContactManager, Refresh, MainPage];
  }
}
