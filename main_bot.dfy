/** The single-file bot (main.py): its three keyboards, the `add_fav_` id extraction, the
    vendor-code search and the favourites message. Database queries arrive as sequences
    of rows in query order. */
module MainBot {
  import opened PyStr
  import opened Keyboard
  import LegacyKeyboards

  /** `main_kb`: seven entries, ending with review and help. */
  const MainMenu: seq<Button> := [
    Button("Поиск", "search"),
    Button("Моя корзина", "cart"),
    Button("Избранное", "favorites"),
    Button("Профиль", "profile"),
    Button("Заказы", "orders"),
    Button("Оставить отзыв", "review"),
    Button("Помощь", "help")
  ]

  method MainKb() returns (markup: seq<Button>)
    ensures markup == MainMenu
    ensures |markup| == 7 && markup[5].data == "review" && markup[6].data == "help"
  {
    var kb := new KeyboardBuilder();
    kb.Add("Поиск", "search");
    kb.Add("Моя корзина", "cart");
    kb.Add("Избранное", "favorites");
    kb.Add("Профиль", "profile");
    kb.Add("Заказы", "orders");
    kb.Add("Оставить отзыв", "review");
    kb.Add("Помощь", "help");
    markup := kb.Markup();
  }

  /** The menu of kbs.py is this one with the review entry taken out. */
  lemma LegacyMenuDropsReview()
    ensures LegacyKeyboards.MainMenu == MainMenu[..5] + MainMenu[6..]
  {
  }

  /** `productNotFoundKb`: search again, or back to the main page. */
  method ProductNotFoundKb() returns (markup: seq<Button>)
    ensures markup == [Button("Искать еще раз", "search"), Button("Главное меню", "main_page")]
  {
    var kb := new KeyboardBuilder();
    kb.Add("Искать еще раз", "search");
    kb.Add("Главное меню", "main_page");
    markup := kb.Markup();
  }

  /** The buttons `productKb(product)` appends, in order. */
  function ProductActions(product: int): seq<Button> {
    [ Button("Добавить в избранное", "add_fav_" + IntToString(product)),
      Button("Добавить в корзину", "add_cart_" + IntToString(product)),
      Button("Вопрос по товару для менеджера", "answ_" + IntToString(product)),
      Button("Назад", "main_page") ]
  }

  method ProductKb(product: int) returns (markup: seq<Button>)
    ensures markup == ProductActions(product)
  {
    var kb := new KeyboardBuilder();
    kb.Add("Добавить в избранное", "add_fav_" + IntToString(product));
    kb.Add("Добавить в корзину", "add_cart_" + IntToString(product));
    kb.Add("Вопрос по товару для менеджера", "answ_" + IntToString(product));
    kb.Add("Назад", "main_page");
    markup := kb.Markup();
  }

  /** The three product buttons carry the product's id after distinct prefixes, so no two
      products and no two actions share callback data. */
  lemma ProductActionsDistinct(p: int, q: int, i: int, j: int)
    requires 0 <= i < 4 && 0 <= j < 4
    requires ProductActions(p)[i].data == ProductActions(q)[j].data
    ensures i == j && (i < 3 ==> p == q)
  {
    var a := ProductActions(p)[i].data;
    assert a[1] == (if i == 0 || i == 1 then 'd' else if i == 2 then 'n' else 'a');
    assert a[1] == (if j == 0 || j == 1 then 'd' else if j == 2 then 'n' else 'a');
    if i == 0 || i == 1 {
      assert a[4] == (if i == 0 then 'f' else 'c');
      assert a[4] == (if j == 0 then 'f' else 'c');
    }
    if i == 0 && j == 0 {
      PrefixedIdInjective("add_fav_", p, "add_fav_", q);
    } else if i == 1 && j == 1 {
      PrefixedIdInjective("add_cart_", p, "add_cart_", q);
    } else if i == 2 && j == 2 {
      PrefixedIdInjective("answ_", p, "answ_", q);
    }
  }

  /** `str(callback.data).split("_")[2]`: the product id as text, `None` where Python
      raises `IndexError`. The handler stores the text in an integer column. */
  function AddFavProductId(data: string): (r: Option<string>)
    ensures r.None? <==> |Split(data, '_')| < 3
    ensures r.Some? ==> '_' !in r.value
  {
    var parts := Split(data, '_');
    if |parts| < 3 then None else Some(parts[2])
  }

  /** Round trip: the handler reads back the decimal text of the id `productKb` wrote,
      and that text parses to the id. */
  lemma {:induction false} AddFavRoundTrip(p: int)
    ensures AddFavProductId(ProductActions(p)[0].data) == Some(IntToString(p))
    ensures ParseInt(AddFavProductId(ProductActions(p)[0].data).value) == Some(p)
  {
    var parts := ["add", "fav", IntToString(p)];
    SeparatorNotInIntText(p, '_');
    assert Join(parts[1..], '_') == "fav_" + IntToString(p) by {
      assert parts[1..][1..] == [IntToString(p)];
    }
    assert Join(parts, '_') == ProductActions(p)[0].data;
    SplitJoin(parts, '_');
    ParseIntToString(p);
  }

  // ---------------------------------------------------------------------------
  // Vendor-code search

  /** The columns of a product row the search answer shows. */
  datatype Product = Product(id: int, name: string, vendorCode: string, priceText: string, image: string)

  /** "Ошибка при поиске товара!", "Товары не найдены." or the product card. */
  datatype SearchOutcome = SearchError | NoProducts | Found(product: Product)

  /** The first row with a given id, as `.first()` returns it. */
  function FirstWithId(products: seq<Product>, id: int): (r: Option<Product>)
    ensures r.Some? ==> r.value in products && r.value.id == id
    ensures r.Some? ==> exists j :: 0 <= j < |products| && products[j] == r.value &&
                                    forall k :: 0 <= k < j ==> products[k].id != id
    ensures r.None? <==> forall k :: 0 <= k < |products| ==> products[k].id != id
  {
    if products == [] then None
    else if products[0].id == id then Some(products[0])
    else FirstWithId(products[1..], id)
  }

  /** SQLite stores integers in 64 bits; the driver refuses to bind a wider one. */
  const SqliteMinInt: int := -0x8000_0000_0000_0000
  const SqliteMaxInt: int := 0x7FFF_FFFF_FFFF_FFFF

  predicate InSqliteRange(n: int) {
    SqliteMinInt <= n <= SqliteMaxInt
  }

  /** `process_vendor_code_search` as written: the text the user sends as an article
      number is parsed with `int(...)` and compared with the product's id. A message
      without text (`None`), text that is not an integer, and an integer the SQLite driver
      cannot bind all raise inside the `try` and give "Ошибка при поиске товара!". */
  function SearchAsWritten(products: seq<Product>, text: Option<string>): (r: SearchOutcome)
    ensures r == SearchError <==>
              text.None? || ParseInt(text.value).None? || !InSqliteRange(ParseInt(text.value).value)
    ensures r.Found? ==>
              && text.Some? && ParseInt(text.value).Some?
              && r.product in products && r.product.id == ParseInt(text.value).value
    ensures r == NoProducts <==>
              && text.Some? && ParseInt(text.value).Some? && InSqliteRange(ParseInt(text.value).value)
              && forall k :: 0 <= k < |products| ==> products[k].id != ParseInt(text.value).value
  {
    match text
    case None => SearchError
    case Some(t) =>
      match ParseInt(t)
      case None => SearchError
      case Some(n) =>
        if !InSqliteRange(n) then SearchError
        else
          match FirstWithId(products, n)
          case Some(p) => Found(p)
          case None => NoProducts
  }

  /** A row whose id lies outside SQLite's 64-bit range is never found by its id: the
      search answers with the error message instead. */
  lemma WideIdIsError(products: seq<Product>, n: int)
    requires !InSqliteRange(n)
    ensures SearchAsWritten(products, Some(IntToString(n))) == SearchError
  {
    ParseIntToString(n);
  }

  /** The first row with a given vendor code. */
  function FirstWithVendorCode(products: seq<Product>, code: string): (r: Option<Product>)
    ensures r.Some? ==> r.value in products && r.value.vendorCode == code
    ensures r.Some? ==> exists j :: 0 <= j < |products| && products[j] == r.value &&
                                    forall k :: 0 <= k < j ==> products[k].vendorCode != code
    ensures r.None? <==> forall k :: 0 <= k < |products| ==> products[k].vendorCode != code
  {
    if products == [] then None
    else if products[0].vendorCode == code then Some(products[0])
    else FirstWithVendorCode(products[1..], code)
  }

  /** The search as the newer user router does it: the stripped text is looked up as a
      vendor code, and no input is an error. */
  function SearchByVendorCode(products: seq<Product>, text: string): (r: SearchOutcome)
    ensures r != SearchError
    ensures r.Found? ==> r.product in products && r.product.vendorCode == Strip(text)
    ensures r == NoProducts <==> forall k :: 0 <= k < |products| ==> products[k].vendorCode != Strip(text)
  {
    match FirstWithVendorCode(products, Strip(text))
    case Some(p) => Found(p)
    case None => NoProducts
  }

  /** The article number "123" typed by a user, as `int(...)` and `strip()` read it. */
  lemma ArticleText()
    ensures ParseInt("123") == Some(123)
    ensures Strip("123") == "123"
  {
    ParseIntToString(123);
    assert IntToString(123) == "123";
    StripFixed("123");
  }

  /** The prompt asks for an article number, but the as-written search misses a product
      whose article number is typed exactly, while the vendor-code search finds it. */
  lemma SearchComparesIdNotVendorCode()
    ensures var drill := Product(7, "Дрель", "123", "4990.0", "");
            && SearchAsWritten([drill], Some("123")) == NoProducts
            && SearchByVendorCode([drill], "123") == Found(drill)
  {
    var drill := Product(7, "Дрель", "123", "4990.0", "");
    ArticleText();
    assert FirstWithId([drill], 123) == None;
    assert FirstWithVendorCode([drill], "123") == Some(drill);
  }

  /** With distinct vendor codes, every product is found by its own code, however much
      white space surrounds it in the message. */
  lemma {:induction false} VendorCodeFindsProduct(products: seq<Product>, i: int, before: string, after: string)
    requires 0 <= i < |products|
    requires forall k, m :: 0 <= k < m < |products| ==> products[k].vendorCode != products[m].vendorCode
    requires Strip(products[i].vendorCode) == products[i].vendorCode
    requires forall k :: 0 <= k < |before| ==> IsSpace(before[k])
    requires forall k :: 0 <= k < |after| ==> IsSpace(after[k])
    ensures SearchByVendorCode(products, before + products[i].vendorCode + after) == Found(products[i])
  {
    var code := products[i].vendorCode;
    StripPadded(before, code, after);
    var r := FirstWithVendorCode(products, code);
    assert products[i].vendorCode == code;
    var k :| 0 <= k < |products| && products[k] == r.value;
    assert k == i by {
      assert products[k].vendorCode == products[i].vendorCode;
    }
  }

  // ---------------------------------------------------------------------------
  // The favourites message

  /** A favourite product as the message shows it. */
  datatype Favorite = Favorite(name: string, priceText: string)

  const EmptyFavorites: string := "В списке избранного пусто("
  const FavoritesHeading: string := "⭐ Ваши избранные товары:\n\n"

  function FavoriteLine(p: Favorite): string {
    "🔹 " + p.name + " - " + p.priceText + " руб.\n"
  }

  /** One line per product, in query order. */
  function FavoriteLines(products: seq<Favorite>): string {
    if products == [] then ""
    else FavoriteLines(products[..|products| - 1]) + FavoriteLine(products[|products| - 1])
  }

  /** The answer: the empty-list text with the main menu, or the list without a keyboard. */
  datatype FavoritesReply = EmptyList(text: string, markup: seq<Button>) | Listing(text: string)

  method FavoritesList(products: seq<Favorite>) returns (reply: FavoritesReply)
    ensures products == [] ==> reply == EmptyList(EmptyFavorites, MainMenu)
    ensures products != [] ==> reply == Listing(FavoritesHeading + FavoriteLines(products))
  {
    if products == [] {
      var markup := MainKb();
      return EmptyList(EmptyFavorites, markup);
    }
    var message := FavoritesHeading;
    var i := 0;
    while i < |products|
      invariant 0 <= i <= |products|
      invariant message == FavoritesHeading + FavoriteLines(products[..i])
    {
      assert products[..i + 1][..i] == products[..i];
      message := message + FavoriteLine(products[i]);
      i := i + 1;
    }
    assert products[..|products|] == products;
    reply := Listing(message);
  }

  /** The lines of two lists of products are the lines of each in turn. */
  lemma {:induction false} FavoriteLinesAppend(a: seq<Favorite>, b: seq<Favorite>)
    ensures FavoriteLines(a + b) == FavoriteLines(a) + FavoriteLines(b)
    decreases |b|
  {
    if b == [] {
      assert a + b == a;
    } else {
      var ab := a + b;
      var b' := b[..|b| - 1];
      var line := FavoriteLine(b[|b| - 1]);
      assert ab[..|ab| - 1] == a + b';
      assert ab[|ab| - 1] == b[|b| - 1];
      assert FavoriteLines(ab) == FavoriteLines(a + b') + line;
      FavoriteLinesAppend(a, b');
      ConcatAssoc(FavoriteLines(a), FavoriteLines(b'), line);
    }
  }

  /** Product `i`'s line stands right after the lines of the products before it, so the
      message lists every favourite once, in query order. */
  lemma FavoriteLineAt(products: seq<Favorite>, i: int)
    requires 0 <= i < |products|
    ensures OccursAt(FavoriteLines(products), FavoriteLine(products[i]), |FavoriteLines(products[..i])|)
  {
    var rest := products[i + 1..];
    assert products == products[..i] + [products[i]] + rest;
    FavoriteLinesAppend(products[..i] + [products[i]], rest);
    FavoriteLinesAppend(products[..i], [products[i]]);
    assert FavoriteLines([products[i]]) == FavoriteLine(products[i]) by {
      assert [products[i]][..0] == [];
    }
    OccursInConcat(FavoriteLines(products[..i]), FavoriteLine(products[i]), FavoriteLines(rest));
  }
}
