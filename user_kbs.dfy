/** The keyboards of the newer user bot (bot/user/kbs.py) and the decoding of the
    favourites callbacks they emit, as the user router reads them back. */
module UserKeyboards {
  import opened PyStr
  import opened Keyboard

  /** `main_user_kb`: favourites, search and support (the support label has two spaces). */
  const MainUserMenu: seq<Button> := [
    Button("👤 Избранное", "favorites"),
    Button("🛍 Поиск по товарам", "search"),
    Button("📞  Поддержка", "support")
  ]

  method MainUserKb() returns (markup: seq<Button>)
    ensures markup == MainUserMenu
    ensures |markup| == 3
    ensures markup[0].data == "favorites" && markup[1].data == "search" && markup[2].data == "support"
  {
    var kb := new KeyboardBuilder();
    kb.Add("👤 Избранное", "favorites");
    kb.Add("🛍 Поиск по товарам", "search");
    kb.Add("📞  Поддержка", "support");
    markup := kb.Markup();
  }

  const Home := Button("🏠 На главную", "home")

  /** `f"buy_{product_id}_{price}"`; the price arrives as the text Python prints for it. */
  function BuyData(productId: int, priceText: string): string {
    "buy_" + IntToString(productId) + "_" + priceText
  }

  /** `removefav_{id}` for a favourite, else `addfav_{id}`. */
  function FavoriteData(productId: int, isFavorite: bool): string {
    (if isFavorite then "removefav_" else "addfav_") + IntToString(productId)
  }

  /** The buttons `product_kb` appends, in order. */
  function ProductButtons(productId: int, priceText: string, isFavorite: bool): seq<Button> {
    [ Button("💸 Купить", BuyData(productId, priceText)),
      if isFavorite then Button("❌ Удалить из избранного", FavoriteData(productId, true))
      else Button("⭐ В избранное", FavoriteData(productId, false)),
      Home ]
  }

  method ProductKb(productId: int, priceText: string, isFavorite: bool) returns (markup: seq<Button>)
    ensures markup == ProductButtons(productId, priceText, isFavorite)
  {
    var kb := new KeyboardBuilder();
    kb.Add("💸 Купить", "buy_" + IntToString(productId) + "_" + priceText);
    if isFavorite {
      kb.Add("❌ Удалить из избранного", "removefav_" + IntToString(productId));
    } else {
      kb.Add("⭐ В избранное", "addfav_" + IntToString(productId));
    }
    kb.Add(Home.text, Home.data);
    markup := kb.Markup();
  }

  /** A product keyboard has exactly three buttons: buy, one favourites toggle, home; the
      toggle removes exactly when the product is already a favourite. */
  lemma ProductButtonsShape(productId: int, priceText: string, isFavorite: bool)
    ensures var b := ProductButtons(productId, priceText, isFavorite);
            && |b| == 3
            && b[0].data == BuyData(productId, priceText)
            && ("removefav_" <= b[1].data <==> isFavorite)
            && ("addfav_" <= b[1].data <==> !isFavorite)
            && b[2] == Home
  {
    var d := FavoriteData(productId, isFavorite);
    if isFavorite {
      assert d[0] == 'r';
    } else {
      assert d[0] == 'a';
    }
  }

  /** The buy data splits on "_" into "buy", the product id and the price, as long as the
      price text itself has no underscore (Python never prints one in a number). */
  lemma BuyDataFields(productId: int, priceText: string)
    requires '_' !in priceText
    ensures Split(BuyData(productId, priceText), '_') == ["buy", IntToString(productId), priceText]
  {
    var parts := ["buy", IntToString(productId), priceText];
    SeparatorNotInIntText(productId, '_');
    assert Join(parts[1..], '_') == IntToString(productId) + "_" + priceText by {
      assert parts[1..][1..] == [priceText];
    }
    assert Join(parts, '_') == BuyData(productId, priceText);
    SplitJoin(parts, '_');
  }

  /** A pay button or a callback button of an explicitly laid out keyboard. */
  datatype InlineButton = Pay(text: string) | Callback(text: string, data: string)

  /** `get_product_buy_kb`: a pay row, then a cancel row. */
  function ProductBuyKb(priceText: string): (rows: seq<seq<InlineButton>>)
    ensures |rows| == 2 && |rows[0]| == 1 && |rows[1]| == 1
    ensures rows[0][0].Pay? && OccursAt(rows[0][0].text, priceText, |"Оплатить "|)
    ensures rows[1][0] == Callback("Отменить", "home")
  {
    var pay := "Оплатить " + priceText + "₽";
    assert pay[|"Оплатить "|..|"Оплатить "| + |priceText|] == priceText;
    [[Pay(pay)], [Callback("Отменить", "home")]]
  }

  /** What the user router does with a favourites callback. */
  datatype FavoriteAction = AddFavorite(productId: int) | RemoveFavorite(productId: int)

  /** `int(data.split("_")[1])`, with `None` where Python raises: an id is read only from
      data that has a "_" and a digit. */
  function IdField(data: string): (r: Option<int>)
    ensures r.Some? ==> '_' in data && exists k :: 0 <= k < |data| && IsDigit(data[k])
  {
    var parts := Split(data, '_');
    if |parts| < 2 then None
    else if ParseInt(parts[1]).None? then None
    else
      SecondFieldDigit(data);
      ParseInt(parts[1])
  }

  lemma SecondFieldDigit(data: string)
    requires |Split(data, '_')| >= 2 && ParseInt(Split(data, '_')[1]).Some?
    ensures '_' in data && exists k :: 0 <= k < |data| && IsDigit(data[k])
  {
    var field := Split(data, '_')[1];
    ParseIntHasDigit(field);
    var k :| 0 <= k < |field| && IsDigit(field[k]);
    SplitPartChars(data, '_', 1, k);
    var m :| 0 <= m < |data| && data[m] == field[k];
    assert IsDigit(data[m]);
  }

  /** The handlers registered for `startswith("addfav_")` and `startswith("removefav_")`:
      the action follows the tag, the product is the id field, and there is no action for
      data neither handler takes or whose id does not parse. */
  function DecodeFavoriteCallback(data: string): (r: Option<FavoriteAction>)
    ensures r.Some? ==> IdField(data) == Some(r.value.productId)
    ensures r.Some? && r.value.AddFavorite? ==> "addfav_" <= data
    ensures r.Some? && r.value.RemoveFavorite? ==> "removefav_" <= data && !("addfav_" <= data)
    ensures r.None? <==> !("addfav_" <= data || "removefav_" <= data) || IdField(data).None?
  {
    if "addfav_" <= data then
      match IdField(data)
      case Some(id) => Some(AddFavorite(id))
      case None => None
    else if "removefav_" <= data then
      match IdField(data)
      case Some(id) => Some(RemoveFavorite(id))
      case None => None
    else None
  }

  lemma {:induction false} IdFieldOfPrefixedId(tag: string, productId: int)
    requires '_' !in tag
    ensures IdField(tag + "_" + IntToString(productId)) == Some(productId)
  {
    var parts := [tag, IntToString(productId)];
    SeparatorNotInIntText(productId, '_');
    assert Join(parts, '_') == tag + "_" + IntToString(productId);
    SplitJoin(parts, '_');
    ParseIntToString(productId);
  }

  /** Round trip: the router recovers from the toggle's data both the product id and the
      action the button offers. */
  lemma FavoriteCallbackRoundTrip(productId: int, isFavorite: bool)
    ensures DecodeFavoriteCallback(FavoriteData(productId, isFavorite))
            == Some(if isFavorite then RemoveFavorite(productId) else AddFavorite(productId))
  {
    var d := FavoriteData(productId, isFavorite);
    if isFavorite {
      assert d == "removefav" + "_" + IntToString(productId);
      IdFieldOfPrefixedId("removefav", productId);
      assert d[0] == 'r';
    } else {
      assert d == "addfav" + "_" + IntToString(productId);
      IdFieldOfPrefixedId("addfav", productId);
    }
  }

  /** Data without a digit after the tag is rejected rather than read as some product. */
  lemma FavoriteCallbackNeedsId(tag: string, rest: string)
    requires tag == "addfav" || tag == "removefav"
    requires forall k :: 0 <= k < |rest| ==> !IsDigit(rest[k])
    ensures DecodeFavoriteCallback(tag + "_" + rest) == None
  {
    SplitAfterField(tag, '_', rest);
    var field := Split(rest, '_')[0];
    assert IdField(tag + "_" + rest) == ParseInt(field);
    SplitFirst(rest, '_');
    assert field <= rest;
    ParseIntNeedsDigit(field);
  }
}
