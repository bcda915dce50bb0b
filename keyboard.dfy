/** Inline keyboards as the bot's builders produce them: an ordered list of
    (text, callback data) buttons, appended one at a time to a builder.
    The row layout chosen by `adjust(...)` is not part of this model. */
module Keyboard {
  import opened PyStr

  datatype Button = Button(text: string, data: string)

  /** aiogram's `InlineKeyboardBuilder`: `button(...)` appends, `as_markup()` hands the buttons out. */
  class KeyboardBuilder {
    var buttons: seq<Button>

    constructor ()
      ensures buttons == []
    {
      buttons := [];
    }

    method Add(text: string, data: string)
      modifies this
      ensures buttons == old(buttons) + [Button(text, data)]
    {
      buttons := buttons + [Button(text, data)];
    }

    function Markup(): seq<Button>
      reads this
    {
      buttons
    }
  }

  /** The part of a product row that keyboards show: its id and name. */
  datatype ProductRef = ProductRef(id: int, name: string)

  /** A cart query row `(product, cart_item)`: the product and `cart_item.product_id`. */
  datatype CartEntry = CartEntry(product: ProductRef, itemProductId: int)

  const MainPage := Button("🏠 Главное меню", "main_page")

  /** `f"{i}. {name[:20]}{'...' if len(name) > 20 else ''}"`. */
  function EntryLabel(i: int, name: string): string {
    IntToString(i) + ". " + Shorten(name, 20)
  }

  /** The label starts with the entry number and shows at most the first 20 characters
      of the name, with "..." exactly when characters were cut. */
  lemma EntryLabelShape(i: int, name: string)
    ensures var text := EntryLabel(i, name);
            var head := IntToString(i) + ". ";
            && text[..|head|] == head
            && (|name| <= 20 ==> text[|head|..] == name)
            && (|name| > 20 ==> text[|head|..] == name[..20] + "...")
  {
  }

  function ViewProductData(id: int): string {
    "view_product_" + IntToString(id)
  }

  /** The cart button of a product page: remove when the product is in the cart, else add. */
  function CartToggle(id: int, inCart: bool): Button {
    if inCart then Button("❌ Удалить из корзины", "remove_cart_" + IntToString(id))
    else Button("🛒 Добавить в корзину", "add_cart_" + IntToString(id))
  }

  /** The favourites button of a product page: remove when the product is a favourite, else add. */
  function FavoriteToggle(id: int, isFavorite: bool): Button {
    if isFavorite then Button("❌ Удалить из избранного", "remove_fav_" + IntToString(id))
    else Button("⭐ Добавить в избранное", "add_fav_" + IntToString(id))
  }

  lemma PrefixedIdInjective(p1: string, id1: int, p2: string, id2: int)
    requires p1 + IntToString(id1) == p2 + IntToString(id2)
    requires |p1| == |p2|
    ensures p1 == p2 && id1 == id2
  {
    var s := p1 + IntToString(id1);
    assert p1 == s[..|p1|];
    assert IntToString(id1) == s[|p1|..] == IntToString(id2);
    IntToStringInjective(id1, id2);
  }

  /** The callback data of a cart toggle determines both the product and the state it shows. */
  lemma CartToggleInjective(id1: int, inCart1: bool, id2: int, inCart2: bool)
    requires CartToggle(id1, inCart1).data == CartToggle(id2, inCart2).data
    ensures id1 == id2 && inCart1 == inCart2
  {
    assert CartToggle(id1, inCart1).data[0] == if inCart1 then 'r' else 'a';
    assert CartToggle(id2, inCart2).data[0] == if inCart2 then 'r' else 'a';
    if inCart1 {
      PrefixedIdInjective("remove_cart_", id1, "remove_cart_", id2);
    } else {
      PrefixedIdInjective("add_cart_", id1, "add_cart_", id2);
    }
  }

  /** The callback data of a favourites toggle determines both the product and the state it shows. */
  lemma FavoriteToggleInjective(id1: int, isFavorite1: bool, id2: int, isFavorite2: bool)
    requires FavoriteToggle(id1, isFavorite1).data == FavoriteToggle(id2, isFavorite2).data
    ensures id1 == id2 && isFavorite1 == isFavorite2
  {
    assert FavoriteToggle(id1, isFavorite1).data[0] == if isFavorite1 then 'r' else 'a';
    assert FavoriteToggle(id2, isFavorite2).data[0] == if isFavorite2 then 'r' else 'a';
    if isFavorite1 {
      PrefixedIdInjective("remove_fav_", id1, "remove_fav_", id2);
    } else {
      PrefixedIdInjective("add_fav_", id1, "add_fav_", id2);
    }
  }

  // ---------------------------------------------------------------------------
  // Favourites list: one group of four buttons per favourite

  /** The action row of one favourite: view, add to cart, remove from favourites. */
  function FavoriteActions(id: int): seq<Button> {
    [ Button("👁 Просмотр", ViewProductData(id)),
      Button("🛒 В корзину", "add_cart_" + IntToString(id)),
      Button("❌ Удалить", "remove_fav_" + IntToString(id)) ]
  }

  /** The i-th (1-based) favourite: its numbered label followed by its action row. */
  function FavoriteGroup(i: int, p: ProductRef): seq<Button> {
    [Button(EntryLabel(i, p.name), ViewProductData(p.id))] + FavoriteActions(p.id)
  }

  /** Every button of a favourite's group carries that favourite's id. */
  lemma FavoriteGroupIds(i: int, p: ProductRef)
    ensures forall b :: b in FavoriteGroup(i, p) ==>
              exists pre :: pre in ["view_product_", "add_cart_", "remove_fav_"] && b.data == pre + IntToString(p.id)
  {
    var g := FavoriteGroup(i, p);
    assert g[0].data == "view_product_" + IntToString(p.id);
    assert g[1].data == "view_product_" + IntToString(p.id);
    assert g[2].data == "add_cart_" + IntToString(p.id);
    assert g[3].data == "remove_fav_" + IntToString(p.id);
  }

  // Proof steps about sequences used by the lemmas above and below; they state
  // nothing about the bot itself.

  lemma SliceOfConcat<T>(a: seq<T>, b: seq<T>, lo: int, hi: int)
    requires 0 <= lo <= hi <= |a|
    ensures (a + b)[lo..hi] == a[lo..hi]
  {
  }

  lemma SliceOfConcat2<T>(a: seq<T>, b: seq<T>, lo: int, hi: int)
    requires lo == |a| && hi == |a| + |b|
    ensures (a + b)[lo..hi] == b
  {
  }

  lemma PrefixSnoc<T>(s: seq<T>, i: int)
    requires 0 <= i < |s|
    ensures s[..i + 1] == s[..i] + [s[i]]
  {
  }

  lemma ConcatAssoc<T>(a: seq<T>, b: seq<T>, c: seq<T>)
    ensures a + b + c == a + (b + c)
  {
  }

  /** The groups of the favourites list, numbered from 1 in list order. */
  function FavoriteGroups(results: seq<ProductRef>): (r: seq<Button>)
    ensures |r| == 4 * |results|
  {
    if results == [] then []
    else
      var n := |results| - 1;
      FavoriteGroups(results[..n]) + FavoriteGroup(n + 1, results[n])
  }

  /** The `i`-th group (from 0) sits at positions `4 * i` to `4 * i + 3`. */
  lemma {:induction false} FavoriteGroupAt(results: seq<ProductRef>, i: int)
    requires 0 <= i < |results|
    ensures FavoriteGroups(results)[4 * i..4 * i + 4] == FavoriteGroup(i + 1, results[i])
    decreases |results|
  {
    var n := |results| - 1;
    var prev, last := FavoriteGroups(results[..n]), FavoriteGroup(n + 1, results[n]);
    assert FavoriteGroups(results) == prev + last;
    if i < n {
      FavoriteGroupAt(results[..n], i);
      assert results[..n][i] == results[i];
      SliceOfConcat(prev, last, 4 * i, 4 * i + 4);
    } else {
      SliceOfConcat2(prev, last, 4 * i, 4 * i + 4);
    }
  }

  /** One favourite as both favourites keyboards add it: the numbered label, then the
      action row button by button. */
  method AddFavoriteGroup(kb: KeyboardBuilder, i: int, p: ProductRef)
    modifies kb
    ensures kb.buttons == old(kb.buttons) + FavoriteGroup(i, p)
  {
    ghost var before := kb.buttons;
    kb.Add(EntryLabel(i, p.name), ViewProductData(p.id));
    ghost var labelled := kb.buttons;
    var row := FavoriteActions(p.id);
    for k := 0 to |row|
      invariant kb.buttons == labelled + row[..k]
    {
      PrefixSnoc(row, k);
      kb.Add(row[k].text, row[k].data);
    }
    assert row[..|row|] == row;
    ConcatAssoc(before, [Button(EntryLabel(i, p.name), ViewProductData(p.id))], row);
  }

  /** The favourites loop of both favourites keyboards, numbering from 1. */
  method AddFavoriteGroups(kb: KeyboardBuilder, results: seq<ProductRef>)
    modifies kb
    ensures kb.buttons == old(kb.buttons) + FavoriteGroups(results)
  {
    ghost var before := kb.buttons;
    for i := 0 to |results|
      invariant kb.buttons == before + FavoriteGroups(results[..i])
    {
      PrefixSnoc(results, i);
      FavoriteGroupsSnoc(results[..i], results[i]);
      ghost var groups := FavoriteGroups(results[..i]);
      AddFavoriteGroup(kb, i + 1, results[i]);
      ConcatAssoc(before, groups, FavoriteGroup(i + 1, results[i]));
    }
    assert results[..|results|] == results;
  }

  /** Adding one more favourite appends its group and leaves the earlier groups alone. */
  lemma FavoriteGroupsSnoc(results: seq<ProductRef>, p: ProductRef)
    ensures FavoriteGroups(results + [p]) == FavoriteGroups(results) + FavoriteGroup(|results| + 1, p)
  {
    assert (results + [p])[..|results|] == results;
  }

  // ---------------------------------------------------------------------------
  // Cart list: a numbered label and a delete button per entry

  const DeleteText: string := "🗑 Удалить"

  /** Entry `i` (from 1) of a cart list: its label, then the delete button carrying `deletePrefix`. */
  function CartEntryButtons(i: int, e: CartEntry, deletePrefix: string): seq<Button> {
    [ Button(EntryLabel(i, e.product.name), ViewProductData(e.product.id)),
      Button(DeleteText, deletePrefix + IntToString(e.itemProductId)) ]
  }

  /** The entry buttons of a cart list, two per entry in query order. */
  function CartLines(results: seq<CartEntry>, deletePrefix: string): (r: seq<Button>)
    ensures |r| == 2 * |results|
  {
    if results == [] then []
    else
      var n := |results| - 1;
      CartLines(results[..n], deletePrefix) + CartEntryButtons(n + 1, results[n], deletePrefix)
  }

  lemma CartLinesSnoc(results: seq<CartEntry>, e: CartEntry, deletePrefix: string)
    ensures CartLines(results + [e], deletePrefix) == CartLines(results, deletePrefix) + CartEntryButtons(|results| + 1, e, deletePrefix)
  {
    assert (results + [e])[..|results|] == results;
  }

  lemma {:induction false} CartEntrySlice(results: seq<CartEntry>, deletePrefix: string, i: int)
    requires 0 <= i < |results|
    ensures CartLines(results, deletePrefix)[2 * i..2 * i + 2] == CartEntryButtons(i + 1, results[i], deletePrefix)
    decreases |results|
  {
    var n := |results| - 1;
    var prev, last := CartLines(results[..n], deletePrefix), CartEntryButtons(n + 1, results[n], deletePrefix);
    var r := CartLines(results, deletePrefix);
    assert r == prev + last;
    if i < n {
      CartEntrySlice(results[..n], deletePrefix, i);
      assert results[..n][i] == results[i];
      SliceOfConcat(prev, last, 2 * i, 2 * i + 2);
      assert r[2 * i..2 * i + 2] == prev[2 * i..2 * i + 2];
      assert r[2 * i..2 * i + 2] == CartEntryButtons(i + 1, results[i], deletePrefix);
    } else {
      SliceOfConcat2(prev, last, 2 * i, 2 * i + 2);
      assert r[2 * i..2 * i + 2] == last;
      assert i == n;
      assert r[2 * i..2 * i + 2] == CartEntryButtons(i + 1, results[i], deletePrefix);
    }
  }

  /** Entry `i` (from 0) sits at positions `2 * i` and `2 * i + 1`: its label opens a view of
      the product, and its delete button names the cart item's product. */
  lemma CartEntryAt(results: seq<CartEntry>, deletePrefix: string, i: int)
    requires 0 <= i < |results|
    ensures var r := CartLines(results, deletePrefix);
            && r[2 * i] == Button(EntryLabel(i + 1, results[i].product.name), ViewProductData(results[i].product.id))
            && r[2 * i + 1] == Button(DeleteText, deletePrefix + IntToString(results[i].itemProductId))
  {
    var r := CartLines(results, deletePrefix);
    CartEntrySlice(results, deletePrefix, i);
    assert r[2 * i] == r[2 * i..2 * i + 2][0] && r[2 * i + 1] == r[2 * i..2 * i + 2][1];
  }

  /** One cart entry as both cart keyboards add it: the label, then the delete button. */
  method AddCartEntry(kb: KeyboardBuilder, i: int, e: CartEntry, deletePrefix: string)
    modifies kb
    ensures kb.buttons == old(kb.buttons) + CartEntryButtons(i, e, deletePrefix)
  {
    kb.Add(EntryLabel(i, e.product.name), ViewProductData(e.product.id));
    kb.Add(DeleteText, deletePrefix + IntToString(e.itemProductId));
  }

  /** The entry loop of both cart keyboards, numbering from 1. */
  method AddCartLines(kb: KeyboardBuilder, results: seq<CartEntry>, deletePrefix: string)
    modifies kb
    ensures kb.buttons == old(kb.buttons) + CartLines(results, deletePrefix)
  {
    ghost var before := kb.buttons;
    for i := 0 to |results|
      invariant kb.buttons == before + CartLines(results[..i], deletePrefix)
    {
      PrefixSnoc(results, i);
      CartLinesSnoc(results[..i], results[i], deletePrefix);
      ghost var lines := CartLines(results[..i], deletePrefix);
      AddCartEntry(kb, i + 1, results[i], deletePrefix);
      ConcatAssoc(before, lines, CartEntryButtons(i + 1, results[i], deletePrefix));
    }
    assert results[..|results|] == results;
  }

  const Checkout := Button("💳 Оформить заказ", "checkout")
  const ToSearch := Button("🔍 К поиску", "search")

  // ---------------------------------------------------------------------------
  // Orders grouped by date

  /** An order row: its id and `total_sum` already rendered with `:.0f`. */
  datatype Order = Order(id: int, totalText: string)

  /** One `order_info` dict: the order and its optional `items_count`. */
  datatype OrderInfo = OrderInfo(order: Order, itemsCount: Option<int>)

  /** `order_info.get("items_count", 0)`. */
  function ItemsCount(info: OrderInfo): int {
    match info.itemsCount
    case Some(n) => n
    case None => 0
  }

  function OrderButton(info: OrderInfo): Button {
    Button("Заказ #" + IntToString(info.order.id) + " (" + IntToString(ItemsCount(info)) + " шт., "
             + info.order.totalText + " р.)",
           "order_details_" + IntToString(info.order.id))
  }

  /** One button per order, in list order. */
  function OrderButtons(infos: seq<OrderInfo>): (r: seq<Button>)
    ensures |r| == |infos|
    ensures forall i :: 0 <= i < |infos| ==> r[i] == OrderButton(infos[i])
  {
    if infos == [] then []
    else
      var n := |infos| - 1;
      var prev := OrderButtons(infos[..n]);
      assert forall i :: 0 <= i < n ==> infos[..n][i] == infos[i];
      prev + [OrderButton(infos[n])]
  }

  /** An order with no `items_count` is shown with 0 items. */
  lemma MissingItemsCountIsZero(o: Order)
    ensures OrderButton(OrderInfo(o, None)).text
         == "Заказ #" + IntToString(o.id) + " (0 шт., " + o.totalText + " р.)"
  {
  }

  /** The inner loop of both orders keyboards: one button per order of a date, in list order. */
  method AddOrderButtons(kb: KeyboardBuilder, dateOrders: seq<OrderInfo>)
    modifies kb
    ensures kb.buttons == old(kb.buttons) + OrderButtons(dateOrders)
  {
    ghost var before := kb.buttons;
    for k := 0 to |dateOrders|
      invariant kb.buttons == before + OrderButtons(dateOrders[..k])
    {
      var info := dateOrders[k];
      PrefixSnoc(dateOrders, k);
      assert dateOrders[..k + 1][..k] == dateOrders[..k];
      var itemsCount := ItemsCount(info);
      kb.Add("Заказ #" + IntToString(info.order.id) + " (" + IntToString(itemsCount) + " шт., "
               + info.order.totalText + " р.)",
             "order_details_" + IntToString(info.order.id));
    }
    assert dateOrders[..|dateOrders|] == dateOrders;
  }

  /** `m` is the largest key of `keys` in Python's string order. */
  predicate IsGreatest(m: string, keys: set<string>) {
    m in keys && forall k | k in keys :: !StrLess(m, k)
  }

  lemma {:induction false} GreatestExists(keys: set<string>)
    requires keys != {}
    ensures exists m :: IsGreatest(m, keys)
    decreases |keys|
  {
    var x :| x in keys;
    if keys != {x} {
      var rest := keys - {x};
      GreatestExists(rest);
      var m :| IsGreatest(m, rest);
      if StrLess(m, x) {
        forall k | k in keys ensures !StrLess(x, k) {
          if StrLess(x, k) {
            StrLessTransitive(m, x, k);
            StrLessIrreflexive(x);
          }
        }
        assert IsGreatest(x, keys);
      } else {
        StrLessIrreflexive(x);
        assert IsGreatest(m, keys);
      }
    } else {
      StrLessIrreflexive(x);
      assert IsGreatest(x, keys);
    }
  }

  lemma GreatestUnique(m1: string, m2: string, keys: set<string>)
    requires IsGreatest(m1, keys) && IsGreatest(m2, keys)
    ensures m1 == m2
  {
    if m1 != m2 {
      StrLessTotal(m1, m2);
    }
  }

  /** `sorted(keys, reverse=True)`. */
  ghost function Descending(keys: set<string>): seq<string>
    decreases |keys|
  {
    if keys == {} then []
    else
      GreatestExists(keys);
      var m :| IsGreatest(m, keys);
      [m] + Descending(keys - {m})
  }

  /** `Descending` lists every key exactly once, from the greatest down. */
  lemma {:induction false} DescendingSorted(keys: set<string>)
    ensures |Descending(keys)| == |keys|
    ensures forall d :: d in Descending(keys) <==> d in keys
    ensures forall i, j :: 0 <= i < j < |Descending(keys)| ==> StrLess(Descending(keys)[j], Descending(keys)[i])
    decreases |keys|
  {
    if keys != {} {
      var r := Descending(keys);
      var m := r[0];
      assert IsGreatest(m, keys);
      var rest := keys - {m};
      DescendingSorted(rest);
      assert r == [m] + Descending(rest);
      forall j | 0 < j < |r| ensures StrLess(r[j], m) {
        assert r[j] in rest;
        StrLessTotal(m, r[j]);
      }
    }
  }

  /** The date keys of `orders_by_date` in the order `sorted(..., reverse=True)` visits them. */
  method SortedDescending(keys: set<string>) returns (dates: seq<string>)
    ensures dates == Descending(keys)
  {
    dates := [];
    var rest := keys;
    while rest != {}
      invariant dates + Descending(rest) == Descending(keys)
      decreases |rest|
    {
      GreatestExists(rest);
      var m :| IsGreatest(m, rest);
      ghost var chosen := Descending(rest)[0];
      GreatestUnique(m, chosen, rest);
      dates := dates + [m];
      rest := rest - {m};
    }
  }

  /** The header of a date group; its callback data writes the date with '.' replaced by '_'. */
  function DateHeader(date: string): Button {
    Button("📅 " + date, "date_header_" + ReplaceChar(date, '.', '_'))
  }

  /** A date without '_' can be read back from its header's callback data. */
  lemma DateHeaderRoundTrip(date: string)
    requires '_' !in date
    ensures |DateHeader(date).data| >= 12
    ensures ReplaceChar(DateHeader(date).data[12..], '_', '.') == date
  {
    assert DateHeader(date).data[12..] == ReplaceChar(date, '.', '_');
    ReplaceCharBack(date, '.', '_');
  }

  predicate DatesKnown(dates: seq<string>, byDate: map<string, seq<OrderInfo>>) {
    forall i :: 0 <= i < |dates| ==> dates[i] in byDate
  }

  /** `sorted(orders_by_date.keys(), ...)` yields each key of the map once. */
  lemma DescendingDatesKnown(byDate: map<string, seq<OrderInfo>>)
    ensures DatesKnown(Descending(byDate.Keys), byDate)
    ensures |Descending(byDate.Keys)| == |byDate.Keys|
  {
    DescendingSorted(byDate.Keys);
  }

  /** The buttons for `dates` in that order: per date, its header when `headers` holds, then
      one button per order of that date in list order. */
  function DatedOrderButtons(dates: seq<string>, byDate: map<string, seq<OrderInfo>>, headers: bool): seq<Button>
    requires DatesKnown(dates, byDate)
  {
    if dates == [] then []
    else
      var n := |dates| - 1;
      DatedOrderButtons(dates[..n], byDate, headers)
      + (if headers then [DateHeader(dates[n])] else [])
      + OrderButtons(byDate[dates[n]])
  }

  /** The number of orders listed under `dates`. */
  function OrderCount(dates: seq<string>, byDate: map<string, seq<OrderInfo>>): nat
    requires DatesKnown(dates, byDate)
  {
    if dates == [] then 0 else OrderCount(dates[..|dates| - 1], byDate) + |byDate[dates[|dates| - 1]]|
  }

  /** One button per order, plus one header per date when headers are shown. */
  lemma {:induction false} DatedOrderButtonsCount(dates: seq<string>, byDate: map<string, seq<OrderInfo>>, headers: bool)
    requires DatesKnown(dates, byDate)
    ensures |DatedOrderButtons(dates, byDate, headers)| == OrderCount(dates, byDate) + (if headers then |dates| else 0)
  {
    if dates != [] {
      DatedOrderButtonsCount(dates[..|dates| - 1], byDate, headers);
    }
  }

  lemma DatedOrderButtonsSnoc(dates: seq<string>, byDate: map<string, seq<OrderInfo>>, headers: bool, d: string)
    requires DatesKnown(dates, byDate) && d in byDate
    ensures DatesKnown(dates + [d], byDate)
    ensures DatedOrderButtons(dates + [d], byDate, headers)
         == DatedOrderButtons(dates, byDate, headers) + (if headers then [DateHeader(d)] else []) + OrderButtons(byDate[d])
  {
    assert (dates + [d])[..|dates|] == dates;
  }

  /** The date loop of both orders keyboards: per date, its header when `headers` holds,
      then the date's orders. */
  method AddDatedOrders(kb: KeyboardBuilder, dates: seq<string>, byDate: map<string, seq<OrderInfo>>, headers: bool)
    requires DatesKnown(dates, byDate)
    modifies kb
    ensures kb.buttons == old(kb.buttons) + DatedOrderButtons(dates, byDate, headers)
  {
    ghost var before := kb.buttons;
    for i := 0 to |dates|
      invariant DatesKnown(dates[..i], byDate)
      invariant kb.buttons == before + DatedOrderButtons(dates[..i], byDate, headers)
    {
      var date := dates[i];
      PrefixSnoc(dates, i);
      DatedOrderButtonsSnoc(dates[..i], byDate, headers, date);
      ghost var listed := DatedOrderButtons(dates[..i], byDate, headers);
      ghost var header: seq<Button> := if headers then [DateHeader(date)] else [];
      if headers {
        kb.Add("📅 " + date, "date_header_" + ReplaceChar(date, '.', '_'));
      }
      assert kb.buttons == before + listed + header;
      AddOrderButtons(kb, byDate[date]);
      ConcatAssoc(before, listed, header);
      ConcatAssoc(before, listed + header, OrderButtons(byDate[date]));
    }
    assert dates[..|dates|] == dates;
  }

  predicate IsDateHeader(b: Button) {
    |b.data| >= 12 && b.data[..12] == "date_header_"
  }

  /** The buttons that are not date headers, in order. */
  function DropHeaders(bs: seq<Button>): (r: seq<Button>)
    ensures forall i :: 0 <= i < |r| ==> !IsDateHeader(r[i])
  {
    if bs == [] then []
    else
      var n := |bs| - 1;
      DropHeaders(bs[..n]) + (if IsDateHeader(bs[n]) then [] else [bs[n]])
  }

  lemma {:induction false} DropHeadersConcat(a: seq<Button>, b: seq<Button>)
    ensures DropHeaders(a + b) == DropHeaders(a) + DropHeaders(b)
    decreases |b|
  {
    if b != [] {
      var n := |b| - 1;
      assert (a + b)[..|a| + n] == a + b[..n];
      DropHeadersConcat(a, b[..n]);
    } else {
      assert a + b == a;
    }
  }

  lemma OrderButtonIsNotHeader(info: OrderInfo)
    ensures !IsDateHeader(OrderButton(info))
  {
    var data := OrderButton(info).data;
    assert data == "order_details_" + IntToString(info.order.id);
    assert data[0] == 'o';
  }

  /** Order buttons are never mistaken for headers. */
  lemma {:induction false} OrderButtonsKeptByDropHeaders(infos: seq<OrderInfo>)
    ensures DropHeaders(OrderButtons(infos)) == OrderButtons(infos)
  {
    if infos != [] {
      var n := |infos| - 1;
      var b := OrderButton(infos[n]);
      OrderButtonIsNotHeader(infos[n]);
      assert OrderButtons(infos) == OrderButtons(infos[..n]) + [b];
      OrderButtonsKeptByDropHeaders(infos[..n]);
      DropHeadersConcat(OrderButtons(infos[..n]), [b]);
      assert DropHeaders([b]) == [b] by {
        assert [b][..0] == [];
      }
    }
  }

  /** Without their headers, the buttons of the dated list are exactly the header-free list. */
  lemma {:induction false} HeadersDropped(dates: seq<string>, byDate: map<string, seq<OrderInfo>>)
    requires DatesKnown(dates, byDate)
    ensures DropHeaders(DatedOrderButtons(dates, byDate, true)) == DatedOrderButtons(dates, byDate, false)
  {
    if dates != [] {
      var n := |dates| - 1;
      var h := DateHeader(dates[n]);
      var prev := DatedOrderButtons(dates[..n], byDate, true);
      var orders := OrderButtons(byDate[dates[n]]);
      HeadersDropped(dates[..n], byDate);
      assert IsDateHeader(h);
      assert DropHeaders([h]) == [] by {
        assert [h][..0] == [];
      }
      DropHeadersConcat(prev, [h]);
      DropHeadersConcat(prev + [h], orders);
      OrderButtonsKeptByDropHeaders(byDate[dates[n]]);
    }
  }
}
