# mdm-bot core in Dafny

A Dafny model of the logic inside the MDM Store Telegram shop bot and its Mini App
catalogue API. The model covers:

- **CSV import normalisers** (`CsvImport`, `Convert`). These are the four cell
  normalisers (`convert_to_bool`, `extract_first_image`, `map_availability`,
  `check_if_bestseller`) and the column defaults `process_csv` applies to each row.
  Both importer scripts are covered, and the second copy is proved equal to the first
  on every input.
- **Message texts** (`Formatters`, `LegacyUtils`). These are the product card and the
  main-page statistics text, in both the current and the older helper file.
- **Catalogue API** (`CatalogueApi`). This covers `GET /api/products` (query bounds,
  `total_pages`, offset and limit over the id-ordered table), `GET /api/products/{id}`
  (404 when missing) and the CORS origin list.
- **Keyboards** (`Keyboard`, `LegacyKeyboards`, `Keyboards`, `UserKeyboards`,
  `MainBot`). aiogram's `InlineKeyboardBuilder` is a class whose `Add` appends one
  button. Every builder function is a method that appends through it: the main
  menus, cart, product page, favourites list, orders list grouped by date, help, and
  the user bot's buy keyboard. The user bot's pay keyboard is an
  `InlineKeyboardMarkup` literal in the source and is modelled as a literal list of
  rows.
- **Callback decoding.** The user router reads a product id back out of `addfav_` and
  `removefav_` data, and `main.py` reads one out of `add_fav_` data.
- **`main.py` handlers' pure parts.** These are the vendor-code search decision and
  the favourites message built in a loop.

`PyStr` holds the Python string and integer operations this code relies on, written
out in Dafny: `str.strip()`, `str.split(sep)`, `sep.join(...)`, `str(int)`, `int(str)`,
`str.lower()` on Latin and Cyrillic capitals, slicing with "...", and string ordering.

Database queries, `async` handlers and the Telegram API are outside the model.
Query results arrive as parameters:

- a sequence of rows in query order;
- booleans for "is in cart" and "is a favourite";
- a map from date to orders.

Float prices arrive already rendered as text.

## Model

| member | source | states |
|---|---|---|
| CsvImport.ConvertToBool | mdm_bot/scripts/import_csv.py:9-13 | false exactly when the lower-cased cell is "", "0", "false", "нет" or "no"; true for every other value |
| CsvImport.ExtractFirstImage | mdm_bot/scripts/import_csv.py:16-21 | None exactly for an empty cell; otherwise the stripped text before the first comma, which contains no comma |
| CsvImport.MapAvailability | mdm_bot/scripts/import_csv.py:24-28 | always "есть" or "нет"; "есть" exactly when the lower-cased cell is an in-stock spelling |
| CsvImport.CheckIfBestseller | mdm_bot/scripts/import_csv.py:31-33 | true exactly when the cell holds a non-whitespace character |
| CsvImport.ConvertToBoolIgnoresCase | mdm_bot/scripts/import_csv.py:11 | lower-casing a cell first never changes how it reads as a boolean |
| CsvImport.ConvertToBoolExamples | mdm_bot/scripts/import_csv.py:11 | "", "0", "FALSE", "Нет" and "No" read as false; "1", "да" and "True" read as true |
| CsvImport.MapAvailabilityIdempotent | mdm_bot/scripts/import_csv.py:24-28 | normalising an already normalised availability leaves it unchanged |
| CsvImport.InStockReadsTrue | mdm_bot/scripts/import_csv.py:9-28 | every cell that maps to "есть" also converts to true |
| CsvImport.BlankPicturesGiveEmptyImage | mdm_bot/scripts/import_csv.py:18-21 | a non-empty all-whitespace pictures cell gives the empty image "" rather than None |
| CsvImport.SingleImage | mdm_bot/scripts/import_csv.py:20-21 | a pictures cell without a comma gives that cell stripped |
| CsvImport.ProductFromRow | mdm_bot/scripts/import_csv.py:63-83 | a missing currency gives "RUR" and a missing unit gives "шт"; present currency and unit cells are copied. Availability is always "есть" or "нет". The image has no comma and is None when the column is missing. Missing bestseller or warranty cells give false |
| Convert.ConvertToBool | convert.py:6-10 | equal to the catalogue importer's `convert_to_bool` on every input |
| Convert.ExtractFirstImage | convert.py:12-17 | equal to the catalogue importer's `extract_first_image` on every input |
| Convert.MapAvailability | convert.py:19-23 | equal to the catalogue importer's `map_availability` on every input |
| Convert.CheckIfBestseller | convert.py:25-27 | equal to the catalogue importer's `check_if_bestseller` on every input |
| Convert.ProductFromRow | convert.py:57-77 | builds the same product as the catalogue importer for every row |
| Formatters.FormatProductCard | mdm_bot/utils/formatters.py:10-37 | the card appended step by step is the header, then the description section, the model line and, for bestsellers, the bestseller line |
| Formatters.CardOpensWithName | mdm_bot/utils/formatters.py:21 | every card starts with the product name in bold |
| Formatters.CardDescriptionPlacement | mdm_bot/utils/formatters.py:29-30 | with a non-empty description, the description heading follows the header block and the shown description follows the heading |
| Formatters.CardWithoutDescription | mdm_bot/utils/formatters.py:29-32 | with a NULL or empty description, the model line follows the header block directly |
| Formatters.CardShowsModel | mdm_bot/utils/formatters.py:32 | the model line is always present, right after the description section |
| Formatters.CardEnding | mdm_bot/utils/formatters.py:32-35 | a bestseller's card ends with the bestseller line; any other card ends with the model line |
| Formatters.ShownDescriptionShape | mdm_bot/utils/formatters.py:30 | a description of up to 300 characters is shown whole; a longer one shows its first 300 characters followed by "..." |
| Formatters.StatisticsBlockGreets | mdm_bot/utils/formatters.py:54-57 | the statistics block opens with the greeting, which holds the user's name when there is a user |
| Formatters.StatisticsBlockCountsInOrder | mdm_bot/utils/formatters.py:57-62 | the cart, favourites and orders lines close the block, in that order |
| Formatters.FormatMainPageText | mdm_bot/utils/formatters.py:40-66 | the page opens with the greeting and closes with the delivery line and the prompt |
| Formatters.MainPageGreets | mdm_bot/utils/formatters.py:54-66 | the main-page text opens with the greeting, which names the user when there is one |
| Formatters.MainPageCountsInOrder | mdm_bot/utils/formatters.py:56-65 | the cart, favourites and orders counts appear in the main-page text in that order |
| LegacyUtils.MakeProductCard | utils.py:1-20 | the older card is exactly the current `format_product_card` card |
| LegacyUtils.MakeMainPageText | utils.py:22-37 | as written, the function returns None |
| LegacyUtils.MainPageTextIsLost | utils.py:22-37 | the text computed is never empty, yet it is not what the caller receives |
| LegacyUtils.MakeMainPageTextReturned | utils.py:22-37 | with the return added, the caller gets a text that opens with the greeting, names the user and shows the three counts in order |
| LegacyUtils.LegacyMainPageText | utils.py:22-37 | the offers block comes right after the statistics block, and cutting it out leaves exactly the `format_main_page_text` page |
| LegacyUtils.LegacyTextGreets | utils.py:24-27 | the older main-page text opens with the greeting, naming the user when there is one |
| LegacyUtils.LegacyTextCountsInOrder | utils.py:26-32 | the older text shows the cart, favourites and orders counts in that order |
| CatalogueApi.CeilDivBounds | mdm_bot/api/app.py:77 | `ceil(total / limit)` is the fewest pages of `limit` rows holding `total` rows, and 0 for an empty table |
| CatalogueApi.Window | mdm_bot/api/app.py:81-88 | offset then limit: at most `limit` rows; none past the end; item k is row offset + k |
| CatalogueApi.GetProductsDefaults | mdm_bot/api/app.py:64-66 | with no query parameters the page is 1 and the limit 20: the answer is the whole table when it has at most 20 rows, else its first 20 rows |
| CatalogueApi.GetProducts | mdm_bot/api/app.py:63-97 | a 422 error exactly when page < 1 or limit is outside 1..100; otherwise it echoes page, limit and total, with at most `limit` items |
| CatalogueApi.TotalPagesBounds | mdm_bot/api/app.py:77 | `total_pages * limit >= total`, and one page fewer would not hold every row |
| CatalogueApi.PageItemAt | mdm_bot/api/app.py:78-88 | item k of a page is row (page - 1) * limit + k of the id-ordered table |
| CatalogueApi.FirstPageStartsAtFirstRow | mdm_bot/api/app.py:78-85 | page 1 of a non-empty table starts with the first row |
| CatalogueApi.PageEmptyIffBeyondLast | mdm_bot/api/app.py:77-88 | a valid page has items exactly when page <= total_pages |
| CatalogueApi.PagesCoverCatalogue | mdm_bot/api/app.py:77-88 | row k is served at index k % limit of page k / limit + 1, and that page is at most total_pages |
| CatalogueApi.PageItemsIdOrdered | mdm_bot/api/app.py:81-88 | with the table in id order, every page lists its items in increasing id order |
| CatalogueApi.FindById | mdm_bot/api/app.py:108-110 | finds a row with the id exactly when one exists |
| CatalogueApi.GetProduct | mdm_bot/api/app.py:103-115 | 404 exactly when no row has the id; otherwise a row with that id |
| CatalogueApi.LookupFindsRow | mdm_bot/api/app.py:108-115 | with ids ordered, looking up a row's id returns that row |
| CatalogueApi.ListedItemsAreFetchable | mdm_bot/api/app.py:63-115 | every item a page lists is returned by the single-product endpoint under its id |
| CatalogueApi.AllowedOrigins | mdm_bot/api/app.py:26-30 | `["*"]` for the wildcard; otherwise comma-free pieces that join back to the setting |
| CatalogueApi.AllowedOriginsIsSplit | mdm_bot/api/app.py:26-30 | the wildcard special case agrees with plain splitting on commas |
| CatalogueApi.AllowedOriginsRoundTrip | mdm_bot/api/app.py:26-30 | comma-free origins joined with commas are read back as the same list |
| Keyboard.KeyboardBuilder.Add | kbs.py:11 | `kb.button(...)` appends one button and keeps the earlier ones |
| Keyboard.EntryLabelShape | kbs.py:36 | an entry label is "i. " and then the name when it has at most 20 characters, else its first 20 characters and "..." |
| Keyboard.CartToggleInjective | kbs.py:83-92 | the cart button's callback data determines both the product and whether it is in the cart |
| Keyboard.FavoriteToggleInjective | kbs.py:95-104 | the favourites button's callback data determines both the product and whether it is a favourite |
| Keyboard.FavoriteGroupIds | kbs.py:139-153 | every button of a favourite's group carries that product's id after a view, add-to-cart or remove-favourite prefix |
| Keyboard.FavoriteGroupAt | kbs.py:137-153 | favourite i fills buttons 4i to 4i + 3: its numbered label, then view, add to cart and remove |
| Keyboard.AddFavoriteGroup | kbs.py:139-153 | one loop pass appends exactly that favourite's four buttons |
| Keyboard.AddFavoriteGroups | kbs.py:137-153 | the loop appends the groups of all favourites, numbered from 1, in list order |
| Keyboard.FavoriteGroupsSnoc | kbs.py:137-153 | one more favourite appends its group and leaves the earlier groups unchanged |
| Keyboard.CartLinesSnoc | kbs.py:33-44 | one more cart entry appends its two buttons and leaves the earlier ones unchanged |
| Keyboard.CartEntryAt | kbs.py:33-44 | entry i gives button 2i, its label opening the product, and button 2i + 1, deleting the cart item's product |
| Keyboard.AddCartEntry | kbs.py:35-44 | one loop pass appends the entry's label and its delete button |
| Keyboard.AddCartLines | kbs.py:33-44 | the loop appends two buttons per entry, numbered from 1, in query order |
| Keyboard.OrderButtons | kbs.py:188-196 | one button per order, in list order |
| Keyboard.MissingItemsCountIsZero | kbs.py:190 | an order without `items_count` is shown with 0 items |
| Keyboard.AddOrderButtons | kbs.py:188-196 | the inner loop appends one button per order of a date, in list order |
| Keyboard.GreatestExists | kbs.py:178 | a non-empty set of date keys has a greatest key in Python's string order |
| Keyboard.GreatestUnique | kbs.py:178 | that greatest key is unique |
| Keyboard.DescendingSorted | kbs.py:178 | `sorted(keys, reverse=True)` lists every key exactly once, in strictly decreasing string order |
| Keyboard.SortedDescending | kbs.py:178 | the loop that picks the greatest remaining key yields the keys in `sorted(..., reverse=True)` order |
| Keyboard.DateHeaderRoundTrip | kbs.py:182-185 | a date without "_" is recovered from its header's callback data by turning "_" back into "." |
| Keyboard.DescendingDatesKnown | kbs.py:178-179 | every sorted date is a key of the map, and there is one per key |
| Keyboard.DatedOrderButtonsCount | kbs.py:178-196 | the dated list has one button per order, plus one header per date when headers are shown |
| Keyboard.DatedOrderButtonsSnoc | kbs.py:178-196 | one more date appends its header and its orders, leaving the earlier buttons unchanged |
| Keyboard.AddDatedOrders | kbs.py:178-196 | the date loop appends, per date in the given order, its header when headers are shown, then its orders |
| Keyboard.HeadersDropped | mdm_bot/utils/keyboards.py:169-180 | the newer orders list is the older one with its date headers removed |
| LegacyKeyboards.MainKb | kbs.py:9-20 | six buttons, with the review entry commented out, ending with help |
| LegacyKeyboards.CartKb | kbs.py:29-52 | two buttons per entry, then checkout, clear cart and main page; 2n + 3 buttons |
| LegacyKeyboards.ProductKb | kbs.py:63-122 | cart toggle, favourites toggle, specifications, reviews, search and main page, the toggles following the item's state |
| LegacyKeyboards.ProductPageShowsState | kbs.py:83-104 | the first two buttons identify the product and its cart and favourites state |
| LegacyKeyboards.FavoriteKb | kbs.py:124-163 | four buttons per favourite, then main page; 4n + 1 buttons |
| LegacyKeyboards.OrdersKb | kbs.py:165-204 | dates in descending string order (`sorted(..., reverse=True)`), each as a header followed by its orders, then contact, refresh and main page; orders + dates + 3 buttons |
| Keyboards.GetCartKeyboard | mdm_bot/utils/keyboards.py:27-49 | two buttons per entry, then checkout and main page; 2n + 2 buttons |
| Keyboards.CartEntriesAgree | mdm_bot/utils/keyboards.py:31-43 | both cart keyboards show and open every entry alike; only the delete data differs, `remove_cart_` against `remove_all_cart_` |
| Keyboards.GetProductKeyboard | mdm_bot/utils/keyboards.py:62-116 | the two toggles following the item's state, then search and main page |
| Keyboards.ProductPageDropsSpecsAndReviews | mdm_bot/utils/keyboards.py:87-112 | the newer product page is the older one without its specifications and reviews buttons |
| Keyboards.GetFavoritesKeyboard | mdm_bot/utils/keyboards.py:119-153 | favourite i fills buttons 4i to 4i + 3, and main page comes last; 4n + 1 buttons |
| Keyboards.GetOrdersKeyboard | mdm_bot/utils/keyboards.py:156-185 | dates in descending string order (`sorted(..., reverse=True)`), each as its orders without a header, then main page; orders + 1 buttons |
| Keyboards.GetHelpKeyboard | mdm_bot/utils/keyboards.py:200-206 | only the main-page button, for any user |
| UserKeyboards.MainUserKb | bot/user/kbs.py:6-14 | exactly three buttons: favorites, search and support |
| UserKeyboards.ProductKb | bot/user/kbs.py:24-33 | the buttons appended are buy, the favourites toggle for the state, and home |
| UserKeyboards.ProductButtonsShape | bot/user/kbs.py:24-33 | three buttons; the buy data is "buy_" + id + "_" + price; the toggle is `removefav_` exactly for a favourite and `addfav_` exactly otherwise; home is last |
| UserKeyboards.BuyDataFields | bot/user/kbs.py:26 | the buy data splits on "_" into "buy", the id and the price when the price text has no "_" |
| UserKeyboards.ProductBuyKb | bot/user/kbs.py:36-40 | two rows: a pay button whose text holds the price, then "Отменить" with data "home" |
| UserKeyboards.IdField | bot/user/user_router.py:96 | an id is read only from data that holds a "_" and a digit |
| UserKeyboards.DecodeFavoriteCallback | bot/user/user_router.py:94-115 | the action follows the `addfav_` or `removefav_` tag (`addfav_` tested first) and its product is the id field; there is no action exactly when neither tag opens the data or the id field does not parse |
| UserKeyboards.IdFieldOfPrefixedId | bot/user/user_router.py:96 | `int(data.split("_")[1])` reads back the id written after a tag without "_" |
| UserKeyboards.FavoriteCallbackRoundTrip | bot/user/user_router.py:94-115 | the router recovers from a toggle's data the product id and the add or remove action the button offered |
| UserKeyboards.FavoriteCallbackNeedsId | bot/user/user_router.py:96 | favourites data without a digit after the tag is rejected instead of naming a product |
| MainBot.MainKb | main.py:66-77 | seven buttons in a fixed order, ending with review and help |
| MainBot.LegacyMenuDropsReview | main.py:66-77 | the kbs.py main menu is this one without the review entry |
| MainBot.ProductNotFoundKb | main.py:79-85 | exactly two buttons: search and main_page |
| MainBot.ProductKb | main.py:87-95 | `add_fav_`, `add_cart_` and `answ_` with the product id, then main_page, in that order |
| MainBot.ProductActionsDistinct | main.py:87-95 | no two product actions share callback data, and the data of each id-carrying action determines the product |
| MainBot.AddFavProductId | main.py:160 | no id exactly when the data splits on "_" into fewer than three pieces (the `IndexError` case); otherwise element 2, which contains no "_" |
| MainBot.AddFavRoundTrip | main.py:160 | element 2 of `"add_fav_{p}".split("_")` is the decimal text of p, which parses back to p |
| MainBot.FirstWithId | main.py:137-138 | the first row with the id (no earlier row has it), found exactly when one exists |
| MainBot.SearchAsWritten | main.py:131-142 | a message without text, a non-integer text or an integer outside SQLite's signed 64-bit range is an error rather than a lookup; otherwise a product whose id equals the number, or "not found" exactly when no id matches |
| MainBot.WideIdIsError | main.py:136-140 | a number outside the 64-bit range gives the error message, even where a row would carry it |
| MainBot.FirstWithVendorCode | bot/user/user_router.py:55 | the first row with the vendor code (no earlier row has it), found exactly when one exists |
| MainBot.SearchByVendorCode | bot/user/user_router.py:53-55 | never an error; a product whose vendor code is the stripped text, or "not found" exactly when none matches |
| MainBot.SearchComparesIdNotVendorCode | main.py:137 | a product with vendor code "123" and id 7: searching "123" as written finds nothing, while the vendor-code search finds it |
| MainBot.VendorCodeFindsProduct | bot/user/user_router.py:53-55 | with distinct vendor codes, every product is found by its own code, whatever whitespace surrounds it |
| MainBot.FavoritesList | main.py:170-188 | an empty list answers "В списке избранного пусто(" with the main menu; otherwise the heading followed by the lines the loop appends |
| MainBot.FavoriteLinesAppend | main.py:185-186 | the lines of two product lists are the lines of the first followed by those of the second |
| MainBot.FavoriteLineAt | main.py:185-186 | product i's "🔹 name - price руб." line stands right after the lines of the products before it, so each product is listed once, in query order |

## Left out

- Float handling is not modelled. This covers price parsing in `process_csv`, `format_price`, `total_sum:.0f` and the float division in `math.ceil`. Prices and order totals arrive as the text Python prints for them, and `ceil(total / limit)` is integer ceiling division.
- CsvImport.ProductFromRow: only text and flag columns are modelled. The price columns, `categoryId` and the stock-quantity columns are not. A `None` cell value, which `csv.DictReader` gives for short rows, is not modelled: cells are strings.
- PyStr.Lower: maps only Latin A-Z and the Cyrillic capitals U+0400-U+042F. The rest of Unicode case mapping is not modelled. Every spelling the normalisers compare against is covered.
- PyStr.ParseInt: accepts surrounding whitespace, a sign and ASCII digits. It does not accept the underscores or non-ASCII digits that Python's `int()` also takes.
- The row layout that `adjust(...)` chooses is not modelled. Keyboards are ordered button lists.
- `get_main_keyboard` is not modelled. Its first button is a `WebAppInfo` button whose URL comes from the environment.
- The remaining fixed keyboards are not modelled: `search_kb`, `product_not_found_kb`, `profile_kb`, `help_kb`, `empty_cart_kb`, `purchases_kb`, `get_product_not_found_keyboard`, `get_profile_keyboard` and `get_empty_cart_keyboard`. They hold only constant buttons.
- Database queries, sessions, commits, async dispatch, logging and the Telegram API are not modelled. Their results are parameters.
- The 500 responses of the API are not modelled. They wrap database failures.
- The `raise` paths of the `main.py` handlers are not modelled, apart from the vendor-code search's errors (no text, no integer, an integer too wide for SQLite). Nor are `update_product_card_message` and the other handler bodies.
- CatalogueApi.GetProduct and MainBot.SearchByVendorCode return the first matching row. For `get_product` the database's `scalar_one_or_none` raises on duplicate keys. The vendor-code lookup `ProductDao.find_one_or_none_by_vendor_code` is not part of this model and is presumed to return one row or none. The model instead states its results under distinct ids or codes.
- Keyboard.SortedDescending: orders dates as Python compares strings, by code points. Dates such as "05.06.2024" therefore sort by day first, as in the source.
- MainBot.SearchByVendorCode: takes the message text as a string. A message without text makes `message.text.strip()` raise outside any `try`; that path is not modelled.
- UserKeyboards.ProductKb: `is_favorite` defaults to `False` in the source; the model always takes it as an argument.
- MainBot.AddFavProductId: returns the id text the handler stores. The conversion the database applies when the text goes into an integer column is not modelled.

## Findings

| source | as written | input that shows it | evidently intended | confidence | as-written member | corrected member |
|---|---|---|---|---|---|---|
| utils.py:22-37 | `make_main_page_text` builds `main_page_text` and ends without `return`, so callers receive None | any user and counts | return the text, as `format_main_page_text` does | high, not executed | LegacyUtils.MakeMainPageText | LegacyUtils.MakeMainPageTextReturned |
| main.py:137 | the vendor-code search parses the text as an integer and compares it with `Product.id` | a product with id 7 and vendor code "123", searched as "123": "Товары не найдены." | look the stripped text up as a vendor code, as bot/user/user_router.py:53-55 does | medium, not executed | MainBot.SearchComparesIdNotVendorCode | MainBot.SearchByVendorCode |
