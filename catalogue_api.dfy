/** The catalogue endpoints of the Mini App API (mdm_bot/api/app.py): the paginated
    product list, the single-product lookup and the CORS origin list. The products
    table arrives as its rows in `ORDER BY id` order; the session, the HTTP layer and
    the 500 responses for database failures are outside this model. */
module CatalogueApi {
  import opened PyStr

  /** `ProductResponse`; the float price arrives already rendered as text. */
  datatype Product = Product(
    id: int,
    name: string,
    priceText: string,
    image: Option<string>,
    vendorCode: Option<string>,
    description: Option<string>)

  /** `ProductsListResponse`. */
  datatype ProductsList = ProductsList(items: seq<Product>, total: nat, page: int, limit: int, totalPages: nat)

  /** 422: a query parameter outside its declared bounds; 404: no such product. */
  datatype ApiError = Unprocessable | NotFound

  datatype Result<T> = Ok(value: T) | Err(error: ApiError)

  const MaxLimit: int := 100

  /** `Query(1, ge=1)` for `page` and `Query(20, ge=1, le=100)` for `limit`. */
  predicate ValidQuery(page: int, limit: int) {
    page >= 1 && 1 <= limit <= MaxLimit
  }

  predicate IdOrdered(rows: seq<Product>) {
    forall i, j :: 0 <= i < j < |rows| ==> rows[i].id < rows[j].id
  }

  /** `math.ceil(total / limit)`, in integer arithmetic. */
  function CeilDiv(total: nat, limit: nat): nat
    requires limit >= 1
  {
    (total + limit - 1) / limit
  }

  /** `CeilDiv` is the fewest pages of `limit` rows that hold `total` rows. */
  lemma CeilDivBounds(total: nat, limit: nat)
    requires limit >= 1
    ensures CeilDiv(total, limit) * limit >= total
    ensures total > 0 ==> (CeilDiv(total, limit) - 1) * limit < total
    ensures total == 0 ==> CeilDiv(total, limit) == 0
  {
    var q := (total + limit - 1) / limit;
    var rem := (total + limit - 1) % limit;
    assert q * limit + rem == total + limit - 1;
    assert (q - 1) * limit == q * limit - limit;
  }

  /** `.offset(offset).limit(limit)` over the ordered rows. */
  function Window(rows: seq<Product>, offset: nat, limit: nat): (items: seq<Product>)
    ensures |items| <= limit
    ensures offset >= |rows| ==> items == []
    ensures offset < |rows| ==> |items| == if offset + limit <= |rows| then limit else |rows| - offset
    ensures forall k :: 0 <= k < |items| ==> offset + k < |rows| && items[k] == rows[offset + k]
  {
    if offset >= |rows| then []
    else if offset + limit <= |rows| then rows[offset..offset + limit]
    else rows[offset..]
  }

  /** `get_products`: validates the query, then returns the page's rows with the echo fields. */
  function GetProducts(rows: seq<Product>, page: int, limit: int): (r: Result<ProductsList>)
    ensures r.Err? <==> !ValidQuery(page, limit)
    ensures r.Err? ==> r.error == Unprocessable
    ensures r.Ok? ==>
              && r.value.page == page && r.value.limit == limit && r.value.total == |rows|
              && |r.value.items| <= limit
  {
    if !ValidQuery(page, limit) then Err(Unprocessable)
    else
      var total := |rows|;
      var totalPages := CeilDiv(total, limit);
      var offset := (page - 1) * limit;
      Ok(ProductsList(Window(rows, offset, limit), total, page, limit, totalPages))
  }

  const DefaultPage: int := 1
  const DefaultLimit: int := 20

  /** `get_products` called without query parameters: FastAPI fills in page 1 and
      limit 20, so the answer is the first twenty rows of the table, or all of them. */
  function GetProductsDefaults(rows: seq<Product>): (r: Result<ProductsList>)
    ensures r.Ok? && r.value.page == DefaultPage && r.value.limit == DefaultLimit
    ensures r.value.total == |rows|
    ensures r.value.items == if |rows| <= DefaultLimit then rows else rows[..DefaultLimit]
  {
    var r := GetProducts(rows, DefaultPage, DefaultLimit);
    assert r.value.items == Window(rows, 0, DefaultLimit);
    r
  }

  /** `total_pages` is the fewest pages of `limit` rows that hold the whole table. */
  lemma TotalPagesBounds(rows: seq<Product>, page: int, limit: int)
    requires ValidQuery(page, limit)
    ensures var pages := GetProducts(rows, page, limit).value.totalPages;
            && pages * limit >= |rows|
            && (|rows| > 0 ==> (pages - 1) * limit < |rows|)
            && (|rows| == 0 ==> pages == 0)
  {
    CeilDivBounds(|rows|, limit);
  }

  /** Item `k` of a page is row `(page - 1) * limit + k` of the ordered table. */
  lemma PageItemAt(rows: seq<Product>, page: int, limit: int, k: int)
    requires GetProducts(rows, page, limit).Ok? && 0 <= k < |GetProducts(rows, page, limit).value.items|
    ensures (page - 1) * limit + k < |rows|
    ensures GetProducts(rows, page, limit).value.items[k] == rows[(page - 1) * limit + k]
  {
    var offset := (page - 1) * limit;
    assert offset >= 0;
    assert GetProducts(rows, page, limit).value.items == Window(rows, offset, limit);
  }

  /** Page 1 starts at the first row. */
  lemma FirstPageStartsAtFirstRow(rows: seq<Product>, limit: int)
    requires 1 <= limit <= MaxLimit && rows != []
    ensures var r := GetProducts(rows, 1, limit);
            r.Ok? && r.value.items != [] && r.value.items[0] == rows[0]
  {
  }

  // Proof step about integer products; it states nothing about the API itself.
  lemma MulMonotone(a: int, b: int, c: nat)
    requires a <= b
    ensures a * c <= b * c
  {
  }

  /** A valid page has rows exactly when it is one of the first `total_pages` pages. */
  lemma PageEmptyIffBeyondLast(rows: seq<Product>, page: int, limit: int)
    requires ValidQuery(page, limit)
    ensures var r := GetProducts(rows, page, limit);
            r.Ok? && (r.value.items == [] <==> page > r.value.totalPages)
  {
    var r := GetProducts(rows, page, limit);
    var pages := r.value.totalPages;
    var offset := (page - 1) * limit;
    TotalPagesBounds(rows, page, limit);
    if page > pages {
      MulMonotone(pages, page - 1, limit);
      assert offset >= |rows|;
    } else {
      MulMonotone(page - 1, pages - 1, limit);
      assert offset < |rows|;
    }
  }

  /** Every row is served, at index `k % limit` of page `k / limit + 1`, and that page is
      one of the first `total_pages`. */
  lemma PagesCoverCatalogue(rows: seq<Product>, limit: int, k: int)
    requires 1 <= limit <= MaxLimit && 0 <= k < |rows|
    ensures var r := GetProducts(rows, k / limit + 1, limit);
            && r.Ok?
            && k / limit + 1 <= r.value.totalPages
            && k % limit < |r.value.items|
            && r.value.items[k % limit] == rows[k]
  {
    var page := k / limit + 1;
    var i := k % limit;
    var offset := (page - 1) * limit;
    assert offset + i == k && 0 <= i < limit by {
      assert page - 1 == k / limit;
    }
    var items := Window(rows, offset, limit);
    var r := GetProducts(rows, page, limit);
    assert r.Ok? && r.value.items == items;
    assert i < |items| by {
      if offset + limit > |rows| {
        assert |items| == |rows| - offset;
      }
    }
    assert items[i] == rows[k];
    assert page <= r.value.totalPages by {
      PageEmptyIffBeyondLast(rows, page, limit);
    }
  }

  lemma WindowIdOrdered(rows: seq<Product>, offset: nat, limit: nat)
    requires IdOrdered(rows)
    ensures IdOrdered(Window(rows, offset, limit))
  {
    var items := Window(rows, offset, limit);
    forall i, j | 0 <= i < j < |items|
      ensures items[i].id < items[j].id
    {
      assert items[i] == rows[offset + i] && items[j] == rows[offset + j];
    }
  }

  /** Served in id order: the items of a page are in increasing id order. */
  lemma PageItemsIdOrdered(rows: seq<Product>, page: int, limit: int)
    requires IdOrdered(rows)
    ensures var r := GetProducts(rows, page, limit);
            r.Ok? ==> IdOrdered(r.value.items)
  {
    if ValidQuery(page, limit) {
      MulMonotone(0, page - 1, limit);
      WindowIdOrdered(rows, (page - 1) * limit, limit);
    }
  }

  /** The first row with the given id, if any. */
  function FindById(rows: seq<Product>, id: int): (r: Option<Product>)
    ensures r.None? <==> forall k :: 0 <= k < |rows| ==> rows[k].id != id
    ensures r.Some? ==> r.value in rows && r.value.id == id
  {
    if rows == [] then None
    else if rows[0].id == id then Some(rows[0])
    else FindById(rows[1..], id)
  }

  /** `get_product`: the product with the id, or 404. */
  function GetProduct(rows: seq<Product>, productId: int): (r: Result<Product>)
    ensures r.Err? <==> forall k :: 0 <= k < |rows| ==> rows[k].id != productId
    ensures r.Err? ==> r.error == NotFound
    ensures r.Ok? ==> r.value in rows && r.value.id == productId
  {
    match FindById(rows, productId)
    case None => Err(NotFound)
    case Some(p) => Ok(p)
  }

  /** With ids in increasing order (hence unique), looking a row's id up finds that row. */
  lemma LookupFindsRow(rows: seq<Product>, i: int)
    requires IdOrdered(rows) && 0 <= i < |rows|
    ensures GetProduct(rows, rows[i].id) == Ok(rows[i])
  {
    var r := GetProduct(rows, rows[i].id);
    var j :| 0 <= j < |rows| && rows[j] == r.value;
    assert rows[j].id == rows[i].id;
  }

  /** The list endpoint and the single-product endpoint agree: every served item can be
      fetched by its id. */
  lemma ListedItemsAreFetchable(rows: seq<Product>, page: int, limit: int, k: int)
    requires IdOrdered(rows)
    requires GetProducts(rows, page, limit).Ok? && 0 <= k < |GetProducts(rows, page, limit).value.items|
    ensures var item := GetProducts(rows, page, limit).value.items[k];
            GetProduct(rows, item.id) == Ok(item)
  {
    PageItemAt(rows, page, limit, k);
    LookupFindsRow(rows, (page - 1) * limit + k);
  }

  /** The CORS origin list: `["*"]` for the wildcard, else the setting's comma-separated pieces. */
  function AllowedOrigins(setting: string): (origins: seq<string>)
    ensures |origins| >= 1
    ensures setting == "*" ==> origins == ["*"]
    ensures setting != "*" ==> Join(origins, ',') == setting
    ensures forall i :: 0 <= i < |origins| ==> ',' !in origins[i]
  {
    if setting != "*" then
      JoinSplit(setting, ',');
      Split(setting, ',')
    else ["*"]
  }

  /** The wildcard special case changes nothing: the list is always the comma-split setting. */
  lemma AllowedOriginsIsSplit(setting: string)
    ensures AllowedOrigins(setting) == Split(setting, ',')
  {
  }

  /** Origins written out and joined with commas come back as the same list. */
  lemma AllowedOriginsRoundTrip(origins: seq<string>)
    requires |origins| >= 1
    requires forall i :: 0 <= i < |origins| ==> ',' !in origins[i]
    ensures AllowedOrigins(Join(origins, ',')) == origins
  {
    SplitJoin(origins, ',');
  }
}
