/** The catalogue importer's field normalisers and the column defaults it applies
    to each CSV row (mdm_bot/scripts/import_csv.py). Price parsing and the database
    session are outside this model. */
module CsvImport {
  import opened PyStr

  /** The spellings `convert_to_bool` reads as false (after lower-casing). */
  const FalseSpellings: seq<string> := ["", "0", "false", "нет", "no"]

  /** The spellings `map_availability` reads as "in stock" (after lower-casing). */
  const InStockSpellings: seq<string> := ["есть", "да", "yes", "1", "true"]

  const InStock: string := "есть"
  const OutOfStock: string := "нет"

  /** `convert_to_bool`: false for an empty cell and for the false spellings in any letter case. */
  function ConvertToBool(value: string): (r: bool)
    ensures r <==> Lower(value) !in FalseSpellings
  {
    if value == "" || Lower(value) in FalseSpellings then false else true
  }

  /** `extract_first_image`: the first comma-separated entry of the pictures cell, stripped. */
  function ExtractFirstImage(pictures: string): (r: Option<string>)
    ensures r.None? <==> pictures == ""
    ensures r.Some? ==> r.value == Strip(FirstField(pictures, ','))
    ensures r.Some? ==> ',' !in r.value
  {
    if pictures == "" then None
    else
      var parts := Split(pictures, ',');
      var images := StripEach(parts);
      SplitFirst(pictures, ',');
      StripKeepsChars(FirstField(pictures, ','));
      if |images| > 0 then Some(images[0]) else None
  }

  /** `map_availability`: "есть" for the in-stock spellings in any letter case, "нет" otherwise. */
  function MapAvailability(value: string): (r: string)
    ensures r == InStock || r == OutOfStock
    ensures r == InStock <==> Lower(value) in InStockSpellings
  {
    if value == "" || Lower(value) !in InStockSpellings then OutOfStock else InStock
  }

  /** `check_if_bestseller`: the cell holds something other than whitespace. */
  function CheckIfBestseller(value: string): (r: bool)
    ensures r <==> exists i :: 0 <= i < |value| && !IsSpace(value[i])
  {
    StripBlank(value);
    value != "" && Strip(value) != ""
  }

  // ---------------------------------------------------------------------------
  // Properties of the normalisers

  /** The letter case of a cell never changes how it reads as a boolean. */
  lemma ConvertToBoolIgnoresCase(value: string)
    ensures ConvertToBool(Lower(value)) == ConvertToBool(value)
  {
    LowerIdempotent(value);
  }

  /** The false spellings in other letter cases, and a few true ones. */
  lemma ConvertToBoolExamples()
    ensures !ConvertToBool("") && !ConvertToBool("0") && !ConvertToBool("FALSE")
    ensures !ConvertToBool("Нет") && !ConvertToBool("No")
    ensures ConvertToBool("1") && ConvertToBool("да") && ConvertToBool("True")
  {
    assert Lower("FALSE") == "false";
    assert Lower("Нет") == "нет";
    assert Lower("No") == "no";
    assert Lower("True") == "true";
    LowerFixed("0");
    LowerFixed("1");
    LowerFixed("да");
  }

  /** Normalised availability is a fixed point: importing it again changes nothing. */
  lemma MapAvailabilityIdempotent(value: string)
    ensures MapAvailability(MapAvailability(value)) == MapAvailability(value)
  {
    LowerFixed(InStock);
    LowerFixed(OutOfStock);
  }

  /** Every spelling that means "in stock" also reads as true. */
  lemma InStockReadsTrue(value: string)
    ensures MapAvailability(value) == InStock ==> ConvertToBool(value)
  {
  }

  /** An entry of blanks gives an empty image rather than no image. */
  lemma BlankPicturesGiveEmptyImage(pictures: string)
    requires pictures != ""
    requires forall i :: 0 <= i < |pictures| ==> IsSpace(pictures[i])
    ensures ExtractFirstImage(pictures) == Some("")
  {
    var f := FirstField(pictures, ',');
    assert forall i :: 0 <= i < |f| ==> f[i] == pictures[i];
    StripBlank(f);
  }

  /** The image of a single-entry cell is that entry stripped. */
  lemma SingleImage(pictures: string)
    requires pictures != "" && ',' !in pictures
    ensures ExtractFirstImage(pictures) == Some(Strip(pictures))
  {
  }

  // ---------------------------------------------------------------------------
  // Column defaults of process_csv

  /** A CSV row as `csv.DictReader` yields it: column name to cell text. */
  type Row = map<string, string>

  /** `row.get(column, default)`. */
  function Cell(row: Row, column: string, default: string): string {
    if column in row then row[column] else default
  }

  /** The text and flag fields of an imported product; prices and the category id are not modelled. */
  datatype ImportedProduct = ImportedProduct(
    url: string,
    name: string,
    vendorCode: string,
    currencyId: string,
    model: string,
    vendor: string,
    description: string,
    manufacturerWarranty: bool,
    image: Option<string>,
    isBestseller: bool,
    unit: string,
    availability: string,
    status: string)

  const DefaultCurrency: string := "RUR"
  const DefaultUnit: string := "шт"

  /** The `Product(...)` built for one row. */
  function ProductFromRow(row: Row): (p: ImportedProduct)
    ensures "currencyId" !in row ==> p.currencyId == DefaultCurrency
    ensures "currencyId" in row ==> p.currencyId == row["currencyId"]
    ensures "Единица измерения" !in row ==> p.unit == DefaultUnit
    ensures "Единица измерения" in row ==> p.unit == row["Единица измерения"]
    ensures p.availability == InStock || p.availability == OutOfStock
    ensures p.image.Some? ==> ',' !in p.image.value
    ensures "Pictures" !in row ==> p.image == None
    ensures "Хит продаж" !in row ==> !p.isBestseller
    ensures "manufacturer warranty" !in row ==> !p.manufacturerWarranty
  {
    ImportedProduct(
      url := Cell(row, "url", ""),
      name := Cell(row, "name", ""),
      vendorCode := Cell(row, "vendorCode", ""),
      currencyId := Cell(row, "currencyId", DefaultCurrency),
      model := Cell(row, "model", ""),
      vendor := Cell(row, "vendor", ""),
      description := Cell(row, "description", ""),
      manufacturerWarranty := ConvertToBool(Cell(row, "manufacturer warranty", "")),
      image := ExtractFirstImage(Cell(row, "Pictures", "")),
      isBestseller := CheckIfBestseller(Cell(row, "Хит продаж", "")),
      unit := Cell(row, "Единица измерения", DefaultUnit),
      availability := MapAvailability(Cell(row, "Наличие", "")),
      status := Cell(row, "Статус товара", ""))
  }
}
