/** The older importer script (convert.py): the same four normalisers and the same
    column defaults as the catalogue importer, written out a second time. Each member
    here is proved to agree with its namesake in `CsvImport` on every input, so every
    property proved there holds here too. */
module Convert {
  import opened PyStr
  import CsvImport

  function ConvertToBool(value: string): (r: bool)
    ensures r == CsvImport.ConvertToBool(value)
  {
    if value == "" || Lower(value) in ["", "0", "false", "нет", "no"] then false else true
  }

  function ExtractFirstImage(pictures: string): (r: Option<string>)
    ensures r == CsvImport.ExtractFirstImage(pictures)
  {
    if pictures == "" then None
    else
      var images := StripEach(Split(pictures, ','));
      if |images| > 0 then Some(images[0]) else None
  }

  function MapAvailability(value: string): (r: string)
    ensures r == CsvImport.MapAvailability(value)
  {
    if value == "" || Lower(value) !in ["есть", "да", "yes", "1", "true"] then "нет" else "есть"
  }

  function CheckIfBestseller(value: string): (r: bool)
    ensures r == CsvImport.CheckIfBestseller(value)
  {
    value != "" && Strip(value) != ""
  }

  /** The `Product(...)` this script builds for one row. */
  function ProductFromRow(row: CsvImport.Row): (p: CsvImport.ImportedProduct)
    ensures p == CsvImport.ProductFromRow(row)
  {
    var cell := (column, default) => if column in row then row[column] else default;
    CsvImport.ImportedProduct(
      url := cell("url", ""),
      name := cell("name", ""),
      vendorCode := cell("vendorCode", ""),
      currencyId := cell("currencyId", "RUR"),
      model := cell("model", ""),
      vendor := cell("vendor", ""),
      description := cell("description", ""),
      manufacturerWarranty := ConvertToBool(cell("manufacturer warranty", "")),
      image := ExtractFirstImage(cell("Pictures", "")),
      isBestseller := CheckIfBestseller(cell("Хит продаж", "")),
      unit := cell("Единица измерения", "шт"),
      availability := MapAvailability(cell("Наличие", "")),
      status := cell("Статус товара", ""))
  }
}
