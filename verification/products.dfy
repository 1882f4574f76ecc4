/** The products page: stock badges and summary counts, the brand and
    category pickers' filters, the record sent on submit, the sort and
    rows-per-page handlers, and the export projection. */
module Products {
  import opened Wrappers
  import opened Text
  import opened JsValues
  import opened Types
  import opened Seqs
  import opened Api
  import opened ListView
  import Schemas

  // ---------------------------------------------------------------------
  // Stock
  // ---------------------------------------------------------------------

  datatype Stock = InStock | LowStock | OutOfStock

  /** `getStockStatus(qty)`; `None` is `null`. A `NaN` quantity compares
      false both ways and falls through to "In Stock". */
  function StockStatus(qty: Option<Num>): (s: Stock)
    ensures s == OutOfStock <==> qty.None? || qty.value == Fin(0.0)
    ensures s == LowStock <==> qty.Some? && qty.value.Fin? && qty.value.v != 0.0 && qty.value.v < 10.0
  {
    if qty.None? || qty.value == Fin(0.0) then OutOfStock
    else if qty.value.Fin? && qty.value.v < 10.0 then LowStock
    else InStock
  }

  /** The summary cards' tests. */
  predicate CountedIn(p: Product) {
    p.productQty.Some? && NumTruthy(p.productQty.value) && p.productQty.value.v >= 10.0
  }

  predicate CountedLow(p: Product) {
    p.productQty.Some? && NumTruthy(p.productQty.value) && 0.0 < p.productQty.value.v < 10.0
  }

  predicate CountedOut(p: Product) {
    p.productQty.None? || p.productQty.value == Fin(0.0)
  }

  /** A quantity for which the cards and the badge are meant to agree:
      `null` or a non-negative number. */
  predicate WellFormedQty(p: Product) {
    p.productQty.None? || (p.productQty.value.Fin? && p.productQty.value.v >= 0.0)
  }

  datatype Summary = Summary(inStock: nat, lowStock: nat, outOfStock: nat)

  function Summarise(products: seq<Product>): (s: Summary)
    ensures s.inStock <= |products| && s.lowStock <= |products| && s.outOfStock <= |products|
  {
    Summary(Count(products, CountedIn), Count(products, CountedLow), Count(products, CountedOut))
  }

  /** For a well-formed quantity each card's test is the badge's choice. */
  lemma CardMatchesBadge(p: Product)
    requires WellFormedQty(p)
    ensures CountedIn(p) <==> StockStatus(p.productQty) == InStock
    ensures CountedLow(p) <==> StockStatus(p.productQty) == LowStock
    ensures CountedOut(p) <==> StockStatus(p.productQty) == OutOfStock
  {
  }

  /** A `NaN` quantity shows an "In Stock" badge but is counted on no
      card; a negative one shows "Low Stock" and is counted on none. */
  lemma OddQuantitiesUncounted(p: Product)
    requires p.productQty == Some(NaN) || (p.productQty.Some? && p.productQty.value.Fin? && p.productQty.value.v < 0.0)
    ensures !CountedIn(p) && !CountedLow(p) && !CountedOut(p)
    ensures StockStatus(p.productQty) == (if p.productQty == Some(NaN) then InStock else LowStock)
  {
  }

  /** When every quantity is well formed, the three cards add up to the
      number of products listed. */
  lemma {:induction false} SummaryPartitions(products: seq<Product>)
    requires forall i :: 0 <= i < |products| ==> WellFormedQty(products[i])
    ensures var s := Summarise(products); s.inStock + s.lowStock + s.outOfStock == |products|
    decreases |products|
  {
    if products != [] {
      SummaryPartitions(products[1..]);
      CardMatchesBadge(products[0]);
    }
  }

  // ---------------------------------------------------------------------
  // Brand and category pickers
  // ---------------------------------------------------------------------

  function BrandMatches(term: string): ProductBrand -> bool {
    (b: ProductBrand) => ContainsIgnoringCase(b.productBrandName, term)
  }

  function CategoryMatches(term: string): ProductCategory -> bool {
    (c: ProductCategory) => ContainsIgnoringCase(c.productCategoryName, term)
  }

  /** The brand picker's list for the typed term. */
  function FilterBrands(brands: seq<ProductBrand>, term: string): (r: seq<ProductBrand>)
    ensures |r| <= |brands|
  {
    FilterUnlessBlank(brands, term, BrandMatches(term))
  }

  /** The category picker's list for the typed term. */
  function FilterCategories(categories: seq<ProductCategory>, term: string): (r: seq<ProductCategory>)
    ensures |r| <= |categories|
  {
    FilterUnlessBlank(categories, term, CategoryMatches(term))
  }

  /** A blank term lists everything; otherwise exactly the entries whose
      name holds the term ignoring case survive, in order. */
  lemma PickerFilters(brands: seq<ProductBrand>, categories: seq<ProductCategory>, term: string)
    ensures IsBlank(term) ==> FilterBrands(brands, term) == brands && FilterCategories(categories, term) == categories
    ensures IsSubsequence(FilterBrands(brands, term), brands)
    ensures !IsBlank(term) ==>
      forall b :: (b in FilterBrands(brands, term) <==> b in brands && ContainsIgnoringCase(b.productBrandName, term))
    ensures !IsBlank(term) ==>
      forall c :: (c in FilterCategories(categories, term) <==> c in categories && ContainsIgnoringCase(c.productCategoryName, term))
  {
    FilterMembership(brands, BrandMatches(term));
    FilterMembership(categories, CategoryMatches(term));
    if IsBlank(term) {
      SubsequenceOfSelf(brands);
    }
  }

  lemma {:induction false} SubsequenceOfSelf<T>(s: seq<T>)
    ensures IsSubsequence(s, s)
    decreases |s|
  {
    if s != [] {
      SubsequenceOfSelf(s[1..]);
    }
  }

  // ---------------------------------------------------------------------
  // Submit
  // ---------------------------------------------------------------------

  /** The record sent to create or update a product. */
  datatype SubmitData = SubmitData(
    productName: string, productLocation: string, productDetails: Option<string>, productType: string,
    productCost: Num, productSelling: Num, productQty: Num,
    brandId: Option<Num>, categoryId: Option<Num>)

  /** `id && id > 0`. */
  predicate PositiveChoice(id: Option<Num>) {
    id.Some? && id.value.Fin? && id.value.v > 0.0
  }

  function SubmitRecord(f: Schemas.ProductForm): (d: SubmitData)
    ensures d.brandId.Some? <==> PositiveChoice(f.brandId)
    ensures d.categoryId.Some? <==> PositiveChoice(f.categoryId)
    ensures d.brandId.Some? ==> d.brandId == f.brandId
    ensures d.categoryId.Some? ==> d.categoryId == f.categoryId
    ensures d.productCost == ParseFloat(f.productCost) && d.productSelling == ParseFloat(f.productSelling)
    ensures d.productQty == ParseFloat(f.productQty)
  {
    SubmitData(f.productName, f.productLocation, f.productDetails, f.productType,
      ParseFloat(f.productCost), ParseFloat(f.productSelling), ParseFloat(f.productQty),
      if PositiveChoice(f.brandId) then f.brandId else None,
      if PositiveChoice(f.categoryId) then f.categoryId else None)
  }

  /** A price typed as an integer is sent as that number. */
  lemma SubmittedPriceOfInteger(f: Schemas.ProductForm, n: int)
    requires f.productCost == IntToString(n)
    ensures SubmitRecord(f).productCost == Fin(n as real)
  {
    ParseFloatOfIntToString(n);
  }

  // ---------------------------------------------------------------------
  // Sorting and paging
  // ---------------------------------------------------------------------

  /** A table column: its `sortField`, if any, and the name of its value
      selector. */
  datatype Column = Column(sortField: Option<string>, selector: string)

  /** What the sort state holds: a server field name, or (when a column
      has no `sortField`) the column's selector function itself. */
  datatype SortKey = Field(name: string) | Selector(name: string)

  datatype SortState = SortState(sortBy: SortKey, sortOrder: string)

  const InitialSort: SortState := SortState(Field("product_id"), "desc")

  /** `handleSort(column, direction)`. */
  function HandleSort(column: Column, direction: string): (s: SortState)
    ensures s.sortOrder == direction
    ensures s.sortBy.Field? <==> column.sortField.Some? && column.sortField.value != ""
    ensures s.sortBy.Field? ==> s.sortBy.name == column.sortField.value
    ensures s.sortBy.Selector? ==> s.sortBy.name == column.selector
  {
    if column.sortField.Some? && column.sortField.value != "" then SortState(Field(column.sortField.value), direction)
    else SortState(Selector(column.selector), direction)
  }

  /** `handlePerRowsChange(newPerPage, page)`: both values are taken. */
  function PerRowsChange(perPage: int, currentPage: int, newPerPage: int, page: int): (r: (int, int))
    ensures r == (newPerPage, page)
  {
    (newPerPage, page)
  }

  // ---------------------------------------------------------------------
  // Export
  // ---------------------------------------------------------------------

  datatype ExportRow = ExportRow(
    name: string, number: string, location: string, details: string, productType: string,
    quantity: Num, brand: Json, category: Json)

  const NotSpecified: string := "Not specified"

  function ExportRowOf(p: Product): (row: ExportRow)
    ensures row.name == p.productName && row.number == p.productNumber && row.location == p.productLocation
    ensures row.details == (if p.productDetails.Some? then p.productDetails.value else "")
    ensures row.productType == (if p.productType != "" then p.productType else "unit")
    ensures row.quantity == (if p.productQty.Some? && NumTruthy(p.productQty.value) then p.productQty.value else Fin(0.0))
    ensures !Truthy(Get(p.productBrand, "productBrandName")) ==> row.brand == JStr(NotSpecified)
    ensures !Truthy(Get(p.productCategory, "productCategoryName")) ==> row.category == JStr(NotSpecified)
    ensures Truthy(Get(p.productBrand, "productBrandName")) ==> row.brand == Get(p.productBrand, "productBrandName")
    ensures Truthy(Get(p.productCategory, "productCategoryName")) ==> row.category == Get(p.productCategory, "productCategoryName")
  {
    ExportRow(p.productName, p.productNumber, p.productLocation,
      p.productDetails.GetOr(""),
      if p.productType != "" then p.productType else "unit",
      if p.productQty.Some? && NumTruthy(p.productQty.value) then p.productQty.value else Fin(0.0),
      Or(Get(p.productBrand, "productBrandName"), JStr(NotSpecified)),
      Or(Get(p.productCategory, "productCategoryName"), JStr(NotSpecified)))
  }

  /** A product whose brand is `null` exports "Not specified". */
  lemma NullBrandNotSpecified(p: Product)
    requires p.productBrand == JNull
    ensures ExportRowOf(p).brand == JStr(NotSpecified)
  {
  }
}
