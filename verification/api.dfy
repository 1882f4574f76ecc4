/** The client's response handling: the common response normaliser, the
    four list mappers that decode loosely typed JSON rows into typed
    records, and the parameter encoding of the request helper. The network
    itself is not modelled: a request's result enters as an `Outcome` (the
    parsed response body, or the message of the error it threw). */
module Api {
  import opened Wrappers
  import opened Text
  import opened JsValues
  import opened Types
  import opened Seqs
  import UserCodec

  // ---------------------------------------------------------------------
  // handleResponse
  // ---------------------------------------------------------------------

  /** A caught error: an `Error` instance (only its message is read) or any
      other thrown value. */
  datatype Failure = ErrorObject(message: string) | OtherValue(value: Json)

  /** `if (error)`: an `Error` object is always truthy. */
  predicate IsError(e: Option<Failure>) {
    match e
    case None => false
    case Some(ErrorObject(_)) => true
    case Some(OtherValue(v)) => Truthy(v)
  }

  /** The message of a failure envelope. The default message is given as a
      string whose empty value also stands for `undefined`: both fall back
      to 'Request failed'. */
  function FailureMessage(e: Failure, defaultMessage: string): string {
    match e
    case ErrorObject(m) => m
    case OtherValue(_) => if defaultMessage != "" then defaultMessage else "Request failed"
  }

  const UnexpectedFormat: string := "Unexpected response format from server"

  /** The pagination block of an empty page. */
  function EmptyPagination(): Json {
    JObj(map[
      "current_page" := NumOf(1), "per_page" := NumOf(10), "total" := NumOf(0),
      "last_page" := NumOf(1), "from" := JNull, "to" := JNull,
      "has_more_pages" := JBool(false), "has_previous_pages" := JBool(false),
      "next_page_url" := JNull, "previous_page_url" := JNull])
  }

  /** The caught value a failure envelope echoes under `error`. An `Error`
      appears as an object whose `message` reads back its message. */
  function FailureValue(e: Failure): (v: Json)
    ensures e.ErrorObject? ==> Truthy(v) && Get(v, "message") == JStr(e.message)
    ensures e.OtherValue? ==> v == e.value
  {
    match e
    case ErrorObject(m) => JObj(map["message" := JStr(m)])
    case OtherValue(v) => v
  }

  /** `handleResponse(response, error, defaultMessage, isPaginated)`. */
  function HandleResponse(response: Json, error: Option<Failure>, defaultMessage: string, isPaginated: bool): (r: Json)
    ensures r.JObj? && "success" in r.fields
    ensures IsError(error) && isPaginated ==>
      r.fields.Keys == {"data", "pagination", "message", "success", "error"}
      && r.fields["success"] == JBool(false) && r.fields["data"] == JArr([])
      && r.fields["pagination"] == EmptyPagination()
      && r.fields["message"] == JStr(FailureMessage(error.value, defaultMessage))
      && r.fields["error"] == FailureValue(error.value)
    ensures IsError(error) && !isPaginated ==>
      r == JObj(map["success" := JBool(false), "message" := JStr(FailureMessage(error.value, defaultMessage)),
        "error" := FailureValue(error.value)])
    ensures !IsError(error) && response.JObj? && "success" in response.fields ==> r == response
    ensures !IsError(error) && !(response.JObj? && "success" in response.fields) ==>
      r == JObj(map["success" := JBool(false), "message" := JStr(UnexpectedFormat), "response" := response])
  {
    if IsError(error) then
      var message := JStr(FailureMessage(error.value, defaultMessage));
      if isPaginated then
        JObj(map["data" := JArr([]), "pagination" := EmptyPagination(), "message" := message, "success" := JBool(false),
          "error" := FailureValue(error.value)])
      else
        JObj(map["success" := JBool(false), "message" := message, "error" := FailureValue(error.value)])
    else if response.JObj? && "success" in response.fields then response
    else JObj(map["success" := JBool(false), "message" := JStr(UnexpectedFormat), "response" := response])
  }

  /** Without an error, normalising twice is normalising once: every result
      carries a `success` key and so passes through unchanged. */
  lemma HandleResponseIdempotent(response: Json, defaultMessage: string, isPaginated: bool)
    ensures var once := HandleResponse(response, None, defaultMessage, isPaginated);
      HandleResponse(once, None, defaultMessage, isPaginated) == once
  {
  }

  /** Without an error, the default message and the paginated flag are
      never read: the result depends on the response alone. */
  lemma HandleResponseIgnoresDefaults(response: Json, m1: string, m2: string, p1: bool, p2: bool)
    ensures HandleResponse(response, None, m1, p1) == HandleResponse(response, None, m2, p2)
  {
  }

  /** The result reports success only when the response itself said so. */
  lemma HandleResponseSuccess(response: Json, error: Option<Failure>, defaultMessage: string, isPaginated: bool)
    ensures var r := HandleResponse(response, error, defaultMessage, isPaginated);
      Truthy(r.fields["success"]) ==>
        !IsError(error) && response.JObj? && "success" in response.fields && Truthy(response.fields["success"])
  {
  }

  /** The body of a non-ok HTTP answer, built by the request helper from the
      error body (`{}` when it is not JSON). Reading `message` from an
      error body of `null` throws, and the helper's `catch` rethrows that
      with the method in front. */
  function HttpFailure(m: Method, status: int, statusText: string, errorData: Json): (r: Outcome<Json>)
    ensures r.Threw? <==> errorData.JNull? || errorData.JUndefined?
    ensures r.Threw? ==> r.message == MethodName(m) + " request failed: " + Property(errorData, "message").message
    ensures r.Returned? ==> r.value.JObj? && r.value.fields.Keys == {"success", "message", "errors", "status"}
    ensures r.Returned? ==> r.value.fields["success"] == JBool(false) && r.value.fields["status"] == NumOf(status)
    ensures r.Returned? && Truthy(Get(errorData, "message")) ==> r.value.fields["message"] == Get(errorData, "message")
    ensures r.Returned? && !Truthy(Get(errorData, "message")) ==>
      r.value.fields["message"] == JStr("HTTP " + IntToString(status) + ": " + statusText)
    ensures r.Returned? ==> r.value.fields["errors"] == (if Truthy(Get(errorData, "errors")) then Get(errorData, "errors") else JObj(map[]))
  {
    match Property(errorData, "message")
    case Threw(e) => Threw(MethodName(m) + " request failed: " + e)
    case Returned(message) =>
      Returned(JObj(map[
        "success" := JBool(false),
        "message" := Or(message, JStr("HTTP " + IntToString(status) + ": " + statusText)),
        "errors" := Or(Get(errorData, "errors"), JObj(map[])),
        "status" := NumOf(status)]))
  }

  /** A non-ok answer the helper returns already has the normalised shape:
      handling it passes it through unchanged, still reporting failure. */
  lemma HttpFailurePassesThrough(m: Method, status: int, statusText: string, errorData: Json, defaultMessage: string, isPaginated: bool)
    ensures var r := HttpFailure(m, status, statusText, errorData);
      r.Returned? ==>
        HandleResponse(r.value, None, defaultMessage, isPaginated) == r.value
        && !Truthy(HandleResponse(r.value, None, defaultMessage, isPaginated).fields["success"])
  {
  }

  // ---------------------------------------------------------------------
  // Coercions used by the mappers
  // ---------------------------------------------------------------------

  /** The id coercion: a string through `parseInt(…, 10)`, a number kept,
      anything else 0. */
  function CoerceInt(j: Json): (n: Num)
    ensures j.JStr? ==> n == ParseInt(j.s)
    ensures j.JNum? ==> n == j.n
    ensures !j.JStr? && !j.JNum? ==> n == Fin(0.0)
  {
    match j
    case JStr(s) => ParseInt(s)
    case JNum(x) => x
    case _ => Fin(0.0)
  }

  /** The same coercion with `parseFloat`. */
  function CoerceFloat(j: Json): (n: Num)
    ensures j.JStr? ==> n == ParseFloat(j.s)
    ensures j.JNum? ==> n == j.n
    ensures !j.JStr? && !j.JNum? ==> n == Fin(0.0)
  {
    match j
    case JStr(s) => ParseFloat(s)
    case JNum(x) => x
    case _ => Fin(0.0)
  }

  /** `id > 0`; `NaN` compares false. */
  predicate PositiveId(n: Num) {
    n.Fin? && n.v > 0.0
  }

  /** A rendered positive integer id survives the round trip through the
      string coercion. */
  lemma CoerceIntOfRenderedId(i: int)
    ensures CoerceInt(JStr(IntToString(i))) == Fin(i as real)
    ensures PositiveId(CoerceInt(JStr(IntToString(i)))) <==> i > 0
  {
    ParseIntOfIntToString(i);
  }

  /** `String(x || fallback)`. */
  function TextOr(j: Json, fallback: string): string {
    ToStr(Or(j, JStr(fallback)))
  }

  /** `x ? String(x) : undefined`. */
  function OptionalText(j: Json): (r: Option<string>)
    ensures r.Some? <==> Truthy(j)
    ensures r.Some? ==> r.value == ToStr(j)
  {
    if Truthy(j) then Some(ToStr(j)) else None
  }

  /** `x ? parseFloat(x) : undefined`. */
  function OptionalFloat(j: Json): (r: Option<Num>)
    ensures r.Some? <==> Truthy(j)
    ensures r.Some? ==> r.value == ParseFloat(ToStr(j))
  {
    if Truthy(j) then Some(ParseFloat(ToStr(j))) else None
  }

  /** `x ? parseInt(x, 10) : null`. */
  function OptionalInt(j: Json): (r: Option<Num>)
    ensures r.Some? <==> Truthy(j)
    ensures r.Some? ==> r.value == ParseInt(ToStr(j))
  {
    if Truthy(j) then Some(ParseInt(ToStr(j))) else None
  }

  /** A rendered integer read back through the optional coercions is
      that integer, and the text coercion keeps it verbatim. */
  lemma OptionalOfRenderedInt(i: int)
    ensures OptionalText(JStr(IntToString(i))) == Some(IntToString(i))
    ensures OptionalInt(JStr(IntToString(i))) == Some(Fin(i as real))
    ensures OptionalFloat(JStr(IntToString(i))) == Some(Fin(i as real))
  {
    ParseIntOfIntToString(i);
    ParseFloatOfIntToString(i);
  }

  // ---------------------------------------------------------------------
  // Row decoders
  // ---------------------------------------------------------------------

  function DecodeCustomer(item: Json): Customer {
    Customer(
      CoerceInt(Get(item, "id")),
      TextOr(Get(item, "first_name"), ""),
      TextOr(Get(item, "last_name"), ""),
      OptionalText(Get(item, "email")),
      OptionalText(Get(item, "contact_no")),
      OptionalText(Get(item, "address")))
  }

  function DecodeBrand(item: Json): ProductBrand {
    ProductBrand(CoerceInt(Get(item, "product_brand_id")), TextOr(Get(item, "brand_name"), ""))
  }

  function DecodeCategory(item: Json): ProductCategory {
    ProductCategory(CoerceInt(Get(item, "product_cat_id")), TextOr(Get(item, "category_name"), ""))
  }

  /** One receiving batch of a product row; reading a field of a `null`
      entry throws. */
  function DecodeGrnItem(g: Json): (r: Outcome<GrnItem>)
    ensures r.Threw? <==> g.JNull? || g.JUndefined?
  {
    match Property(g, "grnItemsId")
    case Threw(m) => Threw(m)
    case Returned(id) =>
      Returned(GrnItem(
        CoerceInt(id),
        OptionalFloat(Get(g, "costPrice")),
        OptionalFloat(Get(g, "sellingPrice")),
        OptionalInt(Get(g, "orderedQty")),
        OptionalInt(Get(g, "quantity"))))
  }

  /** `grnData.map(decode)`; the first throwing entry ends the mapping. */
  function DecodeGrnItems(gs: seq<Json>): (r: Outcome<seq<GrnItem>>)
    ensures r.Returned? ==> |r.value| == |gs|
    ensures r.Returned? <==> forall i :: 0 <= i < |gs| ==> !gs[i].JNull? && !gs[i].JUndefined?
  {
    if gs == [] then Returned([])
    else
      match DecodeGrnItem(gs[0])
      case Threw(m) => Threw(m)
      case Returned(g) =>
        match DecodeGrnItems(gs[1..])
        case Threw(m) => Threw(m)
        case Returned(rest) => Returned([g] + rest)
  }

  function DecodeProduct(item: Json): (r: Outcome<Product>)
    ensures r.Returned? ==> r.value.productId == CoerceInt(Get(item, "productId"))
    ensures r.Returned? ==> r.value.productQty == Some(CoerceInt(Get(item, "productQty")))
  {
    var grn :=
      match Get(item, "grnData")
      case JArr(gs) =>
        (match DecodeGrnItems(gs)
         case Threw(m) => Threw(m)
         case Returned(v) => Returned(Some(v)))
      case _ => Returned(None);
    match grn
    case Threw(m) => Threw(m)
    case Returned(grnData) =>
      Returned(Product(
        CoerceInt(Get(item, "productId")),
        TextOr(Get(item, "productName"), ""),
        TextOr(Get(item, "productNumber"), ""),
        TextOr(Get(item, "productLocation"), ""),
        OptionalText(Get(item, "productDetails")),
        Some(CoerceInt(Get(item, "productQty"))),
        TextOr(Get(item, "productType"), "unit"),
        CoerceFloat(Get(item, "productCost")),
        CoerceFloat(Get(item, "productSelling")),
        OptionalFloat(Get(item, "latestPrice")),
        CoerceInt(Get(item, "productQty")),
        CoerceInt(Get(item, "grnItemsId")),
        Or(Get(item, "productBrand"), JNull),
        Or(Get(item, "productCategory"), JNull),
        grnData))
  }

  // ---------------------------------------------------------------------
  // The row pipeline: filter on the raw id, map, filter on the coerced id
  // ---------------------------------------------------------------------

  /** `items.filter(item => item[idKey])`: reading the key of a `null` item
      throws, and the first such item ends the filter. */
  function KeepRawId(items: seq<Json>, idKey: string): (r: Outcome<seq<Json>>)
    ensures r.Returned? <==> forall i :: 0 <= i < |items| ==> !items[i].JNull? && !items[i].JUndefined?
    ensures r.Returned? ==> r.value == Filter(items, (j: Json) => Truthy(Get(j, idKey)))
  {
    if items == [] then Returned([])
    else
      match Property(items[0], idKey)
      case Threw(m) => Threw(m)
      case Returned(v) =>
        match KeepRawId(items[1..], idKey)
        case Threw(m) => Threw(m)
        case Returned(rest) => Returned((if Truthy(v) then [items[0]] else []) + rest)
  }

  /** `items.map(decode)`, ending at the first throwing item. */
  function MapRows<T>(items: seq<Json>, decode: Json -> Outcome<T>): (r: Outcome<seq<T>>)
    ensures r.Returned? ==> |r.value| == |items|
    ensures r.Returned? ==> forall i :: 0 <= i < |items| ==> decode(items[i]) == Returned(r.value[i])
  {
    if items == [] then Returned([])
    else
      match decode(items[0])
      case Threw(m) => Threw(m)
      case Returned(x) =>
        match MapRows(items[1..], decode)
        case Threw(m) => Threw(m)
        case Returned(rest) => Returned([x] + rest)
  }

  /** A mapped list page: `success`, `data` (absent in the unexpected-format
      envelope), `pagination` (`undefined` when absent) and `message`. */
  datatype Listing<T> = Listing(success: bool, data: Option<seq<T>>, pagination: Json, message: Json)

  /** The pagination block the mappers invent when the server sends none. */
  function DefaultPagination(n: nat): (p: Json)
    ensures p.JObj? && "total" in p.fields && "to" in p.fields && "from" in p.fields
    ensures "current_page" in p.fields && "last_page" in p.fields
    ensures p.fields["total"] == NumOf(n) && p.fields["to"] == NumOf(n)
    ensures p.fields["from"] == (if n > 0 then NumOf(1) else JNull)
    ensures p.fields["current_page"] == NumOf(1) && p.fields["last_page"] == NumOf(1)
  {
    JObj(map[
      "current_page" := NumOf(1), "per_page" := NumOf(10), "total" := NumOf(n),
      "last_page" := NumOf(1), "from" := (if n > 0 then NumOf(1) else JNull), "to" := NumOf(n),
      "has_more_pages" := JBool(false), "has_previous_pages" := JBool(false),
      "next_page_url" := JNull, "previous_page_url" := JNull])
  }

  /** The failure listing a fetch wrapper returns from its `catch`:
      `handleResponse(null, error, …, true)` with an `Error`. */
  function ErrorListing<T>(message: string): Listing<T> {
    Listing(false, Some([]), EmptyPagination(), JStr(message))
  }

  /** What `handleResponse(null, null, …, true)` gives: no error, a `null`
      response, hence the unexpected-format envelope without data. */
  function UnexpectedListing<T>(): Listing<T> {
    Listing(false, None, JUndefined, JStr(UnexpectedFormat))
  }

  /** A page's CSV export: nothing (and a "nothing to export" notice)
      unless the listing succeeded with at least one row; otherwise one
      export row per listed item, in order. */
  function ExportListing<T, R>(l: Listing<T>, row: T -> R): (r: Option<seq<R>>)
    ensures r.None? <==> !l.success || l.data.None? || l.data.value == []
    ensures r.Some? ==> |r.value| == |l.data.value| > 0
    ensures r.Some? ==> forall i :: 0 <= i < |r.value| ==> r.value[i] == row(l.data.value[i])
  {
    if !l.success || l.data.None? || l.data.value == [] then None
    else Some(MapSeq(l.data.value, row))
  }

  /** The typed listings agree with the normaliser's JSON envelopes. */
  lemma ListingsAgreeWithHandleResponse(message: string, defaultMessage: string)
    ensures var r := HandleResponse(JNull, Some(ErrorObject(message)), defaultMessage, true);
      r.fields["success"] == JBool(false) && r.fields["data"] == JArr([])
      && r.fields["pagination"] == ErrorListing<int>(message).pagination
      && r.fields["message"] == ErrorListing<int>(message).message
    ensures var r := HandleResponse(JNull, None, defaultMessage, true);
      r.fields["success"] == JBool(false) && "data" !in r.fields && "pagination" !in r.fields
      && r.fields["message"] == UnexpectedListing<int>().message
  {
  }

  /** The common body of the four mappers, as written: a response that is
      not a success with an array `data` yields the unexpected-format
      envelope (the `message` and paginated flag it passes are never read);
      otherwise the rows whose raw id is truthy are decoded and those whose
      coerced id is not positive are dropped. Reading a property of a `null`
      response or row throws. */
  function MapListing<T>(response: Json, idKey: string, decode: Json -> Outcome<T>, id: T -> Num, okMessage: string): (r: Outcome<Listing<T>>)
    ensures (response.JNull? || response.JUndefined?) ==> r.Threw?
    ensures r.Returned? && r.value.success ==> r.value.data.Some? && Truthy(r.value.pagination)
  {
    match Property(response, "success")
    case Threw(m) => Threw(m)
    case Returned(ok) =>
      if !Truthy(ok) || !Get(response, "data").JArr? then Returned(UnexpectedListing())
      else
        match KeepRawId(Get(response, "data").items, idKey)
        case Threw(m) => Threw(m)
        case Returned(withId) =>
          match MapRows(withId, decode)
          case Threw(m) => Threw(m)
          case Returned(decoded) =>
            var rows := Filter(decoded, (x: T) => PositiveId(id(x)));
            Returned(Listing(true, Some(rows),
              Or(Get(response, "pagination"), DefaultPagination(|rows|)),
              Or(Get(response, "message"), JStr(okMessage))))
  }

  /** The failure path as evidently intended: the empty paginated failure
      carrying the server's message or the mapper's "not found" text. */
  function MapListingIntended<T>(response: Json, idKey: string, decode: Json -> Outcome<T>, id: T -> Num, okMessage: string, noneMessage: string): (r: Outcome<Listing<T>>)
    ensures (response.JNull? || response.JUndefined?) ==> r.Threw?
    ensures r.Returned? && !r.value.success ==>
      r.value.data == Some([]) && r.value.pagination == EmptyPagination()
  {
    match Property(response, "success")
    case Threw(m) => Threw(m)
    case Returned(ok) =>
      if !Truthy(ok) || !Get(response, "data").JArr? then
        Returned(Listing(false, Some([]), EmptyPagination(), Or(Get(response, "message"), JStr(noneMessage))))
      else MapListing(response, idKey, decode, id, okMessage)
  }

  /** Mapper failure, as written: a server failure `{success: false,
      message: m}` comes back without data or pagination, and with the
      unexpected-format text in place of `m`. */
  lemma MapperFailureDropsMessage<T>(m: string, idKey: string, decode: Json -> Outcome<T>, id: T -> Num, okMessage: string)
    ensures var response := JObj(map["success" := JBool(false), "message" := JStr(m)]);
      var r := MapListing(response, idKey, decode, id, okMessage);
      r == Returned(UnexpectedListing()) && r.value.data.None? && r.value.message == JStr(UnexpectedFormat)
  {
  }

  /** Mapper failure, as intended: the same response gives the empty
      paginated failure with the server's message, and both versions agree
      on every successful response. */
  lemma MapperFailureIntended<T>(response: Json, idKey: string, decode: Json -> Outcome<T>, id: T -> Num, okMessage: string, noneMessage: string)
    ensures var r := MapListingIntended(response, idKey, decode, id, okMessage, noneMessage);
      r.Returned? && !r.value.success ==>
        r.value == Listing(false, Some([]), EmptyPagination(), Or(Get(response, "message"), JStr(noneMessage)))
    ensures var r := MapListingIntended(response, idKey, decode, id, okMessage, noneMessage);
      r.Returned? && r.value.success ==> r == MapListing(response, idKey, decode, id, okMessage)
  {
  }

  /** The single-pass reference for the row pipeline: an item is kept, in
      place, iff its raw id is truthy and its decoded id is positive. */
  function RowsReference<T>(items: seq<Json>, idKey: string, decode: Json -> T, id: T -> Num): seq<T> {
    if items == [] then []
    else
      (if Truthy(Get(items[0], idKey)) && PositiveId(id(decode(items[0]))) then [decode(items[0])] else [])
      + RowsReference(items[1..], idKey, decode, id)
  }

  /** With a decoder that cannot throw (`lift` always returns `decode`'s
      value), the three passes of the mapper (raw-id filter, map,
      coerced-id filter) equal the single pass. */
  lemma {:induction false} RowPipelineIsReference<T>(items: seq<Json>, idKey: string, lift: Json -> Outcome<T>, decode: Json -> T, id: T -> Num)
    requires forall j :: lift(j) == Returned(decode(j))
    requires forall i :: 0 <= i < |items| ==> !items[i].JNull? && !items[i].JUndefined?
    ensures KeepRawId(items, idKey).Returned?
      && MapRows(KeepRawId(items, idKey).value, lift).Returned?
      && Filter(MapRows(KeepRawId(items, idKey).value, lift).value, (x: T) => PositiveId(id(x)))
         == RowsReference(items, idKey, decode, id)
    decreases |items|
  {
    var keep := (x: T) => PositiveId(id(x));
    if items != [] {
      RowPipelineIsReference(items[1..], idKey, lift, decode, id);
      var restKept := KeepRawId(items[1..], idKey).value;
      var restMapped := MapRows(restKept, lift).value;
      if Truthy(Get(items[0], idKey)) {
        var kept := [items[0]] + restKept;
        assert KeepRawId(items, idKey).value == kept;
        assert kept[1..] == restKept;
        assert MapRows(kept, lift).value == [decode(items[0])] + restMapped;
        FilterAppend([decode(items[0])], restMapped, keep);
      } else {
        assert KeepRawId(items, idKey).value == restKept;
      }
    }
  }

  /** Every row a mapper returns comes from a data item with a truthy raw
      id, and has a positive id. */
  lemma MappedRowsHavePositiveIds<T>(response: Json, idKey: string, decode: Json -> Outcome<T>, id: T -> Num, okMessage: string)
    ensures var r := MapListing(response, idKey, decode, id, okMessage);
      r.Returned? && r.value.data.Some? ==> forall i :: 0 <= i < |r.value.data.value| ==> PositiveId(id(r.value.data.value[i]))
  {
    var data := Get(response, "data");
    match Property(response, "success")
    case Threw(_) =>
    case Returned(ok) =>
      if Truthy(ok) && data.JArr? {
        match KeepRawId(data.items, idKey)
        case Threw(_) =>
        case Returned(withId) =>
          match MapRows(withId, decode)
          case Threw(_) =>
          case Returned(decoded) =>
            var rows := Filter(decoded, (x: T) => PositiveId(id(x)));
            assert MapListing(response, idKey, decode, id, okMessage).value.data == Some(rows);
      }
  }

  /** When the server sends no pagination, the invented block counts the
      rows that survived the filters. */
  lemma DefaultPaginationCountsRows<T>(response: Json, idKey: string, decode: Json -> Outcome<T>, id: T -> Num, okMessage: string)
    requires !Truthy(Get(response, "pagination"))
    ensures var r := MapListing(response, idKey, decode, id, okMessage);
      r.Returned? && r.value.success ==>
        r.value.pagination == DefaultPagination(|r.value.data.value|)
        && Get(r.value.pagination, "total") == NumOf(|r.value.data.value|)
        && (Get(r.value.pagination, "from") == NumOf(1) <==> |r.value.data.value| > 0)
  {
  }

  function LiftCustomer(j: Json): Outcome<Customer> { Returned(DecodeCustomer(j)) }
  function LiftBrand(j: Json): Outcome<ProductBrand> { Returned(DecodeBrand(j)) }
  function LiftCategory(j: Json): Outcome<ProductCategory> { Returned(DecodeCategory(j)) }
  function CustomerId(c: Customer): Num { c.clientId }
  function BrandId(b: ProductBrand): Num { b.productBrandId }
  function CategoryId(c: ProductCategory): Num { c.productCategoryId }
  function ProductId(p: Product): Num { p.productId }

  /** `mapProductData`. */
  function MapProductData(response: Json): Outcome<Listing<Product>> {
    MapListing(response, "productId", DecodeProduct, ProductId, "Products retrieved successfully")
  }

  /** `mapCustomerData`. */
  function MapCustomerData(response: Json): Outcome<Listing<Customer>> {
    MapListing(response, "id", LiftCustomer, CustomerId, "Customers retrieved successfully")
  }

  /** `mapProductBrandData`. */
  function MapProductBrandData(response: Json): Outcome<Listing<ProductBrand>> {
    MapListing(response, "product_brand_id", LiftBrand, BrandId, "Product brands retrieved successfully")
  }

  /** `mapProductCategoryData`. */
  function MapProductCategoryData(response: Json): Outcome<Listing<ProductCategory>> {
    MapListing(response, "product_cat_id", LiftCategory, CategoryId, "Product categories retrieved successfully")
  }

  /** A successful response whose rows are all objects: the listing holds
      exactly the rows of the single-pass reference. */
  lemma SuccessRows<T>(items: seq<Json>, pagination: Json, message: Json, idKey: string, lift: Json -> Outcome<T>, decode: Json -> T, id: T -> Num, okMessage: string)
    requires forall j :: lift(j) == Returned(decode(j))
    requires forall i :: 0 <= i < |items| ==> !items[i].JNull? && !items[i].JUndefined?
    ensures var response := JObj(map["success" := JBool(true), "data" := JArr(items), "pagination" := pagination, "message" := message]);
      var r := MapListing(response, idKey, lift, id, okMessage);
      r.Returned? && r.value.success && r.value.data == Some(RowsReference(items, idKey, decode, id))
  {
    var response := JObj(map["success" := JBool(true), "data" := JArr(items), "pagination" := pagination, "message" := message]);
    assert Property(response, "success") == Returned(JBool(true));
    assert Get(response, "data") == JArr(items);
    RowPipelineIsReference(items, idKey, lift, decode, id);
    var decoded := MapRows(KeepRawId(items, idKey).value, lift).value;
    assert MapListing(response, idKey, lift, id, okMessage).value.data
      == Some(Filter(decoded, (x: T) => PositiveId(id(x))));
  }

  /** A customer row is kept iff its `id` is truthy and coerces to a
      positive number; kept rows stay in input order. */
  lemma CustomerRows(items: seq<Json>, pagination: Json, message: Json)
    requires forall i :: 0 <= i < |items| ==> !items[i].JNull? && !items[i].JUndefined?
    ensures var response := JObj(map["success" := JBool(true), "data" := JArr(items), "pagination" := pagination, "message" := message]);
      var r := MapCustomerData(response);
      r.Returned? && r.value.success
      && r.value.data == Some(RowsReference(items, "id", DecodeCustomer, CustomerId))
  {
    SuccessRows(items, pagination, message, "id", LiftCustomer, DecodeCustomer, CustomerId, "Customers retrieved successfully");
  }

  /** The same for brand rows keyed by `product_brand_id`. */
  lemma BrandRows(items: seq<Json>, pagination: Json, message: Json)
    requires forall i :: 0 <= i < |items| ==> !items[i].JNull? && !items[i].JUndefined?
    ensures var response := JObj(map["success" := JBool(true), "data" := JArr(items), "pagination" := pagination, "message" := message]);
      var r := MapProductBrandData(response);
      r.Returned? && r.value.success
      && r.value.data == Some(RowsReference(items, "product_brand_id", DecodeBrand, BrandId))
  {
    SuccessRows(items, pagination, message, "product_brand_id", LiftBrand, DecodeBrand, BrandId, "Product brands retrieved successfully");
  }

  /** The same for category rows keyed by `product_cat_id`. */
  lemma CategoryRows(items: seq<Json>, pagination: Json, message: Json)
    requires forall i :: 0 <= i < |items| ==> !items[i].JNull? && !items[i].JUndefined?
    ensures var response := JObj(map["success" := JBool(true), "data" := JArr(items), "pagination" := pagination, "message" := message]);
      var r := MapProductCategoryData(response);
      r.Returned? && r.value.success
      && r.value.data == Some(RowsReference(items, "product_cat_id", DecodeCategory, CategoryId))
  {
    SuccessRows(items, pagination, message, "product_cat_id", LiftCategory, DecodeCategory, CategoryId, "Product categories retrieved successfully");
  }

  /** A product row whose batch list holds a `null` entry makes the whole
      mapping throw, which the fetch wrapper turns into an error listing. */
  lemma NullBatchThrows(item: Json)
    requires Get(item, "grnData").JArr? && |Get(item, "grnData").items| > 0
    requires Get(item, "grnData").items[0] == JNull
    ensures DecodeProduct(item).Threw?
  {
  }

  // ---------------------------------------------------------------------
  // Fetch wrappers
  // ---------------------------------------------------------------------

  /** A list/search fetch of products or customers: the mapper inside a
      `try`; a request or mapping error becomes the error listing. */
  function FetchListing<T>(fetched: Outcome<Json>, mapper: Json -> Outcome<Listing<T>>): (r: Listing<T>)
    ensures fetched.Threw? ==> r == ErrorListing(fetched.message)
    ensures fetched.Returned? && mapper(fetched.value).Returned? ==> r == mapper(fetched.value).value
  {
    match fetched
    case Threw(m) => ErrorListing(m)
    case Returned(response) =>
      match mapper(response)
      case Threw(m) => ErrorListing(m)
      case Returned(l) => l
  }

  /** Brand and category fetches: the `catch` hands the non-paginated error
      envelope to the mapper again. */
  function FetchThroughMapper<T>(fetched: Outcome<Json>, mapper: Json -> Outcome<Listing<T>>, defaultMessage: string): Outcome<Listing<T>> {
    match fetched
    case Threw(m) => mapper(HandleResponse(JNull, Some(ErrorObject(m)), defaultMessage, false))
    case Returned(response) =>
      match mapper(response)
      case Threw(m) => mapper(HandleResponse(JNull, Some(ErrorObject(m)), defaultMessage, false))
      case Returned(l) => Returned(l)
  }

  /** A failed brand fetch comes back as the unexpected-format envelope,
      not as an empty paginated failure, and the error message is lost. */
  lemma BrandFetchErrorIsUnexpected(m: string)
    ensures FetchThroughMapper(Threw(m), MapProductBrandData, "Failed to retrieve product brands")
      == Returned(UnexpectedListing())
  {
    ErrorEnvelopeIsUnexpected(m, "Failed to retrieve product brands", "product_brand_id", LiftBrand, BrandId,
      "Product brands retrieved successfully");
  }

  /** The non-paginated error envelope, fed to a mapper, reads as a failure
      without data. */
  lemma ErrorEnvelopeIsUnexpected<T>(m: string, defaultMessage: string, idKey: string, decode: Json -> Outcome<T>, id: T -> Num, okMessage: string)
    ensures MapListing(HandleResponse(JNull, Some(ErrorObject(m)), defaultMessage, false), idKey, decode, id, okMessage)
      == Returned(UnexpectedListing())
  {
    var env := HandleResponse(JNull, Some(ErrorObject(m)), defaultMessage, false);
    assert env == JObj(map["success" := JBool(false), "message" := JStr(m), "error" := FailureValue(ErrorObject(m))]);
    assert Property(env, "success") == Returned(JBool(false));
  }

  /** The same for categories. */
  lemma CategoryFetchErrorIsUnexpected(m: string)
    ensures FetchThroughMapper(Threw(m), MapProductCategoryData, "Failed to retrieve product categories")
      == Returned(UnexpectedListing())
  {
    ErrorEnvelopeIsUnexpected(m, "Failed to retrieve product categories", "product_cat_id", LiftCategory, CategoryId,
      "Product categories retrieved successfully");
  }

  /** A failed product or customer fetch is the empty paginated failure
      carrying the error's message. */
  lemma ProductFetchErrorIsEmptyPage(m: string)
    ensures var r := FetchListing(Threw(m), MapProductData);
      !r.success && r.data == Some([]) && r.pagination == EmptyPagination() && r.message == JStr(m)
  {
  }

  // ---------------------------------------------------------------------
  // Request parameters
  // ---------------------------------------------------------------------

  datatype Method = GetMethod | PostMethod | PutMethod | DeleteMethod

  /** The method as the request helper names it. */
  function MethodName(m: Method): string {
    match m
    case GetMethod => "GET"
    case PostMethod => "POST"
    case PutMethod => "PUT"
    case DeleteMethod => "DELETE"
  }

  /** A parameter value: JSON data or a file (a `Blob`). */
  datatype ParamValue = Data(j: Json) | File(name: string)

  /** The parameters object, keys in insertion order. */
  type Params = seq<(string, ParamValue)>

  /** What a form body field carries. */
  datatype FormValue = FormText(text: string) | FormFile(name: string)

  /** Where the encoded parameters go. */
  datatype Request = FormBody(fields: seq<(string, FormValue)>) | UrlEncodedBody(pairs: seq<(string, string)>) | QueryString(pairs: seq<(string, string)>)

  /** `String(value)`. */
  function ParamText(v: ParamValue): string {
    match v
    case Data(j) => ToStr(j)
    case File(_) => "[object Blob]"
  }

  predicate IsNullish(v: ParamValue) {
    v.Data? && (v.j.JNull? || v.j.JUndefined?)
  }

  function Keys(ps: Params): seq<string> {
    seq(|ps|, i requires 0 <= i < |ps| => ps[i].0)
  }

  /** `params[key] = value`: an existing key is overwritten in place, a new
      one is appended. */
  function SetParam(ps: Params, key: string, value: ParamValue): (r: Params)
    ensures |r| == |ps| || |r| == |ps| + 1
    ensures (key, value) in r
    ensures forall i :: 0 <= i < |ps| && ps[i].0 != key ==> r[i] == ps[i]
    ensures key in Keys(ps) ==> |r| == |ps|
  {
    if ps == [] then [(key, value)]
    else if ps[0].0 == key then [(key, value)] + ps[1..]
    else
      var rest := SetParam(ps[1..], key, value);
      assert Keys(ps[1..]) == Keys(ps)[1..];
      [ps[0]] + rest
  }

  /** The stored user's id is added as `user_id` when the stored session
      user parses and has a truthy id; text that does not parse makes the
      request helper throw before any request. */
  function InjectUserId(ps: Params, userData: Option<string>): (r: Outcome<Params>)
    ensures userData.None? || userData == Some("") ==> r == Returned(ps)
  {
    match userData
    case None => Returned(ps)
    case Some(text) =>
      if text == "" then Returned(ps)
      else
        match UserCodec.Decode(text)
        case None => Threw("Unexpected token in JSON")
        case Some(u) => if u.id != 0 then Returned(SetParam(ps, "user_id", Data(NumOf(u.id)))) else Returned(ps)
  }

  /** A stored session user overrides any `user_id` the caller passed. */
  lemma StoredUserIdWins(ps: Params, u: User)
    requires u.id != 0
    ensures var r := InjectUserId(ps, Some(UserCodec.Encode(u)));
      r.Returned? && ("user_id", Data(NumOf(u.id))) in r.value
      && forall i :: 0 <= i < |ps| && ps[i].0 != "user_id" ==> r.value[i] == ps[i]
  {
    UserCodec.DecodeEncode(u);
  }

  /** The non-nullish parameters, stringified, in order. */
  function TextPairs(ps: Params): (r: seq<(string, string)>)
    ensures |r| <= |ps|
  {
    if ps == [] then []
    else (if IsNullish(ps[0].1) then [] else [(ps[0].0, ParamText(ps[0].1))]) + TextPairs(ps[1..])
  }

  function FormField(p: (string, ParamValue)): (string, FormValue) {
    match p.1
    case File(n) => (p.0, FormFile(n))
    case Data(j) => (p.0, FormText(ToStr(j)))
  }

  /** The per-method encoding: POST sends every key as a form field (files
      raw, everything else stringified, so `null` becomes "null"); PUT sends
      a URL-encoded body and GET/DELETE a query string, both without
      `null`/`undefined` values. */
  function EncodeParams(m: Method, ps: Params): (r: Request)
    ensures m == PostMethod ==>
      r.FormBody? && |r.fields| == |ps| && forall i :: 0 <= i < |ps| ==> r.fields[i].0 == ps[i].0
    ensures m == PostMethod ==> forall i :: 0 <= i < |ps| ==>
      r.fields[i].1 == (if ps[i].1.File? then FormFile(ps[i].1.name) else FormText(ToStr(ps[i].1.j)))
    ensures m == PutMethod ==> r == UrlEncodedBody(TextPairs(ps))
    ensures (m == GetMethod || m == DeleteMethod) ==> r == QueryString(TextPairs(ps))
  {
    match m
    case PostMethod => FormBody(seq(|ps|, i requires 0 <= i < |ps| => FormField(ps[i])))
    case PutMethod => UrlEncodedBody(TextPairs(ps))
    case _ => QueryString(TextPairs(ps))
  }

  /** Some pair has the key. */
  predicate NamesKey(pairs: seq<(string, string)>, key: string) {
    exists i :: 0 <= i < |pairs| && pairs[i].0 == key
  }

  /** Some occurrence of the key carries a value that is not
      `null`/`undefined`. */
  predicate CarriesKey(ps: Params, key: string) {
    exists i :: 0 <= i < |ps| && ps[i].0 == key && !IsNullish(ps[i].1)
  }

  lemma NamesKeyAppend(a: seq<(string, string)>, b: seq<(string, string)>, key: string)
    ensures NamesKey(a + b, key) <==> NamesKey(a, key) || NamesKey(b, key)
  {
    if NamesKey(a + b, key) {
      var i :| 0 <= i < |a + b| && (a + b)[i].0 == key;
      if i >= |a| {
        assert b[i - |a|] == (a + b)[i];
      }
    }
    if NamesKey(a, key) {
      var i :| 0 <= i < |a| && a[i].0 == key;
      assert (a + b)[i] == a[i];
    }
    if NamesKey(b, key) {
      var i :| 0 <= i < |b| && b[i].0 == key;
      assert (a + b)[|a| + i] == b[i];
    }
  }

  lemma CarriesKeyCons(ps: Params, key: string)
    requires ps != []
    ensures CarriesKey(ps, key) <==> (ps[0].0 == key && !IsNullish(ps[0].1)) || CarriesKey(ps[1..], key)
  {
    if CarriesKey(ps, key) {
      var i :| 0 <= i < |ps| && ps[i].0 == key && !IsNullish(ps[i].1);
      if i > 0 {
        assert ps[1..][i - 1] == ps[i];
      }
    }
    if CarriesKey(ps[1..], key) {
      var i :| 0 <= i < |ps[1..]| && ps[1..][i].0 == key && !IsNullish(ps[1..][i].1);
      assert ps[i + 1] == ps[1..][i];
    }
  }

  /** A key survives the PUT/GET/DELETE encoding iff some occurrence of it
      carries a value that is not `null`/`undefined`, and the text sent
      with it is the stringified value of such an occurrence. */
  lemma {:induction false} TextPairsKeys(ps: Params, key: string)
    ensures NamesKey(TextPairs(ps), key) <==> CarriesKey(ps, key)
    ensures forall text :: (key, text) in TextPairs(ps) <==> CarriesPair(ps, key, text)
    decreases |ps|
  {
    forall text
      ensures (key, text) in TextPairs(ps) <==> CarriesPair(ps, key, text)
    {
      TextPairsSent(ps, key, text);
    }
    if ps != [] {
      TextPairsKeys(ps[1..], key);
      var head := if IsNullish(ps[0].1) then [] else [(ps[0].0, ParamText(ps[0].1))];
      assert TextPairs(ps) == head + TextPairs(ps[1..]);
      NamesKeyAppend(head, TextPairs(ps[1..]), key);
      CarriesKeyCons(ps, key);
      assert NamesKey(head, key) <==> ps[0].0 == key && !IsNullish(ps[0].1) by {
        if NamesKey(head, key) {
          var i :| 0 <= i < |head| && head[i].0 == key;
          assert head[i] == head[0];
        }
        if ps[0].0 == key && !IsNullish(ps[0].1) {
          assert head[0].0 == key;
        }
      }
    }
  }

  /** Some occurrence of the key carries a value that is not
      `null`/`undefined` and stringifies to `text`. */
  predicate CarriesPair(ps: Params, key: string, text: string) {
    exists i :: 0 <= i < |ps| && ps[i].0 == key && !IsNullish(ps[i].1) && ParamText(ps[i].1) == text
  }

  lemma CarriesPairCons(ps: Params, key: string, text: string)
    requires ps != []
    ensures CarriesPair(ps, key, text) <==>
      (ps[0].0 == key && !IsNullish(ps[0].1) && ParamText(ps[0].1) == text) || CarriesPair(ps[1..], key, text)
  {
    if CarriesPair(ps, key, text) {
      var i :| 0 <= i < |ps| && ps[i].0 == key && !IsNullish(ps[i].1) && ParamText(ps[i].1) == text;
      if i > 0 {
        assert ps[1..][i - 1] == ps[i];
      }
    }
    if CarriesPair(ps[1..], key, text) {
      var i :| 0 <= i < |ps[1..]| && ps[1..][i].0 == key && !IsNullish(ps[1..][i].1) && ParamText(ps[1..][i].1) == text;
      assert ps[i + 1] == ps[1..][i];
    }
  }

  /** A pair is sent iff some occurrence of its key carries a value that is
      not `null`/`undefined` and stringifies to its text. */
  lemma {:induction false} TextPairsSent(ps: Params, key: string, text: string)
    ensures (key, text) in TextPairs(ps) <==> CarriesPair(ps, key, text)
    decreases |ps|
  {
    if ps != [] {
      TextPairsSent(ps[1..], key, text);
      var head := if IsNullish(ps[0].1) then [] else [(ps[0].0, ParamText(ps[0].1))];
      assert TextPairs(ps) == head + TextPairs(ps[1..]);
      CarriesPairCons(ps, key, text);
    }
  }

  /** Keeps a parameter the PUT/GET/DELETE encodings send. */
  predicate Sent(p: (string, ParamValue)) {
    !IsNullish(p.1)
  }

  /** Renders a sent parameter. */
  function Rendered(p: (string, ParamValue)): (string, string) {
    (p.0, ParamText(p.1))
  }

  /** The PUT/GET/DELETE pairs are the parameters that are not
      `null`/`undefined`, in their order, each with its stringified
      value. */
  lemma {:induction false} TextPairsIsReference(ps: Params)
    ensures TextPairs(ps) == MapSeq(Filter(ps, Sent), Rendered)
    decreases |ps|
  {
    if ps != [] {
      TextPairsIsReference(ps[1..]);
      var rest := Filter(ps[1..], Sent);
      assert Filter(ps, Sent) == (if Sent(ps[0]) then [ps[0]] else []) + rest;
      if Sent(ps[0]) {
        assert ([ps[0]] + rest)[1..] == rest;
      } else {
        assert [] + rest == rest;
      }
    }
  }

  /** POST keeps a `null` parameter, stringified. */
  lemma PostKeepsNull(key: string)
    ensures EncodeParams(PostMethod, [(key, Data(JNull))]) == FormBody([(key, FormText("null"))])
  {
  }
}
