/** The invoice list page: the server rows mapped to display invoices, the
    status label, the search filter, the summary figures and the load
    effect on the page state. */
module Invoices {
  import opened Wrappers
  import opened Text
  import opened JsValues
  import opened Seqs

  /** Offset between an invoice's id and the number shown to users. */
  const NumberOffset: int := 10000

  /** One row of the invoice list as the server sends it; a money column
      the server leaves out or sends as `null` is `None`. */
  datatype ApiInvoice = ApiInvoice(
    invoiceId: int, clientId: int, clientName: Option<string>, invoiceDateTime: string,
    vat: Option<Num>, vatPrice: Option<Num>, discount: Option<Num>, discountPrice: Option<Num>,
    grandTotal: real, status: int, userId: int)

  datatype Invoice = Invoice(
    invoiceId: int, invoiceNumber: int, clientId: int, clientName: Option<string>,
    invoiceDateTime: string, vat: real, vatPrice: real, discount: real, discountPrice: real,
    grandTotal: real, status: int, userId: int)

  /** `x || 0` for a column that may be missing. */
  function OrZero(x: Option<Num>): (r: real)
    ensures x.Some? && NumTruthy(x.value) ==> r == x.value.v
    ensures x.None? || !NumTruthy(x.value) ==> r == 0.0
  {
    if x.Some? then NumOr(x.value, 0.0) else 0.0
  }

  /** The mapping applied to each server row. */
  function ToInvoice(a: ApiInvoice): (inv: Invoice)
    ensures inv.invoiceNumber - NumberOffset == a.invoiceId == inv.invoiceId
    ensures inv.vat == OrZero(a.vat) && inv.vatPrice == OrZero(a.vatPrice)
    ensures inv.discount == OrZero(a.discount) && inv.discountPrice == OrZero(a.discountPrice)
    ensures (inv.clientId, inv.clientName, inv.invoiceDateTime, inv.grandTotal, inv.status, inv.userId)
         == (a.clientId, a.clientName, a.invoiceDateTime, a.grandTotal, a.status, a.userId)
  {
    Invoice(a.invoiceId, a.invoiceId + NumberOffset, a.clientId, a.clientName, a.invoiceDateTime,
      OrZero(a.vat), OrZero(a.vatPrice), OrZero(a.discount), OrZero(a.discountPrice),
      a.grandTotal, a.status, a.userId)
  }

  function ToInvoices(rows: seq<ApiInvoice>): (r: seq<Invoice>)
    ensures |r| == |rows|
    ensures forall i :: 0 <= i < |rows| ==> r[i] == ToInvoice(rows[i])
  {
    if rows == [] then [] else [ToInvoice(rows[0])] + ToInvoices(rows[1..])
  }

  /** The badge label for a status code. */
  function StatusLabel(status: int): (badge: string)
    ensures badge == "Draft" <==> status == 0
    ensures badge == "Completed" <==> status == 1
    ensures badge == "Paid" <==> status == 2
    ensures status !in {0, 1, 2} <==> badge == "Unknown"
  {
    if status == 0 then "Draft"
    else if status == 1 then "Completed"
    else if status == 2 then "Paid"
    else "Unknown"
  }

  /** Whether an invoice matches the search term: the lower-cased client
      name holds the lower-cased term, or the invoice number's digits hold
      the term as typed. */
  predicate Matches(inv: Invoice, term: string) {
    (inv.clientName.Some? && Contains(ToLower(inv.clientName.value), ToLower(term)))
    || Contains(IntToString(inv.invoiceNumber), term)
  }

  function MatchesTerm(term: string): Invoice -> bool {
    (inv: Invoice) => Matches(inv, term)
  }

  /** `filteredInvoices()`. */
  function FilterInvoices(invoices: seq<Invoice>, term: string): (r: seq<Invoice>)
    ensures |r| <= |invoices|
  {
    Filter(invoices, MatchesTerm(term))
  }

  /** The filter keeps, in order, exactly the matching invoices. */
  lemma FilterInvoicesSpec(invoices: seq<Invoice>, term: string)
    ensures IsSubsequence(FilterInvoices(invoices, term), invoices)
    ensures forall inv :: inv in FilterInvoices(invoices, term) <==> inv in invoices && Matches(inv, term)
  {
    FilterMembership(invoices, MatchesTerm(term));
  }

  /** An empty term keeps every invoice. */
  lemma EmptyTermKeepsAll(invoices: seq<Invoice>)
    ensures FilterInvoices(invoices, "") == invoices
  {
    forall i | 0 <= i < |invoices| ensures MatchesTerm("")(invoices[i]) {
      EmptyIsEverywhere(IntToString(invoices[i].invoiceNumber));
    }
    FilterKeepsAll(invoices, MatchesTerm(""));
  }

  /** The number is searched as typed: an invoice with no client name is
      found by its own number. */
  lemma FoundByNumber(inv: Invoice)
    ensures Matches(inv, IntToString(inv.invoiceNumber))
  {
    assert StartsWith(IntToString(inv.invoiceNumber), IntToString(inv.invoiceNumber));
  }

  predicate IsCompleted(inv: Invoice) {
    inv.status == 1
  }

  /** What a completed invoice adds to the revenue figure. */
  function NetTotal(inv: Invoice): real {
    inv.grandTotal - inv.discountPrice
  }

  /** The "Completed" figure. */
  function CompletedCount(invoices: seq<Invoice>): (n: nat)
    ensures n <= |invoices|
  {
    |Filter(invoices, IsCompleted)|
  }

  /** The "Total Revenue" figure. */
  function Revenue(invoices: seq<Invoice>): real {
    Sum(Filter(invoices, IsCompleted), NetTotal)
  }

  /** Revenue is the sum over all invoices where only completed ones
      count; draft, paid and unknown invoices add nothing. */
  lemma RevenueOnlyCompleted(invoices: seq<Invoice>)
    ensures Revenue(invoices) == Sum(invoices, Masked(IsCompleted, NetTotal))
    ensures CompletedCount(invoices) == Count(invoices, IsCompleted)
  {
    SumFilter(invoices, IsCompleted, NetTotal);
    CountIsFilterLength(invoices, IsCompleted);
  }

  /** Appending an invoice that is not completed leaves both figures
      unchanged; appending a completed one adds one and its net total. */
  lemma FiguresAppend(invoices: seq<Invoice>, inv: Invoice)
    ensures CompletedCount(invoices + [inv]) == CompletedCount(invoices) + (if IsCompleted(inv) then 1 else 0)
    ensures Revenue(invoices + [inv]) == Revenue(invoices) + (if IsCompleted(inv) then NetTotal(inv) else 0.0)
  {
    FilterAppend(invoices, [inv], IsCompleted);
    SumAppend(Filter(invoices, IsCompleted), Filter([inv], IsCompleted), NetTotal);
    if IsCompleted(inv) {
      assert Filter([inv], IsCompleted) == [inv];
      assert Sum([inv], NetTotal) == Sum([inv][..0], NetTotal) + NetTotal(inv);
    } else {
      assert Filter([inv], IsCompleted) == [];
    }
  }

  // ---------------------------------------------------------------------
  // Loading
  // ---------------------------------------------------------------------

  /** What the invoice list call produced: whether `result` was truthy and
      the `data` rows, if any. */
  datatype ListResponse = ListResponse(result: bool, data: Option<seq<ApiInvoice>>)

  datatype PageState = PageState(invoices: seq<Invoice>, loading: bool, error: Option<string>)

  const InvalidFormat: string := "Failed to load invoices: Invalid response format"

  /** `loadInvoices()`: a thrown call reports its message. */
  function LoadInvoices(st: PageState, response: Outcome<ListResponse>): (r: PageState)
    ensures !r.loading
    ensures r.error.None? <==> response.Returned? && response.value.result && response.value.data.Some?
    ensures r.error.Some? ==> r.invoices == st.invoices
    ensures r.error.None? ==> r.invoices == ToInvoices(response.value.data.value)
  {
    match response
    case Threw(message) => PageState(st.invoices, false, Some("Failed to load invoices: " + message))
    case Returned(ListResponse(result, data)) =>
      if result && data.Some? then PageState(ToInvoices(data.value), false, None)
      else PageState(st.invoices, false, Some(InvalidFormat))
  }

  /** The alert `viewInvoice` raises once the details call returns. */
  function ViewAlert(invoiceId: int, result: bool): string {
    if result then "Invoice #" + IntToString(invoiceId + NumberOffset) + " details loaded successfully!"
    else "Failed to load invoice details: Invalid response format"
  }

  /** The alert announces the number the list shows for that invoice. */
  lemma AlertNamesDisplayedNumber(a: ApiInvoice)
    ensures ViewAlert(a.invoiceId, true) == "Invoice #" + IntToString(ToInvoice(a).invoiceNumber) + " details loaded successfully!"
  {
  }
}
