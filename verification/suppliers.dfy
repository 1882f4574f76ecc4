/** The suppliers page: the client-side search over the loaded list, the
    load step, and the guard on editing. */
module Suppliers {
  import opened Wrappers
  import opened Text
  import opened JsValues
  import opened Types
  import opened Seqs
  import opened ListView

  /** A supplier is kept when its name holds the term ignoring case, or its
      contact number holds the term as typed. */
  predicate Matches(s: Supplier, term: string) {
    ContainsIgnoringCase(s.supplierName, term) || Contains(s.supplierContactNumber, term)
  }

  function MatchesTerm(term: string): Supplier -> bool {
    (s: Supplier) => Matches(s, term)
  }

  /** `handleSearch(value)`: the rows shown. */
  function HandleSearch(suppliers: seq<Supplier>, value: string): (shown: seq<Supplier>)
    ensures IsBlank(value) ==> shown == suppliers
    ensures |shown| <= |suppliers|
  {
    FilterUnlessBlank(suppliers, value, MatchesTerm(value))
  }

  /** With a term, exactly the matching suppliers are shown, in order. */
  lemma HandleSearchSpec(suppliers: seq<Supplier>, value: string)
    requires !IsBlank(value)
    ensures IsSubsequence(HandleSearch(suppliers, value), suppliers)
    ensures forall s :: s in HandleSearch(suppliers, value) <==> s in suppliers && Matches(s, value)
  {
    FilterMembership(suppliers, MatchesTerm(value));
  }

  /** The page's lists and loading flag, and the alert (if any) the last
      load raised. */
  datatype Page = Page(suppliers: seq<Supplier>, filtered: seq<Supplier>, loading: bool, alert: Option<string>)

  const LoadFailed: string := "Failed to load suppliers. Please try again."

  /** `loadSuppliers()`: both lists take the loaded suppliers (a search in
      progress is dropped), or both are emptied when the call throws. */
  function LoadSuppliers(p: Page, fetched: Outcome<seq<Supplier>>): (r: Page)
    ensures !r.loading
    ensures r.suppliers == r.filtered
    ensures fetched.Threw? <==> r.alert == Some(LoadFailed)
    ensures fetched.Threw? ==> r.suppliers == []
    ensures fetched.Returned? ==> r.suppliers == fetched.value
  {
    match fetched
    case Threw(_) => Page([], [], false, Some(LoadFailed))
    case Returned(list) => Page(list, list, false, None)
  }

  /** What saving an edit does: refuse without a selected supplier, or
      send the update. */
  datatype EditOutcome = NoSelection | SendUpdate(id: Num, name: string, address: string, contactNumber: string)

  /** `EditSupplier(form)`: the selected id is checked for truthiness, so
      an id of 0 (or `NaN`) counts as no selection. */
  function EditSupplier(editingId: Option<Num>, name: string, address: string, contactNumber: string): (r: EditOutcome)
    ensures r.NoSelection? <==> editingId.None? || !NumTruthy(editingId.value)
    ensures r.SendUpdate? ==> r == SendUpdate(editingId.value, name, address, contactNumber)
  {
    if editingId.None? || !NumTruthy(editingId.value) then NoSelection
    else SendUpdate(editingId.value, name, address, contactNumber)
  }

  /** A supplier whose id is 0 can never be edited. */
  lemma ZeroIdNeverEdited(name: string, address: string, contactNumber: string)
    ensures EditSupplier(Some(Fin(0.0)), name, address, contactNumber) == NoSelection
  {
  }
}
